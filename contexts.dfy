/** The contexts through which consensus-layer (CL) and execution-layer (EL)
    clients are handed from one launch to the next. */
module Contexts {
  import opened Services

  /** What a launched CL client exposes to later launches: its ENR, private IP and HTTP port. */
  datatype CLClientContext = CLClientContext(enr: string, ipAddr: string, httpPortNum: Port)

  /** The EL client a CL client connects to: its private IP and JSON-RPC port. */
  datatype ELClientContext = ELClientContext(ipAddr: string, rpcPortNum: Port)

  /** Where the key generator left one node's Teku validator keys and secrets, on the module container. */
  datatype NodeTypeKeystoreDirpaths = NodeTypeKeystoreDirpaths(tekuKeysDirpath: string, tekuSecretsDirpath: string)
}
