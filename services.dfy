/** The orchestrator's service types that the launcher builds and reads:
    port specifications, the shared directory with its two views, and the
    container configuration. */
module Services {

  /** Port numbers are Go `uint16`. */
  type Port = n: nat | n < 0x1_0000

  datatype PortProtocol = TCP | UDP

  datatype PortSpec = PortSpec(number: Port, protocol: PortProtocol)

  /** One location in the directory shared between the module container and
      the service container, as each of the two sees it. */
  datatype SharedPath = SharedPath(absPathOnThisContainer: string, absPathOnServiceContainer: string)

  /** The same child entry seen from both containers. */
  function GetChildPath(dir: SharedPath, name: string): SharedPath
  {
    SharedPath(dir.absPathOnThisContainer + "/" + name, dir.absPathOnServiceContainer + "/" + name)
  }

  /** What `NewContainerConfigBuilder(image).WithUsedPorts(..).WithEntrypointOverride(..)
      .WithCmdOverride(..).Build()` produces; the builder's other settings stay at their defaults. */
  datatype ContainerConfig = ContainerConfig(
    image: string,
    usedPorts: map<string, PortSpec>,
    entrypointOverride: seq<string>,
    cmdOverride: seq<string>)
}
