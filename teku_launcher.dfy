/** The Teku consensus-layer client launcher: the container configuration its
    supplier builds (after staging the genesis files and validator keystores
    into the shared directory), and the launch sequence that adds the service,
    waits for it and reads its identity.

    Every collaborator (file copies, the orchestrator, the availability waiter,
    the node's REST API) is an abstract outcome given as a parameter; the
    calls made to them are recorded, in order, in a returned trace. */
module TekuLauncher {
  import opened Results
  import opened Text
  import opened Services
  import opened Contexts

  const ImageName := "consensys/teku:latest"
  const TekuBinaryFilepathInImage := "/opt/teku/bin/teku"

  // The container runs as the "teku" user, which cannot write to root.
  const ConsensusDataDirpathOnServiceContainer := "/opt/teku/consensus-data"

  const ValidatingRewardsAccount := "0x0000000000000000000000000000000000000001"

  const TcpDiscoveryPortID := "tcp-discovery"
  const UdpDiscoveryPortID := "udp-discovery"
  const HttpPortID := "http"

  const DiscoveryPortNum: Port := 9000
  const HttpPortNum: Port := 4000

  const GenesisConfigYmlRelFilepathInSharedDir := "genesis-config.yml"
  const GenesisSszRelFilepathInSharedDir := "genesis.ssz"
  const ValidatorKeysDirpathRelToSharedDirRoot := "validator-keys"
  const ValidatorSecretsDirpathRelToSharedDirRoot := "validator-secrets"

  // Teku must write a lockfile into the secrets directory, but the module
  // populates the shared directory as root; the command therefore copies the
  // keystores again, as the teku user, into its home directory. `$HOME` is
  // left for the container's shell to expand.
  const DestValidatorKeysDirpathInServiceContainer := "$HOME/validator-keys"
  const DestValidatorSecretsDirpathInServiceContainer := "$HOME/validator-secrets"

  // Teku takes about 35 seconds to bring its HTTP server up.
  const MaxNumHealthcheckRetries: nat := 60
  const TimeBetweenHealthcheckRetriesMillis: nat := 1000

  const BootnodesFlag := "--p2p-discovery-bootnodes="

  const UsedPorts: map<string, PortSpec> := map[
    TcpDiscoveryPortID := PortSpec(DiscoveryPortNum, TCP),
    UdpDiscoveryPortID := PortSpec(DiscoveryPortNum, UDP),
    HttpPortID := PortSpec(HttpPortNum, TCP)
  ]

  datatype TekuCLClientLauncher = TekuCLClientLauncher(
    genesisConfigYmlFilepathOnModuleContainer: string,
    genesisSszFilepathOnModuleContainer: string)

  // ------------------------------------------------------------------
  // The command line and the container configuration
  // ------------------------------------------------------------------

  /** The EL client's JSON-RPC endpoint, `http://<ip>:<port>`. */
  function ElClientRpcUrl(el: ELClientContext): string
  {
    "http://" + el.ipAddr + ":" + NatToString(el.rpcPortNum)
  }

  /** The two `cp -R` steps that copy the keystores, as the teku user, from
      the shared directory into its home directory, each followed by `&&`. */
  function KeystoreCopyArgs(sharedDir: SharedPath): seq<string>
  {
    var validatorKeys := GetChildPath(sharedDir, ValidatorKeysDirpathRelToSharedDirRoot);
    var validatorSecrets := GetChildPath(sharedDir, ValidatorSecretsDirpathRelToSharedDirRoot);
    [
      "cp",
      "-R",
      validatorKeys.absPathOnServiceContainer,
      DestValidatorKeysDirpathInServiceContainer,
      "&&",
      "cp",
      "-R",
      validatorSecrets.absPathOnServiceContainer,
      DestValidatorSecretsDirpathInServiceContainer,
      "&&"
    ]
  }

  /** The flags passed to the Teku binary on every launch. */
  function TekuFlags(el: ELClientContext, privateIpAddr: string, sharedDir: SharedPath): seq<string>
  {
    var genesisConfigYml := GetChildPath(sharedDir, GenesisConfigYmlRelFilepathInSharedDir);
    var genesisSsz := GetChildPath(sharedDir, GenesisSszRelFilepathInSharedDir);
    var elClientRpcUrl := ElClientRpcUrl(el);
    [
      "--network=" + genesisConfigYml.absPathOnServiceContainer,
      "--initial-state=" + genesisSsz.absPathOnServiceContainer,
      "--data-path=" + ConsensusDataDirpathOnServiceContainer,
      "--data-storage-mode=PRUNE",
      "--p2p-enabled=true",
      "--eth1-endpoints=" + elClientRpcUrl,
      "--Xee-endpoint=" + elClientRpcUrl,
      "--p2p-advertised-ip=" + privateIpAddr,
      "--rest-api-enabled=true",
      "--rest-api-docs-enabled=true",
      "--rest-api-interface=0.0.0.0",
      "--rest-api-port=" + NatToString(HttpPortNum),
      "--rest-api-host-allowlist=*",
      "--data-storage-non-canonical-blocks-enabled=true",
      "--log-destination=CONSOLE",
      "--validator-keys=" + DestValidatorKeysDirpathInServiceContainer + ":" + DestValidatorSecretsDirpathInServiceContainer,
      "--Xvalidators-suggested-fee-recipient-address=" + ValidatingRewardsAccount
    ]
  }

  /** The source's `cmdArgs` literal: the keystore copies, the binary, then the Teku flags. */
  function FixedCmdArgs(el: ELClientContext, privateIpAddr: string, sharedDir: SharedPath): seq<string>
  {
    KeystoreCopyArgs(sharedDir) + [TekuBinaryFilepathInImage] + TekuFlags(el, privateIpAddr, sharedDir)
  }

  /** The full argument list: the fixed arguments, then the bootnode's ENR when there is a bootnode. */
  function CmdArgs(bootnode: Option<CLClientContext>, el: ELClientContext, privateIpAddr: string, sharedDir: SharedPath): seq<string>
  {
    FixedCmdArgs(el, privateIpAddr, sharedDir) + (if bootnode.Some? then [BootnodesFlag + bootnode.value.enr] else [])
  }

  /** The configuration the supplier returns once staging has succeeded. */
  function ContainerConfigFor(bootnode: Option<CLClientContext>, el: ELClientContext, privateIpAddr: string, sharedDir: SharedPath): ContainerConfig
  {
    ContainerConfig(ImageName, UsedPorts, ["sh", "-c"], [Join(CmdArgs(bootnode, el, privateIpAddr, sharedDir), " ")])
  }

  predicate StartsWith(s: string, prefix: string)
  {
    |prefix| <= |s| && s[..|prefix|] == prefix
  }

  /** The bootnode flag is among the Teku flags exactly when a bootnode is
      given; it is then the last argument and carries exactly the bootnode's ENR. */
  lemma BootnodeArgumentIffBootnodeContext(bootnode: Option<CLClientContext>, el: ELClientContext, privateIpAddr: string, sharedDir: SharedPath)
    ensures var args := CmdArgs(bootnode, el, privateIpAddr, sharedDir);
      && |args| == (if bootnode.Some? then 29 else 28)
      && (bootnode.Some? ==> args[28] == BootnodesFlag + bootnode.value.enr)
      && (bootnode.None? ==> args == FixedCmdArgs(el, privateIpAddr, sharedDir))
      && (forall i :: 11 <= i < |args| && StartsWith(args[i], BootnodesFlag) ==> bootnode.Some? && i == 28)
  {
    var args := CmdArgs(bootnode, el, privateIpAddr, sharedDir);
    var flags := TekuFlags(el, privateIpAddr, sharedDir);
    TekuFlagsAreNotBootnodesFlag(el, privateIpAddr, sharedDir);
    forall i | 11 <= i < 28
      ensures !StartsWith(args[i], BootnodesFlag)
    {
      assert args[i] == flags[i - 11];
    }
  }

  lemma TekuFlagsAreNotBootnodesFlag(el: ELClientContext, privateIpAddr: string, sharedDir: SharedPath)
    ensures var flags := TekuFlags(el, privateIpAddr, sharedDir);
      forall i :: 0 <= i < |flags| ==> !StartsWith(flags[i], BootnodesFlag)
  {
    var flags := TekuFlags(el, privateIpAddr, sharedDir);
    // Every fixed Teku flag differs from the bootnode flag at its third
    // character or, for the other two `--p2p-` flags, at its seventh.
    assert forall i :: 0 <= i < |flags| ==> flags[i][2] != 'p' || flags[i][6] != 'd';
    assert BootnodesFlag[2] == 'p' && BootnodesFlag[6] == 'd';
  }

  /** The EL client's URL is `http://<ip>:<port>` and the same string follows
      both `--eth1-endpoints=` and `--Xee-endpoint=`. */
  lemma ElClientRpcUrlUnderBothEndpointFlags(bootnode: Option<CLClientContext>, el: ELClientContext, privateIpAddr: string, sharedDir: SharedPath)
    ensures var args := CmdArgs(bootnode, el, privateIpAddr, sharedDir);
      var url := "http://" + el.ipAddr + ":" + NatToString(el.rpcPortNum);
      && args[16] == "--eth1-endpoints=" + url
      && args[17] == "--Xee-endpoint=" + url
  {
  }

  /** For an IPv4 address (no colon) the URL splits back into scheme, host and a port that parses to the EL client's port. */
  lemma {:induction false} ElClientRpcUrlRoundTrip(el: ELClientContext)
    requires ':' !in el.ipAddr
    ensures var pieces := Split(ElClientRpcUrl(el), ':');
      && pieces == ["http", "//" + el.ipAddr, NatToString(el.rpcPortNum)]
      && IsDigits(pieces[2]) && ParseNat(pieces[2]) == el.rpcPortNum
  {
    var parts := ["http", "//" + el.ipAddr, NatToString(el.rpcPortNum)];
    var port := NatToString(el.rpcPortNum);
    DigitsExclude(port, ':');
    assert Join(parts, ":") == ElClientRpcUrl(el) by {
      assert parts[1..] == ["//" + el.ipAddr, port];
      assert parts[1..][1..] == [port];
      assert Join(parts[1..], ":") == "//" + el.ipAddr + ":" + port;
      assert "http" + ":" + "//" == "http://";
    }
    SplitJoin(parts, ':');
    ParseNatToString(el.rpcPortNum);
  }

  /** `--validator-keys=` always names the two home-directory destinations
      of the `cp` steps, whatever the inputs (the keystores' own locations do
      not even reach the command). */
  lemma ValidatorKeysFlagIsHomeCopies(bootnode: Option<CLClientContext>, el: ELClientContext, privateIpAddr: string, sharedDir: SharedPath)
    ensures var args := CmdArgs(bootnode, el, privateIpAddr, sharedDir);
      && args[26] == "--validator-keys=" + args[3] + ":" + args[8]
      && args[3] == DestValidatorKeysDirpathInServiceContainer == "$HOME/validator-keys"
      && args[8] == DestValidatorSecretsDirpathInServiceContainer == "$HOME/validator-secrets"
  {
  }

  /** The arguments open with `cp -R <keys> $HOME/validator-keys && cp -R
      <secrets> $HOME/validator-secrets &&` and then the Teku binary, so the
      shell line copies both keystores before it starts the binary. */
  lemma {:induction false} CommandCopiesBeforeBinary(bootnode: Option<CLClientContext>, el: ELClientContext, privateIpAddr: string, sharedDir: SharedPath)
    ensures var args := CmdArgs(bootnode, el, privateIpAddr, sharedDir);
      && args[..10] == KeystoreCopyArgs(sharedDir)
      && KeystoreCopyArgs(sharedDir) == [
           "cp", "-R", GetChildPath(sharedDir, "validator-keys").absPathOnServiceContainer, "$HOME/validator-keys", "&&",
           "cp", "-R", GetChildPath(sharedDir, "validator-secrets").absPathOnServiceContainer, "$HOME/validator-secrets", "&&"]
      && args[10] == "/opt/teku/bin/teku"
      && Join(args, " ") == Join(args[..10], " ") + " " + args[10] + " " + Join(args[11..], " ")
  {
    var args := CmdArgs(bootnode, el, privateIpAddr, sharedDir);
    assert args == args[..10] + ([args[10]] + args[11..]);
    JoinConcat(args[..10], [args[10]] + args[11..], " ");
    JoinConcat([args[10]], args[11..], " ");
  }

  /** Without a bootnode the command is the joined fixed arguments; with one,
      it is that followed by a single space and the bootnode flag. */
  lemma {:induction false} CommandEndsWithBootnode(bootnode: Option<CLClientContext>, el: ELClientContext, privateIpAddr: string, sharedDir: SharedPath)
    ensures var fixed := Join(FixedCmdArgs(el, privateIpAddr, sharedDir), " ");
      Join(CmdArgs(bootnode, el, privateIpAddr, sharedDir), " ") ==
        if bootnode.Some? then fixed + " " + BootnodesFlag + bootnode.value.enr else fixed
  {
    if bootnode.Some? {
      JoinConcat(FixedCmdArgs(el, privateIpAddr, sharedDir), [BootnodesFlag + bootnode.value.enr], " ");
    } else {
      assert CmdArgs(bootnode, el, privateIpAddr, sharedDir) == FixedCmdArgs(el, privateIpAddr, sharedDir);
    }
  }

  /** Arguments are joined without quoting or escaping: splitting the
      command at single spaces gives back the argument list exactly when no
      argument contains a space. How `sh -c` then parses the line (tabs and
      newlines, the `&&` operator, the expansion of `$HOME`) is not modelled. */
  lemma CommandWordsAreArgsIffNoSpaces(bootnode: Option<CLClientContext>, el: ELClientContext, privateIpAddr: string, sharedDir: SharedPath)
    ensures var args := CmdArgs(bootnode, el, privateIpAddr, sharedDir);
      Split(Join(args, " "), ' ') == args <==> forall k :: 0 <= k < |args| ==> ' ' !in args[k]
  {
    var args := CmdArgs(bootnode, el, privateIpAddr, sharedDir);
    if forall k :: 0 <= k < |args| ==> ' ' !in args[k] {
      SplitJoin(args, ' ');
    } else {
      var k :| 0 <= k < |args| && ' ' in args[k];
      SeparatorInPartIsNotRecoverable(args, ' ', k);
    }
  }

  /** In particular a bootnode ENR containing a space reaches Teku as more than one argument. */
  lemma SpacedEnrIsSplit(bootnode: Option<CLClientContext>, el: ELClientContext, privateIpAddr: string, sharedDir: SharedPath)
    requires bootnode.Some? && ' ' in bootnode.value.enr
    ensures Split(Join(CmdArgs(bootnode, el, privateIpAddr, sharedDir), " "), ' ') != CmdArgs(bootnode, el, privateIpAddr, sharedDir)
  {
    var args := CmdArgs(bootnode, el, privateIpAddr, sharedDir);
    var j :| 0 <= j < |bootnode.value.enr| && bootnode.value.enr[j] == ' ';
    assert args[28][|BootnodesFlag| + j] == ' ';
    SeparatorInPartIsNotRecoverable(args, ' ', 28);
  }

  /** The configuration runs `sh -c` on the single joined command line, from
      the Teku image, exposing both discovery ports on 9000 and the HTTP API on
      the same port the command passes to `--rest-api-port`. */
  lemma ContainerConfigShape(bootnode: Option<CLClientContext>, el: ELClientContext, privateIpAddr: string, sharedDir: SharedPath)
    ensures var config := ContainerConfigFor(bootnode, el, privateIpAddr, sharedDir);
      var args := CmdArgs(bootnode, el, privateIpAddr, sharedDir);
      && config.image == "consensys/teku:latest"
      && config.entrypointOverride == ["sh", "-c"]
      && config.cmdOverride == [Join(args, " ")]
      && config.usedPorts.Keys == {"tcp-discovery", "udp-discovery", "http"}
      && config.usedPorts["tcp-discovery"] == PortSpec(9000, TCP)
      && config.usedPorts["udp-discovery"] == PortSpec(9000, UDP)
      && config.usedPorts["http"] == PortSpec(4000, TCP)
      && args[22] == "--rest-api-port=" + NatToString(config.usedPorts["http"].number)
      && args[22] == "--rest-api-port=4000"
  {
  }

  // ------------------------------------------------------------------
  // Staging into the shared directory
  // ------------------------------------------------------------------

  /** `CopyFileToSharedPath` copies one file; `recursive_copy.Copy` copies a directory tree. */
  datatype CopyKind = FileCopy | RecursiveCopy

  /** One staging copy, with its destination as the module container sees it. */
  datatype StagingCopy = StagingCopy(kind: CopyKind, src: string, dest: string)

  datatype StagingError = CopyFailed(copy: StagingCopy)

  /** The four staging copies, in the order the supplier runs them. */
  function StagingCopies(launcher: TekuCLClientLauncher, keystore: NodeTypeKeystoreDirpaths, sharedDir: SharedPath): seq<StagingCopy>
  {
    [
      StagingCopy(FileCopy, launcher.genesisConfigYmlFilepathOnModuleContainer,
        GetChildPath(sharedDir, GenesisConfigYmlRelFilepathInSharedDir).absPathOnThisContainer),
      StagingCopy(FileCopy, launcher.genesisSszFilepathOnModuleContainer,
        GetChildPath(sharedDir, GenesisSszRelFilepathInSharedDir).absPathOnThisContainer),
      StagingCopy(RecursiveCopy, keystore.tekuKeysDirpath,
        GetChildPath(sharedDir, ValidatorKeysDirpathRelToSharedDirRoot).absPathOnThisContainer),
      StagingCopy(RecursiveCopy, keystore.tekuSecretsDirpath,
        GetChildPath(sharedDir, ValidatorSecretsDirpathRelToSharedDirRoot).absPathOnThisContainer)
    ]
  }

  /** Staging writes each child through the module container's view of the
      shared directory, and the command reads the same child through the
      service container's view. */
  lemma PathViewDiscipline(launcher: TekuCLClientLauncher, keystore: NodeTypeKeystoreDirpaths, bootnode: Option<CLClientContext>, el: ELClientContext, privateIpAddr: string, sharedDir: SharedPath)
    ensures var copies := StagingCopies(launcher, keystore, sharedDir);
      var args := CmdArgs(bootnode, el, privateIpAddr, sharedDir);
      var yml := GetChildPath(sharedDir, "genesis-config.yml");
      var ssz := GetChildPath(sharedDir, "genesis.ssz");
      var keys := GetChildPath(sharedDir, "validator-keys");
      var secrets := GetChildPath(sharedDir, "validator-secrets");
      && copies[0].dest == yml.absPathOnThisContainer && args[11] == "--network=" + yml.absPathOnServiceContainer
      && copies[1].dest == ssz.absPathOnThisContainer && args[12] == "--initial-state=" + ssz.absPathOnServiceContainer
      && copies[2].dest == keys.absPathOnThisContainer && args[2] == keys.absPathOnServiceContainer
      && copies[3].dest == secrets.absPathOnThisContainer && args[7] == secrets.absPathOnServiceContainer
  {
    var args := CmdArgs(bootnode, el, privateIpAddr, sharedDir);
    var flags := TekuFlags(el, privateIpAddr, sharedDir);
    assert args[2] == KeystoreCopyArgs(sharedDir)[2] && args[7] == KeystoreCopyArgs(sharedDir)[7];
    assert args[11] == flags[0] && args[12] == flags[1];
  }

  /** The index of the first copy that fails, if any. */
  function FirstFailure(copies: seq<StagingCopy>, failing: set<StagingCopy>): (k: Option<nat>)
    ensures k.Some? ==> k.value < |copies| && copies[k.value] in failing
    ensures forall j :: 0 <= j < |copies| && (k.None? || j < k.value) ==> copies[j] !in failing
  {
    if |copies| == 0 then None
    else if copies[0] in failing then Some(0)
    else
      match FirstFailure(copies[1..], failing)
      case None => None
      case Some(k) => Some(k + 1)
  }

  /** A copy that fails after copies that all succeed is the first failure. */
  lemma FirstFailureAt(copies: seq<StagingCopy>, failing: set<StagingCopy>, k: nat)
    requires k < |copies| && copies[k] in failing
    requires forall c :: c in copies[..k] ==> c !in failing
    ensures FirstFailure(copies, failing) == Some(k)
  {
    forall j | 0 <= j < k
      ensures copies[j] !in failing
    {
      assert copies[..k][j] == copies[j];
    }
  }

  /** The copies that run: all of them, or up to and including the first that fails. */
  function AttemptedCopies(copies: seq<StagingCopy>, failing: set<StagingCopy>): seq<StagingCopy>
  {
    match FirstFailure(copies, failing)
    case None => copies
    case Some(k) => copies[..k + 1]
  }

  /** The copies that run are a prefix of the staging order, every one but a
      failing last one succeeds, and nothing after a failure runs. */
  lemma AttemptedCopiesStopAtFirstFailure(copies: seq<StagingCopy>, failing: set<StagingCopy>)
    ensures var done := AttemptedCopies(copies, failing);
      && done <= copies
      && (forall j :: 0 <= j < |done| - 1 ==> done[j] !in failing)
      && (FirstFailure(copies, failing).None? <==> done == copies && forall j :: 0 <= j < |copies| ==> copies[j] !in failing)
      && (FirstFailure(copies, failing).Some? ==> |done| > 0 && done[|done| - 1] in failing)
  {
  }

  /** The container configuration supplier: the closure that
      `getContainerConfigSupplier` returns, applied to the IP address and
      shared directory the orchestrator assigns. It stages the genesis config,
      the genesis state, the keys and the secrets in that order, stopping at
      the first copy that fails (`failing` holds the copies that would fail),
      then assembles the command. `attempted` is the copies it ran, in order. */
  method ContainerConfigSupplier(
    launcher: TekuCLClientLauncher, bootnode: Option<CLClientContext>, el: ELClientContext,
    keystore: NodeTypeKeystoreDirpaths, failing: set<StagingCopy>,
    privateIpAddr: string, sharedDir: SharedPath)
    returns (r: Result<ContainerConfig, StagingError>, attempted: seq<StagingCopy>)
    ensures var copies := StagingCopies(launcher, keystore, sharedDir);
      && attempted == AttemptedCopies(copies, failing)
      && (r.Failure? <==> FirstFailure(copies, failing).Some?)
      && (r.Failure? ==> r.error == CopyFailed(copies[FirstFailure(copies, failing).value]))
    ensures r.Success? ==> r.value == ContainerConfigFor(bootnode, el, privateIpAddr, sharedDir)
  {
    ghost var copies := StagingCopies(launcher, keystore, sharedDir);

    var genesisConfigYmlSharedPath := GetChildPath(sharedDir, GenesisConfigYmlRelFilepathInSharedDir);
    var genesisConfigYmlCopy := StagingCopy(FileCopy, launcher.genesisConfigYmlFilepathOnModuleContainer, genesisConfigYmlSharedPath.absPathOnThisContainer);
    attempted := [genesisConfigYmlCopy];
    if genesisConfigYmlCopy in failing {
      return Failure(CopyFailed(genesisConfigYmlCopy)), attempted;
    }

    var genesisSszSharedPath := GetChildPath(sharedDir, GenesisSszRelFilepathInSharedDir);
    var genesisSszCopy := StagingCopy(FileCopy, launcher.genesisSszFilepathOnModuleContainer, genesisSszSharedPath.absPathOnThisContainer);
    attempted := attempted + [genesisSszCopy];
    if genesisSszCopy in failing {
      assert FirstFailure(copies, failing) == Some(1);
      return Failure(CopyFailed(genesisSszCopy)), attempted;
    }

    var validatorKeysSharedPath := GetChildPath(sharedDir, ValidatorKeysDirpathRelToSharedDirRoot);
    var validatorKeysCopy := StagingCopy(RecursiveCopy, keystore.tekuKeysDirpath, validatorKeysSharedPath.absPathOnThisContainer);
    attempted := attempted + [validatorKeysCopy];
    if validatorKeysCopy in failing {
      FirstFailureAt(copies, failing, 2);
      assert attempted == copies[..3];
      return Failure(CopyFailed(validatorKeysCopy)), attempted;
    }

    var validatorSecretsSharedPath := GetChildPath(sharedDir, ValidatorSecretsDirpathRelToSharedDirRoot);
    var validatorSecretsCopy := StagingCopy(RecursiveCopy, keystore.tekuSecretsDirpath, validatorSecretsSharedPath.absPathOnThisContainer);
    attempted := attempted + [validatorSecretsCopy];
    assert attempted == copies;
    if validatorSecretsCopy in failing {
      assert copies[..3] == [genesisConfigYmlCopy, genesisSszCopy, validatorKeysCopy];
      FirstFailureAt(copies, failing, 3);
      return Failure(CopyFailed(validatorSecretsCopy)), attempted;
    }
    assert forall j :: 0 <= j < |copies| ==> copies[j] in attempted;
    assert FirstFailure(copies, failing) == None;

    var config := BuildContainerConfig(bootnode, el, privateIpAddr, sharedDir);
    r := Success(config);
  }

  /** Once staging has succeeded: the argument list, with the bootnode's ENR
      appended when there is one, joined with spaces into the single string
      that `sh -c` runs. */
  method BuildContainerConfig(bootnode: Option<CLClientContext>, el: ELClientContext, privateIpAddr: string, sharedDir: SharedPath)
    returns (config: ContainerConfig)
    ensures config == ContainerConfigFor(bootnode, el, privateIpAddr, sharedDir)
  {
    var cmdArgs := FixedCmdArgs(el, privateIpAddr, sharedDir);
    if bootnode.Some? {
      cmdArgs := cmdArgs + [BootnodesFlag + bootnode.value.enr];
    }
    assert cmdArgs == CmdArgs(bootnode, el, privateIpAddr, sharedDir);
    var cmdStr := Join(cmdArgs, " ");
    config := ContainerConfig(ImageName, UsedPorts, ["sh", "-c"], [cmdStr]);
  }

  // ------------------------------------------------------------------
  // The launch sequence
  // ------------------------------------------------------------------

  /** What the orchestrator does with `AddService`: `registrationFailure` is a
      failure to register the service before its IP address and shared
      directory are assigned; otherwise it assigns `privateIpAddr` and
      `sharedDir` and runs the supplier with them. `failingCopies` are the
      staging copies that would fail; `startFailure` is a failure to start the
      container once configured; `privatePorts` is what `GetPrivatePorts`
      reports for the started service. */
  datatype Enclave = Enclave(
    registrationFailure: Option<string>,
    privateIpAddr: string,
    sharedDir: SharedPath,
    failingCopies: set<StagingCopy>,
    startFailure: Option<string>,
    privatePorts: map<string, PortSpec>)

  /** The node's answer to `GetNodeIdentity`; only the ENR is used. */
  datatype NodeIdentity = NodeIdentity(enr: string)

  /** How the started node's REST API behaves: whether the availability wait
      fails (and why), and what the identity query returns. */
  datatype NodeApi = NodeApi(availabilityFailure: Option<string>, identity: Result<NodeIdentity, string>)

  datatype AddServiceFailure = SupplierFailed(staging: StagingError) | SchedulerFailed(reason: string)

  datatype LaunchError =
    | AddServiceFailed(cause: AddServiceFailure)
    | HttpPortMissing(portId: string)
    | AvailabilityFailed(reason: string)
    | NodeIdentityFailed(reason: string)

  /** The calls the launch makes to its collaborators. */
  datatype Event =
    | Copied(copy: StagingCopy)
    | StartRequested(serviceId: string, config: ContainerConfig)
    | AwaitedAvailability(ipAddr: string, portNum: Port, maxRetries: nat, retryIntervalMillis: nat)
    | QueriedNodeIdentity(ipAddr: string, portNum: Port)

  function CopyEvents(copies: seq<StagingCopy>): seq<Event>
  {
    seq(|copies|, i requires 0 <= i < |copies| => Copied(copies[i]))
  }

  /** `TekuCLClientLauncher.Launch`: add the service (which runs the
      supplier), look up its `http` port, wait for the node to be available,
      query its identity and build its context. Each failure ends the launch
      with an error and no context; `trace` is the calls made, in order. */
  method Launch(
    launcher: TekuCLClientLauncher, serviceId: string, bootnode: Option<CLClientContext>,
    el: ELClientContext, keystore: NodeTypeKeystoreDirpaths, enclave: Enclave, node: NodeApi)
    returns (result: Result<CLClientContext, LaunchError>, trace: seq<Event>)
    ensures var copies := StagingCopies(launcher, keystore, enclave.sharedDir);
      enclave.registrationFailure.None? ==> |AttemptedCopies(copies, enclave.failingCopies)| <= |trace|
    ensures var copies := StagingCopies(launcher, keystore, enclave.sharedDir);
      var registered := enclave.registrationFailure.None?;
      var staged := registered && FirstFailure(copies, enclave.failingCopies).None?;
      var added := staged && enclave.startFailure.None?;
      var portFound := added && HttpPortID in enclave.privatePorts;
      var available := portFound && node.availabilityFailure.None?;
      // A service the orchestrator cannot register is never staged.
      && (!registered ==> result == Failure(AddServiceFailed(SchedulerFailed(enclave.registrationFailure.value))) && trace == [])
      // Staging runs first and stops at its first failure, which ends the launch.
      && (registered ==> trace[..|AttemptedCopies(copies, enclave.failingCopies)|] == CopyEvents(AttemptedCopies(copies, enclave.failingCopies)))
      && (registered && !staged ==>
            && result == Failure(AddServiceFailed(SupplierFailed(CopyFailed(copies[FirstFailure(copies, enclave.failingCopies).value]))))
            && |trace| == |AttemptedCopies(copies, enclave.failingCopies)|)
      // Only after all four copies is the container's start requested.
      && (staged ==> |trace| >= 5 && trace[4].StartRequested? && trace[4].serviceId == serviceId)
      && (staged && enclave.startFailure.Some? ==> result == Failure(AddServiceFailed(SchedulerFailed(enclave.startFailure.value))))
      // A missing http port fails before any wait or identity query.
      && (result == Failure(HttpPortMissing(HttpPortID)) <==> added && HttpPortID !in enclave.privatePorts)
      && (|trace| > 5 <==> portFound)
      && (portFound ==> trace[5] == AwaitedAvailability(enclave.privateIpAddr, enclave.privatePorts[HttpPortID].number,
                                                         MaxNumHealthcheckRetries, TimeBetweenHealthcheckRetriesMillis))
      && (portFound && node.availabilityFailure.Some? ==> result == Failure(AvailabilityFailed(node.availabilityFailure.value)))
      // The identity is queried only once the node is available, on the same address and port.
      && (|trace| > 6 <==> available)
      && (available ==> trace[6] == QueriedNodeIdentity(enclave.privateIpAddr, enclave.privatePorts[HttpPortID].number))
      && (available && node.identity.Failure? ==> result == Failure(NodeIdentityFailed(node.identity.error)))
      && |trace| <= 7
      // Success needs every step to succeed, and reports the ENR, the service's IP and the fixed HTTP port.
      && (result.Success? <==> available && node.identity.Success?)
      && (result.Success? ==> result.value == CLClientContext(node.identity.value.enr, enclave.privateIpAddr, HttpPortNum))
    // The start is requested with the configuration for the assigned address and shared directory.
    ensures enclave.registrationFailure.None? && FirstFailure(StagingCopies(launcher, keystore, enclave.sharedDir), enclave.failingCopies).None? ==>
      |trace| >= 5 && trace[4] == StartRequested(serviceId, ContainerConfigFor(bootnode, el, enclave.privateIpAddr, enclave.sharedDir))
  {
    if enclave.registrationFailure.Some? {
      return Failure(AddServiceFailed(SchedulerFailed(enclave.registrationFailure.value))), [];
    }
    var supplied, attempted := ContainerConfigSupplier(
      launcher, bootnode, el, keystore, enclave.failingCopies, enclave.privateIpAddr, enclave.sharedDir);
    trace := CopyEvents(attempted);
    if supplied.Failure? {
      return Failure(AddServiceFailed(SupplierFailed(supplied.error))), trace;
    }
    trace := trace + [StartRequested(serviceId, supplied.value)];
    if enclave.startFailure.Some? {
      return Failure(AddServiceFailed(SchedulerFailed(enclave.startFailure.value))), trace;
    }

    if HttpPortID !in enclave.privatePorts {
      return Failure(HttpPortMissing(HttpPortID)), trace;
    }
    var httpPort := enclave.privatePorts[HttpPortID];

    trace := trace + [AwaitedAvailability(enclave.privateIpAddr, httpPort.number,
                                          MaxNumHealthcheckRetries, TimeBetweenHealthcheckRetriesMillis)];
    if node.availabilityFailure.Some? {
      return Failure(AvailabilityFailed(node.availabilityFailure.value)), trace;
    }

    trace := trace + [QueriedNodeIdentity(enclave.privateIpAddr, httpPort.number)];
    if node.identity.Failure? {
      return Failure(NodeIdentityFailed(node.identity.error)), trace;
    }

    result := Success(CLClientContext(node.identity.value.enr, enclave.privateIpAddr, HttpPortNum));
  }
}
