# Teku consensus-client launcher, modelled in Dafny

This project models the Teku launcher of the eth2-merge Kurtosis module
(`teku_launcher.go`). The launcher starts a Teku consensus-layer (CL)
client as a container inside a Kurtosis enclave.

- **The container-configuration supplier.** This is the closure that
  `getContainerConfigSupplier` returns. Kurtosis calls it with the
  service's private IP address and its shared directory. It stages four
  items, in order:
  - the genesis config YAML;
  - the genesis SSZ state;
  - the validator keys (a recursive copy);
  - the validator secrets (a recursive copy).

  It stops at the first copy that fails. Otherwise it builds the
  `sh -c` command line and returns the `ContainerConfig`. That config holds
  the image, the used-port table, the entrypoint override and the command
  override. The command line is two `cp -R` steps that re-copy the
  keystores into `$HOME`, then the Teku binary with its flags, then
  `--p2p-discovery-bootnodes=<ENR>` when a bootnode is given.
- **`Launch`.** It adds the service with that supplier, looks up the `http`
  private port and waits for the node to become available. It then queries
  the node identity and returns a `CLClientContext` with the ENR, the
  private IP address and the fixed HTTP port 4000.

Module layout:

- `results.dfy` (`Results`): `Option` and `Result`, which stand in for Go's
  nil pointers and error returns.
- `text.dfy` (`Text`): `strings.Join` and the decimal `%v` formatting of a
  port number. Each has a reference partner: `Split` for `Join`,
  `ParseNat` for the formatting. Round-trip lemmas connect each pair.
- `services.dfy` (`Services`): the Kurtosis value types the launcher uses
  (`PortSpec`, `SharedPath`, `ContainerConfig`).
- `contexts.dfy` (`Contexts`): the CL and EL client contexts and the
  keystore directory pair.
- `teku_launcher.dfy` (`TekuLauncher`):
  - the constants and the port table;
  - the command line, as specification functions with lemmas;
  - the supplier, as an imperative method proved against those functions;
  - the launch sequence.

Every collaborator is an abstract outcome passed in as a parameter: the
file copies, the orchestrator's `AddService`, the availability waiter and
the node's REST identity endpoint. The methods return the calls they make,
in order, as a trace of events. This lets the contracts state the ordering
and early-return behaviour directly.

The command-line flag names are the ones in the code: the execution-engine
endpoint is `--Xee-endpoint=`, the fee recipient is
`--Xvalidators-suggested-fee-recipient-address=`, and the command also
carries `--rest-api-docs-enabled=true`,
`--data-storage-non-canonical-blocks-enabled=true` and
`--log-destination=CONSOLE`.

## Model

| member | source | states |
|---|---|---|
| TekuLauncher.ContainerConfigSupplier | kurtosis-module/impl/participant_network/cl/teku/teku_launcher.go:126-218 | Stages yml, ssz, keys, secrets in that order. It runs exactly the copies up to and including the first failure. It fails exactly when some copy fails, and then with that first failing copy. On success it returns the configuration `ContainerConfigFor` specifies. |
| TekuLauncher.BuildContainerConfig | kurtosis-module/impl/participant_network/cl/teku/teku_launcher.go:168-215 | Appending the bootnode flag to the fixed argument list when a bootnode is given, joining with spaces and building the configuration yields exactly `ContainerConfigFor`. |
| TekuLauncher.FirstFailure | kurtosis-module/impl/participant_network/cl/teku/teku_launcher.go:127-161 | The reported index is a failing copy and every earlier copy succeeds. With no index, no copy fails. |
| TekuLauncher.FirstFailureAt | kurtosis-module/impl/participant_network/cl/teku/teku_launcher.go:127-161 | A failing copy preceded only by succeeding copies is the first failure. |
| TekuLauncher.AttemptedCopiesStopAtFirstFailure | kurtosis-module/impl/participant_network/cl/teku/teku_launcher.go:127-161 | The copies run form a prefix of the staging order. All but a failing last one succeed. All four run, all succeeding, if and only if there is no failure. |
| TekuLauncher.PathViewDiscipline | kurtosis-module/impl/participant_network/cl/teku/teku_launcher.go:127-181 | Each staging copy writes its child of the shared directory through the module container's view. `--network=`, `--initial-state=` and the two `cp -R` sources name the same children through the service container's view. |
| TekuLauncher.BootnodeArgumentIffBootnodeContext | kurtosis-module/impl/participant_network/cl/teku/teku_launcher.go:168-204 | There are 29 arguments with a bootnode and 28 without. Without one, the list is the fixed list. An argument after the binary starts with `--p2p-discovery-bootnodes=` if and only if a bootnode is given. It is then the last argument and carries exactly the bootnode's ENR. |
| TekuLauncher.TekuFlagsAreNotBootnodesFlag | kurtosis-module/impl/participant_network/cl/teku/teku_launcher.go:180-200 | None of the 17 fixed Teku flags starts with the bootnode flag. |
| TekuLauncher.ElClientRpcUrlUnderBothEndpointFlags | kurtosis-module/impl/participant_network/cl/teku/teku_launcher.go:163-186 | The same `http://<ip>:<port>` string follows `--eth1-endpoints=` and `--Xee-endpoint=`. |
| TekuLauncher.ElClientRpcUrlRoundTrip | kurtosis-module/impl/participant_network/cl/teku/teku_launcher.go:163-167 | For a host without a colon, the URL splits at `:` into `http`, `//<ip>` and a digit string that parses back to the EL client's RPC port. |
| TekuLauncher.ValidatorKeysFlagIsHomeCopies | kurtosis-module/impl/participant_network/cl/teku/teku_launcher.go:168-199 | `--validator-keys=` names exactly the two `cp -R` destinations, `$HOME/validator-keys:$HOME/validator-secrets`, for every input. |
| TekuLauncher.CommandCopiesBeforeBinary | kurtosis-module/impl/participant_network/cl/teku/teku_launcher.go:168-179 | The first ten arguments are the two `cp -R <shared child> $HOME/... &&` steps, and the eleventh is the Teku binary. The joined command is those ten words, then the binary, then the flags. |
| TekuLauncher.CommandEndsWithBootnode | kurtosis-module/impl/participant_network/cl/teku/teku_launcher.go:202-205 | With a bootnode, the command line is the joined fixed arguments, one space, then the bootnode flag and ENR. Without one, it is just the joined fixed arguments. |
| TekuLauncher.CommandWordsAreArgsIffNoSpaces | kurtosis-module/impl/participant_network/cl/teku/teku_launcher.go:205 | Splitting the command line at spaces gives back the argument list if and only if no argument contains a space. |
| TekuLauncher.SpacedEnrIsSplit | kurtosis-module/impl/participant_network/cl/teku/teku_launcher.go:202-205 | A bootnode ENR that contains a space does not come back as a single argument. |
| TekuLauncher.ContainerConfigShape | kurtosis-module/impl/participant_network/cl/teku/teku_launcher.go:58-63 | The image is `consensys/teku:latest` and the entrypoint is `sh -c`. The command is the single joined line. The ports are exactly tcp-discovery 9000/TCP, udp-discovery 9000/UDP and http 4000/TCP. `--rest-api-port=` carries the http port's number, 4000. |
| TekuLauncher.Launch | kurtosis-module/impl/participant_network/cl/teku/teku_launcher.go:74-113 | A registration failure ends the launch before any copy, with an empty trace. A staging failure ends it with only the copies in the trace. Otherwise the container's start is requested with `ContainerConfigFor` of its assigned address and directory. A start failure ends it there. A missing `http` port fails before any wait or identity query. The wait uses 60 retries at 1000 ms on the service's IP and http port. The identity is queried only after availability. Success means every step succeeded, and the result is the ENR, the private IP and port 4000. No error returns a partial context. |
| Text.JoinConcat | kurtosis-module/impl/participant_network/cl/teku/teku_launcher.go:205 | Joining two non-empty lists is joining each and putting one separator between them. |
| Text.IndexOf | kurtosis-module/impl/participant_network/cl/teku/teku_launcher.go:205 | The result is the first position of the character. |
| Text.Split | kurtosis-module/impl/participant_network/cl/teku/teku_launcher.go:205 | Splitting yields at least one piece, and no piece contains the separator. |
| Text.SplitJoin | kurtosis-module/impl/participant_network/cl/teku/teku_launcher.go:205 | Splitting a joined non-empty list whose parts do not contain the separator gives back the list. |
| Text.SeparatorInPartIsNotRecoverable | kurtosis-module/impl/participant_network/cl/teku/teku_launcher.go:205 | If any part contains the separator, splitting the joined list does not give back the list. |
| Text.DigitsExclude | kurtosis-module/impl/participant_network/cl/teku/teku_launcher.go:163-167 | A decimal string contains no non-digit character, in particular no `:` or space. |
| Text.NatToString | kurtosis-module/impl/participant_network/cl/teku/teku_launcher.go:191 | `%v` of a natural number is a non-empty string of decimal digits without a leading zero. |
| Text.ParseNatToString | kurtosis-module/impl/participant_network/cl/teku/teku_launcher.go:163-167 | Parsing the decimal rendering of a port gives back the port. |

## Left out

- The file copies themselves (`CopyFileToSharedPath`, `recursive_copy.Copy`) are I/O. Each is an outcome: a copy succeeds unless it is in the `failing` set. Permissions, partial copies and error wording are not modelled.
- `service_launch_utils.CopyFileToSharedPath` is not part of this model. The model takes it to write to the module container's view of the shared path, as the two recursive copies visibly do.
- `SharedPath.GetChildPath` is modelled as appending `/` and the child's name to both views. Kurtosis's own path cleaning (`filepath.Join`) is not part of this model.
- `enclaveCtx.AddService` is an outcome. The orchestrator either fails to register the service, or assigns the private IP address and shared directory, runs the supplier, then either starts the container or fails. Why registration or start fails is not modelled. `GetPrivatePorts` and `GetPrivateIPAddress` are fields of that outcome.
- `availability_waiter.WaitForCLClientAvailability` is not part of this model. Its retry loop is left out. The model records that it is called with 60 retries at 1000 ms intervals on the service's IP and http port, and takes its outcome as a parameter.
- The REST client and `GetNodeIdentity` are an outcome. The JSON decoding and the identity's fields other than the ENR are not modelled.
- `stacktrace` error messages are reduced to an error kind carrying the underlying cause; their wording is not modelled.
- The shell's expansion of `$HOME` and its execution of the `sh -c` line are not modelled. `CommandWordsAreArgsIffNoSpaces` and `CommandCopiesBeforeBinary` state what the shell receives, not what it does with it: splitting on tabs and newlines, the `&&` operator and `$HOME` expansion are outside the model.
- ElClientRpcUrlRoundTrip: stated only for hosts without `:` (IPv4 addresses and host names). With an IPv6 literal, `%v` produces an unbracketed URL that does not split back into host and port.
- CommandWordsAreArgsIffNoSpaces: stated over the argument list, not over each input that could carry a space (ENR, IP address, shared-directory paths). `SpacedEnrIsSplit` shows the ENR case outright.
- CommandCopiesBeforeBinary: states the order as a list of arguments plus the shape of the joined string. It does not compare the whole command line against one fixed text.
- The metrics port noted as a TODO in the port table is absent from the source, so it is absent here too.
- `NewTekuCLClientLauncher` only stores its two paths. It is the `TekuCLClientLauncher` datatype's constructor.
