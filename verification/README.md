# Verified model of the DC node manager

The manager looks after the services of a DC storage node. Two of its parts carry real
risk, and this project models both and proves what they guarantee.

**Downloading from the DC network.** A producer goroutine reads an arbitrarily fragmented
stream, drops the 32-byte DC header, re-blocks the rest, opens each block and writes it
into a synchronous pipe; a consumer drains the pipe into a buffered file; a context may
cancel both. `DownloadSpec` says what the result should be without mentioning reads.
`DownloadProducer` has the producer loop itself. `DownloadPipeline` has every
interleaving of producer, consumer, caller, cancellation and file failure,
`DownloadTheorems` what all of them guarantee, and `DownloadNil` exactly which downloads
can return nil with an incomplete file. `FolderMirror` has the recursive folder
download on top.

**Upgrading the storage service.** On an SGX2 machine the node key lives inside a
container, and an upgrade replaces that container. An assistant container carries the key
across. `Docker` has the container engine and the reconcile operations built on it;
`Upgrade` cuts `upgradeDeal` at its calls and lets anything happen in between;
`UpgradeCustody`, `UpgradeVersions` and `UpgradeAssist` prove properties of all runs,
`UpgradeSuccess` that a healthy node can be upgraded, `UpgradeVerdict` when a new node is
stopped again and that a node the user stopped stays stopped, `UpgradeInstalled` and
`UpgradeHazards` what can go wrong with every part doing as it is written;
`UpgradeDaemon` has `upgradeDeal` as a method, every action of which is shown to be a
step of that machine. `Polling` has the two polling loops, `Committee` the signature
search, `ChainCommands` the commands that manage the chain container.

Check everything with `dafny verify dfyconfig.toml`.

## What the model assumes

- The version endpoint answers only when the storage container runs and holds the key;
  `secretflag` answers "true" only when the assistant holds it (`command/command.go:1178`
  and `command/command.go:1339` point that way).
- `upgradeflag` answers "true" from a hand-over until the assistant stops: the flag is
  reset only by a restart (`command/command.go:1287`).
- The first storage container to run obtains the key, and no key is ever issued again.
- A container keeps the key while it exists; the assistant only while it runs. Only the
  operations modelled here stop or remove containers.
- An image tag determines the version and enclave id it reports. The assistant's image is
  fixed, is not a release's image and does not contain "dcstorage".
- An engine call that reports an error leaves the container in place, though it may have
  started or stopped it. Ids are never given out twice. Contracts count failed calls, to
  say what must be achieved when there are none.
- Version strings are ordered by a rank in the reals, or do not parse; where it matters
  (`OnlyWrongNodeStopped`) the empty string does not.
- Whether a call outside the engine gets through (chain queries, image downloads, writes of
  the file, version queries) is a parameter of the methods that make it.
- `decrypt(seal(x)) == x` and sealing adds 28 bytes; used in the round trip only.

## Where the code falls short of its intent

- Key custody holds in every run in which the first stop of an attempt is effective. The
  error of that stop is ignored (`command/command.go:1288`), and if an assistant is left
  running with its flag up the attempt can lose the key with every later call succeeding:
  `SafeIffFirstStopEffective` gives the exact condition, `IgnoredStopLosesKey` a run from an
  ordinary node in which only that one call fails.
- A nil result of `downloadFile` means that the stream ended properly and all full blocks
  opened, and no more. Which downloads can return nil although the tail was dropped, the
  file is incomplete after a cancellation or a file error, or there is no file at all, is
  decided exactly by `NilWithTailLostIff`, `NilIncompleteIff`, `NilAfterFileErrorIff` and
  `NilWithoutFileIff`.
- Files that merely look like DC files lose 32 bytes (`PlainDownloadIsVerbatim`).
- A process that saves a configuration it read earlier undoes the image saved meanwhile
  (`StaleSaveLowersIff`, `NeverLoweredIff`; `StaleSaveHappens` is a run), and if it read the
  configuration before `dc config` it breaks the agreement with the chain container
  (`AgreementSurvivesIff`; `DaemonSaveBreaks` is a run).
- The installed version can fall, if the container that is replaced was never saved to the
  file and somebody else than the attempt starts the next one: `InstalledFallsIff` says
  exactly when, `InstalledFalls` is a run.
- If the daemon dies between starting the new node and saving its image, and the node is
  then stopped, it can never be started again: `NeverAgainIffLockedOut` says exactly when,
  `LockoutHappens` is a run.
- The second hand-over wait never returns if requests keep failing
  (`WaitsForeverIffNeverSettled`).
- The name test in `removeDcStorageNodeInDocker` (`command/command.go:1456-1457`) compares
  with the name without its slash and never matches (`NoBareName`); removal goes by image
  alone.

## Model

| member | source | states |
|---|---|---|
| Docker.Engine.StartContainer | util/util.go:207-289 | whatever engine call fails, the containers afterwards are one of the outcomes of the reconcile relation; only a failed engine call or a conflict that may not be resolved makes it fail |
| Docker.StartWithoutFault | util/util.go:230-288 | without a failed engine call it fails iff another image has the name and must not be replaced |
| Docker.StartReconciles | util/util.go:207-289 | nil means exactly one container has the name, with the requested image and running, and every other container is unchanged |
| Docker.StartIsIdempotent | util/util.go:219-288 | after a nil result another call changes nothing, even if it fails |
| Docker.StartKeepsSameImage | util/util.go:219-229 | a container with that name and image is never created anew |
| Docker.StartRespectsOtherImage | util/util.go:233-263 | with removeOldFlag false a name clash leaves the engine as it was and is reported |
| Docker.Engine.StopContainer | util/util.go:292-324 | follows the stop relation despite the nested search whose break leaves only the inner loop, and fails only if an engine call does |
| Docker.StopStops | util/util.go:292-324 | nil means no running container has the name; only the holder's running bit may change |
| Docker.Engine.RemoveContainer | util/util.go:326-373 | follows the removal relation on every path, and fails only if an engine call does |
| Docker.RemoveFreesName | util/util.go:326-373 | nil means no container has the name, an error removes none, all others are unchanged |
| Docker.Engine.RemoveNode | command/command.go:1423-1473 | removes at most one container, and only one whose image is the node image or has "dcstorage" anywhere in its name; any other container survives untouched; nil while there is such a container means one was removed, an error that an engine call failed |
| Docker.RemovableMeans | command/command.go:1437-1447 | a container counts as a storage node if its image is the configured one or has "dcstorage" in its name, whatever stands before and after |
| Docker.RemovalClearsTheWay | command/command.go:1309-1318 | if the name's holder was the only match and was removed, the following start meets no conflict |
| DownloadProducer.Produce | util/litepeer.go:192-284 | for every fragmentation the pipe writes are exactly the opened blocks of the specification, and the flag is raised iff the stream ended with EOF and all full blocks opened |
| DownloadProducer.ReadAdvances | util/litepeer.go:214-217 | short, empty and final reads neither lose nor repeat nor reorder bytes |
| DownloadSpec.SplitAligned | util/litepeer.go:251-260 | decoding distributes over a split at a block boundary and stops at the first block that does not open |
| DownloadSpec.PieceAt | util/litepeer.go:200-260 | without a key the k-th piece is the k-th 3145728 bytes of the body; with one it is what the k-th 3145756 bytes decrypt to; the last block may be shorter |
| DownloadSpec.FullBlocksMeans | util/litepeer.go:245-260 | that all full blocks open means that each block of 3145756 bytes decrypts, and nothing without a key |
| DownloadSpec.PieceCount | util/litepeer.go:245-279 | the pieces of a body that opens cover it with at most one shorter tail |
| DownloadSpec.PlainDownloadIsVerbatim | util/litepeer.go:221-224 | without a key the result is the delivered bytes, less the first 32 if there are that many and they begin with the ten bytes of the DC mark |
| DownloadSpec.RoundTrip | util/litepeer.go:199-204 | a 32-byte header that begins with the DC mark, and the plaintext in sealed blocks each 28 bytes longer than what it seals, decode to the plaintext, for every length |
| DownloadPipeline.StepKeepsInv | util/litepeer.go:192-331 | every action of producer, consumer, caller and canceller keeps the pipeline invariant |
| DownloadTheorems.PipelineSafety | util/litepeer.go:192-331 | in every interleaving the file, and with buffer and pipe while the file works, is a prefix of the decoding of what was delivered and of what the source delivers in all |
| DownloadTheorems.FaultFreeDownload | util/litepeer.go:206-338 | without cancellation and file errors nil is returned iff EOF was reached with all full blocks opened, and the flushed file is the decoding |
| DownloadTheorems.NilMeansWholeIffTailOpens | util/litepeer.go:266-279 | such a nil result is a whole file exactly if the tail opens |
| DownloadTheorems.DownloadReturnsPlaintext | util/litepeer.go:174-339 | a DC file comes back as its plaintext under every fragmentation and schedule |
| DownloadTheorems.CancelEndsReading | util/litepeer.go:206-211 | once the context is cancelled no further byte is read from the network, and a consumer at its loop head takes nothing more |
| DownloadTheorems.NoDeadlock | util/litepeer.go:192-331 | a download that has not ended can always take a step without being cancelled |
| DownloadTheorems.EveryRunEnds | util/litepeer.go:206-331 | no schedule of a finite source runs for ever |
| DownloadNil.NilMeansBlocksOpened | util/litepeer.go:226-280 | in every run, disturbed or not, nil means EOF was reached with all full blocks opened, and without a file that the body is shorter than a block |
| DownloadNil.NilMissesAtMostTheTail | util/litepeer.go:266-280 | cancelled or not, a nil result whose file did not fail has all the full blocks open to; at most the tail is missing |
| DownloadNil.NilIncompleteIff | util/litepeer.go:266-304 | some run returns nil with an unfailed but incomplete file iff EOF is reached, all full blocks open and the tail opens to something; every such run was cancelled |
| DownloadNil.NilWithoutFileIff | util/litepeer.go:291-294 | some run returns nil without having created the file iff EOF is reached and the body is shorter than a block |
| DownloadNil.NilAfterFileErrorIff | util/litepeer.go:295-313 | some uncancelled run returns nil after a file error left the file incomplete iff EOF is reached, all full blocks open and there is a byte to lose |
| DownloadNil.NilWithTailLostIff | util/litepeer.go:267-275 | some run without a fault returns nil for a stream that did not open throughout iff EOF is reached, all full blocks open and the tail does not |
| DownloadNil.FaultFreeRun | util/litepeer.go:192-338 | every download that ends properly and whose full blocks open can run to nil without a fault, leaving the decoding in the file |
| FolderMirror.LocalDisk.DownloadFolder | util/litepeer.go:382-419 | nothing outside the folder changes; nil iff the network and the directories worked, every file download returned nil and no file stands where the tree has a directory; the disk then has every directory, and every file whose local file did not fail with all its full blocks, and mirrors the tree if no download was disturbed; ends on the height of the tree |
| FolderMirror.NilKeepsPromise | util/litepeer.go:395-398 | a file download that returns nil without an error of the local file has created it with all full blocks, and uncancelled with everything |
| FolderMirror.MirrorAt | util/litepeer.go:382-419 | in a mirror every file of the tree is at its path with the decoding of its content, every directory is a directory |
| FolderMirror.LookupChild | util/litepeer.go:382-414 | the relative paths of that row are all of them: each leads through an entry to what is in the entry |
| FolderMirror.LocalDisk.SaveFile | util/litepeer.go:176-180 | what stands at the path, even an empty directory, gives way to the new file; nothing else changes |
| Committee.IfEnclaveIdValid | blockchain/blockchain.go:291-340 | true iff the chain answered and some entry for the id has a signature that decodes and to which the committee key answers yes |
| Committee.VouchedMeans | blockchain/blockchain.go:325-338 | an id is vouched for iff some entry for it decodes and verifies with the answer yes; an error or a no is neither |
| UpgradeCustody.KeyCustody | command/command.go:1287-1333 | in every state of every run whose first stops were effective somebody holds the key; the node is stopped and removed only while the assistant holds it, the assistant retired only once storage does |
| UpgradeCustody.CustodyOnceIssued | command/command.go:1172-1333 | over runs from a clean install whose first stops were effective: once somebody has the key somebody always has it |
| UpgradeCustody.StepKeepsKey | command/command.go:1155-1371 | each step of the daemon and of its environment keeps the stage-by-stage key invariant |
| UpgradeCustody.SuccessfulStopIsEffective | command/command.go:1287-1288 | a stop of the assistant that reports success leaves no flag up |
| UpgradeCustody.SafeIffFirstStopEffective | command/command.go:1287-1331 | an attempt past its first stop can still lose the key iff an assistant was left running with its flag up and the node is one that would be removed |
| UpgradeHazards.IgnoredStopLosesKey | command/command.go:1287-1331 | from every ordinary node with no flag up a hand-over, a crash, a second release and one failing engine call, the ignored stop, end with nobody holding the key |
| UpgradeVersions.GuardedInstallation | command/command.go:1199-1242 | past the checks some entry for the target's id verifies under the committee key, the target ranks strictly above the reported version and not below the chain's, and past the fetch one of its two images is meant, in every run |
| UpgradeVersions.PersistedVersionMonotone | command/command.go:1309-1338 | as long as none of the other processes writes back a copy that the daemon has saved past: the persisted image never reports more than the installed container, never gets older, and rises at each save |
| UpgradeVersions.StaleSaveLowersIff | config/config.go:96-109 | the first copy written back out of order, by whichever process, lowers the version on disk iff the daemon has saved since that process read it; otherwise the image stays |
| UpgradeVersions.NeverLoweredIff | config/config.go:96-109 | a run with any number of other processes never lowers the version on disk iff none of them writes back a copy after a save it missed |
| UpgradeHazards.StaleSaveHappens | config/config.go:80-109 | from every upgradable node a read, a complete upgrade and the write of what was read lower it |
| UpgradeInstalled.StepMovesHolder | command/command.go:1303-1318 | a storage container keeps its image while it exists; only the removal of an attempt ends it, only a start with the image on disk or in memory makes one, named dcstorage and with the one argument "dcstorage" |
| UpgradeInstalled.InstalledFallsIff | command/command.go:1309-1335 | from a removed container to the next the installed version falls iff the file still named an older image and the next was started by the user or after the daemon died |
| UpgradeInstalled.InstalledFalls | command/command.go:1309-1335 | from every ordinary upgradable node a hand-over, a crash before the save, a second release and dc start storage after the removal bring the first image back, no call failing |
| UpgradeVersions.UpgradeFixpoint | command/command.go:1155-1223 | once up to date, and until the node is stopped or configuration or chain change, no run of the daemon gets past the version checks and every container stays as it is, except the assistant if it is launched after 152 failed queries in a row |
| UpgradeSuccess.HealthyUpgradeSucceeds | command/command.go:1155-1371 | from every idle state over a serving node the configured release, if it is complete, newer than the chain's and signed, and else the chain's can be installed: a run exists that has no failing call, keeps custody throughout and ends with a serving node of that release, up to date |
| UpgradeVerdict.OnlyWrongNodeStopped | command/command.go:1339-1363 | in every run a new node is stopped at the end of an attempt only if every storage container reports the target's version and another enclave id, and is left alone only if none does or none answered |
| UpgradeVerdict.UserStopLasts | command/command.go:686-692 | a node that dc stop storage has stopped between attempts does not run again, and no attempt begins, until dc start storage |
| UpgradeSuccess.FirstStart | command/command.go:178-192 | from a clean install the first start leads to a serving node that runs what is configured |
| UpgradeHazards.NeverAgainIffLockedOut | command/command.go:811-818 | between attempts, a stopped node can never run again iff its image is neither on disk nor in any copy to be written back and the daemon means another or was told not to start it |
| UpgradeHazards.LockoutHappens | command/command.go:1316-1338 | from every upgradable node a crash between start and save and then dc stop storage lock it out, no call failing |
| UpgradeAssist.AssistCounter | command/command.go:1152-1188 | after n failed queries in a row the assistant was launched n / 152 times and the counter is n mod 152 |
| Polling.WaitAssistantHasKey | command/command.go:1093-1120 | true iff one of the first 61 replies is "true"; errors count as refusals |
| Polling.WaitNodeHasKey | command/command.go:1123-1148 | true iff "true" comes before the 601st refusal; errors are not counted |
| Polling.RefusalsCount | command/command.go:1139-1144 | the count of the second wait is the number of replies that arrived and were not "true" |
| Polling.WaitsForeverIffNeverSettled | command/command.go:1127-1146 | the second wait runs for ever iff the reply stream never settles |
| UpgradeDaemon.Node.UpgradeDeal | command/command.go:1155-1371 | every state the method passes through belongs to a run of the machine from the clean install the object was made as; once somebody has the key somebody always has it if the first stops were effective, in particular if no engine call ever failed; if none fails now it ends only by a crash, a name conflict, an unanswered query or wait, a chain or image that could not be had, a decision against the release, or the verdict |
| UpgradeDaemon.Node.HaltAssistant | command/command.go:1287-1288 | whatever it reports the attempt goes on; no flag is left up unless the engine failed |
| UpgradeDaemon.Node.AwaitAssistantKey | command/command.go:1093-1120 | the wait inside the attempt gives up only after 61 replies without a "true", while everything else moves on |
| UpgradeDaemon.Node.AwaitNodeKey | command/command.go:1123-1148 | the second one only after 601 refusals or when the process dies |
| UpgradeDaemon.Node.RemoveOldNode | command/command.go:1309-1316 | the attempt ends here only if the engine failed; else the configured image becomes the new tag and nothing else of the configuration changes |
| UpgradeDaemon.Node.Compare | command/command.go:1199-1242 | the target is the configured release iff its version and enclave id are set, it ranks above the chain's and its id is vouched for, else the chain's; the attempt goes on iff the target has another enclave id, is vouched for and ranks above the reported version |
| UpgradeDaemon.Node.FetchImage | command/command.go:1243-1286 | loaded from the DC network the image is the origin's; else registry "cn" tries the mirror and then the origin, any other registry the origin and then the mirror; it fails iff nothing got through |
| UpgradeDaemon.Node.AwaitAnswer | command/command.go:1341-1354 | the new node's answer is what gets judged; it is given up only after 61 queries, with an empty answer |
| UpgradeDaemon.Node.PassVerdict | command/command.go:1355-1371 | with the target's version and another enclave id no storage container runs afterwards unless the engine failed; in all other cases the containers stay as they are; the daemon restarts iff both match |
| UpgradeDaemon.Node.DaemonTick | command/command.go:686-692 | without the start command a tick changes nothing |
| UpgradeDaemon.Node.SeenRunning | command/command.go:515-535 | a node is reported running iff its container runs, unless the engine fails |
| ChainCommands.Manager.RunCommands | command/command.go:93-218 | any sequence of commands, with late saves of any number of other processes anywhere between them, is a run in which container and saved mode agree all along iff every such save was harmless; without dc config no container is touched |
| ChainCommands.Manager.ConfigCommand | command/command.go:93-176 | it completes iff the old data is gone and the answers are written, unless the engine fails; then the new mode is saved and a chain runs in it, and the agreement is restored; wherever it ends it keeps the agreement; a refusal changes nothing, no other container is touched |
| ChainCommands.Manager.Execute | dc/main.go:37-53 | before the first configuration no command but dc config touches a container, and no other command changes the mode; an admitted command does what it is for unless the engine or a step outside fails |
| ChainCommands.Manager.StartDcChain | command/command.go:823-909 | it succeeds if the data directory is ready and no engine call fails; the chain container then runs the configured image; a new one has the command line of the configuration; an agreement with the configuration is kept; other containers stay as they are |
| ChainCommands.ChainStartAgrees | command/command.go:823-909 | starting the chain keeps the agreement although a same-image container is reused |
| ChainCommands.EntrypointMode | command/command.go:862-900 | the command line carries the validator flag iff the configuration enables it |
| ChainCommands.CommandLine | command/command.go:862-900 | if no free value looks like an option: external RPC is asked for iff exposed, archive pruning and validator mode iff enabled, the boot node is given iff longer than 20, the sync mode as configured or else full, the node name and the data directory always, each exactly so |
| ChainCommands.StaleSaveAgreesIff | config/config.go:96-109 | saving another configuration over one in agreement keeps it iff there is no chain container or it means the same mode |
| ChainCommands.AgreementSurvivesIff | command/command.go:1335-1338 | over every sequence of commands from a clean install, with any number of processes holding copies, the agreement holds all along iff none writes back a copy of the other mode while there is a chain container |
| ChainCommands.FreshCopyIsHarmless | command/command.go:500-512 | a copy read with no dc config and no write of another process since is harmless to write back |
| ChainCommands.DaemonSaveBreaks | command/command.go:1335-1338 | from every clean install dc config, a daemon, dc config in the other mode and the daemon's save end in disagreement |

## Left out

- Two commands that change the chain's configuration or container at the same time; other processes read and write their copies between commands.
- Machines without SGX2: `upgradeDeal` skips the assistant there, so there is no key to hand over.
- The opening checks of `downloadFile` on a missing reader and an unreadable key; they return an error before anything starts.
- The pccs and tee report services: their failure shows as a failed start of the node.
- Interleaving of two processes inside one StartContainer, StopContainer or RemoveContainer call; other processes act between such calls.
- A host reboot, or a container stopped by hand: either can take the key from the assistant at any time.
- Crashes of the daemon inside one engine operation: they leave the same containers as a failing call followed by a crash.
- Libp2p, IPFS, DHT and DAG code, the Docker client, HTTP, chain RPC, YAML and JSON: replaced by fragment lists, the engine, reply streams and stored values.
- `pullAndDownloadFolder`, which drops the error of the recursion; folder properties are stated on the recursion itself.
- Names with path separators or dots in a downloaded folder: names are taken as plain path elements.
- UpgradeHazards.NeverAgainIffLockedOut: states between attempts only; inside an attempt it also matters whether the assistant holds the key and the node can be removed.
- Cryptography and version parsing beyond what is assumed above.
- Volumes, mounts, log settings and restart policies of containers.
- Logging, status output, progress display, checksum, session keys, peer and memory queries: no property of interest.
