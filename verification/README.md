# Sandbox driver: verified model

This project models, in Dafny 4.11, the parts of the sandbox driver that carry state,
branching and arithmetic, and proves what they are for.

| part | modules |
|---|---|
| Provisioning as a transaction over a container engine | `Names`, `Engine`, `Sandbox`, `SandboxValues`, `Provision`, `Runs`, `Isolation`, `Frame`, `Success`, `Rollback`, `Preservation`, `Cancellation`, `Deletion`, `Solo`, `Assembly`, `Driver` |
| Environment lists | `Environment` |
| Subnet allocator, native network create and verify | `Subnets`, `NativeNetwork` |
| Docker-to-Libpod translation | `Binds`, `DriverConfig`, `NativeSpec`, `UserNamespace`, `NativeBuild`, `Sorting` |
| Parsers, quoting, reserved paths | `DuplicateKeys`, `ShellQuote`, `ReservedPaths`, `GoStrings` |
| GPU requests | `Gpu` |
| Tar extraction below a root | `TarExtract` |
| Log fan-in | `LogFanIn` |

`dafny verify dfyconfig.toml` checks everything.

## How provisioning is modelled

`Engine` holds containers, networks and volumes, the calls the driver makes and what each
success does. Any call may fail at any time. The engine refuses a taken container name, a
taken network name, and the removal of a network or volume that a container uses; it never
hands out a container ID twice. Creating a volume that exists succeeds. During a run only the
driver's own calls change the engine.

`Provision` says, for one Create or Delete, which outcome of which call leads where,
including the flags and the deferred cleanup. `Runs` interleaves the calls of any number of
sandboxes in any order and proves that callers who keep to their sandbox do not interfere.
`Isolation` is about all runs: any requests, labels, container IDs and sandbox names. `Frame`
says that nothing outside of the sandboxes' names changes. `Success` proves what a successful
Create leaves, and that none fails without a cause. `Rollback`, `Preservation` and `Deletion`
prove what a failed Create, any Create and a Delete leave behind. `Cancellation` cancels the
context of a Create at any moment. `SandboxValues` writes out, key by key, what the container
is told. `Driver` is the imperative form: methods that call an engine client and keep the
code's flags. A ghost monitor follows their calls, so their contracts give the theorems about
runs for the code's own control flow.

"Honest" in the contracts means that removing, and inspecting a container in order to remove
it, fail only for cause: the thing is absent or in use. No other call needs to be honest. For
rollback it is also needed that Create takes no CA or SSH volume for its own that was there,
which takes a failed inspect and then a create that succeeds. `Cancellation` derives both from
a context: the calls before the deferred cleanup fail once it is cancelled, and otherwise a
healthy engine answers. A failed call has changed nothing in this engine. An answer that gets
lost after the engine has carried out the call is modelled in `NativeNetwork.Daemon` only: if
that happens to a network create, ensureNetwork returns its error before the deferred cleanup
exists, and the network stays.

What one sandbox's rollback and deletion ask of the others is that they mount none of its
volumes meanwhile. Isolation and non-interference ask nothing of the kind.

## What turned out not to hold

Each of these has a concrete witness and the exact condition, or the condition under which
the property is proved:

- sanitizeName is not idempotent: cutting to 63 characters can leave a dash at the end
  (`Names.SanitizedAgain`, `Names.SanitizeNotIdempotent`).
- The proxy of sandbox "a" has the container name of a sandbox "proxy-a". Two sandboxes share
  a container name exactly in this case (`Names.ApartIsExact`), and then Delete of "a" removes
  the main container of "proxy-a" (`Solo.DeleteTakesNamesake`). Non-interference is proved for
  names that are apart in this sense, isolation for all names.
- A caller's label can replace a label that Delete follows: `Sandbox.LabelsSteerDelete` gives
  the exact condition, `Solo.HarmfulLabelMisleadsDelete` a request that fails it. In the same
  way it can hide a sandbox without a proxy from the check that refuses a second Create of its
  name (`SandboxValues.ManagedExactly`, `Driver.RetryIsRefused`).
- A cancelled context is not always rolled back: `Cancellation.CancellationIsExact` says that
  everything is put back if and only if the cancellation did not fall between making a network
  and checking it, or between making the sidecar and finding it ready. Then the removal fails
  with the context: the network stays (`Solo.CancelledContextLeaksNetwork`), or the sidecar
  does and keeps its volume and network in use (`Solo.SidecarLeaks`).
- A volume inspect that fails although the volume exists, followed by a create that succeeds,
  lets a later failure of Create delete that volume (`Solo.SpuriousInspectLosesVolume`). A
  cancelled context cannot do this (`Cancellation.CancelledCreateKeeps`).
- A tmpfs in driver_config with the option "rw" and no read_only is accepted and translated
  to options that say both "ro" and "rw" (`NativeSpec.ContraryTmpfsIsAccepted`);
  `NativeSpec.ConfiguredMountArrives` gives the exact condition for the access mode to be kept.
- driver_config replaces the device list after the GPU count was checked
  (`Gpu.DriverConfigCount`, with `Gpu.OneListedForTwo`), and device indexes wrap around at 64
  bits (`Gpu.IndexIsWrappedValue`, `Gpu.IndexIsValue`, `Gpu.LongIndexWraps`).
- The Podman configuration accepts ID maps of different lengths or out of range that
  buildNativeSpec then refuses (`UserNamespace.ConfiguredMapsAreAccepted`, with
  `UserNamespace.UnequalMapsAreConfigured`).
- The protected-path loop of driver_config tests one direction only, although its message
  says "overlaps" (`DriverConfig.ProtectedTestIsOneSided`): a mount over "/opt", which holds
  "/opt/openshell", is accepted (`DriverConfig.ProtectedParentIsAccepted`,
  `DriverConfig.OptIsSuchAParent`).
- The subpath of a volume is accepted with ".." in front, although the message asks for a
  safe relative path (`DriverConfig.ParentSubpathIsAccepted`); an accepted subpath is free of
  ".." exactly when its first component is not ".." (`DriverConfig.SubpathStaysBelow`).
- Logs can return nil with output missing once the context is cancelled
  (`LogFanIn.CancelledNilIsTruncated`); without cancellation nil means complete output.

## Model

| member | source | states |
|---|---|---|
| `Names.SanitizeName` | internal/docker/docker.go:1881-1897 | the loop computes the sanitized name: lower-case letters, digits and dashes, trimmed, at most 63 characters |
| `Names.Sanitized` | internal/docker/docker.go:1881-1897 | at most 63 characters of the alphabet, never a leading dash |
| `Names.KeptIsExact` | internal/docker/docker.go:1883-1891 | character by character: small letters, digits and dashes stay, an underscore becomes a dash, everything else is dropped |
| `Names.TrimDashesIsExact` | internal/docker/docker.go:1892-1892 | nothing but dashes at the two ends is cut |
| `GoStrings.TrimSpaceIsExact` | internal/docker/docker.go:1882-1882 | nothing but white space at the two ends is cut |
| `Names.SanitizedAgain` | internal/docker/docker.go:1892-1896 | sanitizing twice equals sanitizing once if and only if the name fits into 63 characters or the cut does not fall behind a dash |
| `Names.SanitizeNotIdempotent` | internal/docker/docker.go:1892-1896 | a name that a second pass changes |
| `Names.ApartNames` | internal/docker/docker.go:218-223 | container, volume and network names of two sandboxes are disjoint unless one name is "proxy-" plus the other |
| `Names.ApartIsExact` | internal/docker/docker.go:218-312 | two sandboxes share a container name if and only if they are the same or one is called "proxy-" plus the other |
| `Names.VolumeKinds` | internal/docker/docker.go:249-362 | CA, SSH and data volumes of any two sandboxes never share a name |
| `Environment.MergeEnv` | internal/docker/docker.go:1708-1730 | the index-and-slice loops compute last-writer-wins in order of first occurrence |
| `Environment.MergedIsDistinct` | internal/docker/docker.go:1708-1730 | the result has one entry per non-empty key, in order of first occurrence |
| `Environment.MergedKeepsMeaning` | internal/docker/docker.go:1708-1730 | every key keeps its last entry |
| `Environment.MergeIdempotent` | internal/docker/docker.go:1708-1730 | merging a merged list changes nothing |
| `Environment.MergeAssociative` | internal/docker/docker.go:1708-1730 | both groupings of three lists give the same result |
| `Environment.NativeEnv` | internal/podman/libpod_create.go:245-252 | the loop builds the map of keys to last values |
| `Environment.NativeMapAgrees` | internal/podman/libpod_create.go:245-252 | the map built from a merged list has exactly its keys, with the values of its entries |
| `Environment.NativeMapIsLast` | internal/podman/libpod_create.go:245-252 | of any list the map holds what follows the "=" of the last entry with the key, and an empty value for an entry without "=" |
| `Environment.NativeMapKeys` | internal/podman/libpod_create.go:245-252 | the keys of the map are exactly those of the entries |
| `Environment.FilterIdentityEnv` | internal/docker/docker.go:1732-1747 | the loop drops exactly the identity keys |
| `Environment.FilteredLast` | internal/docker/docker.go:1732-1747 | identity keys have no entry afterwards, every other key has the one it had |
| `SandboxValues.SandboxEnvIsTrusted` | internal/docker/docker.go:300-335 | for every caller environment and option mix: no key twice, the image user is the inspected one, no UID or GID variable; with a proxy the five proxy variables are http://, the name of the sidecar container that Create makes, a colon and the port asked for or the default one, the NO_PROXY variables are the configured exceptions, and the five CA variables the CA file |
| `SandboxValues.EveryVariable` | internal/docker/docker.go:300-433 | every variable of the sandbox: the value in a table by key if its option is on, otherwise the caller's last entry, except that identity keys are never the caller's |
| `SandboxValues.OneGroupSetsIt` | internal/docker/docker.go:300-433 | no two groups of driver variables set the same key, so the order of the merges decides nothing among them |
| `SandboxValues.DataAndDisplay` | internal/docker/docker.go:366-433 | with persistence and display on, their variables have the guest paths, "novnc", ":99", the password and the port |
| `SandboxValues.EveryLabel` | internal/docker/docker.go:341-435 | every label of the sandbox: the driver's later write from a table by key, else the caller's, else the driver's first write |
| `SandboxValues.CallerLabel` | internal/docker/docker.go:351-357 | the caller's label is that of the last pair whose trimmed key it is, and blank keys give none |
| `SandboxValues.ManagedExactly` | internal/docker/docker.go:185-198 | the list call always finds a sidecar by its labels, and finds the sandbox container if and only if the caller's labels do not replace the two it looks for |
| `SandboxValues.EveryBind` | internal/docker/docker.go:337-403 | a string is among the binds if and only if it is a driver_config bind or one of the driver's own, each with its source, target, access mode and option |
| `SandboxValues.SidecarIsExact` | internal/docker/docker.go:1478-1600 | the sidecar's name, its five labels, its network and its volumes |
| `SandboxValues.SandboxIsExact` | internal/docker/docker.go:455-571 | the sandbox container's name, its one network and exactly which volumes it uses |
| `Sandbox.SteeringLabel` | internal/docker/docker.go:341-404 | the value each label that Delete reads has after all writes |
| `Sandbox.LabelsSteerDelete` | internal/docker/docker.go:341-412 | the labels name exactly the sandbox's own resources if and only if the caller's labels are harmless |
| `Assembly.BuildEnv` | internal/docker/docker.go:300-433 | the successive merges give the specified environment, whose every variable `SandboxValues.EveryVariable` tells |
| `Assembly.BuildLabels` | internal/docker/docker.go:341-435 | the successive writes give the specified labels, told one by one in `SandboxValues.EveryLabel` |
| `Assembly.BuildBinds` | internal/docker/docker.go:337-403 | the volumes that an engine reads out of the binds are exactly the sandbox's own and those of the driver_config binds, if host paths are absolute |
| `Assembly.ConfiguredBindsNameNone` | internal/docker/driver_config.go:139-170 | the binds that driver_config prints name no volume |
| `Assembly.BuildContainer` | internal/docker/docker.go:455-571 | the container that Create asks for, on exactly one network, with the volumes that its binds and mounts name |
| `Engine.EffectKeepsWellFormed` | internal/docker/docker.go:573-577 | every possible call keeps the engine well formed: attachments exist and container names are unique |
| `Runs.StepTouchesOwn` | internal/docker/docker.go:274-335 | every call of a Create or Delete concerns its own sandbox only |
| `Runs.TouchingLeavesOthers` | internal/docker/docker.go:868-895 | a call that concerns one sandbox leaves containers, network and volumes of every apart sandbox as they were |
| `Runs.PlanIsGood` | internal/docker/docker.go:337-412 | a request with harmless labels plans containers on its own network whose labels stay inside its sandbox |
| `Runs.InvStep` | internal/docker/docker.go:167-591 | every enabled step of every sandbox keeps the invariant |
| `Runs.RunsKeepInv` | internal/docker/docker.go:167-591 | the invariant holds in every state of every run |
| `Runs.StartIsGood` | internal/docker/docker.go:167-206 | the invariant holds before the first sandbox, with any networks and volumes already in the engine |
| `Runs.StepLeavesOthers` | internal/docker/docker.go:868-895 | in every reachable state no step of one sandbox, whatever volumes it mounts, changes another's container, proxy, network or volumes, whatever that one is doing |
| `Runs.RunsDoNotInterfere` | internal/docker/docker.go:868-895 | whatever other sandboxes do in any interleaving, mounting its volumes included, a sandbox that takes no step keeps its container, proxy, network and volumes unchanged |
| `Runs.RequestsKeepOff` | internal/docker/driver_config.go:171-183 | if no request of another sandbox mounts a volume of n, no container of another sandbox ever uses one |
| `Isolation.NetworkHandedOver` | internal/docker/docker.go:1408-1462 | on the reuse, Docker-create and native-create paths a proxied sandbox goes on only with an internal network whose host gateway is isolated |
| `Isolation.StepStaysIsolated` | internal/docker/docker.go:1408-1462 | every step of every sandbox keeps isolation, whatever the request, its labels and mounts, the container ID and the names |
| `Isolation.RunsStayIsolated` | internal/docker/docker.go:1408-1462 | in every state of every run each proxied sandbox is on exactly one network, which is internal with its host gateway isolated by options or by a passed verify |
| `Isolation.ReachableIsIsolated` | internal/docker/docker.go:487-490 | so every state reachable from an engine without containers is isolated, with no condition on requests or names |
| `Frame.InsideStaysOutside` | internal/docker/docker.go:274-335 | a call changes nothing outside of what it names |
| `Frame.RunsStayOutside` | internal/docker/docker.go:868-895 | in every run containers, networks and volumes that are not named after one of the sandboxes stay exactly as they are |
| `Frame.WholeEngine` | internal/docker/docker.go:274-335 | so a sandbox's own view decides the whole engine |
| `Success.CreateIsComplete` | internal/docker/docker.go:274-591 | in every interleaved run, for every request: when Create has succeeded the sandbox has exactly what it had, the requested container, its network and its volumes, and with a proxy one sidecar on its network and the bridge that was created, connected, started and found ready in this order; a network made directly is internal exactly with a proxy |
| `Success.NoProxyNoSidecar` | internal/docker/docker.go:305-329 | without a proxy nothing new stands under the sidecar's name |
| `Success.WholeGrows` | internal/docker/docker.go:274-591 | the same of the whole engine |
| `Success.LeavesForCause` | internal/docker/docker.go:167-591 | Create gives up only at a check or a call to list, make, verify, connect, start or await that failed, a sandbox of that name, or an existing network that would not isolate; a failed inspect or removal is no cause |
| `Success.ListedStops` | internal/docker/docker.go:185-198 | while a managed container of that name exists Create changes nothing |
| `Success.CreateKeepsData` | internal/docker/docker.go:361-365 | in every run a data volume that is there, found or made, survives Create and its cleanup |
| `Success.CreateSparesData` | internal/docker/docker.go:312-328 | in every run only the CA and the SSH volume get onto the list of what the cleanup removes |
| `Rollback.FailedCreateIsUndone` | internal/docker/docker.go:274-335 | in every interleaved run, at whichever step and for whatever reason Create fails, everything of the sandbox is as before except a possibly added data volume, if its removals were honest, it took no volume that was there for its own, and the others mount none of its volumes; nothing outside of the sandboxes' names changed |
| `Rollback.CleanupIsNeverRefused` | internal/docker/docker.go:281-296 | in the cleanup order proxy, volumes, network no removal meets an in-use refusal |
| `Rollback.TrackRoll` | internal/docker/docker.go:281-296 | each cleanup call finds its target and keeps the record of what Create added exact |
| `Preservation.CreateKeepsWhatItFound` | internal/docker/docker.go:1101-1111 | in every run, whatever fails, Create removes and changes nothing of the sandbox that it found, if it takes no volume that was there for its own |
| `Cancellation.CancellationIsExact` | internal/docker/docker.go:274-296 | under a context cancelled at any moment of any interleaved run, a failed Create has put everything back if and only if it was not between making and checking the network or the sidecar |
| `Cancellation.LiveIsHonest` | internal/docker/docker.go:1101-1111 | a healthy engine under a live context answers as rollback asks |
| `Cancellation.CancelledIsHonest` | internal/docker/docker.go:281-296 | so do the failing calls and the cleanup after a cancellation at a safe moment |
| `Cancellation.LeaksToTheEnd` | internal/docker/docker.go:1616-1633 | after a cancellation at an exposed moment the network or the sidecar stays for good |
| `Cancellation.CancelledCreateKeeps` | internal/docker/docker.go:1101-1111 | whenever it is cancelled, Create removes nothing that it found |
| `Deletion.DeleteIsComplete` | internal/docker/docker.go:868-895 | in every interleaved run a finished Delete leaves no container and no network of the sandbox, removes of its volumes exactly those its labels name, and nothing outside of the sandboxes' names changed |
| `Deletion.RunsKeepOwnUse` | internal/docker/docker.go:868-895 | in every run in which the others mount none of its volumes, a sandbox's network and volumes are used by its own containers only |
| `Deletion.CreatedContainer` | internal/docker/docker.go:571-590 | after a finished Create, and until the sandbox's next step, the container under its name is the requested one |
| `Deletion.CreatedLabelsNameOwnVolumes` | internal/docker/docker.go:341-412 | the labels of a created sandbox name all its own volumes and no others |
| `Deletion.CreateThenDelete` | internal/docker/docker.go:868-895 | from any state that satisfies the invariant and in which no other container uses the sandbox's network or volumes, after any run whose other sandboxes mount none of its volumes, a successful Create and an honest Delete of its container leave no container, no network and no request volume of the sandbox, other volumes of it stay, and nothing outside of the sandboxes' names changed |
| `Deletion.FirstSandboxes` | internal/docker/docker.go:167-206 | an engine that runs only unrelated containers is such a start, and so is an empty one |
| `Solo.AloneHolds` | internal/docker/docker.go:167-591 | the recorded calls of a single Create of any request keep the record of what it added exact |
| `Solo.ContextIsFair` | internal/docker/docker.go:274-296 | so do those under a context that is not cancelled at an exposed moment |
| `Solo.AloneBuilds` | internal/docker/docker.go:167-591 | the recorded calls of a single Create of any request build what they should, or hold a cause to give up |
| `Solo.AloneIsStopped` | internal/docker/docker.go:185-198 | with a managed container of that name they change nothing |
| `Solo.SpuriousInspectLosesVolume` | internal/docker/docker.go:1101-1111 | the run in which a failed inspect makes the cleanup delete a volume that was there before |
| `Solo.CancelledContextLeaksNetwork` | internal/docker/docker.go:1427-1438 | the run in which the removal after a failed verify fails and the network stays |
| `Solo.SidecarLeaks` | internal/docker/docker.go:1464-1635 | the run in which the removal of the sidecar fails and every cleanup call is refused |
| `Solo.DeleteTakesNamesake` | internal/docker/docker.go:868-895 | the run in which Delete removes the main container of the sandbox called "proxy-" plus its name |
| `Solo.CreateStaysOutside` | internal/docker/docker.go:274-335 | Create, whatever was asked for and whatever fails, changes nothing outside of the sandbox's names |
| `Solo.DeleteStaysInReach` | internal/docker/docker.go:868-895 | Delete of any container, whatever fails, changes only that container and what its labels name |
| `Solo.HarmfulLabelMisleadsDelete` | internal/docker/docker.go:351-357 | a caller's label that sends Delete to a volume of another name |
| `Driver.EnsureNetwork` | internal/docker/docker.go:1408-1462 | the code's branches take exactly the modelled steps and report whether the network was created here; the driver's own check fails only when a callback network could not be verified |
| `Driver.NativeNetworkCreate` | internal/docker/docker.go:1427-1438 | create through the callback, verify, and remove again on failure |
| `Driver.EnsureVolume` | internal/docker/docker.go:1101-1111 | inspect, create if that fails, report whether it was created here |
| `Driver.CreateProxySidecar` | internal/docker/docker.go:1464-1635 | on any failure after the sidecar exists it is removed again before the error is returned |
| `Driver.Cleanup` | internal/docker/docker.go:281-296 | the deferred function removes what is flagged, in order, and ends with nothing flagged |
| `Driver.MakeProxyVolumes` | internal/docker/docker.go:312-328 | the created volumes recorded for cleanup are exactly those made here |
| `Driver.MakeSandbox` | internal/docker/docker.go:361-583 | data volume, last checks and container, with the container stored as planned |
| `Driver.Create` | internal/docker/docker.go:167-591 | for any request: success leaves exactly what was there and the requested container, network and volumes, with a proxy the sidecar created, connected, started and ready, and only for an admissible request; failure of an admissible request has a failed or contrary engine answer in the trace; a managed container of that name means refusal and no change; whatever fails, nothing outside of the sandbox's names changes and isolation is kept; a failed Create with honest removals restores the whole engine but for the data volume, and under a context cancelled at any moment it does so exactly unless it was exposed then |
| `Driver.AdmissibleMeans` | internal/docker/docker.go:167-272 | the checks made along the way are together exactly the written-out conditions on names, ports, files and images |
| `Driver.CreateSucceeds` | internal/docker/docker.go:274-591 | what the recorded calls of a successful Create of any request leave in the whole engine |
| `Driver.RetryIsRefused` | internal/docker/docker.go:185-198 | after a successful Create a second one of that name is refused, always with a proxy, and without one if and only if the caller's labels leave the two labels of the list call alone |
| `Driver.CreateOutcome` | internal/docker/docker.go:274-335 | for every request and recorded list of calls of a failed Create with honest removals that took no volume that was there, containers and networks are equal to those before and volumes differ by the data volume at most |
| `Driver.CancelledOutcome` | internal/docker/docker.go:274-335 | the same holds for a context cancelled after any number of calls if and only if Create was not exposed then |
| `Driver.Delete` | internal/docker/docker.go:868-895 | success is reported exactly when the first call, the inspect of the ID, succeeded; otherwise that was the only call and nothing changed; on success the container, the proxy, the network and the volumes named by the labels were each asked to be removed, in this order; for any container ID only that container and what its labels name can change and isolation is kept; for a labelled sandbox with honest answers the engine is what it was without the sandbox |
| `Driver.DeleteSteps` | internal/docker/docker.go:868-895 | the list of calls, written out from the labels, and what is reported |
| `Subnets.ContainsIsBlock` | internal/podman/libpod_network.go:223 | the bit test of a prefix is membership in its interval of addresses |
| `Subnets.OverlapExact` | internal/podman/libpod_network.go:223 | the overlap test holds exactly when two blocks share an address, for all lengths and with host bits set |
| `Subnets.CandidateInside` | internal/podman/libpod_network.go:203-217 | every candidate is a /24 inside 172.16.0.0/12 that contains its gateway |
| `Subnets.CandidatesAreAll` | internal/podman/libpod_network.go:203-217 | every /24 of 172.16.0.0/12 is a candidate, exactly once |
| `Subnets.UsedPrefixes` | internal/podman/libpod_network.go:193-200 | the used list holds exactly the listed subnets that parse |
| `Subnets.AvailableNetworkSubnet` | internal/podman/libpod_network.go:193-221 | the result is the first free candidate in probe order, shares no address with any used prefix and lies in the private range; failure only when all 4096 candidates collide |
| `NativeNetwork.FindRoute` | internal/podman/libpod_network.go:148-158 | found exactly when the gateway is in the subnet and has a full-length blackhole route |
| `NativeNetwork.Verify` | internal/podman/libpod_network.go:109-163 | accepts an internal network if and only if it is internal, has subnets and every gateway is black-holed |
| `NativeNetwork.FullLengthRouteIsOneAddress` | internal/podman/libpod_network.go:149-155 | such a route covers the gateway and no other address |
| `NativeNetwork.SentSpecVerifies` | internal/podman/libpod_network.go:62-73 | what create sends passes verify when stored as sent |
| `NativeNetwork.SeparateSharesNothing` | internal/podman/libpod_network.go:193-223 | in the daemon's invariant no two subnets have an address in common |
| `NativeNetwork.CreateNetwork` | internal/podman/libpod_network.go:60-107 | with other clients adding networks between list and create, over the lists and answers received: every answer but the last is a refusal that says "subnet" and "used", the outcome is the one the last answer or list calls for, each failure has its own cause, every request sent is the verified form; subnets stay disjoint, a created internal network verifies, other networks are untouched, at most 32 requests |
| `NativeNetwork.Attempt` | internal/podman/libpod_network.go:60-107 | one turn of the loop: which answer ends it with which outcome, and which is tried again |
| `NativeNetwork.CreatedExactly` | internal/podman/libpod_network.go:93-107 | the network is reported as created if and only if the last answer is a 2xx |
| `NativeNetwork.OverlapIsRetried` | internal/podman/libpod_network.go:96-105 | the daemon's refusal of a subnet that another client took meanwhile is one that is tried again |
| `NativeNetwork.RetriedGoesOn` | internal/podman/libpod_network.go:60-107 | after such a refusal the create ends only with a failed list, no free subnet or the 32nd attempt |
| `Binds.BindRoundTrip` | internal/podman/libpod_create.go:344-361 | a printed bind is read back exactly, or refused, exactly when source or target holds a colon |
| `Binds.OptionsRoundTrip` | internal/docker/driver_config.go:160-170 | the printed options read back as access mode and SELinux letter |
| `Binds.PrintedBindIsKept` | internal/docker/driver_config.go:160-170 | the reader recovers source, target, access mode and label of every bind it accepts |
| `DriverConfig.CheckTarget` | internal/docker/driver_config.go:95-115 | accepts a target if and only if it is a normalized path, unrelated to every reserved root and not at or below a protected path |
| `DriverConfig.ParseTmpfsOptions` | internal/docker/driver_config.go:189-199 | accepts exactly the well-formed option lists and splits each at its first "=" |
| `DriverConfig.ParseBindMount` | internal/docker/driver_config.go:139-170 | accepted exactly under its conditions, printed with the access mode and label asked for |
| `DriverConfig.ParseVolumeMount` | internal/docker/driver_config.go:171-183 | accepted exactly under its conditions, with source, subpath and access mode |
| `DriverConfig.ParseTmpfsMount` | internal/docker/driver_config.go:184-207 | accepted exactly under its conditions, with size, mode cut to 32 bits and options |
| `DriverConfig.ParseMount` | internal/docker/driver_config.go:81-213 | accepted if and only if all conditions hold, and then it is the mount asked for |
| `DriverConfig.ParseMounts` | internal/docker/driver_config.go:61-76 | the list is accepted if and only if every mount is and targets are pairwise distinct; one outcome per configuration, in order |
| `DriverConfig.NothingIsLost` | internal/docker/driver_config.go:71-75 | every configuration is in exactly one of the two lists |
| `DriverConfig.ProtectedTestIsOneSided` | internal/docker/driver_config.go:111-115 | the test is exactly "at or below"; a target above a protected path passes it |
| `DriverConfig.ProtectedParentIsAccepted` | internal/docker/driver_config.go:95-115 | the parent of a protected path is an accepted target |
| `DriverConfig.OptIsSuchAParent` | internal/docker/driver_config.go:111-111 | "/opt" is the parent of the protected "/opt/openshell" |
| `DriverConfig.ProtectedPathsAreRefused` | internal/docker/driver_config.go:95-115 | the seven protected paths, with or without a final slash, and all paths below them are refused |
| `DriverConfig.ParentSubpathIsAccepted` | internal/docker/driver_config.go:176-183 | ".." and every plain component below it are accepted as subpaths |
| `DriverConfig.SubpathStaysBelow` | internal/docker/driver_config.go:176-183 | an accepted subpath has no ".." if and only if its first component is not ".." |
| `NativeSpec.PrintedBindArrives` | internal/podman/libpod_create.go:344-361 | a printed bind arrives as a recursive bind of its host path or as the volume of that name, with its target, access mode and label, or is refused |
| `NativeSpec.ShortBindArrives` | internal/podman/libpod_create.go:344-361 | so does a bind without options |
| `NativeSpec.TranslateMount` | internal/podman/libpod_create.go:401-456 | succeeds exactly for the mounts that can be expressed and gives their translation |
| `NativeSpec.MountArrives` | internal/podman/libpod_create.go:401-475 | kind, source and destination are kept, and the access mode if and only if no contrary option was asked for |
| `NativeSpec.BindMountSays` | internal/podman/libpod_create.go:401-427 | exactly which options a translated bind has |
| `NativeSpec.TmpfsMountSays` | internal/podman/libpod_create.go:430-449 | exactly which options a translated tmpfs has: access mode, size in decimal, mode in octal, and the pairs |
| `NativeSpec.OctalRoundTrip` | internal/podman/libpod_create.go:435-437 | the printed mode reads back in base 8 |
| `NativeSpec.ConfiguredMountArrives` | internal/docker/driver_config.go:138-207 | from driver_config to the spec: the target is kept; a bind has its source, "z" exactly for "shared" and "Z" exactly for "private"; a volume has its name; a tmpfs has its size, mode and options; the access mode is kept if and only if no tmpfs option contradicts it |
| `NativeSpec.ContraryTmpfsIsAccepted` | internal/docker/driver_config.go:184-207 | a tmpfs with the option "rw" and no read_only is accepted and arrives saying both |
| `NativeSpec.PairRoundTrip` | internal/podman/libpod_create.go:438-446 | a tmpfs option split by driver_config is joined to the same string |
| `NativeSpec.EveryItemArrives` | internal/podman/libpod_create.go:344-386 | every requested item is in exactly one of mounts and volumes, and nothing else is |
| `NativeSpec.AddBinds` | internal/podman/libpod_create.go:344-361 | the loop adds exactly the items of the binds, or refuses |
| `NativeSpec.AddMounts` | internal/podman/libpod_create.go:362-376 | the loop adds exactly the items of the engine mounts, or refuses |
| `NativeSpec.AddTmpfs` | internal/podman/libpod_create.go:377-385 | the loop adds one tmpfs mount per target, sorted |
| `Sorting.SortedOnce` | internal/podman/libpod_create.go:377-381 | the sorted targets are the same list in whatever order the map was walked |
| `NativeSpec.TranslatePorts` | internal/podman/libpod_create.go:290-305 | succeeds exactly when every host port is a 16-bit number, and then publishes every binding and nothing else, one mapping each: container port and protocol of the entry, host address and host port of the binding, 0 for none |
| `NativeSpec.NoPortIsLost` | internal/podman/libpod_create.go:290-305 | every binding of every port has a mapping with its fields |
| `NativeSpec.NoPortIsAdded` | internal/podman/libpod_create.go:290-305 | there are as many mappings as bindings, each with the fields of one of them |
| `NativeSpec.PrintedPortIsPublished` | internal/podman/libpod_create.go:290-305 | a host port printed in decimal is published as that number |
| `NativeSpec.TranslateDevices` | internal/podman/libpod_create.go:229-244 | succeeds exactly for CDI requests with IDs and gives all of them |
| `NativeSpec.NoDeviceIsLost` | internal/podman/libpod_create.go:229-244 | every requested device is carried over, as many as asked for |
| `NativeBuild.BuildNativeSpec` | internal/podman/libpod_create.go:215-386 | succeeds if and only if everything asked for can be expressed, and then carries over mounts, volumes, environment, devices, networks and ID maps, and publishes exactly the ports, field by field |
| `NativeBuild.NothingRequestedIsLost` | internal/podman/libpod_create.go:344-386 | mounts plus volumes correspond one to one to binds, engine mounts and tmpfs targets |
| `UserNamespace.IdMapList` | internal/podman/config.go:186-223 | accepts exactly the lists of three 32-bit numbers with a non-zero size and keeps their order |
| `UserNamespace.EntryRoundTrip` | internal/podman/config.go:186-223 | a printed mapping reads back, an empty one is refused |
| `UserNamespace.ValidateIdMap` | internal/podman/libpod_create.go:389-399 | accepts exactly the maps whose ranges stay below 2^32 on both sides |
| `UserNamespace.MappedIdsFit` | internal/podman/libpod_create.go:389-399 | a mapping is accepted if and only if it covers an ID and every ID it covers is a 32-bit ID on both sides |
| `UserNamespace.BuildUserNs` | internal/podman/libpod_create.go:306-343 | succeeds exactly for known modes with fitting maps, keeps both maps in order, and never uses a missing ID-mapping record |
| `UserNamespace.CanonicalIsKnown` | internal/podman/config.go:159-184 | every canonical mode is one that buildNativeSpec knows |
| `UserNamespace.CanonicalIsExact` | internal/podman/config.go:159-184 | exactly which modes are accepted; the canonical form is the mode in its canonical spelling and what follows the first colon unchanged |
| `UserNamespace.CanonicalTwice` | internal/podman/config.go:159-184 | a canonical mode is its own canonical form |
| `UserNamespace.ConfiguredMapsAreAccepted` | internal/podman/config.go:123-135 | a configuration is accepted again at creation if and only if the maps have equal length and stay in range |
| `UserNamespace.UnequalMapsAreConfigured` | internal/podman/config.go:123-135 | two user mappings with one group mapping are configured and then refused |
| `DuplicateKeys.Decoder.ParseValue` | internal/docker/driver_config.go:219-257 | the recursive reader consumes what the specification consumes, and terminates on the tokens left |
| `DuplicateKeys.RejectDuplicateKeys` | internal/docker/driver_config.go:215-265 | succeeds if and only if the tokens are one JSON value whose objects have distinct names at every depth |
| `DuplicateKeys.ParseIsExact` | internal/docker/driver_config.go:215-265 | on the tokens of any value it consumes exactly them when names are distinct, and fails otherwise |
| `DuplicateKeys.ParsedIsValue` | internal/docker/driver_config.go:215-265 | whatever passes is the token list of a value with distinct names |
| `DuplicateKeys.AcceptsExactlyDistinct` | internal/docker/driver_config.go:215-265 | acceptance is exactly "one value with distinct names" |
| `DuplicateKeys.SecondValueIsRefused` | internal/docker/driver_config.go:258-263 | a second value after the first is refused |
| `ShellQuote.QuoteRoundTrip` | internal/docker/runtime_config.go:103 | for every string, the quoted form reads back as one word equal to it |
| `ShellQuote.EmbeddedIsOneWord` | internal/docker/runtime_config.go:103 | embedded between blanks in unquoted text it is one word, and no other word depends on it |
| `ShellQuote.SshdScriptWords` | internal/docker/docker.go:1357 | the sshd script passes the socket path as one argument |
| `ShellQuote.HealthScriptWords` | internal/docker/docker.go:521 | the health check tests exactly the socket path |
| `ReservedPaths.CleanIsIdentity` | internal/mounts/reserved.go:75-105 | path.Clean changes nothing on a normalized path |
| `ReservedPaths.OverlapIsRelated` | internal/mounts/reserved.go:61-73 | the string test is exactly "one component list is a prefix of the other" |
| `ReservedPaths.NormalizeAbsolute` | internal/mounts/reserved.go:75-105 | succeeds if and only if the trimmed value stands for a normalized path, and returns that path |
| `ReservedPaths.ValidateMountTarget` | internal/mounts/reserved.go:31-45 | accepts if and only if the target is neither ancestor nor descendant of any reserved root |
| `ReservedPaths.ValidateUploadDest` | internal/mounts/reserved.go:47-59 | accepts if and only if the path is in the workspace or passes the mount rule |
| `Gpu.ValidateRequest` | internal/docker/gpu.go:18-46 | accepts exactly the valid requests |
| `Gpu.DeviceRequests` | internal/docker/gpu.go:55-76 | the IDs requested for a specification, or none, told by the rows that follow |
| `Gpu.ListLocalDevices` | internal/docker/gpu.go:94-122 | the inventory sorted by device index, or all GPUs through dxg |
| `Gpu.LocalDevicesAreAll` | internal/docker/gpu.go:94-122 | nvidia.com/gpu=N is listed if and only if nvidiaN is there; without any it is nvidia.com/gpu=all if /dev/dxg exists, else nothing |
| `Gpu.NamedDevicesAreKept` | internal/docker/gpu.go:55-76 | an accepted GPU request asks for all devices the caller names, else all the environment names, and without either and without a count for exactly nvidia.com/gpu=all |
| `Gpu.NormalizedKeepsOrder` | internal/docker/gpu.go:78-92 | device lists are trimmed, blanks dropped, the order kept |
| `Gpu.CountAgrees` | internal/docker/gpu.go:18-76 | an accepted request with a count asks for exactly that many IDs |
| `Gpu.InventoryGivesLowest` | internal/docker/gpu.go:94-122 | from the inventory the lowest indexes are taken, in order |
| `Gpu.DriverConfigCount` | internal/docker/gpu.go:55-76 | after driver_config replaced the devices the count holds if and only if it lists at least that many |
| `Gpu.OneListedForTwo` | internal/docker/gpu.go:55-76 | an accepted request for two devices for which one is requested |
| `Gpu.ComputeIndex` | internal/docker/gpu.go:133-139 | the loop computes the index digit by digit in a 64-bit word |
| `Gpu.IndexIsWrappedValue` | internal/docker/gpu.go:133-139 | the index is the number modulo 2^64 as a signed word |
| `Gpu.IndexIsValue` | internal/docker/gpu.go:133-139 | the index is the number itself if and only if that is below 2^63 |
| `Gpu.ShortIndexIsValue` | internal/docker/gpu.go:133-139 | so it is for up to 18 digits |
| `Gpu.LongIndexWraps` | internal/docker/gpu.go:133-139 | a longer name with a negative index |
| `TarExtract.ArchivePathIsLocal` | internal/docker/docker.go:1307-1321 | accepts exactly the relative names without ".." that name something, as their plain components |
| `TarExtract.Root.RejectSymlink` | internal/docker/docker.go:1323-1343 | without a fault of the file system it succeeds if and only if the name is local and no component on the way is a symbolic link |
| `TarExtract.PutFile` | internal/docker/docker.go:1279-1302 | changes the file and missing parents only, on success the bytes and mode are in place, and it fails only by a fault or because something is in the way |
| `TarExtract.Extract` | internal/docker/docker.go:1227-1305 | on success or error only entry paths and their parents, or the destination, change and never through a link; on success every last file, with mode 0755 exactly when an execute bit is set and else 0644, and every directory is in place, and in file mode there was exactly one regular entry; it fails only by a fault, an unreadable stream, a bad name, a wrong number of files or something in the way |
| `TarExtract.FileModeResult` | internal/docker/docker.go:1270-1302 | nil in file mode means one regular entry with its bytes at the destination, in mode 0755 if some execute bit is set and else 0644 |
| `TarExtract.FileModeIsExact` | internal/docker/docker.go:1285-1288 | the mode is 0755 if owner, group or others may execute, else 0644 |
| `TarExtract.FileModeTouchesOne` | internal/docker/docker.go:1271-1278 | in file mode no other path can change |
| `TarExtract.LinksSurvive` | internal/docker/docker.go:1227-1343 | the set of symbolic links is unchanged and no changed path passes through one |
| `LogFanIn.RunsKeepInv` | internal/docker/docker.go:1035-1099 | the invariant of workers, mutex, wait group, channel and output holds in every interleaving |
| `LogFanIn.SendNeverBlocks` | internal/docker/docker.go:1043-1078 | a worker with a fault always finds room in the channel and sends only one |
| `LogFanIn.OutputIsInOrder` | internal/docker/docker.go:1035-1078 | at any moment the whole lines of a prefix are the first lines of that source, in order |
| `LogFanIn.FragmentIsNextLine` | internal/docker/docker.go:1036-1041 | a failed write leaves at most one fragment for a source, the beginning of just the next line, and that source writes nothing more |
| `LogFanIn.NilMeansComplete` | internal/docker/docker.go:1081-1098 | nil means no worker reported a fault and, without cancellation, every opened source is written out in full |
| `LogFanIn.NilIsFinal` | internal/docker/docker.go:1081-1098 | after nil nothing more is written |
| `LogFanIn.ErrorIsEarned` | internal/docker/docker.go:1060-1098 | an error is returned only if an open or a write failed, the context was cancelled or a stream broke |
| `LogFanIn.NoDeadlock` | internal/docker/docker.go:1035-1099 | until Logs returns some thread can move without cancellation |
| `LogFanIn.EndsAtOnce` | internal/docker/docker.go:1081-1098 | once all sources are open, a cancellation or the first fault can end Logs at once, whatever the other sources do |
| `LogFanIn.RunsEnd` | internal/docker/docker.go:1035-1099 | over streams that end the number of steps of every run is bounded, so Logs returns |
| `LogFanIn.StepsFollowOutput` | internal/docker/docker.go:1035-1099 | over streams of any length a run takes at most four steps for each line written and a fixed number for each source besides |
| `LogFanIn.HarmlessRunsReturnNil` | internal/docker/docker.go:1035-1099 | with no fault and no cancellation Logs can only return nil |
| `LogFanIn.CancelledNilIsTruncated` | internal/docker/docker.go:1073-1078 | a run that returns nil with the sandbox's only line missing |

## Left out

- HTTP, TLS and socket transport to Docker and Podman, and JSON marshalling: the engine is a state with calls that may fail.
- Start, Stop, Exec, terminal handling, CopyTo, List, Inspect and health probes: each is one engine call or a loop over its answer, with no state that the rest depends on.
- Image pull, registry credentials, PEM bundles, Podman socket discovery, binary builds, Kubernetes and VM stubs.
- Two Creates of the same sandbox at once: the list check is not atomic with creation, so runs are over different names.
- Values of the `defaults` package and of the runtime configuration are parameters; reserved roots are any normalized paths.
- Checks that read the host (files, images, ports, GPU inventory of the process) are parameters of the request, so is the resolved list of driver_config mounts.
- The sidecar's own environment, binds and command are not built up; its name, labels, network and volumes are.
- Environment, labels and binds are assembled in one go before the container call; the code interleaves this with the volume calls, which do not depend on it.
- CPU, memory, PID limits, health check timing, exposed ports and command lines of the container; configuredPidsLimit is one expression.
- Volumes that an engine creates implicitly on container creation: the model's engine refuses a container whose volumes are missing.
- SHA-256: the start index of the allocator is any 16-bit number.
- The order of a walk over a Go map is arbitrary in the model; sorting is any function with the order sort promises.
- Strings are sequences of characters; ToLower changes the characters that become ASCII letters (all that any caller here looks at), and invalid UTF-8 is not modelled.
- IPv6 zones and IPv4-mapped addresses of parsed prefixes.
- JSON decoding of single fields: a field is absent, malformed or decoded.
- TarExtract.Root.MkdirAll: following a link is modelled as an arbitrary change, since extraction never calls it on a path with a link; other processes changing the tree meanwhile are not modelled.
- The inner copy goroutine of a log worker and its pipe are part of the worker's scan step.
- LogFanIn.RunsEnd: a followed stream that never ends has no last run; for those `LogFanIn.StepsFollowOutput` bounds the steps by the output.
- ShellQuote.EmbeddedIsOneWord: the text around the value is without double quotes, dollar signs, backquotes and hashes, since the reader does not model expansions and comments; the value itself is any string.
- ShellQuote.SshdScriptWords: the same for the fixed sshd and log paths.
- An answer lost after the engine carried out a call, except for the create request of the native network callback.
- Logs with a single source copies the stream and is not modelled.
