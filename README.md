# Tethys Platform `tethys docker` commands: a Dafny model

This project models the service-reconciliation and lifecycle core of the Tethys Platform
command line (`tethys_apps/cli/docker_commands.py`). The `tethys docker` commands manage three
fixed service containers: a PostGIS database, a GeoServer map server and a 52 North WPS
processing service. The model covers the following:

- **Messages** (`messages.dfy`): every line the commands print, as a `Line` value that names
  the kind of line and the service title. `Text` gives the exact characters printed.
- **Catalog** (`catalog.dfy`): the images, container names, command-line inputs and default
  host ports of the three services.
- **Engine** (`engine.dfy`): the Docker engine, as an abstract inventory.
  - Images carry `RepoTags`. Containers carry `Names`, a running flag and their start settings.
  - The log of state-changing calls and the printed lines are part of the same state.
  - A `Client` class stands for the docker-py client. Its methods (`Images`, `Containers`,
    `Pull`, `CreateContainer`, `Start`, `Stop`, `RemoveContainer`, `Print`) change its fields.
  - Each method is specified by an effect function on the `World` value.
  - A call the engine refuses changes nothing but the call log and reports failure.
    The commands treat such a failure like the exception that aborts them.
- **Inventory** (`inventory.dfy`): the two diffs `get_images_to_install` and
  `get_containers_to_create`, written as the source writes them.
  - Entries are popped from the list being iterated, so the entry after a popped one is skipped.
  - The module also covers the status map of `get_docker_container_status`, the records of
    `get_docker_container_dicts`, and the three-way reading (Running / Stopped / Not Installed)
    that `docker_status` prints.
- **Readings** (`readings.dfy`): how creating, starting, stopping and removing one container
  changes that reading.
- **Lifecycle** (`lifecycle.dfy`): `start_docker_containers`, `stop_docker_containers`,
  `remove_docker_containers` (with `container_check`) and `install_docker_containers`.
  - Only the `defaults=True` path of the install is covered.
  - Each operation is a specification function on the engine state plus a method on the client
    proved equal to it.
- **Commands** (`commands.dfy`): `docker_init`, `docker_start`, `docker_stop`,
  `docker_restart`, `docker_remove`, `docker_status` and `docker_update`, composed from the
  lifecycle steps.
- **Connector** (`connector.dfy`): `get_api_version`, with the library's `compare_version`
  as a parameter, and the host split of a `tcp://host:port` address.

`exit(0)` in the GeoServer branch of the install is modelled as the outcome `Exited`: the
command stops there. A create or a removal that the engine refuses yields the outcome
`Aborted`. The start and stop blocks call the engine only for a name that is a key of the
status map, and such a call is never refused (`Lifecycle.StartAccepted`,
`Lifecycle.StopAccepted`), so their effect is taken without an accept test.

The first engine call that the engine refuses raises and ends the command. `update` ends with a
`force=True` install, which always issues the PostGIS create. That install either exits at the
GeoServer branch or aborts at a refused PostGIS create, so `update` never completes
(`Commands.UpdateNeverCompletes`). An update whose selection leaves PostGIS out while PostGIS
is installed, such as `update -c geoserver`, always aborts at that create. The services it
selected stay removed (`Commands.UpdateKeepingPostgisAborts`).

## Model

| member | source | states |
|---|---|---|
| Util.IndexOf | tethys_apps/cli/docker_commands.py:217 | `list.index`: the position of the first occurrence of the value |
| Util.RemoveFirst | tethys_apps/cli/docker_commands.py:217 | `list.pop(list.index(x))` removes the first occurrence of `x`: the entries before it stay in place, the ones after move down by one, and exactly one `x` goes |
| Catalog.ServiceFor | tethys_apps/cli/docker_commands.py:36-60 | an input selects a catalog row iff it is one of `postgis`, `geoserver`, `wps`; the row carries that input |
| Catalog.ImageFor | tethys_apps/cli/docker_commands.py:202-208 | the image of an input, defined exactly for the three inputs and always a required image |
| Catalog.ContainerFor | tethys_apps/cli/docker_commands.py:229-235 | the container name of an input, defined exactly for the three inputs and always a required container |
| Catalog.CatalogInjective | tethys_apps/cli/docker_commands.py:36-52 | distinct inputs select distinct images and distinct container names |
| Engine.RunningOnly | tethys_apps/cli/docker_commands.py:321 | `containers()` lists exactly the running containers of the `all=True` listing |
| Engine.Lookup | tethys_apps/cli/docker_commands.py:629 | the container an engine call addresses by name is one carrying `/name`, and there is none iff no container carries it |
| Engine.PullEffect | tethys_apps/cli/docker_commands.py:767 | after `pull(tag)` some image carries the tag |
| Engine.EffectsKeepUniqueNames | tethys_apps/cli/docker_commands.py:416-422 | create, start, stop and remove keep container names unique |
| Engine.CreateKeepsUniqueNames | tethys_apps/cli/docker_commands.py:416-422 | a create either adds a container under a name no container carries or changes nothing, so names stay unique |
| Engine.RemoveKeepsUniqueNames | tethys_apps/cli/docker_commands.py:739 | a removal deletes at most one container, so names stay unique |
| Engine.Say | tethys_apps/cli/docker_commands.py:360 | a printed line is appended to the output; images, containers and the call log are untouched |
| Engine.CreateEffect | tethys_apps/cli/docker_commands.py:416-422 | `create_container` logs its call; it is accepted iff no container carries the name and an image carries the tag, and then appends one stopped container with that name, image and environment; a refused create changes no container (`Lifecycle.InstallPostgisRefused`, `Engine.CreateKeepsUniqueNames`) |
| Engine.StartEffect | tethys_apps/cli/docker_commands.py:629-631 | `start` logs its call; it is accepted iff a container carries the name, and then sets that container running with the given restart policy and port bindings (`Lifecycle.StartOwnFlips`, `Lifecycle.StartAccepted`) |
| Engine.StopEffect | tethys_apps/cli/docker_commands.py:685 | `stop` logs its call; it is accepted iff a container carries the name, and then clears that container's running flag (`Lifecycle.StopOwnFlips`, `Lifecycle.StopAccepted`) |
| Engine.RemoveEffect | tethys_apps/cli/docker_commands.py:739 | `remove_container` logs its call; it is refused for an absent or running container, and otherwise deletes that container (`Lifecycle.RemoveStepEffect`, `Engine.RemoveKeepsUniqueNames`) |
| Engine.Client.Images | tethys_apps/cli/docker_commands.py:211 | `images()` returns the image listing |
| Engine.Client.Containers | tethys_apps/cli/docker_commands.py:320-321 | `containers(all=...)` returns all containers, or only the running ones |
| Engine.Client.Print | tethys_apps/cli/docker_commands.py:360 | a printed line is appended to the output and nothing else changes |
| Engine.Client.Pull | tethys_apps/cli/docker_commands.py:767 | `pull` changes the client state as `PullEffect` says |
| Engine.Client.CreateContainer | tethys_apps/cli/docker_commands.py:416-422 | `create_container` adds a stopped container unless the name is taken or the image is missing, and logs the call |
| Engine.Client.Start | tethys_apps/cli/docker_commands.py:629-631 | `start` sets the running flag, restart policy and port bindings of the named container, or fails when there is none |
| Engine.Client.Stop | tethys_apps/cli/docker_commands.py:685 | `stop` clears the running flag of the named container, or fails when there is none |
| Engine.Client.RemoveContainer | tethys_apps/cli/docker_commands.py:739 | `remove_container` deletes the named container, and is refused for an absent or running one |
| Inventory.PopPass | tethys_apps/cli/docker_commands.py:214-217 | one inner loop of the diffs: `want.pop(want.index(x))` for each entry whose prefixed form a listing carries, with the loop index advancing past the entry that slid into the popped slot (`Inventory.PopPassExact`, `Inventory.PopPassDropsOnlyMatched`, `Inventory.SharedImageSkipsSecond`) |
| Inventory.Prune | tethys_apps/cli/docker_commands.py:211-217 | one `PopPass` per image or container listing, in listing order (`Inventory.PruneExact`, `Inventory.PruneDropsOnlyListed`) |
| Inventory.ImagesToInstall | tethys_apps/cli/docker_commands.py:190-219 | `get_images_to_install`: the images of the inputs, pruned by each image's `RepoTags` (`Inventory.ImagesToInstallExact`, `Inventory.ImagesToInstallKeepsMissing`) |
| Inventory.ContainersToCreate | tethys_apps/cli/docker_commands.py:222-246 | `get_containers_to_create`: the container names of the inputs, pruned by each container's `Names` with the leading '/' (`Inventory.ContainersToCreateExact`, `Inventory.ContainersToCreateKeepsAbsent`) |
| Inventory.Collect | tethys_apps/cli/docker_commands.py:201-208 | the first loop of both diffs keeps at most one entry per input |
| Inventory.CollectAllInputs | tethys_apps/cli/docker_commands.py:201-208 | the three inputs request exactly the three required images and the three required containers, in catalog order |
| Inventory.CollectMembers | tethys_apps/cli/docker_commands.py:201-208 | a value is requested iff some input maps to it |
| Inventory.CollectRecognised | tethys_apps/cli/docker_commands.py:201-208 | when every input is recognised, the requested list is the inputs mapped one to one, in order |
| Inventory.CollectNoDuplicates | tethys_apps/cli/docker_commands.py:201-208 | distinct inputs give a requested list without repeats |
| Inventory.UnlistedMembers | tethys_apps/cli/docker_commands.py:210-217 | the intended difference keeps exactly the requested entries that no listing carries |
| Inventory.KeepAppend | tethys_apps/cli/docker_commands.py:214-217 | filtering by one listing distributes over concatenation |
| Inventory.KeepUnmatched | tethys_apps/cli/docker_commands.py:214-217 | filtering by a listing that carries no entry keeps every entry |
| Inventory.KeepSub | tethys_apps/cli/docker_commands.py:214-217 | filtering keeps only requested entries and introduces no repeats |
| Inventory.UnlistedAfterKeep | tethys_apps/cli/docker_commands.py:210-217 | filtering by the first listing and then by the rest is filtering by all listings |
| Inventory.DropAtNoDuplicates | tethys_apps/cli/docker_commands.py:217 | popping a position from a list without repeats leaves a list without repeats that lacks the popped value |
| Inventory.PopAtMatch | tethys_apps/cli/docker_commands.py:214-217 | with one match per listing, the pop at the match leaves no match and equals the filtered list |
| Inventory.PopPassExact | tethys_apps/cli/docker_commands.py:214-217 | without repeats and with one match per listing, the pop-while-iterating pass removes exactly the matched entries |
| Inventory.PruneExact | tethys_apps/cli/docker_commands.py:210-217 | under the same conditions, the passes over all listings compute the intended difference |
| Inventory.UnlistedAll | tethys_apps/cli/docker_commands.py:210-217 | when no listing carries any entry, the difference is the whole requested list |
| Inventory.EmptyEngineDiffs | tethys_apps/cli/docker_commands.py:190-246 | against an engine with no images and no containers, both diffs report every requested entry |
| Inventory.PopPassDropsOnlyMatched | tethys_apps/cli/docker_commands.py:214-217 | a pass only removes matched entries: the result is a sub-multiset and unmatched counts are unchanged |
| Inventory.PruneDropsOnlyListed | tethys_apps/cli/docker_commands.py:210-217 | all passes only remove listed entries and never add any |
| Inventory.ListedTag | tethys_apps/cli/docker_commands.py:212-216 | an image tag is listed iff some image carries it |
| Inventory.ListedName | tethys_apps/cli/docker_commands.py:239-243 | a container name is listed iff some container carries `/name` |
| Inventory.ImagesToInstallExact | tethys_apps/cli/docker_commands.py:190-219 | for distinct inputs, where no image lists two catalog tags, the images to pull are the requested images in input order minus those already present |
| Inventory.ImagesToInstallKeepsMissing | tethys_apps/cli/docker_commands.py:190-219 | every image in the result was requested, and a requested image that no image carries is never dropped |
| Inventory.ContainersToCreateExact | tethys_apps/cli/docker_commands.py:222-246 | for distinct inputs, where no container carries two catalog names, the containers to create are exactly the requested ones that no container (running or stopped) is named after |
| Inventory.ContainersToCreateKeepsAbsent | tethys_apps/cli/docker_commands.py:222-246 | every container in the result was requested; a wholly absent one is always reported |
| Inventory.RepeatedInputSurvives | tethys_apps/cli/docker_commands.py:214-217 | requesting `postgis` twice leaves its image in the result although it is already pulled |
| Inventory.SharedImageSkipsSecond | tethys_apps/cli/docker_commands.py:214-217 | an image tagged for two requested images hides the second one: it stays in the result |
| Inventory.CollectTwo | tethys_apps/cli/docker_commands.py:201-208 | two recognised inputs request their two images in order |
| Inventory.PopFirstOfTwo | tethys_apps/cli/docker_commands.py:214-217 | when the first of two entries matches, the pass pops it and never examines the second |
| Inventory.FirstMatch | tethys_apps/cli/docker_commands.py:326-333 | the `if`/`elif` chain picks a catalog name the container carries, PostGIS before GeoServer before WPS: GeoServer only without the PostGIS name, WPS only without both; none only when it carries no catalog name |
| Inventory.Mark | tethys_apps/cli/docker_commands.py:325-345 | one marking loop of `get_docker_container_status`: for each container in listing order, the name the `if`/`elif` chain picks is set to the loop's value (`Inventory.MarkMeaning`) |
| Inventory.StatusMap | tethys_apps/cli/docker_commands.py:313-347 | False from the all-containers listing, then True from the running listing (`Inventory.StatusMapMeaning`, `Inventory.RunningListingAddsKey`) |
| Inventory.Status | tethys_apps/cli/docker_commands.py:318-321 | both listings are taken from the same inventory: the all listing and its running part |
| Inventory.Reading | tethys_apps/cli/docker_commands.py:846-867 | the three-way test `docker_status` applies to a status key: present and True is Running, present and False is Stopped, absent is Not Installed |
| Inventory.StateOf | tethys_apps/cli/docker_commands.py:846-867 | the reading of a name against the status map of a container listing (`Inventory.StateOfMeaning`) |
| Inventory.Dicts | tethys_apps/cli/docker_commands.py:294-310 | `get_docker_container_dicts`: each name the chain picks maps to its container, later containers overwriting earlier ones (`Inventory.DictsMeaning`) |
| Inventory.MarkMeaning | tethys_apps/cli/docker_commands.py:325-345 | one marking loop adds exactly the counted names as keys, with the loop's value |
| Inventory.StatusMapMeaning | tethys_apps/cli/docker_commands.py:313-347 | the status keys are only catalog names; a name is a key iff a container of either listing counts for it; its value is True iff one in the running listing does |
| Inventory.RunningListingAddsKey | tethys_apps/cli/docker_commands.py:336-345 | the running-only pass can add a key that the all-containers pass never produced |
| Inventory.TwoNamesCountOnce | tethys_apps/cli/docker_commands.py:326-333 | a container named after two catalog containers counts only for the first in chain order |
| Inventory.StateOfMeaning | tethys_apps/cli/docker_commands.py:846-867 | against the engine's listings a service reads Running iff a running container counts for it, Not Installed iff none counts, Stopped otherwise |
| Inventory.DictsMeaning | tethys_apps/cli/docker_commands.py:294-310 | a name has a record iff a container counts for it, and the record is the last such container |
| Inventory.PopMatched | tethys_apps/cli/docker_commands.py:214-217 | the inner pop-while-iterating loop computes `PopPass` |
| Inventory.GetImagesToInstall | tethys_apps/cli/docker_commands.py:190-219 | `get_images_to_install` returns `ImagesToInstall` of the client's images |
| Inventory.GetContainersToCreate | tethys_apps/cli/docker_commands.py:222-246 | `get_containers_to_create` returns `ContainersToCreate` of the client's containers |
| Inventory.MatchCatalog | tethys_apps/cli/docker_commands.py:326-333 | the chain applied to one container returns `FirstMatch` of its names |
| Inventory.GetDockerContainerDicts | tethys_apps/cli/docker_commands.py:294-310 | `get_docker_container_dicts` returns `Dicts` of the client's containers |
| Inventory.MarkListing | tethys_apps/cli/docker_commands.py:325-345 | one marking loop over a listing computes `Mark`: every counted name gets the loop's value |
| Inventory.GetDockerContainerStatus | tethys_apps/cli/docker_commands.py:313-347 | `get_docker_container_status` returns the status map of the client's two listings |
| Readings.StateAt | tethys_apps/cli/docker_commands.py:846-867 | the reading restated over listing positions |
| Readings.CountingContainer | tethys_apps/cli/docker_commands.py:326-333 | with unique names, the container addressed by name is the only one that can count for it |
| Readings.InstalledIsNamed | tethys_apps/cli/docker_commands.py:326-333 | a name that does not read Not Installed is carried by some container |
| Readings.CountedAt | tethys_apps/cli/docker_commands.py:326-333 | with unique names, a name that some container counts for is counted at exactly one position, the one addressed by that name |
| Readings.SameReading | tethys_apps/cli/docker_commands.py:313-347 | listings that agree on what counts for a name, and on its running flags, give it the same reading |
| Readings.FlagFrame | tethys_apps/cli/docker_commands.py:629-631 | changing only the running flag of the container counting for a name sets that name's reading and keeps every other reading |
| Readings.AppendFrame | tethys_apps/cli/docker_commands.py:416-422 | a new stopped container for an absent name makes that name read Stopped and changes no other reading |
| Readings.AppendKeeps | tethys_apps/cli/docker_commands.py:416-422 | appending a container that does not count for a name keeps that name's reading |
| Readings.DropKeeps | tethys_apps/cli/docker_commands.py:739 | deleting a container keeps every reading it did not count for |
| Readings.DropCounts | tethys_apps/cli/docker_commands.py:739 | deleting a container that does not count for a name keeps whether some container counts for it |
| Readings.DropRuns | tethys_apps/cli/docker_commands.py:739 | deleting a container that does not count for a name keeps whether a running container counts for it |
| Readings.DropUninstalls | tethys_apps/cli/docker_commands.py:739 | deleting the one container that counts for a name leaves it Not Installed |
| Readings.DropNeverInstalls | tethys_apps/cli/docker_commands.py:739 | deleting a container never installs a service |
| Lifecycle.StartBlock | tethys_apps/cli/docker_commands.py:624-666 | one `try` block of `start_docker_containers`: a missing status key is the `KeyError` branch; start when the key reads False and the input is the service's; otherwise "already running" for its input, or for the empty input in the GeoServer block; WPS also prints "not installed" for the empty input (`Lifecycle.StartBlockEffect`, `Lifecycle.StartEmptyInput`) |
| Lifecycle.StartStep | tethys_apps/cli/docker_commands.py:619-666 | one iteration: the status map is fetched again, then the PostGIS, GeoServer and WPS blocks run against it (`Lifecycle.StartStepEffect`, `Lifecycle.StartStepIgnores`) |
| Lifecycle.StartAll | tethys_apps/cli/docker_commands.py:619-666 | `start_docker_containers`: one iteration per input, in order (`Lifecycle.StartAllRuns`, `Lifecycle.StartAllKeeps`, `Lifecycle.StartAllFrame`, `Lifecycle.StartTwice`) |
| Lifecycle.StartStepIsBlock | tethys_apps/cli/docker_commands.py:621-668 | for a recognised input only the block of its own service acts |
| Lifecycle.StartBlockEffect | tethys_apps/cli/docker_commands.py:626-638 | a service's start block issues `start` with policy "always" and its port binding iff the service reads Stopped; it prints starting, already running or not installed; afterwards the service reads Running unless Not Installed; no other reading changes |
| Lifecycle.StartStopped | tethys_apps/cli/docker_commands.py:626-631 | starting a Stopped service makes it read Running, keeps names unique and changes no other reading |
| Lifecycle.StartOwnFlips | tethys_apps/cli/docker_commands.py:626-631 | the start block of a Stopped service sets the running flag, restart policy "always" and port binding of exactly its container |
| Lifecycle.StatusKeyFound | tethys_apps/cli/docker_commands.py:313-347 | a name that is a key of the status map is carried by some container, so the engine finds it by name |
| Lifecycle.StartAccepted | tethys_apps/cli/docker_commands.py:626-631 | the `start` of a start block, issued only when the status key reads False, is never refused |
| Lifecycle.StartStepEffect | tethys_apps/cli/docker_commands.py:621-668 | one iteration re-reads status and acts as its service's block; a service not Stopped issues no call |
| Lifecycle.StartStepIgnores | tethys_apps/cli/docker_commands.py:621-668 | an unrecognised input issues no call and changes no container |
| Lifecycle.StartEmptyInput | tethys_apps/cli/docker_commands.py:647-666 | the empty input starts nothing; it prints GeoServer "already running" whenever GeoServer is installed, and WPS "not installed" when it is not |
| Lifecycle.StartAllKeeps | tethys_apps/cli/docker_commands.py:621-668 | starting installs and uninstalls nothing, keeps the images and never stops a running service |
| Lifecycle.StartAllFrame | tethys_apps/cli/docker_commands.py:621-668 | a service no input requests reads as before |
| Lifecycle.StartAllRuns | tethys_apps/cli/docker_commands.py:621-668 | every requested service that is installed reads Running afterwards |
| Lifecycle.StartAllIdle | tethys_apps/cli/docker_commands.py:621-668 | when no requested service reads Stopped, starting issues no call and changes no container |
| Lifecycle.StartTwice | tethys_apps/cli/docker_commands.py:621-668 | a second start of the same selection issues no engine call and changes no container |
| Lifecycle.StopBlock | tethys_apps/cli/docker_commands.py:678-725 | one `try` block of `stop_docker_containers`: "not installed" for a missing key on the empty or own input; stop when the key reads True and the input is the service's, announced unless `silent`; otherwise "already stopped" unless `silent` (`Lifecycle.StopBlockEffect`, `Lifecycle.StopEmptyInput`) |
| Lifecycle.StopStep | tethys_apps/cli/docker_commands.py:675-725 | one iteration: the status map is fetched again, then the three blocks run against it (`Lifecycle.StopStepEffect`, `Lifecycle.StopStepIgnores`) |
| Lifecycle.StopAll | tethys_apps/cli/docker_commands.py:675-725 | `stop_docker_containers`: one iteration per input, in order (`Lifecycle.StopAllStops`, `Lifecycle.StopAllKeeps`, `Lifecycle.StopAllFrame`, `Lifecycle.StopSilentSameCalls`) |
| Lifecycle.StopStepIsBlock | tethys_apps/cli/docker_commands.py:675-725 | for a recognised input only the block of its own service acts |
| Lifecycle.StopBlockEffect | tethys_apps/cli/docker_commands.py:680-693 | a service's stop block issues `stop` iff the service reads Running; afterwards it reads Stopped unless Not Installed; `silent` hides only the stopping and already-stopped lines; no other reading changes |
| Lifecycle.StopRunning | tethys_apps/cli/docker_commands.py:680-685 | stopping a Running service makes it read Stopped, keeps names unique and changes no other reading |
| Lifecycle.StopOwnFlips | tethys_apps/cli/docker_commands.py:680-685 | the stop block of a Running service clears the running flag of exactly its container, silent or not |
| Lifecycle.StopAccepted | tethys_apps/cli/docker_commands.py:681-685 | the `stop` of a stop block, issued only when the status key reads True, is never refused, silent or not |
| Lifecycle.StopStepEffect | tethys_apps/cli/docker_commands.py:675-725 | one iteration re-reads status and acts as its service's block |
| Lifecycle.StopStepIgnores | tethys_apps/cli/docker_commands.py:675-725 | an unrecognised input issues no call and changes no container |
| Lifecycle.StopEmptyInput | tethys_apps/cli/docker_commands.py:689-691 | the empty input stops nothing and prints "not installed" for each service that is not installed |
| Lifecycle.StopAllKeeps | tethys_apps/cli/docker_commands.py:675-725 | stopping installs and uninstalls nothing, keeps the images and never starts a stopped service |
| Lifecycle.StopAllFrame | tethys_apps/cli/docker_commands.py:675-725 | a service no input requests reads as before |
| Lifecycle.StopAllStops | tethys_apps/cli/docker_commands.py:675-725 | every requested service that is installed reads Stopped afterwards |
| Lifecycle.StopBlockQuiet | tethys_apps/cli/docker_commands.py:680-693 | a silent and a non-silent block issue the same calls with the same effect |
| Lifecycle.StopSilentSameCalls | tethys_apps/cli/docker_commands.py:671-725 | `silent` never changes which engine calls happen or their effect, only what is printed |
| Lifecycle.RemoveStep | tethys_apps/cli/docker_commands.py:735-749 | one iteration of the removal loop: a recognised input prints "Removing" and removes its container, and a refusal raises; other inputs do nothing (`Lifecycle.RemoveStepEffect`, `Lifecycle.RemoveStepIgnores`) |
| Lifecycle.RemoveAll | tethys_apps/cli/docker_commands.py:735-749 | the removal loop over the inputs, ending at the first refused removal (`Lifecycle.RemoveAllAbortStays`, `Lifecycle.RemoveAllStopped`) |
| Lifecycle.RemoveCalls | tethys_apps/cli/docker_commands.py:735-749 | one `remove_container` call per name, in order |
| Lifecycle.RemoveStepEffect | tethys_apps/cli/docker_commands.py:735-749 | a recognised input issues its removal whatever the status; removal of a running or absent container is refused and aborts with no container changed; a Stopped service ends Not Installed with no other reading changed |
| Lifecycle.RemoveStepReading | tethys_apps/cli/docker_commands.py:735-749 | a Running service aborts its removal; a Stopped one is removed and every other reading is unchanged |
| Lifecycle.RemoveStepDone | tethys_apps/cli/docker_commands.py:735-749 | a removal that completes keeps names unique, leaves its service Not Installed and installs nothing |
| Lifecycle.RemoveStepIgnores | tethys_apps/cli/docker_commands.py:735-749 | an unrecognised input removes nothing and issues no call |
| Lifecycle.RemoveAllAbortStays | tethys_apps/cli/docker_commands.py:735-749 | once a removal is refused, the command ends there |
| Lifecycle.RemoveAllStopped | tethys_apps/cli/docker_commands.py:728-749 | removing distinct inputs whose services all read Stopped completes: one removal per recognised input in order, each ends Not Installed, every other service reads as before |
| Lifecycle.RemoveAllStoppedExtend | tethys_apps/cli/docker_commands.py:735-749 | the conclusion of `RemoveAllStopped` for a list extends to the list with one more input not in it |
| Lifecycle.RemoveStoppedStep | tethys_apps/cli/docker_commands.py:735-749 | removing the Stopped service of a new input completes, adds its one removal call, leaves it Not Installed and changes no other reading |
| Lifecycle.InstallSpec | tethys_apps/cli/docker_commands.py:350-599 | `install_docker_containers` with `defaults=True`: the install run on the containers `get_containers_to_create` reports |
| Lifecycle.Install | tethys_apps/cli/docker_commands.py:358-425 | the PostGIS part: create with the default environment when pending or forced, otherwise "already installed"; a refused create raises (`Lifecycle.InstallCalls`, `Lifecycle.InstallPostgisRefused`, `Lifecycle.InstallCreatesPostgis`) |
| Lifecycle.InstallRest | tethys_apps/cli/docker_commands.py:428-599 | the GeoServer branch ends the process at `exit(0)` when GeoServer is pending or forced; otherwise WPS is created when pending, and the success line follows (`Lifecycle.InstallRestCalls`, `Lifecycle.InstallNeverCompletes`, `Lifecycle.InstallCreatesN52Wps`) |
| Lifecycle.InstallRestCalls | tethys_apps/cli/docker_commands.py:428-599 | after PostGIS, the only call is a WPS create, issued only when GeoServer is neither pending nor forced and WPS is pending |
| Lifecycle.InstallCalls | tethys_apps/cli/docker_commands.py:350-599 | the install only issues creates; the PostGIS create is issued iff PostGIS is pending or `force` is set; the WPS create only when `exit(0)` is not reached; there is never a GeoServer create; images are kept and output only grows |
| Lifecycle.InstallNeverCompletes | tethys_apps/cli/docker_commands.py:428-489 | with `force` or a pending GeoServer the install never completes; it exits unless a PostGIS create was refused |
| Lifecycle.InstallPostgisRefused | tethys_apps/cli/docker_commands.py:358-422 | a PostGIS create the engine refuses aborts the install with no container changed |
| Lifecycle.InstallCompletedReports | tethys_apps/cli/docker_commands.py:428-599 | a completed install ends with the success line and was neither forced nor had GeoServer pending |
| Lifecycle.ForceIgnoresSelection | tethys_apps/cli/docker_commands.py:358 | with `force` the result does not depend on the pending list |
| Lifecycle.CreatedCount | tethys_apps/cli/docker_commands.py:416-422 | a created PostGIS or WPS container counts for its own name |
| Lifecycle.InstallCreatesPostgis | tethys_apps/cli/docker_commands.py:358-422 | an accepted PostGIS create leaves PostGIS Stopped with environment `TETHYS_DEFAULT_PASS`, `TETHYS_DB_MANAGER_PASS` and `TETHYS_SUPER_PASS` all "pass"; no reading other than PostGIS and WPS changes |
| Lifecycle.InstallCreatesN52Wps | tethys_apps/cli/docker_commands.py:498-597 | an accepted WPS create appends one stopped WPS container with the contact fields "NONE" and `USERNAME`/`PASSWORD` "wps"; otherwise no container changes; no other reading changes |
| Lifecycle.DictsLast | tethys_apps/cli/docker_commands.py:294-310 | the record of a freshly appended container is that container |
| Lifecycle.DictsKeep | tethys_apps/cli/docker_commands.py:294-310 | appending a container counting for another name keeps a record |
| Lifecycle.StartService | tethys_apps/cli/docker_commands.py:626-668 | one `try` block of `start_docker_containers`, equal to `StartBlock` |
| Lifecycle.StartDockerContainers | tethys_apps/cli/docker_commands.py:617-668 | `start_docker_containers` re-fetches status per input and changes the client as `StartAll` |
| Lifecycle.StopService | tethys_apps/cli/docker_commands.py:680-725 | one `try` block of `stop_docker_containers`, equal to `StopBlock` |
| Lifecycle.StopDockerContainers | tethys_apps/cli/docker_commands.py:671-725 | `stop_docker_containers` re-fetches status per input and changes the client as `StopAll` |
| Lifecycle.RemoveDockerContainers | tethys_apps/cli/docker_commands.py:602-614 | `remove_docker_containers` runs the discarded `container_check` diff and then changes the client as `RemoveAll`, ending at the first refused removal |
| Lifecycle.RemoveInput | tethys_apps/cli/docker_commands.py:735-749 | one iteration of the removal loop changes the client as `RemoveStep` and reports whether the removal was accepted |
| Lifecycle.InstallDockerContainers | tethys_apps/cli/docker_commands.py:350-599 | `install_docker_containers` with `defaults=True` changes the client as `InstallSpec` and returns its outcome |
| Commands.Selection | tethys_apps/cli/docker_commands.py:758 | a missing `containers` argument selects all three inputs, otherwise the given list |
| Commands.PullAll | tethys_apps/cli/docker_commands.py:769-771 | one `pull` per tag, in order (`Commands.PullAllEffect`, `Commands.PullAllTags`, `Commands.PullAllAppend`) |
| Commands.PullCalls | tethys_apps/cli/docker_commands.py:766-768 | one `pull` call per tag, in order |
| Commands.PullAllEffect | tethys_apps/cli/docker_commands.py:766-770 | pulling logs one pull per tag, in order, touches no container and prints nothing |
| Commands.PullAllTags | tethys_apps/cli/docker_commands.py:766-770 | afterwards a tag is present iff it was present before or was pulled |
| Commands.PullTags | tethys_apps/cli/docker_commands.py:770 | after one pull a tag is present iff it was present before or is the pulled tag |
| Commands.PullAllAppend | tethys_apps/cli/docker_commands.py:885-899 | pulling two lists in turn is pulling their concatenation |
| Commands.PullImages | tethys_apps/cli/docker_commands.py:766-768 | the pull loop changes the client as `PullAll` |
| Commands.InitSpec | tethys_apps/cli/docker_commands.py:752-774 | `docker_init`: announce whether images are missing, pull those the diff reports, then install without `force` (`Commands.InitPullsMissing`, `Commands.InitLeavesGeoserver`, `Commands.InitOnEmptyEngine`) |
| Commands.InitPullsMissing | tethys_apps/cli/docker_commands.py:752-774 | after `docker_init` every requested image is present and none was lost; the engine first received exactly the pulls of the images the diff reported; the first line says "already pulled" iff there were none |
| Commands.InitLeavesGeoserver | tethys_apps/cli/docker_commands.py:752-774 | `docker_init` never creates GeoServer: its reading is unchanged, and the command completes only if GeoServer was not pending |
| Commands.InitOnEmptyEngine | tethys_apps/cli/docker_commands.py:752-774 | on an empty engine, `docker_init` pulls the three images, creates only PostGIS and exits; GeoServer and WPS stay Not Installed |
| Commands.InstallOnFreshEngine | tethys_apps/cli/docker_commands.py:350-489 | on an engine with no containers and the PostGIS image present, the default install creates only PostGIS and exits; GeoServer and WPS stay Not Installed |
| Commands.DockerInit | tethys_apps/cli/docker_commands.py:752-774 | `docker_init` changes the client as `InitSpec` on the selection (all inputs when none is given) |
| Commands.DockerStart | tethys_apps/cli/docker_commands.py:777-786 | `docker_start` is `start_docker_containers` on the selection |
| Commands.DockerStop | tethys_apps/cli/docker_commands.py:789-802 | `docker_stop` is the non-silent stop on the selection |
| Commands.RestartSpec | tethys_apps/cli/docker_commands.py:805-817 | `docker_restart`: a non-silent stop of the selection, then a start of it (`Commands.RestartRunsInstalled`, `Commands.RestartFrame`) |
| Commands.RestartRunsInstalled | tethys_apps/cli/docker_commands.py:805-817 | after `docker_restart` every requested installed service reads Running |
| Commands.RestartFrame | tethys_apps/cli/docker_commands.py:805-817 | a restart installs and uninstalls nothing, keeps the images, and leaves unrequested services as they were |
| Commands.DockerRestart | tethys_apps/cli/docker_commands.py:805-817 | `docker_restart` stops then starts the same selection |
| Commands.RemoveSpec | tethys_apps/cli/docker_commands.py:820-832 | `docker_remove`: a non-silent stop of the selection, then its removal (`Commands.RemoveUninstallsSelection`) |
| Commands.RemoveUninstallsSelection | tethys_apps/cli/docker_commands.py:820-832 | for distinct inputs whose services are all installed, `docker_remove` completes: the stop makes each removal acceptable, one removal per recognised input follows the stop's calls, each ends Not Installed, others are unchanged |
| Commands.DockerRemove | tethys_apps/cli/docker_commands.py:820-832 | `docker_remove` stops then removes the same selection |
| Commands.StatusLine | tethys_apps/cli/docker_commands.py:846-867 | one `if`/`elif`/`else` of `docker_status`: the service heading followed by Running, Stopped or Not Installed, by its reading (`Commands.StatusLineMeaning`) |
| Commands.StatusLines | tethys_apps/cli/docker_commands.py:845-867 | the PostGIS/Database, GeoServer and 52 North WPS lines, in that order, from one status map |
| Commands.StatusLineMeaning | tethys_apps/cli/docker_commands.py:835-867 | each status line is the report "Running" iff a running container counts for the service, "Not Installed" iff none counts, "Stopped" otherwise |
| Messages.Text | tethys_apps/cli/docker_commands.py:359-867 | the exact text of every printed line, by kind and service title |
| Messages.StatusReportsDiffer | tethys_apps/cli/docker_commands.py:846-867 | reports under the same heading with different words print different text, so the three readings are told apart on screen |
| Commands.DockerStatus | tethys_apps/cli/docker_commands.py:835-867 | `docker_status` reads the status map once and prints the three lines |
| Commands.UpdatePullList | tethys_apps/cli/docker_commands.py:885-895 | the force-pull list of an input: all three images for the empty input, the input's own image for a known input, nothing otherwise |
| Commands.UpdatePulls | tethys_apps/cli/docker_commands.py:885-899 | the force-pull lists of the inputs, concatenated in input order (`Commands.UpdatePullsMembers`) |
| Commands.UpdatePullsMembers | tethys_apps/cli/docker_commands.py:884-899 | an image is force-pulled iff some input's pull list names it |
| Commands.Reinstall | tethys_apps/cli/docker_commands.py:884-902 | the second half of `docker_update`: force-pull the lists, then install with `force=True` (`Commands.ReinstallRepulls`) |
| Commands.UpdateSpec | tethys_apps/cli/docker_commands.py:870-902 | `docker_update`: a non-silent stop, then removal of the selection, then the reinstall unless a removal was refused (`Commands.UpdateNeverCompletes`, `Commands.UpdateRepulls`) |
| Commands.UpdateNeverCompletes | tethys_apps/cli/docker_commands.py:870-902 | `docker_update` never completes: the `force=True` install always reaches `exit(0)` or aborts |
| Commands.ReinstallOverPostgis | tethys_apps/cli/docker_commands.py:884-902 | a reinstall on an engine that still carries the PostGIS name aborts at the forced PostGIS create, before the GeoServer branch, and changes no container |
| Commands.UpdateKeepingPostgisAborts | tethys_apps/cli/docker_commands.py:870-902 | when the selection leaves PostGIS out and PostGIS is installed, the stop and removal leave PostGIS in place, so the forced PostGIS create is refused and `docker_update` aborts before the GeoServer branch; every selected service stays Not Installed |
| Commands.ReinstallRepulls | tethys_apps/cli/docker_commands.py:884-902 | the reinstall pulls every image on its list, present or not, and each is present afterwards |
| Commands.PulledLogged | tethys_apps/cli/docker_commands.py:897-898 | every tag of a pull list is logged as pulled, whatever comes before or after it |
| Commands.UpdateRepulls | tethys_apps/cli/docker_commands.py:870-902 | once the removal goes through, `docker_update` pulls every image its inputs name and each is present afterwards |
| Commands.DockerUpdate | tethys_apps/cli/docker_commands.py:870-902 | `docker_update` changes the client as `UpdateSpec` |
| Commands.ForcePull | tethys_apps/cli/docker_commands.py:884-899 | the force-pull loop changes the client as pulling the lists of all inputs in turn |
| Connector.OldestIndex | tethys_apps/cli/docker_commands.py:90-93 | Python's `min` with key `-compare_version` settles on a position of the list |
| Connector.ApiVersion | tethys_apps/cli/docker_commands.py:85-93 | `get_api_version` returns one of the given versions |
| Connector.ApiVersionOldest | tethys_apps/cli/docker_commands.py:85-93 | under a version order no given version is older than the chosen one |
| Connector.ApiVersionFirst | tethys_apps/cli/docker_commands.py:85-93 | every version given before the chosen one is strictly newer: `min` keeps the first of equals |
| Connector.ApiVersionOfPair | tethys_apps/cli/docker_commands.py:150 | with the client maximum and the server version, the client speaks the older one, and its maximum on a tie |
| Connector.Split | tethys_apps/cli/docker_commands.py:155 | `str.split(':')` gives at least one piece, and no piece contains the separator |
| Connector.SplitJoin | tethys_apps/cli/docker_commands.py:155 | joining the pieces with the separator gives the string back |
| Connector.SplitAfter | tethys_apps/cli/docker_commands.py:155 | a separator-free prefix followed by the separator is the first piece |
| Connector.SplitNone | tethys_apps/cli/docker_commands.py:155 | a string without the separator is one piece |
| Connector.StripLeft | tethys_apps/cli/docker_commands.py:155 | the result is a suffix, only '/' was removed, and it does not start with '/' |
| Connector.StripRight | tethys_apps/cli/docker_commands.py:155 | the result is a prefix, only '/' was removed, and it does not end with '/' |
| Connector.Strip | tethys_apps/cli/docker_commands.py:155 | `strip('//')`: leading then trailing '/' removed (`Connector.StripSlashes`) |
| Connector.HostOf | tethys_apps/cli/docker_commands.py:155 | `docker_host.split(':')[1].strip('//')`, with `None` where Python raises `IndexError` (`Connector.HostOfAddress`, `Connector.HostOfNoColon`) |
| Connector.HostOfNoColon | tethys_apps/cli/docker_commands.py:155 | an address without ':' has no second piece (`IndexError`) |
| Connector.HostOfAddress | tethys_apps/cli/docker_commands.py:155 | the host of `tcp://host:port` is `host`, for a host without ':' that neither starts nor ends with '/' |
| Connector.AddressPieces | tethys_apps/cli/docker_commands.py:155 | `tcp://host:port` splits into `tcp`, `//host`, then the pieces of the port |
| Connector.StripSlashes | tethys_apps/cli/docker_commands.py:155 | `strip('//')` of `//host` is `host` |

Proof helpers without a row: `Util.NoDuplicatesLast`, `Util.SplitLast`, `Util.AppendLast`,
`Util.AppendAssoc`, `Util.NoDuplicatesCons`, `Inventory.TagLists`, `Inventory.NameLists`,
`Inventory.PruneOne`, `Readings.DropShift`, `Lifecycle.CollectLast`, `Lifecycle.RemoveCallsLast`,
`Commands.EmptyLogPull` and `Connector.StripLeftSkip`. They split a list at one end or unfold
one step.

## Left out

- `get_docker_client` and `stop_boot2docker` (lines 96-187): they run boot2docker through
  subprocesses, change `os.environ` and open a network client. Only the host split at line 155
  and the version choice at line 150 are modelled.
- `log_pull_stream` (lines 249-291): JSON decoding of the pull stream and terminal rendering.
  The pulls themselves are modelled; their progress output is not.
- The interactive prompts of `install_docker_containers` (lines 367-414, 445-480, 515-577):
  they read the terminal until the input matches. Only the `defaults=True` path is modelled.
  - Every command runs as if `defaults` were true.
  - The GeoServer cluster settings are read only on the interactive path, and the branch
    exits before using them either way.
- `validate_numeric_cli_input` (lines 65-82): float parsing, on the interactive path only.
- `docker_ip` (lines 905-968): formatted host and port output.
- The `boot2docker` flag of `docker_stop` (lines 799-802): it only calls `stop_boot2docker`.
- docker-py itself. The engine is an abstract inventory whose refusal rules are fixed here:
  - a name conflict or missing image for create;
  - an absent name for start and stop;
  - an absent or running container for remove.
  Image digests are not modelled, so a force pull of a present tag adds no image.
- `exit(0)` is the outcome `Exited`, not process termination.
- Engine failures other than the refusals above (network errors, timeouts) are not modelled.
- Connector.ApiVersion: `compare_version` is a parameter. The lemmas about it assume a
  total order with the library's sign convention; they do not model docker-py's parsing of
  version strings. The function requires at least one version, as its callers always pass two.
- Connector.HostOf: models only the split and strip of line 155, and returns `None` where
  Python raises `IndexError`.
