# MediaServer2 plugin for Rhythmbox: a Dafny model

The plugin lets Rhythmbox browse media servers that publish the
`org.gnome.UPnP.MediaServer2` interfaces on the D-Bus session bus, and import
their items into the library. This project models `mediaserver2service.py`
and `mediaserver2source.py`.

The engine is `MediaServer2Service`. It finds the servers on the bus and makes
one root container per server. A single background worker takes expansion
requests from a FIFO queue. For each container it builds the children from one
`ListChildren` page of at most 50 records. For every leaf it fetches the
metadata, then emits the batch as `media-retrieved`.

The consumer is `MediaServer2Source`. It inserts every retrieved object at
position 0 under its parent row and expands that parent. Activating a row
either queues a container for expansion or imports the object into the
library: the first URL becomes the location, and title, artist, album and
duration are set.

Layout:

- `values.dfy` (`Values`): `Option`, `Reply` (a bus call's reply or an exception), the dynamic values on the bus, and Python truthiness and `dict.get`.
- `media_object.dfy` (`MediaObjects`): the protocol constants, `MediaObject`, and the session bus as an oracle (`Bus`).
- `naming.dfy` (`Naming`): rebuilding a service's bus name and path from the last dot-separated segment.
- `retrieval.dfy` (`Retrieval`): discovery and container expansion. Each loop of the source is a method, proved equal to a specification function (recursive for the list-building loops, a map comprehension for the property copy) whose properties are lemmas.
- `worker.dfy` (`Worker`): `MediaServer2Service` as a class. Its fields are the queue, the `stopped` flag, the worker thread's place in its loop, the discovery threads not yet run, and the log of emitted batches.
- `tree_store.dfy` (`TreeStores`): the parts of the tree store the consumer relies on.
- `source.dfy` (`Source`): icons, batch insertion, row activation, library import, and the `MediaServer2Source` class.

Behaviour of the source worth knowing:

- **Shutdown.** `stopped` is only read at the top of the worker loop. A worker already blocked in the queue's `get()` when the flag is set still serves the next request and emits its batch, then exits. So setting the flag does not guarantee that nothing more is emitted. Discovery threads never read the flag at all. `Worker.StopWhileWaitingScenario` shows the first case.
- **Failing `list_names()`.** The call is outside any `try`. If it fails, the discovery thread ends and emits nothing, not an empty batch (`Retrieval.Discovery`).
- **Failing proxy during expansion.** `get_object` for the container itself is outside the `try`. If the container's server has left the bus, the exception ends the worker thread with `stopped` still unset, and every request queued after it stays unserved. `Worker.MediaServer2Service.WorkerStepAsWritten` models that worker and `Worker.VanishedServiceScenario` shows it; `WorkerStep` serves through the corrected expansion (see Findings).

## Model

| member | source | states |
|---|---|---|
| Naming.LastSegmentIsLongestDotFreeSuffix | mediaserver2-plugin/mediaserver2service.py:88 | `split('.')[-1]`: the result is a dot-free suffix of the name, and it is preceded by a dot whenever it is shorter than the name |
| Naming.RebuiltNameCanonical | mediaserver2-plugin/mediaserver2service.py:88-92 | the rebuilt bus name and path start with their prefixes and continue with the same dot-free segment, taken from the end of the advertised name |
| Naming.CanonicalNameRebuilt | mediaserver2-plugin/mediaserver2service.py:88-92 | a name made of the prefix and one dot-free segment is rebuilt unchanged, and its path is the path prefix plus that segment |
| Naming.ServiceNameIdempotent | mediaserver2-plugin/mediaserver2service.py:88-92 | rebuilding a rebuilt name changes nothing, name or path |
| Naming.LastSegmentAfterPrefix | mediaserver2-plugin/mediaserver2service.py:88 | the last segment of a prefixed name is the last segment of the part after the prefix |
| Naming.DottedSuffixShortened | mediaserver2-plugin/mediaserver2service.py:88-92 | for every name with a dot after the prefix, the rebuilt name and path keep only its last segment, so the name talked to differs from the advertised one |
| Naming.ServiceNameUnchangedIff | mediaserver2-plugin/mediaserver2service.py:88-92 | the rebuilt name equals the advertised one exactly when it has the prefix and no dot after it |
| Retrieval.MediaServerNamesMembers | mediaserver2-plugin/mediaserver2service.py:111-116 | a name is kept exactly when it was advertised and starts with `org.gnome.UPnP.MediaServer2.`; never more names than advertised |
| Retrieval.MediaServerNamesAppend | mediaserver2-plugin/mediaserver2service.py:113-115 | filtering preserves bus order: the filter of a concatenation is the concatenation of the filters |
| Retrieval.MediaServerNamesKeepsAll | mediaserver2-plugin/mediaserver2service.py:113-115 | when every advertised name has the prefix, all are kept, in order |
| Retrieval.GetAvailableServices | mediaserver2-plugin/mediaserver2service.py:111-116 | the loop returns exactly the filtered names |
| Retrieval.Root | mediaserver2-plugin/mediaserver2service.py:98-102 | a root is a top-level container with no properties, named by the server's DisplayName and reached through the rebuilt name and path |
| Retrieval.RootsOf | mediaserver2-plugin/mediaserver2service.py:87-106 | at most one root per service |
| Retrieval.RootsOfAppend | mediaserver2-plugin/mediaserver2service.py:93-106 | services are independent: a failing service suppresses no other, and roots come in service order |
| Retrieval.RootsOfMembers | mediaserver2-plugin/mediaserver2service.py:93-106 | an object is in the batch exactly when it is the root of a service whose proxy and DisplayName read both succeed |
| Retrieval.RootsOfAllFail | mediaserver2-plugin/mediaserver2service.py:103-108 | when every service fails, the batch is empty but is still emitted |
| Retrieval.GetRootObject | mediaserver2-plugin/mediaserver2service.py:88-106 | one iteration yields a root exactly when the proxy and the name read succeed, and that root is the one built from the name |
| Retrieval.GetServicesMediaObjects | mediaserver2-plugin/mediaserver2service.py:85-109 | the discovery run emits the roots of the filtered services, or nothing when `list_names()` fails |
| Retrieval.GetInfoForObject | mediaserver2-plugin/mediaserver2service.py:153-157 | the loop writes each tracked key with the GetAll value or None, or fails when the proxy or GetAll raises |
| Retrieval.InfoForNewObject | mediaserver2-plugin/mediaserver2service.py:153-157 | on a new object, success means exactly the four tracked keys with the fetched values, and every other field is unchanged; success exactly when proxy and GetAll succeed |
| Retrieval.ChildrenOfShape | mediaserver2-plugin/mediaserver2service.py:135-148 | never more children than records; every child has the parent's bus name and the request's tree iter; containers carry no properties; items carry exactly the four tracked keys |
| Retrieval.ChildrenOfAppend | mediaserver2-plugin/mediaserver2service.py:135-148 | records are processed independently and in listing order |
| Retrieval.KeptChildFields | mediaserver2-plugin/mediaserver2service.py:136-140 | a kept child has the record's name, path and type, the parent's bus name and the request's tree iter |
| Retrieval.ChildrenOfNoFailure | mediaserver2-plugin/mediaserver2service.py:135-148 | when no metadata fetch fails, position i of the batch is the child built from record i |
| Retrieval.ContainerChildAlwaysKept | mediaserver2-plugin/mediaserver2service.py:141-148 | a container record is kept without any further bus call |
| Retrieval.FailedItemDropped | mediaserver2-plugin/mediaserver2service.py:141-146 | an item whose proxy or GetAll fails is left out of the batch |
| Retrieval.GetContainerChildren | mediaserver2-plugin/mediaserver2service.py:122-151 | the expansion emits the children built from one ListChildren page (offset 0, 50 records, Path/Type/DisplayName), or nothing when the listing fails |
| Retrieval.GetMediaAsync | mediaserver2-plugin/mediaserver2service.py:118-120 | only a container is expanded; anything else emits nothing |
| Retrieval.ContainerChildrenOutcome | mediaserver2-plugin/mediaserver2service.py:122-151 | an expansion emits exactly when the proxy and the listing succeed; every emitted child belongs to the request's tree iter and the container's server |
| Retrieval.AsWrittenRaisesOnVanishedService | mediaserver2-plugin/mediaserver2service.py:124 | as written, a container whose server left the bus raises out of the worker; elsewhere the written and corrected expansions agree |
| Worker.ServeEmitsOnlyForContainers | mediaserver2-plugin/mediaserver2service.py:69-75 | a dequeued falsy object emits nothing; only a container emits, and all of its batch belongs to the request's tree iter |
| Worker.MediaServer2Service.constructor | mediaserver2-plugin/mediaserver2service.py:58-67 | a new service has an empty queue, is not stopped, and its worker is at the top of its loop |
| Worker.MediaServer2Service.GetMedia | mediaserver2-plugin/mediaserver2service.py:77-83 | an object is queued at the back; None starts one discovery and leaves the queue alone; nothing is emitted |
| Worker.MediaServer2Service.WorkerStep | mediaserver2-plugin/mediaserver2service.py:69-75 | the flag is read only at the top of the loop; a waiting worker takes the front request and logs exactly what serving it emits; the worker exits only after seeing the flag set |
| Worker.ServeAsWrittenAgrees | mediaserver2-plugin/mediaserver2service.py:69-75 | as written, serving raises exactly for a container whose proxy cannot be made; otherwise it logs what the corrected worker logs |
| Worker.MediaServer2Service.WorkerStepAsWritten | mediaserver2-plugin/mediaserver2service.py:69-75 | the worker as written: an expansion that raises ends the thread, leaving the rest of the queue and `stopped` as they were |
| Worker.VanishedServiceScenario | mediaserver2-plugin/mediaserver2service.py:69-80 | as written, a request queued behind a container whose server has left the bus is never served although `stopped` is unset; the corrected worker serves it |
| Worker.MediaServer2Service.DiscoveryStep | mediaserver2-plugin/mediaserver2service.py:81-83 | one discovery thread logs what discovery emits, whatever the flag says |
| Worker.FifoScenario | mediaserver2-plugin/mediaserver2service.py:69-80 | two requests are served in the order they were queued |
| Worker.StopWhileWaitingScenario | mediaserver2-plugin/mediaserver2service.py:69-75 | a worker waiting in `get()` when the flag is set still serves the next request, then exits |
| Worker.StopAtCheckScenario | mediaserver2-plugin/mediaserver2service.py:70-73 | a flag set before the check stops the worker; requests queued afterwards stay unserved |
| TreeStores.InsertChildObjects | mediaserver2-plugin/mediaserver2source.py:110-112 | inserting at position 0 puts the new object first under its parent and changes no other parent's children |
| Source.IconName | mediaserver2-plugin/mediaserver2source.py:33-35 | a container gets `folder`, audio `media-audio`, video `video`, and any other type no icon |
| Source.InsertBatch | mediaserver2-plugin/mediaserver2source.py:106-114 | inserting a batch hands out one new row per object and keeps the store consistent |
| Source.ParentsOfMembers | mediaserver2-plugin/mediaserver2source.py:113-114 | the expanded rows are exactly the parents that objects in the batch have |
| Source.InsertBatchReverses | mediaserver2-plugin/mediaserver2source.py:107-112 | a batch sharing one parent appears under it in reverse order, above the earlier children |
| Source.InsertBatchKeepsOthers | mediaserver2-plugin/mediaserver2source.py:107-112 | inserting a batch that shares one parent leaves every other parent's children unchanged |
| Source.BatchesShownReversed | mediaserver2-plugin/mediaserver2source.py:106-114 | an expansion's children show under the expanded row, and the discovered roots at top level, each in reverse of the order emitted |
| Source.ExpansionDecidesNextActivation | mediaserver2-plugin/mediaserver2source.py:80-84 | once an expansion has delivered a child, activating the container imports instead of querying; an empty expansion leaves the row to be expanded again |
| Source.Location | mediaserver2-plugin/mediaserver2source.py:87-90 | a location exists only when the URLs property is truthy |
| Source.Imported | mediaserver2-plugin/mediaserver2source.py:86-104 | existing entries never change; an entry is added only under the first URL and only when none exists there, with that location and the object's name as title |
| Source.ImportIdempotent | mediaserver2-plugin/mediaserver2source.py:91-92 | importing the same object twice changes the library once |
| Source.LocationIsFirstUrl | mediaserver2-plugin/mediaserver2source.py:90 | the location is the first element of the URLs array |
| Source.ContainersNotImported | mediaserver2-plugin/mediaserver2source.py:86-89 | an object without properties, so every root and every container child, imports nothing |
| Source.ZeroDurationKept | mediaserver2-plugin/mediaserver2source.py:95-103 | a duration of 0 is recorded, while an empty artist and a missing album are not |
| Source.MediaServer2Source.constructor | mediaserver2-plugin/mediaserver2source.py:37-43 | a new source is not activated, has no view yet and an empty tree, and owns a new service with an empty queue and its worker at the top of its loop |
| Source.MediaServer2Source.DoImplActivate | mediaserver2-plugin/mediaserver2source.py:45-74 | the first activation builds an empty tree and starts one discovery; any later one changes nothing |
| Source.MediaServer2Source.MediaRetrieved | mediaserver2-plugin/mediaserver2source.py:106-114 | the loop's tree is the batch inserted in order, and the expanded rows gain exactly the batch's parents |
| Source.MediaServer2Source.WorkerStepDelivered | mediaserver2-plugin/mediaserver2service.py:69-75 | one worker move with its emission delivered at once: the service moves exactly as in `WorkerStep`, and the logged batch, if any, is inserted into the tree and its parents expanded before the next move |
| Source.MediaServer2Source.DiscoveryStepDelivered | mediaserver2-plugin/mediaserver2service.py:107-109 | one discovery run with its batch delivered at once: one pending discovery fewer, the roots logged, inserted into the tree and nothing else in the service changed |
| Source.InsertBatchesAppend | mediaserver2-plugin/mediaserver2source.py:106-114 | delivering two groups of batches one after the other is delivering them all, in order |
| Source.DeliveredFifoScenario | mediaserver2-plugin/mediaserver2service.py:69-80 | with synchronous delivery, two queued requests are logged in queue order and the tree is the empty store with those batches inserted in that order |
| Source.MediaServer2Source.AddToDb | mediaserver2-plugin/mediaserver2source.py:86-104 | the library becomes the imported one, with one commit exactly when an entry is created |
| Source.MediaServer2Source.TreeRowActivated | mediaserver2-plugin/mediaserver2source.py:76-84 | an expandable container row is queued with its own iter and nothing is imported; any other row is imported and nothing is queued |
| Source.MediaServer2Source.DoImplDeleteThyself | mediaserver2-plugin/mediaserver2source.py:136-137 | removing the source sets the service's stop flag and changes nothing else |

## Left out

- D-Bus transport. The session bus is the `Bus` oracle, a fixed function from each call to its reply or failure. A bus whose answers change over time is not modelled.
- Threads and blocking. The worker and the discovery threads are sequential steps. An interleaving is any sequence of `WorkerStep`, `DiscoveryStep` and client calls. The blocking `get()` is the `AwaitingRequest` phase with an empty queue, and the thread-safe queue is a sequence.
- Signals. `media-retrieved` emissions are appended to the service's `log`. In the source, `emit` runs `_media_retrieved_cb` synchronously in the emitting thread, under the GDK lock. `MediaServer2Source.WorkerStepDelivered` and `DiscoveryStepDelivered` pair a step with that delivery, so each batch they log is in the tree at once, in log order. `MediaRetrieved` can still be called on its own and `WorkerStep` run without delivery, so the class itself keeps no invariant tying `log` to `tree`. The GDK lock is left out.
- Listing records. A `ChildRecord` always has Path, Type and DisplayName. In the source, a record missing one of them raises `KeyError` at lines 136-140 of `mediaserver2service.py`, outside any `try`, which ends the worker thread; that case is not modelled.
- GTK widgets. The view, columns, renderers, scrolled window and `show_all` are left out, as are the `rb.BrowserSource` base calls.
- Icons. Pixbuf loading through the icon theme (`_get_icons`, `_get_icon_from_name`) is left out. `Source.IconName` returns the icon name, so a theme lacking the icon, which gives a row without a pixbuf, is not modelled.
- The library. The rhythmdb database is a map from location to entry plus a commit counter. Entry types, other properties and persistence are left out. A non-string location, which the database refuses by raising, counts as no change.
- Retrieval.GetContainerChildren: catches the failure of `get_object` for the container and emits nothing, where the source as written raises at line 124 of `mediaserver2service.py`; `Retrieval.ContainerChildrenAsWritten` models the raise.
- Retrieval.GetMediaAsync: expands through the corrected `GetContainerChildren`, so a container whose server has left the bus gives no batch instead of raising.
- Worker.MediaServer2Service.WorkerStep: serves through the corrected expansion, so a container whose server has left the bus emits nothing and the worker goes on; the source as written ends the worker thread there, which `WorkerStepAsWritten` models.
- `Source.Location`: an object whose URLs value is truthy but not indexable, or indexable but not starting with a string, has no location. The source raises there, and that exception is not modelled.
- `Source.MediaServer2Source.TreeRowActivated`: the row is given by its iter, not by a tree path.
- Storage of media objects. `MediaObject` is a value, so `_get_info_for_object` returns the updated object instead of mutating it in place. This cannot be told apart here, because properties are filled before the object is emitted and never after.
- Pagination. Only the first `ListChildren` page of 50 records is read, as in the source. Later children are never fetched.
- Logging. Printed exceptions are left out.
- `__init__.py`, the plugin's activation glue, is not part of this model.

## Findings

| source | as written | input that shows it | evidently intended | confidence | as-written member | corrected member |
|---|---|---|---|---|---|---|
| mediaserver2-plugin/mediaserver2service.py:124 | the container's proxy is created before the `try`, so a `get_object` failure propagates out of `_get_container_children` and ends the worker thread; every later expansion request is then silently never served | a container whose server has left the bus (its bus name no longer has an owner) when its row is activated | every remote failure during an expansion is caught, and the expansion emits nothing, as the listing failure just below it does | medium, not executed | Retrieval.ContainerChildrenAsWritten and Worker.MediaServer2Service.WorkerStepAsWritten (shown by Retrieval.AsWrittenRaisesOnVanishedService and Worker.VanishedServiceScenario) | Retrieval.ContainerChildren (used by Retrieval.GetContainerChildren, Retrieval.GetMediaAsync, Worker.Serve and WorkerStep; Retrieval.ContainerChildrenOutcome) |
