# Chord: a verified model of its protocols

Chord (`packages/chord`) is a distributed object runtime: hosts serve objects, hold references to objects elsewhere over
links, push the state of referenced objects to their consumers, and replace the code of running objects. This project
models the parts of it that make explicit guarantees, together with the model catalogue of `packages/ai` and the
workspace build order, and proves the guarantees over every input or every run. `dafny verify dfyconfig.toml` checks
all of it.

Where the source changes objects in place there is a class with the same fields, and its methods are proved against
functions on values; what holds over runs is proved about those functions, as state machines whose steps may come in
any order. Each section names the files, the theorems to read first, and what is assumed.

## State streams over a link

`DeltaCodec` (the wire codec of one stream), `Wire`, `Remote` and `RemoteBinding` (the consumer's binding), `FlowControl`,
`Provider` and `Connection` (the provider's end: window, cumulative acknowledgements, slots, lazy units and resets),
`Lanes`, `Convergence`, `ConvergenceSteps`, `ProviderBooks`, `DirectLink` (one hop), `RelayEnd`, `RelayRef`, `RelayLink`,
`TwoHop` (through a relay that keeps no values), `ShapeDelivery`.

Ops are JSON edits whose application is a fold; the argument of an op is text that is never looked at. A link is a queue
each way. The claim of `DirectLink.OneHopConvergence` and `TwoHop.TwoHopConvergence` is that the consumer's replica,
followed by everything in flight and everything that waits, always denotes the provider's current value, and that the
decoder at the end will be in step with the encoder at the start. It is stated for a member that is fed while no stop of
the hold's state is on its way, and holds whatever the window, the cap, the frame sizes, the acknowledgements and the
other traffic are. A relay may drop what waits: then the member awaits a reset, ops are skipped, and a request for the
reset is on its way up until the reset comes down.

Two things the code does not keep, each with its exact condition:

- A waiting shape must wait for the snapshots its unit lists, and does while state stays on (`Remote.WaitsForSnapshots`).
  Stopping state, when the last view that wants it leaves, clears what is missing without applying the shape
  (`remote.ts:176`), and after state is on again the shape may be applied early (`Remote.ToggleAppliesEarly`). Whatever
  frames come in between, this cannot happen if and only if the consumer never stops and restarts state on one link
  (`Remote.EarlyIffRestarted`). Hydration itself stays honest in every run (`Remote.HydratedIsHonest`).
- Every shape should reach the consumer. Stopping state forgets everything that waits for the hold, also a unit
  (`connection.ts:565-571`), so a shape that only a waiting unit carried is not sent until the shape changes again or state
  is asked for (`ShapeDelivery.UnsubLosesShape`). Over every run from a link just opened no shape is lost if and
  only if the provider never stops the state in that situation (`ShapeDelivery.ShapesDelivered`), and then a quiet
  consumer has the current one (`ShapeDelivery.QuietHasShape`).

## Cluster reload

`Cluster` and `ClusterHosts`: the coordinator, its children and their links as one state machine, with votes, deadlines,
lost links, hellos during a reload, reconciliation of children that are behind, and retirement of code versions. Read
`Cluster.ClusterAgreement` first. Both ends of a link lose it at once, a rollback is one step, and children that waited
for the end of a reload are decided in that step.

## Gate and leases

`Leases` and `RootBooks`: roots that start here or arrive over links, the leases they take on objects, the gate that a
reload puts in front of an object, its commit or abort. Any interleaving is a run. `Leases.GateSafety` and
`Leases.NewCodeOnly` are the safety of the gate; `Leases.RootsEndWhole` says that a root ends everywhere at once.

The books can go wrong in one way: a method that makes a call and returns without awaiting it lets its root end while that
call still runs; its lease is dropped early, and if it then calls on, a new lease is taken that nothing ever releases
(`object.ts:1538-1544`, `host.ts:655-665`; `Leases.UnawaitedCallLeaks`), which holds this and every later gate of that
object (`Leases.LeakBlocksReload`). `Leases.RootLeases` gives the exact condition: the books are right in every state of a run if
and only if no root ends while a call it made runs.

## Bounded output and its commits

`OutputWindow` and `OutputBuffer`: bounding a text to whole lines at its head or tail, as UTF-8 bytes (character
boundaries follow section 3 of RFC 3629), and the running buffer, whose snapshot always is the bound of the entire stream.
What it stores is bounded by the limits and one stored chunk; that chunk is one that was accepted, but after a snapshot,
which joins what is stored, it can be up to a window longer, and then more is stored than `output.ts:149` says
(`OutputBuffering.HoldsMore`).
`Progress`: the paced committer, with real-valued time and timers that fire when due or later.

## Contracts

`Schema`, `Containment` and `Contract`: what JSON Schemas admit (sections 6.1.1 to 6.1.3 and 6.5.3 of JSON Schema Validation 2020-12,
sections 10.2.1.2 and 10.3 of JSON Schema Core 2020-12), the structural subtyping `fits`, and coverage of one contract by
another. Soundness (`Schemas.FitsSound`) is for the schemas TypeBox emits: scalar `const` and `enum`, unions without
sibling keywords, tuples of exact length.

What is sent is sometimes stripped to the names the sender's schema knows and sometimes not, and both are stated. The
code strips arguments of remote types (`object.ts:1591-1597`, `remote.ts:346-347`) and, on its way to another host, input
(`host.ts:507-513`); on one host input goes to the provider's schema as it is (`host.ts:552-557`), although Chord's
documentation says that a `get` normalizes it with the caller's contract. Results and state are only checked with the provider's schema
(`object.ts:1612`, `connection.ts:1306-1318`). `fits` promises more than it checks in two places:

- It does not compare the patterns of the side that sends with the properties of the other (`schema.ts:162-201`;
  `Schemas.RecordFitsUnchecked`).
- It takes an open object for one that lists more optional properties, because unknown names are stripped
  (`schema.ts:129-132`, `schema.ts:170-174`). Where they are not, the value may carry such a name with another type, although
  the documentation calls extra fields of results and state fine (`Schemas.ExtraFitsUnchecked`, `Contracts.OpenResultUnserved`,
  `Contracts.OpenInputUnserved`).

`FitsSound` asks for these two comparisons and nothing else (`Schemas.ClearWhenShut`). `Containment` gives the exact
condition, read off the two schemas, for scalars, literals, arrays, records and objects in any nesting, and unions on the
side that sends: `Containment.FitsIff` for what `fits` accepts, `Containment.WithinIff` without it, and
`Contracts.CoverageExact` for whole contracts.

## Cells, publications and subscribers

`Cells` and `CellGraph`: cells and derivations of an object, recomputed in creation order and adopted together; stale is
only who follows an outside readable that changed. `Publish`: the one notification queue, whose tasks may publish and hold
themselves; `Publications.DeliveredInWaves` is what its order means. `Observers`: the listeners of the sources over that
queue, with writes, subscriptions and deliveries in any order. `Subscribers`: replicated state and the bounded queue
of each subscriber, with listeners that publish, subscribe and unsubscribe at any point.

A listener should get its snapshot and then the later revisions in order. A queued event remembers its listeners by
identity and asks again at delivery (`cell.ts:44-56`), so a listener that leaves and subscribes again while an event
captured with it waits gets the new snapshot first and the older revision after it, possibly as its last
(`Observers.LeftBehind`). `Observers.ObserversInOrder`: in every state of a run all subscribed listeners are in order if
and only if nobody subscribed while an event queued for it waited.

## References, build order, catalogue

`Digraph` (paths and cycles), `References` (references stay acyclic because reachability is decided exactly; disposal goes
holders first), `BuildOrder` (the three-colour topological sort), `Catalogue` (generation-checked publication of a
provider's models under overlapping refreshes), `Refresh` (what each refresh of a provider does over it).

A refresh restores what it reads from the store, and the read is not chained with the writes of older refreshes
(`models.ts:611-629`, `models.ts:1220-1246`). If one of them is writing when it reads, and the refresh fetches nothing
itself, memory ends with the models from before that write and the store with the ones after it
(`Refreshes.MemoryLeftBehind`). `Refreshes.ReadAgreesIff`: exactly then can a refresh that ends current and unaborted
leave the two apart.

## Model

| member | source | states |
|---|---|---|
| DeltaCodec.RoundTrip | packages/chord/src/delta/index.ts:564-736 | Decoding an encoded batch gives the ops back, whatever came before, and leaves the decoder knowing every id the encoder may still use. |
| DeltaCodec.Coalesce | packages/chord/src/delta/index.ts:545-553 | A batch appended to another decodes to the ops of both, or fails exactly where decoding them one after the other fails: links may concatenate waiting batches. |
| DeltaCodec.EncodeSelfStarting | packages/chord/src/delta/index.ts:564-657 | Every encoded batch names the path of its first op, so it never leans on the batch before it. |
| DeltaCodec.RecoveryPoint | packages/chord/src/delta/index.ts:564-736 | From a replacement op on, a stream decodes the same from any decoder state: a reader may start there. |
| DeltaCodec.StreamEncoder.EncodeBatch | packages/chord/src/delta/index.ts:564-657 | The encoder's loop emits what the specification emits for the batch and ends in its state. |
| DeltaCodec.StreamDecoder.DecodeBatch | packages/chord/src/delta/index.ts:664-736 | The decoder's loop returns the decoded ops or rejects, and keeps exactly the ids defined until then. |
| Remote.HydratedIsHonest | packages/chord/src/remote.ts:146-180 | Over every run of frames, view changes, link losses and new holds: a hydrated binding holds a value for every state member its applied shape lists, members lie inside the variant, and what it told the provider is what its views want. |
| Remote.WaitsForSnapshots | packages/chord/src/remote.ts:245-288 | Over every mix of frames and view changes that keep state on: no shape is applied, and a missing snapshot stays missing, until it comes or a shape that does not want it. |
| Remote.EarlyIffRestarted | packages/chord/src/remote.ts:168-180 | Exactly when a shape can be applied early. For every sequence of view changes, lost links and new holds: among all frames that may come in between, none makes a shape apply while state is on and a listed snapshot is owed, if and only if the consumer never stops and restarts state on one link. |
| Remote.ToggleAppliesEarly | packages/chord/src/remote.ts:168-180 | Stopping clears what is missing: after the view that wants state left and another that wants it came, a repeated value applies the shape although another listed snapshot never came; the binding is then live and not hydrated. |
| RemoteObject.RemoteBinding.SyncState | packages/chord/src/remote.ts:168-180 | In place: tells the provider to start or stop exactly when the views' wish changed, and reaches the specified state. |
| RemoteObject.RemoteBinding.AddView | packages/chord/src/remote.ts:146-154 | A view joins, one that is there stays as it is, and the provider is told exactly when the wish changed. |
| RemoteObject.RemoteBinding.RemoveView | packages/chord/src/remote.ts:156-165 | A view leaves and the provider is told exactly when the wish changed. |
| RemoteObject.RemoteBinding.Shaped | packages/chord/src/remote.ts:245-255 | A unit begins: what it lists and the contract knows is missing until it comes, on top of what was missing. |
| RemoteObject.RemoteBinding.Full | packages/chord/src/remote.ts:278-288 | A snapshot or reset goes to the pending shape, to the current members or nowhere; the last missing one applies the shape. |
| RemoteObject.RemoteBinding.Ops | packages/chord/src/remote.ts:270-277 | Ops go to the replica that waits with its shape, else to the current one; a rejected batch leaves the value. |
| RemoteObject.RemoteBinding.Apply | packages/chord/src/remote.ts:365-383 | Members outside the new shape go, arrived ones take over, and hydration holds exactly if all wanted ones are here. |
| RemoteObject.RemoteBinding.Detach | packages/chord/src/remote.ts:305-314 | The values stay readable while the binding waits for a new hold; the pending shape goes. |
| RemoteObject.RemoteBinding.Bind | packages/chord/src/remote.ts:239-242 | A new hold says what the views want. |
| RemoteObject.RemoteBinding.Read | packages/chord/src/remote.ts:202-211 | Nothing is read before hydration or outside the variant; a hydrated member of the shape always has a value. |
| RemoteObject.RemoteBinding.StateViewCount | packages/chord/src/remote.ts:128-137 | Counts the views that want state: above zero exactly if there is one. |
| FlowControl.SendStateKeeps | packages/chord/src/connection.ts:468-506 | Sending or queueing a state frame keeps the accounts: unacked sizes number what was sent and not acknowledged and sum to the unacked bytes; waiting bytes are the slots' sizes and at most the cap. |
| FlowControl.MakeRoomKeeps | packages/chord/src/connection.ts:509-529 | Making room keeps the accounts for every size, also one above the cap, and afterwards the ops fit or their slot is gone or lazy. |
| FlowControl.MakeRoomIs | packages/chord/src/connection.ts:509-529 | For each waiting stream, making room does one of: nothing; a lazy reset; or (relayed) the slot goes and a reset is asked for. Nothing is sent. |
| FlowControl.DropKeysIs | packages/chord/src/connection.ts:557-571 | Forgetting streams removes exactly the doomed slots and sends nothing. |
| FlowControl.AcknowledgeKeeps | packages/chord/src/connection.ts:582-590 | A cumulative acknowledgement in range keeps the accounts. |
| LinkEnd.Connection.Send | packages/chord/src/connection.ts:460-466 | A frame goes on the link and is counted against the window unless the peer never acknowledges. |
| LinkEnd.Connection.SendState | packages/chord/src/connection.ts:468-506 | In place: a state frame is sent, joins its slot, restarts it or is covered by a lazy reset, as specified; relayed streams that lost their slot are reported. |
| LinkEnd.Connection.AppendOps | packages/chord/src/connection.ts:494-505 | Ops join the slot of their stream if room can be made; what made room is dropped as specified. |
| LinkEnd.Connection.MakeRoom | packages/chord/src/connection.ts:509-515 | The loop over waiting slots drops the oldest first and the current one last. |
| LinkEnd.Connection.DropWaiting | packages/chord/src/connection.ts:518-529 | A provider's slot becomes a lazy reset; a relayed one goes and a reset is asked for. |
| LinkEnd.Connection.DropState | packages/chord/src/connection.ts:557-562 | Forgets what waits for one stream, with its bytes. |
| LinkEnd.Connection.DropHoldState | packages/chord/src/connection.ts:565-571 | The loop over the slots forgets everything of one hold and nothing else. |
| LinkEnd.Connection.OnAck | packages/chord/src/connection.ts:582-590 | An acknowledgement outside what was sent is a violation and changes nothing; one in range frees its sizes and flushes. |
| LinkEnd.Connection.Release | packages/chord/src/connection.ts:587-588 | Exactly the acknowledged sizes leave the window. |
| LinkEnd.Connection.Flush | packages/chord/src/connection.ts:593-609 | Sends waiting slots in creation order while the window allows, and ends as specified. |
| LinkEnd.Connection.SendUnit | packages/chord/src/connection.ts:957-983 | A unit: the current shape with the members the consumer lacks, then their snapshots, and a fresh stream for each. |
| LinkEnd.Connection.Attach | packages/chord/src/connection.ts:989-1005 | A snapshot and a fresh stream for each listed member, in order. |
| LinkEnd.Connection.Resend | packages/chord/src/connection.ts:1040-1049 | A fed member goes out again as a reset with a fresh stream; anything else is left alone. |
| LinkEnd.Connection.OnResync | packages/chord/src/connection.ts:532-547 | A reset is promised through the window in place of what waited. |
| LinkEnd.Connection.QueueUnit | packages/chord/src/connection.ts:550-554 | One unit slot per hold, flushed when the window allows. |
| LinkEnd.Connection.UnitChanged | packages/chord/src/connection.ts:940-954 | Members that left lose stream and slot; the first unit of a hold that is no re-hold is sent at once, others are queued. |
| LinkEnd.Connection.OnWantState | packages/chord/src/connection.ts:1052-1068 | Starting state brings a unit; stopping it ends all streams and forgets what waits for the hold. |
| LinkEnd.Connection.FeedOps | packages/chord/src/connection.ts:1025-1034 | A change of a fed member is encoded by its stream and sent or kept. |
| LinkEnd.Connection.FeedReset | packages/chord/src/connection.ts:1035-1037 | A whole new value starts a new stream. |
| LinkEnd.Connection.OnHello | packages/chord/src/connection.ts:837-843 | A peer that does not acknowledge frees the window for good. |
| Lanes.LaneReceives | packages/chord/src/remote.ts:245-288 | For each member the binding does with every frame at least what the view of the frames in flight promises. |
| Convergence.FeedMatches | packages/chord/src/connection.ts:1025-1034 | A replica in step with the stream, fed the encoded change, has the provider's new value and is in step again. |
| ConvergenceSteps.ChangedKeeps | packages/chord/src/connection.ts:1025-1034 | A change, sent, queued or dropped for a lazy reset, keeps the convergence claim of every stream of the link. |
| ConvergenceSteps.ReplacedKeeps | packages/chord/src/connection.ts:1035-1037 | A whole new value keeps the convergence claim. |
| ConvergenceSteps.FlushKeeps | packages/chord/src/connection.ts:593-609 | Flushing any number of slots, units and lazy resets keeps the convergence claim. |
| ConvergenceSteps.UnitKeeps | packages/chord/src/connection.ts:940-983 | A shape change with its unit, sent or queued, keeps the convergence claim. |
| ConvergenceSteps.ResendKeeps | packages/chord/src/connection.ts:1040-1049 | A reset keeps the convergence claim and starts a stream in step. |
| ConvergenceSteps.OnWantStateKeeps | packages/chord/src/connection.ts:1052-1068 | Starting and stopping state keep the convergence claim for what is then fed. |
| ConvergenceSteps.OnResyncKeeps | packages/chord/src/connection.ts:1071-1080 | A resync replaces what waits by a promised reset and keeps the claim. |
| ConvergenceSteps.OnAckKeeps | packages/chord/src/connection.ts:582-609 | An acknowledgement and the flush it allows keep the claim. |
| DirectLink.OneHopConvergence | packages/chord/src/connection.ts:300-345 | Over every run of a freshly opened link, with changes, view changes, acks, flushes, cap drops, lazy resets and resends: unless a stop is on its way, the replica followed by the frames in flight and by what waits is the provider's value, the decoder will be in step, hydration is honest, waiting bytes stay below the cap and no violation occurs. |
| DirectLink.AckNeverViolates | packages/chord/src/connection.ts:582-586 | Two honest ends over a link that keeps order never reach the ack violation. |
| DirectLink.QuietMeansEqual | packages/chord/src/connection.ts:300-345 | With nothing in flight and nothing waiting the consumer holds the provider's value, applied or with the shape that waits; once hydrated with no shape waiting, a read returns it. |
| RelayObject.RelayRefs.Shape | packages/chord/src/connection.ts:230-238 | A shape is forwarded at once; the members of a first unit then skip the window. |
| RelayObject.RelayRefs.State | packages/chord/src/connection.ts:240-253 | Ops of a member that awaits a reset are ignored, a value ends the wait, urgent frames pass, the rest waits in the window. |
| RelayObject.RelayRefs.Resync | packages/chord/src/connection.ts:223-228 | Each dropped stream is awaited and its reset asked for. |
| RelayObject.RelayRefs.WantState | packages/chord/src/connection.ts:209-221 | The wish goes to the provider when it changed; stopping forgets what waits and what is awaited. |
| RelayEnd.FlushFirstFront | packages/chord/src/connection.ts:593-609 | Flushing at the relay changes nothing of where the consumer's side of a relayed stream stands. |
| RelayLink.OnFrameReplaces | packages/chord/src/connection.ts:230-253 | What the relay does with a frame is at least what the frame does, or the stream awaits a reset that was asked for. |
| TwoHop.MoveKeeps | packages/chord/src/connection.ts:209-253 | Each of the nine moves of provider, relay, consumer and the two links keeps the invariant of the whole system. |
| TwoHop.TwoHopConvergence | packages/chord/src/connection.ts:209-253 | Over every run through a relay that may drop: consumer value, then both links' frames and both slots, skipping ops while the member is awaited, is the provider's value; if the wait is not over by then a resync is on its way up. No ack violation, both caps kept. |
| TwoHop.QuietMeansEqual | packages/chord/src/connection.ts:209-253 | With both links and both ends quiet the consumer holds the provider's value, applied or with the shape that waits; once hydrated with no shape waiting, a read returns it. |
| ShapeDelivery.UnitShape | packages/chord/src/connection.ts:940-983 | A unit makes the current shape certain: sent now or carried by a waiting unit; other holds are not affected. |
| ShapeDelivery.FlushShape | packages/chord/src/connection.ts:593-609 | Flushing neither loses nor finds a shape. |
| ShapeDelivery.ShapeChangedShape | packages/chord/src/connection.ts:940-954 | Whatever was promised before, after a shape change the new shape is on its way or waits. |
| ShapeDelivery.ShapesDelivered | packages/chord/src/connection.ts:532-571 | The exact condition, over every run from a link just opened: in every state the current shape was taken, is on its way or is carried by a unit that waits, if and only if the provider never stops the state of the hold while a waiting unit alone carries the shape. |
| ShapeDelivery.QuietHasShape | packages/chord/src/connection.ts:940-983 | Under that condition the consumer has the provider's current shape whenever the link is quiet. |
| ShapeDelivery.UnsubLosesShape | packages/chord/src/connection.ts:1052-1068 | It can happen: a run from a link just opened to a quiet link where the consumer keeps the old shape, through a full window, a changed shape and a view that leaves. |
| ShapeDelivery.AckShape | packages/chord/src/connection.ts:582-609 | Once lost, no acknowledgement brings a shape back, and none loses one. |
| ShapeDelivery.ChangedShape | packages/chord/src/connection.ts:1025-1034 | No change of a member brings a lost shape back, and none loses one. |
| ShapeDelivery.ResyncShape | packages/chord/src/connection.ts:1071-1080 | No resync brings a lost shape back, and none loses one. |
| Cluster.NextKeeps | packages/chord/src/cluster.ts:39-158 | Every step of coordinator, children and links keeps the invariant of agreement, fencing, frame order and version retention. |
| Cluster.ClusterAgreement | packages/chord/src/cluster.ts:39-158 | Over every run: a child installs only a version the server installed and did not abort, newer than its own, and when no previous version is left; every child in step runs the server's version once its commits arrive, and while a reload asks, these are exactly its participants; no call of a version precedes its commit on a link; a child retires unforced only what the server retired. |
| Cluster.OnlyCommitInstalls | packages/chord/src/cluster.ts:173-250 | A child's code version changes in no step but the arrival of a commit. |
| Cluster.CommitAllKeeps | packages/chord/src/cluster.ts:98-114 | Installing at the server, then telling every participant, then deciding who waited keeps the invariant. |
| Cluster.SendPreparesKeeps | packages/chord/src/cluster.ts:57-81 | Asking exactly the children in step under a new id keeps the invariant. |
| Cluster.ReconcileVotedKeeps | packages/chord/src/cluster.ts:123-158 | A reconciliation commits only if the version it prepared is still the current one, else aborts, and keeps the invariant. |
| Cluster.ReceiveKeeps | packages/chord/src/host.ts:987-1018 | Hellos, also ahead of the server or during a reload, and stale votes keep the invariant. |
| Cluster.LoseLinkKeeps | packages/chord/src/cluster.ts:208-225 | A lost link fails a missing vote, and the child gives up what it prepares: the invariant stays. |
| Cluster.RetireKeeps | packages/chord/src/host.ts:737-754 | Retiring tells the children, and nobody hears of a version that is still retained. |
| Cluster.ChildReceiveKeeps | packages/chord/src/cluster.ts:181-206 | A child taking a prepare, commit, abort, call or retire frame keeps the invariant. |
| ClusterObjects.ChildReloads.OnFrame | packages/chord/src/cluster.ts:181-206 | In place: a second prepare is refused, only the prepared id commits, an abort cancels only its own id. |
| ClusterObjects.ChildReloads.CancelOperation | packages/chord/src/cluster.ts:213-225 | A prepared operation is rolled back at once; a loading one is only marked. |
| ClusterObjects.ChildReloads.Settle | packages/chord/src/cluster.ts:227-250 | The vote is yes only for an uncancelled, newer version once the previous one retired; a cancelled operation never votes. |
| ClusterObjects.ServerReloads.SendPrepares | packages/chord/src/cluster.ts:57-81 | The loop asks every child in step, and no other, under one id. |
| ClusterObjects.ServerReloads.Commit | packages/chord/src/cluster.ts:98-114 | The server installs first; then each participant is told and no longer asked; then waiting hellos are decided. |
| ClusterObjects.ServerReloads.Abort | packages/chord/src/cluster.ts:89-97 | Each participant is told to abort; waiting hellos are decided. |
| ClusterObjects.ServerReloads.ReloadEnded | packages/chord/src/host.ts:1021-1028 | Each open child that said hello meanwhile is decided once, by the version the server runs now. |
| Leases.NextKeeps | packages/chord/src/host.ts:625-702 | Every step of roots, calls, links and reloads keeps: touched-object records are the objects' leases; leases are of versions the object admits and grandfathered while gated; link records name open links. |
| Leases.RootsEndWhole | packages/chord/src/host.ts:679-700 | In every step: when a root stops living (no call of it runs here and no link that brought it remains) every lease and record of it goes at once and every open link it went out on is sent `root_end`. |
| Leases.RootLeases | packages/chord/src/host.ts:611-702 | Exactly when the books stay right: in every state of a run roots hold leases only while they live and whatever runs is leased, if and only if no root ends while a call it made runs. |
| Leases.RootLeasesFromIdle | packages/chord/src/host.ts:611-702 | The same for every run of a host that just started. |
| Leases.FaithfulStep | packages/chord/src/host.ts:625-702 | The same for one step: it keeps the books right if and only if it ends no root that still runs. |
| Leases.UnawaitedCallLeaks | packages/chord/src/object.ts:1538-1544 | A run from an idle host: a call nobody awaits outlives its root and calls again, and the lease it takes belongs to a root that is over. |
| Leases.LeakBlocksReload | packages/chord/src/reload.ts:457-487 | From a leaked lease on, in every run in which its root does not come over a link again, aborts and other commits included: no reload commits while the object is gated, now or at any later gate, and the lease stays. |
| Leases.GateSafety | packages/chord/src/reload.ts:457-503 | From the moment a gated object has drained until commit or abort, over every run: no root has a lease on it, is admitted to it or writes to it. |
| Leases.DrainedMeansQuiet | packages/chord/src/reload.ts:457-487 | Where every call is awaited, no invocation at all runs in a drained object. |
| Leases.NewCodeOnly | packages/chord/src/object.ts:1522-1536 | Whatever comes after a commit: a root that is admitted to an object that was gated, or writes in it, runs the committed version or a later one. |
| Leases.CommittedSound | packages/chord/src/reload.ts:658-690 | At the commit no drained object has a lease of an older version left. |
| RootRecords.RootBooks.Admit | packages/chord/src/object.ts:1522-1536 | Refuses retired versions, versions below the object's limit and, while gated, whoever is not grandfathered; admits the rest. |
| RootRecords.RootBooks.Call | packages/chord/src/object.ts:1538-1544 | Admission and lease are one step, recorded at object and host, or nothing changes. |
| RootRecords.RootBooks.EndRoot | packages/chord/src/host.ts:679-686 | The loops end the leases on exactly the touched objects and tell exactly the open links. |
| RootRecords.RootBooks.Arrive | packages/chord/src/host.ts:625-642 | A foreign root is noted with the link that brought it, a local one is not; a version that is not retained is refused. |
| RootRecords.RootBooks.Settle | packages/chord/src/host.ts:655-665 | With its last call a root ends, unless a link that brought it still holds it. |
| RootRecords.RootBooks.ForeignRootEnded | packages/chord/src/host.ts:692-700 | Honored only from a link that brought the root; it ends with the last such link unless a call of it runs. |
| RootRecords.RootBooks.ConnectionClosed | packages/chord/src/host.ts:1036-1046 | The loop ends what only that link brought, for any order of the roots, and the link is told nothing any more. |
| RootRecords.RootBooks.Gate | packages/chord/src/reload.ts:461-470 | Grandfathers exactly the roots that hold a lease at the cut. |
| OutputWindow.HeadRange | packages/chord/src/output.ts:61-76 | The longest run of whole first lines within both limits, or, when the first line alone is too long, its longest cut at a character. |
| OutputWindow.TailRange | packages/chord/src/output.ts:78-99 | The longest run of whole last lines within both limits, or the longest cut of one overlong line at a character. |
| OutputWindow.BoundOutput | packages/chord/src/output.ts:49-59 | What the limits keep, with the exact numbers of dropped bytes and lines. |
| OutputWindow.BoundedUnique | packages/chord/src/output.ts:49-59 | The text and limits determine that result. |
| OutputWindow.BoundedWithin | packages/chord/src/output.ts:49-59 | What is kept is within both limits and with the dropped counts accounts for all bytes and lines. |
| OutputWindow.CharacterEnd | packages/chord/src/output.ts:102-107 | Where the character that holds the byte at an index starts, and the index itself if it starts one; position 0 if none does. |
| OutputWindow.CharacterStart | packages/chord/src/output.ts:108-113 | Where the next character starts, counting the index itself, or the end of the text. |
| OutputWindow.CountLines | packages/chord/src/output.ts:115-120 | Counts lines; a final unterminated one counts. |
| OutputBuffering.OutputBuffer.Push | packages/chord/src/output.ts:158-171 | The stream grows by what was skipped and the chunk; head retention refuses a skip; what is stored still determines the window of the whole stream. |
| OutputBuffering.OutputBuffer.Accept | packages/chord/src/output.ts:189-217 | Accepting a chunk, stored or only counted, keeps the stored part sufficient for the window and the totals exact; for tail exactly the leading chunks go that can be spared; what is stored is bounded by the limits and one chunk. |
| OutputBuffering.OutputBuffer.HeldWithin | packages/chord/src/output.ts:149-152 | Stored bytes never exceed the byte limit plus one plus one stored chunk: the longest accepted, or, once a snapshot joined what was stored, that and a window. |
| OutputBuffering.MarginShort | packages/chord/src/output.ts:243-260 | The suffix a snapshot keeps is at most a window and one character. |
| OutputBuffering.HoldsMore | packages/chord/src/output.ts:149-152 | A run of single characters with a snapshot in between stores more than the window, one byte and the longest accepted chunk. |
| OutputBuffering.OutputBuffer.Omit | packages/chord/src/output.ts:174-182 | Omitted output is counted and drops what was stored before it. |
| OutputBuffering.OutputBuffer.Snapshot | packages/chord/src/output.ts:220-240 | At any point the incremental window is what bounding the entire stream gives, with exact dropped totals, and taking it changes nothing of the stream. |
| OutputBuffering.TailMargin | packages/chord/src/output.ts:247-261 | The shortest suffix with more than a window, starting at a character. |
| OutputBuffering.WholeSlice | packages/chord/src/output.ts:220-240 | What the stored part keeps under the limits is what the whole stream keeps. |
| Pacing.PacedRuns | packages/chord/src/output.ts:310-383 | In every run: at most one write at a time; before each write the successful ones wrote at most 100 KiB per second since the first started, and writes are at least the interval apart; a pending change has a timer or write that will commit it; a waiter settles with a write that started after its mark. |
| Pacing.NextKeeps | packages/chord/src/output.ts:350-383 | Each mark, timer, settled write, stop and tick keeps that. |
| Pacing.ProgressCommits.Schedule | packages/chord/src/output.ts:350-359 | Writes at once, arms one timer, or leaves it to what is under way. |
| Pacing.ProgressCommits.Flush | packages/chord/src/output.ts:361-366 | One write takes all waiters and clears the mark. |
| Pacing.ProgressCommits.WriteSucceeded | packages/chord/src/output.ts:368-371 | The next write waits for the interval and for what was written; the write's waiters settle. |
| Pacing.ProgressCommits.WriteFailed | packages/chord/src/output.ts:372-376 | The next write waits for the interval; the write's waiters settle. |
| Pacing.ProgressCommits.WriteOver | packages/chord/src/output.ts:378-381 | A change made meanwhile is scheduled. |
| Schemas.FitsSound | packages/chord/src/schema.ts:134-160 | If `fits(sub, sup)` then every value sent under `sub`, stripped to the names `sub` knows or as it is, conforms to `sup`, for the schemas TypeBox emits, if three things `fits` does not look at are right: what a record brings under a property that only `sup` lists fits too, a closed `sup` without patterns lists the names of a record, and where nothing is stripped a property that only `sup` lists takes anything if `sub` is open; of a union in one branch that fits. With termination of the mutual recursion. |
| Schemas.ObjectSound | packages/chord/src/schema.ts:162-201 | The same for objects: properties, required names, patterns, closed and open objects. |
| Schemas.ArraySound | packages/chord/src/schema.ts:203-210 | The same for arrays and tuples. |
| Schemas.FunctionSound | packages/chord/src/schema.ts:212-219 | The same for functions, contravariant in the shared parameters; what goes into a function and comes out is not stripped. |
| Schemas.RecordFitsUnchecked | packages/chord/src/schema.ts:162-201 | A consumer's record fits a provider's object whose optional property has another type: a value of the one is refused by the other. |
| Schemas.ExtraFitsUnchecked | packages/chord/src/schema.ts:170-180 | Without stripping: an open object fits one that lists an optional property more, and a value with another type under that name, which the first admits, the second refuses. |
| Containment.WithinIff | packages/chord/src/schema.ts:134-219 | Exactly when whatever is sent under one schema, stripped or as it is, another admits, for scalars, literals, arrays, records and objects in any nesting and unions anywhere in the first: branch by branch and literal by literal, types fit, items and same-named schemas are inside each other, required names are required, closed objects know every name, and what an open object that is not stripped may bring besides is taken as it is. |
| Containment.FitsIff | packages/chord/src/schema.ts:134-219 | Exactly when `fits` is right on them: once it says yes, `sub` is safe for `sup` if and only if wherever a record stands for an object each property its pattern matches takes what the record brings, and a closed object lists every name it matches; and, where nothing is stripped, wherever something open stands for an object each property that only the object lists stands for anything. |
| Containment.FitsWithin | packages/chord/src/schema.ts:162-201 | The link between the two conditions: of containment, `fits` leaves nothing unchecked but the records, and the open objects that are not stripped. |
| Schemas.ClearWhenShut | packages/chord/src/schema.ts:134-219 | When the condition of soundness always holds: without names by pattern, and where nothing is stripped without open objects on the side that sends. |
| Schemas.TidyConforms | packages/chord/src/schema.ts:134-160 | What conforms after stripping unknown names conforms. |
| Schemas.SameConforms | packages/chord/src/schema.ts:33-35 | Schemas that are equal as JSON, in whatever order their names are listed, admit the same values. |
| Contracts.CoverageSound | packages/chord/src/contract.ts:289-314 | No reason against coverage, for a consumer on the object's host or away from it: the provider accepts every argument and input the consumer may send, stripped where the code strips them (arguments of remote types, input on its way to another host), and the consumer accepts every result and state value that passes the provider's own check, with whatever further fields; under the condition of `Schemas.FitsSound` on each pair that meets. |
| Contracts.CoverageExact | packages/chord/src/contract.ts:289-314 | For contracts of scalars, literals, arrays, records and objects, with unions where values are sent: a covered consumer is served if and only if in every pair of schemas that meets the records agree with the objects they stand for, and in every pair whose values are not stripped, as results and state, so do the open objects. |
| Contracts.OpenResultUnserved | packages/chord/src/object.ts:1583-1612 | The second half of the condition is needed: the provider's result is an open object, the consumer's lists an optional number; the provider covers it and is not held to it. |
| Contracts.OpenInputUnserved | packages/chord/src/host.ts:507-528 | Input is stripped with the consumer's schema on its way to another host only: the same covered consumer is served there and not on the provider's host. |
| Contracts.BindSound | packages/chord/src/contract.ts:326-351 | A direct binding, by equal fingerprint or by coverage, serves the consumer, under the condition of `Contracts.CoverageSound`. |
| Contracts.ServesItself | packages/chord/src/contract.ts:326-351 | A description serves itself. |
| Cells.AdoptFresh | packages/chord/src/cell.ts:247-273 | Glitch-free: after adopting a write, every recomputed derivation is its function of the adopted values, and no other derivation notices; creation order suffices. |
| Cells.RecomputedAt | packages/chord/src/cell.ts:286-305 | Each recomputed value is its function over the final candidates and passed validation. |
| Cells.AttachedValid | packages/chord/src/cell.ts:354-360 | An attached derivation is fresh and listed at its sources. |
| Cells.DetachedValid | packages/chord/src/cell.ts:362-366 | Detaching keeps every other derivation fresh. |
| Cells.OutsideValid | packages/chord/src/cell.ts:354-360 | A change outside the object makes exactly its followers stale. |
| Cells.InsideFresh | packages/chord/src/cell.ts:354-386 | A derivation over cells and derivations of the object is its function of their values at any time: only followers of outside readables can be stale. |
| CellObjects.CellGraph.Write | packages/chord/src/cell.ts:247-273 | A write adopts its value and all recomputed derivations, or nothing, and succeeds exactly if no validation refuses and no function throws; nothing that does not depend on it changes; the notifications carry adopted values, the cell's first. |
| CellObjects.CellGraph.Publish | packages/chord/src/cell.ts:247-273 | Exactly the transitive dependents are recomputed, adopted and published if they changed, in creation order. |
| CellObjects.CellGraph.Visit | packages/chord/src/cell.ts:286-295 | The recursive visit finds every dependent of a source once, and only dependents. |
| CellObjects.CellGraph.ComputeDependents | packages/chord/src/cell.ts:286-305 | Recomputes exactly the transitive dependents by creation, and fails as soon as one throws or is refused. |
| CellObjects.CellGraph.Attach | packages/chord/src/cell.ts:354-360 | Takes the first value and follows the object's sources; a throwing function changes nothing. |
| CellObjects.CellGraph.Detach | packages/chord/src/cell.ts:362-366 | Leaves all its sources. |
| CellObjects.CellGraph.Refresh | packages/chord/src/cell.ts:375-386 | A derivation and its dependents become fresh, or nothing changes; exactly if no function throws and no value is refused. |
| CellObjects.CellGraph.OutsidePublishes | packages/chord/src/cell.ts:354-386 | After an outside publication reached its followers in any order, whoever of them is still stale reported an error, and nobody else became stale. |
| CellObjects.CellGraph.InstallAll | packages/chord/src/cell.ts:388-396 | Derivations take their values in creation order; unchanged ones publish nothing. |
| Observers.ObserversInOrder | packages/chord/src/cell.ts:19-59 | The exact condition, over every run of writes, subscriptions and deliveries in any order: in every state each subscribed listener will have been called with its snapshot and then exactly the later revisions, in order, none missing, if and only if nobody subscribed while an event queued for it waited. |
| Observers.CalledInOrder | packages/chord/src/cell.ts:50-56 | Then what a listener was called with so far is a beginning of that, without gaps. |
| Observers.LeftBehind | packages/chord/src/cell.ts:44-56 | It can fail: a run in which a listener leaves and comes back during a delivery ends on the older of two revisions. |
| Observers.WriteObserved | packages/chord/src/cell.ts:247-273 | What a write publishes is a revision for each source it changed, in adoption order; afterwards the newest revision of every source is its adopted value. |
| Publications.DeliveredInWaves | packages/chord/src/publish.ts:1-39 | Everything queued is delivered, in order, before anything its delivery causes, and so on: no re-entrant publication overtakes. |
| Publications.PublicationQueue.Enqueue | packages/chord/src/publish.ts:15-18 | Waits while something is delivered or held; otherwise it and all it causes is delivered before it returns. |
| Publications.PublicationQueue.HoldPublications | packages/chord/src/publish.ts:21-29 | Nothing is delivered while the change is made, and all of it afterwards, in order. |
| Publications.PublicationQueue.Drain | packages/chord/src/publish.ts:31-39 | Delivers in enqueue order until nothing is left, with nested publications and holds; terminates. |
| Subscribers.SubscriberStreams | packages/chord/src/state.ts:102-238 | In every run, whatever listeners do: callbacks of a subscriber never overlap, come hydration first and in strictly increasing sequence with the published values, and at most 100 wait. |
| Subscribers.SettledSubscriber | packages/chord/src/state.ts:102-238 | Once loop and subscriber are idle it has seen the current value, also after overflow; without overflow exactly the publications since its hydration, none missing. |
| Subscribers.NextKeeps | packages/chord/src/state.ts:201-238 | Every step of publisher and subscribers keeps that. |
| Subscribers.PushedServed | packages/chord/src/state.ts:115-124 | A push never loses the newest publication nor a hydration that has not started. |
| Subscribers.VisitKeeps | packages/chord/src/state.ts:222-232 | The delivery loop serves each subscriber of its snapshot once, also if it closed or subscribed meanwhile. |
| Subscribers.StateSubscriber.Push | packages/chord/src/state.ts:115-124 | In place: at the limit everything waiting goes but an unstarted hydration, and the frame is last. |
| Subscribers.StateSubscriber.Drain | packages/chord/src/state.ts:126-128 | Starts a loop only if none runs. |
| Subscribers.StateSubscriber.Take | packages/chord/src/state.ts:129-148 | The oldest frame goes to the listener, or the loop ends. |
| Subscribers.StateSubscriber.Close | packages/chord/src/state.ts:154-157 | Nothing waits or is accepted any more. |
| References.HostObjects.ReachesObject | packages/chord/src/host.ts:1289-1303 | The worklist decides reachability exactly, and terminates. |
| References.HostObjects.Acquire | packages/chord/src/host.ts:544-590 | A reference is refused as a cycle exactly when it would close one; refusals change nothing; the graph stays acyclic. |
| References.HostObjects.Release | packages/chord/src/object.ts:1642-1644 | Ending a reference keeps the graph acyclic. |
| References.HostObjects.Forget | packages/chord/src/host.ts:592-595 | The address is free as soon as its object is disposed of; the object stays in the graph. |
| References.HostObjects.Cleared | packages/chord/src/object.ts:1700-1721 | A disposed object references nothing. |
| References.HostObjects.Close | packages/chord/src/host.ts:1230-1241 | Every object is disposed once, holders in earlier waves than what they hold. |
| References.DisposeHoldersFirst | packages/chord/src/host.ts:1249-1272 | For any set and graph: each object goes in exactly one wave, and holders go first if and only if the references within the set have no cycle; terminates. |
| References.SomeUnheld | packages/chord/src/host.ts:1262-1266 | In an acyclic set some object is held by none of the set, so no wave is empty. |
| Digraphs.NewEdgeCloses | packages/chord/src/host.ts:566-569 | A new reference keeps the graph acyclic exactly if its target does not reach, and is not, its holder. |
| BuildOrders.BuildOrder | scripts/lib/packages.ts:140-164 | Either a permutation of the packages with every dependency before its dependents, or a reported path that really closes a cycle; and a cycle is reported exactly if there is one. |
| BuildOrders.Builder.Visit | scripts/lib/packages.ts:146-161 | The three-colour visit extends the order by whole subtrees, restores the path, or reports a closed chain; terminates. |
| BuildOrders.OrderMeansAcyclic | scripts/lib/packages.ts:140-164 | A complete order exists only without cycles. |
| BuildOrders.ReportedMeansCycle | scripts/lib/packages.ts:149-151 | The reported path contains a cycle. |
| Catalogues.CatalogueRuns | packages/ai/src/models.ts:580-610 | In every interleaving of refreshes, replacements, aborts and publications: store operations of a provider never overlap, applied generations never decrease, and the store is what its last writer persisted, its writers never decreasing in generation. |
| Refreshes.ReadAgreesIff | packages/ai/src/models.ts:1220-1246 | The exact condition, from any reachable state: however a refresh goes on from reading the store, it ends, current and unaborted, with memory as the store is, if and only if no older refresh is writing something else when it reads. |
| Refreshes.SavedAgrees | packages/ai/src/models.ts:1236-1245 | In every run: while a refresh that saved what it fetched is current and unaborted, memory is what the store holds. |
| Refreshes.MemoryLeftBehind | packages/ai/src/models.ts:611-629 | It can fail: a run in which an offline refresh reads the store while an older one writes it ends with the two apart. |
| Refreshes.MoveKeeps | packages/ai/src/models.ts:1220-1246 | Every move of any refresh and of the catalogue keeps the account of each refresh and the agreement of a saved one. |
| Catalogues.NextKeeps | packages/ai/src/models.ts:565-610 | Every step keeps the chain, the order and the store's account. |
| Catalogues.RefreshRecords.SupersedeProviderRefresh | packages/ai/src/models.ts:565-574 | A new generation; the refresh it replaces is aborted; other providers keep their records. |
| Catalogues.RefreshRecords.BeginProviderRefresh | packages/ai/src/models.ts:576-581 | The same, and the new refresh is the one to abort next. |

## Left out

State streams:

- Holds are open: opening, refusing and closing them, `gone`, principals and authorization are not modelled, and bindings end only as `Ended`.
- Frames with `as: "error"`: snapshot validation and its failures.
- Events that arrive while a snapshot is built (`#replay`): attaching a member is one step.
- A lost link: every run starts from freshly opened links, with bindings in any consistent state an earlier link may have left.
- Results, calls and pings are `OtherFrame`: they share the window, their content is not modelled. Links that report no sizes are a window that is never full, as with `acks` false.
- Relays of relays: one relay between provider and consumer.
- `assertSafePath` and `assertValidWireOp`, applying an edit to JSON, and the tracker that makes ops.
- DirectLink.OneHopConvergence: says nothing of a hold while an `unsub` for it is on its way; the provider then stops the stream.

Cluster reload and leases:

- Local failures of a commit (`host.fail`), the modules that are loaded, and which children a reload is for.
- A forced retirement when a deadline passes is a step of a child; that it aborts roots is not modelled.
- Prepare itself: factories, resources, migrations, derivation checks and listeners of a candidate.
- Leases: a root has one code version on a host, as `#admitRoot` and the labels of calls give it; a superseded arrival only forgets that the root was local.
- Leases: task contexts, disposal of objects, and the client connections that carry no roots.
- Timers are steps that may come at any time, also the gate deadline (`Abort`).

Output and commits:

- `TextDecoder`, the byte-order mark and incomplete characters across chunks: chunks hold whole characters. Lone surrogates are not modelled.
- OutputBuffering.OutputBuffer.Snapshot: sanitizing is one function on the kept text; that it removes control characters is not stated.
- A `write` that throws before it returns a promise, and the final commit after `stop`.

Contracts:

- `format`, numeric and length keywords and regular expressions are parameters; they are compared by equality as in the source.
- Containment.FitsIff: functions, tuples and unions on the receiving side are not among the schemas it is exact for; `Schemas.FitsSound` covers them one way.
- Schemas.FitsSound: not for schemas outside what TypeBox emits, where early returns skip checks (`schema.ts:142`, `schema.ts:155`).
- Names that objects inherit (`"constructor" in value`), and `type` written as one string instead of a list.
- Contracts.CoverageSound: results and state conform to the provider's schema, as its checks see to; results of local methods, which nothing checks (`object.ts:1586`), are taken to conform. Defaults that `normalize` fills in are not modelled.
- Contracts.BindSound: equal fingerprints are taken to mean equal descriptions; the hash is not modelled.
- Adapters of older contract versions: a binding through one is only recognised.

Cells, publications, subscribers:

- Ops and diffs of a change: an event carries the new value. Drafts and the tracker.
- Sources of other objects are outside readables that publish by themselves; how their own values come about is not modelled.
- Which attributes of a task matter for order is all that is kept of it: what it enqueues and holds. Tasks do not throw.
- Registries and resources. A listener that is registered for values and for events counts as two.
- `AttachedReplicatedStateImpl` and its cursor check; reports of failing listeners.

References, build order, catalogue:

- References.HostObjects.Acquire: placement, contracts and remote references; a re-prepared declaration that keeps an existing reference adds no edge.
- References.DisposeHoldersFirst: errors of disposals, which are collected.
- BuildOrders.BuildOrder: reading manifests and matching package names to directories; dependencies come sorted, as the source sorts them.
- Catalogues.CatalogueRuns: what a provider fetches, credentials, and `raceWithAbortSignal`, which only ends the caller's wait early; a failed store operation leaves the store as it was.
- Refreshes.ReadAgreesIff: what is stored is restored whole; that models of other providers and unknown types are left out is not modelled. A replaced provider starts with an empty memory of its own; the model keeps one memory.
- Merging a dynamic catalogue over the baseline, provider tables, streaming and the concurrency limiter.
- `packages/env`, `loader.ts`, `manager.ts`, sockets, processes and telemetry.
