# Newt-SFU: verified model of the cascade and forwarding planes

Newt-SFU forwards conference audio and screen shares inside a node, and between nodes over a
cascade of edges. This project models the two planes and proves what they promise:

- **Cascade plane** (`internal/cascade`). Per room a node keeps an anchor lease, an epoch-stamped
  edge set, one session per edge, and the tracks published here or received from neighbours.
  `recompute` derives from these the authorisation of every edge, the exact set of outbound
  tracks, and the want announced on each edge. One node is modelled as an object and as a state
  machine over all its events; a whole network of nodes as a want protocol over FIFO links and as
  the media that moves along with it, track by track.
- **Forwarding plane** (`internal/room`). Packets go to cached snapshots built from down tracks,
  unsubscribe marks and caps. The cached form is proved equal to the simple decision in every
  reachable state, for local publishers, for cascade sinks, for remote publishers whose down
  tracks are taken over from one registration to the next, and for the layers of a local screen.
- **Helpers** (`internal/control`, `internal/room`). The command de-duplication window, the
  session registry, screen layers and the track-key codec.

## Files

| file | about |
|---|---|
| `WantSet.dfy` | finite and co-finite demand sets: union, extensional equality, wire form |
| `Forest.dfy`, `Sums.dfy`, `Sizes.dfy`, `Options.dfy` | walks and sides in a topology without cycles; sums over finite maps; sizes of finite sets; optional values |
| `WantNetwork.dfy`, `WantConvergence.dfy` | the want protocol of a network: invariant, unique fixpoint, termination |
| `Delivery.dfy` | who carries a published track, end to end, in a network at rest |
| `MediaRuns.dfy`, `MediaDelivery.dfy` | media over a network: publishing, recomputing, tracks arriving and ending, verdicts that stick; where its runs come to rest |
| `MediaHistory.dfy` | who publishes, sends, has received or drains what, in terms of the events |
| `MediaGuard.dfy`, `MovedPublisher.dfy` | exactly when a publication can end in a refused arrival, and a run in which a track is lost that way |
| `MediaFeed.dfy`, `StarvedHop.dfy` | whether packets follow a track from its publisher to whoever has it, and exactly when a publication can leave an edge without them |
| `CascadeRoom.dfy` | one node's room state and `recompute`, loop by loop |
| `CascadeRuns.dfy` | every run of that state: sessions and edges, epochs, authorisation |
| `CascadeHistory.dfy` | what a room state holds and carries, in terms of the events |
| `CascadeObject.dfy` | the room state as an object whose handlers are steps of those runs |
| `CascadeEcho.dfy`, `EchoGuard.dfy`, `EchoWitness.dfy` | when a track can be sent back over its own edge, exactly which registrations make that possible, and two runs in which it happens |
| `CascadeFeed.dfy`, `FeedGuard.dfy` | one node's carried tracks: from which source each is fed, and exactly when a publication can leave one unfed |
| `CascadeRefinement.dfy` | one node's steps are the steps the network models speak about |
| `DueTracks.dfy` | from what a member is due to what its neighbours send it |
| `EdgeNegotiation.dfy` | renegotiation between the two ends of an edge |
| `RemoteRegistration.dfy`, `RegistrationLoss.dfy` | the race between registering a remote track and its end; exactly when it leaves a speaker without publisher |
| `RegistrationHistory.dfy` | who is current in terms of the schedule, and what becomes of speakers that have ended |
| `RoomForwarding.dfy`, `RoomObject.dfy` | what each room operation does; the operations as methods with their loops |
| `RoomRuns.dfy`, `SinkService.dfy`, `RemoteTakeover.dfy` | every run of a room: local publishers, cascade sinks, remote publishers |
| `RoomHistory.dfy` | rights, marks, sinks and registrations in terms of the events, and whom packets then reach |
| `LocalDemand.dfy` | the local half of the announced want |
| `Screen.dfy`, `ScreenService.dfy` | layer choice, bucketing, the count of active screens; one local screen over every run |
| `ScreenHistory.dfy` | the same for a local screen and its layers |
| `Registry.dfy` | rooms, sessions, gauges |
| `AckCache.dfy` | the command window |
| `Tracks.dfy` | track kinds and keys |

## Results worth knowing

Eight statements one would expect are false of the code. Each has a run or an input that shows it, and
the exact condition under which the statement holds.

- *Every node that demands a published track has it once everything is at rest.* A track is judged
  once, when it arrives; refused, it is drained until it ends. When one session id is published at two
  nodes in turn and the new copy of its track reaches a node before the old one has ended there, the
  new copy stays refused for good (`MovedTrackIsLost`). A session that is migrated gets a new id and a
  token is good for one node (internal/migrate/migrate.go:3-6, internal/auth/verifier.go:142), so this
  takes the same id at two nodes: the node code accepts that, and only the control plane could rule it
  out. At rest presence is exact if and only if no track is being drained (`ExactIffNoneDrained`). A
  publication can lead to a refusal if and only if the track was not free at that node: another node
  publishes it, or something of it is on an edge other than going away from there (`FreeIsExact`). Runs
  all of whose publications are free refuse nothing (`NoArrivalIsRefused`) and have exact presence
  (`PresenceAfterRun`, `DemandMetAfterRun`); whether packets come with it is the next point.
- *What an edge carries is fed.* An out track is set up once, on the local publisher or as a relay of a
  remote track, and recompute keeps it by its key alone. If a key is published at a node that still
  relays it, the out track outlives the remote track it was set up on and no packet gets in
  (`PublishedOverRelay`, `StarvationIsReachable`), even if the publication was free
  (`FreeIsNotEnough`). At one node a publication can lead to that if and only if a remote track of the
  key is left (`FeedGuard.CarefulIsExact`); with publishing and recomputing as separate steps, if and
  only if some edge of the node has the key as a relay, or would be given it as one
  (`StarvedHop.CarefulIsExact`). Runs that never publish then feed all they carry (`CarefulRunsFeed`, at
  one node and in a network), and if their publications are free as well, packets reach exactly the
  nodes on the way to a demanding one (`PacketsAfterRun`).
- *A current remote speaker at rest has a publisher in the room.* A recompute can register for a
  speaker that a re-hang replaces, and if that registration is found stale last of all, its clean-up
  is the one that no recompute follows (`RegistrationCanBeLost`). At rest the publisher is missing if
  and only if the schedule ends that way for its key (`LostIffEndsBare`), which takes a recompute's
  registration found stale (`LossNeedsStaleRetry`); one more recompute left alone repairs it
  (`OneMoreRecomputeRepairs`).
- *No track returns over the edge it came from.* A third connection that registers while the call
  that registered the second one still has the first to close is not waited for (`EchoIsReachable`);
  nor is the old session of an edge whose endpoint changed, between its removal from the register and
  its close (`MovedEdgeEchoes`). A registration can lead to an echo if and only if a remote track is
  left of an earlier session of that edge (`UnhurriedIsExact`), and runs that never register then
  never echo (`PoliteRunsNeverEcho`). A recomputation echoes exactly under `EchoIff`.
- *A user is left out of the announced want if and only if every listener is that user or has
  unsubscribed it*, as the comment on `LocalDemand` says. The code keeps a user who alone is
  listening and whom nobody unsubscribed; that is the only difference (`DocumentationIsWider`).
- *Every connected member that may see a remote screen is served.* Not after the join right is taken
  and given back: a screen registered in between stays unattached (`RegrantedJoinIsNotServed`). A caps
  update keeps everyone served if and only if it is grantable, that is, the member already holds every
  screen it is then due or the same update gains subscribe_audio, which attaches all, and if it takes no
  due remote track along, as the next point has it (`RemoteTakeover.GrantableIsExact`).
- *A local member does not disturb the remote publishers.* A session can be a member here while a track
  of it is registered as remote, and what removes the down tracks of a local publisher never looks at
  their owner: when the member leaves, the remote publisher loses its listeners
  (`MemberTakesTracksAlong`). An event keeps remote service if and only if it is harmless: a leave, a join
  over a member, the end of its track or screen, and an update that takes publish_audio while it
  publishes each need that nobody else is due a remote publisher registered under a key they remove
  (`StepServesRemotes`). In every run service is exact throughout if and only if every event was harmless
  (`ServedIffHarmless`).
- *Every connected member that may see a local screen is served.* The same gap: a viewer without join
  when the screen came up sees nothing once it is given join (`GrantedJoinSeesNothing`), with the same
  exact guard (`ScreenService.GrantableIsExact`).

## Histories

An invariant can hold of a state that no event asked for. So each state machine also has a history:
a list of facts, such as "s has unsubscribed that user's audio" or "k came up over session o", what
every event says of each fact, written without the functions that change the state, and a theorem
that in every run a fact holds exactly if an event has started it that no later event has ended
(`HistoryIsExact`; `CurrentIsLastUp` and `TracksAreLastChange` for the two schedules of threads and
frames). Joined with the service theorems this says in terms of the events alone whom packets reach
(`PacketsFollowEvents`, `SinksFollowEvents`, `RemotesFollowEvents`, `ScreensFollowEvents`,
`TapsFollowEvents`) and what an edge carries (`CarriedFollowsEvents`).

## Granularity

- What an event changes under the lock and the recompute that follows it are one step of
  `CascadeRuns.dfy`, although the lock is released in between. `SetCascadeEdges` is finer: the
  replacement of the edges is a step without a recompute, and each session it drops is closed by a
  step of its own, in any order and interleaved with anything else (internal/cascade/manager.go:160-177).
- In `MediaRuns.dfy` publishing, recomputing, a track coming up and a track ending are separate steps,
  a recompute may lag behind what made it due or find the lease expired, and signs of one track on one
  edge arrive in order; signs of different tracks do not wait for one another. Edges are up throughout.
- In `MediaFeed.dfy` a relay feeds every other edge that carries its key: the sinks of a remote track are
  derived anew by each recompute (`CascadeRooms.SinksAreExact`).
- In `RoomRuns.dfy` a local screen, or its companion, is present only through its end, which removes the
  down tracks of its key from everybody else; the end is a step of its own also when a caps update or a
  closing layer brings it about. Its layers and viewers are the subject of `ScreenService.dfy`.
- `recompute` and the want frames it queues are one step; the code sends after unlocking
  (internal/cascade/manager.go:672-682).
- Closing a session and `onEdgeClosed` are one step; closing a participant and
  `removeParticipant` are one step; `Join` is one step.
- `registerRemotePub`, track ends and edge closes are modelled at the granularity of their critical
  sections and atomic swaps, each thread ending with its recompute and that recompute's attempts in
  any order (`RemoteRegistration.dfy`); the room exists throughout.
- `edgeEstablished` is two steps: registering with its recompute, and the deferred close of the
  superseded session after which the read loop starts.
- Closing a room is an unlisting step followed by its members' closes in any order, interleaved
  with anything else (`Registry.dfy`).
- A change of the out tracks of an edge and the request to negotiate it are one step; the code adds and
  removes tracks one by one while an offer may be in the making (internal/cascade/edge.go:376-386).
- An out track for a local publisher is always set up; the code leaves it out when the publisher has
  just left the room and its end is about to be reported (internal/cascade/edge.go:520-526).
- Peer-connection operations succeed; a connection is its set of track keys and a signalling state.
- Clock readings, execution results of commands, and the demand of local listeners enter the
  cascade steps as parameters.

## Model

| member | source | states |
|---|---|---|
| Wants.EqualIsExtensional | internal/cascade/wantset.go:98-107 | Equal holds exactly when both demands accept the same uids, although uids are unbounded |
| Wants.IsNoneIsEmpty | internal/cascade/wantset.go:54-55 | IsNone holds exactly when no uid is wanted |
| Wants.Union | internal/cascade/wantset.go:62-96 | the union accepts exactly the uids accepted by either side |
| Wants.ComputeUnion | internal/cascade/wantset.go:62-86 | the map-filling loops compute the union, all four representation cases |
| Wants.UnionAllExceptOnly | internal/cascade/wantset.go:88-96 | the mixed case removes the wanted uids from the exceptions |
| Wants.SetEqual | internal/cascade/wantset.go:109-119 | equal sizes and one-way inclusion decide set equality |
| Wants.FoldAccepts | internal/cascade/manager.go:623-628 | a fold of unions accepts what its base or any member accepts |
| Wants.FoldOrderIrrelevant | internal/cascade/manager.go:623-628 | any order of the same sets gives an Equal result |
| Wants.SortedListIsUnique | internal/cascade/wantset.go:128-139 | a sorted duplicate-free list is determined by its elements |
| Wants.ToWire | internal/cascade/wantset.go:128-139 | the sorted list on the wire has exactly the payload's uids |
| Wants.WireRoundTrip | internal/cascade/wantset.go:128-147 | decoding an encoded demand gives back an Equal one |
| Wants.EqualIffSameWire | internal/cascade/wantset.go:98-139 | two demands are Equal exactly when their wire forms are identical |
| Demands.DemandEqualIsExtensional | internal/cascade/manager.go:629 | the change test on both dimensions is extensional equality |
| WantNetwork.RunKeepsInv | internal/cascade/manager.go:223-230 | in every run each node has announced its aggregate and each receiver has it, or the newest frame in flight does |
| WantNetwork.FixpointIsSideDemand | internal/cascade/manager.go:621-628 | any solution of the per-node equations on a forest accepts exactly what some node on that side of the edge demands |
| WantNetwork.FixpointIsUnique | internal/cascade/manager.go:621-628 | two solutions are Equal on every edge |
| WantNetwork.FixpointExists | internal/cascade/manager.go:621-628 | the equations have a solution on every forest |
| WantNetwork.QuiescentSolves | internal/cascade/manager.go:621-640 | with no frame in flight the announced wants solve the equations |
| WantNetwork.QuiescentWantsAreExact | internal/cascade/manager.go:223-230 | at rest the want sent and the want recorded on a->b accept exactly the topics demanded on a's side |
| WantConvergence.DeliveryShrinks | internal/cascade/manager.go:629-640 | on a forest every delivery lowers a natural-number measure of frames in flight |
| WantConvergence.DeliveriesAreBounded | internal/cascade/manager.go:629-640 | so no sequence of deliveries is longer than that measure |
| WantConvergence.WantsConverge | internal/cascade/manager.go:621-640 | and from every state deliveries reach rest without changing local demand |
| Delivery.RouteIsServed | internal/cascade/manager.go:588-618 | at rest, with nothing sent turned away: along a walk from publisher to demander each node has the track from the node before |
| Delivery.PresenceIsExact | internal/cascade/manager.go:588-618 | at rest, with nothing sent turned away: a track is present at a node exactly when that node is on the way to one demanding it |
| Delivery.ExactIffReceived | internal/cascade/manager.go:233-281 | at rest every track is present exactly where it should be if and only if nothing sent was turned away |
| Delivery.DemandIsMet | internal/cascade/manager.go:233-280 | likewise on a tree every demanding node has the track, from its neighbour towards the publisher |
| Delivery.NoIdleBranch | internal/cascade/manager.go:588-600 | an edge carries a track only if somebody beyond it demands it |
| Delivery.RestIsPossible | internal/cascade/manager.go:588-618 | a network at rest exists in which a track is delivered |
| MediaRuns.MediaStepKeepsInv | internal/cascade/manager.go:233-281 | every event keeps: the signs under way on an edge lead from what the receiver has open, held or drained, to what the sender sends; what a node that owes no recompute sends is what is wanted of it; what each event changes is MediaHistory.StepSays |
| MediaRuns.MediaRunKeepsInv | internal/cascade/manager.go:233-281 | so every state of every run does |
| MediaRuns.FreeIsNotRefused | internal/cascade/manager.go:311-323 | a track that is free at some node passes the loop defence wherever it arrives |
| MediaRuns.StepKeepsFree | internal/cascade/manager.go:588-618 | every event but another publication of it keeps a track free where it was |
| MediaRuns.NoArrivalIsRefused | internal/cascade/manager.go:239-260 | over a forest no arrival is refused in any run all of whose publications are free when made |
| MediaHistory.StepSays | internal/cascade/manager.go:202-281 | what each event does to what is published, sent, received and drained, and that it does nothing else to them; a recompute sends exactly the tracks the node has, not from that neighbour, whose user the neighbour's want accepts in the track's dimension |
| MediaHistory.HistoryIsExact | internal/cascade/manager.go:202-281 | in every run each of these holds exactly if an event has started it that no later event has ended |
| MediaHistory.PublishesWhatItSaid | internal/cascade/manager.go:202-213 | in every run a node publishes a track exactly if it has published it and not withdrawn it since, whatever else it published |
| MediaDelivery.ReceivedIffNoneDrained | internal/cascade/manager.go:256-260 | at rest all that is sent is held if and only if no refused track is being drained |
| MediaDelivery.ExactIffNoneDrained | internal/cascade/manager.go:233-281 | any run at rest with one publisher to a track has it present exactly where it is demanded if and only if nothing is being drained |
| MediaDelivery.CourteousRunsRest | internal/cascade/manager.go:233-281 | a run with free publications that has come to rest meets every hypothesis of the presence theorems |
| MediaDelivery.PresenceAfterRun | internal/cascade/manager.go:588-618 | such a run leaves a track present exactly at the nodes on the way to a demanding one; presence is the entry, packets are PacketsAfterRun |
| MediaDelivery.DemandMetAfterRun | internal/cascade/manager.go:233-280 | and on a tree every demanding node has its entry, from the next node towards the publisher |
| MediaGuard.FreeIsExact | internal/cascade/manager.go:202-213 | over a tree, publishing can lead to a refused arrival if and only if the track was not free at that node |
| MediaFeed.CarefulRunsFeed | internal/cascade/manager.go:602-618 | in every run whose publications find no edge of their node that relays the key, or would, nothing a recomputed node sends is starved |
| MediaFeed.PacketsAfterRun | internal/cascade/manager.go:588-658 | if those publications are free too, then at rest packets of a track reach another node, hop by hop through fed out tracks, exactly when it is on the way to a demanding one |
| StarvedHop.CarefulIsExact | internal/cascade/manager.go:202-213 | over a forest, publishing can leave an edge of the node that carries the key without packets if and only if some edge of it has the key as a relay or would be set up as one |
| StarvedHop.FreeIsNotEnough | internal/cascade/manager.go:614-618 | a run from the start whose publications are all free, ending with an edge that carries a published track no packet gets into |
| MovedPublisher.MovedTrackIsLost | internal/cascade/manager.go:311-323 | a run from the start, at rest with one publisher, in which the middle node demands a track, is sent it and lacks it |
| CascadeRooms.Collect | internal/cascade/manager.go:588-607 | the candidate loop keeps exactly the wanted tracks and counts the rest as pruned |
| CascadeRooms.DiffOut | internal/cascade/manager.go:609-618 | dropping and adding by difference leaves exactly the desired keys, kept entries untouched |
| CascadeRooms.AggregateWant | internal/cascade/manager.go:622-628 | the want loop computes local demand joined with every other established session's want |
| CascadeRooms.RecomputeSession | internal/cascade/manager.go:569-640 | one session's authorisation, out tracks, announcement and pruned count |
| CascadeRooms.RecomputeTable | internal/cascade/manager.go:568-644 | the session loop recomputes every registered session, and no other, with both totals |
| CascadeRooms.CollectSinks | internal/cascade/manager.go:648-656 | a remote track's sinks are the other sessions that carry it |
| CascadeRooms.RebuildSinks | internal/cascade/manager.go:647-658 | every remote track gets those sinks |
| CascadeRooms.DropUnmatched | internal/cascade/state.go:96-105 | applyEdges keeps and refreshes exactly the matching sessions and returns the others |
| CascadeRooms.RemoveOrigin | internal/cascade/manager.go:438-446 | exactly the remote tracks of the closed session go |
| CascadeRooms.OutTracksAreExact | internal/cascade/manager.go:569-618 | after recompute a session carries k exactly if the lease is unexpired and of the edge epoch, a want has been seen, and k is a local track or a remote one of other origin whose user that want accepts: audio by its audio half, a screen and its companion by its screen half |
| CascadeRooms.WantsAreExact | internal/cascade/manager.go:621-640 | after recompute the want announced on an edge accepts a user, in either dimension, exactly if the local listeners want it or the peer of another established session does, and a frame is queued exactly if none was sent or the last one says something else |
| CascadeRooms.SinksAreExact | internal/cascade/manager.go:647-658 | after recompute a remote track's sinks are exactly the other sessions whose out tracks hold it |
| CascadeRooms.EveryCandidateCountsOnce | internal/cascade/manager.go:588-619 | with local and remote keys disjoint, carried plus pruned is the number of candidates of a session |
| CascadeRooms.TotalsAddUp | internal/cascade/manager.go:568-619 | and over the room activeTracks plus prunedTracks counts every candidate once |
| CascadeObjects.RoomState.SetAnchorLease | internal/cascade/manager.go:116-128 | a step of the runs that keeps their invariant; an older epoch changes nothing, else the lease is in force and the verdict on forwarding is its; edges, register, tracks and wants stay |
| CascadeObjects.RoomState.ApplyEdges | internal/cascade/state.go:84-109 | a step that keeps the invariant; an older epoch changes nothing, else the edges are the last of each key in the list, stamped with the epoch, exactly the sessions whose ends or endpoint differ come off the register and stay to be closed, the others take over the new edge, and lease and tracks stay |
| CascadeObjects.RoomState.OnEdgeClosed | internal/cascade/manager.go:431-465 | a step that keeps the invariant; the session is off the register and exactly its remote tracks go: every other track keeps its id, publisher and origin, every other registration its place, and local tracks, lease, epoch, edges and wants stay |
| CascadeObjects.RoomState.EdgeEstablished | internal/cascade/manager.go:497-525 | a step that keeps the invariant; accepted exactly when an edge in force has the ends, endpoint and epoch of the session, which then is the registered one; else closed; other registrations, tracks, lease and edges stay |
| CascadeObjects.RoomState.OnPeerWant | internal/cascade/manager.go:223-230 | a step that keeps the invariant; a registered session then carries, under a valid lease, exactly the local tracks and those of other origin that the new want accepts in their dimension; the wants of other sessions, the register and all tracks stay |
| CascadeObjects.RoomState.OnRemoteTrack | internal/cascade/manager.go:233-278 | a step that keeps the invariant; refused exactly over a session that is not registered, for a track published here, and for one of another session; accepted it is registered with its id, publisher and origin; every other track and all else stays |
| CascadeObjects.RoomState.OnRemoteSpeakerEnded | internal/cascade/manager.go:418-428 | a step that keeps the invariant; the ended track is gone, one that has replaced it under its key stays, as do all other tracks and all else, and no session carries a key that no track has |
| CascadeObjects.RoomState.OnPublishChanged | internal/cascade/manager.go:202-213 | a step that keeps the invariant; the local tracks gain or lose exactly this one, all else stays, and an unpublished key that no remote track has is carried by no session |
| CascadeObjects.RoomState.Recompute | internal/cascade/manager.go:543-658 | the whole recomputation in place meets its specification; spelled out, an established session carries exactly what OutTracksAreExact says, and the register, tracks, lease, edges and peers' wants stay |
| CascadeRuns.StepKeepsInv | internal/cascade/manager.go:497-525 | every event keeps: sessions match current edges, a registered session is up and one that is up is started and not closed, a session reads only after the one it superseded is closed, derived state is up to date |
| CascadeRuns.RunKeepsInv | internal/cascade/manager.go:497-525 | so every reachable state satisfies all of this |
| CascadeRuns.SessionsMatchEdges | internal/cascade/state.go:86-116 | in every run each registered session's edge is in the current set with the same ends, endpoint and epoch, and the gauge is the number of registered sessions plus those dropped by an edge change and not yet closed |
| CascadeRuns.OutTracksStayExact | internal/cascade/manager.go:569-618 | the exact out-track set, by lease verdict, origin and the half of the want for the track's kind, holds in every reachable state, between recomputations too |
| CascadeRuns.ReapplyingDropsNone | internal/cascade/state.go:96-107 | re-applying the edges in force removes no session, whatever epoch and tokens |
| CascadeRuns.EpochsNeverDecrease | internal/cascade/state.go:75-109 | lease epoch and edge epoch never decrease along a run |
| CascadeRuns.RefusedChangesNothing | internal/cascade/state.go:76-89 | a command of an older epoch leaves the room as it was |
| CascadeRuns.VerdictHasSource | internal/cascade/manager.go:553-558 | whenever forwarding counts as authorised, the last recomputation found a valid lease of the edge epoch |
| CascadeRuns.AuthorisedEpochsNeverDecrease | internal/cascade/state.go:71-73 | sessions active at two moments are so by verdicts whose lease epochs are in order |
| CascadeRuns.WatchdogSettles | internal/cascade/manager.go:686-716 | after a tick the stored verdict and every `active` agree with the lease at the time read |
| CascadeHistory.KeyedLast | internal/cascade/state.go:90-95 | the new edge set has for each key the last edge of the list with that parent and child, stamped with the epoch |
| CascadeHistory.StepSays | internal/cascade/manager.go:116-525 | what each event does to lease, epoch, edges, register, closed sessions, wants, local and remote tracks, and that it does nothing else to them; a remote track goes only by its own end, the close of its session, or a new one of that session under its key |
| CascadeHistory.HistoryIsExact | internal/cascade/manager.go:116-525 | in every run each of these holds exactly if an event has started it that no later event has ended |
| CascadeHistory.TrackOutlasts | internal/cascade/manager.go:418-447 | in every run a remote track stays, with its origin, until it ends or that session is closed |
| CascadeHistory.CarriedFollowsEvents | internal/cascade/manager.go:569-618 | in every reachable state a registered session carries, while authorised, exactly what its peer's last want accepts of the tracks published and not withdrawn, and of those that came up over another session and neither ended nor lost it since |
| CascadeEcho.EchoNeedsLingering | internal/cascade/manager.go:497-525 | an echo needs an origin that is off the register, unclosed, and not the session its carrier waits for |
| CascadeEcho.EchoIff | internal/cascade/manager.go:588-607 | a recomputation echoes a track exactly when authorised, its want half accepts the user, and its only source is an unclosed earlier session of that edge |
| CascadeEcho.PoliteRunsNeverEcho | internal/cascade/manager.go:160-177 | no run echoes in which an edge is registered only when no remote track is left of its earlier sessions, superseded or dropped |
| EchoGuard.UnhurriedIsExact | internal/cascade/manager.go:497-525 | after such a run, registering a session can lead to an echo if and only if a remote track is left of an earlier session of its edge |
| EchoGuard.RecomputeExists | internal/cascade/manager.go:543-658 | every state meeting the invariant has a recomputation |
| EchoWitness.EchoIsReachable | internal/cascade/manager.go:506-520 | a run from the empty room in which an overtaking connection echoes |
| EchoWitness.MovedEdgeEchoes | internal/cascade/manager.go:170-174 | a run in which the new connection of an edge with a changed endpoint echoes the old one's track |
| CascadeFeed.StarvedIff | internal/cascade/manager.go:609-658 | in every reachable state a carried track is unfed exactly when its out track was set up as a relay and no remote track of other origin is left |
| CascadeFeed.CarefulRunsFeed | internal/cascade/manager.go:202-213 | in every run that publishes a key only when no remote track of it is left, every carried track is fed by the source it has |
| FeedGuard.CarefulIsExact | internal/cascade/manager.go:202-213 | after such a run, publishing a key can leave it carried and unfed if and only if a remote track of it is left |
| FeedGuard.PublishedOverRelay | internal/cascade/manager.go:609-618 | in any run: a relayed key that is published here goes on being carried after its remote track ends, and nothing feeds it |
| FeedGuard.StarvationIsReachable | internal/cascade/edge.go:520-528 | a run from the new room that ends with a published track carried and unfed |
| CascadeRefinement.RecomputeRefines | internal/cascade/manager.go:621-640 | a room's recomputation is a recomputation of its node in the want protocol |
| CascadeRefinement.PeerWantRefines | internal/cascade/manager.go:223-230 | a want frame arriving is a delivery of the want protocol |
| CascadeRefinement.RecomputeRefinesNamed | internal/cascade/manager.go:621-640 | the same with links named by neighbour instead of edge key |
| CascadeRefinement.SendsAsRelay | internal/cascade/manager.go:588-618 | a recomputed session carries exactly what the media plane's recomputation sends to that neighbour |
| CascadeRefinement.SetUpAsRelay | internal/cascade/manager.go:588-618 | a kept out track stays as it was set up, and a new one is set up on the local publisher exactly where the media plane's is |
| CascadeRefinement.AcceptsAsRelay | internal/cascade/manager.go:311-323 | a registered session's loop defence is the media plane's |
| CascadeRefinement.PublishRefines | internal/cascade/manager.go:202-213 | publishing in a room whose place in the media plane is some relay leads to exactly the place the plane's own publication leads to |
| CascadeRefinement.UnpublishRefines | internal/cascade/manager.go:202-213 | likewise withdrawing |
| CascadeRefinement.TrackUpRefines | internal/cascade/manager.go:239-278 | likewise a track coming up over a registered session, accepted or refused |
| CascadeRefinement.TrackEndRefines | internal/cascade/manager.go:418-428 | likewise its end, when the room still has that track object exactly if the plane's node does not drain it |
| DueTracks.DueIsCarried | internal/cascade/manager.go:588-600 | a member is due a track of a user; its node's recompute announces a want; the neighbour that takes it under a valid lease then carries every such track it has, not from there: rights, marks, want halves and kinds spelled out |
| DueTracks.DuePacketsArrive | internal/cascade/manager.go:588-658 | on a tree, after a run of free and careful publications at rest, packets of what was published and not withdrawn reach every other node with a member due them |
| EdgeNegotiation.EdgeLink.Retrack | internal/cascade/edge.go:361-374 | a change at either end keeps the edge invariant and is answered, on its way, or due in a follow-up |
| EdgeNegotiation.EdgeLink.RunNegotiation | internal/cascade/edge.go:376-398 | a spawned negotiation always finds its connection stable and brings the edge closer to rest |
| EdgeNegotiation.EdgeLink.Deliver | internal/cascade/edge.go:195-450 | no frame is ever out of place at either end, each delivery brings the edge closer to rest, and at rest each end has received what the other sends |
| EdgeNegotiation.EdgeSession.Retrack | internal/cascade/manager.go:608-643 | the out tracks become the desired set, with one request if anything changed |
| EdgeNegotiation.StepKeepsInv | internal/cascade/edge.go:361-450 | each direction has at most one of spawned negotiation, offer, answer, exactly while negotiating; no wrong-state description is ever applied |
| EdgeNegotiation.EveryRunIsSound | internal/cascade/edge.go:361-450 | this holds after every interleaving of changes, negotiations and deliveries |
| EdgeNegotiation.IdleIsSynchronised | internal/cascade/edge.go:401-420 | when all is idle the last answered offer is the sender's current track set and the receiver has it, which is the set that end was last changed to |
| EdgeNegotiation.TracksAreLastChange | internal/cascade/manager.go:608-643 | in every interleaving what an end sends is what it was last changed to: no negotiation, offer or answer alters it |
| EdgeNegotiation.SettlesQuickly | internal/cascade/edge.go:361-420 | without further changes an edge takes at most twelve steps to rest |
| EdgeNegotiation.StuckIsIdle | internal/cascade/edge.go:361-420 | and it stops only when idle |
| RemoteRegistration.StepKeepsInv | internal/cascade/manager.go:248-307 | every step of every thread keeps: each listed publisher is in exactly one hand, a stale handle is watched by a thread that will take it out, and a current speaker without a handle is to be registered, or a recompute is to come, or its key is taken, or a clean-up without recompute laid it bare |
| RemoteRegistration.OnlyHolderOfKey | internal/room/cascade_api.go:106-113 | two hands never hold publishers of one key |
| RemoteRegistration.RestingRoomIsClean | internal/cascade/manager.go:418-459 | at rest, under every interleaving, the room lists exactly the publishers held by current speakers; who is current is RegistrationHistory.CurrentIsLastUp |
| RegistrationLoss.LostIffEndsBare | internal/cascade/manager.go:284-307 | at rest a current speaker has no publisher if and only if the schedule ends, for its key, with a clean-up that no recompute of its thread follows and no scan or registration after it |
| RegistrationLoss.LossNeedsStaleRetry | internal/cascade/manager.go:659-677 | without a recompute's registration of the key found stale, every current speaker at rest has its publisher listed |
| RegistrationLoss.RegistrationCanBeLost | internal/cascade/manager.go:268-307 | a schedule in which every thread has made its closing recompute and the current speaker has no publisher |
| RegistrationLoss.OneMoreRecomputeRepairs | internal/cascade/manager.go:659-677 | from any state at rest one more recompute left alone gives every current speaker a publisher |
| RegistrationHistory.CurrentIsLastUp | internal/cascade/manager.go:248-280 | over every schedule a speaker is current exactly if it is the last to come up under its key and nothing has ended it since |
| RegistrationHistory.RestingRoomFollowsActions | internal/cascade/manager.go:418-465 | at rest every listed publisher and every handle is that of the last speaker to come up under its key and not ended since, and of all publishers ever registered exactly the listed ones are open |
| RegistrationHistory.EndedIsGone | internal/cascade/manager.go:418-465 | a speaker that is ended at any point, before or after a publisher was registered for it, is at rest current under no key and without handle, and that publisher is unlisted and closed |
| RoomObjects.RebuildFanout | internal/room/room.go:261-284 | the snapshot loop collects exactly the listening down tracks, and the sinks of an entitled publisher |
| RoomObjects.RebuildRemoteFanout | internal/room/cascade_api.go:259-283 | likewise for a remote publisher, down tracks it owns only |
| RoomObjects.SubscriptionMask | internal/room/manager.go:280-299 | both dimensions when no kind is named, else exactly the named ones |
| RoomObjects.EnsureSubscribers | internal/room/room.go:152-160 | every other member gets the track it lacks, then the snapshot is rebuilt |
| RoomObjects.DetachPublisher | internal/room/room.go:250-258 | the snapshot and every other member's track of the publisher go |
| RoomObjects.EnsureLocalTracks | internal/room/room.go:163-184 | a member gets exactly the tracks it lacks of the given publishers |
| RoomObjects.EnsureRemoteTracks | internal/room/cascade_api.go:173-231 | tracks of registered remote publishers are taken over or made |
| RoomObjects.Mark | internal/room/room.go:295-323 | marks of the masked dimensions, and `active` on exactly that user's tracks of them |
| RoomObjects.Strip | internal/room/room.go:402-413 | losing subscribe_audio removes every audio down track and no other |
| RoomObjects.FanoutIgnoresSnapshots | internal/room/room.go:261-284 | snapshots depend on tracks, marks and caps only, so rebuild order is irrelevant |
| RoomObjects.RoomObject.OnAudioTrack | internal/room/room.go:103-119 | an audio track starting, with and without the publish right, keeping local, sink and remote service exact |
| RoomObjects.RoomObject.OnAudioTrackEnded | internal/room/room.go:127-135 | an audio track ending, keeping local and sink service exact, and remote service if and only if no remote copy of that audio is due to anybody else |
| RoomObjects.RoomObject.OnScreenEnded | internal/room/screen.go:316-330 | a screen or its companion ending takes that track from everybody else; remote service survives if and only if no remote copy of it is due |
| RoomObjects.RoomObject.OnConnected | internal/room/manager.go:259-268 | the first connection attaches all publishers, keeping local, sink and remote service exact |
| RoomObjects.RoomObject.SetSubscription | internal/room/room.go:291-372 | subscribing clears and unsubscribing sets the marks of the masked dimensions of that user; every other mark, right and flag of anybody stays and no down track is replaced; local, sink and remote service stay exact |
| RoomObjects.RoomObject.ApplyCaps | internal/room/room.go:375-430 | full caps replacement keeps local and sink service exact, and remote service if and only if the update is grantable and takes no due remote track along |
| RoomObjects.RoomObject.AddRemotePublisher | internal/room/cascade_api.go:93-121 | a duplicate key is refused and changes nothing; else the key is registered, down tracks are taken over, not replaced, everybody's rights, marks and other registrations stay, and members are attached and served exactly |
| RoomObjects.RoomObject.CloseRemotePublisher | internal/room/cascade_api.go:148-162 | the publisher is silent and its key free for the next one, every member keeps its down track, and all other service stays exact |
| RoomObjects.RoomObject.RemoveParticipant | internal/room/room.go:467-498 | the member and every down track of it go; local and sink service stay exact, and remote service if and only if nobody else is due a remote track of that session |
| RoomObjects.RoomObject.AddParticipant | internal/room/manager.go:156-215 | a newcomer, after a member of the same session id has been removed, with the same condition on remote service |
| RoomObjects.RoomObject.AttachCascadeSink | internal/room/cascade_api.go:306-322 | a sink joins and is served; refused for an absent publisher |
| RoomObjects.RoomObject.DetachCascadeSink | internal/room/cascade_api.go:324-341 | a sink leaves; service stays exact |
| RoomRuns.StepServes | internal/room/room.go:103-430 | every operation keeps the cached service exact |
| RoomRuns.CachedForwardingIsExact | internal/room/forward.go:23-27 | in every reachable state a packet is written to another live connected member's down track exactly when the publisher is publishing and ShouldForward holds on current caps and marks |
| RoomHistory.SubscriptionMarks | internal/room/room.go:291-330 | what a subscription change does to marks: the masked dimensions of that user on that member, and nothing else of anybody |
| RoomHistory.SubscriptionKeeps | internal/room/room.go:291-372 | and to down tracks: nobody loses or exchanges one |
| RoomHistory.StepSays | internal/room/room.go:103-498 | what each operation does to who is here, caps, connection, publishing, marks, sinks and registrations, and that it does nothing else to them |
| RoomHistory.HistoryIsExact | internal/room/room.go:103-498 | in every run each of these holds exactly if an event has started it that no later event has ended: the mark of a user is that of the last subscription change naming it since the member joined |
| RoomHistory.PacketsFollowEvents | internal/room/forward.go:23-27 | in every run a packet of p is written to another connected member exactly if p's last audio track has not ended, the caps last given to both allow it, and the member's last subscription change naming p's user and audio was no unsubscribe |
| RoomHistory.SinksFollowEvents | internal/room/room.go:277-283 | likewise to a sink: publishing, entitled, and attached last |
| RoomHistory.RemotesFollowEvents | internal/room/cascade_api.go:165-283 | likewise a packet of the remote publisher registered last, while every event was harmless |
| SinkService.SinksAreExact | internal/room/room.go:277-283 | in every reachable state it reaches exactly the attached sinks, while publishing and entitled |
| RemoteTakeover.StepServesRemotes | internal/room/cascade_api.go:93-231 | an operation keeps the current registrations' service exact if and only if it is harmless: grantable if it is a caps update, and removing no due remote track under the key of a local publisher |
| RemoteTakeover.LeaveServesExactly | internal/room/room.go:490-497 | a leave keeps remote service if and only if nobody else is due a publisher registered under a key of that session |
| RemoteTakeover.TrackEndServesExactly | internal/room/room.go:233-258 | an audio track's end keeps it if and only if it detaches nothing or no remote copy of that audio is due to anybody else |
| RemoteTakeover.ScreenEndServesExactly | internal/room/screen.go:316-330 | likewise a screen's end, for the key of that screen |
| RemoteTakeover.ServedIffHarmless | internal/room/room.go:103-498 | in every run remote service is exact in all states so far if and only if every event so far was harmless |
| RemoteTakeover.CapsServeExactly | internal/room/room.go:401-428 | after a caps update a remote publisher's packets reach the member exactly when due and either subscribe_audio was just gained or the track was already held |
| RemoteTakeover.GrantableIsExact | internal/room/room.go:401-428 | a caps update keeps remote service exact if and only if it is grantable and, where it silences the member, no remote copy of its audio is due to anybody else |
| RemoteTakeover.TakeOverIsExact | internal/room/cascade_api.go:173-283 | over any sequence of closes and re-registrations mixed with harmless events the current remote publisher reaches exactly the live connected members remoteShouldForward admits |
| RemoteTakeover.OneWriterPerTrack | internal/room/cascade_api.go:259-283 | no down track is in the snapshots of two live remote publishers |
| RemoteTakeover.RegrantedJoinIsNotServed | internal/room/room.go:401-419 | a run from the new room in which join is taken and given back and a screen registered meanwhile is due and not written |
| RemoteTakeover.MemberTakesTracksAlong | internal/room/room.go:490-497 | a run from the new room in which a session joins while a track of it is registered as remote, leaves again, and the remote track is due and not written |
| LocalDemand.LocalDemand | internal/room/cascade_api.go:373-427 | the loops find a listener if any, and exclude x exactly when some listener unsubscribed x and every listener other than x did |
| LocalDemand.DemandIsExact | internal/room/cascade_api.go:357-427 | the announced local want accepts x exactly when somebody listens and x is not excluded: somebody other than x listens and has not unsubscribed x, or no listener has |
| LocalDemand.DocumentationIsWider | internal/room/cascade_api.go:357-363 | the comment's condition differs only when x alone listens, unmarked |
| LocalDemand.PruningIsSound | internal/room/cascade_api.go:165-170 | whoever would be forwarded a remote track, other than its speaker, makes the want accept it, audio and screen |
| Screens.PickIsBest | internal/room/screen.go:384-394 | the requested layer if up, else the best one; none only if none is up |
| Screens.RidIsNamed | internal/room/screen.go:43-53 | the rids of each quality, and that no other rid has one |
| Screens.RebuildScreenFanout | internal/room/screen.go:335-381 | every layer's new snapshot is its bucket; with no layer nothing changes |
| Screens.EachEntryInOneLayer | internal/room/screen.go:350-376 | each eligible viewer is in exactly the layer it picks, each sink in the best one, nobody else in any |
| Screens.SizesAddUp | internal/room/screen.go:350-380 | the bucket sizes add up to eligible viewers plus sinks |
| Screens.ScreenPlane.OnScreenTrack | internal/room/screen.go:77-118 | admission by right, rid and transceiver: which rids register which quality, that further rids of the first one's transceiver join, that only the first counts, and that nothing else changes |
| Screens.ScreenPlane.OnLayerEnded | internal/room/screen.go:131-146 | a layer's end takes out that layer only if it is still the registered one; the last one finishes the screen |
| Screens.ScreenPlane.FinishScreenPublish | internal/room/screen.go:162-180 | the screen is down, the counter falls by one exactly if it was up and a second call changes nothing; the plane is in order again if it was up to that participant |
| Screens.ScreenPlane.ApplyScreenCaps | internal/room/screen.go:424-435 | losing publish_screen finishes the screen and stops its transceiver |
| Screens.ScreenTracksIsExact | internal/room/screen.go:77-180 | in every run screenTracks is the number of participants with a screen up, each present and entitled, up exactly while a layer is |
| ScreenService.StepServes | internal/room/screen.go:250-381 | every change of viewers, marks, layers, sinks and rights keeps a local screen's snapshots exact, a viewer's caps update if it is grantable |
| ScreenService.ScreenServiceIsExact | internal/room/screen.go:335-381 | in every reachable state a packet of a layer reaches a connected viewer exactly when the screen is due to it and the layer is its pick |
| ScreenService.GrantableIsExact | internal/room/room.go:401-425 | a viewer's caps update keeps this if and only if it is grantable |
| ScreenService.GrantedJoinSeesNothing | internal/room/room.go:401-425 | a run in which a viewer given join after the screen came up is due every layer's packets and written none |
| ScreenHistory.StepSays | internal/room/screen.go:77-435 | what each event does to the right to share, layers, viewers, marks, layer choices and sinks, and that it does nothing else to them |
| ScreenHistory.HistoryIsExact | internal/room/screen.go:77-435 | in every run each of these holds exactly if an event has started it that no later event has ended |
| ScreenHistory.ScreensFollowEvents | internal/room/screen.go:335-394 | while caps updates are grantable, a packet of a layer reaches a connected viewer exactly if sharing and join were given last, the video was not unsubscribed last, and the layer is the one chosen last or, that not being up, the best one up |
| ScreenHistory.TapsFollowEvents | internal/room/screen.go:369-376 | likewise a sink: attached last, sharing allowed, no better layer up |
| Registries.IndexIsDisjointUnion | internal/room/manager.go:99-101 | the session index is the disjoint union of the members of all room objects |
| Registries.DrainingKeepsRooms | internal/room/room.go:475-479 | closing a member of a removed room unlists nothing |
| Registries.DrainRoom | internal/room/manager.go:327-347 | closing a room empties it and touches no other room and no other session |
| Registries.VerdictIsExact | internal/room/manager.go:153-177 | a join is accepted exactly if the node is not draining and has room or no limit, or the session reconnects: its old one gives way first |
| Registries.JoinSays | internal/room/manager.go:153-222 | a refused join changes nothing; an accepted one indexes and enters the session, closes its old one, and leaves every other session's entry |
| Registries.ClosePartSays | internal/room/room.go:467-486 | a close takes exactly that session off the index, and unlists exactly a room nobody ensured of which it was the last member |
| Registries.Manager.Join | internal/room/manager.go:152-219 | draining and capacity refusals, which change nothing; a reconnect is let in even when full, the superseded session closed first; implicit rooms; no other session's entry changes |
| Registries.Manager.ClosePart | internal/room/room.go:467-486 | a member leaves; an empty room nobody ensured is unlisted once |
| Registries.Manager.EnsureRoom | internal/room/manager.go:315-324 | a listed room is marked ensured, a missing one created so |
| Registries.Manager.CloseRoom | internal/room/manager.go:327-347 | the registry-wide effect of closing a room |
| Registries.RegistryIsCoherent | internal/room/manager.go:152-237 | in every run index and rooms agree, a positive limit holds, listed rooms are ensured or in use, both gauges are the map sizes |
| AckCaches.AckCache.Record | internal/control/dedup.go:34-49 | the eviction loop keeps a duplicate-free queue of exactly the cached ids, at most limit long |
| AckCaches.AckCache.HandleCommand | internal/control/client.go:304-312 | a cached id is answered from the cache and changes nothing; any other is executed, answered with its own result and recorded last in the window; no other record changes |
| AckCaches.PutKeepsValid | internal/control/dedup.go:34-49 | the window invariant survives every record |
| AckCaches.ReexecutionNeedsAWindow | internal/control/dedup.go:9-17 | between two executions of one non-empty id at least limit other distinct ids were executed |
| AckCaches.ReplayIsFaithful | internal/control/client.go:304-308 | a repeat inside the window is not executed and gets the recorded answer |
| AckCaches.AnswersComeFromExecutions | internal/control/client.go:304-312 | every command is answered with the result of the last execution of its id: its own if it is executed |
| Tracks.SplitThenJoin | internal/room/track.go:26-46 | the key of what a string splits into is that string |
| Tracks.JoinThenSplit | internal/room/track.go:26-46 | splitting a key gives back sid and kind: always for screens, for audio exactly when the sid ends in neither suffix |
| Tracks.KeysAreInjective | internal/room/track.go:26-46 | over suffix-free sids keys are injective |

## Left out

- Closing a room in the cascade manager, and several rooms at once: runs of `CascadeRuns.dfy` are those of one room between closes.
- kind_mismatch in onRemoteTrack: whether a track's media type fits its key is decided by the media library.
- The decoder of want frames: equality of decoded and sent demand is a hypothesis of a delivery, and what the codec itself promises is proved in `WantSet.dfy`.
- The dialing loop's liveness: its exit test and its removal from the dialing set are separate critical sections.
- TLS, certificates, tokens and their checks: a handshake is enabled for any edge in the current set.
- Network theorems on topologies with cycles: origins are one per key and node, not globally acyclic.
- OnPublishChanged does not check for a remote track of the same key, so disjointness of local and remote keys is a hypothesis of the counting results.
- RemoteTakeover.TakeOverIsExact: assumes that a session id keeps its user.
- RoomRuns.CachedForwardingIsExact: assumes that a session id keeps its user; entries of departed members may stay in a snapshot and are not compared.
- AckCaches.AckCache.Record: for a window of at least one; with limit zero the queue stays empty while the map keeps the last entry.
- CascadeRooms.OutTracksAreExact: an out track for a local publisher is taken to be set up; the code leaves it out when AttachCascadeSink finds the publisher already gone, until its end is reported.
- CascadeRuns.OutTracksStayExact: as above.
- MediaDelivery.DemandMetAfterRun: about entries, not packets; those need careful publications too and are the subject of `MediaFeed.dfy`.
- MediaDelivery.PresenceAfterRun: about entries, as above; edges stay up and sessions keep their users; tracks of an edge that goes down are the subject of `CascadeRuns.dfy`.
- The companion audio track of a screen: `ScreenService.dfy` is about the video layers.
- Registries.Manager.Join: the snapshot of members returned to the client and the broadcast are not modelled.
- Snapshots and buckets are sets: the order of entries in a snapshot is not captured.
- RTP parsing, codecs, keyframe throttling, speaking detection, RTT, path and bandwidth statistics: timing or foreign libraries.
- Metrics other than the edge, room, participant and screen counters and the active and pruned track totals.
- Audit recording, migration marks, control-channel plumbing around handleCommand, configuration, binary update.
