# litekvd, modelled and proved in Dafny

litekvd replicates a key-value log from a leader to followers over HTTP, holds a write back until
enough followers have it, and has a separate controller that fails the cluster over. This project
models the protocols that make that safe, and the byte-level code under them, and proves what they
promise. Where the code falls short of what its comments or its README say, the model keeps the
code, an input that shows it is given as a lemma, and the exact condition under which the promise
holds is proved beside it.

    dafny verify dfyconfig.toml

## The files, and what each is about

| file | about |
|---|---|
| `Base.dfy`, `Engine.dfy` | bytes, positions, and what is assumed of the storage engine |
| `Frames.dfy`, `FrameIO.dfy` | the framing of a stream, and the reader and writer that run it a chunk at a time |
| `Following.dfy` | the follower: a connection's bytes applied to a store |
| `Replication.dfy` | leaders, a connection and a follower as a state machine |
| `Replicas.dfy` | that such a follower is a replica of the kind promises are made about |
| `Serving.dfy` | one stream on the leader's side: who is refused, and what becomes of files and holds |
| `Registry.dfy` | who has got how far, writes that wait on it, and the follower's nudge |
| `SemiSync.dfy`, `Survival.dfy` | what a 204 is worth after a failover, and exactly when it survives one |
| `Lease.dfy` | mutual exclusion of controllers |
| `Controller.dfy`, `Choosing.dfy`, `Rounds.dfy`, `Failover.dfy`, `Grace.dfy`, `Stints.dfy` | the controller's policy, call by call, and what it keeps over whole runs |
| `Roles.dfy`, `Cluster.dfy` | following, promoting, joining, and the streams between nodes |
| `Wire.dfy`, `Numbers.dfy`, `Scan.dfy`, `Batch.dfy` | text and base64url, decimal limits, ranges and paging, the batch parser |

Code that changes state in place is a class whose methods are tied to functions of the old state
(`Follower`, `Reader`, `Writer`, `Followers`, `Controller`, `Server`, `Scanner`); protocols with more
than one party are state machines whose runs are arbitrary sequences of events, events that cannot
happen being skipped.

## Assumptions

- The storage engine (`litekv.DB`) is not part of the repository. `Engine.Apply` and
  `Engine.ApplySnapshot` say what is asked of it: both refuse a leader on an older term; a batch is
  taken whole, and only if it starts where the store is and its records carry on from there; a
  snapshot empties the store before it reads, and one that is torn or cannot be decoded leaves it
  empty at position zero (README.md:659-661). A leader streams only from a position on its own
  history and not below its compaction floor, and otherwise reports divergence. Record formats and
  the encoding of a position are parameters; only `Frames.ReadsBack` and `Frames.Canonical` are asked
  of the latter, and only where they are named.
- A position is a term and a sequence number. Its segment and offset are not compared by any of the
  code modelled here.
- There is one leader to a term in `Replication`. `Stints` shows when the controller provides that.
- A candidate's store term is the term of its applied position, and a replica that is mid-snapshot
  reports that it has applied nothing (server/role.go:341, 355-356). `SemiSync.Agrees` is that
  assumption; it says nothing of nodes that may not be chosen, such as an old leader that answers.
- A controller asks first and acts later, each node at a moment of its own, and a leader it could not
  reach may go on answering 204 meanwhile (cmd/litekv-controller/controller.go:149-178, 340-344).
  `SemiSync.AcknowledgedWriteSurvives` and `SemiSync.Survives204` are about writes the replicas they
  count held when they were asked; `Survival` says exactly what becomes of the others.
- Stopping a follower is one step, and role changes on one node do not overlap. The code clears the
  role before the follower's goroutine has exited (server/role.go:222-233).
- Clocks run at the same rate; their offsets are arbitrary, and a controller that restarts under its
  own identity is back on the same clock. Lease durations are not negative. The
  API server answers reads and versioned writes of the Lease one at a time.
- JSON, the trimming of white space and the reading of a time are parameters of `Batch`. The line
  reader is its lines, how reading ends, and from which line on that is known: an error of the
  reader arrives along with the last bytes read, so it can be known some lines before the end.

## What the code does not quite promise

- A follower keeps its id when it dials again, so the end of its old stream, noticed late, removes
  the new one from the registry (`Registry.LateDetachForgetsALiveStream`). It counts exactly if its
  registering came last (`Registry.RegisteredIffAttachedLast`).
- "204: a failover will not lose it" (README.md:606) fails in four ways, each given as a run that
  ends with a node promoted that lacks the write. It counts registered ids, of which two can be one
  replica (`Survival.OneReplicaCountsTwice`), and a follower that asked from nowhere is registered at
  its snapshot's position before it has it (`Survival.AnEmptyReplicaCounts`); the count is a count of
  replicas exactly if neither happens (`SemiSync.CountsReplicasIff`). A write can be answered after
  the candidates were asked (`Survival.AnsweredAfterThePoll`, `Survival.BeyondThePoll`), and a
  candidate emptied by a snapshot after it was (`Survival.EmptiedAfterThePoll`). Whatever is asked
  when, a write survives the loss of any fewer replicas than were waited for exactly if each replica
  without it was, when asked, behind that many others (`Survival.SurvivesIff`); if nothing changes
  after asking, exactly if that many held it when they were asked, or all did
  (`Survival.HeldWhenAskedIff`). Having the leader stop answering before anybody is asked is one
  way to be sure of that many (`Survival.CountedWellSurvives`).
- The grace period is not tied to the leader it is about: a controller that stood by while the
  Service was moved keeps its clock, and may fail over the new leader at its first silence
  (`Grace.GraceIsNotPerLeader`). A leader is sure of its own grace exactly if no other was named
  before it, or it has been named for that long, or the rounds do not go back that far
  (`Grace.GraceIsPerLeaderIff`).
- A failover interrupted after its promotion is resumed on the same pod exactly while that pod stays
  eligible (`Failover.ResumesIffStillEligible`); if it goes silent another is promoted, possibly to
  the same term (`Failover.SilentPromotedPodIsReplaced`).
- Terms of successive leaders increase exactly if some eligible candidate has kept up with the one
  replaced (`Stints.PromotionOvertakesIff`, `Stints.StintsCanShareATerm`).
- A node that joined by `POST /v1/follow` never fences the node that was asked exactly if it dials
  that node itself, or there is no third node to lead in between, or it was told to follow itself
  (`Cluster.JoinedNeverFencesIff`). The controller hands out the Service's address
  (cmd/litekv-controller/controller.go:477-490), and with that there is a run in which it does
  (`Cluster.ServiceFollowerCanFence`).
- The newest position a follower stores is always what its last request carried, but a request that
  fails is not made again of itself (`Registry.NoNudgeIsLost`, `Registry.AFailedRequestIsNotRetried`);
  a nudge left over may happen to carry it once more (`Registry.ALeftOverNudgeTriesAgain`). The leader
  has heard the newest exactly if some request that carried it arrived (`Registry.HeardIffCarried`,
  `Registry.MissedIffAllFailed`).
- The Lease excludes exactly if the delay from sampling the clock to the read being served, plus half
  the lease duration, is within the duration rounded down to whole seconds (`Lease.BoundIsExact`).
- base64url is decoded leniently: line ends are skipped and left-over bits ignored
  (`Wire.TwoSpellingsOfAByte`). Re-encoding restores what was read exactly if there were none
  (`Wire.ReencodesIff`).

## Model

| member | source | states |
|---|---|---|
| Base.ReachesIsATotalOrder | server/acks.go:194-199 | "has reached" is a total preorder on term then number, ties are equalities, and everything reaches the zero position |
| Engine.ReplayConcat | server/follower.go:354-462 | replaying one run of operations after another is replaying both, so a store that carries on is the store that started over |
| Frames.LittleEndianRoundTrip | server/replica.go:123-139 | a length written in eight little-endian bytes is read back |
| Frames.FromLittleEndianRoundTrip | server/replica.go:170-189 | every eight bytes read as a length are the ones it would be written as |
| Frames.LittleEndianIs | server/replica.go:123-139 | which byte of a length goes where: the least significant first |
| Frames.HeaderIs | server/replica.go:123-139 | a header is the kind, one of three letters for the kinds there are, the position as the engine writes it, and the length |
| Frames.RefusedFor | server/replica.go:150-216 | exactly which bytes are taken as a frame, and as what the others are refused: ended, torn, broken, an unknown position, a length too large |
| Frames.HeaderReadsBack | server/replica.go:170-189 | a written header reads back whatever follows it, and is refused exactly if it promises more than the reader takes |
| Frames.CutStreamReadsItsWholeFrames | server/replica.go:141-161 | written frames cut at any byte read as exactly the whole frames before the cut, ending cleanly on a boundary and torn anywhere else |
| Frames.WholeFramesIsTheMost | server/replica.go:150-161 | the frames counted as whole fit before the cut, and one more would not |
| Frames.WrittenFramesReadBack | server/replica.go:123-161 | the concatenation of any written frames reads back as those frames and nothing else, to the last byte |
| Frames.AcceptedFrameReencodes | server/replica.go:150-161 | whatever bytes arrive, a frame accepted re-encodes to the bytes it consumed |
| Frames.AcceptedStreamReencodes | server/replica.go:150-161 | the frames accepted off any bytes account for a prefix of them, and for all of them if the stream ended cleanly |
| FrameIO.Writer.WriteFrame | server/replica.go:123-139 | a frame succeeds exactly if all of it went out; otherwise what went out is a prefix of its encoding |
| FrameIO.Writer.WriteFrameFrom | server/replica.go:253-281 | a spooled snapshot goes out as one frame exactly if it is as long as was promised and all of it fitted |
| FrameIO.Reader.TakeHeader | server/replica.go:170-189 | the header read off a connection is the one the bytes hold, with every error in its place |
| FrameIO.Reader.TakePayload | server/replica.go:197-216 | however many chunks it takes, the payload is the next bytes or an error that is never a clean end, and no more room is asked for than a chunk beyond what arrived |
| FrameIO.Reader.TakeFrame | server/replica.go:150-161 | the frame reader as run computes the specification's frame and leaves the rest |
| Following.Follower.Stream | server/follower.go:417-461 | the follower's loop, chunk by chunk, does to its store exactly what the connection's bytes say |
| Following.Follower.TakeSnapshot | server/follower.go:480-491 | a snapshot is applied off the wire; one cut short empties the store, and an error of the connection outranks the store's |
| Following.ConnectionDeliversFrames | server/follower.go:354-462 | a connection cut at any byte does what its whole frames do and then nothing more, except that a cut snapshot empties the store |
| Following.WholeConnectionDeliversAll | server/follower.go:417-461 | bytes that hold whole frames do what those frames do one after another, and then what the rest does |
| Following.TornSnapshot | server/follower.go:480-491 | a snapshot cut short is told to nobody, empties the store it was for, and is reported as the connection's failure if that had one |
| Following.BatchesAreTakenWhole | server/follower.go:440-461 | a batch the store refuses changes nothing and ends the stream; one it takes is told of at once |
| Following.OtherKindsEndTheStream | server/follower.go:417-461 | a frame of any other kind than the three ends the stream and changes nothing |
| Following.HeartbeatsChangeNothing | server/follower.go:425-438 | taking every heartbeat out of a stream, cut at any byte and ending either way, changes neither contents, position, acknowledgements nor how it ends, but that a cut inside a heartbeat is torn where it would have been clean |
| Following.LoadedHeartbeatEndsTheStream | server/follower.go:425-438 | a heartbeat that claims bytes ends the stream with the state of the frames before it |
| Replication.StepKeeps | server/replica.go:577-635 | every write, compaction, promotion, dial, batch, snapshot, heartbeat, divergence, cut and restart keeps the invariant of leaders, wire and follower |
| Replication.FollowerHoldsAPrefix | server/replica.go:577-635 | in every reachable state the follower holds a replay of its leader's log up to its position, each record once, or is empty at zero after a snapshot was begun |
| Replication.CaughtUpIsEqual | server/follower.go:354-462 | a follower that has taken everything sent holds what the leader holds |
| Replication.AcknowledgementsNeverGoBack | server/follower.go:218-225 | over any run what a follower tells its leaders only goes forward, and names records those leaders have |
| Replication.ReachedWritesAreHeld | server/acks.go:187-199 | a follower at or past a write's position on its term has the leader's log up to that write as the beginning of what it replayed |
| Replication.FencedTakesNothing | server/follower.go:440-461 | nothing a leader on an older term sends, whole or cut, changes a store that has heard of a newer one |
| Serving.StreamReplica | server/replica.go:376-636 | which request is refused with what, in order; that on every path every file is closed and every hold released or handed on when the handler returns, and which of the two in each turn |
| Serving.Spool | server/replica.go:335-366 | a snapshot that could not be taken gives back the file and the hold it had |
| Serving.Turns | server/replica.go:577-635 | over any number of rounds of divergence no more than one file and one hold are out at any moment, no hold when the loop ends, and every file and hold of every turn is accounted for |
| Serving.HoldsGoTheRightWay | server/replica.go:577-635 | turn by turn: a hold is handed to the store's streaming exactly if its snapshot was sent and released exactly if it was not, and a divergence whose client is still there is answered by another file and hold, as far as they can be had |
| Serving.SparingThroughout | server/replica.go:577-635 | in a sparing trace there is at most one file open and one hold held after every one of its events |
| Serving.LegalTracesBalance | server/replica.go:466-484 | in any legal trace openings and closings, takings and lettings go differ by exactly what is still out |
| Serving.EachIsLetGoOfOnce | server/replica.go:577-635 | so each file is closed once, and each hold is released or handed to the store's streaming once and never both |
| Replicas.FollowersAreReplicas | server/follower.go:354-462 | whatever happens to a follower, its leader's log and their connection is some steps of one replica, and touches nothing else promises rest on |
| Replicas.RunsMirror | server/follower.go:354-462 | so every run of a follower under one newest leader is a run of a replica |
| Replicas.AppliedIsHeld | server/acks.go:187-199 | and to have applied a write there is to hold a replay of the leader's log up to it |
| Registry.Followers.DoAttach | server/acks.go:77-93 | registers a follower unless it is already known to be at least as far, and tells whoever waits exactly then |
| Registry.Followers.DoDetach | server/acks.go:101-111 | forgets an id, and tells whoever waits |
| Registry.Followers.DoAck | server/acks.go:120-135 | moves a registered follower forward only, tells whoever waits exactly then, and reports whether it was registered |
| Registry.Followers.Wake | server/acks.go:138-141 | closes the channel that is being waited on and leaves an open one in its place |
| Registry.Followers.Count | server/acks.go:145-156 | the number of registered ids that have reached a position, and the channel any later change will close |
| Registry.Followers.Await | server/acks.go:163-185 | returns the true count at that moment, as soon as it is told there are enough, and short only if time ran out or the client went |
| Registry.Followers.Wrote | server/role.go:399-421 | 204 exactly if as many as were asked for have reached the position when it answers, 202 otherwise |
| Registry.PositionsNeverGoBack | server/acks.go:77-135 | under any interleaving an id that stays registered never goes backwards |
| Registry.PositionsWereClaimed | server/acks.go:77-135 | every position in the registry was claimed by a stream opened there or an acknowledgement |
| Registry.ToldIff | server/acks.go:77-141 | whoever waits is told exactly when the registry changes, and when the stream of a follower with a name ends |
| Registry.FurthestClaimStands | server/acks.go:77-135 | an id is registered at or past everything it has claimed, by opening a stream or acknowledging, since it was last forgotten |
| Registry.OthersDoNotMove | server/acks.go:77-135 | and nobody else's claims touch it |
| Registry.AcksCommute | server/acks.go:120-135 | any two acknowledgements come to the same registry in either order |
| Registry.ReachingIsAntitone | server/acks.go:145-156 | the further the position asked about, the fewer have reached it |
| Registry.RegisteredIffAttachedLast | server/acks.go:101-111 | an id is registered exactly if its last registering came after its last forgetting |
| Registry.LateDetachForgetsALiveStream | server/acks.go:101-111 | a result: redialling and then a late end of the old stream leaves a live follower uncounted, and its acknowledgements ignored |
| Registry.Followers.WaitOn | server/acks.go:173-184 | blocks until the channel read with a short count is closed, the timer fires or the client goes, and while it is open the count is still short |
| Registry.WaitingIsSound | server/acks.go:163-185 | from any call on, over every interleaving, what a wait returns was the true count at some moment of it, and while it waits unwoken nothing has changed its count |
| Registry.NoNudgeIsLost | server/follower.go:218-244 | a position stored and not yet loaded always has a nudge pending, a sender on its way or a teller about to nudge; once all is still the newest is what the last request carried |
| Registry.AFailedRequestIsNotRetried | server/follower.go:266-273 | a result: a run in which the one request that carried a position fails, all is still, and the leader has not heard of it |
| Registry.ALeftOverNudgeTriesAgain | server/follower.go:218-244 | a run in which the request carrying the newest fails and a nudge left over carries it again |
| Registry.HeardIffCarried | server/follower.go:233-277 | over any run in which positions stored never go back, the last the leader heard is the newest stored if and only if some request that carried it arrived |
| Registry.MissedIffAllFailed | server/follower.go:233-277 | once all is still the newest was tried, and the leader missed it if and only if every request that carried it failed |
| SemiSync.StepKeeps | server/acks.go:77-199 | what a leader has registered, bar snapshots not yet received, was really reached by its owner, whatever is lost, late, torn or repeated |
| SemiSync.BestReachesTheRest | cmd/litekv-controller/controller.go:91-96 | the node chosen by the controller's ranking has reached whatever any other eligible node has |
| SemiSync.HeldIsHeldStill | server/follower.go:354-462 | what a replica held at one moment it holds at any later one, unless a snapshot has emptied it |
| SemiSync.AcknowledgedWriteSurvives | cmd/litekv-controller/controller.go:307-351 | for any write and nodes each asked at any moment: if fewer pods are unavailable than held it when asked, whichever is chosen held it too, and still does unless emptied since |
| SemiSync.AskedAfterItsAnswer | cmd/litekv-controller/controller.go:149-178 | a pod that had the write when it was answered, and holds anything when asked afterwards, held it when asked |
| SemiSync.ImageSize | server/acks.go:145-156 | the pigeonhole: an image is as large as its set exactly if nothing is hit twice |
| SemiSync.CountsReplicasIff | server/role.go:399-421 | a 204 counted as many replicas as ids exactly if no id was registered ahead of its replica and no two were one replica's |
| SemiSync.Survives204 | server/role.go:399-421 | under that condition a write answered 204 at any moment of a run survives the loss of fewer replicas than it waited for, the others having held it when they were asked |
| SemiSync.OpeningIsHonestIff | server/replica.go:477-507 | the step that registers a stream claims no more than its follower holds exactly if it carries on from somewhere or the snapshot is of nothing |
| Survival.SurvivesIff | cmd/litekv-controller/controller.go:307-351 | for replicas asked at any moments and any of them holding the write by the time one is promoted: it survives the loss of any fewer than were waited for if and only if each replica without it was, when asked, certainly behind that many others |
| Survival.HeldWhenAskedIff | cmd/litekv-controller/controller.go:307-351 | those promoted held it when they were asked, whichever fewer are lost, if and only if as many as that held it when asked, or every replica did |
| Survival.EnoughAreEnough | cmd/litekv-controller/controller.go:307-351 | if none that held it when asked has lost it since, as many as were waited for holding it then is enough |
| Survival.CountedWellSurvives | server/role.go:399-421 | a promise counted out of solid ids, each its own replica's, and answered before anybody is asked, survives unless a snapshot empties somebody in between |
| Survival.AskedInIsLater | cmd/litekv-controller/controller.go:149-178 | replicas asked at any moments of a run from there have not gone back on what they had reached |
| Survival.AskedInIsHeld | cmd/litekv-controller/controller.go:354-391 | and what they held when they were asked they hold at the end of it, whoever has not been emptied |
| Survival.BeyondThePoll | cmd/litekv-controller/controller.go:340-348 | a write nobody held when they were asked is lost, unless what is promoted has taken it since |
| Survival.AnsweredAfterThePoll | cmd/litekv-controller/controller.go:340-348 | a result: a run in which a leader that could not be reached answers 204 after the poll, with a solid count of one replica, and the other is promoted |
| Survival.EmptiedAfterThePoll | server/replica.go:577-635 | a result: a foremost replica that a snapshot empties between being asked and being promoted loses every write |
| Survival.OneReplicaCountsTwice | server/acks.go:77-93 | a result: a run in which one restarted replica is counted as two, is lost, and a node without the write is promoted |
| Survival.AnEmptyReplicaCounts | server/replica.go:477-507 | a result: a run in which a follower that has received nothing satisfies a 204, and is promoted |
| Lease.Controller.Acquire | cmd/litekv-controller/lease.go:35-95 | one attempt, branch by branch: held only after a write known to be applied, and from the moment sampled before the read |
| Lease.Controller.IsStale | cmd/litekv-controller/lease.go:118-125 | stale only if the same version was seen for longer than the Lease says, on this clock; never at first sight |
| Lease.Controller.Fresh | cmd/litekv-controller/controller.go:345-348 | the test before acting: held within half the lease duration |
| Lease.WritesIff | cmd/litekv-controller/lease.go:35-76 | a controller writes the Lease exactly if there is none, it is its own, or the same version has been there on its clock for longer than it lasts, and over the version it read; and what it then remembers |
| Lease.SecondsAreWhole | cmd/litekv-controller/lease.go:39 | the duration in a Lease is the whole seconds of the one configured |
| Lease.StaleMeansExpired | cmd/litekv-controller/lease.go:118-125 | a read that finds the Lease stale was sampled after its holder's last sample stopped being fresh |
| Lease.PutKeeps | cmd/litekv-controller/kube.go:289-305 | a versioned write landing at any time, however late, leaves whoever loses the Lease with no fresh sample |
| Lease.RestartKeeps | cmd/litekv-controller/lease.go:35-95 | a controller starting over under its own identity, with writes still on their way, breaks nothing |
| Lease.RunKeeps | cmd/litekv-controller/lease.go:35-95 | the invariant of Lease, clocks, memories and writes in flight holds over every run |
| Lease.AtMostOneActs | cmd/litekv-controller/lease.go:35-95 | within the bound no two controllers ever pass the freshness test at one instant, for any number, offsets, interleaving and lost answers |
| Lease.UndisturbedAttemptTakesIt | cmd/litekv-controller/lease.go:35-95 | a Lease there to be taken is taken by an attempt nothing disturbs, which then may act |
| Lease.BeyondTheBoundTwoAct | cmd/litekv-controller/lease.go:36-39 | with a delay any longer than the bound there is a run in which two act at once |
| Lease.BoundIsExact | cmd/litekv-controller/lease.go:36-39 | exclusion over all runs holds if and only if delay plus half the duration is within the duration in whole seconds |
| Controller.Choose | cmd/litekv-controller/controller.go:307-351 | the loop picks exactly if some pod answered, is ready, not fenced and not the one replaced, somebody waits if that is required, and the Lease was held within half its duration; and refuses for the first of those that fails |
| Controller.PicksIff | cmd/litekv-controller/controller.go:91-96 | and which: one that no other such pod is on a newer term than, or on its term and further, and the first of those |
| Choosing.ChoosesIff | cmd/litekv-controller/controller.go:345-348 | for a controller that remembers holding the Lease, the last of these conditions is the freshness the Lease excludes by |
| Choosing.AtMostOneChooses | cmd/litekv-controller/controller.go:345-348 | over every run of the Lease within its bound two controllers that pick at one instant, whatever they were told, are one |
| Controller.SawSemiSync | cmd/litekv-controller/controller.go:401-408 | whether any node that answered waits for followers |
| Controller.BestExists | cmd/litekv-controller/controller.go:307-320 | among any nodes there is one to choose unless none is eligible |
| Controller.Controller.Failover | cmd/litekv-controller/controller.go:354-391 | promote, then move the Service, then the old leader's label, each only after the one before succeeded, any call failing or losing its answer |
| Controller.Controller.Decide | cmd/litekv-controller/controller.go:208-297 | the whole round, for whatever nodes answered and whatever becomes of its calls |
| Controller.Controller.DoEnlist | cmd/litekv-controller/controller.go:450-503 | the round's enlisting loop, which a failure does not stop |
| Controller.Controller.Tidy | cmd/litekv-controller/controller.go:542-577 | the round's labelling loop, which the first failure does |
| Rounds.HealthyRoundsEnlist | cmd/litekv-controller/controller.go:259-271 | when the named pod leads and is not fenced, exactly the other ready pods that answered and lead on lower terms are told to follow, in order, whatever fails; nothing is promoted or moved and the clock is stopped |
| Rounds.HealthyRoundsLabel | cmd/litekv-controller/controller.go:265-271 | and, calls going through, each ready pod that answered ends up serving reads exactly if it is the named one or follows, the others as they were |
| Rounds.FailedLabelsEndTheRound | cmd/litekv-controller/controller.go:542-577 | a label that could not be changed is the last call of its round |
| Rounds.FollowingIsPromoted | cmd/litekv-controller/controller.go:243-256 | a named pod that follows somebody is promoted at once and the clock is stopped |
| Rounds.SeesIff | cmd/litekv-controller/controller.go:208-261 | when the named pod counts as silent and when as fenced, from what the nodes said |
| Rounds.SilentAndFencedRounds | cmd/litekv-controller/controller.go:239-297 | such a round acts exactly if an earlier one started the clock, the pod is fenced or the grace period over, and somebody is picked; then promote, point and label in order, each only after the one before, and the clock stopped only by all three |
| Failover.FailoverIsPrecededByARun | cmd/litekv-controller/controller.go:208-297 | a failover's time comes only after an unbroken run of rounds that found the node then named silent or fenced, started by an earlier round, and as long as the grace period unless it is fenced |
| Failover.ClockAfter | cmd/litekv-controller/controller.go:208-297 | a healthy or following answer restarts the run, and nothing but a failover otherwise stops it |
| Failover.RoundActs | cmd/litekv-controller/controller.go:208-297 | what a round may promote and where it may point: the named node if it is following, the chosen one if the time is up, never otherwise and nothing in a dry run |
| Failover.PromotionsAreWarranted | cmd/litekv-controller/controller.go:208-297 | over any run, with calls failing anywhere, every promotion has such a run behind it or is of the node the Service already names |
| Grace.GraceIsNotPerLeader | cmd/litekv-controller/controller.go:285-294 | a result: two rounds, two leaders, and a promotion at the first silence of the second |
| Grace.SilenceTakesTime | cmd/litekv-controller/controller.go:285-294 | a leader named for a grace period, or with nobody named before it, is only failed away from for silence after its own grace period |
| Grace.GraceIsPerLeaderIff | cmd/litekv-controller/controller.go:285-294 | for any times and any names, that holds whatever anybody answers if and only if no other leader was named before it, or it has been named that long, or the rounds do not go back that far, or nothing is ever done |
| Failover.GraceWhileTheServiceStands | cmd/litekv-controller/controller.go:285-294 | while the Service names one pod the run is about that pod, silent or fenced in every round of it |
| Failover.PointsFollowPromotions | cmd/litekv-controller/controller.go:354-391 | the call before every move of the Service is that pod's promotion, known to have succeeded |
| Failover.ServiceNamesAPromotedPod | cmd/litekv-controller/controller.go:354-391 | over any run the Service names the pod it began with or one known to have been promoted |
| Failover.ResumesIffStillEligible | cmd/litekv-controller/controller.go:307-351 | with the other nodes answering as before, the promoted pod is chosen again, or nobody, exactly while it is eligible |
| Failover.SilentPromotedPodIsReplaced | cmd/litekv-controller/controller.go:307-351 | a result: a run of three rounds in which one pod is promoted, goes silent, and a second is promoted to the same term |
| Failover.NoSecondPodIsPromoted | cmd/litekv-controller/controller.go:354-391 | over any number of retries while it stays eligible, no second pod is promoted or pointed at |
| Stints.PromotionOvertakesIff | cmd/litekv-controller/controller.go:307-320 | promotion passes the replaced leader's term exactly if some eligible candidate was on it |
| Stints.NoTwoStintsShareATerm | cmd/litekv-controller/controller.go:353-391 | over any run of failovers where somebody had kept up, the terms of successive leaders strictly increase |
| Stints.StintsCanShareATerm | cmd/litekv-controller/controller.go:353-391 | a result: without that, two leaders in a row can be on one term |
| Stints.EnlistsExactlyTheStranded | cmd/litekv-controller/controller.go:450-503 | every ready node that leads on a term behind the leader's is told to follow, once and in order, and nobody else |
| Stints.TidyingMakesItSo | cmd/litekv-controller/controller.go:542-577 | after a round whose calls go through, a ready node that answered serves reads exactly if it is the named pod or follows |
| Roles.Server.MayWrite | server/role.go:375-384 | writes are taken exactly if every follower that was ever started has been stopped; otherwise they belong to whom the running one follows |
| Roles.Server.Follow | server/role.go:101-119 | follows only if not following already and the address can be dialled, and keeps the history in order |
| Roles.Server.StopFollowing | server/role.go:221-234 | the node leads again whether or not the follower stopped cleanly, and keeps the history in order |
| Roles.Server.Promote | server/role.go:250-255 | following stops before the term rises, a node that failed to stop does not rise, and the history stays in order |
| Roles.Server.Enlist | server/role.go:133-181 | joins exactly if the leader is well named, nobody is being followed and its term, asked of it, is not behind; already there, elsewhere or unreachable are told apart |
| Roles.NobodyIff | server/role.go:79-91 | over any orderly history a node follows nobody exactly if each follower started has been stopped |
| Roles.StopsComeBetween | server/role.go:221-255 | in any history of these calls a follower is stopped before another is started and before any promotion |
| Roles.StartsComeBefore | server/role.go:221-234 | nothing is stopped that was not started, and nothing twice |
| Roles.TermsOnlyRise | server/role.go:250-255 | a node's terms, promoted to or heard of, strictly increase over any history |
| Cluster.CallsAreSteps | server/role.go:101-255 | whatever a server is asked to do, what it does is nothing or one enabled step of the cluster, with the same outcome |
| Cluster.StepKeeps | server/replica.go:397-401 | no step of following, promoting, restarting, opening or closing lets a stream's source have begun following before the stream was opened |
| Cluster.OpenedLaterUpstream | server/replica.go:397-401 | along any chain of open streams each was opened later than the one below it |
| Cluster.StreamsNeverCycle | server/role.go:221-255 | over every run, however addresses resolve, no chain of open streams returns to where it began |
| Cluster.JoiningNeverFences | server/role.go:158-177 | in every reachable state a node that joined by the route, and dials the node that was asked, is not about to ask any leader anything on a newer term than that leader's |
| Cluster.JoinedNeverFencesIff | server/role.go:158-177 | for any address the route is given, the node never fences the one that was asked, in any run in which it goes on following, if and only if it dials that one itself, or there is no third node, or it is that node |
| Cluster.ServiceFollowerCanFence | cmd/litekv-controller/controller.go:477-490 | a result: from any state in which it dials the Service and there is a third node, a run in which every pod is promoted before it is named ends with the node that was asked being fenced |
| Cluster.PolledTestImpliesTheRoutes | cmd/litekv-controller/controller.go:450-503 | a node seen at one moment strictly behind the leader seen at another passes the route's own test, by either address, if nothing was done to it since it was seen |
| Numbers.PrintedNumbersReadBack | server/scan.go:186-190 | every number in 64 bits is read back from its decimal spelling, with leading zeros and a plus or without, and its negative with a minus |
| Numbers.IntegerIff | server/scan.go:186-190 | a string is read as a number exactly if it is such a spelling and fits in 64 bits |
| Wire.Utf8IffText | server/ndjson.go:100-108 | the byte-range table of section 4 of RFC 3629 accepts exactly the encodings of sequences of characters |
| Wire.Base64RoundTrip | server/ndjson.go:100-142 | unpadded base64url decodes to what was encoded, for every length |
| Wire.AlphabetIs | server/ndjson.go:100-108 | the letters are those of section 5 of RFC 4648, in its order |
| Wire.GroupIsTheNumber | server/ndjson.go:100-108 | a group's letters are its bytes' number in base 64, most significant first |
| Wire.DecodesIff | server/ndjson.go:122-142 | exactly letters of the alphabet and line ends decode, and not with one letter over; padding does not |
| Wire.FieldIs | server/ndjson.go:122-142 | a field is an error exactly if it is there both ways or its coded form does not decode, and otherwise the bytes of whichever form is there, or none |
| Wire.ReencodesIff | server/ndjson.go:122-142 | what decoding accepted re-encodes to itself exactly if it held no line ends and no left-over bits |
| Wire.TwoSpellingsOfAByte | server/ndjson.go:122-142 | a result: three strings that all decode to one byte |
| Wire.FieldsLoseNothing | server/ndjson.go:100-142 | every byte string comes back from exactly one of the two forms, plain exactly if it is text, and either form is text |
| Wire.FieldsAreWrittenBackIff | server/ndjson.go:100-142 | which requests' fields are the ones an answer would carry |
| Wire.PairsReadBack | server/ndjson.go:90-95 | both fields of an encoded pair come back |
| Wire.PositionsReadBack | server/replica.go:293-317 | a position survives the query string, and no parameter at all is the zero one |
| Scan.LessIff | server/scan.go:147-152 | keys are ordered by the first byte in which they differ, one coming before any it begins |
| Scan.NothingBetween | server/scan.go:177-204 | no key lies strictly between a key and itself with a zero byte after it |
| Scan.OverIsTheMatching | server/scan.go:147-152 | a range or prefix yields exactly the matching entries, in order |
| Scan.LimitsAreHonest | server/scan.go:177-204 | which queries are refused, that a limit is never lowered, and that the range is what the parameters say, an empty bound being none |
| Scan.LimitsAreRead | server/scan.go:186-194 | a limit that spells a number is taken as that number from one to the most there is, refused as over the maximum above it, and as no limit below one or past 64 bits |
| Scan.OthersAreRefused | server/scan.go:182-190 | two ways of naming a range are refused as such, exactly, and a limit that spells no number as no limit |
| Scan.ShortAnswersAreComplete | server/scan.go:171-194 | an answer shorter than the number the limit spells is all there is, and any other has exactly that many |
| Scan.Fill | server/scan.go:99-105 | the callback takes entries until the page is full, and stops there |
| Scan.ScanKeys | server/scan.go:73-124 | the answer's lines decode to exactly the first matches up to the limit |
| Scan.RestOfTheRange | server/scan.go:99-105 | asking again from after the n-th match yields the matches from there on |
| Scan.PagingIsComplete | server/scan.go:177-204 | page after page until a short one is the whole range, in order, nothing missing or twice |
| Scan.PagingTakes | server/scan.go:177-204 | it takes one request more than there are whole pages |
| Scan.PagingReadsTheStore | server/scan.go:177-204 | paging with no bounds reads back exactly what the store holds |
| Batch.Scanner.Scan | server/batch.go:98-109 | each line is written over the last in one buffer, which only ever grows |
| Batch.AddTo | server/batch.go:151-203 | a line becomes the operation it says, in arrays of its own, or fails for the first thing wrong with it |
| Batch.ParseBatch | server/batch.go:98-141 | the batch is returned exactly if the body comes to one, holds its operations in order and unchanged by what the buffer went through, and shares no array with the buffer or within itself |
| Batch.TakenIff | server/batch.go:151-203 | a line is taken exactly if it is text and one object, each field is sent one way and decodes, and it writes with no expiry or one that reads as a time, or deletes with neither value nor expiry; and what it then means |
| Batch.RefusedFor | server/batch.go:151-203 | and otherwise is refused for the first thing wrong with it, each exactly when |
| Batch.BlamedIff | server/batch.go:115-138 | a line is blamed exactly if it is the first that cannot be read and the reader is not known to have failed by then; the reader exactly if it failed and no earlier line is |
| Batch.AllOrNothing | server/batch.go:98-141 | a body comes to a batch exactly if it was read to its end and every line that is not blank says something, one operation to each of those lines in order |
| Batch.BlankLinesNeverMatter | server/batch.go:111-114 | a blank line anywhere changes nothing but the numbers of later lines |
| Batch.LaterOperationsWin | server/batch.go:55-85 | of several operations on a key the last stands, and keys not named are left alone |
| Batch.LaterLinesWin | server/batch.go:55-85 | once a batch is written, of the lines of any body that speak of a key the last decides |
| Batch.LineReadsBack | server/batch.go:151-203 | a line printed for an operation of any bytes, with any expiry, says that operation |
| Batch.WrittenBatchReadsBack | server/batch.go:98-141 | a body printed for any operations comes to exactly those operations |

## Left out

- HTTP itself: routing, headers, status mapping, tokens, timeouts, logging, flags, metrics and `/health`.
- The storage engine's formats, merging, expiry and recovery; it appears only as the assumptions above.
- The follower's reconnection back-off, its idle deadline, its naming of itself and which refusals it gives up on: operational, with no state the properties rest on. Reconnecting is an event that may happen at any time.
- Stale reads (`notStale`, `waitFor`): a comparison of positions that `Base.ReachesIsATotalOrder` covers.
- The JSON grammar, the scanner's own buffering arithmetic, `bytes.TrimSpace` and time parsing, which are parameters.
- The end of a prefix range, which the engine computes; a prefix here is the keys that begin with it.
- The Kubernetes client, Helm templates and Dockerfile: the Service is the name it points at, labels are the calls that set them, and the Lease is a versioned object.
- Giving up the Lease as a faster handover: staleness ignores the renewal time that `dropLease` rewrites, so it is only one more versioned write here.
- Labelling within a round judges a node on what it said before that round's enlisting, as the code does; nodes are not asked again.
- Heartbeats are events at any moment; that frames do not interleave is the stream's mutex, and a frame is one step.
- Frames larger than a reader takes: sends in `Replication` are of frames that fit, and one that does not ends the stream in `Frames.HeaderReadsBack`.
- Replication.FollowerHoldsAPrefix: does not show that one leader leads to a term, because that is the controller's doing and is a hypothesis here.
- Cluster.StreamsNeverCycle: does not cover the moment between a node clearing its role and its follower's goroutine exiting, because role changes are single steps.
