/** Mutual exclusion between controllers: a Lease written by compare-and-swap, a
    staleness test that watches its version on one's own clock, and a freshness
    test before acting.

    Times are nanoseconds.  Clocks run at one rate and are otherwise as far apart
    as they like; requests are slow, answers are lost, and a write may land long
    after the controller that sent it gave up on it. */
module Lease {
  import opened Base

  type Id = string

  const SECOND := 1_000_000_000

  /** What a Lease object can say of a duration: whole seconds. */
  function WholeSeconds(d: nat): nat {
    d / SECOND * SECOND
  }

  datatype LeaseObject = LeaseObject(version: nat, holder: Id, lasts: nat)

  /** What a controller remembers.  Every time here is on its own clock. */
  datatype Memory = Memory(held: Option<int>, seenVersion: Option<nat>, seenAt: int)

  const FORGETFUL := Memory(None, None, 0)

  /** The staleness test, and what it leaves remembered. */
  function Watch(m: Memory, current: LeaseObject, now: int): Memory {
    if m.seenVersion != Some(current.version) then m.(seenVersion := Some(current.version), seenAt := now) else m
  }

  predicate Stale(m: Memory, current: LeaseObject, now: int) {
    m.seenVersion == Some(current.version) && now - m.seenAt > current.lasts
  }

  /** What a read of the Lease leads to. */
  datatype Plan = StandBy | Write(expects: Option<nat>)

  function Read(id: Id, m: Memory, now: int, got: Option<LeaseObject>): (Memory, Plan) {
    match got
    case None => (m, Write(None))
    case Some(l) =>
      if l.holder == id then (m, Write(Some(l.version)))
      else (Watch(m, l, now), if Stale(m, l, now) then Write(Some(l.version)) else StandBy)
  }

  /** Exactly when a controller writes the Lease: if there is none, if it is its own, or
      if the same version has been there, as this controller saw it, for longer than
      it says it lasts; always over the version read.  And what it remembers is when
      it first saw a version of somebody else's. */
  lemma WritesIff(id: Id, m: Memory, now: int, got: Option<LeaseObject>)
    ensures var (next, plan) := Read(id, m, now, got);
      && (plan.Write? <==>
            got.None? || got.value.holder == id ||
            (m.seenVersion == Some(got.value.version) && now - m.seenAt > got.value.lasts))
      && (plan.Write? ==> plan.expects == if got.None? then None else Some(got.value.version))
      && next.held == m.held
      && (got.None? || got.value.holder == id ==> next == m)
      && (got.Some? && got.value.holder != id ==>
            next.seenVersion == Some(got.value.version) &&
            next.seenAt == if m.seenVersion == Some(got.value.version) then m.seenAt else now)
  {
  }

  /** A duration in a Lease is the whole seconds of it, and no more than it was. */
  lemma SecondsAreWhole(d: nat)
    ensures WholeSeconds(d) % 1_000_000_000 == 0 && WholeSeconds(d) <= d < WholeSeconds(d) + 1_000_000_000
  {
  }

  /** What comes back from the API server. */
  datatype GetReply = Got(lease: LeaseObject) | NotFound | GetFailed
  datatype PutReply = Applied | Conflict | PutFailed

  datatype Round = Holding | NotHolding | RoundFailed

  /** The controller's own half, as it runs. */
  class Controller {
    const identity: Id
    const leaseDuration: nat
    var held: Option<int>
    var seenVersion: Option<nat>
    var seenAt: int

    constructor (identity: Id, leaseDuration: nat)
      ensures this.identity == identity && this.leaseDuration == leaseDuration
      ensures Remembers() == FORGETFUL
    {
      this.identity, this.leaseDuration := identity, leaseDuration;
      held, seenVersion, seenAt := None, None, 0;
    }

    function Remembers(): Memory
      reads this
    {
      Memory(held, seenVersion, seenAt)
    }

    /** The first sight of a version is never stale. */
    method IsStale(current: LeaseObject, now: int) returns (stale: bool)
      modifies this`seenVersion, this`seenAt
      ensures stale == Stale(old(Remembers()), current, now)
      ensures Remembers() == Watch(old(Remembers()), current, now)
      ensures old(seenVersion) != Some(current.version) ==> !stale
    {
      if Some(current.version) != seenVersion {
        seenVersion := Some(current.version);
        seenAt := now;
        return false;
      }
      return now - seenAt > current.lasts;
    }

    /** One attempt, with the server's answers to its read and to its write.  The
        Lease counts as held only once a write is known to have been applied, and
        then from the moment sampled before anything was asked. */
    method Acquire(now: int, got: GetReply, put: PutReply) returns (round: Round, plan: Plan)
      modifies this
      ensures got.GetFailed? ==> round == RoundFailed && plan == StandBy && Remembers() == old(Remembers())
      ensures !got.GetFailed? ==>
        var (m, p) := Read(identity, old(Remembers()), now, if got.Got? then Some(got.lease) else None);
        && plan == p
        && Remembers() == (if p.Write? && put == Applied then m.(held := Some(now)) else m)
        && (p.StandBy? ==> round == NotHolding)
        && (p.Write? ==> round == match put case Applied => Holding case Conflict => NotHolding case PutFailed => RoundFailed)
    {
      match got {
        case GetFailed => return RoundFailed, StandBy;
        case NotFound =>
          plan := Write(None);
        case Got(current) =>
          var mine := current.holder == identity;
          if !mine {
            var stale := IsStale(current, now);
            if !stale {
              return NotHolding, StandBy;
            }
          }
          plan := Write(Some(current.version));
      }
      match put {
        case Conflict => return NotHolding, plan;
        case PutFailed => return RoundFailed, plan;
        case Applied =>
          held := Some(now);
          return Holding, plan;
      }
    }

    /** The test that has to pass before anything is acted on. */
    method Fresh(now: int) returns (recent: bool)
      ensures recent == FreshAt(Remembers(), leaseDuration, now)
    {
      recent := held.Some? && now - held.value <= leaseDuration / 2;
    }
  }

  predicate FreshAt(m: Memory, duration: nat, now: int) {
    m.held.Some? && now - m.held.value <= duration / 2
  }

  // ----- any number of controllers and one Lease

  datatype Config = Config(duration: nat, offset: int)

  /** Where a controller's attempt has got to.  `sample` is in real time. */
  datatype Phase = Resting | Sampled(sample: int) | Awaiting(sample: int, put: nat)

  datatype Fate = Pending | Landed | Refused

  /** A write on its way to the server, or answered by it. */
  datatype Put = Put(writer: Id, sample: int, expects: Option<nat>, lasts: nat, fate: Fate)

  /** `written` is the real time of the Lease's last write. */
  datatype World = World(now: int, lease: Option<LeaseObject>, written: int,
                         memory: map<Id, Memory>, phase: map<Id, Phase>, puts: seq<Put>)

  /** `delay` bounds the time from a controller sampling its clock to the server
      answering the read that follows. */
  datatype Setting = Setting(config: map<Id, Config>, delay: nat)

  datatype Event =
    | Passes(time: nat)
    | Starts(id: Id)
    | ServesGet(id: Id)
    | LosesGet(id: Id)
    | ServesPut(put: nat) // whenever it gets there
    | Answers(id: Id)
    | LosesAnswer(id: Id)
    | GivesBack(id: Id) // one more write, on the way out
    | Restarts(id: Id) // under the same identity, its writes still on their way

  predicate WellFormed(x: Setting, w: World) {
    w.memory.Keys == x.config.Keys && w.phase.Keys == x.config.Keys
  }

  predicate Enabled(x: Setting, w: World, ev: Event)
    requires WellFormed(x, w)
  {
    match ev
    case Passes(_) => true
    case Starts(id) => id in x.config && w.phase[id].Resting?
    case ServesGet(id) => id in x.config && w.phase[id].Sampled? && w.now - w.phase[id].sample <= x.delay
    case LosesGet(id) => id in x.config && w.phase[id].Sampled?
    case ServesPut(k) => k < |w.puts| && w.puts[k].fate == Pending
    case Answers(id) =>
      id in x.config && w.phase[id].Awaiting? && w.phase[id].put < |w.puts| && w.puts[w.phase[id].put].fate != Pending
    case LosesAnswer(id) => id in x.config && w.phase[id].Awaiting?
    case GivesBack(id) =>
      id in x.config && w.memory[id].held.Some? && w.lease.Some? && w.lease.value.holder == id
    case Restarts(id) => id in x.config
  }

  function Version(w: World): Option<nat> {
    if w.lease.None? then None else Some(w.lease.value.version)
  }

  function Step(x: Setting, w: World, ev: Event): World
    requires WellFormed(x, w) && Enabled(x, w, ev)
  {
    match ev
    case Passes(t) => w.(now := w.now + t)
    case Starts(id) => w.(phase := w.phase[id := Sampled(w.now)])
    case ServesGet(id) =>
      var s := w.phase[id].sample;
      var (m, plan) := Read(id, w.memory[id], s + x.config[id].offset, w.lease);
      (match plan
       case StandBy => w.(memory := w.memory[id := m], phase := w.phase[id := Resting])
       case Write(expects) =>
         w.(memory := w.memory[id := m], phase := w.phase[id := Awaiting(s, |w.puts|)],
            puts := w.puts + [Put(id, s, expects, WholeSeconds(x.config[id].duration), Pending)]))
    case LosesGet(id) => w.(phase := w.phase[id := Resting])
    case ServesPut(k) =>
      var p := w.puts[k];
      if p.expects != Version(w) then w.(puts := w.puts[k := p.(fate := Refused)])
      else
        var version := if p.expects.None? then 0 else p.expects.value + 1;
        w.(puts := w.puts[k := p.(fate := Landed)], written := w.now,
           lease := Some(LeaseObject(version, p.writer, p.lasts)))
    case Answers(id) =>
      var Awaiting(s, k) := w.phase[id];
      w.(phase := w.phase[id := Resting],
         memory := if w.puts[k].fate == Landed
                   then w.memory[id := w.memory[id].(held := Some(s + x.config[id].offset))] else w.memory)
    case LosesAnswer(id) => w.(phase := w.phase[id := Resting])
    case GivesBack(id) =>
      w.(puts := w.puts + [Put(id, w.now, Version(w), w.lease.value.lasts, Pending)])
    case Restarts(id) => w.(memory := w.memory[id := FORGETFUL], phase := w.phase[id := Resting])
  }

  /** Any sequence of events, those that cannot happen being skipped. */
  function Run(x: Setting, w: World, evs: seq<Event>): (v: World)
    requires WellFormed(x, w)
    ensures WellFormed(x, v)
    decreases |evs|
  {
    if evs == [] then w
    else Run(x, if Enabled(x, w, evs[0]) then Step(x, w, evs[0]) else w, evs[1..])
  }

  /** Whether a controller would act, this instant, on holding the Lease. */
  predicate Acts(x: Setting, w: World, id: Id)
    requires WellFormed(x, w)
  {
    id in x.config && FreshAt(w.memory[id], x.config[id].duration, w.now + x.config[id].offset)
  }

  /** Controllers that remember nothing, and no Lease or somebody else's. */
  predicate Init(x: Setting, w: World) {
    && WellFormed(x, w)
    && (forall id :: id in w.memory ==> w.memory[id] == FORGETFUL && w.phase[id] == Resting)
    && w.puts == [] && w.written <= w.now
    && (w.lease.Some? ==> w.lease.value.holder !in x.config)
  }

  /** The bound: a sample is never so old, when the read it was taken for is
      answered, that a Lease can look stale to one while another is still fresh. */
  predicate Bounded(x: Setting) {
    forall id :: id in x.config ==> x.delay + x.config[id].duration / 2 <= WholeSeconds(x.config[id].duration)
  }

  // ----- the invariant

  predicate Holder(w: World, id: Id) {
    w.lease.Some? && w.lease.value.holder == id
  }

  /** A moment from which `id` may be counting itself the holder. */
  predicate Covered(x: Setting, w: World, id: Id, sample: int)
    requires id in x.config
  {
    if Holder(w, id) then sample <= w.written else sample + x.config[id].duration / 2 < w.now
  }

  predicate MemoryOk(x: Setting, w: World, id: Id)
    requires WellFormed(x, w) && id in x.config
  {
    var m := w.memory[id];
    && (m.held.Some? ==> Covered(x, w, id, m.held.value - x.config[id].offset))
    && (m.seenVersion.Some? && m.seenVersion == Version(w) ==> m.seenAt - x.config[id].offset >= w.written - x.delay)
    && (m.seenVersion.Some? ==> w.lease.Some? && m.seenVersion.value <= w.lease.value.version)
  }

  predicate PhaseOk(x: Setting, w: World, id: Id)
    requires WellFormed(x, w) && id in x.config
  {
    match w.phase[id]
    case Resting => true
    case Sampled(s) => s <= w.now
    case Awaiting(s, k) => k < |w.puts| && w.puts[k].writer == id && w.puts[k].sample == s
  }

  predicate PutOk(x: Setting, w: World, p: Put) {
    && p.writer in x.config && p.sample <= w.now
    && p.lasts == WholeSeconds(x.config[p.writer].duration)
    && (p.expects.Some? ==> w.lease.Some? && p.expects.value <= w.lease.value.version)
    && (p.fate == Landed ==> w.lease.Some? && Covered(x, w, p.writer, p.sample))
    && (p.fate == Pending && p.expects.Some? && p.expects == Version(w) ==>
          var h := w.lease.value.holder;
          h != p.writer && h in x.config ==> w.written + x.config[h].duration / 2 < p.sample)
  }

  predicate Inv(x: Setting, w: World) {
    && WellFormed(x, w) && w.written <= w.now
    && (w.lease.Some? && w.lease.value.holder in x.config ==>
          w.lease.value.lasts == WholeSeconds(x.config[w.lease.value.holder].duration))
    && (forall id :: id in x.config ==> MemoryOk(x, w, id) && PhaseOk(x, w, id))
    && (forall k :: 0 <= k < |w.puts| ==> PutOk(x, w, w.puts[k]))
  }

  lemma InvIsWellFormed(x: Setting, w: World)
    requires Inv(x, w)
    ensures WellFormed(x, w) && w.written <= w.now
    ensures forall id :: id in x.config ==> MemoryOk(x, w, id) && PhaseOk(x, w, id)
    ensures forall k :: 0 <= k < |w.puts| ==> PutOk(x, w, w.puts[k])
  {
  }

  lemma TimePasses(x: Setting, w: World, t: nat)
    requires Inv(x, w)
    ensures Inv(x, w.(now := w.now + t))
  {
    var v := w.(now := w.now + t);
    forall id | id in x.config ensures MemoryOk(x, v, id) && PhaseOk(x, v, id) {
      assert MemoryOk(x, w, id) && PhaseOk(x, w, id);
    }
    forall k | 0 <= k < |v.puts| ensures PutOk(x, v, v.puts[k]) {
      assert PutOk(x, w, w.puts[k]);
    }
  }

  /** A read that finds the Lease stale was sampled after its holder's last sample
      had stopped being fresh. */
  lemma StaleMeansExpired(x: Setting, w: World, id: Id)
    requires Inv(x, w) && Bounded(x) && id in x.config && w.phase[id].Sampled? && w.lease.Some?
    requires Stale(w.memory[id], w.lease.value, w.phase[id].sample + x.config[id].offset)
    ensures var h := w.lease.value.holder;
      h in x.config ==> w.written + x.config[h].duration / 2 < w.phase[id].sample
  {
  }

  function Moved(w: World, id: Id, m: Memory, phase: Phase): World {
    w.(memory := w.memory[id := m], phase := w.phase[id := phase])
  }

  /** A step that changes one controller is judged on that controller alone. */
  lemma MovingKeeps(x: Setting, w: World, id: Id, m: Memory, phase: Phase)
    requires Inv(x, w) && id in x.config
    requires MemoryOk(x, Moved(w, id, m, phase), id) && PhaseOk(x, Moved(w, id, m, phase), id)
    ensures Inv(x, Moved(w, id, m, phase))
  {
    var v := Moved(w, id, m, phase);
    forall i | i in x.config ensures MemoryOk(x, v, i) && PhaseOk(x, v, i) {
      assert MemoryOk(x, w, i) && PhaseOk(x, w, i);
    }
    forall k | 0 <= k < |v.puts| ensures PutOk(x, v, v.puts[k]) {
      assert PutOk(x, w, w.puts[k]);
    }
  }

  lemma WritingKeeps(x: Setting, w: World, id: Id, p: Put, phase: Phase)
    requires Inv(x, w) && id in x.config && p.writer == id && p.fate == Pending && PutOk(x, w, p)
    requires phase == w.phase[id] || phase == Awaiting(p.sample, |w.puts|)
    ensures Inv(x, w.(phase := w.phase[id := phase], puts := w.puts + [p]))
  {
    var v := w.(phase := w.phase[id := phase], puts := w.puts + [p]);
    forall i | i in x.config ensures MemoryOk(x, v, i) && PhaseOk(x, v, i) {
      assert MemoryOk(x, w, i) && PhaseOk(x, w, i);
    }
    forall k | 0 <= k < |v.puts| ensures PutOk(x, v, v.puts[k]) {
      if k < |w.puts| {
        assert PutOk(x, w, w.puts[k]);
      }
    }
  }

  /** The write a read leads to is one that may land. */
  lemma PlannedWriteIsOk(x: Setting, w: World, id: Id, expects: Option<nat>)
    requires Inv(x, w) && Bounded(x) && id in x.config && w.phase[id].Sampled?
    requires Read(id, w.memory[id], w.phase[id].sample + x.config[id].offset, w.lease).1 == Write(expects)
    ensures PutOk(x, w, Put(id, w.phase[id].sample, expects, WholeSeconds(x.config[id].duration), Pending))
    ensures Read(id, w.memory[id], w.phase[id].sample + x.config[id].offset, w.lease).0 == w.memory[id]
  {
  }

  lemma GetKeeps(x: Setting, w: World, id: Id)
    requires Inv(x, w) && WellFormed(x, w) && Bounded(x) && Enabled(x, w, ServesGet(id))
    ensures Inv(x, Step(x, w, ServesGet(id)))
  {
    hide Inv, PutOk;
    InvIsWellFormed(x, w);
    var s := w.phase[id].sample;
    var (m, plan) := Read(id, w.memory[id], s + x.config[id].offset, w.lease);
    if plan.Write? {
      hide MemoryOk, PhaseOk;
      PlannedWriteIsOk(x, w, id, plan.expects);
      WritingKeeps(x, w, id, Put(id, s, plan.expects, WholeSeconds(x.config[id].duration), Pending), Awaiting(s, |w.puts|));
      assert w.memory[id := m] == w.memory;
    } else {
      MovingKeeps(x, w, id, m, Resting);
    }
  }

  lemma PutLeavesControllersOk(x: Setting, w: World, k: nat, id: Id)
    requires Inv(x, w) && Enabled(x, w, ServesPut(k)) && id in x.config
    ensures MemoryOk(x, Step(x, w, ServesPut(k)), id) && PhaseOk(x, Step(x, w, ServesPut(k)), id)
  {
    assert PutOk(x, w, w.puts[k]) && MemoryOk(x, w, id) && PhaseOk(x, w, id);
  }

  lemma PutLeavesPutsOk(x: Setting, w: World, k: nat, j: nat)
    requires Inv(x, w) && Enabled(x, w, ServesPut(k)) && j < |w.puts|
    ensures PutOk(x, Step(x, w, ServesPut(k)), Step(x, w, ServesPut(k)).puts[j])
  {
    assert PutOk(x, w, w.puts[k]) && PutOk(x, w, w.puts[j]);
  }

  /** The one step that changes hands: whoever loses the Lease has, by then, no
      sample left that is fresh. */
  lemma PutKeeps(x: Setting, w: World, k: nat)
    requires Inv(x, w) && Enabled(x, w, ServesPut(k))
    ensures Inv(x, Step(x, w, ServesPut(k)))
  {
    var v := Step(x, w, ServesPut(k));
    assert PutOk(x, w, w.puts[k]);
    forall id | id in x.config ensures MemoryOk(x, v, id) && PhaseOk(x, v, id) {
      PutLeavesControllersOk(x, w, k, id);
    }
    forall j | 0 <= j < |v.puts| ensures PutOk(x, v, v.puts[j]) {
      PutLeavesPutsOk(x, w, k, j);
    }
    hide MemoryOk, PhaseOk, Covered;
  }

  lemma AnswerKeeps(x: Setting, w: World, id: Id)
    requires Inv(x, w) && WellFormed(x, w) && Enabled(x, w, Answers(id))
    ensures Inv(x, Step(x, w, Answers(id)))
  {
    hide Inv;
    InvIsWellFormed(x, w);
    var Awaiting(s, k) := w.phase[id];
    assert PutOk(x, w, w.puts[k]);
    var m := if w.puts[k].fate == Landed then w.memory[id].(held := Some(s + x.config[id].offset)) else w.memory[id];
    MovingKeeps(x, w, id, m, Resting);
    assert w.memory[id := w.memory[id]] == w.memory;
  }

  lemma OtherStepKeeps(x: Setting, w: World, ev: Event)
    requires Inv(x, w) && Enabled(x, w, ev)
    requires ev.Starts? || ev.LosesGet? || ev.LosesAnswer?
    ensures Inv(x, Step(x, w, ev))
  {
    assert MemoryOk(x, w, ev.id) && PhaseOk(x, w, ev.id);
    MovingKeeps(x, w, ev.id, w.memory[ev.id], if ev.Starts? then Sampled(w.now) else Resting);
    assert w.memory[ev.id := w.memory[ev.id]] == w.memory;
  }

  /** A controller that starts over remembers nothing, so nothing it wrote before,
      even if it lands later, is counted on. */
  lemma RestartKeeps(x: Setting, w: World, id: Id)
    requires Inv(x, w) && Enabled(x, w, Restarts(id))
    ensures Inv(x, Step(x, w, Restarts(id)))
  {
    MovingKeeps(x, w, id, FORGETFUL, Resting);
  }

  lemma GivingBackKeeps(x: Setting, w: World, id: Id)
    requires Inv(x, w) && Enabled(x, w, GivesBack(id))
    ensures Inv(x, Step(x, w, GivesBack(id)))
  {
    WritingKeeps(x, w, id, Put(id, w.now, Version(w), w.lease.value.lasts, Pending), w.phase[id]);
    assert w.phase[id := w.phase[id]] == w.phase;
  }

  lemma {:induction false} RunKeeps(x: Setting, w: World, evs: seq<Event>)
    requires Inv(x, w) && Bounded(x)
    ensures Inv(x, Run(x, w, evs))
    decreases |evs|
  {
    hide Inv, Step;
    if evs == [] {
      return;
    }
    var ev := evs[0];
    InvIsWellFormed(x, w);
    if Enabled(x, w, ev) {
      match ev {
        case Passes(t) => TimePasses(x, w, t); PassingIsAStep(x, w, t);
        case ServesGet(id) => GetKeeps(x, w, id);
        case ServesPut(k) => PutKeeps(x, w, k);
        case Answers(id) => AnswerKeeps(x, w, id);
        case GivesBack(id) => GivingBackKeeps(x, w, id);
        case Restarts(id) => RestartKeeps(x, w, id);
        case _ => OtherStepKeeps(x, w, ev);
      }
      RunKeeps(x, Step(x, w, ev), evs[1..]);
    } else {
      RunKeeps(x, w, evs[1..]);
    }
  }

  lemma PassingIsAStep(x: Setting, w: World, t: nat)
    requires WellFormed(x, w)
    ensures Step(x, w, Passes(t)) == w.(now := w.now + t)
  {
  }

  /** No two controllers ever both pass the freshness test at the same instant:
      for any number of them, any clocks, and any interleaving of slow requests
      and lost answers. */
  lemma AtMostOneActs(x: Setting, w: World, evs: seq<Event>, a: Id, b: Id)
    requires Init(x, w) && Bounded(x)
    requires Acts(x, Run(x, w, evs), a) && Acts(x, Run(x, w, evs), b)
    ensures a == b
  {
    RunKeeps(x, w, evs);
    var v := Run(x, w, evs);
    assert MemoryOk(x, v, a) && MemoryOk(x, v, b);
  }

  // ----- the bound is exact

  /** An attempt nothing gets in the way of. */
  function Attempt(w: World, id: Id): seq<Event> {
    [Starts(id), ServesGet(id), ServesPut(|w.puts|), Answers(id)]
  }

  lemma RunsOne(x: Setting, w: World, evs: seq<Event>)
    requires WellFormed(x, w) && evs != [] && Enabled(x, w, evs[0])
    ensures Run(x, w, evs) == Run(x, Step(x, w, evs[0]), evs[1..])
  {
  }

  lemma Asks(x: Setting, w: World, id: Id, rest: seq<Event>)
    requires WellFormed(x, w) && id in x.config && w.phase[id].Resting?
    requires Read(id, w.memory[id], w.now + x.config[id].offset, w.lease) == (w.memory[id], Write(Version(w)))
    ensures var put := Put(id, w.now, Version(w), WholeSeconds(x.config[id].duration), Pending);
      Run(x, w, [Starts(id), ServesGet(id)] + rest) ==
      Run(x, w.(phase := w.phase[id := Awaiting(w.now, |w.puts|)], puts := w.puts + [put]), rest)
  {
    hide Run;
    var evs := [Starts(id), ServesGet(id)] + rest;
    RunsOne(x, w, evs);
    var w1 := w.(phase := w.phase[id := Sampled(w.now)]);
    RunsOne(x, w1, evs[1..]);
    assert evs[1..][1..] == rest;
    assert w.memory[id := w.memory[id]] == w.memory;
    assert w1.phase[id := Awaiting(w.now, |w.puts|)] == w.phase[id := Awaiting(w.now, |w.puts|)];
  }

  lemma Lands(x: Setting, w: World, id: Id, k: nat)
    requires WellFormed(x, w) && id in x.config && k < |w.puts|
    requires w.puts[k].writer == id && w.puts[k].fate == Pending && w.puts[k].expects == Version(w)
    requires w.phase[id] == Awaiting(w.puts[k].sample, k)
    ensures var v := Run(x, w, [ServesPut(k), Answers(id)]);
      && v.now == w.now && v.written == w.now && v.phase == w.phase[id := Resting]
      && v.lease.Some? && v.lease.value.holder == id && v.lease.value.lasts == w.puts[k].lasts
      && v.memory == w.memory[id := w.memory[id].(held := Some(w.puts[k].sample + x.config[id].offset))]
  {
    hide Run;
    var evs := [ServesPut(k), Answers(id)];
    RunsOne(x, w, evs);
    var w1 := Step(x, w, evs[0]);
    RunsOne(x, w1, evs[1..]);
    RunsNone(x, Step(x, w1, Answers(id)), evs[1..][1..]);
  }

  /** If the Lease is there to be taken, an undisturbed attempt takes it, and the
      controller acts from the moment it started. */
  lemma UndisturbedAttemptTakesIt(x: Setting, w: World, id: Id)
    requires WellFormed(x, w) && id in x.config && w.phase[id].Resting?
    requires Read(id, w.memory[id], w.now + x.config[id].offset, w.lease) == (w.memory[id], Write(Version(w)))
    ensures var v := Run(x, w, Attempt(w, id));
      && v.now == w.now && v.written == w.now && v.phase == w.phase
      && v.lease.Some? && v.lease.value.holder == id && v.lease.value.lasts == WholeSeconds(x.config[id].duration)
      && v.memory == w.memory[id := w.memory[id].(held := Some(w.now + x.config[id].offset))]
  {
    hide Run, Read;
    var k := |w.puts|;
    Asks(x, w, id, [ServesPut(k), Answers(id)]);
    assert Attempt(w, id) == [Starts(id), ServesGet(id)] + [ServesPut(k), Answers(id)];
    var put := Put(id, w.now, Version(w), WholeSeconds(x.config[id].duration), Pending);
    var w1 := w.(phase := w.phase[id := Awaiting(w.now, k)], puts := w.puts + [put]);
    Lands(x, w1, id, k);
    assert w1.phase[id := Resting] == w.phase;
  }

  lemma RunsNone(x: Setting, w: World, evs: seq<Event>)
    requires WellFormed(x, w) && evs == []
    ensures Run(x, w, evs) == w
  {
  }

  lemma {:induction false} RunConcat(x: Setting, w: World, a: seq<Event>, b: seq<Event>)
    requires WellFormed(x, w)
    ensures Run(x, w, a + b) == Run(x, Run(x, w, a), b)
    decreases |a|
  {
    if a == [] {
      assert a + b == b;
    } else {
      assert (a + b)[1..] == a[1..] + b;
      RunConcat(x, if Enabled(x, w, a[0]) then Step(x, w, a[0]) else w, a[1..], b);
    }
  }

  /** Controllers `a` and `b`, whatever their clocks say, before either has asked
      for anything. */
  predicate JustStarted(x: Setting, w: World, a: Id, b: Id) {
    && Init(x, w) && w.lease.None? && a != b && a in x.config && b in x.config
  }

  /** With the delay allowed to be any longer than the bound, two controllers can
      both pass the freshness test at once: one samples its clock, is held up while
      the other takes the Lease, and so counts the Lease's silence from before it
      began. */
  lemma BeyondTheBoundTwoAct(x: Setting, w: World, a: Id, b: Id) returns (evs: seq<Event>)
    requires JustStarted(x, w, a, b)
    requires x.delay + x.config[a].duration / 2 > WholeSeconds(x.config[a].duration)
    ensures Acts(x, Run(x, w, evs), a) && Acts(x, Run(x, w, evs), b)
  {
    hide Run;
    var lasts := WholeSeconds(x.config[a].duration);
    var half := x.config[a].duration / 2;
    var late := if lasts + 1 >= half then lasts + 1 - half else 0;
    var w1 := Late(x, w, b, late);
    UndisturbedAttemptTakesIt(x, w1, a);
    var w2 := Run(x, w1, Attempt(w1, a));
    var w3 := Noticed(x, w2, b, late);
    UndisturbedAttemptTakesIt(x, w3, b);
    var early, mid := [Starts(b), Passes(late)], [ServesGet(b), Passes(lasts + 1 - late)];
    evs := early + Attempt(w1, a) + mid + Attempt(w3, b);
    RunConcat(x, w, early + Attempt(w1, a) + mid, Attempt(w3, b));
    RunConcat(x, w, early + Attempt(w1, a), mid);
    RunConcat(x, w, early, Attempt(w1, a));
  }

  ghost predicate Exclusive(x: Setting, w: World)
    requires WellFormed(x, w)
  {
    forall evs, a, b :: Acts(x, Run(x, w, evs), a) && Acts(x, Run(x, w, evs), b) ==> a == b
  }

  /** Exactly when the Lease excludes: when the delay is within the bound for every
      controller. */
  lemma BoundIsExact(x: Setting, w: World, a: Id, b: Id)
    requires JustStarted(x, w, a, b)
    ensures Bounded(x) <==> Exclusive(x, w)
  {
    if Bounded(x) {
      forall evs, i, j | Acts(x, Run(x, w, evs), i) && Acts(x, Run(x, w, evs), j) ensures i == j {
        AtMostOneActs(x, w, evs, i, j);
      }
    } else {
      var i :| i in x.config && x.delay + x.config[i].duration / 2 > WholeSeconds(x.config[i].duration);
      var evs := BeyondTheBoundTwoAct(x, w, i, if i == a then b else a);
    }
  }

  lemma Late(x: Setting, w: World, b: Id, late: nat) returns (v: World)
    requires WellFormed(x, w) && b in x.config && w.phase[b].Resting?
    ensures v == Run(x, w, [Starts(b), Passes(late)])
    ensures v == w.(phase := w.phase[b := Sampled(w.now)], now := w.now + late)
  {
    hide Run;
    var evs := [Starts(b), Passes(late)];
    RunsOne(x, w, evs);
    RunsOne(x, Step(x, w, evs[0]), evs[1..]);
    v := w.(phase := w.phase[b := Sampled(w.now)], now := w.now + late);
    RunsNone(x, v, evs[1..][1..]);
  }

  lemma Noticed(x: Setting, w: World, b: Id, late: nat) returns (v: World)
    requires WellFormed(x, w) && b in x.config && w.phase[b] == Sampled(w.now - late) && late <= x.delay
    requires w.lease.Some? && w.lease.value.holder != b && w.memory[b].seenVersion != Version(w)
    requires late <= w.lease.value.lasts + 1
    ensures WellFormed(x, v)
    ensures v == Run(x, w, [ServesGet(b), Passes(w.lease.value.lasts + 1 - late)])
    ensures v == w.(phase := w.phase[b := Resting], now := w.now + w.lease.value.lasts + 1 - late,
                    memory := w.memory[b := Watch(w.memory[b], w.lease.value, w.now - late + x.config[b].offset)])
  {
    hide Run;
    var evs := [ServesGet(b), Passes(w.lease.value.lasts + 1 - late)];
    RunsOne(x, w, evs);
    RunsOne(x, Step(x, w, evs[0]), evs[1..]);
    v := w.(phase := w.phase[b := Resting], now := w.now + w.lease.value.lasts + 1 - late,
            memory := w.memory[b := Watch(w.memory[b], w.lease.value, w.now - late + x.config[b].offset)]);
    RunsNone(x, v, evs[1..][1..]);
  }
}
