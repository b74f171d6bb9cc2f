/**
 The lifecycle and the data of every port together: the steps of the service with what each
 locked region does to the port's cache, status and counters, and the regions that touch only
 those, in any interleaving.
*/
module Sessions {
  import opened Common
  import opened Lifecycle
  import opened Service
  import opened Ownership
  import opened Slots
  import opened Publication
  import opened Reachable
  import opened Properties

  datatype Joint = Joint(service: Service, data: seq<Data>, caps: seq<PortCapabilities>)

  /** A step of the service, at the time `now`; or a client or UT region that touches one port's data. */
  datatype JointStep = Call(l: Label, now: int) | Touch(port: nat, action: Action)

  /** What a step of a call does to the data of its port, region by region. */
  function DataStep(p: Port, pc: Pc, now: int): Option<Action> {
    match pc
    case Open(o) =>
      if o.OpenEnter? && p.state.Closed? then Some(Enter(Opening))
      else if o.OpenAbort? then Some(EndSession)
      else if o.OpenReady? then Some(Enter(Ready))
      else None
    case Start(s) =>
      if s.StartEnter? && p.state.Ready? then Some(Enter(Starting))
      else if s.StartFinish? then Some(Enter(Started))
      else if s.StartStamp? then Some(StampStart(now))
      else None
    case Stop(t) =>
      if t.StopEnter? && p.state.Started? then Some(Enter(Stopping))
      else if t.StopReady? then Some(Enter(Ready))
      else None
    case Close(c) =>
      if c.CloseEnter? && p.state.Ready? && p.controller == Some(c.presented) then Some(Enter(Closing))
      else if c.CloseRetire? then Some(EndSession)
      else None
    case Death(session, d) =>
      if d.DeathEnter? && p.epoch == session && p.state.Started? then Some(Enter(Stopping))
      else if d.DeathReady? then Some(Enter(Ready))
      else if d.DeathCloseEnter? && p.epoch == session && p.state.Ready? then Some(Enter(Closing))
      else if d.DeathRetire? then Some(EndSession)
      else None
    case _ => None
  }

  predicate DataOnly(a: Action) {
    a.Write? || a.WriteBatch? || a.ResetMetrics? || a.Ut?
  }

  predicate Aligned(j: Joint) {
    |j.data| == |j.service.cells| == |j.caps|
  }

  predicate CanTake(j: Joint, x: JointStep) {
    && Aligned(j)
    && match x
       case Call(l, _) => Enabled(j.service, l)
       case Touch(p, a) => p < |j.data| && DataOnly(a)
  }

  /** The data of a port after an optional region. */
  function Apply1(caps: PortCapabilities, d: Data, a: Option<Action>): Data {
    if a.Some? then Act(caps, d, a.value) else d
  }

  function RegionOf(j: Joint, x: JointStep, p: nat): Option<Action>
    requires CanTake(j, x) && p < |j.data|
  {
    match x
    case Call(l, now) =>
      if l.Run? && l.port == p then DataStep(j.service.cells[p].port, j.service.cells[p].calls[l.call], now) else None
    case Touch(q, a) => if q == p then Some(a) else None
  }

  function Take(j: Joint, x: JointStep): Joint
    requires CanTake(j, x)
  {
    Joint(if x.Call? then Apply(j.service, x.l) else j.service,
          seq(|j.data|, p requires 0 <= p < |j.data| => Apply1(j.caps[p], j.data[p], RegionOf(j, x, p))),
          j.caps)
  }

  predicate CanGo(j: Joint, run: seq<JointStep>)
    decreases |run|
  {
    run == [] || (CanTake(j, run[0]) && CanGo(Take(j, run[0]), run[1..]))
  }

  function Go(j: Joint, run: seq<JointStep>): Joint
    requires CanGo(j, run)
    decreases |run|
  {
    if run == [] then j else Go(Take(j, run[0]), run[1..])
  }

  /** The service after load with the data of its ports. */
  function Loaded(requested: int, caps: seq<PortCapabilities>): Joint {
    Joint(Init(|caps|, requested), seq(|caps|, p requires 0 <= p => NewData(p)), caps)
  }

  /** Every port's data has the state of the port and the shape of the data. */
  ghost predicate InPhase(j: Joint) {
    && Aligned(j)
    && (forall p :: 0 <= p < |j.data| ==>
          Shaped(j.data[p]) && j.data[p].state == j.service.cells[p].port.state)
  }

  // ----- one step

  lemma StatesMoveTogether(w: World, pc: Pc, caps: PortCapabilities, d: Data, now: int)
    requires !pc.Done? && d.state == w.port.state
    ensures Apply1(caps, d, DataStep(w.port, pc, now)).state == Advance(w, pc).0.port.state
  {
    hide Rank;
    match pc
    case Open(_) =>
    case Start(_) =>
    case Stop(_) =>
    case Close(_) =>
    case Tail =>
    case Death(_, _) =>
  }

  lemma DataOnlyKeepsState(caps: PortCapabilities, d: Data, a: Action)
    requires DataOnly(a)
    ensures Act(caps, d, a).state == d.state
  {
  }

  lemma TakeKeepsPhase(j: Joint, x: JointStep)
    requires InPhase(j) && CanTake(j, x)
    ensures InPhase(Take(j, x)) && |Take(j, x).data| == |j.data|
  {
    hide Shaped, Act, DataStep, Advance;
    var k := Take(j, x);
    forall p | 0 <= p < |j.data|
      ensures Shaped(k.data[p]) && k.data[p].state == k.service.cells[p].port.state
    {
      var a := RegionOf(j, x, p);
      if a.Some? { ActStaysShaped(j.caps[p], j.data[p], a.value); }
      if x.Touch? && x.port == p {
        DataOnlyKeepsState(j.caps[p], j.data[p], x.action);
      } else if x.Call? && x.l.Run? && x.l.port == p {
        var cell := j.service.cells[p];
        StatesMoveTogether(WorldOf(j.service, cell), cell.calls[x.l.call], j.caps[p], j.data[p], x.now);
      }
    }
  }

  lemma {:induction false} GoKeepsPhase(j: Joint, run: seq<JointStep>)
    requires InPhase(j) && CanGo(j, run)
    ensures InPhase(Go(j, run)) && |Go(j, run).data| == |j.data|
    decreases |run|
  {
    hide InPhase;
    if run != [] {
      TakeKeepsPhase(j, run[0]);
      GoKeepsPhase(Take(j, run[0]), run[1..]);
    }
  }

  lemma LoadedInPhase(requested: int, caps: seq<PortCapabilities>)
    ensures InPhase(Loaded(requested, caps))
  {
  }

  /** After any joint run: `active` means Started, and each port's data is well shaped. */
  lemma AlwaysInPhase(requested: int, caps: seq<PortCapabilities>, run: seq<JointStep>, p: nat)
    requires CanGo(Loaded(requested, caps), run) && p < |caps|
    ensures var j := Go(Loaded(requested, caps), run);
            && InPhase(j) && |j.data| == |caps|
            && (j.data[p].status.active <==> j.service.cells[p].port.state.Started?)
  {
    LoadedInPhase(requested, caps);
    GoKeepsPhase(Loaded(requested, caps), run);
  }

  // ----- into Closed

  /** The only regions that close a port are the three that end its session. */
  lemma ClosingEndsSession(w: World, pc: Pc, now: int)
    requires !pc.Done? && !w.port.state.Closed? && Advance(w, pc).0.port.state.Closed?
    ensures DataStep(w.port, pc, now) == Some(EndSession)
  {
    hide Rank;
  }

  /** What the end of a session leaves: no metric, no counter, and the hardware snapshot untouched. */
  ghost predicate Reset(d: Data, e: Data) {
    && e.state.Closed? && e.counters == Counters(0, 0, 0, 0, 0, 0)
    && e.cache.Keys == d.cache.Keys
    && (forall p <- SESSION_METRICS :: p in e.cache &&
          (d.cache[p].IntValue? ==> e.cache[p] == IntValue(0)) &&
          (d.cache[p].LongValue? ==> e.cache[p] == LongValue(0)))
    && (forall p <- SIGNALS :: p in e.cache && e.cache[p] == d.cache[p])
    && e.status == d.status.(active := false)
  }

  lemma EndResets(d: Data)
    requires Shaped(d)
    ensures Reset(d, SessionEnded(d))
  {
  }

  /**
   In every run of clients, control plane and death notifications, each step that takes a port
   into Closed, by whatever path, resets its session data and keeps its hardware snapshot.
  */
  lemma EveryPathIntoClosedResets(
    requested: int, caps: seq<PortCapabilities>, run: seq<JointStep>, x: JointStep, p: nat)
    requires CanGo(Loaded(requested, caps), run) && p < |caps|
    requires CanTake(Go(Loaded(requested, caps), run), x)
    ensures var j := Go(Loaded(requested, caps), run);
            var k := Take(j, x);
            && |j.data| == |k.data| == |j.service.cells| == |k.service.cells| == |caps|
            && (!j.service.cells[p].port.state.Closed? && k.service.cells[p].port.state.Closed? ==>
                  Reset(j.data[p], k.data[p]))
  {
    hide CanGo, Go, Reset, Shaped, Advance, SessionEnded, DataStep;
    var j := Go(Loaded(requested, caps), run);
    AlwaysInPhase(requested, caps, run, p);
    TakeKeepsPhase(j, x);
    var k := Take(j, x);
    if !j.service.cells[p].port.state.Closed? && k.service.cells[p].port.state.Closed? {
      var cell := j.service.cells[p];
      ClosingEndsSession(WorldOf(j.service, cell), cell.calls[x.l.call], x.now);
      EndResets(j.data[p]);
    }
  }

  // ----- the start timestamp of a closed port

  /** The call reaches the region of start() that stamps the start time. */
  predicate Stamps(j: Joint, x: JointStep, p: nat)
    requires CanTake(j, x) && p < |j.data|
  {
    x.Call? && x.l.Run? && x.l.port == p && j.service.cells[p].calls[x.l.call] == Start(StartStamp)
  }

  /** Whether a closed port has been stamped since it was closed, read off one more step. */
  predicate StampedAfter(j: Joint, x: JointStep, p: nat, was: bool)
    requires CanTake(j, x) && p < |j.data|
  {
    Take(j, x).service.cells[p].port.state.Closed? && if Stamps(j, x, p) then x.now != 0 else was
  }

  predicate StampedLate(j: Joint, run: seq<JointStep>, p: nat, was: bool)
    requires CanGo(j, run) && p < |j.data|
    decreases |run|
  {
    if run == [] then was else StampedLate(Take(j, run[0]), run[1..], p, StampedAfter(j, run[0], p, was))
  }

  ghost predicate StampOk(j: Joint, p: nat, was: bool)
    requires Aligned(j) && p < |j.data|
  {
    was == (j.service.cells[p].port.state.Closed? && j.data[p].counters.startTs != 0)
  }

  /** How one region changes the start timestamp. */
  lemma RegionAndStamp(caps: PortCapabilities, d: Data, a: Action)
    ensures !a.EndSession? && !a.StampStart? && !(a.ResetMetrics? && d.state.Started?) ==>
              Act(caps, d, a).counters == d.counters
    ensures a.EndSession? ==> Act(caps, d, a).counters.startTs == 0
    ensures a.StampStart? ==> Act(caps, d, a).counters.startTs == a.now
  {
  }

  lemma StepAndStamp(w: World, pc: Pc, now: int)
    requires !pc.Done? && Drives(w.port, pc)
    ensures var a, after := DataStep(w.port, pc, now), Advance(w, pc).0.port.state;
            && (a == Some(StampStart(now)) <==> pc == Start(StartStamp))
            && (a.Some? && a.value.StampStart? ==> a == Some(StampStart(now)))
            && (a.Some? ==> a.value.Enter? || a.value.EndSession? || a.value.StampStart?)
            && (a == Some(EndSession) ==> !w.port.state.Closed? && after.Closed?)
            && (after.Closed? && !w.port.state.Closed? ==> a == Some(EndSession))
            && (pc == Start(StartStamp) ==> after == w.port.state)
  {
    hide Rank;
  }

  lemma TakeKeepsStamp(j: Joint, x: JointStep, p: nat, was: bool)
    requires InPhase(j) && Inv(j.service) && CanTake(j, x) && p < |j.data| && StampOk(j, p, was)
    ensures Inv(Take(j, x).service) && p < |Take(j, x).data| && Aligned(Take(j, x))
    ensures StampOk(Take(j, x), p, StampedAfter(j, x, p, was))
  {
    hide Shaped, Act, DataStep, Advance, LogInv, Balanced, Periods;
    TakeKeepsPhase(j, x);
    if x.Call? { StepKeeps(j.service, x.l); }
    var a := RegionOf(j, x, p);
    if a.Some? { RegionAndStamp(j.caps[p], j.data[p], a.value); }
    if x.Call? && x.l.Run? && x.l.port == p {
      var cell := j.service.cells[p];
      assert CellInv(cell);
      StepAndStamp(WorldOf(j.service, cell), cell.calls[x.l.call], x.now);
    }
  }

  lemma {:induction false} GoKeepsStamp(j: Joint, run: seq<JointStep>, p: nat, was: bool)
    requires InPhase(j) && Inv(j.service) && CanGo(j, run) && p < |j.data| && StampOk(j, p, was)
    ensures p < |Go(j, run).data| && Aligned(Go(j, run)) && StampOk(Go(j, run), p, StampedLate(j, run, p, was))
    decreases |run|
  {
    hide StampOk, StampedAfter, Inv;
    if run != [] {
      TakeKeepsPhase(j, run[0]);
      TakeKeepsStamp(j, run[0], p, was);
      GoKeepsStamp(Take(j, run[0]), run[1..], p, StampedAfter(j, run[0], p, was));
    }
  }

  /**
   A closed port has a start timestamp exactly when a start() stamped it, with a time other than
   zero, after its session had already been closed.
  */
  lemma ClosedPortIsStampedLate(requested: int, caps: seq<PortCapabilities>, run: seq<JointStep>, p: nat)
    requires CanGo(Loaded(requested, caps), run) && p < |caps|
    ensures var j := Go(Loaded(requested, caps), run);
            && |j.data| == |j.service.cells| == |caps|
            && (j.service.cells[p].port.state.Closed? ==>
                  (j.data[p].counters.startTs != 0 <==> StampedLate(Loaded(requested, caps), run, p, false)))
  {
    hide Shaped, CellInv;
    InitKeeps(|caps|, requested);
    LoadedInPhase(requested, caps);
    GoKeepsPhase(Loaded(requested, caps), run);
    GoKeepsStamp(Loaded(requested, caps), run, p, false);
  }

  // ----- runs of the service are joint runs

  function At(run: seq<Label>, now: int): seq<JointStep> {
    seq(|run|, i requires 0 <= i < |run| => Call(run[i], now))
  }

  lemma {:induction false} RunsLift(j: Joint, run: seq<Label>, now: int)
    requires Aligned(j) && CanExec(j.service, run)
    ensures CanGo(j, At(run, now)) && Go(j, At(run, now)).service == Exec(j.service, run)
    ensures Aligned(Go(j, At(run, now))) && |Go(j, At(run, now)).data| == |j.data|
    decreases |run|
  {
    if run != [] {
      var k := Take(j, Call(run[0], now));
      RunsLift(k, run[1..], now);
      assert At(run, now)[1..] == At(run[1..], now);
    }
  }

  lemma {:induction false} LateAtTheEnd(j: Joint, run: seq<JointStep>, x: JointStep, p: nat, was: bool)
    requires CanGo(j, run) && CanTake(Go(j, run), x) && p < |j.data| && p < |Go(j, run).data|
    ensures CanGo(j, run + [x]) && Go(j, run + [x]) == Take(Go(j, run), x)
    ensures StampedLate(j, run + [x], p, was) == StampedAfter(Go(j, run), x, p, StampedLate(j, run, p, was))
    decreases |run|
  {
    if run == [] {
      assert run + [x] == [x] && [x][1..] == [];
    } else {
      LateAtTheEnd(Take(j, run[0]), run[1..], x, p, StampedAfter(j, run[0], p, was));
      assert (run + [x])[1..] == run[1..] + [x];
    }
  }
}
