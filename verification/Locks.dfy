/**
 The two kinds of mutex made explicit: one m_mutex per port and the one g_startedMutex.

 A step that needs locks first takes them, one at a time, then acts and releases them.  Only
 a start() that is about to fail takes g_startedMutex while it holds a port's m_mutex.
*/
module Locks {
  import opened Common
  import opened Lifecycle
  import opened Service

  /** The service with the holder of each mutex. */
  datatype Locked = Locked(service: Service, ports: seq<Option<nat>>, slots: Option<(nat, nat)>)

  datatype LockLabel =
    | TakePort(port: nat, call: nat)
    | TakeSlots(port: nat, call: nat)
    | Act(step: Label)

  /** The step runs under the port's m_mutex. */
  predicate NeedsPort(pc: Pc) {
    match pc
    case Open(o) => o.OpenEnter? || o.OpenAbort? || o.OpenReady?
    case Start(s) => s.StartEnter? || s.StartRead? || s.StartFinish? || s.StartStamp?
    case Stop(t) => t.StopEnter? || t.StopReady?
    case Close(c) => c.CloseEnter? || c.CloseRetire?
    case Tail => true
    case Death(_, d) =>
      d.DeathEnter? || d.DeathReady? || d.DeathCloseEnter? || d.DeathRetire?
    case Done(_) => false
  }

  /** The step runs under g_startedMutex. */
  predicate NeedsSlots(pc: Pc, state: State) {
    || pc == Start(StartGate) || pc == Stop(StopRelease)
    || (pc.Death? && pc.d.DeathRelease?)
    || (pc == Start(StartEnter) && state != Ready)
  }

  /** The step dispatches a callback or another binder call. */
  predicate CallsOut(pc: Pc) {
    match pc
    case Open(o) => o.OpenLink? || o.OpenAnnounce? || o.OpenGreet? || o.OpenPublish?
    case Start(s) => s.StartAnnounce? || s.StartNotify? || s.StartPublish? || s.StartTelemetry?
    case Stop(t) => t.StopAnnounce? || t.StopPublish?
    case Close(c) => c.CloseAnnounce? || c.CloseUnlink? || c.ClosePublish?
    case Death(_, d) =>
      d.DeathAnnounceStop? || d.DeathPublishReady? || d.DeathAnnounceClose? || d.DeathPublishClosed?
    case _ => false
  }

  /** A step either calls out, or runs under a lock; never both. */
  lemma CallsOutOrLocks(pc: Pc, state: State)
    requires !pc.Done?
    ensures CallsOut(pc) <==> !NeedsPort(pc) && !NeedsSlots(pc, state)
  {
  }

  predicate Live(s: Service, p: nat, c: nat) {
    Enabled(s, Run(p, c))
  }

  function PcOf(l: Locked, p: nat, c: nat): Pc
    requires Live(l.service, p, c)
  {
    l.service.cells[p].calls[c]
  }

  predicate HasPort(l: Locked, p: nat, c: nat) {
    p < |l.ports| && l.ports[p] == Some(c)
  }

  predicate HasSlots(l: Locked, p: nat, c: nat) {
    l.slots == Some((p, c))
  }

  predicate WantsPort(l: Locked, p: nat, c: nat) {
    Live(l.service, p, c) && NeedsPort(PcOf(l, p, c)) && !HasPort(l, p, c)
  }

  /** g_startedMutex is wanted once the port lock, if needed, is held. */
  predicate WantsSlots(l: Locked, p: nat, c: nat) {
    Live(l.service, p, c) && !WantsPort(l, p, c) && !HasSlots(l, p, c) &&
    NeedsSlots(PcOf(l, p, c), l.service.cells[p].port.state)
  }

  predicate CanTake(l: Locked, x: LockLabel) {
    match x
    case TakePort(p, c) => WantsPort(l, p, c) && p < |l.ports| && l.ports[p].None?
    case TakeSlots(p, c) => WantsSlots(l, p, c) && l.slots.None?
    case Act(step) =>
      Enabled(l.service, step) &&
      (step.Run? ==> !WantsPort(l, step.port, step.call) && !WantsSlots(l, step.port, step.call))
  }

  function Take(l: Locked, x: LockLabel): Locked
    requires CanTake(l, x)
  {
    match x
    case TakePort(p, c) => l.(ports := l.ports[p := Some(c)])
    case TakeSlots(p, c) => l.(slots := Some((p, c)))
    case Act(step) =>
      var after := l.(service := Apply(l.service, step));
      if step.Run? then
        after.(ports := if HasPort(l, step.port, step.call) then l.ports[step.port := None] else l.ports,
               slots := if HasSlots(l, step.port, step.call) then None else l.slots)
      else after
  }

  predicate CanTakeAll(l: Locked, run: seq<LockLabel>)
    decreases |run|
  {
    run == [] || (CanTake(l, run[0]) && CanTakeAll(Take(l, run[0]), run[1..]))
  }

  function TakeAll(l: Locked, run: seq<LockLabel>): Locked
    requires CanTakeAll(l, run)
    decreases |run|
  {
    if run == [] then l else TakeAll(Take(l, run[0]), run[1..])
  }

  /** The atomic steps of a run. */
  function Steps(run: seq<LockLabel>): seq<Label> {
    if run == [] then []
    else if run[0].Act? then [run[0].step] + Steps(run[1..])
    else Steps(run[1..])
  }

  function Unlocked(s: Service): Locked {
    Locked(s, seq(|s.cells|, _ => None), None)
  }

  /** Whoever holds a lock is in flight and about to act under it. */
  ghost predicate LocksOk(l: Locked) {
    && |l.ports| == |l.service.cells|
    && (forall p :: 0 <= p < |l.ports| && l.ports[p].Some? ==>
          Live(l.service, p, l.ports[p].value) && NeedsPort(PcOf(l, p, l.ports[p].value)))
    && (l.slots.Some? ==>
          var (p, c) := l.slots.value;
          && Live(l.service, p, c)
          && NeedsSlots(PcOf(l, p, c), l.service.cells[p].port.state)
          && !WantsPort(l, p, c))
  }

  // ----- locking adds nothing to the atomic runs

  /** Every run with explicit locks is an atomic run, with the locks forgotten. */
  lemma {:induction false} LockedRunsAreRuns(l: Locked, run: seq<LockLabel>)
    requires CanTakeAll(l, run)
    ensures CanExec(l.service, Steps(run))
    ensures TakeAll(l, run).service == Exec(l.service, Steps(run))
    decreases |run|
  {
    if run != [] {
      LockedRunsAreRuns(Take(l, run[0]), run[1..]);
      if run[0].Act? {
        assert Steps(run)[1..] == Steps(run[1..]);
      }
    }
  }

  // ----- discipline

  /** A step without the port's lock leaves its state alone. */
  lemma StateNeedsPort(w: World, pc: Pc)
    requires !pc.Done? && !NeedsPort(pc)
    ensures Advance(w, pc).0.port.state == w.port.state
  {
  }

  /** What the holder of g_startedMutex keeps while another call steps. */
  lemma SlotsHolderKeeps(l: Locked, x: LockLabel, p: nat, c: nat)
    requires LocksOk(l) && CanTake(l, x) && HasSlots(l, p, c) && HasSlots(Take(l, x), p, c)
    ensures var m := Take(l, x);
            && Live(m.service, p, c)
            && NeedsSlots(PcOf(m, p, c), m.service.cells[p].port.state)
            && !WantsPort(m, p, c)
  {
    if x.Act? && x.step.Run? && x.step.port == p {
      assert x.step.call != c;
      var cell := l.service.cells[p];
      var pc := cell.calls[x.step.call];
      if !NeedsPort(pc) { StateNeedsPort(WorldOf(l.service, cell), pc); }
      assert PcOf(Take(l, x), p, c) == cell.calls[c];
    }
  }

  /** What the holder of a port's lock keeps while another call steps. */
  lemma PortHolderKeeps(l: Locked, x: LockLabel, p: nat, c: nat)
    requires LocksOk(l) && CanTake(l, x) && HasPort(l, p, c) && HasPort(Take(l, x), p, c)
    ensures Live(Take(l, x).service, p, c) && NeedsPort(PcOf(Take(l, x), p, c))
  {
  }

  lemma TakeKeepsLocks(l: Locked, x: LockLabel)
    requires LocksOk(l) && CanTake(l, x)
    ensures LocksOk(Take(l, x))
  {
    var m := Take(l, x);
    forall p | 0 <= p < |m.ports| && m.ports[p].Some?
      ensures Live(m.service, p, m.ports[p].value) && NeedsPort(PcOf(m, p, m.ports[p].value))
    {
      if HasPort(l, p, m.ports[p].value) { PortHolderKeeps(l, x, p, m.ports[p].value); }
    }
    if m.slots.Some? && m.slots == l.slots {
      SlotsHolderKeeps(l, x, m.slots.value.0, m.slots.value.1);
    }
  }

  lemma {:induction false} TakeAllKeepsLocks(l: Locked, run: seq<LockLabel>)
    requires LocksOk(l) && CanTakeAll(l, run)
    ensures LocksOk(TakeAll(l, run))
    decreases |run|
  {
    if run != [] {
      TakeKeepsLocks(l, run[0]);
      TakeAllKeepsLocks(Take(l, run[0]), run[1..]);
    }
  }

  /**
   In every reachable state: who holds g_startedMutex waits for no m_mutex and can act at
   once; no callback is dispatched under a lock; and some call can always go on, so there is
   no deadlock.
  */
  lemma LockDiscipline(ports: nat, requested: int, run: seq<LockLabel>)
    requires CanTakeAll(Unlocked(Init(ports, requested)), run)
    ensures var l := TakeAll(Unlocked(Init(ports, requested)), run);
            && (forall p, c :: HasSlots(l, p, c) ==> !WantsPort(l, p, c) && CanTake(l, Act(Run(p, c))))
            && (forall p, c :: Live(l.service, p, c) && CallsOut(PcOf(l, p, c)) ==>
                  !HasPort(l, p, c) && !HasSlots(l, p, c))
            && (forall p, c :: Live(l.service, p, c) ==> exists x :: CanTake(l, x) && (x.Act? ==> x.step.Run?))
  {
    var l0 := Unlocked(Init(ports, requested));
    assert LocksOk(l0);
    TakeAllKeepsLocks(l0, run);
    var l := TakeAll(l0, run);
    forall p: nat, c: nat | Live(l.service, p, c) && CallsOut(PcOf(l, p, c))
      ensures !HasPort(l, p, c) && !HasSlots(l, p, c)
    {
      CallsOutOrLocks(PcOf(l, p, c), l.service.cells[p].port.state);
    }
    forall p, c | Live(l.service, p, c)
      ensures exists x :: CanTake(l, x) && (x.Act? ==> x.step.Run?)
    {
      var x := SomeoneCanGoOn(l, p, c);
    }
  }

  lemma SomeoneCanGoOn(l: Locked, p: nat, c: nat) returns (x: LockLabel)
    requires LocksOk(l) && Live(l.service, p, c)
    ensures CanTake(l, x) && (x.Act? ==> x.step.Run?)
  {
    if l.slots.Some? {
      x := Act(Run(l.slots.value.0, l.slots.value.1));
    } else if WantsPort(l, p, c) && l.ports[p].Some? {
      var d := l.ports[p].value;
      x := if WantsSlots(l, p, d) then TakeSlots(p, d) else Act(Run(p, d));
    } else if WantsPort(l, p, c) {
      x := TakePort(p, c);
    } else if WantsSlots(l, p, c) {
      x := TakeSlots(p, c);
    } else {
      x := Act(Run(p, c));
    }
  }
}
