/**
 What becomes of a delivered death: when its flag is watched, when it is left parked on a
 started port, and what a cleanup may still touch once its session is over.
*/
module Deaths {
  import opened Common
  import opened Lifecycle
  import opened Service
  import opened Ownership

  /** A pending flag on a ready port has a call in flight that will look at it. */
  ghost predicate Watched(cell: Cell) {
    cell.port.pending && cell.port.state.Ready? ==> Sum(TailBound, cell.calls) > 0
  }

  /** The flag is set and no call in flight is certain to look at it or to end the session. */
  ghost predicate Parked(cell: Cell) {
    && cell.port.pending
    && Sum(Owning, cell.calls) == 0
    && Sum(TailBound, cell.calls) == 0
  }

  /** The guard of the close-stage deferral, taken on a started port with nobody to pick it up. */
  ghost predicate Parks(cell: Cell, call: nat)
    requires call < |cell.calls|
  {
    && cell.calls[call] == Death(cell.port.epoch, DeathCloseEnter)
    && cell.port.state.Started?
    && Sum(TailBound, cell.calls) == 0
  }

  ghost function AfterRun(s: Service, port: nat, call: nat): Cell
    requires Enabled(s, Run(port, call))
  {
    Apply(s, Run(port, call)).cells[port]
  }

  /** How a step can touch the flag and the calls that watch it. */
  lemma StepMovesFlag(w: World, pc: Pc)
    requires !pc.Done? && StepPre(w.port, pc)
    requires Cleans(pc) == Some(w.port.epoch) ==> !w.port.pending
    ensures var (v, next) := Advance(w, pc);
            && (v.port.pending && !w.port.pending ==>
                  && v.port.state == w.port.state
                  && (Transient(w.port.state) || (w.port.state.Started? && pc == Death(w.port.epoch, DeathCloseEnter))))
            && (v.port.pending && w.port.pending && v.port.state.Ready? && !w.port.state.Ready? ==> BoundToTail(next))
            && (v.port.pending && w.port.pending && BoundToTail(pc) ==> BoundToTail(next))
  {
    hide Rank, Releasing, PastGate;
  }

  lemma RunKeepsWatch(cell: Cell, w: World, call: nat)
    requires CoreInv(cell) && Watched(cell)
    requires w.port == cell.port && call < |cell.calls| && !cell.calls[call].Done?
    ensures var (v, next) := Advance(w, cell.calls[call]); Watched(Moved(cell, call, v.port, next))
  {
    FlagFollows(cell);
    var pc := cell.calls[call];
    var (v, next) := Advance(w, pc);
    StepMovesFlag(w, pc);
    SumUpdate(TailBound, cell.calls, call, next);
    SumAtLeast(TailBound, cell.calls[call := next], call);
  }

  /** A parked session sits in Started: nothing else can be parked. */
  lemma ParkedIsStarted(cell: Cell)
    requires CoreInv(cell) && Watched(cell) && Parked(cell)
    ensures cell.port.state.Started?
    ensures forall i :: 0 <= i < |cell.calls| ==> Cleans(cell.calls[i]) != Some(cell.port.epoch)
  {
    FlagFollows(cell);
  }

  lemma StepTowardsPark(w: World, pc: Pc)
    requires !pc.Done? && StepPre(w.port, pc)
    requires Cleans(pc) == Some(w.port.epoch) ==> !w.port.pending
    ensures var (v, next) := Advance(w, pc);
            && (v.port.pending && w.port.pending && (Owned(pc).Some? || BoundToTail(pc)) ==>
                  Owned(next).Some? || BoundToTail(next))
            && (pc == Death(w.port.epoch, DeathCloseEnter) && w.port.state.Started? ==>
                  v.port.pending && v.port.state == w.port.state && next == Done(Ok))
  {
    hide Rank, Releasing, PastGate;
  }

  /**
   A run of one call leaves a session parked that was not parked before exactly when it is
   the close-stage deferral on a started port with no call bound to its tail.
  */
  lemma ParkingIsTheDeferral(s: Service, port: nat, call: nat)
    requires Enabled(s, Run(port, call))
    requires CoreInv(s.cells[port]) && Watched(s.cells[port]) && !Parked(s.cells[port])
    ensures Parked(AfterRun(s, port, call)) <==> Parks(s.cells[port], call)
  {
    var cell := s.cells[port];
    var pc := cell.calls[call];
    var w := WorldOf(s, cell);
    var (v, next) := Advance(w, pc);
    FlagFollows(cell);
    StepMovesFlag(w, pc);
    StepTowardsPark(w, pc);
    SumUpdate(Owning, cell.calls, call, next);
    SumUpdate(TailBound, cell.calls, call, next);
    StepKeepsOwn(w, pc);
    RunKeepsCore(cell, w, call);
    RunKeepsWatch(cell, w, call);
  }

  /** A parked session is left exactly by a stop() that takes the port out of Started. */
  lemma StopEndsParking(s: Service, port: nat, call: nat)
    requires Enabled(s, Run(port, call))
    requires CoreInv(s.cells[port]) && Watched(s.cells[port]) && Parked(s.cells[port])
    ensures !Parked(AfterRun(s, port, call)) <==> s.cells[port].calls[call] == Stop(StopEnter)
  {
    var cell := s.cells[port];
    var pc := cell.calls[call];
    var w := WorldOf(s, cell);
    var (v, next) := Advance(w, pc);
    ParkedIsStarted(cell);
    SumAtLeast(Owning, cell.calls, call);
    SumAtLeast(TailBound, cell.calls, call);
    SumUpdate(Owning, cell.calls, call, next);
    SumUpdate(TailBound, cell.calls, call, next);
  }

  // ----- stale cleanups

  /** The fields a session owns. */
  ghost predicate SameSession(p: Port, q: Port) {
    && p.state == q.state && p.trail == q.trail
    && p.epoch == q.epoch && p.pending == q.pending
    && p.controller == q.controller && p.listener == q.listener && p.recipient == q.recipient
  }

  /**
   A cleanup that changes any session field does so inside its own session; outside it, it
   can only publish an edge it already carries or give back the slot it already holds.
  */
  lemma CleanupActsInItsSession(w: World, session: nat, d: DeathPc)
    requires LocalOk(w.port, Death(session, d))
    ensures var (v, next) := AdvanceDeath(w, session, d);
            && (!SameSession(w.port, v.port) ==> w.port.epoch == session)
            && (v.started != w.started ==> d.DeathRelease? && Weigh(Holding, Death(session, d)) == 1)
            && (next.Done? || (next.Death? && next.session == session))
            && (session < w.port.epoch ==> v.port.epoch == w.port.epoch && Owned(next).None?)
  {
  }
}
