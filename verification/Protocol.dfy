/**
 The main results about the protocol: any number of ports and clients, any interleaving,
 death notifications at any moment.
*/
module Protocol {
  import opened Common
  import opened Lifecycle
  import opened Service
  import opened Ownership
  import opened Slots
  import opened Deaths
  import opened Publication
  import opened Grammar
  import opened Serial
  import opened Reachable
  import opened Drain

  /** The service after a run from load. */
  function After(ports: nat, requested: int, run: seq<Label>): (s: Service)
    requires CanExec(Init(ports, requested), run)
    ensures |s.cells| == ports && s.limit == Sanitized(requested)
  {
    Reached(ports, requested, run);
    Exec(Init(ports, requested), run)
  }

  // ----- slots

  function StartedPorts(cells: seq<Cell>): nat {
    if cells == [] then 0
    else StartedPorts(cells[..|cells|-1]) + Bit(cells[|cells|-1].port.state.Started?)
  }

  lemma {:induction false} StartedPortsHoldSlots(cells: seq<Cell>)
    ensures StartedPorts(cells) <= Total(ByHolder, cells)
  {
    if cells != [] {
      StartedPortsHoldSlots(cells[..|cells|-1]);
    }
  }

  /**
   g_startedPorts is the number of slot holders, and equally the periods begun and not given
   back plus the calls just past the gate.  It never exceeds the limit, so no more ports are
   started than the limit allows, and no decrement is ever skipped.
  */
  lemma SlotConservation(ports: nat, requested: int, run: seq<Label>)
    requires CanExec(Init(ports, requested), run)
    ensures var s := After(ports, requested, run);
            && s.started == Total(ByHolder, s.cells)
            && s.started == Total(ByPeriod, s.cells)
            && StartedPorts(s.cells) <= s.started <= s.limit == Sanitized(requested)
            && (forall p, c ::
                  0 <= p < |s.cells| && 0 <= c < |s.cells[p].calls| && Weigh(Holding, s.cells[p].calls[c]) == 1 ==>
                    s.started > 0)
  {
    Reached(ports, requested, run);
    var s := After(ports, requested, run);
    StartedPortsHoldSlots(s.cells);
    forall p, c | 0 <= p < |s.cells| && 0 <= c < |s.cells[p].calls| && Weigh(Holding, s.cells[p].calls[c]) == 1
      ensures s.started > 0
    {
      HolderSeesSlot(s, p, c);
    }
  }

  // ----- ownership

  /** A transient port has exactly one owner; a stable one has none. */
  ghost predicate OwnedOnce(cell: Cell) {
    if Transient(cell.port.state)
    then exists i :: 0 <= i < |cell.calls| && Owned(cell.calls[i]) == Some(cell.port.state) &&
                     forall j :: 0 <= j < |cell.calls| && j != i ==> Owned(cell.calls[j]).None?
    else forall j :: 0 <= j < |cell.calls| ==> Owned(cell.calls[j]).None?
  }

  lemma CellIsOwnedOnce(cell: Cell)
    requires CoreInv(cell)
    ensures OwnedOnce(cell)
  {
    if Transient(cell.port.state) {
      var i := SumWitness(Owning, cell.calls);
      forall j | 0 <= j < |cell.calls| && j != i
        ensures Owned(cell.calls[j]).None?
      {
        OthersDoNotOwn(cell, i, j);
      }
    } else {
      forall j | 0 <= j < |cell.calls|
        ensures Owned(cell.calls[j]).None?
      {
        SumAtLeast(Owning, cell.calls, j);
      }
    }
  }

  lemma TransientOwnership(ports: nat, requested: int, run: seq<Label>, p: nat)
    requires CanExec(Init(ports, requested), run) && p < ports
    ensures OwnedOnce(After(ports, requested, run).cells[p])
    ensures forall c :: 0 <= c < |After(ports, requested, run).cells[p].calls| ==>
              Drives(After(ports, requested, run).cells[p].port, After(ports, requested, run).cells[p].calls[c])
  {
    Reached(ports, requested, run);
    CellIsOwnedOnce(After(ports, requested, run).cells[p]);
  }

  /** Only the owner takes a port out of a transient state, and it does so from the state it expects. */
  lemma OnlyTheOwnerLeaves(s: Service, l: Label, p: nat)
    requires Inv(s) && Enabled(s, l) && p < |s.cells|
    requires Transient(s.cells[p].port.state)
    requires Apply(s, l).cells[p].port.trail != s.cells[p].port.trail
    ensures l.Run? && l.port == p && Owned(s.cells[p].calls[l.call]) == Some(s.cells[p].port.state)
  {
    if l.Run? && l.port == p {
      StepTreatsLogs(WorldOf(s, s.cells[p]), s.cells[p].calls[l.call]);
    }
  }

  // ----- sessions

  /**
   The epoch tells whether a session is under way, and then the port has a controller and a
   listener; a session that is over has no flag and no recipient; a cleanup for the current
   session never finds the port closed; and the listener notified by start() is the one of
   the session being started.
  */
  ghost predicate SessionOk(cell: Cell) {
    var port := cell.port;
    && (port.epoch % 2 == 1 <==> !port.state.Closed?)
    && (port.controller.Some? <==> !port.state.Closed?)
    && (port.listener.Some? <==> !port.state.Closed?)
    && (port.state.Closed? ==> !port.pending && port.recipient.None?)
    && (forall c :: 0 <= c < |cell.calls| ==>
          && (Cleans(cell.calls[c]) == Some(port.epoch) ==> !port.state.Closed?)
          && (cell.calls[c].Start? && cell.calls[c].s.StartNotify? ==>
                port.state.Starting? && port.listener.Some? && cell.calls[c].s.heard == port.listener))
  }

  lemma CellSessionOk(cell: Cell)
    requires CoreInv(cell)
    ensures SessionOk(cell)
  {
    FlagFollows(cell);
  }

  lemma SessionCoupling(ports: nat, requested: int, run: seq<Label>, p: nat)
    requires CanExec(Init(ports, requested), run) && p < ports
    ensures SessionOk(After(ports, requested, run).cells[p])
  {
    hide Exec, CanExec, SessionOk;
    Reached(ports, requested, run);
    CellSessionOk(After(ports, requested, run).cells[p]);
  }

  // ----- deaths

  lemma CleanerUnique(cell: Cell, i: nat, j: nat)
    requires CoreInv(cell) && i < |cell.calls| && j < |cell.calls| && i != j
    requires Cleans(cell.calls[i]) == Some(cell.port.epoch)
    ensures Cleans(cell.calls[j]) != Some(cell.port.epoch) && !cell.port.pending
  {
    SumOfTwo(Cleaning(cell.port.epoch), cell.calls, if i < j then i else j, if i < j then j else i);
  }

  /**
   What has become of the delivered death of session e: its session is over, or its flag is
   set and no cleanup for it is in flight, or exactly one cleanup for it is and the flag is
   clear.
  */
  ghost predicate Accounted(cell: Cell, e: nat) {
    || e < cell.port.epoch
    || (e == cell.port.epoch && cell.port.pending &&
        forall c :: 0 <= c < |cell.calls| ==> Cleans(cell.calls[c]) != Some(e))
    || (e == cell.port.epoch && !cell.port.pending &&
        exists i :: 0 <= i < |cell.calls| && Cleans(cell.calls[i]) == Some(e) &&
                    forall j :: 0 <= j < |cell.calls| && j != i ==> Cleans(cell.calls[j]) != Some(e))
  }

  lemma DeathsAreAccounted(cell: Cell, e: nat)
    requires CoreInv(cell) && e in cell.port.delivered
    ensures Accounted(cell, e)
  {
    FlagFollows(cell);
    if e == cell.port.epoch && !cell.port.pending {
      var i := SumWitness(Cleaning(e), cell.calls);
      forall j | 0 <= j < |cell.calls| && j != i
        ensures Cleans(cell.calls[j]) != Some(e)
      {
        CleanerUnique(cell, i, j);
      }
    }
  }

  /**
   A delivered death is neither lost nor doubled in any reachable state, and a flag that is
   set is for the current session, whose death was delivered.
  */
  lemma DeathIsNeverDropped(ports: nat, requested: int, run: seq<Label>, p: nat, e: nat)
    requires CanExec(Init(ports, requested), run) && p < ports
    ensures var cell := After(ports, requested, run).cells[p];
            && (cell.port.pending ==> cell.port.epoch in cell.port.delivered)
            && (e in cell.port.delivered ==> Accounted(cell, e))
  {
    Reached(ports, requested, run);
    var cell := After(ports, requested, run).cells[p];
    FlagFollows(cell);
    if e in cell.port.delivered { DeathsAreAccounted(cell, e); }
  }

  /** Nothing a port has recorded is ever taken back. */
  ghost predicate Extends(p: Port, q: Port) {
    p.epoch <= q.epoch && p.delivered <= q.delivered && p.trail <= q.trail && p.published <= q.published
  }

  lemma StepExtends(w: World, pc: Pc)
    requires !pc.Done? && Drives(w.port, pc)
    ensures Extends(w.port, Advance(w, pc).0.port)
  {
    StepTreatsLogs(w, pc);
  }

  lemma {:induction false} ExecExtends(s: Service, run: seq<Label>, p: nat)
    requires Inv(s) && CanExec(s, run) && p < |s.cells|
    ensures p < |Exec(s, run).cells| && Extends(s.cells[p].port, Exec(s, run).cells[p].port)
    decreases |run|
  {
    if run != [] {
      var l := run[0];
      StepKeeps(s, l);
      if l.Run? && l.port == p { StepExtends(WorldOf(s, s.cells[p]), s.cells[p].calls[l.call]); }
      ExecExtends(Apply(s, l), run[1..], p);
    }
  }

  // ----- quiescence

  lemma QuietCounts(calls: seq<Pc>)
    requires Quiet(calls)
    ensures Sum(Owning, calls) == Sum(Holding, calls) == Sum(Ending, calls) == 0
    ensures Sum(TailBound, calls) == Sum(Gated, calls) == 0
    ensures forall e: nat :: Sum(Cleaning(e), calls) == 0
  {
    SumZero(Owning, calls);
    SumZero(Holding, calls);
    SumZero(Ending, calls);
    SumZero(TailBound, calls);
    SumZero(Gated, calls);
    forall e: nat
      ensures Sum(Cleaning(e), calls) == 0
    {
      SumZero(Cleaning(e), calls);
    }
  }

  lemma {:induction false} QuietSlots(cells: seq<Cell>)
    requires forall p :: 0 <= p < |cells| ==> Quiet(cells[p].calls) && CoreInv(cells[p])
    ensures Total(ByHolder, cells) == StartedPorts(cells)
  {
    if cells != [] {
      QuietSlots(cells[..|cells|-1]);
      QuietCounts(cells[|cells|-1].calls);
    }
  }

  /** What holds of a port with no call in flight. */
  ghost predicate Settled(port: Port) {
    && !Transient(port.state)
    && port.begun == port.ended + Bit(port.state.Started?) && port.ended == port.released
    && (forall e <- port.delivered :: e < port.epoch || (e == port.epoch && port.pending))
    && (port.pending ==> port.state.Started? && port.epoch in port.delivered)
  }

  lemma QuietIsSettled(cell: Cell)
    requires CellInv(cell) && Quiet(cell.calls)
    ensures Settled(cell.port)
  {
    QuietCounts(cell.calls);
    FlagFollows(cell);
  }

  lemma QuietService(s: Service)
    requires Inv(s) && Quiescent(s)
    ensures s.started == StartedPorts(s.cells)
    ensures forall p :: 0 <= p < |s.cells| ==> Settled(s.cells[p].port)
  {
    forall p | 0 <= p < |s.cells|
      ensures Quiet(s.cells[p].calls) && CoreInv(s.cells[p]) && Settled(s.cells[p].port)
    {
      assert CellInv(s.cells[p]);
      QuietIsSettled(s.cells[p]);
    }
    QuietSlots(s.cells);
  }

  /**
   With no call in flight: a slot is taken exactly per started port, no port is between
   states, every period ended has given its slot back, and a delivered death has either
   ended its session or is parked as a flag on a started port.
  */
  lemma Quiescence(ports: nat, requested: int, run: seq<Label>)
    requires CanExec(Init(ports, requested), run) && Quiescent(After(ports, requested, run))
    ensures var s := After(ports, requested, run);
            && s.started == StartedPorts(s.cells)
            && forall p :: 0 <= p < |s.cells| ==> Settled(s.cells[p].port)
  {
    hide CellInv, Settled, Exec, CanExec, Total, StartedPorts;
    Reached(ports, requested, run);
    QuietService(After(ports, requested, run));
  }

  /** Whether port p is parked after a step, read off the step alone. */
  ghost predicate ParkedAfter(s: Service, l: Label, p: nat, was: bool)
    requires Enabled(s, l) && p < |s.cells|
  {
    var mine := l.Run? && l.port == p;
    if mine && Parks(s.cells[p], l.call) then true
    else was && !(mine && s.cells[p].calls[l.call] == Stop(StopEnter))
  }

  /**
   Read off the run alone: a cleanup deferred its close stage on started port p with no call
   bound to its tail, and no stop() has entered since.
  */
  ghost predicate LeftParked(s: Service, run: seq<Label>, p: nat, was: bool)
    requires CanExec(s, run) && p < |s.cells|
    decreases |run|
  {
    if run == [] then was
    else LeftParked(Apply(s, run[0]), run[1..], p, ParkedAfter(s, run[0], p, was))
  }

  lemma AddingParksNothing(cell: Cell, added: Cell, pc: Pc)
    requires added.calls == cell.calls + [pc] && added.port.pending == cell.port.pending
    requires Owned(pc).None? && !BoundToTail(pc)
    ensures Parked(added) <==> Parked(cell)
  {
    SumAppend(Owning, cell.calls, pc);
    SumAppend(TailBound, cell.calls, pc);
  }

  lemma RunParks(s: Service, p: nat, c: nat)
    requires Inv(s) && Enabled(s, Run(p, c))
    ensures Parked(Apply(s, Run(p, c)).cells[p]) <==>
              (Parks(s.cells[p], c) || (Parked(s.cells[p]) && s.cells[p].calls[c] != Stop(StopEnter)))
  {
    assert CellInv(s.cells[p]);
    if Parked(s.cells[p]) {
      ParkedIsStarted(s.cells[p]);
      StopEndsParking(s, p, c);
    } else {
      ParkingIsTheDeferral(s, p, c);
    }
  }

  lemma StepParks(s: Service, l: Label, p: nat)
    requires Inv(s) && Enabled(s, l) && p < |s.cells|
    ensures Parked(Apply(s, l).cells[p]) <==> ParkedAfter(s, l, p, Parked(s.cells[p]))
  {
    if l.port == p {
      match l
      case Run(_, c) => RunParks(s, p, c);
      case Spawn(_, pc) => AddingParksNothing(s.cells[p], Apply(s, l).cells[p], pc);
      case Deliver(_, e) => AddingParksNothing(s.cells[p], Apply(s, l).cells[p], Death(e, DeathEnter));
    }
  }

  lemma {:induction false} ParkedIsReadOff(s: Service, run: seq<Label>, p: nat)
    requires Inv(s) && CanExec(s, run) && p < |s.cells|
    ensures p < |Exec(s, run).cells|
    ensures Parked(Exec(s, run).cells[p]) <==> LeftParked(s, run, p, Parked(s.cells[p]))
    decreases |run|
  {
    if run != [] {
      StepKeeps(s, run[0]);
      StepParks(s, run[0], p);
      ParkedIsReadOff(Apply(s, run[0]), run[1..], p);
    }
  }

  lemma SettledDeaths(cell: Cell)
    requires CellInv(cell) && Quiet(cell.calls)
    ensures (forall e <- cell.port.delivered :: e < cell.port.epoch) <==> !Parked(cell)
  {
    QuietIsSettled(cell);
    QuietCounts(cell.calls);
  }

  lemma InitIsUnparked(ports: nat, requested: int, p: nat)
    requires p < ports
    ensures !Parked(Init(ports, requested).cells[p])
  {
  }

  lemma ParkedSinceInit(ports: nat, requested: int, run: seq<Label>, p: nat)
    requires CanExec(Init(ports, requested), run) && p < ports
    ensures Parked(After(ports, requested, run).cells[p]) <==> LeftParked(Init(ports, requested), run, p, false)
  {
    InitKeeps(ports, requested);
    InitIsUnparked(ports, requested, p);
    ParkedIsReadOff(Init(ports, requested), run, p);
  }

  /**
   The implicit stop and close promised on death: once the calls on a port have finished, the
   latest session whose death was delivered is over, unless, and only unless, a cleanup
   deferred its close stage on the started port with no call bound to its tail and no stop()
   entered afterwards.
  */
  lemma DeadSessionsEnd(ports: nat, requested: int, run: seq<Label>, p: nat)
    requires CanExec(Init(ports, requested), run) && p < ports
    requires Quiet(After(ports, requested, run).cells[p].calls)
    ensures var port := After(ports, requested, run).cells[p].port;
            (forall e <- port.delivered :: e < port.epoch) <==> !LeftParked(Init(ports, requested), run, p, false)
  {
    Reached(ports, requested, run);
    SettledDeaths(After(ports, requested, run).cells[p]);
    ParkedSinceInit(ports, requested, run, p);
  }

  // ----- stale cleanups

  /** Call c is a cleanup for session e, which is over, or what such a cleanup ended as. */
  ghost predicate Stale(cell: Cell, c: nat, e: nat) {
    && c < |cell.calls| && e < cell.port.epoch
    && (cell.calls[c].Done? || (cell.calls[c].Death? && cell.calls[c].session == e))
  }

  lemma StaleStepsAside(s: Service, p: nat, c: nat, e: nat)
    requires Inv(s) && p < |s.cells| && Stale(s.cells[p], c, e) && Enabled(s, Run(p, c))
    ensures Stale(Apply(s, Run(p, c)).cells[p], c, e)
    ensures SameSession(s.cells[p].port, Apply(s, Run(p, c)).cells[p].port)
  {
    CleanupActsInItsSession(WorldOf(s, s.cells[p]), e, s.cells[p].calls[c].d);
  }

  /** Once its session is over, a cleanup never again touches a session field, in any run. */
  lemma {:induction false} StaleStaysOut(s: Service, run: seq<Label>, p: nat, c: nat, e: nat)
    requires Inv(s) && CanExec(s, run) && p < |s.cells| && Stale(s.cells[p], c, e)
    ensures var t := Exec(s, run);
            && p < |t.cells| && Stale(t.cells[p], c, e)
            && (Enabled(t, Run(p, c)) ==> SameSession(t.cells[p].port, Apply(t, Run(p, c)).cells[p].port))
    decreases |run|
  {
    if run == [] {
      if Enabled(s, Run(p, c)) { StaleStepsAside(s, p, c, e); }
    } else {
      var l := run[0];
      StepKeeps(s, l);
      if l == Run(p, c) {
        StaleStepsAside(s, p, c, e);
      } else if l.Run? && l.port == p {
        StepExtends(WorldOf(s, s.cells[p]), s.cells[p].calls[l.call]);
      }
      StaleStaysOut(Apply(s, l), run[1..], p, c, e);
    }
  }

  // ----- start periods

  datatype PeriodEvent = Begins | Ends | GivesBack

  /** What a step does to the start periods of port p, read off the states around it. */
  ghost predicate Happens(s: Service, l: Label, p: nat, event: PeriodEvent)
    requires Enabled(s, l) && p < |s.cells|
  {
    var before, after := s.cells[p].port.state, Apply(s, l).cells[p].port.state;
    match event
    case Begins => before.Ready? && after.Starting?
    case Ends => before.Started? && after.Stopping?
    case GivesBack =>
      && l.Run? && l.port == p
      && var pc := s.cells[p].calls[l.call];
         (pc.Stop? && pc.t.StopRelease?) || (pc.Death? && pc.d.DeathRelease?)
  }

  ghost function Count(s: Service, run: seq<Label>, p: nat, event: PeriodEvent): nat
    requires CanExec(s, run) && p < |s.cells|
    decreases |run|
  {
    if run == [] then 0
    else Bit(Happens(s, run[0], p, event)) + Count(Apply(s, run[0]), run[1..], p, event)
  }

  lemma StepCounts(s: Service, l: Label, p: nat)
    requires Inv(s) && Enabled(s, l) && p < |s.cells|
    ensures var q, r := s.cells[p].port, Apply(s, l).cells[p].port;
            && r.begun == q.begun + Bit(Happens(s, l, p, Begins))
            && r.ended == q.ended + Bit(Happens(s, l, p, Ends))
            && r.released == q.released + Bit(Happens(s, l, p, GivesBack))
    ensures Happens(s, l, p, GivesBack) ==> Apply(s, l).started == s.started - 1
  {
    if l.Run? && l.port == p {
      HolderSeesSlot(s, p, l.call);
      PeriodStep(WorldOf(s, s.cells[p]), s.cells[p].calls[l.call]);
    }
  }

  lemma PeriodStep(w: World, pc: Pc)
    requires !pc.Done? && Drives(w.port, pc)
    ensures var (v, next) := Advance(w, pc);
            && v.port.begun == w.port.begun + Bit(w.port.state.Ready? && v.port.state.Starting?)
            && v.port.ended == w.port.ended + Bit(w.port.state.Started? && v.port.state.Stopping?)
            && v.port.released == w.port.released +
                 Bit((pc.Stop? && pc.t.StopRelease?) || (pc.Death? && pc.d.DeathRelease?))
  {
    match pc
    case Open(_) =>
    case Start(_) =>
    case Stop(_) =>
    case Close(_) =>
    case Tail =>
    case Death(_, _) =>
  }

  lemma {:induction false} RunCounts(s: Service, run: seq<Label>, p: nat)
    requires Inv(s) && CanExec(s, run) && p < |s.cells|
    ensures p < |Exec(s, run).cells|
    ensures var q, r := s.cells[p].port, Exec(s, run).cells[p].port;
            && r.begun == q.begun + Count(s, run, p, Begins)
            && r.ended == q.ended + Count(s, run, p, Ends)
            && r.released == q.released + Count(s, run, p, GivesBack)
    decreases |run|
  {
    if run != [] {
      StepCounts(s, run[0], p);
      StepKeeps(s, run[0]);
      RunCounts(Apply(s, run[0]), run[1..], p);
    }
  }

  lemma CountsSinceInit(ports: nat, requested: int, run: seq<Label>, p: nat)
    requires CanExec(Init(ports, requested), run) && p < ports
    ensures var port := After(ports, requested, run).cells[p].port;
            && port.begun == Count(Init(ports, requested), run, p, Begins)
            && port.ended == Count(Init(ports, requested), run, p, Ends)
            && port.released == Count(Init(ports, requested), run, p, GivesBack)
  {
    InitKeeps(ports, requested);
    RunCounts(Init(ports, requested), run, p);
  }

  /**
   In every run, each period begun is ended once, except one still running, and each period
   ended gives its slot back once, except where the call that ended it is still on its way.
  */
  lemma EachPeriodEndsOnce(ports: nat, requested: int, run: seq<Label>, p: nat)
    requires CanExec(Init(ports, requested), run) && p < ports
    ensures var s0 := Init(ports, requested);
            var cell := After(ports, requested, run).cells[p];
            && Count(s0, run, p, Begins) == Count(s0, run, p, Ends) + Bit(InPeriod(cell.port.state))
            && Count(s0, run, p, Ends) == Count(s0, run, p, GivesBack) + Sum(Ending, cell.calls)
  {
    Reached(ports, requested, run);
    CountsSinceInit(ports, requested, run, p);
    assert Periods(After(ports, requested, run).cells[p]);
  }

  /** After one racer has taken the port out of Started, nobody does so again in that period. */
  lemma RaceHasOneWinner(s: Service, win: Label, run: seq<Label>, l: Label, p: nat)
    requires Inv(s) && p < |s.cells| && Enabled(s, win) && Happens(s, win, p, Ends)
    requires CanExec(Apply(s, win), run) && Count(Apply(s, win), run, p, Begins) == 0
    requires Enabled(Exec(Apply(s, win), run), l)
    ensures p < |Exec(Apply(s, win), run).cells|
    ensures !Happens(Exec(Apply(s, win), run), l, p, Ends)
  {
    StepKeeps(s, win);
    ExecKeeps(Apply(s, win), run);
    RunCounts(Apply(s, win), run, p);
  }

  // ----- logs

  /** The states a port visits are spelled by the session grammar. */
  lemma LifecycleGrammar(ports: nat, requested: int, run: seq<Label>, p: nat) returns (ss: seq<Session>, n: nat)
    requires CanExec(Init(ports, requested), run) && p < ports
    ensures var s := After(ports, requested, run);
            s.cells[p].port.trail == SpellAll(ss) + Begun(s.cells[p].port.state, n)
  {
    Reached(ports, requested, run);
    ss, n := TrailIsSpelled(After(ports, requested, run).cells[p].port.trail);
  }

  /**
   In every interleaving each published event is a transition made, none is published twice
   or belongs to an aborted open, and the event into a transient state precedes the one out
   of it; with no call in flight, every other transition has been published.
  */
  lemma PublicationIsFaithful(ports: nat, requested: int, run: seq<Label>, p: nat)
    requires CanExec(Init(ports, requested), run) && p < ports
    ensures var s := After(ports, requested, run);
            var port := s.cells[p].port;
            && (forall k :: 0 <= k < |port.published| ==>
                  EdgeOk(port.trail, port.published[k]) && !Aborted(port.trail, port.published[k].at))
            && (forall j, k :: 0 <= j < k < |port.published| ==> port.published[j].at != port.published[k].at)
            && InOrder(port.published)
            && (Quiet(s.cells[p].calls) ==>
                  forall n: nat {:trigger Aborted(port.trail, n)} :: n + 1 < |port.trail| ==>
                    Told(port.published, n) != Aborted(port.trail, n))
  {
    Reached(ports, requested, run);
    var cell := After(ports, requested, run).cells[p];
    var port := cell.port;
    if Quiet(cell.calls) {
      forall n: nat | n + 1 < |port.trail|
        ensures Told(port.published, n) != Aborted(port.trail, n)
      {
        assert forall i :: 0 <= i < |cell.calls| ==> !Carries(cell.calls[i], n);
      }
    }
  }

  /** If calls on a port never overlap, observers see its transitions in order, aborted opens left out. */
  lemma SerialPublication(ports: nat, requested: int, run: seq<Label>, p: nat)
    requires CanExec(Init(ports, requested), run) && p < ports
    requires NeverOverlaps(Init(ports, requested), run, p)
    requires Quiet(After(ports, requested, run).cells[p].calls)
    ensures var port := After(ports, requested, run).cells[p].port;
            port.published == Announced(port.trail)
  {
    assert UpToDate(After(ports, requested, run).cells[p]) by {
      InitKeeps(ports, requested);
      InitUpToDate(ports, requested, p);
      ExecStaysUpToDate(Init(ports, requested), run, p);
    }
    QuietIsAnnounced(After(ports, requested, run).cells[p]);
  }

  // ----- death cleanup against stop() and close()

  /**
   Undisturbed, the cleanup of a started session leaves port, slots and published events as
   stop() followed by the owner's close() does, up to the link of the dead recipient.
  */
  lemma CleanupRefinesStopAndClose(w: World)
    requires PortOk(w.port) && w.port.state.Started? && !w.port.pending
    ensures w.port.controller.Some?
    ensures var cleaned := Solo(w, Death(w.port.epoch, DeathEnter)).0;
            var (stopped, stopReply) := Solo(w, Stop(StopEnter));
            var (closed, closeReply) := Solo(stopped, Close(CloseEnter(w.port.controller.value)));
            && stopReply == closeReply == Ok
            && Unlinked(cleaned) == Unlinked(closed)
            && closed.port.state.Closed? && closed.port.epoch == w.port.epoch + 1
            && closed.started == GiveBack(w.started)
  {
    SoloStop(w);
    var u := w.(port := StoppedDown(w.port), started := GiveBack(w.started));
    SoloTail(u);
    SoloStopStage(w);
    SoloCloseStage(u);
    SoloClose(u);
  }
}
