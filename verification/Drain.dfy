/** Calls in flight run dry, and what an undisturbed call does from start to end. */
module Drain {
  import opened Common
  import opened Lifecycle
  import opened Service
  import opened Slots

  lemma RankDrops(w: World, pc: Pc)
    requires !pc.Done?
    ensures Rank(Advance(w, pc).1) < Rank(pc)
  {
    match pc
    case Open(_) =>
    case Start(_) =>
    case Stop(_) =>
    case Close(_) =>
    case Tail =>
    case Death(_, _) =>
  }

  // ----- all calls together

  predicate AllRuns(run: seq<Label>) {
    forall i :: 0 <= i < |run| ==> run[i].Run?
  }

  ghost predicate Quiet(calls: seq<Pc>) {
    forall i :: 0 <= i < |calls| ==> calls[i].Done?
  }

  ghost predicate Quiescent(s: Service) {
    forall p :: 0 <= p < |s.cells| ==> Quiet(s.cells[p].calls)
  }

  lemma RunLowersRank(s: Service, port: nat, call: nat)
    requires Enabled(s, Run(port, call))
    ensures Total(ByRank, Apply(s, Run(port, call)).cells) < Total(ByRank, s.cells)
  {
    var cell := s.cells[port];
    var (v, next) := Advance(WorldOf(s, cell), cell.calls[call]);
    RankDrops(WorldOf(s, cell), cell.calls[call]);
    SumUpdate(Ranking, cell.calls, call, next);
    TotalUpdate(ByRank, s.cells, port, Moved(cell, call, v.port, next));
  }

  lemma {:induction false} RanksAreNatural(cells: seq<Cell>)
    ensures Total(ByRank, cells) >= 0
  {
    if cells != [] { RanksAreNatural(cells[..|cells|-1]); }
  }

  /** No run of the calls in flight is longer than their ranks allow. */
  lemma {:induction false} RunsAreBounded(s: Service, run: seq<Label>)
    requires CanExec(s, run) && AllRuns(run)
    ensures |run| + Total(ByRank, Exec(s, run).cells) <= Total(ByRank, s.cells)
    decreases |run|
  {
    if run != [] {
      RunLowersRank(s, run[0].port, run[0].call);
      RunsAreBounded(Apply(s, run[0]), run[1..]);
    }
  }

  /** Until everything is finished, some call can step. */
  lemma SomeCallCanRun(s: Service) returns (port: nat, call: nat)
    requires !Quiescent(s)
    ensures Enabled(s, Run(port, call))
  {
    port :| 0 <= port < |s.cells| && !Quiet(s.cells[port].calls);
    call :| 0 <= call < |s.cells[port].calls| && !s.cells[port].calls[call].Done?;
  }

  /** From any state the calls in flight can all be brought to an end. */
  lemma {:induction false} CanDrain(s: Service) returns (run: seq<Label>)
    ensures CanExec(s, run) && AllRuns(run) && Quiescent(Exec(s, run))
    decreases Total(ByRank, s.cells)
  {
    if Quiescent(s) {
      run := [];
    } else {
      var p, c := SomeCallCanRun(s);
      RunLowersRank(s, p, c);
      RanksAreNatural(Apply(s, Run(p, c)).cells);
      var rest := CanDrain(Apply(s, Run(p, c)));
      run := [Run(p, c)] + rest;
      assert run[1..] == rest;
    }
  }

  // ----- one call alone

  /** The whole of a call that nothing interferes with. */
  function Solo(w: World, pc: Pc): (World, Reply)
    decreases Rank(pc)
  {
    if pc.Done? then (w, pc.reply)
    else
      var (v, next) := Advance(w, pc);
      RankDrops(w, pc);
      Solo(v, next)
  }

  function SoloSteps(w: World, pc: Pc): (n: nat)
    ensures n <= Rank(pc)
    decreases Rank(pc)
  {
    if pc.Done? then 0
    else
      var (v, next) := Advance(w, pc);
      RankDrops(w, pc);
      1 + SoloSteps(v, next)
  }

  function Alone(port: nat, call: nat, steps: nat): seq<Label> {
    if steps == 0 then [] else [Run(port, call)] + Alone(port, call, steps - 1)
  }

  /** A solo run is a run of the service. */
  lemma {:induction false} SoloIsARun(s: Service, port: nat, call: nat)
    requires port < |s.cells| && call < |s.cells[port].calls|
    ensures var cell := s.cells[port];
            var w := WorldOf(s, cell);
            var run := Alone(port, call, SoloSteps(w, cell.calls[call]));
            var (v, reply) := Solo(w, cell.calls[call]);
            && CanExec(s, run)
            && Exec(s, run) ==
                 s.(cells := s.cells[port := Moved(cell, call, v.port, Done(reply))], started := v.started)
    decreases Rank(s.cells[port].calls[call])
  {
    var cell := s.cells[port];
    var w := WorldOf(s, cell);
    var pc := cell.calls[call];
    if pc.Done? {
      assert s.cells[port := cell] == s.cells;
      assert cell.calls[call := pc] == cell.calls;
    } else {
      RankDrops(w, pc);
      var t := Apply(s, Run(port, call));
      LimitStays(w, pc);
      SoloIsARun(t, port, call);
      var run := Alone(port, call, SoloSteps(w, pc));
      assert run[1..] == Alone(port, call, SoloSteps(w, pc) - 1);
      assert s.cells[port := t.cells[port]][port := Exec(s, run).cells[port]]
          == s.cells[port := Exec(s, run).cells[port]];
      assert t.cells[port].calls[call := Done(Solo(w, pc).1)] == cell.calls[call := Done(Solo(w, pc).1)];
    }
  }

  lemma LimitStays(w: World, pc: Pc)
    requires !pc.Done?
    ensures Advance(w, pc).0.limit == w.limit
  {
  }

  // ----- what undisturbed calls come to

  /** A transition that is published before the next one. */
  function Shown(p: Port, next: State): Port {
    Lifecycle.Publish(SetState(p, next), EdgeTo(p, next))
  }

  /** After the first locked region of open(). */
  function Arming(p: Port, observed: bool, client: nat): Port {
    SetState(p, Opening).(
      listener := Some(client), controller := Some(p.made), made := p.made + 1, epoch := p.epoch + 1,
      pending := false, recipient := if observed then Some(p.epoch + 1) else None)
  }

  function Opened(p: Port, observed: bool, client: nat): Port {
    var q := Arming(p, observed, client);
    var linked := q.(armed := if observed then q.armed + {q.epoch} else q.armed);
    Shown(Lifecycle.Publish(linked, EdgeTo(p, Opening)), Ready)
  }

  function RolledBack(p: Port, client: nat): Port {
    Retire(Arming(p, true, client))
  }

  function StartedUp(p: Port): Port {
    Shown(Shown(p, Starting).(begun := p.begun + 1), Started)
  }

  function StoppedDown(p: Port): Port {
    Shown(Shown(p, Stopping).(ended := p.ended + 1), Ready).(released := p.released + 1)
  }

  function ClosedDown(p: Port): Port {
    var q := Shown(p, Closing);
    Lifecycle.Publish(Retire(q), EdgeTo(q, Closed))
  }

  lemma SoloTail(w: World)
    ensures Solo(w, Tail) ==
            if w.port.pending then Solo(w.(port := w.port.(pending := false)), Death(w.port.epoch, DeathEnter))
            else (w, Ok)
  {
  }

  /** Calls that find the wrong state, a full service or the wrong controller change nothing. */
  lemma SoloRejected(w: World, observed: bool, linkOk: bool, client: nat, presented: nat)
    ensures !w.port.state.Closed? ==> Solo(w, Open(OpenEnter(observed, linkOk, client))) == (w, IllegalState)
    ensures !w.port.state.Started? ==> Solo(w, Stop(StopEnter)) == (w, IllegalState)
    ensures !w.port.state.Ready? ==> Solo(w, Close(CloseEnter(presented))) == (w, IllegalState)
    ensures w.port.state.Ready? && w.port.controller != Some(presented) ==>
              Solo(w, Close(CloseEnter(presented))) == (w, NotOwner)
  {
  }

  lemma SoloStartRejected(w: World)
    requires w.started >= w.limit || !w.port.state.Ready?
    ensures Solo(w, Start(StartGate)) == (w, IllegalState)
  {
    var (w1, pc1) := Advance(w, Start(StartGate));
    assert Solo(w, Start(StartGate)) == Solo(w1, pc1);
  }

  /** open() of a closed port with a live client. */
  lemma SoloOpen(w: World, observed: bool, client: nat)
    requires w.port.state.Closed?
    ensures Solo(w, Open(OpenEnter(observed, true, client))) == (w.(port := Opened(w.port, observed, client)), Ok)
  {
    var c := Open(OpenEnter(observed, true, client));
    var (w1, pc1) := Advance(w, c);
    var (w2, pc2) := Advance(w1, pc1);
    var (w3, pc3) := Advance(w2, pc2);
    assert Solo(w, c) == Solo(w1, pc1) == Solo(w2, pc2) == Solo(w3, pc3);
    var (w4, pc4) := Advance(w3, pc3);
    var (w5, pc5) := Advance(w4, pc4);
    var (w6, pc6) := Advance(w5, pc5);
    assert Solo(w3, pc3) == Solo(w4, pc4) == Solo(w5, pc5) == Solo(w6, pc6);
    SoloTail(w6);
  }

  /** An in-process listener is never linked, so its link cannot fail. */
  lemma SoloOpenUnobserved(w: World, linkOk: bool, client: nat)
    requires w.port.state.Closed?
    ensures Solo(w, Open(OpenEnter(false, linkOk, client))) == Solo(w, Open(OpenEnter(false, true, client)))
  {
    var (w1, pc1) := Advance(w, Open(OpenEnter(false, linkOk, client)));
    var (u1, qc1) := Advance(w, Open(OpenEnter(false, true, client)));
    var (w2, pc2) := Advance(w1, pc1);
    var (u2, qc2) := Advance(u1, qc1);
    assert Solo(w1, pc1) == Solo(w2, pc2) && Solo(u1, qc1) == Solo(u2, qc2);
  }

  /** open() for a client that is already gone. */
  lemma SoloOpenAborted(w: World, client: nat)
    requires w.port.state.Closed?
    ensures Solo(w, Open(OpenEnter(true, false, client))) == (w.(port := RolledBack(w.port, client)), IllegalState)
  {
    var c := Open(OpenEnter(true, false, client));
    var (w1, pc1) := Advance(w, c);
    var (w2, pc2) := Advance(w1, pc1);
    assert w2 == w1 && pc2 == Open(OpenAbort(EdgeTo(w.port, Opening)));
    assert Solo(w, c) == Solo(w1, pc1) == Solo(w2, pc2);
    var (w3, pc3) := Advance(w2, pc2);
    assert w3 == w1.(port := Retire(w1.port)) && pc3 == Done(IllegalState);
    assert Solo(w2, pc2) == Solo(w3, pc3) == (w3, IllegalState);
    assert w3.port == RolledBack(w.port, client);
  }

  /** start() of a ready port below the limit, up to its tail. */
  lemma SoloStart(w: World)
    requires w.port.state.Ready? && w.started < w.limit
    ensures Solo(w, Start(StartGate)) == Solo(w.(port := StartedUp(w.port), started := w.started + 1), Tail)
  {
    var c := Start(StartGate);
    var (w1, pc1) := Advance(w, c);
    var (w2, pc2) := Advance(w1, pc1);
    var (w3, pc3) := Advance(w2, pc2);
    assert Solo(w, c) == Solo(w1, pc1) == Solo(w2, pc2) == Solo(w3, pc3);
    SoloStarting(w3);
  }

  lemma SoloStarting(w: World)
    ensures Solo(w, Start(StartRead)) == Solo(w.(port := Shown(w.port, Started)), Tail)
  {
    var c := Start(StartRead);
    var (w1, pc1) := Advance(w, c);
    var (w2, pc2) := Advance(w1, pc1);
    var (w3, pc3) := Advance(w2, pc2);
    assert Solo(w, c) == Solo(w1, pc1) == Solo(w2, pc2) == Solo(w3, pc3);
    var (w4, pc4) := Advance(w3, pc3);
    var (w5, pc5) := Advance(w4, pc4);
    var (w6, pc6) := Advance(w5, pc5);
    assert Solo(w3, pc3) == Solo(w4, pc4) == Solo(w5, pc5) == Solo(w6, pc6);
  }

  /** stop() of a started port, up to its tail. */
  lemma SoloStop(w: World)
    requires w.port.state.Started?
    ensures Solo(w, Stop(StopEnter)) == Solo(w.(port := StoppedDown(w.port), started := GiveBack(w.started)), Tail)
  {
    var c := Stop(StopEnter);
    var (w1, pc1) := Advance(w, c);
    var (w2, pc2) := Advance(w1, pc1);
    var (w3, pc3) := Advance(w2, pc2);
    assert Solo(w, c) == Solo(w1, pc1) == Solo(w2, pc2) == Solo(w3, pc3);
    var (w4, pc4) := Advance(w3, pc3);
    var (w5, pc5) := Advance(w4, pc4);
    assert Solo(w3, pc3) == Solo(w4, pc4) == Solo(w5, pc5);
  }

  /** close() of a ready port by the controller that owns it. */
  lemma SoloClose(w: World)
    requires w.port.state.Ready? && w.port.controller.Some?
    ensures var p := w.port;
            var closed := ClosedDown(p).(
              armed := if p.listener.Some? && p.recipient.Some? then p.armed - {p.recipient.value} else p.armed);
            Solo(w, Close(CloseEnter(p.controller.value))) == (w.(port := closed), Ok)
  {
    var c := Close(CloseEnter(w.port.controller.value));
    var (w1, pc1) := Advance(w, c);
    var (w2, pc2) := Advance(w1, pc1);
    var (w3, pc3) := Advance(w2, pc2);
    assert Solo(w, c) == Solo(w1, pc1) == Solo(w2, pc2) == Solo(w3, pc3);
    var (w4, pc4) := Advance(w3, pc3);
    var (w5, pc5) := Advance(w4, pc4);
    assert Solo(w3, pc3) == Solo(w4, pc4) == Solo(w5, pc5);
  }

  /** The close stage of a cleanup that finds its session ready. */
  lemma SoloCloseStage(w: World)
    requires w.port.state.Ready?
    ensures Solo(w, Death(w.port.epoch, DeathCloseEnter)) == (w.(port := ClosedDown(w.port)), Ok)
  {
    var d := Death(w.port.epoch, DeathCloseEnter);
    var (w1, pc1) := Advance(w, d);
    var (w2, pc2) := Advance(w1, pc1);
    var (w3, pc3) := Advance(w2, pc2);
    var (w4, pc4) := Advance(w3, pc3);
    assert Solo(w, d) == Solo(w1, pc1) == Solo(w2, pc2) == Solo(w3, pc3) == Solo(w4, pc4);
  }

  /** The close stage of a cleanup whose session is over, or whose port is busy or started again. */
  lemma SoloCloseStageDeclines(w: World, session: nat)
    requires w.port.epoch != session || !w.port.state.Ready?
    ensures Solo(w, Death(session, DeathCloseEnter)) ==
              (if w.port.epoch != session || w.port.state.Closed? then w else w.(port := w.port.(pending := true)), Ok)
  {
  }

  /** The stop stage of a cleanup that finds its session started. */
  lemma SoloStopStage(w: World)
    requires w.port.state.Started?
    ensures Solo(w, Death(w.port.epoch, DeathEnter))
         == Solo(w.(port := StoppedDown(w.port), started := GiveBack(w.started)), Death(w.port.epoch, DeathCloseEnter))
  {
    var d := Death(w.port.epoch, DeathEnter);
    var (w1, pc1) := Advance(w, d);
    var (w2, pc2) := Advance(w1, pc1);
    var (w3, pc3) := Advance(w2, pc2);
    assert Solo(w, d) == Solo(w1, pc1) == Solo(w2, pc2) == Solo(w3, pc3);
    var (w4, pc4) := Advance(w3, pc3);
    var (w5, pc5) := Advance(w4, pc4);
    assert Solo(w3, pc3) == Solo(w4, pc4) == Solo(w5, pc5);
  }

  /** stop() of a started port whose flag is set also ends the dead session. */
  lemma SoloParkedStop(w: World)
    requires w.port.state.Started? && w.port.pending
    ensures var stopped := StoppedDown(w.port).(pending := false);
            Solo(w, Stop(StopEnter)) == (w.(port := ClosedDown(stopped), started := GiveBack(w.started)), Ok)
  {
    SoloStop(w);
    var u := w.(port := StoppedDown(w.port), started := GiveBack(w.started));
    SoloTail(u);
    var v := u.(port := u.port.(pending := false));
    assert Solo(v, Death(v.port.epoch, DeathEnter)) == Solo(v, Death(v.port.epoch, DeathCloseEnter));
    SoloCloseStage(v);
  }

  /** The port but for the record of which death recipients are still linked. */
  function Unlinked(w: World): World {
    w.(port := w.port.(armed := {}))
  }
}
