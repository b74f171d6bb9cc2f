/**
 Runs that show where the obvious claims stop: about death cleanup, the slot it gives back,
 and the order of published events; and the stop() that repairs the first.
*/
module Witnesses {
  import opened Common
  import opened Lifecycle
  import opened Service
  import opened Slots
  import opened Reachable
  import opened Drain
  import opened Protocol
  import opened Serial
  import opened Overtaking
  import opened Properties
  import opened Sessions

  lemma {:induction false} ExecConcat(s: Service, first: seq<Label>, second: seq<Label>)
    requires CanExec(s, first) && CanExec(Exec(s, first), second)
    ensures CanExec(s, first + second) && Exec(s, first + second) == Exec(Exec(s, first), second)
    decreases |first|
  {
    if first == [] {
      assert first + second == second;
    } else {
      ExecConcat(Apply(s, first[0]), first[1..], second);
      assert (first + second)[1..] == first[1..] + second;
    }
  }

  lemma OneMore(s: Service, run: seq<Label>, l: Label) returns (longer: seq<Label>)
    requires CanExec(s, run) && Enabled(Exec(s, run), l)
    ensures CanExec(s, longer) && Exec(s, longer) == Apply(Exec(s, run), l)
    ensures run <= longer && |longer| == |run| + 1 && longer[|run|] == l
  {
    longer := run + [l];
    assert [l][1..] == [];
    ExecConcat(s, run, [l]);
  }

  /** A call that is made and then runs from start to end with nothing in between. */
  function LoneCall(s: Service, p: nat, entry: Pc): seq<Label>
    requires p < |s.cells|
  {
    [Spawn(p, entry)] + Alone(p, |s.cells[p].calls|, SoloSteps(WorldOf(s, s.cells[p]), entry))
  }

  lemma LoneCallRuns(s: Service, p: nat, entry: Pc)
    requires p < |s.cells| && Entry(entry)
    ensures CanExec(s, LoneCall(s, p, entry))
    ensures var cell := s.cells[p];
            var (v, reply) := Solo(WorldOf(s, cell), entry);
            Exec(s, LoneCall(s, p, entry)) ==
              s.(cells := s.cells[p := Cell(v.port, cell.calls + [Done(reply)])], started := v.started)
  {
    var cell := s.cells[p];
    var u := Apply(s, Spawn(p, entry));
    SoloIsARun(u, p, |cell.calls|);
    assert LoneCall(s, p, entry)[1..] == Alone(p, |cell.calls|, SoloSteps(WorldOf(s, cell), entry));
    var reply := Solo(WorldOf(s, cell), entry).1;
    assert (cell.calls + [entry])[|cell.calls| := Done(reply)] == cell.calls + [Done(reply)];
    assert u.cells[p := Exec(s, LoneCall(s, p, entry)).cells[p]]
        == s.cells[p := Exec(s, LoneCall(s, p, entry)).cells[p]];
  }

  lemma OneCallMore(s: Service, run: seq<Label>, p: nat, entry: Pc) returns (longer: seq<Label>)
    requires CanExec(s, run) && p < |Exec(s, run).cells| && Entry(entry)
    ensures CanExec(s, longer)
    ensures var t := Exec(s, run);
            var cell := t.cells[p];
            var (v, reply) := Solo(WorldOf(t, cell), entry);
            Exec(s, longer) == t.(cells := t.cells[p := Cell(v.port, cell.calls + [Done(reply)])], started := v.started)
  {
    var t := Exec(s, run);
    LoneCallRuns(t, p, entry);
    ExecConcat(s, run, LoneCall(t, p, entry));
    longer := run + LoneCall(t, p, entry);
  }

  /** One port, opened by client 7 whose recipient is linked; the death is then delivered. */
  lemma OpenedAndDead() returns (run: seq<Label>)
    ensures CanExec(Init(1, 1), run)
    ensures var s := Exec(Init(1, 1), run);
            && |s.cells| == 1 && s.started == 0 && s.limit == 1
            && s.cells[0].calls == [Done(Ok), Death(1, DeathEnter)]
            && s.cells[0].port.state.Ready? && s.cells[0].port.epoch == 1 && !s.cells[0].port.pending
            && s.cells[0].port.controller == Some(0) && s.cells[0].port.delivered == {1}
  {
    var s0 := Init(1, 1);
    run := OneCallMore(s0, [], 0, Open(OpenEnter(true, true, 7)));
    SoloOpen(WorldOf(s0, s0.cells[0]), true, 7);
    run := OneMore(s0, run, Deliver(0, 1));
  }

  /**
   The cleanup passes its first stage on the ready port; start() then runs from gate to tail;
   the cleanup defers its close stage.  All calls have finished, and the dead session is
   still started, with its slot taken and its flag set.
  */
  lemma ADeadSessionCanBeLeftStarted() returns (run: seq<Label>)
    ensures CanExec(Init(1, 1), run)
    ensures var s := Exec(Init(1, 1), run);
            && |s.cells| == 1 && Quiescent(s)
            && s.cells[0].port.state.Started? && s.cells[0].port.pending
            && s.cells[0].port.epoch == 1 && 1 in s.cells[0].port.delivered
            && s.started == s.limit == 1
  {
    hide Exec, CanExec, Init, Rank;
    var s0 := Init(1, 1);
    run := OpenedAndDead();
    run := OneMore(s0, run, Run(0, 1));
    var s2 := Exec(s0, run);
    run := OneCallMore(s0, run, 0, Start(StartGate));
    SoloStart(WorldOf(s2, s2.cells[0]));
    run := OneMore(s0, run, Run(0, 1));
  }

  lemma HoldsWhileStarted(s: Service, p: nat)
    requires Inv(s) && p < |s.cells| && s.cells[p].port.state.Started?
    ensures s.started > 0
  {
    TotalCovers(ByHolder, s.cells, p);
  }

  /** From a parked port with no call in flight, one stop() closes the session and frees its slot. */
  lemma StopRecovers(s: Service, p: nat)
    requires Inv(s) && p < |s.cells| && Quiet(s.cells[p].calls) && s.cells[p].port.pending
    ensures CanExec(s, LoneCall(s, p, Stop(StopEnter)))
    ensures var t := Exec(s, LoneCall(s, p, Stop(StopEnter)));
            && p < |t.cells| && Quiet(t.cells[p].calls)
            && t.cells[p].port.state.Closed? && !t.cells[p].port.pending
            && t.cells[p].port.epoch == s.cells[p].port.epoch + 1
            && t.started == s.started - 1
  {
    hide Exec, CanExec, Solo;
    QuietIsSettled(s.cells[p]);
    HoldsWhileStarted(s, p);
    LoneCallRuns(s, p, Stop(StopEnter));
    SoloParkedStop(WorldOf(s, s.cells[p]));
  }

  /** One port, opened and started by client 7; the death is then delivered. */
  lemma StartedAndDead() returns (run: seq<Label>)
    ensures CanExec(Init(1, 1), run)
    ensures var s := Exec(Init(1, 1), run);
            && |s.cells| == 1 && s.started == 1 && s.limit == 1
            && s.cells[0].calls == [Done(Ok), Done(Ok), Death(1, DeathEnter)]
            && s.cells[0].port.state.Started? && s.cells[0].port.epoch == 1
            && s.cells[0].port.controller == Some(0)
  {
    hide Exec, CanExec, Rank;
    var s0 := Init(1, 1);
    assert CanExec(s0, []) && Exec(s0, []) == s0 by { EmptyRun(s0); }
    run := OneCallMore(s0, [], 0, Open(OpenEnter(true, true, 7)));
    SoloOpen(WorldOf(s0, s0.cells[0]), true, 7);
    var s1 := Exec(s0, run);
    run := OneCallMore(s0, run, 0, Start(StartGate));
    SoloStart(WorldOf(s1, s1.cells[0]));
    run := OneMore(s0, run, Deliver(0, 1));
  }

  /** A started session whose cleanup is about to give the slot back. */
  lemma StoppedByCleanup() returns (run: seq<Label>)
    ensures CanExec(Init(1, 1), run)
    ensures var s := Exec(Init(1, 1), run);
            && |s.cells| == 1 && s.started == 1
            && |s.cells[0].calls| == 3 && s.cells[0].calls[2] == Death(1, DeathRelease)
            && s.cells[0].port.state.Ready? && s.cells[0].port.epoch == 1
            && s.cells[0].port.controller == Some(0)
  {
    hide Exec, CanExec, Init;
    var s0 := Init(1, 1);
    run := StartedAndDead();
    run := OneMore(s0, run, Run(0, 2));
    run := OneMore(s0, run, Run(0, 2));
    run := OneMore(s0, run, Run(0, 2));
    run := OneMore(s0, run, Run(0, 2));
  }

  /**
   A cleanup has made the port ready but not yet given the slot back; the owner's close()
   ends the session first; the cleanup then gives the slot back outside its session.
  */
  lemma ASlotCanBeGivenBackLate() returns (run: seq<Label>)
    ensures CanExec(Init(1, 1), run)
    ensures var s := Exec(Init(1, 1), run);
            && |s.cells| == 1 && Enabled(s, Run(0, 2))
            && s.cells[0].calls[2] == Death(1, DeathRelease)
            && s.cells[0].port.epoch == 2 && s.cells[0].port.state.Closed?
            && s.started == 1 && Apply(s, Run(0, 2)).started == 0
  {
    var s0 := Init(1, 1);
    run := StoppedByCleanup();
    var s1 := Exec(s0, run);
    run := OneCallMore(s0, run, 0, Close(CloseEnter(0)));
    SoloClose(WorldOf(s1, s1.cells[0]));
  }

  /** One port of two slots, opened and started; a stop() has made it ready and not yet said so. */
  lemma StoppedUnannounced() returns (run: seq<Label>)
    ensures CanExec(Init(1, 2), run)
    ensures var s := Exec(Init(1, 2), run);
            && |s.cells| == 1 && s.started == 1 && s.limit == 2
            && |s.cells[0].calls| == 3 && s.cells[0].calls[2] == Stop(StopPublish(Edge(5, Stopping, Ready)))
            && s.cells[0].port.state.Ready? && |s.cells[0].port.trail| == 7
  {
    hide Exec, CanExec, Rank;
    var s0 := Init(1, 2);
    assert CanExec(s0, []) && Exec(s0, []) == s0 by { EmptyRun(s0); }
    run := OneCallMore(s0, [], 0, Open(OpenEnter(false, true, 7)));
    SoloOpen(WorldOf(s0, s0.cells[0]), false, 7);
    var s1 := Exec(s0, run);
    run := OneCallMore(s0, run, 0, Start(StartGate));
    SoloStart(WorldOf(s1, s1.cells[0]));
    SoloTail(WorldOf(s1, s1.cells[0]).(port := StartedUp(s1.cells[0].port), started := 1));
    run := OneMore(s0, run, Spawn(0, Stop(StopEnter)));
    run := OneMore(s0, run, Run(0, 2));
    run := OneMore(s0, run, Run(0, 2));
    run := OneMore(s0, run, Run(0, 2));
  }

  lemma EmptyRun(s: Service)
    ensures CanExec(s, []) && Exec(s, []) == s
  {
  }

  /** A second start() announces Starting before that stop() announces Ready. */
  lemma ReadyToldAfterStarting() returns (run: seq<Label>)
    ensures CanExec(Init(1, 2), run)
    ensures var s := Exec(Init(1, 2), run);
            && |s.cells| == 1
            && var published := s.cells[0].port.published;
               |published| >= 2 && published[|published|-1].at < published[|published|-2].at
  {
    hide Exec, CanExec, Rank;
    var s0 := Init(1, 2);
    run := StoppedUnannounced();
    run := OneMore(s0, run, Spawn(0, Start(StartGate)));
    run := OneMore(s0, run, Run(0, 3));
    run := OneMore(s0, run, Run(0, 3));
    run := OneMore(s0, run, Run(0, 3));
    run := OneMore(s0, run, Run(0, 2));
  }

  /** All calls finish, and observers have seen the transitions of the port out of order. */
  lemma EventsCanBeSeenOutOfOrder() returns (run: seq<Label>)
    ensures CanExec(Init(1, 2), run)
    ensures var s := Exec(Init(1, 2), run);
            && |s.cells| == 1 && Quiescent(s) && Overtaken(Init(1, 2), run, 0)
            && !Ordered(s.cells[0].port.published)
            && s.cells[0].port.published != Announced(s.cells[0].port.trail)
  {
    hide Exec, CanExec, Init, Overtaken, Announced;
    var s0 := Init(1, 2);
    var first := ReadyToldAfterStarting();
    var rest := CanDrain(Exec(s0, first));
    ExecConcat(s0, first, rest);
    run := first + rest;
    Reached(1, 2, first);
    ExecExtends(Exec(s0, first), rest, 0);
    Reached(1, 2, run);
    InOrderUnlessOvertaken(1, 2, run, 0);
    var told := Exec(s0, first).cells[0].port.published;
    assert Exec(s0, run).cells[0].port.published[|told|-1] == told[|told|-1];
    assert Exec(s0, run).cells[0].port.published[|told|-2] == told[|told|-2];
  }

  /** One port, opened by a client in the same process. */
  lemma OpenedLocally() returns (run: seq<Label>)
    ensures CanExec(Init(1, 1), run)
    ensures var s := Exec(Init(1, 1), run);
            && |s.cells| == 1 && s.started == 0 && s.limit == 1 && s.cells[0].calls == [Done(Ok)]
            && s.cells[0].port.state.Ready? && !s.cells[0].port.pending && s.cells[0].port.controller == Some(0)
  {
    hide Exec, CanExec, Rank;
    var s0 := Init(1, 1);
    assert CanExec(s0, []) && Exec(s0, []) == s0 by { EmptyRun(s0); }
    run := OneCallMore(s0, [], 0, Open(OpenEnter(false, true, 7)));
    SoloOpen(WorldOf(s0, s0.cells[0]), false, 7);
  }

  /** A start() has then made it started and not yet stamped its time. */
  lemma StartedUnstamped() returns (run: seq<Label>)
    ensures CanExec(Init(1, 1), run)
    ensures var s := Exec(Init(1, 1), run);
            && |s.cells| == 1 && s.limit == 1
            && |s.cells[0].calls| == 2 && s.cells[0].calls[1] == Start(StartStamp)
            && s.cells[0].port.state.Started? && !s.cells[0].port.pending && s.cells[0].port.controller == Some(0)
  {
    hide Exec, CanExec, Rank, Init;
    var s0 := Init(1, 1);
    run := OpenedLocally();
    run := OneMore(s0, run, Spawn(0, Start(StartGate)));
    run := OneMore(s0, run, Run(0, 1));
    run := OneMore(s0, run, Run(0, 1));
    run := OneMore(s0, run, Run(0, 1));
    run := OneMore(s0, run, Run(0, 1));
    run := OneMore(s0, run, Run(0, 1));
    run := OneMore(s0, run, Run(0, 1));
    run := OneMore(s0, run, Run(0, 1));
  }

  /** stop() and close() run from start to end before the stamp. */
  lemma ClosedUnstamped() returns (run: seq<Label>)
    ensures CanExec(Init(1, 1), run)
    ensures var s := Exec(Init(1, 1), run);
            && |s.cells| == 1 && |s.cells[0].calls| > 1 && s.cells[0].calls[1] == Start(StartStamp)
            && s.cells[0].port.state.Closed?
  {
    hide Exec, CanExec, Rank;
    var s0 := Init(1, 1);
    run := StartedUnstamped();
    var s1 := Exec(s0, run);
    run := OneCallMore(s0, run, 0, Stop(StopEnter));
    SoloStop(WorldOf(s1, s1.cells[0]));
    SoloTail(WorldOf(s1, s1.cells[0]).(port := StoppedDown(s1.cells[0].port), started := GiveBack(s1.started)));
    var s2 := Exec(s0, run);
    run := OneCallMore(s0, run, 0, Close(CloseEnter(0)));
    SoloClose(WorldOf(s2, s2.cells[0]));
  }

  /** The stamp then lands on a closed port. */
  lemma AClosedPortCanBeStamped(caps: PortCapabilities) returns (run: seq<JointStep>)
    ensures CanGo(Loaded(1, [caps]), run)
    ensures var j := Go(Loaded(1, [caps]), run);
            && |j.data| == |j.service.cells| == 1
            && j.service.cells[0].port.state.Closed? && j.data[0].counters.startTs == 5
  {
    hide Exec, CanExec, CanGo, Go, Rank;
    var j0 := Loaded(1, [caps]);
    var steps := ClosedUnstamped();
    RunsLift(j0, steps, 5);
    var x := Call(Run(0, 1), 5);
    LateAtTheEnd(j0, At(steps, 5), x, 0, false);
    run := At(steps, 5) + [x];
  }
}
