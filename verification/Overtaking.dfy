/**
 When observers see the transitions of a port in order: exactly when no event is published
 while another call still carries an earlier one.
*/
module Overtaking {
  import opened Lifecycle
  import opened Service
  import opened Ownership
  import opened Publication
  import opened Serial
  import opened Reachable
  import opened Drain
  import opened Protocol

  /** Events are published in the order of their transitions. */
  ghost predicate Ordered(published: seq<Edge>) {
    forall j, k :: 0 <= j < k < |published| ==> published[j].at < published[k].at
  }

  /** Call `call` publishes its event in the next step. */
  predicate Publishes(pc: Pc) {
    match pc
    case Open(o) => o.OpenAnnounce? || o.OpenPublish?
    case Start(s) => s.StartAnnounce? || s.StartPublish?
    case Stop(t) => t.StopAnnounce? || t.StopPublish?
    case Close(c) => c.CloseAnnounce? || c.ClosePublish?
    case Death(_, d) =>
      d.DeathAnnounceStop? || d.DeathPublishReady? || d.DeathAnnounceClose? || d.DeathPublishClosed?
    case _ => false
  }

  /** It does so while another call carries the event of an earlier transition. */
  ghost predicate Passes(calls: seq<Pc>, call: nat)
    requires call < |calls|
  {
    Publishes(calls[call]) &&
    exists i :: 0 <= i < |calls| && Precedes(calls[i], calls[call])
  }

  ghost predicate Precedes(other: Pc, pc: Pc) {
    EdgeOf(other).Some? && EdgeOf(pc).Some? && EdgeOf(other).value.at < EdgeOf(pc).value.at
  }

  ghost predicate Overtakes(s: Service, l: Label, p: nat)
    requires Enabled(s, l) && p < |s.cells|
  {
    l.Run? && l.port == p && Passes(s.cells[p].calls, l.call)
  }

  /** Some event of port p was published ahead of an earlier one, read off the run. */
  ghost predicate Overtaken(s: Service, run: seq<Label>, p: nat)
    requires CanExec(s, run) && p < |s.cells|
    decreases |run|
  {
    run != [] && (Overtakes(s, run[0], p) || Overtaken(Apply(s, run[0]), run[1..], p))
  }

  /** In order so far, and no event still carried belongs before one published. */
  ghost predicate InStep(cell: Cell) {
    && Ordered(cell.port.published)
    && (forall i, k :: 0 <= i < |cell.calls| && EdgeOf(cell.calls[i]).Some? && 0 <= k < |cell.port.published| ==>
          cell.port.published[k].at < EdgeOf(cell.calls[i]).value.at)
  }

  lemma OrderedAppend(published: seq<Edge>, e: Edge)
    ensures Ordered(published + [e]) <==>
              Ordered(published) && forall k :: 0 <= k < |published| ==> published[k].at < e.at
  {
    var longer := published + [e];
    assert forall k :: 0 <= k < |published| ==> longer[k] == published[k];
    assert longer[|published|] == e;
  }

  // ----- one step

  lemma PublishesTells(w: World, pc: Pc)
    requires !pc.Done? && Drives(w.port, pc)
    ensures var (v, next) := Advance(w, pc);
            Publishes(pc) <==> Tells(w.port, pc, v.port, next)
  {
    hide Rank, BoundToTail, Cleans;
    var (v, next) := Advance(w, pc);
    if Publishes(pc) {
      assert EdgeOf(next).None?;
    } else {
      assert v.port.published == w.port.published;
    }
  }

  lemma SilentStaysInStep(cell: Cell, call: nat, q: Port, next: Pc)
    requires call < |cell.calls| && Silent(cell.port, cell.calls[call], q, next)
    ensures InStep(Moved(cell, call, q, next)) <==> InStep(cell)
  {
    var after := Moved(cell, call, q, next);
    assert forall i :: 0 <= i < |cell.calls| ==> EdgeOf(after.calls[i]) == EdgeOf(cell.calls[i]);
  }

  /** A new transition comes after all published ones. */
  lemma MoveStaysInStep(cell: Cell, call: nat, q: Port, next: Pc)
    requires LogInv(cell) && call < |cell.calls| && Moves(cell.port, cell.calls[call], q, next)
    ensures InStep(Moved(cell, call, q, next)) <==> InStep(cell)
  {
    var after := Moved(cell, call, q, next);
    assert forall i :: 0 <= i < |cell.calls| && i != call ==> after.calls[i] == cell.calls[i];
    assert forall k :: 0 <= k < |cell.port.published| ==> EdgeOk(cell.port.trail, cell.port.published[k]);
  }

  /** The event dropped by an aborted open() is the latest. */
  lemma RollBackStaysInStep(cell: Cell, call: nat, q: Port, next: Pc)
    requires LogInv(cell) && call < |cell.calls| && RollsBack(cell.port, cell.calls[call], q, next)
    ensures InStep(Moved(cell, call, q, next)) <==> InStep(cell)
  {
    var after := Moved(cell, call, q, next);
    var e := EdgeOf(cell.calls[call]).value;
    assert forall i :: 0 <= i < |cell.calls| && i != call ==> after.calls[i] == cell.calls[i];
    forall k | 0 <= k < |cell.port.published|
      ensures cell.port.published[k].at < e.at
    {
      assert EdgeOk(cell.port.trail, cell.port.published[k]) && Told(cell.port.published, cell.port.published[k].at);
      assert CarriesOk(cell.port, cell.calls[call]);
    }
  }

  lemma TellingInStep(cell: Cell, call: nat, q: Port, next: Pc)
    requires LogInv(cell) && call < |cell.calls| && Tells(cell.port, cell.calls[call], q, next)
    requires InStep(cell) && forall i :: 0 <= i < |cell.calls| ==> !Precedes(cell.calls[i], cell.calls[call])
    ensures InStep(Moved(cell, call, q, next))
  {
    var after := Moved(cell, call, q, next);
    OrderedAppend(cell.port.published, EdgeOf(cell.calls[call]).value);
    forall i, k | 0 <= i < |after.calls| && EdgeOf(after.calls[i]).Some? && 0 <= k < |q.published|
      ensures q.published[k].at < EdgeOf(after.calls[i]).value.at
    {
      assert i != call && after.calls[i] == cell.calls[i];
      assert !Precedes(cell.calls[i], cell.calls[call]);
    }
  }

  lemma TellingOutOfStep(cell: Cell, call: nat, q: Port, next: Pc)
    requires LogInv(cell) && call < |cell.calls| && Tells(cell.port, cell.calls[call], q, next)
    requires InStep(Moved(cell, call, q, next))
    ensures InStep(cell) && forall i :: 0 <= i < |cell.calls| ==> !Precedes(cell.calls[i], cell.calls[call])
  {
    var after, e := Moved(cell, call, q, next), EdgeOf(cell.calls[call]).value;
    var published := cell.port.published;
    OrderedAppend(published, e);
    assert q.published[|published|] == e;
    forall i | 0 <= i < |cell.calls| && i != call && EdgeOf(cell.calls[i]).Some?
      ensures e.at < EdgeOf(cell.calls[i]).value.at
      ensures forall k :: 0 <= k < |published| ==> published[k].at < EdgeOf(cell.calls[i]).value.at
    {
      assert after.calls[i] == cell.calls[i];
      assert forall k :: 0 <= k < |published| ==> published[k] == q.published[k];
    }
  }

  lemma TellStaysInStep(cell: Cell, call: nat, q: Port, next: Pc)
    requires LogInv(cell) && call < |cell.calls| && Tells(cell.port, cell.calls[call], q, next)
    requires Publishes(cell.calls[call])
    ensures InStep(Moved(cell, call, q, next)) <==> InStep(cell) && !Passes(cell.calls, call)
  {
    hide LogInv, Tells, InStep;
    if InStep(Moved(cell, call, q, next)) {
      TellingOutOfStep(cell, call, q, next);
    } else if InStep(cell) && !Passes(cell.calls, call) {
      TellingInStep(cell, call, q, next);
    }
  }

  lemma RunStaysInStep(cell: Cell, w: World, call: nat)
    requires CellInv(cell) && w.port == cell.port && call < |cell.calls| && !cell.calls[call].Done?
    ensures var (v, next) := Advance(w, cell.calls[call]);
            InStep(Moved(cell, call, v.port, next)) <==> InStep(cell) && !Passes(cell.calls, call)
  {
    hide InStep, LogInv, Silent, Moves, Tells, RollsBack;
    var pc := cell.calls[call];
    var (v, next) := Advance(w, pc);
    StepTreatsLogs(w, pc);
    PublishesTells(w, pc);
    if Tells(w.port, pc, v.port, next) {
      TellStaysInStep(cell, call, v.port, next);
    } else if Silent(w.port, pc, v.port, next) {
      SilentStaysInStep(cell, call, v.port, next);
    } else if Moves(w.port, pc, v.port, next) {
      MoveStaysInStep(cell, call, v.port, next);
    } else {
      RollBackStaysInStep(cell, call, v.port, next);
    }
  }

  lemma AddStaysInStep(cell: Cell, added: Cell, pc: Pc)
    requires added.calls == cell.calls + [pc] && EdgeOf(pc).None? && added.port.published == cell.port.published
    ensures InStep(added) <==> InStep(cell)
  {
    assert forall i :: 0 <= i < |cell.calls| ==> added.calls[i] == cell.calls[i];
  }

  lemma StepStaysInStep(s: Service, l: Label, p: nat)
    requires Inv(s) && Enabled(s, l) && p < |s.cells|
    ensures p < |Apply(s, l).cells|
    ensures InStep(Apply(s, l).cells[p]) <==> InStep(s.cells[p]) && !Overtakes(s, l, p)
  {
    hide InStep, CellInv, Passes;
    if l.port == p {
      match l
      case Run(_, call) => RunStaysInStep(s.cells[p], WorldOf(s, s.cells[p]), call);
      case Spawn(_, entry) => AddStaysInStep(s.cells[p], Apply(s, l).cells[p], entry);
      case Deliver(_, e) => AddStaysInStep(s.cells[p], Apply(s, l).cells[p], Death(e, DeathEnter));
    }
  }

  lemma {:induction false} ExecStaysInStep(s: Service, run: seq<Label>, p: nat)
    requires Inv(s) && CanExec(s, run) && p < |s.cells|
    ensures p < |Exec(s, run).cells|
    ensures InStep(Exec(s, run).cells[p]) <==> InStep(s.cells[p]) && !Overtaken(s, run, p)
    decreases |run|
  {
    hide InStep, Inv, Overtakes;
    if run != [] {
      StepKeeps(s, run[0]);
      StepStaysInStep(s, run[0], p);
      ExecStaysInStep(Apply(s, run[0]), run[1..], p);
    }
  }

  // ----- in order means complete and in order

  /** Announced lists, in order, the transitions that belong to no aborted open(). */
  lemma {:induction false} AnnouncedIs(trail: seq<State>)
    requires LegalTrail(trail)
    ensures Ordered(Announced(trail))
    ensures forall e :: e in Announced(trail) <==> EdgeOk(trail, e) && !Aborted(trail, e.at)
    decreases |trail|
  {
    if |trail| > 1 {
      var n := |trail| - 2;
      if trail[n].Opening? && trail[n + 1].Closed? {
        AnnouncedPastAbort(trail);
      } else {
        AnnouncedOneMore(trail);
      }
    }
  }

  lemma {:induction false} LegalPrefix(trail: seq<State>, n: nat)
    requires LegalTrail(trail) && 0 < n <= |trail|
    ensures LegalTrail(trail[..n])
    decreases |trail|
  {
    if n == |trail| {
      assert trail[..n] == trail;
    } else {
      LegalPrefix(trail[..|trail|-1], n);
      assert trail[..|trail|-1][..n] == trail[..n];
    }
  }

  lemma {:induction false} AnnouncedPastAbort(trail: seq<State>)
    requires LegalTrail(trail) && |trail| > 1 && trail[|trail|-2].Opening? && trail[|trail|-1].Closed?
    ensures Ordered(Announced(trail))
    ensures forall e :: e in Announced(trail) <==> EdgeOk(trail, e) && !Aborted(trail, e.at)
    decreases |trail|, 0
  {
    var n := |trail| - 2;
    LegalPrefix(trail, 1);
    LegalAt(trail, n - 1);
    LegalPrefix(trail, n);
    AnnouncedIs(trail[..n]);
    forall e: Edge
      ensures EdgeOk(trail[..n], e) && !Aborted(trail[..n], e.at) <==> EdgeOk(trail, e) && !Aborted(trail, e.at)
    {
    }
  }

  lemma {:induction false} AnnouncedOneMore(trail: seq<State>)
    requires LegalTrail(trail) && |trail| > 1 && !(trail[|trail|-2].Opening? && trail[|trail|-1].Closed?)
    ensures Ordered(Announced(trail))
    ensures forall e :: e in Announced(trail) <==> EdgeOk(trail, e) && !Aborted(trail, e.at)
    decreases |trail|, 0
  {
    hide Aborted, Legal;
    var n := |trail| - 2;
    var rest, last := trail[..n + 1], Edge(n, trail[n], trail[n + 1]);
    LegalPrefix(trail, n + 1);
    AnnouncedIs(rest);
    forall e: Edge
      ensures e in Announced(trail) <==> EdgeOk(trail, e) && !Aborted(trail, e.at)
    {
      StillAnnounced(trail, e);
    }
    forall k | 0 <= k < |Announced(rest)|
      ensures Announced(rest)[k].at < n
    {
      assert Announced(rest)[k] in Announced(rest);
    }
    OrderedAppend(Announced(rest), last);
  }

  lemma StillAnnounced(trail: seq<State>, e: Edge)
    requires LegalTrail(trail) && |trail| > 1 && !(trail[|trail|-2].Opening? && trail[|trail|-1].Closed?)
    ensures var n := |trail| - 2;
            (EdgeOk(trail[..n + 1], e) && !Aborted(trail[..n + 1], e.at)) || e == Edge(n, trail[n], trail[n + 1]) <==>
              EdgeOk(trail, e) && !Aborted(trail, e.at)
  {
    var n := |trail| - 2;
    if e.at + 1 == n {
      LegalAt(trail, e.at);
      LegalAt(trail, n);
    }
  }

  /** Two ordered logs of the same events are the same log. */
  lemma {:induction false} SameEventsSameLog(a: seq<Edge>, b: seq<Edge>)
    requires Ordered(a) && Ordered(b) && forall e :: e in a <==> e in b
    ensures a == b
  {
    assert b != [] ==> b[0] in b;
    if a != [] {
      assert a[|a|-1] in b && b != [];
      var x, y := a[|a|-1], b[|b|-1];
      assert y in a;
      LastIsLatest(a);
      LastIsLatest(b);
      assert x == y;
      var front, rest := a[..|a|-1], b[..|b|-1];
      forall e: Edge
        ensures e in front <==> e in rest
      {
        assert e in a <==> e in b;
      }
      SameEventsSameLog(front, rest);
      assert a == front + [x] && b == rest + [y];
    }
  }

  lemma LastIsLatest(a: seq<Edge>)
    requires Ordered(a) && a != []
    ensures Ordered(a[..|a|-1])
    ensures forall e <- a :: e.at < a[|a|-1].at || e == a[|a|-1]
    ensures forall e :: e in a[..|a|-1] <==> e in a && e != a[|a|-1]
  {
    var last := a[|a|-1];
    assert a == a[..|a|-1] + [last];
    OrderedAppend(a[..|a|-1], last);
  }

  lemma QuietLogHoldsAll(cell: Cell, e: Edge)
    requires LogInv(cell) && Quiet(cell.calls)
    ensures e in cell.port.published <==> EdgeOk(cell.port.trail, e) && !Aborted(cell.port.trail, e.at)
  {
    var port := cell.port;
    if EdgeOk(port.trail, e) && !Aborted(port.trail, e.at) {
      assert forall i :: 0 <= i < |cell.calls| ==> !Carries(cell.calls[i], e.at);
      assert Told(port.published, e.at);
      var k :| 0 <= k < |port.published| && port.published[k].at == e.at;
      assert EdgeOk(port.trail, port.published[k]);
    }
  }

  lemma QuietInStep(cell: Cell)
    requires LogInv(cell) && Quiet(cell.calls)
    ensures InStep(cell) <==> Ordered(cell.port.published)
    ensures Ordered(cell.port.published) <==> cell.port.published == Announced(cell.port.trail)
  {
    AnnouncedIs(cell.port.trail);
    if Ordered(cell.port.published) {
      forall e: Edge
        ensures e in cell.port.published <==> e in Announced(cell.port.trail)
      {
        QuietLogHoldsAll(cell, e);
      }
      SameEventsSameLog(cell.port.published, Announced(cell.port.trail));
    }
  }

  // ----- main result

  /**
   Once the calls on a port have finished, its observers have seen exactly its transitions in
   order, aborted opens left out, if and only if no event was published while another call
   carried an earlier one.
  */
  lemma InOrderUnlessOvertaken(ports: nat, requested: int, run: seq<Label>, p: nat)
    requires CanExec(Init(ports, requested), run) && p < ports
    requires Quiet(After(ports, requested, run).cells[p].calls)
    ensures var port := After(ports, requested, run).cells[p].port;
            && (Ordered(port.published) <==> !Overtaken(Init(ports, requested), run, p))
            && (port.published == Announced(port.trail) <==> !Overtaken(Init(ports, requested), run, p))
  {
    hide Exec, CanExec, InStep, Overtaken, Announced, Ordered, Inv;
    InitKeeps(ports, requested);
    Reached(ports, requested, run);
    InitInStep(ports, requested, p);
    ExecStaysInStep(Init(ports, requested), run, p);
    ReachedLogs(ports, requested, run, p);
    QuietInStep(After(ports, requested, run).cells[p]);
  }

  lemma ReachedLogs(ports: nat, requested: int, run: seq<Label>, p: nat)
    requires CanExec(Init(ports, requested), run) && p < ports
    ensures LogInv(After(ports, requested, run).cells[p])
  {
    hide Exec, CanExec;
    Reached(ports, requested, run);
  }

  lemma InitInStep(ports: nat, requested: int, p: nat)
    requires p < ports
    ensures InStep(Init(ports, requested).cells[p])
  {
  }

  /** Calls that do not overlap overtake nothing. */
  lemma {:induction false} NoOverlapNoOvertaking(s: Service, run: seq<Label>, p: nat)
    requires CanExec(s, run) && p < |s.cells| && NeverOverlaps(s, run, p)
    ensures !Overtaken(s, run, p)
    decreases |run|
  {
    if run != [] {
      if Overtakes(s, run[0], p) {
        var calls, c := s.cells[p].calls, run[0].call;
        var i :| 0 <= i < |calls| && Precedes(calls[i], calls[c]);
        QuietBeside(calls, c, i);
      }
      NoOverlapNoOvertaking(Apply(s, run[0]), run[1..], p);
    }
  }
}
