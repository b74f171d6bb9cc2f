/** While calls on a port do not overlap, observers see its transitions in order. */
module Serial {
  import opened Lifecycle
  import opened Service
  import opened Publication
  import opened Reachable

  /** The transitions of a trail in order, both transitions of every aborted open() left out. */
  function Announced(trail: seq<State>): seq<Edge>
    decreases |trail|
  {
    if |trail| <= 1 then []
    else
      var n := |trail| - 2;
      if trail[n].Opening? && trail[n + 1].Closed? then Announced(trail[..n])
      else Announced(trail[..n + 1]) + [Edge(n, trail[n], trail[n + 1])]
  }

  function Pending(pc: Pc): seq<Edge> {
    if EdgeOf(pc).Some? then [EdgeOf(pc).value] else []
  }

  /** At most one call is in flight, and it carries all that is made but not published. */
  ghost predicate UpToDate(cell: Cell) {
    && Sum(Alive, cell.calls) <= 1
    && (forall i :: 0 <= i < |cell.calls| && !cell.calls[i].Done? ==>
          cell.port.published + Pending(cell.calls[i]) == Announced(cell.port.trail))
    && (Sum(Alive, cell.calls) == 0 ==> cell.port.published == Announced(cell.port.trail))
  }

  /** Before each step of the run and after it, at most one call on the port is in flight. */
  ghost predicate NeverOverlaps(s: Service, run: seq<Label>, port: nat)
    requires CanExec(s, run) && port < |s.cells|
    decreases |run|
  {
    && Sum(Alive, s.cells[port].calls) <= 1
    && (run != [] ==> NeverOverlaps(Apply(s, run[0]), run[1..], port))
  }

  lemma StepStaysUpToDate(p: Port, pc: Pc, q: Port, next: Pc)
    requires TreatsLogs(p, pc, q, next) && LogOk(p) && CarriesOk(p, pc)
    requires p.published + Pending(pc) == Announced(p.trail)
    ensures q.published + Pending(next) == Announced(q.trail)
  {
    if Moves(p, pc, q, next) {
      assert q.trail[..|p.trail|] == p.trail;
    } else if RollsBack(p, pc, q, next) {
      var n := |p.trail| - 1;
      assert q.trail[..n] == p.trail[..n];
      LegalAt(p.trail, n - 1);
      assert Announced(p.trail) == Announced(p.trail[..n]) + [EdgeOf(pc).value];
      assert p.published == (p.published + [EdgeOf(pc).value])[..|p.published|];
      assert Announced(p.trail[..n]) == Announced(p.trail)[..|p.published|];
    }
  }

  lemma QuietBeside(calls: seq<Pc>, i: nat, j: nat)
    requires Sum(Alive, calls) <= 1 && i < |calls| && j < |calls| && i != j && !calls[i].Done?
    ensures calls[j].Done?
  {
    SumOfTwo(Alive, calls, if i < j then i else j, if i < j then j else i);
  }

  lemma AliveIfOpen(calls: seq<Pc>)
    requires Sum(Alive, calls) == 0
    ensures forall i :: 0 <= i < |calls| ==> calls[i].Done?
  {
    forall i | 0 <= i < |calls|
      ensures calls[i].Done?
    {
      SumAtLeast(Alive, calls, i);
    }
  }

  lemma MovedStaysUpToDate(cell: Cell, call: nat, q: Port, next: Pc)
    requires UpToDate(cell) && call < |cell.calls| && !cell.calls[call].Done?
    requires q.published + Pending(next) == Announced(q.trail)
    ensures Sum(Alive, Moved(cell, call, q, next).calls) <= 1 ==> UpToDate(Moved(cell, call, q, next))
  {
    forall j | 0 <= j < |cell.calls| && j != call
      ensures cell.calls[j].Done?
    {
      QuietBeside(cell.calls, call, j);
    }
    SumAtLeast(Alive, cell.calls[call := next], call);
  }

  lemma RunStaysUpToDate(cell: Cell, w: World, call: nat)
    requires CellInv(cell) && UpToDate(cell)
    requires w.port == cell.port && call < |cell.calls| && !cell.calls[call].Done?
    ensures var (v, next) := Advance(w, cell.calls[call]);
            var after := Moved(cell, call, v.port, next);
            Sum(Alive, after.calls) <= 1 ==> UpToDate(after)
  {
    var (v, next) := Advance(w, cell.calls[call]);
    StepTreatsLogs(w, cell.calls[call]);
    StepStaysUpToDate(w.port, cell.calls[call], v.port, next);
    MovedStaysUpToDate(cell, call, v.port, next);
  }

  lemma AddStaysUpToDate(cell: Cell, added: Cell, pc: Pc)
    requires UpToDate(cell) && added.calls == cell.calls + [pc] && !pc.Done? && EdgeOf(pc).None?
    requires added.port.trail == cell.port.trail && added.port.published == cell.port.published
    ensures Sum(Alive, added.calls) <= 1 ==> UpToDate(added)
  {
    SumAppend(Alive, cell.calls, pc);
    if Sum(Alive, cell.calls) == 0 { AliveIfOpen(cell.calls); }
  }

  lemma ApplyStaysUpToDate(s: Service, l: Label, port: nat)
    requires Inv(s) && Enabled(s, l) && port < |s.cells| && UpToDate(s.cells[port])
    ensures port < |Apply(s, l).cells|
    ensures Sum(Alive, Apply(s, l).cells[port].calls) <= 1 ==> UpToDate(Apply(s, l).cells[port])
  {
    if l.port == port {
      var cell := s.cells[port];
      match l
      case Run(_, call) => RunStaysUpToDate(cell, WorldOf(s, cell), call);
      case Spawn(_, entry) => AddStaysUpToDate(cell, Apply(s, l).cells[port], entry);
      case Deliver(_, session) => AddStaysUpToDate(cell, Apply(s, l).cells[port], Death(session, DeathEnter));
    }
  }

  lemma {:induction false} ExecStaysUpToDate(s: Service, run: seq<Label>, port: nat)
    requires Inv(s) && CanExec(s, run) && port < |s.cells| && UpToDate(s.cells[port])
    requires NeverOverlaps(s, run, port)
    ensures port < |Exec(s, run).cells| && UpToDate(Exec(s, run).cells[port])
    decreases |run|
  {
    if run != [] {
      ApplyStaysUpToDate(s, run[0], port);
      StepKeeps(s, run[0]);
      ExecStaysUpToDate(Apply(s, run[0]), run[1..], port);
    }
  }

  lemma InitUpToDate(ports: nat, requested: int, p: nat)
    requires p < ports
    ensures UpToDate(Init(ports, requested).cells[p])
  {
  }

  lemma QuietIsAnnounced(cell: Cell)
    requires UpToDate(cell) && forall i :: 0 <= i < |cell.calls| ==> cell.calls[i].Done?
    ensures cell.port.published == Announced(cell.port.trail)
  {
    SumZero(Alive, cell.calls);
  }
}
