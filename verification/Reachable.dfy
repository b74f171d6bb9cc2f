/** Every reachable state keeps all invariants. */
module Reachable {
  import opened Lifecycle
  import opened Service
  import opened Ownership
  import opened Slots
  import opened Deaths
  import opened Publication

  ghost predicate CellInv(cell: Cell) {
    CoreInv(cell) && Watched(cell) && Periods(cell) && LogInv(cell)
  }

  ghost predicate Inv(s: Service) {
    && (forall p :: 0 <= p < |s.cells| ==> CellInv(s.cells[p]))
    && Balanced(s)
  }

  lemma NewCellKeeps(cell: Cell)
    requires cell == Cell(NewPort(), [])
    ensures CellInv(cell)
  {
    NewCellCore();
    NewCellPeriods(cell);
    NewCellLogs(cell);
  }

  lemma InitKeeps(ports: nat, requested: int)
    ensures Inv(Init(ports, requested))
  {
    hide CellInv;
    var s := Init(ports, requested);
    EmptyBooks(s.cells);
    forall p | 0 <= p < |s.cells|
      ensures CellInv(s.cells[p])
    {
      NewCellKeeps(s.cells[p]);
    }
  }

  lemma RunKeeps(s: Service, port: nat, call: nat)
    requires Inv(s) && Enabled(s, Run(port, call))
    ensures Inv(Apply(s, Run(port, call)))
  {
    var cell := s.cells[port];
    var w := WorldOf(s, cell);
    RunKeepsCore(cell, w, call);
    RunKeepsWatch(cell, w, call);
    RunKeepsPeriods(cell, w, call);
    RunKeepsLogs(cell, w, call);
    RunKeepsBalance(s, port, call);
  }

  /** A call that is only added to its port changes no other count. */
  lemma AddKeepsCell(cell: Cell, added: Cell, pc: Pc)
    requires CellInv(cell) && CoreInv(added) && added.calls == cell.calls + [pc]
    requires Entry(pc) || (pc.Death? && pc.d.DeathEnter?)
    requires added.port.(armed := cell.port.armed, delivered := cell.port.delivered) == cell.port
    ensures CellInv(added)
    ensures Held(ByHolder, added) == Held(ByHolder, cell) && Held(ByPeriod, added) == Held(ByPeriod, cell)
  {
    SumAppend(TailBound, cell.calls, pc);
    assert Watched(added);
    AddKeepsPeriods(cell, added, pc);
    AddKeepsLogs(cell, added, pc);
  }

  lemma ReplaceKeeps(s: Service, port: nat, added: Cell)
    requires Inv(s) && port < |s.cells| && CellInv(added)
    requires Held(ByHolder, added) == Held(ByHolder, s.cells[port])
    requires Held(ByPeriod, added) == Held(ByPeriod, s.cells[port])
    ensures Inv(s.(cells := s.cells[port := added]))
  {
    TotalUpdate(ByHolder, s.cells, port, added);
    TotalUpdate(ByPeriod, s.cells, port, added);
  }

  lemma StepKeeps(s: Service, l: Label)
    requires Inv(s) && Enabled(s, l)
    ensures Inv(Apply(s, l))
    ensures Apply(s, l).limit == s.limit && |Apply(s, l).cells| == |s.cells|
  {
    match l
    case Run(port, call) =>
      RunKeeps(s, port, call);
    case Spawn(port, entry) =>
      var added := s.cells[port].(calls := s.cells[port].calls + [entry]);
      SpawnKeepsCore(s.cells[port], entry);
      AddKeepsCell(s.cells[port], added, entry);
      ReplaceKeeps(s, port, added);
    case Deliver(port, session) =>
      var added := Delivered(s.cells[port], session);
      DeliverKeepsCore(s.cells[port], session);
      AddKeepsCell(s.cells[port], added, Death(session, DeathEnter));
      ReplaceKeeps(s, port, added);
  }

  lemma {:induction false} ExecKeeps(s: Service, run: seq<Label>)
    requires Inv(s) && CanExec(s, run)
    ensures Inv(Exec(s, run))
    ensures Exec(s, run).limit == s.limit && |Exec(s, run).cells| == |s.cells|
    decreases |run|
  {
    if run != [] {
      StepKeeps(s, run[0]);
      ExecKeeps(Apply(s, run[0]), run[1..]);
    }
  }

  /** The service after any run of any number of clients on any number of ports. */
  lemma Reached(ports: nat, requested: int, run: seq<Label>)
    requires CanExec(Init(ports, requested), run)
    ensures Inv(Exec(Init(ports, requested), run))
    ensures Exec(Init(ports, requested), run).limit == Sanitized(requested)
    ensures |Exec(Init(ports, requested), run).cells| == ports
  {
    InitKeeps(ports, requested);
    ExecKeeps(Init(ports, requested), run);
  }
}
