/**
 The started-port slots.  Two books are kept of the global counter: who holds a slot right
 now, and how many periods were begun and given back.  Every step keeps both balanced.
*/
module Slots {
  import opened Lifecycle
  import opened Service
  import opened Ownership

  /** A port holds a slot from Starting until it leaves Stopping. */
  ghost predicate HoldsSlot(s: State) {
    s.Starting? || s.Started? || s.Stopping?
  }

  ghost predicate InPeriod(s: State) {
    s.Starting? || s.Started?
  }

  /**
   Every period begun is ended once, except the one now running; and every period ended has
   given its slot back, except those whose ending call is still on its way to do so.
  */
  ghost predicate Periods(cell: Cell) {
    && cell.port.begun == cell.port.ended + Bit(InPeriod(cell.port.state))
    && cell.port.ended == cell.port.released + Sum(Ending, cell.calls)
  }

  datatype Book = ByHolder | ByPeriod | ByRank

  ghost function Held(book: Book, cell: Cell): int {
    match book
    case ByHolder => Bit(HoldsSlot(cell.port.state)) + Sum(Holding, cell.calls)
    case ByPeriod => cell.port.begun - cell.port.released + Sum(Gated, cell.calls)
    case ByRank => Sum(Ranking, cell.calls)
  }

  ghost function Total(book: Book, cells: seq<Cell>): int {
    if cells == [] then 0 else Total(book, cells[..|cells|-1]) + Held(book, cells[|cells|-1])
  }

  ghost predicate Balanced(s: Service) {
    && s.started == Total(ByHolder, s.cells)
    && s.started == Total(ByPeriod, s.cells)
    && s.started <= s.limit
  }

  lemma {:induction false} TotalUpdate(book: Book, cells: seq<Cell>, i: nat, cell: Cell)
    requires i < |cells|
    ensures Total(book, cells[i := cell]) == Total(book, cells) - Held(book, cells[i]) + Held(book, cell)
  {
    var last := |cells| - 1;
    if i == last {
      assert cells[i := cell][..last] == cells[..last];
    } else {
      TotalUpdate(book, cells[..last], i, cell);
      assert cells[i := cell][..last] == cells[..last][i := cell];
    }
  }

  lemma {:induction false} TotalCovers(book: Book, cells: seq<Cell>, i: nat)
    requires i < |cells| && !book.ByPeriod?
    ensures Held(book, cells[i]) <= Total(book, cells)
    ensures Total(book, cells) >= 0
    decreases |cells|
  {
    var rest := cells[..|cells|-1];
    if rest != [] {
      TotalCovers(book, rest, if i < |rest| then i else 0);
    }
  }

  // ----- one step

  /** Every change of a book by one step has its counterpart in the call's own weight. */
  ghost predicate BooksStep(w: World, pc: Pc, v: World, next: Pc) {
    && (w.port.begun == w.port.ended + Bit(InPeriod(w.port.state)) ==>
          v.port.begun == v.port.ended + Bit(InPeriod(v.port.state)))
    && v.port.ended + w.port.released + Weigh(Ending, pc) == w.port.ended + v.port.released + Weigh(Ending, next)
    && ((Weigh(Holding, pc) > 0 ==> w.started > 0) ==>
          && v.started + Bit(HoldsSlot(w.port.state)) + Weigh(Holding, pc)
             == w.started + Bit(HoldsSlot(v.port.state)) + Weigh(Holding, next)
          && v.started + w.port.begun + Weigh(Gated, pc) + v.port.released
             == w.started + v.port.begun + Weigh(Gated, next) + w.port.released)
    && v.limit == w.limit && (w.started <= w.limit ==> v.started <= v.limit)
  }

  lemma OpenKeepsBooks(w: World, o: OpenPc)
    requires Drives(w.port, Open(o))
    ensures var (v, next) := AdvanceOpen(w, o); BooksStep(w, Open(o), v, next)
  {
    hide Rank, BoundToTail, Cleans, EdgeTo;
  }

  lemma StartKeepsBooks(w: World, s: StartPc)
    requires Drives(w.port, Start(s))
    ensures var (v, next) := AdvanceStart(w, s); BooksStep(w, Start(s), v, next)
  {
    hide Rank, BoundToTail, Cleans, EdgeTo;
  }

  lemma StopKeepsBooks(w: World, t: StopPc)
    requires Drives(w.port, Stop(t))
    ensures var (v, next) := AdvanceStop(w, t); BooksStep(w, Stop(t), v, next)
  {
    hide Rank, BoundToTail, Cleans, EdgeTo;
  }

  lemma CloseKeepsBooks(w: World, c: ClosePc)
    requires Drives(w.port, Close(c))
    ensures var (v, next) := AdvanceClose(w, c); BooksStep(w, Close(c), v, next)
  {
    hide Rank, BoundToTail, Cleans, EdgeTo;
  }

  lemma DeathKeepsBooks(w: World, session: nat, d: DeathPc)
    requires Drives(w.port, Death(session, d))
    ensures var (v, next) := AdvanceDeath(w, session, d); BooksStep(w, Death(session, d), v, next)
  {
    hide Rank, BoundToTail, Cleans, EdgeTo;
  }

  lemma StepKeepsBooks(w: World, pc: Pc)
    requires !pc.Done? && Drives(w.port, pc)
    ensures var (v, next) := Advance(w, pc); BooksStep(w, pc, v, next)
  {
    hide Rank, Cleans, AdvanceOpen, AdvanceStart, AdvanceStop, AdvanceClose, AdvanceDeath;
    match pc
    case Open(o) => OpenKeepsBooks(w, o);
    case Start(s) => StartKeepsBooks(w, s);
    case Stop(t) => StopKeepsBooks(w, t);
    case Close(c) => CloseKeepsBooks(w, c);
    case Tail =>
    case Death(session, d) => DeathKeepsBooks(w, session, d);
  }

  // ----- one step of the port and all its calls

  lemma RunKeepsPeriods(cell: Cell, w: World, call: nat)
    requires Periods(cell) && w.port == cell.port && call < |cell.calls| && !cell.calls[call].Done?
    requires Drives(cell.port, cell.calls[call])
    ensures var (v, next) := Advance(w, cell.calls[call]); Periods(Moved(cell, call, v.port, next))
  {
    var (v, next) := Advance(w, cell.calls[call]);
    StepKeepsBooks(w, cell.calls[call]);
    SumUpdate(Ending, cell.calls, call, next);
  }

  lemma AddKeepsPeriods(cell: Cell, added: Cell, pc: Pc)
    requires Periods(cell) && added.calls == cell.calls + [pc] && (Entry(pc) || (pc.Death? && pc.d.DeathEnter?))
    requires added.port.(armed := cell.port.armed, delivered := cell.port.delivered) == cell.port
    ensures Periods(added)
    ensures Held(ByHolder, added) == Held(ByHolder, cell) && Held(ByPeriod, added) == Held(ByPeriod, cell)
  {
    SumAppend(Ending, cell.calls, pc);
    SumAppend(Holding, cell.calls, pc);
    SumAppend(Gated, cell.calls, pc);
  }

  /** A call that will decrement the counter always finds it positive. */
  lemma HolderSeesSlot(s: Service, port: nat, call: nat)
    requires Balanced(s) && port < |s.cells| && call < |s.cells[port].calls|
    ensures Weigh(Holding, s.cells[port].calls[call]) <= s.started
    ensures Held(ByHolder, s.cells[port]) <= s.started
  {
    SumAtLeast(Holding, s.cells[port].calls, call);
    TotalCovers(ByHolder, s.cells, port);
  }

  lemma RunKeepsBalance(s: Service, port: nat, call: nat)
    requires Balanced(s) && Enabled(s, Run(port, call))
    requires Drives(s.cells[port].port, s.cells[port].calls[call])
    ensures Balanced(Apply(s, Run(port, call)))
  {
    var cell := s.cells[port];
    var w := WorldOf(s, cell);
    HolderSeesSlot(s, port, call);
    var (v, next) := Advance(w, cell.calls[call]);
    StepKeepsBooks(w, cell.calls[call]);
    SumUpdate(Holding, cell.calls, call, next);
    SumUpdate(Gated, cell.calls, call, next);
    TotalUpdate(ByHolder, s.cells, port, Moved(cell, call, v.port, next));
    TotalUpdate(ByPeriod, s.cells, port, Moved(cell, call, v.port, next));
  }

  lemma {:induction false} EmptyBooks(cells: seq<Cell>)
    requires forall i :: 0 <= i < |cells| ==> cells[i] == Cell(NewPort(), [])
    ensures Total(ByHolder, cells) == Total(ByPeriod, cells) == 0
  {
    if cells != [] {
      EmptyBooks(cells[..|cells|-1]);
    }
  }

  lemma NewCellPeriods(cell: Cell)
    requires cell == Cell(NewPort(), [])
    ensures Periods(cell)
  {
  }
}
