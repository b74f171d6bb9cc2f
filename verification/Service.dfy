/**
 All ports and all calls in flight, stepping in any interleaving.

 A run is a sequence of labels: a call takes its next step, a client makes a call, or a
 death notification is delivered.  Ports and calls are unbounded; a finished call stays
 in its cell as `Done`.
*/
module Service {
  import opened Common
  import opened Lifecycle

  /** A port with every call made on it so far. */
  datatype Cell = Cell(port: Port, calls: seq<Pc>)

  datatype Service = Service(cells: seq<Cell>, started: nat, limit: nat)

  datatype Label =
    | Run(port: nat, call: nat)
    | Spawn(port: nat, entry: Pc)
    | Deliver(port: nat, session: nat)

  /** setMaxConcurrentStartedPorts(): a limit below one is clamped to one. */
  function Sanitized(requested: int): (limit: nat)
    ensures limit >= 1 && limit >= requested && (limit == 1 || limit == requested)
  {
    if requested >= 1 then requested else 1
  }

  /** The service after load: ports closed, nothing in flight, no slot taken. */
  function Init(ports: nat, requested: int): Service {
    Service(seq(ports, _ => Cell(NewPort(), [])), 0, Sanitized(requested))
  }

  /** What a client can call. */
  predicate Entry(pc: Pc) {
    match pc
    case Open(o) => o.OpenEnter?
    case Start(s) => s.StartGate?
    case Stop(t) => t.StopEnter?
    case Close(c) => c.CloseEnter?
    case _ => false
  }

  predicate Enabled(s: Service, l: Label) {
    && l.port < |s.cells|
    && var cell := s.cells[l.port];
       match l
       case Run(_, call) => call < |cell.calls| && !cell.calls[call].Done?
       case Spawn(_, entry) => Entry(entry)
       case Deliver(_, session) => session in cell.port.armed
  }

  function WorldOf(s: Service, cell: Cell): World {
    World(cell.port, s.started, s.limit)
  }

  /** A cell after its call `call` moved to `next` and left the port as `port`. */
  function Moved(cell: Cell, call: nat, port: Port, next: Pc): Cell
    requires call < |cell.calls|
  {
    Cell(port, cell.calls[call := next])
  }

  /** binderDied(): a recipient fires at most once and starts a cleanup for its session. */
  function Delivered(cell: Cell, session: nat): Cell {
    Cell(cell.port.(armed := cell.port.armed - {session}, delivered := cell.port.delivered + {session}),
         cell.calls + [Death(session, DeathEnter)])
  }

  function Apply(s: Service, l: Label): Service
    requires Enabled(s, l)
  {
    var cell := s.cells[l.port];
    match l
    case Run(_, call) =>
      var (w, next) := Advance(WorldOf(s, cell), cell.calls[call]);
      s.(cells := s.cells[l.port := Moved(cell, call, w.port, next)], started := w.started)
    case Spawn(_, entry) =>
      s.(cells := s.cells[l.port := cell.(calls := cell.calls + [entry])])
    case Deliver(_, session) =>
      s.(cells := s.cells[l.port := Delivered(cell, session)])
  }

  predicate CanExec(s: Service, run: seq<Label>)
    decreases |run|
  {
    run == [] || (Enabled(s, run[0]) && CanExec(Apply(s, run[0]), run[1..]))
  }

  /** The service after a run. */
  function Exec(s: Service, run: seq<Label>): Service
    requires CanExec(s, run)
    decreases |run|
  {
    if run == [] then s else Exec(Apply(s, run[0]), run[1..])
  }

  // ----- counting calls

  /** What a call can be weighed by; see Weigh. */
  datatype Gauge = Owning | Holding | Gated | Ending | TailBound | Cleaning(session: nat) | Ranking | Alive

  /** The transient state a call drives its port through, if it is in that stretch of code. */
  function Owned(pc: Pc): Option<State> {
    match pc
    case Open(o) => if o.OpenEnter? || o.OpenPublish? then None else Some(Opening)
    case Start(s) =>
      if s.StartAnnounce? || s.StartRead? || s.StartNotify? || s.StartFinish? then Some(Starting) else None
    case Stop(t) => if t.StopAnnounce? || t.StopReady? then Some(Stopping) else None
    case Close(c) => if c.CloseAnnounce? || c.CloseRetire? then Some(Closing) else None
    case Death(_, d) =>
      if d.DeathAnnounceStop? || d.DeathReady? then Some(Stopping)
      else if d.DeathAnnounceClose? || d.DeathRetire? then Some(Closing)
      else None
    case _ => None
  }

  /** Past the transition out of Stopping, slot not yet given back. */
  predicate Releasing(pc: Pc) {
    match pc
    case Stop(t) => t.StopPublish? || t.StopRelease?
    case Death(_, d) => d.DeathPublishReady? || d.DeathRelease?
    case _ => false
  }

  /** Past the gate of start(), state not yet checked. */
  predicate PastGate(pc: Pc) {
    pc == Start(StartEnter)
  }

  /** The session a cleanup is for, until it has ended that session. */
  function Cleans(pc: Pc): Option<nat> {
    if pc.Death? && !pc.d.DeathPublishClosed? then Some(pc.session) else None
  }

  /** Past its last transition and certain to look at the pending flag. */
  predicate BoundToTail(pc: Pc) {
    match pc
    case Open(o) => o.OpenPublish?
    case Start(s) => s.StartPublish? || s.StartStamp? || s.StartTelemetry?
    case Stop(t) => t.StopPublish? || t.StopRelease?
    case Tail => true
    case _ => false
  }

  /** How many steps a call can still take at most. */
  function Rank(pc: Pc): nat {
    match pc
    case Open(o) =>
      (match o
       case OpenEnter(_, _, _) => 16
       case OpenLink(_, _, _, _) => 15
       case OpenAbort(_) => 1
       case OpenAnnounce(_) => 14
       case OpenGreet => 13
       case OpenReady => 12
       case OpenPublish(_) => 11)
    case Start(s) =>
      (match s
       case StartGate => 19
       case StartEnter => 18
       case StartAnnounce(_) => 17
       case StartRead => 16
       case StartNotify(_) => 15
       case StartFinish => 14
       case StartPublish(_) => 13
       case StartStamp => 12
       case StartTelemetry => 11)
    case Stop(t) =>
      (match t
       case StopEnter => 15
       case StopAnnounce(_) => 14
       case StopReady => 13
       case StopPublish(_) => 12
       case StopRelease => 11)
    case Close(c) =>
      (match c
       case CloseEnter(_) => 5
       case CloseAnnounce(_) => 4
       case CloseRetire => 3
       case CloseUnlink(_, _) => 2
       case ClosePublish(_) => 1)
    case Tail => 10
    case Death(_, d) =>
      (match d
       case DeathEnter => 9
       case DeathAnnounceStop(_) => 8
       case DeathReady => 7
       case DeathPublishReady(_) => 6
       case DeathRelease => 5
       case DeathCloseEnter => 4
       case DeathAnnounceClose(_) => 3
       case DeathRetire => 2
       case DeathPublishClosed(_) => 1)
    case Done(_) => 0
  }

  function Bit(b: bool): nat {
    if b then 1 else 0
  }

  function Weigh(g: Gauge, pc: Pc): nat {
    match g
    case Owning => Bit(Owned(pc).Some?)
    case Holding => Bit(PastGate(pc) || Releasing(pc))
    case Gated => Bit(PastGate(pc))
    case Ending => Bit(Owned(pc) == Some(Stopping) || Releasing(pc))
    case TailBound => Bit(BoundToTail(pc))
    case Cleaning(session) => Bit(Cleans(pc) == Some(session))
    case Ranking => Rank(pc)
    case Alive => Bit(!pc.Done?)
  }

  function Sum(g: Gauge, calls: seq<Pc>): nat {
    if calls == [] then 0 else Sum(g, calls[..|calls|-1]) + Weigh(g, calls[|calls|-1])
  }

  lemma SumAppend(g: Gauge, calls: seq<Pc>, pc: Pc)
    ensures Sum(g, calls + [pc]) == Sum(g, calls) + Weigh(g, pc)
  {
    assert (calls + [pc])[..|calls|] == calls;
  }

  lemma {:induction false} SumUpdate(g: Gauge, calls: seq<Pc>, i: nat, pc: Pc)
    requires i < |calls|
    ensures Sum(g, calls[i := pc]) + Weigh(g, calls[i]) == Sum(g, calls) + Weigh(g, pc)
  {
    var last := |calls| - 1;
    if i == last {
      assert calls[i := pc][..last] == calls[..last];
    } else {
      SumUpdate(g, calls[..last], i, pc);
      assert calls[i := pc][..last] == calls[..last][i := pc];
    }
  }

  lemma {:induction false} SumAtLeast(g: Gauge, calls: seq<Pc>, i: nat)
    requires i < |calls|
    ensures Weigh(g, calls[i]) <= Sum(g, calls)
  {
    if i < |calls| - 1 {
      SumAtLeast(g, calls[..|calls|-1], i);
    }
  }

  lemma {:induction false} SumOfTwo(g: Gauge, calls: seq<Pc>, i: nat, j: nat)
    requires i < j < |calls|
    ensures Weigh(g, calls[i]) + Weigh(g, calls[j]) <= Sum(g, calls)
  {
    if j == |calls| - 1 {
      SumAtLeast(g, calls[..|calls|-1], i);
    } else {
      SumOfTwo(g, calls[..|calls|-1], i, j);
    }
  }

  lemma {:induction false} SumZero(g: Gauge, calls: seq<Pc>)
    requires forall i :: 0 <= i < |calls| ==> Weigh(g, calls[i]) == 0
    ensures Sum(g, calls) == 0
  {
    if calls != [] {
      SumZero(g, calls[..|calls|-1]);
    }
  }

  /** A positive count has a witness. */
  lemma {:induction false} SumWitness(g: Gauge, calls: seq<Pc>) returns (i: nat)
    requires Sum(g, calls) > 0
    ensures i < |calls| && Weigh(g, calls[i]) > 0
  {
    if Weigh(g, calls[|calls|-1]) > 0 {
      i := |calls| - 1;
    } else {
      i := SumWitness(g, calls[..|calls|-1]);
    }
  }
}
