/**
 Who may move a port: every transient state is owned by exactly one call in flight.

 `LocalOk` is what a call may rely on at each program counter.  A step establishes it for
 the stepping call (`StepKeepsOwn`) and disturbs it for no other call (`StepSparesOthers`),
 which is why the unguarded setStateLocked() calls see the state they expect.
*/
module Ownership {
  import opened Common
  import opened Lifecycle
  import opened Service

  /** A session id is odd and not in the future; a recipient fires at most once. */
  ghost predicate IdsOk(epoch: nat, armed: set<nat>, delivered: set<nat>) {
    && (forall e <- delivered :: e % 2 == 1 && e <= epoch)
    && (forall e <- armed :: e % 2 == 1 && e <= epoch && e !in delivered)
  }

  /**
   The session coupling: the epoch advances twice per open(), so its parity tells whether a
   session is under way, and then controller and listener are those of the latest open().
  */
  ghost predicate Coupled(p: Port) {
    && p.epoch + Bit(!p.state.Closed?) == 2 * p.made
    && (p.controller == if p.state.Closed? || p.made == 0 then None else Some(p.made - 1))
    && (p.listener.Some? <==> !p.state.Closed?)
    && (p.recipient.Some? ==> p.recipient == Some(p.epoch) && !p.state.Closed?)
  }

  ghost predicate PortOk(p: Port) {
    Coupled(p) && IdsOk(p.epoch, p.armed, p.delivered)
  }

  /** A call in a stretch of code it owns finds the port in that state. */
  ghost predicate Drives(p: Port, pc: Pc) {
    Owned(pc).Some? ==> p.state == Owned(pc).value
  }

  /** What a call at `pc` relies on. */
  ghost predicate LocalOk(p: Port, pc: Pc) {
    && Drives(p, pc)
    && (Cleans(pc).Some? ==> Cleans(pc).value in p.delivered)
    && (Cleans(pc).Some? && Owned(pc).Some? ==> Cleans(pc).value == p.epoch)
    && (pc.Open? && pc.o.OpenLink? ==>
          pc.o.owned == p.epoch && pc.o.owned !in p.armed && pc.o.owned !in p.delivered)
    && (pc.Start? && pc.s.StartNotify? ==> pc.s.heard == p.listener)
  }

  /** The change other calls of the port can see. */
  ghost predicate Seen(p: Port, mover: Pc, q: Port) {
    && p.delivered == q.delivered
    && (q.armed <= p.armed || (mover.Open? && mover.o.OpenLink?))
    && (Transient(p.state) && Owned(mover).None? ==>
          q.state == p.state && q.epoch == p.epoch && q.listener == p.listener)
  }

  /** A pending flag is for a delivered death. */
  ghost predicate FlagOk(p: Port) {
    p.pending ==> p.epoch in p.delivered
  }

  /**
   The death obligation of the current session is one token: nowhere before its death is
   delivered, and from then on either the pending flag or exactly one cleanup in flight.
  */
  ghost predicate Obliged(cell: Cell) {
    Sum(Cleaning(cell.port.epoch), cell.calls) + Bit(cell.port.pending) == Bit(cell.port.epoch in cell.port.delivered)
  }

  ghost predicate CoreInv(cell: Cell) {
    && PortOk(cell.port)
    && (forall i :: 0 <= i < |cell.calls| ==> LocalOk(cell.port, cell.calls[i]))
    && Sum(Owning, cell.calls) == Bit(Transient(cell.port.state))
    && Obliged(cell)
  }

  // ----- one step of the call itself

  ghost predicate StepPre(p: Port, pc: Pc) {
    PortOk(p) && FlagOk(p) && LocalOk(p, pc)
  }

  /** What one step establishes for the call that takes it. */
  ghost predicate OwnStep(p: Port, pc: Pc, q: Port, next: Pc) {
    && PortOk(q) && LocalOk(q, next) && Seen(p, pc, q)
    && Bit(Transient(q.state)) + Weigh(Owning, pc) == Bit(Transient(p.state)) + Weigh(Owning, next)
  }

  lemma OpenKeepsOwn(w: World, o: OpenPc)
    requires StepPre(w.port, Open(o))
    ensures var (v, next) := AdvanceOpen(w, o); OwnStep(w.port, Open(o), v.port, next)
  {
    hide Rank, BoundToTail, Releasing, PastGate;
  }

  lemma StartKeepsOwn(w: World, s: StartPc)
    requires StepPre(w.port, Start(s))
    ensures var (v, next) := AdvanceStart(w, s); OwnStep(w.port, Start(s), v.port, next)
  {
    hide Rank, BoundToTail, Releasing, PastGate;
  }

  lemma StopKeepsOwn(w: World, t: StopPc)
    requires StepPre(w.port, Stop(t))
    ensures var (v, next) := AdvanceStop(w, t); OwnStep(w.port, Stop(t), v.port, next)
  {
    hide Rank, BoundToTail, Releasing, PastGate;
  }

  lemma CloseKeepsOwn(w: World, c: ClosePc)
    requires StepPre(w.port, Close(c))
    ensures var (v, next) := AdvanceClose(w, c); OwnStep(w.port, Close(c), v.port, next)
  {
    hide Rank, BoundToTail, Releasing, PastGate;
  }

  lemma DeathKeepsOwn(w: World, session: nat, d: DeathPc)
    requires StepPre(w.port, Death(session, d))
    ensures var (v, next) := AdvanceDeath(w, session, d); OwnStep(w.port, Death(session, d), v.port, next)
  {
    hide Rank, BoundToTail, Releasing, PastGate;
    var (v, next) := AdvanceDeath(w, session, d);
    assert PortOk(v.port);
    assert LocalOk(v.port, next);
  }

  lemma StepKeepsOwn(w: World, pc: Pc)
    requires !pc.Done? && StepPre(w.port, pc)
    ensures var (v, next) := Advance(w, pc); OwnStep(w.port, pc, v.port, next)
  {
    match pc
    case Open(o) => OpenKeepsOwn(w, o);
    case Start(s) => StartKeepsOwn(w, s);
    case Stop(t) => StopKeepsOwn(w, t);
    case Close(c) => CloseKeepsOwn(w, c);
    case Tail =>
    case Death(session, d) => DeathKeepsOwn(w, session, d);
  }

  /** A step hands the token on, or ends the session it belonged to. */
  lemma StepKeepsObligation(w: World, pc: Pc)
    requires !pc.Done? && StepPre(w.port, pc)
    requires Cleans(pc) == Some(w.port.epoch) ==> !w.port.pending
    ensures var (v, next) := Advance(w, pc);
            var now := Cleaning(w.port.epoch);
            if v.port.epoch == w.port.epoch
            then Bit(v.port.pending) + Weigh(now, next) == Bit(w.port.pending) + Weigh(now, pc)
            else v.port.epoch == w.port.epoch + 1 && !v.port.pending && Cleans(next) != Some(v.port.epoch)
  {
    hide Rank, BoundToTail, Releasing, PastGate;
  }

  /** Two calls never own a port together, so a step of one spares the other. */
  lemma StepSparesOthers(p: Port, mover: Pc, q: Port, other: Pc)
    requires Seen(p, mover, q) && LocalOk(p, other)
    requires Owned(other).Some? ==> Owned(mover).None? && Transient(p.state)
    requires mover.Open? && mover.o.OpenLink? ==> Owned(other).None?
    ensures LocalOk(q, other)
  {
  }

  // ----- one step of the port and all its calls

  lemma OthersDoNotOwn(cell: Cell, i: nat, j: nat)
    requires CoreInv(cell) && i < |cell.calls| && j < |cell.calls| && i != j
    requires Owned(cell.calls[i]).Some?
    ensures Owned(cell.calls[j]).None? && Transient(cell.port.state)
  {
    SumOfTwo(Owning, cell.calls, if i < j then i else j, if i < j then j else i);
  }

  lemma FlagFollows(cell: Cell)
    requires CoreInv(cell)
    ensures FlagOk(cell.port)
    ensures forall i :: 0 <= i < |cell.calls| && Cleans(cell.calls[i]) == Some(cell.port.epoch) ==> !cell.port.pending
  {
    forall i | 0 <= i < |cell.calls| && Cleans(cell.calls[i]) == Some(cell.port.epoch)
      ensures !cell.port.pending
    {
      SumAtLeast(Cleaning(cell.port.epoch), cell.calls, i);
    }
  }

  lemma RunKeepsObligation(cell: Cell, w: World, call: nat)
    requires CoreInv(cell) && w.port == cell.port && call < |cell.calls| && !cell.calls[call].Done?
    ensures var (v, next) := Advance(w, cell.calls[call]); Obliged(Moved(cell, call, v.port, next))
  {
    FlagFollows(cell);
    var pc := cell.calls[call];
    StepKeepsObligation(w, pc);
    var (v, next) := Advance(w, pc);
    if v.port.epoch == w.port.epoch {
      StepKeepsOwn(w, pc);
      SumUpdate(Cleaning(w.port.epoch), cell.calls, call, next);
    } else {
      StepKeepsOwn(w, pc);
      SumZero(Cleaning(v.port.epoch), cell.calls[call := next]);
    }
  }

  lemma RunKeepsCore(cell: Cell, w: World, call: nat)
    requires CoreInv(cell) && w.port == cell.port && call < |cell.calls| && !cell.calls[call].Done?
    ensures var (v, next) := Advance(w, cell.calls[call]); CoreInv(Moved(cell, call, v.port, next))
  {
    FlagFollows(cell);
    var pc := cell.calls[call];
    var (v, next) := Advance(w, pc);
    StepKeepsOwn(w, pc);
    SumUpdate(Owning, cell.calls, call, next);
    RunKeepsObligation(cell, w, call);
    forall i | 0 <= i < |cell.calls| && i != call
      ensures LocalOk(v.port, cell.calls[i])
    {
      if Owned(cell.calls[i]).Some? { OthersDoNotOwn(cell, i, call); }
      StepSparesOthers(w.port, pc, v.port, cell.calls[i]);
    }
  }

  lemma SpawnKeepsCore(cell: Cell, entry: Pc)
    requires CoreInv(cell) && Entry(entry)
    ensures CoreInv(cell.(calls := cell.calls + [entry]))
  {
    SumAppend(Owning, cell.calls, entry);
    SumAppend(Cleaning(cell.port.epoch), cell.calls, entry);
  }

  lemma DeliverKeepsCore(cell: Cell, session: nat)
    requires CoreInv(cell) && session in cell.port.armed
    ensures CoreInv(Delivered(cell, session))
  {
    var pc := Death(session, DeathEnter);
    SumAppend(Owning, cell.calls, pc);
    SumAppend(Cleaning(cell.port.epoch), cell.calls, pc);
    forall i | 0 <= i < |cell.calls|
      ensures LocalOk(Delivered(cell, session).port, cell.calls[i])
    {
      assert LocalOk(cell.port, cell.calls[i]);
    }
  }

  lemma NewCellCore()
    ensures CoreInv(Cell(NewPort(), []))
  {
  }
}
