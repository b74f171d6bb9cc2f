/**
 Whether a death cleanup gives its slot back inside its own session: exactly when nobody
 closed that session after the cleanup had made the port ready.
*/
module Releases {
  import opened Common
  import opened Lifecycle
  import opened Service
  import opened Ownership
  import opened Reachable
  import opened Protocol

  /** Call c is a cleanup for session e that has made the port ready and not yet given its slot back. */
  ghost predicate OwesSlot(cell: Cell, c: nat, e: nat) {
    && c < |cell.calls| && cell.calls[c].Death? && cell.calls[c].session == e
    && (cell.calls[c].d.DeathPublishReady? || cell.calls[c].d.DeathRelease?)
  }

  /** A close() on port p retires its session in this step. */
  predicate ClosesSession(s: Service, l: Label, p: nat)
    requires Enabled(s, l) && p < |s.cells|
  {
    l.Run? && l.port == p && s.cells[p].calls[l.call] == Close(CloseRetire)
  }

  /** Read off the run: a close() has retired a session of port p. */
  predicate ClosedSince(s: Service, run: seq<Label>, p: nat)
    requires CanExec(s, run) && p < |s.cells|
    decreases |run|
  {
    run != [] && (ClosesSession(s, run[0], p) || ClosedSince(Apply(s, run[0]), run[1..], p))
  }

  /** Session e is over, or under way and past its open(). */
  ghost predicate PastOpening(port: Port, e: nat) {
    e < port.epoch || (e == port.epoch && !port.state.Opening? && !port.state.Closed?)
  }

  /** While a cleanup for session e has not finished, only close() can end that session. */
  lemma EndsByClose(w: World, pc: Pc, e: nat)
    requires !pc.Done? && StepPre(w.port, pc) && PastOpening(w.port, e)
    requires e == w.port.epoch ==> Cleans(pc) != Some(e)
    ensures var v := Advance(w, pc).0;
            PastOpening(v.port, e) && v.port.epoch >= w.port.epoch &&
            (e == w.port.epoch ==> (v.port.epoch == e <==> pc != Close(CloseRetire)))
  {
    hide Rank, BoundToTail, Releasing, PastGate;
  }

  /** A cleanup's own steps before its close stage leave the epoch alone. */
  lemma OwingKeepsEpoch(w: World, e: nat, d: DeathPc)
    requires d.DeathPublishReady? || d.DeathRelease?
    ensures var (v, next) := AdvanceDeath(w, e, d);
            v.port.epoch == w.port.epoch && v.port.state == w.port.state
            && (d.DeathRelease? ==> next == Death(e, DeathCloseEnter))
  {
  }

  lemma RunWhileOwing(s: Service, call: nat, p: nat, c: nat, e: nat)
    requires Inv(s) && Enabled(s, Run(p, call))
    requires OwesSlot(s.cells[p], c, e) && PastOpening(s.cells[p].port, e)
    ensures var port, after := s.cells[p].port, Apply(s, Run(p, call)).cells[p].port;
            PastOpening(after, e) && after.epoch >= port.epoch &&
            (e == port.epoch ==> (after.epoch == e <==> !ClosesSession(s, Run(p, call), p)))
  {
    var cell := s.cells[p];
    assert CellInv(cell);
    FlagFollows(cell);
    if call == c {
      OwingKeepsEpoch(WorldOf(s, cell), e, cell.calls[c].d);
    } else {
      if e == cell.port.epoch { CleanerUnique(cell, c, call); }
      EndsByClose(WorldOf(s, cell), cell.calls[call], e);
    }
  }

  lemma StepWhileOwing(s: Service, l: Label, p: nat, c: nat, e: nat)
    requires Inv(s) && Enabled(s, l) && p < |s.cells|
    requires OwesSlot(s.cells[p], c, e) && PastOpening(s.cells[p].port, e)
    ensures p < |Apply(s, l).cells|
    ensures var port, after := s.cells[p].port, Apply(s, l).cells[p].port;
            PastOpening(after, e) && after.epoch >= port.epoch &&
            (e == port.epoch ==> (after.epoch == e <==> !ClosesSession(s, l, p)))
  {
    if l.Run? && l.port == p { RunWhileOwing(s, l.call, p, c, e); }
  }

  /** Past the point where it owed its slot. */
  ghost predicate Discharged(cell: Cell, c: nat, e: nat) {
    && c < |cell.calls|
    && (cell.calls[c].Done? ||
        (cell.calls[c].Death? && cell.calls[c].session == e && !OwesSlot(cell, c, e) &&
         !cell.calls[c].d.DeathEnter? && !cell.calls[c].d.DeathAnnounceStop? && !cell.calls[c].d.DeathReady?))
  }

  lemma DischargedOwesNothing(cell: Cell, c: nat, e: nat)
    ensures Discharged(cell, c, e) ==> !OwesSlot(cell, c, e)
  {
  }

  lemma StepDischarges(s: Service, l: Label, p: nat, c: nat, e: nat)
    requires Enabled(s, l) && p < |s.cells|
    requires OwesSlot(s.cells[p], c, e) || Discharged(s.cells[p], c, e)
    ensures p < |Apply(s, l).cells|
    ensures OwesSlot(Apply(s, l).cells[p], c, e) || Discharged(Apply(s, l).cells[p], c, e)
    ensures Discharged(s.cells[p], c, e) ==> Discharged(Apply(s, l).cells[p], c, e)
  {
  }

  lemma {:induction false} DischargedStays(s: Service, run: seq<Label>, p: nat, c: nat, e: nat)
    requires CanExec(s, run) && p < |s.cells| && Discharged(s.cells[p], c, e)
    ensures p < |Exec(s, run).cells| && Discharged(Exec(s, run).cells[p], c, e)
    decreases |run|
  {
    if run != [] {
      StepDischarges(s, run[0], p, c, e);
      DischargedStays(Apply(s, run[0]), run[1..], p, c, e);
    }
  }

  lemma {:induction false} OwingInSession(s: Service, run: seq<Label>, p: nat, c: nat, e: nat)
    requires Inv(s) && CanExec(s, run) && p < |s.cells|
    requires OwesSlot(s.cells[p], c, e) && PastOpening(s.cells[p].port, e)
    ensures p < |Exec(s, run).cells|
    ensures OwesSlot(Exec(s, run).cells[p], c, e) ==>
              && e <= Exec(s, run).cells[p].port.epoch
              && (Exec(s, run).cells[p].port.epoch == e <==>
                    s.cells[p].port.epoch == e && !ClosedSince(s, run, p))
    decreases |run|
  {
    hide Inv, ClosesSession, OwesSlot, Discharged;
    if run != [] {
      var l := run[0];
      StepKeeps(s, l);
      StepWhileOwing(s, l, p, c, e);
      StepDischarges(s, l, p, c, e);
      if OwesSlot(Apply(s, l).cells[p], c, e) {
        OwingInSession(Apply(s, l), run[1..], p, c, e);
      } else {
        DischargedStays(Apply(s, l), run[1..], p, c, e);
        DischargedOwesNothing(Exec(s, run).cells[p], c, e);
      }
    }
  }

  lemma ReadyStarts(s: Service, p: nat, c: nat)
    requires Inv(s) && Enabled(s, Run(p, c))
    requires s.cells[p].calls[c].Death? && s.cells[p].calls[c].d.DeathReady?
    ensures var t, e := Apply(s, Run(p, c)), s.cells[p].calls[c].session;
            && t.cells[p].port.epoch == e && OwesSlot(t.cells[p], c, e) && PastOpening(t.cells[p].port, e)
  {
    assert CellInv(s.cells[p]);
  }

  /**
   A cleanup makes the port ready inside its session e. In every run from there, as long as it
   has not given the slot back, the port is still in session e if and only if no close() has
   retired a session of the port since. So the slot is given back inside session e exactly then.
  */
  lemma GivesBackInSession(s: Service, p: nat, c: nat, run: seq<Label>)
    requires Inv(s) && Enabled(s, Run(p, c))
    requires s.cells[p].calls[c].Death? && s.cells[p].calls[c].d.DeathReady?
    requires CanExec(Apply(s, Run(p, c)), run)
    ensures var s1, e := Apply(s, Run(p, c)), s.cells[p].calls[c].session;
            var t := Exec(s1, run);
            && s1.cells[p].port.epoch == e
            && p < |t.cells|
            && (OwesSlot(t.cells[p], c, e) ==>
                  (t.cells[p].port.epoch == e <==> !ClosedSince(s1, run, p)))
  {
    hide Exec, CanExec, Inv, ClosedSince, PastOpening, OwesSlot;
    ReadyStarts(s, p, c);
    StepKeeps(s, Run(p, c));
    OwingInSession(Apply(s, Run(p, c)), run, p, c, s.cells[p].calls[c].session);
  }
}
