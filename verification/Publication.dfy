/**
 The state events a port publishes against the transitions it makes.

 Events are dispatched with the lock released, so calls on different threads may publish out
 of order.  What still holds in every interleaving: an event is an actual transition, no
 transition is published twice, none is lost except the two of an aborted open, and the
 event into a transient state precedes the event out of it.
*/
module Publication {
  import opened Common
  import opened Lifecycle
  import opened Service
  import opened Ownership

  /** The transitions the component ever makes. */
  predicate Legal(from: State, to: State) {
    match from
    case Closed => to.Opening?
    case Opening => to.Ready? || to.Closed?
    case Ready => to.Starting? || to.Closing?
    case Starting => to.Started?
    case Started => to.Stopping?
    case Stopping => to.Ready?
    case Closing => to.Closed?
  }

  predicate LegalTrail(trail: seq<State>) {
    if |trail| <= 1 then trail == [Closed]
    else LegalTrail(trail[..|trail|-1]) && Legal(trail[|trail|-2], trail[|trail|-1])
  }

  lemma {:induction false} LegalAt(trail: seq<State>, i: nat)
    requires LegalTrail(trail) && i + 1 < |trail|
    ensures Legal(trail[i], trail[i + 1])
  {
    if i + 2 < |trail| {
      LegalAt(trail[..|trail|-1], i);
    }
  }

  /** An edge names a transition the port really made. */
  ghost predicate EdgeOk(trail: seq<State>, e: Edge) {
    e.at + 1 < |trail| && trail[e.at] == e.from && trail[e.at + 1] == e.to
  }

  /** One of the two transitions of an open() that was rolled back. */
  ghost predicate Aborted(trail: seq<State>, n: nat) {
    && n + 1 < |trail|
    && ((trail[n].Opening? && trail[n + 1].Closed?)
        || (trail[n].Closed? && n + 2 < |trail| && trail[n + 2].Closed?))
  }

  ghost predicate Told(published: seq<Edge>, n: nat) {
    exists k :: 0 <= k < |published| && published[k].at == n
  }

  /** The event a call will publish for a transition it has made. */
  function EdgeOf(pc: Pc): Option<Edge> {
    match pc
    case Open(o) => if o.OpenEnter? || o.OpenGreet? || o.OpenReady? then None else Some(o.edge)
    case Start(s) => if s.StartAnnounce? || s.StartPublish? then Some(s.edge) else None
    case Stop(t) => if t.StopAnnounce? || t.StopPublish? then Some(t.edge) else None
    case Close(c) => if c.CloseEnter? || c.CloseRetire? then None else Some(c.edge)
    case Death(_, d) =>
      if d.DeathAnnounceStop? || d.DeathPublishReady? || d.DeathAnnounceClose? || d.DeathPublishClosed?
      then Some(d.edge) else None
    case _ => None
  }

  ghost predicate Carries(pc: Pc, n: nat) {
    EdgeOf(pc).Some? && EdgeOf(pc).value.at == n
  }

  /** What the call knows of its event: it is the latest transition while the call owns the port. */
  ghost predicate CarriesOk(p: Port, pc: Pc) {
    && (EdgeOf(pc).Some? ==>
          && EdgeOk(p.trail, EdgeOf(pc).value)
          && !Told(p.published, EdgeOf(pc).value.at)
          && !Aborted(p.trail, EdgeOf(pc).value.at))
    && (Owned(pc).Some? ==>
          && |p.trail| >= 2
          && (if EdgeOf(pc).Some? then EdgeOf(pc).value.at == |p.trail| - 2 else Told(p.published, |p.trail| - 2)))
  }

  ghost predicate LogOk(p: Port) {
    && LegalTrail(p.trail) && p.trail[|p.trail|-1] == p.state
    && (forall k :: 0 <= k < |p.published| ==>
          EdgeOk(p.trail, p.published[k]) && !Aborted(p.trail, p.published[k].at))
    && (forall j, k :: 0 <= j < k < |p.published| ==> p.published[j].at != p.published[k].at)
  }

  /** The event into a transient state comes before the event out of it. */
  ghost predicate InOrder(published: seq<Edge>) {
    forall k :: 0 <= k < |published| && Transient(published[k].from) && published[k].at > 0 ==>
      Told(published[..k], published[k].at - 1)
  }

  /** A transient state that was left was announced first, or belongs to an aborted open. */
  ghost predicate AnnouncedFirst(p: Port) {
    forall n {:trigger p.trail[n]} :: 0 < n < |p.trail| - 1 && Transient(p.trail[n]) ==>
      Told(p.published, n - 1) || Aborted(p.trail, n - 1)
  }

  ghost predicate NothingLost(cell: Cell) {
    forall n: nat {:trigger Aborted(cell.port.trail, n)} :: n + 1 < |cell.port.trail| ==>
      || Told(cell.port.published, n)
      || Aborted(cell.port.trail, n)
      || exists i :: 0 <= i < |cell.calls| && Carries(cell.calls[i], n)
  }

  ghost predicate OneCarrier(calls: seq<Pc>) {
    forall i, j :: 0 <= i < j < |calls| && EdgeOf(calls[i]).Some? && EdgeOf(calls[j]).Some? ==>
      EdgeOf(calls[i]).value.at != EdgeOf(calls[j]).value.at
  }

  ghost predicate LogInv(cell: Cell) {
    && LogOk(cell.port)
    && (forall i :: 0 <= i < |cell.calls| ==> CarriesOk(cell.port, cell.calls[i]))
    && OneCarrier(cell.calls)
    && AnnouncedFirst(cell.port)
    && InOrder(cell.port.published)
    && NothingLost(cell)
  }

  // ----- the four ways a step treats the two logs

  ghost predicate Silent(p: Port, pc: Pc, q: Port, next: Pc) {
    q.trail == p.trail && q.published == p.published && q.state == p.state &&
    EdgeOf(next) == EdgeOf(pc) && Owned(next) == Owned(pc)
  }

  ghost predicate Moves(p: Port, pc: Pc, q: Port, next: Pc) {
    && q.trail == p.trail + [q.state] && q.published == p.published
    && EdgeOf(pc).None? && EdgeOf(next) == Some(EdgeTo(p, q.state))
    && Legal(p.state, q.state) && !(p.state.Opening? && q.state.Closed?)
    && (Transient(p.state) ==> Owned(pc).Some?)
  }

  ghost predicate Tells(p: Port, pc: Pc, q: Port, next: Pc) {
    && q.trail == p.trail && q.state == p.state
    && EdgeOf(pc).Some? && q.published == p.published + [EdgeOf(pc).value]
    && EdgeOf(next).None? && Owned(next) == Owned(pc)
  }

  ghost predicate RollsBack(p: Port, pc: Pc, q: Port, next: Pc) {
    && q.trail == p.trail + [q.state] && q.published == p.published
    && p.state.Opening? && q.state.Closed?
    && Owned(pc) == Some(Opening) && EdgeOf(pc).Some? && EdgeOf(next).None? && Owned(next).None?
  }

  ghost predicate TreatsLogs(p: Port, pc: Pc, q: Port, next: Pc) {
    Silent(p, pc, q, next) || Moves(p, pc, q, next) || Tells(p, pc, q, next) || RollsBack(p, pc, q, next)
  }

  lemma OpenTreatsLogs(w: World, o: OpenPc)
    requires Drives(w.port, Open(o))
    ensures var (v, next) := AdvanceOpen(w, o); TreatsLogs(w.port, Open(o), v.port, next)
  {
  }

  lemma StartTreatsLogs(w: World, s: StartPc)
    requires Drives(w.port, Start(s))
    ensures var (v, next) := AdvanceStart(w, s); TreatsLogs(w.port, Start(s), v.port, next)
  {
  }

  lemma StopTreatsLogs(w: World, t: StopPc)
    requires Drives(w.port, Stop(t))
    ensures var (v, next) := AdvanceStop(w, t); TreatsLogs(w.port, Stop(t), v.port, next)
  {
  }

  lemma CloseTreatsLogs(w: World, c: ClosePc)
    requires Drives(w.port, Close(c))
    ensures var (v, next) := AdvanceClose(w, c); TreatsLogs(w.port, Close(c), v.port, next)
  {
  }

  lemma DeathTreatsLogs(w: World, session: nat, d: DeathPc)
    requires Drives(w.port, Death(session, d))
    ensures var (v, next) := AdvanceDeath(w, session, d); TreatsLogs(w.port, Death(session, d), v.port, next)
  {
  }

  lemma StepTreatsLogs(w: World, pc: Pc)
    requires !pc.Done? && Drives(w.port, pc)
    ensures var (v, next) := Advance(w, pc); TreatsLogs(w.port, pc, v.port, next)
  {
    match pc
    case Open(o) => OpenTreatsLogs(w, o);
    case Start(s) => StartTreatsLogs(w, s);
    case Stop(t) => StopTreatsLogs(w, t);
    case Close(c) => CloseTreatsLogs(w, c);
    case Tail =>
    case Death(session, d) => DeathTreatsLogs(w, session, d);
  }

  // ----- each way keeps the log invariant

  /** A new transition aborts earlier ones only by rolling an open() back. */
  lemma AbortedAfter(trail: seq<State>, next: State, n: nat)
    requires LegalTrail(trail) && Legal(trail[|trail|-1], next) && n + 1 < |trail|
    ensures Aborted(trail, n) ==> Aborted(trail + [next], n)
    ensures Aborted(trail + [next], n) && !Aborted(trail, n) ==>
              n + 2 == |trail| && trail[|trail|-1].Opening? && next.Closed?
  {
    LegalAt(trail, n);
  }

  lemma MoveKeepsLogOk(p: Port, q: Port)
    requires LogOk(p)
    requires q.trail == p.trail + [q.state] && q.published == p.published && Legal(p.state, q.state)
    requires p.state.Opening? && q.state.Closed? ==> |p.trail| >= 2 && !Told(p.published, |p.trail| - 2)
    ensures LogOk(q)
  {
    hide Legal, Aborted;
    assert q.trail[..|q.trail|-1] == p.trail;
    forall k | 0 <= k < |q.published|
      ensures EdgeOk(q.trail, q.published[k]) && !Aborted(q.trail, q.published[k].at)
    {
      assert EdgeOk(p.trail, p.published[k]) && Told(p.published, p.published[k].at);
      AbortedAfter(p.trail, q.state, q.published[k].at);
    }
  }

  lemma MoveKeepsAnnounced(p: Port, q: Port)
    requires LogOk(p) && AnnouncedFirst(p)
    requires q.trail == p.trail + [q.state] && q.published == p.published && Legal(p.state, q.state)
    requires Transient(p.state) ==>
               |p.trail| >= 2 && (Told(p.published, |p.trail| - 2) || Aborted(q.trail, |p.trail| - 2))
    ensures AnnouncedFirst(q)
  {
    hide Legal, Aborted, Told;
    forall n | 0 < n < |q.trail| - 1 && Transient(q.trail[n])
      ensures Told(q.published, n - 1) || Aborted(q.trail, n - 1)
    {
      assert q.trail[n] == p.trail[n];
      if n < |p.trail| - 1 { AbortedAfter(p.trail, q.state, n - 1); }
    }
  }

  lemma LogsAfterMove(p: Port, q: Port)
    requires LogOk(p) && AnnouncedFirst(p) && InOrder(p.published)
    requires q.trail == p.trail + [q.state] && q.published == p.published && Legal(p.state, q.state)
    requires p.state.Opening? && q.state.Closed? ==> |p.trail| >= 2 && !Told(p.published, |p.trail| - 2)
    requires Transient(p.state) ==>
               |p.trail| >= 2 && (Told(p.published, |p.trail| - 2) || Aborted(q.trail, |p.trail| - 2))
    ensures LogOk(q) && AnnouncedFirst(q) && InOrder(q.published)
  {
    hide LogOk, AnnouncedFirst, InOrder, Legal, Aborted;
    MoveKeepsLogOk(p, q);
    MoveKeepsAnnounced(p, q);
  }

  lemma MoveSparesCarrier(p: Port, q: Port, other: Pc)
    requires LogOk(p) && CarriesOk(p, other) && Owned(other).None?
    requires q.trail == p.trail + [q.state] && q.published == p.published && Legal(p.state, q.state)
    requires p.state.Opening? && q.state.Closed? ==> !Carries(other, |p.trail| - 2)
    ensures CarriesOk(q, other)
  {
    if EdgeOf(other).Some? { AbortedAfter(p.trail, q.state, EdgeOf(other).value.at); }
  }

  /** While one call moves the port, no other owns it. */
  ghost predicate OthersIdle(calls: seq<Pc>, call: nat) {
    forall i :: 0 <= i < |calls| && i != call ==> Owned(calls[i]).None?
  }

  lemma OnlyTheOwnerMoves(cell: Cell, call: nat)
    requires CoreInv(cell) && call < |cell.calls|
    requires Transient(cell.port.state) ==> Owned(cell.calls[call]).Some?
    ensures OthersIdle(cell.calls, call)
  {
    forall i | 0 <= i < |cell.calls| && i != call
      ensures Owned(cell.calls[i]).None?
    {
      if Owned(cell.calls[i]).Some? { OthersDoNotOwn(cell, i, call); }
    }
  }

  lemma MovesKeepsLogs(cell: Cell, call: nat, q: Port, next: Pc)
    requires LogInv(cell) && call < |cell.calls| && OthersIdle(cell.calls, call)
    requires Moves(cell.port, cell.calls[call], q, next)
    requires Owned(next).None? || Owned(next) == Some(q.state)
    ensures LogInv(Moved(cell, call, q, next))
  {
    hide InOrder, AnnouncedFirst, Legal;
    var p, pc, after := cell.port, cell.calls[call], Moved(cell, call, q, next);
    LogsAfterMove(p, q);
    assert !Told(q.published, |p.trail| - 1);
    forall i | 0 <= i < |cell.calls| && i != call
      ensures CarriesOk(q, after.calls[i]) && !Carries(after.calls[i], |p.trail| - 1)
    {
      MoveSparesCarrier(p, q, cell.calls[i]);
    }
    forall n: nat | n + 1 < |q.trail|
      ensures Told(q.published, n) || Aborted(q.trail, n) ||
              exists i :: 0 <= i < |after.calls| && Carries(after.calls[i], n)
    {
      if n + 1 < |p.trail| {
        AbortedAfter(p.trail, q.state, n);
        if !Told(p.published, n) && !Aborted(p.trail, n) {
          var i :| 0 <= i < |cell.calls| && Carries(cell.calls[i], n);
          assert Carries(after.calls[i], n);
        }
      } else {
        assert Carries(after.calls[call], n);
      }
    }
  }

  lemma RollsBackKeepsLogs(cell: Cell, call: nat, q: Port, next: Pc)
    requires LogInv(cell) && call < |cell.calls| && OthersIdle(cell.calls, call)
    requires RollsBack(cell.port, cell.calls[call], q, next)
    ensures LogInv(Moved(cell, call, q, next))
  {
    hide InOrder, AnnouncedFirst;
    var p, pc, after := cell.port, cell.calls[call], Moved(cell, call, q, next);
    LegalAt(p.trail, |p.trail| - 2);
    assert Aborted(q.trail, |p.trail| - 2) && Aborted(q.trail, |p.trail| - 1);
    LogsAfterMove(p, q);
    forall i | 0 <= i < |cell.calls| && i != call
      ensures CarriesOk(q, after.calls[i])
    {
      MoveSparesCarrier(p, q, cell.calls[i]);
    }
    forall n: nat | n + 1 < |q.trail|
      ensures Told(q.published, n) || Aborted(q.trail, n) ||
              exists i :: 0 <= i < |after.calls| && Carries(after.calls[i], n)
    {
      if n + 2 < |p.trail| {
        AbortedAfter(p.trail, q.state, n);
        if !Told(p.published, n) && !Aborted(p.trail, n) {
          var i :| 0 <= i < |cell.calls| && Carries(cell.calls[i], n);
          assert Carries(after.calls[i], n);
        }
      }
    }
  }

  lemma ToldAfter(published: seq<Edge>, e: Edge, n: nat)
    ensures Told(published + [e], n) <==> Told(published, n) || e.at == n
  {
    if Told(published, n) {
      var k :| 0 <= k < |published| && published[k].at == n;
      assert (published + [e])[k].at == n;
    }
    assert (published + [e])[|published|] == e;
  }

  lemma TellKeepsOrder(p: Port, e: Edge)
    requires LogOk(p) && AnnouncedFirst(p) && InOrder(p.published)
    requires EdgeOk(p.trail, e) && !Aborted(p.trail, e.at)
    ensures InOrder(p.published + [e])
  {
    hide Told;
    var published := p.published + [e];
    forall k | 0 <= k < |published| && Transient(published[k].from) && published[k].at > 0
      ensures Told(published[..k], published[k].at - 1)
    {
      assert published[..k] == p.published[..k];
      if k == |p.published| {
        assert p.published[..k] == p.published;
        LegalAt(p.trail, e.at - 1);
        if Aborted(p.trail, e.at - 1) { LegalAt(p.trail, e.at); }
      }
    }
  }

  lemma LogsAfterTell(p: Port, q: Port, e: Edge)
    requires LogOk(p) && AnnouncedFirst(p) && InOrder(p.published)
    requires q.trail == p.trail && q.state == p.state && q.published == p.published + [e]
    requires EdgeOk(p.trail, e) && !Told(p.published, e.at) && !Aborted(p.trail, e.at)
    ensures LogOk(q) && AnnouncedFirst(q) && InOrder(q.published)
  {
    hide InOrder, LegalTrail, Aborted;
    TellKeepsOrder(p, e);
    forall n | 0 < n < |q.trail| - 1 && Transient(q.trail[n])
      ensures Told(q.published, n - 1) || Aborted(q.trail, n - 1)
    {
      ToldAfter(p.published, e, n - 1);
    }
  }

  lemma TellsKeepsLogs(cell: Cell, call: nat, q: Port, next: Pc)
    requires LogInv(cell) && call < |cell.calls|
    requires Tells(cell.port, cell.calls[call], q, next)
    ensures LogInv(Moved(cell, call, q, next))
  {
    var p, pc, after := cell.port, cell.calls[call], Moved(cell, call, q, next);
    var e := EdgeOf(pc).value;
    LogsAfterTell(p, q, e);
    forall i | 0 <= i < |after.calls|
      ensures CarriesOk(q, after.calls[i])
    {
      ToldAfter(p.published, e, |p.trail| - 2);
      if i != call && EdgeOf(cell.calls[i]).Some? {
        ToldAfter(p.published, e, EdgeOf(cell.calls[i]).value.at);
      }
    }
    forall n: nat | n + 1 < |q.trail|
      ensures Told(q.published, n) || Aborted(q.trail, n) ||
              exists i :: 0 <= i < |after.calls| && Carries(after.calls[i], n)
    {
      ToldAfter(p.published, e, n);
      if !Told(p.published, n) && !Aborted(p.trail, n) && n != e.at {
        var i :| 0 <= i < |cell.calls| && Carries(cell.calls[i], n);
        assert Carries(after.calls[i], n);
      }
    }
  }

  lemma SilentKeepsLogs(cell: Cell, call: nat, q: Port, next: Pc)
    requires LogInv(cell) && call < |cell.calls|
    requires Silent(cell.port, cell.calls[call], q, next)
    ensures LogInv(Moved(cell, call, q, next))
  {
    var after := Moved(cell, call, q, next);
    forall n: nat | n + 1 < |q.trail|
      ensures Told(q.published, n) || Aborted(q.trail, n) ||
              exists i :: 0 <= i < |after.calls| && Carries(after.calls[i], n)
    {
      if !Told(q.published, n) && !Aborted(q.trail, n) {
        var i :| 0 <= i < |cell.calls| && Carries(cell.calls[i], n);
        assert Carries(after.calls[i], n);
      }
    }
  }

  lemma RunKeepsLogs(cell: Cell, w: World, call: nat)
    requires CoreInv(cell) && LogInv(cell)
    requires w.port == cell.port && call < |cell.calls| && !cell.calls[call].Done?
    ensures var (v, next) := Advance(w, cell.calls[call]); LogInv(Moved(cell, call, v.port, next))
  {
    var pc := cell.calls[call];
    var (v, next) := Advance(w, pc);
    StepTreatsLogs(w, pc);
    if Silent(w.port, pc, v.port, next) {
      SilentKeepsLogs(cell, call, v.port, next);
    } else if Moves(w.port, pc, v.port, next) {
      FlagFollows(cell);
      StepKeepsOwn(w, pc);
      OnlyTheOwnerMoves(cell, call);
      MovesKeepsLogs(cell, call, v.port, next);
    } else if Tells(w.port, pc, v.port, next) {
      TellsKeepsLogs(cell, call, v.port, next);
    } else {
      OnlyTheOwnerMoves(cell, call);
      RollsBackKeepsLogs(cell, call, v.port, next);
    }
  }

  lemma NewCellLogs(cell: Cell)
    requires cell == Cell(NewPort(), [])
    ensures LogInv(cell)
  {
    var p := cell.port;
    assert |p.trail| == 1 && |p.published| == 0;
    assert LegalTrail(p.trail);
    assert LogOk(p);
  }

  lemma AddKeepsLogs(cell: Cell, added: Cell, pc: Pc)
    requires LogInv(cell) && added.calls == cell.calls + [pc] && EdgeOf(pc).None? && Owned(pc).None?
    requires added.port.(armed := cell.port.armed, delivered := cell.port.delivered) == cell.port
    ensures LogInv(added)
  {
    forall n: nat | n + 1 < |cell.port.trail|
      ensures Told(cell.port.published, n) || Aborted(cell.port.trail, n) ||
              exists i :: 0 <= i < |added.calls| && Carries(added.calls[i], n)
    {
      if !Told(cell.port.published, n) && !Aborted(cell.port.trail, n) {
        var i :| 0 <= i < |cell.calls| && Carries(cell.calls[i], n);
        assert Carries(added.calls[i], n);
      }
    }
  }
}
