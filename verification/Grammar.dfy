/**
 The lifecycle as a grammar over whole sessions:

   ( Closed Opening ( <aborted> | Ready (Starting Started Stopping Ready)^n Closing ) )* Closed

 A legal trail is exactly a sequence of finished sessions followed by a started one.
*/
module Grammar {
  import opened Lifecycle
  import opened Publication

  /** A finished session: an open() that was rolled back, or one that was used n times. */
  datatype Session = RolledBack | Used(cycles: nat)

  function Cycles(n: nat): seq<State> {
    if n == 0 then [] else Cycles(n - 1) + [Starting, Started, Stopping, Ready]
  }

  function Spell(s: Session): seq<State> {
    match s
    case RolledBack => [Closed, Opening]
    case Used(n) => [Closed, Opening, Ready] + Cycles(n) + [Closing]
  }

  function SpellAll(ss: seq<Session>): seq<State> {
    if ss == [] then [] else SpellAll(ss[..|ss|-1]) + Spell(ss[|ss|-1])
  }

  /** What a session may have visited since it was last ready. */
  function SinceReady(s: State): seq<State> {
    match s
    case Starting => [Starting]
    case Started => [Starting, Started]
    case Stopping => [Starting, Started, Stopping]
    case Closing => [Closing]
    case _ => []
  }

  /** The session now under way, after n full start/stop cycles. */
  function Begun(s: State, n: nat): seq<State> {
    if s.Closed? then [Closed]
    else if s.Opening? then [Closed, Opening]
    else [Closed, Opening, Ready] + Cycles(n) + SinceReady(s)
  }

  lemma Regroup(a: seq<State>, b: seq<State>, c: seq<State>)
    ensures (a + b) + c == a + (b + c)
  {
  }

  lemma CloseSession(ss: seq<Session>, s: Session) returns (longer: seq<Session>)
    ensures SpellAll(longer) == SpellAll(ss) + Spell(s)
  {
    longer := ss + [s];
    assert longer[..|longer|-1] == ss;
  }

  /** One more transition is one more letter. */
  lemma SpellOneMore(ss: seq<Session>, n: nat, before: State, now: State) returns (tt: seq<Session>, m: nat)
    requires Legal(before, now)
    ensures SpellAll(tt) + Begun(now, m) == SpellAll(ss) + (Begun(before, n) + [now])
  {
    tt, m := ss, n;
    match before
    case Closed =>
    case Opening =>
      if now.Closed? {
        tt := CloseSession(ss, RolledBack);
      } else {
        m := 0;
      }
    case Ready =>
    case Starting =>
    case Started =>
    case Stopping =>
      m := n + 1;
      assert Begun(now, m) == Begun(before, n) + [now];
    case Closing =>
      tt := CloseSession(ss, Used(n));
  }

  /** Every legal trail is spelled by the grammar. */
  lemma {:induction false} TrailIsSpelled(trail: seq<State>) returns (ss: seq<Session>, n: nat)
    requires LegalTrail(trail)
    ensures trail == SpellAll(ss) + Begun(trail[|trail|-1], n)
  {
    if |trail| == 1 {
      ss, n := [], 0;
    } else {
      var rest, before, now := trail[..|trail|-1], trail[|trail|-2], trail[|trail|-1];
      var done, k := TrailIsSpelled(rest);
      assert trail == rest + [now];
      Regroup(SpellAll(done), Begun(before, k), [now]);
      ss, n := SpellOneMore(done, k, before, now);
    }
  }

  lemma {:induction false} LegalGrows(trail: seq<State>, more: seq<State>)
    requires LegalTrail(trail)
    requires more != [] ==> Legal(trail[|trail|-1], more[0])
    requires forall i, j :: 0 <= i && j == i + 1 && j < |more| ==> Legal(more[i], more[j])
    ensures LegalTrail(trail + more)
  {
    if more == [] {
      assert trail + more == trail;
    } else {
      LegalGrows(trail, more[..|more|-1]);
      assert (trail + more)[..|trail| + |more| - 1] == trail + more[..|more|-1];
    }
  }

  lemma {:induction false} CyclesAreLegal(trail: seq<State>, n: nat)
    requires LegalTrail(trail) && trail[|trail|-1].Ready?
    ensures LegalTrail(trail + Cycles(n)) && (trail + Cycles(n))[|trail| + |Cycles(n)| - 1].Ready?
  {
    if n == 0 {
      assert trail + Cycles(0) == trail;
    } else {
      CyclesAreLegal(trail, n - 1);
      LegalGrows(trail + Cycles(n - 1), [Starting, Started, Stopping, Ready]);
      assert trail + Cycles(n) == trail + Cycles(n - 1) + [Starting, Started, Stopping, Ready];
    }
  }

  lemma UnderWayIsLegal(done: seq<State>, s: State, n: nat)
    requires LegalTrail(done + [Closed])
    ensures LegalTrail(done + Begun(s, n))
  {
    if s.Opening? {
      LegalGrows(done + [Closed], [Opening]);
      assert done + Begun(s, n) == done + [Closed] + [Opening];
    } else if !s.Closed? {
      LegalGrows(done + [Closed], [Opening, Ready]);
      var ready := done + [Closed, Opening, Ready];
      assert ready == done + [Closed] + [Opening, Ready];
      CyclesAreLegal(ready, n);
      LegalGrows(ready + Cycles(n), SinceReady(s));
      Regroup(done, [Closed, Opening, Ready], Cycles(n));
      Regroup(done, [Closed, Opening, Ready] + Cycles(n), SinceReady(s));
    }
  }

  lemma {:induction false} FinishedIsLegal(ss: seq<Session>)
    ensures LegalTrail(SpellAll(ss) + [Closed])
  {
    if ss == [] {
      assert SpellAll(ss) + [Closed] == [Closed];
    } else {
      var done, last := SpellAll(ss[..|ss|-1]), ss[|ss|-1];
      FinishedIsLegal(ss[..|ss|-1]);
      var whole := if last.RolledBack? then Begun(Opening, 0) else Begun(Closing, last.cycles);
      UnderWayIsLegal(done, if last.RolledBack? then Opening else Closing, if last.RolledBack? then 0 else last.cycles);
      LegalGrows(done + whole, [Closed]);
      assert SpellAll(ss) + [Closed] == done + whole + [Closed];
    }
  }

  /** Whatever the grammar spells is a legal trail. */
  lemma SpelledIsLegal(ss: seq<Session>, s: State, n: nat)
    ensures LegalTrail(SpellAll(ss) + Begun(s, n))
  {
    FinishedIsLegal(ss);
    UnderWayIsLegal(SpellAll(ss), s, n);
  }
}
