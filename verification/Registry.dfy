/** The event-listener registry: identities in order of registration. */
module Registry {

  ghost predicate Distinct(listeners: seq<nat>) {
    forall i, j :: 0 <= i < j < |listeners| ==> listeners[i] != listeners[j]
  }

  /** registerEventListener() of a listener that may already be known. */
  function Registered(listeners: seq<nat>, l: nat): seq<nat> {
    if l in listeners then listeners else listeners + [l]
  }

  /** unregisterEventListener(): the first entry for it goes. */
  function Without(listeners: seq<nat>, l: nat): seq<nat> {
    if listeners == [] then []
    else if listeners[0] == l then listeners[1..]
    else [listeners[0]] + Without(listeners[1..], l)
  }

  lemma {:induction false} WithoutKeepsOthers(listeners: seq<nat>, l: nat, m: nat)
    requires Distinct(listeners)
    ensures m in Without(listeners, l) <==> m in listeners && m != l
  {
    if listeners != [] {
      WithoutKeepsOthers(listeners[1..], l, m);
      assert listeners == [listeners[0]] + listeners[1..];
    }
  }

  lemma {:induction false} WithoutStaysDistinct(listeners: seq<nat>, l: nat)
    requires Distinct(listeners)
    ensures Distinct(Without(listeners, l))
  {
    if listeners != [] && listeners[0] != l {
      WithoutStaysDistinct(listeners[1..], l);
      WithoutKeepsOthers(listeners[1..], l, listeners[0]);
    }
  }

  /** Erasing the first entry found. */
  lemma {:induction false} WithoutAt(listeners: seq<nat>, l: nat, i: nat)
    requires i < |listeners| && listeners[i] == l && forall j :: 0 <= j < i ==> listeners[j] != l
    ensures Without(listeners, l) == listeners[..i] + listeners[i + 1..]
  {
    if i > 0 {
      WithoutAt(listeners[1..], l, i - 1);
      assert listeners[1..][..i - 1] == listeners[1..i];
      assert listeners[1..][i..] == listeners[i + 1..];
    }
  }

  /** Unregistering undoes registering. */
  lemma {:induction false} UnregisterUndoesRegister(listeners: seq<nat>, l: nat)
    requires l !in listeners
    ensures Without(Registered(listeners, l), l) == listeners
  {
    if listeners != [] {
      UnregisterUndoesRegister(listeners[1..], l);
      assert Registered(listeners, l)[1..] == Registered(listeners[1..], l);
    }
  }

  /** Registering puts a new listener last and keeps the rest; a known one changes nothing. */
  lemma RegisteringAppends(listeners: seq<nat>, l: nat)
    requires Distinct(listeners)
    ensures var after := Registered(listeners, l);
            && l in after && Distinct(after) && listeners <= after
            && (l in listeners ==> after == listeners)
            && (l !in listeners ==> |after| == |listeners| + 1 && after[|listeners|] == l)
  {
  }
}
