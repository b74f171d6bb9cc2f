/**
 Undisturbed calls field by field, and a whole session from open() to close(): what is taken is
 given back, and observers see each transition once and in order.
*/
module Rounds {
  import opened Common
  import opened Lifecycle
  import opened Drain

  function Last(p: Port): nat {
    if |p.trail| > 0 then |p.trail| - 1 else 0
  }

  /** Two announced transitions, from `a` over `b` to `c`. */
  function Passed(p: Port, a: State, b: State, c: State): Port {
    p.(state := c, trail := p.trail + [b, c],
       published := p.published + [Edge(Last(p), a, b), Edge(Last(p) + 1, b, c)])
  }

  lemma ShownTwice(p: Port, b: State, c: State)
    requires p.trail != []
    ensures Shown(Shown(p, b), c) == Passed(p, p.state, b, c)
  {
    assert p.trail + [b] + [c] == p.trail + [b, c];
    var e, f := Edge(Last(p), p.state, b), Edge(Last(p) + 1, b, c);
    assert p.published + [e] + [f] == p.published + [e, f];
  }

  /**
   open() of a closed port with a client that is local or alive: a new session and a new
   controller for that client, observed exactly if the client is remote.
  */
  lemma OpenInWords(w: World, observed: bool, linkOk: bool, client: nat)
    requires w.port.state == Closed && w.port.trail != [] && (observed ==> linkOk)
    ensures var p, e := w.port, w.port.epoch + 1;
            Solo(w, Open(OpenEnter(observed, linkOk, client))) ==
              (w.(port := Passed(p, Closed, Opening, Ready).(
                   epoch := e, pending := false, controller := Some(p.made), made := p.made + 1,
                   listener := Some(client), recipient := if observed then Some(e) else None,
                   armed := if observed then p.armed + {e} else p.armed)), Ok)
  {
    hide Solo;
    if !observed { SoloOpenUnobserved(w, linkOk, client); }
    SoloOpen(w, observed, client);
    ShownTwice(w.port, Opening, Ready);
  }

  /** open() for a remote client already gone: two transitions nobody hears of, and no session. */
  lemma AbortedOpenInWords(w: World, client: nat)
    requires w.port.state == Closed
    ensures var p := w.port;
            Solo(w, Open(OpenEnter(true, false, client))) ==
              (w.(port := p.(epoch := p.epoch + 2, pending := false, controller := None, made := p.made + 1,
                             listener := None, recipient := None, trail := p.trail + [Opening, Closed])), IllegalState)
  {
    hide Solo;
    SoloOpenAborted(w, client);
    assert w.port.trail + [Opening] + [Closed] == w.port.trail + [Opening, Closed];
  }

  lemma StartInWords(w: World)
    requires w.port.state == Ready && w.port.trail != [] && !w.port.pending && w.started < w.limit
    ensures Solo(w, Start(StartGate)) ==
              (World(Passed(w.port, Ready, Starting, Started).(begun := w.port.begun + 1), w.started + 1, w.limit), Ok)
  {
    SoloStart(w);
    SoloTail(w.(port := StartedUp(w.port), started := w.started + 1));
    hide Solo;
    ShownTwice(w.port, Starting, Started);
  }

  lemma StopInWords(w: World)
    requires w.port.state == Started && w.port.trail != [] && !w.port.pending && w.started > 0
    ensures Solo(w, Stop(StopEnter)) ==
              (World(Passed(w.port, Started, Stopping, Ready).(
                       ended := w.port.ended + 1, released := w.port.released + 1), w.started - 1, w.limit), Ok)
  {
    SoloStop(w);
    SoloTail(w.(port := StoppedDown(w.port), started := w.started - 1));
    hide Solo;
    ShownTwice(w.port, Stopping, Ready);
  }

  /** What the end of a session leaves of a port that was ready. */
  function ClosedAgain(p: Port): Port {
    Passed(p, Ready, Closing, Closed).(
      epoch := p.epoch + 1, pending := false, controller := None, listener := None, recipient := None)
  }

  lemma CloseInWords(w: World, presented: nat)
    requires w.port.state == Ready && w.port.trail != [] && w.port.controller == Some(presented)
    ensures var p := w.port;
            Solo(w, Close(CloseEnter(presented))) ==
              (w.(port := ClosedAgain(p).(
                   armed := if p.listener.Some? && p.recipient.Some? then p.armed - {p.recipient.value}
                            else p.armed)), Ok)
  {
    hide Solo;
    SoloClose(w);
    ClosedDownIs(w.port);
  }

  lemma ClosedDownIs(p: Port)
    requires p.state == Ready && p.trail != []
    ensures ClosedDown(p) == ClosedAgain(p)
  {
    var e, f := Edge(Last(p), Ready, Closing), Edge(Last(p) + 1, Closing, Closed);
    assert p.trail + [Closing] + [Closed] == p.trail + [Closing, Closed];
    assert p.published + [e] + [f] == p.published + [e, f];
  }

  /** The cleanup of a ready session closes it. */
  lemma CleanupOfReadyInWords(w: World)
    requires w.port.state == Ready && w.port.trail != []
    ensures Solo(w, Death(w.port.epoch, DeathEnter)) == (w.(port := ClosedAgain(w.port)), Ok)
  {
    var d := Death(w.port.epoch, DeathEnter);
    assert Advance(w, d) == (w, Death(w.port.epoch, DeathCloseEnter));
    assert Solo(w, d) == Solo(w, Death(w.port.epoch, DeathCloseEnter));
    hide Solo;
    SoloCloseStage(w);
    ClosedDownIs(w.port);
  }

  /** That of a started session stops it first and gives its slot back. */
  lemma CleanupOfStartedInWords(w: World)
    requires w.port.state == Started && w.port.trail != [] && w.started > 0
    ensures Solo(w, Death(w.port.epoch, DeathEnter)) ==
              (World(ClosedAgain(Passed(w.port, Started, Stopping, Ready)).(
                       ended := w.port.ended + 1, released := w.port.released + 1), w.started - 1, w.limit), Ok)
  {
    hide Solo;
    SoloStopStage(w);
    ShownTwice(w.port, Stopping, Ready);
    var u := World(StoppedDown(w.port), w.started - 1, w.limit);
    SoloCloseStage(u);
    ClosedDownIs(u.port);
  }

  /** A cleanup in the middle of a transition only leaves the flag; one for another session leaves nothing. */
  lemma CleanupDefersInWords(w: World, session: nat)
    ensures session != w.port.epoch || w.port.state == Closed ==> Solo(w, Death(session, DeathEnter)) == (w, Ok)
    ensures session == w.port.epoch && Transient(w.port.state) ==>
              Solo(w, Death(session, DeathEnter)) == (w.(port := w.port.(pending := true)), Ok)
  {
  }

  /**
   A whole session of one client, undisturbed: opened, started, stopped and closed by its own
   controller. The port, the slots and the links are as before; only the epoch, the identities
   handed out and the history have moved on.
  */
  lemma SessionRoundTrip(w: World, observed: bool, client: nat)
    requires w.port.state == Closed && w.port.trail != [] && !w.port.pending && w.started < w.limit
    requires w.port.controller.None? && w.port.listener.None? && w.port.recipient.None?
    requires w.port.epoch + 1 !in w.port.armed
    ensures var p, n := w.port, Last(w.port);
            var w1 := Solo(w, Open(OpenEnter(observed, true, client))).0;
            var w2 := Solo(w1, Start(StartGate)).0;
            var w3 := Solo(w2, Stop(StopEnter)).0;
            var (w4, reply) := Solo(w3, Close(CloseEnter(p.made)));
            && reply == Ok && w1.port.controller == Some(p.made)
            && w2.started == w.started + 1 && w4.started == w.started && w4.limit == w.limit
            && w4.port == p.(
                 epoch := p.epoch + 2, made := p.made + 1,
                 begun := p.begun + 1, ended := p.ended + 1, released := p.released + 1,
                 trail := p.trail + [Opening, Ready, Starting, Started, Stopping, Ready, Closing, Closed],
                 published := p.published + [
                   Edge(n, Closed, Opening), Edge(n + 1, Opening, Ready), Edge(n + 2, Ready, Starting),
                   Edge(n + 3, Starting, Started), Edge(n + 4, Started, Stopping), Edge(n + 5, Stopping, Ready),
                   Edge(n + 6, Ready, Closing), Edge(n + 7, Closing, Closed)])
  {
    hide Solo;
    var p, n := w.port, Last(w.port);
    OpenInWords(w, observed, true, client);
    var w1 := Solo(w, Open(OpenEnter(observed, true, client))).0;
    StartInWords(w1);
    var w2 := Solo(w1, Start(StartGate)).0;
    StopInWords(w2);
    var w3 := Solo(w2, Stop(StopEnter)).0;
    CloseInWords(w3, p.made);
    var w4 := Solo(w3, Close(CloseEnter(p.made))).0;
    assert w4.port.trail == p.trail + [Opening, Ready, Starting, Started, Stopping, Ready, Closing, Closed];
    assert w4.port.published == p.published + [
      Edge(n, Closed, Opening), Edge(n + 1, Opening, Ready), Edge(n + 2, Ready, Starting),
      Edge(n + 3, Starting, Started), Edge(n + 4, Started, Stopping), Edge(n + 5, Stopping, Ready),
      Edge(n + 6, Ready, Closing), Edge(n + 7, Closing, Closed)];
    assert w4.port.armed == p.armed;
  }
}
