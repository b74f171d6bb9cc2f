/**
 The port lifecycle as one function, one call of it per atomic step.

 An atomic step is one m_mutex region, one g_startedMutex region, one binder
 interaction or one callback dispatch.  `Advance` takes the state a call can see (its
 port and the global slot counter) and the call's program counter, and returns both
 after the step.  Nothing is assumed about which steps of other calls happen in between.
*/
module Lifecycle {
  import opened Common

  datatype State = Closed | Opening | Ready | Starting | Started | Stopping | Closing

  /** The transition number `at` of a port: its trail went from `from` to `to`. */
  datatype Edge = Edge(at: nat, from: State, to: State)

  /**
   One port.  The first line is what the class stores; controllers and listeners are
   identities.  The rest is history: every state visited, every state event published
   (in order of publication), the sessions whose death recipient is linked, the sessions
   whose death was delivered, and how often the port entered Starting, left Started and
   gave a slot back.
  */
  datatype Port = Port(
    state: State, epoch: nat, pending: bool,
    controller: Option<nat>, listener: Option<nat>, recipient: Option<nat>, made: nat,
    trail: seq<State>, published: seq<Edge>,
    armed: set<nat>, delivered: set<nat>,
    begun: nat, ended: nat, released: nat)

  /** What a call sees: its port, and the counter and limit guarded by g_startedMutex. */
  datatype World = World(port: Port, started: nat, limit: nat)

  /** Answer of a call; `NotOwner` is close() answering false with status ok, `NoArgument` a null one. */
  datatype Reply = Ok | IllegalState | NotOwner | NoArgument

  /** open(): `observed` says whether the listener binder is remote, `linkOk` how linkToDeath() answers. */
  datatype OpenPc =
    | OpenEnter(observed: bool, linkOk: bool, client: nat)
    | OpenLink(observed: bool, linkOk: bool, owned: nat, edge: Edge)
    | OpenAbort(edge: Edge)
    | OpenAnnounce(edge: Edge)
    | OpenGreet
    | OpenReady
    | OpenPublish(edge: Edge)

  /** startFromController() */
  datatype StartPc =
    | StartGate
    | StartEnter
    | StartAnnounce(edge: Edge)
    | StartRead
    | StartNotify(heard: Option<nat>)
    | StartFinish
    | StartPublish(edge: Edge)
    | StartStamp
    | StartTelemetry

  /** stopFromController() */
  datatype StopPc =
    | StopEnter
    | StopAnnounce(edge: Edge)
    | StopReady
    | StopPublish(edge: Edge)
    | StopRelease

  /** close() */
  datatype ClosePc =
    | CloseEnter(presented: nat)
    | CloseAnnounce(edge: Edge)
    | CloseRetire
    | CloseUnlink(unlinked: Option<nat>, edge: Edge)
    | ClosePublish(edge: Edge)

  /** cleanupAfterControllerDeath() */
  datatype DeathPc =
    | DeathEnter
    | DeathAnnounceStop(edge: Edge)
    | DeathReady
    | DeathPublishReady(edge: Edge)
    | DeathRelease
    | DeathCloseEnter
    | DeathAnnounceClose(edge: Edge)
    | DeathRetire
    | DeathPublishClosed(edge: Edge)

  /**
   Where a call is, with the locals that are live there.  `Tail` is
   runPendingDeathCleanupIfNeeded(), which ends open, start and stop.
  */
  datatype Pc =
    | Open(o: OpenPc)
    | Start(s: StartPc)
    | Stop(t: StopPc)
    | Close(c: ClosePc)
    | Tail
    | Death(session: nat, d: DeathPc)
    | Done(reply: Reply)

  function NewPort(): Port {
    Port(Closed, 0, false, None, None, None, 0, [Closed], [], {}, {}, 0, 0, 0)
  }

  predicate Transient(s: State) {
    s.Opening? || s.Starting? || s.Stopping? || s.Closing?
  }

  // setStateLocked() and the edge its caller will publish.

  function SetState(p: Port, next: State): Port {
    p.(state := next, trail := p.trail + [next])
  }

  function EdgeTo(p: Port, next: State): Edge {
    Edge(if |p.trail| > 0 then |p.trail| - 1 else 0, p.state, next)
  }

  function Publish(p: Port, e: Edge): Port {
    p.(published := p.published + [e])
  }

  /** Ends the session: what close(), an aborted open() and a death cleanup all do. */
  function Retire(p: Port): Port {
    SetState(p.(controller := None, listener := None, recipient := None,
                epoch := p.epoch + 1, pending := false), Closed)
  }

  /** A slot is given back unless the counter is already zero. */
  function GiveBack(started: nat): nat {
    if started > 0 then started - 1 else started
  }

  function AdvanceOpen(w: World, pc: OpenPc): (World, Pc) {
    var p := w.port;
    match pc
    case OpenEnter(observed, linkOk, client) =>
      if p.state != Closed then (w, Done(IllegalState))
      else
        (w.(port := SetState(p, Opening).(
           listener := Some(client), controller := Some(p.made), made := p.made + 1,
           epoch := p.epoch + 1, pending := false,
           recipient := if observed then Some(p.epoch + 1) else None)),
         Open(OpenLink(observed, linkOk, p.epoch + 1, EdgeTo(p, Opening))))
    case OpenLink(observed, linkOk, owned, edge) =>
      if !observed then (w, Open(OpenAnnounce(edge)))
      else if linkOk then (w.(port := p.(armed := p.armed + {owned})), Open(OpenAnnounce(edge)))
      else (w, Open(OpenAbort(edge)))
    case OpenAbort(edge) => (w.(port := Retire(p)), Done(IllegalState))
    case OpenAnnounce(edge) => (w.(port := Publish(p, edge)), Open(OpenGreet))
    case OpenGreet => (w, Open(OpenReady))
    case OpenReady => (w.(port := SetState(p, Ready)), Open(OpenPublish(EdgeTo(p, Ready))))
    case OpenPublish(edge) => (w.(port := Publish(p, edge)), Tail)
  }

  function AdvanceStart(w: World, pc: StartPc): (World, Pc) {
    var p := w.port;
    match pc
    case StartGate =>
      if w.started >= w.limit then (w, Done(IllegalState))
      else (w.(started := w.started + 1), Start(StartEnter))
    case StartEnter =>
      if p.state != Ready then (w.(started := GiveBack(w.started)), Done(IllegalState))
      else
        (w.(port := SetState(p, Starting).(begun := p.begun + 1)),
         Start(StartAnnounce(EdgeTo(p, Starting))))
    case StartAnnounce(edge) => (w.(port := Publish(p, edge)), Start(StartRead))
    case StartRead => (w, Start(StartNotify(p.listener)))
    case StartNotify(_) => (w, Start(StartFinish))
    case StartFinish => (w.(port := SetState(p, Started)), Start(StartPublish(EdgeTo(p, Started))))
    case StartPublish(edge) => (w.(port := Publish(p, edge)), Start(StartStamp))
    case StartStamp => (w, Start(StartTelemetry))
    case StartTelemetry => (w, Tail)
  }

  function AdvanceStop(w: World, pc: StopPc): (World, Pc) {
    var p := w.port;
    match pc
    case StopEnter =>
      if p.state != Started then (w, Done(IllegalState))
      else
        (w.(port := SetState(p, Stopping).(ended := p.ended + 1)),
         Stop(StopAnnounce(EdgeTo(p, Stopping))))
    case StopAnnounce(edge) => (w.(port := Publish(p, edge)), Stop(StopReady))
    case StopReady => (w.(port := SetState(p, Ready)), Stop(StopPublish(EdgeTo(p, Ready))))
    case StopPublish(edge) => (w.(port := Publish(p, edge)), Stop(StopRelease))
    case StopRelease =>
      (w.(started := GiveBack(w.started), port := p.(released := p.released + 1)), Tail)
  }

  function AdvanceClose(w: World, pc: ClosePc): (World, Pc) {
    var p := w.port;
    match pc
    case CloseEnter(presented) =>
      if p.state != Ready then (w, Done(IllegalState))
      else if p.controller != Some(presented) then (w, Done(NotOwner))
      else (w.(port := SetState(p, Closing)), Close(CloseAnnounce(EdgeTo(p, Closing))))
    case CloseAnnounce(edge) => (w.(port := Publish(p, edge)), Close(CloseRetire))
    case CloseRetire =>
      (w.(port := Retire(p)),
       Close(CloseUnlink(if p.listener.Some? then p.recipient else None, EdgeTo(p, Closed))))
    case CloseUnlink(unlinked, edge) =>
      (if unlinked.Some? then w.(port := p.(armed := p.armed - {unlinked.value})) else w,
       Close(ClosePublish(edge)))
    case ClosePublish(edge) => (w.(port := Publish(p, edge)), Done(Ok))
  }

  function AdvanceTail(w: World): (World, Pc) {
    var p := w.port;
    if !p.pending then (w, Done(Ok))
    else (w.(port := p.(pending := false)), Death(p.epoch, DeathEnter))
  }

  function AdvanceDeath(w: World, session: nat, pc: DeathPc): (World, Pc) {
    var p := w.port;
    match pc
    case DeathEnter =>
      if p.epoch != session || p.state.Closed? then (w, Done(Ok))
      else if Transient(p.state) then (w.(port := p.(pending := true)), Done(Ok))
      else if p.state.Started? then
        (w.(port := SetState(p, Stopping).(ended := p.ended + 1)),
         Death(session, DeathAnnounceStop(EdgeTo(p, Stopping))))
      else (w, Death(session, DeathCloseEnter))
    case DeathAnnounceStop(edge) => (w.(port := Publish(p, edge)), Death(session, DeathReady))
    case DeathReady =>
      (w.(port := SetState(p, Ready)), Death(session, DeathPublishReady(EdgeTo(p, Ready))))
    case DeathPublishReady(edge) => (w.(port := Publish(p, edge)), Death(session, DeathRelease))
    case DeathRelease =>
      (w.(started := GiveBack(w.started), port := p.(released := p.released + 1)),
       Death(session, DeathCloseEnter))
    case DeathCloseEnter =>
      if p.epoch != session || p.state.Closed? then (w, Done(Ok))
      else if !p.state.Ready? then (w.(port := p.(pending := true)), Done(Ok))
      else
        (w.(port := SetState(p, Closing)), Death(session, DeathAnnounceClose(EdgeTo(p, Closing))))
    case DeathAnnounceClose(edge) => (w.(port := Publish(p, edge)), Death(session, DeathRetire))
    case DeathRetire => (w.(port := Retire(p)), Death(session, DeathPublishClosed(EdgeTo(p, Closed))))
    case DeathPublishClosed(edge) => (w.(port := Publish(p, edge)), Done(Ok))
  }

  /** One atomic step of a call. */
  function Advance(w: World, pc: Pc): (World, Pc)
    requires !pc.Done?
  {
    match pc
    case Open(o) => AdvanceOpen(w, o)
    case Start(s) => AdvanceStart(w, s)
    case Stop(t) => AdvanceStop(w, t)
    case Close(c) => AdvanceClose(w, c)
    case Tail => AdvanceTail(w)
    case Death(session, d) => AdvanceDeath(w, session, d)
  }
}
