/**
 CompositeInputPort as the object it is: fields updated in place by its operations.

 An operation here runs from start to end with nothing in between; its effect is proved to
 be that of the solo run of the protocol's steps, and each locked region is one such step.
*/
module CompositeInput {
  import opened Common
  import opened Lifecycle
  import opened Service
  import opened Drain
  import opened Tokens
  import opened Properties
  import opened Observed
  import opened Registry

  /** g_startedPorts and g_maxStartedPorts. */
  class StartedSlots {
    var started: nat
    var limit: nat

    constructor ()
      ensures started == 0 && limit == 1
    {
      started, limit := 0, 1;
    }

    method SetMaxConcurrentStartedPorts(maxStartedPorts: int)
      modifies `limit
      ensures limit == Sanitized(maxStartedPorts)
    {
      limit := if maxStartedPorts >= 1 then maxStartedPorts else 1;
    }

    method GiveBackOne()
      modifies `started
      ensures started == GiveBack(old(started))
    {
      if started > 0 {
        started := started - 1;
      }
    }
  }

  /** One onPropertyChanged() callback. */
  datatype Notice = Notice(listener: nat, property: PortProperty, value: PropertyValue)

  /** The callbacks for one property, in the order of registration. */
  function Notices(listeners: seq<nat>, kv: KVPair): seq<Notice> {
    seq(|listeners|, i requires 0 <= i < |listeners| => Notice(listeners[i], kv.property, kv.value))
  }

  function AllNotices(listeners: seq<nat>, kvs: seq<KVPair>): seq<Notice> {
    if kvs == [] then [] else AllNotices(listeners, kvs[..|kvs|-1]) + Notices(listeners, kvs[|kvs|-1])
  }

  /** Every listener hears of every pair, pair by pair and in the order of registration. */
  ghost predicate EachHears(listeners: seq<nat>, kvs: seq<KVPair>, notices: seq<Notice>) {
    && |notices| == |kvs| * |listeners|
    && forall k: nat, i: nat :: k < |kvs| && i < |listeners| ==> Hears(listeners, kvs, notices, k, i)
  }

  ghost predicate Hears(listeners: seq<nat>, kvs: seq<KVPair>, notices: seq<Notice>, k: nat, i: nat)
    requires k < |kvs| && i < |listeners|
  {
    && k * |listeners| + i < |notices|
    && notices[k * |listeners| + i] == Notice(listeners[i], kvs[k].property, kvs[k].value)
  }

  lemma {:induction false} NoticesPerPair(listeners: seq<nat>, kvs: seq<KVPair>)
    ensures |AllNotices(listeners, kvs)| == |kvs| * |listeners|
  {
    if kvs != [] {
      NoticesPerPair(listeners, kvs[..|kvs|-1]);
      assert |kvs| * |listeners| == (|kvs| - 1) * |listeners| + |listeners|;
    }
  }

  lemma InGrid(n: nat, m: nat, k: nat, i: nat)
    requires k < n && i < m
    ensures k * m + i < n * m
  {
    assert (k + 1) * m == k * m + m;
    assert (k + 1) * m <= n * m;
  }

  lemma {:induction false} HeardAt(listeners: seq<nat>, kvs: seq<KVPair>, k: nat, i: nat)
    requires k < |kvs| && i < |listeners|
    ensures Hears(listeners, kvs, AllNotices(listeners, kvs), k, i)
  {
    var front := kvs[..|kvs|-1];
    NoticesPerPair(listeners, kvs);
    NoticesPerPair(listeners, front);
    InGrid(|kvs|, |listeners|, k, i);
    if k < |front| { HeardAt(listeners, front, k, i); }
  }

  lemma EachHearsAll(listeners: seq<nat>, kvs: seq<KVPair>)
    ensures EachHears(listeners, kvs, AllNotices(listeners, kvs))
  {
    hide AllNotices, Hears;
    NoticesPerPair(listeners, kvs);
    forall k: nat, i: nat | k < |kvs| && i < |listeners|
      ensures Hears(listeners, kvs, AllNotices(listeners, kvs), k, i)
    {
      HeardAt(listeners, kvs, k, i);
    }
  }

  lemma NoNotices(listeners: seq<nat>)
    ensures AllNotices(listeners, []) == []
  {
  }

  lemma UtInWords(d: Data, listener: Option<nat>, m: UtMessage)
    ensures listener.Some? && m.SignalReport? && m.token.Some? ==>
              match SignalStatusOf(m.token.value)
              case Some(s) =>
                && UtCalls(d, listener, m) == [SignalStatusChanged(listener.value, s)]
                && UtApplied(d, m).status.signalStatus == s
              case None => UtCalls(d, listener, m) == []
    ensures m.VideoMode? && Complete(m.width, m.height, m.frameRate) ==>
              var mode := Mode(m.width.value, m.height.value, m.interlaced, m.frameRate.value);
              && UtApplied(d, m).status.detectedResolution == Some(mode)
              && UtApplied(d, m).status.signalStatus == Stable
              && UtCalls(d, listener, m) == if listener.Some? then [VideoModeChanged(listener.value, mode)] else []
  {
    hide UtCalls, UtApplied, SignalStatusOf, Signed;
    if listener.Some? { ControllerHears(d, listener.value, m); }
    ControllerHears(d, 0, m);
    match m
    case SignalReport(token) =>
      if token.Some? && SignalStatusOf(token.value).Some? {
        SignalInWords(d, token.value, SignalStatusOf(token.value).value);
      } else {
        IncompleteIsIgnored(d, listener, m);
      }
    case VideoMode(w, h, i, r) => VideoModeInWords(d, w, h, i, r);
    case _ =>
  }

  lemma HasSignals(d: Data)
    requires Shaped(d)
    ensures SignalStrength in d.cache && SignalQuality in d.cache
  {
  }

  lemma OneNoticeMore(listeners: seq<nat>, kvs: seq<KVPair>, i: nat)
    requires i < |kvs|
    ensures AllNotices(listeners, kvs[..i + 1]) == AllNotices(listeners, kvs[..i]) + Notices(listeners, kvs[i])
  {
    assert kvs[..i + 1][..i] == kvs[..i];
  }

  lemma FewNotices(listeners: seq<nat>, kv: KVPair, other: KVPair)
    ensures AllNotices(listeners, [kv]) == Notices(listeners, kv)
    ensures AllNotices(listeners, [kv, other]) == Notices(listeners, kv) + Notices(listeners, other)
  {
    assert [kv][..0] == [] && [kv, other][..1] == [kv];
  }

  class CompositeInputPort {
    const portId: int
    var name: string
    var description: string
    var capabilities: PortCapabilities
    var supportedProperties: seq<PortProperty>

    var state: State
    var cachedStatus: PortStatus
    var cachedProperties: Cache
    var controller: Option<nat>
    var controllerListener: Option<nat>
    var eventListeners: seq<nat>

    var deathRecipient: Option<nat>
    var sessionEpoch: nat
    var deathCleanupPending: bool
    var counters: Counters

    // Identities handed out to controllers.
    var controllersMade: nat

    // The lifecycle part of the object with its history, for specification only.
    ghost var session: Port

    ghost predicate Mirrored()
      reads this
    {
      && state == session.state && sessionEpoch == session.epoch && deathCleanupPending == session.pending
      && controller == session.controller && controllerListener == session.listener
      && deathRecipient == session.recipient && controllersMade == session.made
    }

    ghost function Now(slots: StartedSlots): World
      reads this, slots
    {
      World(session, slots.started, slots.limit)
    }

    /** The data part of the object. */
    ghost function Values(): Data
      reads this
    {
      Data(state, cachedStatus, cachedProperties, counters)
    }

    ghost predicate Valid()
      reads this
    {
      && Mirrored()
      && Shaped(Values())
      && supportedProperties == capabilities.supportedProperties
      && Distinct(eventListeners)
    }

    constructor (portId: int)
      ensures Valid() && this.portId == portId
      ensures session == NewPort() && Values() == NewData(portId)
      ensures capabilities == PortCapabilities([], None) && eventListeners == []
    {
      this.portId := portId;
      name, description := "", "";
      capabilities := PortCapabilities([], None);
      supportedProperties := [];
      state := Closed;
      cachedStatus := PortStatus(portId, false, false, NoSignal, None);
      cachedProperties := NewData(portId).cache;
      controller, controllerListener, deathRecipient := None, None, None;
      eventListeners := [];
      sessionEpoch, deathCleanupPending := 0, false;
      counters := Counters(0, 0, 0, 0, 0, 0);
      controllersMade := 0;
      session := NewPort();
    }

    // ----- configuration

    method SetPortInfo(name: string, description: string)
      modifies `name, `description
      ensures this.name == name && this.description == description
    {
      this.name, this.description := name, description;
    }

    method SetCapabilities(capabilities: PortCapabilities)
      requires Valid()
      modifies `capabilities, `supportedProperties
      ensures Valid() && this.capabilities == capabilities
    {
      this.capabilities := capabilities;
      supportedProperties := capabilities.supportedProperties;
    }

    method ResetHardwareBaselineForBoot()
      requires Valid()
      modifies `cachedStatus, `cachedProperties
      ensures Valid() && Values() == Act(capabilities, old(Values()), Boot)
    {
      cachedStatus := cachedStatus.(connected := false, signalStatus := NoSignal, detectedResolution := None);
      if SignalStrength in supportedProperties {
        cachedProperties := cachedProperties[SignalStrength := LongValue(0)];
      }
      if SignalQuality in supportedProperties {
        cachedProperties := cachedProperties[SignalQuality := IntValue(0)];
      }
    }

    // ----- lifecycle

    /** setStateLocked(); the caller publishes the edge. */
    method SetState(next: State) returns (oldState: State, listeners: seq<nat>, ghost edge: Edge)
      requires Mirrored()
      modifies `state, `cachedStatus, `session
      ensures Mirrored() && session == Lifecycle.SetState(old(session), next)
      ensures Values() == Entered(old(Values()), next)
      ensures oldState == old(state) && listeners == eventListeners && edge == EdgeTo(old(session), next)
    {
      edge := EdgeTo(session, next);
      oldState := state;
      state := next;
      cachedStatus := cachedStatus.(active := next.Started?);
      session := Lifecycle.SetState(session, next);
      listeners := eventListeners;
    }

    method ResetSessionState()
      modifies `cachedProperties, `counters
      ensures Values() == SessionReset(old(Values()))
    {
      counters := Counters(0, 0, 0, 0, 0, 0);
      ghost var cache := cachedProperties;
      for i := 0 to |SESSION_METRICS|
        invariant cachedProperties == ZeroMetrics(cache, SESSION_METRICS[..i])
        invariant counters == Counters(0, 0, 0, 0, 0, 0)
      {
        var metric := SESSION_METRICS[i];
        ZeroOneMore(cache, SESSION_METRICS[..i], metric);
        assert SESSION_METRICS[..i + 1] == SESSION_METRICS[..i] + [metric];
        if metric in cachedProperties {
          var value := cachedProperties[metric];
          if value.IntValue? {
            cachedProperties := cachedProperties[metric := IntValue(0)];
          } else if value.LongValue? {
            cachedProperties := cachedProperties[metric := LongValue(0)];
          }
        }
      }
      assert SESSION_METRICS[..|SESSION_METRICS|] == SESSION_METRICS;
    }

    /** The locked region that ends a session. */
    method RetireSession() returns (oldState: State, listeners: seq<nat>, ghost edge: Edge)
      requires Mirrored()
      modifies `controller, `controllerListener, `deathRecipient, `sessionEpoch, `deathCleanupPending,
               `state, `cachedStatus, `session, `cachedProperties, `counters
      ensures Mirrored() && session == Retire(old(session)) && Values() == SessionEnded(old(Values()))
      ensures oldState == old(state) && listeners == eventListeners && edge == EdgeTo(old(session), Closed)
    {
      controller, controllerListener, deathRecipient := None, None, None;
      sessionEpoch := sessionEpoch + 1;
      deathCleanupPending := false;
      session := session.(controller := None, listener := None, recipient := None,
                          epoch := session.epoch + 1, pending := false);
      oldState, listeners, edge := SetState(Closed);
      ResetSessionState();
    }

    /** The onStateChanged() callbacks for one transition; only the log of events changes. */
    method OnStateChanged(listeners: seq<nat>, oldState: State, newState: State, ghost edge: Edge)
      requires Mirrored() && edge.from == oldState && edge.to == newState
      modifies `session
      ensures Mirrored() && session == Lifecycle.Publish(old(session), edge)
    {
      session := Lifecycle.Publish(session, edge);
    }

    /** One transition: its locked region, and the event published after it. */
    method ShowState(next: State)
      requires Mirrored()
      modifies `state, `cachedStatus, `session
      ensures Mirrored() && session == Shown(old(session), next) && Values() == Entered(old(Values()), next)
    {
      var oldState, listeners, edge := SetState(next);
      OnStateChanged(listeners, oldState, next, edge);
    }

    /** What an operation leaves of the data: the last state entered, or the end of the session. */
    ghost predicate Carried(before: Data, epoch: nat)
      reads this
    {
      Values() == if sessionEpoch == epoch then Entered(before, state) else SessionEnded(before)
    }

    /** Started to Stopping to Ready, and the slot back: stop() and the death cleanup alike. */
    method StopSequence(slots: StartedSlots)
      requires Valid() && state.Started?
      modifies `state, `cachedStatus, `session, slots`started
      ensures Valid() && Values() == Entered(old(Values()), Ready)
      ensures session == StoppedDown(old(session)) && slots.started == GiveBack(old(slots.started))
    {
      ShowState(Stopping);
      session := session.(ended := session.ended + 1);
      ShowState(Ready);
      slots.GiveBackOne();
      session := session.(released := session.released + 1);
    }

    method DeathStopStage(epoch: nat, slots: StartedSlots) returns (proceed: bool)
      requires Valid()
      modifies `state, `cachedStatus, `session, `deathCleanupPending, slots`started
      ensures Valid() && Carried(old(Values()), old(sessionEpoch))
      ensures proceed ==>
                Solo(old(Now(slots)), Death(epoch, DeathEnter)) == Solo(Now(slots), Death(epoch, DeathCloseEnter))
      ensures !proceed ==> Solo(old(Now(slots)), Death(epoch, DeathEnter)) == (Now(slots), Ok)
    {
      if sessionEpoch != epoch {
        return false;
      }
      if state.Closed? {
        return false;
      }
      if state.Opening? || state.Starting? || state.Stopping? || state.Closing? {
        deathCleanupPending := true;
        session := session.(pending := true);
        return false;
      }
      if state.Started? {
        SoloStopStage(Now(slots));
        StopSequence(slots);
      }
      return true;
    }

    method DeathCloseStage(epoch: nat, slots: StartedSlots)
      requires Valid()
      modifies `state, `cachedStatus, `session, `deathCleanupPending, `controller, `controllerListener,
               `deathRecipient, `sessionEpoch, `cachedProperties, `counters
      ensures Valid() && Carried(old(Values()), old(sessionEpoch))
      ensures Solo(old(Now(slots)), Death(epoch, DeathCloseEnter)) == (Now(slots), Ok)
    {
      hide Solo, Shaped, Entered, SessionEnded;
      LifecycleStaysShaped(Values(), state);
      LifecycleStaysShaped(Values(), Closing);
      if sessionEpoch != epoch || !state.Ready? {
        SoloCloseStageDeclines(Now(slots), epoch);
      }
      if sessionEpoch != epoch || state.Closed? {
        return;
      }
      if !state.Ready? {
        deathCleanupPending := true;
        session := session.(pending := true);
        return;
      }
      SoloCloseStage(Now(slots));
      ShowState(Closing);
      var oldState, listeners, edge := RetireSession();
      OnStateChanged(listeners, oldState, Closed, edge);
    }

    method CleanupAfterControllerDeath(epoch: nat, slots: StartedSlots)
      requires Valid()
      modifies `state, `cachedStatus, `session, `deathCleanupPending, `controller, `controllerListener,
               `deathRecipient, `sessionEpoch, `cachedProperties, `counters, slots`started
      ensures Valid() && Carried(old(Values()), old(sessionEpoch))
      ensures Solo(old(Now(slots)), Death(epoch, DeathEnter)) == (Now(slots), Ok)
    {
      var proceed := DeathStopStage(epoch, slots);
      if proceed {
        DeathCloseStage(epoch, slots);
      }
    }

    method RunPendingDeathCleanupIfNeeded(slots: StartedSlots)
      requires Valid()
      modifies `state, `cachedStatus, `session, `deathCleanupPending, `controller, `controllerListener,
               `deathRecipient, `sessionEpoch, `cachedProperties, `counters, slots`started
      ensures Valid() && Carried(old(Values()), old(sessionEpoch))
      ensures Solo(old(Now(slots)), Tail) == (Now(slots), Ok)
    {
      SoloTail(Now(slots));
      if !deathCleanupPending {
        return;
      }
      deathCleanupPending := false;
      session := session.(pending := false);
      CleanupAfterControllerDeath(sessionEpoch, slots);
    }

    /** The first locked region of open(). */
    method ArmSession(listener: nat, observed: bool) 
      returns (oldState: State, listeners: seq<nat>, connected: bool, ghost edge: Edge)
      requires Mirrored()
      modifies `state, `cachedStatus, `session, `deathCleanupPending, `controller, `controllerListener, `deathRecipient,
               `sessionEpoch, `controllersMade
      ensures Mirrored() && session == Arming(old(session), observed, listener)
      ensures Values() == Entered(old(Values()), Opening)
      ensures oldState == old(state) && listeners == eventListeners && edge == EdgeTo(old(session), Opening)
      ensures connected == old(cachedStatus).connected
    {
      oldState, listeners, edge := SetState(Opening);
      controllerListener := Some(listener);
      connected := cachedStatus.connected;
      controller := Some(controllersMade);
      controllersMade := controllersMade + 1;
      sessionEpoch := sessionEpoch + 1;
      deathCleanupPending := false;
      deathRecipient := None;
      if observed {
        deathRecipient := Some(sessionEpoch);
      }
      session := Arming(old(session), observed, listener);
    }

    /** The rest of open() once the client is linked. */
    method FinishOpen(oldState: State, listeners: seq<nat>, observed: bool, ghost edge: Edge)
      requires Mirrored() && edge.from == oldState && edge.to == Opening
      modifies `state, `cachedStatus, `session
      ensures Mirrored() && Values() == Entered(old(Values()), Ready)
      ensures var p := old(session);
              session == Shown(Lifecycle.Publish(
                p.(armed := if observed then p.armed + {p.epoch} else p.armed), edge), Ready)
    {
      if observed {
        session := session.(armed := session.armed + {sessionEpoch});
      }
      OnStateChanged(listeners, oldState, Opening, edge);
      ShowState(Ready);
    }

    /** open(): `observed` if the listener is remote, `linkOk` if linkToDeath() will succeed. */
    method Open(listener: Option<nat>, observed: bool, linkOk: bool, slots: StartedSlots)
      returns (reply: Reply, owner: Option<nat>, calls: seq<ControllerCall>)
      requires Valid()
      modifies `state, `cachedStatus, `session, `deathCleanupPending, `controller, `controllerListener,
               `deathRecipient, `sessionEpoch, `cachedProperties, `counters, `controllersMade, slots`started
      ensures Valid()
      ensures listener.None? ==> reply == NoArgument && Now(slots) == old(Now(slots))
      ensures listener.Some? ==>
                Solo(old(Now(slots)), Lifecycle.Open(OpenEnter(observed, linkOk, listener.value)))
                == (Now(slots), reply)
      ensures calls == if listener.Some? && reply.Ok?
                       then [ConnectionChanged(listener.value, old(cachedStatus).connected)] else []
      ensures owner == if reply.Ok? then Some(old(controllersMade)) else None
      ensures Values() == if reply.Ok? then Entered(old(Values()), Ready)
                          else if listener.Some? && old(state).Closed? then SessionEnded(old(Values()))
                          else old(Values())
    {
      hide Solo, Shaped, Entered, SessionEnded;
      LifecycleStaysShaped(Values(), Opening);
      LifecycleStaysShaped(Values(), Ready);
      if listener.None? {
        return NoArgument, None, [];
      }
      SoloRejected(Now(slots), observed, linkOk, listener.value, 0);
      if state != Closed {
        return IllegalState, None, [];
      }
      ghost var w := Now(slots);
      var oldState, listeners, connected, edge := ArmSession(listener.value, observed);
      owner := controller;
      if observed && !linkOk {
        SoloOpenAborted(w, listener.value);
        var from, unused, lost := RetireSession();
        return IllegalState, None, [];
      }
      FinishOpen(oldState, listeners, observed, edge);
      SoloOpen(w, observed, listener.value);
      if !observed { SoloOpenUnobserved(w, linkOk, listener.value); }
      SoloTail(Now(slots));
      RunPendingDeathCleanupIfNeeded(slots);
      return Ok, owner, [ConnectionChanged(listener.value, connected)];
    }

    /** close() */
    method Close(presented: Option<nat>, slots: StartedSlots) returns (reply: Reply)
      requires Valid()
      modifies `state, `cachedStatus, `session, `deathCleanupPending, `controller, `controllerListener,
               `deathRecipient, `sessionEpoch, `cachedProperties, `counters
      ensures Valid() && Carried(old(Values()), old(sessionEpoch))
      ensures presented.None? ==> reply == NoArgument && Now(slots) == old(Now(slots))
      ensures presented.Some? ==>
                Solo(old(Now(slots)), Lifecycle.Close(CloseEnter(presented.value))) == (Now(slots), reply)
    {
      hide Solo, Shaped, Entered, SessionEnded;
      LifecycleStaysShaped(Values(), state);
      LifecycleStaysShaped(Values(), Closing);
      if presented.None? {
        return NoArgument;
      }
      SoloRejected(Now(slots), false, false, 0, presented.value);
      if state != Ready {
        return IllegalState;
      }
      if presented != controller {
        return NotOwner;
      }
      SoloClose(Now(slots));
      ShowState(Closing);
      UnlinkAndClose();
      return Ok;
    }

    /** The second half of close(): the session ends, then its recipient is unlinked. */
    method UnlinkAndClose()
      requires Mirrored()
      modifies `state, `cachedStatus, `session, `deathCleanupPending, `controller, `controllerListener,
               `deathRecipient, `sessionEpoch, `cachedProperties, `counters
      ensures Mirrored() && Values() == SessionEnded(old(Values()))
      ensures var p := old(session);
              session == Lifecycle.Publish(Retire(p), EdgeTo(p, Closed)).(
                armed := if p.listener.Some? && p.recipient.Some? then p.armed - {p.recipient.value} else p.armed)
    {
      var closingListener, closingRecipient := controllerListener, deathRecipient;
      var oldState, listeners, edge := RetireSession();
      if closingListener.Some? && closingRecipient.Some? {
        session := session.(armed := session.armed - {closingRecipient.value});
      }
      OnStateChanged(listeners, oldState, Closed, edge);
    }

    /** Ready to Starting to Started. */
    method StartSequence() returns (calls: seq<ControllerCall>)
      requires Mirrored()
      modifies `state, `cachedStatus, `session
      ensures Mirrored() && session == StartedUp(old(session)) && Values() == Entered(old(Values()), Started)
      ensures match old(controllerListener)
              case Some(l) => calls == [SignalStatusChanged(l, old(cachedStatus).signalStatus)]
              case None => calls == []
    {
      ShowState(Starting);
      calls := [];
      if controllerListener.Some? {
        calls := [SignalStatusChanged(controllerListener.value, cachedStatus.signalStatus)];
      }
      session := session.(begun := session.begun + 1);
      ShowState(Started);
    }

    /** startFromController(), at the time `now`. */
    method Start(now: int, slots: StartedSlots)
      returns (reply: Reply, notices: seq<Notice>, calls: seq<ControllerCall>)
      requires Valid()
      modifies `state, `cachedStatus, `session, `deathCleanupPending, `controller, `controllerListener,
               `deathRecipient, `sessionEpoch, `cachedProperties, `counters, slots`started
      ensures Valid()
      ensures Solo(old(Now(slots)), Lifecycle.Start(StartGate)) == (Now(slots), reply)
      ensures reply.Ok? ==>
                Carried(old(Values()).(counters := old(counters).(startTs := now)), old(sessionEpoch))
      ensures !reply.Ok? ==> Values() == old(Values())
      ensures notices == if reply.Ok? then AllNotices(eventListeners, StartReports(old(cachedProperties))) else []
      ensures reply.Ok? ==>
                EachHears(eventListeners,
                          [KVPair(SignalStrength, old(cachedProperties)[SignalStrength]),
                           KVPair(SignalQuality, old(cachedProperties)[SignalQuality])], notices)
      ensures reply.Ok? ==>
                match old(controllerListener)
                case Some(l) => calls == [SignalStatusChanged(l, old(cachedStatus).signalStatus)]
                case None => calls == []
      ensures !reply.Ok? ==> calls == []
    {
      hide Solo, Shaped, Entered, SessionEnded, AllNotices, StartReports, StartedUp, Distinct, EachHears;
      EachHearsAll(eventListeners, StartReports(cachedProperties));
      HasSignals(Values());
      StartReportsInWords(cachedProperties);
      if slots.started >= slots.limit || state != Ready {
        SoloStartRejected(Now(slots));
      }
      if slots.started >= slots.limit {
        return IllegalState, [], [];
      }
      slots.started := slots.started + 1;
      if state != Ready {
        slots.GiveBackOne();
        return IllegalState, [], [];
      }
      SoloStart(old(Now(slots)));
      StampStaysShaped(Values(), Started, now);
      LifecycleStaysShaped(Values().(counters := counters.(startTs := now)), Started);
      calls := StartSequence();
      counters := counters.(startTs := now);
      notices := ReportTelemetry();
      RunPendingDeathCleanupIfNeeded(slots);
      return Ok, notices, calls;
    }

    /** The property events that end start(). */
    method ReportTelemetry() returns (notices: seq<Notice>)
      ensures notices == AllNotices(eventListeners, StartReports(cachedProperties))
    {
      var strength, quality := LongValue(0), IntValue(0);
      if SignalStrength in cachedProperties {
        strength := cachedProperties[SignalStrength];
      }
      if SignalQuality in cachedProperties {
        quality := cachedProperties[SignalQuality];
      }
      FewNotices(eventListeners, KVPair(SignalStrength, strength), KVPair(SignalQuality, quality));
      notices := Notices(eventListeners, KVPair(SignalStrength, strength));
      notices := notices + Notices(eventListeners, KVPair(SignalQuality, quality));
    }

    /** stopFromController() */
    method Stop(slots: StartedSlots) returns (reply: Reply)
      requires Valid()
      modifies `state, `cachedStatus, `session, `deathCleanupPending, `controller, `controllerListener,
               `deathRecipient, `sessionEpoch, `cachedProperties, `counters, slots`started
      ensures Valid() && Carried(old(Values()), old(sessionEpoch))
      ensures Solo(old(Now(slots)), Lifecycle.Stop(StopEnter)) == (Now(slots), reply)
    {
      SoloRejected(Now(slots), false, false, 0, 0);
      if state != Started {
        return IllegalState;
      }
      SoloStop(Now(slots));
      StopSequence(slots);
      RunPendingDeathCleanupIfNeeded(slots);
      return Ok;
    }

    // ----- listener registry

    method RegisterEventListener(listener: Option<nat>) returns (status: Status)
      requires Valid()
      modifies `eventListeners
      ensures Valid()
      ensures status == if listener.None? then IllegalArgument else Okay
      ensures eventListeners == if listener.None? then old(eventListeners)
                                else Registered(old(eventListeners), listener.value)
      ensures listener.Some? ==> listener.value in eventListeners && old(eventListeners) <= eventListeners
    {
      if listener.None? {
        return IllegalArgument;
      }
      if listener.value !in eventListeners {
        eventListeners := eventListeners + [listener.value];
      }
      return Okay;
    }

    method UnregisterEventListener(listener: Option<nat>) returns (status: Status)
      requires Valid()
      modifies `eventListeners
      ensures Valid()
      ensures status.Okay? <==> listener.Some? && listener.value in old(eventListeners)
      ensures !status.Okay? ==> status.IllegalArgument? && eventListeners == old(eventListeners)
      ensures status.Okay? ==> eventListeners == Without(old(eventListeners), listener.value)
    {
      if listener.None? {
        return IllegalArgument;
      }
      var i := 0;
      while i < |eventListeners| && eventListeners[i] != listener.value
        invariant 0 <= i <= |eventListeners|
        invariant forall j :: 0 <= j < i ==> eventListeners[j] != listener.value
        invariant eventListeners == old(eventListeners)
      {
        i := i + 1;
      }
      if i == |eventListeners| {
        return IllegalArgument;
      }
      WithoutAt(eventListeners, listener.value, i);
      WithoutStaysDistinct(eventListeners, listener.value);
      eventListeners := eventListeners[..i] + eventListeners[i + 1..];
      return Okay;
    }

    // ----- properties

    /** isPropertyWritableLocked() */
    method IsPropertyWritable(property: PortProperty) returns (r: bool)
      ensures r == Writable(capabilities, property)
    {
      if capabilities.propertyMetadata.None? {
        return false;
      }
      var metadata := capabilities.propertyMetadata.value;
      for i := 0 to |metadata|
        invariant EntryFor(metadata, property) == EntryFor(metadata[i..], property)
      {
        if metadata[i].Some? && metadata[i].value.key == property {
          return !metadata[i].value.readOnly;
        }
        assert metadata[i..][1..] == metadata[i + 1..];
      }
      return false;
    }

    /** isPropertyValueTypeValidLocked() */
    method IsPropertyValueTypeValid(property: PortProperty, value: PropertyValue) returns (r: bool)
      ensures r == TypeValid(capabilities, property, value)
    {
      if capabilities.propertyMetadata.None? || value.NullValue? {
        return false;
      }
      var metadata := capabilities.propertyMetadata.value;
      for i := 0 to |metadata|
        invariant EntryFor(metadata, property) == EntryFor(metadata[i..], property)
      {
        if metadata[i].Some? && metadata[i].value.key == property {
          return Fits(metadata[i].value.kind, value);
        }
        assert metadata[i..][1..] == metadata[i + 1..];
      }
      return false;
    }

    /** setPropertyFromController() */
    method SetProperty(property: PortProperty, value: PropertyValue) returns (status: Status, notices: seq<Notice>)
      requires Valid()
      modifies `cachedProperties
      ensures Valid()
      ensures (status, cachedProperties) == SetOne(capabilities, old(cachedProperties), KVPair(property, value))
      ensures notices == if status.Okay? then Notices(eventListeners, KVPair(property, value)) else []
      ensures status.Okay? ==>
                && |notices| == |eventListeners|
                && forall i :: 0 <= i < |notices| ==> notices[i] == Notice(eventListeners[i], property, value)
    {
      hide Shaped;
      ActStaysShaped(capabilities, Values(), Write(KVPair(property, value)));
      if !IsValidPortProperty(property) {
        return IllegalArgument, [];
      }
      if property !in supportedProperties {
        return IllegalArgument, [];
      }
      var writable := IsPropertyWritable(property);
      if !writable {
        return UnsupportedOperation, [];
      }
      var typeValid := IsPropertyValueTypeValid(property, value);
      if !typeValid {
        return IllegalArgument, [];
      }
      cachedProperties := cachedProperties[property := value];
      return Okay, Notices(eventListeners, KVPair(property, value));
    }

    /** The validation of a batch: okay, or the status of the first element `n` that fails. */
    method ValidateBatch(properties: seq<KVPair>) returns (status: Status, ghost n: nat)
      requires supportedProperties == capabilities.supportedProperties
      ensures n <= |properties| && forall j :: 0 <= j < n ==> Check(capabilities, properties[j]).Okay?
      ensures if n == |properties| then status == Okay else status == Check(capabilities, properties[n]) != Okay
    {
      for i := 0 to |properties|
        invariant forall j :: 0 <= j < i ==> Check(capabilities, properties[j]).Okay?
      {
        var kv := properties[i];
        n := i;
        if !IsValidPortProperty(kv.property) || kv.property !in supportedProperties {
          return IllegalArgument, n;
        }
        var writable := IsPropertyWritable(kv.property);
        if !writable {
          return UnsupportedOperation, n;
        }
        var typeValid := IsPropertyValueTypeValid(kv.property, kv.value);
        if !typeValid {
          return IllegalArgument, n;
        }
      }
      return Okay, |properties|;
    }

    /** setPropertyMultiFromController(): validate everything, then write, then notify. */
    method SetPropertyMulti(properties: seq<KVPair>) returns (status: Status, notices: seq<Notice>)
      requires Valid()
      modifies `cachedProperties
      ensures Valid()
      ensures (status, cachedProperties) == SetAll(capabilities, old(cachedProperties), properties)
      ensures notices == if status.Okay? then AllNotices(eventListeners, properties) else []
      ensures status.Okay? ==> EachHears(eventListeners, properties, notices)
      ensures !status.Okay? ==> cachedProperties == old(cachedProperties) && notices == []
      ensures properties == [] ==> status == IllegalArgument
    {
      hide Shaped, EachHears, AllNotices, Check;
      EachHearsAll(eventListeners, properties);
      ActStaysShaped(capabilities, Values(), WriteBatch(properties));
      if properties == [] {
        return IllegalArgument, [];
      }
      ghost var cache := cachedProperties;
      var valid, n := ValidateBatch(properties);
      ValidateThenWrite(capabilities, cache, properties, n);
      if valid != Okay {
        return valid, [];
      }
      for i := 0 to |properties|
        invariant cachedProperties == WriteAll(cache, properties[..i])
      {
        assert properties[..i + 1][..i] == properties[..i];
        cachedProperties := cachedProperties[properties[i].property := properties[i].value];
      }
      assert properties[..|properties|] == properties;
      notices := NotifyEach(properties);
      return Okay, notices;
    }

    /** The callbacks of setPropertyMultiFromController(), in the order of the list. */
    method NotifyEach(properties: seq<KVPair>) returns (notices: seq<Notice>)
      ensures notices == AllNotices(eventListeners, properties)
    {
      notices := [];
      for i := 0 to |properties|
        invariant notices == AllNotices(eventListeners, properties[..i])
      {
        assert properties[..i + 1][..i] == properties[..i];
        notices := notices + Notices(eventListeners, properties[i]);
      }
      assert properties[..|properties|] == properties;
    }

    /** getProperty() */
    method GetProperty(property: PortProperty) returns (status: Status, value: Option<PropertyValue>)
      requires Valid()
      ensures status == if IsValidPortProperty(property) then Okay else IllegalArgument
      ensures status.Okay? ==> value == Read(capabilities, Values(), property)
      ensures state != Starting && state != Started && property == SignalStrength ==> value == Some(LongValue(0))
      ensures state != Starting && state != Started && property == SignalQuality ==> value == Some(IntValue(0))
      ensures state == Starting || state == Started || (property != SignalStrength && property != SignalQuality) ==>
                status.Okay? ==>
                  value == if property in capabilities.supportedProperties then Some(cachedProperties[property])
                           else None
    {
      if !IsValidPortProperty(property) {
        return IllegalArgument, None;
      }
      if (property.SignalStrength? || property.SignalQuality?) && state != Starting && state != Started {
        return Okay, Some(if property.SignalStrength? then LongValue(0) else IntValue(0));
      }
      if property in supportedProperties && property in cachedProperties {
        return Okay, Some(cachedProperties[property]);
      }
      return Okay, None;
    }

    /** getPropertyMulti(): getProperty() of each, with absent values as null. */
    method GetPropertyMulti(properties: seq<PortProperty>) returns (status: Status, pairs: seq<KVPair>)
      requires Valid()
      ensures status.Okay? <==> properties != [] && forall p <- properties :: IsValidPortProperty(p)
      ensures !status.Okay? ==> status.IllegalArgument?
      ensures status.Okay? ==>
                && |pairs| == |properties|
                && forall i :: 0 <= i < |pairs| ==>
                     && pairs[i].property == properties[i]
                     && pairs[i].value ==
                          (match Read(capabilities, Values(), properties[i]) case Some(v) => v case None => NullValue)
      ensures status.Okay? ==>
                forall i :: 0 <= i < |pairs| ==>
                  var p := properties[i];
                  pairs[i].value ==
                    if state != Starting && state != Started && p == SignalStrength then LongValue(0)
                    else if state != Starting && state != Started && p == SignalQuality then IntValue(0)
                    else if p in capabilities.supportedProperties && p in cachedProperties then cachedProperties[p]
                    else NullValue
    {
      if properties == [] {
        return IllegalArgument, [];
      }
      for i := 0 to |properties|
        invariant forall j :: 0 <= j < i ==> IsValidPortProperty(properties[j])
      {
        if !IsValidPortProperty(properties[i]) {
          return IllegalArgument, [];
        }
      }
      pairs := [];
      for i := 0 to |properties|
        invariant |pairs| == i
        invariant forall j :: 0 <= j < i ==>
                    && pairs[j].property == properties[j]
                    && pairs[j].value ==
                         (match Read(capabilities, Values(), properties[j]) case Some(v) => v case None => NullValue)
      {
        var property := properties[i];
        if (property.SignalStrength? || property.SignalQuality?) && state != Starting && state != Started {
          pairs := pairs + [KVPair(property, if property.SignalStrength? then LongValue(0) else IntValue(0))];
        } else {
          var value := if property in supportedProperties && property in cachedProperties
                       then cachedProperties[property] else NullValue;
          pairs := pairs + [KVPair(property, value)];
        }
      }
      return Okay, pairs;
    }

    /** getStatus() */
    method GetStatus() returns (status: PortStatus)
      ensures status == StatusView(Values())
      ensures state == Starting || state == Started ==> status == cachedStatus
      ensures state != Starting && state != Started ==>
                status == PortStatus(cachedStatus.portId, false, false, NoSignal, None)
    {
      status := cachedStatus;
      if state != Starting && state != Started {
        status := status.(connected := false, signalStatus := NoSignal, detectedResolution := None, active := false);
      }
    }

    /** resetMetricsFromController() */
    method ResetMetrics(now: int, wall: int) returns (status: Status, notices: seq<Notice>)
      requires Valid()
      modifies `counters, `cachedProperties
      ensures Valid() && (status, Values()) == MetricsReset(old(Values()), now, wall)
      ensures notices == if status.Okay? then AllNotices(eventListeners, ResetReports(wall)) else []
      ensures status.Okay? ==> EachHears(eventListeners, ResetReports(wall), notices)
    {
      hide Shaped, AllNotices, ResetReports, EachHears;
      EachHearsAll(eventListeners, ResetReports(wall));
      ActStaysShaped(capabilities, Values(), Action.ResetMetrics(now, wall));
      if state != Started {
        return BadState, [];
      }
      counters := Counters(now, now, 0, 0, 0, 0);
      ResetMetricValues(wall);
      notices := ReportReset(wall);
      return Okay, notices;
    }

    /** The six property events of resetMetricsFromController(). */
    method ReportReset(wall: int) returns (notices: seq<Notice>)
      ensures notices == AllNotices(eventListeners, ResetReports(wall))
    {
      hide AllNotices, Notices;
      ghost var reports := ResetReports(wall);
      NoNotices(eventListeners);
      notices := Notices(eventListeners, KVPair(MetricSignalDrops, LongValue(0)));
      OneNoticeMore(eventListeners, reports, 0);
      notices := notices + Notices(eventListeners, KVPair(MetricSignalLockCount, LongValue(0)));
      OneNoticeMore(eventListeners, reports, 1);
      notices := notices + Notices(eventListeners, KVPair(MetricSignalLockTime, LongValue(0)));
      OneNoticeMore(eventListeners, reports, 2);
      notices := notices + Notices(eventListeners, KVPair(MetricLastSignalLockTime, LongValue(0)));
      OneNoticeMore(eventListeners, reports, 3);
      notices := notices + Notices(eventListeners, KVPair(MetricUptime, LongValue(0)));
      OneNoticeMore(eventListeners, reports, 4);
      notices := notices + Notices(eventListeners, KVPair(MetricLastResetTimestamp, LongValue(wall)));
      OneNoticeMore(eventListeners, reports, 5);
      assert reports[..6] == reports;
    }

    /** The cache writes of resetMetricsFromController(). */
    method ResetMetricValues(wall: int)
      modifies `cachedProperties
      ensures cachedProperties == old(cachedProperties)
                [MetricSignalDrops := LongValue(0)][MetricSignalLockCount := LongValue(0)]
                [MetricSignalLockTime := LongValue(0)][MetricLastSignalLockTime := LongValue(0)]
                [MetricUptime := LongValue(0)][MetricLastResetTimestamp := LongValue(wall)]
    {
      cachedProperties := cachedProperties[MetricSignalDrops := LongValue(0)];
      cachedProperties := cachedProperties[MetricSignalLockCount := LongValue(0)];
      cachedProperties := cachedProperties[MetricSignalLockTime := LongValue(0)];
      cachedProperties := cachedProperties[MetricLastSignalLockTime := LongValue(0)];
      cachedProperties := cachedProperties[MetricUptime := LongValue(0)];
      cachedProperties := cachedProperties[MetricLastResetTimestamp := LongValue(wall)];
    }

    /** handleUTControlPlaneMessage(), its effect on the port. */
    method HandleUt(message: UtMessage) returns (notices: seq<Notice>, calls: seq<ControllerCall>)
      requires Valid()
      modifies `cachedStatus, `cachedProperties
      ensures Valid() && Values() == UtApplied(old(Values()), message)
      ensures notices == AllNotices(eventListeners, UtReports(old(Values()), message))
      ensures calls == UtCalls(old(Values()), controllerListener, message)
      ensures EachHears(eventListeners, UtReports(old(Values()), message), notices)
      ensures controllerListener.Some? && message.SignalReport? && message.token.Some? ==>
                match SignalStatusOf(message.token.value)
                case Some(s) =>
                  calls == [SignalStatusChanged(controllerListener.value, s)] && cachedStatus.signalStatus == s
                case None => calls == []
      ensures message.VideoMode? && Complete(message.width, message.height, message.frameRate) ==>
                var mode :=
                  Mode(message.width.value, message.height.value, message.interlaced, message.frameRate.value);
                && cachedStatus.detectedResolution == Some(mode) && cachedStatus.signalStatus == Stable
                && calls == if controllerListener.Some? then [VideoModeChanged(controllerListener.value, mode)] else []
    {
      UtInWords(Values(), controllerListener, message);
      EachHearsAll(eventListeners, UtReports(Values(), message));
      hide EachHears, Shaped, AllNotices, SignalCalls, Telemetry, MakeVideoResolution, Signed, SignalStatusOf,
           PropertyOf;
      NoNotices(eventListeners);
      notices, calls := [], [];
      ActStaysShaped(capabilities, Values(), Ut(message));
      match message
      case ConnectionStatus(connected) =>
        if connected.Some? {
          calls := SetConnected(connected.value);
        }
      case SignalReport(token) =>
        if token.Some? {
          notices, calls := ReportSignal(token.value);
        }
      case VideoMode(width, height, interlaced, frameRate) =>
        if width.Some? && height.Some? && frameRate.Some? {
          calls := SetVideoMode(width.value, height.value, interlaced == Some(true), frameRate.value);
        }
      case ClearVideoMode =>
        cachedStatus := cachedStatus.(detectedResolution := None);
      case SetProperty(key, intValue, longValue) =>
        if key.Some? && (intValue.Some? || longValue.Some?) {
          notices := StoreUtValue(key.value, intValue, longValue);
        }
      case Unsupported =>
    }

    method SetConnected(connected: bool) returns (calls: seq<ControllerCall>)
      modifies `cachedStatus
      ensures Values() == UtApplied(old(Values()), ConnectionStatus(Some(connected)))
      ensures calls == UtCalls(old(Values()), controllerListener, ConnectionStatus(Some(connected)))
    {
      var connectionChanged := cachedStatus.connected != connected;
      cachedStatus := cachedStatus.(connected := connected);
      if !connected {
        cachedStatus := cachedStatus.(detectedResolution := None);
      }
      calls := [];
      if connectionChanged && controllerListener.Some? {
        calls := [ConnectionChanged(controllerListener.value, connected)];
      }
    }

    method StoreUtValue(key: string, intValue: Option<nat>, longValue: Option<nat>) returns (notices: seq<Notice>)
      requires intValue.Some? || longValue.Some?
      modifies `cachedProperties
      ensures Values() == UtApplied(old(Values()), UtMessage.SetProperty(Some(key), intValue, longValue))
      ensures notices ==
                AllNotices(eventListeners,
                           UtReports(old(Values()), UtMessage.SetProperty(Some(key), intValue, longValue)))
    {
      notices := [];
      var property := FromString(PORT_PROPERTY_TOKENS, key);
      if property.Some? {
        var value := if longValue.Some? then LongValue(Signed(longValue.value, TWO64))
                     else IntValue(Signed(intValue.value, TWO32));
        cachedProperties := cachedProperties[property.value := value];
        FewNotices(eventListeners, KVPair(property.value, value), KVPair(property.value, value));
        notices := Notices(eventListeners, KVPair(property.value, value));
      }
    }

    method ReportSignal(token: string) returns (notices: seq<Notice>, calls: seq<ControllerCall>)
      modifies `cachedStatus, `cachedProperties
      ensures Values() == UtApplied(old(Values()), SignalReport(Some(token)))
      ensures notices == AllNotices(eventListeners, UtReports(old(Values()), SignalReport(Some(token))))
      ensures calls == UtCalls(old(Values()), controllerListener, SignalReport(Some(token)))
    {
      notices, calls := [], [];
      var signal := FromString(SIGNAL_STATUS_TOKENS, token);
      if signal.Some? {
        cachedStatus := cachedStatus.(signalStatus := signal.value);
        if signal.value != Stable {
          cachedStatus := cachedStatus.(detectedResolution := None);
        }
        RefreshTelemetry(signal.value);
        if state.Starting? || state.Started? {
          var strength := KVPair(SignalStrength, LongValue(StrengthFor(signal.value)));
          var quality := KVPair(SignalQuality, IntValue(QualityFor(signal.value)));
          FewNotices(eventListeners, strength, quality);
          notices := Notices(eventListeners, strength) + Notices(eventListeners, quality);
        }
        if controllerListener.Some? {
          calls := [SignalStatusChanged(controllerListener.value, signal.value)];
        }
      }
    }

    method SetVideoMode(width: nat, height: nat, interlaced: bool, frameRate: real) returns (calls: seq<ControllerCall>)
      modifies `cachedStatus, `cachedProperties
      ensures Values() ==
                UtApplied(old(Values()), VideoMode(Some(width), Some(height), Some(interlaced), Some(frameRate)))
      ensures calls ==
                UtCalls(old(Values()), controllerListener,
                        VideoMode(Some(width), Some(height), Some(interlaced), Some(frameRate)))
    {
      calls := [];
      var resolution := MakeVideoResolution(Signed(width, TWO32), Signed(height, TWO32), interlaced, frameRate);
      if resolution.Some? {
        cachedStatus := cachedStatus.(detectedResolution := resolution, signalStatus := Stable);
        RefreshTelemetry(Stable);
        if controllerListener.Some? {
          calls := [VideoModeChanged(controllerListener.value, resolution.value)];
        }
      }
    }

    method RefreshTelemetry(signal: SignalStatus)
      modifies `cachedProperties
      ensures cachedProperties == Telemetry(old(Values()), signal)
    {
      if state.Starting? || state.Started? {
        cachedProperties := cachedProperties[SignalStrength := LongValue(StrengthFor(signal))];
        cachedProperties := cachedProperties[SignalQuality := IntValue(QualityFor(signal))];
      }
    }
  }
}
