/**
 The property cache and the cached status of a port, as values: what each locked region does
 to them, and what no sequence of regions can break.
*/
module Properties {
  import opened Common
  import opened Lifecycle
  import opened Tokens

  /** An AIDL PropertyValue; `NullValue` carries no payload. */
  datatype PropertyValue =
    | NullValue
    | BooleanValue(b: bool)
    | IntValue(i: int)
    | LongValue(l: int)
    | FloatValue(f: real)
    | DoubleValue(d: real)
    | StringValue(s: string)

  datatype PropertyMetadata = PropertyMetadata(
    key: PortProperty, kind: PropertyType, readOnly: bool, isMetric: bool, description: string)

  datatype PortCapabilities = PortCapabilities(
    supportedProperties: seq<PortProperty>,
    propertyMetadata: Option<seq<Option<PropertyMetadata>>>)

  datatype VideoResolution = VideoResolution(
    pixelWidth: int, pixelHeight: int, interlaced: bool, frameRateInHz: real)

  datatype PortStatus = PortStatus(
    portId: int, connected: bool, active: bool, signalStatus: SignalStatus,
    detectedResolution: Option<VideoResolution>)

  datatype Status = Okay | BadState | IllegalArgument | UnsupportedOperation

  datatype KVPair = KVPair(property: PortProperty, value: PropertyValue)

  /** One callback to the listener of the session's controller. */
  datatype ControllerCall =
    | ConnectionChanged(listener: nat, connected: bool)
    | SignalStatusChanged(listener: nat, signalStatus: SignalStatus)
    | VideoModeChanged(listener: nat, mode: VideoResolution)

  type Cache = map<PortProperty, PropertyValue>

  const SIGNALS: set<PortProperty> := {SignalStrength, SignalQuality}

  /** The session-scoped metrics, in the order resetSessionStateLocked() visits them. */
  const SESSION_METRICS: seq<PortProperty> := [
    MetricSignalLockTime, MetricSignalDrops, MetricUptime, MetricSignalLockCount,
    MetricLastSignalLockTime, MetricLastResetTimestamp
  ]

  const VALID: set<PortProperty> := {
    SignalStrength, SignalQuality, MetricSignalLockTime, MetricSignalDrops, MetricUptime,
    MetricSignalLockCount, MetricLastSignalLockTime, MetricLastResetTimestamp
  }

  predicate IsValidPortProperty(p: PortProperty) {
    !p.Unrecognised?
  }

  // ----- what a controller may write

  /** The first metadata entry for a property. */
  function EntryFor(metadata: seq<Option<PropertyMetadata>>, p: PortProperty): Option<PropertyMetadata> {
    if metadata == [] then None
    else if metadata[0].Some? && metadata[0].value.key == p then metadata[0]
    else EntryFor(metadata[1..], p)
  }

  lemma {:induction false} EntryAtFirst(metadata: seq<Option<PropertyMetadata>>, p: PortProperty, i: nat)
    requires i <= |metadata|
    requires forall j :: 0 <= j < i ==> metadata[j].Some? ==> metadata[j].value.key != p
    requires i < |metadata| ==> metadata[i].Some? && metadata[i].value.key == p
    ensures EntryFor(metadata, p) == if i < |metadata| then metadata[i] else None
  {
    if i > 0 { EntryAtFirst(metadata[1..], p, i - 1); }
  }

  function Declared(caps: PortCapabilities, p: PortProperty): Option<PropertyMetadata> {
    if caps.propertyMetadata.None? then None else EntryFor(caps.propertyMetadata.value, p)
  }

  predicate Fits(kind: PropertyType, value: PropertyValue) {
    match kind
    case BooleanType => value.BooleanValue?
    case IntegerType => value.IntValue?
    case LongType => value.LongValue?
    case FloatType => value.FloatValue?
    case DoubleType => value.DoubleValue?
    case StringType => value.StringValue?
  }

  predicate Writable(caps: PortCapabilities, p: PortProperty) {
    Declared(caps, p).Some? && !Declared(caps, p).value.readOnly
  }

  predicate TypeValid(caps: PortCapabilities, p: PortProperty, value: PropertyValue) {
    Declared(caps, p).Some? && Fits(Declared(caps, p).value.kind, value)
  }

  /** What setProperty() answers. */
  function Check(caps: PortCapabilities, kv: KVPair): Status {
    if !IsValidPortProperty(kv.property) || kv.property !in caps.supportedProperties then IllegalArgument
    else if !Writable(caps, kv.property) then UnsupportedOperation
    else if !TypeValid(caps, kv.property, kv.value) then IllegalArgument
    else Okay
  }

  /** setProperty() on the cache. */
  function SetOne(caps: PortCapabilities, cache: Cache, kv: KVPair): (Status, Cache) {
    if Check(caps, kv).Okay? then (Okay, cache[kv.property := kv.value]) else (Check(caps, kv), cache)
  }

  /** One setProperty() after the other, up to the first that fails. */
  function SetInTurn(caps: PortCapabilities, cache: Cache, kvs: seq<KVPair>): (Status, Cache)
    decreases |kvs|
  {
    if kvs == [] then (Okay, cache)
    else
      var (status, after) := SetOne(caps, cache, kvs[0]);
      if status.Okay? then SetInTurn(caps, after, kvs[1..]) else (status, after)
  }

  /** setPropertyMulti(): all of them in turn, or nothing and the status of the first that fails. */
  function SetAll(caps: PortCapabilities, cache: Cache, kvs: seq<KVPair>): (Status, Cache) {
    if kvs == [] then (IllegalArgument, cache)
    else
      var (status, after) := SetInTurn(caps, cache, kvs);
      (status, if status.Okay? then after else cache)
  }

  function WriteAll(cache: Cache, kvs: seq<KVPair>): Cache {
    if kvs == [] then cache
    else
      var last := kvs[|kvs|-1];
      WriteAll(cache, kvs[..|kvs|-1])[last.property := last.value]
  }

  /** Validating everything first and writing afterwards, as the code does, is the same. */
  lemma {:induction false} ValidateThenWrite(caps: PortCapabilities, cache: Cache, kvs: seq<KVPair>, n: nat)
    requires n <= |kvs| && forall i :: 0 <= i < n ==> Check(caps, kvs[i]).Okay?
    ensures n == |kvs| ==> SetInTurn(caps, cache, kvs) == (Okay, WriteAll(cache, kvs))
    ensures n < |kvs| && !Check(caps, kvs[n]).Okay? ==>
              SetInTurn(caps, cache, kvs) == (Check(caps, kvs[n]), WriteAll(cache, kvs[..n]))
    decreases |kvs|
  {
    if n > 0 {
      var first := kvs[0];
      ValidateThenWrite(caps, cache[first.property := first.value], kvs[1..], n - 1);
      WriteFront(cache, kvs);
      if n < |kvs| {
        WriteFront(cache, kvs[..n]);
        assert kvs[..n][1..] == kvs[1..][..n - 1];
      }
    }
  }

  lemma {:induction false} WriteFront(cache: Cache, kvs: seq<KVPair>)
    requires kvs != []
    ensures WriteAll(cache, kvs) == WriteAll(cache[kvs[0].property := kvs[0].value], kvs[1..])
  {
    var front := kvs[..|kvs|-1];
    if front != [] {
      WriteFront(cache, front);
      assert front[1..] == kvs[1..][..|kvs|-2];
    }
  }

  /** Properties not written keep their value. */
  lemma {:induction false} UnwrittenIsKept(cache: Cache, kvs: seq<KVPair>, p: PortProperty)
    requires forall i :: 0 <= i < |kvs| ==> kvs[i].property != p
    ensures p in WriteAll(cache, kvs) <==> p in cache
    ensures p in cache ==> WriteAll(cache, kvs)[p] == cache[p]
  {
    if kvs != [] {
      UnwrittenIsKept(cache, kvs[..|kvs|-1], p);
    }
  }

  /** The last write to a property wins. */
  lemma {:induction false} LastWriteWins(cache: Cache, kvs: seq<KVPair>, i: nat)
    requires i < |kvs| && forall j :: i < j < |kvs| ==> kvs[j].property != kvs[i].property
    ensures kvs[i].property in WriteAll(cache, kvs)
    ensures WriteAll(cache, kvs)[kvs[i].property] == kvs[i].value
  {
    if i < |kvs| - 1 {
      LastWriteWins(cache, kvs[..|kvs|-1], i);
    }
  }

  /** A batch succeeds exactly when every element would succeed alone. */
  lemma {:induction false} BatchSucceedsIffEachDoes(caps: PortCapabilities, cache: Cache, kvs: seq<KVPair>)
    requires kvs != []
    ensures SetAll(caps, cache, kvs).0.Okay? <==> forall i :: 0 <= i < |kvs| ==> SetOne(caps, cache, kvs[i]).0.Okay?
    ensures SetAll(caps, cache, kvs).0.Okay? ==> SetAll(caps, cache, kvs).1 == WriteAll(cache, kvs)
    ensures !SetAll(caps, cache, kvs).0.Okay? ==>
              && SetAll(caps, cache, kvs).1 == cache
              && exists i :: 0 <= i < |kvs| && SetAll(caps, cache, kvs).0 == Check(caps, kvs[i]) &&
                             forall j :: 0 <= j < i ==> Check(caps, kvs[j]).Okay?
  {
    var n := FirstFailure(caps, kvs);
    ValidateThenWrite(caps, cache, kvs, n);
  }

  lemma {:induction false} FirstFailure(caps: PortCapabilities, kvs: seq<KVPair>) returns (n: nat)
    ensures n <= |kvs| && (forall i :: 0 <= i < n ==> Check(caps, kvs[i]).Okay?)
    ensures n < |kvs| ==> !Check(caps, kvs[n]).Okay?
  {
    n := 0;
    while n < |kvs| && Check(caps, kvs[n]).Okay?
      invariant n <= |kvs| && forall i :: 0 <= i < n ==> Check(caps, kvs[i]).Okay?
    {
      n := n + 1;
    }
  }

  // ----- what clients read

  function Baseline(p: PortProperty): PropertyValue {
    if p.SignalStrength? then LongValue(0) else IntValue(0)
  }

  /** getProperty() of a valid property; None is the absent optional. */
  function Read(caps: PortCapabilities, d: Data, p: PortProperty): Option<PropertyValue> {
    if p in SIGNALS && !d.state.Starting? && !d.state.Started? then Some(Baseline(p))
    else if p in caps.supportedProperties && p in d.cache then Some(d.cache[p])
    else None
  }

  /** getStatus(). */
  function StatusView(d: Data): PortStatus {
    if d.state.Starting? || d.state.Started? then d.status
    else d.status.(connected := false, signalStatus := NoSignal, detectedResolution := None, active := false)
  }

  // ----- the data of a port and its regions

  /** State, status snapshot, cache, and the metric accumulators. */
  datatype Data = Data(state: State, status: PortStatus, cache: Cache, counters: Counters)

  datatype Counters = Counters(
    startTs: int, lastResetTs: int, lockTime: int, lastLockTime: int, drops: int, lockCount: int)

  /** A decoded UT control-plane message; an absent parameter is None. */
  datatype UtMessage =
    | ConnectionStatus(connected: Option<bool>)
    | SignalReport(token: Option<string>)
    | VideoMode(width: Option<nat>, height: Option<nat>, interlaced: Option<bool>, frameRate: Option<real>)
    | ClearVideoMode
    | SetProperty(key: Option<string>, intValue: Option<nat>, longValue: Option<nat>)
    | Unsupported

  function NewData(portId: int): Data {
    Data(Closed,
         PortStatus(portId, false, false, NoSignal, None),
         map[SignalStrength := LongValue(0), SignalQuality := IntValue(0),
             MetricSignalLockTime := LongValue(0), MetricSignalDrops := LongValue(0),
             MetricUptime := LongValue(0), MetricSignalLockCount := LongValue(0),
             MetricLastSignalLockTime := LongValue(0), MetricLastResetTimestamp := LongValue(0)],
         Counters(0, 0, 0, 0, 0, 0))
  }

  /** setStateLocked(). */
  function Entered(d: Data, s: State): Data {
    d.(state := s, status := d.status.(active := s.Started?))
  }

  function Zeroed(v: PropertyValue): PropertyValue {
    match v
    case IntValue(_) => IntValue(0)
    case LongValue(_) => LongValue(0)
    case _ => v
  }

  function ZeroMetrics(cache: Cache, metrics: seq<PortProperty>): Cache {
    map p | p in cache :: if p in metrics then Zeroed(cache[p]) else cache[p]
  }

  /** resetSessionStateLocked(). */
  function SessionReset(d: Data): Data {
    d.(counters := Counters(0, 0, 0, 0, 0, 0), cache := ZeroMetrics(d.cache, SESSION_METRICS))
  }

  /** One turn of its loop. */
  lemma ZeroOneMore(cache: Cache, metrics: seq<PortProperty>, m: PortProperty)
    ensures var before, after := ZeroMetrics(cache, metrics), ZeroMetrics(cache, metrics + [m]);
            after == if m in before then before[m := Zeroed(before[m])] else before
  {
  }

  /** What every path into Closed does. */
  function SessionEnded(d: Data): Data {
    SessionReset(Entered(d, Closed))
  }

  function StrengthFor(s: SignalStatus): int {
    match s
    case Stable => -20
    case Unstable => -50
    case _ => 0
  }

  function QualityFor(s: SignalStatus): int {
    match s
    case Stable => 85
    case Unstable => 20
    case NotSupported => 5
    case NoSignal => 0
  }

  /** The telemetry derived from a signal status, refreshed only while a session is active. */
  function Telemetry(d: Data, s: SignalStatus): Cache {
    if d.state.Starting? || d.state.Started?
    then d.cache[SignalStrength := LongValue(StrengthFor(s))][SignalQuality := IntValue(QualityFor(s))]
    else d.cache
  }

  /** static_cast<int32_t> of an uint32 field, and static_cast<int64_t> of an uint64 field. */
  function Signed(value: nat, modulus: nat): int
    requires modulus > 0
  {
    var v := value % modulus;
    if v < modulus / 2 then v else v - modulus
  }

  const TWO32: nat := 0x1_0000_0000
  const TWO64: nat := 0x1_0000_0000_0000_0000

  function MakeVideoResolution(width: int, height: int, interlaced: bool, rate: real): Option<VideoResolution> {
    if width <= 0 || height <= 0 || rate <= 0.0 then None
    else Some(VideoResolution(width, height, interlaced, rate))
  }

  /** The value a SET_PROPERTY message carries: the long field wins. */
  function UtValue(intValue: Option<nat>, longValue: Option<nat>): Option<PropertyValue> {
    if longValue.Some? then Some(LongValue(Signed(longValue.value, TWO64)))
    else if intValue.Some? then Some(IntValue(Signed(intValue.value, TWO32)))
    else None
  }

  /** handleUTControlPlaneMessage(): an incomplete or invalid message changes nothing. */
  function UtApplied(d: Data, m: UtMessage): Data {
    match m
    case ConnectionStatus(connected) =>
      if connected.None? then d
      else d.(status := d.status.(connected := connected.value,
                detectedResolution := if connected.value then d.status.detectedResolution else None))
    case SignalReport(token) =>
      if token.None? || SignalStatusOf(token.value).None? then d
      else
        var s := SignalStatusOf(token.value).value;
        d.(cache := Telemetry(d, s),
           status := d.status.(signalStatus := s,
             detectedResolution := if s.Stable? then d.status.detectedResolution else None))
    case VideoMode(width, height, interlaced, frameRate) =>
      if width.None? || height.None? || frameRate.None? then d
      else
        var r := MakeVideoResolution(Signed(width.value, TWO32), Signed(height.value, TWO32),
                                     interlaced == Some(true), frameRate.value);
        if r.None? then d
        else
          d.(cache := Telemetry(d, Stable),
             status := d.status.(signalStatus := Stable, detectedResolution := r))
    case ClearVideoMode => d.(status := d.status.(detectedResolution := None))
    case SetProperty(key, intValue, longValue) =>
      var v := UtValue(intValue, longValue);
      if key.None? || v.None? || PropertyOf(key.value).None? then d
      else d.(cache := d.cache[PropertyOf(key.value).value := v.value])
    case Unsupported => d
  }

  /** The property events that end start(): the telemetry in the cache, or zeroes. */
  function StartReports(cache: Cache): seq<KVPair> {
    [KVPair(SignalStrength, if SignalStrength in cache then cache[SignalStrength] else LongValue(0)),
     KVPair(SignalQuality, if SignalQuality in cache then cache[SignalQuality] else IntValue(0))]
  }

  /** The property events of a UT message, in order. */
  function UtReports(d: Data, m: UtMessage): seq<KVPair> {
    match m
    case SignalReport(token) =>
      if token.None? || SignalStatusOf(token.value).None? || !(d.state.Starting? || d.state.Started?) then []
      else
        var s := SignalStatusOf(token.value).value;
        [KVPair(SignalStrength, LongValue(StrengthFor(s))), KVPair(SignalQuality, IntValue(QualityFor(s)))]
    case SetProperty(key, intValue, longValue) =>
      var v := UtValue(intValue, longValue);
      if key.None? || v.None? || PropertyOf(key.value).None? then []
      else [KVPair(PropertyOf(key.value).value, v.value)]
    case _ => []
  }

  function SignalCalls(listener: Option<nat>, s: SignalStatus): seq<ControllerCall> {
    if listener.Some? then [SignalStatusChanged(listener.value, s)] else []
  }

  /** What a UT message tells the controller's listener, if there is one. */
  function UtCalls(d: Data, listener: Option<nat>, m: UtMessage): seq<ControllerCall> {
    match m
    case ConnectionStatus(connected) =>
      if listener.None? || connected.None? || connected.value == d.status.connected then []
      else [ConnectionChanged(listener.value, connected.value)]
    case SignalReport(token) =>
      if token.None? || SignalStatusOf(token.value).None? then []
      else SignalCalls(listener, SignalStatusOf(token.value).value)
    case VideoMode(width, height, interlaced, frameRate) =>
      if listener.None? || width.None? || height.None? || frameRate.None? then []
      else
        var r := MakeVideoResolution(Signed(width.value, TWO32), Signed(height.value, TWO32),
                                     interlaced == Some(true), frameRate.value);
        if r.None? then [] else [VideoModeChanged(listener.value, r.value)]
    case _ => []
  }

  /**
   The controller is told what the status then says. Told the same again, it hears of a signal
   or a video mode again, but never of a connection that has not changed.
  */
  lemma ControllerHearsTheStatus(d: Data, listener: Option<nat>, m: UtMessage)
    ensures var e := UtApplied(d, m);
            && (forall c <- UtCalls(d, listener, m) ::
                  && Some(c.listener) == listener
                  && match c
                     case ConnectionChanged(_, connected) => e.status.connected == connected != d.status.connected
                     case SignalStatusChanged(_, s) => e.status.signalStatus == s
                     case VideoModeChanged(_, r) => e.status.detectedResolution == Some(r))
            && (listener.Some? && e.status.connected != d.status.connected ==> |UtCalls(d, listener, m)| == 1)
            && UtCalls(e, listener, m) == if m.ConnectionStatus? then [] else UtCalls(d, listener, m)
  {
    hide Telemetry, Signed, SignalStatusOf;
  }

  lemma WriteOne(cache: Cache, kv: KVPair)
    ensures WriteAll(cache, [kv]) == cache[kv.property := kv.value]
  {
    assert [kv][..0] == [];
  }

  lemma WriteMore(cache: Cache, kvs: seq<KVPair>, kv: KVPair)
    ensures WriteAll(cache, kvs + [kv]) == WriteAll(cache, kvs)[kv.property := kv.value]
  {
    assert (kvs + [kv])[..|kvs|] == kvs;
  }

  /** A complete and valid video mode on a running port whose telemetry is not yet that of a stable signal. */
  predicate RefreshesSilently(d: Data, m: UtMessage) {
    && m.VideoMode? && m.width.Some? && m.height.Some? && m.frameRate.Some?
    && MakeVideoResolution(Signed(m.width.value, TWO32), Signed(m.height.value, TWO32),
                           m.interlaced == Some(true), m.frameRate.value).Some?
    && (d.state.Starting? || d.state.Started?)
    && !(SignalStrength in d.cache && d.cache[SignalStrength] == LongValue(-20) &&
         SignalQuality in d.cache && d.cache[SignalQuality] == IntValue(85))
  }

  /**
   A UT message writes to the cache exactly what it reports to observers, in that order, if and
   only if it is not a video mode that changes the telemetry of a running port.
  */
  lemma UtWritesWhatItReports(d: Data, m: UtMessage)
    ensures UtApplied(d, m).cache == WriteAll(d.cache, UtReports(d, m)) <==> !RefreshesSilently(d, m)
  {
    hide WriteAll, Trimmed, Find;
    WriteNothing(d.cache);
    var reports := UtReports(d, m);
    if |reports| == 1 {
      WriteOne(d.cache, reports[0]);
    } else if |reports| == 2 {
      WriteOne(d.cache, reports[0]);
      WriteMore(d.cache, [reports[0]], reports[1]);
      assert [reports[0]] + [reports[1]] == reports;
    } else if d.state.Starting? || d.state.Started? {
      StableAlready(d);
    }
  }

  lemma StableAlready(d: Data)
    requires d.state.Starting? || d.state.Started?
    ensures Telemetry(d, Stable) == d.cache <==>
              && SignalStrength in d.cache && d.cache[SignalStrength] == LongValue(-20)
              && SignalQuality in d.cache && d.cache[SignalQuality] == IntValue(85)
  {
    assert SignalStrength in Telemetry(d, Stable) && SignalQuality in Telemetry(d, Stable);
  }

  /** A started port without a signal that is told its video mode: new telemetry, and no property event. */
  lemma AVideoModeCanBeSilent()
    ensures var d := Entered(NewData(0), Started);
            var m := VideoMode(Some(720), Some(576), Some(true), Some(50.0));
            && UtReports(d, m) == []
            && d.cache[SignalStrength] == LongValue(0)
            && UtApplied(d, m).cache[SignalStrength] == LongValue(-20)
  {
  }

  lemma WriteNothing(cache: Cache)
    ensures WriteAll(cache, []) == cache
  {
  }

  /** The property events of resetMetrics(), in order. */
  function ResetReports(wall: int): seq<KVPair> {
    [KVPair(MetricSignalDrops, LongValue(0)), KVPair(MetricSignalLockCount, LongValue(0)),
     KVPair(MetricSignalLockTime, LongValue(0)), KVPair(MetricLastSignalLockTime, LongValue(0)),
     KVPair(MetricUptime, LongValue(0)), KVPair(MetricLastResetTimestamp, LongValue(wall))]
  }

  /** A metric reset writes to the cache exactly what it reports. */
  lemma ResetWritesWhatItReports(d: Data, now: int, wall: int)
    ensures MetricsReset(d, now, wall).1.cache ==
              if d.state.Started? then WriteAll(d.cache, ResetReports(wall)) else d.cache
  {
    hide WriteAll;
    var r := ResetReports(wall);
    WriteOne(d.cache, r[0]);
    WriteMore(d.cache, r[..1], r[1]);
    WriteMore(d.cache, r[..2], r[2]);
    WriteMore(d.cache, r[..3], r[3]);
    WriteMore(d.cache, r[..4], r[4]);
    WriteMore(d.cache, r[..5], r[5]);
    assert [r[0]] == r[..1] && r[..1] + [r[1]] == r[..2] && r[..2] + [r[2]] == r[..3] && r[..3] + [r[3]] == r[..4]
        && r[..4] + [r[4]] == r[..5] && r[..5] + [r[5]] == r;
  }

  /** resetMetrics(): rejected outside Started. */
  function MetricsReset(d: Data, now: int, wall: int): (Status, Data) {
    if !d.state.Started? then (BadState, d)
    else
      (Okay,
       d.(counters := Counters(now, now, 0, 0, 0, 0),
          cache := d.cache[MetricSignalDrops := LongValue(0)][MetricSignalLockCount := LongValue(0)]
                          [MetricSignalLockTime := LongValue(0)][MetricLastSignalLockTime := LongValue(0)]
                          [MetricUptime := LongValue(0)][MetricLastResetTimestamp := LongValue(wall)]))
  }

  /** resetHardwareBaselineForBoot(). */
  function Booted(caps: PortCapabilities, d: Data): Data {
    var c1 := if SignalStrength in caps.supportedProperties then d.cache[SignalStrength := LongValue(0)] else d.cache;
    var c2 := if SignalQuality in caps.supportedProperties then c1[SignalQuality := IntValue(0)] else c1;
    d.(cache := c2, status := d.status.(connected := false, signalStatus := NoSignal, detectedResolution := None))
  }

  /** A region of the port that touches its data. */
  datatype Action =
    | Enter(next: State)
    | EndSession
    | Boot
    | StampStart(now: int)
    | Write(kv: KVPair)
    | WriteBatch(kvs: seq<KVPair>)
    | ResetMetrics(now: int, wall: int)
    | Ut(message: UtMessage)

  function Act(caps: PortCapabilities, d: Data, a: Action): Data {
    match a
    case Enter(next) => Entered(d, next)
    case EndSession => SessionEnded(d)
    case Boot => Booted(caps, d)
    case StampStart(now) => d.(counters := d.counters.(startTs := now))
    case Write(kv) => d.(cache := SetOne(caps, d.cache, kv).1)
    case WriteBatch(kvs) => d.(cache := SetAll(caps, d.cache, kvs).1)
    case ResetMetrics(now, wall) => MetricsReset(d, now, wall).1
    case Ut(message) => UtApplied(d, message)
  }

  function ActAll(caps: PortCapabilities, d: Data, actions: seq<Action>): Data {
    if actions == [] then d else Act(caps, ActAll(caps, d, actions[..|actions|-1]), actions[|actions|-1])
  }

  // ----- what holds after any sequence of regions

  ghost predicate Shaped(d: Data) {
    && d.cache.Keys == VALID
    && (d.status.detectedResolution.Some? ==>
          d.status.signalStatus.Stable? && d.status.detectedResolution.value.pixelWidth > 0 &&
          d.status.detectedResolution.value.pixelHeight > 0 && d.status.detectedResolution.value.frameRateInHz > 0.0)
    && (d.status.active <==> d.state.Started?)
  }

  lemma {:induction false} WritesStayValid(caps: PortCapabilities, cache: Cache, kvs: seq<KVPair>)
    requires cache.Keys == VALID
    ensures SetInTurn(caps, cache, kvs).1.Keys == VALID
    decreases |kvs|
  {
    if kvs != [] {
      WritesStayValid(caps, SetOne(caps, cache, kvs[0]).1, kvs[1..]);
    }
  }

  lemma ActStaysShaped(caps: PortCapabilities, d: Data, a: Action)
    requires Shaped(d)
    ensures Shaped(Act(caps, d, a))
  {
    match a
    case WriteBatch(kvs) => WritesStayValid(caps, d.cache, kvs);
    case Ut(m) =>
      if m.SetProperty? && m.key.Some? && PropertyOf(m.key.value).Some? {
        SamePropertySameWord(m.key.value, m.key.value);
      }
    case _ =>
  }

  lemma LifecycleStaysShaped(d: Data, s: State)
    requires Shaped(d)
    ensures Shaped(Entered(d, s)) && Shaped(SessionEnded(d))
    ensures Entered(d, d.state) == d && Entered(d, s).cache == d.cache
    ensures SessionEnded(Entered(d, s)) == SessionEnded(d)
    ensures forall t :: Entered(Entered(d, s), t) == Entered(d, t)
  {
  }

  lemma StampStaysShaped(d: Data, s: State, now: int)
    requires Shaped(d)
    ensures var e := d.(counters := d.counters.(startTs := now));
            && Shaped(e) && Entered(d, s).(counters := e.counters) == Entered(e, s)
            && Entered(d, s).counters == d.counters
  {
  }

  /**
   Whatever clients, the control plane and the lifecycle do: the cache has exactly the eight
   properties, a detected resolution is positive and implies a stable signal, and the port is
   active exactly when it is started.
  */
  lemma {:induction false} AlwaysShaped(caps: PortCapabilities, portId: int, actions: seq<Action>)
    ensures Shaped(ActAll(caps, NewData(portId), actions))
  {
    if actions != [] {
      AlwaysShaped(caps, portId, actions[..|actions|-1]);
      ActStaysShaped(caps, ActAll(caps, NewData(portId), actions[..|actions|-1]), actions[|actions|-1]);
    }
  }

  /** The value type a property is constructed with. */
  function NativeType(p: PortProperty): PropertyType {
    if p.SignalQuality? then IntegerType else LongType
  }

  ghost predicate Typed(cache: Cache) {
    forall p <- cache :: Fits(NativeType(p), cache[p])
  }

  /** Every declared type is the one the port constructs the property with. */
  ghost predicate DeclaresNativeTypes(caps: PortCapabilities) {
    forall p: PortProperty :: Declared(caps, p).Some? ==> Declared(caps, p).value.kind == NativeType(p)
  }

  lemma {:induction false} WritesStayTyped(caps: PortCapabilities, cache: Cache, kvs: seq<KVPair>)
    requires DeclaresNativeTypes(caps) && Typed(cache)
    ensures Typed(SetInTurn(caps, cache, kvs).1)
    decreases |kvs|
  {
    if kvs != [] {
      WritesStayTyped(caps, SetOne(caps, cache, kvs[0]).1, kvs[1..]);
    }
  }

  /** A SET_PROPERTY message that is applied carries a value of the property's own type. */
  predicate Native(m: UtMessage) {
    m.SetProperty? && m.key.Some? && PropertyOf(m.key.value).Some? && UtValue(m.intValue, m.longValue).Some? ==>
      Fits(NativeType(PropertyOf(m.key.value).value), UtValue(m.intValue, m.longValue).value)
  }

  /** A UT message keeps the types of the cache exactly when it is native. */
  lemma UtKeepsTypesIffNative(d: Data, m: UtMessage)
    requires Typed(d.cache)
    ensures Typed(UtApplied(d, m).cache) <==> Native(m)
  {
    hide Trimmed, Find;
    if !Native(m) {
      assert PropertyOf(m.key.value).value in UtApplied(d, m).cache;
    }
  }

  lemma ActStaysTyped(caps: PortCapabilities, d: Data, a: Action)
    requires DeclaresNativeTypes(caps) && Typed(d.cache)
    requires a.Ut? ==> Native(a.message)
    ensures Typed(Act(caps, d, a).cache)
  {
    match a
    case WriteBatch(kvs) => WritesStayTyped(caps, d.cache, kvs);
    case Ut(m) => UtKeepsTypesIffNative(d, m);
    case _ =>
  }

  /** While UT messages are native, every value keeps the type it was constructed with. */
  lemma {:induction false} AlwaysTyped(caps: PortCapabilities, portId: int, actions: seq<Action>)
    requires DeclaresNativeTypes(caps)
    requires forall i :: 0 <= i < |actions| && actions[i].Ut? ==> Native(actions[i].message)
    ensures Typed(ActAll(caps, NewData(portId), actions).cache)
  {
    if actions != [] {
      AlwaysTyped(caps, portId, actions[..|actions|-1]);
      ActStaysTyped(caps, ActAll(caps, NewData(portId), actions[..|actions|-1]), actions[|actions|-1]);
    }
  }

  /** What the end of a session leaves of well-shaped data. */
  ghost predicate EndsClean(d: Data, e: Data) {
    && e.cache.Keys == d.cache.Keys
    && (forall p <- SESSION_METRICS :: p in e.cache && p in d.cache &&
          match d.cache[p]
          case IntValue(_) => e.cache[p] == IntValue(0)
          case LongValue(_) => e.cache[p] == LongValue(0)
          case v => e.cache[p] == v)
    && (forall p <- SIGNALS :: p in e.cache && p in d.cache && e.cache[p] == d.cache[p])
    && e.status == d.status.(active := false) && e.state.Closed?
    && StatusView(e) == PortStatus(e.status.portId, false, false, NoSignal, None)
  }

  lemma EndIsClean(d: Data)
    requires Shaped(d)
    ensures EndsClean(d, SessionEnded(d))
  {
    MetricsAreZeroed(d.cache);
    hide ZeroMetrics, Zeroed;
  }

  lemma MetricsAreZeroed(cache: Cache)
    ensures var after := ZeroMetrics(cache, SESSION_METRICS);
            && after.Keys == cache.Keys
            && (forall p <- SESSION_METRICS :: p in cache ==>
                  match cache[p]
                  case IntValue(_) => after[p] == IntValue(0)
                  case LongValue(_) => after[p] == LongValue(0)
                  case v => after[p] == v)
            && (forall p <- SIGNALS :: p in cache ==> after[p] == cache[p])
  {
  }

  /** The end of a session zeroes the numeric session metrics and leaves the hardware snapshot alone. */
  lemma SessionEndResets(caps: PortCapabilities, portId: int, actions: seq<Action>)
    ensures var d := ActAll(caps, NewData(portId), actions); EndsClean(d, Act(caps, d, EndSession))
  {
    hide EndsClean, Shaped, ActAll, NewData;
    AlwaysShaped(caps, portId, actions);
    EndIsClean(ActAll(caps, NewData(portId), actions));
  }
}
