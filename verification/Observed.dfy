/**
 What the regions of a port do and what clients, observers and the controller get from it, in
 plain values: each lemma says of one specification function what it means, without the others.
*/
module Observed {
  import opened Common
  import opened Lifecycle
  import opened Tokens
  import opened Properties

  predicate Running(s: State) {
    s == Starting || s == Started
  }

  // ----- the regions

  lemma NewPortHoldsZeroes(portId: int)
    ensures var d := NewData(portId);
            && d.state == Closed && d.status == PortStatus(portId, false, false, NoSignal, None)
            && d.counters == Counters(0, 0, 0, 0, 0, 0)
            && (forall p: PortProperty :: p in d.cache <==> !p.Unrecognised?)
            && (forall p <- d.cache :: d.cache[p] == if p == SignalQuality then IntValue(0) else LongValue(0))
  {
  }

  /** A transition sets the state and `active`, and nothing else. */
  lemma EnteringKeepsTheRest(d: Data, s: State)
    ensures Entered(d, s) == Data(s, d.status.(active := s == Started), d.cache, d.counters)
  {
  }

  /** The end of a session zeroes the integers among the session metrics and leaves every other value. */
  lemma SessionEndInWords(d: Data)
    ensures var e := SessionEnded(d);
            && e.state == Closed && e.status == d.status.(active := false)
            && e.counters == Counters(0, 0, 0, 0, 0, 0) && e.cache.Keys == d.cache.Keys
            && forall p <- d.cache ::
                 if p.SignalStrength? || p.SignalQuality? || p.Unrecognised? then e.cache[p] == d.cache[p]
                 else match d.cache[p]
                      case IntValue(_) => e.cache[p] == IntValue(0)
                      case LongValue(_) => e.cache[p] == LongValue(0)
                      case v => e.cache[p] == v
  {
  }

  /** Boot puts the hardware snapshot back and zeroes the supported signal properties. */
  lemma BootInWords(caps: PortCapabilities, d: Data)
    ensures var e := Booted(caps, d);
            && e.state == d.state && e.counters == d.counters
            && e.status == PortStatus(d.status.portId, false, d.status.active, NoSignal, None)
            && (SignalStrength in caps.supportedProperties ==>
                  SignalStrength in e.cache && e.cache[SignalStrength] == LongValue(0))
            && (SignalQuality in caps.supportedProperties ==>
                  SignalQuality in e.cache && e.cache[SignalQuality] == IntValue(0))
            && forall p: PortProperty :: !(p.SignalStrength? || p.SignalQuality?) || p !in caps.supportedProperties ==>
                 (p in e.cache <==> p in d.cache) && (p in d.cache ==> e.cache[p] == d.cache[p])
  {
  }

  /** The two's complement value of an unsigned field: congruent to it, and in the signed range. */
  lemma SignedInWords(value: nat, modulus: nat)
    requires modulus > 0 && modulus % 2 == 0
    ensures -(modulus / 2) <= Signed(value, modulus) < modulus / 2
    ensures exists n: int :: Signed(value, modulus) == value + n * modulus
  {
    var n := -(value / modulus);
    assert value % modulus == value + n * modulus;
    if Signed(value, modulus) != value % modulus {
      assert Signed(value, modulus) == value + (n - 1) * modulus;
    }
  }

  lemma SignedKeepsSmall(value: nat, modulus: nat)
    requires modulus > 0 && value < modulus / 2
    ensures Signed(value, modulus) == value
  {
  }

  // ----- writes

  /** A value fits the one type named after it; null fits none. */
  lemma FitsInWords(kind: PropertyType, value: PropertyValue)
    ensures Fits(kind, value) <==>
              match value
              case NullValue => false
              case BooleanValue(_) => kind == BooleanType
              case IntValue(_) => kind == IntegerType
              case LongValue(_) => kind == LongType
              case FloatValue(_) => kind == FloatType
              case DoubleValue(_) => kind == DoubleType
              case StringValue(_) => kind == StringType
  {
  }

  /** The answer to a write: by the supported list, then by the first metadata entry for the property. */
  lemma CheckInWords(caps: PortCapabilities, kv: KVPair, metadata: seq<Option<PropertyMetadata>>, i: nat)
    requires caps.propertyMetadata == Some(metadata) && i <= |metadata|
    requires forall j :: 0 <= j < i ==> metadata[j].None? || metadata[j].value.key != kv.property
    requires i < |metadata| ==> metadata[i].Some? && metadata[i].value.key == kv.property
    ensures Check(caps, kv) ==
              if kv.property.Unrecognised? || kv.property !in caps.supportedProperties then IllegalArgument
              else if i == |metadata| || metadata[i].value.readOnly then UnsupportedOperation
              else if Fits(metadata[i].value.kind, kv.value) then Okay
              else IllegalArgument
  {
    EntryAtFirst(metadata, kv.property, i);
  }

  /** Without metadata nothing can be written. */
  lemma NoMetadataNoWrites(caps: PortCapabilities, kv: KVPair)
    requires caps.propertyMetadata.None?
    ensures Check(caps, kv) ==
              if kv.property.Unrecognised? || kv.property !in caps.supportedProperties then IllegalArgument
              else UnsupportedOperation
  {
  }

  // ----- reads

  lemma ReadInWords(caps: PortCapabilities, d: Data, p: PortProperty)
    ensures !Running(d.state) && p == SignalStrength ==> Read(caps, d, p) == Some(LongValue(0))
    ensures !Running(d.state) && p == SignalQuality ==> Read(caps, d, p) == Some(IntValue(0))
    ensures Running(d.state) || (p != SignalStrength && p != SignalQuality) ==>
              Read(caps, d, p) == if p in caps.supportedProperties && p in d.cache then Some(d.cache[p]) else None
  {
  }

  lemma StatusInWords(d: Data)
    ensures StatusView(d) ==
              if Running(d.state) then d.status else PortStatus(d.status.portId, false, false, NoSignal, None)
  {
  }

  /** What was accepted is read back, by whoever could read the property at all, and nothing else changes. */
  lemma WrittenReadsBack(caps: PortCapabilities, d: Data, kv: KVPair, q: PortProperty)
    requires Check(caps, kv).Okay?
    ensures var e := d.(cache := SetOne(caps, d.cache, kv).1);
            && (q != kv.property ==> Read(caps, e, q) == Read(caps, d, q))
            && (Running(d.state) || (kv.property != SignalStrength && kv.property != SignalQuality) ==>
                  Read(caps, e, kv.property) == Some(kv.value))
            && StatusView(e) == StatusView(d)
  {
  }

  /** A batch that was accepted is read back too: the last value given for each property. */
  lemma BatchReadsBack(caps: PortCapabilities, d: Data, kvs: seq<KVPair>, i: nat)
    requires SetAll(caps, d.cache, kvs).0.Okay? && i < |kvs|
    requires forall j :: i < j < |kvs| ==> kvs[j].property != kvs[i].property
    requires Running(d.state) || (kvs[i].property != SignalStrength && kvs[i].property != SignalQuality)
    ensures Read(caps, d.(cache := SetAll(caps, d.cache, kvs).1), kvs[i].property) == Some(kvs[i].value)
  {
    hide WriteAll, SetAll, SetInTurn;
    assert kvs != [];
    BatchSucceedsIffEachDoes(caps, d.cache, kvs);
    LastWriteWins(d.cache, kvs, i);
    assert SetOne(caps, d.cache, kvs[i]).0.Okay?;
  }

  // ----- UT messages: the data

  lemma ConnectionInWords(d: Data, connected: bool)
    ensures UtApplied(d, ConnectionStatus(Some(connected))) ==
              d.(status := PortStatus(d.status.portId, connected, d.status.active, d.status.signalStatus,
                                      if connected then d.status.detectedResolution else None))
  {
  }

  /** The telemetry of each signal status, strength in dBm and quality in percent. */
  function Gauged(s: SignalStatus): (int, int) {
    match s
    case Stable => (-20, 85)
    case Unstable => (-50, 20)
    case NotSupported => (0, 5)
    case NoSignal => (0, 0)
  }

  lemma SignalInWords(d: Data, token: string, s: SignalStatus)
    requires SignalStatusOf(token) == Some(s)
    ensures var e := UtApplied(d, SignalReport(Some(token)));
            && e.state == d.state && e.counters == d.counters
            && e.status == PortStatus(d.status.portId, d.status.connected, d.status.active, s,
                                      if s == Stable then d.status.detectedResolution else None)
            && e.cache == if Running(d.state)
                          then d.cache[SignalStrength := LongValue(Gauged(s).0)][SignalQuality := IntValue(Gauged(s).1)]
                          else d.cache
  {
    hide SignalStatusOf;
  }

  /** Width, height and rate are there and positive as signed values. */
  predicate Complete(width: Option<nat>, height: Option<nat>, frameRate: Option<real>) {
    && width.Some? && height.Some? && frameRate.Some?
    && Signed(width.value, TWO32) > 0 && Signed(height.value, TWO32) > 0 && frameRate.value > 0.0
  }

  function Mode(width: nat, height: nat, interlaced: Option<bool>, rate: real): VideoResolution {
    VideoResolution(pixelWidth := Signed(width, TWO32), pixelHeight := Signed(height, TWO32),
                    interlaced := interlaced.Some? && interlaced.value, frameRateInHz := rate)
  }

  /** A complete video mode is what the status then reports, with a stable signal; another changes nothing. */
  lemma VideoModeInWords(d: Data, width: Option<nat>, height: Option<nat>, interlaced: Option<bool>, rate: Option<real>)
    ensures var e := UtApplied(d, VideoMode(width, height, interlaced, rate));
            if Complete(width, height, rate) then
              && e.state == d.state && e.counters == d.counters
              && e.status == PortStatus(d.status.portId, d.status.connected, d.status.active, Stable,
                                        Some(Mode(width.value, height.value, interlaced, rate.value)))
              && e.cache == if Running(d.state)
                            then d.cache[SignalStrength := LongValue(-20)][SignalQuality := IntValue(85)]
                            else d.cache
            else e == d
  {
    hide Signed;
  }

  lemma ClearInWords(d: Data)
    ensures UtApplied(d, ClearVideoMode) ==
              d.(status := PortStatus(d.status.portId, d.status.connected, d.status.active,
                                      d.status.signalStatus, None))
  {
  }

  /** A property set over UT: the long field if there is one, else the int field. */
  lemma SetPropertyInWords(d: Data, key: string, p: PortProperty, intValue: Option<nat>, longValue: Option<nat>)
    requires PropertyOf(key) == Some(p)
    ensures var e := UtApplied(d, SetProperty(Some(key), intValue, longValue));
            e == d.(cache :=
                   if longValue.Some? then d.cache[p := LongValue(Signed(longValue.value, 0x1_0000_0000_0000_0000))]
                   else if intValue.Some? then d.cache[p := IntValue(Signed(intValue.value, 0x1_0000_0000))]
                   else d.cache)
  {
    hide PropertyOf, Signed;
  }

  /** Missing parameters and unknown tokens change nothing, and nobody hears of them. */
  lemma IncompleteIsIgnored(d: Data, listener: Option<nat>, m: UtMessage)
    requires match m
             case ConnectionStatus(connected) => connected.None?
             case SignalReport(token) => token.None? || SignalStatusOf(token.value).None?
             case VideoMode(width, height, _, rate) => !Complete(width, height, rate)
             case ClearVideoMode => false
             case SetProperty(key, i, l) => key.None? || PropertyOf(key.value).None? || (i.None? && l.None?)
             case Unsupported => true
    ensures UtApplied(d, m) == d && UtReports(d, m) == [] && UtCalls(d, listener, m) == []
  {
    hide PropertyOf, SignalStatusOf, Signed;
  }

  // ----- UT messages: who hears of them

  /** The controller hears of every known signal and every complete mode, and of a connection that changes. */
  lemma ControllerHears(d: Data, l: nat, m: UtMessage)
    ensures m.ConnectionStatus? && m.connected.Some? && m.connected.value != d.status.connected ==>
              UtCalls(d, Some(l), m) == [ConnectionChanged(l, m.connected.value)]
    ensures m.ConnectionStatus? && m.connected == Some(d.status.connected) ==> UtCalls(d, Some(l), m) == []
    ensures m.SignalReport? && m.token.Some? && SignalStatusOf(m.token.value).Some? ==>
              UtCalls(d, Some(l), m) == [SignalStatusChanged(l, SignalStatusOf(m.token.value).value)]
    ensures m.VideoMode? && Complete(m.width, m.height, m.frameRate) ==>
              UtCalls(d, Some(l), m) ==
                [VideoModeChanged(l, Mode(m.width.value, m.height.value, m.interlaced, m.frameRate.value))]
    ensures m.ClearVideoMode? || m.SetProperty? ==> UtCalls(d, Some(l), m) == []
    ensures UtCalls(d, None, m) == []
  {
    hide SignalStatusOf, Signed;
  }

  /** Observers hear of the telemetry of a running port, and of every property set over UT. */
  lemma ObserversHear(d: Data, m: UtMessage)
    ensures m.SignalReport? && m.token.Some? && SignalStatusOf(m.token.value).Some? ==>
              var (strength, quality) := Gauged(SignalStatusOf(m.token.value).value);
              UtReports(d, m) ==
                if Running(d.state)
                then [KVPair(SignalStrength, LongValue(strength)), KVPair(SignalQuality, IntValue(quality))]
                else []
    ensures m.SetProperty? && m.key.Some? && PropertyOf(m.key.value).Some? && m.longValue.Some? ==>
              UtReports(d, m) ==
                [KVPair(PropertyOf(m.key.value).value, LongValue(Signed(m.longValue.value, 0x1_0000_0000_0000_0000)))]
    ensures m.SetProperty? && m.key.Some? && PropertyOf(m.key.value).Some? && m.longValue.None? && m.intValue.Some? ==>
              UtReports(d, m) ==
                [KVPair(PropertyOf(m.key.value).value, IntValue(Signed(m.intValue.value, 0x1_0000_0000)))]
    ensures m.ConnectionStatus? || m.VideoMode? || m.ClearVideoMode? ==> UtReports(d, m) == []
  {
    hide SignalStatusOf, PropertyOf, Signed;
  }

  /** On a started port that supports them, clients read the telemetry of the signal just reported. */
  lemma ClientsReadTheSignal(caps: PortCapabilities, d: Data, token: string, s: SignalStatus)
    requires SignalStatusOf(token) == Some(s) && d.state == Started
    requires SignalStrength in caps.supportedProperties && SignalQuality in caps.supportedProperties
    ensures var e := UtApplied(d, SignalReport(Some(token)));
            && Read(caps, e, SignalStrength) == Some(LongValue(Gauged(s).0))
            && Read(caps, e, SignalQuality) == Some(IntValue(Gauged(s).1))
            && StatusView(e).signalStatus == s
  {
    hide SignalStatusOf;
    SignalInWords(d, token, s);
  }

  // ----- metric reset

  lemma ResetInWords(d: Data, now: int, wall: int)
    ensures d.state != Started ==> MetricsReset(d, now, wall) == (BadState, d)
    ensures d.state == Started ==>
              var (status, e) := MetricsReset(d, now, wall);
              && status == Okay && e.state == d.state && e.status == d.status
              && e.counters == Counters(startTs := now, lastResetTs := now, lockTime := 0, lastLockTime := 0,
                                        drops := 0, lockCount := 0)
              && (forall p: PortProperty :: p.SignalStrength? || p.SignalQuality? || p.Unrecognised? ==>
                    (p in e.cache <==> p in d.cache) && (p in d.cache ==> e.cache[p] == d.cache[p]))
              && (forall p: PortProperty :: !(p.SignalStrength? || p.SignalQuality? || p.Unrecognised?) ==>
                    p in e.cache && e.cache[p] == LongValue(if p == MetricLastResetTimestamp then wall else 0))
  {
  }

  const RESET_ORDER: seq<PortProperty> := [
    MetricSignalDrops, MetricSignalLockCount, MetricSignalLockTime, MetricLastSignalLockTime,
    MetricUptime, MetricLastResetTimestamp
  ]

  /** Each metric is reported once, the timestamp last. */
  lemma ResetReportsInWords(wall: int)
    ensures var r := ResetReports(wall);
            && |r| == 6
            && (forall i :: 0 <= i < 6 ==> r[i].property == RESET_ORDER[i])
            && (forall i :: 0 <= i < 5 ==> r[i].value == LongValue(0)) && r[5].value == LongValue(wall)
  {
  }

  /** start() reports the cached telemetry, strength first. */
  lemma StartReportsInWords(cache: Cache)
    requires SignalStrength in cache && SignalQuality in cache
    ensures StartReports(cache) ==
              [KVPair(SignalStrength, cache[SignalStrength]), KVPair(SignalQuality, cache[SignalQuality])]
  {
  }
}
