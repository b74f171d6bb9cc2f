/** HFP and UT tokens: trimming and the token tables. */
module Tokens {
  import opened Common

  datatype PortProperty =
    | SignalStrength
    | SignalQuality
    | MetricSignalLockTime
    | MetricSignalDrops
    | MetricUptime
    | MetricSignalLockCount
    | MetricLastSignalLockTime
    | MetricLastResetTimestamp
    | Unrecognised(code: int)

  datatype PropertyType = BooleanType | IntegerType | LongType | FloatType | DoubleType | StringType

  datatype SignalStatus = NoSignal | Unstable | NotSupported | Stable

  const PORT_PROPERTY_TOKENS: seq<(string, PortProperty)> := [
    ("SIGNAL_STRENGTH", SignalStrength),
    ("SIGNAL_QUALITY", SignalQuality),
    ("METRIC_SIGNAL_LOCK_TIME", MetricSignalLockTime),
    ("METRIC_SIGNAL_DROPS", MetricSignalDrops),
    ("METRIC_UPTIME", MetricUptime),
    ("METRIC_SIGNAL_LOCK_COUNT", MetricSignalLockCount),
    ("METRIC_LAST_SIGNAL_LOCK_TIME", MetricLastSignalLockTime),
    ("METRIC_LAST_RESET_TIMESTAMP", MetricLastResetTimestamp)
  ]

  const PROPERTY_TYPE_TOKENS: seq<(string, PropertyType)> := [
    ("BOOLEAN", BooleanType),
    ("INTEGER", IntegerType),
    ("LONG", LongType),
    ("FLOAT", FloatType),
    ("DOUBLE", DoubleType),
    ("STRING", StringType)
  ]

  const SIGNAL_STATUS_TOKENS: seq<(string, SignalStatus)> := [
    ("NO_SIGNAL", NoSignal),
    ("UNSTABLE", Unstable),
    ("NOT_SUPPORTED", NotSupported),
    ("STABLE", Stable)
  ]

  // ----- trimming

  /** isspace() in the C locale. */
  predicate IsSpace(c: char) {
    c == ' ' || c == '\t' || c == '\n' || c == 11 as char || c == 12 as char || c == '\r'
  }

  /** Space, and the control characters from tab to carriage return. */
  lemma SpacesInWords(c: char)
    ensures IsSpace(c) <==> c as int == 32 || 9 <= c as int <= 13
  {
  }

  function Trimmed(s: string): string {
    if s == "" then s
    else if IsSpace(s[0]) then Trimmed(s[1..])
    else if IsSpace(s[|s|-1]) then Trimmed(s[..|s|-1])
    else s
  }

  ghost predicate AllSpace(s: string) {
    forall c <- s :: IsSpace(c)
  }

  /** Neither end is a space. */
  ghost predicate Tight(s: string) {
    s != "" ==> !IsSpace(s[0]) && !IsSpace(s[|s|-1])
  }

  /** Trimming takes spaces off both ends and nothing else, and leaves none there. */
  lemma {:induction false} TrimmedSplits(s: string) returns (left: string, right: string)
    ensures s == left + Trimmed(s) + right
    ensures AllSpace(left) && AllSpace(right) && Tight(Trimmed(s))
    decreases |s|
  {
    if s == "" {
      left, right := "", "";
    } else if IsSpace(s[0]) {
      left, right := TrimmedSplits(s[1..]);
      left := [s[0]] + left;
    } else if IsSpace(s[|s|-1]) {
      left, right := TrimmedSplits(s[..|s|-1]);
      right := right + [s[|s|-1]];
    } else {
      left, right := "", "";
    }
  }

  lemma {:induction false} SpaceVanishes(s: string)
    requires AllSpace(s)
    ensures Trimmed(s) == ""
  {
    if s != "" { SpaceVanishes(s[1..]); }
  }

  /** There is no other way to do it. */
  lemma {:induction false} TrimmedIsUnique(left: string, core: string, right: string)
    requires AllSpace(left) && AllSpace(right) && Tight(core)
    ensures Trimmed(left + core + right) == core
    decreases |left| + |right|
  {
    var s := left + core + right;
    if core == "" {
      assert AllSpace(s);
      SpaceVanishes(s);
    } else if left != "" {
      assert s[1..] == left[1..] + core + right;
      TrimmedIsUnique(left[1..], core, right);
    } else if right != "" {
      assert s[0] == core[0];
      assert s[..|s|-1] == left + core + right[..|right|-1];
      TrimmedIsUnique(left, core, right[..|right|-1]);
    } else {
      assert s == core;
    }
  }

  /** trim(): two indices moving towards each other. */
  method Trim(input: string) returns (r: string)
    ensures r == Trimmed(input)
  {
    var startIndex := 0;
    while startIndex < |input| && IsSpace(input[startIndex])
      invariant 0 <= startIndex <= |input|
      invariant AllSpace(input[..startIndex])
    {
      startIndex := startIndex + 1;
    }
    var endIndex := |input|;
    while endIndex > startIndex && IsSpace(input[endIndex - 1])
      invariant startIndex <= endIndex <= |input|
      invariant AllSpace(input[endIndex..])
    {
      endIndex := endIndex - 1;
    }
    r := input[startIndex..endIndex];
    assert input == input[..startIndex] + r + input[endIndex..];
    TrimmedIsUnique(input[..startIndex], r, input[endIndex..]);
  }

  // ----- table lookup

  function Find<V>(table: seq<(string, V)>, token: string): Option<V> {
    if table == [] then None
    else if table[0].0 == token then Some(table[0].1)
    else Find(table[1..], token)
  }

  function PropertyOf(token: string): Option<PortProperty> {
    Find(PORT_PROPERTY_TOKENS, Trimmed(token))
  }

  function TypeOf(token: string): Option<PropertyType> {
    Find(PROPERTY_TYPE_TOKENS, Trimmed(token))
  }

  function SignalStatusOf(token: string): Option<SignalStatus> {
    Find(SIGNAL_STATUS_TOKENS, Trimmed(token))
  }

  lemma {:induction false} FindSkips<V>(table: seq<(string, V)>, token: string, n: nat)
    requires n <= |table| && forall i :: 0 <= i < n ==> table[i].0 != token
    ensures Find(table, token) == Find(table[n..], token)
  {
    if n == 0 {
      assert table[0..] == table;
    } else {
      FindSkips(table[1..], token, n - 1);
      assert table[1..][n - 1..] == table[n..];
    }
  }

  /** The lookup loop of portPropertyFromString(), propertyTypeFromString() and signalStatusFromString(). */
  method FromString<V>(table: seq<(string, V)>, token: string) returns (r: Option<V>)
    ensures r == Find(table, Trimmed(token))
  {
    var normalized := Trim(token);
    for i := 0 to |table|
      invariant forall j :: 0 <= j < i ==> table[j].0 != normalized
    {
      if table[i].0 == normalized {
        FindSkips(table, normalized, i);
        return Some(table[i].1);
      }
    }
    FindSkips(table, normalized, |table|);
    return None;
  }

  /** What Find returns is in the table under that token. */
  lemma {:induction false} FindIsEntry<V>(table: seq<(string, V)>, token: string)
    ensures match Find(table, token)
            case Some(v) => (token, v) in table
            case None => forall e <- table :: e.0 != token
  {
    if table != [] { FindIsEntry(table[1..], token); }
  }

  lemma PropertyValuesDiffer()
    ensures forall i, j :: 0 <= i < j < |PORT_PROPERTY_TOKENS| ==>
              PORT_PROPERTY_TOKENS[i].1 != PORT_PROPERTY_TOKENS[j].1
    ensures forall e <- PORT_PROPERTY_TOKENS :: !e.1.Unrecognised?
  {
  }

  /** Two tokens mean the same property exactly when they trim to the same word. */
  lemma SamePropertySameWord(a: string, b: string)
    requires PropertyOf(a).Some? && PropertyOf(b).Some?
    ensures PropertyOf(a) == PropertyOf(b) <==> Trimmed(a) == Trimmed(b)
    ensures !PropertyOf(a).value.Unrecognised?
  {
    FindIsEntry(PORT_PROPERTY_TOKENS, Trimmed(a));
    FindIsEntry(PORT_PROPERTY_TOKENS, Trimmed(b));
    PropertyValuesDiffer();
    var i :| 0 <= i < |PORT_PROPERTY_TOKENS| && PORT_PROPERTY_TOKENS[i] == (Trimmed(a), PropertyOf(a).value);
    var j :| 0 <= j < |PORT_PROPERTY_TOKENS| && PORT_PROPERTY_TOKENS[j] == (Trimmed(b), PropertyOf(b).value);
  }

  /** A token without white space at its ends is found where it stands in a table of different tokens. */
  lemma FoundWhereItStands<V>(table: seq<(string, V)>, i: nat)
    requires i < |table| && Tight(table[i].0) && forall j :: 0 <= j < i ==> table[j].0 != table[i].0
    ensures Find(table, Trimmed(table[i].0)) == Some(table[i].1)
  {
    TrimmedIsUnique("", table[i].0, "");
    assert "" + table[i].0 + "" == table[i].0;
    FindSkips(table, table[i].0, i);
  }

  lemma PropertyTokensInWords()
    ensures PropertyOf("SIGNAL_STRENGTH") == Some(SignalStrength)
    ensures PropertyOf("SIGNAL_QUALITY") == Some(SignalQuality)
    ensures PropertyOf("METRIC_SIGNAL_LOCK_TIME") == Some(MetricSignalLockTime)
    ensures PropertyOf("METRIC_SIGNAL_DROPS") == Some(MetricSignalDrops)
    ensures PropertyOf("METRIC_UPTIME") == Some(MetricUptime)
    ensures PropertyOf("METRIC_SIGNAL_LOCK_COUNT") == Some(MetricSignalLockCount)
    ensures PropertyOf("METRIC_LAST_SIGNAL_LOCK_TIME") == Some(MetricLastSignalLockTime)
    ensures PropertyOf("METRIC_LAST_RESET_TIMESTAMP") == Some(MetricLastResetTimestamp)
  {
    hide Trimmed, Find;
    PropertyTokensDiffer();
    forall i | 0 <= i < |PORT_PROPERTY_TOKENS|
      ensures PropertyOf(PORT_PROPERTY_TOKENS[i].0) == Some(PORT_PROPERTY_TOKENS[i].1)
    {
      FoundWhereItStands(PORT_PROPERTY_TOKENS, i);
    }
    assert PORT_PROPERTY_TOKENS[0].0 == "SIGNAL_STRENGTH" && PORT_PROPERTY_TOKENS[1].0 == "SIGNAL_QUALITY";
    assert PORT_PROPERTY_TOKENS[2].0 == "METRIC_SIGNAL_LOCK_TIME" && PORT_PROPERTY_TOKENS[3].0 == "METRIC_SIGNAL_DROPS";
    assert PORT_PROPERTY_TOKENS[4].0 == "METRIC_UPTIME" && PORT_PROPERTY_TOKENS[5].0 == "METRIC_SIGNAL_LOCK_COUNT";
    assert PORT_PROPERTY_TOKENS[6].0 == "METRIC_LAST_SIGNAL_LOCK_TIME";
    assert PORT_PROPERTY_TOKENS[7].0 == "METRIC_LAST_RESET_TIMESTAMP";
  }

  lemma TypeTokensInWords()
    ensures TypeOf("BOOLEAN") == Some(BooleanType) && TypeOf("INTEGER") == Some(IntegerType)
    ensures TypeOf("LONG") == Some(LongType) && TypeOf("FLOAT") == Some(FloatType)
    ensures TypeOf("DOUBLE") == Some(DoubleType) && TypeOf("STRING") == Some(StringType)
  {
    hide Trimmed, Find;
    TypeTokensDiffer();
    forall i | 0 <= i < |PROPERTY_TYPE_TOKENS|
      ensures TypeOf(PROPERTY_TYPE_TOKENS[i].0) == Some(PROPERTY_TYPE_TOKENS[i].1)
    {
      FoundWhereItStands(PROPERTY_TYPE_TOKENS, i);
    }
    assert PROPERTY_TYPE_TOKENS[0].0 == "BOOLEAN" && PROPERTY_TYPE_TOKENS[1].0 == "INTEGER";
    assert PROPERTY_TYPE_TOKENS[2].0 == "LONG" && PROPERTY_TYPE_TOKENS[3].0 == "FLOAT";
    assert PROPERTY_TYPE_TOKENS[4].0 == "DOUBLE" && PROPERTY_TYPE_TOKENS[5].0 == "STRING";
  }

  lemma SignalTokensInWords()
    ensures SignalStatusOf("NO_SIGNAL") == Some(NoSignal) && SignalStatusOf("UNSTABLE") == Some(Unstable)
    ensures SignalStatusOf("NOT_SUPPORTED") == Some(NotSupported) && SignalStatusOf("STABLE") == Some(Stable)
  {
    hide Trimmed, Find;
    SignalTokensDiffer();
    forall i | 0 <= i < |SIGNAL_STATUS_TOKENS|
      ensures SignalStatusOf(SIGNAL_STATUS_TOKENS[i].0) == Some(SIGNAL_STATUS_TOKENS[i].1)
    {
      FoundWhereItStands(SIGNAL_STATUS_TOKENS, i);
    }
    assert SIGNAL_STATUS_TOKENS[0].0 == "NO_SIGNAL" && SIGNAL_STATUS_TOKENS[1].0 == "UNSTABLE";
    assert SIGNAL_STATUS_TOKENS[2].0 == "NOT_SUPPORTED" && SIGNAL_STATUS_TOKENS[3].0 == "STABLE";
  }

  /** The tokens of a table differ, and none has white space at its ends. */
  ghost predicate WellMade<V>(table: seq<(string, V)>) {
    && (forall i, j :: 0 <= j < i < |table| ==> table[j].0 != table[i].0)
    && (forall i :: 0 <= i < |table| ==> Tight(table[i].0))
  }

  lemma PropertyTokensDiffer()
    ensures WellMade(PORT_PROPERTY_TOKENS)
  {
    var t := PORT_PROPERTY_TOKENS;
    assert |t[0].0| == 15 && |t[1].0| == 14 && |t[2].0| == 23 && |t[3].0| == 19;
    assert |t[4].0| == 13 && |t[5].0| == 24 && |t[6].0| == 28 && |t[7].0| == 27;
  }

  lemma TypeTokensDiffer()
    ensures WellMade(PROPERTY_TYPE_TOKENS)
  {
    var t := PROPERTY_TYPE_TOKENS;
    assert |t[0].0| == |t[1].0| == 7 && t[0].0[0] == 'B' && t[1].0[0] == 'I';
    assert |t[2].0| == 4 && |t[3].0| == 5;
    assert |t[4].0| == |t[5].0| == 6 && t[4].0[0] == 'D' && t[5].0[0] == 'S';
  }

  lemma SignalTokensDiffer()
    ensures WellMade(SIGNAL_STATUS_TOKENS)
  {
    var t := SIGNAL_STATUS_TOKENS;
    assert |t[0].0| == 9 && |t[1].0| == 8 && |t[2].0| == 13 && |t[3].0| == 6;
  }
}
