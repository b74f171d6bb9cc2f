/**
 The parser of the HFP profile: from an abstract key/value store to a validated configuration,
 or to the first problem met in reading order.
*/
module ParseConfig {
  import opened Common
  import opened Tokens

  /** An open KVP instance: which keys it has, the text of its scalar fields, the length of its lists. */
  datatype Kvp = Kvp(present: set<string>, text: map<string, string>, counts: map<string, nat>)

  datatype MetadataConfig = MetadataConfig(
    key: string, kind: string, readOnly: bool, isMetric: bool, description: string)

  datatype PortConfig = PortConfig(
    id: int, name: string, description: string,
    supportedProperties: seq<string>, propertyMetadata: seq<MetadataConfig>)

  datatype HfpConfig = HfpConfig(
    interfaceVersion: string, ports: seq<PortConfig>, halVersion: string,
    maxPorts: int, maximumConcurrentStartedPorts: int,
    supportedProperties: seq<string>, propertyMetadata: seq<MetadataConfig>, macrovision: bool)

  const EMPTY_METADATA := MetadataConfig("", "", true, false, "")
  const EMPTY_PORT := PortConfig(-1, "", "", [], [])
  const EMPTY_CONFIG := HfpConfig("", [], "", 0, 1, [], [], false)

  /** What the parser can report, with the key or the place it reports it for. */
  datatype Problem =
    | EmptyPath
    | CannotOpen(path: string)
    | NoProfile
    | Missing(key: string)
    | Unreadable(key: string)
    | EmptyField(key: string)
    | BadInteger(key: string, value: string)
    | BadBoolean(key: string, value: string)
    | UnsupportedToken(place: string, index: nat)
    | DuplicateToken(place: string, index: nat)
    | CountMismatch(place: string)
    | UnsupportedKey(place: string, index: nat)
    | UnsupportedType(place: string, index: nat)
    | OutOfOrder(place: string, index: nat)
    | NoDescription(place: string, index: nat)
    | NoPorts
    | NegativeId(place: string)
    | DuplicateId(index: nat, id: int)
    | MaxPortsTooSmall
    | LimitTooSmall

  const ROOT := "compositeinput"
  const INTERFACE_VERSION := Under(ROOT, "interfaceVersion")
  const PORTS := Under(ROOT, "ports")
  const PLATFORM := Under(ROOT, "platformCapabilities")
  const MACROVISION := Under("features", "macrovisionDetectionSupported")

  // ----- numbers

  function DigitOf(c: char): Option<nat> {
    if '0' <= c <= '9' then Some(c as nat - '0' as nat)
    else if 'a' <= c <= 'f' then Some(c as nat - 'a' as nat + 10)
    else if 'A' <= c <= 'F' then Some(c as nat - 'A' as nat + 10)
    else None
  }

  predicate IsDigit(base: nat, c: char) {
    DigitOf(c).Some? && DigitOf(c).value < base
  }

  /** The number a nonempty string of digits stands for. */
  function ValueIn(base: nat, s: string): Option<nat> {
    if s == "" || !IsDigit(base, s[|s|-1]) then None
    else
      var last := DigitOf(s[|s|-1]).value;
      if |s| == 1 then Some(last)
      else
        match ValueIn(base, s[..|s|-1])
        case Some(v) => Some(v * base + last)
        case None => None
  }

  function SkipSpace(s: string): string {
    if s != "" && IsSpace(s[0]) then SkipSpace(s[1..]) else s
  }

  /** An unsigned number in the notation of strtol() with base 0. */
  function Magnitude(s: string): Option<nat> {
    if |s| >= 3 && s[0] == '0' && (s[1] == 'x' || s[1] == 'X') && IsDigit(16, s[2]) then ValueIn(16, s[2..])
    else if s != "" && s[0] == '0' then ValueIn(8, s)
    else ValueIn(10, s)
  }

  const INT32_MIN: int := -0x8000_0000
  const INT32_MAX: int := 0x7fff_ffff

  /** parseInt32(): all of the text is one number, and an int32 holds it. */
  function ParseInt32(s: string): Option<int> {
    var t := SkipSpace(s);
    var signed := t != "" && (t[0] == '-' || t[0] == '+');
    match Magnitude(if signed then t[1..] else t)
    case None => None
    case Some(m) =>
      var v: int := if signed && t[0] == '-' then 0 - m else m;
      if INT32_MIN <= v <= INT32_MAX then Some(v) else None
  }

  function ParseBool(s: string): Option<bool> {
    if s in {"true", "True", "TRUE", "1"} then Some(true)
    else if s in {"false", "False", "FALSE", "0"} then Some(false)
    else None
  }

  /** std::to_string() of an index. */
  function Decimal(n: nat): string {
    if n < 10 then [('0' as int + n) as char] else Decimal(n / 10) + [('0' as int + n % 10) as char]
  }

  lemma {:induction false} DecimalDenotes(n: nat)
    ensures Decimal(n) != "" && ValueIn(10, Decimal(n)) == Some(n)
    ensures IsDigit(10, Decimal(n)[0]) && (n > 0 ==> Decimal(n)[0] != '0')
  {
    if n >= 10 {
      DecimalDenotes(n / 10);
      assert Decimal(n)[..|Decimal(n)|-1] == Decimal(n / 10);
    }
  }

  /** What to_string() writes, parseInt32() reads back, if an int32 can hold it. */
  lemma DecimalRoundTrip(n: nat)
    ensures ParseInt32(Decimal(n)) == if n <= INT32_MAX then Some(n) else None
  {
    DecimalDenotes(n);
    var s := Decimal(n);
    assert !IsSpace(s[0]) && s[0] != '-' && s[0] != '+';
    if n == 0 {
      assert s == "0" && ValueIn(8, s) == Some(0);
    }
  }

  // ----- keys

  function Item(key: string, index: nat): string {
    key + "." + Decimal(index)
  }

  function Under(place: string, field: string): string {
    place + "." + field
  }

  /** No two entries of a list are read from the same key. */
  lemma ItemKeysDiffer(key: string, i: nat, j: nat)
    ensures Item(key, i) == Item(key, j) <==> i == j
  {
    if Item(key, i) == Item(key, j) {
      assert Item(key, i)[|key| + 1..] == Decimal(i);
      assert Item(key, j)[|key| + 1..] == Decimal(j);
      DecimalDenotes(i);
      DecimalDenotes(j);
    }
  }

  // ----- what a store holds

  function TextAt(k: Kvp, key: string): string {
    if key in k.text then k.text[key] else ""
  }

  function IntAt(k: Kvp, key: string): int {
    match ParseInt32(TextAt(k, key)) case Some(v) => v case None => 0
  }

  function BoolAt(k: Kvp, key: string): bool {
    ParseBool(TextAt(k, key)) == Some(true)
  }

  function Count(k: Kvp, key: string): nat {
    if key in k.counts then k.counts[key] else 0
  }

  function ListAt(k: Kvp, key: string): seq<string> {
    seq(Count(k, key), i requires 0 <= i => TextAt(k, Item(key, i)))
  }

  function EntryAt(k: Kvp, place: string): MetadataConfig {
    MetadataConfig(TextAt(k, Under(place, "key")), TextAt(k, Under(place, "type")),
                   BoolAt(k, Under(place, "readOnly")), BoolAt(k, Under(place, "isMetric")),
                   TextAt(k, Under(place, "description")))
  }

  function MetadataAt(k: Kvp, key: string): seq<MetadataConfig> {
    seq(Count(k, key), i requires 0 <= i => EntryAt(k, Item(key, i)))
  }

  function PortAt(k: Kvp, place: string): PortConfig {
    PortConfig(IntAt(k, Under(place, "id")), TextAt(k, Under(place, "name")), TextAt(k, Under(place, "description")),
               ListAt(k, Under(place, "supportedProperties")), MetadataAt(k, Under(place, "propertyMetadata")))
  }

  function PortsAt(k: Kvp): seq<PortConfig> {
    seq(Count(k, PORTS), i requires 0 <= i => PortAt(k, Item(PORTS, i)))
  }

  function ConfigAt(k: Kvp): HfpConfig {
    HfpConfig(TextAt(k, INTERFACE_VERSION), PortsAt(k), TextAt(k, Under(PLATFORM, "halVersion")),
              IntAt(k, Under(PLATFORM, "maxPorts")), IntAt(k, Under(PLATFORM, "maximumConcurrentStartedPorts")),
              ListAt(k, Under(PLATFORM, "supportedProperties")), MetadataAt(k, Under(PLATFORM, "propertyMetadata")),
              BoolAt(k, Under(PLATFORM, MACROVISION)))
  }

  // ----- when a store is a valid profile

  ghost predicate HasText(k: Kvp, key: string) {
    key in k.present && TextAt(k, key) != ""
  }

  ghost predicate HasInt(k: Kvp, key: string) {
    HasText(k, key) && ParseInt32(TextAt(k, key)).Some?
  }

  ghost predicate HasBool(k: Kvp, key: string) {
    HasText(k, key) && ParseBool(TextAt(k, key)).Some?
  }

  ghost predicate HasList(k: Kvp, key: string) {
    key in k.present && forall i :: 0 <= i < Count(k, key) ==> HasText(k, Item(key, i))
  }

  ghost predicate HasEntry(k: Kvp, place: string) {
    && HasText(k, Under(place, "key")) && HasText(k, Under(place, "type"))
    && HasBool(k, Under(place, "readOnly")) && HasBool(k, Under(place, "isMetric"))
    && HasText(k, Under(place, "description"))
  }

  ghost predicate HasMetadata(k: Kvp, key: string) {
    key in k.present && forall i :: 0 <= i < Count(k, key) ==> HasEntry(k, Item(key, i))
  }

  ghost predicate Distinct<T>(s: seq<T>) {
    forall i, j :: 0 <= i < j < |s| ==> s[i] != s[j]
  }

  /** Known, pairwise different tokens, each described by the metadata entry at its own index. */
  ghost predicate Declares(properties: seq<string>, metadata: seq<MetadataConfig>) {
    && (forall t <- properties :: PropertyOf(t).Some?)
    && Distinct(properties)
    && |metadata| == |properties|
    && (forall i :: 0 <= i < |metadata| ==>
          metadata[i].key == properties[i] && TypeOf(metadata[i].kind).Some? && metadata[i].description != "")
  }

  ghost predicate PortAccepted(port: PortConfig) {
    && 0 <= port.id <= INT32_MAX && port.name != "" && port.description != ""
    && Declares(port.supportedProperties, port.propertyMetadata)
  }

  /** What an accepted configuration promises to the rest of the service. */
  ghost predicate Accepted(c: HfpConfig) {
    && c.interfaceVersion != "" && c.halVersion != ""
    && c.ports != [] && (forall p <- c.ports :: PortAccepted(p))
    && (forall i, j :: 0 <= i < j < |c.ports| ==> c.ports[i].id != c.ports[j].id)
    && 1 <= c.maxPorts <= INT32_MAX && 1 <= c.maximumConcurrentStartedPorts <= INT32_MAX
    && Declares(c.supportedProperties, c.propertyMetadata)
  }

  ghost predicate HasPort(k: Kvp, place: string) {
    && HasInt(k, Under(place, "id")) && HasText(k, Under(place, "name")) && HasText(k, Under(place, "description"))
    && HasList(k, Under(place, "supportedProperties")) && HasMetadata(k, Under(place, "propertyMetadata"))
  }

  ghost predicate HasPlatform(k: Kvp) {
    && PLATFORM in k.present
    && HasText(k, Under(PLATFORM, "halVersion")) && HasInt(k, Under(PLATFORM, "maxPorts"))
    && HasInt(k, Under(PLATFORM, "maximumConcurrentStartedPorts"))
    && HasList(k, Under(PLATFORM, "supportedProperties")) && HasMetadata(k, Under(PLATFORM, "propertyMetadata"))
    && HasBool(k, Under(PLATFORM, MACROVISION))
  }

  /** Every required field is there and readable. */
  ghost predicate Complete(k: Kvp) {
    && ROOT in k.present && HasText(k, INTERFACE_VERSION) && PORTS in k.present
    && (forall i :: 0 <= i < Count(k, PORTS) ==> HasPort(k, Item(PORTS, i)))
    && HasPlatform(k)
  }

  // ----- the first problem in reading order

  function First(a: Option<Problem>, b: Option<Problem>): Option<Problem> {
    if a.Some? then a else b
  }

  function TextFault(k: Kvp, key: string): Option<Problem> {
    if key !in k.present then Some(Missing(key))
    else if key !in k.text then Some(Unreadable(key))
    else if k.text[key] == "" then Some(EmptyField(key))
    else None
  }

  function IntFault(k: Kvp, key: string): Option<Problem> {
    First(TextFault(k, key),
          if ParseInt32(TextAt(k, key)).None? then Some(BadInteger(key, TextAt(k, key))) else None)
  }

  function BoolFault(k: Kvp, key: string): Option<Problem> {
    First(TextFault(k, key),
          if ParseBool(TextAt(k, key)).None? then Some(BadBoolean(key, TextAt(k, key))) else None)
  }

  // An optional field may be missing or empty, but not unreadable or malformed.

  function OptionalFault(k: Kvp, key: string): Option<Problem> {
    if key in k.present && key !in k.text then Some(Unreadable(key)) else None
  }

  predicate Given(k: Kvp, key: string) {
    key in k.present && TextAt(k, key) != ""
  }

  function OptionalIntFault(k: Kvp, key: string): Option<Problem> {
    First(OptionalFault(k, key), if Given(k, key) then IntFault(k, key) else None)
  }

  function OptionalBoolFault(k: Kvp, key: string): Option<Problem> {
    First(OptionalFault(k, key), if Given(k, key) then BoolFault(k, key) else None)
  }

  function ItemsFault(k: Kvp, key: string, i: nat): Option<Problem>
    decreases Count(k, key) - i
  {
    if i >= Count(k, key) then None else First(TextFault(k, Item(key, i)), ItemsFault(k, key, i + 1))
  }

  function ListFault(k: Kvp, key: string): Option<Problem> {
    if key !in k.present then Some(Missing(key)) else ItemsFault(k, key, 0)
  }

  function EntryFault(k: Kvp, place: string): Option<Problem> {
    First(TextFault(k, Under(place, "key")),
    First(TextFault(k, Under(place, "type")),
    First(BoolFault(k, Under(place, "readOnly")),
    First(BoolFault(k, Under(place, "isMetric")),
          TextFault(k, Under(place, "description"))))))
  }

  function EntriesFault(k: Kvp, key: string, i: nat): Option<Problem>
    decreases Count(k, key) - i
  {
    if i >= Count(k, key) then None else First(EntryFault(k, Item(key, i)), EntriesFault(k, key, i + 1))
  }

  function MetadataFault(k: Kvp, key: string): Option<Problem> {
    if key !in k.present then Some(Missing(key)) else EntriesFault(k, key, 0)
  }

  function TokenFault(properties: seq<string>, place: string, i: nat): Option<Problem>
    requires i < |properties|
  {
    if PropertyOf(properties[i]).None? then Some(UnsupportedToken(place, i))
    else if properties[i] in properties[..i] then Some(DuplicateToken(place, i))
    else None
  }

  function TokensFault(properties: seq<string>, place: string, i: nat): Option<Problem>
    decreases |properties| - i
  {
    if i >= |properties| then None
    else First(TokenFault(properties, place, i), TokensFault(properties, place, i + 1))
  }

  function AlignFault(property: string, entry: MetadataConfig, place: string, i: nat): Option<Problem> {
    if PropertyOf(entry.key).None? then Some(UnsupportedKey(place, i))
    else if TypeOf(entry.kind).None? then Some(UnsupportedType(place, i))
    else if entry.key != property then Some(OutOfOrder(place, i))
    else if entry.description == "" then Some(NoDescription(place, i))
    else None
  }

  function AlignsFault(properties: seq<string>, metadata: seq<MetadataConfig>, place: string, i: nat): Option<Problem>
    requires |metadata| == |properties|
    decreases |metadata| - i
  {
    if i >= |metadata| then None
    else First(AlignFault(properties[i], metadata[i], place, i), AlignsFault(properties, metadata, place, i + 1))
  }

  function DeclarationFault(properties: seq<string>, metadata: seq<MetadataConfig>, place: string): Option<Problem> {
    First(TokensFault(properties, place, 0),
          if |metadata| != |properties| then Some(CountMismatch(place))
          else AlignsFault(properties, metadata, place, 0))
  }

  function PortFault(k: Kvp, place: string): Option<Problem> {
    var port := PortAt(k, place);
    First(IntFault(k, Under(place, "id")),
    First(TextFault(k, Under(place, "name")),
    First(TextFault(k, Under(place, "description")),
    First(ListFault(k, Under(place, "supportedProperties")),
    First(MetadataFault(k, Under(place, "propertyMetadata")),
    First(if port.id < 0 then Some(NegativeId(place)) else None,
          DeclarationFault(port.supportedProperties, port.propertyMetadata, place)))))))
  }

  /** The identity of port `i` is that of an earlier port. */
  predicate RepeatsId(ports: seq<PortConfig>, i: nat)
    requires i < |ports|
  {
    exists j :: 0 <= j < i && ports[j].id == ports[i].id
  }

  function PortsFault(k: Kvp, i: nat): Option<Problem>
    decreases Count(k, PORTS) - i
  {
    if i >= Count(k, PORTS) then None
    else
      First(PortFault(k, Item(PORTS, i)),
      First(if RepeatsId(PortsAt(k), i) then Some(DuplicateId(i, PortsAt(k)[i].id)) else None,
            PortsFault(k, i + 1)))
  }

  function PlatformFault(k: Kvp): Option<Problem> {
    var c := ConfigAt(k);
    if PLATFORM !in k.present then Some(Missing(PLATFORM))
    else
      First(TextFault(k, Under(PLATFORM, "halVersion")),
      First(IntFault(k, Under(PLATFORM, "maxPorts")),
      First(IntFault(k, Under(PLATFORM, "maximumConcurrentStartedPorts")),
      First(ListFault(k, Under(PLATFORM, "supportedProperties")),
      First(MetadataFault(k, Under(PLATFORM, "propertyMetadata")),
      First(BoolFault(k, Under(PLATFORM, MACROVISION)),
      First(if c.maxPorts < 1 then Some(MaxPortsTooSmall) else None,
      First(if c.maximumConcurrentStartedPorts < 1 then Some(LimitTooSmall) else None,
            DeclarationFault(c.supportedProperties, c.propertyMetadata, PLATFORM)))))))))
  }

  function ProfileFault(k: Kvp): Option<Problem> {
    if ROOT !in k.present then Some(NoProfile)
    else
      First(TextFault(k, INTERFACE_VERSION),
            if PORTS !in k.present then Some(Missing(PORTS))
            else if Count(k, PORTS) == 0 then Some(NoPorts)
            else First(PortsFault(k, 0), PlatformFault(k)))
  }

  // ----- no problem is reported exactly for the valid profiles

  lemma {:induction false} ItemsSound(k: Kvp, key: string, i: nat)
    ensures ItemsFault(k, key, i).None? <==> forall j :: i <= j < Count(k, key) ==> HasText(k, Item(key, j))
    decreases Count(k, key) - i
  {
    if i < Count(k, key) { ItemsSound(k, key, i + 1); }
  }

  lemma {:induction false} EntriesSound(k: Kvp, key: string, i: nat)
    ensures EntriesFault(k, key, i).None? <==> forall j :: i <= j < Count(k, key) ==> HasEntry(k, Item(key, j))
    decreases Count(k, key) - i
  {
    if i < Count(k, key) { EntriesSound(k, key, i + 1); }
  }

  lemma ListsSound(k: Kvp, key: string)
    ensures ListFault(k, key).None? <==> HasList(k, key)
    ensures MetadataFault(k, key).None? <==> HasMetadata(k, key)
  {
    ItemsSound(k, key, 0);
    EntriesSound(k, key, 0);
  }

  lemma {:induction false} TokensSound(properties: seq<string>, place: string, i: nat)
    ensures TokensFault(properties, place, i).None? <==>
              forall j :: i <= j < |properties| ==> TokenFault(properties, place, j).None?
    decreases |properties| - i
  {
    if i < |properties| { TokensSound(properties, place, i + 1); }
  }

  lemma {:induction false} AlignsSound(properties: seq<string>, metadata: seq<MetadataConfig>, place: string, i: nat)
    requires |metadata| == |properties|
    ensures AlignsFault(properties, metadata, place, i).None? <==>
              forall j :: i <= j < |metadata| ==> AlignFault(properties[j], metadata[j], place, j).None?
    decreases |metadata| - i
  {
    if i < |metadata| { AlignsSound(properties, metadata, place, i + 1); }
  }

  lemma DeclarationSound(properties: seq<string>, metadata: seq<MetadataConfig>, place: string)
    ensures DeclarationFault(properties, metadata, place).None? <==> Declares(properties, metadata)
  {
    hide Trimmed, Find;
    TokensSound(properties, place, 0);
    KnownAndDistinct(properties, place);
    if |metadata| == |properties| {
      AlignsSound(properties, metadata, place, 0);
      if Declares(properties, metadata) {
        assert forall j :: 0 <= j < |metadata| ==> AlignFault(properties[j], metadata[j], place, j).None?;
      }
    }
  }

  lemma KnownAndDistinct(properties: seq<string>, place: string)
    ensures (forall i :: 0 <= i < |properties| ==> TokenFault(properties, place, i).None?) <==>
              (forall t <- properties :: PropertyOf(t).Some?) && Distinct(properties)
  {
    hide Trimmed, Find;
    if forall i :: 0 <= i < |properties| ==> TokenFault(properties, place, i).None? {
      forall i | 0 <= i < |properties|
        ensures PropertyOf(properties[i]).Some? && properties[i] !in properties[..i]
      {
        assert TokenFault(properties, place, i).None?;
      }
    }
    forall i, j | 0 <= i < j < |properties| && properties[i] == properties[j]
      ensures TokenFault(properties, place, j).Some?
    {
      assert properties[..j][i] == properties[j];
    }
  }

  lemma PortSound(k: Kvp, place: string)
    ensures PortFault(k, place).None? <==> HasPort(k, place) && PortAccepted(PortAt(k, place))
  {
    hide Declares, DeclarationFault, ListFault, MetadataFault, HasList, HasMetadata, ParseInt32;
    ListsSound(k, Under(place, "supportedProperties"));
    ListsSound(k, Under(place, "propertyMetadata"));
    DeclarationSound(PortAt(k, place).supportedProperties, PortAt(k, place).propertyMetadata, place);
    IntsFit(TextAt(k, Under(place, "id")));
  }

  lemma IntsFit(s: string)
    ensures ParseInt32(s).Some? ==> INT32_MIN <= ParseInt32(s).value <= INT32_MAX
  {
  }

  lemma PlatformSound(k: Kvp)
    ensures PlatformFault(k).None? <==>
              && HasPlatform(k) && 1 <= ConfigAt(k).maxPorts <= INT32_MAX
              && 1 <= ConfigAt(k).maximumConcurrentStartedPorts <= INT32_MAX && ConfigAt(k).halVersion != ""
              && Declares(ConfigAt(k).supportedProperties, ConfigAt(k).propertyMetadata)
  {
    hide Declares, DeclarationFault, ListFault, MetadataFault, HasList, HasMetadata, ParseInt32;
    ListsSound(k, Under(PLATFORM, "supportedProperties"));
    ListsSound(k, Under(PLATFORM, "propertyMetadata"));
    DeclarationSound(ConfigAt(k).supportedProperties, ConfigAt(k).propertyMetadata, PLATFORM);
    IntsFit(TextAt(k, Under(PLATFORM, "maxPorts")));
    IntsFit(TextAt(k, Under(PLATFORM, "maximumConcurrentStartedPorts")));
  }

  lemma {:induction false} PortsSound(k: Kvp, i: nat)
    ensures PortsFault(k, i).None? <==>
              forall j :: i <= j < Count(k, PORTS) ==> PortFault(k, Item(PORTS, j)).None? && !RepeatsId(PortsAt(k), j)
    decreases Count(k, PORTS) - i
  {
    hide PortFault, PortAt;
    if i < Count(k, PORTS) { PortsSound(k, i + 1); }
  }

  /** The parser accepts a store exactly when nothing required is missing and the profile is valid. */
  lemma AcceptsExactlyTheValid(k: Kvp)
    ensures ProfileFault(k).None? <==> Complete(k) && Accepted(ConfigAt(k))
  {
    hide PortFault, PortAt, PlatformFault, PortAccepted, HasPort, HasPlatform, Declares;
    PortsSound(k, 0);
    PlatformSound(k);
    forall i | 0 <= i < Count(k, PORTS)
      ensures PortFault(k, Item(PORTS, i)).None? <==> HasPort(k, Item(PORTS, i)) && PortAccepted(PortsAt(k)[i])
    {
      PortSound(k, Item(PORTS, i));
    }
    IdsDiffer(PortsAt(k));
    assert |PortsAt(k)| == Count(k, PORTS);
  }

  lemma IdsDiffer(ports: seq<PortConfig>)
    ensures (forall i :: 0 <= i < |ports| ==> !RepeatsId(ports, i)) <==>
            forall i, j :: 0 <= i < j < |ports| ==> ports[i].id != ports[j].id
  {
    forall i, j | 0 <= i < j < |ports| && ports[i].id == ports[j].id
      ensures RepeatsId(ports, j)
    {
    }
  }

  // ----- the parser

  /** Reads one field; `previous` is what the caller's variable keeps if an optional field is absent. */
  method ReadStringField(k: Kvp, key: string, required: bool, previous: string)
    returns (value: string, fault: Option<Problem>)
    ensures fault == if required then TextFault(k, key) else OptionalFault(k, key)
    ensures fault.None? ==> value == if required || key in k.present then TextAt(k, key) else previous
  {
    value := previous;
    if key !in k.present {
      return value, if required then Some(Missing(key)) else None;
    }
    if key !in k.text {
      return value, Some(Unreadable(key));
    }
    value := k.text[key];
    if required && value == "" {
      return value, Some(EmptyField(key));
    }
    return value, None;
  }

  method ReadInt32Field(k: Kvp, key: string, required: bool, previous: int)
    returns (value: int, fault: Option<Problem>)
    ensures fault == if required then IntFault(k, key) else OptionalIntFault(k, key)
    ensures fault.None? ==> value == if required || Given(k, key) then IntAt(k, key) else previous
  {
    value := previous;
    var text;
    text, fault := ReadStringField(k, key, required, "");
    if fault.None? && !(text == "" && !required) {
      match ParseInt32(text)
      case Some(v) => value := v;
      case None => fault := Some(BadInteger(key, text));
    }
  }

  method ReadBoolField(k: Kvp, key: string, required: bool, previous: bool)
    returns (value: bool, fault: Option<Problem>)
    ensures fault == if required then BoolFault(k, key) else OptionalBoolFault(k, key)
    ensures fault.None? ==> value == if required || Given(k, key) then BoolAt(k, key) else previous
  {
    value := previous;
    var text;
    text, fault := ReadStringField(k, key, required, "");
    if fault.None? && !(text == "" && !required) {
      match ParseBool(text)
      case Some(v) => value := v;
      case None => fault := Some(BadBoolean(key, text));
    }
  }

  method ReadStringList(k: Kvp, key: string, required: bool) returns (values: seq<string>, fault: Option<Problem>)
    ensures fault == if required || key in k.present then ListFault(k, key) else None
    ensures fault.None? ==> values == if required || key in k.present then ListAt(k, key) else []
  {
    values := [];
    if key !in k.present {
      return values, if required then Some(Missing(key)) else None;
    }
    var count := Count(k, key);
    for index := 0 to count
      invariant ItemsFault(k, key, 0) == ItemsFault(k, key, index)
      invariant values == ListAt(k, key)[..index]
    {
      var value;
      value, fault := ReadStringField(k, Item(key, index), true, "");
      if fault.Some? {
        return;
      }
      values := values + [value];
    }
    fault := None;
  }

  method ReadEntry(k: Kvp, place: string) returns (entry: MetadataConfig, fault: Option<Problem>)
    ensures fault == EntryFault(k, place) && (fault.None? ==> entry == EntryAt(k, place))
  {
    hide TextFault, BoolFault, TextAt, BoolAt;
    entry := EMPTY_METADATA;
    var key, kind, readOnly, isMetric, description;
    key, fault := ReadStringField(k, Under(place, "key"), true, "");
    if fault.Some? { return; }
    kind, fault := ReadStringField(k, Under(place, "type"), true, "");
    if fault.Some? { return; }
    readOnly, fault := ReadBoolField(k, Under(place, "readOnly"), true, true);
    if fault.Some? { return; }
    isMetric, fault := ReadBoolField(k, Under(place, "isMetric"), true, false);
    if fault.Some? { return; }
    description, fault := ReadStringField(k, Under(place, "description"), true, "");
    if fault.Some? { return; }
    entry := MetadataConfig(key, kind, readOnly, isMetric, description);
  }

  method ReadPropertyMetadata(k: Kvp, key: string) returns (values: seq<MetadataConfig>, fault: Option<Problem>)
    ensures fault == MetadataFault(k, key) && (fault.None? ==> values == MetadataAt(k, key))
  {
    hide EntryFault, EntryAt;
    values := [];
    if key !in k.present {
      return values, Some(Missing(key));
    }
    var count := Count(k, key);
    for index := 0 to count
      invariant EntriesFault(k, key, 0) == EntriesFault(k, key, index)
      invariant values == MetadataAt(k, key)[..index]
    {
      var entry;
      entry, fault := ReadEntry(k, Item(key, index));
      if fault.Some? {
        return;
      }
      values := values + [entry];
    }
    fault := None;
  }

  method ValidateProperties(properties: seq<string>, metadata: seq<MetadataConfig>, place: string)
    returns (fault: Option<Problem>)
    ensures fault == DeclarationFault(properties, metadata, place)
  {
    hide Trimmed, Find;
    var propertyTokens: set<string> := {};
    for index := 0 to |properties|
      invariant propertyTokens == set t <- properties[..index]
      invariant TokensFault(properties, place, 0) == TokensFault(properties, place, index)
    {
      var property := FromString(PORT_PROPERTY_TOKENS, properties[index]);
      if property.None? {
        return Some(UnsupportedToken(place, index));
      }
      if properties[index] in propertyTokens {
        return Some(DuplicateToken(place, index));
      }
      propertyTokens := propertyTokens + {properties[index]};
    }
    if |metadata| != |properties| {
      return Some(CountMismatch(place));
    }
    for index := 0 to |metadata|
      invariant AlignsFault(properties, metadata, place, 0) == AlignsFault(properties, metadata, place, index)
    {
      var entry := metadata[index];
      var property := FromString(PORT_PROPERTY_TOKENS, entry.key);
      if property.None? {
        return Some(UnsupportedKey(place, index));
      }
      var kind := FromString(PROPERTY_TYPE_TOKENS, entry.kind);
      if kind.None? {
        return Some(UnsupportedType(place, index));
      }
      if entry.key != properties[index] {
        return Some(OutOfOrder(place, index));
      }
      if entry.description == "" {
        return Some(NoDescription(place, index));
      }
    }
    return None;
  }

  method ReadPort(k: Kvp, index: nat) returns (port: PortConfig, fault: Option<Problem>)
    ensures fault == PortFault(k, Item(PORTS, index)) && (fault.None? ==> port == PortAt(k, Item(PORTS, index)))
  {
    hide TextFault, IntFault, TextAt, IntAt, ListFault, MetadataFault, ListAt, MetadataAt, DeclarationFault;
    port := EMPTY_PORT;
    var place := Item(PORTS, index);
    var id, name, description, supportedProperties, propertyMetadata;
    id, fault := ReadInt32Field(k, Under(place, "id"), true, -1);
    if fault.Some? { return; }
    name, fault := ReadStringField(k, Under(place, "name"), true, "");
    if fault.Some? { return; }
    description, fault := ReadStringField(k, Under(place, "description"), true, "");
    if fault.Some? { return; }
    supportedProperties, fault := ReadStringList(k, Under(place, "supportedProperties"), true);
    if fault.Some? { return; }
    propertyMetadata, fault := ReadPropertyMetadata(k, Under(place, "propertyMetadata"));
    if fault.Some? { return; }
    port := PortConfig(id, name, description, supportedProperties, propertyMetadata);
    if id < 0 {
      return port, Some(NegativeId(place));
    }
    fault := ValidateProperties(supportedProperties, propertyMetadata, place);
  }

  method ReadPlatformCapabilities(k: Kvp, config: HfpConfig) returns (r: HfpConfig, fault: Option<Problem>)
    ensures fault == PlatformFault(k)
    ensures fault.None? ==> r == ConfigAt(k).(interfaceVersion := config.interfaceVersion, ports := config.ports)
  {
    hide TextFault, IntFault, BoolFault, TextAt, IntAt, BoolAt, ListFault, MetadataFault, ListAt, MetadataAt,
         DeclarationFault, PortsAt;
    r := config;
    if PLATFORM !in k.present {
      return r, Some(Missing(PLATFORM));
    }
    var halVersion, maxPorts, limit, supportedProperties, propertyMetadata, macrovision;
    halVersion, fault := ReadStringField(k, Under(PLATFORM, "halVersion"), true, "");
    if fault.Some? { return; }
    maxPorts, fault := ReadInt32Field(k, Under(PLATFORM, "maxPorts"), true, 0);
    if fault.Some? { return; }
    limit, fault := ReadInt32Field(k, Under(PLATFORM, "maximumConcurrentStartedPorts"), true, 1);
    if fault.Some? { return; }
    supportedProperties, fault := ReadStringList(k, Under(PLATFORM, "supportedProperties"), true);
    if fault.Some? { return; }
    propertyMetadata, fault := ReadPropertyMetadata(k, Under(PLATFORM, "propertyMetadata"));
    if fault.Some? { return; }
    macrovision, fault := ReadBoolField(k, Under(PLATFORM, MACROVISION), true, false);
    if fault.Some? { return; }
    r := HfpConfig(config.interfaceVersion, config.ports, halVersion, maxPorts, limit,
                   supportedProperties, propertyMetadata, macrovision);
    if maxPorts < 1 {
      return r, Some(MaxPortsTooSmall);
    }
    if limit < 1 {
      return r, Some(LimitTooSmall);
    }
    fault := ValidateProperties(supportedProperties, propertyMetadata, PLATFORM);
  }

  /** The port loop of parseConfig(). */
  method ReadPorts(k: Kvp) returns (ports: seq<PortConfig>, fault: Option<Problem>)
    ensures fault == PortsFault(k, 0) && (fault.None? ==> ports == PortsAt(k))
  {
    hide PortFault, PortAt;
    ports, fault := [], None;
    var portIds: set<int> := {};
    var count := Count(k, PORTS);
    var index := 0;
    while fault.None? && index < count
      invariant 0 <= index <= count
      invariant fault.Some? ==> fault == PortsFault(k, 0)
      invariant fault.None? ==>
                  && PortsFault(k, 0) == PortsFault(k, index)
                  && ports == PortsAt(k)[..index]
                  && portIds == set p <- PortsAt(k)[..index] :: p.id
      decreases fault.None?, count - index
    {
      var port;
      port, fault := ReadPort(k, index);
      assert fault.None? ==> port == PortsAt(k)[index];
      assert fault.None? ==> (port.id in portIds <==> RepeatsId(PortsAt(k), index));
      if fault.None? && port.id in portIds {
        fault := Some(DuplicateId(index, port.id));
      }
      if fault.None? {
        portIds := portIds + {port.id};
        ports := ports + [port];
      }
      index := index + 1;
    }
  }

  /**
   vcomponent_CompositeInput_parseConfig(): `store` is what opening the file gives, None when it
   cannot be opened. All or nothing: without a problem, exactly what the store holds; with one,
   the default configuration.
  */
  method Parse(path: Option<string>, store: Option<Kvp>) returns (config: HfpConfig, fault: Option<Problem>)
    ensures fault.None? <==>
              && path.Some? && path.value != "" && store.Some?
              && Complete(store.value) && Accepted(ConfigAt(store.value))
    ensures fault.None? ==> config == ConfigAt(store.value)
    ensures fault.Some? ==> config == EMPTY_CONFIG
    ensures path.Some? && path.value != "" && store.Some? ==> fault == ProfileFault(store.value)
  {
    hide PortsFault, PlatformFault, PortsAt, TextFault, Complete, Accepted;
    config := EMPTY_CONFIG;
    if path.None? || path.value == "" {
      return config, Some(EmptyPath);
    }
    if store.None? {
      return config, Some(CannotOpen(path.value));
    }
    var k := store.value;
    AcceptsExactlyTheValid(k);
    var parsedConfig := EMPTY_CONFIG;
    fault := if ROOT in k.present then None else Some(NoProfile);
    if fault.None? {
      var version;
      version, fault := ReadStringField(k, INTERFACE_VERSION, true, "");
      parsedConfig := parsedConfig.(interfaceVersion := version);
    }
    if fault.None? && PORTS !in k.present {
      fault := Some(Missing(PORTS));
    }
    if fault.None? {
      if Count(k, PORTS) == 0 {
        fault := Some(NoPorts);
      } else {
        var ports;
        ports, fault := ReadPorts(k);
        parsedConfig := parsedConfig.(ports := ports);
      }
    }
    if fault.None? {
      parsedConfig, fault := ReadPlatformCapabilities(k, parsedConfig);
    }
    if fault.None? {
      config := parsedConfig;
    }
  }
}
