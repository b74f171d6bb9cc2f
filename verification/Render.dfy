/**
 The way back from a configuration to a store: every valid configuration is the reading of some
 store, so what the parser refuses is refused for a reason, and no two fields share a key.
*/
module Render {
  import opened Common
  import opened Tokens
  import opened ParseConfig

  datatype Place = OfPort(index: nat) | OfPlatform

  datatype Name = Id | PortName | Description | HalVersion | MaxPorts | Limit | Macrovision

  datatype EntryField = Key | Kind | ReadOnly | IsMetric | About

  /** Everything the parser looks up. */
  datatype Path =
    | Root
    | Version
    | Ports
    | Platform
    | Scalar(place: Place, name: Name)
    | Properties(place: Place)
    | Token(place: Place, at: nat)
    | Metadata(place: Place)
    | Entry(place: Place, at: nat, field: EntryField)

  // ----- keys as segments between dots

  ghost predicate Plain(s: string) {
    '.' !in s
  }

  function Join(segments: seq<string>): string
    requires segments != []
  {
    if |segments| == 1 then segments[0] else segments[0] + "." + Join(segments[1..])
  }

  /** Up to its first dot, a key is its first segment. */
  lemma HeadIsShorter(a: seq<string>, b: seq<string>)
    requires a != [] && b != [] && Plain(a[0]) && Plain(b[0]) && Join(a) == Join(b)
    ensures |a[0]| <= |b[0]| && (|a[0]| == |b[0]| ==> (|a| == 1 ==> |b| == 1))
  {
    var x, y := a[0], b[0];
    if |b| > 1 { assert Join(b)[|y|] == '.'; }
    assert forall i :: 0 <= i < |x| ==> x[i] in x && Join(a)[i] == x[i];
  }

  /** The segments can be told from the key. */
  lemma {:induction false} JoinIsInjective(a: seq<string>, b: seq<string>)
    requires a != [] && b != [] && (forall s <- a :: Plain(s)) && (forall s <- b :: Plain(s))
    requires Join(a) == Join(b)
    ensures a == b
  {
    var x, y := a[0], b[0];
    HeadIsShorter(a, b);
    HeadIsShorter(b, a);
    assert x == Join(a)[..|x|] && y == Join(b)[..|y|];
    if |a| > 1 {
      assert Join(a[1..]) == Join(a)[|x| + 1..];
      assert Join(b[1..]) == Join(b)[|y| + 1..];
      JoinIsInjective(a[1..], b[1..]);
      assert a == [x] + a[1..] && b == [y] + b[1..];
    }
  }

  function PlaceSegments(place: Place): seq<string> {
    match place
    case OfPort(i) => [ROOT, "ports", Decimal(i)]
    case OfPlatform => [ROOT, "platformCapabilities"]
  }

  function NameWord(name: Name): string {
    match name
    case Id => "id"
    case PortName => "name"
    case Description => "description"
    case HalVersion => "halVersion"
    case MaxPorts => "maxPorts"
    case Limit => "maximumConcurrentStartedPorts"
    case Macrovision => "features"
  }

  function FieldWord(field: EntryField): string {
    match field
    case Key => "key"
    case Kind => "type"
    case ReadOnly => "readOnly"
    case IsMetric => "isMetric"
    case About => "description"
  }

  function Rest(path: Path): seq<string>
    requires !path.Root? && !path.Version? && !path.Ports? && !path.Platform?
  {
    match path
    case Scalar(_, name) =>
      if name.Macrovision? then ["features", "macrovisionDetectionSupported"] else [NameWord(name)]
    case Properties(_) => ["supportedProperties"]
    case Token(_, j) => ["supportedProperties", Decimal(j)]
    case Metadata(_) => ["propertyMetadata"]
    case Entry(_, j, field) => ["propertyMetadata", Decimal(j), FieldWord(field)]
  }

  function Segments(path: Path): seq<string> {
    match path
    case Root => [ROOT]
    case Version => [ROOT, "interfaceVersion"]
    case Ports => [ROOT, "ports"]
    case Platform => [ROOT, "platformCapabilities"]
    case _ => PlaceSegments(path.place) + Rest(path)
  }

  function KeyOf(path: Path): string {
    Join(Segments(path))
  }

  // ----- the segments determine the path

  function NumberIn(s: string): nat {
    match ValueIn(10, s) case Some(v) => v case None => 0
  }

  function NameIn(word: string): Name {
    if word == "id" then Id
    else if word == "name" then PortName
    else if word == "description" then Description
    else if word == "halVersion" then HalVersion
    else if word == "maxPorts" then MaxPorts
    else if word == "maximumConcurrentStartedPorts" then Limit
    else Macrovision
  }

  function FieldIn(word: string): EntryField {
    if word == "key" then Key
    else if word == "type" then Kind
    else if word == "readOnly" then ReadOnly
    else if word == "isMetric" then IsMetric
    else About
  }

  function PathIn(place: Place, rest: seq<string>): Path
    requires rest != []
  {
    if rest[0] == "supportedProperties" then
      (if |rest| == 1 then Properties(place) else Token(place, NumberIn(rest[1])))
    else if rest[0] == "propertyMetadata" then
      (if |rest| < 3 then Metadata(place) else Entry(place, NumberIn(rest[1]), FieldIn(rest[2])))
    else Scalar(place, NameIn(rest[0]))
  }

  function PathOf(segments: seq<string>): Path
    requires segments != []
  {
    if |segments| == 1 then Root
    else if segments[1] == "interfaceVersion" then Version
    else if segments[1] == "ports" then
      (if |segments| < 4 then Ports else PathIn(OfPort(NumberIn(segments[2])), segments[3..]))
    else
      (if |segments| == 2 then Platform else PathIn(OfPlatform, segments[2..]))
  }

  lemma WordsReadBack(name: Name, field: EntryField)
    ensures NameIn(NameWord(name)) == name && FieldIn(FieldWord(field)) == field
    ensures NameWord(name) != "supportedProperties" && NameWord(name) != "propertyMetadata"
    ensures Plain(NameWord(name)) && Plain(FieldWord(field))
  {
    assert "readOnly"[0] != "isMetric"[0] && "maxPorts"[0] != "features"[0];
  }

  lemma {:induction false} DecimalIsPlain(n: nat)
    ensures Plain(Decimal(n)) && NumberIn(Decimal(n)) == n
  {
    DecimalDenotes(n);
    if n >= 10 { DecimalIsPlain(n / 10); }
  }

  lemma RestReadsBack(path: Path)
    requires !path.Root? && !path.Version? && !path.Ports? && !path.Platform?
    ensures PathIn(path.place, Rest(path)) == path && forall s <- Rest(path) :: Plain(s)
  {
    hide NameIn, FieldIn, NumberIn, Decimal;
    match path
    case Scalar(_, name) => WordsReadBack(name, Key);
    case Token(_, j) => DecimalIsPlain(j);
    case Entry(_, j, field) =>
      WordsReadBack(Id, field);
      DecimalIsPlain(j);
    case _ =>
  }

  lemma SegmentsReadBack(path: Path)
    ensures PathOf(Segments(path)) == path && forall s <- Segments(path) :: Plain(s)
  {
    hide PathIn, Rest, NumberIn, Decimal;
    if !path.Root? && !path.Version? && !path.Ports? && !path.Platform? {
      RestReadsBack(path);
      var place, rest := PlaceSegments(path.place), Rest(path);
      assert Segments(path)[|place|..] == rest;
      assert rest != [] by { RestIsNonempty(path); }
      if path.place.OfPort? { DecimalIsPlain(path.place.index); }
    }
  }

  lemma RestIsNonempty(path: Path)
    requires !path.Root? && !path.Version? && !path.Ports? && !path.Platform?
    ensures Rest(path) != []
  {
  }

  /** No two fields of a profile share a key. */
  lemma KeysDiffer(p: Path, q: Path)
    ensures KeyOf(p) == KeyOf(q) <==> p == q
  {
    hide PathOf, Segments, Join;
    if KeyOf(p) == KeyOf(q) {
      SegmentsReadBack(p);
      SegmentsReadBack(q);
      assert Segments(p) != [] && Segments(q) != [] by { SegmentsAreNonempty(p); SegmentsAreNonempty(q); }
      JoinIsInjective(Segments(p), Segments(q));
    }
  }

  lemma SegmentsAreNonempty(path: Path)
    ensures Segments(path) != []
  {
  }

  // ----- the store of a configuration

  function PropertiesOf(c: HfpConfig, place: Place): seq<string> {
    if place.OfPort? && place.index < |c.ports| then c.ports[place.index].supportedProperties
    else c.supportedProperties
  }

  function MetadataOf(c: HfpConfig, place: Place): seq<MetadataConfig> {
    if place.OfPort? && place.index < |c.ports| then c.ports[place.index].propertyMetadata
    else c.propertyMetadata
  }

  function BoolText(b: bool): string {
    if b then "true" else "false"
  }

  function NumberText(i: int): string {
    if i < 0 then "" else Decimal(i)
  }

  function ScalarText(c: HfpConfig, place: Place, name: Name): string {
    match name
    case Id => if place.OfPort? && place.index < |c.ports| then NumberText(c.ports[place.index].id) else ""
    case PortName => if place.OfPort? && place.index < |c.ports| then c.ports[place.index].name else ""
    case Description => if place.OfPort? && place.index < |c.ports| then c.ports[place.index].description else ""
    case HalVersion => c.halVersion
    case MaxPorts => NumberText(c.maxPorts)
    case Limit => NumberText(c.maximumConcurrentStartedPorts)
    case Macrovision => BoolText(c.macrovision)
  }

  function EntryText(e: MetadataConfig, field: EntryField): string {
    match field
    case Key => e.key
    case Kind => e.kind
    case ReadOnly => BoolText(e.readOnly)
    case IsMetric => BoolText(e.isMetric)
    case About => e.description
  }

  function PathText(c: HfpConfig, path: Path): string {
    match path
    case Version => c.interfaceVersion
    case Scalar(place, name) => ScalarText(c, place, name)
    case Token(place, j) => if j < |PropertiesOf(c, place)| then PropertiesOf(c, place)[j] else ""
    case Entry(place, j, field) => if j < |MetadataOf(c, place)| then EntryText(MetadataOf(c, place)[j], field) else ""
    case _ => ""
  }

  function PathCount(c: HfpConfig, path: Path): nat {
    match path
    case Ports => |c.ports|
    case Properties(place) => |PropertiesOf(c, place)|
    case Metadata(place) => |MetadataOf(c, place)|
    case _ => 0
  }

  function Places(c: HfpConfig): set<Place> {
    (set i: nat | i < |c.ports| :: OfPort(i)) + {OfPlatform}
  }

  const NAMES := {Id, PortName, Description, HalVersion, MaxPorts, Limit, Macrovision}
  const FIELDS := {Key, Kind, ReadOnly, IsMetric, About}

  /** Every path the configuration has something for. */
  ghost function Paths(c: HfpConfig): set<Path> {
    {Root, Version, Ports, Platform}
    + (set place, name | place in Places(c) && name in NAMES :: Scalar(place, name))
    + (set place | place in Places(c) :: Properties(place))
    + (set place | place in Places(c) :: Metadata(place))
    + (set place, j | place in Places(c) && 0 <= j < |PropertiesOf(c, place)| :: Token(place, j))
    + (set place, j, field | place in Places(c) && 0 <= j < |MetadataOf(c, place)| && field in FIELDS ::
         Entry(place, j, field))
  }

  ghost function Keys(c: HfpConfig): set<string> {
    set path | path in Paths(c) :: KeyOf(path)
  }

  ghost function PathAt(c: HfpConfig, key: string): Path
    requires key in Keys(c)
  {
    var path :| path in Paths(c) && KeyOf(path) == key; path
  }

  ghost function Rendered(c: HfpConfig): Kvp {
    Kvp(Keys(c),
        map key | key in Keys(c) :: PathText(c, PathAt(c, key)),
        map key | key in Keys(c) :: PathCount(c, PathAt(c, key)))
  }

  lemma RenderedAt(c: HfpConfig, path: Path)
    requires path in Paths(c)
    ensures var k := Rendered(c); var key := KeyOf(path);
            key in k.present && TextAt(k, key) == PathText(c, path) && Count(k, key) == PathCount(c, path)
  {
    hide KeyOf, PathText, PathCount, Paths;
    var key := KeyOf(path);
    assert key in Keys(c);
    KeysDiffer(path, PathAt(c, key));
  }

  // ----- the keys are the ones the parser builds

  lemma {:induction false} JoinOneMore(segments: seq<string>, s: string)
    requires segments != []
    ensures Join(segments + [s]) == Under(Join(segments), s)
  {
    if |segments| > 1 {
      JoinOneMore(segments[1..], s);
      assert (segments + [s])[1..] == segments[1..] + [s];
    }
  }

  function PlaceKey(place: Place): string {
    match place
    case OfPort(i) => Item(ParseConfig.PORTS, i)
    case OfPlatform => ParseConfig.PLATFORM
  }

  function NameKey(name: Name): string {
    if name.Macrovision? then ParseConfig.MACROVISION else NameWord(name)
  }

  /** The keys the parser has as constants. */
  lemma FixedKeys()
    ensures KeyOf(Root) == ROOT && KeyOf(Version) == ParseConfig.INTERFACE_VERSION
    ensures KeyOf(Ports) == ParseConfig.PORTS && KeyOf(Platform) == ParseConfig.PLATFORM
  {
    JoinOneMore([ROOT], "interfaceVersion");
    JoinOneMore([ROOT], "ports");
    JoinOneMore([ROOT], "platformCapabilities");
  }

  lemma PlaceKeys(place: Place)
    ensures Join(PlaceSegments(place)) == PlaceKey(place)
  {
    FixedKeys();
    if place.OfPort? {
      JoinOneMore([ROOT, "ports"], Decimal(place.index));
    }
  }

  lemma UnderNests(a: string, b: string, c: string)
    ensures Under(Under(a, b), c) == Under(a, Under(b, c))
  {
  }

  lemma ScalarKey(place: Place, name: Name)
    ensures KeyOf(Scalar(place, name)) == Under(PlaceKey(place), NameKey(name))
  {
    hide Decimal, Join, PlaceKey, NameWord;
    PlaceKeys(place);
    var segments := PlaceSegments(place);
    if name.Macrovision? {
      JoinOneMore(segments, "features");
      JoinOneMore(segments + ["features"], "macrovisionDetectionSupported");
      assert segments + ["features"] + ["macrovisionDetectionSupported"] == Segments(Scalar(place, name));
      UnderNests(Join(segments), "features", "macrovisionDetectionSupported");
    } else {
      JoinOneMore(segments, NameWord(name));
    }
  }

  lemma ListKeys(place: Place, j: nat)
    ensures KeyOf(Properties(place)) == Under(PlaceKey(place), "supportedProperties")
    ensures KeyOf(Token(place, j)) == Item(KeyOf(Properties(place)), j)
    ensures KeyOf(Metadata(place)) == Under(PlaceKey(place), "propertyMetadata")
  {
    hide Decimal, Join, PlaceKey;
    PlaceKeys(place);
    var segments := PlaceSegments(place);
    JoinOneMore(segments, "supportedProperties");
    JoinOneMore(segments, "propertyMetadata");
    JoinOneMore(segments + ["supportedProperties"], Decimal(j));
    assert segments + ["supportedProperties"] + [Decimal(j)] == Segments(Token(place, j));
  }

  lemma EntryKey(place: Place, j: nat, field: EntryField)
    ensures KeyOf(Entry(place, j, field)) == Under(Item(KeyOf(Metadata(place)), j), FieldWord(field))
  {
    hide Decimal, Join, PlaceKey, FieldWord;
    var segments := PlaceSegments(place) + ["propertyMetadata"];
    JoinOneMore(segments, Decimal(j));
    JoinOneMore(segments + [Decimal(j)], FieldWord(field));
    assert segments + [Decimal(j)] + [FieldWord(field)] == Segments(Entry(place, j, field));
    assert segments == Segments(Metadata(place));
  }

  // ----- reading back

  lemma KnownTokensHaveText(token: string)
    ensures PropertyOf(token).Some? || TypeOf(token).Some? ==> token != ""
  {
    if token == "" {
      FindIsEntry(PORT_PROPERTY_TOKENS, "");
      FindIsEntry(PROPERTY_TYPE_TOKENS, "");
    }
  }

  lemma PropertiesReadBack(c: HfpConfig, place: Place)
    requires place in Places(c) && Declares(PropertiesOf(c, place), MetadataOf(c, place))
    ensures var key := Under(PlaceKey(place), "supportedProperties");
            HasList(Rendered(c), key) && ListAt(Rendered(c), key) == PropertiesOf(c, place)
  {
    hide KeyOf, PropertyOf, TypeOf, Rendered, Places, PropertiesOf, PlaceKey, TextAt, Count;
    var k, key := Rendered(c), Under(PlaceKey(place), "supportedProperties");
    ListKeys(place, 0);
    RenderedAt(c, Properties(place));
    forall j | 0 <= j < |PropertiesOf(c, place)|
      ensures HasText(k, Item(key, j)) && TextAt(k, Item(key, j)) == PropertiesOf(c, place)[j]
    {
      ListKeys(place, j);
      RenderedAt(c, Token(place, j));
      KnownTokensHaveText(PropertiesOf(c, place)[j]);
    }
  }

  lemma BoolReadsBack(b: bool)
    ensures ParseBool(BoolText(b)) == Some(b) && BoolText(b) != ""
  {
    assert "true"[0] != "false"[0] && "false" != "False" && "false" != "FALSE" && "false" != "0";
  }

  lemma EntryReadsBack(c: HfpConfig, place: Place, j: nat)
    requires place in Places(c) && j < |MetadataOf(c, place)|
    requires MetadataOf(c, place)[j].key != "" && MetadataOf(c, place)[j].kind != ""
    requires MetadataOf(c, place)[j].description != ""
    ensures var at := Item(Under(PlaceKey(place), "propertyMetadata"), j);
            HasEntry(Rendered(c), at) && EntryAt(Rendered(c), at) == MetadataOf(c, place)[j]
  {
    hide KeyOf, Rendered, Places, MetadataOf, PlaceKey, TextAt, Count, ParseBool, BoolText;
    ListKeys(place, 0);
    forall field: EntryField
      ensures var key := Under(Item(Under(PlaceKey(place), "propertyMetadata"), j), FieldWord(field));
              key in Rendered(c).present && TextAt(Rendered(c), key) == EntryText(MetadataOf(c, place)[j], field)
    {
      EntryKey(place, j, field);
      assert field in FIELDS;
      RenderedAt(c, Entry(place, j, field));
    }
    assert FieldWord(Key) == "key" && FieldWord(Kind) == "type" && FieldWord(ReadOnly) == "readOnly"
        && FieldWord(IsMetric) == "isMetric" && FieldWord(About) == "description";
    BoolReadsBack(MetadataOf(c, place)[j].readOnly);
    BoolReadsBack(MetadataOf(c, place)[j].isMetric);
  }

  lemma MetadataReadsBack(c: HfpConfig, place: Place)
    requires place in Places(c) && Declares(PropertiesOf(c, place), MetadataOf(c, place))
    ensures var key := Under(PlaceKey(place), "propertyMetadata");
            HasMetadata(Rendered(c), key) && MetadataAt(Rendered(c), key) == MetadataOf(c, place)
  {
    hide KeyOf, PropertyOf, TypeOf, Rendered, Places, PropertiesOf, MetadataOf, PlaceKey, HasEntry, EntryAt, Count;
    ListKeys(place, 0);
    RenderedAt(c, Metadata(place));
    forall j | 0 <= j < |MetadataOf(c, place)|
      ensures var at := Item(Under(PlaceKey(place), "propertyMetadata"), j);
              HasEntry(Rendered(c), at) && EntryAt(Rendered(c), at) == MetadataOf(c, place)[j]
    {
      KnownTokensHaveText(PropertiesOf(c, place)[j]);
      KnownTokensHaveText(MetadataOf(c, place)[j].kind);
      EntryReadsBack(c, place, j);
    }
  }

  lemma ScalarReadsBack(c: HfpConfig, place: Place, name: Name)
    requires place in Places(c)
    ensures var key := Under(PlaceKey(place), NameKey(name));
            key in Rendered(c).present && TextAt(Rendered(c), key) == ScalarText(c, place, name)
  {
    hide KeyOf, Rendered, Places, PlaceKey, TextAt, NameKey, ScalarText;
    ScalarKey(place, name);
    assert name in NAMES;
    RenderedAt(c, Scalar(place, name));
  }

  lemma NumberReadsBack(n: nat)
    requires n <= INT32_MAX
    ensures NumberText(n) != "" && ParseInt32(NumberText(n)) == Some(n)
  {
    DecimalRoundTrip(n);
    DecimalDenotes(n);
  }

  lemma PortReadsBack(c: HfpConfig, i: nat)
    requires i < |c.ports| && PortAccepted(c.ports[i])
    ensures HasPort(Rendered(c), Item(PORTS, i)) && PortAt(Rendered(c), Item(PORTS, i)) == c.ports[i]
  {
    hide Rendered, HasList, HasMetadata, ListAt, MetadataAt, TextAt, ParseInt32, NumberText, Declares;
    var place := OfPort(i);
    ScalarReadsBack(c, place, Id);
    ScalarReadsBack(c, place, PortName);
    ScalarReadsBack(c, place, Description);
    NumberReadsBack(c.ports[i].id);
    PropertiesReadBack(c, place);
    MetadataReadsBack(c, place);
  }

  lemma PlatformReadsBack(c: HfpConfig)
    requires Accepted(c)
    ensures HasPlatform(Rendered(c))
    ensures var d := ConfigAt(Rendered(c)); d == c.(interfaceVersion := d.interfaceVersion, ports := d.ports)
  {
    hide Rendered, HasList, HasMetadata, ListAt, MetadataAt, TextAt, ParseInt32, ParseBool, NumberText, BoolText,
         Declares, PortsAt;
    FixedKeys();
    RenderedAt(c, Platform);
    ScalarReadsBack(c, OfPlatform, HalVersion);
    ScalarReadsBack(c, OfPlatform, MaxPorts);
    ScalarReadsBack(c, OfPlatform, Limit);
    ScalarReadsBack(c, OfPlatform, Macrovision);
    NumberReadsBack(c.maxPorts);
    NumberReadsBack(c.maximumConcurrentStartedPorts);
    BoolReadsBack(c.macrovision);
    PropertiesReadBack(c, OfPlatform);
    MetadataReadsBack(c, OfPlatform);
  }

  /** Every valid configuration has a store, and parsing that store gives the configuration back. */
  lemma ParseUndoesRender(c: HfpConfig)
    requires Accepted(c)
    ensures ProfileFault(Rendered(c)).None? && ConfigAt(Rendered(c)) == c
  {
    hide Rendered, HasPort, HasPlatform, PortAt, PortAccepted, Declares;
    var k := Rendered(c);
    FixedKeys();
    RenderedAt(c, Root);
    RenderedAt(c, Version);
    RenderedAt(c, Ports);
    forall i | 0 <= i < |c.ports|
      ensures HasPort(k, Item(PORTS, i)) && PortAt(k, Item(PORTS, i)) == c.ports[i]
    {
      assert c.ports[i] in c.ports;
      PortReadsBack(c, i);
    }
    assert PortsAt(k) == c.ports;
    PlatformReadsBack(c);
    AcceptsExactlyTheValid(k);
  }
}
