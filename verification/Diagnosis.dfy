/** Every problem the parser reports is really there, at the place it names. */
module Diagnosis {
  import opened Common
  import opened Tokens
  import opened ParseConfig

  /** What a reported problem says of the store. */
  ghost predicate Real(k: Kvp, p: Problem) {
    match p
    case EmptyPath => false
    case CannotOpen(_) => false
    case NoProfile => "compositeinput" !in k.present
    case Missing(key) => key !in k.present
    case Unreadable(key) => key in k.present && key !in k.text
    case EmptyField(key) => key in k.present && key in k.text && k.text[key] == ""
    case BadInteger(key, value) => key in k.text && k.text[key] == value != "" && ParseInt32(value).None?
    case BadBoolean(key, value) => key in k.text && k.text[key] == value != "" && ParseBool(value).None?
    case NoPorts => Count(k, PORTS) == 0
    case NegativeId(place) => IntAt(k, Under(place, "id")) < 0
    case DuplicateId(i, id) =>
      exists j :: 0 <= j < i < |PortsAt(k)| && PortsAt(k)[j].id == PortsAt(k)[i].id == id
    case MaxPortsTooSmall => IntAt(k, Under(PLATFORM, "maxPorts")) < 1
    case LimitTooSmall => IntAt(k, Under(PLATFORM, "maximumConcurrentStartedPorts")) < 1
    case _ =>
      Misdeclared(ListAt(k, Under(p.place, "supportedProperties")),
                  MetadataAt(k, Under(p.place, "propertyMetadata")), p)
  }

  /** What a reported problem says of a property declaration. */
  ghost predicate Misdeclared(properties: seq<string>, metadata: seq<MetadataConfig>, p: Problem) {
    match p
    case UnsupportedToken(_, i) => i < |properties| && PropertyOf(properties[i]).None?
    case DuplicateToken(_, i) => exists j :: 0 <= j < i < |properties| && properties[j] == properties[i]
    case CountMismatch(_) => |metadata| != |properties|
    case UnsupportedKey(_, i) => i < |metadata| && PropertyOf(metadata[i].key).None?
    case UnsupportedType(_, i) => i < |metadata| && TypeOf(metadata[i].kind).None?
    case OutOfOrder(_, i) => i < |metadata| && i < |properties| && metadata[i].key != properties[i]
    case NoDescription(_, i) => i < |metadata| && metadata[i].description == ""
    case _ => false
  }

  ghost predicate RealIfAny(k: Kvp, p: Option<Problem>) {
    p.Some? ==> Real(k, p.value)
  }

  lemma FieldProblemsAreReal(k: Kvp, key: string)
    ensures RealIfAny(k, TextFault(k, key)) && RealIfAny(k, IntFault(k, key)) && RealIfAny(k, BoolFault(k, key))
    ensures RealIfAny(k, OptionalIntFault(k, key)) && RealIfAny(k, OptionalBoolFault(k, key))
  {
    hide ParseInt32, ParseBool, PortsAt, ListAt, MetadataAt, Misdeclared;
  }

  lemma {:induction false} ItemProblemsAreReal(k: Kvp, key: string, i: nat)
    ensures RealIfAny(k, ItemsFault(k, key, i))
    decreases Count(k, key) - i
  {
    hide TextFault, Real;
    if i < Count(k, key) {
      FieldProblemsAreReal(k, Item(key, i));
      ItemProblemsAreReal(k, key, i + 1);
    }
  }

  lemma EntryProblemsAreReal(k: Kvp, place: string)
    ensures RealIfAny(k, EntryFault(k, place))
  {
    hide TextFault, BoolFault, Real;
    FieldProblemsAreReal(k, Under(place, "key"));
    FieldProblemsAreReal(k, Under(place, "type"));
    FieldProblemsAreReal(k, Under(place, "readOnly"));
    FieldProblemsAreReal(k, Under(place, "isMetric"));
    FieldProblemsAreReal(k, Under(place, "description"));
  }

  lemma {:induction false} EntriesProblemsAreReal(k: Kvp, key: string, i: nat)
    ensures RealIfAny(k, EntriesFault(k, key, i))
    decreases Count(k, key) - i
  {
    hide EntryFault, Real;
    if i < Count(k, key) {
      EntryProblemsAreReal(k, Item(key, i));
      EntriesProblemsAreReal(k, key, i + 1);
    }
  }

  lemma ListProblemsAreReal(k: Kvp, key: string)
    ensures RealIfAny(k, ListFault(k, key)) && RealIfAny(k, MetadataFault(k, key))
  {
    hide ItemsFault, EntriesFault, PortsAt, ListAt, MetadataAt;
    ItemProblemsAreReal(k, key, 0);
    EntriesProblemsAreReal(k, key, 0);
  }

  lemma {:induction false} TokenProblemsAreReal(
    properties: seq<string>, metadata: seq<MetadataConfig>, place: string, i: nat)
    ensures var p := TokensFault(properties, place, i);
            p.Some? ==> Misdeclared(properties, metadata, p.value) &&
                        (p.value.UnsupportedToken? || p.value.DuplicateToken?) && p.value.place == place
    decreases |properties| - i
  {
    hide PropertyOf;
    if i < |properties| {
      if properties[i] in properties[..i] {
        var j :| 0 <= j < i && properties[..i][j] == properties[i];
        assert properties[j] == properties[i];
      }
      TokenProblemsAreReal(properties, metadata, place, i + 1);
    }
  }

  /** The problem is one about how the declaration at this place lines up. */
  predicate Alignment(p: Problem, place: string) {
    (p.UnsupportedKey? || p.UnsupportedType? || p.OutOfOrder? || p.NoDescription?) && p.place == place
  }

  lemma {:induction false} AlignProblemsAreReal(
    properties: seq<string>, metadata: seq<MetadataConfig>, place: string, i: nat)
    requires |metadata| == |properties|
    ensures var p := AlignsFault(properties, metadata, place, i);
            p.Some? ==> Misdeclared(properties, metadata, p.value) && Alignment(p.value, place)
    decreases |metadata| - i
  {
    hide PropertyOf, TypeOf;
    if i < |metadata| { AlignProblemsAreReal(properties, metadata, place, i + 1); }
  }

  lemma DeclarationProblemsAreReal(k: Kvp, place: string)
    ensures var properties := ListAt(k, Under(place, "supportedProperties"));
            var metadata := MetadataAt(k, Under(place, "propertyMetadata"));
            RealIfAny(k, DeclarationFault(properties, metadata, place))
  {
    var properties := ListAt(k, Under(place, "supportedProperties"));
    var metadata := MetadataAt(k, Under(place, "propertyMetadata"));
    TokenProblemsAreReal(properties, metadata, place, 0);
    if |metadata| == |properties| { AlignProblemsAreReal(properties, metadata, place, 0); }
    hide TokensFault, AlignsFault, ListAt, MetadataAt, PortsAt, ParseInt32;
  }

  lemma PortProblemsAreReal(k: Kvp, place: string)
    ensures RealIfAny(k, PortFault(k, place))
  {
    hide TextFault, IntFault, ListFault, MetadataFault, DeclarationFault, ParseInt32, PortsAt, ListAt, MetadataAt;
    FieldProblemsAreReal(k, Under(place, "id"));
    FieldProblemsAreReal(k, Under(place, "name"));
    FieldProblemsAreReal(k, Under(place, "description"));
    ListProblemsAreReal(k, Under(place, "supportedProperties"));
    ListProblemsAreReal(k, Under(place, "propertyMetadata"));
    DeclarationProblemsAreReal(k, place);
  }

  lemma {:induction false} PortsProblemsAreReal(k: Kvp, i: nat)
    ensures RealIfAny(k, PortsFault(k, i))
    decreases Count(k, PORTS) - i
  {
    hide PortFault, PortAt;
    if i < Count(k, PORTS) {
      PortProblemsAreReal(k, Item(PORTS, i));
      PortsProblemsAreReal(k, i + 1);
    }
  }

  lemma PlatformProblemsAreReal(k: Kvp)
    ensures RealIfAny(k, PlatformFault(k))
  {
    hide TextFault, IntFault, BoolFault, ListFault, MetadataFault, DeclarationFault, ParseInt32, ParseBool, PortsAt,
         ListAt, MetadataAt;
    FieldProblemsAreReal(k, Under(PLATFORM, "halVersion"));
    FieldProblemsAreReal(k, Under(PLATFORM, "maxPorts"));
    FieldProblemsAreReal(k, Under(PLATFORM, "maximumConcurrentStartedPorts"));
    FieldProblemsAreReal(k, Under(PLATFORM, MACROVISION));
    ListProblemsAreReal(k, Under(PLATFORM, "supportedProperties"));
    ListProblemsAreReal(k, Under(PLATFORM, "propertyMetadata"));
    DeclarationProblemsAreReal(k, PLATFORM);
  }

  /** What the parser reports of a store is true of it. */
  lemma ReportedProblemsAreReal(k: Kvp)
    ensures RealIfAny(k, ProfileFault(k))
  {
    hide TextFault, PortsFault, PlatformFault, PortsAt, Misdeclared;
    FieldProblemsAreReal(k, INTERFACE_VERSION);
    PortsProblemsAreReal(k, 0);
    PlatformProblemsAreReal(k);
  }

  // ----- keys and fields

  lemma KeysAsWritten()
    ensures INTERFACE_VERSION == "compositeinput.interfaceVersion" && PORTS == "compositeinput.ports"
    ensures PLATFORM == "compositeinput.platformCapabilities"
    ensures MACROVISION == "features.macrovisionDetectionSupported"
  {
  }

  /** Which key each field of a port is read from. */
  lemma PortFieldsByKey(k: Kvp, i: nat)
    requires i < Count(k, PORTS)
    ensures var port, at := PortsAt(k)[i], PORTS + "." + Decimal(i) + ".";
            && port.name == TextAt(k, at + "name") && port.description == TextAt(k, at + "description")
            && port.id == IntAt(k, at + "id")
            && |port.supportedProperties| == Count(k, at + "supportedProperties")
            && |port.propertyMetadata| == Count(k, at + "propertyMetadata")
            && (forall j :: 0 <= j < |port.supportedProperties| ==>
                  port.supportedProperties[j] == TextAt(k, at + "supportedProperties" + "." + Decimal(j)))
            && (forall j :: 0 <= j < |port.propertyMetadata| ==>
                  var e, entry := at + "propertyMetadata" + "." + Decimal(j) + ".", port.propertyMetadata[j];
                  entry == MetadataConfig(
                    key := TextAt(k, e + "key"), kind := TextAt(k, e + "type"),
                    readOnly := BoolAt(k, e + "readOnly"), isMetric := BoolAt(k, e + "isMetric"),
                    description := TextAt(k, e + "description")))
  {
    hide Decimal, TextAt, IntAt, BoolAt, Count;
  }

  /** And which the fields of the platform. */
  lemma PlatformFieldsByKey(k: Kvp)
    ensures var c, at := ConfigAt(k), PLATFORM + ".";
            && c.interfaceVersion == TextAt(k, INTERFACE_VERSION) && |c.ports| == Count(k, PORTS)
            && c.halVersion == TextAt(k, at + "halVersion") && c.maxPorts == IntAt(k, at + "maxPorts")
            && c.maximumConcurrentStartedPorts == IntAt(k, at + "maximumConcurrentStartedPorts")
            && c.macrovision == BoolAt(k, at + MACROVISION)
            && |c.supportedProperties| == Count(k, at + "supportedProperties")
            && |c.propertyMetadata| == Count(k, at + "propertyMetadata")
            && (forall j :: 0 <= j < |c.supportedProperties| ==>
                  c.supportedProperties[j] == TextAt(k, at + "supportedProperties" + "." + Decimal(j)))
  {
    hide Decimal, TextAt, IntAt, BoolAt, Count, PortsAt;
    assert |PortsAt(k)| == Count(k, PORTS) by { PortCount(k); }
  }

  lemma PortCount(k: Kvp)
    ensures |PortsAt(k)| == Count(k, PORTS)
  {
  }
}
