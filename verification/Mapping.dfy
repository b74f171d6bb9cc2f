/** From profile tokens to AIDL values, and what a port may then be written. */
module Mapping {
  import opened Common
  import opened Tokens
  import opened Properties
  import opened ParseConfig

  // ----- what the mappings compute: tokens they do not know are skipped

  function Mapped(tokens: seq<string>): seq<PortProperty> {
    if tokens == [] then []
    else
      var last := PropertyOf(tokens[|tokens|-1]);
      Mapped(tokens[..|tokens|-1]) + if last.Some? then [last.value] else []
  }

  function MetadataOf(entry: MetadataConfig): Option<PropertyMetadata> {
    if PropertyOf(entry.key).None? || TypeOf(entry.kind).None? then None
    else Some(PropertyMetadata(PropertyOf(entry.key).value, TypeOf(entry.kind).value,
                               entry.readOnly, entry.isMetric, entry.description))
  }

  function MappedMetadata(entries: seq<MetadataConfig>): seq<PropertyMetadata> {
    if entries == [] then []
    else
      var last := MetadataOf(entries[|entries|-1]);
      MappedMetadata(entries[..|entries|-1]) + if last.Some? then [last.value] else []
  }

  function Engaged(metadata: seq<PropertyMetadata>): seq<Option<PropertyMetadata>> {
    seq(|metadata|, i requires 0 <= i < |metadata| => Some(metadata[i]))
  }

  function NullableMetadata(entries: seq<MetadataConfig>): Option<seq<Option<PropertyMetadata>>> {
    if entries == [] then None else Some(Engaged(MappedMetadata(entries)))
  }

  /** mapPortCapabilities() */
  function CapabilitiesOf(port: PortConfig): PortCapabilities {
    PortCapabilities(Mapped(port.supportedProperties), NullableMetadata(port.propertyMetadata))
  }

  // ----- the loops

  method ToPortProperties(tokens: seq<string>) returns (properties: seq<PortProperty>)
    ensures properties == Mapped(tokens)
  {
    properties := [];
    for i := 0 to |tokens|
      invariant properties == Mapped(tokens[..i])
    {
      assert tokens[..i + 1][..i] == tokens[..i];
      var value := FromString(PORT_PROPERTY_TOKENS, tokens[i]);
      if value.Some? {
        properties := properties + [value.value];
      }
    }
    assert tokens[..|tokens|] == tokens;
  }

  method ToPropertyMetadata(entries: seq<MetadataConfig>) returns (metadata: seq<PropertyMetadata>)
    ensures metadata == MappedMetadata(entries)
  {
    hide Trimmed, Find;
    metadata := [];
    for i := 0 to |entries|
      invariant metadata == MappedMetadata(entries[..i])
    {
      assert entries[..i + 1][..i] == entries[..i];
      var entry := entries[i];
      var key := FromString(PORT_PROPERTY_TOKENS, entry.key);
      if key.None? {
        continue;
      }
      var kind := FromString(PROPERTY_TYPE_TOKENS, entry.kind);
      if kind.None? {
        continue;
      }
      metadata := metadata +
        [PropertyMetadata(key.value, kind.value, entry.readOnly, entry.isMetric, entry.description)];
    }
    assert entries[..|entries|] == entries;
  }

  method ToNullablePropertyMetadata(entries: seq<MetadataConfig>)
    returns (r: Option<seq<Option<PropertyMetadata>>>)
    ensures r == NullableMetadata(entries)
  {
    if entries == [] {
      return None;
    }
    var metadata := ToPropertyMetadata(entries);
    var nullable := [];
    for i := 0 to |metadata|
      invariant nullable == Engaged(metadata)[..i]
    {
      nullable := nullable + [Some(metadata[i])];
    }
    assert Engaged(metadata)[..|metadata|] == Engaged(metadata);
    return Some(nullable);
  }

  method MapPortCapabilities(port: PortConfig) returns (capabilities: PortCapabilities)
    ensures capabilities == CapabilitiesOf(port)
  {
    var supportedProperties := ToPortProperties(port.supportedProperties);
    var propertyMetadata := ToNullablePropertyMetadata(port.propertyMetadata);
    return PortCapabilities(supportedProperties, propertyMetadata);
  }

  // ----- nothing is lost

  /** A token list maps entry by entry exactly when every token is known. */
  lemma {:induction false} NothingIsSkipped(tokens: seq<string>)
    ensures |Mapped(tokens)| <= |tokens|
    ensures |Mapped(tokens)| == |tokens| <==> forall t <- tokens :: PropertyOf(t).Some?
    ensures |Mapped(tokens)| == |tokens| ==>
              forall i :: 0 <= i < |tokens| ==> PropertyOf(tokens[i]) == Some(Mapped(tokens)[i])
  {
    hide Trimmed, Find;
    if tokens != [] {
      var front := tokens[..|tokens|-1];
      NothingIsSkipped(front);
      assert tokens == front + [tokens[|tokens|-1]];
    }
  }

  /** The same for metadata. */
  lemma {:induction false} NoEntryIsSkipped(entries: seq<MetadataConfig>)
    ensures |MappedMetadata(entries)| <= |entries|
    ensures |MappedMetadata(entries)| == |entries| <==> forall e <- entries :: MetadataOf(e).Some?
    ensures |MappedMetadata(entries)| == |entries| ==>
              forall i :: 0 <= i < |entries| ==> MetadataOf(entries[i]) == Some(MappedMetadata(entries)[i])
  {
    hide MetadataOf;
    if entries != [] {
      var front := entries[..|entries|-1];
      NoEntryIsSkipped(front);
      assert entries == front + [entries[|entries|-1]];
    }
  }

  /** What the profile says first about a property: the index of its first token, or the number of tokens. */
  function FirstIndex(tokens: seq<string>, p: PortProperty): (i: nat)
    ensures i <= |tokens|
    ensures i < |tokens| ==> PropertyOf(tokens[i]) == Some(p)
    ensures forall j :: 0 <= j < i ==> PropertyOf(tokens[j]) != Some(p)
  {
    if tokens == [] || PropertyOf(tokens[0]) == Some(p) then 0 else FirstIndex(tokens[1..], p) + 1
  }

  lemma EntriesFollowTokens(tokens: seq<string>, entries: seq<MetadataConfig>)
    requires Declares(tokens, entries)
    ensures forall t <- tokens :: PropertyOf(t).Some?
    ensures forall i :: 0 <= i < |entries| ==>
              MetadataOf(entries[i]).Some? && Some(MetadataOf(entries[i]).value.key) == PropertyOf(tokens[i])
  {
    hide PropertyOf, TypeOf;
    forall i | 0 <= i < |entries|
      ensures PropertyOf(entries[i].key).Some? && entries[i].key == tokens[i]
    {
      assert tokens[i] in tokens;
    }
  }

  /**
   For an accepted profile entry: the port supports exactly the properties listed, and what it
   declares of a property is what the profile's metadata says at the property's first index.
  */
  lemma DeclaredIsFirstEntry(port: PortConfig, p: PortProperty)
    requires Declares(port.supportedProperties, port.propertyMetadata)
    ensures var i := FirstIndex(port.supportedProperties, p);
            && |CapabilitiesOf(port).supportedProperties| == |port.supportedProperties|
            && (p in CapabilitiesOf(port).supportedProperties <==> i < |port.supportedProperties|)
            && Declared(CapabilitiesOf(port), p) ==
                 (if i < |port.supportedProperties| then MetadataOf(port.propertyMetadata[i]) else None)
            && (i < |port.supportedProperties| ==> MetadataOf(port.propertyMetadata[i]).Some?)
  {
    hide PropertyOf, EntryFor, Mapped, MappedMetadata, MetadataOf;
    var tokens, entries := port.supportedProperties, port.propertyMetadata;
    var i := FirstIndex(tokens, p);
    EntriesFollowTokens(tokens, entries);
    NothingIsSkipped(tokens);
    assert i < |tokens| ==> Mapped(tokens)[i] == p;
    NoEntryIsSkipped(entries);
    if entries != [] {
      var metadata := Engaged(MappedMetadata(entries));
      assert forall j :: 0 <= j < |entries| ==> metadata[j] == MetadataOf(entries[j]);
      EntryAtFirst(metadata, p, i);
    }
  }

  /**
   A controller may write a property of the port exactly when the profile lists it and does not
   call it read-only there.
  */
  lemma WritableIffProfileSays(port: PortConfig, p: PortProperty)
    requires Declares(port.supportedProperties, port.propertyMetadata)
    ensures var i := FirstIndex(port.supportedProperties, p);
            Writable(CapabilitiesOf(port), p) <==>
              i < |port.supportedProperties| && !port.propertyMetadata[i].readOnly
  {
    hide Declares, CapabilitiesOf, FirstIndex;
    DeclaredIsFirstEntry(port, p);
  }

  /** What setProperty() answers, in the words of the profile. */
  lemma WriteAnswersByProfile(port: PortConfig, kv: KVPair)
    requires Declares(port.supportedProperties, port.propertyMetadata)
    ensures var i := FirstIndex(port.supportedProperties, kv.property);
            Check(CapabilitiesOf(port), kv) ==
              if i == |port.supportedProperties| then IllegalArgument
              else if port.propertyMetadata[i].readOnly then UnsupportedOperation
              else if TypeOf(port.propertyMetadata[i].kind).Some? &&
                      Fits(TypeOf(port.propertyMetadata[i].kind).value, kv.value) then Okay
              else IllegalArgument
  {
    hide Declares, CapabilitiesOf, FirstIndex, Trimmed, Find;
    var i := FirstIndex(port.supportedProperties, kv.property);
    DeclaredIsFirstEntry(port, kv.property);
    if i < |port.supportedProperties| {
      SamePropertySameWord(port.supportedProperties[i], port.supportedProperties[i]);
    }
  }

  /** An entry is mapped field by field. */
  lemma EntryMapsFieldByField(e: MetadataConfig)
    requires MetadataOf(e).Some?
    ensures var m := MetadataOf(e).value;
            && PropertyOf(e.key) == Some(m.key) && TypeOf(e.kind) == Some(m.kind)
            && m.readOnly == e.readOnly && m.isMetric == e.isMetric && m.description == e.description
  {
  }

  /** For an accepted declaration the port publishes one engaged entry per profile entry, or null for none. */
  lemma PublishedMetadata(port: PortConfig)
    requires Declares(port.supportedProperties, port.propertyMetadata)
    ensures match CapabilitiesOf(port).propertyMetadata
            case None => port.propertyMetadata == []
            case Some(ms) =>
              && |ms| == |port.propertyMetadata| > 0
              && forall i :: 0 <= i < |ms| ==>
                   && ms[i].Some? && PropertyOf(port.supportedProperties[i]) == Some(ms[i].value.key)
                   && TypeOf(port.propertyMetadata[i].kind) == Some(ms[i].value.kind)
                   && ms[i].value.readOnly == port.propertyMetadata[i].readOnly
                   && ms[i].value.isMetric == port.propertyMetadata[i].isMetric
                   && ms[i].value.description == port.propertyMetadata[i].description
  {
    hide PropertyOf, TypeOf, MappedMetadata, Mapped;
    var entries := port.propertyMetadata;
    EntriesFollowTokens(port.supportedProperties, entries);
    NoEntryIsSkipped(entries);
    forall i | 0 <= i < |entries| ensures MetadataOf(entries[i]).Some? {
      EntryMapsFieldByField(entries[i]);
    }
  }

  // ----- duplicates

  function TrimmedAll(tokens: seq<string>): seq<string> {
    seq(|tokens|, i requires 0 <= i < |tokens| => Trimmed(tokens[i]))
  }

  /**
   Duplicates are looked for before trimming, so an accepted list maps to different properties
   exactly when its tokens also differ once trimmed.
  */
  lemma MapsInjectivelyIffTrimmedDiffer(tokens: seq<string>)
    requires forall t <- tokens :: PropertyOf(t).Some?
    ensures Distinct(Mapped(tokens)) <==> Distinct(TrimmedAll(tokens))
  {
    hide Trimmed, Find, Mapped;
    NothingIsSkipped(tokens);
    forall i, j | 0 <= i < j < |tokens|
      ensures Mapped(tokens)[i] == Mapped(tokens)[j] <==> Trimmed(tokens[i]) == Trimmed(tokens[j])
    {
      SamePropertySameWord(tokens[i], tokens[j]);
    }
    assert forall i :: 0 <= i < |tokens| ==> TrimmedAll(tokens)[i] == Trimmed(tokens[i]);
    if Distinct(Mapped(tokens)) {
      forall i, j | 0 <= i < j < |tokens| ensures TrimmedAll(tokens)[i] != TrimmedAll(tokens)[j] {
        assert Mapped(tokens)[i] != Mapped(tokens)[j];
      }
    }
    if Distinct(TrimmedAll(tokens)) {
      forall i, j | 0 <= i < j < |tokens| ensures Mapped(tokens)[i] != Mapped(tokens)[j] {
        assert TrimmedAll(tokens)[i] != TrimmedAll(tokens)[j];
      }
    }
  }

  lemma {:induction false} Pigeonhole<T>(s: seq<T>, values: set<T>)
    requires Distinct(s) && forall x <- s :: x in values
    ensures |s| <= |values|
  {
    if s != [] {
      var last := s[|s|-1];
      forall x <- s[..|s|-1] ensures x in values - {last} {}
      Pigeonhole(s[..|s|-1], values - {last});
    }
  }

  lemma MappedAreValid(tokens: seq<string>)
    requires forall t <- tokens :: PropertyOf(t).Some?
    ensures forall p <- Mapped(tokens) :: p in VALID
  {
    hide Trimmed, Find, Mapped;
    NothingIsSkipped(tokens);
    forall i | 0 <= i < |tokens| ensures !Mapped(tokens)[i].Unrecognised? {
      SamePropertySameWord(tokens[i], tokens[i]);
    }
  }

  /** Then there are at most eight. */
  lemma AtMostEight(tokens: seq<string>)
    requires forall t <- tokens :: PropertyOf(t).Some?
    requires Distinct(TrimmedAll(tokens))
    ensures |tokens| <= 8 && Distinct(Mapped(tokens))
  {
    hide PropertyOf, TrimmedAll, Mapped;
    MapsInjectivelyIffTrimmedDiffer(tokens);
    NothingIsSkipped(tokens);
    MappedAreValid(tokens);
    Pigeonhole(Mapped(tokens), VALID);
  }

  function Spaces(n: nat): string {
    seq(n, _ => ' ')
  }

  function Padded(n: nat): seq<string> {
    seq(n, i requires 0 <= i => Spaces(i) + "METRIC_UPTIME")
  }

  function PaddedMetadata(n: nat): seq<MetadataConfig> {
    seq(n, i requires 0 <= i < n => MetadataConfig(Padded(n)[i], "LONG", i == 0, true, "Uptime"))
  }

  /**
   Without the trimming there is no bound: for every length the parser accepts a declaration that
   maps to that many copies of one property; the entries after the first have no effect.
  */
  lemma UntrimmedListsAreUnbounded(n: nat)
    ensures Declares(Padded(n), PaddedMetadata(n))
    ensures |Mapped(Padded(n))| == n && forall p <- Mapped(Padded(n)) :: p == MetricUptime
    ensures n > 0 ==> !Writable(CapabilitiesOf(PortConfig(0, "", "", Padded(n), PaddedMetadata(n))), MetricUptime)
  {
    hide Mapped, PropertyOf, TypeOf;
    forall i | 0 <= i < n
      ensures PropertyOf(Padded(n)[i]) == Some(MetricUptime)
    {
      PaddingIsTrimmed(i);
    }
    LongIsAType();
    PaddedDiffer(n);
    NothingIsSkipped(Padded(n));
    if n > 0 {
      WritableIffProfileSays(PortConfig(0, "", "", Padded(n), PaddedMetadata(n)), MetricUptime);
    }
  }

  lemma PaddingIsTrimmed(i: nat)
    ensures PropertyOf(Spaces(i) + "METRIC_UPTIME") == Some(MetricUptime)
  {
    hide Trimmed, Find;
    TrimmedIsUnique(Spaces(i), "METRIC_UPTIME", "");
    TrimmedIsUnique("", "METRIC_UPTIME", "");
    assert Spaces(i) + "METRIC_UPTIME" + "" == Spaces(i) + "METRIC_UPTIME";
    assert "" + "METRIC_UPTIME" + "" == "METRIC_UPTIME";
    PropertyTokensInWords();
  }

  lemma LongIsAType()
    ensures TypeOf("LONG").Some?
  {
    TypeTokensInWords();
  }

  lemma PaddedDiffer(n: nat)
    ensures Distinct(Padded(n))
  {
    forall i, j | 0 <= i < j < n
      ensures Padded(n)[i] != Padded(n)[j]
    {
      assert |Padded(n)[i]| == i + |"METRIC_UPTIME"| && |Padded(n)[j]| == j + |"METRIC_UPTIME"|;
    }
  }
}
