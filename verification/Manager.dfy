/** CompositeInputManager: the service's ports, loaded from the profile once and looked up by identity. */
module Manager {
  import opened Common
  import opened Lifecycle
  import opened Service
  import opened Tokens
  import opened Properties
  import opened ParseConfig
  import opened Mapping
  import opened CompositeInput

  datatype PlatformCapabilities = PlatformCapabilities(
    halVersion: string, maxPorts: int, maximumConcurrentStartedPorts: int,
    supportedProperties: seq<PortProperty>, propertyMetadata: Option<seq<Option<PropertyMetadata>>>,
    macrovision: bool)

  const NO_PLATFORM := PlatformCapabilities("", 0, 0, [], None, false)
  const INT8_MAX := 127

  /** The port count published as an AIDL byte. */
  function MaxPorts(declared: int, ports: nat): int {
    var count := Signed(ports, TWO32);
    var atLeast := if declared < count then count else declared;
    if atLeast > INT8_MAX then INT8_MAX else atLeast
  }

  /**
   The published count is always a positive byte. It covers the ports there are, and the number
   declared, as far as a byte can, unless the number of ports itself does not fit an int32.
  */
  lemma MaxPortsCovers(declared: int, ports: nat)
    requires declared >= 1 && ports < TWO32
    ensures 1 <= MaxPorts(declared, ports) <= INT8_MAX
    ensures (MaxPorts(declared, ports) < INT8_MAX ==>
               MaxPorts(declared, ports) >= declared && MaxPorts(declared, ports) >= ports) <==>
              ports < TWO32 / 2 || declared >= INT8_MAX
  {
  }

  function PlatformOf(c: HfpConfig, portCount: nat): PlatformCapabilities {
    PlatformCapabilities(c.halVersion, MaxPorts(c.maxPorts, portCount), Sanitized(c.maximumConcurrentStartedPorts),
                         Mapped(c.supportedProperties), NullableMetadata(c.propertyMetadata), c.macrovision)
  }

  /** What is published of the platform, field by field. */
  lemma PlatformInWords(c: HfpConfig, portCount: nat)
    requires 1 <= c.maxPorts && portCount < TWO32 / 2 && 1 <= c.maximumConcurrentStartedPorts
    ensures var p := PlatformOf(c, portCount);
            && p.halVersion == c.halVersion && p.macrovision == c.macrovision
            && p.maximumConcurrentStartedPorts == c.maximumConcurrentStartedPorts
            && (p.maxPorts == 127 || (p.maxPorts >= c.maxPorts && p.maxPorts >= portCount))
            && (p.maxPorts == 127 || p.maxPorts == c.maxPorts || p.maxPorts == portCount)
            && p.supportedProperties == Mapped(c.supportedProperties)
            && p.propertyMetadata == NullableMetadata(c.propertyMetadata)
  {
  }

  ghost predicate Usable(path: string, store: Option<Kvp>) {
    path != "" && store.Some? && Complete(store.value) && Accepted(ConfigAt(store.value))
  }

  lemma AcceptedBounds(c: HfpConfig)
    requires Accepted(c)
    ensures c.ports != [] && c.maxPorts >= 1 && c.maximumConcurrentStartedPorts >= 1
    ensures forall i :: 0 <= i < |c.ports| ==> c.ports[i].id >= 0
    ensures forall i, j :: 0 <= i < j < |c.ports| ==> c.ports[i].id != c.ports[j].id
  {
    hide Declares;
    forall i | 0 <= i < |c.ports| ensures c.ports[i].id >= 0 { assert PortAccepted(c.ports[i]); }
  }

  /** A port fresh from its constructor is already at the hardware baseline. */
  lemma BootKeepsNewData(caps: PortCapabilities, id: int)
    ensures Act(caps, NewData(id), Boot) == NewData(id)
  {
  }

  class CompositeInputManager {
    var platformCaps: PlatformCapabilities
    var ports: seq<CompositeInputPort>

    /** No two ports share an identity. */
    ghost predicate Valid()
      reads this
    {
      && (forall i :: 0 <= i < |ports| ==> ports[i].portId >= 0)
      && (forall i, j :: 0 <= i < j < |ports| ==> ports[i].portId != ports[j].portId && ports[i] != ports[j])
    }

    /** Port `i` is what the profile's entry `entry` describes, never opened. */
    static ghost predicate Describes(entry: PortConfig, port: CompositeInputPort)
      reads port
    {
      && port.Valid() && port.portId == entry.id && port.name == entry.name && port.description == entry.description
      && port.capabilities == CapabilitiesOf(entry)
      && port.session == NewPort() && port.Values() == NewData(entry.id) && port.eventListeners == []
    }

    /** The ports and capabilities are those of the configuration, port by port, and its limit is in force. */
    ghost predicate Installed(c: HfpConfig, slots: StartedSlots)
      reads this, ports, slots
    {
      && |ports| == |c.ports|
      && (forall i :: 0 <= i < |ports| ==> Describes(c.ports[i], ports[i]))
      && platformCaps == PlatformOf(c, |c.ports|) && slots.limit == c.maximumConcurrentStartedPorts
    }

    constructor (path: string, store: Option<Kvp>, slots: StartedSlots)
      modifies slots`limit
      ensures Valid()
      ensures Usable(path, store) ==> Installed(ConfigAt(store.value), slots)
      ensures !Usable(path, store) ==> ports == [] && platformCaps == NO_PLATFORM && slots.limit == old(slots.limit)
    {
      platformCaps, ports := NO_PLATFORM, [];
      new;
      var loaded := LoadCapabilitiesFromConfig(path, store, slots);
    }

    /**
     Loads a profile: on success one new port for every entry, in the profile's order; on failure
     nothing changes. Neither of the skips below is ever taken.
    */
    method LoadCapabilitiesFromConfig(path: string, store: Option<Kvp>, slots: StartedSlots) returns (ok: bool)
      requires Valid()
      modifies this, slots`limit
      ensures Valid() && ok == Usable(path, store)
      ensures ok ==> Installed(ConfigAt(store.value), slots) && forall p <- ports :: fresh(p)
      ensures !ok ==> ports == old(ports) && platformCaps == old(platformCaps) && slots.limit == old(slots.limit)
    {
      hide Complete, Accepted, ConfigAt, CompositeInputManager.Installed;
      if path == "" {
        return false;
      }
      var config, fault := Parse(Some(path), store);
      if fault.Some? {
        return false;
      }
      ok := Install(config, slots);
    }

    /** Installs an accepted configuration. */
    method Install(config: HfpConfig, slots: StartedSlots) returns (ok: bool)
      requires Accepted(config)
      modifies this, slots`limit
      ensures Valid() && ok
      ensures Installed(config, slots) && forall p <- ports :: fresh(p)
    {
      hide Accepted, PlatformOf, CompositeInputManager.Describes;
      AcceptedBounds(config);
      var loaded := BuildPorts(config);
      if loaded == [] {
        return false;
      }
      var caps := MapPlatformCapabilities(config, |loaded|);
      slots.SetMaxConcurrentStartedPorts(caps.maximumConcurrentStartedPorts);
      platformCaps := caps;
      ports := loaded;
      return true;
    }

    /** The platform's part of loadCapabilitiesFromConfig(), once every port is built. */
    static method MapPlatformCapabilities(config: HfpConfig, portCount: nat) returns (caps: PlatformCapabilities)
      ensures caps == PlatformOf(config, portCount)
      ensures config.maximumConcurrentStartedPorts >= 1 ==>
                caps.maximumConcurrentStartedPorts == config.maximumConcurrentStartedPorts
    {
      var maxPorts := config.maxPorts;
      if maxPorts < Signed(portCount, TWO32) {
        maxPorts := Signed(portCount, TWO32);
      }
      if maxPorts > INT8_MAX {
        maxPorts := INT8_MAX;
      }
      var limit := if config.maximumConcurrentStartedPorts >= 1 then config.maximumConcurrentStartedPorts else 1;
      var supportedProperties := ToPortProperties(config.supportedProperties);
      var propertyMetadata := ToNullablePropertyMetadata(config.propertyMetadata);
      return PlatformCapabilities(config.halVersion, maxPorts, limit, supportedProperties,
                                  propertyMetadata, config.macrovision);
    }

    /** The port loop of loadCapabilitiesFromConfig(). */
    static method BuildPorts(config: HfpConfig) returns (ports: seq<CompositeInputPort>)
      requires Accepted(config)
      ensures |ports| == |config.ports|
      ensures forall i :: 0 <= i < |ports| ==> fresh(ports[i]) && Describes(config.ports[i], ports[i])
      ensures forall i :: 0 <= i < |ports| ==> ports[i].portId == config.ports[i].id >= 0
      ensures forall i, j :: 0 <= i < j < |ports| ==> ports[i].portId != ports[j].portId && ports[i] != ports[j]
    {
      hide Accepted, CapabilitiesOf;
      AcceptedBounds(config);
      ports := [];
      var seenIds: seq<int> := [];
      for i := 0 to |config.ports|
        invariant |ports| == i
        invariant seenIds == seq(i, j requires 0 <= j < i => config.ports[j].id)
        invariant forall j :: 0 <= j < i ==> fresh(ports[j]) && Describes(config.ports[j], ports[j])
        invariant forall j, l :: 0 <= j < l < i ==> ports[j] != ports[l]
      {
        var entry := config.ports[i];
        if entry.id < 0 {
          continue;
        }
        if entry.id in seenIds {
          continue;
        }
        seenIds := seenIds + [entry.id];
        var port := BuildPort(entry);
        ports := ports + [port];
      }
    }

    static method BuildPort(entry: PortConfig) returns (port: CompositeInputPort)
      ensures fresh(port) && Describes(entry, port)
    {
      hide Shaped, Act, NewData, CapabilitiesOf;
      port := new CompositeInputPort(entry.id);
      port.SetPortInfo(entry.name, entry.description);
      var capabilities := MapPortCapabilities(entry);
      port.SetCapabilities(capabilities);
      BootKeepsNewData(capabilities, entry.id);
      port.ResetHardwareBaselineForBoot();
    }

    /** The identities, in the order of the ports. */
    method GetPortIds() returns (ids: seq<int>)
      ensures |ids| == |ports| && forall i :: 0 <= i < |ids| ==> ids[i] == ports[i].portId
    {
      ids := [];
      for i := 0 to |ports|
        invariant |ids| == i && forall j :: 0 <= j < i ==> ids[j] == ports[j].portId
      {
        ids := ids + [ports[i].portId];
      }
    }

    /** The one port with that identity, or a refusal when there is none. */
    method GetPort(portId: int) returns (status: Status, port: CompositeInputPort?)
      requires Valid()
      ensures status == if port == null then IllegalArgument else Okay
      ensures port != null ==> port in ports && port.portId == portId
      ensures forall p <- ports :: p.portId == portId ==> port == p
    {
      port := null;
      if portId < 0 {
        return IllegalArgument, null;
      }
      port := FindPort(portId);
      return if port != null then Okay else IllegalArgument, port;
    }

    method FindPort(portId: int) returns (port: CompositeInputPort?)
      requires Valid()
      ensures port != null ==> port in ports && port.portId == portId
      ensures forall p <- ports :: p.portId == portId ==> port == p
    {
      for i := 0 to |ports|
        invariant forall j :: 0 <= j < i ==> ports[j].portId != portId
      {
        if ports[i].portId == portId {
          return ports[i];
        }
      }
      return null;
    }

    /**
     A decoded UT message goes to the port it names, port 0 when it names none; every other port
     is left alone, and so is every port when there is none of that identity.
    */
    method HandleQueuedUtMessage(port: Option<nat>, message: UtMessage)
      requires Valid() && forall p <- ports :: p.Valid()
      modifies set p <- ports :: p`cachedStatus
      modifies set p <- ports :: p`cachedProperties
      ensures forall p <- ports ::
                && p.Valid()
                && p.Values() == if p.portId == Addressed(port) then UtApplied(old(p.Values()), message)
                                 else old(p.Values())
    {
      var target := FindPort(Addressed(port));
      if target != null {
        var notices, calls := target.HandleUt(message);
      }
    }

    /** Port 0 without a port field; otherwise the field as a signed number. */
    static lemma AddressedInWords(port: Option<nat>)
      requires port.Some? ==> port.value < 0x1_0000_0000
      ensures Addressed(port) == if port.None? then 0
                                 else if port.value < 0x8000_0000 then port.value
                                 else port.value - 0x1_0000_0000
    {
    }

    /** static_cast<int32_t> of the message's port field, 0 without one. */
    static function Addressed(port: Option<nat>): int {
      if port.Some? then Signed(port.value, TWO32) else 0
    }
  }
}
