/**
  The binary sensor entity: the ON/OFF state encoding, the discovery
  document, the connect sequence and the debounced, always-retained state
  publish.
 */
module BinarySensor {
  import opened Wire

  // ---------------------------------------------------------------------
  // State tokens

  /** The two payloads a binary sensor publishes (`HAStateOn`, `HAStateOff`). */
  datatype OnOffToken = StateOn | StateOff

  /** The payload that reports a state: `ON` for true, `OFF` for false. */
  function OnOffTokenOf(state: bool): (t: OnOffToken)
  {
    if state then StateOn else StateOff
  }

  /** The token's text on the wire. */
  function OnOffText(t: OnOffToken): string
  {
    match t
    case StateOn => "ON"
    case StateOff => "OFF"
  }

  /** The state a payload reports. */
  function StateOfText(s: string): (r: Option<bool>)
  {
    if s == "ON" then Some(true) else if s == "OFF" then Some(false) else None
  }

  /** The two states have different payloads, and each payload reads back
      as the state it was published for. */
  lemma OnOffRoundTrip(state: bool, other: bool)
    ensures StateOfText(OnOffText(OnOffTokenOf(state))) == Some(state)
    ensures OnOffText(OnOffTokenOf(state)) == OnOffText(OnOffTokenOf(other)) <==> state == other
  {
    assert "ON" != "OFF" by { assert |"ON"| != |"OFF"|; }
  }

  // ---------------------------------------------------------------------
  // The discovery document

  /** The settings `buildSerializer` reads. `expireAfter` is the
      fixed-point number left opaque: set or unset, and its integer value. */
  datatype SensorConfig = SensorConfig(
    name: Option<string>,
    objectId: Option<string>,
    deviceClass: Option<string>,
    stateClass: Option<string>,
    icon: Option<string>,
    entityCategory: Option<string>,
    enableByDefault: bool,
    expireAfter: Option<uint16>)

  /** The number of entries the serializer is created for, as written. */
  const DeclaredMaxPropertiesAsWritten: nat := 11

  /** The number of entries the builder can add: the capacity the
      serializer needs. */
  const MaxProperties: nat := 12

  /** The number of keys `buildSerializer` visits. */
  const SensorKeyCount: nat := 12

  /** The key `buildSerializer` visits at each step, in source order. */
  function SensorKeyAt(i: nat): Key
  {
    match i
    case 0 => Name
    case 1 => ObjectId
    case 2 => UniqueId
    case 3 => DeviceClass
    case 4 => StateClass
    case 5 => Icon
    case 6 => EntityCategory
    case 7 => EnabledByDefault
    case 8 => ExpireAfter
    case 9 => Device
    case 10 => Availability
    case _ => StateTopic
  }

  /** The step at which the builder visits a key (keys it never visits
      come last). */
  function SensorRank(k: Key): nat
  {
    match k
    case Name => 0
    case ObjectId => 1
    case UniqueId => 2
    case DeviceClass => 3
    case StateClass => 4
    case Icon => 5
    case EntityCategory => 6
    case EnabledByDefault => 7
    case ExpireAfter => 8
    case Device => 9
    case Availability => 10
    case StateTopic => 11
    case _ => 12
  }

  /** The steps and the ranks are inverse: each of the 12 steps visits a
      different key, and a key is visited exactly when its rank is below 12. */
  lemma SensorKeyOrder()
    ensures forall i :: 0 <= i < SensorKeyCount ==> SensorRank(SensorKeyAt(i)) == i
    ensures forall k :: SensorRank(k) < SensorKeyCount <==> Visits(SensorKeyAt, SensorKeyCount, k)
  {
    forall k | SensorRank(k) < SensorKeyCount ensures Visits(SensorKeyAt, SensorKeyCount, k) {
      assert SensorKeyAt(SensorRank(k)) == k;
    }
  }

  /** What the builder sets under each key; `None` where it skips the key
      because the setting has its default value. */
  function SensorValue(c: SensorConfig, k: Key): Option<Value>
  {
    match k
    case Name => Some(Text(c.name))
    case ObjectId => Some(Text(c.objectId))
    case UniqueId => Some(Marker)
    case DeviceClass => Some(Text(c.deviceClass))
    case StateClass => Some(Text(c.stateClass))
    case Icon => Some(Text(c.icon))
    case EntityCategory => Some(Text(c.entityCategory))
    case EnabledByDefault => if !c.enableByDefault then Some(Flag(c.enableByDefault)) else None
    case ExpireAfter => if c.expireAfter.Some? then Some(Number(c.expireAfter.value as nat)) else None
    case Device => Some(Marker)
    case Availability => Some(Marker)
    case StateTopic => Some(TopicRef)
    case _ => None
  }

  function SensorFields(c: SensorConfig): Key -> Option<Value>
  {
    k => SensorValue(c, k)
  }

  /** The document a builder produces after its first `n` steps when it
      visits the keys in source order and sets what `SensorValue` says. */
  function SensorPrefix(c: SensorConfig, n: nat): (d: seq<Entry>)
    ensures |d| <= n
  {
    Collect(SensorKeyAt, SensorFields(c), n)
  }

  /** The same document read key by key: the reference the properties
      below are stated about. */
  function SensorDocumentByKeys(c: SensorConfig): (d: seq<Entry>)
    ensures |d| <= MaxProperties
  {
    SensorPrefix(c, SensorKeyCount)
  }

  /** The document `buildSerializer` builds, spelled in the order of its
      `set` and `topic` calls. */
  function SensorDocument(c: SensorConfig): seq<Entry>
  {
    []
      + [Entry(Name, Text(c.name))]
      + [Entry(ObjectId, Text(c.objectId))]
      + [Entry(UniqueId, Marker)]
      + [Entry(DeviceClass, Text(c.deviceClass))]
      + [Entry(StateClass, Text(c.stateClass))]
      + [Entry(Icon, Text(c.icon))]
      + [Entry(EntityCategory, Text(c.entityCategory))]
      + (if !c.enableByDefault then [Entry(EnabledByDefault, Flag(c.enableByDefault))] else [])
      + (if c.expireAfter.Some? then [Entry(ExpireAfter, Number(c.expireAfter.value as nat))] else [])
      + [Entry(Device, Marker)]
      + [Entry(Availability, Marker)]
      + [Entry(StateTopic, TopicRef)]
  }

  /** The name, object id and unique id entries, always added. */
  lemma SensorIdentityPieces(c: SensorConfig)
    ensures Step(SensorFields(c), SensorKeyAt(0)) == [Entry(Name, Text(c.name))]
    ensures Step(SensorFields(c), SensorKeyAt(1)) == [Entry(ObjectId, Text(c.objectId))]
    ensures Step(SensorFields(c), SensorKeyAt(2)) == [Entry(UniqueId, Marker)]
  {
    assert SensorKeyAt(0) == Name;
    assert SensorKeyAt(1) == ObjectId;
    assert SensorKeyAt(2) == UniqueId;
  }

  /** The device class, state class and icon entries, always added. */
  lemma SensorClassPieces(c: SensorConfig)
    ensures Step(SensorFields(c), SensorKeyAt(3)) == [Entry(DeviceClass, Text(c.deviceClass))]
    ensures Step(SensorFields(c), SensorKeyAt(4)) == [Entry(StateClass, Text(c.stateClass))]
    ensures Step(SensorFields(c), SensorKeyAt(5)) == [Entry(Icon, Text(c.icon))]
  {
    assert SensorKeyAt(3) == DeviceClass;
    assert SensorKeyAt(4) == StateClass;
    assert SensorKeyAt(5) == Icon;
  }

  /** The entity category, then the enabled-by-default flag and the
      expire-after number, each added only when it differs from its
      default. */
  lemma SensorOptionalPieces(c: SensorConfig)
    ensures Step(SensorFields(c), SensorKeyAt(6)) == [Entry(EntityCategory, Text(c.entityCategory))]
    ensures Step(SensorFields(c), SensorKeyAt(7)) ==
              (if !c.enableByDefault then [Entry(EnabledByDefault, Flag(c.enableByDefault))] else [])
    ensures Step(SensorFields(c), SensorKeyAt(8)) ==
              (if c.expireAfter.Some? then [Entry(ExpireAfter, Number(c.expireAfter.value as nat))] else [])
  {
    assert SensorKeyAt(6) == EntityCategory;
    assert SensorKeyAt(7) == EnabledByDefault;
    assert SensorKeyAt(8) == ExpireAfter;
  }

  /** The device and availability markers and the state topic that close
      the document. */
  lemma SensorTrailerPieces(c: SensorConfig)
    ensures Step(SensorFields(c), SensorKeyAt(9)) == [Entry(Device, Marker)]
    ensures Step(SensorFields(c), SensorKeyAt(10)) == [Entry(Availability, Marker)]
    ensures Step(SensorFields(c), SensorKeyAt(11)) == [Entry(StateTopic, TopicRef)]
  {
    assert SensorKeyAt(9) == Device;
    assert SensorKeyAt(10) == Availability;
    assert SensorKeyAt(11) == StateTopic;
  }

  /** The first six steps, up to the icon, in source-order spelling. */
  lemma SensorDocumentHead(c: SensorConfig)
    ensures SensorPrefix(c, 6) == []
              + [Entry(Name, Text(c.name))]
              + [Entry(ObjectId, Text(c.objectId))]
              + [Entry(UniqueId, Marker)]
              + [Entry(DeviceClass, Text(c.deviceClass))]
              + [Entry(StateClass, Text(c.stateClass))]
              + [Entry(Icon, Text(c.icon))]
  {
    SensorIdentityPieces(c);
    SensorClassPieces(c);
    CollectStep(SensorKeyAt, SensorFields(c), 0);
    CollectStep(SensorKeyAt, SensorFields(c), 1);
    CollectStep(SensorKeyAt, SensorFields(c), 2);
    CollectStep(SensorKeyAt, SensorFields(c), 3);
    CollectStep(SensorKeyAt, SensorFields(c), 4);
    CollectStep(SensorKeyAt, SensorFields(c), 5);
  }

  /** The generic reading of the builder agrees with its source-order
      spelling. */
  lemma SensorDocumentCollects(c: SensorConfig)
    ensures SensorDocument(c) == SensorDocumentByKeys(c)
  {
    SensorDocumentHead(c);
    SensorOptionalPieces(c);
    SensorTrailerPieces(c);
    CollectStep(SensorKeyAt, SensorFields(c), 6);
    CollectStep(SensorKeyAt, SensorFields(c), 7);
    CollectStep(SensorKeyAt, SensorFields(c), 8);
    CollectStep(SensorKeyAt, SensorFields(c), 9);
    CollectStep(SensorKeyAt, SensorFields(c), 10);
    CollectStep(SensorKeyAt, SensorFields(c), 11);
  }

  /** The document never holds more than 12 entries. */
  lemma SensorDocumentFits(c: SensorConfig)
    ensures |SensorDocument(c)| <= MaxProperties
  {
    SensorDocumentCollects(c);
  }

  /** A sensor with every string set, enabled-by-default switched off and
      an expiry gets 12 entries, one more than the serializer is created
      for. */
  lemma SensorDocumentOverflowsAsWritten()
    ensures var c := SensorConfig(Some("door"), Some("door"), Some("door"), Some("measurement"),
                                  Some("mdi:door"), Some("diagnostic"), false, Some(60));
      |SensorDocument(c)| == MaxProperties > DeclaredMaxPropertiesAsWritten
  {
  }

  /** An entry is in the document exactly when the builder visits its key
      and sets that value under it. */
  lemma SensorDocumentEntry(c: SensorConfig, k: Key, v: Value)
    ensures Entry(k, v) in SensorDocumentByKeys(c) <==> SensorRank(k) < SensorKeyCount && SensorValue(c, k) == Some(v)
  {
    CollectEntries(SensorKeyAt, SensorFields(c), SensorKeyCount, k, v);
    SensorKeyOrder();
  }

  /** A key is in the document exactly when the builder visits it and does
      not skip it. */
  lemma SensorDocumentHas(c: SensorConfig, k: Key)
    ensures Has(SensorDocumentByKeys(c), k) <==> SensorRank(k) < SensorKeyCount && SensorValue(c, k).Some?
  {
    CollectHas(SensorKeyAt, SensorFields(c), SensorKeyCount, k);
    SensorKeyOrder();
  }

  /** The enabled-by-default entry appears, set to false, exactly when the
      sensor is disabled by default. */
  lemma SensorDocumentEnabledByDefault(c: SensorConfig)
    ensures Entry(EnabledByDefault, Flag(false)) in SensorDocumentByKeys(c) <==> !c.enableByDefault
    ensures Has(SensorDocumentByKeys(c), EnabledByDefault) <==> !c.enableByDefault
  {
    assert SensorRank(EnabledByDefault) == 7;
    assert SensorValue(c, EnabledByDefault) == if c.enableByDefault then None else Some(Flag(false));
    SensorDocumentEntry(c, EnabledByDefault, Flag(false));
    SensorDocumentHas(c, EnabledByDefault);
  }

  /** The expire-after entry appears exactly when an expiry is set, and
      carries that expiry. */
  lemma SensorDocumentExpireAfter(c: SensorConfig, n: nat)
    ensures Entry(ExpireAfter, Number(n)) in SensorDocumentByKeys(c) <==>
              c.expireAfter.Some? && n == c.expireAfter.value as nat
    ensures Has(SensorDocumentByKeys(c), ExpireAfter) <==> c.expireAfter.Some?
  {
    assert SensorRank(ExpireAfter) == 8;
    assert SensorValue(c, ExpireAfter) ==
             if c.expireAfter.Some? then Some(Number(c.expireAfter.value as nat)) else None;
    SensorDocumentEntry(c, ExpireAfter, Number(n));
    SensorDocumentHas(c, ExpireAfter);
  }

  /** The sensor carries no command topic and no retain flag: it only
      reports. */
  lemma SensorDocumentReportsOnly(c: SensorConfig)
    ensures !Has(SensorDocumentByKeys(c), CommandTopic)
    ensures !Has(SensorDocumentByKeys(c), Retain)
  {
    assert SensorRank(CommandTopic) == SensorRank(Retain) == SensorKeyCount;
    SensorDocumentHas(c, CommandTopic);
    SensorDocumentHas(c, Retain);
  }

  /** The entries come in the builder's fixed key order, each key at most
      once. */
  lemma SensorDocumentOrder(c: SensorConfig)
    ensures OrderedBy(SensorDocumentByKeys(c), SensorRank)
  {
    SensorKeyOrder();
    CollectOrdered(SensorKeyAt, SensorFields(c), SensorKeyCount, SensorRank);
  }

  /** The document ends with the device block, the availability block and
      then the state topic. */
  lemma SensorDocumentEnds(c: SensorConfig)
    ensures var d := SensorDocumentByKeys(c);
      |d| >= 3 && d[|d| - 3..] == [Entry(Device, Marker), Entry(Availability, Marker), Entry(StateTopic, TopicRef)]
  {
    SensorTrailerPieces(c);
    CollectStep(SensorKeyAt, SensorFields(c), 9);
    CollectStep(SensorKeyAt, SensorFields(c), 10);
    CollectStep(SensorKeyAt, SensorFields(c), 11);
  }

  // ---------------------------------------------------------------------
  // The binary sensor entity

  class Sensor {
    const uniqueId: Option<string>

    // Set through the base class and the sensor's header, whose setters
    // are not part of this model.
    var name: Option<string>
    var objectId: Option<string>
    var deviceClass: Option<string>
    var stateClass: Option<string>
    var icon: Option<string>
    var enableByDefault: bool
    var entityCategory: Option<string>

    /** The expiry in seconds; unset when `None`. */
    var expireAfter: Option<uint16>
    /** The last state accepted by a successful publish. */
    var currentState: bool
    /** The discovery document, once built. */
    var serializer: Option<seq<Entry>>
    /** What the sensor has asked of the transport, oldest first. */
    var sent: seq<Action<OnOffToken>>

    /** A set expiry is positive, and the document holds no more entries
        than the builder can add. */
    ghost predicate Valid()
      reads this`expireAfter, this`serializer
    {
      && (expireAfter.Some? ==> expireAfter.value > 0)
      && (serializer.Some? ==> |serializer.value| <= MaxProperties)
    }

    /** The settings the document is built from. */
    function Config(): SensorConfig
      reads this`name, this`objectId, this`deviceClass, this`stateClass, this`icon,
            this`entityCategory, this`enableByDefault, this`expireAfter
    {
      SensorConfig(name, objectId, deviceClass, stateClass, icon, entityCategory,
                   enableByDefault, expireAfter)
    }

    constructor (uniqueId: Option<string>)
      ensures Valid()
      ensures this.uniqueId == uniqueId
      ensures name == None && objectId == None
      ensures deviceClass == None && stateClass == None && icon == None
      ensures enableByDefault && entityCategory == None
      ensures expireAfter == None && !currentState
      ensures serializer == None && sent == []
    {
      this.uniqueId := uniqueId;
      name, objectId := None, None;
      deviceClass, stateClass, icon := None, None, None;
      enableByDefault := true;
      entityCategory := None;
      expireAfter := None;
      currentState := false;
      serializer := None;
      sent := [];
    }

    /** Sets the state, publishing it unless it is unchanged and not
        forced; `publishOk` is the transport's answer to that publish. The
        state is recorded only after a successful publish. */
    method SetState(state: bool, force: bool, publishOk: bool) returns (ok: bool)
      modifies this`currentState, this`sent
      ensures !force && state == old(currentState) ==>
                ok && currentState == old(currentState) && sent == old(sent)
      ensures force || state != old(currentState) ==>
                && sent == old(sent) + [PublishData(StateTopic, OnOffTokenOf(state), true)]
                && ok == publishOk
                && currentState == (if publishOk then state else old(currentState))
    {
      if !force && state == currentState {
        return true;
      }
      ok := PublishState(state, publishOk);
      if ok {
        currentState := state;
      }
    }

    /** Sets the expiry, or unsets it for zero. */
    method SetExpireAfter(expireAfter: uint16)
      modifies this`expireAfter
      ensures this.expireAfter == if expireAfter > 0 then Some(expireAfter) else None
      ensures this.expireAfter.Some? ==> this.expireAfter.value > 0
    {
      if expireAfter > 0 {
        this.expireAfter := Some(expireAfter);
      } else {
        this.expireAfter := None;
      }
    }

    /** Builds the discovery document once; does nothing when it already
        exists or there is no unique id. */
    method BuildSerializer()
      requires Valid()
      modifies this`serializer
      ensures Valid()
      ensures old(serializer).Some? || uniqueId.None? ==> serializer == old(serializer)
      ensures old(serializer).None? && uniqueId.Some? ==> serializer == Some(SensorDocument(Config()))
    {
      if serializer.Some? || uniqueId.None? {
        return;
      }
      var c := Config();  // the settings, read once
      var doc := [];
      doc := doc + [Entry(Name, Text(c.name))];
      doc := doc + [Entry(ObjectId, Text(c.objectId))];
      doc := doc + [Entry(UniqueId, Marker)];
      doc := doc + [Entry(DeviceClass, Text(c.deviceClass))];
      doc := doc + [Entry(StateClass, Text(c.stateClass))];
      doc := doc + [Entry(Icon, Text(c.icon))];
      doc := doc + [Entry(EntityCategory, Text(c.entityCategory))];
      doc := doc + (if !c.enableByDefault then [Entry(EnabledByDefault, Flag(c.enableByDefault))] else []);
      doc := doc + (if c.expireAfter.Some? then [Entry(ExpireAfter, Number(c.expireAfter.value as nat))] else []);
      doc := doc + [Entry(Device, Marker)];
      doc := doc + [Entry(Availability, Marker)];
      doc := doc + [Entry(StateTopic, TopicRef)];
      SensorDocumentFits(c);
      serializer := Some(doc);
    }

    /** On connect with a unique id: the configuration, the availability
        and the current state, in that order; never a subscription. */
    method OnMqttConnected()
      modifies this`sent
      ensures uniqueId.None? ==> sent == old(sent)
      ensures uniqueId.Some? ==>
                sent == old(sent) + [PublishConfig, PublishAvailability,
                                     PublishData(StateTopic, OnOffTokenOf(currentState), true)]
    {
      if uniqueId.None? {
        return;
      }
      sent := sent + [PublishConfig];
      sent := sent + [PublishAvailability];
      var _ := PublishState(currentState, true);
    }

    /** Publishes `ON` or `OFF`, retained, on the state topic. */
    method PublishState(state: bool, publishOk: bool) returns (ok: bool)
      modifies this`sent
      ensures sent == old(sent) + [PublishData(StateTopic, OnOffTokenOf(state), true)]
      ensures ok == publishOk
    {
      sent := sent + [PublishData(StateTopic, OnOffTokenOf(state), true)];
      ok := publishOk;
    }
  }

  // ---------------------------------------------------------------------
  // Client views

  /** A failed publish leaves the state unaccepted, so the next identical
      call publishes again instead of being skipped. */
  method FailedSetIsRetried() returns (first: bool, second: bool, publishes: nat)
    ensures !first && second
    ensures publishes == 2
  {
    var s := new Sensor(Some("door"));
    first := s.SetState(true, false, false);
    second := s.SetState(true, false, true);
    publishes := |s.sent|;
  }

  /** Connecting a fresh sensor announces it and reports `OFF`, the initial
      state, retained. */
  method FreshSensorConnects() returns (actions: seq<Action<OnOffToken>>)
    ensures actions == [PublishConfig, PublishAvailability, PublishData(StateTopic, StateOff, true)]
  {
    var s := new Sensor(Some("door"));
    s.OnMqttConnected();
    actions := s.sent;
  }
}
