/**
  The button entity: its discovery document, the connect sequence and
  the press command, which fires the registered callback and carries no
  state.
 */
module Button {
  import opened Wire

  // ---------------------------------------------------------------------
  // The discovery document

  /** The settings `buildSerializer` reads. */
  datatype ButtonConfig = ButtonConfig(
    name: Option<string>,
    objectId: Option<string>,
    deviceClass: Option<string>,
    icon: Option<string>,
    entityCategory: Option<string>,
    enableByDefault: bool,
    retain: bool)

  /** The number of entries the serializer is created for. */
  const MaxProperties: nat := 11

  /** The number of keys `buildSerializer` visits. */
  const ButtonKeyCount: nat := 11

  /** The key `buildSerializer` visits at each step, in source order. */
  function ButtonKeyAt(i: nat): Key
  {
    match i
    case 0 => Name
    case 1 => ObjectId
    case 2 => UniqueId
    case 3 => DeviceClass
    case 4 => Icon
    case 5 => EntityCategory
    case 6 => EnabledByDefault
    case 7 => Retain
    case 8 => Device
    case 9 => Availability
    case _ => CommandTopic
  }

  /** The step at which the builder visits a key (keys it never visits
      come last). */
  function ButtonRank(k: Key): nat
  {
    match k
    case Name => 0
    case ObjectId => 1
    case UniqueId => 2
    case DeviceClass => 3
    case Icon => 4
    case EntityCategory => 5
    case EnabledByDefault => 6
    case Retain => 7
    case Device => 8
    case Availability => 9
    case CommandTopic => 10
    case _ => 11
  }

  /** The steps and the ranks are inverse: each of the 11 steps visits a
      different key, and a key is visited exactly when its rank is below 11. */
  lemma ButtonKeyOrder()
    ensures forall i :: 0 <= i < ButtonKeyCount ==> ButtonRank(ButtonKeyAt(i)) == i
    ensures forall k :: ButtonRank(k) < ButtonKeyCount <==> Visits(ButtonKeyAt, ButtonKeyCount, k)
  {
    forall k | ButtonRank(k) < ButtonKeyCount ensures Visits(ButtonKeyAt, ButtonKeyCount, k) {
      assert ButtonKeyAt(ButtonRank(k)) == k;
    }
  }

  /** What the builder sets under each key; `None` where it skips the key
      because the setting has its default value. */
  function ButtonValue(c: ButtonConfig, k: Key): Option<Value>
  {
    match k
    case Name => Some(Text(c.name))
    case ObjectId => Some(Text(c.objectId))
    case UniqueId => Some(Marker)
    case DeviceClass => Some(Text(c.deviceClass))
    case Icon => Some(Text(c.icon))
    case EntityCategory => Some(Text(c.entityCategory))
    case EnabledByDefault => if !c.enableByDefault then Some(Flag(c.enableByDefault)) else None
    case Retain => if c.retain then Some(Flag(c.retain)) else None
    case Device => Some(Marker)
    case Availability => Some(Marker)
    case CommandTopic => Some(TopicRef)
    case _ => None
  }

  function ButtonFields(c: ButtonConfig): Key -> Option<Value>
  {
    k => ButtonValue(c, k)
  }

  /** The document a builder produces after its first `n` steps when it
      visits the keys in source order and sets what `ButtonValue` says. */
  function ButtonPrefix(c: ButtonConfig, n: nat): (d: seq<Entry>)
    ensures |d| <= n
  {
    Collect(ButtonKeyAt, ButtonFields(c), n)
  }

  /** The same document read key by key: the reference the properties
      below are stated about. */
  function ButtonDocumentByKeys(c: ButtonConfig): (d: seq<Entry>)
    ensures |d| <= MaxProperties
  {
    ButtonPrefix(c, ButtonKeyCount)
  }

  /** The document `buildSerializer` builds, spelled in the order of its
      `set` and `topic` calls. */
  function ButtonDocument(c: ButtonConfig): seq<Entry>
  {
    []
      + [Entry(Name, Text(c.name))]
      + [Entry(ObjectId, Text(c.objectId))]
      + [Entry(UniqueId, Marker)]
      + [Entry(DeviceClass, Text(c.deviceClass))]
      + [Entry(Icon, Text(c.icon))]
      + [Entry(EntityCategory, Text(c.entityCategory))]
      + (if !c.enableByDefault then [Entry(EnabledByDefault, Flag(c.enableByDefault))] else [])
      + (if c.retain then [Entry(Retain, Flag(c.retain))] else [])
      + [Entry(Device, Marker)]
      + [Entry(Availability, Marker)]
      + [Entry(CommandTopic, TopicRef)]
  }

  /** The name, object id and unique id entries, always added. */
  lemma ButtonIdentityPieces(c: ButtonConfig)
    ensures Step(ButtonFields(c), ButtonKeyAt(0)) == [Entry(Name, Text(c.name))]
    ensures Step(ButtonFields(c), ButtonKeyAt(1)) == [Entry(ObjectId, Text(c.objectId))]
    ensures Step(ButtonFields(c), ButtonKeyAt(2)) == [Entry(UniqueId, Marker)]
  {
    assert ButtonKeyAt(0) == Name;
    assert ButtonKeyAt(1) == ObjectId;
    assert ButtonKeyAt(2) == UniqueId;
  }

  /** The device class, icon and entity category entries, always added. */
  lemma ButtonClassPieces(c: ButtonConfig)
    ensures Step(ButtonFields(c), ButtonKeyAt(3)) == [Entry(DeviceClass, Text(c.deviceClass))]
    ensures Step(ButtonFields(c), ButtonKeyAt(4)) == [Entry(Icon, Text(c.icon))]
    ensures Step(ButtonFields(c), ButtonKeyAt(5)) == [Entry(EntityCategory, Text(c.entityCategory))]
  {
    assert ButtonKeyAt(3) == DeviceClass;
    assert ButtonKeyAt(4) == Icon;
    assert ButtonKeyAt(5) == EntityCategory;
  }

  /** The enabled-by-default and retain flags, each added only when it
      differs from its default, then the device marker. */
  lemma ButtonOptionalPieces(c: ButtonConfig)
    ensures Step(ButtonFields(c), ButtonKeyAt(6)) ==
              (if !c.enableByDefault then [Entry(EnabledByDefault, Flag(c.enableByDefault))] else [])
    ensures Step(ButtonFields(c), ButtonKeyAt(7)) == (if c.retain then [Entry(Retain, Flag(c.retain))] else [])
    ensures Step(ButtonFields(c), ButtonKeyAt(8)) == [Entry(Device, Marker)]
  {
    assert ButtonKeyAt(6) == EnabledByDefault;
    assert ButtonKeyAt(7) == Retain;
    assert ButtonKeyAt(8) == Device;
  }

  /** The availability marker and the command topic that close the
      document. */
  lemma ButtonTrailerPieces(c: ButtonConfig)
    ensures Step(ButtonFields(c), ButtonKeyAt(9)) == [Entry(Availability, Marker)]
    ensures Step(ButtonFields(c), ButtonKeyAt(10)) == [Entry(CommandTopic, TopicRef)]
  {
    assert ButtonKeyAt(9) == Availability;
    assert ButtonKeyAt(10) == CommandTopic;
  }

  /** The first six steps, up to the entity category, in source-order
      spelling. */
  lemma ButtonDocumentHead(c: ButtonConfig)
    ensures ButtonPrefix(c, 6) == []
              + [Entry(Name, Text(c.name))]
              + [Entry(ObjectId, Text(c.objectId))]
              + [Entry(UniqueId, Marker)]
              + [Entry(DeviceClass, Text(c.deviceClass))]
              + [Entry(Icon, Text(c.icon))]
              + [Entry(EntityCategory, Text(c.entityCategory))]
  {
    ButtonIdentityPieces(c);
    ButtonClassPieces(c);
    CollectStep(ButtonKeyAt, ButtonFields(c), 0);
    CollectStep(ButtonKeyAt, ButtonFields(c), 1);
    CollectStep(ButtonKeyAt, ButtonFields(c), 2);
    CollectStep(ButtonKeyAt, ButtonFields(c), 3);
    CollectStep(ButtonKeyAt, ButtonFields(c), 4);
    CollectStep(ButtonKeyAt, ButtonFields(c), 5);
  }

  /** The generic reading of the builder agrees with its source-order
      spelling. */
  lemma ButtonDocumentCollects(c: ButtonConfig)
    ensures ButtonDocument(c) == ButtonDocumentByKeys(c)
  {
    ButtonDocumentHead(c);
    ButtonOptionalPieces(c);
    ButtonTrailerPieces(c);
    CollectStep(ButtonKeyAt, ButtonFields(c), 6);
    CollectStep(ButtonKeyAt, ButtonFields(c), 7);
    CollectStep(ButtonKeyAt, ButtonFields(c), 8);
    CollectStep(ButtonKeyAt, ButtonFields(c), 9);
    CollectStep(ButtonKeyAt, ButtonFields(c), 10);
  }

  /** The document never holds more entries than the serializer is created
      for. */
  lemma ButtonDocumentFits(c: ButtonConfig)
    ensures |ButtonDocument(c)| <= MaxProperties
  {
    ButtonDocumentCollects(c);
  }

  /** An entry is in the document exactly when the builder visits its key
      and sets that value under it. */
  lemma ButtonDocumentEntry(c: ButtonConfig, k: Key, v: Value)
    ensures Entry(k, v) in ButtonDocumentByKeys(c) <==> ButtonRank(k) < ButtonKeyCount && ButtonValue(c, k) == Some(v)
  {
    CollectEntries(ButtonKeyAt, ButtonFields(c), ButtonKeyCount, k, v);
    ButtonKeyOrder();
  }

  /** A key is in the document exactly when the builder visits it and does
      not skip it. */
  lemma ButtonDocumentHas(c: ButtonConfig, k: Key)
    ensures Has(ButtonDocumentByKeys(c), k) <==> ButtonRank(k) < ButtonKeyCount && ButtonValue(c, k).Some?
  {
    CollectHas(ButtonKeyAt, ButtonFields(c), ButtonKeyCount, k);
    ButtonKeyOrder();
  }

  /** The enabled-by-default entry appears, set to false, exactly when the
      button is disabled by default. */
  lemma ButtonDocumentEnabledByDefault(c: ButtonConfig)
    ensures Entry(EnabledByDefault, Flag(false)) in ButtonDocumentByKeys(c) <==> !c.enableByDefault
    ensures Has(ButtonDocumentByKeys(c), EnabledByDefault) <==> !c.enableByDefault
  {
    assert ButtonRank(EnabledByDefault) == 6;
    assert ButtonValue(c, EnabledByDefault) == if c.enableByDefault then None else Some(Flag(false));
    ButtonDocumentEntry(c, EnabledByDefault, Flag(false));
    ButtonDocumentHas(c, EnabledByDefault);
  }

  /** The retain entry appears, set to true, exactly when the button
      retains. */
  lemma ButtonDocumentRetain(c: ButtonConfig)
    ensures Entry(Retain, Flag(true)) in ButtonDocumentByKeys(c) <==> c.retain
    ensures Has(ButtonDocumentByKeys(c), Retain) <==> c.retain
  {
    assert ButtonRank(Retain) == 7;
    assert ButtonValue(c, Retain) == if c.retain then Some(Flag(true)) else None;
    ButtonDocumentEntry(c, Retain, Flag(true));
    ButtonDocumentHas(c, Retain);
  }

  /** With both flags at their defaults the document holds neither
      optional entry: the nine unconditional ones only. */
  lemma ButtonDefaultDocument(c: ButtonConfig)
    requires c.enableByDefault && !c.retain
    ensures !Has(ButtonDocumentByKeys(c), EnabledByDefault) && !Has(ButtonDocumentByKeys(c), Retain)
    ensures |ButtonDocument(c)| == 9
  {
    assert ButtonRank(EnabledByDefault) == 6 && ButtonRank(Retain) == 7;
    assert ButtonValue(c, EnabledByDefault) == None && ButtonValue(c, Retain) == None;
    ButtonDocumentHas(c, EnabledByDefault);
    ButtonDocumentHas(c, Retain);
  }

  /** The entries come in the builder's fixed key order, each key at most
      once. */
  lemma ButtonDocumentOrder(c: ButtonConfig)
    ensures OrderedBy(ButtonDocumentByKeys(c), ButtonRank)
  {
    ButtonKeyOrder();
    CollectOrdered(ButtonKeyAt, ButtonFields(c), ButtonKeyCount, ButtonRank);
  }

  /** The document ends with the device block, the availability block and
      then the command topic. */
  lemma ButtonDocumentEnds(c: ButtonConfig)
    ensures var d := ButtonDocumentByKeys(c);
      |d| >= 3 && d[|d| - 3..] == [Entry(Device, Marker), Entry(Availability, Marker), Entry(CommandTopic, TopicRef)]
  {
    ButtonOptionalPieces(c);
    ButtonTrailerPieces(c);
    CollectStep(ButtonKeyAt, ButtonFields(c), 8);
    CollectStep(ButtonKeyAt, ButtonFields(c), 9);
    CollectStep(ButtonKeyAt, ButtonFields(c), 10);
  }

  // ---------------------------------------------------------------------
  // The button entity

  class Button {
    const uniqueId: Option<string>

    // Set through the base class, whose setters are not part of this model.
    var name: Option<string>
    var objectId: Option<string>
    var enableByDefault: bool
    var entityCategory: Option<string>

    /** The device class (`_class`). */
    var deviceClass: Option<string>
    var icon: Option<string>
    var retain: bool
    /** Whether a command callback is registered. */
    var commandCallback: bool

    /** The number of times the callback has been invoked. */
    var presses: nat
    /** The discovery document, once built. */
    var serializer: Option<seq<Entry>>
    /** What the button has asked of the transport, oldest first. It never
        publishes data, so its payloads are of the unit type. */
    var sent: seq<Action<()>>

    /** The settings the document is built from. */
    function Config(): ButtonConfig
      reads this`name, this`objectId, this`deviceClass, this`icon, this`entityCategory,
            this`enableByDefault, this`retain
    {
      ButtonConfig(name, objectId, deviceClass, icon, entityCategory, enableByDefault, retain)
    }

    constructor (uniqueId: Option<string>)
      ensures this.uniqueId == uniqueId
      ensures name == None && objectId == None
      ensures deviceClass == None && icon == None && !retain
      ensures enableByDefault && entityCategory == None && !commandCallback
      ensures presses == 0 && serializer == None && sent == []
    {
      this.uniqueId := uniqueId;
      name, objectId := None, None;
      deviceClass, icon := None, None;
      retain := false;
      enableByDefault := true;
      entityCategory := None;
      commandCallback := false;
      presses := 0;
      serializer := None;
      sent := [];
    }

    /** Builds the discovery document once; does nothing when it already
        exists or there is no unique id. */
    method BuildSerializer()
      modifies this`serializer
      ensures old(serializer).Some? || uniqueId.None? ==> serializer == old(serializer)
      ensures old(serializer).None? && uniqueId.Some? ==> serializer == Some(ButtonDocument(Config()))
      ensures serializer.Some? && old(serializer).None? ==> |serializer.value| <= MaxProperties
    {
      if serializer.Some? || uniqueId.None? {
        return;
      }
      var c := Config();  // the settings, read once
      var doc := [];
      doc := doc + [Entry(Name, Text(c.name))];
      doc := doc + [Entry(ObjectId, Text(c.objectId))];
      doc := doc + [Entry(UniqueId, Marker)];
      doc := doc + [Entry(DeviceClass, Text(c.deviceClass))];
      doc := doc + [Entry(Icon, Text(c.icon))];
      doc := doc + [Entry(EntityCategory, Text(c.entityCategory))];
      doc := doc + (if !c.enableByDefault then [Entry(EnabledByDefault, Flag(c.enableByDefault))] else []);
      doc := doc + (if c.retain then [Entry(Retain, Flag(c.retain))] else []);
      doc := doc + [Entry(Device, Marker)];
      doc := doc + [Entry(Availability, Marker)];
      doc := doc + [Entry(CommandTopic, TopicRef)];
      ButtonDocumentFits(c);
      serializer := Some(doc);
    }

    /** On connect with a unique id: the configuration, the availability,
        then the command subscription; never a state publish. */
    method OnMqttConnected()
      modifies this`sent
      ensures uniqueId.None? ==> sent == old(sent)
      ensures uniqueId.Some? ==> sent == old(sent) + [PublishConfig, PublishAvailability, Subscribe(CommandTopic)]
    {
      if uniqueId.None? {
        return;
      }
      sent := sent + [PublishConfig];
      sent := sent + [PublishAvailability];
      sent := sent + [Subscribe(CommandTopic)];
    }

    /** A press: the callback fires once when one is registered and the
        message arrived on the command topic; the payload is ignored.
        `compareDataTopics` is the transport's topic comparison. */
    method OnMqttMessage(topic: string, payload: seq<uint8>, length: uint16,
                         compareDataTopics: (string, Option<string>, Key) -> bool)
      modifies this`presses
      ensures presses == old(presses) +
                if commandCallback && compareDataTopics(topic, uniqueId, CommandTopic) then 1 else 0
    {
      if commandCallback && compareDataTopics(topic, uniqueId, CommandTopic) {
        presses := presses + 1;
      }
    }

    method SetDeviceClass(deviceClass: Option<string>)
      modifies this`deviceClass
      ensures this.deviceClass == deviceClass
    {
      this.deviceClass := deviceClass;
    }

    method SetIcon(icon: Option<string>)
      modifies this`icon
      ensures this.icon == icon
    {
      this.icon := icon;
    }

    method SetRetain(retain: bool)
      modifies this`retain
      ensures this.retain == retain
    {
      this.retain := retain;
    }

    /** Registers the press callback; `callback` says whether the pointer
        passed is non-null, so a null one clears the registration. */
    method OnCommand(callback: bool)
      modifies this`commandCallback
      ensures commandCallback == callback
    {
      commandCallback := callback;
    }
  }

  // ---------------------------------------------------------------------
  // Client views

  /** A button left at its defaults announces a nine-entry document with
      neither optional flag. */
  method DefaultButtonDocument() returns (doc: seq<Entry>)
    ensures |doc| == 9
    ensures !Has(doc, EnabledByDefault) && !Has(doc, Retain)
  {
    var b := new Button(Some("restart"));
    b.BuildSerializer();
    doc := b.serializer.value;
    ButtonDefaultDocument(b.Config());
    ButtonDocumentCollects(b.Config());
  }

  /** Two presses with different payloads have the same effect: the
      payload never matters. */
  method PayloadIsIgnored(topic: string, p: seq<uint8>, q: seq<uint8>, n: uint16, m: uint16,
                          compareDataTopics: (string, Option<string>, Key) -> bool)
    returns (pressesP: nat, pressesQ: nat)
    ensures pressesP == pressesQ
    ensures pressesP == if compareDataTopics(topic, Some("restart"), CommandTopic) then 1 else 0
  {
    var a := new Button(Some("restart"));
    a.OnCommand(true);
    a.OnMqttMessage(topic, p, n, compareDataTopics);
    var b := new Button(Some("restart"));
    b.OnCommand(true);
    b.OnMqttMessage(topic, q, m, compareDataTopics);
    pressesP, pressesQ := a.presses, b.presses;
  }

  /** Registering a null callback after a real one clears it: a matching
      message then presses nothing. */
  method NullCallbackStopsPresses(topic: string, payload: seq<uint8>, length: uint16,
                                  compareDataTopics: (string, Option<string>, Key) -> bool)
    returns (pressesBefore: nat, pressesAfter: nat)
    ensures pressesBefore == if compareDataTopics(topic, Some("restart"), CommandTopic) then 1 else 0
    ensures pressesAfter == pressesBefore
  {
    var b := new Button(Some("restart"));
    b.OnCommand(true);
    b.OnMqttMessage(topic, payload, length, compareDataTopics);
    pressesBefore := b.presses;
    b.OnCommand(false);
    b.OnMqttMessage(topic, payload, length, compareDataTopics);
    pressesAfter := b.presses;
  }

  /** Without a registered callback no message counts as a press. */
  method NoCallbackNoPress(topic: string, payload: seq<uint8>, length: uint16,
                           compareDataTopics: (string, Option<string>, Key) -> bool)
    returns (presses: nat)
    ensures presses == 0
  {
    var b := new Button(Some("restart"));
    b.OnMqttMessage(topic, payload, length, compareDataTopics);
    presses := b.presses;
  }
}
