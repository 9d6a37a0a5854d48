/**
  Shared vocabulary of the entity-to-wire layer: fixed-width integers, the
  nullable-pointer option, the property keys and values of a discovery
  document, and the actions an entity asks of the MQTT transport.
 */
module Wire {

  /** `uint8_t` */
  newtype uint8 = x: int | 0 <= x < 0x100

  /** `uint16_t` */
  newtype uint16 = x: int | 0 <= x < 0x1_0000

  /** A nullable pointer (`const char*` that may be `nullptr`), an unset
      number, or an unregistered callback. */
  datatype Option<+T> = None | Some(value: T)

  /** The property keys a discovery document can carry (the `HA...Property`
      and `HA...Topic` constants, and the three marker flags
      `WithUniqueId`, `WithDevice`, `WithAvailability`). The configuration
      topic roles `StateTopic` and `CommandTopic` double as the data-topic
      suffixes passed to publish, subscribe and topic comparison. */
  datatype Key =
    | Name | ObjectId | UniqueId | DeviceClass | StateClass | Icon | EntityCategory
    | EnabledByDefault | ExpireAfter | Retain
    | CodeArmRequired | CodeDisarmRequired | CodeTriggerRequired | Code
    | SupportedFeatures | StateTopic | CommandTopic
    | PayloadArmAway | PayloadArmHome | PayloadArmNight | PayloadArmVacation
    | PayloadArmCustomBypass | PayloadDisarm | PayloadTrigger
    | Device | Availability

  /** What one entry of the document refers to: a string property (which
      the renderer skips when null), a boolean property, a number, the
      supported-features array, a data topic or a marker flag. */
  datatype Value =
    | Text(text: Option<string>)
    | Flag(flag: bool)
    | Number(number: nat)
    | FeatureArray
    | TopicRef
    | Marker

  datatype Entry = Entry(key: Key, value: Value)

  /** The document has an entry under key `k`. */
  predicate Has(doc: seq<Entry>, k: Key)
  {
    exists e :: e in doc && e.key == k
  }

  /** What the builder adds for key `k`: one entry, or none when it skips
      the key. */
  function Step(value: Key -> Option<Value>, k: Key): (d: seq<Entry>)
    ensures |d| <= 1
  {
    match value(k)
    case Some(v) => [Entry(k, v)]
    case None => []
  }

  /** The builder visits key `k` among its first `n` steps. */
  predicate Visits(keyAt: nat -> Key, n: nat, k: Key)
  {
    exists i :: 0 <= i < n && keyAt(i) == k
  }

  /** The entries a builder adds when its `i`-th step visits `keyAt(i)`, for
      the first `n` steps, and `value` says what it sets under each key
      (`None`: the key is skipped). */
  function Collect(keyAt: nat -> Key, value: Key -> Option<Value>, n: nat): (d: seq<Entry>)
    ensures |d| <= n
  {
    if n == 0 then [] else Collect(keyAt, value, n - 1) + Step(value, keyAt(n - 1))
  }

  /** One more step appends what the builder adds for the next key. */
  lemma CollectStep(keyAt: nat -> Key, value: Key -> Option<Value>, n: nat)
    ensures Collect(keyAt, value, n + 1) == Collect(keyAt, value, n) + Step(value, keyAt(n))
  {
  }

  /** An entry is in the document exactly when its key is among the keys
      visited and the builder sets that value under it. */
  lemma {:induction false} CollectEntries(keyAt: nat -> Key, value: Key -> Option<Value>, n: nat, k: Key, v: Value)
    ensures Entry(k, v) in Collect(keyAt, value, n) <==> Visits(keyAt, n, k) && value(k) == Some(v)
  {
    if n > 0 {
      CollectEntries(keyAt, value, n - 1, k, v);
      var last := Step(value, keyAt(n - 1));
      assert Collect(keyAt, value, n) == Collect(keyAt, value, n - 1) + last;
      if keyAt(n - 1) == k {
        assert Visits(keyAt, n, k) by { assert keyAt(n - 1) == k; }
      } else {
        assert Entry(k, v) !in last;
        if Visits(keyAt, n, k) {
          var i :| 0 <= i < n && keyAt(i) == k;
          assert Visits(keyAt, n - 1, k) by { assert i < n - 1; }
        }
      }
    }
  }

  /** A key is present exactly when it is visited and not skipped. */
  lemma CollectHas(keyAt: nat -> Key, value: Key -> Option<Value>, n: nat, k: Key)
    ensures Has(Collect(keyAt, value, n), k) <==> Visits(keyAt, n, k) && value(k).Some?
  {
    var d := Collect(keyAt, value, n);
    if Has(d, k) {
      var e :| e in d && e.key == k;
      CollectEntries(keyAt, value, n, k, e.value);
    }
    if Visits(keyAt, n, k) && value(k).Some? {
      CollectEntries(keyAt, value, n, k, value(k).value);
    }
  }

  /** The entries' keys strictly increase in `rank`. */
  predicate OrderedBy(d: seq<Entry>, rank: Key -> nat)
  {
    forall a, b :: 0 <= a < b < |d| ==> rank(d[a].key) < rank(d[b].key)
  }

  /** When `rank` numbers the keys by the step that visits them, the
      document lists its entries in that order, each key at most once. */
  lemma {:induction false} CollectOrdered(keyAt: nat -> Key, value: Key -> Option<Value>, n: nat, rank: Key -> nat)
    requires forall i :: 0 <= i < n ==> rank(keyAt(i)) == i
    ensures forall e :: e in Collect(keyAt, value, n) ==> rank(e.key) < n
    ensures OrderedBy(Collect(keyAt, value, n), rank)
  {
    if n > 0 {
      CollectOrdered(keyAt, value, n - 1, rank);
      var prev, d := Collect(keyAt, value, n - 1), Collect(keyAt, value, n);
      var last := keyAt(n - 1);
      forall a, b | 0 <= a < b < |d| ensures rank(d[a].key) < rank(d[b].key) {
        if b >= |prev| {
          assert d[a] == prev[a] && d[a] in prev;
          assert value(last).Some? && d[b] == Entry(last, value(last).value);
        } else {
          assert d[a] == prev[a] && d[b] == prev[b];
        }
      }
    }
  }

  /** What an entity asks of the transport (the unseen base class):
      `publishConfig()`, `publishAvailability()`,
      `subscribeTopic(uniqueId, topic)` and
      `publishOnDataTopic(topic, payload, retained)`. */
  datatype Action<P> =
    | PublishConfig
    | PublishAvailability
    | Subscribe(topic: Key)
    | PublishData(topic: Key, payload: P, retained: bool)

}
