/**
  The alarm control panel entity: its feature flags and states, the
  state-to-token encoding, the discovery document with its
  supported-features array, the connect sequence, command forwarding and
  the debounced state publish.
 */
module AlarmControlPanel {
  import opened Wire

  // ---------------------------------------------------------------------
  // Supported features

  /** The optional commands a panel can offer. */
  datatype Feature = ArmHome | ArmAway | ArmNight | ArmVacation | ArmCustomBypass | Trigger

  /** The mask of a panel with no optional feature. */
  const DefaultFeatures: bv16 := 0

  /** The flag value of each feature: a single bit below 64. */
  function FeatureBit(f: Feature): (b: bv16)
    ensures b != 0 && b & (b - 1) == 0
    ensures b < 64
  {
    match f
    case ArmHome => 1
    case ArmAway => 2
    case ArmNight => 4
    case ArmVacation => 8
    case ArmCustomBypass => 16
    case Trigger => 32
  }

  /** Two features share a bit only when they are the same feature. */
  lemma FeatureBitsDistinct(f: Feature, g: Feature)
    ensures FeatureBit(f) & FeatureBit(g) != 0 <==> f == g
  {
  }

  /** The panel's mask enables feature `f` (the `_features & X` tests). */
  predicate HasFeature(mask: bv16, f: Feature)
  {
    mask & FeatureBit(f) != 0
  }

  /** The mask a caller passes for a list of features, combined with `|`. */
  function Mask(fs: seq<Feature>): bv16
  {
    if fs == [] then DefaultFeatures else Mask(fs[..|fs| - 1]) | FeatureBit(fs[|fs| - 1])
  }

  /** Any combination of features is a mask below 64. */
  lemma {:induction false} MaskBelow64(fs: seq<Feature>)
    ensures Mask(fs) < 64
  {
    if fs != [] {
      MaskBelow64(fs[..|fs| - 1]);
    }
  }

  /** A combined mask enables exactly the features that were combined. */
  lemma {:induction false} MaskHasExactly(fs: seq<Feature>, f: Feature)
    ensures HasFeature(Mask(fs), f) <==> f in fs
  {
    if fs != [] {
      var init, last := fs[..|fs| - 1], fs[|fs| - 1];
      MaskHasExactly(init, f);
      FeatureBitsDistinct(last, f);
      assert fs == init + [last];
    }
  }

  // ---------------------------------------------------------------------
  // Panel states and their wire tokens

  /** The states a panel can report. */
  datatype PanelState =
    | UnknownState | Disarmed | ArmedHome | ArmedAway | ArmedNight | ArmedVacation
    | ArmedCustomBypass | Pending | Triggered | Arming | Disarming

  /** The enumerator's integer value. */
  function Ordinal(s: PanelState): (n: nat)
    ensures n <= 10
    ensures n == 0 <==> s == UnknownState
  {
    match s
    case UnknownState => 0
    case Disarmed => 1
    case ArmedHome => 2
    case ArmedAway => 3
    case ArmedNight => 4
    case ArmedVacation => 5
    case ArmedCustomBypass => 6
    case Pending => 7
    case Triggered => 8
    case Arming => 9
    case Disarming => 10
  }

  /** The state with a given integer value, if any. */
  function StateOfOrdinal(n: nat): Option<PanelState>
  {
    if n == 0 then Some(UnknownState)
    else if n == 1 then Some(Disarmed)
    else if n == 2 then Some(ArmedHome)
    else if n == 3 then Some(ArmedAway)
    else if n == 4 then Some(ArmedNight)
    else if n == 5 then Some(ArmedVacation)
    else if n == 6 then Some(ArmedCustomBypass)
    else if n == 7 then Some(Pending)
    else if n == 8 then Some(Triggered)
    else if n == 9 then Some(Arming)
    else if n == 10 then Some(Disarming)
    else None
  }

  /** The values are the consecutive integers 0 to 10, one per state. */
  lemma OrdinalsConsecutive(s: PanelState, n: nat)
    ensures StateOfOrdinal(Ordinal(s)) == Some(s)
    ensures StateOfOrdinal(n).Some? <==> n <= 10
    ensures n <= 10 ==> Ordinal(StateOfOrdinal(n).value) == n
  {
  }

  /** The state tokens published on the state topic. */
  datatype StateToken =
    | StateArmedAway | StateArmedCustomBypass | StateArmedHome | StateArmedNight
    | StateArmedVacation | StateArming | StateDisarmed | StateDisarming
    | StatePending | StateTriggered

  /** The token `publishPanelState` sends for a state; the unknown state
      falls through to `pending`. */
  function PanelStateToken(s: PanelState): (t: StateToken)
    ensures t == StatePending <==> s == UnknownState || s == Pending
  {
    match s
    case ArmedAway => StateArmedAway
    case ArmedCustomBypass => StateArmedCustomBypass
    case ArmedHome => StateArmedHome
    case ArmedNight => StateArmedNight
    case ArmedVacation => StateArmedVacation
    case Arming => StateArming
    case Disarmed => StateDisarmed
    case Disarming => StateDisarming
    case UnknownState => StatePending
    case Pending => StatePending
    case Triggered => StateTriggered
  }

  /** The known state a token names. */
  function TokenState(t: StateToken): PanelState
  {
    match t
    case StateArmedAway => ArmedAway
    case StateArmedCustomBypass => ArmedCustomBypass
    case StateArmedHome => ArmedHome
    case StateArmedNight => ArmedNight
    case StateArmedVacation => ArmedVacation
    case StateArming => Arming
    case StateDisarmed => Disarmed
    case StateDisarming => Disarming
    case StatePending => Pending
    case StateTriggered => Triggered
  }

  /** Every known state round-trips through its token, every token is sent
      for some state, and two states share a token only when both are
      `UnknownState` or `Pending`. */
  lemma StateTokenRoundTrip(s: PanelState, s': PanelState, t: StateToken)
    ensures s != UnknownState ==> TokenState(PanelStateToken(s)) == s
    ensures PanelStateToken(TokenState(t)) == t
    ensures PanelStateToken(s) == PanelStateToken(s') <==>
              s == s' || ((s == UnknownState || s == Pending) && (s' == UnknownState || s' == Pending))
  {
  }

  // ---------------------------------------------------------------------
  // The supported-features array

  /** The tokens of the supported-features array. */
  datatype FeatureToken =
    | TokenArmAway | TokenArmHome | TokenArmNight | TokenArmVacation | TokenArmCustomBypass | TokenTrigger

  function TokenOf(f: Feature): FeatureToken
  {
    match f
    case ArmAway => TokenArmAway
    case ArmHome => TokenArmHome
    case ArmNight => TokenArmNight
    case ArmVacation => TokenArmVacation
    case ArmCustomBypass => TokenArmCustomBypass
    case Trigger => TokenTrigger
  }

  /** Position of a token in the wire order: arm_away, arm_home, arm_night,
      arm_vacation, arm_custom_bypass, trigger. */
  function TokenRank(t: FeatureToken): nat
  {
    match t
    case TokenArmAway => 0
    case TokenArmHome => 1
    case TokenArmNight => 2
    case TokenArmVacation => 3
    case TokenArmCustomBypass => 4
    case TokenTrigger => 5
  }

  /** The features in the order their tokens go on the wire. */
  const FeatureOrder: seq<Feature> := [ArmAway, ArmHome, ArmNight, ArmVacation, ArmCustomBypass, Trigger]

  /** What one conditional `add` call contributes: the feature's token when
      the feature is enabled. */
  function TokenIfEnabled(mask: bv16, f: Feature): (ts: seq<FeatureToken>)
    ensures ts == [TokenOf(f)] || ts == []
  {
    if HasFeature(mask, f) then [TokenOf(f)] else []
  }

  /** The array after the builder's conditional `add` calls for `fs`, in
      that order. */
  function TokensFor(mask: bv16, fs: seq<Feature>): (ts: seq<FeatureToken>)
    ensures |ts| <= |fs|
  {
    if fs == [] then []
    else
      TokensFor(mask, fs[..|fs| - 1]) + TokenIfEnabled(mask, fs[|fs| - 1])
  }

  /** The contents the builder gives the array for a mask. */
  function FeatureTokens(mask: bv16): seq<FeatureToken>
  {
    TokensFor(mask, FeatureOrder)
  }

  /** One more `add` call appends at most the token of that feature. */
  lemma TokensForPrefix(mask: bv16, fs: seq<Feature>, i: nat)
    requires i < |fs|
    ensures TokensFor(mask, fs[..i + 1]) == TokensFor(mask, fs[..i]) + TokenIfEnabled(mask, fs[i])
  {
    assert fs[..i + 1][..i] == fs[..i];
  }

  /** The six `add` calls of the builder, one at a time. */
  lemma FeatureTokensSteps(mask: bv16)
    ensures TokensFor(mask, FeatureOrder[..0]) == []
    ensures TokensFor(mask, FeatureOrder[..1]) == TokensFor(mask, FeatureOrder[..0]) + TokenIfEnabled(mask, ArmAway)
    ensures TokensFor(mask, FeatureOrder[..2]) == TokensFor(mask, FeatureOrder[..1]) + TokenIfEnabled(mask, ArmHome)
    ensures TokensFor(mask, FeatureOrder[..3]) == TokensFor(mask, FeatureOrder[..2]) + TokenIfEnabled(mask, ArmNight)
    ensures TokensFor(mask, FeatureOrder[..4]) == TokensFor(mask, FeatureOrder[..3]) + TokenIfEnabled(mask, ArmVacation)
    ensures TokensFor(mask, FeatureOrder[..5]) == TokensFor(mask, FeatureOrder[..4]) + TokenIfEnabled(mask, ArmCustomBypass)
    ensures TokensFor(mask, FeatureOrder[..6]) == TokensFor(mask, FeatureOrder[..5]) + TokenIfEnabled(mask, Trigger)
    ensures FeatureOrder[..6] == FeatureOrder
  {
    assert FeatureOrder[..0] == [];
    TokensForPrefix(mask, FeatureOrder, 0);
    TokensForPrefix(mask, FeatureOrder, 1);
    TokensForPrefix(mask, FeatureOrder, 2);
    TokensForPrefix(mask, FeatureOrder, 3);
    TokensForPrefix(mask, FeatureOrder, 4);
    TokensForPrefix(mask, FeatureOrder, 5);
    assert FeatureOrder[..6] == FeatureOrder;
  }

  lemma {:induction false} TokensForMembership(mask: bv16, fs: seq<Feature>, f: Feature)
    ensures TokenOf(f) in TokensFor(mask, fs) <==> f in fs && HasFeature(mask, f)
  {
    if fs != [] {
      var init, last := fs[..|fs| - 1], fs[|fs| - 1];
      TokensForMembership(mask, init, f);
      assert TokensFor(mask, fs) == TokensFor(mask, init) + TokenIfEnabled(mask, last);
      assert TokenOf(f) in TokenIfEnabled(mask, last) <==> f == last && HasFeature(mask, f) by {
        assert TokenRank(TokenOf(f)) == TokenRank(TokenOf(last)) ==> f == last;
      }
      assert f in fs <==> f in init || f == last by {
        assert fs == init + [last];
      }
    }
  }

  /** A token is in the array exactly when its feature's bit is set. */
  lemma FeatureTokensMembership(mask: bv16, f: Feature)
    ensures TokenOf(f) in FeatureTokens(mask) <==> HasFeature(mask, f)
  {
    TokensForMembership(mask, FeatureOrder, f);
  }

  lemma {:induction false} TokensForOrdered(mask: bv16, fs: seq<Feature>)
    requires forall i :: 0 <= i < |fs| ==> TokenRank(TokenOf(fs[i])) == i
    ensures forall t :: t in TokensFor(mask, fs) ==> TokenRank(t) < |fs|
    ensures forall i, j :: 0 <= i < j < |TokensFor(mask, fs)| ==>
              TokenRank(TokensFor(mask, fs)[i]) < TokenRank(TokensFor(mask, fs)[j])
  {
    if fs != [] {
      TokensForOrdered(mask, fs[..|fs| - 1]);
      var prev, ts := TokensFor(mask, fs[..|fs| - 1]), TokensFor(mask, fs);
      forall i, j | 0 <= i < j < |ts| ensures TokenRank(ts[i]) < TokenRank(ts[j]) {
        if j >= |prev| {
          assert ts[i] == prev[i] && prev[i] in prev;
        } else {
          assert ts[i] == prev[i] && ts[j] == prev[j];
        }
      }
    }
  }

  /** The array lists its tokens in wire order, each at most once. */
  lemma FeatureTokensOrdered(mask: bv16)
    ensures forall i, j :: 0 <= i < j < |FeatureTokens(mask)| ==>
              TokenRank(FeatureTokens(mask)[i]) < TokenRank(FeatureTokens(mask)[j])
  {
    TokensForOrdered(mask, FeatureOrder);
  }

  /** The number of set bits among the lowest `width` bits of `mask`. */
  function PopCount(mask: bv16, width: nat): (n: nat)
    ensures n <= width
    decreases width
  {
    if width == 0 then 0 else (if mask & 1 != 0 then 1 else 0) + PopCount(mask >> 1, width - 1)
  }

  /** One token for an enabled feature, none otherwise. */
  function TokenCount(mask: bv16, f: Feature): nat
  {
    if HasFeature(mask, f) then 1 else 0
  }

  /** The six feature bits, counted one feature at a time. */
  lemma PopCountOfFeatures(mask: bv16)
    ensures PopCount(mask, 6) == TokenCount(mask, ArmHome) + TokenCount(mask, ArmAway) + TokenCount(mask, ArmNight)
                                 + TokenCount(mask, ArmVacation) + TokenCount(mask, ArmCustomBypass) + TokenCount(mask, Trigger)
  {
  }

  /** The array's length is the number of set bits among the six feature bits. */
  lemma FeatureTokensCount(mask: bv16)
    ensures |FeatureTokens(mask)| == PopCount(mask, 6)
  {
    FeatureTokensSteps(mask);
    PopCountOfFeatures(mask);
    var fs := FeatureOrder;
    assert |TokensFor(mask, fs[..2])| == TokenCount(mask, ArmAway) + TokenCount(mask, ArmHome);
    assert |TokensFor(mask, fs[..4])| == |TokensFor(mask, fs[..2])| + TokenCount(mask, ArmNight) + TokenCount(mask, ArmVacation);
  }

  /** The array built for a combination of features holds exactly their tokens. */
  lemma FeatureTokensOfMask(fs: seq<Feature>, f: Feature)
    ensures TokenOf(f) in FeatureTokens(Mask(fs)) <==> f in fs
  {
    MaskHasExactly(fs, f);
    FeatureTokensMembership(Mask(fs), f);
  }

  /** The wire order is not the bit order: arm_home has the lowest bit but
      arm_away is listed first. */
  lemma TokenOrderIsNotBitOrder()
    ensures FeatureBit(ArmHome) < FeatureBit(ArmAway)
    ensures FeatureTokens(FeatureBit(ArmHome) | FeatureBit(ArmAway)) == [TokenArmAway, TokenArmHome]
  {
    var mask, fs := FeatureBit(ArmHome) | FeatureBit(ArmAway), FeatureOrder;
    assert fs[..0] == [];
    TokensForPrefix(mask, fs, 0);
    TokensForPrefix(mask, fs, 1);
    TokensForPrefix(mask, fs, 2);
    TokensForPrefix(mask, fs, 3);
    TokensForPrefix(mask, fs, 4);
    TokensForPrefix(mask, fs, 5);
    assert fs[..6] == fs;
  }

  /** The capacity the constructor gives the array. */
  const FeaturesArrayCapacityAsWritten: nat := 4

  /** The capacity the array needs: one slot per feature. */
  const FeaturesArrayCapacity: nat := 6

  /** Every feature enabled: the builder adds six tokens to an array made
      for four. */
  lemma FeaturesArrayOverflowsAsWritten()
    ensures |FeatureTokens(Mask([ArmHome, ArmAway, ArmNight, ArmVacation, ArmCustomBypass, Trigger]))|
            > FeaturesArrayCapacityAsWritten
  {
    var all := [ArmHome, ArmAway, ArmNight, ArmVacation, ArmCustomBypass, Trigger];
    forall f ensures HasFeature(Mask(all), f) {
      MaskHasExactly(all, f);
    }
    TokensForAllEnabled(Mask(all), FeatureOrder);
  }

  /** With every feature enabled each `add` call adds its token. */
  lemma {:induction false} TokensForAllEnabled(mask: bv16, fs: seq<Feature>)
    requires forall f :: HasFeature(mask, f)
    ensures |TokensFor(mask, fs)| == |fs|
  {
    if fs != [] {
      TokensForAllEnabled(mask, fs[..|fs| - 1]);
    }
  }

  /** With one slot per feature the array never overflows. */
  lemma FeatureTokensFitCapacity(mask: bv16)
    ensures |FeatureTokens(mask)| <= FeaturesArrayCapacity
  {
  }

  // ---------------------------------------------------------------------
  // The discovery document

  /** The settings the builder reads. */
  datatype PanelConfig = PanelConfig(
    name: Option<string>,
    objectId: Option<string>,
    icon: Option<string>,
    retain: bool,
    code: Option<string>,
    codeArmRequired: bool,
    codeDisarmRequired: bool,
    codeTriggerRequired: bool,
    features: bv16,
    payloadArmAway: Option<string>,
    payloadArmHome: Option<string>,
    payloadArmNight: Option<string>,
    payloadArmVacation: Option<string>,
    payloadArmCustomBypass: Option<string>,
    payloadDisarm: Option<string>,
    payloadTrigger: Option<string>)

  /** The number of entries the serializer is created for. */
  const MaxProperties: nat := 21

  /** The number of keys `buildSerializer` visits. */
  const PanelKeyCount: nat := 21

  /** The key `buildSerializer` visits at each step, in source order. */
  function PanelKeyAt(i: nat): Key
  {
    match i
    case 0 => Name
    case 1 => ObjectId
    case 2 => UniqueId
    case 3 => Icon
    case 4 => Retain
    case 5 => CodeArmRequired
    case 6 => CodeDisarmRequired
    case 7 => CodeTriggerRequired
    case 8 => Code
    case 9 => SupportedFeatures
    case 10 => StateTopic
    case 11 => CommandTopic
    case 12 => PayloadArmAway
    case 13 => PayloadArmHome
    case 14 => PayloadArmNight
    case 15 => PayloadArmVacation
    case 16 => PayloadArmCustomBypass
    case 17 => PayloadDisarm
    case 18 => PayloadTrigger
    case 19 => Device
    case _ => Availability
  }

  /** The step at which the builder visits a key (keys it never visits
      come last). */
  function PanelRank(k: Key): nat
  {
    match k
    case Name => 0
    case ObjectId => 1
    case UniqueId => 2
    case Icon => 3
    case Retain => 4
    case CodeArmRequired => 5
    case CodeDisarmRequired => 6
    case CodeTriggerRequired => 7
    case Code => 8
    case SupportedFeatures => 9
    case StateTopic => 10
    case CommandTopic => 11
    case PayloadArmAway => 12
    case PayloadArmHome => 13
    case PayloadArmNight => 14
    case PayloadArmVacation => 15
    case PayloadArmCustomBypass => 16
    case PayloadDisarm => 17
    case PayloadTrigger => 18
    case Device => 19
    case Availability => 20
    case _ => 21
  }

  /** The steps and the ranks are inverse: each of the 21 steps visits a
      different key, and a key is visited exactly when its rank is below 21. */
  lemma PanelKeyOrder()
    ensures forall i :: 0 <= i < PanelKeyCount ==> PanelRank(PanelKeyAt(i)) == i
    ensures forall k :: PanelRank(k) < PanelKeyCount <==> Visits(PanelKeyAt, PanelKeyCount, k)
  {
    PanelStepsRanked();
    forall k | PanelRank(k) < PanelKeyCount ensures Visits(PanelKeyAt, PanelKeyCount, k) {
      PanelStepOfRank(k);
    }
  }

  lemma PanelStepsRanked()
    ensures forall i :: 0 <= i < PanelKeyCount ==> PanelRank(PanelKeyAt(i)) == i
  {
  }

  lemma PanelStepOfRank(k: Key)
    requires PanelRank(k) < PanelKeyCount
    ensures PanelKeyAt(PanelRank(k)) == k
  {
  }

  /** What the builder sets under each key; `None` where it skips the key
      because the setting has its default value. */
  function PanelValue(c: PanelConfig, k: Key): Option<Value>
  {
    match k
    case Name => Some(Text(c.name))
    case ObjectId => Some(Text(c.objectId))
    case UniqueId => Some(Marker)
    case Icon => Some(Text(c.icon))
    case Retain => if c.retain then Some(Flag(c.retain)) else None
    case CodeArmRequired => if !c.codeArmRequired then Some(Flag(c.codeArmRequired)) else None
    case CodeDisarmRequired => if !c.codeDisarmRequired then Some(Flag(c.codeDisarmRequired)) else None
    case CodeTriggerRequired => if !c.codeTriggerRequired then Some(Flag(c.codeTriggerRequired)) else None
    case Code => if c.code.Some? then Some(Text(c.code)) else None
    case SupportedFeatures => if c.features != DefaultFeatures then Some(FeatureArray) else None
    case StateTopic => Some(TopicRef)
    case CommandTopic => Some(TopicRef)
    case PayloadArmAway => Some(Text(c.payloadArmAway))
    case PayloadArmHome => Some(Text(c.payloadArmHome))
    case PayloadArmNight => Some(Text(c.payloadArmNight))
    case PayloadArmVacation => Some(Text(c.payloadArmVacation))
    case PayloadArmCustomBypass => Some(Text(c.payloadArmCustomBypass))
    case PayloadDisarm => Some(Text(c.payloadDisarm))
    case PayloadTrigger => Some(Text(c.payloadTrigger))
    case Device => Some(Marker)
    case Availability => Some(Marker)
    case _ => None
  }

  function PanelFields(c: PanelConfig): Key -> Option<Value>
  {
    k => PanelValue(c, k)
  }

  /** The document a builder produces after its first `n` steps when it
      visits the keys in source order and sets what `PanelValue` says. */
  function PanelPrefix(c: PanelConfig, n: nat): (d: seq<Entry>)
    ensures |d| <= n
  {
    Collect(PanelKeyAt, PanelFields(c), n)
  }

  /** The same document read key by key: the reference the properties
      below are proved about. */
  function PanelDocumentByKeys(c: PanelConfig): (d: seq<Entry>)
    ensures |d| <= MaxProperties
  {
    PanelPrefix(c, PanelKeyCount)
  }

  /** The entries `buildSerializer` adds, in the order it adds them. */
  function PanelDocument(c: PanelConfig): seq<Entry>
  {
    []
      + [Entry(Name, Text(c.name))]
      + [Entry(ObjectId, Text(c.objectId))]
      + [Entry(UniqueId, Marker)]
      + [Entry(Icon, Text(c.icon))]
      + (if c.retain then [Entry(Retain, Flag(c.retain))] else [])
      + (if !c.codeArmRequired then [Entry(CodeArmRequired, Flag(c.codeArmRequired))] else [])
      + (if !c.codeDisarmRequired then [Entry(CodeDisarmRequired, Flag(c.codeDisarmRequired))] else [])
      + (if !c.codeTriggerRequired then [Entry(CodeTriggerRequired, Flag(c.codeTriggerRequired))] else [])
      + (if c.code.Some? then [Entry(Code, Text(c.code))] else [])
      + (if c.features != DefaultFeatures then [Entry(SupportedFeatures, FeatureArray)] else [])
      + [Entry(StateTopic, TopicRef)]
      + [Entry(CommandTopic, TopicRef)]
      + [Entry(PayloadArmAway, Text(c.payloadArmAway))]
      + [Entry(PayloadArmHome, Text(c.payloadArmHome))]
      + [Entry(PayloadArmNight, Text(c.payloadArmNight))]
      + [Entry(PayloadArmVacation, Text(c.payloadArmVacation))]
      + [Entry(PayloadArmCustomBypass, Text(c.payloadArmCustomBypass))]
      + [Entry(PayloadDisarm, Text(c.payloadDisarm))]
      + [Entry(PayloadTrigger, Text(c.payloadTrigger))]
      + [Entry(Device, Marker)]
      + [Entry(Availability, Marker)]
  }

  /** The name, object id and unique id entries, always added. */
  lemma PanelIdentityPieces(c: PanelConfig)
    ensures Step(PanelFields(c), PanelKeyAt(0)) == [Entry(Name, Text(c.name))]
    ensures Step(PanelFields(c), PanelKeyAt(1)) == [Entry(ObjectId, Text(c.objectId))]
    ensures Step(PanelFields(c), PanelKeyAt(2)) == [Entry(UniqueId, Marker)]
  {
    assert PanelKeyAt(0) == Name;
    assert PanelKeyAt(1) == ObjectId;
    assert PanelKeyAt(2) == UniqueId;
  }

  /** The icon entry, then the retain and arm code-required entries, each added only when it differs from its default. */
  lemma PanelRetainPieces(c: PanelConfig)
    ensures Step(PanelFields(c), PanelKeyAt(3)) == [Entry(Icon, Text(c.icon))]
    ensures Step(PanelFields(c), PanelKeyAt(4)) == (if c.retain then [Entry(Retain, Flag(c.retain))] else [])
    ensures Step(PanelFields(c), PanelKeyAt(5)) == (if !c.codeArmRequired then [Entry(CodeArmRequired, Flag(c.codeArmRequired))] else [])
  {
    assert PanelKeyAt(3) == Icon;
    assert PanelKeyAt(4) == Retain;
    assert PanelKeyAt(5) == CodeArmRequired;
  }

  /** The disarm and trigger code-required entries and the code, each added only when it differs from its default. */
  lemma PanelCodePieces(c: PanelConfig)
    ensures Step(PanelFields(c), PanelKeyAt(6)) == (if !c.codeDisarmRequired then [Entry(CodeDisarmRequired, Flag(c.codeDisarmRequired))] else [])
    ensures Step(PanelFields(c), PanelKeyAt(7)) == (if !c.codeTriggerRequired then [Entry(CodeTriggerRequired, Flag(c.codeTriggerRequired))] else [])
    ensures Step(PanelFields(c), PanelKeyAt(8)) == (if c.code.Some? then [Entry(Code, Text(c.code))] else [])
  {
    assert PanelKeyAt(6) == CodeDisarmRequired;
    assert PanelKeyAt(7) == CodeTriggerRequired;
    assert PanelKeyAt(8) == Code;
  }

  /** The features array, added only when some feature is enabled, then the state and command topics. */
  lemma PanelTopicPieces(c: PanelConfig)
    ensures Step(PanelFields(c), PanelKeyAt(9)) == (if c.features != DefaultFeatures then [Entry(SupportedFeatures, FeatureArray)] else [])
    ensures Step(PanelFields(c), PanelKeyAt(10)) == [Entry(StateTopic, TopicRef)]
    ensures Step(PanelFields(c), PanelKeyAt(11)) == [Entry(CommandTopic, TopicRef)]
  {
    assert PanelKeyAt(9) == SupportedFeatures;
    assert PanelKeyAt(10) == StateTopic;
    assert PanelKeyAt(11) == CommandTopic;
  }

  /** The arm-away, arm-home and arm-night payloads. */
  lemma PanelArmPayloadPieces(c: PanelConfig)
    ensures Step(PanelFields(c), PanelKeyAt(12)) == [Entry(PayloadArmAway, Text(c.payloadArmAway))]
    ensures Step(PanelFields(c), PanelKeyAt(13)) == [Entry(PayloadArmHome, Text(c.payloadArmHome))]
    ensures Step(PanelFields(c), PanelKeyAt(14)) == [Entry(PayloadArmNight, Text(c.payloadArmNight))]
  {
    assert PanelKeyAt(12) == PayloadArmAway;
    assert PanelKeyAt(13) == PayloadArmHome;
    assert PanelKeyAt(14) == PayloadArmNight;
  }

  /** The arm-vacation, arm-custom-bypass and disarm payloads. */
  lemma PanelOtherPayloadPieces(c: PanelConfig)
    ensures Step(PanelFields(c), PanelKeyAt(15)) == [Entry(PayloadArmVacation, Text(c.payloadArmVacation))]
    ensures Step(PanelFields(c), PanelKeyAt(16)) == [Entry(PayloadArmCustomBypass, Text(c.payloadArmCustomBypass))]
    ensures Step(PanelFields(c), PanelKeyAt(17)) == [Entry(PayloadDisarm, Text(c.payloadDisarm))]
  {
    assert PanelKeyAt(15) == PayloadArmVacation;
    assert PanelKeyAt(16) == PayloadArmCustomBypass;
    assert PanelKeyAt(17) == PayloadDisarm;
  }

  /** The trigger payload and the device and availability markers that close the document. */
  lemma PanelTrailerPieces(c: PanelConfig)
    ensures Step(PanelFields(c), PanelKeyAt(18)) == [Entry(PayloadTrigger, Text(c.payloadTrigger))]
    ensures Step(PanelFields(c), PanelKeyAt(19)) == [Entry(Device, Marker)]
    ensures Step(PanelFields(c), PanelKeyAt(20)) == [Entry(Availability, Marker)]
  {
    assert PanelKeyAt(18) == PayloadTrigger;
    assert PanelKeyAt(19) == Device;
    assert PanelKeyAt(20) == Availability;
  }

  /** The first nine steps, up to the code, in source-order spelling. */
  lemma PanelDocumentHead(c: PanelConfig)
    ensures PanelPrefix(c, 9) ==
      []
        + [Entry(Name, Text(c.name))]
        + [Entry(ObjectId, Text(c.objectId))]
        + [Entry(UniqueId, Marker)]
        + [Entry(Icon, Text(c.icon))]
        + (if c.retain then [Entry(Retain, Flag(c.retain))] else [])
        + (if !c.codeArmRequired then [Entry(CodeArmRequired, Flag(c.codeArmRequired))] else [])
        + (if !c.codeDisarmRequired then [Entry(CodeDisarmRequired, Flag(c.codeDisarmRequired))] else [])
        + (if !c.codeTriggerRequired then [Entry(CodeTriggerRequired, Flag(c.codeTriggerRequired))] else [])
        + (if c.code.Some? then [Entry(Code, Text(c.code))] else [])
  {
    PanelIdentityPieces(c);
    PanelRetainPieces(c);
    PanelCodePieces(c);
    CollectStep(PanelKeyAt, PanelFields(c), 0);
    CollectStep(PanelKeyAt, PanelFields(c), 1);
    CollectStep(PanelKeyAt, PanelFields(c), 2);
    CollectStep(PanelKeyAt, PanelFields(c), 3);
    CollectStep(PanelKeyAt, PanelFields(c), 4);
    CollectStep(PanelKeyAt, PanelFields(c), 5);
    CollectStep(PanelKeyAt, PanelFields(c), 6);
    CollectStep(PanelKeyAt, PanelFields(c), 7);
    CollectStep(PanelKeyAt, PanelFields(c), 8);
  }

  /** The first fifteen steps, up to the arm-night payload, in source-order
      spelling. */
  lemma PanelDocumentMiddle(c: PanelConfig)
    ensures PanelPrefix(c, 15) ==
      []
        + [Entry(Name, Text(c.name))]
        + [Entry(ObjectId, Text(c.objectId))]
        + [Entry(UniqueId, Marker)]
        + [Entry(Icon, Text(c.icon))]
        + (if c.retain then [Entry(Retain, Flag(c.retain))] else [])
        + (if !c.codeArmRequired then [Entry(CodeArmRequired, Flag(c.codeArmRequired))] else [])
        + (if !c.codeDisarmRequired then [Entry(CodeDisarmRequired, Flag(c.codeDisarmRequired))] else [])
        + (if !c.codeTriggerRequired then [Entry(CodeTriggerRequired, Flag(c.codeTriggerRequired))] else [])
        + (if c.code.Some? then [Entry(Code, Text(c.code))] else [])
        + (if c.features != DefaultFeatures then [Entry(SupportedFeatures, FeatureArray)] else [])
        + [Entry(StateTopic, TopicRef)]
        + [Entry(CommandTopic, TopicRef)]
        + [Entry(PayloadArmAway, Text(c.payloadArmAway))]
        + [Entry(PayloadArmHome, Text(c.payloadArmHome))]
        + [Entry(PayloadArmNight, Text(c.payloadArmNight))]
  {
    PanelDocumentHead(c);
    PanelTopicPieces(c);
    PanelArmPayloadPieces(c);
    CollectStep(PanelKeyAt, PanelFields(c), 9);
    CollectStep(PanelKeyAt, PanelFields(c), 10);
    CollectStep(PanelKeyAt, PanelFields(c), 11);
    CollectStep(PanelKeyAt, PanelFields(c), 12);
    CollectStep(PanelKeyAt, PanelFields(c), 13);
    CollectStep(PanelKeyAt, PanelFields(c), 14);
  }

  /** The generic reading of the builder agrees with its source-order
      spelling: the document is what visiting the 21 keys in order, and
      setting what `PanelValue` says under each, produces. */
  lemma PanelDocumentCollects(c: PanelConfig)
    ensures PanelDocument(c) == PanelDocumentByKeys(c)
  {
    PanelDocumentMiddle(c);
    PanelOtherPayloadPieces(c);
    PanelTrailerPieces(c);
    CollectStep(PanelKeyAt, PanelFields(c), 15);
    CollectStep(PanelKeyAt, PanelFields(c), 16);
    CollectStep(PanelKeyAt, PanelFields(c), 17);
    CollectStep(PanelKeyAt, PanelFields(c), 18);
    CollectStep(PanelKeyAt, PanelFields(c), 19);
    CollectStep(PanelKeyAt, PanelFields(c), 20);
  }

  /** The document never holds more entries than the serializer is created
      for. */
  lemma PanelDocumentFits(c: PanelConfig)
    ensures |PanelDocument(c)| <= MaxProperties
  {
    PanelDocumentCollects(c);
  }

  /** An entry is in the document exactly when the builder visits its key
      and sets that value under it. */
  lemma PanelDocumentEntry(c: PanelConfig, k: Key, v: Value)
    ensures Entry(k, v) in PanelDocumentByKeys(c) <==> PanelRank(k) < PanelKeyCount && PanelValue(c, k) == Some(v)
  {
    CollectEntries(PanelKeyAt, PanelFields(c), PanelKeyCount, k, v);
    PanelKeyOrder();
  }

  /** A key is in the document exactly when the builder visits it and does
      not skip it. */
  lemma PanelDocumentHas(c: PanelConfig, k: Key)
    ensures Has(PanelDocumentByKeys(c), k) <==> PanelRank(k) < PanelKeyCount && PanelValue(c, k).Some?
  {
    CollectHas(PanelKeyAt, PanelFields(c), PanelKeyCount, k);
    PanelKeyOrder();
  }

  /** The retain entry appears, set to true, exactly when the panel retains. */
  lemma PanelDocumentRetain(c: PanelConfig)
    ensures Entry(Retain, Flag(true)) in PanelDocumentByKeys(c) <==> c.retain
    ensures Has(PanelDocumentByKeys(c), Retain) <==> c.retain
  {
    assert PanelRank(Retain) == 4;
    assert PanelValue(c, Retain) == if c.retain then Some(Flag(true)) else None;
    PanelDocumentEntry(c, Retain, Flag(true));
    PanelDocumentHas(c, Retain);
  }

  /** The arm code-required entry appears, set to false, exactly when
      arming no longer requires the code. */
  lemma PanelDocumentArmCodeRequired(c: PanelConfig)
    ensures Entry(CodeArmRequired, Flag(false)) in PanelDocumentByKeys(c) <==> !c.codeArmRequired
    ensures Has(PanelDocumentByKeys(c), CodeArmRequired) <==> !c.codeArmRequired
  {
    assert PanelRank(CodeArmRequired) == 5;
    assert PanelValue(c, CodeArmRequired) == if c.codeArmRequired then None else Some(Flag(false));
    PanelDocumentEntry(c, CodeArmRequired, Flag(false));
    PanelDocumentHas(c, CodeArmRequired);
  }

  /** The disarm code-required entry appears, set to false, exactly when
      disarming no longer requires the code. */
  lemma PanelDocumentDisarmCodeRequired(c: PanelConfig)
    ensures Entry(CodeDisarmRequired, Flag(false)) in PanelDocumentByKeys(c) <==> !c.codeDisarmRequired
    ensures Has(PanelDocumentByKeys(c), CodeDisarmRequired) <==> !c.codeDisarmRequired
  {
    assert PanelRank(CodeDisarmRequired) == 6;
    assert PanelValue(c, CodeDisarmRequired) == if c.codeDisarmRequired then None else Some(Flag(false));
    PanelDocumentEntry(c, CodeDisarmRequired, Flag(false));
    PanelDocumentHas(c, CodeDisarmRequired);
  }

  /** The trigger code-required entry appears, set to false, exactly when
      triggering no longer requires the code. */
  lemma PanelDocumentTriggerCodeRequired(c: PanelConfig)
    ensures Entry(CodeTriggerRequired, Flag(false)) in PanelDocumentByKeys(c) <==> !c.codeTriggerRequired
    ensures Has(PanelDocumentByKeys(c), CodeTriggerRequired) <==> !c.codeTriggerRequired
  {
    assert PanelRank(CodeTriggerRequired) == 7;
    assert PanelValue(c, CodeTriggerRequired) == if c.codeTriggerRequired then None else Some(Flag(false));
    PanelDocumentEntry(c, CodeTriggerRequired, Flag(false));
    PanelDocumentHas(c, CodeTriggerRequired);
  }

  /** The code appears exactly when one is set, the features array exactly
      when some feature is enabled; the panel never sends the
      enabled-by-default flag or the entity category. */
  lemma PanelDocumentOptionalEntries(c: PanelConfig)
    ensures Has(PanelDocumentByKeys(c), Code) <==> c.code.Some?
    ensures Has(PanelDocumentByKeys(c), SupportedFeatures) <==> c.features != DefaultFeatures
    ensures !Has(PanelDocumentByKeys(c), EnabledByDefault) && !Has(PanelDocumentByKeys(c), EntityCategory)
  {
    assert PanelRank(Code) == 8 && PanelRank(SupportedFeatures) == 9;
    assert PanelRank(EnabledByDefault) == PanelRank(EntityCategory) == PanelKeyCount;
    assert PanelValue(c, Code).Some? == c.code.Some?;
    assert PanelValue(c, SupportedFeatures).Some? == (c.features != DefaultFeatures);
    PanelDocumentHas(c, Code);
    PanelDocumentHas(c, SupportedFeatures);
    PanelDocumentHas(c, EnabledByDefault);
    PanelDocumentHas(c, EntityCategory);
  }

  /** The entries come in the builder's fixed key order, each key at most
      once. */
  lemma PanelDocumentOrder(c: PanelConfig)
    ensures OrderedBy(PanelDocumentByKeys(c), PanelRank)
  {
    PanelKeyOrder();
    CollectOrdered(PanelKeyAt, PanelFields(c), PanelKeyCount, PanelRank);
  }

  /** The document ends with the device block and then the availability
      block. */
  lemma PanelDocumentEnds(c: PanelConfig)
    ensures var d := PanelDocumentByKeys(c);
      |d| >= 2 && d[|d| - 2..] == [Entry(Device, Marker), Entry(Availability, Marker)]
  {
    PanelTrailerPieces(c);
    CollectStep(PanelKeyAt, PanelFields(c), 19);
    CollectStep(PanelKeyAt, PanelFields(c), 20);
  }

  // ---------------------------------------------------------------------
  // The panel entity

  class Panel {
    const uniqueId: Option<string>
    const features: bv16

    // Set through the base class, whose setters are not part of this model.
    var name: Option<string>
    var objectId: Option<string>

    var icon: Option<string>
    var retain: bool
    var panelState: PanelState
    var code: Option<string>
    var codeArmRequired: bool
    var codeDisarmRequired: bool
    var codeTriggerRequired: bool
    var enableByDefault: bool
    var entityCategory: Option<string>
    /** Whether a command callback is registered. */
    var commandCallback: bool
    var payloadArmAway: Option<string>
    var payloadArmHome: Option<string>
    var payloadArmNight: Option<string>
    var payloadArmVacation: Option<string>
    var payloadArmCustomBypass: Option<string>
    var payloadDisarm: Option<string>
    var payloadTrigger: Option<string>

    /** The discovery document, once built. */
    var serializer: Option<seq<Entry>>
    /** The contents of the supported-features array. */
    var supportedFeaturesSerializer: seq<FeatureToken>

    /** What the panel has asked of the transport, oldest first. */
    var sent: seq<Action<StateToken>>
    /** The arguments of each command-callback invocation, oldest first. */
    var commands: seq<(seq<uint8>, uint16)>

    /** The array stays within its capacity and the document within its
        declared maximum. */
    ghost predicate Valid()
      reads this`supportedFeaturesSerializer, this`serializer
    {
      && |supportedFeaturesSerializer| <= FeaturesArrayCapacity
      && (serializer.Some? ==> |serializer.value| <= MaxProperties)
    }

    /** The settings the document is built from. */
    function Config(): PanelConfig
      reads this`name, this`objectId, this`icon, this`retain, this`code, this`codeArmRequired,
            this`codeDisarmRequired, this`codeTriggerRequired, this`payloadArmAway,
            this`payloadArmHome, this`payloadArmNight, this`payloadArmVacation,
            this`payloadArmCustomBypass, this`payloadDisarm, this`payloadTrigger
    {
      PanelConfig(name, objectId, icon, retain, code, codeArmRequired, codeDisarmRequired,
                  codeTriggerRequired, features, payloadArmAway, payloadArmHome, payloadArmNight,
                  payloadArmVacation, payloadArmCustomBypass, payloadDisarm, payloadTrigger)
    }

    /** A panel with the initial settings of the source's initializer list;
        only the custom-bypass payload, which that list omits, is left
        unspecified. */
    constructor (uniqueId: Option<string>, features: bv16)
      ensures Valid()
      ensures this.uniqueId == uniqueId && this.features == features
      ensures name == None && objectId == None
      ensures icon == None && !retain && panelState == UnknownState && code == None
      ensures codeArmRequired && codeDisarmRequired && codeTriggerRequired
      ensures enableByDefault && entityCategory == None && !commandCallback
      ensures payloadArmAway == None && payloadArmHome == None && payloadArmNight == None
      ensures payloadArmVacation == None
      ensures payloadDisarm == None && payloadTrigger == None
      ensures serializer == None && supportedFeaturesSerializer == []
      ensures sent == [] && commands == []
    {
      this.uniqueId := uniqueId;
      this.features := features;
      name, objectId := None, None;
      icon := None;
      retain := false;
      panelState := UnknownState;
      code := None;
      codeArmRequired, codeDisarmRequired, codeTriggerRequired := true, true, true;
      enableByDefault := true;
      entityCategory := None;
      commandCallback := false;
      payloadArmAway, payloadArmHome, payloadArmNight := None, None, None;
      payloadArmVacation := None;
      // The source's initializer list leaves the custom-bypass payload out,
      // so nothing is promised about its initial value.
      payloadDisarm, payloadTrigger := None, None;
      serializer := None;
      supportedFeaturesSerializer := [];
      sent, commands := [], [];
    }

    /** Sets the panel state, publishing it unless it is unchanged and not
        forced; `publishOk` is the transport's answer to that publish. The
        state is recorded only after a successful publish. */
    method SetPanelState(state: PanelState, force: bool, publishOk: bool) returns (ok: bool)
      modifies this`panelState, this`sent
      ensures !force && state == old(panelState) ==>
                ok && panelState == old(panelState) && sent == old(sent)
      ensures force || state != old(panelState) ==>
                && sent == old(sent) + [PublishData(StateTopic, PanelStateToken(state), true)]
                && ok == publishOk
                && panelState == (if publishOk then state else old(panelState))
    {
      if !force && state == panelState {
        return true;
      }
      ok := PublishPanelState(state, publishOk);
      if ok {
        panelState := state;
      }
    }

    /** The last accepted state, converted to `bool` as the header's return
        type does: true for every state but the unknown one. */
    function GetPanelState(): (r: bool)
      reads this`panelState
      ensures r <==> panelState != UnknownState
    {
      Ordinal(panelState) != 0
    }

    /** Publishes the token of `state`, retained, on the state topic. */
    method PublishPanelState(state: PanelState, publishOk: bool) returns (ok: bool)
      modifies this`sent
      ensures sent == old(sent) + [PublishData(StateTopic, PanelStateToken(state), true)]
      ensures ok == publishOk
    {
      sent := sent + [PublishData(StateTopic, PanelStateToken(state), true)];
      ok := publishOk;
    }

    /** Builds the discovery document once; does nothing when it already
        exists or there is no unique id. */
    method BuildSerializer()
      requires Valid()
      modifies this`serializer, this`supportedFeaturesSerializer
      ensures Valid()
      ensures old(serializer).Some? || uniqueId.None? ==>
                serializer == old(serializer) && supportedFeaturesSerializer == old(supportedFeaturesSerializer)
      ensures old(serializer).None? && uniqueId.Some? ==>
                && serializer == Some(PanelDocument(Config()))
                && supportedFeaturesSerializer ==
                     (if features != DefaultFeatures then FeatureTokens(features) else old(supportedFeaturesSerializer))
    {
      if serializer.Some? || uniqueId.None? {
        return;
      }
      var c := Config();  // the settings, read once
      var doc := [];
      doc := doc + [Entry(Name, Text(c.name))];
      doc := doc + [Entry(ObjectId, Text(c.objectId))];
      doc := doc + [Entry(UniqueId, Marker)];
      doc := doc + [Entry(Icon, Text(c.icon))];
      doc := doc + (if c.retain then [Entry(Retain, Flag(c.retain))] else []);
      doc := doc + (if !c.codeArmRequired then [Entry(CodeArmRequired, Flag(c.codeArmRequired))] else []);
      doc := doc + (if !c.codeDisarmRequired then [Entry(CodeDisarmRequired, Flag(c.codeDisarmRequired))] else []);
      doc := doc + (if !c.codeTriggerRequired then [Entry(CodeTriggerRequired, Flag(c.codeTriggerRequired))] else []);
      doc := doc + (if c.code.Some? then [Entry(Code, Text(c.code))] else []);
      if features != DefaultFeatures {
        FillSupportedFeatures();
      }
      doc := doc + (if c.features != DefaultFeatures then [Entry(SupportedFeatures, FeatureArray)] else []);
      doc := doc + [Entry(StateTopic, TopicRef)];
      doc := doc + [Entry(CommandTopic, TopicRef)];
      doc := doc + [Entry(PayloadArmAway, Text(c.payloadArmAway))];
      doc := doc + [Entry(PayloadArmHome, Text(c.payloadArmHome))];
      doc := doc + [Entry(PayloadArmNight, Text(c.payloadArmNight))];
      doc := doc + [Entry(PayloadArmVacation, Text(c.payloadArmVacation))];
      doc := doc + [Entry(PayloadArmCustomBypass, Text(c.payloadArmCustomBypass))];
      doc := doc + [Entry(PayloadDisarm, Text(c.payloadDisarm))];
      doc := doc + [Entry(PayloadTrigger, Text(c.payloadTrigger))];
      doc := doc + [Entry(Device, Marker)];
      doc := doc + [Entry(Availability, Marker)];
      PanelDocumentFits(c);
      serializer := Some(doc);
    }

    /** Clears the supported-features array and adds one token per enabled
        feature, in wire order. */
    method FillSupportedFeatures()
      modifies this`supportedFeaturesSerializer
      ensures supportedFeaturesSerializer == FeatureTokens(features)
      ensures |supportedFeaturesSerializer| <= FeaturesArrayCapacity
    {
      FeatureTokensSteps(features);
      supportedFeaturesSerializer := [];
      if HasFeature(features, ArmAway) {
        supportedFeaturesSerializer := supportedFeaturesSerializer + [TokenArmAway];
      }
      assert supportedFeaturesSerializer == TokensFor(features, FeatureOrder[..1]);
      if HasFeature(features, ArmHome) {
        supportedFeaturesSerializer := supportedFeaturesSerializer + [TokenArmHome];
      }
      assert supportedFeaturesSerializer == TokensFor(features, FeatureOrder[..2]);
      if HasFeature(features, ArmNight) {
        supportedFeaturesSerializer := supportedFeaturesSerializer + [TokenArmNight];
      }
      assert supportedFeaturesSerializer == TokensFor(features, FeatureOrder[..3]);
      if HasFeature(features, ArmVacation) {
        supportedFeaturesSerializer := supportedFeaturesSerializer + [TokenArmVacation];
      }
      assert supportedFeaturesSerializer == TokensFor(features, FeatureOrder[..4]);
      if HasFeature(features, ArmCustomBypass) {
        supportedFeaturesSerializer := supportedFeaturesSerializer + [TokenArmCustomBypass];
      }
      assert supportedFeaturesSerializer == TokensFor(features, FeatureOrder[..5]);
      if HasFeature(features, Trigger) {
        supportedFeaturesSerializer := supportedFeaturesSerializer + [TokenTrigger];
      }
      FeatureTokensFitCapacity(features);
    }

    /** On connect: nothing without a unique id; otherwise the config, the
        availability, the command subscription, and the current state when
        the panel does not retain. */
    method OnMqttConnected()
      modifies this`sent
      ensures uniqueId.None? ==> sent == old(sent)
      ensures uniqueId.Some? ==>
                sent == old(sent) + [PublishConfig, PublishAvailability, Subscribe(CommandTopic)]
                        + (if retain then [] else [PublishData(StateTopic, PanelStateToken(panelState), true)])
    {
      if uniqueId.None? {
        return;
      }
      sent := sent + [PublishConfig];
      sent := sent + [PublishAvailability];
      sent := sent + [Subscribe(CommandTopic)];
      if !retain {
        sent := sent + [PublishData(StateTopic, PanelStateToken(panelState), true)];
      }
    }

    /** Routes an incoming message: a message on the command topic goes to
        the command handler; `compareDataTopics` is the transport's topic
        comparison. */
    method OnMqttMessage(topic: string, payload: seq<uint8>, length: uint16,
                         compareDataTopics: (string, Option<string>, Key) -> bool)
      modifies this`commands
      ensures commands ==
                if compareDataTopics(topic, uniqueId, CommandTopic) && commandCallback
                then old(commands) + [(payload, length)]
                else old(commands)
    {
      if compareDataTopics(topic, uniqueId, CommandTopic) {
        HandleCommand(payload, length);
      }
    }

    /** Forwards the raw command, unchanged, to the registered callback. */
    method HandleCommand(cmd: seq<uint8>, length: uint16)
      modifies this`commands
      ensures commands == if commandCallback then old(commands) + [(cmd, length)] else old(commands)
    {
      if !commandCallback {
        return;
      }
      commands := commands + [(cmd, length)];
    }

    method SetIcon(icon: Option<string>)
      modifies this`icon
      ensures this.icon == icon
    {
      this.icon := icon;
    }

    method SetRetain(retain: bool)
      modifies this`retain
      ensures this.retain == retain
    {
      this.retain := retain;
    }

    method SetEnableByDefault(enableByDefault: bool)
      modifies this`enableByDefault
      ensures this.enableByDefault == enableByDefault
    {
      this.enableByDefault := enableByDefault;
    }

    method SetEntityCategory(entityCategory: Option<string>)
      modifies this`entityCategory
      ensures this.entityCategory == entityCategory
    {
      this.entityCategory := entityCategory;
    }

    method SetCode(code: Option<string>)
      modifies this`code
      ensures this.code == code
    {
      this.code := code;
    }

    method SetCodeArmRequired(required: bool)
      modifies this`codeArmRequired
      ensures codeArmRequired == required
    {
      codeArmRequired := required;
    }

    method SetCodeDisarmRequired(required: bool)
      modifies this`codeDisarmRequired
      ensures codeDisarmRequired == required
    {
      codeDisarmRequired := required;
    }

    method SetCodeTriggerRequired(required: bool)
      modifies this`codeTriggerRequired
      ensures codeTriggerRequired == required
    {
      codeTriggerRequired := required;
    }

    method SetPayloadArmAway(payload: Option<string>)
      modifies this`payloadArmAway
      ensures payloadArmAway == payload
    {
      payloadArmAway := payload;
    }

    method SetPayloadArmHome(payload: Option<string>)
      modifies this`payloadArmHome
      ensures payloadArmHome == payload
    {
      payloadArmHome := payload;
    }

    method SetPayloadArmNight(payload: Option<string>)
      modifies this`payloadArmNight
      ensures payloadArmNight == payload
    {
      payloadArmNight := payload;
    }

    method SetPayloadArmVacation(payload: Option<string>)
      modifies this`payloadArmVacation
      ensures payloadArmVacation == payload
    {
      payloadArmVacation := payload;
    }

    method SetPayloadCustomBypass(payload: Option<string>)
      modifies this`payloadArmCustomBypass
      ensures payloadArmCustomBypass == payload
    {
      payloadArmCustomBypass := payload;
    }

    method SetPayloadDisarm(payload: Option<string>)
      modifies this`payloadDisarm
      ensures payloadDisarm == payload
    {
      payloadDisarm := payload;
    }

    method SetPayloadTrigger(payload: Option<string>)
      modifies this`payloadTrigger
      ensures payloadTrigger == payload
    {
      payloadTrigger := payload;
    }

    /** Registers the command callback; `callback` says whether the
        pointer passed is non-null, so a null one clears the registration. */
    method OnCommand(callback: bool)
      modifies this`commandCallback
      ensures commandCallback == callback
    {
      commandCallback := callback;
    }
  }

  // ---------------------------------------------------------------------
  // Client views of the debounced publish

  /** Setting the same state twice without force publishes it once (not at
      all for the initial unknown state), and both calls report success. */
  method RepeatedSetPublishesOnce(state: PanelState) returns (first: bool, second: bool, publishes: nat)
    ensures first && second
    ensures publishes == if state == UnknownState then 0 else 1
  {
    var p := new Panel(Some("panel"), DefaultFeatures);
    first := p.SetPanelState(state, false, true);
    second := p.SetPanelState(state, false, true);
    publishes := |p.sent|;
  }

  /** A forced set publishes every time, even when the state is unchanged. */
  method ForcedSetAlwaysPublishes(state: PanelState) returns (publishes: nat)
    ensures publishes == 2
  {
    var p := new Panel(Some("panel"), DefaultFeatures);
    var _ := p.SetPanelState(state, true, true);
    var _ := p.SetPanelState(state, true, true);
    publishes := |p.sent|;
  }

  /** Registering a null callback after a real one clears it: a matching
      command is then forwarded to nobody. */
  method NullCallbackStopsForwarding(topic: string, payload: seq<uint8>, length: uint16,
                                     compareDataTopics: (string, Option<string>, Key) -> bool)
    returns (forwardedBefore: nat, forwardedAfter: nat)
    ensures forwardedBefore == if compareDataTopics(topic, Some("panel"), CommandTopic) then 1 else 0
    ensures forwardedAfter == forwardedBefore
  {
    var p := new Panel(Some("panel"), DefaultFeatures);
    p.OnCommand(true);
    p.OnMqttMessage(topic, payload, length, compareDataTopics);
    forwardedBefore := |p.commands|;
    p.OnCommand(false);
    p.OnMqttMessage(topic, payload, length, compareDataTopics);
    forwardedAfter := |p.commands|;
  }

  /** A failed publish leaves the state unaccepted, so the next identical
      call publishes again instead of being skipped. */
  method FailedPublishIsRetried(state: PanelState) returns (first: bool, second: bool, publishes: nat)
    requires state != UnknownState
    ensures !first && second
    ensures publishes == 2
  {
    var p := new Panel(Some("panel"), DefaultFeatures);
    first := p.SetPanelState(state, false, false);
    second := p.SetPanelState(state, false, true);
    publishes := |p.sent|;
  }
}
