/**
  The light entity's inline surface: its feature flags, the RGB colour
  value with its channel-only equality, the current-value setters and
  getters that publish nothing, and the `turnOn`/`turnOff` aliases of the
  debounced state publish.
 */
module Light {
  import opened Wire

  // ---------------------------------------------------------------------
  // Features

  /** The optional capabilities a light can offer. */
  datatype LightFeature = Brightness | ColorTemperature | Rgb

  /** The mask of a light with no optional feature. */
  const DefaultFeatures: bv8 := 0

  /** The flag value of each feature: a single bit below 8. */
  function FeatureBit(f: LightFeature): (b: bv8)
    ensures b != 0 && b & (b - 1) == 0
    ensures b < 8
  {
    match f
    case Brightness => 1
    case ColorTemperature => 2
    case Rgb => 4
  }

  /** Two features share a bit only when they are the same feature. */
  lemma FeatureBitsDistinct(f: LightFeature, g: LightFeature)
    ensures FeatureBit(f) & FeatureBit(g) != 0 <==> f == g
  {
  }

  /** The light's mask enables feature `f`. */
  predicate HasFeature(mask: bv8, f: LightFeature)
  {
    mask & FeatureBit(f) != 0
  }

  /** The mask a caller passes for a list of features, combined with `|`. */
  function Mask(fs: seq<LightFeature>): bv8
  {
    if fs == [] then DefaultFeatures else Mask(fs[..|fs| - 1]) | FeatureBit(fs[|fs| - 1])
  }

  /** Any combination of features is a mask below 8. */
  lemma {:induction false} MaskBelow8(fs: seq<LightFeature>)
    ensures Mask(fs) < 8
  {
    if fs != [] {
      MaskBelow8(fs[..|fs| - 1]);
    }
  }

  /** A combined mask enables exactly the features that were combined. */
  lemma {:induction false} MaskHasExactly(fs: seq<LightFeature>, f: LightFeature)
    ensures HasFeature(Mask(fs), f) <==> f in fs
  {
    if fs != [] {
      var init, last := fs[..|fs| - 1], fs[|fs| - 1];
      MaskHasExactly(init, f);
      FeatureBitsDistinct(last, f);
      assert fs == init + [last];
    }
  }

  // ---------------------------------------------------------------------
  // RGB colour

  /** A colour: three 8-bit channels and whether it was set explicitly. */
  class RGBColor {
    var red: uint8
    var green: uint8
    var blue: uint8
    var isSet: bool

    /** Black, not set. */
    constructor ()
      ensures red == 0 && green == 0 && blue == 0 && !isSet
    {
      red, green, blue := 0, 0, 0;
      isSet := false;
    }

    /** The given channels, set. */
    constructor Of(r: uint8, g: uint8, b: uint8)
      ensures red == r && green == g && blue == b && isSet
    {
      red, green, blue := r, g, b;
      isSet := true;
    }

    /** `operator=`: copies all four fields, the flag included. */
    method Assign(a: RGBColor)
      modifies this
      ensures red == old(a.red) && green == old(a.green) && blue == old(a.blue)
      ensures isSet == old(a.isSet)
      ensures Equals(a)
    {
      red := a.red;
      green := a.green;
      blue := a.blue;
      isSet := a.isSet;
    }

    /** `operator==`: the three channels agree; the flag is not compared. */
    predicate Equals(a: RGBColor)
      reads this, a
    {
      red == a.red && green == a.green && blue == a.blue
    }

    /** `operator!=`: some channel differs. */
    predicate NotEquals(a: RGBColor)
      reads this, a
    {
      red != a.red || green != a.green || blue != a.blue
    }
  }

  /** `!=` is exactly the negation of `==`. */
  lemma NotEqualsIsNegation(x: RGBColor, y: RGBColor)
    ensures x.NotEquals(y) <==> !x.Equals(y)
  {
  }

  /** `==` is an equivalence: reflexive, symmetric and transitive. */
  lemma EqualsIsEquivalence(x: RGBColor, y: RGBColor, z: RGBColor)
    ensures x.Equals(x)
    ensures x.Equals(y) ==> y.Equals(x)
    ensures x.Equals(y) && y.Equals(z) ==> x.Equals(z)
  {
  }

  /** Two colours are equal exactly when their channel triples are, whatever
      their flags say. */
  lemma EqualsIgnoresIsSet(x: RGBColor, y: RGBColor)
    ensures x.Equals(y) <==> (x.red, x.green, x.blue) == (y.red, y.green, y.blue)
  {
  }

  /** The unset default colour equals the explicitly set black, although
      their flags differ. */
  method DefaultEqualsBlack() returns (equal: bool, defaultIsSet: bool, blackIsSet: bool)
    ensures equal && !defaultIsSet && blackIsSet
  {
    var unset := new RGBColor();
    var black := new RGBColor.Of(0, 0, 0);
    equal := unset.Equals(black);
    defaultIsSet, blackIsSet := unset.isSet, black.isSet;
  }

  // ---------------------------------------------------------------------
  // The light entity

  class Light {
    const uniqueId: Option<string>
    const features: bv8

    var icon: Option<string>
    var retain: bool
    var optimistic: bool
    /** The fixed-point settings, left opaque: set or unset, and their value. */
    var brightnessScale: Option<nat>
    var minMireds: Option<nat>
    var maxMireds: Option<nat>

    /** The last known state. */
    var currentState: bool
    /** The last known brightness. */
    var currentBrightness: uint8
    /** The last known colour temperature, in mireds. */
    var currentColorTemperature: uint16
    /** The last known colour, a value the light owns. */
    const currentRGBColor: RGBColor

    /** The states handed to the state publish, oldest first: the light's
        only record of its transport traffic. */
    var published: seq<bool>

    /** A light with the defaults its header documents; the settings whose
        initial value only its implementation fixes are left unspecified. */
    constructor (uniqueId: Option<string>, features: bv8)
      ensures this.uniqueId == uniqueId && this.features == features
      ensures !optimistic && brightnessScale == Some(255)
      ensures minMireds == None && maxMireds == None
      ensures !currentState && currentBrightness == 0 && currentColorTemperature == 0
      ensures fresh(currentRGBColor)
      ensures currentRGBColor.red == 0 && currentRGBColor.green == 0 && currentRGBColor.blue == 0
      ensures !currentRGBColor.isSet
      ensures published == []
    {
      this.uniqueId := uniqueId;
      this.features := features;
      optimistic := false;
      brightnessScale := Some(255);
      minMireds, maxMireds := None, None;
      currentState := false;
      currentBrightness := 0;
      currentColorTemperature := 0;
      currentRGBColor := new RGBColor();
      published := [];
    }

    /** Sets the state, publishing it unless it is unchanged and not
        forced; `publishOk` is the transport's answer to that publish. The
        header promises only the skip, the effect of `force` and that a
        published call returns the publish result. That a skipped call
        returns true and that the state is recorded only after a successful
        publish are assumed, by analogy with the panel's and the binary
        sensor's `setState`. */
    method SetState(state: bool, force: bool, publishOk: bool) returns (ok: bool)
      modifies this`currentState, this`published
      ensures !force && state == old(currentState) ==>
                ok && currentState == old(currentState) && published == old(published)
      ensures force || state != old(currentState) ==>
                && published == old(published) + [state]
                && ok == publishOk
                && currentState == (if publishOk then state else old(currentState))
    {
      if !force && state == currentState {
        return true;
      }
      published := published + [state];
      ok := publishOk;
      if ok {
        currentState := state;
      }
    }

    /** `setState(true)`, not forced. */
    method TurnOn(publishOk: bool) returns (ok: bool)
      modifies this`currentState, this`published
      ensures old(currentState) ==> ok && currentState && published == old(published)
      ensures !old(currentState) ==>
                && published == old(published) + [true]
                && ok == publishOk
                && currentState == publishOk
    {
      ok := SetState(true, false, publishOk);
    }

    /** `setState(false)`, not forced. */
    method TurnOff(publishOk: bool) returns (ok: bool)
      modifies this`currentState, this`published
      ensures !old(currentState) ==> ok && !currentState && published == old(published)
      ensures old(currentState) ==>
                && published == old(published) + [false]
                && ok == publishOk
                && currentState == !publishOk
    {
      ok := SetState(false, false, publishOk);
    }

    function GetCurrentState(): bool
      reads this`currentState
    {
      currentState
    }

    /** Records the state without publishing it; the getter returns it. */
    method SetCurrentState(state: bool)
      modifies this`currentState
      ensures GetCurrentState() == state
    {
      currentState := state;
    }

    function GetCurrentBrightness(): uint8
      reads this`currentBrightness
    {
      currentBrightness
    }

    /** Records the brightness without publishing it; the getter returns it. */
    method SetCurrentBrightness(brightness: uint8)
      modifies this`currentBrightness
      ensures GetCurrentBrightness() == brightness
    {
      currentBrightness := brightness;
    }

    function GetCurrentColorTemperature(): uint16
      reads this`currentColorTemperature
    {
      currentColorTemperature
    }

    /** Records the colour temperature without publishing it; the getter
        returns it. */
    method SetCurrentColorTemperature(temperature: uint16)
      modifies this`currentColorTemperature
      ensures GetCurrentColorTemperature() == temperature
    {
      currentColorTemperature := temperature;
    }

    /** The light's own colour, by reference. */
    function GetCurrentRGBColor(): RGBColor
    {
      currentRGBColor
    }

    /** Copies the colour into the light's own without publishing it; the
        getter then returns a colour with the same four fields. */
    method SetCurrentRGBColor(color: RGBColor)
      modifies currentRGBColor
      ensures GetCurrentRGBColor().red == old(color.red)
      ensures GetCurrentRGBColor().green == old(color.green)
      ensures GetCurrentRGBColor().blue == old(color.blue)
      ensures GetCurrentRGBColor().isSet == old(color.isSet)
      ensures GetCurrentRGBColor().Equals(color)
    {
      currentRGBColor.Assign(color);
    }

    method SetIcon(icon: Option<string>)
      modifies this`icon
      ensures this.icon == icon
    {
      this.icon := icon;
    }

    method SetRetain(retain: bool)
      modifies this`retain
      ensures this.retain == retain
    {
      this.retain := retain;
    }

    method SetOptimistic(optimistic: bool)
      modifies this`optimistic
      ensures this.optimistic == optimistic
    {
      this.optimistic := optimistic;
    }

    method SetBrightnessScale(scale: uint8)
      modifies this`brightnessScale
      ensures brightnessScale == Some(scale as nat)
    {
      brightnessScale := Some(scale as nat);
    }

    method SetMinMireds(mireds: uint16)
      modifies this`minMireds
      ensures minMireds == Some(mireds as nat)
    {
      minMireds := Some(mireds as nat);
    }

    method SetMaxMireds(mireds: uint16)
      modifies this`maxMireds
      ensures maxMireds == Some(mireds as nat)
    {
      maxMireds := Some(mireds as nat);
    }
  }

  // ---------------------------------------------------------------------
  // Client views

  /** Setting the current values before a connection publishes nothing,
      and the getters return what was set. */
  method CurrentValuesRoundTrip(state: bool, brightness: uint8, temperature: uint16, r: uint8, g: uint8, b: uint8)
    returns (light: Light)
    ensures light.GetCurrentState() == state
    ensures light.GetCurrentBrightness() == brightness
    ensures light.GetCurrentColorTemperature() == temperature
    ensures light.GetCurrentRGBColor().red == r && light.GetCurrentRGBColor().green == g
    ensures light.GetCurrentRGBColor().blue == b && light.GetCurrentRGBColor().isSet
    ensures light.published == []
  {
    light := new Light(Some("lamp"), Mask([Brightness, Rgb]));
    light.SetCurrentState(state);
    light.SetCurrentBrightness(brightness);
    light.SetCurrentColorTemperature(temperature);
    var color := new RGBColor.Of(r, g, b);
    light.SetCurrentRGBColor(color);
  }

  /** Turning a fresh light off publishes nothing; turning it on twice
      publishes once. */
  method TurnOnIsDebounced() returns (offOk: bool, firstOk: bool, secondOk: bool, published: seq<bool>)
    ensures offOk && firstOk && secondOk
    ensures published == [true]
  {
    var light := new Light(Some("lamp"), DefaultFeatures);
    offOk := light.TurnOff(true);
    firstOk := light.TurnOn(true);
    secondOk := light.TurnOn(true);
    published := light.published;
  }
}
