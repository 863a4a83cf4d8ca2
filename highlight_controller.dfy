/** HighlightController: the list of highlight effects on a shape's game object
    and the focused (half-intensity) and highlighted (full-intensity) states. */
module Highlighting {

  /** The three HighlightEffect components a controller can add. A game object
      holds at most one component of each kind, so a kind names the component. */
  datatype EffectKind = ColorEffect | GlowEffect | OutlineEffect

  /** What an effect shows: whether it is active and at which intensity. */
  datatype EffectState = EffectState(active: bool, intensity: real)

  const Inactive := EffectState(false, 0.0)

  /** ApplyHighlight(i) and RemoveHighlight, on the abstract effect state. */
  function Applied(intensity: real): EffectState { EffectState(true, intensity) }

  /** The serialized settings. */
  datatype Settings = Settings(useColorHighlight: bool, useOutlineHighlight: bool,
                               useGlowHighlight: bool, highlightIntensity: real)

  const DefaultSettings := Settings(true, false, false, 1.0)

  /** What one InitializeEffects call appends: the enabled kinds, in the order
      Color, Glow, Outline. */
  function EnabledEffects(s: Settings): seq<EffectKind>
  {
    (if s.useColorHighlight then [ColorEffect] else [])
    + (if s.useGlowHighlight then [GlowEffect] else [])
    + (if s.useOutlineHighlight then [OutlineEffect] else [])
  }

  predicate Enabled(s: Settings, k: EffectKind)
  {
    match k
    case ColorEffect => s.useColorHighlight
    case GlowEffect => s.useGlowHighlight
    case OutlineEffect => s.useOutlineHighlight
  }

  /** InitializeEffects lists each enabled kind exactly once, and no other. */
  lemma EnabledEffectsListsEachOnce(s: Settings, k: EffectKind)
    ensures multiset(EnabledEffects(s))[k] == if Enabled(s, k) then 1 else 0
  {
  }

  /** The kinds come in the fixed order Color, Glow, Outline. */
  lemma EnabledEffectsOrder(s: Settings, i: int, j: int)
    requires 0 <= i < j < |EnabledEffects(s)|
    ensures Rank(EnabledEffects(s)[i]) < Rank(EnabledEffects(s)[j])
  {
  }

  function Rank(k: EffectKind): nat
  {
    match k
    case ColorEffect => 0
    case GlowEffect => 1
    case OutlineEffect => 2
  }

  /** Running InitializeEffects in Awake and again in Start: every enabled
      effect is in the list twice, as the same component. */
  lemma AwakeThenStartListsEachTwice(s: Settings, k: EffectKind)
    ensures multiset(EnabledEffects(s) + EnabledEffects(s))[k] == if Enabled(s, k) then 2 else 0
  {
    EnabledEffectsListsEachOnce(s, k);
  }

  /** The effect components on the game object, after a foreach over `list`
      that calls ApplyHighlight(intensity) on each non-null entry. A kind that
      is listed but has no live component (a destroyed one) is skipped. */
  function ApplyToListed(effects: map<EffectKind, EffectState>, list: seq<EffectKind>, intensity: real): map<EffectKind, EffectState>
  {
    map k | k in effects :: if k in list then Applied(intensity) else effects[k]
  }

  /** The same for a foreach that calls RemoveHighlight. */
  function RemoveFromListed(effects: map<EffectKind, EffectState>, list: seq<EffectKind>): map<EffectKind, EffectState>
  {
    map k | k in effects :: if k in list then Inactive else effects[k]
  }

  /** The controller's observable state. */
  datatype ControllerState = ControllerState(
    isFocused: bool,
    isHighlighted: bool,
    highlightEffects: seq<EffectKind>,
    effects: map<EffectKind, EffectState>)

  /** SetFocused(focused) on the state. */
  function SetFocusedStep(c: ControllerState, focused: bool, intensity: real): ControllerState
  {
    if focused && !c.isHighlighted then
      c.(isFocused := true, effects := ApplyToListed(c.effects, c.highlightEffects, intensity * 0.5))
    else if !focused && !c.isHighlighted then
      c.(isFocused := false, effects := RemoveFromListed(c.effects, c.highlightEffects))
    else
      c.(isFocused := focused)
  }

  /** SetHighlighted(highlighted) on the state. */
  function SetHighlightedStep(c: ControllerState, highlighted: bool, intensity: real): ControllerState
  {
    if highlighted then
      c.(isHighlighted := true, effects := ApplyToListed(c.effects, c.highlightEffects, intensity))
    else
      c.(isHighlighted := false, effects := RemoveFromListed(c.effects, c.highlightEffects))
  }

  /** Focusing an un-highlighted shape shows every listed live effect at half
      intensity; nothing else changes and no effect appears or disappears. */
  lemma FocusShowsHalfIntensity(c: ControllerState, intensity: real, k: EffectKind)
    requires !c.isHighlighted && k in c.effects
    ensures SetFocusedStep(c, true, intensity).isFocused
    ensures SetFocusedStep(c, true, intensity).effects.Keys == c.effects.Keys
    ensures SetFocusedStep(c, true, intensity).effects[k]
         == if k in c.highlightEffects then EffectState(true, intensity * 0.5) else c.effects[k]
  {
  }

  /** Un-focusing an un-highlighted shape removes every listed live effect. */
  lemma UnfocusRemovesAll(c: ControllerState, intensity: real, k: EffectKind)
    requires !c.isHighlighted && k in c.effects && k in c.highlightEffects
    ensures !SetFocusedStep(c, false, intensity).isFocused
    ensures !SetFocusedStep(c, false, intensity).effects[k].active
  {
  }

  /** While highlighted, SetFocused changes only the focus flag. */
  lemma FocusWhileHighlightedKeepsEffects(c: ControllerState, focused: bool, intensity: real)
    requires c.isHighlighted
    ensures SetFocusedStep(c, focused, intensity) == c.(isFocused := focused)
  {
  }

  /** SetHighlighted(true) shows every listed live effect at full intensity and
      SetHighlighted(false) removes them, whatever the focus flag says. */
  lemma HighlightOverridesFocus(c: ControllerState, highlighted: bool, intensity: real, k: EffectKind)
    requires k in c.effects && k in c.highlightEffects
    ensures SetHighlightedStep(c, highlighted, intensity).isFocused == c.isFocused
    ensures SetHighlightedStep(c, highlighted, intensity).effects[k]
         == if highlighted then EffectState(true, intensity) else Inactive
  {
  }

  /** An effect that is not in the list, or whose component is gone, is never touched. */
  lemma UnlistedEffectsUntouched(c: ControllerState, focused: bool, highlighted: bool, intensity: real, k: EffectKind)
    requires k !in c.highlightEffects
    ensures k in SetFocusedStep(c, focused, intensity).effects <==> k in c.effects
    ensures k in SetHighlightedStep(c, highlighted, intensity).effects <==> k in c.effects
    ensures k in c.effects ==> SetFocusedStep(c, focused, intensity).effects[k] == c.effects[k]
    ensures k in c.effects ==> SetHighlightedStep(c, highlighted, intensity).effects[k] == c.effects[k]
  {
  }

  class HighlightController {
    const settings: Settings
    var highlightEffects: seq<EffectKind>
    /** The live effect components on the game object. */
    var effects: map<EffectKind, EffectState>
    var isFocused: bool
    var isHighlighted: bool

    function State(): ControllerState
      reads this
    {
      ControllerState(isFocused, isHighlighted, highlightEffects, effects)
    }

    /** Awake and then Start each run InitializeEffects. */
    constructor (s: Settings)
      ensures settings == s
      ensures highlightEffects == EnabledEffects(s) + EnabledEffects(s)
      ensures forall k :: k in effects <==> Enabled(s, k)
      ensures forall k :: k in effects ==> effects[k] == Inactive
      ensures !isFocused && !isHighlighted
    {
      settings := s;
      highlightEffects := [];
      effects := map[];
      isFocused := false;
      isHighlighted := false;
      new;
      InitializeEffects();
      InitializeEffects();
    }

    /** Appends the enabled kinds, adding a component only for a kind the game
        object does not have yet (GetComponent finds an existing one). */
    method InitializeEffects()
      modifies this
      ensures highlightEffects == old(highlightEffects) + EnabledEffects(settings)
      ensures forall k :: k in effects <==> k in old(effects) || Enabled(settings, k)
      ensures forall k :: k in old(effects) ==> effects[k] == old(effects)[k]
      ensures forall k :: k in effects && k !in old(effects) ==> effects[k] == Inactive
      ensures isFocused == old(isFocused) && isHighlighted == old(isHighlighted)
    {
      if settings.useColorHighlight {
        if ColorEffect !in effects {
          effects := effects[ColorEffect := Inactive];
        }
        highlightEffects := highlightEffects + [ColorEffect];
      }
      if settings.useGlowHighlight {
        if GlowEffect !in effects {
          effects := effects[GlowEffect := Inactive];
        }
        highlightEffects := highlightEffects + [GlowEffect];
      }
      if settings.useOutlineHighlight {
        if OutlineEffect !in effects {
          effects := effects[OutlineEffect := Inactive];
        }
        highlightEffects := highlightEffects + [OutlineEffect];
      }
      forall k
        ensures k in effects <==> k in old(effects) || Enabled(settings, k)
      {
        match k {
          case ColorEffect =>
          case GlowEffect =>
          case OutlineEffect =>
        }
      }
    }

    method SetFocused(focused: bool)
      modifies this
      ensures State() == SetFocusedStep(old(State()), focused, settings.highlightIntensity)
    {
      isFocused := focused;
      if focused && !isHighlighted {
        ApplyToAll(settings.highlightIntensity * 0.5);
      } else if !focused && !isHighlighted {
        RemoveAll();
      }
    }

    method SetHighlighted(highlighted: bool)
      modifies this
      ensures State() == SetHighlightedStep(old(State()), highlighted, settings.highlightIntensity)
    {
      isHighlighted := highlighted;
      if highlighted {
        ApplyToAll(settings.highlightIntensity);
      } else {
        RemoveAll();
      }
    }

    /** ApplyFocusedHighlight and ApplyAllHighlights: one loop over the list. */
    method ApplyToAll(intensity: real)
      modifies this
      ensures effects == ApplyToListed(old(effects), highlightEffects, intensity)
      ensures highlightEffects == old(highlightEffects)
      ensures isFocused == old(isFocused) && isHighlighted == old(isHighlighted)
    {
      var live := effects;
      var i := 0;
      while i < |highlightEffects|
        invariant 0 <= i <= |highlightEffects|
        invariant live == ApplyToListed(old(effects), highlightEffects[..i], intensity)
      {
        var effect := highlightEffects[i];
        if effect in live {
          live := live[effect := Applied(intensity)];
        }
        assert highlightEffects[..i + 1] == highlightEffects[..i] + [effect];
        i := i + 1;
      }
      assert highlightEffects[..i] == highlightEffects;
      effects := live;
    }

    /** RemoveAllHighlights. */
    method RemoveAll()
      modifies this
      ensures effects == RemoveFromListed(old(effects), highlightEffects)
      ensures highlightEffects == old(highlightEffects)
      ensures isFocused == old(isFocused) && isHighlighted == old(isHighlighted)
    {
      var live := effects;
      var i := 0;
      while i < |highlightEffects|
        invariant 0 <= i <= |highlightEffects|
        invariant live == RemoveFromListed(old(effects), highlightEffects[..i])
      {
        var effect := highlightEffects[i];
        if effect in live {
          live := live[effect := Inactive];
        }
        assert highlightEffects[..i + 1] == highlightEffects[..i] + [effect];
        i := i + 1;
      }
      assert highlightEffects[..i] == highlightEffects;
      effects := live;
    }
  }
}
