/** VolumetricShape: the focus and highlight flags of a gaze target, forwarded
    to the shape's HighlightController. */
module VolumetricShapes {
  import opened Highlighting

  /** The flags a shape keeps, and what a setter does to them. */
  datatype ShapeFlags = ShapeFlags(isFocused: bool, isHighlighted: bool)

  const InitialFlags := ShapeFlags(false, false)

  function SetFocusedFlags(f: ShapeFlags, focused: bool): (r: ShapeFlags)
  {
    f.(isFocused := focused)
  }

  function SetHighlightedFlags(f: ShapeFlags, highlighted: bool): (r: ShapeFlags)
  {
    f.(isHighlighted := highlighted)
  }

  /** Each setter changes its own flag to the given value and leaves the other
      alone, so the two flags are independent. */
  lemma SettersAreIndependent(f: ShapeFlags, a: bool, b: bool)
    ensures SetFocusedFlags(f, a).isFocused == a && SetFocusedFlags(f, a).isHighlighted == f.isHighlighted
    ensures SetHighlightedFlags(f, b).isHighlighted == b && SetHighlightedFlags(f, b).isFocused == f.isFocused
    ensures SetFocusedFlags(SetHighlightedFlags(f, b), a) == SetHighlightedFlags(SetFocusedFlags(f, a), b)
  {
  }

  class VolumetricShape {
    var isFocused: bool
    var isHighlighted: bool
    var highlightController: HighlightController?

    function Flags(): ShapeFlags
      reads this
    {
      ShapeFlags(isFocused, isHighlighted)
    }

    /** The controller, when present, carries the same two flags. */
    ghost predicate Valid()
      reads this, highlightController
    {
      highlightController != null ==>
        highlightController.isFocused == isFocused && highlightController.isHighlighted == isHighlighted
    }

    /** Awake: the shape gets a freshly added controller. */
    constructor (s: Settings)
      ensures Valid() && Flags() == InitialFlags
      ensures highlightController != null && fresh(highlightController)
      ensures highlightController.highlightEffects == EnabledEffects(s) + EnabledEffects(s)
    {
      isFocused := false;
      isHighlighted := false;
      highlightController := new HighlightController(s);
    }

    method SetFocused(focused: bool)
      requires Valid()
      modifies this, highlightController
      ensures Valid()
      ensures Flags() == SetFocusedFlags(old(Flags()), focused)
      ensures highlightController == old(highlightController)
      ensures highlightController != null ==>
        highlightController.State() == SetFocusedStep(old(highlightController.State()), focused,
                                                      highlightController.settings.highlightIntensity)
    {
      isFocused := focused;
      if highlightController != null {
        highlightController.SetFocused(focused);
      }
    }

    method SetHighlighted(highlighted: bool)
      requires Valid()
      modifies this, highlightController
      ensures Valid()
      ensures Flags() == SetHighlightedFlags(old(Flags()), highlighted)
      ensures highlightController == old(highlightController)
      ensures highlightController != null ==>
        highlightController.State() == SetHighlightedStep(old(highlightController.State()), highlighted,
                                                          highlightController.settings.highlightIntensity)
    {
      isHighlighted := highlighted;
      if highlightController != null {
        highlightController.SetHighlighted(highlighted);
      }
    }
  }
}
