/**
 * The animation-settings store of src/store/slices/animationSlice.ts: a
 * cursor and a zoom spring record and a motion-blur record, updated in place
 * by partial updates. Numbers are exact reals; a field a partial update
 * leaves out is None.
 */
module AnimationStore {
  import opened Wrappers
  import Anim

  datatype PresetValues = PresetValues(mass: real, tension: real, friction: real)

  const DefaultValues: PresetValues := PresetValues(1.0, 170.0, 26.0)

  /** ANIMATION_PRESETS. 'custom' is itself a key, holding the default values. */
  const AnimationPresets: map<string, PresetValues> := map[
    "default" := DefaultValues,
    "gentle" := PresetValues(1.0, 120.0, 14.0),
    "wobbly" := PresetValues(1.0, 180.0, 12.0),
    "stiff" := PresetValues(1.0, 210.0, 20.0),
    "slow" := PresetValues(1.0, 280.0, 60.0),
    "custom" := DefaultValues
  ]

  /** One spring record (AnimationStyle): a style tag and the three spring numbers. */
  datatype AnimationStyle = AnimationStyle(style: string, mass: real, tension: real, friction: real)
  {
    function Values(): PresetValues { PresetValues(mass, tension, friction) }
  }

  /** Partial<AnimationStyle>. */
  datatype AnimationPatch = AnimationPatch(
    style: Option<string>, mass: Option<real>, tension: Option<real>, friction: Option<real>)

  datatype MotionBlur = MotionBlur(enabled: bool, amount: real, cursor: real, zoom: real, pan: real)

  /** Partial<MotionBlurSettings>. */
  datatype MotionBlurPatch = MotionBlurPatch(
    enabled: Option<bool>, amount: Option<real>, cursor: Option<real>, zoom: Option<real>, pan: Option<real>)

  const InitialMotionBlur: MotionBlur := MotionBlur(false, 50.0, 70.0, 100.0, 100.0)
  const InitialAnimation: AnimationStyle := AnimationStyle("default", 1.0, 170.0, 26.0)

  /** The update copies a preset first: its style is present, non-empty, and a key of the table. */
  predicate CopiesPreset(p: AnimationPatch)
  {
    p.style.Some? && p.style.value != "" && p.style.value in AnimationPresets
  }

  /** The update carries at least one of mass, tension, friction. */
  predicate SetsNumbers(p: AnimationPatch)
  {
    p.mass.Some? || p.tension.Some? || p.friction.Some?
  }

  /**
   * The record after one update, field by field: a supplied number wins;
   * otherwise the preset's number when the update copies a preset; otherwise
   * the old number. The style is the supplied one, else 'custom' when numbers
   * were supplied, else the old style.
   */
  function Updated(a: AnimationStyle, p: AnimationPatch): AnimationStyle
  {
    var base := if CopiesPreset(p) then AnimationPresets[p.style.value] else a.Values();
    AnimationStyle(
      if p.style.Some? then p.style.value else if SetsNumbers(p) then "custom" else a.style,
      OrElse(p.mass, base.mass),
      OrElse(p.tension, base.tension),
      OrElse(p.friction, base.friction))
  }

  /**
   * The three steps the slice runs on a record: copy the preset named by the
   * style, assign every supplied field (style included), then mark the record
   * 'custom' when numbers were supplied without a style.
   */
  method ApplyUpdate(a: AnimationStyle, p: AnimationPatch) returns (r: AnimationStyle)
    ensures r == Updated(a, p)
  {
    r := a;
    if p.style.Some? && p.style.value != "" && p.style.value in AnimationPresets {
      var preset := AnimationPresets[p.style.value];
      r := r.(mass := preset.mass, tension := preset.tension, friction := preset.friction);
    }
    if p.style.Some? { r := r.(style := p.style.value); }
    if p.mass.Some? { r := r.(mass := p.mass.value); }
    if p.tension.Some? { r := r.(tension := p.tension.value); }
    if p.friction.Some? { r := r.(friction := p.friction.value); }
    if (p.mass.Some? || p.tension.Some? || p.friction.Some?) && p.style.None? {
      r := r.(style := "custom");
    }
  }

  /** The animation slice of the editor store. */
  class AnimationSettings {
    var motionBlur: MotionBlur
    var cursorAnimation: AnimationStyle
    var zoomAnimation: AnimationStyle

    /** initialAnimationState. */
    constructor ()
      ensures motionBlur == MotionBlur(false, 50.0, 70.0, 100.0, 100.0)
      ensures cursorAnimation == AnimationStyle("default", 1.0, 170.0, 26.0)
      ensures zoomAnimation == AnimationStyle("default", 1.0, 170.0, 26.0)
    {
      motionBlur := InitialMotionBlur;
      cursorAnimation := AnimationStyle("default", AnimationPresets["default"].mass,
        AnimationPresets["default"].tension, AnimationPresets["default"].friction);
      zoomAnimation := cursorAnimation;
    }

    /** updateMotionBlur: each supplied field is written as given, with no clamping. */
    method UpdateMotionBlur(p: MotionBlurPatch)
      modifies this
      ensures motionBlur.enabled == OrElse(p.enabled, old(motionBlur.enabled))
      ensures motionBlur.amount == OrElse(p.amount, old(motionBlur.amount))
      ensures motionBlur.cursor == OrElse(p.cursor, old(motionBlur.cursor))
      ensures motionBlur.zoom == OrElse(p.zoom, old(motionBlur.zoom))
      ensures motionBlur.pan == OrElse(p.pan, old(motionBlur.pan))
      ensures cursorAnimation == old(cursorAnimation) && zoomAnimation == old(zoomAnimation)
    {
      if p.enabled.Some? { motionBlur := motionBlur.(enabled := p.enabled.value); }
      if p.amount.Some? { motionBlur := motionBlur.(amount := p.amount.value); }
      if p.cursor.Some? { motionBlur := motionBlur.(cursor := p.cursor.value); }
      if p.zoom.Some? { motionBlur := motionBlur.(zoom := p.zoom.value); }
      if p.pan.Some? { motionBlur := motionBlur.(pan := p.pan.value); }
    }

    /** updateCursorAnimation: the three-step rule on the cursor record only. */
    method UpdateCursorAnimation(p: AnimationPatch)
      modifies this
      ensures cursorAnimation == Updated(old(cursorAnimation), p)
      ensures zoomAnimation == old(zoomAnimation) && motionBlur == old(motionBlur)
    {
      cursorAnimation := ApplyUpdate(cursorAnimation, p);
    }

    /** updateZoomAnimation: the three-step rule on the zoom record only. */
    method UpdateZoomAnimation(p: AnimationPatch)
      modifies this
      ensures zoomAnimation == Updated(old(zoomAnimation), p)
      ensures cursorAnimation == old(cursorAnimation) && motionBlur == old(motionBlur)
    {
      zoomAnimation := ApplyUpdate(zoomAnimation, p);
    }
  }

  // ---------------------------------------------------------------------
  // Properties of one update
  // ---------------------------------------------------------------------

  function StyleOnly(s: string): AnimationPatch
  {
    AnimationPatch(Some(s), None, None, None)
  }

  const EmptyPatch: AnimationPatch := AnimationPatch(None, None, None, None)

  /** Selecting a known style copies that preset's numbers and stores the style. */
  lemma SelectingPresetCopiesIt(a: AnimationStyle, s: string)
    requires s in AnimationPresets && s != ""
    ensures Updated(a, StyleOnly(s)).Values() == AnimationPresets[s]
    ensures Updated(a, StyleOnly(s)).style == s
  {
  }

  /** 'custom' is a key of the table: selecting it resets the numbers to 1/170/26. */
  lemma SelectingCustomResets(a: AnimationStyle)
    ensures Updated(a, StyleOnly("custom")) == AnimationStyle("custom", 1.0, 170.0, 26.0)
  {
  }

  /** A known style with overrides: each override wins, the rest come from the preset, and the style is kept. */
  lemma PresetWithOverrides(a: AnimationStyle, p: AnimationPatch)
    requires CopiesPreset(p)
    ensures var r, pre := Updated(a, p), AnimationPresets[p.style.value];
      && r.style == p.style.value
      && r.mass == OrElse(p.mass, pre.mass)
      && r.tension == OrElse(p.tension, pre.tension)
      && r.friction == OrElse(p.friction, pre.friction)
  {
  }

  /** Numbers without a style: the supplied numbers replace the old ones, the rest stay, and the style becomes 'custom'. */
  lemma NumbersWithoutStyleMarkCustom(a: AnimationStyle, p: AnimationPatch)
    requires p.style.None? && SetsNumbers(p)
    ensures var r := Updated(a, p);
      && r.style == "custom"
      && r.mass == OrElse(p.mass, a.mass)
      && r.tension == OrElse(p.tension, a.tension)
      && r.friction == OrElse(p.friction, a.friction)
  {
  }

  /**
   * An unknown or empty style copies nothing and is stored verbatim; the
   * custom rule does not fire since a style was given.
   */
  lemma UnknownStyleStoredVerbatim(a: AnimationStyle, p: AnimationPatch)
    requires p.style.Some? && (p.style.value == "" || p.style.value !in AnimationPresets)
    ensures var r := Updated(a, p);
      && r.style == p.style.value
      && r.mass == OrElse(p.mass, a.mass)
      && r.tension == OrElse(p.tension, a.tension)
      && r.friction == OrElse(p.friction, a.friction)
  {
  }

  /** An empty update leaves the record as it was. */
  lemma EmptyUpdateChangesNothing(a: AnimationStyle)
    ensures Updated(a, EmptyPatch) == a
  {
  }

  /** Applying the same update twice is the same as applying it once. */
  lemma UpdateIdempotent(a: AnimationStyle, p: AnimationPatch)
    ensures Updated(Updated(a, p), p) == Updated(a, p)
  {
  }

  // ---------------------------------------------------------------------
  // Sessions of updates
  // ---------------------------------------------------------------------

  /** The record after a series of updates, oldest first. */
  function UpdatedAll(a: AnimationStyle, ps: seq<AnimationPatch>): AnimationStyle
    decreases |ps|
  {
    if ps == [] then a else UpdatedAll(Updated(a, ps[0]), ps[1..])
  }

  /**
   * A record whose style names a preset other than 'custom' holds exactly
   * that preset's numbers.
   */
  predicate HonestTag(a: AnimationStyle)
  {
    a.style in AnimationPresets && a.style != "custom" ==> a.Values() == AnimationPresets[a.style]
  }

  /**
   * The animation panel sends either a style alone or a number alone: an
   * update that does not mix a style with numbers.
   */
  predicate UnmixedPatch(p: AnimationPatch)
  {
    p.style.None? || !SetsNumbers(p)
  }

  /** One unmixed update keeps the tag honest. */
  lemma UnmixedUpdateKeepsTagHonest(a: AnimationStyle, p: AnimationPatch)
    requires HonestTag(a) && UnmixedPatch(p)
    ensures HonestTag(Updated(a, p))
  {
  }

  /** Any session of unmixed updates from an honest record (such as the initial one) ends honest. */
  lemma {:induction false} UnmixedSessionKeepsTagHonest(a: AnimationStyle, ps: seq<AnimationPatch>)
    requires HonestTag(a)
    requires forall i :: 0 <= i < |ps| ==> UnmixedPatch(ps[i])
    ensures HonestTag(UpdatedAll(a, ps))
    decreases |ps|
  {
    if ps != [] {
      UnmixedUpdateKeepsTagHonest(a, ps[0]);
      UnmixedSessionKeepsTagHonest(Updated(a, ps[0]), ps[1..]);
    }
  }

  /**
   * A mixed update keeps its style even though its numbers differ from the
   * preset: from the initial record, {style: 'gentle', tension: 300} gives a
   * record tagged 'gentle' with tension 300.
   */
  lemma MixedUpdateKeepsNamedStyle()
    ensures Updated(InitialAnimation, AnimationPatch(Some("gentle"), None, Some(300.0), None))
      == AnimationStyle("gentle", 1.0, 300.0, 14.0)
    ensures HonestTag(InitialAnimation)
    ensures !HonestTag(AnimationStyle("gentle", 1.0, 300.0, 14.0))
  {
  }

  /** Worked sessions: select 'gentle', then tension 300; and 'gentle' with friction 99 in one update. */
  lemma WorkedSessions()
    ensures UpdatedAll(InitialAnimation, [StyleOnly("gentle")]) == AnimationStyle("gentle", 1.0, 120.0, 14.0)
    ensures UpdatedAll(InitialAnimation, [StyleOnly("gentle"), AnimationPatch(None, None, Some(300.0), None)])
      == AnimationStyle("custom", 1.0, 300.0, 14.0)
    ensures UpdatedAll(InitialAnimation, [AnimationPatch(Some("gentle"), None, None, Some(99.0))])
      == AnimationStyle("gentle", 1.0, 120.0, 99.0)
  {
  }

  // ---------------------------------------------------------------------
  // The panel's preset list against the store's table
  // ---------------------------------------------------------------------

  /**
   * The panel offers exactly the keys of SPRING_PHYSICS_PRESETS; each is a
   * key of ANIMATION_PRESETS with the same numbers, so selecting any of them
   * copies a preset.
   */
  lemma PanelPresetsMatchStoreTable(k: string)
    requires k in Anim.SpringPhysicsPresets
    ensures Anim.SpringPhysicsPresets.Keys == {"default", "gentle", "wobbly", "stiff", "slow"}
    ensures CopiesPreset(StyleOnly(k))
    ensures var sp := Anim.SpringPhysicsPresets[k];
      AnimationPresets[k] == PresetValues(sp.mass, sp.tension, sp.friction)
  {
  }
}
