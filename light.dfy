/**
 * `entity.light.Light`: a point light with an on/off switch. Switching off
 * zeroes the colour and keeps the real colour in a backup field, so that
 * switching on again restores it.
 */
module Lights {
  import opened Common

  /** Attenuation of the two-argument constructor: constant 1, no falloff. */
  const NoAttenuation: Vec3 := Vec3(1.0, 0.0, 0.0)

  /** Every field of a light, read at one moment. */
  datatype LightState = LightState(
    position: Vec3,
    color: Vec3,
    attenuation: Vec3,
    colorBackup: Vec3,
    on: bool,
    canToggle: bool)

  /**
   * What the shader sees should agree with the switch: a lit light shows its
   * backup colour and a dark one shows black.
   */
  predicate Consistent(s: LightState) {
    && (s.on ==> s.color == s.colorBackup)
    && (!s.on ==> s.color == Zero3)
  }

  /** The state after `toggle()`. */
  function Toggled(s: LightState): (t: LightState)
    ensures !s.canToggle ==> t == s
    ensures s.canToggle ==> t.on == !s.on
    ensures t.position == s.position && t.attenuation == s.attenuation
    ensures t.colorBackup == s.colorBackup && t.canToggle == s.canToggle
  {
    if !s.canToggle then s
    else if !s.on then s.(on := true, color := s.colorBackup)
    else s.(on := false, color := Zero3)
  }

  /** The state after `setColor(c)` as the source writes it: colour and backup both change. */
  function ColorSet(s: LightState, c: Vec3): LightState {
    s.(color := c, colorBackup := c)
  }

  /** Toggling keeps a consistent light consistent. */
  lemma ToggledConsistent(s: LightState)
    requires Consistent(s)
    ensures Consistent(Toggled(s))
  {
  }

  /** Two toggles in a row give back the exact state of a consistent light. */
  lemma ToggleTwiceRestores(s: LightState)
    requires Consistent(s)
    ensures Toggled(Toggled(s)) == s
  {
    if s.canToggle && !s.on {
      assert s.color == Zero3;
    }
  }

  /** After switching off and on again the light shows its backup colour. */
  lemma OffThenOnShowsBackup(s: LightState)
    requires s.canToggle && s.on
    ensures Toggled(s).color == Zero3
    ensures Toggled(Toggled(s)).color == s.colorBackup && Toggled(Toggled(s)).on
  {
  }

  /**
   * `setColor` on a switched-off light makes it shine: the colour the shader
   * reads is no longer black although `on` is false, and two toggles then do
   * not give back that state.
   */
  lemma ColorSetWhileOffShines()
    ensures var s := LightState(Zero3, Zero3, NoAttenuation, Vec3(1.0, 1.0, 1.0), false, true);
            && Consistent(s)
            && !Consistent(ColorSet(s, Vec3(0.5, 0.5, 0.5)))
            && Toggled(Toggled(ColorSet(s, Vec3(0.5, 0.5, 0.5)))) != ColorSet(s, Vec3(0.5, 0.5, 0.5))
  {
  }

  /**
   * `setColor` as evidently intended: a dark light only records the new colour
   * in its backup and shows it when switched on.
   */
  function ColorSetKeepingSwitch(s: LightState, c: Vec3): (t: LightState)
    ensures t.colorBackup == c
    ensures t.on == s.on && t.position == s.position && t.attenuation == s.attenuation
    ensures t.canToggle == s.canToggle
  {
    if s.on then s.(color := c, colorBackup := c) else s.(colorBackup := c)
  }

  /** The corrected `setColor` keeps every light consistent, so toggling twice restores it. */
  lemma ColorSetKeepingSwitchConsistent(s: LightState, c: Vec3)
    requires Consistent(s)
    ensures Consistent(ColorSetKeepingSwitch(s, c))
    ensures Toggled(Toggled(ColorSetKeepingSwitch(s, c))) == ColorSetKeepingSwitch(s, c)
  {
    ToggleTwiceRestores(ColorSetKeepingSwitch(s, c));
  }

  class Light {
    var position: Vec3
    var color: Vec3
    var attenuation: Vec3
    var colorBackup: Vec3
    var on: bool
    var canToggle: bool

    function State(): LightState
      reads this
    {
      LightState(position, color, attenuation, colorBackup, on, canToggle)
    }

    /** A lit, toggleable light without falloff. */
    constructor (position: Vec3, color: Vec3)
      ensures State() == LightState(position, color, NoAttenuation, color, true, true)
      ensures Consistent(State())
    {
      this.position := position;
      this.color := color;
      this.colorBackup := color;
      this.attenuation := NoAttenuation;
      this.on := true;
      this.canToggle := true;
    }

    /** A lit, toggleable light with the given falloff. */
    constructor WithAttenuation(position: Vec3, color: Vec3, attenuation: Vec3)
      ensures State() == LightState(position, color, attenuation, color, true, true)
      ensures Consistent(State())
    {
      this.position := position;
      this.color := color;
      this.colorBackup := color;
      this.attenuation := attenuation;
      this.on := true;
      this.canToggle := true;
    }

    method SetPosition(p: Vec3)
      modifies this
      ensures State() == old(State()).(position := p)
    {
      position := p;
    }

    method SetColor(c: Vec3)
      modifies this
      ensures State() == ColorSet(old(State()), c)
    {
      color := c;
      colorBackup := c;
    }

    method Toggle()
      modifies this
      ensures State() == Toggled(old(State()))
    {
      if !canToggle {
        return;
      }
      on := !on;
      if on {
        color := colorBackup;
      } else {
        color := Zero3;
      }
    }

    method SetToggleMode(toggle: bool)
      modifies this
      ensures State() == old(State()).(canToggle := toggle)
    {
      canToggle := toggle;
    }
  }
}
