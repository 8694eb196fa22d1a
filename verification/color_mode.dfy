/**
 The two bounded colour channels (colours 2 and 3) and the colour-mode toggle
 bound to Return (src/renderer.rs, `update` and `input`).
 */
module ColorMode {
  import opened RendererState

  function Min(a: real, b: real): real {
    if a <= b then a else b
  }

  function Max(a: real, b: real): real {
    if a >= b then a else b
  }

  /**
   One tick of a bounded colour channel. `grow` is the first key of the pair
   (O for colour 2, L for colour 3), `shrink` the second (I, K); `grow` moves the
   value away from 0 and `shrink` towards it, each by 0.01 and clamped to the
   active mode's interval. The two keys apply one after the other.
   */
  function ChannelStep(mode: bool, grow: bool, shrink: bool, x: real): (y: real)
    ensures InBand(mode, x) ==> InBand(mode, y)
    ensures !grow && !shrink ==> y == x
  {
    if !mode then
      var x1 := if grow then Min(1.0, x + 0.01) else x;
      if shrink then Max(0.0, x1 - 0.01) else x1
    else
      var x1 := if grow then Max(-1.0, x - 0.01) else x;
      if shrink then Min(0.0, x1 + 0.01) else x1
  }

  /** A Return press: flip the colour mode and negate colours 2 and 3. */
  function Toggle(s: State): (t: State)
    ensures t.setColor == !s.setColor
    ensures ColorsInBand(s) <==> ColorsInBand(t)
    ensures t.(setColor := s.setColor, colors := s.colors) == s
    ensures t.colors.c0 == s.colors.c0 && t.colors.c1 == s.colors.c1
  {
    s.(setColor := !s.setColor,
       colors := s.colors.(c2 := -s.colors.c2, c3 := -s.colors.c3))
  }

  /** Two Return presses restore the state exactly. */
  lemma ToggleInvolution(s: State)
    ensures Toggle(Toggle(s)) == s
  {
  }

  /**
   The channel step commutes with negation across the modes: stepping the
   negated value in the other mode gives the negation of the original step
   (for instance -min(1, x + 0.01) == max(-1, -x - 0.01)).
   */
  lemma ChannelStepMirror(mode: bool, grow: bool, shrink: bool, x: real)
    ensures ChannelStep(!mode, grow, shrink, -x) == -ChannelStep(mode, grow, shrink, x)
  {
  }
}
