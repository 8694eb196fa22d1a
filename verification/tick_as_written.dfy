/**
 `Renderer::update` (src/renderer.rs) exactly as written: twenty guarded
 statements in slot order, each applied to the whole state as the statements
 before it left it. Each group of statements is shown to equal one step
 of the grouped `Tick.Update`.
 */
module TickAsWritten {
  import opened RendererState
  import opened ColorMode
  import opened Tick

  /** One of slots 0-3 as written: if `held`, `update_c` with `c` moved by (dx, dy); only `c` and `r` change. */
  function SteerStatement(s: State, held: bool, dx: real, dy: real, sqrt: Sqrt): State {
    var j := JuliaStep(Julia(s.c, s.r), held, dx, dy, sqrt);
    s.(c := j.c, r := j.r)
  }

  /** Slots 0-3 as written: each guarded `update_c` reads `c` and `wind` as the previous one left them. */
  function SteerStatements(s: State, sqrt: Sqrt): State {
    var s1 := SteerStatement(s, s.keys[0], 0.0, -(s.wind.x * 0.001), sqrt);
    var s2 := SteerStatement(s1, s1.keys[1], -(s1.wind.x * 0.001), 0.0, sqrt);
    var s3 := SteerStatement(s2, s2.keys[2], 0.0, s2.wind.x * 0.001, sqrt);
    SteerStatement(s3, s3.keys[3], s3.wind.x * 0.001, 0.0, sqrt)
  }

  /** Slots 4-7 as written. */
  function PanStatements(s: State): State {
    var s1 := if s.keys[4] then s.(pos := Vec2(s.pos.x, s.pos.y - s.wind.x * 0.01)) else s;
    var s2 := if s1.keys[5] then s1.(pos := Vec2(s1.pos.x - s1.wind.x * 0.01, s1.pos.y)) else s1;
    var s3 := if s2.keys[6] then s2.(pos := Vec2(s2.pos.x, s2.pos.y + s2.wind.x * 0.01)) else s2;
    if s3.keys[7] then s3.(pos := Vec2(s3.pos.x + s3.wind.x * 0.01, s3.pos.y)) else s3
  }

  /** Slots 8 and 9 as written. */
  function ZoomStatements(s: State): State {
    var s1 := if s.keys[8] then s.(wind := Vec2(s.wind.x * 0.99, s.wind.y * 0.99)) else s;
    if s1.keys[9] then s1.(wind := Vec2(s1.wind.x / 0.99, s1.wind.y / 0.99)) else s1
  }

  /** Slots 10-13 as written. */
  function DialStatements(s: State): State {
    var s1 := if s.keys[10] then s.(colors := s.colors.(c0 := s.colors.c0 + 0.01)) else s;
    var s2 := if s1.keys[11] then s1.(colors := s1.colors.(c0 := s1.colors.c0 - 0.01)) else s1;
    var s3 := if s2.keys[12] then s2.(colors := s2.colors.(c1 := s2.colors.c1 + 0.0001)) else s2;
    if s3.keys[13] then s3.(colors := s3.colors.(c1 := s3.colors.c1 - 0.0001)) else s3
  }

  /** Slots 14-17 as written: one branch per colour mode, each with four guarded clamps. */
  function BandStatements(s: State): State {
    if !s.setColor then
      var s1 := if s.keys[14] then s.(colors := s.colors.(c2 := Min(1.0, s.colors.c2 + 0.01))) else s;
      var s2 := if s1.keys[15] then s1.(colors := s1.colors.(c2 := Max(0.0, s1.colors.c2 - 0.01))) else s1;
      var s3 := if s2.keys[16] then s2.(colors := s2.colors.(c3 := Min(1.0, s2.colors.c3 + 0.01))) else s2;
      if s3.keys[17] then s3.(colors := s3.colors.(c3 := Max(0.0, s3.colors.c3 - 0.01))) else s3
    else
      var s1 := if s.keys[14] then s.(colors := s.colors.(c2 := Max(-1.0, s.colors.c2 - 0.01))) else s;
      var s2 := if s1.keys[15] then s1.(colors := s1.colors.(c2 := Min(0.0, s1.colors.c2 + 0.01))) else s1;
      var s3 := if s2.keys[16] then s2.(colors := s2.colors.(c3 := Max(-1.0, s2.colors.c3 - 0.01))) else s2;
      if s3.keys[17] then s3.(colors := s3.colors.(c3 := Min(0.0, s3.colors.c3 + 0.01))) else s3
  }

  /** Slots 18 and 19 as written: the guarded decrement, then the increment. */
  function IterStatements(s: State): State {
    var s1 := if s.keys[18] && s.iterations > 1 then s.(iterations := s.iterations - 1) else s;
    if s1.keys[19] then s1.(iterations := s1.iterations + 1) else s1
  }

  /**
   `update` as written: the twenty guarded statements in slot order, each
   applied to the whole state as the statements before it left it.
   */
  function UpdateInOrder(s: State, sqrt: Sqrt): State {
    IterStatements(BandStatements(DialStatements(ZoomStatements(PanStatements(SteerStatements(s, sqrt))))))
  }

  /** Slots 0-3 read the key table and the half-extent as the tick found them: neither changes. */
  lemma SteerStatementsUnfold(u: State, sqrt: Sqrt)
    ensures var k, d := u.keys, u.wind.x * 0.001;
      SteerStatements(u, sqrt) ==
        SteerStatement(SteerStatement(SteerStatement(SteerStatement(u,
          k[0], 0.0, -d, sqrt), k[1], -d, 0.0, sqrt), k[2], 0.0, d, sqrt), k[3], d, 0.0, sqrt)
  {
  }

  /** Four steering statements in a row act on the pair (c, r) alone, as four `JuliaStep`s. */
  lemma SteerStatementsChain(u: State, sqrt: Sqrt)
    ensures var k, d := u.keys, u.wind.x * 0.001;
      var j := JuliaStep(JuliaStep(JuliaStep(JuliaStep(Julia(u.c, u.r),
        k[0], 0.0, -d, sqrt), k[1], -d, 0.0, sqrt), k[2], 0.0, d, sqrt), k[3], d, 0.0, sqrt);
      SteerStatement(SteerStatement(SteerStatement(SteerStatement(u,
        k[0], 0.0, -d, sqrt), k[1], -d, 0.0, sqrt), k[2], 0.0, d, sqrt), k[3], d, 0.0, sqrt)
      == u.(c := j.c, r := j.r)
  {
  }

  /** Slots 4-7 together are one `Pan` step and touch only `pos`. */
  lemma PanSlots(u: State)
    ensures PanStatements(u) == u.(pos := Pan(u.pos, u.wind, u.keys))
  {
  }

  /** Slots 8 and 9 together are one `Zoom` step and touch only `wind`. */
  lemma ZoomSlots(u: State)
    ensures ZoomStatements(u) == u.(wind := Zoom(u.wind, u.keys))
  {
  }

  /** Slots 10-13 together are one `Dials` step. */
  lemma DialSlots(u: State)
    ensures DialStatements(u) == u.(colors := Dials(u.colors, u.keys))
  {
  }

  /**
   Slots 14-17 together are one `Bands` step in the current mode. The proof
   goes through the state after colour 2's two clamps.
   */
  lemma BandSlots(u: State)
    ensures BandStatements(u) == u.(colors := Bands(u.setColor, u.colors, u.keys))
  {
    var k, col := u.keys, u.colors;
    var c2 := ChannelStep(u.setColor, k[14], k[15], col.c2);
    if !u.setColor {
      var s1 := if k[14] then u.(colors := col.(c2 := Min(1.0, col.c2 + 0.01))) else u;
      var s2 := if k[15] then s1.(colors := s1.colors.(c2 := Max(0.0, s1.colors.c2 - 0.01))) else s1;
      assert s2 == u.(colors := col.(c2 := c2));
      var s3 := if k[16] then s2.(colors := s2.colors.(c3 := Min(1.0, s2.colors.c3 + 0.01))) else s2;
      var s4 := if k[17] then s3.(colors := s3.colors.(c3 := Max(0.0, s3.colors.c3 - 0.01))) else s3;
      assert BandStatements(u) == s4;
    } else {
      var s1 := if k[14] then u.(colors := col.(c2 := Max(-1.0, col.c2 - 0.01))) else u;
      var s2 := if k[15] then s1.(colors := s1.colors.(c2 := Min(0.0, s1.colors.c2 + 0.01))) else s1;
      assert s2 == u.(colors := col.(c2 := c2));
      var s3 := if k[16] then s2.(colors := s2.colors.(c3 := Max(-1.0, s2.colors.c3 - 0.01))) else s2;
      var s4 := if k[17] then s3.(colors := s3.colors.(c3 := Min(0.0, s3.colors.c3 + 0.01))) else s3;
      assert BandStatements(u) == s4;
    }
  }

  /** Slots 18 and 19 together are one `IterStep`. */
  lemma IterSlots(u: State)
    ensures IterStatements(u) == u.(iterations := IterStep(u.iterations, u.keys[18], u.keys[19]))
  {
  }
}
