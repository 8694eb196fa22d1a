/**
 One fixed-timestep tick: `Renderer::update` (src/renderer.rs) applies the
 effect of every held key within one call. Here the keys are grouped by the
 fields they act on; module `TickAsWritten` has the statements in slot order.
 */
module Tick {
  import opened RendererState
  import opened ColorMode

  /** The per-tick step of the Julia constant, relative to the horizontal half-extent. */
  function SteerDelta(wind: Vec2): real {
    wind.x * 0.001
  }

  /** The per-tick step of the view centre, relative to the horizontal half-extent. */
  function PanDelta(wind: Vec2): real {
    wind.x * 0.01
  }

  /** `d` if the key `b` is held, else nothing. */
  function When(b: bool, d: real): real {
    if b then d else 0.0
  }

  /** One guarded `update_c`: if `held`, move `c` by (dx, dy) and recompute `r`. */
  function JuliaStep(j: Julia, held: bool, dx: real, dy: real, sqrt: Sqrt): Julia {
    if held then UpdateC(Vec2(j.c.x + dx, j.c.y + dy), sqrt) else j
  }

  /**
   Keys 0-3 (Up, Left, Down, Right): each moves `c` one step through
   `update_c`, so `r` is recomputed after every change.
   */
  function SteerJulia(j: Julia, wind: Vec2, k: KeyTable, sqrt: Sqrt): (t: Julia)
    ensures var d := SteerDelta(wind);
      t.c == Vec2(j.c.x + When(k[3], d) - When(k[1], d), j.c.y + When(k[2], d) - When(k[0], d))
    ensures (k[0] || k[1] || k[2] || k[3]) ==> t.r == RadiusFor(t.c, sqrt)
    ensures !(k[0] || k[1] || k[2] || k[3]) ==> t == j
  {
    var d := wind.x * 0.001;
    var j1 := JuliaStep(j, k[0], 0.0, -d, sqrt);
    var j2 := JuliaStep(j1, k[1], -d, 0.0, sqrt);
    var j3 := JuliaStep(j2, k[2], 0.0, d, sqrt);
    JuliaStep(j3, k[3], d, 0.0, sqrt)
  }

  /** `SteerJulia` is four `JuliaStep`s, each by a thousandth of the half-extent. */
  lemma SteerJuliaChain(j: Julia, wind: Vec2, k: KeyTable, sqrt: Sqrt)
    ensures var d := wind.x * 0.001;
      SteerJulia(j, wind, k, sqrt) == JuliaStep(JuliaStep(JuliaStep(JuliaStep(j,
        k[0], 0.0, -d, sqrt), k[1], -d, 0.0, sqrt), k[2], 0.0, d, sqrt), k[3], d, 0.0, sqrt)
  {
  }

  /** Keys 4-7 (W, A, S, D): move the view centre by a hundredth of the half-extent. */
  function Pan(pos: Vec2, wind: Vec2, k: KeyTable): (p: Vec2)
    ensures var d := PanDelta(wind);
      p == Vec2(pos.x + When(k[7], d) - When(k[5], d), pos.y + When(k[6], d) - When(k[4], d))
  {
    var d := PanDelta(wind);
    var p0 := if k[4] then Vec2(pos.x, pos.y - d) else pos;
    var p1 := if k[5] then Vec2(p0.x - d, p0.y) else p0;
    var p2 := if k[6] then Vec2(p1.x, p1.y + d) else p1;
    if k[7] then Vec2(p2.x + d, p2.y) else p2
  }

  /** Keys 8 and 9 (C, X): zoom in (x 0.99) and out (/ 0.99), both components alike. */
  function Zoom(wind: Vec2, k: KeyTable): (w: Vec2)
    ensures wind.x > 0.0 ==> w.x > 0.0
    ensures wind.y > 0.0 ==> w.y > 0.0
    ensures w.x * wind.y == w.y * wind.x
    ensures k[8] == k[9] ==> w == wind
    ensures k[8] && !k[9] ==> w == Vec2(wind.x * 0.99, wind.y * 0.99)
    ensures k[9] && !k[8] ==> w.x * 0.99 == wind.x && w.y * 0.99 == wind.y
  {
    var w0 := if k[8] then Vec2(wind.x * 0.99, wind.y * 0.99) else wind;
    if k[9] then Vec2(w0.x / 0.99, w0.y / 0.99) else w0
  }

  /** Keys 10-13 (T, Y, G, H): the free-running colour dials 0 and 1. */
  function Dials(col: Colors, k: KeyTable): (d: Colors)
    ensures d.c0 == col.c0 + When(k[10], 0.01) - When(k[11], 0.01)
    ensures d.c1 == col.c1 + When(k[12], 0.0001) - When(k[13], 0.0001)
    ensures d.c2 == col.c2 && d.c3 == col.c3
  {
    var a := if k[10] then col.(c0 := col.c0 + 0.01) else col;
    var b := if k[11] then a.(c0 := a.c0 - 0.01) else a;
    var e := if k[12] then b.(c1 := b.c1 + 0.0001) else b;
    if k[13] then e.(c1 := e.c1 - 0.0001) else e
  }

  /** Keys 14-17 (O, I, L, K): the bounded colours 2 and 3 in the active mode. */
  function Bands(mode: bool, col: Colors, k: KeyTable): (d: Colors)
    ensures InBand(mode, col.c2) ==> InBand(mode, d.c2)
    ensures InBand(mode, col.c3) ==> InBand(mode, d.c3)
    ensures d.c0 == col.c0 && d.c1 == col.c1
  {
    col.(c2 := ChannelStep(mode, k[14], k[15], col.c2),
         c3 := ChannelStep(mode, k[16], k[17], col.c3))
  }

  /** Keys 18 and 19 (N, M): decrement the budget while above 1, then increment it without ceiling. */
  function IterStep(it: nat, dec: bool, inc: bool): (n: nat)
    ensures it >= 1 ==> n >= 1
    ensures dec && !inc && it <= 1 ==> n == it
    ensures dec && !inc && it > 1 ==> n == it - 1
    ensures inc && !dec ==> n == it + 1
    ensures dec && inc && it > 1 ==> n == it
    ensures dec && inc && it <= 1 ==> n == it + 1
    ensures !dec && !inc ==> n == it
  {
    var i0 := if dec && it > 1 then it - 1 else it;
    if inc then i0 + 1 else i0
  }

  /**
   `update`: one tick with the keys currently held, grouped by the fields each
   group of keys acts on. Steering and panning read the half-extent from before
   the zoom keys apply; keys, colour mode and surface are left alone.
   `TickAgreement.UpdateInOrderAgrees` shows this is the twenty statements of
   the source applied in slot order.
   */
  function Update(s: State, sqrt: Sqrt): (t: State)
    ensures t.keys == s.keys && t.setColor == s.setColor
    ensures t.size == s.size && t.config == s.config && t.configurations == s.configurations
    ensures Julia(t.c, t.r) == SteerJulia(Julia(s.c, s.r), s.wind, s.keys, sqrt)
    ensures t.pos == Pan(s.pos, s.wind, s.keys)
    ensures t.wind == Zoom(s.wind, s.keys)
    ensures t.colors == Bands(s.setColor, Dials(s.colors, s.keys), s.keys)
    ensures t.iterations == IterStep(s.iterations, s.keys[18], s.keys[19])
  {
    var k := s.keys;
    var julia := SteerJulia(Julia(s.c, s.r), s.wind, k, sqrt);
    var dialled := Dials(s.colors, k);
    s.(
      c := julia.c,
      r := julia.r,
      pos := Pan(s.pos, s.wind, k),
      wind := Zoom(s.wind, k),
      colors := Bands(s.setColor, dialled, k),
      iterations := IterStep(s.iterations, k[18], k[19]))
  }

  /** The iteration budget never drops below 1; N alone at 1 leaves it at 1. */
  lemma UpdateIterationsFloor(s: State, sqrt: Sqrt)
    requires s.iterations >= 1
    ensures Update(s, sqrt).iterations >= 1
    ensures s.keys[18] && !s.keys[19] && s.iterations == 1 ==> Update(s, sqrt).iterations == 1
    ensures s.keys[19] && !s.keys[18] ==> Update(s, sqrt).iterations == s.iterations + 1
  {
  }

  /** Every tick keeps colours 2 and 3 in the active mode's interval, whatever keys are held. */
  lemma UpdateKeepsBands(s: State, sqrt: Sqrt)
    requires ColorsInBand(s)
    ensures ColorsInBand(Update(s, sqrt))
  {
  }

  /**
   `r` follows `c`: after a tick that moved `c`, `r` is recomputed from the
   new `c`; a tick that did not move `c` leaves both alone.
   */
  lemma UpdateRadiusFollowsC(s: State, sqrt: Sqrt)
    ensures var moved := s.keys[0] || s.keys[1] || s.keys[2] || s.keys[3];
      && (moved ==> RadiusConsistent(Update(s, sqrt), sqrt))
      && (!moved ==> Update(s, sqrt).c == s.c && Update(s, sqrt).r == s.r)
    ensures RadiusConsistent(s, sqrt) ==> RadiusConsistent(Update(s, sqrt), sqrt)
  {
  }

  /** Zooming scales both half-extents by one factor, so positivity and the aspect relation persist. */
  lemma ZoomKeepsAspect(size: Size, wind: Vec2, k: KeyTable)
    requires AspectHolds(size, wind)
    ensures AspectHolds(size, Zoom(wind, k))
  {
  }

  /** A tick keeps the half-extent positive and matched to the window's aspect ratio. */
  lemma UpdateKeepsView(s: State, sqrt: Sqrt)
    requires ViewConsistent(s)
    ensures ViewConsistent(Update(s, sqrt))
  {
  }

  /**
   Toggling the colour mode commutes with a tick: the step in one mode on
   negated colours is the negation of the step in the other mode.
   */
  lemma ToggleCommutesWithUpdate(s: State, sqrt: Sqrt)
    ensures Update(Toggle(s), sqrt) == Toggle(Update(s, sqrt))
  {
  }

}
