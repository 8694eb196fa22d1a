/**
 A renderer's life as the driver loop sees it (src/main.rs calls `update`
 each tick, routes events through `handle_event`, and calls `reconfigure`
 when the surface is lost): the invariants every reachable state keeps, and
 what holding one key for many ticks does.
 */
module Session {
  import opened Keys
  import opened RendererState
  import opened Tick
  import opened Surface
  import opened InputRouter

  /** The invariants of a renderer state: iteration floor, colour intervals, view shape, configuration. */
  predicate Valid(s: State) {
    && s.iterations >= 1
    && ColorsInBand(s)
    && ViewConsistent(s)
    && s.config == s.size
  }

  /** Both half-extents of a valid state are positive. */
  lemma ValidExtentPositive(s: State)
    requires Valid(s)
    ensures s.wind.x > 0.0 && s.wind.y > 0.0
  {
  }

  /** A renderer created for a window of non-zero size starts valid. */
  lemma InitValid(size: Size, sqrt: Sqrt)
    requires size.width > 0 && size.height > 0
    ensures Valid(Init(size, sqrt))
  {
  }

  lemma UpdateValid(s: State, sqrt: Sqrt)
    requires Valid(s)
    ensures Valid(Update(s, sqrt))
  {
  }

  lemma ResizeValid(s: State, size: Size)
    requires Valid(s)
    ensures Valid(Resize(s, size))
  {
  }

  /** Every event keeps the invariants: key events touch only keys or the colour mode, resizes keep the view shape. */
  lemma HandleEventValid(s: State, e: Event, ownId: nat)
    requires Valid(s)
    ensures Valid(HandleEvent(s, e, ownId).state)
  {
  }

  /** One thing the driver loop does to the renderer. */
  datatype Step =
    | TickStep              // a fixed-rate `update`
    | Deliver(event: Event) // an event routed through `handle_event`
    | SurfaceLost           // `render` failed with a lost surface: `reconfigure`

  /** Where a run ends: whether the application was asked to exit, and the last state. */
  datatype Outcome = Outcome(exited: bool, state: State)

  /** Apply the steps in order, stopping at the first event that asks to exit. */
  function Run(s: State, steps: seq<Step>, ownId: nat, sqrt: Sqrt): (out: Outcome)
    ensures Valid(s) ==> Valid(out.state)
    ensures s.iterations >= 1 ==> out.state.iterations >= 1
    decreases |steps|
  {
    if |steps| == 0 then
      Outcome(false, s)
    else
      match steps[0]
      case TickStep =>
        assert Valid(s) ==> Valid(Update(s, sqrt)) by {
          if Valid(s) { UpdateValid(s, sqrt); }
        }
        assert s.iterations >= 1 ==> Update(s, sqrt).iterations >= 1 by {
          if s.iterations >= 1 { UpdateIterationsFloor(s, sqrt); }
        }
        Run(Update(s, sqrt), steps[1..], ownId, sqrt)
      case Deliver(e) =>
        var h := HandleEvent(s, e, ownId);
        assert Valid(s) ==> Valid(h.state) by {
          if Valid(s) { HandleEventValid(s, e, ownId); }
        }
        if h.exit then Outcome(true, h.state) else Run(h.state, steps[1..], ownId, sqrt)
      case SurfaceLost =>
        assert Valid(s) ==> Valid(Reconfigure(s)) by {
          if Valid(s) { ResizeValid(s, s.size); }
        }
        Run(Reconfigure(s), steps[1..], ownId, sqrt)
  }

  /** `n` ticks with the key table unchanged. */
  function Ticks(s: State, n: nat, sqrt: Sqrt): (t: State)
    ensures t.keys == s.keys && t.setColor == s.setColor && t.size == s.size
    decreases n
  {
    if n == 0 then s else Ticks(Update(s, sqrt), n - 1, sqrt)
  }

  /** However long a key table is held, the invariants survive. */
  lemma {:induction false} TicksValid(s: State, n: nat, sqrt: Sqrt)
    requires Valid(s)
    ensures Valid(Ticks(s, n, sqrt))
    decreases n
  {
    if n > 0 {
      UpdateValid(s, sqrt);
      TicksValid(Update(s, sqrt), n - 1, sqrt);
    }
  }

  /** A key table holding slot `i` only. */
  function HeldOnly(i: nat): (t: KeyTable)
    ensures forall j :: 0 <= j < SlotCount ==> (t[j] <==> j == i)
  {
    seq(SlotCount, j => j == i)
  }

  /** `b` raised to the `n`-th power. */
  function Pow(b: real, n: nat): (p: real)
    ensures b > 0.0 ==> p > 0.0
  {
    if n == 0 then 1.0 else b * Pow(b, n - 1)
  }

  /** `n` ticks of the steering keys alone, for a fixed half-extent. */
  function SteerTicks(j: Julia, wind: Vec2, k: KeyTable, n: nat, sqrt: Sqrt): Julia
    decreases n
  {
    if n == 0 then j else SteerTicks(SteerJulia(j, wind, k, sqrt), wind, k, n - 1, sqrt)
  }

  /** `n` ticks of the zoom keys alone. */
  function ZoomTicks(wind: Vec2, k: KeyTable, n: nat): Vec2
    decreases n
  {
    if n == 0 then wind else ZoomTicks(Zoom(wind, k), k, n - 1)
  }

  /** Over `n` ticks the half-extent evolves by the zoom keys alone. */
  lemma {:induction false} TicksWind(s: State, n: nat, sqrt: Sqrt)
    ensures Ticks(s, n, sqrt).wind == ZoomTicks(s.wind, s.keys, n)
    decreases n
  {
    if n > 0 {
      TicksWind(Update(s, sqrt), n - 1, sqrt);
    }
  }

  /** Without zoom keys, `c` and `r` evolve over `n` ticks by the steering keys alone. */
  lemma {:induction false} TicksJulia(s: State, n: nat, sqrt: Sqrt)
    requires !s.keys[8] && !s.keys[9]
    ensures Julia(Ticks(s, n, sqrt).c, Ticks(s, n, sqrt).r) == SteerTicks(Julia(s.c, s.r), s.wind, s.keys, n, sqrt)
    decreases n
  {
    if n > 0 {
      TicksJulia(Update(s, sqrt), n - 1, sqrt);
    }
  }

  /** n steps of size d are one step followed by n - 1 more. */
  lemma StepSum(x0: real, x1: real, xn: real, d: real, n: nat)
    requires n > 0 && x1 == x0 + d && xn == x1 + ((n - 1) as real) * d
    ensures xn == x0 + (n as real) * d
  {
  }

  /** With only Right held, each steering step moves `c.x` by `d` and recomputes `r`. */
  lemma {:induction false} SteerRightTicks(j: Julia, wind: Vec2, n: nat, sqrt: Sqrt)
    ensures var t := SteerTicks(j, wind, HeldOnly(3), n, sqrt);
      && t.c == Vec2(j.c.x + (n as real) * SteerDelta(wind), j.c.y)
      && (n > 0 ==> t.r == RadiusFor(t.c, sqrt))
    decreases n
  {
    if n > 0 {
      var k := HeldOnly(3);
      assert k[3] && !k[0] && !k[1] && !k[2];
      var j1 := SteerJulia(j, wind, k, sqrt);
      SteerRightTicks(j1, wind, n - 1, sqrt);
      var t := SteerTicks(j1, wind, k, n - 1, sqrt);
      StepSum(j.c.x, j1.c.x, t.c.x, SteerDelta(wind), n);
    }
  }

  /**
   Holding Right for `n` ticks moves `c` right by `n` steps of a thousandth
   of the half-extent, with `r` recomputed from the new `c`.
   */
  lemma HoldSteerRight(s: State, n: nat, sqrt: Sqrt)
    requires s.keys == HeldOnly(3)
    ensures Ticks(s, n, sqrt).c == Vec2(s.c.x + (n as real) * SteerDelta(s.wind), s.c.y)
    ensures Ticks(s, n, sqrt).wind == s.wind
    ensures n > 0 ==> RadiusConsistent(Ticks(s, n, sqrt), sqrt)
  {
    assert !s.keys[8] && !s.keys[9];
    TicksJulia(s, n, sqrt);
    TicksWind(s, n, sqrt);
    ZoomIdle(s.wind, s.keys, n);
    SteerRightTicks(Julia(s.c, s.r), s.wind, n, sqrt);
  }

  /** Without zoom keys the half-extent stays put. */
  lemma {:induction false} ZoomIdle(wind: Vec2, k: KeyTable, n: nat)
    requires !k[8] && !k[9]
    ensures ZoomTicks(wind, k, n) == wind
    decreases n
  {
    if n > 0 {
      ZoomIdle(Zoom(wind, k), k, n - 1);
    }
  }

  /** With only C held, `n` zoom steps scale both half-extents by 0.99^n. */
  lemma {:induction false} ZoomInTicks(wind: Vec2, n: nat)
    ensures ZoomTicks(wind, HeldOnly(8), n) == Vec2(wind.x * Pow(0.99, n), wind.y * Pow(0.99, n))
    decreases n
  {
    if n > 0 {
      var k := HeldOnly(8);
      assert k[8] && !k[9];
      var w1 := Zoom(wind, k);
      ZoomInTicks(w1, n - 1);
      var p := Pow(0.99, n - 1);
      assert wind.x * 0.99 * p == wind.x * Pow(0.99, n);
      assert wind.y * 0.99 * p == wind.y * Pow(0.99, n);
    }
  }

  /** With only X held, `n` zoom steps divide both half-extents by 0.99^n. */
  lemma {:induction false} ZoomOutTicks(wind: Vec2, n: nat)
    ensures ZoomTicks(wind, HeldOnly(9), n) == Vec2(wind.x / Pow(0.99, n), wind.y / Pow(0.99, n))
    decreases n
  {
    if n > 0 {
      var k := HeldOnly(9);
      assert k[9] && !k[8];
      var w1 := Zoom(wind, k);
      assert w1 == Vec2(wind.x / 0.99, wind.y / 0.99);
      ZoomOutTicks(w1, n - 1);
      var p := Pow(0.99, n - 1);
      DivideTwice(wind.x, 0.99, p);
      DivideTwice(wind.y, 0.99, p);
    }
  }

  /** Dividing by `a` and then by `p` is dividing by their product. */
  lemma DivideTwice(x: real, a: real, p: real)
    requires a > 0.0 && p > 0.0
    ensures x / a / p == x / (a * p)
  {
  }

  /** Holding C (zoom in) for `n` ticks scales both half-extents by 0.99^n. */
  lemma HoldZoomIn(s: State, n: nat, sqrt: Sqrt)
    requires s.keys == HeldOnly(8)
    ensures Ticks(s, n, sqrt).wind == Vec2(s.wind.x * Pow(0.99, n), s.wind.y * Pow(0.99, n))
  {
    TicksWind(s, n, sqrt);
    ZoomInTicks(s.wind, n);
  }

  /** Holding X (zoom out) for `n` ticks divides both half-extents by 0.99^n. */
  lemma HoldZoomOut(s: State, n: nat, sqrt: Sqrt)
    requires s.keys == HeldOnly(9)
    ensures Ticks(s, n, sqrt).wind == Vec2(s.wind.x / Pow(0.99, n), s.wind.y / Pow(0.99, n))
  {
    TicksWind(s, n, sqrt);
    ZoomOutTicks(s.wind, n);
  }

  /**
   Over the reals, zooming in for `n` ticks and then out for `n` ticks
   restores the half-extent exactly (f32 arithmetic only approximately).
   */
  lemma ZoomRoundTrip(s: State, n: nat, sqrt: Sqrt)
    requires s.keys == HeldOnly(8)
    ensures var zoomed := Ticks(s, n, sqrt);
      Ticks(zoomed.(keys := HeldOnly(9)), n, sqrt).wind == s.wind
  {
    var zoomed := Ticks(s, n, sqrt);
    TicksWind(s, n, sqrt);
    TicksWind(zoomed.(keys := HeldOnly(9)), n, sqrt);
    ZoomTicksRoundTrip(s.wind, n);
  }

  /** `n` zoom-in steps followed by `n` zoom-out steps restore the half-extent. */
  lemma ZoomTicksRoundTrip(wind: Vec2, n: nat)
    ensures ZoomTicks(ZoomTicks(wind, HeldOnly(8), n), HeldOnly(9), n) == wind
  {
    var zoomed := ZoomTicks(wind, HeldOnly(8), n);
    var back := ZoomTicks(zoomed, HeldOnly(9), n);
    ZoomInTicks(wind, n);
    ZoomOutTicks(zoomed, n);
    var p := Pow(0.99, n);
    Cancel(wind.x, p);
    Cancel(wind.y, p);
  }

  /** Multiplying and then dividing by a positive factor cancels. */
  lemma Cancel(x: real, p: real)
    requires p > 0.0
    ensures x * p / p == x
  {
  }

  /** Holding N for `n` ticks lowers the budget by `n`, but never below 1. */
  lemma {:induction false} HoldDecrement(s: State, n: nat, sqrt: Sqrt)
    requires s.keys == HeldOnly(18) && s.iterations >= 1
    ensures Ticks(s, n, sqrt).iterations == if s.iterations > n then s.iterations - n else 1
    decreases n
  {
    if n > 0 {
      var u := Update(s, sqrt);
      assert s.keys[18] && !s.keys[19];
      assert u.iterations == if s.iterations > 1 then s.iterations - 1 else 1;
      assert Ticks(s, n, sqrt) == Ticks(u, n - 1, sqrt);
      HoldDecrement(u, n - 1, sqrt);
    }
  }
}
