/**
 The parameter state of `Renderer` (src/renderer.rs) with its GPU handles
 dropped: view, Julia constant, escape radius, colours, iteration budget,
 the held-key table, and the surface size and configuration.
 */
module RendererState {
  import opened Keys

  /** Two f32 components (`[f32; 2]`), modelled as reals. */
  datatype Vec2 = Vec2(x: real, y: real)

  /** A pixel size (winit's `PhysicalSize<u32>`). */
  datatype Size = Size(width: nat, height: nat)

  /** The four shader colour coefficients `colors: [f32; 4]`. */
  datatype Colors = Colors(c0: real, c1: real, c2: real, c3: real)

  /** The held-key table `keys: [bool; 20]`. */
  type KeyTable = t: seq<bool> | |t| == SlotCount witness seq(SlotCount, _ => false)

  /** A square-root function supplied by the caller; the model never looks inside it. */
  type Sqrt = real -> real

  datatype State = State(
    size: Size,            // window size last accepted by `resize`
    config: Size,          // width and height of the surface configuration
    configurations: nat,   // how many times the surface has been configured
    pos: Vec2,             // view centre
    wind: Vec2,            // view half-extent
    c: Vec2,               // Julia constant
    r: real,               // escape radius squared
    colors: Colors,
    setColor: bool,        // colour mode
    iterations: nat,       // escape-iteration budget (u32 in the source)
    keys: KeyTable)

  /** `|c|`, through the supplied square root. */
  function Magnitude(c: Vec2, sqrt: Sqrt): real {
    sqrt(c.x * c.x + c.y * c.y)
  }

  /** The escape radius squared that `update_c` derives from `c`: ((1 + sqrt(1 + 4|c|)) / 2)^2. */
  function RadiusFor(c: Vec2, sqrt: Sqrt): real {
    var half := (1.0 + sqrt(1.0 + 4.0 * Magnitude(c, sqrt))) / 2.0;
    half * half
  }

  /** `r` agrees with `c` the way `update_c` leaves it. */
  predicate RadiusConsistent(s: State, sqrt: Sqrt) {
    s.r == RadiusFor(s.c, sqrt)
  }

  /** The active colour mode's interval: [0,1] when the mode is off, [-1,0] when it is on. */
  predicate InBand(mode: bool, x: real) {
    if !mode then 0.0 <= x <= 1.0 else -1.0 <= x <= 0.0
  }

  /** Colours 2 and 3 lie in the interval of the current colour mode. */
  predicate ColorsInBand(s: State) {
    InBand(s.setColor, s.colors.c2) && InBand(s.setColor, s.colors.c3)
  }

  /** A positive half-extent whose aspect ratio matches a non-empty window: wind.y = wind.x * h / w. */
  predicate AspectHolds(size: Size, wind: Vec2) {
    && size.width > 0
    && size.height > 0
    && wind.x > 0.0
    && wind.y == wind.x * (size.height as real) / (size.width as real)
  }

  /** The view has positive extent and its aspect ratio matches the window. */
  predicate ViewConsistent(s: State) {
    AspectHolds(s.size, s.wind)
  }

  /** No slot of the key table is held. */
  predicate NoKeyHeld(t: KeyTable) {
    forall i :: 0 <= i < |t| ==> !t[i]
  }

  /** The Julia constant together with the escape radius squared. */
  datatype Julia = Julia(c: Vec2, r: real)

  /** `update_c`: set `c` and recompute `r` from it. */
  function UpdateC(newC: Vec2, sqrt: Sqrt): (j: Julia)
    ensures j.c == newC && j.r == RadiusFor(j.c, sqrt)
  {
    Julia(newC, RadiusFor(newC, sqrt))
  }

  /** The initial `r`: a different formula from `RadiusFor`, (1 + sqrt(1 - 4|c|)) / 2 + 0.01, not squared. */
  function InitialRadius(c: Vec2, sqrt: Sqrt): real {
    (1.0 + sqrt(1.0 - 4.0 * Magnitude(c, sqrt))) / 2.0 + 0.01
  }

  /**
   The field values `Renderer::new` starts from for a window of the given size,
   the surface having been configured once at that size.
   */
  function Init(size: Size, sqrt: Sqrt): (s: State)
    requires size.width > 0
    ensures s.size == size && s.config == size && s.configurations == 1
    ensures size.height > 0 ==> ViewConsistent(s)
    ensures ColorsInBand(s) && !s.setColor
    ensures s.iterations >= 1
    ensures NoKeyHeld(s.keys)
  {
    var c := Vec2(-0.0, 0.0);
    State(
      size := size,
      config := size,
      configurations := 1,
      pos := Vec2(0.0, 0.0),
      wind := Vec2(2.0, 2.0 * (size.height as real) / (size.width as real)),
      c := c,
      r := InitialRadius(c, sqrt),
      colors := Colors(3.3, -0.003, 0.2, 1.0),
      setColor := false,
      iterations := 100,
      keys := seq(SlotCount, _ => false))
  }

  /**
   The initial state is not radius-consistent: for a square root with
   sqrt(0) = 0 and sqrt(1) = 1 the initial `r` is 1.01 where `update_c` would give 1.
   */
  lemma InitialRadiusInconsistent(size: Size, sqrt: Sqrt)
    requires size.width > 0
    requires sqrt(0.0) == 0.0 && sqrt(1.0) == 1.0
    ensures Init(size, sqrt).r == 1.01
    ensures RadiusFor(Init(size, sqrt).c, sqrt) == 1.0
    ensures !RadiusConsistent(Init(size, sqrt), sqrt)
  {
  }
}
