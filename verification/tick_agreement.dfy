/**
 The grouped `Tick.Update` computes the same state as `Renderer::update`
 (src/renderer.rs) written as twenty statements in slot order.
 */
module TickAgreement {
  import opened RendererState
  import opened Tick
  import opened TickAsWritten

  /** Slots 0-3 together are one `SteerJulia` step and touch only `c` and `r`. */
  lemma SteerSlots(u: State, sqrt: Sqrt)
    ensures var j := SteerJulia(Julia(u.c, u.r), u.wind, u.keys, sqrt);
      SteerStatements(u, sqrt) == u.(c := j.c, r := j.r)
  {
    SteerStatementsUnfold(u, sqrt);
    SteerStatementsChain(u, sqrt);
    SteerJuliaChain(Julia(u.c, u.r), u.wind, u.keys, sqrt);
  }

  /**
   The grouped `Update` is the source's `update`: applying the twenty guarded
   statements in slot order to the whole state gives the same state. The key
   groups touch disjoint fields, and steering and panning see the half-extent
   from before the zoom slots.
   */
  lemma UpdateInOrderAgrees(s: State, sqrt: Sqrt)
    ensures UpdateInOrder(s, sqrt) == Update(s, sqrt)
  {
    var k := s.keys;
    var j := SteerJulia(Julia(s.c, s.r), s.wind, k, sqrt);
    var s4 := s.(c := j.c, r := j.r);
    SteerSlots(s, sqrt);
    var s8 := s4.(pos := Pan(s4.pos, s4.wind, k));
    PanSlots(s4);
    var s10 := s8.(wind := Zoom(s8.wind, k));
    ZoomSlots(s8);
    var s14 := s10.(colors := Dials(s10.colors, k));
    DialSlots(s10);
    var s18 := s14.(colors := Bands(s14.setColor, s14.colors, k));
    BandSlots(s14);
    IterSlots(s18);
    assert UpdateInOrder(s, sqrt) == s18.(iterations := IterStep(s18.iterations, k[18], k[19]));
  }
}
