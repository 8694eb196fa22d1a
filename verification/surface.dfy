/**
 The state effects of `resize` and `reconfigure` (src/renderer.rs). The
 `surface.configure` call itself is foreign; it is recorded only as one more
 configuration of the surface.
 */
module Surface {
  import opened RendererState

  /**
   `resize`: a size with zero width or height is ignored; otherwise the size
   and configuration take the new size, the surface is configured again, the
   horizontal half-extent is kept and the vertical one follows the new aspect ratio.
   */
  function Resize(s: State, newSize: Size): (t: State)
    ensures newSize.width == 0 || newSize.height == 0 ==> t == s
    ensures newSize.width > 0 && newSize.height > 0 ==>
      && t.size == newSize && t.config == newSize
      && t.configurations == s.configurations + 1
      && t.wind.x == s.wind.x
      && t.wind.y == s.wind.x * (newSize.height as real) / (newSize.width as real)
      && (s.wind.x > 0.0 ==> ViewConsistent(t))
      && t.(size := s.size, config := s.config, configurations := s.configurations, wind := s.wind) == s
  {
    if newSize.width > 0 && newSize.height > 0 then
      s.(size := newSize,
         config := newSize,
         configurations := s.configurations + 1,
         wind := Vec2(s.wind.x, s.wind.x * (newSize.height as real) / (newSize.width as real)))
    else
      s
  }

  /** `reconfigure`: a resize to the current size, used when the surface is lost. */
  function Reconfigure(s: State): (t: State)
    ensures s.size.width > 0 && s.size.height > 0 ==> t.configurations == s.configurations + 1
  {
    Resize(s, s.size)
  }

  /**
   On a state whose view already matches its window and whose configuration
   matches its size, reconfiguring changes nothing but configuring the surface
   once more: in particular the half-extent is unchanged.
   */
  lemma ReconfigureKeepsView(s: State)
    requires ViewConsistent(s) && s.config == s.size
    ensures Reconfigure(s) == s.(configurations := s.configurations + 1)
  {
  }
}
