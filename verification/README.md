# Julia-set renderer: the keyboard-driven parameter state machine

This project models, in Dafny, the parameter state machine inside `Renderer`
of an interactive Julia-set viewer. The renderer keeps a view centre `pos`,
a view half-extent `wind`, the Julia constant `c`, an escape radius squared
`r`, four shader colours, a colour mode, an iteration budget and a table of
twenty held keys. Keyboard events set and clear entries of the key table, and
Return flips the colour mode. A fixed-rate `update` tick applies every held
key. Window resizes re-derive the view's aspect ratio. Each frame packs the
state into a 12-float push-constant block for the shader.

The model is functional. `RendererState.State` is an immutable record, and
`input`, `handle_event`, `update`, `resize`, `reconfigure` and the block
built in `render` are pure functions over it. f32 values are `real`, the u32
iteration budget is a `nat`, and the square root is a function-valued
parameter (`Sqrt = real -> real`) that the model never looks inside. The
windowing library's event types are replaced by a small event datatype that
keeps only what `input` and `handle_event` inspect. The GPU surface is
represented by its size, its configured size and a count of how often it has
been configured.

Modules follow the source's structure:

- `Keys` (keys.dfy): the static key-code-to-slot table.
- `RendererState` (state.dfy): the state record, `update_c`, the initial values and the invariants.
- `ColorMode` (color_mode.dfy): the bounded colours 2 and 3, and the Return toggle.
- `Tick` (tick.dfy): one `update` tick, with the keys grouped by the fields they act on.
- `TickAsWritten` (tick_as_written.dfy): `update` as twenty statements in slot order, each on the whole state.
- `TickAgreement` (tick_agreement.dfy): the grouped tick and the statements in slot order give the same state.
- `Surface` (surface.dfy): `resize` and `reconfigure`.
- `InputRouter` (input_router.dfy): `input` and `handle_event`.
- `PushConstants` (push_constants.dfy): the 12-float block.
- `Session` (session.dfy): runs of ticks and events, with whole-run invariants and held-key scenarios.

Three behaviours of the code are worth stating plainly, because a reader might expect otherwise:

- In colour mode "on", colours 2 and 3 are clamped to [-1, 0], not to [-1, 1]
  (src/renderer.rs:191-200).
- The initial `r` uses a different formula from `update_c`:
  (1 + sqrt(1 - 4 abs(c))) / 2 + 0.01, not squared (src/renderer.rs:65-67).
  So `r` agrees with `c` only after the first change of `c`
  (`RendererState.InitialRadiusInconsistent`, `Tick.UpdateRadiusFollowsC`).
- Holding N and M together at budget 1 gives 2: the decrement is skipped
  because of its guard, and the increment still applies (src/renderer.rs:201-204,
  `Tick.IterStep`).

## Model

| member | source | states |
|---|---|---|
| Keys.KeySlot | src/renderer.rs:255-327 | Exactly the twenty bound key codes have a slot, each below 20; Return, Escape and every other code have none |
| Keys.SlotKey | src/renderer.rs:256-325 | The key code named for slot i is mapped back to slot i by the key table |
| Keys.KeySlotInverse | src/renderer.rs:255-327 | No two key codes share a slot: a bound code is the one its slot names |
| RendererState.UpdateC | src/renderer.rs:131-136 | After `update_c`, `c` is the new constant and `r` is ((1 + sqrt(1 + 4 abs(c))) / 2)^2 for it |
| RendererState.Init | src/renderer.rs:53-128 | The initial state has no key held, mode off, colours 2 and 3 in [0,1], budget at least 1, a surface configured once at the window size, and a view matching the window's aspect ratio when the height is non-zero |
| RendererState.InitialRadiusInconsistent | src/renderer.rs:65-67 | The initial `r` (1.01 when sqrt(0) = 0 and sqrt(1) = 1) differs from what `update_c` would derive (1), so the initial state is not radius-consistent |
| ColorMode.ChannelStep | src/renderer.rs:181-200 | A bounded colour step keeps a value inside the active mode's interval; with neither key held it changes nothing |
| ColorMode.Toggle | src/renderer.rs:311-316 | A Return press flips the mode, keeps colours 0 and 1 and every other field, and keeps colours 2 and 3 in the interval of whichever mode is active |
| ColorMode.ToggleInvolution | src/renderer.rs:311-316 | Two Return presses restore the state exactly |
| ColorMode.ChannelStepMirror | src/renderer.rs:181-200 | The colour step in one mode on a negated value is the negation of the step in the other mode |
| Tick.SteerJulia | src/renderer.rs:152-159 | Keys 0-3 move `c` by their net thousandths of the half-extent; if any is held, `r` is recomputed from the new `c`, and otherwise `c` and `r` are untouched |
| Tick.Pan | src/renderer.rs:160-167 | Keys 4-7 move the view centre by their net hundredths of the half-extent |
| Tick.Zoom | src/renderer.rs:168-171 | Keys 8 and 9 scale both half-extents alike: positivity and the aspect ratio persist, opposite keys cancel, and each key alone multiplies or divides by 0.99 |
| Tick.Dials | src/renderer.rs:172-180 | Keys 10-13 move colour 0 by 0.01 and colour 1 by 0.0001 per held key, leaving colours 2 and 3 |
| Tick.Bands | src/renderer.rs:181-200 | Keys 14-17 keep colours 2 and 3 in the active mode's interval and leave colours 0 and 1 |
| Tick.IterStep | src/renderer.rs:201-205 | The budget stays at least 1; N alone lowers it by one only above 1; M alone raises it by one without ceiling; N and M together keep it above 1 and raise it by one at 1 or below; neither held changes nothing |
| Tick.Update | src/renderer.rs:151-206 | A tick leaves the key table, the colour mode and the surface untouched; `c` and `r` move by one `SteerJulia` step, `pos` by one `Pan` step and `wind` by one `Zoom` step, colours by `Dials` then `Bands`, and the budget by one `IterStep`, with steering and panning reading `wind` from before the zoom. `TickAgreement.UpdateInOrderAgrees` proves this grouped tick equals `TickAsWritten.UpdateInOrder`, the twenty statements of the source applied in slot order |
| TickAsWritten.PanSlots | src/renderer.rs:160-167 | The four guarded pan statements, in order on the whole state, change only `pos`, by the net `Pan` step |
| TickAsWritten.ZoomSlots | src/renderer.rs:168-171 | The two guarded zoom statements, in order on the whole state, change only `wind`, by one `Zoom` step |
| TickAsWritten.DialSlots | src/renderer.rs:172-179 | The four guarded dial statements, in order on the whole state, change only colours 0 and 1, by one `Dials` step |
| TickAsWritten.BandSlots | src/renderer.rs:181-200 | The mode branch with its four guarded clamps changes only colours 2 and 3, by one `Bands` step in the current mode |
| TickAsWritten.IterSlots | src/renderer.rs:201-204 | The guarded decrement and then the increment change only the budget, by one `IterStep` |
| TickAgreement.SteerSlots | src/renderer.rs:152-159 | The four guarded `update_c` statements, in order on the whole state, change only `c` and `r`, exactly as one `SteerJulia` step |
| TickAgreement.UpdateInOrderAgrees | src/renderer.rs:151-206 | The twenty statements of `update`, applied in slot order to the whole state, give exactly the state of the grouped tick: the key groups act on disjoint fields, and steering and panning read the half-extent from before the zoom keys |
| Tick.UpdateIterationsFloor | src/renderer.rs:201-204 | A tick never takes the budget below 1; N alone at 1 leaves it at 1; M alone adds 1 |
| Tick.UpdateKeepsBands | src/renderer.rs:181-200 | Whatever keys are held, a tick keeps colours 2 and 3 in the active mode's interval |
| Tick.UpdateRadiusFollowsC | src/renderer.rs:131-159 | After a tick that moved `c`, `r` is consistent with the new `c`; otherwise `c` and `r` are unchanged, so consistency persists |
| Tick.ZoomKeepsAspect | src/renderer.rs:168-171 | Zooming keeps the half-extent positive with wind.y = wind.x * h / w |
| Tick.UpdateKeepsView | src/renderer.rs:168-171 | A tick keeps the view positive and matched to the window's aspect ratio |
| Tick.ToggleCommutesWithUpdate | src/renderer.rs:181-200 | Toggling and then ticking equals ticking and then toggling |
| Surface.Resize | src/renderer.rs:138-149 | A zero-width or zero-height size changes nothing. Otherwise size and configuration take the new size, the surface is configured once more, wind.x is kept, wind.y becomes wind.x * h / w for the new size (so a positive view matches the new aspect ratio), and nothing else changes |
| Surface.Reconfigure | src/renderer.rs:208-210 | Reconfiguring a non-empty surface configures it once more |
| Surface.ReconfigureKeepsView | src/renderer.rs:208-210 | On a state whose view matches its window, reconfiguring leaves everything but the configuration count unchanged, in particular `wind` |
| InputRouter.Input | src/renderer.rs:244-331 | An event is consumed exactly when it is a key event with a bound key code or Return; an unconsumed event changes nothing; no event touches size, configuration or view |
| InputRouter.InputSetsSlot | src/renderer.rs:254-325 | A bound key sets exactly its own slot to pressed or released, is consumed, and changes nothing else |
| InputRouter.InputIdempotent | src/renderer.rs:254-325 | Repeating a bound key event is the same as delivering it once |
| InputRouter.InputReturn | src/renderer.rs:311-318 | A Return press toggles, and a second press restores; a Return release changes nothing; both are consumed |
| InputRouter.HandleEvent | src/renderer.rs:212-242 | The result is exit exactly for a close request or an Escape press on the renderer's own window, and an exit leaves the state alone; events for other windows, and non-window events, change nothing |
| InputRouter.HandleEventRouting | src/renderer.rs:217-237 | On the renderer's window, a consumed event takes the state from `input`, a resize or scale change takes it from `resize`, and any other event changes nothing |
| PushConstants.Pack | src/renderer.rs:371-381 | The block has 12 floats, and 12 x 4 bytes fill the declared push range 0..48 |
| PushConstants.PackRoundTrip | src/renderer.rs:371-381 | The view centre, half-extent, `c`, `r * r`, the budget and the four colours are all recovered from the block in upload order |
| PushConstants.PackViewportOrdered | src/renderer.rs:372-375 | With a positive half-extent the block's min corner lies strictly below and left of its max corner |
| PushConstants.PackRadiusFourthPower | src/renderer.rs:377 | On a radius-consistent state the seventh float is ((1 + sqrt(1 + 4 abs(c))) / 2)^4, because the already squared `r` is squared again |
| Session.ValidExtentPositive | src/renderer.rs:144-147 | Both half-extents of a valid state are positive |
| Session.InitValid | src/renderer.rs:62-123 | A renderer created for a non-empty window satisfies all the invariants |
| Session.UpdateValid | src/renderer.rs:151-206 | A tick preserves the budget floor, the colour intervals, the view shape and the configuration |
| Session.ResizeValid | src/renderer.rs:138-149 | A resize, including one ignored for zero area, preserves the invariants |
| Session.HandleEventValid | src/renderer.rs:212-242 | Every event preserves the invariants |
| Session.Run | src/main.rs:16-30 | Any interleaving of ticks, events and surface-lost reconfigurations, stopped at the first exit, preserves the invariants and the budget floor |
| Session.Ticks | src/main.rs:16-18 | Repeated ticks leave the key table, the colour mode and the size unchanged |
| Session.TicksValid | src/renderer.rs:151-206 | However many ticks pass, the invariants survive |
| Session.TicksWind | src/renderer.rs:168-171 | Over many ticks the half-extent evolves by the zoom keys alone |
| Session.TicksJulia | src/renderer.rs:152-159 | Without zoom keys, `c` and `r` evolve over many ticks by the steering keys alone |
| Session.SteerRightTicks | src/renderer.rs:158-159 | n steering steps with only Right held move c.x by n steps and leave `r` consistent |
| Session.HoldSteerRight | src/renderer.rs:158-159 | Holding Right for n ticks moves c.x right by n thousandths of wind.x, keeps `wind`, and leaves `r` recomputed from the new `c` |
| Session.ZoomInTicks | src/renderer.rs:168-169 | n zoom-in steps scale both half-extents by 0.99^n |
| Session.ZoomOutTicks | src/renderer.rs:170-171 | n zoom-out steps divide both half-extents by 0.99^n |
| Session.HoldZoomIn | src/renderer.rs:168-169 | Holding C for n ticks scales both half-extents by 0.99^n |
| Session.HoldZoomOut | src/renderer.rs:170-171 | Holding X for n ticks divides both half-extents by 0.99^n |
| Session.ZoomTicksRoundTrip | src/renderer.rs:168-171 | n zoom-in steps followed by n zoom-out steps give back the original half-extent |
| Session.ZoomRoundTrip | src/renderer.rs:168-171 | Holding C for n ticks and then X for n ticks restores `wind` exactly over the reals |
| Session.HoldDecrement | src/renderer.rs:201-202 | Holding N for n ticks lowers the budget by n, but never below 1 |

## Left out

- GPU setup in `Renderer::new` is left out: adapter, device and surface acquisition, `unwrap` failures, and shader and pipeline creation. These are foreign wgpu calls. Only the initial field values and one initial surface configuration are kept.
- Command encoding, the render pass, submit and present in `render` are left out. These are foreign calls, and only the 12-float block is modelled.
- `surface.configure` is foreign. It is modelled as a count of configurations.
- The `SurfaceError` routing in src/main.rs (lost → reconfigure, out of memory → exit, other → log) is not modelled as a function. It is a match over a foreign error enum. `Session.Run` keeps only its "surface lost" branch, as a step that calls `reconfigure`.
- The driver loop's timing (60 Hz ticks, catch-up) and the async executor are left out. `Session.Run` models only the order of steps.
- f32 rounding, underflow, infinities and NaN are not modelled: every float is a real. In particular, the zoom round trip is exact only over the reals, and repeated ×0.99 can underflow `wind` in f32.
- The square root is a parameter, and no property of it is assumed beyond what each lemma's requires states.
- `RendererState.Init`: requires a non-zero initial width, because with width 0 the f32 division 2·h/0 gives an infinity or NaN that reals cannot express. The view invariant additionally needs a non-zero initial height.
- `Tick.IterStep`: the budget is a `nat`, so u32 overflow of the unguarded increment at 4294967295 (a panic in debug builds, a wrap-around in release builds) is not modelled.
- `PushConstants.Pack`: the budget enters the block as an exact real, so rounding of the u32-to-f32 cast above 2^24 is not modelled. Byte-level `bytemuck` packing is reduced to the float count times 4 bytes.
- Window identity is a natural number; the model does not say how window ids are created.
