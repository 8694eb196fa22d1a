/**
 The renderer's static key table: which virtual key code drives which of the
 twenty held-key slots (src/renderer.rs, `input`).
 */
module Keys {

  datatype Option<T> = None | Some(value: T)

  /** Number of slots in the held-key table `keys: [bool; 20]`. */
  const SlotCount: nat := 20

  /** The virtual key codes the renderer reacts to; any other code is `OtherKey`. */
  datatype KeyCode =
    | Up | Left | Down | Right   // steer the Julia constant (slots 0-3)
    | W | A | S | D             // pan the view centre (slots 4-7)
    | C | X                     // zoom in / out (slots 8-9)
    | T | Y | G | H             // free colour dials 0 and 1 (slots 10-13)
    | O | I | L | K             // bounded colours 2 and 3 (slots 14-17)
    | N | M                     // iteration budget down / up (slots 18-19)
    | Return                    // colour-mode toggle, not a held key
    | Escape                    // exit, handled one level up
    | OtherKey(code: nat)

  /** The slot order of the key table, slot `i` bound to `Bindings[i]`. */
  const Bindings: seq<KeyCode> :=
    [Up, Left, Down, Right, W, A, S, D, C, X, T, Y, G, H, O, I, L, K, N, M]

  /** The held-key slot a key code sets, if it is bound to one. */
  function KeySlot(k: KeyCode): (slot: Option<nat>)
    ensures slot.Some? ==> slot.value < SlotCount
    ensures slot.None? <==> k == Return || k == Escape || k.OtherKey?
  {
    match k
    case Up => Some(0)
    case Left => Some(1)
    case Down => Some(2)
    case Right => Some(3)
    case W => Some(4)
    case A => Some(5)
    case S => Some(6)
    case D => Some(7)
    case C => Some(8)
    case X => Some(9)
    case T => Some(10)
    case Y => Some(11)
    case G => Some(12)
    case H => Some(13)
    case O => Some(14)
    case I => Some(15)
    case L => Some(16)
    case K => Some(17)
    case N => Some(18)
    case M => Some(19)
    case Return => None
    case Escape => None
    case OtherKey(_) => None
  }

  /** The key code bound to slot `i`: the inverse of `KeySlot`. */
  function SlotKey(i: nat): (k: KeyCode)
    requires i < SlotCount
    ensures KeySlot(k) == Some(i)
  {
    Bindings[i]
  }

  /** Every bound key code is the one `SlotKey` names for its slot: no two codes share a slot. */
  lemma KeySlotInverse(k: KeyCode)
    requires KeySlot(k).Some?
    ensures SlotKey(KeySlot(k).value) == k
  {
  }
}
