/**
  The pointer state the host forwards to the producer each frame: position,
  a bitmask of pressed buttons, and the wheel delta of the current frame.
 */
module Input {

  datatype Pointer = Pointer(x: real, y: real, buttons: bv32, wheel: real)

  /** The canvas events the host listens to; positions are already canvas-relative. */
  datatype Event =
    | MouseMove(x: real, y: real)
    | MouseDown(button: int)
    | MouseUp(button: int)
    | MouseLeave
    | Wheel(deltaY: real)

  /** The pointer state before any event. */
  const Idle: Pointer := Pointer(0.0, 0.0, 0, 0.0)

  /**
    The bit a button number selects: JavaScript's `<<` uses the amount modulo 32,
    taken non-negative, so button -1 selects bit 31.
   */
  function BitIndex(button: int): bv5 {
    (button % 32) as bv5
  }

  /** Whether bit `j` of a mask is set. */
  predicate IsSet(mask: bv32, j: bv5) {
    mask & ((1 as bv32) << j) != 0
  }

  lemma SetBit(mask: bv32, b: bv5, j: bv5)
    ensures IsSet(mask | ((1 as bv32) << b), j) <==> j == b || IsSet(mask, j)
  {
  }

  lemma ClearBit(mask: bv32, b: bv5, j: bv5)
    ensures IsSet(mask & !((1 as bv32) << b), j) <==> j != b && IsSet(mask, j)
  {
  }

  /** `mask | (1 << b)`: bit `b` set, every other bit as it was. */
  function SetAt(mask: bv32, b: bv5): (r: bv32)
    ensures forall j: bv5 :: IsSet(r, j) <==> j == b || IsSet(mask, j)
  {
    var r := mask | ((1 as bv32) << b);
    assert forall j: bv5 :: IsSet(r, j) <==> j == b || IsSet(mask, j) by {
      forall j: bv5
        ensures IsSet(r, j) <==> j == b || IsSet(mask, j)
      {
        SetBit(mask, b, j);
      }
    }
    r
  }

  /** `mask & ~(1 << b)`: bit `b` clear, every other bit as it was. */
  function ClearAt(mask: bv32, b: bv5): (r: bv32)
    ensures forall j: bv5 :: IsSet(r, j) <==> j != b && IsSet(mask, j)
  {
    var r := mask & !((1 as bv32) << b);
    assert forall j: bv5 :: IsSet(r, j) <==> j != b && IsSet(mask, j) by {
      forall j: bv5
        ensures IsSet(r, j) <==> j != b && IsSet(mask, j)
      {
        ClearBit(mask, b, j);
      }
    }
    r
  }

  /** The mousedown listener's `mouseButtons |= (1 << e.button)`. */
  function Press(mask: bv32, button: int): (r: bv32)
    ensures forall j: bv5 :: IsSet(r, j) <==> j == BitIndex(button) || IsSet(mask, j)
  {
    SetAt(mask, BitIndex(button))
  }

  /** The mouseup listener's `mouseButtons &= ~(1 << e.button)`. */
  function Release(mask: bv32, button: int): (r: bv32)
    ensures forall j: bv5 :: IsSet(r, j) <==> j != BitIndex(button) && IsSet(mask, j)
  {
    ClearAt(mask, BitIndex(button))
  }

  /** Releasing a button that was up before it was pressed restores the mask. */
  lemma ReleaseUndoesPress(mask: bv32, button: int)
    requires !IsSet(mask, BitIndex(button))
    ensures Release(Press(mask, button), button) == mask
  {
    ClearUndoesSet(mask, BitIndex(button));
  }

  lemma ClearUndoesSet(mask: bv32, b: bv5)
    requires !IsSet(mask, b)
    ensures ClearAt(SetAt(mask, b), b) == mask
  {
  }

  /** Pressing and releasing different buttons can happen in either order. */
  lemma PressReleaseCommute(mask: bv32, a: int, b: int)
    requires BitIndex(a) != BitIndex(b)
    ensures Release(Press(mask, a), b) == Press(Release(mask, b), a)
  {
    SetClearCommute(mask, BitIndex(a), BitIndex(b));
  }

  lemma SetClearCommute(mask: bv32, a: bv5, b: bv5)
    requires a != b
    ensures ClearAt(SetAt(mask, a), b) == SetAt(ClearAt(mask, b), a)
  {
  }

  /** The listener for one event; each event touches only its own part of the state. */
  function Apply(p: Pointer, ev: Event): (r: Pointer)
    ensures ev.MouseMove? ==> r.x == ev.x && r.y == ev.y && r.buttons == p.buttons && r.wheel == p.wheel
    ensures ev.MouseDown? ==>
      && r.x == p.x && r.y == p.y && r.wheel == p.wheel
      && forall j: bv5 :: IsSet(r.buttons, j) <==> j == BitIndex(ev.button) || IsSet(p.buttons, j)
    ensures ev.MouseUp? ==>
      && r.x == p.x && r.y == p.y && r.wheel == p.wheel
      && forall j: bv5 :: IsSet(r.buttons, j) <==> j != BitIndex(ev.button) && IsSet(p.buttons, j)
    ensures ev.MouseLeave? ==>
      && r.x == p.x && r.y == p.y && r.wheel == p.wheel
      && forall j: bv5 :: !IsSet(r.buttons, j)
    ensures ev.Wheel? ==> r.x == p.x && r.y == p.y && r.buttons == p.buttons && r.wheel == ev.deltaY
  {
    match ev
    case MouseMove(x, y) => p.(x := x, y := y)
    case MouseDown(b) => p.(buttons := Press(p.buttons, b))
    case MouseUp(b) => p.(buttons := Release(p.buttons, b))
    case MouseLeave => p.(buttons := ClearAll())
    case Wheel(dy) => p.(wheel := dy)
  }

  /** The mouseleave listener's `mouseButtons = 0`: no button is down. */
  function ClearAll(): (r: bv32)
    ensures forall j: bv5 :: !IsSet(r, j)
  {
    0
  }
}
