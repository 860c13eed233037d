/** The command-stream code: a 4-bit kind tag over a 12-bit slot index in one 16-bit word. */
module Codec {
  import opened Wrappers
  import opened Wire
  import opened Bits

  /** One decoded stream entry: which per-kind arrays to read, and at which slot. */
  datatype Entry = Entry(kind: nat, slot: nat)

  /** The kinds the host knows how to draw; any other tag is skipped. */
  predicate Known(kind: nat) {
    KindRect <= kind <= KindText
  }

  /** `type = cmd >> 12; idx = cmd & 0xFFF` on a Uint16Array element. */
  function Decode(code: u16): (e: Entry)
    ensures e.kind < 16 && e.slot < 4096
    ensures e.kind * 4096 + e.slot == code as int
  {
    ShiftRightIsDiv(code as nat, 12);
    BitAndLowMask(code as nat, 12);
    Entry(ShiftRight(code as nat, 12), BitAnd(code as nat, 0xFFF))
  }

  /**
    Decoding of a stream read. A read past the view's length yields `undefined`,
    and both `undefined >> 12` and `undefined & 0xFFF` are 0: kind 0, never drawn.
   */
  function DecodeRead(cmd: Option<u16>): (e: Entry)
    ensures cmd.None? ==> e == Entry(0, 0) && !Known(e.kind)
    ensures cmd.Some? ==> e.kind * 4096 + e.slot == cmd.value as int
  {
    match cmd
    case None => Entry(0, 0)
    case Some(code) => Decode(code)
  }

  /** The producer's packing `(kind << 12) | (slot & 0xFFF)`. */
  function Encode(kind: nat, slot: nat): (code: u16)
    requires kind < 16
    ensures code as int == kind * 4096 + slot % 4096
  {
    ShiftLeftIsMul(kind, 12);
    BitAndLowMask(slot, 12);
    BitOrDisjoint(kind, slot % 4096, 12);
    BitOr(ShiftLeft(kind, 12), BitAnd(slot, 0xFFF)) as u16
  }

  /** Decoding undoes the producer's packing for every tag and slot that fit the code. */
  lemma DecodeEncode(kind: nat, slot: nat)
    requires kind < 16 && slot < 4096
    ensures Decode(Encode(kind, slot)) == Entry(kind, slot)
  {
    DivModUnique(slot, 4096, 0, slot);
    var code := Encode(kind, slot);
    assert code as int == kind * 4096 + slot;
    var e := Decode(code);
    DivModUnique(code as int, 4096, e.kind, e.slot);
    DivModUnique(code as int, 4096, kind, slot);
  }

  /** Decoding loses nothing: every 16-bit code is the packing of its decoded parts. */
  lemma EncodeDecode(code: u16)
    ensures Encode(Decode(code).kind, Decode(code).slot) == code
  {
  }
}
