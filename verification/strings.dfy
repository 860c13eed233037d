/** The string table: text payloads are `(offset, length)` windows into one byte region. */
module Strings {
  import opened Wrappers
  import opened Wire

  /** The smaller of two integers. */
  function Min(a: int, b: int): int {
    if a <= b then a else b
  }

  /**
    `stringBuffer.subarray(strOff, strOff + strLen)` where each of the two Uint16Array
    reads may be `undefined`. subarray clamps both ends to the view's length and
    returns an empty view when the end falls before the start. An absent offset
    counts as 0, and an absent operand makes the end `NaN`, which counts as 0.
   */
  function Slice(table: seq<u8>, offset: Option<u16>, length: Option<u16>): (r: seq<u8>)
    ensures offset.None? || length.None? ==> r == []
    ensures offset.Some? && length.Some? ==>
      && |r| == (if offset.value as int >= |table| then 0
                 else Min(length.value as int, |table| - offset.value as int))
      && forall k :: 0 <= k < |r| ==> offset.value as int + k < |table| && r[k] == table[offset.value as int + k]
  {
    var first := if offset.Some? then Min(offset.value as int, |table|) else 0;
    var last := if offset.Some? && length.Some? then Min(offset.value as int + length.value as int, |table|) else 0;
    if first <= last then table[first..last] else []
  }

  /** A window inside the table is exactly those bytes. */
  lemma SliceInBounds(table: seq<u8>, offset: u16, length: u16)
    requires offset as int + length as int <= |table|
    ensures Slice(table, Some(offset), Some(length)) == table[offset..offset as int + length as int]
  {
  }

  /** A window that starts at or past the end is empty, not an error. */
  lemma SlicePastEnd(table: seq<u8>, offset: u16, length: u16)
    requires offset as int >= |table|
    ensures Slice(table, Some(offset), Some(length)) == []
  {
  }
}
