/** The 13-entry colour palette and the host's `COLORS[i] || '#000000'` lookup. */
module Palette {
  import opened Wrappers
  import opened Wire

  const Black: string := "#000000"

  /** The producer's colour enumeration, in its alphabetical order. */
  const Colors: seq<string> := [
    "#000000", // Black
    "#0000ff", // Blue
    "#505050", // DarkGray
    "#808080", // Gray
    "#00ff00", // Green
    "#c0c0c0", // LightGray
    "#ffa500", // Orange
    "#ffc0cb", // Pink
    "#800080", // Purple
    "#f5f5f5", // RayWhite
    "#ff0000", // Red
    "#ffffff", // White
    "#ffff00"  // Yellow
  ]

  /**
    The colour for an index read from a Uint8Array. An index past the palette
    (or an absent read) gives `undefined`, which `|| '#000000'` turns into black;
    every palette entry is a non-empty string, so no entry is replaced.
   */
  function ColorOf(index: Option<u8>): (c: string)
    ensures c in Colors
    ensures index.Some? && (index.value as int) < |Colors| ==> c == Colors[index.value]
    ensures index.None? || (index.value as int) >= |Colors| ==> c == Black
  {
    if index.Some? && (index.value as int) < |Colors| then Colors[index.value] else Black
  }

  /** The palette index that names a colour, if any: the partner of `ColorOf`. */
  function IndexOf(c: string): (r: Option<nat>)
    ensures r.Some? ==> r.value < |Colors| && Colors[r.value] == c
    ensures r.None? ==> c !in Colors
  {
    IndexFrom(c, 0)
  }

  function IndexFrom(c: string, i: nat): (r: Option<nat>)
    requires i <= |Colors|
    ensures r.Some? ==> i <= r.value < |Colors| && Colors[r.value] == c
    ensures r.None? ==> forall j :: i <= j < |Colors| ==> Colors[j] != c
    decreases |Colors| - i
  {
    if i == |Colors| then None
    else if Colors[i] == c then Some(i)
    else IndexFrom(c, i + 1)
  }

  /** No two palette entries are the same colour. */
  lemma PaletteDistinct(i: nat, j: nat)
    requires i < j < |Colors|
    ensures Colors[i] != Colors[j]
  {
  }

  /** Every in-range index round-trips through its colour, so distinct indices paint distinctly. */
  lemma ColorIndexRoundTrip(i: u8)
    requires (i as int) < |Colors|
    ensures IndexOf(ColorOf(Some(i))) == Some(i as nat)
  {
    var r := IndexOf(ColorOf(Some(i)));
    if r.value != i as nat {
      if r.value < i as nat {
        PaletteDistinct(r.value, i as nat);
      } else {
        PaletteDistinct(i as nat, r.value);
      }
    }
  }
}
