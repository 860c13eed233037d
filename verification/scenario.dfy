/**
  The producer self-test the CI harness inspects: a blue clear, then one rect,
  one circle, one line and the text "Test", emitted in that order.
 */
module Scenario {
  import opened Wrappers
  import opened Wire
  import opened Codec
  import opened Palette
  import opened Strings
  import opened Views
  import opened Dispatch
  import opened Order

  /** Float32 bit patterns of the coordinates the self-test writes. */
  const F10: F32 := F32(0x4120_0000)
  const F30: F32 := F32(0x41F0_0000)
  const F50: F32 := F32(0x4248_0000)
  const F100: F32 := F32(0x42C8_0000)
  const F200: F32 := F32(0x4348_0000)
  const F300: F32 := F32(0x4396_0000)
  const F400: F32 := F32(0x43C8_0000)

  /** "Test" in UTF-8. */
  const TestBytes: seq<u8> := [0x54, 0x65, 0x73, 0x74]

  /** A capacity-long array holding `v` in slot 0 and `zero` elsewhere. */
  function First<T>(n: nat, v: T, zero: T): (s: seq<T>)
    ensures |s| == n
    ensures n > 0 ==> s[0] == v
  {
    seq(n, i => if i == 0 then v else zero)
  }

  function SelfTestContents(): (c: Contents)
    ensures Fits(c)
  {
    Contents(
      seq(MaxCommands, i => if 0 <= i < 4 then ((i + 1) * 4096) as u16 else 0),
      RectArrays(First(MaxRects, F10, F32(0)), First(MaxRects, F10, F32(0)),
                 First(MaxRects, F100, F32(0)), First(MaxRects, F50, F32(0)), First(MaxRects, 10, 0)),
      CircleArrays(First(MaxCircles, F200, F32(0)), First(MaxCircles, F100, F32(0)),
                   First(MaxCircles, F30, F32(0)), First(MaxCircles, 4, 0)),
      LineArrays(First(MaxLines, F300, F32(0)), First(MaxLines, F10, F32(0)),
                 First(MaxLines, F400, F32(0)), First(MaxLines, F100, F32(0)), First(MaxLines, 12, 0)),
      TextArrays(First(MaxTexts, F10, F32(0)), First(MaxTexts, F200, F32(0)), First(MaxTexts, 32, 0),
                 First(MaxTexts, 11, 0), First(MaxTexts, 0, 0), First(MaxTexts, 4, 0)),
      seq(MaxStringBytes, i => if 0 <= i < 4 then TestBytes[i] else 0))
  }

  /** The memory after the self-test: clear colour 1 (Blue), four commands, one of each kind. */
  function SelfTestMemory(generation: nat): Memory {
    Memory(generation, Header(1, 1, 4, 1, 1, 1, 1), SelfTestContents())
  }

  /** The stream decodes as rect 0, circle 0, line 0, text 0, in that order. */
  lemma SelfTestStreamOrder(generation: nat, vs: ViewSet)
    requires Attached(vs, SelfTestMemory(generation))
    ensures Entries(SelfTestMemory(generation), vs) ==
      [Entry(KindRect, 0), Entry(KindCircle, 0), Entry(KindLine, 0), Entry(KindText, 0)]
  {
    var m := SelfTestMemory(generation);
    var es := Entries(m, vs);
    forall c | 0 <= c < 4
      ensures es[c] == Entry(c + 1, 0)
    {
      assert StreamRead(m, vs, c) == Some(Encode(c + 1, 0));
      DecodeEncode(c + 1, 0);
    }
  }

  /** The operations the four self-test commands draw, in stream order. */
  const SelfTestOps: seq<DrawOp> := [
    FillRect(0, Some(F10), Some(F10), Some(F100), Some(F50), "#ff0000"),
    FillCircle(0, Some(F200), Some(F100), Some(F30), "#00ff00"),
    StrokeLine(0, Some(F300), Some(F10), Some(F400), Some(F100), "#ffff00"),
    FillText(0, Some(F10), Some(F200), Some(32), "#ffffff", TestBytes)]

  /** Each self-test command, dispatched on its own. */
  lemma SelfTestOp(generation: nat, vs: ViewSet, k: nat)
    requires Attached(vs, SelfTestMemory(generation))
    requires k < 4
    ensures Op(SelfTestMemory(generation), vs, Entry(k + 1, 0)) == Some(SelfTestOps[k])
  {
    var m := SelfTestMemory(generation);
    if k == 3 {
      SliceInBounds(m.contents.strings, 0, 4);
      assert m.contents.strings[0..4] == TestBytes;
    }
  }

  /**
    Replaying the self-test paints the blue clear, the red rect at (10,10) size
    (100,50), the green circle at (200,100) radius 30, the yellow line from
    (300,10) to (400,100), and the white 32px text "Test" at (10,200).
   */
  lemma SelfTestRender(generation: nat, vs: ViewSet)
    requires Attached(vs, SelfTestMemory(generation))
    ensures Render(SelfTestMemory(generation), vs) == [Clear("#0000ff")] + SelfTestOps
  {
    var m := SelfTestMemory(generation);
    var es := Entries(m, vs);
    SelfTestStreamOrder(generation, vs);
    ReplayFollowsStream(m, vs, es);
    var ps, r := KnownPositions(es), Replay(m, vs, es);
    AllKnownPositions(es);
    forall k | 0 <= k < 4
      ensures r[k] == SelfTestOps[k]
    {
      assert es[ps[k]] == Entry(k + 1, 0);
      SelfTestOp(generation, vs, k);
    }
    assert r == SelfTestOps;
    assert ClearOps(m.header) == [Clear("#0000ff")];
  }
}
