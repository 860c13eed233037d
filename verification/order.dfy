/**
  What the replay promises about order: the trace after the clear is the stream's
  known entries, one operation each, in stream order; unknown entries vanish; and
  only attachment of the views, not their identity, matters to what is drawn.
 */
module Order {
  import opened Wrappers
  import opened Wire
  import opened Codec
  import opened Palette
  import opened Strings
  import opened Views
  import opened Dispatch

  /** The stream positions that draw something, in increasing order. */
  function KnownPositions(es: seq<Entry>): (ps: seq<nat>)
    ensures forall k :: 0 <= k < |ps| ==> ps[k] < |es| && Known(es[ps[k]].kind)
    ensures forall k, l :: 0 <= k < l < |ps| ==> ps[k] < ps[l]
    ensures forall j :: 0 <= j < |es| && Known(es[j].kind) ==> j in ps
    decreases |es|
  {
    if es == [] then []
    else
      var init := es[..|es| - 1];
      var ps := KnownPositions(init);
      assert forall k :: 0 <= k < |ps| ==> es[ps[k]] == init[ps[k]];
      if Known(es[|es| - 1].kind) then ps + [|es| - 1] else ps
  }

  /** When every entry has a known kind, every position draws. */
  lemma {:induction false} AllKnownPositions(es: seq<Entry>)
    requires forall j :: 0 <= j < |es| ==> Known(es[j].kind)
    ensures KnownPositions(es) == seq(|es|, j => j)
    decreases |es|
  {
    if es != [] {
      var init := es[..|es| - 1];
      AllKnownPositions(init);
      assert seq(|init|, j => j) + [|es| - 1] == seq(|es|, j => j);
    }
  }

  /** Replaying a concatenation replays each part in turn. */
  lemma {:induction false} ReplayAppend(m: Memory, vs: ViewSet, a: seq<Entry>, b: seq<Entry>)
    ensures Replay(m, vs, a + b) == Replay(m, vs, a) + Replay(m, vs, b)
    decreases |b|
  {
    if b == [] {
      assert a + b == a;
    } else {
      var b' := b[..|b| - 1];
      assert (a + b)[..|a + b| - 1] == a + b';
      assert (a + b)[|a + b| - 1] == b[|b| - 1];
      ReplayAppend(m, vs, a, b');
    }
  }

  /**
    Stream order is paint order: the k-th replayed operation is the operation of
    the k-th known entry, and every known entry is replayed exactly once.
   */
  lemma {:induction false} ReplayFollowsStream(m: Memory, vs: ViewSet, es: seq<Entry>)
    ensures |Replay(m, vs, es)| == |KnownPositions(es)|
    ensures forall k :: 0 <= k < |KnownPositions(es)| ==>
      Op(m, vs, es[KnownPositions(es)[k]]) == Some(Replay(m, vs, es)[k])
    decreases |es|
  {
    if es != [] {
      var init, last := es[..|es| - 1], es[|es| - 1];
      ReplayFollowsStream(m, vs, init);
      var ps, r := KnownPositions(init), Replay(m, vs, init);
      assert Replay(m, vs, es) == r + OpsOf(m, vs, last);
      forall k | 0 <= k < |ps|
        ensures Op(m, vs, es[ps[k]]) == Some(Replay(m, vs, es)[k])
      {
        assert es[ps[k]] == init[ps[k]];
      }
    }
  }

  /** Removing an entry of unknown kind changes nothing in the replay. */
  lemma SkipUnknown(m: Memory, vs: ViewSet, before: seq<Entry>, e: Entry, after: seq<Entry>)
    requires !Known(e.kind)
    ensures Replay(m, vs, before + [e] + after) == Replay(m, vs, before + after)
  {
    assert [e][..0] == [];
    assert Replay(m, vs, [e]) == Replay(m, vs, []) + OpsOf(m, vs, e) == [];
    ReplayAppend(m, vs, before, [e]);
    ReplayAppend(m, vs, before + [e], after);
    ReplayAppend(m, vs, before, after);
  }

  /** A run of unknown entries draws nothing. */
  lemma {:induction false} UnknownDrawsNothing(m: Memory, vs: ViewSet, es: seq<Entry>)
    requires forall k :: 0 <= k < |es| ==> !Known(es[k].kind)
    ensures Replay(m, vs, es) == []
    decreases |es|
  {
    if es != [] {
      UnknownDrawsNothing(m, vs, es[..|es| - 1]);
    }
  }

  /**
    The render trace is the clear, if any, followed by exactly the operations of
    the known entries among `cmdStream[0 .. cmd_count)`, in stream order.
   */
  lemma RenderFollowsStream(m: Memory, vs: ViewSet)
    ensures var r, es := Render(m, vs), Entries(m, vs);
      var ps, skip := KnownPositions(es), |ClearOps(m.header)|;
      && |r| == skip + |ps|
      && forall k :: 0 <= k < |ps| ==> Op(m, vs, es[ps[k]]) == Some(r[skip + k])
  {
    ReplayFollowsStream(m, vs, Entries(m, vs));
  }

  /**
    `cmdStream` has 2048 elements; reads past it are `undefined`, decode to kind 0
    and are skipped, so a larger `cmd_count` draws what 2048 would.
   */
  lemma OverlongCountSkipped(m: Memory, vs: ViewSet)
    requires m.header.cmdCount as int > MaxCommands
    ensures Render(m, vs) == ClearOps(m.header) + Replay(m, vs, Entries(m, vs)[..MaxCommands])
  {
    var es := Entries(m, vs);
    var tail := es[MaxCommands..];
    forall k | 0 <= k < |tail|
      ensures !Known(tail[k].kind)
    {
      assert tail[k] == DecodeRead(StreamRead(m, vs, MaxCommands + k));
    }
    UnknownDrawsNothing(m, vs, tail);
    assert es == es[..MaxCommands] + tail;
    ReplayAppend(m, vs, es[..MaxCommands], tail);
  }

  /**
    Views built on replaced storage are detached: every stream read is `undefined`,
    so a render through them paints the clear and nothing else.
   */
  lemma StaleViewsDrawOnlyClear(m: Memory, vs: ViewSet)
    requires !Attached(vs, m)
    ensures Render(m, vs) == ClearOps(m.header)
  {
    var es := Entries(m, vs);
    UnknownDrawsNothing(m, vs, es);
  }

  /** What is drawn depends on the contents and on whether the views are attached, nothing else. */
  lemma {:induction false} ReplayDependsOnAttachment(
    m1: Memory, vs1: ViewSet, m2: Memory, vs2: ViewSet, es: seq<Entry>)
    requires m1.contents == m2.contents
    requires Attached(vs1, m1) == Attached(vs2, m2)
    ensures Replay(m1, vs1, es) == Replay(m2, vs2, es)
    decreases |es|
  {
    if es != [] {
      ReplayDependsOnAttachment(m1, vs1, m2, vs2, es[..|es| - 1]);
    }
  }

  /**
    After the memory grows, rebuilt views read the same values as the old views
    did before the growth, so the frame renders identically.
   */
  lemma GrowthKeepsRender(m: Memory, vs: ViewSet, layout: Layout)
    requires Attached(vs, m)
    ensures Render(Grow(m), Refresh(vs, Grow(m), layout)) == Render(m, vs)
  {
    var g := Grow(m);
    var vs' := Refresh(vs, g, layout);
    assert Entries(g, vs') == Entries(m, vs);
    ReplayDependsOnAttachment(g, vs', m, vs, Entries(m, vs));
  }

  /** The colour index view read by each kind's drawer. */
  function ColorView(c: Contents, kind: nat): seq<u8> {
    if kind == KindRect then c.rects.color
    else if kind == KindCircle then c.circles.color
    else if kind == KindLine then c.lines.color
    else c.texts.color
  }

  /**
    Every drawer maps its colour index through the palette, and an index of 13 or
    more, or a slot past the kind's capacity, paints black.
   */
  lemma OpColor(m: Memory, vs: ViewSet, e: Entry)
    requires Known(e.kind)
    ensures var op, idx := Op(m, vs, e), Read(vs, m, ColorView(m.contents, e.kind), e.slot);
      && op.value.color == ColorOf(idx)
      && (idx.None? || idx.value >= 13 ==> op.value.color == "#000000")
  {
  }

  /**
    A text operation carries the string-table bytes `[off, off + len)` of its slot,
    clamped to the table; a slot past the text capacity carries no bytes.
   */
  lemma TextPayload(m: Memory, vs: ViewSet, e: Entry)
    requires e.kind == KindText && Attached(vs, m)
    ensures var t := m.contents.texts;
      e.slot < MaxTexts ==>
        Op(m, vs, e).value.bytes == Slice(m.contents.strings, Some(t.strOffset[e.slot]), Some(t.strLen[e.slot]))
    ensures e.slot >= MaxTexts ==> Op(m, vs, e).value.bytes == []
  {
  }

  /**
    Each drawer reads its own kind's fields-of-arrays at the entry's slot: through
    attached views a slot below the kind's capacity reads that element, and any
    other read is `undefined`.
   */
  lemma DrawerReadsSlot(m: Memory, vs: ViewSet, e: Entry)
    requires Known(e.kind)
    ensures var c, i, a := m.contents, e.slot, Attached(vs, m);
      match Op(m, vs, e).value
      case FillRect(_, x, y, w, h, _) =>
        && e.kind == KindRect
        && (a && i < MaxRects ==>
              x == Some(c.rects.x[i]) && y == Some(c.rects.y[i])
              && w == Some(c.rects.w[i]) && h == Some(c.rects.h[i]))
        && (!a || i >= MaxRects ==> x == y == w == h == None)
      case FillCircle(_, x, y, r, _) =>
        && e.kind == KindCircle
        && (a && i < MaxCircles ==>
              x == Some(c.circles.x[i]) && y == Some(c.circles.y[i]) && r == Some(c.circles.radius[i]))
        && (!a || i >= MaxCircles ==> x == y == r == None)
      case StrokeLine(_, x1, y1, x2, y2, _) =>
        && e.kind == KindLine
        && (a && i < MaxLines ==>
              x1 == Some(c.lines.x1[i]) && y1 == Some(c.lines.y1[i])
              && x2 == Some(c.lines.x2[i]) && y2 == Some(c.lines.y2[i]))
        && (!a || i >= MaxLines ==> x1 == y1 == x2 == y2 == None)
      case FillText(_, x, y, size, _, _) =>
        && e.kind == KindText
        && (a && i < MaxTexts ==>
              x == Some(c.texts.x[i]) && y == Some(c.texts.y[i]) && size == Some(c.texts.size[i]))
        && (!a || i >= MaxTexts ==> x == y == None && size == None)
      case Clear(_) => false
  {
  }
}
