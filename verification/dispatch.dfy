/**
  Replay of one frame's command buffer: an optional clear, then the stream entries
  in index order, each dispatched on its kind to a drawer that reads the kind's
  attribute views at the entry's slot. Drawing is recorded as a trace of abstract
  canvas operations rather than pixels.
 */
module Dispatch {
  import opened Wrappers
  import opened Wire
  import opened Codec
  import opened Palette
  import opened Strings
  import opened Views

  /** One canvas operation, with the values the host hands to the canvas. */
  datatype DrawOp =
    | Clear(color: string)
    | FillRect(slot: nat, x: Option<F32>, y: Option<F32>, w: Option<F32>, h: Option<F32>, color: string)
    | FillCircle(slot: nat, x: Option<F32>, y: Option<F32>, radius: Option<F32>, color: string)
    | StrokeLine(slot: nat, x1: Option<F32>, y1: Option<F32>, x2: Option<F32>, y2: Option<F32>, color: string)
    | FillText(slot: nat, x: Option<F32>, y: Option<F32>, size: Option<i32>, color: string, bytes: seq<u8>)
  {
    /** The command kind tag this operation draws (0 for the clear, which is not a stream command). */
    function Kind(): nat {
      match this
      case Clear(_) => 0
      case FillRect(_, _, _, _, _, _) => KindRect
      case FillCircle(_, _, _, _, _) => KindCircle
      case StrokeLine(_, _, _, _, _, _) => KindLine
      case FillText(_, _, _, _, _, _) => KindText
    }
  }

  /** The clear painted before any command, when the header asks for one. */
  function ClearOps(h: Header): (r: seq<DrawOp>)
    ensures h.hasClear != 0 <==> |r| == 1
    ensures h.hasClear == 0 <==> r == []
    ensures forall k :: 0 <= k < |r| ==> r[k] == Clear(ColorOf(Some(h.clearColor)))
  {
    if h.hasClear != 0 then [Clear(ColorOf(Some(h.clearColor)))] else []
  }

  /** `cmdStream[c]`, read through the current views. */
  function StreamRead(m: Memory, vs: ViewSet, c: nat): Option<u16> {
    Read(vs, m, m.contents.stream, c)
  }

  /** The decoded entries the render loop visits: `c = 0 .. cmd_count - 1`, in order. */
  function Entries(m: Memory, vs: ViewSet): (es: seq<Entry>)
    ensures |es| == m.header.cmdCount as int
    ensures forall c :: 0 <= c < |es| ==> es[c] == DecodeRead(StreamRead(m, vs, c))
  {
    seq(m.header.cmdCount as int, c requires 0 <= c => DecodeRead(StreamRead(m, vs, c)))
  }

  /**
    The `switch (type)` of the render loop: the operation one entry draws, or
    nothing for a kind with no case. Through detached views a text entry gets no
    bytes here, where JavaScript's `subarray` would throw; `Render` never asks,
    since a detached stream read decodes to kind 0.
   */
  function Op(m: Memory, vs: ViewSet, e: Entry): (r: Option<DrawOp>)
    ensures r.Some? <==> Known(e.kind)
    ensures r.Some? ==> !r.value.Clear? && r.value.slot == e.slot && r.value.Kind() == e.kind
  {
    var c, i := m.contents, e.slot;
    if e.kind == KindRect then
      Some(FillRect(i, Read(vs, m, c.rects.x, i), Read(vs, m, c.rects.y, i),
                    Read(vs, m, c.rects.w, i), Read(vs, m, c.rects.h, i),
                    ColorOf(Read(vs, m, c.rects.color, i))))
    else if e.kind == KindCircle then
      Some(FillCircle(i, Read(vs, m, c.circles.x, i), Read(vs, m, c.circles.y, i),
                      Read(vs, m, c.circles.radius, i),
                      ColorOf(Read(vs, m, c.circles.color, i))))
    else if e.kind == KindLine then
      Some(StrokeLine(i, Read(vs, m, c.lines.x1, i), Read(vs, m, c.lines.y1, i),
                      Read(vs, m, c.lines.x2, i), Read(vs, m, c.lines.y2, i),
                      ColorOf(Read(vs, m, c.lines.color, i))))
    else if e.kind == KindText then
      Some(FillText(i, Read(vs, m, c.texts.x, i), Read(vs, m, c.texts.y, i),
                    Read(vs, m, c.texts.size, i),
                    ColorOf(Read(vs, m, c.texts.color, i)),
                    Slice(Exposed(vs, m, c.strings),
                          Read(vs, m, c.texts.strOffset, i), Read(vs, m, c.texts.strLen, i))))
    else
      None
  }

  /** The operations of an entry, as a trace fragment of length 0 or 1. */
  function OpsOf(m: Memory, vs: ViewSet, e: Entry): seq<DrawOp> {
    var op := Op(m, vs, e);
    if op.Some? then [op.value] else []
  }

  /** The operations drawn for a run of stream entries, in the entries' order. */
  function Replay(m: Memory, vs: ViewSet, es: seq<Entry>): (r: seq<DrawOp>)
    ensures |r| <= |es|
    ensures forall k :: 0 <= k < |r| ==> !r[k].Clear? && Known(r[k].Kind())
    decreases |es|
  {
    if es == [] then []
    else Replay(m, vs, es[..|es| - 1]) + OpsOf(m, vs, es[|es| - 1])
  }

  /** `render()`: the clear, if any, then every stream entry's operation. */
  function Render(m: Memory, vs: ViewSet): (r: seq<DrawOp>)
    ensures m.header.hasClear != 0 ==> |r| >= 1 && r[0] == Clear(ColorOf(Some(m.header.clearColor)))
    ensures forall k :: 0 <= k < |r| && r[k].Clear? ==> k == 0 && m.header.hasClear != 0
    ensures |r| <= m.header.cmdCount as int + (if m.header.hasClear != 0 then 1 else 0)
  {
    ClearOps(m.header) + Replay(m, vs, Entries(m, vs))
  }
}
