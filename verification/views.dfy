/**
  The shared region as the host sees it, and the set of typed views the host keeps
  into it. The backing storage is identified by a generation number: growing the
  memory replaces the storage (a new generation), which detaches every old view.
 */
module Views {
  import opened Wrappers
  import opened Wire

  /** The fixed-offset header fields, already decoded from their little-endian bytes. */
  datatype Header = Header(
    hasClear: u8,
    clearColor: u8,
    cmdCount: u32,
    rectCount: u32,
    circleCount: u32,
    lineCount: u32,
    textCount: u32)

  /** Fields-of-arrays for each command kind, all indexed by the same slot. */
  datatype RectArrays = RectArrays(x: seq<F32>, y: seq<F32>, w: seq<F32>, h: seq<F32>, color: seq<u8>)
  datatype CircleArrays = CircleArrays(x: seq<F32>, y: seq<F32>, radius: seq<F32>, color: seq<u8>)
  datatype LineArrays = LineArrays(x1: seq<F32>, y1: seq<F32>, x2: seq<F32>, y2: seq<F32>, color: seq<u8>)
  datatype TextArrays = TextArrays(
    x: seq<F32>, y: seq<F32>, size: seq<i32>, color: seq<u8>, strOffset: seq<u16>, strLen: seq<u16>)

  /** What each view sees: the elements stored at its field's place in the region. */
  datatype Contents = Contents(
    stream: seq<u16>,
    rects: RectArrays,
    circles: CircleArrays,
    lines: LineArrays,
    texts: TextArrays,
    strings: seq<u8>)

  /** Every field holds exactly its view's fixed capacity of elements. */
  predicate Fits(c: Contents) {
    && |c.stream| == MaxCommands
    && |c.rects.x| == |c.rects.y| == |c.rects.w| == |c.rects.h| == |c.rects.color| == MaxRects
    && |c.circles.x| == |c.circles.y| == |c.circles.radius| == |c.circles.color| == MaxCircles
    && |c.lines.x1| == |c.lines.y1| == |c.lines.x2| == |c.lines.y2| == |c.lines.color| == MaxLines
    && |c.texts.x| == |c.texts.y| == |c.texts.size| == |c.texts.color| == MaxTexts
    && |c.texts.strOffset| == |c.texts.strLen| == MaxTexts
    && |c.strings| == MaxStringBytes
  }

  type Region = c: Contents | Fits(c) witness BlankRegion

  const BlankRegion: Contents := Contents(
    seq(MaxCommands, _ => 0),
    RectArrays(seq(MaxRects, _ => F32(0)), seq(MaxRects, _ => F32(0)), seq(MaxRects, _ => F32(0)),
               seq(MaxRects, _ => F32(0)), seq(MaxRects, _ => 0)),
    CircleArrays(seq(MaxCircles, _ => F32(0)), seq(MaxCircles, _ => F32(0)), seq(MaxCircles, _ => F32(0)),
                 seq(MaxCircles, _ => 0)),
    LineArrays(seq(MaxLines, _ => F32(0)), seq(MaxLines, _ => F32(0)), seq(MaxLines, _ => F32(0)),
               seq(MaxLines, _ => F32(0)), seq(MaxLines, _ => 0)),
    TextArrays(seq(MaxTexts, _ => F32(0)), seq(MaxTexts, _ => F32(0)), seq(MaxTexts, _ => 0),
               seq(MaxTexts, _ => 0), seq(MaxTexts, _ => 0), seq(MaxTexts, _ => 0)),
    seq(MaxStringBytes, _ => 0))

  /** The producer's linear memory: which backing storage is current, and what it holds. */
  datatype Memory = Memory(generation: nat, header: Header, contents: Region)

  /** `memory.grow()`: new backing storage holding the same bytes. */
  function Grow(m: Memory): (r: Memory)
    ensures r.generation != m.generation
    ensures r.header == m.header && r.contents == m.contents
  {
    m.(generation := m.generation + 1)
  }

  /** Where the host finds the command buffer: its base pointer and each field's byte offset. */
  datatype Layout = Layout(base: int, offsets: ArrayField -> int)

  /** One typed view: its first byte, its element count and its element type. */
  datatype View = View(start: int, length: nat, elem: ElemType)

  /** The host's views, together with the generation of the storage they were built on. */
  datatype ViewSet = ViewSet(generation: nat, views: map<ArrayField, View>)

  /** A view set reads live data only while its storage is the current one. */
  predicate Attached(vs: ViewSet, m: Memory) {
    vs.generation == m.generation
  }

  /** The view `createBufferViews` builds for one field. */
  function Place(layout: Layout, f: ArrayField): View {
    View(layout.base + layout.offsets(f), Capacity(f.GroupOf()), f.Elem())
  }

  /**
    `createBufferViews`: one view per field at `base + OFFSETS[field]`, covering the
    field's fixed capacity, and a record of the storage it was built on.
   */
  function CreateViews(m: Memory, layout: Layout): (vs: ViewSet)
    ensures Attached(vs, m)
    ensures forall f: ArrayField :: f in vs.views
    ensures forall f :: f in vs.views ==>
      && vs.views[f].start == layout.base + layout.offsets(f)
      && vs.views[f].length == Capacity(f.GroupOf())
      && vs.views[f].elem == f.Elem()
  {
    var vs := ViewSet(m.generation, map f | f in ArrayFields :: Place(layout, f));
    assert forall f: ArrayField :: f in vs.views by {
      forall f: ArrayField
        ensures f in vs.views
      {
        ArrayFieldsComplete(f);
      }
    }
    vs
  }

  /**
    `refreshBufferViews`: rebuild exactly when the current storage is not the one
    the views were built on.
   */
  function Refresh(vs: ViewSet, m: Memory, layout: Layout): (r: ViewSet)
    ensures Attached(r, m)
    ensures r == vs <==> Attached(vs, m)
    ensures !Attached(vs, m) ==> r == CreateViews(m, layout)
  {
    if vs.generation != m.generation then CreateViews(m, layout) else vs
  }

  /** Refreshing twice is refreshing once. */
  lemma RefreshIdempotent(vs: ViewSet, m: Memory, layout: Layout)
    ensures Refresh(Refresh(vs, m, layout), m, layout) == Refresh(vs, m, layout)
  {
  }

  /**
    The views' extent never depends on what the producer wrote: two memories on
    the same storage give the same views, whatever their headers' counts say.
   */
  lemma ViewsIgnoreCounts(m1: Memory, m2: Memory, layout: Layout)
    requires m1.generation == m2.generation
    ensures CreateViews(m1, layout) == CreateViews(m2, layout)
  {
  }

  /** Each view covers its kind's fixed capacity: 2048, 1024, 512, 512, 256 or 8192 elements. */
  lemma ViewLengths(m: Memory, layout: Layout, f: ArrayField)
    ensures f in CreateViews(m, layout).views
    ensures CreateViews(m, layout).views[f].length ==
      match f.GroupOf()
      case Stream => 2048
      case Rects => 1024
      case Circles => 512
      case Lines => 512
      case Texts => 256
      case StringTable => 8192
  {
    ArrayFieldsComplete(f);
  }

  /** The attribute views of one kind share their length, so a slot is in range for all or none. */
  lemma SameKindSameLength(m: Memory, layout: Layout, f: ArrayField, g: ArrayField)
    requires f.GroupOf() == g.GroupOf()
    ensures f in CreateViews(m, layout).views && g in CreateViews(m, layout).views
    ensures CreateViews(m, layout).views[f].length == CreateViews(m, layout).views[g].length
  {
    ArrayFieldsComplete(f);
    ArrayFieldsComplete(g);
  }

  /**
    Reading element `i` through a view on `s`: a detached view has length 0, and a
    read past the length is `undefined`.
   */
  function Read<T>(vs: ViewSet, m: Memory, s: seq<T>, i: nat): (r: Option<T>)
    ensures r.Some? <==> Attached(vs, m) && i < |s|
    ensures r.Some? ==> r.value == s[i]
  {
    if Attached(vs, m) && i < |s| then Some(s[i]) else None
  }

  /** The elements a view exposes: all of them while attached, none once detached. */
  function Exposed<T>(vs: ViewSet, m: Memory, s: seq<T>): (r: seq<T>)
    ensures Attached(vs, m) ==> r == s
    ensures !Attached(vs, m) ==> r == []
  {
    if Attached(vs, m) then s else []
  }
}
