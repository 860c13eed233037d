/**
  One tick of the render loop: run the producer on the current input, consume the
  wheel delta, re-attach the views if the memory grew, then replay the buffer.
 */
module FrameLoop {
  import opened Input
  import opened Views
  import opened Dispatch

  /** The four arguments of the producer's `_frame` entry point. */
  datatype FrameArgs = FrameArgs(x: real, y: real, buttons: bv32, wheel: real)

  /** The host's state between ticks. */
  datatype Host = Host(pointer: Pointer, memory: Memory, views: ViewSet, layout: Layout)

  /** What one tick produced: the next state, what the producer was given, and what was drawn. */
  datatype Tick = Tick(host: Host, args: FrameArgs, trace: seq<DrawOp>)

  /** The views are the ones `createBufferViews` places for this layout. */
  predicate Placed(h: Host) {
    h.views.views == CreateViews(h.memory, h.layout).views
  }

  /**
    The state `init` leaves behind: views built on the memory after `_init`, and the
    pointer state the listeners reached from the zero state while the module was
    loading (they are registered before the fetch).
   */
  function Start(m: Memory, layout: Layout, early: seq<Event>): (h: Host)
    ensures h.memory == m && h.layout == layout
    ensures Placed(h) && Attached(h.views, h.memory)
    ensures h.pointer == ApplyAll(Idle, early)
    ensures early == [] ==> h.pointer == Idle
    ensures (forall k :: 0 <= k < |early| ==> !early[k].Wheel?) ==> h.pointer.wheel == 0.0
  {
    assert (forall k :: 0 <= k < |early| ==> !early[k].Wheel?) ==> ApplyAll(Idle, early).wheel == 0.0 by {
      if forall k :: 0 <= k < |early| ==> !early[k].Wheel? {
        WheelUntouched(Idle, early);
      }
    }
    Host(ApplyAll(Idle, early), m, CreateViews(m, layout), layout)
  }

  /**
    `frame()`. The producer is the compute module's `_frame`: given the input and
    the memory, it returns the memory it leaves behind, possibly grown.
   */
  function Frame(h: Host, produce: (FrameArgs, Memory) -> Memory): (t: Tick)
    ensures t.args == FrameArgs(h.pointer.x, h.pointer.y, h.pointer.buttons, h.pointer.wheel)
    ensures t.host.memory == produce(t.args, h.memory)
    ensures t.host.pointer.wheel == 0.0
    ensures t.host.pointer.x == h.pointer.x && t.host.pointer.y == h.pointer.y
    ensures t.host.pointer.buttons == h.pointer.buttons
    ensures t.host.layout == h.layout
    ensures Attached(t.host.views, t.host.memory)
    ensures t.trace == Render(t.host.memory, t.host.views)
  {
    var args := FrameArgs(h.pointer.x, h.pointer.y, h.pointer.buttons, h.pointer.wheel);
    var m := produce(args, h.memory);
    var p := h.pointer.(wheel := 0.0);
    var vs := Refresh(h.views, m, h.layout);
    Tick(Host(p, m, vs, h.layout), args, Render(m, vs))
  }

  /**
    Refreshing before rendering makes every frame draw what freshly built views
    would draw, whether or not the producer grew the memory; and the views stay placed.
   */
  lemma FrameRendersFreshViews(h: Host, produce: (FrameArgs, Memory) -> Memory)
    requires Placed(h)
    ensures var t := Frame(h, produce);
      && Placed(t.host)
      && t.trace == Render(t.host.memory, CreateViews(t.host.memory, h.layout))
  {
    var t := Frame(h, produce);
    var m := t.host.memory;
    if Attached(h.views, m) {
      assert h.views == CreateViews(m, h.layout);
    }
  }

  /** A wheel delta is reported to exactly one frame: the next frame sees 0 unless a new wheel event came. */
  lemma WheelConsumedOnce(h: Host, produce: (FrameArgs, Memory) -> Memory, between: seq<Event>)
    requires forall k :: 0 <= k < |between| ==> !between[k].Wheel?
    ensures var h1 := Frame(h, produce).host;
      Frame(h1.(pointer := ApplyAll(h1.pointer, between)), produce).args.wheel == 0.0
  {
    WheelUntouched(Frame(h, produce).host.pointer, between);
  }

  /** Events applied in arrival order. */
  function ApplyAll(p: Pointer, events: seq<Event>): Pointer
    decreases |events|
  {
    if events == [] then p else ApplyAll(Apply(p, events[0]), events[1..])
  }

  lemma {:induction false} WheelUntouched(p: Pointer, events: seq<Event>)
    requires forall k :: 0 <= k < |events| ==> !events[k].Wheel?
    ensures ApplyAll(p, events).wheel == p.wheel
    decreases |events|
  {
    if events != [] {
      WheelUntouched(Apply(p, events[0]), events[1..]);
    }
  }
}
