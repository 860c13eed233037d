# Command-buffer host: a verified model

This project models the consumer side of the per-frame draw-command protocol of a
web platform host. Each frame a compute module (the producer) fills a fixed-layout
command buffer in its linear memory. The JavaScript host then replays that buffer
onto a 2D canvas. The buffer holds a small header (`has_clear`, `clear_color`,
`cmd_count` and one count per kind), fixed-capacity fields-of-arrays for rects,
circles, lines and texts, a stream of 16-bit command codes that fixes the paint
order, and an 8192-byte string table.

The model covers:

- the command-code split into a 4-bit kind and a 12-bit slot (`Codec`), with
  JavaScript's `>>`, `&`, `|` and `<<` written bit by bit (`Bits`);
- the 13-colour palette with its black fallback (`Palette`);
- text payloads as clamped `subarray` windows of the string table (`Strings`);
- the shared region, the typed view set and its rebuild on memory growth (`Views`).
  The identity of the backing `ArrayBuffer` is a generation number;
- `render` as a pure function from memory and views to a trace of abstract canvas
  operations (`Dispatch`), with its ordering, skipping and growth properties (`Order`);
- the pointer state and the button bitmask listeners (`Input`);
- the `frame` step: producer call, wheel reset, view refresh, render (`FrameLoop`);
- the values the CI self-test expects, replayed through the model (`Scenario`).

Modelling choices:

- Typed-array reads return `Option`. `None` stands for `undefined`, which is what
  a read past the view's length gives. A view on a detached buffer (one replaced
  by `memory.grow`) has length 0, so every read through it is `None`.
- `undefined >> 12` and `undefined & 0xFFF` are both 0. So a stream read past
  2048 entries, or through detached views, decodes to kind 0 and draws nothing.
- Coordinates are Float32 bit patterns that are passed on untouched. Text is the
  byte slice handed to `TextDecoder`.
- The producer's `_frame` is a function parameter from the frame arguments and the
  memory to the memory it leaves behind. Growth shows up as a new generation.

The host code does not check the producer's values. For the stream, the palette
and the string table it has a defined fallback, and the model follows it:

- An out-of-range text window is clamped by `subarray`, so it yields fewer bytes or none.
- A colour index outside the palette paints black.
- A slot index past its kind's capacity reads `undefined` values, which are handed
  to the canvas unchanged.

The one exception is the circle radius, which reaches `arc` unchecked. A negative
radius makes `arc` throw, and that is not modelled (see "Left out").

## Model

| member | source | states |
|---|---|---|
| `Codec.Decode` | platform/web/host.js:325-327 | the kind is below 16, the slot below 4096, and kind·4096 + slot rebuilds the 16-bit code |
| `Codec.DecodeRead` | platform/web/host.js:325-327 | an absent stream read (`undefined`) decodes to kind 0, which is not a drawable kind |
| `Codec.Encode` | ci/wasm-test.mjs:190-204 | the packing belongs to the producer, whose code is not part of this model; the cited lines decode its output. The packing (kind shifted left 12 bits, or-ed with the slot masked to 12 bits) equals kind·4096 + slot mod 4096 |
| `Codec.DecodeEncode` | ci/wasm-test.mjs:190-204 | decoding a packed (kind, slot) with kind < 16 and slot < 4096 returns exactly that pair |
| `Codec.EncodeDecode` | platform/web/host.js:325-327 | every 16-bit code is the packing of its decoded kind and slot, so decoding is injective |
| `Bits.ShiftRightIsDiv` | platform/web/host.js:326 | `x >> n` on a value below 2^31 (where ToInt32 changes nothing), with n < 32, is division by 2^n; the codes here are 16-bit |
| `Bits.BitAndLowMask` | platform/web/host.js:327 | masking with n one-bits is the remainder modulo 2^n |
| `Palette.ColorOf` | platform/web/host.js:28-42 | the colour is always a palette entry: entry i for i < 13, and `#000000` for an index of 13 or more or an absent one |
| `Palette.ColorIndexRoundTrip` | platform/web/host.js:28-42 | each in-range index is recovered from its colour, so distinct indices paint distinct colours |
| `Strings.Slice` | platform/web/host.js:354-357 | the text bytes are the table bytes from `off` on, `min(len, 8192 - off)` of them (none if `off` is past the end or a read is absent) |
| `Strings.SliceInBounds` | ci/wasm-test.mjs:181-184 | a window inside the table is exactly the bytes `[off, off+len)` |
| `Strings.SlicePastEnd` | platform/web/host.js:357 | a window starting at or past the table's end is empty rather than an error |
| `Views.Grow` | platform/web/host.js:294-296 | growth replaces the storage (new generation) and keeps header and contents |
| `Views.CreateViews` | platform/web/host.js:245-284 | every field gets a view at base + its offset, of its kind's fixed capacity and its element type, attached to the current storage |
| `Views.Refresh` | platform/web/host.js:235-239 | the result is attached; it equals the input exactly when the input was already attached; otherwise it is a fresh build |
| `Views.RefreshIdempotent` | platform/web/host.js:235-239 | refreshing twice equals refreshing once |
| `Views.ViewsIgnoreCounts` | platform/web/host.js:245-281 | views never depend on the header's dynamic counts or on the contents, only on the storage and layout |
| `Views.ViewLengths` | platform/web/host.js:250-281 | view lengths are 2048 (stream), 1024 (rects), 512 (circles, lines), 256 (texts) and 8192 (string table) |
| `Views.SameKindSameLength` | platform/web/host.js:252-278 | all attribute views of one kind have the same length, so a slot is in range for all or none |
| `Views.Read` | platform/web/host.js:325-358 | a typed-array read gives element i exactly when the views are attached and i is below the length; otherwise it is `undefined` |
| `Dispatch.ClearOps` | platform/web/host.js:312-318 | one clear in the palette colour of `clear_color` when `has_clear` is non-zero, nothing when it is zero |
| `Dispatch.Entries` | platform/web/host.js:321-327 | exactly `cmd_count` entries, the c-th being the decoded c-th stream read, in index order |
| `Dispatch.Op` | platform/web/host.js:329-360 | an entry draws one operation exactly when its kind is 1–4; the operation keeps the entry's slot and kind and is never a clear |
| `Dispatch.Replay` | platform/web/host.js:323-361 | at most one operation per entry, none of them a clear, each of a known kind |
| `Dispatch.Render` | platform/web/host.js:309-362 | with `has_clear` set the first operation is the clear in palette colour `clear_color`; a clear appears nowhere else, and nowhere at all without `has_clear`; at most `cmd_count` further operations |
| `Order.KnownPositions` | platform/web/host.js:324-329 | the stream positions of known kinds, strictly increasing, covering every known entry |
| `Order.AllKnownPositions` | platform/web/host.js:324-329 | when every entry has a known kind, every position draws, in order |
| `Order.ReplayAppend` | platform/web/host.js:324 | replaying a concatenation is the concatenation of the replays |
| `Order.ReplayFollowsStream` | platform/web/host.js:323-325 | the k-th replayed operation is the operation of the k-th known entry: no reordering, no duplication, no omission |
| `Order.RenderFollowsStream` | platform/web/host.js:309-362 | the render trace is the optional clear followed one-to-one, in stream order, by the known entries' operations |
| `Order.SkipUnknown` | platform/web/host.js:329-360 | inserting an entry of unknown kind anywhere leaves the replay unchanged |
| `Order.UnknownDrawsNothing` | platform/web/host.js:329-360 | a run of unknown entries draws nothing |
| `Order.OverlongCountSkipped` | platform/web/host.js:321-327 | a `cmd_count` above 2048 draws exactly what the first 2048 entries draw |
| `Order.StaleViewsDrawOnlyClear` | platform/web/host.js:294-299 | rendering through detached views paints only the clear |
| `Order.ReplayDependsOnAttachment` | platform/web/host.js:325-358 | the replay depends only on the contents and on whether the views are attached |
| `Order.GrowthKeepsRender` | platform/web/host.js:228-239 | after growth, refreshed views render exactly what the old views rendered before it |
| `Order.OpColor` | platform/web/host.js:331-352 | every drawer's colour is the palette lookup of its slot's colour index, black when that index is ≥ 13 or absent |
| `Order.TextPayload` | platform/web/host.js:354-357 | a text operation carries the clamped table window of its slot's (offset, length); a slot past 256 carries no bytes |
| `Order.DrawerReadsSlot` | platform/web/host.js:330-358 | each drawer reads its own kind's arrays at the entry's slot: through attached views a slot below capacity gives exactly that element for each geometric attribute, and any other read is `undefined` |
| `Input.Press` | platform/web/host.js:162-165 | mousedown sets bit `button mod 32` and keeps every other bit |
| `Input.Release` | platform/web/host.js:167-169 | mouseup clears bit `button mod 32` only |
| `Input.ClearAll` | platform/web/host.js:171-173 | mouseleave leaves no bit set |
| `Input.ReleaseUndoesPress` | platform/web/host.js:162-169 | releasing a button that was up before its press restores the mask |
| `Input.PressReleaseCommute` | platform/web/host.js:162-169 | a press and a release of different buttons commute |
| `Input.Apply` | platform/web/host.js:155-178 | each event changes only its own part of the pointer state (position, one bit, all bits, or the wheel) |
| `FrameLoop.Start` | platform/web/host.js:99-149 | after init the host holds the memory `_init` left and the given layout, with the views placed and attached to that memory; the pointer is the zero state after the events that arrived while loading (the listeners are registered before the fetch), and its wheel is 0 unless one of them was a wheel event |
| `FrameLoop.Frame` | platform/web/host.js:289-303 | the producer gets the current (x, y, buttons, wheel); afterwards the wheel is 0 and position and buttons are unchanged; the views are attached to the post-producer memory; the trace renders that memory |
| `FrameLoop.FrameRendersFreshViews` | platform/web/host.js:294-299 | each frame draws what freshly built views would draw, and the views stay placed |
| `FrameLoop.WheelConsumedOnce` | platform/web/host.js:291-292 | a wheel delta reaches one frame only; without a new wheel event the next frame gets 0 |
| `Scenario.SelfTestStreamOrder` | ci/wasm-test.mjs:186-204 | the self-test stream decodes as rect 0, circle 0, line 0, text 0 |
| `Scenario.SelfTestRender` | ci/wasm-test.mjs:107-184 | the self-test renders the blue clear, then the red rect, green circle, yellow line and white text "Test", in that order |

## Left out

- `init`, fetching and instantiating the WebAssembly module, and `populateOffsets`: these are foreign calls. The base pointer and field offsets are an immutable `Layout` input.
- The byte offsets of the header fields and the little-endian `DataView` decoding of the header: the header is modelled as already-decoded fields.
- The byte-level aliasing between a view's address and its contents: each field's contents are the sequence its view exposes. View addresses are placement facts only.
- Typed-array construction errors (a view beyond the buffer or misaligned) and `DataView` range errors: the producer's layout is assumed to fit its memory.
- Canvas painting (`fillRect`, `arc`, `font` strings, `lineWidth`), Float32 arithmetic and UTF-8 decoding: these are library behaviour. Coordinates are opaque bit patterns and text is a byte slice.
- DOM event registration, `getBoundingClientRect` (pointer positions arrive already canvas-relative), `preventDefault`, `contextmenu` and `requestAnimationFrame` rescheduling.
- Dispatch.Op: through detached views a text entry yields a `FillText` with no bytes, while `subarray` on a detached buffer throws a `TypeError`. `Render` never gets there, because a detached stream read decodes to kind 0.
- Dispatch.Render: a circle with a finite negative radius makes `ctx.arc` throw an `IndexSizeError` at platform/web/host.js:337. In the source this has two effects. `render` stops at that entry, so no later entry in the stream is drawn. Nothing in `frame` catches the error, so `requestAnimationFrame(frame)` is never called again and the render loop ends. The model treats radii as opaque Float32 bit patterns and keeps drawing past such an entry, so `Dispatch.Replay`, `Dispatch.Render` and `Order.RenderFollowsStream` describe only frames with no such circle.
- `js_console_log`, `js_throw_error` and producer panics: a thrown error ends the render loop, and this is not modelled.
- The build-time patching of generated glue code and the emscripten import shims: these are plumbing, not protocol.
- Input.Press: the mask is the 32-bit pattern of JavaScript's Int32. The sign it takes as a Number when bit 31 is set is not modelled.
