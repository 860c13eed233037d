/**
  Wire-level vocabulary shared by the producer (the compute module) and the host:
  the element types of the typed views, the command kind tags and the fixed capacities.
 */
module Wire {

  /** Element types of the typed views (Uint8Array, Uint16Array, ...). */
  newtype u8 = x: int | 0 <= x < 0x100
  newtype u16 = x: int | 0 <= x < 0x1_0000
  newtype u32 = x: int | 0 <= x < 0x1_0000_0000
  newtype i32 = x: int | -0x8000_0000 <= x < 0x8000_0000

  /** A Float32Array element, kept as its raw bit pattern: the host only passes coordinates on. */
  datatype F32 = F32(bits: bv32)

  /** Command kind tags carried in the top four bits of a stream code. */
  const KindRect: nat := 1
  const KindCircle: nat := 2
  const KindLine: nat := 3
  const KindText: nat := 4

  /** Fixed capacities of the shared region; both sides compile them in. */
  const MaxCommands: nat := 2048
  const MaxRects: nat := 1024
  const MaxCircles: nat := 512
  const MaxLines: nat := 512
  const MaxTexts: nat := 256
  const MaxStringBytes: nat := 8192

  /** The element type of one typed view. */
  datatype ElemType = Uint8 | Uint16 | Int32 | Float32

  /** The group of fields a view belongs to: the stream, one command kind, or the string table. */
  datatype Group = Stream | Rects | Circles | Lines | Texts | StringTable

  /** Every field of the shared region the host reads through a typed view. */
  datatype ArrayField =
    | CmdStream
    | RectX | RectY | RectW | RectH | RectColor
    | CircleX | CircleY | CircleRadius | CircleColor
    | LineX1 | LineY1 | LineX2 | LineY2 | LineColor
    | TextX | TextY | TextSize | TextColor | TextStrOffset | TextStrLen
    | StringBuffer
  {
    function GroupOf(): Group {
      match this
      case CmdStream => Stream
      case RectX | RectY | RectW | RectH | RectColor => Rects
      case CircleX | CircleY | CircleRadius | CircleColor => Circles
      case LineX1 | LineY1 | LineX2 | LineY2 | LineColor => Lines
      case TextX | TextY | TextSize | TextColor | TextStrOffset | TextStrLen => Texts
      case StringBuffer => StringTable
    }

    function Elem(): ElemType {
      match this
      case CmdStream | TextStrOffset | TextStrLen => Uint16
      case RectColor | CircleColor | LineColor | TextColor | StringBuffer => Uint8
      case TextSize => Int32
      case _ => Float32
    }
  }

  /** The fields the host builds a view for, all 22 of them. */
  const ArrayFields: set<ArrayField> := {
    CmdStream,
    RectX, RectY, RectW, RectH, RectColor,
    CircleX, CircleY, CircleRadius, CircleColor,
    LineX1, LineY1, LineX2, LineY2, LineColor,
    TextX, TextY, TextSize, TextColor, TextStrOffset, TextStrLen,
    StringBuffer
  }

  /** The fixed element count of every view in a group. */
  function Capacity(g: Group): (n: nat)
    ensures n > 0
  {
    match g
    case Stream => MaxCommands
    case Rects => MaxRects
    case Circles => MaxCircles
    case Lines => MaxLines
    case Texts => MaxTexts
    case StringTable => MaxStringBytes
  }

  lemma ArrayFieldsComplete(f: ArrayField)
    ensures f in ArrayFields
  {
  }
}
