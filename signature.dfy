/**
  A signature pad as the report form uses it: it accumulates pen strokes, is
  empty exactly when no stroke has been drawn since it was created or last
  cleared, and is cleared whenever its drawing surface is resized.
 */
module Signature {

  /** A position on the drawing surface (its units are left abstract). */
  datatype Point = Point(x: int, y: int)

  /** One stroke: the pointer-down position and the positions it moved through. */
  datatype Stroke = Stroke(start: Point, moves: seq<Point>)

  /**
    The PNG data URL a pad exports. Rasterisation is not modelled: the image
    stands for the strokes it was drawn from.
   */
  datatype PngDataUrl = PngDataUrl(strokes: seq<Stroke>)

  class Pad {
    var strokes: seq<Stroke>

    constructor()
      ensures strokes == []
    {
      strokes := [];
    }

    /** `isEmpty()`: no stroke since the pad was created or last cleared. */
    predicate IsEmpty(): (empty: bool)
      reads this
      ensures empty <==> strokes == []
    {
      |strokes| == 0
    }

    /** The user draws one stroke. */
    method Draw(stroke: Stroke)
      modifies this
      ensures strokes == old(strokes) + [stroke]
      ensures !IsEmpty()
    {
      strokes := strokes + [stroke];
    }

    method Clear()
      modifies this
      ensures strokes == []
      ensures IsEmpty()
    {
      strokes := [];
    }

    /**
      The drawing surface changed size. The strokes' coordinates belong to
      the old size, so the pad is cleared (canvas sizing is not modelled).
     */
    method Resize()
      modifies this
      ensures strokes == []
      ensures IsEmpty()
    {
      Clear();
    }

    /** `toDataURL()`: the image of what is drawn now; the pad itself is unchanged. */
    function ToDataUrl(): (image: PngDataUrl)
      reads this
      ensures image.strokes == strokes
      ensures IsEmpty() <==> image.strokes == []
    {
      PngDataUrl(strokes)
    }
  }
}
