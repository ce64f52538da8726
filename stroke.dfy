/** Strokes and the builder that validates them (Stroke.java). A stroke records
    one drawn line segment: its two end points, colour, width and opacity, plus
    the paintable shape that a view attaches to it. Points, colours and shapes
    are values; `null` arguments are `None`. */
module Strokes {
  import opened Errors

  /** `java.awt.Point`: a location in the canvas' integer coordinate space. */
  datatype Point = Point(x: int, y: int)

  /** `java.awt.Color`, taken as an opaque RGB value. */
  datatype Color = Rgb(red: int, green: int, blue: int)

  const Black: Color := Rgb(0, 0, 0)

  /** The only shape the program creates: the line segment between two points
      (`Line2D.Float`). */
  datatype Shape = Line(x1: int, y1: int, x2: int, y2: int)

  const DefaultSize: int := 5
  const DefaultTransparency: real := 1.0

  const NullPoint := IllegalArgument("point cannot be null.")
  const NullColor := IllegalArgument("color cannot be null.")
  const NonPositiveSize := IllegalArgument("stroke size must be positive.")
  const TransparencyOutOfRange := IllegalArgument("transparency should belong to (0,1].")

  /** A stroke width the builder accepts. */
  predicate ValidSize(sz: int) {
    sz > 0
  }

  /** An opacity the builder accepts: within (0,1]. */
  predicate ValidTransparency(tr: real) {
    0.0 < tr <= 1.0
  }

  /** `Stroke.Builder`: the end points are fixed at construction, the other
      parameters start at their defaults and each setter checks its argument. */
  class Builder {
    const startPoint: Point
    const endPoint: Point
    var color: Color
    var size: int
    var transparency: real

    /** What every setter keeps true of the builder. */
    ghost predicate Valid()
      reads this
    {
      ValidSize(size) && ValidTransparency(transparency)
    }

    /** The builder constructor once both points are known to be non-null. */
    constructor (sp: Point, ep: Point)
      ensures Valid()
      ensures startPoint == sp && endPoint == ep
      ensures color == Black && size == DefaultSize && transparency == DefaultTransparency
    {
      startPoint := sp;
      endPoint := ep;
      color := Black;
      size := DefaultSize;
      transparency := DefaultTransparency;
    }

    /** `new Stroke.Builder(sp, ep)`: rejects a null start or end point. */
    static method New(sp: Option<Point>, ep: Option<Point>) returns (r: Result<Builder>)
      ensures sp.None? || ep.None? ==> r == Err(NullPoint)
      ensures sp.Some? && ep.Some? ==>
        && r.Ok? && fresh(r.value) && r.value.Valid()
        && r.value.startPoint == sp.value && r.value.endPoint == ep.value
        && r.value.color == Black && r.value.size == DefaultSize
        && r.value.transparency == DefaultTransparency
    {
      if sp.None? || ep.None? {
        return Err(NullPoint);
      }
      var b := new Builder(sp.value, ep.value);
      r := Ok(b);
    }

    /** `color(c)`: rejects null, otherwise sets the colour; returns this builder. */
    method SetColor(c: Option<Color>) returns (r: Result<Builder>)
      requires Valid()
      modifies this`color
      ensures Valid()
      ensures c.None? ==> r == Err(NullColor) && color == old(color)
      ensures c.Some? ==> r == Ok(this) && color == c.value
    {
      if c.None? {
        return Err(NullColor);
      }
      color := c.value;
      r := Ok(this);
    }

    /** `size(sz)`: rejects a non-positive width, otherwise sets it; returns this builder. */
    method SetSize(sz: int) returns (r: Result<Builder>)
      requires Valid()
      modifies this`size
      ensures Valid()
      ensures sz <= 0 ==> r == Err(NonPositiveSize) && size == old(size)
      ensures sz > 0 ==> r == Ok(this) && size == sz
    {
      if sz <= 0 {
        return Err(NonPositiveSize);
      }
      size := sz;
      r := Ok(this);
    }

    /** `transparency(tr)`: rejects a value outside (0,1], otherwise sets it;
        returns this builder. */
    method SetTransparency(tr: real) returns (r: Result<Builder>)
      requires Valid()
      modifies this`transparency
      ensures Valid()
      ensures (tr <= 0.0 || tr > 1.0) ==> r == Err(TransparencyOutOfRange) && transparency == old(transparency)
      ensures 0.0 < tr <= 1.0 ==> r == Ok(this) && transparency == tr
    {
      if tr <= 0.0 || tr > 1.0 {
        return Err(TransparencyOutOfRange);
      }
      transparency := tr;
      r := Ok(this);
    }

    /** `build()`: a new stroke carrying exactly this builder's parameters. */
    method Build() returns (s: Stroke)
      requires Valid()
      ensures fresh(s) && s.Valid()
      ensures s.startPoint == startPoint && s.endPoint == endPoint
      ensures s.color == color && s.size == size && s.transparency == transparency
      ensures s.shape == None
    {
      s := new Stroke(this);
    }
  }

  /** `Stroke`: everything but the shape is fixed at construction; the getters
      are the constant fields themselves. */
  class Stroke {
    const startPoint: Point
    const endPoint: Point
    const color: Color
    const size: int
    const transparency: real
    var shape: Option<Shape>

    /** The builder's checks, carried over to every stroke it builds. */
    ghost predicate Valid() {
      ValidSize(size) && ValidTransparency(transparency)
    }

    /** The private constructor: copies the builder's fields; the shape is unset. */
    constructor (bd: Builder)
      requires bd.Valid()
      ensures Valid()
      ensures startPoint == bd.startPoint && endPoint == bd.endPoint
      ensures color == bd.color && size == bd.size && transparency == bd.transparency
      ensures shape == None
    {
      startPoint := bd.startPoint;
      endPoint := bd.endPoint;
      color := bd.color;
      size := bd.size;
      transparency := bd.transparency;
      shape := None;
    }

    /** `setShape(sp)`: the only change a stroke ever undergoes. */
    method SetShape(sp: Option<Shape>)
      modifies this`shape
      ensures shape == sp
    {
      shape := sp;
    }
  }

  /** The segment from a stroke's start point to its end point. */
  function Segment(s: Stroke): Shape {
    Line(s.startPoint.x, s.startPoint.y, s.endPoint.x, s.endPoint.y)
  }
}
