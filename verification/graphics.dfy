/** Plain values the views and layers pass around: the target platform, points,
    and colours as abstract tags. Lengths are `real` (an idealised CGFloat);
    angles in the tables are whole degrees, so they are `int`. */
module Graphics {

  /** The two platforms the shared sources compile for (`#if os(OSX)` / `#elseif os(iOS)`). */
  datatype Platform = OSX | IOS

  datatype Point = Point(x: real, y: real)

  /** A colour as an abstract tag; the view's defaults are named. */
  datatype Color = White | Red | LightGray | Blue | Green | Black | OtherColor(tag: nat)

  function Max(a: real, b: real): (r: real)
    ensures r >= a && r >= b && (r == a || r == b)
  {
    if a >= b then a else b
  }

  function Min(a: real, b: real): (r: real)
    ensures r <= a && r <= b && (r == a || r == b)
  {
    if a <= b then a else b
  }
}
