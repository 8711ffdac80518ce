/** The fixed-size window of the game and the two shapes the game draws on it.
    Coordinates are integers with y growing downwards, as in ruby2d. */
module Window {

  /** `set width: 1024, height: 768` */
  const Width: int := 1024
  const Height: int := 768

  datatype Point = Point(x: int, y: int)

  /** A ruby2d `Rectangle` as the paddle draws it. */
  datatype Rect = Rect(x: int, y: int, width: int, height: int)

  /** A ruby2d `Square` as the ball draws it. */
  datatype Square = Square(x: int, y: int, size: int)

  /** `Rectangle#contains?` belongs to ruby2d; it is taken to be the
      inclusive axis-aligned test: edges and corners count as inside. */
  predicate Contains(r: Rect, p: Point)
  {
    r.x <= p.x <= r.x + r.width && r.y <= p.y <= r.y + r.height
  }

  /** The corners `(x1, y1) .. (x4, y4)` of a square, clockwise from the upper left. */
  function Corners(s: Square): (c: seq<Point>)
    ensures |c| == 4
    ensures forall i :: 0 <= i < 4 ==> c[i].x in {s.x, s.x + s.size} && c[i].y in {s.y, s.y + s.size}
    ensures forall px, py :: px in {s.x, s.x + s.size} && py in {s.y, s.y + s.size} ==> Point(px, py) in c
  {
    [Point(s.x, s.y), Point(s.x + s.size, s.y), Point(s.x + s.size, s.y + s.size), Point(s.x, s.y + s.size)]
  }

  /** `points.any? { |p| r.contains?(p) }` */
  function AnyInside(r: Rect, ps: seq<Point>): (b: bool)
    ensures b <==> exists i :: 0 <= i < |ps| && Contains(r, ps[i])
  {
    if ps == [] then false
    else if Contains(r, ps[0]) then true
    else
      var rest := AnyInside(r, ps[1..]);
      assert forall i :: 1 <= i < |ps| ==> ps[i] == ps[1..][i - 1];
      rest
  }

  /** The value `v` lies on the closed span `[lo, lo + len]`. */
  predicate OnSpan(lo: int, len: int, v: int)
  {
    lo <= v <= lo + len
  }

  /** One vertical edge of the square lies on the rectangle's horizontal span
      and one horizontal edge on its vertical span. */
  predicate EdgesMeet(r: Rect, s: Square)
  {
    (OnSpan(r.x, r.width, s.x) || OnSpan(r.x, r.width, s.x + s.size)) &&
    (OnSpan(r.y, r.height, s.y) || OnSpan(r.y, r.height, s.y + s.size))
  }

  /** Independent reading of the corner test: some corner of the square is in
      the rectangle exactly when one of the square's two vertical edges lies on
      the rectangle's horizontal span and one of its two horizontal edges lies
      on the rectangle's vertical span. */
  lemma CornersInsideIff(r: Rect, s: Square)
    ensures AnyInside(r, Corners(s)) <==> EdgesMeet(r, s)
  {
    var c := Corners(s);
    if (OnSpan(r.x, r.width, s.x) || OnSpan(r.x, r.width, s.x + s.size)) &&
       (OnSpan(r.y, r.height, s.y) || OnSpan(r.y, r.height, s.y + s.size))
    {
      if OnSpan(r.x, r.width, s.x) && OnSpan(r.y, r.height, s.y) {
        assert Contains(r, c[0]);
      } else if OnSpan(r.x, r.width, s.x + s.size) && OnSpan(r.y, r.height, s.y) {
        assert Contains(r, c[1]);
      } else if OnSpan(r.x, r.width, s.x + s.size) {
        assert Contains(r, c[2]);
      } else {
        assert Contains(r, c[3]);
      }
    }
  }
}
