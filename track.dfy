/** The track border (src/track.rs): the flat coordinate array `BORDER`, the
    point and index sequences handed to the collision polyline, and the list
    of line segments the border renderer draws. The slice iterators
    `windows` and `step_by` are modelled as functions over sequences. */
module Track {

  /** `BORDER`: x0, y0, x1, y1, ... of the border's corner points, in order. */
  const Border: seq<real> := [
    -39.0, -42.0,
    -17.0, -43.0,
    5.0, -41.0,
    26.0, -34.0,
    33.0, -25.0,
    37.0, -13.0,
    36.0, -4.0,
    29.0, -2.0,
    21.0, -4.0,
    16.0, -8.0,
    9.0, -11.0,
    -4.0, -12.0,
    -7.0, -6.0,
    -2.0, 7.0,
    18.0, 13.0,
    34.0, 18.0,
    41.0, 31.0,
    36.0, 43.0,
    23.0, 45.0,
    0.0, 46.0,
    -12.0, 39.0,
    -20.0, 22.0,
    -27.0, 12.0,
    -36.0, 17.0,
    -36.0, 31.0,
    -35.0, 46.0,
    -46.0, 46.0,
    -47.0, 34.0,
    -47.0, 16.0,
    -43.0, 6.0,
    -33.0, 2.0,
    -24.0, 1.0,
    -20.0, 6.0,
    -9.0, 20.0,
    -4.0, 28.0,
    6.0, 36.0,
    21.0, 38.0,
    27.0, 35.0,
    27.0, 30.0,
    23.0, 27.0,
    12.0, 24.0,
    1.0, 20.0,
    -9.0, 16.0,
    -16.0, 6.0,
    -21.0, -2.0,
    -21.0, -10.0,
    -19.0, -18.0,
    -10.0, -22.0,
    2.0, -22.0,
    10.0, -22.0,
    17.0, -19.0,
    23.0, -16.0,
    24.0, -21.0,
    22.0, -23.0,
    12.0, -27.0,
    -1.0, -30.0,
    -19.0, -31.0,
    -28.0, -29.0,
    -39.0, -28.0
  ]

  /** A `Point2<f64>` of the collision polyline. */
  datatype Point = Point(x: real, y: real)

  /** A `Point2<usize>` of the polyline's index buffer: a segment joining
      point `a` to point `b`. */
  datatype IndexPair = IndexPair(a: nat, b: nat)

  /** The argument `[x1, y1, x2, y2]` of one `line` call. */
  datatype Segment = Segment(x1: real, y1: real, x2: real, y2: real)

  /** The two buffers passed to `Polyline2::new`. */
  datatype Polyline = Polyline(points: seq<Point>, indices: seq<IndexPair>)

  datatype Option<T> = None | Some(value: T)

  /** `s.windows(k)`: every contiguous run of `k` elements, in order. Rust
      panics for `k == 0`, which the callers never pass. */
  function Windows(s: seq<real>, k: nat): (r: seq<seq<real>>)
    requires k > 0
    ensures |r| == if |s| < k then 0 else |s| - k + 1
    ensures forall i :: 0 <= i < |r| ==> r[i] == s[i..i + k]
    decreases |s|
  {
    if |s| < k then [] else [s[..k]] + Windows(s[1..], k)
  }

  /** `it.step_by(2)`, the only step the border code uses: the first
      element, then every second one after it; `ceil(|s| / 2)` of them. */
  function StepByTwo<T>(s: seq<T>): (r: seq<T>)
    ensures |r| == (|s| + 1) / 2
    ensures forall i :: 0 <= i < |r| ==> r[i] == s[2 * i]
    decreases |s|
  {
    if s == [] then []
    else if |s| < 2 then [s[0]]
    else [s[0]] + StepByTwo(s[2..])
  }

  /** The point list of `get_border_shape`: `windows(2).step_by(2)` mapped to
      `Point2::new(wnd[0], wnd[1])`. */
  function PointsOf(b: seq<real>): (r: seq<Point>)
    ensures |r| == |b| / 2
    ensures forall i :: 0 <= i < |r| ==> r[i] == Point(b[2 * i], b[2 * i + 1])
  {
    var ws := StepByTwo(Windows(b, 2));
    seq(|ws|, i requires 0 <= i < |ws| => Point(ws[i][0], ws[i][1]))
  }

  /** The index list of `get_border_shape`: `(0..len / 2 - 1).map(|i| (i, i + 1))`.
      For `len < 2` the `usize` subtraction underflows, which is a panic:
      `None`. */
  function IndicesFor(len: nat): (r: Option<seq<IndexPair>>)
    ensures r.None? <==> len < 2
    ensures r.Some? ==> |r.value| == len / 2 - 1
    ensures r.Some? ==> forall i :: 0 <= i < |r.value| ==> r.value[i] == IndexPair(i, i + 1)
  {
    if len / 2 == 0 then None
    else Some(seq(len / 2 - 1, i requires 0 <= i < len / 2 - 1 => IndexPair(i, i + 1)))
  }

  /** The segment list `draw_border` draws: one `line` per window of
      `windows(4).step_by(2)`. */
  function SegmentsOf(b: seq<real>): (r: seq<Segment>)
    ensures |r| == if |b| < 4 then 0 else (|b| - 2) / 2
    ensures forall k :: 0 <= k < |r| ==> r[k] == Segment(b[2 * k], b[2 * k + 1], b[2 * k + 2], b[2 * k + 3])
  {
    var ws := StepByTwo(Windows(b, 4));
    assert forall k :: 0 <= k < |ws| ==> ws[k] == b[2 * k..2 * k + 4] by {
      forall k | 0 <= k < |ws| ensures ws[k] == b[2 * k..2 * k + 4] {
        assert ws[k] == Windows(b, 4)[2 * k];
      }
    }
    seq(|ws|, i requires 0 <= i < |ws| => Segment(ws[i][0], ws[i][1], ws[i][2], ws[i][3]))
  }

  /** `get_border_shape`, for any coordinate array. */
  function ShapeOf(b: seq<real>): Option<Polyline>
  {
    match IndicesFor(|b|)
    case None => None
    case Some(indices) => Some(Polyline(PointsOf(b), indices))
  }

  /** `get_border_shape()` on the track's own border. */
  function GetBorderShape(): Option<Polyline>
  {
    ShapeOf(Border)
  }

  /** The segments `draw_border` draws for the track's own border. */
  function DrawBorder(): seq<Segment>
  {
    SegmentsOf(Border)
  }

  /** Every index the shape refers to is a point of the shape, and segment
      `i` joins point `i` to point `i + 1`. */
  lemma ShapeIndicesValid(b: seq<real>)
    requires |b| >= 2
    ensures ShapeOf(b).Some?
    ensures |ShapeOf(b).value.indices| == |ShapeOf(b).value.points| - 1
    ensures forall p :: p in ShapeOf(b).value.indices ==>
              p.a < |ShapeOf(b).value.points| && p.b < |ShapeOf(b).value.points| && p.b == p.a + 1
  {
  }

  /** The polyline is open: no segment leaves the last point, and in
      particular none closes the loop back to the first point. */
  lemma ShapeIsOpen(b: seq<real>)
    requires |b| >= 2
    ensures ShapeOf(b).Some?
    ensures forall p :: p in ShapeOf(b).value.indices ==> p.a != |ShapeOf(b).value.points| - 1
    ensures IndexPair(|ShapeOf(b).value.points| - 1, 0) !in ShapeOf(b).value.indices
  {
  }

  /** `draw_border` draws one segment fewer than there are points, and
      segment `k` runs from point `k` to point `k + 1`: exactly the pairs the
      collision shape's index buffer joins. */
  lemma {:induction false} DrawnSegmentsMatchShape(b: seq<real>)
    requires |b| >= 2
    ensures ShapeOf(b).Some?
    ensures |SegmentsOf(b)| == |b| / 2 - 1 == |ShapeOf(b).value.indices|
    ensures forall k :: 0 <= k < |SegmentsOf(b)| ==>
              var pts := ShapeOf(b).value.points;
              var p := ShapeOf(b).value.indices[k];
              SegmentsOf(b)[k] == Segment(pts[p.a].x, pts[p.a].y, pts[p.b].x, pts[p.b].y)
  {
    var pts := PointsOf(b);
    forall k | 0 <= k < |SegmentsOf(b)|
      ensures SegmentsOf(b)[k] == Segment(pts[k].x, pts[k].y, pts[k + 1].x, pts[k + 1].y)
    {
    }
  }

  /** The track's border has an even number of coordinates: 59 points. */
  lemma BorderHasFiftyNinePoints()
    ensures |Border| == 118 && |Border| % 2 == 0
    ensures |PointsOf(Border)| == 59
  {
  }

  /** The shape of any coordinate array with at least one point: `|b| / 2`
      points, one index pair fewer, point `i` being `(b[2i], b[2i+1])`, and
      as many drawn segments as index pairs. */
  lemma {:induction false} ShapeSizes(b: seq<real>)
    requires |b| >= 2
    ensures ShapeOf(b).Some?
    ensures |ShapeOf(b).value.points| == |b| / 2
    ensures |ShapeOf(b).value.indices| == |b| / 2 - 1
    ensures forall i :: 0 <= i < |b| / 2 ==> ShapeOf(b).value.points[i] == Point(b[2 * i], b[2 * i + 1])
    ensures |SegmentsOf(b)| == |b| / 2 - 1
  {
    DrawnSegmentsMatchShape(b);
  }

  /** The track's collision shape is built without the index underflow, has
      59 points and 58 segments, and point `i` is `(BORDER[2i], BORDER[2i+1])`. */
  lemma {:induction false} BorderShapeWellFormed()
    ensures GetBorderShape().Some?
    ensures |GetBorderShape().value.points| == 59
    ensures |GetBorderShape().value.indices| == 58
    ensures forall i :: 0 <= i < 59 ==> GetBorderShape().value.points[i] == Point(Border[2 * i], Border[2 * i + 1])
    ensures |DrawBorder()| == 58
  {
    BorderHasFiftyNinePoints();
    ShapeSizes(Border);
  }
}
