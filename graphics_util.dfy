/** The drawing helpers of graphics_util.py, with the OpenGL and pyglet calls
    replaced by the values they are given: the grid and frustum line batches
    become sequences of segments, the labels a sequence of placed texts, and
    copy an in-place write into an array. */
module GraphicsUtil {
  import opened Wrappers
  import opened Vectors

  datatype GraphicsError = ZeroDivisionError

  // ---------------------------------------------------------------- copy

  /** What numpy's `dst[:] = src` writes into a destination of length n: the
      source itself when the sizes agree, its single element repeated when it
      has one, and nothing (a ValueError) otherwise. */
  function SliceAssignment(n: nat, src: seq<real>): (r: Option<seq<real>>)
    ensures r.Some? <==> |src| == n || |src| == 1
    ensures r.Some? ==> |r.value| == n
    ensures r.Some? && |src| == n ==> r.value == src
    ensures r.Some? ==> forall i :: 0 <= i < n ==> r.value[i] in src
  {
    if |src| == n then Some(src)
    else if |src| == 1 then Some(seq(n, _ => src[0]))
    else None
  }

  /** copy(dst, src): overwrite dst in place with the flattened source; its
      length never changes and a size mismatch leaves it untouched. */
  method Copy(dst: array<real>, src: seq<real>) returns (ok: bool)
    modifies dst
    ensures ok == SliceAssignment(dst.Length, src).Some?
    ensures ok ==> dst[..] == SliceAssignment(dst.Length, src).value
    ensures !ok ==> dst[..] == old(dst[..])
  {
    var n := dst.Length;
    if |src| != n && |src| != 1 {
      return false;
    }
    var i := 0;
    while i < n
      invariant 0 <= i <= n
      invariant forall k :: 0 <= k < i ==> dst[k] == (if |src| == n then src[k] else src[0])
    {
      dst[i] := if |src| == n then src[i] else src[0];
      i := i + 1;
    }
    ok := true;
  }

  datatype TexCoord = TexCoord(u: real, v: real)

  /** ravel() of an array of shape (..., 3): the points' coordinates in row order. */
  function Ravel3(s: seq<Vec3>): seq<real>
  {
    if s == [] then [] else [s[0].x, s[0].y, s[0].z] + Ravel3(s[1..])
  }

  /** ravel() of an array of shape (..., 2). */
  function Ravel2(s: seq<TexCoord>): seq<real>
  {
    if s == [] then [] else [s[0].u, s[0].v] + Ravel2(s[1..])
  }

  lemma {:induction false} Ravel3At(s: seq<Vec3>, i: nat)
    requires i < |s|
    ensures |Ravel3(s)| == 3 * |s|
    ensures Ravel3(s)[3 * i] == s[i].x
    ensures Ravel3(s)[3 * i + 1] == s[i].y
    ensures Ravel3(s)[3 * i + 2] == s[i].z
  {
    Ravel3Length(s);
    if i > 0 {
      Ravel3At(s[1..], i - 1);
    }
  }

  lemma {:induction false} Ravel3Length(s: seq<Vec3>)
    ensures |Ravel3(s)| == 3 * |s|
  {
    if s != [] {
      Ravel3Length(s[1..]);
    }
  }

  lemma {:induction false} Ravel2Length(s: seq<TexCoord>)
    ensures |Ravel2(s)| == 2 * |s|
  {
    if s != [] {
      Ravel2Length(s[1..]);
    }
  }

  lemma {:induction false} Ravel2At(s: seq<TexCoord>, i: nat)
    requires i < |s|
    ensures |Ravel2(s)| == 2 * |s|
    ensures Ravel2(s)[2 * i] == s[i].u
    ensures Ravel2(s)[2 * i + 1] == s[i].v
  {
    Ravel2Length(s);
    if i > 0 {
      Ravel2At(s[1..], i - 1);
    }
  }

  // ---------------------------------------------------------------- grid

  /** A line of the grid, drawn in one shade of grey at both ends. */
  datatype GridLine = GridLine(from: Vec3, to: Vec3, grey: real)

  const MajorGrey: real := 0.5
  const MinorGrey: real := 0.1

  function Shade(i: int, majorInt: int): real
    requires majorInt != 0
  {
    if i % majorInt == 0 then MajorGrey else MinorGrey
  }

  /** Position of line i: -interval/2 + i * (interval / n). */
  function Offset(interval: real, n: int, i: int): real
    requires n != 0
  {
    -(0.5 * interval) + (i as real) * (interval / (n as real))
  }

  /** Line i of the first family: parallel to z at x = Offset(i). */
  function LineAlongX(interval: real, n: int, majorInt: int, i: int): GridLine
    requires n != 0 && majorInt != 0
  {
    var x := Offset(interval, n, i);
    var s2 := 0.5 * interval;
    GridLine(Vec3(x, 0.0, -s2), Vec3(x, 0.0, s2), Shade(i, majorInt))
  }

  /** Line i of the second family: parallel to x at z = Offset(i). */
  function LineAlongZ(interval: real, n: int, majorInt: int, i: int): GridLine
    requires n != 0 && majorInt != 0
  {
    var z := Offset(interval, n, i);
    var s2 := 0.5 * interval;
    GridLine(Vec3(-s2, 0.0, z), Vec3(s2, 0.0, z), Shade(i, majorInt))
  }

  /** grid(interval_size, n, width, major_int): the n + 1 lines along x and
      then the n + 1 lines along z of a square grid on the xz plane. */
  method Grid(interval: real, n: int, majorInt: int) returns (r: Result<seq<GridLine>, GraphicsError>)
    ensures n == 0 ==> r == Err(ZeroDivisionError)
    ensures n < 0 ==> r == Ok([])
    ensures n > 0 && majorInt == 0 ==> r == Err(ZeroDivisionError)
    ensures n > 0 && majorInt != 0 ==>
      r.Ok? && |r.value| == 2 * (n + 1) &&
      forall i :: 0 <= i <= n ==>
        r.value[i] == LineAlongX(interval, n, majorInt, i) &&
        r.value[n + 1 + i] == LineAlongZ(interval, n, majorInt, i)
  {
    if n == 0 {
      return Err(ZeroDivisionError);
    }
    var s := interval / (n as real);
    var s2 := 0.5 * interval;
    var lines: seq<GridLine> := [];
    var count := if n + 1 < 0 then 0 else n + 1;

    // first family: one line per x offset, each spanning z
    var i := 0;
    while i < n + 1
      invariant 0 <= i <= count
      invariant |lines| == i
      invariant i > 0 ==> majorInt != 0
      invariant forall k :: 0 <= k < i ==> lines[k] == LineAlongX(interval, n, majorInt, k)
    {
      var x := -s2 + (i as real) * s;
      if majorInt == 0 {
        return Err(ZeroDivisionError);
      }
      var grey := if i % majorInt == 0 then MajorGrey else MinorGrey;
      lines := lines + [GridLine(Vec3(x, 0.0, -s2), Vec3(x, 0.0, s2), grey)];
      assert lines[i] == LineAlongX(interval, n, majorInt, i);
      i := i + 1;
    }

    // second family: one line per z offset, each spanning x
    var j := 0;
    while j < n + 1
      invariant 0 <= j <= count
      invariant |lines| == count + j
      invariant forall k :: 0 <= k < count ==> lines[k] == LineAlongX(interval, n, majorInt, k)
      invariant forall k :: 0 <= k < j ==> lines[count + k] == LineAlongZ(interval, n, majorInt, k)
    {
      var z := -s2 + (j as real) * s;
      if majorInt == 0 {
        return Err(ZeroDivisionError);
      }
      var grey := if j % majorInt == 0 then MajorGrey else MinorGrey;
      lines := lines + [GridLine(Vec3(-s2, 0.0, z), Vec3(s2, 0.0, z), grey)];
      assert lines[count + j] == LineAlongZ(interval, n, majorInt, j);
      j := j + 1;
    }
    return Ok(lines);
  }

  /** A line is major exactly when its index is a multiple of majorInt. */
  lemma GridShadeClassifies(interval: real, n: int, majorInt: int, i: int)
    requires n != 0 && majorInt != 0
    ensures LineAlongX(interval, n, majorInt, i).grey == MajorGrey <==> i % majorInt == 0
    ensures LineAlongZ(interval, n, majorInt, i).grey == MajorGrey <==> i % majorInt == 0
    ensures LineAlongX(interval, n, majorInt, i).grey == MinorGrey <==> i % majorInt != 0
  {
  }

  lemma MulMonotone(a: real, b: real, q: real)
    requires a <= b && q >= 0.0
    ensures a * q <= b * q
  {
  }

  /** The lines are evenly spaced from -interval/2 (line 0) to +interval/2
      (line n); on a non-negative interval every end point lies on the y = 0
      plane inside the square [-interval/2, interval/2]^2. */
  lemma GridSpansInterval(interval: real, n: int, majorInt: int, i: int)
    requires n > 0 && majorInt != 0 && 0 <= i <= n
    ensures Offset(interval, n, 0) == -(0.5 * interval)
    ensures Offset(interval, n, n) == 0.5 * interval
    ensures i < n ==> Offset(interval, n, i + 1) - Offset(interval, n, i) == interval / (n as real)
    ensures interval >= 0.0 ==> -(0.5 * interval) <= Offset(interval, n, i) <= 0.5 * interval
    ensures LineAlongX(interval, n, majorInt, i).from.y == 0.0 && LineAlongX(interval, n, majorInt, i).to.y == 0.0
    ensures LineAlongZ(interval, n, majorInt, i).from.y == 0.0 && LineAlongZ(interval, n, majorInt, i).to.y == 0.0
  {
    var q := interval / (n as real);
    assert (n as real) * q == interval;
    assert ((i + 1) as real) * q == (i as real) * q + q;
    if interval >= 0.0 {
      MulMonotone(0.0, i as real, q);
      MulMonotone(i as real, n as real, q);
    }
  }

  // ---------------------------------------------------------------- frustum

  /** The depth stream's calibration: its resolution and whatever else the
      driver's deprojection reads. */
  datatype Intrinsics = Intrinsics(width: int, height: int, ppx: real, ppy: real, fx: real, fy: real)

  /** rs2_deproject_pixel_to_point(intrinsics, [px, py], depth), a driver
      function the model takes as given. */
  type Deprojection = (Intrinsics, real, real, real) -> Vec3

  datatype Segment = Segment(from: Vec3, to: Vec3)

  /** The image corners deprojected at depth d: top left, top right, bottom
      right, bottom left. */
  function Corners(intr: Intrinsics, deproject: Deprojection, d: int): seq<Vec3>
  {
    var w, h := intr.width as real, intr.height as real;
    [deproject(intr, 0.0, 0.0, d as real), deproject(intr, w, 0.0, d as real),
     deproject(intr, w, h, d as real), deproject(intr, 0.0, h, d as real)]
  }

  /** The eight segments of one depth slice, in the order they are batched:
      a ray from the origin to each corner as it is deprojected, then the
      four edges TL-TR, TR-BR, BR-BL, BL-TL. */
  function SliceSegments(intr: Intrinsics, deproject: Deprojection, d: int): seq<Segment>
  {
    var c := Corners(intr, deproject, d);
    [Segment(Origin, c[0]), Segment(Origin, c[1]), Segment(Origin, c[2]), Segment(Origin, c[3]),
     Segment(c[0], c[1]), Segment(c[1], c[2]), Segment(c[2], c[3]), Segment(c[3], c[0])]
  }

  /** Four segments, each starting where the previous one ends and the last
      ending where the first starts. */
  ghost predicate ClosedLoop(edges: seq<Segment>)
  {
    |edges| == 4 &&
    edges[0].to == edges[1].from && edges[1].to == edges[2].from &&
    edges[2].to == edges[3].from && edges[3].to == edges[0].from
  }

  /** Each slice is four rays from the camera centre to the four corners and
      a closed quadrilateral through those same corners, in the same order. */
  lemma SliceIsRaysAndClosedLoop(intr: Intrinsics, deproject: Deprojection, d: int)
    ensures |SliceSegments(intr, deproject, d)| == 8
    ensures SliceSegments(intr, deproject, d)[..4] == seq(4, j requires 0 <= j < 4 => Segment(Origin, Corners(intr, deproject, d)[j]))
    ensures ClosedLoop(SliceSegments(intr, deproject, d)[4..])
    ensures forall j :: 0 <= j < 4 ==> SliceSegments(intr, deproject, d)[4..][j].from == Corners(intr, deproject, d)[j]
  {
    var c := Corners(intr, deproject, d);
    var s := SliceSegments(intr, deproject, d);
    assert s[..4] == [Segment(Origin, c[0]), Segment(Origin, c[1]), Segment(Origin, c[2]), Segment(Origin, c[3])];
    assert s[4..] == [Segment(c[0], c[1]), Segment(c[1], c[2]), Segment(c[2], c[3]), Segment(c[3], c[0])];
  }

  /** frustum(intrinsics): three slices at depths 1, 3 and 5, 24 segments. */
  method Frustum(intr: Intrinsics, deproject: Deprojection) returns (segments: seq<Segment>)
    ensures |segments| == 24
    ensures forall k :: 0 <= k < 3 ==> segments[8 * k .. 8 * k + 8] == SliceSegments(intr, deproject, 2 * k + 1)
  {
    var w, h := intr.width as real, intr.height as real;
    segments := [];
    var d := 1;
    while d < 6
      invariant 1 <= d <= 7 && d % 2 == 1
      invariant |segments| == 4 * (d - 1)
      invariant forall k :: 0 <= k < (d - 1) / 2 ==> segments[8 * k .. 8 * k + 8] == SliceSegments(intr, deproject, 2 * k + 1)
    {
      ghost var before := segments;
      var topLeft := deproject(intr, 0.0, 0.0, d as real);
      segments := segments + [Segment(Origin, topLeft)];
      var topRight := deproject(intr, w, 0.0, d as real);
      segments := segments + [Segment(Origin, topRight)];
      var bottomRight := deproject(intr, w, h, d as real);
      segments := segments + [Segment(Origin, bottomRight)];
      var bottomLeft := deproject(intr, 0.0, h, d as real);
      segments := segments + [Segment(Origin, bottomLeft)];

      segments := segments + [Segment(topLeft, topRight)];
      segments := segments + [Segment(topRight, bottomRight)];
      segments := segments + [Segment(bottomRight, bottomLeft)];
      segments := segments + [Segment(bottomLeft, topLeft)];

      assert segments == before + SliceSegments(intr, deproject, d);
      SlicesKept(before, SliceSegments(intr, deproject, d), (d - 1) / 2);
      d := d + 2;
    }
  }

  /** Appending an eight-segment slice keeps the earlier slices in place. */
  lemma SlicesKept(before: seq<Segment>, slice: seq<Segment>, m: nat)
    requires |before| == 8 * m && |slice| == 8
    ensures (before + slice)[8 * m .. 8 * m + 8] == slice
    ensures forall k :: 0 <= k < m ==> (before + slice)[8 * k .. 8 * k + 8] == before[8 * k .. 8 * k + 8]
  {
  }

  // ---------------------------------------------------------------- labels

  datatype Anchor = TopLeft | BottomLeft

  datatype Label = Label(text: string, x: int, y: int, anchor: Anchor)

  /** draw_text(fontsize, margin, height, video_width): the point-cloud title
      in the top-left corner of the 3D view, then one caption per video quad
      along the bottom edge, each video_width further right. */
  function DrawTextLabels(margin: int, height: int, videoWidth: int): (r: seq<Label>)
    ensures |r| == 5
    ensures r[0].x == margin && r[0].y == height - margin && r[0].anchor == TopLeft
    ensures forall k :: 1 <= k < 5 ==> r[k].x - margin == (k - 1) * videoWidth && r[k].y == 0 && r[k].anchor == BottomLeft
  {
    [Label("LiDAR POINTCLOUD", margin, height - margin, TopLeft),
     Label("COLOR", margin, 0, BottomLeft),
     Label("INFRARED", margin + videoWidth, 0, BottomLeft),
     Label("DEPTH", margin + 2 * videoWidth, 0, BottomLeft),
     Label("CONFIDENCE", margin + 3 * videoWidth, 0, BottomLeft)]
  }

}
