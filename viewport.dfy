/** The window layout on_draw in lidar.py computes every frame: a strip of
    four equal video quads along the bottom of the window, whose height keeps
    the depth stream's aspect ratio, and above it the 3D viewport with the
    remaining rows. Rectangles are in GL window coordinates, which count rows
    up from the bottom-left corner. */
module Viewport {
  import opened Wrappers
  import GraphicsUtil

  datatype Rect = Rect(x: int, y: int, width: int, height: int)

  /** The four video quads (color, infrared, depth, confidence), the 3D
      viewport and the aspect ratio its perspective projection uses. */
  datatype Layout = Layout(videoWidth: int, videoHeight: int, quads: seq<Rect>, scene: Rect, aspect: real)

  /** GLException is what pyglet raises, with its default GL error checking,
      when a GL call records GL_INVALID_VALUE. */
  datatype LayoutError = ZeroDivisionError | GLException

  /** int(width / 4) of a window width. */
  function VideoWidth(width: nat): (vw: nat)
    ensures 4 * vw <= width < 4 * vw + 4
    ensures width - 4 * vw == width % 4
  {
    width / 4
  }

  /** int(video_width * (depth_h / depth_w)): the quad height that keeps the
      depth stream's aspect ratio, rounded down. On exact non-negative
      numbers this is video_width * depth_h div depth_w. */
  function VideoHeight(videoWidth: nat, depthW: nat, depthH: nat): (vh: int)
    requires depthW > 0
    ensures vh >= 0
    ensures vh * depthW <= videoWidth * depthH < (vh + 1) * depthW
  {
    var p := videoWidth * depthH;
    DivBounds(p, depthW);
    p / depthW
  }

  lemma DivBounds(p: nat, d: nat)
    requires d > 0
    ensures p / d >= 0 && (p / d) * d <= p < (p / d + 1) * d
  {
    var q, m := p / d, p % d;
    assert p == q * d + m && 0 <= m < d;
    assert (q + 1) * d == q * d + d;
  }

  /** The per-frame layout for a window of width by height pixels. Dividing
      by the depth width fails first; a strip with no rows makes glOrtho's
      bottom and top equal, and a strip taller than the window gives the 3D
      viewport a negative height, both of which GL rejects; a 3D viewport
      with no rows fails the aspect ratio's division. */
  function ComputeLayout(width: nat, height: nat, depthW: nat, depthH: nat): (r: Result<Layout, LayoutError>)
    ensures depthW == 0 ==> r == Err(ZeroDivisionError)
    ensures depthW > 0 ==>
      var vh := VideoHeight(VideoWidth(width), depthW, depthH);
      (r.Ok? <==> vh > 0 && height > vh) &&
      (vh == 0 ==> r == Err(GLException)) &&
      (vh > 0 && height < vh ==> r == Err(GLException)) &&
      (vh > 0 && height == vh ==> r == Err(ZeroDivisionError))
    ensures r.Ok? ==>
      var l := r.value;
      var vw, vh := l.videoWidth, l.videoHeight;
      // the quads are equally wide, side by side from x = 0 in the bottom strip
      vw == width / 4 && vh > 0 && |l.quads| == 4 &&
      l.quads[0].x == 0 &&
      (forall k :: 0 <= k < 4 ==> l.quads[k].y == 0 && l.quads[k].width == vw && l.quads[k].height == vh) &&
      (forall k :: 0 <= k < 3 ==> l.quads[k].x + l.quads[k].width == l.quads[k + 1].x) &&
      // they fit in the window with width % 4 columns to spare
      l.quads[3].x + l.quads[3].width <= width &&
      width - (l.quads[3].x + l.quads[3].width) == width % 4 &&
      // the 3D viewport starts on the strip's top edge and takes the rows above it
      l.scene == Rect(0, vh, width, height - vh) &&
      l.scene.y + l.scene.height == height &&
      l.scene.height > 0 && l.aspect * (l.scene.height as real) == width as real
  {
    if depthW == 0 then
      Err(ZeroDivisionError)
    else
      var videoWidth := VideoWidth(width);
      var videoHeight := VideoHeight(videoWidth, depthW, depthH);
      var sceneHeight := height - videoHeight;
      var quads := [Rect(0, 0, videoWidth, videoHeight),
                    Rect(videoWidth, 0, videoWidth, videoHeight),
                    Rect(videoWidth * 2, 0, videoWidth, videoHeight),
                    Rect(videoWidth * 3, 0, videoWidth, videoHeight)];
      if videoHeight == 0 then
        Err(GLException)
      else if sceneHeight < 0 then
        Err(GLException)
      else if sceneHeight == 0 then
        Err(ZeroDivisionError)
      else
        Ok(Layout(videoWidth, videoHeight, quads, Rect(0, videoHeight, width, sceneHeight),
                  (width as real) / (sceneHeight as real)))
  }

  /** A column c of the strip lies in slot k of width vw exactly when k is
      c div vw. */
  lemma ColumnInSlot(c: int, k: int, vw: int)
    requires vw > 0
    ensures k * vw <= c < k * vw + vw <==> k == c / vw
  {
    var q := c / vw;
    assert q * vw <= c < q * vw + vw;
    if k * vw <= c < k * vw + vw {
      if k < q {
        MulMonotone(k + 1, q, vw);
      } else if k > q {
        MulMonotone(q + 1, k, vw);
      }
    }
  }

  lemma MulMonotone(a: int, b: int, m: int)
    requires a <= b && m >= 0
    ensures a * m <= b * m
  {
    assert b * m - a * m == (b - a) * m;
  }

  /** The four quads tile the first 4 * vw columns: every such column lies
      in exactly one quad, the one c div vw names. */
  lemma QuadsPartitionStrip(width: nat, height: nat, depthW: nat, depthH: nat, c: int)
    requires ComputeLayout(width, height, depthW, depthH).Ok? && 0 <= c < 4 * (width / 4)
    ensures var l := ComputeLayout(width, height, depthW, depthH).value;
      var k := c / l.videoWidth;
      0 <= k < 4 && l.quads[k].x <= c < l.quads[k].x + l.quads[k].width &&
      forall j :: 0 <= j < 4 && l.quads[j].x <= c < l.quads[j].x + l.quads[j].width ==> j == k
  {
    var l := ComputeLayout(width, height, depthW, depthH).value;
    var vw := l.videoWidth;
    assert vw > 0;
    assert l.quads[1].x == 1 * vw && l.quads[2].x == 2 * vw && l.quads[3].x == 3 * vw;
    assert forall j :: 0 <= j < 4 ==> l.quads[j].x == j * vw;
    var k := c / vw;
    ColumnInSlot(c, k, vw);
    assert 0 <= k;
    if k >= 4 {
      MulMonotone(4, k, vw);
    }
    forall j | 0 <= j < 4 && l.quads[j].x <= c < l.quads[j].x + l.quads[j].width
      ensures j == k
    {
      ColumnInSlot(c, j, vw);
    }
  }

  /** The captions draw_text places on the 3D viewport's bottom edge, which
      is the strip's top edge, start margin pixels into their quads, so each
      names the feed just below it; the title sits margin pixels inside the
      window's top-left corner. */
  lemma LabelsLineUpWithQuads(width: nat, height: nat, depthW: nat, depthH: nat, margin: int)
    requires ComputeLayout(width, height, depthW, depthH).Ok?
    ensures var l := ComputeLayout(width, height, depthW, depthH).value;
      var labels := GraphicsUtil.DrawTextLabels(margin, l.scene.height, l.videoWidth);
      labels[0].x == margin && l.scene.y + labels[0].y == height - margin &&
      forall k :: 0 <= k < 4 ==>
        labels[k + 1].x == l.quads[k].x + margin &&
        l.scene.y + labels[k + 1].y == l.quads[k].y + l.quads[k].height
  {
    var l := ComputeLayout(width, height, depthW, depthH).value;
    var labels := GraphicsUtil.DrawTextLabels(margin, l.scene.height, l.videoWidth);
    assert labels[2].x - margin == l.videoWidth;
    assert labels[3].x - margin == 2 * l.videoWidth;
    assert labels[4].x - margin == 3 * l.videoWidth;
  }

}
