/** The sensor tick of lidar.py (get_sensor_data) and the point-cloud store it
    feeds (the pyglet vertex list created at startup). A tick that finds no
    frame set changes nothing; otherwise it updates the accelerometer window,
    replaces the four display images, and copies the new point cloud into the
    store, reallocating it only when its size differs. */
module SensorTick {
  import opened Wrappers
  import opened Vectors
  import GraphicsUtil
  import LidarUtil
  import Lidar

  /** The vertex list: count points, three vertex floats and two texture
      coordinates each. Repr is the set of objects it is made of. */
  class GeometryBuffer {
    var count: nat
    var vertices: array<real>
    var texCoords: array<real>
    ghost var Repr: set<object>

    ghost predicate Valid()
      reads this
    {
      Repr == {this, vertices, texCoords} &&
      vertices != texCoords && vertices.Length == 3 * count && texCoords.Length == 2 * count
    }

    /** vertex_list(count, 'v3f/stream', 't2f/stream'), zero filled. */
    constructor (count: nat)
      ensures Valid() && fresh(Repr) && this.count == count
      ensures vertices[..] == seq(3 * count, _ => 0.0)
      ensures texCoords[..] == seq(2 * count, _ => 0.0)
    {
      this.count := count;
      vertices := new real[3 * count](_ => 0.0);
      texCoords := new real[2 * count](_ => 0.0);
      Repr := {this, vertices, texCoords};
    }

    /** vertex_list.resize(newCount): fresh storage of the new size. What it
        holds before the next copy is left open. */
    method Resize(newCount: nat)
      requires Valid()
      modifies this
      ensures Valid() && fresh(Repr - old(Repr)) && count == newCount
      ensures fresh(vertices) && fresh(texCoords)
    {
      count := newCount;
      vertices := new real[3 * newCount];
      texCoords := new real[2 * newCount];
      Repr := {this, vertices, texCoords};
    }

    /** Reallocates only when the store's vertex length differs from size
        (the flattened size of the new vertices), to size / 3 points, and
        reports whether it did. */
    method EnsureCapacity(size: nat) returns (resized: bool)
      requires Valid()
      modifies this
      ensures Valid() && fresh(Repr - old(Repr))
      ensures resized == (old(vertices.Length) != size)
      ensures !resized ==>
        count == old(count) && vertices == old(vertices) && texCoords == old(texCoords) && Repr == old(Repr)
      ensures resized ==>
        count == size / 3 && fresh(vertices) && fresh(texCoords)
    {
      resized := vertices.Length != size;
      if resized {
        Resize(size / 3);
      }
    }

    /** Copies the flattened vertices, then the flattened texture coordinates,
        into the store in place; a size mismatch stops at that copy. */
    method Update(verts: seq<real>, tex: seq<real>) returns (ok: bool)
      requires Valid()
      modifies vertices, texCoords
      ensures Valid()
      ensures var v := GraphicsUtil.SliceAssignment(vertices.Length, verts);
        var t := GraphicsUtil.SliceAssignment(texCoords.Length, tex);
        ok == (v.Some? && t.Some?) &&
        (v.Some? ==> vertices[..] == v.value) &&
        (v.None? ==> vertices[..] == old(vertices[..])) &&
        (ok ==> texCoords[..] == t.value) &&
        (!ok ==> texCoords[..] == old(texCoords[..]))
    {
      ok := GraphicsUtil.Copy(vertices, verts);
      if ok {
        ok := GraphicsUtil.Copy(texCoords, tex);
      }
    }
  }

  /** A pyglet ImageData as far as the tick touches it: set_data replaces its
      format, row pitch and pixels. */
  class DisplayImage {
    var fmt: string
    var pitch: int
    var data: seq<bv8>

    constructor (image: LidarUtil.ImageData)
      ensures fmt == image.fmt && pitch == image.width * |image.fmt| && data == image.data
    {
      fmt := image.fmt;
      pitch := image.width * |image.fmt|;
      data := image.data;
    }

    method SetData(newFmt: string, newPitch: int, newData: seq<bv8>)
      modifies this
      ensures fmt == newFmt && pitch == newPitch && data == newData
    {
      fmt, pitch, data := newFmt, newPitch, newData;
    }
  }

  /** One video frame's pixels with the byte stride of its rows. */
  datatype VideoFrame = VideoFrame(pixels: seq<bv8>, rowStride: int)

  /** What one successful poll yields, after the driver's own processing:
      the accelerometer sample if the set carries one, the color, infrared,
      colorized filtered depth and confidence frames, and the point cloud the
      driver computed from the filtered depth frame. */
  datatype FrameSet = FrameSet(
    accel: Option<Vec3>,
    color: VideoFrame,
    infrared: VideoFrame,
    colorizedDepth: VideoFrame,
    confidence: VideoFrame,
    points: seq<Vec3>,
    texCoords: seq<GraphicsUtil.TexCoord>)

  datatype TickError =
    | MissingMotionFrame  // reading the motion data of an absent accelerometer frame (lidar.py:196)
    | ReshapeMismatch     // the point count is not depth_w * depth_h
    | CopyMismatch        // numpy refuses a copy between arrays of different sizes

  datatype TickOutcome = NoFrameSet | Updated | Raised(error: TickError)

  /** The image part of the tick: each display image takes its stream's new
      frame, with that stream's display format and row stride. */
  method ShowFrames(
    colorImage: DisplayImage, infraredImage: DisplayImage,
    depthImage: DisplayImage, confidenceImage: DisplayImage,
    colorFmt: string, infraredFmt: string, depthFmt: string, confidenceFmt: string,
    fs: FrameSet)
    requires colorImage != infraredImage && colorImage != depthImage && colorImage != confidenceImage
    requires infraredImage != depthImage && infraredImage != confidenceImage && depthImage != confidenceImage
    modifies colorImage, infraredImage, depthImage, confidenceImage
    ensures colorImage.fmt == colorFmt && colorImage.pitch == fs.color.rowStride &&
      colorImage.data == fs.color.pixels
    ensures infraredImage.fmt == infraredFmt && infraredImage.pitch == fs.infrared.rowStride &&
      infraredImage.data == fs.infrared.pixels
    ensures depthImage.fmt == depthFmt && depthImage.pitch == fs.colorizedDepth.rowStride &&
      depthImage.data == fs.colorizedDepth.pixels
    ensures confidenceImage.fmt == confidenceFmt && confidenceImage.pitch == fs.confidence.rowStride &&
      confidenceImage.data == fs.confidence.pixels
  {
    colorImage.SetData(colorFmt, fs.color.rowStride, fs.color.pixels);
    infraredImage.SetData(infraredFmt, fs.infrared.rowStride, fs.infrared.pixels);
    depthImage.SetData(depthFmt, fs.colorizedDepth.rowStride, fs.colorizedDepth.pixels);
    confidenceImage.SetData(confidenceFmt, fs.confidence.rowStride, fs.confidence.pixels);
  }

  /** The point-cloud part of the tick: reshape to the startup resolution,
      resize the store if its size differs, and copy the flattened vertices
      and texture coordinates in. */
  method HandOffPointCloud(buffer: GeometryBuffer, points: seq<Vec3>, texCoords: seq<GraphicsUtil.TexCoord>,
                           depthW: nat, depthH: nat)
    returns (outcome: TickOutcome)
    requires buffer.Valid()
    modifies buffer.Repr
    ensures buffer.Valid() && fresh(buffer.Repr - old(buffer.Repr))
    ensures outcome != NoFrameSet
    ensures |points| != depthW * depthH ==>
      outcome == Raised(ReshapeMismatch) && unchanged(buffer) && unchanged(buffer.vertices) && unchanged(buffer.texCoords)
    ensures |points| == depthW * depthH ==>
      buffer.count == depthW * depthH &&
      (old(buffer.count) == depthW * depthH ==>
         buffer.vertices == old(buffer.vertices) && buffer.texCoords == old(buffer.texCoords)) &&
      (outcome == Updated <==> |texCoords| == |points|) &&
      (outcome != Updated ==> outcome == Raised(CopyMismatch))
    ensures outcome == Updated ==>
      buffer.vertices[..] == GraphicsUtil.Ravel3(points) &&
      buffer.texCoords[..] == GraphicsUtil.Ravel2(texCoords)
    // a texture-coordinate mismatch raises after the vertices were copied
    ensures outcome == Raised(CopyMismatch) ==>
      buffer.vertices[..] == GraphicsUtil.Ravel3(points) &&
      (old(buffer.count) == depthW * depthH ==> buffer.texCoords[..] == old(buffer.texCoords[..]))
  {
    // the reshape to the startup resolution fails on any other point count
    if |points| != depthW * depthH {
      return Raised(ReshapeMismatch);
    }
    var verts := GraphicsUtil.Ravel3(points);
    var texcoords := GraphicsUtil.Ravel2(texCoords);
    GraphicsUtil.Ravel3Length(points);
    GraphicsUtil.Ravel2Length(texCoords);

    var ok;
    var resized := buffer.EnsureCapacity(|verts|);
    if resized {
      // fresh storage is filled through the vertex list's attribute setters,
      // the same slice copy as the one that follows
      ok := buffer.Update(verts, texcoords);
      if !ok {
        return Raised(CopyMismatch);
      }
    }
    ok := buffer.Update(verts, texcoords);
    if !ok {
      return Raised(CopyMismatch);
    }
    return Updated;
  }

  /** get_sensor_data: the per-tick hand-off from the sensor to the renderer. */
  method GetSensorData(
    state: Lidar.AppState, buffer: GeometryBuffer,
    colorImage: DisplayImage, infraredImage: DisplayImage,
    depthImage: DisplayImage, confidenceImage: DisplayImage,
    colorFmt: string, infraredFmt: string, depthFmt: string, confidenceFmt: string,
    depthW: nat, depthH: nat, frames: Option<FrameSet>)
    returns (outcome: TickOutcome)
    requires state.Valid() && buffer.Valid()
    requires colorImage != infraredImage && colorImage != depthImage && colorImage != confidenceImage
    requires infraredImage != depthImage && infraredImage != confidenceImage && depthImage != confidenceImage
    modifies state, buffer.Repr
    modifies colorImage, infraredImage, depthImage, confidenceImage
    ensures state.Valid() && buffer.Valid() && fresh(buffer.Repr - old(buffer.Repr))
    ensures state.spinSpeed == old(state.spinSpeed) && state.cameraPitch == old(state.cameraPitch)
    ensures state.cameraYaw == old(state.cameraYaw) && state.imuSampleWindow == old(state.imuSampleWindow)
    ensures state.sensorPitch == old(state.sensorPitch) && state.sensorRoll == old(state.sensorRoll)
    // no frame set (or no motion frame in it): nothing is touched
    ensures frames.None? ==> outcome == NoFrameSet
    ensures frames.Some? && frames.value.accel.None? ==> outcome == Raised(MissingMotionFrame)
    ensures frames.None? || frames.value.accel.None? ==>
      unchanged(state) && unchanged(buffer) && unchanged(buffer.vertices) && unchanged(buffer.texCoords) &&
      unchanged(colorImage) && unchanged(infraredImage) && unchanged(depthImage) && unchanged(confidenceImage)
    // otherwise the window takes the sample and the images take the new frames
    ensures frames.Some? && frames.value.accel.Some? ==>
      var fs := frames.value;
      state.imuSamples == Lidar.Shifted(old(state.imuSamples), fs.accel.value) &&
      state.imuAverage == Lidar.Mean(state.imuSamples) &&
      colorImage.fmt == colorFmt && colorImage.pitch == fs.color.rowStride &&
      colorImage.data == fs.color.pixels &&
      infraredImage.fmt == infraredFmt && infraredImage.pitch == fs.infrared.rowStride &&
      infraredImage.data == fs.infrared.pixels &&
      depthImage.fmt == depthFmt && depthImage.pitch == fs.colorizedDepth.rowStride &&
      depthImage.data == fs.colorizedDepth.pixels &&
      confidenceImage.fmt == confidenceFmt && confidenceImage.pitch == fs.confidence.rowStride &&
      confidenceImage.data == fs.confidence.pixels
    // a point count other than the startup resolution's fails before the store is touched
    ensures frames.Some? && frames.value.accel.Some? && |frames.value.points| != depthW * depthH ==>
      outcome == Raised(ReshapeMismatch) && unchanged(buffer) && unchanged(buffer.vertices) && unchanged(buffer.texCoords)
    // the store is then sized to the point count, reallocated only if it was not
    ensures frames.Some? && frames.value.accel.Some? && |frames.value.points| == depthW * depthH ==>
      buffer.count == depthW * depthH &&
      (old(buffer.count) == depthW * depthH ==>
         buffer.vertices == old(buffer.vertices) && buffer.texCoords == old(buffer.texCoords)) &&
      (outcome == Updated <==> |frames.value.texCoords| == |frames.value.points|) &&
      (outcome != Updated ==> outcome == Raised(CopyMismatch))
    // and a completed tick leaves it holding exactly the new point cloud
    ensures outcome == Updated ==>
      frames.Some? &&
      buffer.vertices[..] == GraphicsUtil.Ravel3(frames.value.points) &&
      buffer.texCoords[..] == GraphicsUtil.Ravel2(frames.value.texCoords)
    // a texture-coordinate mismatch raises after the vertices were copied
    ensures outcome == Raised(CopyMismatch) ==>
      frames.Some? &&
      buffer.vertices[..] == GraphicsUtil.Ravel3(frames.value.points) &&
      (old(buffer.count) == depthW * depthH ==> buffer.texCoords[..] == old(buffer.texCoords[..]))
  {
    if frames.None? {
      return NoFrameSet;
    }
    var fs := frames.value;

    // the accelerometer sample goes into the rolling window
    if fs.accel.None? {
      return Raised(MissingMotionFrame);
    }
    state.UpdateImu(fs.accel.value);

    ShowFrames(colorImage, infraredImage, depthImage, confidenceImage,
               colorFmt, infraredFmt, depthFmt, confidenceFmt, fs);

    outcome := HandOffPointCloud(buffer, fs.points, fs.texCoords, depthW, depthH);
  }

  /** Startup followed by one tick: the store is created for the depth
      resolution and the four display images with image_from_stream's zeroed
      buffers in their display formats; a frame set of the depth resolution
      then updates the store in place, without reallocating. */
  method StartupThenTick(depthW: nat, depthH: nat, colorW: nat, colorH: nat,
                         infraredW: nat, infraredH: nat, confidenceW: nat, confidenceH: nat,
                         fs: FrameSet)
    returns (outcome: TickOutcome, reallocated: bool, formats: seq<string>)
    requires fs.accel.Some? && |fs.points| == depthW * depthH && |fs.texCoords| == |fs.points|
    ensures outcome == Updated && !reallocated
    ensures formats == ["RGB", "L", "RGB", "L"]
  {
    var state := new Lidar.AppState();
    var buffer := new GeometryBuffer(depthW * depthH);
    var initial := buffer.vertices;
    // the display images of lidar.py:101-104, one per configured stream
    var color := LidarUtil.ImageFromStream(LidarUtil.StreamProfile(colorW, colorH, LidarUtil.Rgb8)).value;
    var infrared := LidarUtil.ImageFromStream(LidarUtil.StreamProfile(infraredW, infraredH, LidarUtil.Y8)).value;
    var depth := LidarUtil.ImageFromStream(LidarUtil.StreamProfile(depthW, depthH, LidarUtil.Z16)).value;
    var confidence := LidarUtil.ImageFromStream(LidarUtil.StreamProfile(confidenceW, confidenceH, LidarUtil.Raw8)).value;
    var colorImage := new DisplayImage(color.0);
    var infraredImage := new DisplayImage(infrared.0);
    var depthImage := new DisplayImage(depth.0);
    var confidenceImage := new DisplayImage(confidence.0);
    formats := [color.1, infrared.1, depth.1, confidence.1];
    outcome := GetSensorData(state, buffer, colorImage, infraredImage, depthImage, confidenceImage,
                             color.1, infrared.1, depth.1, confidence.1, depthW, depthH, Some(fs));
    reallocated := buffer.vertices != initial;
  }


}
