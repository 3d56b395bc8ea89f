/** The device helpers of lidar_util.py that hold logic of their own: the
    pixel-format translation, the sizing of the display image buffers and the
    search for a colour sensor. The driver calls they wrap are replaced by the
    values they return. */
module LidarUtil {
  import opened Wrappers

  /** The driver's pixel formats (rs.format). */
  datatype PixelFormat =
    | Any | Z16 | Disparity16 | Xyz32f | Yuyv | Rgb8 | Bgr8 | Rgba8 | Bgra8
    | Y8 | Y16 | Raw10 | Raw16 | Raw8 | Uyvy | MotionRaw | MotionXyz32f
    | GpioRaw | SixDof | Disparity32 | Y10bpack | Distance | Mjpeg | Y8i
    | Y12i | Inzi | Invi | W10 | Z16h

  datatype LookupError = KeyError(key: PixelFormat)

  /** The dictionary convert_fmt looks formats up in. Depth (z16) is shown
      after colorizing, hence as RGB. */
  const DisplayFormats: map<PixelFormat, string> :=
    map[Rgb8 := "RGB", Bgr8 := "BGR", Rgba8 := "RGBA", Bgra8 := "BGRA",
        Y8 := "L", Raw8 := "L", Z16 := "RGB"]

  /** convert_fmt(fmt): the display format for a driver format, or KeyError. */
  function ConvertFmt(fmt: PixelFormat): (r: Result<string, LookupError>)
    ensures r.Ok? <==> fmt in {Rgb8, Bgr8, Rgba8, Bgra8, Y8, Raw8, Z16}
    ensures r.Err? ==> r.error == KeyError(fmt)
    ensures fmt == Rgb8 ==> r == Ok("RGB")
    ensures fmt == Bgr8 ==> r == Ok("BGR")
    ensures fmt == Rgba8 ==> r == Ok("RGBA")
    ensures fmt == Bgra8 ==> r == Ok("BGRA")
    ensures fmt == Y8 || fmt == Raw8 ==> r == Ok("L")
    ensures fmt == Z16 ==> r == Ok("RGB")
  {
    if fmt in DisplayFormats then Ok(DisplayFormats[fmt]) else Err(KeyError(fmt))
  }

  /** Bytes per pixel of the frames a stream of this format delivers to the
      display buffer (depth frames arrive colorized, as rgb8). */
  function DisplayedBytesPerPixel(fmt: PixelFormat): nat
  {
    match fmt
    case Rgb8 | Bgr8 | Z16 => 3
    case Rgba8 | Bgra8 => 4
    case Y8 | Raw8 => 1
    case _ => 0
  }

  /** Every supported format is displayed with one channel per byte of the
      pixels the stream delivers (a pyglet format string names one channel
      per character). */
  lemma DisplayFormatMatchesPixelSize(fmt: PixelFormat)
    requires ConvertFmt(fmt).Ok?
    ensures |ConvertFmt(fmt).value| == DisplayedBytesPerPixel(fmt) > 0
  {
  }

  /** What the driver reports about a stream: resolution and native format. */
  datatype StreamProfile = StreamProfile(width: nat, height: nat, format: PixelFormat)

  /** pyglet.image.ImageData(w, h, fmt, data). */
  datatype ImageData = ImageData(width: nat, height: nat, fmt: string, data: seq<bv8>)

  /** image_from_stream(pipeline, stream): a zeroed buffer of w * h * 3 bytes,
      whatever the format, wrapped in an image of the stream's display format. */
  function ImageFromStream(profile: StreamProfile): (r: Result<(ImageData, string), LookupError>)
    ensures r.Ok? <==> ConvertFmt(profile.format).Ok?
    ensures r.Err? ==> r.error == KeyError(profile.format)
    ensures r.Ok? ==>
      var (image, fmt) := r.value;
      fmt == ConvertFmt(profile.format).value && image.fmt == fmt &&
      image.width == profile.width && image.height == profile.height &&
      |image.data| == profile.width * profile.height * 3 &&
      forall i :: 0 <= i < |image.data| ==> image.data[i] == 0
  {
    var w, h := profile.width, profile.height;
    var emptyImage := seq(w * h * 3, _ => 0 as bv8);
    match ConvertFmt(profile.format)
    case Err(e) => Err(e)
    case Ok(fmt) => Ok((ImageData(w, h, fmt, emptyImage), fmt))
  }

  /** The formats main enables on the depth, color, infrared and confidence
      streams. */
  const ConfiguredFormats: set<PixelFormat> := {Z16, Rgb8, Y8, Raw8}

  /** The w * h * 3 byte buffer holds a whole frame of the displayed pixels
      exactly when the format has at most three bytes per pixel: true of every
      configured stream, false of rgba8 and bgra8. */
  lemma ImageBufferHoldsFrame(profile: StreamProfile)
    requires ConvertFmt(profile.format).Ok?
    ensures var w, h := profile.width, profile.height;
      w * h > 0 ==>
        (w * h * DisplayedBytesPerPixel(profile.format) <= |ImageFromStream(profile).value.0.data|
         <==> profile.format !in {Rgba8, Bgra8})
    ensures profile.format in ConfiguredFormats ==> profile.format !in {Rgba8, Bgra8}
  {
    var w, h := profile.width, profile.height;
    var b := DisplayedBytesPerPixel(profile.format);
    if w * h > 0 && profile.format in {Rgba8, Bgra8} {
      assert b == 4;
      assert w * h * 4 > w * h * 3;
    }
  }

  // ---------------------------------------------------------------- get_config

  const RgbCameraName: string := "RGB Camera"
  const NoColorSensorMessage: string := "The app requires Depth camera with Color sensor"

  datatype ConfigError = UnboundLocalError | IOError(message: string)

  datatype ConfigOutcome = Configured | Raised(error: ConfigError)

  /** get_config as written: the loop assigns found_rgb only when it meets the
      colour sensor, so when there is none the later test of found_rgb reads
      an unbound local (None below) and raises UnboundLocalError instead of
      the intended IOError. */
  method GetConfigAsWritten(sensorNames: seq<string>) returns (r: ConfigOutcome)
    ensures r == Configured <==> RgbCameraName in sensorNames
    ensures r != Configured ==> r == Raised(UnboundLocalError)
  {
    var foundRgb: Option<bool> := None;
    var i := 0;
    while i < |sensorNames|
      invariant 0 <= i <= |sensorNames|
      invariant foundRgb == None
      invariant RgbCameraName !in sensorNames[..i]
    {
      if sensorNames[i] == RgbCameraName {
        foundRgb := Some(true);
        break;
      }
      i := i + 1;
    }
    match foundRgb
    case None =>
      r := Raised(UnboundLocalError);
    case Some(found) =>
      r := if !found then Raised(IOError(NoColorSensorMessage)) else Configured;
  }

  /** get_config with found_rgb initialised to False before the search: a
      device without a colour sensor raises the intended IOError. */
  method GetConfig(sensorNames: seq<string>) returns (r: ConfigOutcome)
    ensures r == Configured <==> RgbCameraName in sensorNames
    ensures r != Configured ==> r == Raised(IOError(NoColorSensorMessage))
  {
    var foundRgb := false;
    var i := 0;
    while i < |sensorNames|
      invariant 0 <= i <= |sensorNames|
      invariant !foundRgb
      invariant RgbCameraName !in sensorNames[..i]
    {
      if sensorNames[i] == RgbCameraName {
        foundRgb := true;
        break;
      }
      i := i + 1;
    }
    if !foundRgb {
      return Raised(IOError(NoColorSensorMessage));
    }
    return Configured;
  }

  /** A device with a depth and a motion sensor but no colour sensor: the
      code as written fails with UnboundLocalError, the corrected search with
      the IOError it was meant to raise. */
  method NoColorSensorScenario() returns (asWritten: ConfigOutcome, corrected: ConfigOutcome)
    ensures asWritten == Raised(UnboundLocalError)
    ensures corrected == Raised(IOError(NoColorSensorMessage))
  {
    var sensors := ["L500 Depth Sensor", "Motion Module"];
    assert RgbCameraName != sensors[0] && RgbCameraName != sensors[1];
    asWritten := GetConfigAsWritten(sensors);
    corrected := GetConfig(sensors);
  }

}
