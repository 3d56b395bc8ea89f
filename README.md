# exhibit-lidar: a Dafny model of the sensor-to-render bookkeeping

The exhibit shows a depth camera's live output as a rotating 3D point cloud
above four video feeds (color, infrared, colorized depth, confidence). This
project models the logic that sits between the driver and OpenGL:

- **Lidar** (`lidar.dfy`, class `AppState` of lidar.py): the five-sample
  accelerometer window, kept newest first and averaged over the whole window
  on every update, the sensor pitch and roll derived from that average, and
  the camera yaw that every draw tick turns by `spin_speed`.
- **SensorTick** (`sensor_tick.dfy`, `get_sensor_data` of lidar.py): the
  per-tick hand-off. No frame set means nothing changes. Otherwise the window
  takes the accelerometer sample, the four display images take the new
  frames, and the point cloud is copied into the vertex list. The vertex list
  is the class `GeometryBuffer`, holding two arrays. It is reallocated only
  when its size differs from the new data.
- **Viewport** (`viewport.dfy`, the layout arithmetic of `on_draw`): four
  equal quads side by side in a strip along the bottom of the window, and
  the 3D viewport in the rows above it. GL window coordinates count rows up
  from the bottom-left corner, so the strip starts at y = 0.
- **GraphicsUtil** (`graphics_util.dfy`, graphics_util.py): `copy` as an
  in-place array write with numpy's size rule, the grid and frustum line
  batches as sequences built by loops, and the label positions of
  `draw_text`.
- **LidarUtil** (`lidar_util.dfy`, lidar_util.py): the pixel-format map, the
  sizing of the display image buffers, and the search for the colour sensor.
- `wrappers.dfy` and `vectors.dfy` hold `Option`/`Result` and a
  three-component vector of reals.

Driver results enter the model as parameters. These are the frame set from
a poll, the deprojection function, `atan2` and `sqrt`, and the sensor names.

Three behaviours of the code that a reader might not expect, all modelled as
the code has them:
- At rest, (0, -9.8, 0), the code gives a pitch of 0 degrees, not 90.
  `atan2(-9.8, 0)` is -90 degrees, and the code adds 90 (`Lidar.AtRestIsLevel`).
- The vertices are reshaped to the startup depth resolution (lidar.py:224).
  So a frame with a different point count raises before the resize test is
  reached. The store keeps its startup size, and the resize branch never
  runs (`SensorTick.GetSensorData`).
- A frame set without an accelerometer frame raises; the orientation is not
  just left unchanged.

## Model

| member | source | states |
|---|---|---|
| `Lidar.RollOne` | lidar.py:49 | `np.roll` by one row: same length, the last row wraps to slot 0, every other row moves back one slot |
| `Lidar.RollOneIsPermutation` | lidar.py:49 | rolling the window only reorders it: the multiset of samples is unchanged |
| `Lidar.Shifted` | lidar.py:49-50 | after an update the window keeps its length, slot 0 is the new sample, slot i is the old slot i-1, and the oldest sample is gone |
| `Lidar.Mean` | lidar.py:51 | the average times the window length is the componentwise sum of all entries |
| `Lidar.SumOfRepeat` | lidar.py:44 | the sum of n copies of a sample is n times that sample |
| `Lidar.MeanOfRepeat` | lidar.py:44-45 | a window of n identical samples averages to that sample, so the initial window of (0, -9.8, 0) agrees with the initial average |
| `Lidar.UpdatedWithHoldsNewestFirst` | lidar.py:47-51 | after any run of updates, slot i holds the i-th newest sample, or the remaining old entry; after N updates no old sample is left |
| `Lidar.YawAfterTicksIsLinear` | lidar.py:59 | after k draw ticks the yaw is yaw0 - k * spin_speed |
| `Lidar.DefaultSpinFullTurn` | lidar.py:18 | at the default 0.25 degrees per frame, 1440 ticks turn the camera by exactly -360 degrees |
| `Lidar.AtRestIsLevel` | lidar.py:54-58 | if atan2(-9.8, 0) is -pi/2, the at-rest reading gives sensor pitch 0 and roll 0 |
| `Lidar.AppState.constructor` | lidar.py:13-45 | spin speed 0.25, window of 5 at-rest samples, average equal to their mean, angles 0 |
| `Lidar.AppState.UpdateImu` | lidar.py:47-51 | the window becomes the shifted window, the average is the mean of the whole new window, and all other fields are unchanged |
| `Lidar.AppState.UpdateScene` | lidar.py:53-59 | yaw drops by exactly spin_speed; pitch and roll come from the average; the IMU window and average are untouched |
| `Lidar.UpdatedWithThenOne` | lidar.py:47-50 | feeding one more sample after a run equals shifting it into the window that run left |
| `Lidar.SpinTicks` | lidar.py:53-59 | k draw ticks in a row leave the yaw at YawAfterTicks, which is yaw0 − k·spin_speed; the window and average are untouched, and after at least one tick the tilt is that of the average |
| `Lidar.FeedSamples` | lidar.py:47-51 | samples fed one per tick leave the window equal to UpdatedWith of the old window, slot i holding the i-th newest sample, and the average equal to the mean of that window; the angles are untouched |
| `GraphicsUtil.SliceAssignment` | graphics_util.py:75-76 | numpy's `dst[:] = src` succeeds iff the sizes match or the source has one element; the result has the destination's length and holds only source values |
| `GraphicsUtil.Copy` | graphics_util.py:75-76 | copy writes the flattened source into dst in place; on a size mismatch dst is unchanged |
| `GraphicsUtil.Ravel3At` | graphics_util.py:76 | the flattened vertex array is 3 floats per point, with point i at 3i, 3i+1, 3i+2 |
| `GraphicsUtil.Ravel3Length` | graphics_util.py:76 | the flattened vertex array holds 3 floats per point |
| `GraphicsUtil.Ravel2At` | graphics_util.py:76 | the flattened texture-coordinate array is 2 floats per point, with point i at 2i, 2i+1 |
| `GraphicsUtil.Ravel2Length` | graphics_util.py:76 | the flattened texture-coordinate array holds 2 floats per point |
| `GraphicsUtil.Grid` | graphics_util.py:45-72 | n = 0 raises; n < 0 gives no lines; major_int = 0 raises; otherwise exactly 2(n+1) lines: n+1 along x, then n+1 along z |
| `GraphicsUtil.GridShadeClassifies` | graphics_util.py:56-60 | a line is drawn in the major grey iff its index is a multiple of major_int, and in the minor grey otherwise |
| `GraphicsUtil.GridSpansInterval` | graphics_util.py:48-49 | lines run from -interval/2 at i = 0 to +interval/2 at i = n, spaced interval/n apart; end points have y = 0 and lie within ±interval/2 |
| `GraphicsUtil.SliceIsRaysAndClosedLoop` | graphics_util.py:27-40 | each depth slice is 4 rays from the origin to the corners, then the edges TL→TR→BR→BL→TL as a closed loop |
| `GraphicsUtil.SlicesKept` | graphics_util.py:26 | appending a slice keeps the earlier slices in place |
| `GraphicsUtil.Frustum` | graphics_util.py:21-42 | 24 segments: one slice each at depths 1, 3 and 5, in that order |
| `GraphicsUtil.DrawTextLabels` | graphics_util.py:88-133 | five labels: the title margin pixels inside the top-left corner, then four captions on the bottom edge at margin + k·video_width |
| `LidarUtil.ConvertFmt` | lidar_util.py:6-16 | defined on exactly seven formats: rgb8, bgr8, rgba8 and bgra8 map to RGB, BGR, RGBA and BGRA; y8 and raw8 map to L; z16 maps to RGB; any other format raises KeyError |
| `LidarUtil.DisplayFormatMatchesPixelSize` | lidar_util.py:8-15 | each display format has one channel per byte of the pixels the stream delivers |
| `LidarUtil.ImageFromStream` | lidar_util.py:56-62 | a zeroed buffer of exactly w·h·3 bytes whatever the format; the returned format is convert_fmt of the native format, and its KeyError is propagated |
| `LidarUtil.ImageBufferHoldsFrame` | lidar_util.py:59 | the w·h·3 buffer holds a whole displayed frame iff the format is neither rgba8 nor bgra8; this is true of every stream the app configures |
| `LidarUtil.GetConfigAsWritten` | lidar_util.py:25-31 | succeeds iff some sensor is named 'RGB Camera'; otherwise it raises UnboundLocalError |
| `LidarUtil.GetConfig` | lidar_util.py:25-33 | succeeds iff some sensor is named 'RGB Camera'; otherwise it raises the IOError with the colour-sensor message |
| `LidarUtil.NoColorSensorScenario` | lidar_util.py:25-31 | on a device with only depth and motion sensors, the code as written raises UnboundLocalError and the corrected code raises IOError |
| `Viewport.VideoWidth` | lidar.py:112 | the quad width is width div 4: 4·vw ≤ width < 4·vw + 4, with width mod 4 columns left over |
| `Viewport.VideoHeight` | lidar.py:113 | the quad height is the depth aspect ratio times the quad width, rounded down (vh·dw ≤ vw·dh < (vh+1)·dw) |
| `Viewport.ComputeLayout` | lidar.py:110-132 | depth width 0 raises ZeroDivisionError; a strip of height 0 (glOrtho with bottom = top) or taller than the window (glViewport with a negative height) raises GLException; a 3D viewport of height 0 raises ZeroDivisionError; it succeeds iff vh > 0 and height > vh, and then gives four quads of width vw and height vh at x = 0, vw, 2vw, 3vw along the bottom edge, adjacent, with width mod 4 columns to spare, and the 3D viewport above them at y = vh with height − vh rows and aspect width / (height − vh) |
| `Viewport.QuadsPartitionStrip` | lidar.py:123-126 | every column below 4·vw lies in exactly one quad, quad c div vw |
| `Viewport.ColumnInSlot` | lidar.py:123-126 | column c lies in slot k of width vw iff k = c div vw |
| `Viewport.LabelsLineUpWithQuads` | lidar.py:179 | with margin m, caption k sits at quad k's x + m on the 3D viewport's bottom edge, which is quad k's top edge in window rows, so it names the feed below it; the title sits m pixels below the window's top edge |
| `SensorTick.GeometryBuffer.constructor` | lidar.py:89 | depth_w·depth_h points in two fresh, distinct arrays: 3 zeroed floats per point for vertices and 2 for texture coordinates |
| `SensorTick.GeometryBuffer.Resize` | lidar.py:228 | fresh storage for the new point count, 3 and 2 floats per point |
| `SensorTick.GeometryBuffer.EnsureCapacity` | lidar.py:227-228 | reports a reallocation iff the vertex length differs from the new size; without one the same arrays are kept, with one there is fresh storage for size / 3 points |
| `SensorTick.GeometryBuffer.Update` | lidar.py:233-234 | copies vertices, then texture coordinates, in place; a mismatch stops at that copy and leaves the arrays from there on unchanged |
| `SensorTick.DisplayImage.constructor` | lidar_util.py:61 | the image takes the buffer, its format and a row pitch of width × channels |
| `SensorTick.DisplayImage.SetData` | lidar.py:203 | set_data replaces format, pitch and pixels |
| `SensorTick.ShowFrames` | lidar.py:200-219 | each of the four display images takes its frame's pixels, its own format and the frame's row stride as pitch |
| `SensorTick.HandOffPointCloud` | lidar.py:222-234 | a point count other than depth_w·depth_h raises before the store is touched; the store is reallocated only if its size differs; the tick completes iff the texture coordinates match the points, and then the store equals the flattened vertices and texture coordinates; when the texture-coordinate copy raises, the vertices already hold the new cloud and, without a reallocation, the texture coordinates keep their old values |
| `SensorTick.GetSensorData` | lidar.py:185-234 | no frame set changes nothing, and a missing accelerometer frame raises with nothing changed. Otherwise: the window shifts in the sample, the images take the new frames with the row stride as pitch, and the point cloud is handed off as in HandOffPointCloud, including the vertices already copied when the texture-coordinate copy raises; spin speed, camera pitch and the window length are never changed |
| `SensorTick.StartupThenTick` | lidar.py:185-234 | from the store allocated at startup (lidar.py:89) and the four display images built by image_from_stream for the configured formats (lidar.py:101-104), whose display formats are RGB, L, RGB, L, a tick whose point cloud has the startup resolution completes without reallocating |

## Findings

| source | as written | input that shows it | evidently intended | confidence | as-written member | corrected member |
|---|---|---|---|---|---|---|
| lidar_util.py:25-31 | `found_rgb` is only assigned inside the loop, when the colour sensor is found, so the test at line 30 reads an unbound local | a device whose sensors are named 'L500 Depth Sensor' and 'Motion Module' raises UnboundLocalError | raise IOError("The app requires Depth camera with Color sensor"), with `found_rgb = False` before the loop | high, not executed | `LidarUtil.GetConfigAsWritten` | `LidarUtil.GetConfig` |

## Left out

- The pyrealsense2 layer is out of the model. This covers pipeline start and stop, `set_option`, stream configuration, the depth filter chain, the colorizer and `pc.calculate`. Their outputs enter as the fields of `SensorTick.FrameSet`. `rs2_deproject_pixel_to_point` is a function parameter of `GraphicsUtil.Frustum`.
- OpenGL and pyglet calls are out of the model: matrices, viewports, texture blits, point drawing, `pyglet.text.Label` and `axes`. Their effect is external rendering. The model keeps only the values passed to them: rectangles, segments, label positions.
- ui_util.py (window creation and fullscreen) is not part of this model.
- `atan2` and `sqrt` are parameters, because they are floating-point transcendental functions. `Lidar.AtRestIsLevel` assumes the values of atan2 it needs.
- Numbers are exact reals; float32/float64 rounding is not modelled. `Viewport.VideoHeight` computes `int(vw * (dh/dw))` as the exact `vw * dh div dw`. A float quotient that rounds just below a whole number could make the source one pixel shorter.
- The event loop, `pyglet.clock.schedule`, the `try/finally` around `pipeline.stop`, and the FPS window caption are not modelled. None of them computes a value the model uses.
- `SensorTick.GeometryBuffer.Resize`: the contents right after a pyglet resize are left unspecified, because the allocator decides them. Every path copies over them, except a copy that fails.
- `SensorTick.GetSensorData`: a missing color, infrared, depth or confidence frame is not modelled. `frames.first` would raise, and the stream configuration rules it out.
- AppState's other settings are not fields of the model, because nothing modelled reads them. They are the sensor options, UI sizes, translation and distance, which only feed the driver or OpenGL.
- GL errors are modelled as pyglet raises them with its default error checking (`pyglet.options['debug_gl']`): a GL call that records GL_INVALID_VALUE raises GLException. Running with that check off would draw nothing for those layouts instead, and that mode is not modelled.
- `SensorTick.DisplayImage.SetData` stores the pixels as a value. The source passes `ctypes.data`, the raw address of the driver's frame buffer (lidar.py:203), so the image aliases driver memory until the next `set_data`. That aliasing and the frame's lifetime are not modelled.
