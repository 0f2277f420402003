# web-graphics-demo, verified core

This project models, in Dafny, the deterministic core of a browser demo of raymarching and particle renderers written in JavaScript: the uniform records the renderers keep and pack into GPU buffers, the renderer objects' lifecycle state, the input and GUI state machines that drive them, and the byte-level tile and image helpers of the elevation experiment. GPU, DOM and network calls are abstracted away. GPU objects are opaque handles, and the answers the browser would give (client sizes, fullscreen, typing, clock readings, random samples, fetched text) are parameters.

The modules follow the source files:

- **Values, Uniforms, Vector, Matrix** (utility/vector.js, utility/matrix.js and every `packUniforms`). A uniform record is a sequence of named values in key-insertion order. `Pack` is the vector/matrix/scalar dispatch of the renderers. `PackValues` is the `Object.values` variant of the particle simulator. The lemmas give the packing's length, its order, its behaviour on concatenation, and the fact that an assignment of a value of the same shape keeps the packed length. That fact matters because every GPU buffer is sized once from the first packing.
- **Lifecycle, RaymarcherGpu, GpuManager, WebGlManager, VoxelsGpu, LensingGpu, Particles, Pong.** These are the renderer classes, each with its default record, its packed length (40, 36, 44, 40, 36, 9 and 9 floats), its resolution sync capped at 2560×1440, its dispatch counts and viewports, its refresh and `destroy`, and its ping-pong swaps. Each class keeps a `Valid` invariant: the record keeps the shapes its writers rely on, and it fills the buffer.
- **Frames, RaymarcherEngine, RayMarcher, FractalsEngine.** These are the animation drivers: `update` copies the camera into the uniforms and restarts the accumulation when asked, and `render` uploads, draws and counts the frame. There is also save and load to local storage.
- **Controls, KeyManager, Input, CameraControl, Fps.** These cover the key and mouse maps, the `render_scale` step clamped to [1, 16], the auto-refresh toggle, the camera's key direction and rotation clamps, and the frame-rate counter.
- **Tabs, Widgets, ControlWidgets, RaymarcherGui, FractalsGui, VoxelsGui.** These cover the tab bar's switch and scroll cycle through "no tab", the menu groups each tab shows, the switch and toggle widgets, the hex colour parser, and the SDF preset table.
- **Tile, Image** (temp2/tile.js, temp2/image.js). These cover the tile-set guard, the SRTM tile URL, decoding of big-endian 16-bit samples, the height-to-RGBA encoding, and the pixel get/set/iterate/crop/resize helpers over byte arrays. Stores into typed arrays go through ToUint8 (ECMA-262 section 7.1.11) and ToUint8Clamp (ECMA-262 section 7.1.12).

Numbers are exact reals and unbounded integers. JavaScript's `%`, `Math.floor`, `Math.ceil` and `Math.trunc` are written out in the Numbers module.

## Model

| member | source | states |
|---|---|---|
| CameraControl.Axis | scripts/utility/camera.js:93-104 | one local axis is 0 exactly when both or neither of its keys are held, +1 for the positive key alone, −1 for the negative key alone |
| CameraControl.Rotated | scripts/utility/camera.js:143-148 | the horizontal angle ends strictly inside (−360, 360) with the sign of the turned angle and differs from it by whole turns (JavaScript `%`); the vertical angle is clamped to [−90, 90], unchanged when already inside |
| CameraControl.WithinTurn | scripts/utility/camera.js:146 | an angle already inside one turn is left alone by `% 360` |
| CameraControl.RotatedSettles | scripts/utility/camera.js:143-148 | a second `updateRotation` by nothing leaves the angles the first one produced |
| CameraControl.Scrolled | scripts/utility/camera.js:76-79 | scrolling up multiplies the speed by 1.25, scrolling down divides it by 1.25 |
| CameraControl.ScrollUpDown | scripts/utility/camera.js:76-79 | a scroll up followed by a scroll down restores the speed |
| CameraControl.Spun | scripts/utility/camera.js:42-57 | after one or more registered move handlers have each turned the camera, the horizontal angle lies inside (−360, 360) and the vertical one in [−90, 90]; with none the rotation is kept |
| CameraControl.SpunStill | scripts/utility/camera.js:143-148 | any number of handlers turning by nothing leave the rotation a single `updateRotation` by nothing leaves |
| CameraControl.LocalDirection | scripts/utility/camera.js:91-107 | the three components are d against a, w against s and e against q, each +1, −1 or 0 as `Axis` gives them |
| CameraControl.LocalDirectionZero | scripts/utility/camera.js:91-116 | the key direction is zero, so `updatePosition` returns early, exactly when each pair of opposed keys is held alike |
| CameraControl.Camera.constructor | scripts/utility/camera.js:8-30 | every field takes its argument; the camera starts disabled, with no key recorded and no mouse handlers |
| CameraControl.Camera.Default | scripts/utility/camera.js:8-30 | the default arguments: origin, level rotation, fov 0.5, speed 0.05, sensitivity 0.2, neither free nor orbiting |
| CameraControl.Camera.KeyDown | scripts/utility/camera.js:31-34 | only w, a, s, d, q and e are recorded as held; other keys change nothing |
| CameraControl.Camera.KeyUp | scripts/utility/camera.js:36-39 | only the six movement keys are recorded as released |
| CameraControl.Camera.MouseDown | scripts/utility/camera.js:41-58 | a press enables the camera and registers one more pair of move and exit handlers, beside any an earlier press left |
| CameraControl.Camera.MouseUp | scripts/utility/camera.js:50-54 | every registered exit handler runs, disabling the camera and removing its pair, so none is left; without a press there is no handler and `enabled` is kept |
| CameraControl.Camera.GetLocalDirection | scripts/utility/camera.js:91-107 | x = d − a, y = w − s, z = e − q over the held keys, an unrecorded key counting as released; the result is `LocalDirection` of the key states |
| CameraControl.Camera.UpdateRotation | scripts/utility/camera.js:143-148 | the rotation becomes `Rotated` of the old one; nothing else changes |
| CameraControl.Camera.UpdateOrbit | scripts/utility/camera.js:150-154 | the rotation turns by the drag divided by the sensitivity, and the position becomes the point on the rescaled orbit |
| CameraControl.Camera.MouseMove | scripts/utility/camera.js:42-57 | every registered move handler runs in turn: with none nothing moves; an orbiting camera turns by the movement over the sensitivity once per handler (`Spun`) and ends on the orbit; any other camera turns against the movement once per handler and keeps its position |
| CameraControl.Camera.UpdatePosition | scripts/utility/camera.js:114-141 | a zero direction changes nothing; a free or level camera moves and keeps its rotation; an orbiting camera orbits by −x·speed and z·speed |
| CameraControl.Camera.Update | scripts/utility/camera.js:109-112 | a disabled camera, or one whose held keys cancel out, does not move; otherwise a free or level camera moves and keeps its rotation, and an orbiting camera turns by −x·speed and z·speed of the key direction over the sensitivity and ends on the orbit |
| CameraControl.Camera.Wheel | scripts/utility/camera.js:70-82 | only while enabled: an orbiting camera rescales its orbit, any other camera changes speed as `Scrolled` says |
| ControlWidgets.Digit | scripts/control/widgets.js:439-440 | `indexOf` over the lowercase digits: a value in [0, 16) exactly for a digit, −1 for any other character |
| ControlWidgets.DigitChar | scripts/control/widgets.js:439 | every value below 16 has a digit whose index is that value |
| ControlWidgets.DropHash | scripts/control/widgets.js:442 | a string without "#" is kept; otherwise exactly its first "#", wherever it stands, is removed and the rest kept in order |
| ControlWidgets.FirstHash | scripts/control/widgets.js:442 | the position found holds a "#" and no "#" comes before it |
| ControlWidgets.DropHashStep | scripts/control/widgets.js:442 | past a first character that is not "#", removing the string's first "#" is removing its tail's first "#" |
| ControlWidgets.Pairs | scripts/control/widgets.js:442 | an even-length string falls into its consecutive two-character slices |
| ControlWidgets.Groups | scripts/control/widgets.js:442 | the split gives groups of one or two characters, and for an even length exactly the consecutive pairs |
| ControlWidgets.Hex2Rgb | scripts/control/widgets.js:438-449 | the parse succeeds exactly when the split has at least three groups (fewer make `hex2float(undefined)` throw) |
| ControlWidgets.HexByte | scripts/control/widgets.js:439-440 | the two digits of a byte are its high and low nibbles, so `hex2float` reads the byte back |
| ControlWidgets.Hex | scripts/control/widgets.js:438-449 | "#rrggbb" is seven characters led by "#" |
| ControlWidgets.GroupsOfBytes | scripts/control/widgets.js:442 | the split of six or eight digits starts with the three colour pairs |
| ControlWidgets.Hex2RgbOfHex | scripts/control/widgets.js:438-449 | parsing "#rrggbb" gives each byte over 255, every component lies in [0, 1], and an alpha pair is ignored |
| ControlWidgets.HexBytesRead | scripts/control/widgets.js:438-449 | parsing "#rrggbb" gives the three bytes over 255 |
| ControlWidgets.HexAlphaIgnored | scripts/control/widgets.js:438-449 | an alpha pair after "#rrggbb" leaves the parse unchanged |
| ControlWidgets.HexGroups | scripts/control/widgets.js:441-442 | after the "#" is dropped, the split of "#rrggbb", with or without an alpha pair, starts with the three colour pairs |
| ControlWidgets.HexFloatOfByte | scripts/control/widgets.js:439-440 | `hex2float` of a byte's two digits is the byte over 255, which lies in [0, 1] |
| ControlWidgets.DigitBack | scripts/control/widgets.js:439-440 | reading a digit and writing it back gives the same character |
| ControlWidgets.ByteOfDigits | scripts/control/widgets.js:440 | two digits read as `16·hi + lo` are a byte, whose digits are the same two characters |
| ControlWidgets.SixDigits | scripts/control/widgets.js:439-442 | six lowercase digits are "#rrggbb" for the three bytes they spell |
| ControlWidgets.Hex2RgbRange | scripts/control/widgets.js:438-449 | every lowercase six-digit colour parses, to components in [0, 1] |
| ControlWidgets.LabelSwitch.constructor | scripts/control/widgets.js:401-429 | exactly the buttons labelled `def` are active and the callback has been called once, with `def` |
| ControlWidgets.LabelSwitch.Click | scripts/control/widgets.js:406-415 | an active button clears every button and reports null; an inactive one becomes the only active button and reports its label |
| ControlWidgets.LabelToggle.constructor | scripts/control/widgets.js:12-43 | the attribute shows `def` and the callback has been called once, with `def` |
| ControlWidgets.LabelToggle.Click | scripts/control/widgets.js:21-30 | a click flips the value and reports the new one |
| Controls.ArrowScale | scripts/voxels/gui.js:100-110 | ArrowUp lowers the scale by one but not below 1, ArrowDown raises it by one but not above 16, typing or any other key keeps it; [1, 16] and positivity are preserved |
| Controls.ArrowsUndo | scripts/voxels/gui.js:100-110 | away from the bounds, ArrowUp and ArrowDown undo each other |
| Controls.KeyPressed | scripts/voxels/gui.js:42-48 | the scan answers true exactly when some recorded key is pressed |
| Controls.MousePressed | scripts/voxels/gui.js:50-56 | the scan answers true exactly when some button is held, holes counting as released |
| Controls.Pressing | scripts/voxels/gui.js:122-128 | the button takes the new state, the array grows to reach it, and every other entry keeps its state (holes read as released) |
| Controls.PressRelease | scripts/voxels/gui.js:122-128 | a pressed button is held; pressing and releasing one button with none held leaves none held |
| RayMarcher.PosedGet | scripts/engine/raymarcher.js:29-31 | after `update`, `fov`, `camera_rotation` and `camera_position` hold the camera's values and every other uniform is as it was |
| RayMarcher.PosedCounts | scripts/engine/raymarcher.js:25-32 | `update` leaves `temporal_counter` alone |
| RayMarcher.FitsCounts | scripts/engine/raymarcher.js:39 | a record that fits the uniform buffer has a number counter for `render` to increment |
| RayMarcher.SetAllFits | scripts/engine/raymarcher.js:29-31 | writes of values of the buffer's shapes keep the record fitting the buffer |
| RayMarcher.PosedFits | scripts/engine/raymarcher.js:29-31 | `update` keeps the record fitting the buffer when the rotation is a 4×4 matrix |
| RayMarcher.RenderedFits | scripts/engine/raymarcher.js:39 | incrementing the counter keeps the record fitting the buffer |
| RayMarcher.RayMarcher.constructor | scripts/engine/raymarcher.js:12-24 | frame 0, running, a fresh camera, and the resolution synchronized to the canvas's capped bounding rectangle; the early `destroy` finds no renderer and releases nothing |
| RayMarcher.RayMarcher.Update | scripts/engine/raymarcher.js:25-32 | without focus the camera does not move; with focus it takes the step `camera.update()` gives: none while disabled or with no movement key, `moved` for a free camera, the orbit turn by the key drags and `placed` for an orbiting one; the uniforms then receive the camera's fov, rotation and new position |
| RayMarcher.RayMarcher.Render | scripts/engine/raymarcher.js:34-40 | the upload throws exactly when the device or buffer is gone, and then the frame, the counter and the buffer are all unchanged, since the throw ends the call; otherwise the buffer holds the packed uniforms from before the increment, and the frame and the counter each grow by one |
| RayMarcher.RayMarcher.Advance | scripts/engine/raymarcher.js:38-39 | the frame and the counter each grow by one, and the record still fits its buffer |
| RayMarcher.RayMarcher.Destroy | scripts/engine/raymarcher.js:42-47 | the renderer's resources are released and it is forgotten; a second call does nothing |
| Fps.TickedAllTelescopes | scripts/utility/fps.js:13-18 | over a run of updates the accumulated time telescopes to the last clock reading minus the one before the first update, and each update counts one frame |
| Fps.RateOf | scripts/utility/fps.js:21 | `1000 / (delta / frames)` in IEEE terms: NaN for 0/0, zero for no frames over some time, Infinity for frames over no time, a positive rate otherwise |
| Fps.AverageRate | scripts/utility/fps.js:8-33 | a window opened at `start` with updates at `times` reads as the number of updates per second of elapsed time |
| Fps.FPSCounter.constructor | scripts/utility/fps.js:2-11 | the window starts empty at the current clock, with the given element, prefix, suffix and decimals |
| Fps.FPSCounter.Update | scripts/utility/fps.js:13-18 | the time since the last update is added, one frame counted, and the clock reading kept |
| Fps.FPSCounter.Set | scripts/utility/fps.js:20-26 | the element, if any, shows the window's rate; the window restarts and the last clock reading is kept |
| Fps.FPSCounter.Get | scripts/utility/fps.js:28-33 | returns the window's rate and restarts the window |
| FractalsEngine.FitsCounts | scripts/fractals/engine.js:42 | a record that fits the 44-float buffer has a number `temporal_counter` |
| FractalsEngine.SetAllFits | scripts/fractals/engine.js:34-37 | writes of values of the buffer's shapes keep the record fitting the buffer |
| FractalsEngine.UpdatedFits | scripts/fractals/engine.js:31-37 | the refresh and the copies of `update` keep the record fitting the buffer when the rotation is a 4×4 matrix |
| FractalsEngine.RenderedFits | scripts/fractals/engine.js:42 | incrementing the counter keeps the record fitting the buffer |
| FractalsEngine.RunFits | scripts/fractals/engine.js:49-53 | any run of animation frames keeps the record fitting the buffer, so the upload never changes size |
| FractalsEngine.Engine.constructor | scripts/fractals/engine.js:16-26 | the camera starts at (4, 4, 4) turned to (−135°, 35°) with the default fov and speed, and the frame-rate counter starts empty with the suffix " fps" |
| FractalsEngine.Engine.Update | scripts/fractals/engine.js:28-38 | the camera takes the step `camera.update()` gives: none while disabled or with no movement key, `moved` for a free camera, the orbit turn by the key drags and `placed` for an orbiting one; the counter ticks once, and the uniforms are refreshed when a key is held with auto refresh on and then take the sun direction and the camera's rotation, position and fov |
| FractalsEngine.Engine.Copy | scripts/fractals/engine.js:31-37 | the uniforms become the refreshed-then-copied record and keep fitting the buffer |
| FractalsEngine.Engine.Render | scripts/fractals/engine.js:40-43 | with a uniform buffer the buffer holds the packing of the uniforms from before the increment, without one it is unchanged; the counter then grows by one |
| FractalsGui.PresetFile | scripts/fractals/gui.js:245-286 | a shader file is fetched exactly for indices 1 to 4; every other index falls to the `default` case and uses the editor's code |
| FractalsGui.PresetValues | scripts/fractals/gui.js:245-286 | every preset has five parameters with `custom_b` = 1; only the Mandelbox, Mandelbulb and Juliabulb change `custom_a`, and only the Mandelbox changes anything after it |
| FractalsGui.PresetGet | scripts/fractals/gui.js:245-286 | after the preset's writes each custom field holds the preset's value and every other uniform is as it was |
| FractalsGui.KeyIndex | scripts/fractals/gui.js:248-252 | every custom field has its position among the five the switch writes |
| FractalsGui.PresetSets | scripts/fractals/gui.js:245-286 | choosing an SDF sets exactly the five custom fields to the preset's parameters and leaves every other uniform as it was |
| FractalsGui.PresetTwice | scripts/fractals/gui.js:245-286 | choosing the same SDF twice is choosing it once |
| FractalsGui.PresetFits | scripts/fractals/gui.js:245-286 | the preset keeps the uniforms fitting the 44-float buffer |
| FractalsGui.ConstructedGet | scripts/fractals/gui.js:221-292 | after construction `shader_mode` is 0, every custom field is 1 (the "Custom" preset) and every other uniform is as it was |
| FractalsGui.ConstructedDefaults | scripts/fractals/gui.js:221-292 | construction overrides the renderer's defaults: `shader_mode` goes from 1 to 0 and `custom_a` from −2 to 1 |
| FractalsGui.ConstructedFits | scripts/fractals/gui.js:221-292 | the uniforms construction leaves still fit the 44-float buffer |
| FractalsGui.SdfCode | scripts/fractals/gui.js:245-287 | the recompiled SDF is the fetched file for a preset with one and the editor's code otherwise |
| FractalsGui.GUIManager.constructor | scripts/fractals/gui.js:4-13 | auto refresh on, no key recorded, five buttons up, and the tab switch's first report selects the first tab and hides every other menu child; the shading and SDF switches' first reports leave the uniforms as `Constructed` describes, still fitting the buffer, show only the first SDF's variables and recompile with the editor's sphere SDF |
| FractalsGui.GUIManager.BuildSwitches | scripts/fractals/gui.js:221-292 | the shading switch's first report ("Marches") and the SDF switch's first report ("Custom") leave the uniforms as `Constructed` describes, show only the first SDF's variables and recompile with the editor's SDF |
| FractalsGui.GUIManager.ChooseShading | scripts/fractals/gui.js:221-226 | `shader_mode` takes the chosen index and every other uniform is as it was; the uniforms still fit the buffer |
| FractalsGui.GUIManager.SwitchTab | scripts/fractals/gui.js:63-80 | the current tab becomes `value`, the buttons follow it when asked, the menu is hidden only for no tab in fullscreen, and exactly the menu child for `value` is shown |
| FractalsGui.GUIManager.ScrollTab | scripts/fractals/gui.js:82-95 | the tab becomes the wheel's target, which stays in range, and the buttons and the menu follow it |
| FractalsGui.GUIManager.FullscreenChange | scripts/fractals/gui.js:103-112 | with no tab the menu is hidden exactly in fullscreen; with a tab nothing changes |
| FractalsGui.GUIManager.KeyDown | scripts/fractals/gui.js:126-147 | the key is recorded even while typing; the arrows step `render_scale` within [1, 16] leaving every other uniform, F11 toggles fullscreen, and Tab flips auto refresh when not typing |
| FractalsGui.GUIManager.KeyUp | scripts/fractals/gui.js:149-151 | the key is recorded as released |
| FractalsGui.GUIManager.MouseDown | scripts/fractals/gui.js:153-155 | the button is recorded as held |
| FractalsGui.GUIManager.MouseUp | scripts/fractals/gui.js:157-164 | the button is released, and the accumulation restarts when auto refresh is on |
| FractalsGui.GUIManager.Wheel | scripts/fractals/gui.js:166-170 | the accumulation restarts while the camera orbits, whatever auto refresh says |
| FractalsGui.GUIManager.MouseMove | scripts/fractals/gui.js:172-175 | the accumulation restarts when a button is held or the camera steers, and auto refresh is on |
| FractalsGui.GUIManager.TouchMove | scripts/fractals/gui.js:177-180 | the accumulation restarts when auto refresh is on |
| FractalsGui.GUIManager.IsKeyPressed | scripts/fractals/gui.js:43-49 | true exactly when some recorded key is pressed |
| FractalsGui.GUIManager.IsMousePressed | scripts/fractals/gui.js:51-57 | true exactly when some button is held |
| FractalsGui.GUIManager.ChooseSdf | scripts/fractals/gui.js:239-289 | only that SDF's variables are shown, the custom fields take the preset, and the recompile succeeds exactly when both programs link, compiling the fetched or typed SDF |
| Frames.Rendered | scripts/fractals/engine.js:42 | the counter grows by exactly one and every other uniform is kept |
| Frames.Refreshed | scripts/raymarcher/view/webgl_manager.js:205-207 | the counter becomes 1 and every other uniform is kept |
| Frames.GetSetAll | scripts/fractals/engine.js:34-37 | after a run of property writes a field holds its last written value, and a field never written keeps its old one |
| Frames.SetAllUnchanged | scripts/fractals/engine.js:34-37 | writes that store what the fields already hold change nothing |
| Frames.UpdatedGet | scripts/fractals/engine.js:28-38 | after `update` the sun direction and the camera's rotation, position and fov are copied, the counter is 1 after a refresh, and every other field is kept |
| Frames.UpdatedCounts | scripts/fractals/engine.js:28-38 | `update` sets the counter to 1 when it refreshes and leaves it alone otherwise |
| Frames.Frame | scripts/fractals/engine.js:49-53 | one animation frame leaves the counter at 2 after a refresh and one higher otherwise |
| Frames.Run | scripts/fractals/engine.js:49-53 | a run of frames keeps a number counter |
| Frames.LastRefresh | scripts/fractals/engine.js:31-32 | the index found refreshes and no later frame does, −1 when no frame refreshes |
| Frames.RunCounter | scripts/fractals/engine.js:31-42 | the counter is the number of frames accumulated since the last refresh: the old value plus n with no refresh, n − i + 1 after a last refresh at frame i |
| GpuManager.DefaultsWellFormed | scripts/view/gpu_manager.js:34-55 | every default uniform packs to numbers |
| GpuManager.DefaultsPack | scripts/view/gpu_manager.js:77-82 | the default record packs to 36 numbers in whole groups of four, so the buffer is 144 bytes |
| GpuManager.SizesGet | scripts/view/gpu_manager.js:35-37 | the first group holds the base canvas size 2560×1440, render scale 1 and counter 0 |
| GpuManager.ViewGet | scripts/view/gpu_manager.js:39-41 | the camera group holds the identity rotation, the origin and fov 1 |
| GpuManager.ShadingGet | scripts/view/gpu_manager.js:43-44 | the sun direction is (1, 1, 1) and the shader mode 0 |
| GpuManager.MarchingGet | scripts/view/gpu_manager.js:46-49 | 5 bounces, 100 marches, epsilon 0.0001 and detail 10 |
| GpuManager.FocusGet | scripts/view/gpu_manager.js:51-54 | focus distance 1, strength 0 and the two padding slots |
| GpuManager.DefaultsGet | scripts/view/gpu_manager.js:34-55 | looking up any key in the default record gives the value the constructor writes, or nothing for an unknown key |
| GpuManager.DefaultsShaped | scripts/view/gpu_manager.js:34-55 | every field the renderer rewrites is present in the defaults with its shape |
| GpuManager.DefaultsFit | scripts/view/gpu_manager.js:77-82 | the defaults fit the 36-number buffer sized from their own packing |
| GpuManager.SetKeeps | scripts/view/gpu_manager.js:152-163 | overwriting a rewritten field with a value of its shape keeps the packing the same length and all numbers |
| GpuManager.GPUManager.constructor | scripts/view/gpu_manager.js:20-87 | the default uniforms, one 2560×1440 colour texture bound into both pipelines, and a 144-byte uniform buffer |
| GpuManager.GPUManager.Destroy | scripts/view/gpu_manager.js:89-102 | the texture, the buffer and the device are each released once if still held and then forgotten; a second call releases nothing |
| GpuManager.GPUManager.WriteUniforms | scripts/view/gpu_manager.js:104-107 | the upload throws exactly when the device or buffer is gone, is never refused for size, and otherwise the buffer holds the packing |
| GpuManager.GPUManager.SyncResolution | scripts/view/gpu_manager.js:109-117 | `canvas_size` takes the bounding rectangle capped at 2560×1440, fractions kept, and the canvas element its whole pixels; nothing else changes |
| GpuManager.GPUManager.DispatchCounts | scripts/view/gpu_manager.js:125-132 | the dispatch is the workgroup count for the current canvas size and render scale |
| GpuManager.SyncedIdempotent | scripts/view/gpu_manager.js:109-117 | syncing twice to the same rectangle is syncing once, and `canvas_size` is the rectangle capped at 2560×1440 |
| GpuManager.Dispatch | scripts/view/gpu_manager.js:125-132 | 8×8 workgroups cover the scaled canvas with no group to spare |
| Image.ImageData.constructor | scripts/temp2/image.js:41 | a new image has the given size and 4·width·height zero bytes |
| Image.Stored | scripts/temp2/image.js:13-20 | the four bytes from the offset take the clamped components where they lie in the array; the length and every other byte are kept |
| Image.StoreClamped | scripts/temp2/image.js:16-19 | a typed-array store: an index out of range is ignored, otherwise that one byte takes the clamped value |
| Image.SetPixel | scripts/temp2/image.js:13-20 | the image's data becomes the old data with the pixel stored at the offset of the floored point |
| Image.GetAfterSet | scripts/temp2/image.js:3-20 | reading a pixel back after storing whole components in [0, 255] gives them back, when the pixel lies in the array |
| Image.SetKeepsOtherCells | scripts/temp2/image.js:13-20 | storing one pixel leaves every other cell's four bytes as they were |
| Image.CopyExact | scripts/temp2/image.js:3-20 | a pixel read from the array and stored again is stored unchanged |
| Image.Visits | scripts/temp2/image.js:23-24 | `iterate` visits width·height cells |
| Image.VisitAt | scripts/temp2/image.js:23-24 | the i-th visit is cell (i div h, i mod h): column by column, top to bottom |
| Image.VisitedOnce | scripts/temp2/image.js:23-24 | every cell of the image is visited exactly once, at position x·h + y |
| Image.VisitOrder | scripts/temp2/image.js:23-24 | a later visit is in a later column, or lower in the same one |
| Image.Iterated | scripts/temp2/image.js:22-32 | the visits never change the data's length |
| Image.IterateUndefined | scripts/temp2/image.js:27-29 | a callback that always answers `undefined` leaves the data as it was |
| Image.IterateUntouched | scripts/temp2/image.js:22-32 | a byte no visited cell covers keeps its value |
| Image.Iterate | scripts/temp2/image.js:22-32 | the data becomes the fold of the visits in column-major order and the callback runs once per cell, width·height times |
| Image.Cropped | scripts/temp2/image.js:43-49 | copying cells into the new image never changes its length |
| Image.StoredCopy | scripts/temp2/image.js:43-46 | copying a source pixel that lies in the source stores it unchanged |
| Image.CropAfter | scripts/temp2/image.js:43-49 | once the visits pass a cell's source, no later cell of the box lands on its target pixel |
| Image.CropSquare | scripts/temp2/image.js:34-52 | for a square box every target pixel whose source cell lies in the source ends holding that source pixel |
| Image.CropColumn | scripts/temp2/image.js:24-30 | one column of the visits copies its cells in the box into the new image |
| Image.Crop | scripts/temp2/image.js:34-52 | the corners are put in order in place; a zero width or height throws; otherwise a fresh image of the box's size holding the copies, with the source unchanged |
| Image.FillPrefix | scripts/temp2/image.js:84-90 | on a square image the first n visits leave the first n cells yellow and the rest as they were |
| Image.FillSquare | scripts/temp2/image.js:84-90 | on a square image every byte ends as (255, 255, 0, 255) |
| Image.Resize | scripts/temp2/image.js:68-96 | a zero size throws; otherwise a fresh width×height image, the callback counted width·height times, and on a square image every pixel yellow |
| Input.Input.constructor | scripts/control/input.js:2-11 | no key recorded and the GUI never toggled |
| Input.Input.KeyboardPress | scripts/control/input.js:13-37 | exactly w, s, a, d, q and e are recorded as held; space toggles the GUI; any other key changes nothing |
| Input.Input.KeyboardRelease | scripts/control/input.js:39-60 | exactly the six movement keys are recorded as released |
| Input.Input.MouseMove | scripts/control/input.js:62-65 | the camera turns by the movement only while the GUI has focus |
| Input.Input.MouseScroll | scripts/control/input.js:67-74 | only while the GUI has focus, the camera's speed is multiplied by 1.25 scrolling up and divided by it scrolling down |
| KeyManager.FitsScale | scripts/raymarcher/key.js:24-28 | a record that fits the buffer has a positive number `render_scale` for the arrows to step |
| KeyManager.KEYManager.constructor | scripts/raymarcher/key.js:2-17 | no key recorded, five buttons up |
| KeyManager.KEYManager.KeyboardPress | scripts/raymarcher/key.js:19-40 | the key is recorded even while typing; the arrows step `render_scale` within [1, 16] leaving every other uniform, F11 toggles fullscreen, and Tab flips auto refresh when not typing |
| KeyManager.KEYManager.KeyboardRelease | scripts/raymarcher/key.js:42-44 | the key is recorded as released |
| KeyManager.KEYManager.MousePress | scripts/raymarcher/key.js:46-48 | the button is recorded as held |
| KeyManager.KEYManager.MouseUp | scripts/raymarcher/key.js:12-15 | the button is released, then the accumulation restarts when auto refresh is on |
| KeyManager.KEYManager.MouseMove | scripts/raymarcher/key.js:16 | the accumulation restarts when a button is held or the camera steers, and auto refresh is on |
| KeyManager.KEYManager.KeyPressed | scripts/raymarcher/key.js:70-76 | true exactly when some recorded key is pressed |
| KeyManager.KEYManager.MousePressed | scripts/raymarcher/key.js:78-82 | true exactly when some button is held |
| LensingGpu.DefaultsWellFormed | scripts/lensing/gpu.js:29-51 | every default uniform packs to numbers |
| LensingGpu.DefaultsPack | scripts/lensing/gpu.js:81-86 | the default record packs to 36 numbers in whole groups of four |
| LensingGpu.SizesGet | scripts/lensing/gpu.js:30-31 | canvas and buffer size both start at 2560×1440 |
| LensingGpu.AccumulationGet | scripts/lensing/gpu.js:33-36 | render scale 1, counter 1, shader mode 1 and force threshold 0.5 |
| LensingGpu.ViewGet | scripts/lensing/gpu.js:38-40 | identity rotation, camera at (0, −3, 0), fov 1 |
| LensingGpu.MarchingGet | scripts/lensing/gpu.js:42-45 | 200 marches of size 0.5, force strength 1 and ring density 50 |
| LensingGpu.RingsGet | scripts/lensing/gpu.js:47-50 | ring radius 0 and the three padding slots |
| LensingGpu.DefaultsGet | scripts/lensing/gpu.js:29-51 | looking up any key in the default record gives the value the constructor writes, or nothing for an unknown key |
| LensingGpu.DefaultsShaped | scripts/lensing/gpu.js:29-51 | every field the renderer rewrites is present in the defaults with its shape |
| LensingGpu.DefaultsFit | scripts/lensing/gpu.js:81-86 | the defaults fit the 36-number buffer |
| LensingGpu.SetKeeps | scripts/lensing/gpu.js:99 | overwriting a rewritten field with a value of its shape keeps the packing the same length and all numbers |
| LensingGpu.WebGLManager.constructor | scripts/lensing/gpu.js:13-95 | the default uniforms synchronized to the client size, a 36-number uniform buffer, and the canvas at the capped client size |
| LensingGpu.WebGLManager.Render | scripts/lensing/gpu.js:97-110 | the buffer receives the whole packing and the viewport is the canvas size in scaled pixels |
| LensingGpu.WebGLManager.Synchronize | scripts/lensing/gpu.js:112-118 | `canvas_size` takes the capped client size, the canvas element that size in scaled pixels, and the render scale is kept |
| LensingGpu.WebGLManager.Screenshot | scripts/lensing/gpu.js:120-124 | the texture is the floored buffer size and the read-back the floored scaled canvas size, as `Lifecycle.ScreenshotSizes` bounds them |
| LensingGpu.ScaledSize | scripts/lensing/gpu.js:116-117 | a non-negative size in scaled pixels is the whole number of scaled pixels that fit, with less than one to spare |
| LensingGpu.WholePixels | scripts/lensing/gpu.js:116-117 | at render scale 1 a whole pixel count is its own scaled size |
| LensingGpu.SyncedIdempotent | scripts/lensing/gpu.js:112-118 | synchronizing twice to the same client size is synchronizing once, and `canvas_size` is the capped size |
| Lifecycle.Present | scripts/view/gpu_manager.js:89-102 | `destroy` releases exactly the held handles, none when nothing is held |
| Lifecycle.Workgroups | scripts/view/gpu_manager.js:125-132 | `Math.ceil(extent / scale / group)`: the groups cover the extent and one group fewer would not |
| Lifecycle.CeilScaled | scripts/raymarcher/view/webgl_manager.js:152 | `Math.ceil(extent / scale)`: the scaled pixels cover the extent and one fewer would not |
| Lifecycle.FloorScaled | scripts/particles/particle_simulator.js:231-232 | `Math.floor(extent / scale)`: the whole scaled pixels inside the extent, non-negative for a non-negative extent |
| Lifecycle.Capped | scripts/voxels/gpu.js:116-117 | the client size capped at 2560×1440: never above either the cap or the client size, and equal to one of them |
| Lifecycle.CappedIdempotent | scripts/voxels/gpu.js:116-117 | capping twice is capping once |
| Lifecycle.CappedRect | scripts/view/gpu_manager.js:110-112 | the fractional bounding rectangle capped at 2560×1440: never above either the cap or the rectangle, and equal to one of them |
| Lifecycle.RectPixelsWhole | scripts/view/gpu_manager.js:114-116 | the canvas element holds the whole pixels of `canvas_size`, within the cap; for a whole-pixel rectangle that is the integer cap |
| Lifecycle.TruncScaled | scripts/lensing/gpu.js:116-117 | a canvas size or viewport argument truncates `extent / scale`: for a non-negative extent the natural number of whole scaled pixels `FloorScaled` gives |
| Lifecycle.ScreenshotSizes | scripts/lensing/gpu.js:121-124 | the texture is the floored buffer size and the read-back the floored canvas size in scaled pixels |
| Lifecycle.ReadBackFits | scripts/lensing/gpu.js:121-128 | a canvas no larger than the buffer at a render scale of at least 1 reads back no more than the texture holds |
| Lifecycle.ScaledBelow | scripts/lensing/gpu.js:123-124 | at a scale of at least 1 the scaled pixel count is at most the extent |
| Lifecycle.SwappedParity | scripts/particles/particle_simulator.js:216-219 | after an even number of swaps a ping-pong pair is back in order, after an odd number swapped, so two swaps restore it |
| Matrix.Mat | scripts/utility/matrix.js:4-11 | a 4×4 matrix with s on the diagonal and 0 elsewhere |
| Matrix.ArrayRowMajor | scripts/utility/matrix.js:26-28 | `array(m)` has 16 entries, entry 4·i + j being m[i][j] |
| Matrix.DiagonalOfArray | scripts/utility/matrix.js:4-28 | the flattened `mat(s)` holds s at every fifth entry, the diagonal |
| Matrix.Trans | scripts/utility/matrix.js:66-73 | the transpose is a matrix with entry (i, j) equal to m's entry (j, i) |
| Matrix.Ext | scripts/utility/matrix.js:66-73 | two matrices with the same entries are the same matrix |
| Matrix.TransInvolution | scripts/utility/matrix.js:66-73 | transposing twice gives the matrix back |
| Matrix.TransOfMat | scripts/utility/matrix.js:4-73 | `mat(s)` is symmetric |
| Matrix.Column | scripts/utility/matrix.js:85-103 | column j of a matrix is its four entries b[k][j] |
| Matrix.Mul | scripts/utility/matrix.js:75-105 | a vector operand gives the four row-times-vector sums; a matrix operand gives the matrix whose entry (i, j) is row i times column j |
| Matrix.MulIdentityLeft | scripts/utility/matrix.js:75-105 | `mul(mat(1), b)` is b, for a vector and for a matrix |
| Matrix.MulIdentityRight | scripts/utility/matrix.js:84-104 | `mul(a, mat(1))` is a |
| Numbers.Floor | scripts/temp2/image.js:4-5 | `Math.floor`: the greatest integer not above x |
| Numbers.Ceil | scripts/temp2/tile.js:18-19 | `Math.ceil`: the least integer not below x |
| Numbers.Trunc | scripts/temp2/tile.js:70-72 | truncation toward zero: the floor of a non-negative number and the ceiling of a negative one |
| Numbers.JsRem | scripts/temp2/tile.js:71-72 | JavaScript `%` on integers by a positive divisor: below the divisor in size, the sign of the dividend, Dafny's `%` for a non-negative dividend |
| Numbers.JsRemReal | scripts/utility/camera.js:146 | JavaScript `%` on numbers by a positive divisor: below the divisor in size, the sign of the dividend, and differing from it by a truncated whole multiple |
| Numbers.ToUint8 | scripts/temp2/tile.js:70-73 | a store into a `Uint8Array`: a byte, equal to the floor for a value in [0, 256) |
| Numbers.ToUint8Clamp | scripts/temp2/image.js:16-19 | a store into a `Uint8ClampedArray`: a byte, 0 at or below 0, 255 at or above 255, and a whole value in range unchanged |
| Particles.DefaultGrid | scripts/particles/particle_simulator.js:46 | the constructor's grid is 128×72 squares of 20 pixels, the size both colour textures are allocated at |
| Particles.PackValuesSnoc | scripts/particles/particle_simulator.js:236-245 | the packing of a record with one more property is the old packing followed by that property's values |
| Particles.PackLayout | scripts/particles/particle_simulator.js:236-245 | any uniform object packs to its nine floats: each size opens into width then height, each number is itself |
| Particles.SyncedGridFits | scripts/particles/particle_simulator.js:224-233 | after `synchronize` the grid stays inside the 128×72 textures and counts only whole squares inside the canvas |
| Particles.CreatePositions | scripts/particles/particle_simulator.js:247-263 | 3n coordinates: each x is its random sample scaled into [−1, 1), each y and z is 0 |
| Particles.CreateVelocities | scripts/particles/particle_simulator.js:265-281 | 3n components, every particle moving (0, 0.02, 0) |
| Particles.ParticleSimulator.constructor | scripts/particles/particle_simulator.js:14-139 | the default uniforms synchronized to the client size, a 36-byte uniform buffer of nine floats, and the initial positions and velocities of 100 particles |
| Particles.ParticleSimulator.Draw | scripts/particles/particle_simulator.js:141-222 | the buffer holds the packing; the blend writes `color_buffer[0]` from `color_buffer[1]`; the particles run from the first buffers into the second; the grid reads `color_buffer[0]` with one instance per square; every pair swaps and the frame count grows by one |
| Particles.ParticleSimulator.Synchronize | scripts/particles/particle_simulator.js:224-233 | the canvas takes the client size capped at the buffer size and the grid the whole squares inside it |
| Particles.Initialize | scripts/particles/particle_simulator.js:4-63 | the constructor throws without WebGL2 (52-54) or when a program fails to compile or link, the feedback relink included (59-63); otherwise a valid simulator at frame 0 |
| Particles.DrawnCountsFrames | scripts/particles/particle_simulator.js:221 | after n draws the frame counter has grown by exactly n |
| Pong.MaxGridSizeAsWritten | scripts/pong/particle_simulator.js:21 | as written both components divide the render height: 72 by 72 |
| Pong.MaxGridSize | scripts/pong/particle_simulator.js:20-21 | as intended: the whole 20-pixel squares in 2560×1440, 128 by 72 |
| Pong.PackSnoc | scripts/pong/particle_simulator.js:232-243 | the packing of a record with one more property is the old packing followed by that property's values |
| Pong.Vec2Contribution | scripts/pong/particle_simulator.js:232-243 | a two-component vector packs to its two components |
| Pong.ScalarContribution | scripts/pong/particle_simulator.js:232-243 | a number packs to itself |
| Pong.PackLayout | scripts/pong/particle_simulator.js:232-243 | any uniform record of this shape packs to its nine floats in key order |
| Pong.SyncedSizes | scripts/pong/particle_simulator.js:190-199 | the canvas takes the client size capped at 2560×1440, and the grid the whole squares inside it |
| Pong.GridOverflowsAsWritten | scripts/pong/particle_simulator.js:21 | with `max_grid_size` as written, a 2560×1440 client makes `synchronize` set 128 columns, past the 72 the textures were allocated with |
| Pong.GridFits | scripts/pong/particle_simulator.js:190-199 | with the intended `max_grid_size`, every grid `synchronize` sets fits the textures |
| Pong.SampleRange | scripts/pong/particle_simulator.js:248-250 | a `Math.random` sample scales into [min, max) |
| Pong.RandomPositions | scripts/pong/particle_simulator.js:245-256 | 3n coordinates, each its own sample scaled into [min, max) |
| Pong.RandomVelocities | scripts/pong/particle_simulator.js:258-270 | 3n components, each triple a random direction divided by its length and scaled by the multiplier |
| Pong.ParticleSimulator.constructor | scripts/pong/particle_simulator.js:17-122 | the default record synchronized to the client size, colour textures of the corrected 128×72 grid each bound to its own framebuffer, and a 36-byte uniform buffer |
| Pong.ParticleSimulator.Draw | scripts/pong/particle_simulator.js:124-188 | the buffer holds the packing; the blend renders into `frame_buffer[0]` while sampling the other texture; the grid reads `color_buffer[0]`, the one just rendered into; both pairs swap together and the frame count grows by one |
| Pong.ParticleSimulator.Synchronize | scripts/pong/particle_simulator.js:190-199 | the canvas takes the capped client size and the grid the whole squares inside it, which fit the textures |
| Pong.Initialize | scripts/pong/particle_simulator.js:42-44 | the constructor throws without WebGL2 or when a shader fails to compile or a program to link (202-230); otherwise a valid simulator at frame 0 |
| RaymarcherEngine.CustomGet | scripts/raymarcher/engine.js:80-83 | after `load`'s writes the four custom fields hold the stored values and every other uniform is as it was |
| RaymarcherEngine.LoadOf | scripts/raymarcher/engine.js:73-85 | with no stored entry nothing changes; otherwise the camera takes the stored pose, the custom fields the stored values, every other uniform is kept, and saving again gives back exactly the stored entry |
| RaymarcherEngine.LoadAfterSave | scripts/raymarcher/engine.js:59-85 | loading the entry `save` just wrote changes nothing |
| RaymarcherEngine.FitsNumbers | scripts/raymarcher/engine.js:49 | a record that fits its buffer has a number counter for `render` to increment and number custom fields |
| RaymarcherEngine.SetAllFits | scripts/raymarcher/engine.js:39-42 | writes of values of the listed shapes keep the record fitting its buffer |
| RaymarcherEngine.UpdatedFits | scripts/raymarcher/engine.js:32-43 | `update` keeps the record fitting its buffer when the rotation it copies is a 4×4 matrix |
| RaymarcherEngine.RenderedFits | scripts/raymarcher/engine.js:45-50 | `render` keeps the record fitting its buffer |
| RaymarcherEngine.LoadFits | scripts/raymarcher/engine.js:73-85 | `load` keeps the record fitting its buffer |
| RaymarcherEngine.Engine.constructor | scripts/raymarcher/engine.js:18-30 | a default camera, frame 0, and whatever local storage holds under `renderer-raymarcher` loaded |
| RaymarcherEngine.Engine.Load | scripts/raymarcher/engine.js:73-85 | the camera and uniforms become `LoadOf` of the stored entry |
| RaymarcherEngine.Engine.Pose | scripts/raymarcher/engine.js:76-79 | the camera takes the stored position, rotation, field of view and speed |
| RaymarcherEngine.Engine.Save | scripts/raymarcher/engine.js:59-71 | local storage maps the engine's name to the eight saved fields and keeps every other entry |
| RaymarcherEngine.Engine.Update | scripts/raymarcher/engine.js:32-43 | the camera moves only while the GUI has focus, and then as `updatePosition` moves it: not for a zero direction, to `moved` when free, by the orbit turn to `placed` when orbiting; the accumulation restarts only when a key is held under auto refresh; the sun direction, rotation matrix, position and field of view are copied in |
| RaymarcherEngine.Engine.Copy | scripts/raymarcher/engine.js:36-42 | the uniforms become the refreshed record with the four view fields copied in |
| RaymarcherEngine.Engine.Render | scripts/raymarcher/engine.js:45-50 | the upload throws exactly when the device or buffer is gone, and then nothing is counted and nothing written; otherwise the buffer holds the packing of the record before the increment, and the frame and the counter grow by one |
| RaymarcherEngine.Engine.Advance | scripts/raymarcher/engine.js:48-49 | the frame and the counter each grow by one, and the record still fits its buffer |
| RaymarcherEngine.Engine.Destroy | scripts/raymarcher/engine.js:52-57 | the renderer's device and buffers are released and the engine forgets it, so a second call does nothing |
| RaymarcherGpu.DefaultsWellFormed | scripts/raymarcher/view/gpu.js:35-60 | every default uniform packs to numbers only |
| RaymarcherGpu.DefaultsPack | scripts/raymarcher/view/gpu.js:35-60 | the default record packs to 40 numbers, a whole number of 16-byte groups |
| RaymarcherGpu.DefaultsGet | scripts/raymarcher/view/gpu.js:35-60 | each default uniform holds the value the constructor gives it, and no other key is present |
| RaymarcherGpu.DefaultsShaped | scripts/raymarcher/view/gpu.js:35-60 | every field the renderer or engine rewrites starts with the shape it is rewritten with |
| RaymarcherGpu.DefaultsFit | scripts/raymarcher/view/gpu.js:35-60 | the default record fits a buffer of 40 numbers |
| RaymarcherGpu.SetKeeps | scripts/raymarcher/view/gpu.js:122 | overwriting a listed field with a value of its shape keeps the packing's length, so the record still fits its buffer |
| RaymarcherGpu.GPUManager.constructor | scripts/raymarcher/view/gpu.js:20-152 | the default record, a colour buffer of 2560·1440·16 bytes, and a uniform buffer sized from the first packing: 160 bytes, 40 numbers |
| RaymarcherGpu.GPUManager.Destroy | scripts/raymarcher/view/gpu.js:65-78 | the colour buffer, the uniform buffer and the device are each released once, in that order, and forgotten; a second call releases nothing |
| RaymarcherGpu.GPUManager.WriteUniforms | scripts/raymarcher/view/gpu.js:112-115 | throws exactly when the device or buffer is gone; since the buffer was sized from the packing it is never refused, and otherwise holds the whole packing |
| RaymarcherGpu.GPUManager.SyncResolution | scripts/raymarcher/view/gpu.js:117-125 | `canvas_size` takes the bounding rectangle capped at 2560×1440, fractions kept, and the canvas element its whole pixels; no other uniform changes |
| RaymarcherGpu.GPUManager.RefreshScreen | scripts/raymarcher/view/gpu.js:127-129 | `temporal_counter` becomes 1 and nothing else changes |
| RaymarcherGpu.GPUManager.DispatchCounts | scripts/raymarcher/view/gpu.js:86-93 | the workgroup counts are the dispatch of the current canvas size at the current render scale |
| RaymarcherGpu.SyncedIdempotent | scripts/raymarcher/view/gpu.js:117-125 | syncing twice to the same rectangle is syncing once, and `canvas_size` holds the rectangle capped at 2560×1440 |
| RaymarcherGpu.Dispatch | scripts/raymarcher/view/gpu.js:86-93 | 16×16 workgroups that cover the scaled canvas with no group to spare |
| RaymarcherGui.TabGroups | scripts/raymarcher/control/gui.js:73-100 | each of the four tabs shows at least two groups and never the "nothing selected" one; any other value shows only that group, or nothing in fullscreen |
| RaymarcherGui.TabGroupsDisjoint | scripts/raymarcher/control/gui.js:73-100 | two different tabs never show a group in common |
| RaymarcherGui.Display | scripts/raymarcher/control/gui.js:70-100 | the menu is hidden exactly when no tab is selected in fullscreen, and it shows exactly the tab's groups |
| RaymarcherGui.FullscreenKeepsDisplay | scripts/raymarcher/control/gui.js:134-147 | a fullscreen change takes the menu `switchTab` left to the one it would have left in the new state |
| RaymarcherGui.ToggledTab | scripts/raymarcher/control/gui.js:57-68 | the check goes on with no tab exactly when the value is null or its button was already active, and otherwise with the value itself |
| RaymarcherGui.CheckTabs | scripts/raymarcher/control/gui.js:57-68 | the loop over the buttons returns `ToggledTab` of the old buttons, and afterwards exactly the resulting tab's button is active |
| RaymarcherGui.ScrollNeverToggles | scripts/raymarcher/control/gui.js:103-116 | when the buttons show the current tab, the tab the wheel steps to is never an active button, so the check keeps it |
| RaymarcherGui.ShaderMode | scripts/raymarcher/control/gui.js:214-229 | options 1 to 3 select their own mode and anything else, null included, mode 0 |
| RaymarcherGui.ModeOfOption | scripts/raymarcher/control/gui.js:212-233 | each option of the four-option switch selects the mode of its index, and deselecting selects mode 0 |
| RaymarcherGui.GUI.constructor | scripts/raymarcher/control/gui.js:4-16 | auto refresh on; the tab switch starts on General, which selects tab 0 and its menu; the shading switch starts on its first option, setting `shader_mode` to 0 |
| RaymarcherGui.GUI.SwitchTab | scripts/raymarcher/control/gui.js:56-101 | with the check the current tab is `ToggledTab` and the buttons show it, without it the value is taken as is and the buttons stay; the menu shows that tab's display |
| RaymarcherGui.GUI.ClickTab | scripts/raymarcher/control/gui.js:171-183 | clicking the current tab deselects it and clicking another makes it current; the buttons and menu follow |
| RaymarcherGui.GUI.ScrollTab | scripts/raymarcher/control/gui.js:103-116 | the current tab becomes the wheel's target among the four tabs, and the buttons and menu follow |
| RaymarcherGui.GUI.FullscreenChange | scripts/raymarcher/control/gui.js:134-147 | the menu takes the fullscreen step of its old state |
| RaymarcherGui.GUI.SelectShading | scripts/raymarcher/control/gui.js:212-233 | `shader_mode` takes the chosen option's mode and nothing else changes |
| RaymarcherGui.GUI.Resize | scripts/raymarcher/control/gui.js:124-127 | the accumulation restarts, then `canvas_size` takes the capped bounding rectangle and the canvas element its whole pixels |
| Tabs.ScrollStep | scripts/raymarcher/control/gui.js:104 | a positive delta steps back one tab, any other delta forward one |
| Tabs.ScrollInRange | scripts/raymarcher/control/gui.js:103-116 | scrolling always lands on no tab or one of the tabs, lands on no tab exactly when it steps off an end, and otherwise moves by exactly one |
| Tabs.ScrollBack | scripts/raymarcher/control/gui.js:103-116 | a step forward then back, or back then forward, returns to where it started, no tab included |
| Tabs.Switched | scripts/voxels/gui.js:167-181 | the chosen child ends with `attribute_true` and without `attribute_false`, every other child the reverse, an undefined attribute being skipped; no other class changes |
| Tabs.SwitchAttribute | scripts/voxels/gui.js:167-181 | the loop leaves every child with the classes `Switched` gives it |
| Tabs.MenuIndex | scripts/voxels/gui.js:72-78 | no tab shows the first menu child, tab `v` the child after it |
| Widgets.ActiveIndex | scripts/utility/widgets.js:527-534 | the largest index of an active button, none exactly when no button is active |
| Widgets.OnlyAt | scripts/utility/widgets.js:536-543 | a button is active exactly when its index equals the one set, and never for null |
| Widgets.GetAfterSet | scripts/utility/widgets.js:527-543 | reading the index back after setting it gives the index when it names a button and none otherwise, and at most one button is active |
| Widgets.GetIndex | scripts/utility/widgets.js:527-534 | the scan returns `ActiveIndex` of the buttons |
| Widgets.SetIndex | scripts/utility/widgets.js:536-543 | the loop leaves the buttons as `OnlyAt` the index |
| Widgets.IndexOf | scripts/utility/widgets.js:505 | the first position of the default among the options, −1 exactly when it is absent |
| Widgets.Switch.constructor | scripts/utility/widgets.js:479-507 | every button labelled with the default is active, and `set` is called once with the default's first index, −1 when absent |
| Widgets.Switch.Click | scripts/utility/widgets.js:484-493 | on an active button of an unselectable switch every button goes inactive and `set(null)` is called; otherwise only that button is active and `set` gets its index; at most one button is ever active afterwards |
| Widgets.Toggle.constructor | scripts/utility/widgets.js:12-20 | the attribute shows what `get()` returned and `set` is not called |
| Widgets.Toggle.Click | scripts/utility/widgets.js:23-32 | the attribute flips and `set` is called with the new value |
| Widgets.Toggle.UpdateGui | scripts/utility/widgets.js:34-40 | the attribute shows `get()` again and `set` is not called |
| Tile.SpanFacts | scripts/temp2/tile.js:18-19 | along an ordered axis the tile count is natural, zero exactly for a flat axis on a whole degree, and at most one exactly when the axis stays within one tile |
| Tile.ProductAtMostOne | scripts/temp2/tile.js:20 | two tile counts multiply to at most `max_tiles` = 1 exactly when one is zero or both are one |
| Tile.ValidOrderedBox | scripts/temp2/tile.js:13-21 | for an ordered box the check accepts exactly the boxes within ±180 degrees that lie in a single tile or are flat along an axis |
| Tile.GetTileSetGuard | scripts/temp2/tile.js:84-86 | throws its message exactly when the check refuses the set; a set let through lies within ±180 degrees and spans at most one tile |
| Tile.Decimal | scripts/temp2/tile.js:27-30 | `toString` of a whole tile number: nonempty decimal digits with no leading zero, one digit below 10, at most two below 100, at most three below 1000 |
| Tile.ParseDecimalOf | scripts/temp2/tile.js:27-30 | a printed tile number reads back as itself |
| Tile.PadStart | scripts/temp2/tile.js:30 | `padStart(width, '0')`: the string at the end, zeros in front of it up to `width` characters, nothing added when it is long enough |
| Tile.ParseLeadingZeros | scripts/temp2/tile.js:30 | leading zeros do not change the number a string denotes |
| Tile.PadKeepsNumber | scripts/temp2/tile.js:30 | padding a tile number with zeros keeps it |
| Tile.PaddedNumber | scripts/temp2/tile.js:30 | a tile number of at most `width` digits pads to exactly `width` digits that read back as the number |
| Tile.LayoutFields | scripts/temp2/tile.js:30 | with a two-digit and a three-digit number every part of the tile path sits at a fixed place |
| Tile.UrlFields | scripts/temp2/tile.js:23-32 | for latitudes and longitudes below 100 and 1000 degrees, the URL's hemisphere letters and padded numbers sit at fixed places and give back the whole degrees south-west of the point |
| Tile.Int16 | scripts/temp2/tile.js:48 | `getInt16(offset, false)` reads a value in the signed 16-bit range |
| Tile.BigEndian16 | scripts/temp2/tile.js:48 | a signed 16-bit value has a two-byte big-endian encoding |
| Tile.Int16OfBigEndian | scripts/temp2/tile.js:48 | reading the encoding of a signed 16-bit value gives it back |
| Tile.BigEndianOfInt16 | scripts/temp2/tile.js:48 | every pair of bytes is the encoding of the value read from it |
| Tile.DecodeTile | scripts/temp2/tile.js:39-56 | fails exactly when the inflated buffer is too short for the last read; otherwise a well-formed 1201×1201 tile whose row `row`, column `col` holds the big-endian signed sample at byte offset 2·(row·1201 + col) |
| Tile.TileBytes | scripts/temp2/tile.js:67-73 | four bytes per sample, the last one 255 |
| Tile.TileBytesOfSample | scripts/temp2/tile.js:67-73 | for a signed 16-bit sample the bytes are the high and low byte of the height biased by 32768, the low byte again, and 255, and the first two give the sample back |
| Tile.TileBytesOfInt16 | scripts/temp2/tile.js:48-73 | formatting a decoded sample flips the top bit of its high byte and keeps its low byte |
| Tile.Store | scripts/temp2/tile.js:70-73 | a typed-array store writes the index when it is in range and is ignored otherwise |
| Tile.FormatStep | scripts/temp2/tile.js:65-73 | storing a sample's bytes at offset 4·(x·width + y) extends the formatted prefix of a square tile by one cell |
| Tile.FormattedCell | scripts/temp2/tile.js:65-73 | a formatted cell's four bytes are the bytes of its sample |
| Tile.FormatRow | scripts/temp2/tile.js:64-74 | the inner loop formats row `x` of a square tile whose earlier rows are formatted |
| Tile.FormatTile | scripts/temp2/tile.js:59-82 | a width·height·4-byte image; on a square tile every cell holds the four bytes of its own sample |
| Uniforms.Reals | scripts/raymarcher/view/gpu.js:113 | a `Float32Array` of numbers holds each number in its own slot, in order |
| Uniforms.RowsToFloats | scripts/raymarcher/view/gpu.js:113 | a `Float32Array` built from an array of arrays has one slot per inner array, each the number that array converts to |
| Uniforms.PackAppend | scripts/raymarcher/view/gpu.js:281-292 | the packing of two records one after the other is the two packings one after the other |
| Uniforms.PackLength | scripts/raymarcher/view/gpu.js:281-292 | the packing is as long as the widths of the fields add up to |
| Uniforms.PackAt | scripts/raymarcher/view/gpu.js:281-292 | field i's contribution sits at its offset: the packing keeps the record's key-insertion order |
| Uniforms.SameShapeSameLength | scripts/raymarcher/view/gpu.js:147-152 | records of the same shape pack to the same length, so a buffer sized from one holds the other |
| Uniforms.IndexOf | scripts/raymarcher/view/gpu.js:128 | the position of the first field with the key, −1 exactly when there is none |
| Uniforms.GetAt | scripts/raymarcher/view/gpu.js:88 | reading a key finds the first field with that key |
| Uniforms.IndexOfAppend2 | scripts/raymarcher/view/gpu.js:35-60 | a key's position in two records one after the other is its position in the first, else after the first |
| Uniforms.GetAppend | scripts/raymarcher/view/gpu.js:35-60 | reading a key in two records one after the other: the first record wins |
| Uniforms.Set | scripts/raymarcher/view/gpu.js:128 | after the assignment the key holds the value and every other key is unchanged; an existing key keeps its place and a new one is appended |
| Uniforms.IndexOfAppend | scripts/raymarcher/view/gpu.js:128 | a key appended to a record that lacks it sits at the end |
| Uniforms.IndexOfOther | scripts/raymarcher/view/gpu.js:128 | appending a field does not move another key |
| Uniforms.SameKeysSameIndex | scripts/raymarcher/view/gpu.js:128 | records with the same keys in the same order find every key at the same place |
| Uniforms.SetKeepsShape | scripts/raymarcher/view/gpu.js:122 | replacing a field by a value of the same width keeps the record's shape and its packed length |
| Uniforms.SetSameWidth | scripts/raymarcher/view/gpu.js:122 | replacing a field by a value of the same width keeps the packed length |
| Uniforms.WidthOfVec | scripts/raymarcher/view/gpu.js:286-287 | a vector that passes `Vector.test` takes as many slots as it has components |
| Uniforms.SetTwice | scripts/raymarcher/view/gpu.js:128 | assigning a key twice is assigning it once to the second value |
| Uniforms.SetUnchanged | scripts/raymarcher/view/gpu.js:128 | assigning a key the value it already holds changes nothing |
| Uniforms.SetWellFormed | scripts/raymarcher/view/gpu.js:122 | assigning a well-formed value keeps every field well formed |
| Uniforms.WidthSlots | scripts/raymarcher/view/gpu.js:281-292 | a well-formed value packs to as many slots as its shape says |
| Uniforms.SetSameSlots | scripts/raymarcher/view/gpu.js:122 | replacing a field of a well-formed record by a value of the same shape keeps the record well formed and its packed length |
| Uniforms.SetNewFieldGrows | scripts/raymarcher/view/gpu.js:112-115 | adding a field the record lacks lengthens the packing by the new field's width, beyond a buffer sized from the old one |
| Uniforms.MatchesSlots | scripts/raymarcher/view/gpu.js:281-292 | two values of one shape pack to numbers and fill as many slots |
| Uniforms.SlotSumAppend | scripts/raymarcher/view/gpu.js:35-60 | the slots of two records one after the other add up |
| Uniforms.PackCons | scripts/raymarcher/view/gpu.js:35-60 | a well-formed field in front adds its slots |
| Uniforms.Fields4 | scripts/raymarcher/view/gpu.js:35-60 | a group of four well-formed fields, as the record literals are laid out, takes the sum of their slots |
| Uniforms.AllWellFormedAppend | scripts/raymarcher/view/gpu.js:35-60 | two records of well-formed fields one after the other are well formed |
| Uniforms.PackWellFormed | scripts/raymarcher/view/gpu.js:281-292 | a record of well-formed fields packs to numbers only, as many as its fields' shapes add up to |
| Uniforms.PackAllReal | scripts/raymarcher/view/gpu.js:281-292 | a record of well-formed fields packs to numbers only |
| Values.VecFields | scripts/utility/vector.js:14-15 | a vector object has one property per component |
| Values.ValuesOf | scripts/utility/vector.js:20-22 | `Object.values` lists each property's value in key-insertion order |
| Values.VecLookup | scripts/utility/vector.js:14-15 | the property `xyzw[i]` of a vector object is its i-th component |
| Values.LookupAt | scripts/utility/vector.js:14-15 | a property whose key occurs nowhere earlier is found with its value |
| Vector.Vec | scripts/utility/vector.js:2-18 | throws `RangeError` exactly when there are more than four arguments; one argument fills x, y and z; otherwise the arguments in order |
| Vector.Array | scripts/utility/vector.js:20-22 | `Object.values` of a vector gives back its components in order |
| Vector.TestAgrees | scripts/utility/vector.js:28-34 | `test` answers alike for a vector and for the same object written property by property |
| Vector.NoKeyBeyond | scripts/utility/vector.js:28-34 | a vector with fewer components than a key's position lacks that key, so a one-component object fails `test` |
| Vector.VecShape | scripts/utility/vector.js:2-34 | every vector built from one to four arguments passes `test`, and `array` gives back the arguments, a single one three times |
| Vector.Xyz | scripts/utility/vector.js:36-38 | a fresh 3-vector of the first three components |
| Vector.Xy | scripts/utility/vector.js:40-42 | a fresh 2-vector of the first two components |
| Vector.Add | scripts/utility/vector.js:62-77 | a fresh 3-vector whose components are the left-to-right totals of the operands' components, a number adding to all three |
| Vector.VectorObject.constructor | scripts/utility/vector.js:2-18 | an object holding the given components |
| Vector.Sub | scripts/utility/vector.js:79-94 | returns the first argument itself, its x, y and z reduced by every operand in turn and w kept |
| Vector.Mul | scripts/utility/vector.js:96-108 | returns the first argument itself, its x, y and z multiplied by a vector's components or by a number |
| Vector.Div | scripts/utility/vector.js:110-122 | returns the first argument itself, its x, y and z divided by a vector's components or by a number |
| Vector.Norm | scripts/utility/vector.js:55-60 | a fresh zero vector when x, y and z are all zero; otherwise the argument itself, divided by its length |
| VoxelsGpu.DefaultsWellFormed | scripts/voxels/gpu.js:29-54 | every default uniform packs to numbers only |
| VoxelsGpu.DefaultsPack | scripts/voxels/gpu.js:29-54 | the default record packs to 40 numbers, a whole number of 16-byte groups |
| VoxelsGpu.DefaultsGet | scripts/voxels/gpu.js:29-54 | each default uniform holds the value the constructor gives it, `grid_size` the height texture's size with depth 256, and no other key is present |
| VoxelsGpu.DefaultsShaped | scripts/voxels/gpu.js:29-54 | every field the renderer or engine rewrites starts with the shape it is rewritten with |
| VoxelsGpu.DefaultsFit | scripts/voxels/gpu.js:29-54 | the default record fits a buffer of 40 numbers |
| VoxelsGpu.SetKeeps | scripts/voxels/gpu.js:118 | overwriting a listed field with a value of its shape keeps the record fitting its buffer |
| VoxelsGpu.WebGLManager.constructor | scripts/voxels/gpu.js:13-98 | the default record synchronized to the client size, a uniform buffer of the first packing's 40 numbers, and the canvas at the capped client size |
| VoxelsGpu.WebGLManager.Render | scripts/voxels/gpu.js:100-113 | the uniform buffer is reallocated with the whole packing, and the viewport is the canvas size in scaled pixels |
| VoxelsGpu.WebGLManager.Synchronize | scripts/voxels/gpu.js:115-121 | `canvas_size` takes the client size capped at 2560×1440, the canvas element that size in scaled pixels, and the render scale is kept |
| VoxelsGpu.WebGLManager.ReloadImage | scripts/voxels/gpu.js:123-130 | the old height texture is released and the new one takes its place; `grid_size` becomes the image size with depth 256, so the record keeps its shape |
| VoxelsGpu.WebGLManager.Screenshot | scripts/voxels/gpu.js:132-136 | the texture is the floored buffer size and the read-back the floored canvas size in scaled pixels, bounded as `Lifecycle.ScreenshotSizes` states |
| VoxelsGpu.ScaledSize | scripts/voxels/gpu.js:119-120 | a non-negative size in scaled pixels is the largest whole count that fits, as the canvas element truncates it |
| VoxelsGpu.WholePixels | scripts/voxels/gpu.js:119-120 | at render scale 1 a whole pixel count is its own scaled size |
| VoxelsGpu.SyncedIdempotent | scripts/voxels/gpu.js:115-121 | synchronizing twice to the same size is synchronizing once, and `canvas_size` holds the capped client size |
| VoxelsGui.FitsScale | scripts/voxels/gui.js:103-108 | a record that fits its buffer holds a positive number `render_scale` for the arrows to step |
| VoxelsGui.PressedFits | scripts/voxels/gui.js:100-110 | an arrow press stores the scale stepped within 1 to 16 and the capped client size, keeps the record fitting its buffer, and leaves every other field |
| VoxelsGui.GUIManager.constructor | scripts/voxels/gui.js:4-13 | no key recorded and five buttons up; the tab switch starts on its one tab, so tab 0 is current, the menu is shown, and only its child for tab 0 is not hidden |
| VoxelsGui.GUIManager.SwitchTab | scripts/voxels/gui.js:62-79 | the tab becomes `value`; the buttons show it when asked to; the menu is hidden exactly for no tab in fullscreen; exactly the menu child for `value` is not hidden |
| VoxelsGui.GUIManager.FullscreenChange | scripts/voxels/gui.js:87-96 | with no tab selected the menu is hidden exactly in fullscreen; with a tab nothing changes |
| VoxelsGui.GUIManager.KeyDown | scripts/voxels/gui.js:98-116 | the key is recorded as down even while typing; when not typing the arrows step `render_scale` and resynchronize the canvas; other keys leave the canvas; F11 toggles fullscreen once |
| VoxelsGui.GUIManager.SetResolution | scripts/voxels/gui.js:147 | `render_scale` takes the widget's value and the canvas resynchronizes at that scale |
| VoxelsGui.GUIManager.KeyUp | scripts/voxels/gui.js:118-120 | the key is recorded as up and no other key changes |
| VoxelsGui.GUIManager.MouseDown | scripts/voxels/gui.js:122-124 | the button is recorded as down |
| VoxelsGui.GUIManager.MouseUp | scripts/voxels/gui.js:126-128 | the button is recorded as up |
| VoxelsGui.GUIManager.IsKeyPressed | scripts/voxels/gui.js:42-48 | true exactly when some key is recorded as down |
| VoxelsGui.GUIManager.IsMousePressed | scripts/voxels/gui.js:50-56 | true exactly when some button is recorded as down |
| WebGlManager.DefaultsWellFormed | scripts/raymarcher/view/webgl_manager.js:47-77 | every default uniform packs to numbers only |
| WebGlManager.DefaultsPack | scripts/raymarcher/view/webgl_manager.js:47-77 | the default record packs to 44 numbers, a whole number of 16-byte groups |
| WebGlManager.DefaultsGet | scripts/raymarcher/view/webgl_manager.js:47-77 | each default uniform holds the value the constructor gives it, and no other key is present |
| WebGlManager.DefaultsShaped | scripts/raymarcher/view/webgl_manager.js:47-77 | every field the renderer or engine rewrites starts with the shape it is rewritten with |
| WebGlManager.DefaultsFit | scripts/raymarcher/view/webgl_manager.js:47-77 | the default record fits a buffer of 44 numbers |
| WebGlManager.SetKeeps | scripts/raymarcher/view/webgl_manager.js:200 | overwriting a listed field with a value of its shape keeps the record fitting its buffer |
| WebGlManager.ComputeSource | scripts/raymarcher/view/webgl_manager.js:105 | the compute fragment source is the stored compute source followed by the SDF source, with a line break between them when recompiling (line 210) |
| WebGlManager.SourcesDiffer | scripts/raymarcher/view/webgl_manager.js:105 | the constructor's and `recompile`'s compositions of the same sources never agree |
| WebGlManager.ComputeViewport | scripts/raymarcher/view/webgl_manager.js:152 | the compute pass's viewport is the fewest scaled pixels that cover the canvas |
| WebGlManager.CanvasViewport | scripts/raymarcher/view/webgl_manager.js:184 | the render pass's viewport is the whole canvas in whole pixels |
| WebGlManager.WebGLManager.Init | scripts/raymarcher/view/webgl_manager.js:25-103 | the default record, the stored sources, the vertex buffer, the colour texture and its framebuffer, no program and no uniform buffer yet |
| WebGlManager.WebGLManager.Setup | scripts/raymarcher/view/webgl_manager.js:109-139 | ready exactly when both programs build; a failing compute build throws first; a program built before the throw stays; when ready, a fresh uniform buffer of the packing's 44 numbers |
| WebGlManager.WebGLManager.Recompile | scripts/raymarcher/view/webgl_manager.js:209-211 | `setup` on the stored compute source, a line break and the new SDF, and the stored render source: ready exactly when both programs build, a compute failure reported first, a program built before the throw kept, a fresh 44-number uniform buffer when ready and the old buffer and data otherwise |
| WebGlManager.WebGLManager.Render | scripts/raymarcher/view/webgl_manager.js:141-195 | with a uniform buffer bound it holds the whole packing, without one its contents are unchanged; the compute pass covers the canvas in scaled pixels and the render pass the whole canvas, whether or not the programs exist |
| WebGlManager.WebGLManager.Synchronize | scripts/raymarcher/view/webgl_manager.js:197-203 | the canvas and `canvas_size` take the client size capped at 2560×1440 and no other uniform changes |
| WebGlManager.WebGLManager.Refresh | scripts/raymarcher/view/webgl_manager.js:205-207 | `temporal_counter` becomes 1 and nothing else changes |
| WebGlManager.Open | scripts/raymarcher/view/webgl_manager.js:25-107 | a manager exists exactly when both programs build; it has the compute source followed directly by the SDF source, one uniform buffer of 44 numbers, and the record and canvas synchronized to the capped client size |
| WebGlManager.SyncedIdempotent | scripts/raymarcher/view/webgl_manager.js:197-203 | synchronizing twice to the same size is synchronizing once, and `canvas_size` holds the capped client size |

## Left out

- Float32 rounding: packings are modelled as exact reals, and `Float32Array` conversion only distinguishes numbers from NaN.
- Trigonometry and square roots are not computed. This covers `Matrix.makeRotationMatrix`, `rot2dir`, `deg2rad`, `Vector.len`, `cross` and `dot`, and the camera's `updatePosition`, `updateOrbit` and wheel scaling. Their results, such as a rotation matrix, a sun direction, a new camera position or a vector's length, are parameters of the members that use them.
- GPU API calls are not modelled: shader modules, pipelines, bind groups, textures, command encoders, draws, dispatches and queue submission. Buffers, textures, programs and framebuffers are opaque handles. Shader compilation and linking are boolean outcomes handed in to the members that model their throws: `WebGlManager.WebGLManager.Setup`, `Pong.Initialize` and `Particles.Initialize`.
- DOM construction is not modelled: widget elements, tooltips, `innerHTML` labels, gui_utils.js, fullscreen and pointer-lock requests. The DOM's answers are parameters.
- Async and timer plumbing is not modelled: the `initialize()` fetches, the adapter and device requests, `requestAnimationFrame` loops, and the `setInterval` timers that call `updateGUI`, `updateValues` and `save` and update the frame-rate display. The wiring files scripts/main.js, scripts/particles/engine.js, scripts/lensing/engine.js, scripts/temp/engine.js and scripts/temp2/engine.js are not part of this model.
- Network and decompression are not modelled. `fetchTile`'s download and `pako.inflate` are replaced by the inflated byte sequence, which `Tile.DecodeTile` takes as input. temp2/gui.js is not part of this model.
- Local storage in raymarcher/engine.js is a map from entry names to saved entries, and `JSON.stringify`/`JSON.parse` are taken as exact inverses. utility/storage.js is not part of this model.
- Touch and pointer geometry is not modelled: touch.js, touch_listener.js and pointer.js.
- Console output is not modelled: `console.log` and `console.error`.
- `toFixed` formatting and the log slider mapping of the widgets are not modelled.
- `bufferToImage`'s float-to-byte conversion and download are not modelled.
- The broken files are not part of this model: scripts/pong/gpu.js, scripts/control/gui.js and temp/temp.js.
- image.js `sample` calls `Vector.mix`, which utility/vector.js does not define, so it always throws; it is not modelled.
- Tile.GetTileSetGuard: only the guard of `getTileSet` is modelled. The loop after it assigns the undeclared `tiles`, which throws a ReferenceError in a module, so it never runs. `getData`, `cropImage` and `analyzeImage` are stubs.
- Tile.Url: the tile numbers are printed by `Decimal`, which covers whole numbers. JavaScript's exponent notation for numbers of 10^21 and above cannot arise for coordinates the guard accepts.
- Tile.FormatTile: the exact contents are stated only for square tiles. On a non-square tile the offsets 4·(x·width + y) collide or leave gaps, and the bytes there are not characterised; decoded SRTM tiles are square (1201×1201).
- Image.Crop: the exact contents, proved by `Image.CropSquare`, are stated only for square boxes, because the transposed offset x·width + y makes later cells overwrite earlier ones otherwise. Corners are whole numbers.
- Image.Resize: the yellow fill is stated only for square images, for the same reason. Sizes are whole numbers.
- Tabs.ScrollTarget: requires at least one tab. With no tab button, JavaScript's `% 0` would give NaN, and every GUI builds its tab bar with at least one tab.
- VoxelsGui.GUIManager.SetResolution: requires a positive value, which the widget's bounds of 1 to 16 guarantee.
- FractalsGui.GUIManager.ChooseSdf: the preset writes and the recompile are modelled in program order. The interleaving of the awaited fetch with other events is not.
- scripts/fractals/webgl_manager.js is not part of this model. The fractal engine and GUI run over the model of raymarcher/view/webgl_manager.js, assuming the same `refresh`, `render`, `recompile` and 44-float uniform record.
- Input.Input.MouseMove: `camera.rotate`, which control/input.js calls, is not a method of the camera class in utility/camera.js. The model turns the camera with `updateRotation`.
- Input.Input.MouseMove: the guard `this.gui.focused()` at scripts/control/input.js:63 calls a method no GUI class defines (scripts/control/gui.js has `isFocused`), so every move throws a TypeError and the camera never turns. The model's `focused` is the answer `isFocused()` evidently was meant to give.
- Input.Input.MouseScroll: the guard `this.gui.focused()` at scripts/control/input.js:68 is undefined in the same way, so every wheel event throws before the speed changes. The model's `focused` is the answer `isFocused()` would give.
- Input.Input.KeyboardPress: space calls `this.gui.toggle()` at scripts/control/input.js:34, which no GUI class defines (scripts/control/gui.js has `toggleVisibility`), so the handler throws a TypeError. The model counts the toggle `toggleVisibility()` evidently was meant to make.
- FractalsGui.GUIManager.Wheel: scripts/fractals/gui.js:167 calls `camera.isOrbiting()`, which the camera class in scripts/utility/camera.js does not define, so every wheel event throws before any refresh. The model's `orbiting` is the camera's `orbit_mode` field, the evidently intended answer.
- FractalsGui.GUIManager.MouseMove: scripts/fractals/gui.js:173 calls `camera.isEnabled()`, which scripts/utility/camera.js does not define, so a move with no button held throws before any refresh. The model's `cameraEnabled` is the camera's `enabled` field.
- KeyManager.KEYManager.MouseMove: scripts/raymarcher/key.js:16 makes the same `camera.isEnabled()` call, with the same throw when no button is held. The model's `cameraEnabled` is the camera's `enabled` field.
- The canvas `click` listeners at scripts/fractals/gui.js:98-101 and scripts/voxels/gui.js:81-84 call `camera.toggle(canvas)`, which scripts/utility/camera.js does not define, so a click throws and changes nothing; they are not modelled.
- RayMarcher.RayMarcher.constructor: scripts/engine/raymarcher.js:18 calls `new Camera()` with no canvas, so the camera's `canvas.addEventListener` (scripts/utility/camera.js:41) throws a TypeError and no renderer is built. The model builds a default camera as evidently intended.
- RayMarcher.RayMarcher.constructor: engine/raymarcher.js builds `Input` with the renderer, the camera and the GUI, while `Input`'s constructor takes the camera and the GUI. The model connects the input to the camera and GUI as evidently intended. The early `this.destroy()` call is modelled; it runs before the renderer is assigned.
- RaymarcherEngine.Engine.constructor: scripts/raymarcher/engine.js:22 calls `new Camera()` with no canvas, which throws a TypeError at scripts/utility/camera.js:41, so no engine is built. The model builds a default camera as evidently intended.
- RaymarcherEngine.Engine.constructor: scripts/raymarcher/engine.js:23 calls `new GUI(this.gpu, this.camera)`, while the constructor at scripts/raymarcher/control/gui.js:4 takes `(camera, gpu)`, so the GUI would hold the renderer as its camera and the camera as its renderer. The engine model holds no GUI; the GUI's answers that `update` reads (focus and auto refresh) are parameters, taken as a GUI wired in its declared roles would give them.
- RaymarcherEngine.Engine.Update: scripts/raymarcher/engine.js:34 passes the input's `key_states` object to `updatePosition`, which expects a direction vector. `Vector.len` of that object is NaN, so the zero-length test fails and the camera moves to NaN coordinates. The model takes the intended local direction, the one `getLocalDirection` computes from the held keys, as the parameter `local`.
- FractalsGui.GUIManager.constructor: scripts/fractals/gui.js:184 calls `Widgets.setupAddTooltip()`, which scripts/utility/widgets.js does not export, so `setupWidgets` throws a TypeError before any widget is built. The model builds the widgets and applies their first reports as evidently intended.
- VoxelsGui.GUIManager.constructor: scripts/voxels/gui.js:132 makes the same `Widgets.setupAddTooltip()` call, which throws the same TypeError. The model builds the widgets as evidently intended.
- VoxelsGpu.WebGLManager.constructor: as written no voxel renderer is ever built. `initialize` calls `WebGL.Texture.load` (scripts/voxels/gpu.js:9), but scripts/utility/webgl.js exports no `Texture`, so it throws a TypeError. A texture handed in directly fails too: `height_texture.setup(...)` at line 95 throws, because the only `Texture` class (scripts/utility/texture.js:3-36) has no `setup`. The constructor also throws without a WebGL2 context (lines 22-24) and when `createProgram` fails to compile or link (line 81). The model builds the manager with the texture installed and synchronized, as evidently intended, and takes no build outcome.
- VoxelsGpu.WebGLManager.ReloadImage: `this.height_texture.destroy(this.gl)` at scripts/voxels/gpu.js:124 throws a TypeError before anything changes, because `Texture` has no `destroy`. `new WebGL.Texture(...)` at line 125 would throw as well. The model releases the old texture, installs the new one and rewrites `grid_size`, as evidently intended.
- LensingGpu.WebGLManager.constructor: the same failures as the voxel renderer. `WebGL.Texture.load` at scripts/lensing/gpu.js:9 throws, `sky_texture.setup(...)` at line 92 is a method `Texture` lacks, the constructor throws without a WebGL2 context (lines 22-24), and it throws on a failed `createProgram` (line 78). The model builds the manager as evidently intended and takes no build outcome.
- Vector.Div: the divisor must be a number or a vector with x, y and z all nonzero. scripts/utility/vector.js:110-122 also accepts a zero divisor and yields IEEE ±Infinity or NaN, which exact reals cannot represent. `div` has no caller in the source.
- Vector.Add: each operand must be a number or a vector of three or four components. A two-component vector passes `test` and contributes `undefined` to z, making z NaN, which exact reals cannot represent.
- Vector.Sub: the same operand requirement as `Vector.Add`, for the first argument too, whose z it updates.
- Vector.Mul: the same operand requirement as `Vector.Add`, for both arguments.
- Module-linking mismatches are not modelled: default imports of vector.js, which has only named exports, and `import * as` of default-export classes. The functions' intended meaning is modelled.
- Particles.ParticleSimulator.Draw: `frame_buffer` is a single framebuffer, so the swap of its "0" and "1" properties exchanges two undefined values. The model keeps them as an absent pair.
- Pong.RandomVelocities: the direction and its length are samples and a square root handed in. That the result has unit speed times the multiplier is not proved.

## Findings

| source | as written | input that shows it | evidently intended | confidence | as-written member | corrected member |
|---|---|---|---|---|---|---|
| scripts/pong/particle_simulator.js:21 | `max_grid_size` divides `max_render_size.y` for both components, so it is 72×72 and the colour textures are allocated 72 wide | a client width of 2560 makes `synchronize` set `grid_size.x` to 128, beyond the 72 columns of the textures | `max_render_size.x / square_size` for the width: 128×72 | not executed | Pong.MaxGridSizeAsWritten, Pong.GridOverflowsAsWritten | Pong.MaxGridSize, Pong.GridFits |
