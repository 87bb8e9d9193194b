# WebCamManager, modelled in Dafny

WebCamManager is the Unity component of LiveAvatar that drives the camera
and feeds each frame to the Dlib face-landmark detector. It has three parts:
- It opens a camera: a requested device name wins, then the first device
  with the requested facing, then device 0.
- It waits for the camera's first frame and sizes its buffers for it.
- On every frame where the camera has delivered, it copies the pixels into
  a `Color32` buffer. It turns the buffer a quarter clockwise when
  `rotate90Degree` is set, then mirrors it by a flip code derived from the
  device, the video rotation angle and the user's `flipVertical` and
  `flipHorizontal`. It hands the buffer to the detector, announces the
  first face to `OnFacelandmarkUpdated`, and uploads the buffer to the
  display texture.
A change of screen orientation reopens the camera.

The model has six modules:

- `Grid` — row-major indexing (`x + y * width`) and the division facts that
  recover coordinates from an index.
- `Pixels` — `Color32` with byte channels; `Clear` is the value of a fresh
  `Color32[]` slot.
- `Permutations` — a reindexing by an injective map only rearranges a
  sequence.
- `Transforms` — the four pixel transforms.
  - Each exists as the source's nested-loop method over arrays and as a
    function on sequences that specifies it.
  - Lemmas place every input pixel in the output and prove the transforms
    to be permutations.
  - They also prove the algebra between them: involutions, a commuting
    pair of flips, inverse rotations, the half and full turns, and a
    quarter turn followed by both flips.
- `Orientation` — the flip decision of `RotateAndFlip`.
  - It is modelled as written, with the integer flip code, and beside that
    as a pair of flags; lemmas prove the two agree.
  - The buffer-level result is `Oriented`, with its inverse `Restored`.
  - `RotateAndFlip` itself is an imperative method proved to return
    `Oriented`.
- `Lifecycle` — the `WebCamManager` class.
  - Its fields are the component's state. The inspector settings are a
    `Config` value, with the shipped defaults in `DefaultConfig`.
  - Its methods are the lifecycle steps, plus the pure functions that
    specify the camera choice and the event.

Everything outside the component is a parameter of the method that consults
it: the device list, the camera's current frame, the screen orientation,
the faces the detector finds, the buffer after the detector has drawn into
it, and whether any handler is subscribed.

Transforms take the image dimensions as `(width, height)`. The source's
`RotateCW` names its parameters `(height, width)` but is called with the
width first (lines 370 and 538). The model names them by what they are.

## Model

| member | source | states |
|---|---|---|
| Transforms.FlipVerticalSource | Assets/LiveAvatar/Script/WebCamManager.cs:500 | the vertical flip reads every output slot of a width×height image from a slot inside the image |
| Transforms.FlipHorizontalSource | Assets/LiveAvatar/Script/WebCamManager.cs:523 | the horizontal flip reads every output slot from a slot inside the image |
| Transforms.RotateCWSource | Assets/LiveAvatar/Script/WebCamManager.cs:546 | the clockwise rotation reads every output slot from a slot inside the image |
| Transforms.RotateCCWSource | Assets/LiveAvatar/Script/WebCamManager.cs:568 | the counter-clockwise rotation reads every output slot from a slot inside the image |
| Transforms.FlippedV | Assets/LiveAvatar/Script/WebCamManager.cs:492-506 | the vertical flip keeps the buffer length and leaves every slot past width*height at the default colour |
| Transforms.FlippedH | Assets/LiveAvatar/Script/WebCamManager.cs:515-529 | the horizontal flip keeps the buffer length and leaves every slot past width*height at the default colour |
| Transforms.RotatedCW | Assets/LiveAvatar/Script/WebCamManager.cs:538-551 | the clockwise rotation keeps the buffer length and leaves every slot past width*height at the default colour |
| Transforms.RotatedCCW | Assets/LiveAvatar/Script/WebCamManager.cs:560-573 | the counter-clockwise rotation keeps the buffer length and leaves every slot past width*height at the default colour |
| Transforms.FlippedVAt | Assets/LiveAvatar/Script/WebCamManager.cs:500 | input pixel (x, y) lands at (x, height-1-y) |
| Transforms.FlippedHAt | Assets/LiveAvatar/Script/WebCamManager.cs:523 | input pixel (x, y) lands at (width-1-x, y) |
| Transforms.RotatedCWAt | Assets/LiveAvatar/Script/WebCamManager.cs:542-548 | input pixel (x, y) of a width×height image lands at column y, row width-1-x of the height-wide result |
| Transforms.RotatedCCWAt | Assets/LiveAvatar/Script/WebCamManager.cs:564-570 | input pixel (x, y) lands at column height-1-y, row x of the height-wide result |
| Transforms.FlipVerticalInvolution | Assets/LiveAvatar/Script/WebCamManager.cs:492-506 | flipping vertically twice gives the image back |
| Transforms.FlipHorizontalInvolution | Assets/LiveAvatar/Script/WebCamManager.cs:515-529 | flipping horizontally twice gives the image back |
| Transforms.FlipsCommute | Assets/LiveAvatar/Script/WebCamManager.cs:458-462 | the two flips give the same result in either order, so code -1 (both flips, vertical first) is order independent |
| Transforms.RotateCCWUndoesCW | Assets/LiveAvatar/Script/WebCamManager.cs:538-573 | the counter-clockwise turn of the height×width result undoes the clockwise turn |
| Transforms.RotateCWUndoesCCW | Assets/LiveAvatar/Script/WebCamManager.cs:538-573 | the clockwise turn undoes the counter-clockwise turn |
| Transforms.HalfTurn | Assets/LiveAvatar/Script/WebCamManager.cs:538-551 | two clockwise quarter turns equal both flips |
| Transforms.FullTurn | Assets/LiveAvatar/Script/WebCamManager.cs:538-551 | four clockwise quarter turns give the image back |
| Transforms.QuarterTurnThenBothFlips | Assets/LiveAvatar/Script/WebCamManager.cs:448-462 | a clockwise turn followed by both flips on the turned dimensions is a counter-clockwise turn |
| Transforms.FlipVerticalSourceInvolution | Assets/LiveAvatar/Script/WebCamManager.cs:500 | the vertical flip's index map is its own inverse |
| Transforms.FlipHorizontalSourceInvolution | Assets/LiveAvatar/Script/WebCamManager.cs:523 | the horizontal flip's index map is its own inverse |
| Transforms.RotateSourcesInverse | Assets/LiveAvatar/Script/WebCamManager.cs:538-573 | the two rotations' index maps are inverse to each other in both orders |
| Transforms.FlippedVIsPermutation | Assets/LiveAvatar/Script/WebCamManager.cs:492-506 | on a full width×height buffer the vertical flip is a permutation: same multiset of pixels |
| Transforms.FlippedHIsPermutation | Assets/LiveAvatar/Script/WebCamManager.cs:515-529 | the horizontal flip is a permutation of the pixels |
| Transforms.RotatedCWIsPermutation | Assets/LiveAvatar/Script/WebCamManager.cs:538-551 | the clockwise rotation is a permutation of the pixels |
| Transforms.RotatedCCWIsPermutation | Assets/LiveAvatar/Script/WebCamManager.cs:560-573 | the counter-clockwise rotation is a permutation of the pixels |
| Transforms.FlipVertical | Assets/LiveAvatar/Script/WebCamManager.cs:492-506 | the nested loops return a new array equal to FlippedV of the input |
| Transforms.FlipHorizontal | Assets/LiveAvatar/Script/WebCamManager.cs:515-529 | the nested loops return a new array equal to FlippedH of the input |
| Transforms.RotateCW | Assets/LiveAvatar/Script/WebCamManager.cs:538-551 | the loops, with x counting down and a running output index, return a new array equal to RotatedCW |
| Transforms.RotateCCW | Assets/LiveAvatar/Script/WebCamManager.cs:560-573 | the loops, with y counting down, return a new array equal to RotatedCCW |
| Orientation.DeviceFlipCode | Assets/LiveAvatar/Script/WebCamManager.cs:373-404 | the camera alone yields one of the four codes; some flip only at 0, 90, 180 or 270 degrees; both flips (-1) only for a back camera |
| Orientation.ToggleVerticalCode | Assets/LiveAvatar/Script/WebCamManager.cs:406-424 | a set flipVertical keeps the code among the four values and changes every one of them, leaving any other integer alone |
| Orientation.ToggleHorizontalCode | Assets/LiveAvatar/Script/WebCamManager.cs:426-444 | a set flipHorizontal keeps the code among the four values and changes every one of them, leaving any other integer alone |
| Orientation.FlipCode | Assets/LiveAvatar/Script/WebCamManager.cs:373-444 | the final code is one of the four values, and the camera's own code when no user flag is set |
| Orientation.Code | Assets/LiveAvatar/Script/WebCamManager.cs:373-446 | each flag pair has one of the four codes, int.MinValue exactly for no flip |
| Orientation.DeviceFlip | Assets/LiveAvatar/Script/WebCamManager.cs:373-404 | the camera's mirroring: vertical exactly at 180 and 270 degrees; horizontal for a front camera at 0 or 90 and for a back camera at 180 or 270 degrees; none at any other angle |
| Orientation.Toggle | Assets/LiveAvatar/Script/WebCamManager.cs:406-444 | a toggle changes the plan exactly when a user flag is set, and each flag changes exactly when its user flag is set |
| Orientation.Decide | Assets/LiveAvatar/Script/WebCamManager.cs:373-444 | the plan is the camera's own without user flags; vertical exactly when the camera's upside-down angles and flipVertical differ; horizontal exactly when the camera's horizontal flag and flipHorizontal differ |
| Orientation.CodeIsOneToOne | Assets/LiveAvatar/Script/WebCamManager.cs:373-446 | the flag pair and the integer code are in one-to-one correspondence, and code > int.MinValue means some flip |
| Orientation.DeviceFlipCodeIsDeviceFlip | Assets/LiveAvatar/Script/WebCamManager.cs:373-404 | the literal if-chains, including the front camera's second chain that is not an else, compute DeviceFlip's code |
| Orientation.ToggleVerticalCodeIsToggle | Assets/LiveAvatar/Script/WebCamManager.cs:406-424 | a set flipVertical inverts exactly the vertical flag |
| Orientation.ToggleHorizontalCodeIsToggle | Assets/LiveAvatar/Script/WebCamManager.cs:426-444 | a set flipHorizontal inverts exactly the horizontal flag |
| Orientation.FlipCodeIsDecide | Assets/LiveAvatar/Script/WebCamManager.cs:373-444 | the code computed as written encodes Decide: the device's flags toggled by the user's |
| Orientation.CodeTogglesCommuteAndCancel | Assets/LiveAvatar/Script/WebCamManager.cs:406-444 | on the four codes each toggle undoes itself and the two toggles commute |
| Orientation.ToggleComposes | Assets/LiveAvatar/Script/WebCamManager.cs:406-444 | toggles compose by exclusive-or, cancel and commute |
| Orientation.ApplyFlip | Assets/LiveAvatar/Script/WebCamManager.cs:446-480 | the flip passes keep the buffer length |
| Orientation.Oriented | Assets/LiveAvatar/Script/WebCamManager.cs:366-483 | rotating and flipping keeps the buffer length |
| Orientation.Restored | Assets/LiveAvatar/Script/WebCamManager.cs:366-483 | the proposed inverse of Oriented keeps the buffer length |
| Orientation.ApplyFlipComposes | Assets/LiveAvatar/Script/WebCamManager.cs:446-480 | flip passes for one plan and then another equal passes for the toggled plan |
| Orientation.ApplyFlipInvolution | Assets/LiveAvatar/Script/WebCamManager.cs:446-480 | the flip passes of a plan undo themselves |
| Orientation.OrientedRestores | Assets/LiveAvatar/Script/WebCamManager.cs:366-483 | RotateAndFlip loses no information: Restored gives the frame back |
| Orientation.ApplyFlipIsPermutation | Assets/LiveAvatar/Script/WebCamManager.cs:446-480 | the flip passes only rearrange the pixels |
| Orientation.OrientedIsPermutation | Assets/LiveAvatar/Script/WebCamManager.cs:366-483 | RotateAndFlip only rearranges the pixels of a full frame |
| Orientation.RotatedBackCameraUpsideDown | Assets/LiveAvatar/Script/WebCamManager.cs:368-462 | a rotated back-camera frame at 180 or 270 degrees without user flags comes out turned a quarter counter-clockwise |
| Orientation.RotateAndFlip | Assets/LiveAvatar/Script/WebCamManager.cs:366-483 | the result is Oriented of the input under Decide, flipped on the swapped dimensions when rotated; with no rotation and no flip the input array itself is returned, and after any rotation or flip pass a new array |
| Lifecycle.FirstWithFacing | Assets/LiveAvatar/Script/WebCamManager.cs:181-191 | the first device with the requested facing, or none when no device has it |
| Lifecycle.FindFacing | Assets/LiveAvatar/Script/WebCamManager.cs:181-191 | the loop with break finds exactly FirstWithFacing |
| Lifecycle.PickCamera | Assets/LiveAvatar/Script/WebCamManager.cs:174-207 | the selection order, each branch as an if-and-only-if: a requested name; else the first device with the facing; else a texture left from an earlier initialisation; else device 0; else failure |
| Lifecycle.NewTexture | Assets/LiveAvatar/Script/WebCamManager.cs:176-199 | a new texture is created for the given device with the configured width, height and frame rate, not yet playing |
| Lifecycle.Stopped | Assets/LiveAvatar/Script/WebCamManager.cs:165 | Stop() keeps the texture and everything about it except that it no longer plays |
| Lifecycle.Opened | Assets/LiveAvatar/Script/WebCamManager.cs:174-211 | a texture plays after selection exactly when the selection did not fail |
| Lifecycle.ChosenDevice | Assets/LiveAvatar/Script/WebCamManager.cs:181-200 | the device record changes only to a listed device |
| Lifecycle.Published | Assets/LiveAvatar/Script/WebCamManager.cs:319-333 | at most one event per frame, raised exactly when a handler is subscribed and a face was found, carrying the first face |
| Lifecycle.RaiseFacelandmarkUpdated | Assets/LiveAvatar/Script/WebCamManager.cs:319-336 | the loop over the faces with eventTrigger raises exactly Published |
| Lifecycle.WebCamManager.Valid | Assets/LiveAvatar/Script/WebCamManager.cs:68-113 | the state invariant: without a texture nothing is waiting or done and no geometry is kept; while waiting nothing of the old geometry is kept; once done the display texture and the detector exist |
| Lifecycle.WebCamManager.StartedStreaming | Assets/LiveAvatar/Script/WebCamManager.cs:232-277 | the state after the first frame: a blank buffer of the frame's size, the rotation flag from the request and the portrait check, the display texture at the turned size, the orientation recorded, waiting over and initialisation done |
| Lifecycle.WebCamManager.constructor | Assets/LiveAvatar/Script/WebCamManager.cs:15-113 | the initial state: no textures, no detector, an unset device, not waiting, not initialised |
| Lifecycle.WebCamManager.InitFaceLandmarkDetector | Assets/LiveAvatar/Script/WebCamManager.cs:126-133 | the detector is built from the given model file and nothing else changes |
| Lifecycle.WebCamManager.PollFirstFrame | Assets/LiveAvatar/Script/WebCamManager.cs:213-285 | on a delivered frame: a blank buffer of the frame's size; rotate90Degree from the portrait check and the request; a display texture of the turned size; the orientation recorded; initialisation done. Otherwise nothing changes |
| Lifecycle.WebCamManager.InitWebCamTextureContract | Assets/LiveAvatar/Script/WebCamManager.cs:158-285 | ignored while waiting; otherwise the old texture is stopped and its geometry forgotten; the texture that plays and the device record are those of the selection; with no device the waiting ends uninitialised; the first check for a frame follows |
| Lifecycle.WebCamManager.ResumeInit | Assets/LiveAvatar/Script/WebCamManager.cs:213-285 | a later frame of the wait loop: the same effect as the first check while waiting, nothing otherwise |
| Lifecycle.WebCamManager.ProcessFrame | Assets/LiveAvatar/Script/WebCamManager.cs:305-345 | the detector receives Oriented of the frame at the display texture's size; the first face is announced per Published; the drawn buffer is uploaded |
| Lifecycle.WebCamManager.Update | Assets/LiveAvatar/Script/WebCamManager.cs:294-346 | nothing before initialisation; with the same orientation the display texture keeps its size, and with no new frame nothing changes at all; a changed orientation reopens the camera, with the texture, the device record, the waiting and done flags, and (after a delivered frame) the rotation flag, the display-texture size and the recorded orientation as the first poll sets them; the detector is never rebuilt, only handed a new image, and a delivered frame reaches it oriented at the display texture's size; the event log only grows, by at most one; the drawn buffer reaches the display |
| Lifecycle.WebCamManager.OnDestroy | Assets/LiveAvatar/Script/WebCamManager.cs:351-357 | the texture, if any, is stopped and the detector, if any, disposed |
| Lifecycle.ReopenNeverFails | Assets/LiveAvatar/Script/WebCamManager.cs:163-207 | once a texture exists, reopening always yields a playing texture; device 0 is never the fallback then |
| Lifecycle.ChosenDeviceFacing | Assets/LiveAvatar/Script/WebCamManager.cs:181-200 | without a requested name, the chosen device has the requested facing exactly when some device has it; otherwise it is device 0 |
| Lifecycle.DefaultConfigOpensFirstBackCamera | Assets/LiveAvatar/Script/WebCamManager.cs:21-63 | with the shipped inspector defaults a first start-up plays a 640×480, 30 fps texture of the chosen device: the first back-facing device when there is one, device 0 when every device faces front |
| Lifecycle.Startup | Assets/LiveAvatar/Script/WebCamManager.cs:116-156 | after start-up the detector is loaded; a texture plays unless there is neither a name nor a device; initialisation is done exactly when the first frame has arrived; a requested name leaves the device record unset |
| Lifecycle.TurnWhileStreaming | Assets/LiveAvatar/Script/WebCamManager.cs:299-302 | turning the device while streaming leaves a playing texture that waits for its first frame, with the same detector as before |

## Left out

- Unity, UniRx and Dlib calls are not modelled; only their effects are:
  - The UniRx scheduling (NextFrame, Start on a worker thread, ObserveOnMainThread) is sequenced by the caller, as in `Startup`. The detector is built synchronously, and no update is assumed to run concurrently with its construction.
  - `FaceLandmarkDetector`'s detection and drawing are parameters. The faces it finds and the buffer after `DrawDetectLandmarkResult` and `DrawDetectResult` are supplied by the caller.
  - Assigning the texture to the renderer's material is not modelled.
- The coroutine is modelled as two methods:
  - `InitWebCamTextureContract` covers the start up to the first loop check.
  - `ResumeInit` is one later loop iteration. The caller delivers the frame each time.
  - The coroutine is re-entered from `Update` through `StartCoroutine` on the same frame; the model does this by direct call.
- Lifecycle.WebCamManager.PollFirstFrame: the camera's `orthographicSize` computation (lines 261-273) is floating-point arithmetic on screen sizes and is not modelled.
- Lifecycle.WebCamManager.PollFirstFrame: the iOS-only branches (lines 216-226) are left out. The model follows the generic `didUpdateThisFrame` test.
- The portrait check of lines 234-241 is compiled only on device players. It is the `rotatesOnPortrait` flag.
- Lifecycle.Startup: the detector is loaded from the bare model file name `sp_human_face_68.dat`. The platform path the Dlib utilities resolve it to (`getFilePath`, line 122) is not modelled.
- `Debug.Log` output is not modelled, and neither is `startGame`, which has an empty body.
- Lifecycle.WebCamManager.ProcessFrame: if the camera changes resolution after the first frame, the model skips that frame. Unity's `GetPixels32` into a buffer of the wrong size fails instead.
- Lifecycle.WebCamManager.Update requires `|frame.pixels| == width * height`, which is how Unity's camera reports a frame.
- `Rect` and landmark `Point` coordinates are integers here. They are floats in the source, and only passed along.
- Transforms.FlipVertical, Transforms.FlipHorizontal, Transforms.RotateCW and Transforms.RotateCCW require `width * height <= colors.Length`. A shorter array makes the source throw an index exception. Negative dimensions cannot occur, because the sizes come from the camera.
- Transforms.FlipVertical and Transforms.FlipHorizontal drop the source's counter `i`, which is incremented but never read.
- The `colors` field starts as an empty array; the source starts it as `null`, and nothing reads it before the first frame.
- The null and empty `requestedDeviceName` are both the empty string.
- An unset `WebCamDevice` has the empty name and faces back.
- Lifecycle.WebCamManager.InitWebCamTextureContract requires the detector to exist. The source opens the camera only from the detector's completion callback, and `Update` would otherwise dereference a null detector.
- A device requested by name does not update `webCamDevice`, as in the source. Such a camera is then mirrored by the previous device record, which is the unset back-facing one on first start-up (`Startup`).
