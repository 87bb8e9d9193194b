/**
  * The capture lifecycle of WebCamManager: loading the landmark detector,
  * opening a camera (initWebCamTextureContract), waiting for its first
  * frame, processing one frame per Update, re-opening the camera when the
  * screen orientation changes, and releasing everything in OnDestroy.
  *
  * The camera, the screen, the detector and the event's subscribers are
  * outside this model: what they report is passed in (the device list, the
  * current frame, the screen orientation, the detected faces, whether any
  * handler is subscribed), and the textures are values recording what was
  * asked of them.
  */
module Lifecycle {
  import opened Pixels
  import opened Orientation

  datatype Option<T> = None | Some(value: T)

  /** Unity's ScreenOrientation; Unknown is the default an unset field holds. */
  datatype ScreenOrientation = Unknown | Portrait | PortraitUpsideDown | LandscapeLeft | LandscapeRight

  predicate IsPortrait(o: ScreenOrientation)
  {
    o == Portrait || o == PortraitUpsideDown
  }

  /** A WebCamDevice: its name and facing. An unset device has an empty name and faces back. */
  datatype Device = Device(name: string, isFrontFacing: bool)

  const UnsetDevice: Device := Device("", false)

  /** The inspector settings; an empty device name stands for null or "". */
  datatype Config = Config(
    requestedDeviceName: string,
    requestedWidth: int,
    requestedHeight: int,
    requestedIsFrontFacing: bool,
    requestedFPS: int,
    requestedRotate90Degree: bool,
    flipVertical: bool,
    flipHorizontal: bool)

  /** The settings the component ships with. */
  const DefaultConfig: Config := Config("", 640, 480, false, 30, false, false, false)

  /** A WebCamTexture: the device and request it was created with, and whether it plays. */
  datatype CamTexture = CamTexture(deviceName: string, requestedWidth: int, requestedHeight: int,
                                   requestedFPS: int, isPlaying: bool)

  /** What the current WebCamTexture reports on this frame. */
  datatype CamFrame = CamFrame(didUpdateThisFrame: bool, width: nat, height: nat,
                               videoRotationAngle: int, pixels: seq<Color32>)

  /** The display texture: its size and the pixels last uploaded to it (none yet when new). */
  datatype Texture2D = Texture2D(width: nat, height: nat, uploaded: seq<Color32>)

  /**
    * The landmark detector built from a model file, with the image last
    * handed to it by SetImage and that image's size.
    */
  datatype Detector = Detector(filePath: string, disposed: bool, image: seq<Color32>,
                               imageWidth: nat, imageHeight: nat)

  datatype Rect = Rect(x: int, y: int, width: int, height: int)

  datatype Point = Point(x: int, y: int)

  /** A detected face with its landmark points: the payload of OnFacelandmarkUpdated. */
  datatype FacelandmarkResult = FacelandmarkResult(rect: Rect, landmarks: seq<Point>)

  // ---------------------------------------------------------------------
  // Choosing the camera
  // ---------------------------------------------------------------------

  /** The position of the first device with the given facing, if any. */
  function FirstWithFacing(devices: seq<Device>, front: bool): (r: Option<nat>)
    ensures r.Some? ==> r.value < |devices| && devices[r.value].isFrontFacing == front
    ensures r.Some? ==> forall j :: 0 <= j < r.value ==> devices[j].isFrontFacing != front
    ensures r.None? ==> forall j :: 0 <= j < |devices| ==> devices[j].isFrontFacing != front
  {
    if |devices| == 0 then None
    else if devices[0].isFrontFacing == front then Some(0)
    else match FirstWithFacing(devices[1..], front)
      case None => None
      case Some(i) => Some(i + 1)
  }

  /** The scan over the device list that looks for the requested facing. */
  method FindFacing(devices: seq<Device>, front: bool) returns (found: Option<nat>)
    ensures found == FirstWithFacing(devices, front)
  {
    found := None;
    var cameraIndex := 0;
    while cameraIndex < |devices|
      invariant 0 <= cameraIndex <= |devices|
      invariant found.None?
      invariant forall j :: 0 <= j < cameraIndex ==> devices[j].isFrontFacing != front
    {
      if devices[cameraIndex].isFrontFacing == front {
        found := Some(cameraIndex);
        break;
      }
      cameraIndex := cameraIndex + 1;
    }
  }

  /** Which branch of the camera selection applies. */
  datatype Pick = ByName | ByFacing(index: nat) | Previous | FirstDevice | NoDevice

  /**
    * The selection order: a requested name wins; then the first device with
    * the requested facing; then, if a texture is left over from an earlier
    * initialisation, that texture; then device 0; with none of these the
    * initialisation fails.
    */
  function PickCamera(config: Config, devices: seq<Device>, hasPrevious: bool): (p: Pick)
    ensures p.ByName? <==> config.requestedDeviceName != ""
    ensures p.ByFacing? <==> (config.requestedDeviceName == "" &&
      exists i :: 0 <= i < |devices| && devices[i].isFrontFacing == config.requestedIsFrontFacing)
    ensures p.ByFacing? ==> (p.index < |devices| && devices[p.index].isFrontFacing == config.requestedIsFrontFacing
      && forall j :: 0 <= j < p.index ==> devices[j].isFrontFacing != config.requestedIsFrontFacing)
    ensures p.Previous? <==> (config.requestedDeviceName == "" && hasPrevious &&
      forall i :: 0 <= i < |devices| ==> devices[i].isFrontFacing != config.requestedIsFrontFacing)
    ensures p.FirstDevice? <==> (config.requestedDeviceName == "" && !hasPrevious && |devices| > 0 &&
      forall i :: 0 <= i < |devices| ==> devices[i].isFrontFacing != config.requestedIsFrontFacing)
    ensures p.NoDevice? <==> config.requestedDeviceName == "" && !hasPrevious && |devices| == 0
  {
    if config.requestedDeviceName != "" then ByName
    else match FirstWithFacing(devices, config.requestedIsFrontFacing)
      case Some(i) => ByFacing(i)
      case None => if hasPrevious then Previous else if |devices| > 0 then FirstDevice else NoDevice
  }

  /** A texture created for a device with the configured request, not yet playing. */
  function NewTexture(config: Config, deviceName: string): (t: CamTexture)
    ensures !t.isPlaying && t.deviceName == deviceName
    ensures (t.requestedWidth, t.requestedHeight, t.requestedFPS) ==
            (config.requestedWidth, config.requestedHeight, config.requestedFPS)
  {
    CamTexture(deviceName, config.requestedWidth, config.requestedHeight, config.requestedFPS, false)
  }

  /** Stop(): the texture, if any, keeps everything except that it no longer plays. */
  function Stopped(t: Option<CamTexture>): (r: Option<CamTexture>)
    ensures r.Some? <==> t.Some?
    ensures r.Some? ==> !r.value.isPlaying && r.value.(isPlaying := t.value.isPlaying) == t.value
  {
    match t
    case None => None
    case Some(tex) => Some(tex.(isPlaying := false))
  }

  /** The texture that plays once initWebCamTextureContract has chosen, none when it fails. */
  function Opened(config: Config, devices: seq<Device>, previous: Option<CamTexture>): (t: Option<CamTexture>)
    ensures t.None? <==> PickCamera(config, devices, previous.Some?).NoDevice?
    ensures t.Some? ==> t.value.isPlaying
  {
    match PickCamera(config, devices, previous.Some?)
    case ByName => Some(NewTexture(config, config.requestedDeviceName).(isPlaying := true))
    case ByFacing(i) => Some(NewTexture(config, devices[i].name).(isPlaying := true))
    case Previous => Some(previous.value.(isPlaying := true))
    case FirstDevice => Some(NewTexture(config, devices[0].name).(isPlaying := true))
    case NoDevice => None
  }

  /** The device record after the choice: only a scan of the device list updates it. */
  function ChosenDevice(config: Config, devices: seq<Device>, hasPrevious: bool, device: Device): (d: Device)
    ensures d != device ==> d in devices
  {
    match PickCamera(config, devices, hasPrevious)
    case ByFacing(i) => devices[i]
    case FirstDevice => devices[0]
    case _ => device
  }

  // ---------------------------------------------------------------------
  // The landmark event
  // ---------------------------------------------------------------------

  /** The events one frame raises: the first face only, and only to subscribed handlers. */
  function Published(faces: seq<FacelandmarkResult>, hasHandlers: bool): (e: seq<FacelandmarkResult>)
    ensures |e| <= 1
    ensures |e| == 1 <==> hasHandlers && |faces| > 0
    ensures |e| == 1 ==> e[0] == faces[0]
  {
    if hasHandlers && |faces| > 0 then [faces[0]] else []
  }

  /**
    * The loop over the detected faces: landmarks are detected (and drawn)
    * for every face, but eventTrigger lets OnFacelandmarkUpdated fire only
    * for the first.
    */
  method RaiseFacelandmarkUpdated(faces: seq<FacelandmarkResult>, hasHandlers: bool)
    returns (events: seq<FacelandmarkResult>)
    ensures events == Published(faces, hasHandlers)
  {
    events := [];
    var eventTrigger := true;
    for n := 0 to |faces|
      invariant eventTrigger <==> n == 0
      invariant events == Published(faces[..n], hasHandlers)
    {
      if eventTrigger {
        if hasHandlers {
          events := events + [faces[n]];
        }
        eventTrigger := false;
      }
    }
    assert faces[..|faces|] == faces;
  }

  // ---------------------------------------------------------------------
  // The component
  // ---------------------------------------------------------------------

  class WebCamManager {
    const config: Config
    /** Whether this build compiles the portrait pre-rotation (device players, not the editor or desktop). */
    const rotatesOnPortrait: bool

    var webCamTexture: Option<CamTexture>
    var webCamDevice: Device
    var colors: array<Color32>
    var rotate90Degree: bool
    var isInitWaiting: bool
    var hasInitDone: bool
    var screenOrientation: ScreenOrientation
    var faceLandmarkDetector: Option<Detector>
    var texture2D: Option<Texture2D>
    /** Every OnFacelandmarkUpdated event raised so far, oldest first. */
    var raised: seq<FacelandmarkResult>

    /**
      * While the first frame is awaited a texture exists and nothing of the
      * previous geometry is kept; once initialised, both textures exist.
      */
    ghost predicate Valid()
      reads this
    {
      (webCamTexture.None? ==> !hasInitDone && !isInitWaiting && !rotate90Degree && texture2D.None?) &&
      (isInitWaiting ==> !hasInitDone && !rotate90Degree && texture2D.None?) &&
      (hasInitDone ==> texture2D.Some? && faceLandmarkDetector.Some?)
    }

    /**
      * The state right after the first frame arrived: a blank buffer of the
      * frame's size, the rotation flag, the display texture at the rotated
      * size when rotating, the orientation recorded, initialisation done.
      */
    ghost predicate StartedStreaming(frame: CamFrame, screen: ScreenOrientation)
      reads this, colors
    {
      colors.Length == frame.width * frame.height &&
      (forall k :: 0 <= k < colors.Length ==> colors[k] == Clear) &&
      rotate90Degree == (config.requestedRotate90Degree || (rotatesOnPortrait && IsPortrait(screen))) &&
      texture2D == Some(if rotate90Degree then Texture2D(frame.height, frame.width, [])
                        else Texture2D(frame.width, frame.height, [])) &&
      screenOrientation == screen && !isInitWaiting && hasInitDone
    }

    constructor (config: Config, rotatesOnPortrait: bool)
      ensures Valid()
      ensures this.config == config && this.rotatesOnPortrait == rotatesOnPortrait
      ensures webCamTexture.None? && webCamDevice == UnsetDevice && colors.Length == 0
      ensures !rotate90Degree && !isInitWaiting && !hasInitDone && screenOrientation == Unknown
      ensures faceLandmarkDetector.None? && texture2D.None? && raised == []
    {
      this.config := config;
      this.rotatesOnPortrait := rotatesOnPortrait;
      webCamTexture := None;
      webCamDevice := UnsetDevice;
      colors := new Color32[0];
      rotate90Degree := false;
      isInitWaiting := false;
      hasInitDone := false;
      screenOrientation := Unknown;
      faceLandmarkDetector := None;
      texture2D := None;
      raised := [];
    }

    /** The background step of initFaceLandmarkDetector: the detector is built from the model file. */
    method InitFaceLandmarkDetector(filePath: string)
      requires Valid()
      modifies this`faceLandmarkDetector
      ensures Valid()
      ensures faceLandmarkDetector == Some(Detector(filePath, false, [], 0, 0))
    {
      faceLandmarkDetector := Some(Detector(filePath, false, [], 0, 0));
    }

    /**
      * One pass of the loop that waits for the first frame. When the camera
      * has delivered, the buffer and the display texture are allocated for
      * the frame's size (rotated when rotating) and initialisation ends.
      */
    method PollFirstFrame(frame: CamFrame, screen: ScreenOrientation)
      requires Valid() && isInitWaiting && faceLandmarkDetector.Some?
      modifies this
      ensures Valid()
      ensures webCamTexture == old(webCamTexture) && webCamDevice == old(webCamDevice)
      ensures faceLandmarkDetector == old(faceLandmarkDetector) && raised == old(raised)
      ensures frame.didUpdateThisFrame ==> fresh(colors) && StartedStreaming(frame, screen)
      ensures !frame.didUpdateThisFrame ==> unchanged(this)
    {
      if frame.didUpdateThisFrame {
        colors := new Color32[frame.width * frame.height](_ => Clear);
        if rotatesOnPortrait {
          rotate90Degree := IsPortrait(screen);
        }
        if rotate90Degree || config.requestedRotate90Degree {
          rotate90Degree := true;
          texture2D := Some(Texture2D(frame.height, frame.width, []));
        } else {
          texture2D := Some(Texture2D(frame.width, frame.height, []));
        }
        screenOrientation := screen;
        isInitWaiting := false;
        hasInitDone := true;
      }
    }

    /**
      * initWebCamTextureContract up to its first suspension: ignored while
      * an initialisation is pending; otherwise stops the old texture and
      * forgets the old geometry, chooses and plays a texture (or gives up
      * when there is no device at all), and checks once for the first frame.
      */
    method InitWebCamTextureContract(devices: seq<Device>, frame: CamFrame, screen: ScreenOrientation)
      requires Valid() && faceLandmarkDetector.Some?
      modifies this
      ensures Valid()
      ensures old(isInitWaiting) ==> unchanged(this)
      ensures faceLandmarkDetector == old(faceLandmarkDetector) && raised == old(raised)
      ensures colors == old(colors) || fresh(colors)
      ensures !old(isInitWaiting) ==> webCamTexture == Opened(config, devices, Stopped(old(webCamTexture)))
      ensures !old(isInitWaiting) ==>
        webCamDevice == ChosenDevice(config, devices, old(webCamTexture).Some?, old(webCamDevice))
      ensures !old(isInitWaiting) && webCamTexture.None? ==>
        !isInitWaiting && !hasInitDone && colors == old(colors) &&
        rotate90Degree == old(rotate90Degree) && texture2D == old(texture2D) &&
        screenOrientation == old(screenOrientation)
      ensures !old(isInitWaiting) && webCamTexture.Some? && frame.didUpdateThisFrame ==>
        fresh(colors) && StartedStreaming(frame, screen)
      ensures !old(isInitWaiting) && webCamTexture.Some? && !frame.didUpdateThisFrame ==>
        isInitWaiting && !hasInitDone && !rotate90Degree && texture2D.None? && colors == old(colors) &&
        screenOrientation == old(screenOrientation)
    {
      if isInitWaiting {
        return;
      }
      if webCamTexture.Some? {
        webCamTexture := Some(webCamTexture.value.(isPlaying := false));
        texture2D := None;
        rotate90Degree := false;
        isInitWaiting := false;
        hasInitDone := false;
      }
      isInitWaiting := true;
      if config.requestedDeviceName != "" {
        webCamTexture := Some(NewTexture(config, config.requestedDeviceName));
      } else {
        var found := FindFacing(devices, config.requestedIsFrontFacing);
        if found.Some? {
          webCamDevice := devices[found.value];
          webCamTexture := Some(NewTexture(config, webCamDevice.name));
        }
      }
      if webCamTexture.None? {
        if |devices| > 0 {
          webCamDevice := devices[0];
          webCamTexture := Some(NewTexture(config, webCamDevice.name));
        } else {
          isInitWaiting := false;
          return;
        }
      }
      webCamTexture := Some(webCamTexture.value.(isPlaying := true));
      PollFirstFrame(frame, screen);
    }

    /** A later frame of the pending initialisation: the coroutine resumes its wait loop. */
    method ResumeInit(frame: CamFrame, screen: ScreenOrientation)
      requires Valid() && faceLandmarkDetector.Some?
      modifies this
      ensures Valid()
      ensures webCamTexture == old(webCamTexture) && webCamDevice == old(webCamDevice)
      ensures faceLandmarkDetector == old(faceLandmarkDetector) && raised == old(raised)
      ensures old(isInitWaiting) && frame.didUpdateThisFrame ==> fresh(colors) && StartedStreaming(frame, screen)
      ensures !old(isInitWaiting) || !frame.didUpdateThisFrame ==> unchanged(this)
    {
      if isInitWaiting {
        PollFirstFrame(frame, screen);
      }
    }

    /**
      * The frame-processing half of Update: the new camera frame is read into
      * the buffer, rotated and flipped, and handed to the detector at the
      * display texture's size; the first detected face is announced; the
      * detector draws its results into the buffer, which is uploaded to the
      * display texture. A frame whose size no longer matches the buffer is
      * skipped. What the detector finds (faces) and the buffer after its
      * drawing (drawn) come from the detector.
      */
    method ProcessFrame(frame: CamFrame, faces: seq<FacelandmarkResult>, hasHandlers: bool,
                        drawn: seq<Color32>)
      requires Valid() && hasInitDone
      requires |frame.pixels| == frame.width * frame.height && |drawn| == |frame.pixels|
      modifies this`colors, this`raised, this`texture2D, this`faceLandmarkDetector, colors
      ensures Valid()
      ensures colors == old(colors) || fresh(colors)
      ensures old(colors.Length) != |frame.pixels| ==> unchanged(this) && unchanged(colors)
      ensures old(colors.Length) == |frame.pixels| ==>
        faceLandmarkDetector == Some(old(faceLandmarkDetector).value.(
          image := Oriented(frame.pixels, frame.width, frame.height, rotate90Degree,
                            Decide(webCamDevice.isFrontFacing, frame.videoRotationAngle,
                                   config.flipVertical, config.flipHorizontal)),
          imageWidth := old(texture2D).value.width, imageHeight := old(texture2D).value.height)) &&
        raised == old(raised) + Published(faces, hasHandlers) &&
        colors[..] == drawn &&
        texture2D == Some(old(texture2D).value.(uploaded := drawn))
    {
      if colors.Length != |frame.pixels| {
        return;
      }
      forall k | 0 <= k < colors.Length {
        colors[k] := frame.pixels[k];
      }
      assert colors[..] == frame.pixels;
      colors := RotateAndFlip(colors, frame.width, frame.height, rotate90Degree,
                              webCamDevice.isFrontFacing, frame.videoRotationAngle,
                              config.flipVertical, config.flipHorizontal);
      faceLandmarkDetector := Some(faceLandmarkDetector.value.(
        image := colors[..], imageWidth := texture2D.value.width, imageHeight := texture2D.value.height));
      var events := RaiseFacelandmarkUpdated(faces, hasHandlers);
      raised := raised + events;
      forall k | 0 <= k < colors.Length {
        colors[k] := drawn[k];
      }
      assert colors[..] == drawn;
      texture2D := Some(texture2D.value.(uploaded := colors[..]));
    }

    /**
      * One Update: nothing before initialisation is done; a changed screen
      * orientation restarts the camera initialisation; a new camera frame is
      * then processed.
      */
    method Update(screen: ScreenOrientation, devices: seq<Device>, frame: CamFrame,
                  faces: seq<FacelandmarkResult>, hasHandlers: bool, drawn: seq<Color32>)
      requires Valid()
      requires |frame.pixels| == frame.width * frame.height && |drawn| == |frame.pixels|
      modifies this, colors
      ensures Valid()
      ensures !old(hasInitDone) ==> unchanged(this) && unchanged(colors)
      ensures faceLandmarkDetector.Some? <==> old(faceLandmarkDetector).Some?
      ensures old(faceLandmarkDetector).Some? ==>
        faceLandmarkDetector.value.filePath == old(faceLandmarkDetector).value.filePath &&
        faceLandmarkDetector.value.disposed == old(faceLandmarkDetector).value.disposed
      ensures |old(raised)| <= |raised| <= |old(raised)| + 1 && raised[..|old(raised)|] == old(raised)
      ensures !frame.didUpdateThisFrame ==> raised == old(raised)
      ensures old(hasInitDone) && old(screenOrientation) != screen ==>
        webCamTexture == Opened(config, devices, Stopped(old(webCamTexture))) &&
        (hasInitDone <==> frame.didUpdateThisFrame) && (isInitWaiting <==> !frame.didUpdateThisFrame)
      ensures old(hasInitDone) && old(screenOrientation) == screen ==>
        webCamTexture == old(webCamTexture) && webCamDevice == old(webCamDevice) &&
        rotate90Degree == old(rotate90Degree) && hasInitDone && screenOrientation == screen
      ensures old(hasInitDone) && old(screenOrientation) == screen && !frame.didUpdateThisFrame ==>
        unchanged(this) && unchanged(old(colors))
      ensures old(hasInitDone) && old(screenOrientation) == screen ==>
        texture2D.Some? && texture2D.value.width == old(texture2D).value.width &&
        texture2D.value.height == old(texture2D).value.height
      ensures !frame.didUpdateThisFrame ==> faceLandmarkDetector == old(faceLandmarkDetector)
      ensures old(hasInitDone) && frame.didUpdateThisFrame && colors.Length == |frame.pixels| ==>
        faceLandmarkDetector.value.imageWidth == texture2D.value.width &&
        faceLandmarkDetector.value.imageHeight == texture2D.value.height &&
        faceLandmarkDetector == Some(old(faceLandmarkDetector).value.(
          image := faceLandmarkDetector.value.image,
          imageWidth := faceLandmarkDetector.value.imageWidth,
          imageHeight := faceLandmarkDetector.value.imageHeight))
      ensures old(hasInitDone) && old(screenOrientation) != screen ==>
        webCamDevice == ChosenDevice(config, devices, true, old(webCamDevice))
      ensures old(hasInitDone) && old(screenOrientation) != screen && !frame.didUpdateThisFrame ==>
        !rotate90Degree && texture2D.None? && screenOrientation == old(screenOrientation) && colors == old(colors)
      ensures old(hasInitDone) && old(screenOrientation) != screen && frame.didUpdateThisFrame ==>
        screenOrientation == screen && fresh(colors) &&
        rotate90Degree == (config.requestedRotate90Degree || (rotatesOnPortrait && IsPortrait(screen))) &&
        texture2D.Some? &&
        (texture2D.value.width, texture2D.value.height) ==
          (if rotate90Degree then (frame.height, frame.width) else (frame.width, frame.height))
      ensures old(hasInitDone) && frame.didUpdateThisFrame && colors.Length == |frame.pixels| ==>
        faceLandmarkDetector.value.image ==
          Oriented(frame.pixels, frame.width, frame.height, rotate90Degree,
                   Decide(webCamDevice.isFrontFacing, frame.videoRotationAngle,
                          config.flipVertical, config.flipHorizontal)) &&
        raised == old(raised) + Published(faces, hasHandlers) &&
        colors[..] == drawn && texture2D.Some? && texture2D.value.uploaded == drawn
    {
      if !hasInitDone {
        return;
      }
      if screenOrientation != screen {
        InitWebCamTextureContract(devices, frame, screen);
      }
      if frame.didUpdateThisFrame {
        ProcessFrame(frame, faces, hasHandlers, drawn);
      }
    }

    /** Stops the camera and releases the detector, each only if it exists. */
    method OnDestroy()
      requires Valid()
      modifies this`webCamTexture, this`faceLandmarkDetector
      ensures Valid()
      ensures webCamTexture == Stopped(old(webCamTexture))
      ensures faceLandmarkDetector == if old(faceLandmarkDetector).Some?
                                      then Some(old(faceLandmarkDetector).value.(disposed := true))
                                      else None
    {
      if webCamTexture.Some? {
        webCamTexture := Some(webCamTexture.value.(isPlaying := false));
      }
      if faceLandmarkDetector.Some? {
        faceLandmarkDetector := Some(faceLandmarkDetector.value.(disposed := true));
      }
    }
  }

  // ---------------------------------------------------------------------
  // Properties of the camera choice and of whole runs
  // ---------------------------------------------------------------------

  /** Re-opening after an earlier initialisation never fails: the stopped texture is the last resort. */
  lemma ReopenNeverFails(config: Config, devices: seq<Device>, previous: CamTexture)
    ensures Opened(config, devices, Some(previous)).Some?
    ensures PickCamera(config, devices, true) != FirstDevice
  {
  }

  /**
    * Without a requested name the chosen device, if any was chosen, has the
    * requested facing exactly when some device has it, and device 0 is the
    * choice otherwise.
    */
  lemma {:induction false} ChosenDeviceFacing(config: Config, devices: seq<Device>, device: Device)
    requires config.requestedDeviceName == "" && |devices| > 0
    ensures ChosenDevice(config, devices, false, device) in devices
    ensures (ChosenDevice(config, devices, false, device).isFrontFacing == config.requestedIsFrontFacing) <==>
            exists i :: 0 <= i < |devices| && devices[i].isFrontFacing == config.requestedIsFrontFacing
    ensures (forall i :: 0 <= i < |devices| ==> devices[i].isFrontFacing != config.requestedIsFrontFacing) ==>
            ChosenDevice(config, devices, false, device) == devices[0]
  {
    var p := PickCamera(config, devices, false);
    if p.ByFacing? {
      assert devices[p.index] in devices;
    } else {
      assert devices[0] in devices;
    }
  }

  /**
    * With the shipped settings, a first start-up opens the first back-facing
    * camera at 640 × 480 and 30 frames per second when there is one, and
    * device 0 at that request otherwise.
    */
  lemma {:induction false} DefaultConfigOpensFirstBackCamera(devices: seq<Device>)
    requires |devices| > 0
    ensures var t := Opened(DefaultConfig, devices, None);
      t.Some? && t.value.isPlaying &&
      (t.value.requestedWidth, t.value.requestedHeight, t.value.requestedFPS) == (640, 480, 30)
    ensures var d := ChosenDevice(DefaultConfig, devices, false, UnsetDevice);
      Opened(DefaultConfig, devices, None).value.deviceName == d.name &&
      (d.isFrontFacing <==> forall i :: 0 <= i < |devices| ==> devices[i].isFrontFacing)
    ensures var d := ChosenDevice(DefaultConfig, devices, false, UnsetDevice);
      (forall i :: 0 <= i < |devices| ==> devices[i].isFrontFacing) ==> d == devices[0]
    ensures var d := ChosenDevice(DefaultConfig, devices, false, UnsetDevice);
      (exists i :: 0 <= i < |devices| && !devices[i].isFrontFacing) ==>
        FirstWithFacing(devices, false).Some? && d == devices[FirstWithFacing(devices, false).value]
  {
    ChosenDeviceFacing(DefaultConfig, devices, UnsetDevice);
  }

  /**
    * Start-up as the component runs it: the detector is loaded, then the
    * camera is opened and checked for a first frame.
    */
  method Startup(config: Config, rotatesOnPortrait: bool, devices: seq<Device>,
                 frame: CamFrame, screen: ScreenOrientation)
    returns (m: WebCamManager)
    ensures m.Valid() && m.config == config
    ensures m.faceLandmarkDetector.Some? && !m.faceLandmarkDetector.value.disposed
    ensures m.webCamTexture.None? <==> config.requestedDeviceName == "" && |devices| == 0
    ensures m.hasInitDone <==> m.webCamTexture.Some? && frame.didUpdateThisFrame
    ensures m.isInitWaiting <==> m.webCamTexture.Some? && !frame.didUpdateThisFrame
    ensures m.webCamTexture.Some? ==> m.webCamTexture.value.isPlaying
    ensures config.requestedDeviceName != "" ==>
      m.webCamDevice == UnsetDevice && m.webCamTexture.value.deviceName == config.requestedDeviceName
    ensures m.hasInitDone ==> m.rotate90Degree == (config.requestedRotate90Degree || (rotatesOnPortrait && IsPortrait(screen)))
    ensures m.raised == []
  {
    m := new WebCamManager(config, rotatesOnPortrait);
    // The model file's name stands for the platform path the Dlib utilities resolve it to.
    m.InitFaceLandmarkDetector("sp_human_face_68.dat");
    m.InitWebCamTextureContract(devices, frame, screen);
  }

  /**
    * Turning the device while streaming: the next Update re-opens a camera
    * that plays, keeps the detector, and raises no event on a frame where
    * the camera has not delivered.
    */
  method TurnWhileStreaming(m: WebCamManager, screen: ScreenOrientation, devices: seq<Device>,
                            frame: CamFrame, faces: seq<FacelandmarkResult>, hasHandlers: bool,
                            drawn: seq<Color32>)
    requires m.Valid() && m.hasInitDone && m.screenOrientation != screen
    requires |frame.pixels| == frame.width * frame.height && |drawn| == |frame.pixels|
    requires !frame.didUpdateThisFrame
    modifies m, m.colors
    ensures m.Valid() && m.isInitWaiting && !m.hasInitDone
    ensures m.webCamTexture.Some? && m.webCamTexture.value.isPlaying
    ensures m.faceLandmarkDetector.Some? && m.faceLandmarkDetector == old(m.faceLandmarkDetector)
  {
    ghost var previous := m.webCamTexture.value;
    m.Update(screen, devices, frame, faces, hasHandlers, drawn);
    ReopenNeverFails(m.config, devices, previous.(isPlaying := false));
  }
}
