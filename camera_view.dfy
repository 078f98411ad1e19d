/** The per-view controller `UVCCameraView`: its flags, its driver helper, the
    stored preferences, the work it posts for later, and every call it makes
    on the driver helper and on the host's lifecycle registry. */
module CameraView {
  import opened Wrappers
  import opened KotlinInt
  import opened DeviceSelection
  import opened SizeSelection

  /** Keys of the "camera" preference store. */
  const PREF_WIDTH: string := "width"
  const PREF_HEIGHT: string := "height"
  const PREF_VENDOR_ID: string := "defaultCameraVendorId"

  /** Identity of a `CameraHelper` instance (one driver session). */
  type HelperId = nat

  /** A call on a driver helper. `Create` is the construction of the helper
      together with `setStateCallback(mStateListener)`. */
  datatype DriverOp =
    | Create
    | AddSurface
    | RemoveSurface
    | SelectDevice(device: Device)
    | OpenCamera
    | StartPreview
    | SetPreviewSize(size: Size)
    | CloseCamera
    | Release

  /** An outward effect of the controller, in the order it happens. */
  datatype Effect =
    | Driver(helper: HelperId, op: DriverOp)
    | AddLifecycleListener
    | RemoveLifecycleListener

  /** Work queued with `post { }`; the only kind the view posts. */
  datatype Task = SelectPreferredDeviceTask

  /** A snapshot of every field of the controller. */
  datatype ViewState = ViewState(
    hasSurface: bool,
    shouldResumeCamera: bool,
    lifecycleRegistered: bool,
    cameraHelper: Option<HelperId>,
    nextHelper: HelperId,
    prefs: map<string, Int32>,
    aspectRatio: Option<(Int32, Int32)>,
    pending: seq<Task>,
    calls: seq<Effect>)

  /** `SharedPreferences.getInt(key, default)`: the stored value, or the
      default when the key was never written. */
  function GetInt(prefs: map<string, Int32>, key: string, default: Int32): (r: Int32)
    ensures key in prefs ==> r == prefs[key]
    ensures key !in prefs ==> r == default
  {
    if key in prefs then prefs[key] else default
  }

  /** A write to one key is read back from it and leaves every other key's
      reading as it was. */
  lemma GetIntAfterPut(prefs: map<string, Int32>, written: string, value: Int32, key: string, default: Int32)
    ensures GetInt(prefs[written := value], key, default) == if key == written then value else GetInt(prefs, key, default)
  {
  }

  /** `helper?.op()`: the call is made only when there is a helper. */
  function OnHelper(helper: Option<HelperId>, op: DriverOp): seq<Effect> {
    if helper.Some? then [Driver(helper.value, op)] else []
  }

  /** The helpers created and not yet released after one more effect. */
  function LiveAfter(live: set<HelperId>, e: Effect): set<HelperId> {
    match e
    case Driver(h, Create) => live + {h}
    case Driver(h, Release) => live - {h}
    case _ => live
  }

  /** Whether the listener is registered with the host after one more effect. */
  function RegisteredAfter(registered: bool, e: Effect): bool {
    match e
    case AddLifecycleListener => true
    case RemoveLifecycleListener => false
    case _ => registered
  }

  /** The helpers left open after a run of effects, starting from `live`. */
  function LiveAfterAll(live: set<HelperId>, es: seq<Effect>): set<HelperId>
    decreases |es|
  {
    if es == [] then live else LiveAfterAll(LiveAfter(live, es[0]), es[1..])
  }

  /** The host registration after a run of effects. */
  function RegisteredAfterAll(registered: bool, es: seq<Effect>): bool
    decreases |es|
  {
    if es == [] then registered else RegisteredAfterAll(RegisteredAfter(registered, es[0]), es[1..])
  }

  /** One more effect extends both folds by one step. */
  lemma {:induction false} AfterAllSnoc(live: set<HelperId>, registered: bool, es: seq<Effect>, e: Effect)
    ensures LiveAfterAll(live, es + [e]) == LiveAfter(LiveAfterAll(live, es), e)
    ensures RegisteredAfterAll(registered, es + [e]) == RegisteredAfter(RegisteredAfterAll(registered, es), e)
    decreases |es|
  {
    if es != [] {
      assert (es + [e])[1..] == es[1..] + [e];
      AfterAllSnoc(LiveAfter(live, es[0]), RegisteredAfter(registered, es[0]), es[1..], e);
    }
  }

  class UVCCameraView {
    var hasSurface: bool
    var shouldResumeCamera: bool
    var lifecycleRegistered: bool
    /** `mCameraHelper`: the current driver session, if any. */
    var cameraHelper: Option<HelperId>
    /** The identity the next `CameraHelper()` receives. */
    var nextHelper: HelperId
    /** The "camera" preference store. */
    var prefs: map<string, Int32>
    /** The aspect ratio last given to the surface view. */
    var aspectRatio: Option<(Int32, Int32)>
    /** Tasks posted to the UI queue and not run yet, oldest first. */
    var pending: seq<Task>
    /** Every driver and host-registry call made so far. */
    var calls: seq<Effect>
    /** The helpers `calls` has created and not released (kept equal to
        `LiveAfterAll({}, calls)` by `Valid`). */
    ghost var live: set<HelperId>
    /** Whether `calls` leaves the view registered with the host (kept equal
        to `RegisteredAfterAll(false, calls)` by `Valid`). */
    ghost var hostRegistered: bool

    ghost function State(): ViewState
      reads this
    {
      ViewState(hasSurface, shouldResumeCamera, lifecycleRegistered, cameraHelper,
                nextHelper, prefs, aspectRatio, pending, calls)
    }

    /** Of the helpers created in `calls`, exactly `mCameraHelper` has not been
        released (at most one driver session is open); the registration flag
        agrees with the registration calls in `calls`. */
    ghost predicate Valid()
      reads this
    {
      (cameraHelper.Some? ==> cameraHelper.value < nextHelper) &&
      live == LiveAfterAll({}, calls) &&
      hostRegistered == RegisteredAfterAll(false, calls) &&
      live == (if cameraHelper.Some? then {cameraHelper.value} else {}) &&
      lifecycleRegistered == hostRegistered
    }

    function PreferredVendorId(): (r: Int32)
      reads this
      ensures PREF_VENDOR_ID in prefs ==> r == prefs[PREF_VENDOR_ID]
      ensures PREF_VENDOR_ID !in prefs ==> r == DEFAULT_VENDOR_ID
    {
      GetInt(prefs, PREF_VENDOR_ID, DEFAULT_VENDOR_ID)
    }

    function PreferredWidth(): (r: Int32)
      reads this
      ensures PREF_WIDTH in prefs ==> r == prefs[PREF_WIDTH]
      ensures PREF_WIDTH !in prefs ==> r == DEFAULT_WIDTH
    {
      GetInt(prefs, PREF_WIDTH, DEFAULT_WIDTH)
    }

    function PreferredHeight(): (r: Int32)
      reads this
      ensures PREF_HEIGHT in prefs ==> r == prefs[PREF_HEIGHT]
      ensures PREF_HEIGHT !in prefs ==> r == DEFAULT_HEIGHT
    {
      GetInt(prefs, PREF_HEIGHT, DEFAULT_HEIGHT)
    }

    /** The helper `ensureCameraHelper` yields from this state. */
    ghost function Ensured(): HelperId
      reads this
    {
      if cameraHelper.Some? then cameraHelper.value else nextHelper
    }

    ghost function EnsuredNext(): HelperId
      reads this
    {
      if cameraHelper.Some? then nextHelper else nextHelper + 1
    }

    /** The calls `ensureCameraHelper` makes from this state. */
    ghost function Creation(): seq<Effect>
      reads this
    {
      if cameraHelper.Some? then [] else [Driver(nextHelper, Create)]
    }

    /** The calls a successful `selectPreferredDevice` on helper `h` makes. */
    ghost function Selection(h: HelperId, devices: seq<Device>): seq<Effect>
      reads this
    {
      match PreferredDevice(devices, PreferredVendorId())
      case None => []
      case Some(d) => [Driver(h, SelectDevice(d))]
    }

    /** The calls `configurePreviewSize` on helper `h` makes. */
    ghost function Configuration(h: HelperId, sizes: seq<Size>): seq<Effect>
      reads this
    {
      match PickSize(sizes, PreferredWidth(), PreferredHeight())
      case None => []
      case Some(s) => [Driver(h, SetPreviewSize(s))]
    }

    /** The aspect ratio after `configurePreviewSize`. */
    ghost function ConfiguredAspect(sizes: seq<Size>): Option<(Int32, Int32)>
      reads this
    {
      match PickSize(sizes, PreferredWidth(), PreferredHeight())
      case None => aspectRatio
      case Some(s) => Some((s.width, s.height))
    }

    /** The view as constructed: no surface, no helper, listener registered. */
    constructor (stored: map<string, Int32>)
      ensures Valid()
      ensures State() == ViewState(false, false, true, None, 0, stored, None, [], [AddLifecycleListener])
    {
      hasSurface := false;
      shouldResumeCamera := false;
      lifecycleRegistered := false;
      cameraHelper := None;
      nextHelper := 0;
      prefs := stored;
      aspectRatio := None;
      pending := [];
      calls := [];
      live := {};
      hostRegistered := false;
      new;
      assert Valid();
      RegisterLifecycleListener();
      assert calls == [AddLifecycleListener];
    }

    /** Makes one call, recording it and its effect on the open sessions and
        on the host registration. */
    method Emit(e: Effect)
      modifies this`calls, this`live, this`hostRegistered
      ensures calls == old(calls) + [e]
      ensures live == LiveAfter(old(live), e)
      ensures hostRegistered == RegisteredAfter(old(hostRegistered), e)
      ensures LiveAfterAll({}, calls) == LiveAfter(LiveAfterAll({}, old(calls)), e)
      ensures RegisteredAfterAll(false, calls) == RegisteredAfter(RegisteredAfterAll(false, old(calls)), e)
    {
      AfterAllSnoc({}, false, calls, e);
      calls := calls + [e];
      live := LiveAfter(live, e);
      hostRegistered := RegisteredAfter(hostRegistered, e);
    }

    method RegisterLifecycleListener()
      requires Valid()
      modifies this
      ensures Valid()
      ensures State() == old(State()).(
        lifecycleRegistered := true,
        calls := old(calls) + (if old(lifecycleRegistered) then [] else [AddLifecycleListener]))
    {
      if !lifecycleRegistered {
        Emit(AddLifecycleListener);
        lifecycleRegistered := true;
      }
    }

    method UnregisterLifecycleListener()
      requires Valid()
      modifies this
      ensures Valid()
      ensures State() == old(State()).(
        lifecycleRegistered := false,
        calls := old(calls) + (if old(lifecycleRegistered) then [RemoveLifecycleListener] else []))
    {
      if lifecycleRegistered {
        Emit(RemoveLifecycleListener);
        lifecycleRegistered := false;
      }
    }

    /** Creates a helper only when there is none; an existing one is kept. */
    method EnsureCameraHelper() returns (h: HelperId)
      requires Valid()
      modifies this
      ensures Valid()
      ensures cameraHelper == Some(h)
      ensures old(cameraHelper).Some? ==> h == old(cameraHelper).value && State() == old(State())
      ensures old(cameraHelper).None? ==>
                h == old(nextHelper) && old(live) == {} &&
                State() == old(State()).(cameraHelper := Some(h), nextHelper := h + 1,
                                         calls := old(calls) + [Driver(h, Create)])
    {
      if cameraHelper.None? {
        h := nextHelper;
        Emit(Driver(h, Create));
        nextHelper := nextHelper + 1;
        cameraHelper := Some(h);
      } else {
        h := cameraHelper.value;
      }
    }

    /** Hands the preferred device to the helper; false, and no call, when
        there is no helper or no device. */
    method SelectPreferredDevice(devices: seq<Device>) returns (selected: bool)
      requires Valid()
      modifies this
      ensures Valid()
      ensures selected <==> old(cameraHelper).Some? && |devices| > 0
      ensures State() == old(State()).(
        calls := old(calls) + (if old(cameraHelper).Some? then old(Selection(cameraHelper.value, devices)) else []))
    {
      if cameraHelper.None? {
        return false;
      }
      var helper := cameraHelper.value;
      if |devices| == 0 {
        return false;
      }
      var device := PreferredDevice(devices, PreferredVendorId()).value;
      Emit(Driver(helper, SelectDevice(device)));
      selected := true;
    }

    /** Commits the supported size nearest to the stored preference, at 25 fps;
        nothing changes when the helper reports no sizes. */
    method ConfigurePreviewSize(helper: HelperId, sizes: seq<Size>)
      requires Valid()
      modifies this
      ensures Valid()
      ensures |sizes| == 0 ==> State() == old(State())
      ensures |sizes| > 0 ==>
                var s := PickSize(sizes, old(PreferredWidth()), old(PreferredHeight())).value;
                s.fps == DEFAULT_FPS && aspectRatio == Some((s.width, s.height))
      ensures State() == old(State()).(
        calls := old(calls) + old(Configuration(helper, sizes)),
        aspectRatio := old(ConfiguredAspect(sizes)))
    {
      if |sizes| == 0 {
        return;
      }
      var selected := PickSize(sizes, PreferredWidth(), PreferredHeight()).value;
      Emit(Driver(helper, SetPreviewSize(selected)));
      aspectRatio := Some((selected.width, selected.height));
    }

    /** Closes the camera; clears the resume flag unless asked to keep it. */
    method CloseCameraInternal(keepResumeFlag: bool)
      requires Valid()
      modifies this
      ensures Valid()
      ensures State() == old(State()).(
        shouldResumeCamera := keepResumeFlag && old(shouldResumeCamera),
        calls := old(calls) + OnHelper(old(cameraHelper), DriverOp.CloseCamera))
    {
      if cameraHelper.Some? {
        Emit(Driver(cameraHelper.value, DriverOp.CloseCamera));
      }
      if !keepResumeFlag {
        shouldResumeCamera := false;
      }
    }

    /** `openCamera`: always leaves the resume flag set and a helper present. */
    method OpenCamera(devices: seq<Device>)
      requires Valid()
      modifies this
      ensures Valid()
      ensures shouldResumeCamera && cameraHelper.Some?
      ensures State() == old(State()).(
        shouldResumeCamera := true,
        cameraHelper := Some(old(Ensured())),
        nextHelper := old(EnsuredNext()),
        calls := old(calls) + old(Creation()) + old(Selection(Ensured(), devices)))
    {
      shouldResumeCamera := true;
      var h := EnsureCameraHelper();
      var selected := SelectPreferredDevice(devices);
    }

    /** `closeCamera`: closes and clears the resume flag. */
    method CloseCamera()
      requires Valid()
      modifies this
      ensures Valid()
      ensures !shouldResumeCamera
      ensures State() == old(State()).(
        shouldResumeCamera := false,
        calls := old(calls) + OnHelper(old(cameraHelper), DriverOp.CloseCamera))
    {
      CloseCameraInternal(false);
    }

    /** Stores the preferred resolution; a camera that should be running is
        closed (keeping the flag) and reselected later. */
    method UpdateAspectRatio(width: Int32, height: Int32)
      requires Valid()
      modifies this
      ensures Valid()
      ensures PreferredWidth() == width && PreferredHeight() == height
      ensures State() == old(State()).(
        prefs := old(prefs)[PREF_WIDTH := width][PREF_HEIGHT := height],
        calls := old(calls) + (if old(shouldResumeCamera) then OnHelper(old(cameraHelper), DriverOp.CloseCamera) else []),
        pending := old(pending) + (if old(shouldResumeCamera) then [SelectPreferredDeviceTask] else []))
    {
      prefs := prefs[PREF_WIDTH := width][PREF_HEIGHT := height];
      if shouldResumeCamera {
        CloseCameraInternal(true);
        pending := pending + [SelectPreferredDeviceTask];
      }
    }

    /** Stores the preferred vendor id, with the same reselection as above. */
    method SetDefaultCameraVendorId(value: Int32)
      requires Valid()
      modifies this
      ensures Valid()
      ensures PreferredVendorId() == value
      ensures State() == old(State()).(
        prefs := old(prefs)[PREF_VENDOR_ID := value],
        calls := old(calls) + (if old(shouldResumeCamera) then OnHelper(old(cameraHelper), DriverOp.CloseCamera) else []),
        pending := old(pending) + (if old(shouldResumeCamera) then [SelectPreferredDeviceTask] else []))
    {
      prefs := prefs[PREF_VENDOR_ID := value];
      if shouldResumeCamera {
        CloseCameraInternal(true);
        pending := pending + [SelectPreferredDeviceTask];
      }
    }

    /** Tears everything down; afterwards no helper is left to call. */
    method Cleanup()
      requires Valid()
      modifies this
      ensures Valid()
      ensures !shouldResumeCamera && !hasSurface && cameraHelper.None? && !lifecycleRegistered
      ensures live == {}
      ensures State() == old(State()).(
        shouldResumeCamera := false,
        hasSurface := false,
        cameraHelper := None,
        lifecycleRegistered := false,
        calls := old(calls) +
                 OnHelper(old(cameraHelper), RemoveSurface) +
                 OnHelper(old(cameraHelper), DriverOp.CloseCamera) +
                 OnHelper(old(cameraHelper), Release) +
                 (if old(lifecycleRegistered) then [RemoveLifecycleListener] else []))
    {
      shouldResumeCamera := false;
      hasSurface := false;
      if cameraHelper.Some? {
        var h := cameraHelper.value;
        Emit(Driver(h, RemoveSurface));
        Emit(Driver(h, DriverOp.CloseCamera));
        Emit(Driver(h, Release));
      }
      cameraHelper := None;
      UnregisterLifecycleListener();
    }

    /** Surface callback `surfaceCreated`. */
    method SurfaceCreated(devices: seq<Device>)
      requires Valid()
      modifies this
      ensures Valid()
      ensures hasSurface && cameraHelper.Some?
      ensures State() == old(State()).(
        hasSurface := true,
        cameraHelper := Some(old(Ensured())),
        nextHelper := old(EnsuredNext()),
        calls := old(calls) + old(Creation()) + [Driver(old(Ensured()), AddSurface)] +
                 (if old(shouldResumeCamera) then old(Selection(Ensured(), devices)) else []))
    {
      hasSurface := true;
      var h := EnsureCameraHelper();
      assert calls == old(calls) + old(Creation()) && h == old(Ensured());
      Emit(Driver(h, AddSurface));
      assert Valid();
      if shouldResumeCamera {
        var selected := SelectPreferredDevice(devices);
      }
    }

    /** Surface callback `surfaceDestroyed`: the resume flag survives. */
    method SurfaceDestroyed()
      requires Valid()
      modifies this
      ensures Valid()
      ensures shouldResumeCamera == old(shouldResumeCamera)
      ensures State() == old(State()).(
        hasSurface := false,
        calls := old(calls) + OnHelper(old(cameraHelper), RemoveSurface) + OnHelper(old(cameraHelper), DriverOp.CloseCamera))
    {
      hasSurface := false;
      if cameraHelper.Some? {
        Emit(Driver(cameraHelper.value, RemoveSurface));
      }
      CloseCameraInternal(true);
    }

    /** State callback `onAttach`: a reselection is posted, not run inline. */
    method OnAttach()
      requires Valid()
      modifies this
      ensures Valid()
      ensures State() == old(State()).(
        pending := old(pending) + (if old(shouldResumeCamera) then [SelectPreferredDeviceTask] else []))
    {
      if shouldResumeCamera {
        pending := pending + [SelectPreferredDeviceTask];
      }
    }

    /** State callback `onDeviceOpen`. */
    method OnDeviceOpen()
      requires Valid()
      modifies this
      ensures Valid()
      ensures State() == old(State()).(calls := old(calls) + OnHelper(old(cameraHelper), DriverOp.OpenCamera))
    {
      if cameraHelper.Some? {
        Emit(Driver(cameraHelper.value, DriverOp.OpenCamera));
      }
    }

    /** State callback `onCameraOpen`: configure the size, start the preview
        and attach the surface if one is held. */
    method OnCameraOpen(sizes: seq<Size>)
      requires Valid()
      modifies this
      ensures Valid()
      ensures old(cameraHelper).None? ==> State() == old(State())
      ensures old(cameraHelper).Some? ==>
                var h := old(cameraHelper).value;
                State() == old(State()).(
                  aspectRatio := old(ConfiguredAspect(sizes)),
                  calls := old(calls) + old(Configuration(h, sizes)) + [Driver(h, StartPreview)] +
                           (if old(hasSurface) then [Driver(h, AddSurface)] else []))
    {
      if cameraHelper.Some? {
        var h := cameraHelper.value;
        ConfigurePreviewSize(h, sizes);
        Emit(Driver(h, StartPreview));
        if hasSurface {
          Emit(Driver(h, AddSurface));
        }
      }
    }

    /** State callback `onCameraClose`: the surface is detached, the helper kept. */
    method OnCameraClose()
      requires Valid()
      modifies this
      ensures Valid()
      ensures State() == old(State()).(calls := old(calls) + OnHelper(old(cameraHelper), RemoveSurface))
    {
      if cameraHelper.Some? {
        Emit(Driver(cameraHelper.value, RemoveSurface));
      }
    }

    /** Host `onHostResume`: reselect later if a camera is wanted and a surface held. */
    method OnHostResume()
      requires Valid()
      modifies this
      ensures Valid()
      ensures State() == old(State()).(
        pending := old(pending) +
                   (if old(shouldResumeCamera) && old(hasSurface) then [SelectPreferredDeviceTask] else []))
    {
      if shouldResumeCamera && hasSurface {
        pending := pending + [SelectPreferredDeviceTask];
      }
    }

    /** Host `onHostPause`: close, keeping the resume flag. */
    method OnHostPause()
      requires Valid()
      modifies this
      ensures Valid()
      ensures shouldResumeCamera == old(shouldResumeCamera)
      ensures State() == old(State()).(calls := old(calls) + OnHelper(old(cameraHelper), DriverOp.CloseCamera))
    {
      CloseCameraInternal(true);
    }

    /** Host `onHostDestroy`. */
    method OnHostDestroy()
      requires Valid()
      modifies this
      ensures Valid()
      ensures !shouldResumeCamera && !hasSurface && cameraHelper.None? && !lifecycleRegistered
      ensures State() == old(State()).(
        shouldResumeCamera := false, hasSurface := false, cameraHelper := None, lifecycleRegistered := false,
        calls := old(calls) + OnHelper(old(cameraHelper), RemoveSurface) + OnHelper(old(cameraHelper), DriverOp.CloseCamera) +
                 OnHelper(old(cameraHelper), Release) +
                 (if old(lifecycleRegistered) then [RemoveLifecycleListener] else []))
    {
      Cleanup();
    }

    /** `onAttachedToWindow`. */
    method OnAttachedToWindow()
      requires Valid()
      modifies this
      ensures Valid()
      ensures cameraHelper.Some?
      ensures State() == old(State()).(
        cameraHelper := Some(old(Ensured())), nextHelper := old(EnsuredNext()),
        calls := old(calls) + old(Creation()))
    {
      var h := EnsureCameraHelper();
    }

    /** `onDetachedFromWindow`. */
    method OnDetachedFromWindow()
      requires Valid()
      modifies this
      ensures Valid()
      ensures !shouldResumeCamera && !hasSurface && cameraHelper.None? && !lifecycleRegistered
      ensures State() == old(State()).(
        shouldResumeCamera := false, hasSurface := false, cameraHelper := None, lifecycleRegistered := false,
        calls := old(calls) + OnHelper(old(cameraHelper), RemoveSurface) + OnHelper(old(cameraHelper), DriverOp.CloseCamera) +
                 OnHelper(old(cameraHelper), Release) +
                 (if old(lifecycleRegistered) then [RemoveLifecycleListener] else []))
    {
      Cleanup();
    }

    /** The UI queue runs the oldest posted task, if any: `selectPreferredDevice()`
        against the devices enumerated at that moment. */
    method RunPendingTask(devices: seq<Device>) returns (ran: bool)
      requires Valid()
      modifies this
      ensures Valid()
      ensures ran <==> |old(pending)| > 0
      ensures !ran ==> State() == old(State())
      ensures ran ==> State() == old(State()).(
        pending := old(pending)[1..],
        calls := old(calls) + (if old(cameraHelper).Some? then old(Selection(cameraHelper.value, devices)) else []))
    {
      if |pending| == 0 {
        return false;
      }
      pending := pending[1..];
      var selected := SelectPreferredDevice(devices);
      ran := true;
    }
  }

  /** A camera opened, shown, then cleaned up twice: the second cleanup makes
      no call at all. */
  method CleanupTwice(stored: map<string, Int32>, devices: seq<Device>) returns (first: seq<Effect>, second: seq<Effect>)
    ensures first == [Driver(0, RemoveSurface), Driver(0, DriverOp.CloseCamera), Driver(0, Release), RemoveLifecycleListener]
    ensures second == []
  {
    var view := new UVCCameraView(stored);
    view.OpenCamera(devices);
    assert view.cameraHelper == Some(0) && view.lifecycleRegistered;
    view.SurfaceCreated(devices);
    assert view.cameraHelper == Some(0) && view.lifecycleRegistered;
    var before := view.calls;
    view.Cleanup();
    first := view.calls[|before|..];
    before := view.calls;
    view.Cleanup();
    second := view.calls[|before|..];
  }

  /** Tearing the surface down and creating it again keeps the resume flag and
      reselects a device only when a camera had been asked for. */
  method SurfaceRecreated(stored: map<string, Int32>, devices: seq<Device>, open: bool)
    returns (resumeAfter: bool, recreation: seq<Effect>)
    ensures resumeAfter == open
    ensures recreation ==
            [Driver(0, AddSurface)] +
            (if open && |devices| > 0
             then [Driver(0, SelectDevice(PreferredDevice(devices, GetInt(stored, PREF_VENDOR_ID, DEFAULT_VENDOR_ID)).value))]
             else [])
  {
    var view := new UVCCameraView(stored);
    if open {
      view.OpenCamera([]);
    }
    view.SurfaceCreated([]);
    view.SurfaceDestroyed();
    var before := view.calls;
    view.SurfaceCreated(devices);
    resumeAfter := view.shouldResumeCamera;
    recreation := view.calls[|before|..];
  }

  /** `closeCamera` then `openCamera` with no surface: the resume flag is set
      and the device is selected at once, surface or not. */
  method ReopenWithoutSurface(stored: map<string, Int32>, devices: seq<Device>)
    returns (resume: bool, surface: bool, opening: seq<Effect>)
    requires |devices| > 0
    ensures resume && !surface
    ensures opening ==
            [Driver(0, Create),
             Driver(0, SelectDevice(PreferredDevice(devices, GetInt(stored, PREF_VENDOR_ID, DEFAULT_VENDOR_ID)).value))]
  {
    var view := new UVCCameraView(stored);
    view.CloseCamera();
    var before := view.calls;
    view.OpenCamera(devices);
    resume := view.shouldResumeCamera;
    surface := view.hasSurface;
    opening := view.calls[|before|..];
  }
}
