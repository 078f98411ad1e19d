# UVC camera view controller, modelled in Dafny

This project models `UVCCameraView`. That is the Android view of a React Native bridge to a USB Video Class camera driver. The view holds one surface and at most one driver helper, a `CameraHelper` session. It reacts to three kinds of callback:

- surface callbacks (created, destroyed);
- driver callbacks (attach, device open, camera open, camera close);
- host lifecycle callbacks (resume, pause, destroy).

It also takes explicit commands (open, close, set a preferred resolution, set a preferred vendor id). Two selection rules sit inside it:

- the **device rule**: the first enumerated device whose vendor id is the stored preference, when that preference is positive, and otherwise the first device;
- the **size rule**: the supported size nearest to the stored width and height in L1 distance. On a tie the earliest size wins. The chosen size is stamped with 25 fps.

Layout:

- `wrappers.dfy`: `Option`, for Kotlin's nullable values.
- `kotlin_int.dfy`: Kotlin's 32-bit `Int`, its wrapping `+`/`-`, and `abs`.
- `device_selection.dfy`: the device rule as functions over `seq<Device>`.
- `size_selection.dfy`: the size rule. It has the `minByOrNull` scan, the selector in Kotlin `Int` arithmetic as written, and the intended overflow-free distance.
- `camera_view.dfy`: the controller, as the class `UVCCameraView`.
  - Its fields are `hasSurface`, `shouldResumeCamera`, `lifecycleRegistered` and `cameraHelper` (the nullable `mCameraHelper`).
  - The stored preferences are a `map<string, Int32>`. When a key is missing, reads fall back to the defaults 2592, 1944 and 3034.
  - `pending` is the queue of tasks posted with `post { }`.
  - `calls` is the log of every call on the driver helper and on the host's lifecycle registry.
  - Every method states its whole new state as an update of the old one.
  - `Valid()` is the invariant every method keeps. It is stated over `calls` through two folds, `LiveAfterAll` and `RegisteredAfterAll`:
    - of the helpers `calls` creates, exactly the current helper has not been released, so at most one driver session is open;
    - `lifecycleRegistered` is what the registration and unregistration calls in `calls` leave.
  - Three client methods at the end replay scenarios: cleanup twice, surface teardown and re-creation, and close then open without a surface.

The world outside the view is given as parameters:

- the devices the helper enumerates;
- the sizes the helper supports;
- the stored preferences, given to the constructor.

A `null` list from the driver is the same as an empty one, because the source handles both in a single branch. A helper's identity is a number drawn from a counter, which stands for allocating a new `CameraHelper`.

`openCamera` selects a device at once, with or without a surface (UVCCameraView.kt:226-232); see `CameraView.ReopenWithoutSurface`.

## Model

| member | source | states |
|---|---|---|
| `KotlinInt.Wrap` | android/src/main/java/com/uvccamera/UVCCameraView.kt:209-211 | 32-bit `Int` arithmetic: the result is congruent to the exact value modulo 2^32, and equals it when the exact value is in range |
| `KotlinInt.Abs` | android/src/main/java/com/uvccamera/UVCCameraView.kt:209-210 | `abs` on `Int` is the magnitude, except `abs(Int.MIN_VALUE)`, which is `Int.MIN_VALUE` |
| `DeviceSelection.Preferred` | android/src/main/java/com/uvccamera/UVCCameraView.kt:190 | the `firstOrNull` predicate: a preference that is not positive matches no device, and a matching device carries exactly the preferred vendor id |
| `DeviceSelection.FirstPreferredIndex` | android/src/main/java/com/uvccamera/UVCCameraView.kt:190 | `firstOrNull`: a found index carries the positive preferred vendor id and no earlier device does; none is found exactly when the preference is not positive or no device has it |
| `DeviceSelection.PreferredDevice` | android/src/main/java/com/uvccamera/UVCCameraView.kt:183-193 | nothing is chosen exactly when the list is empty; with a positive preference that some device has, the first such device is chosen; otherwise the first device is chosen; the choice is always an enumerated device |
| `DeviceSelection.SecondDeviceMatches` | android/src/main/java/com/uvccamera/UVCCameraView.kt:189-191 | with preference 3034 and vendors 9999, 3034, 1111, the second device is chosen |
| `SizeSelection.FirstMinIndex` | android/src/main/java/com/uvccamera/UVCCameraView.kt:207-212 | the `minByOrNull` scan returns an index with a smallest key, and every earlier index has a strictly larger key (the first minimum wins) |
| `SizeSelection.MinByOrNull` | android/src/main/java/com/uvccamera/UVCCameraView.kt:208-212 | `minByOrNull` is null only for an empty list, so the `?: supportedSizes.first()` fallback is never taken; otherwise it returns the first minimum |
| `SizeSelection.Commit` | android/src/main/java/com/uvccamera/UVCCameraView.kt:198-215 | no size for an empty list; otherwise the first-minimum size for the given keys, with fps 25 |
| `SizeSelection.PickSize` | android/src/main/java/com/uvccamera/UVCCameraView.kt:204-215 | the committed size has fps 25 and is a supported size with the smallest L1 distance to the preference; no earlier size is as near; there is none exactly when the list is empty |
| `SizeSelection.PickSizeAsWritten` | android/src/main/java/com/uvccamera/UVCCameraView.kt:207-214 | the code as written commits a supported size, re-stamped with fps 25, whose key in wrapping `Int` arithmetic is smallest, and no earlier size has a key as small (first minimum wins); there is none exactly when the list is empty |
| `SizeSelection.KotlinKey` | android/src/main/java/com/uvccamera/UVCCameraView.kt:209-211 | the selector as written, with a wrapping `-`, Kotlin `abs` (where `abs(Int.MIN_VALUE)` is `Int.MIN_VALUE`) and a wrapping `+`; it equals the true L1 distance whenever that distance fits in an `Int` |
| `SizeSelection.CounterexampleKeys` | android/src/main/java/com/uvccamera/UVCCameraView.kt:209-211 | for preference (-2147483000, 480), the sizes 640x480 and 1280x720 get the wrapped keys 2147483640 and 2147483256, while their true distances are 2147483640 and 2147484520 |
| `SizeSelection.AsWrittenAgreesWithoutOverflow` | android/src/main/java/com/uvccamera/UVCCameraView.kt:207-214 | when every distance fits in an `Int`, the code as written and the intended rule commit the same size |
| `SizeSelection.AsWrittenPicksFartherSize` | android/src/main/java/com/uvccamera/UVCCameraView.kt:207-214 | counterexample: preference (-2147483000, 480) with sizes 640x480 and 1280x720 — as written 1280x720 is committed, although 640x480 is nearer |
| `SizeSelection.NearestToPreferenceExample` | android/src/main/java/com/uvccamera/UVCCameraView.kt:204-215 | with sizes 1920x1080, 2592x1944 and 1280x720 and preference 2600x1900, the committed size is 2592x1944 at 25 fps |
| `CameraView.GetInt` | android/src/main/java/com/uvccamera/UVCCameraView.kt:189 | `getInt(key, default)` reads the stored value when the key was written, and the default otherwise |
| `CameraView.GetIntAfterPut` | android/src/main/java/com/uvccamera/UVCCameraView.kt:239-242 | a `putInt` is read back from its key and leaves every other key's reading unchanged |
| `CameraView.UVCCameraView.PreferredVendorId` | android/src/main/java/com/uvccamera/UVCCameraView.kt:189 | the preferred vendor id is the stored `defaultCameraVendorId`, or 3034 when none is stored |
| `CameraView.UVCCameraView.PreferredWidth` | android/src/main/java/com/uvccamera/UVCCameraView.kt:204 | the preferred width is the stored `width`, or 2592 when none is stored |
| `CameraView.UVCCameraView.PreferredHeight` | android/src/main/java/com/uvccamera/UVCCameraView.kt:205 | the preferred height is the stored `height`, or 1944 when none is stored |
| `CameraView.UVCCameraView.constructor` | android/src/main/java/com/uvccamera/UVCCameraView.kt:128-132 | a new view has no surface, no resume request and no helper; it is registered with the host, and that registration is its only call |
| `CameraView.UVCCameraView.RegisterLifecycleListener` | android/src/main/java/com/uvccamera/UVCCameraView.kt:134-139 | afterwards the view is registered; the host is called only if it was not registered already (idempotent) |
| `CameraView.UVCCameraView.UnregisterLifecycleListener` | android/src/main/java/com/uvccamera/UVCCameraView.kt:141-146 | afterwards the view is unregistered; the host is called only if it was registered (idempotent) |
| `CameraView.UVCCameraView.EnsureCameraHelper` | android/src/main/java/com/uvccamera/UVCCameraView.kt:172-179 | an existing helper is returned and nothing changes; otherwise a new helper is created (while no session is open), becomes current and is returned |
| `CameraView.UVCCameraView.SelectPreferredDevice` | android/src/main/java/com/uvccamera/UVCCameraView.kt:181-195 | returns true exactly when there is a helper and a device; then the one call made is `selectDevice` with the device rule's choice, and otherwise no call is made; no field changes |
| `CameraView.UVCCameraView.ConfigurePreviewSize` | android/src/main/java/com/uvccamera/UVCCameraView.kt:197-217 | with no supported sizes nothing changes; otherwise the size rule's choice, at 25 fps, is set as the helper's preview size and the aspect ratio becomes its width and height |
| `CameraView.UVCCameraView.CloseCameraInternal` | android/src/main/java/com/uvccamera/UVCCameraView.kt:219-224 | the helper (if any) is told to close the camera; the resume flag is kept when asked and cleared otherwise; nothing else changes |
| `CameraView.UVCCameraView.OpenCamera` | android/src/main/java/com/uvccamera/UVCCameraView.kt:226-232 | afterwards the resume flag is set and a helper exists; the calls are the helper's creation (if there was none) and then the device selection |
| `CameraView.UVCCameraView.CloseCamera` | android/src/main/java/com/uvccamera/UVCCameraView.kt:234-236 | the helper is told to close the camera, and the resume flag is cleared |
| `CameraView.UVCCameraView.UpdateAspectRatio` | android/src/main/java/com/uvccamera/UVCCameraView.kt:238-248 | the preferred width and height are always stored; only when the camera should resume is it also closed, keeping the flag, and a reselection posted |
| `CameraView.UVCCameraView.SetDefaultCameraVendorId` | android/src/main/java/com/uvccamera/UVCCameraView.kt:256-262 | the preferred vendor id is always stored; only when the camera should resume is it also closed, keeping the flag, and a reselection posted |
| `CameraView.UVCCameraView.Cleanup` | android/src/main/java/com/uvccamera/UVCCameraView.kt:315-326 | afterwards there is no resume request, no surface, no helper and no registration, and no session is open; the only calls are removeSurface, closeCamera and release on the old helper plus the unregistration, and none is made when those are already gone |
| `CameraView.UVCCameraView.SurfaceCreated` | android/src/main/java/com/uvccamera/UVCCameraView.kt:54-62 | afterwards a surface is held and a helper exists; the surface is added to it, and a device selection is attempted exactly when the resume flag was set |
| `CameraView.UVCCameraView.SurfaceDestroyed` | android/src/main/java/com/uvccamera/UVCCameraView.kt:66-71 | the surface is dropped, then removed from the helper and the camera closed; the resume flag survives |
| `CameraView.UVCCameraView.OnAttach` | android/src/main/java/com/uvccamera/UVCCameraView.kt:75-80 | a reselection is posted exactly when the resume flag is set; it is not run inline |
| `CameraView.UVCCameraView.OnDeviceOpen` | android/src/main/java/com/uvccamera/UVCCameraView.kt:82-85 | the helper, if any, is told to open the camera |
| `CameraView.UVCCameraView.OnCameraOpen` | android/src/main/java/com/uvccamera/UVCCameraView.kt:87-108 | with no helper nothing happens; otherwise the preview size is configured, the preview started and, if a surface is held, the surface added |
| `CameraView.UVCCameraView.OnCameraClose` | android/src/main/java/com/uvccamera/UVCCameraView.kt:110-113 | the surface is removed from the helper; the helper itself is kept |
| `CameraView.UVCCameraView.OnHostResume` | android/src/main/java/com/uvccamera/UVCCameraView.kt:158-162 | a reselection is posted exactly when the resume flag is set and a surface is held |
| `CameraView.UVCCameraView.OnHostPause` | android/src/main/java/com/uvccamera/UVCCameraView.kt:164-166 | the camera is closed and the resume flag survives |
| `CameraView.UVCCameraView.OnHostDestroy` | android/src/main/java/com/uvccamera/UVCCameraView.kt:168-170 | the same teardown as `cleanup` |
| `CameraView.UVCCameraView.OnAttachedToWindow` | android/src/main/java/com/uvccamera/UVCCameraView.kt:148-151 | afterwards a helper exists; one is created only if there was none |
| `CameraView.UVCCameraView.OnDetachedFromWindow` | android/src/main/java/com/uvccamera/UVCCameraView.kt:153-156 | the same teardown as `cleanup` |
| `CameraView.UVCCameraView.RunPendingTask` | android/src/main/java/com/uvccamera/UVCCameraView.kt:78 | the UI queue runs the oldest posted `selectPreferredDevice()` (posted at lines 78, 160, 246 and 260) and removes it from the queue; with an empty queue nothing happens |
| `CameraView.CleanupTwice` | android/src/main/java/com/uvccamera/UVCCameraView.kt:315-326 | after open and surface creation, the first cleanup removes the surface, closes the camera, releases the helper and unregisters, and the second makes no call at all |
| `CameraView.SurfaceRecreated` | android/src/main/java/com/uvccamera/UVCCameraView.kt:54-71 | tearing the surface down and creating it again keeps the resume flag, and the re-creation reselects a device only when a camera had been asked for |
| `CameraView.ReopenWithoutSurface` | android/src/main/java/com/uvccamera/UVCCameraView.kt:226-236 | close and then open with no surface: the resume flag is set, and the helper is created and a device selected at once, without a surface |

## Findings

| source | as written | input that shows it | evidently intended | confidence | as-written member | corrected member |
|---|---|---|---|---|---|---|
| android/src/main/java/com/uvccamera/UVCCameraView.kt:207-212 | the selector `abs(w - pw) + abs(h - ph)` is computed in 32-bit `Int` arithmetic, which wraps, and `abs(Int.MIN_VALUE)` is negative | preference (-2147483000, 480), sizes [640x480, 1280x720]: the keys wrap to 2147483640 and 2147483256, so 1280x720 is committed, but its real distance (2147484520) is larger than that of 640x480 (2147483640) | the supported size nearest in L1 distance, for every stored preference | low: it needs a preference near `Int.MIN_VALUE` or `Int.MAX_VALUE` stored through `updateAspectRatio`; not executed | `SizeSelection.AsWrittenPicksFartherSize` (on `SizeSelection.PickSizeAsWritten`, with keys from `SizeSelection.CounterexampleKeys`) | `SizeSelection.PickSize`, used by `CameraView.UVCCameraView.ConfigurePreviewSize`; `SizeSelection.AsWrittenAgreesWithoutOverflow` shows the two agree when no distance overflows |

## Left out

- The driver library (`CameraHelper`, `ICameraHelper`, `uvcControl`, `previewConfig`, USB enumeration) is foreign code. A call on it is an entry in `calls`. What it enumerates or supports is a parameter. Its callbacks are the `On…` methods, which the environment may call in any order. Every driver call except `release` is assumed to return normally. In the source, a throw from `addSurface`, `removeSurface`, `closeCamera`, `selectDevice`, the `previewSize` setter or `startPreview` is not caught, and it would abandon the rest of the operation. For example, a throw at lines 319-320 of `cleanup` leaves `mCameraHelper` non-null.
- The image-control setters (`setCameraBright`, `setContrast`, `setHue`, `setSaturation`, `setSharpness`, `setZoom`, `rotateCamera`, `reset`) are left out. Each is a best-effort forward to the driver whose failures are caught and logged. None touches the controller's fields.
- The rotation, mirror and default-zoom block of `onCameraOpen` (lines 91-102) is left out. It consists of best-effort driver property writes whose failures are caught.
- `onDeviceClose`, `onDetach` and `onCancel` only log, so they are left out. `surfaceChanged` does nothing at all.
- The private `selectDevice` helper (lines 328-331) is never called, so it is left out.
- SharedPreferences persistence is a map. The asynchronous `apply()` is treated as an immediate write.
- The Android `Surface`/`SurfaceHolder` is one implicit surface. `FrameLayout` view machinery and `Log` calls are not modelled.
- `CameraView.UVCCameraView.ConfigurePreviewSize` commits `SizeSelection.PickSize`, the overflow-free distance, not the wrapping selector of lines 209-211. It agrees with the code whenever every distance fits in an `Int` (`SizeSelection.AsWrittenAgreesWithoutOverflow`); see the finding above.
- `SizeSelection.PickSize` returns a copy stamped with 25 fps. The source sets `fps` on the `Size` object inside the helper's own list, and the model does not capture that aliasing.
- `CameraView.UVCCameraView.Cleanup` records `release` as always succeeding. In the source a failure is caught and logged, and the helper reference is dropped either way, as in the model.
- `post { }` is modelled as appending to `pending`. `RunPendingTask` stands in for the UI thread running that work later. The timing is not modelled.
- The helper's own state (the open device, the preview state) is not modelled. Only the calls made on it are.
- UVCCameraViewModule.kt (the command dispatcher), UVCCameraViewManager.kt (the view factory) and UVCCamera.tsx (the client facade) are not part of this model. They are null-safe forwards into the view, and the dispatcher's `takePhoto` calls a method that the view file does not define.
