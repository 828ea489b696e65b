# Dream engine Android device: cursor control

This project models the cursor-control object nested in the Android device of
the Dream engine (`CDreamDeviceAndroid::CCursorControl`), together with the
device fields it reads and the device-type query. The device itself is a
declaration-only stub. The only behaviour with a body is this:

- `getPosition` refreshes the cached `CursorPos` from the device's raw mouse
  coordinates and returns it.
- That refresh (`updateCursorPos`) copies `MouseX`/`MouseY` into `CursorPos`.
  It then clamps each axis into `[0, Width] x [0, Height]` with four
  successive conditional assignments.
- `setVisible` and the integer `setPosition` have commented-out bodies, so
  they change nothing. The visibility flag stays `true` from construction on.
- `getType` always answers the Android tag.

Layout:

- `types.dfy` (module `DreamTypes`) holds the engine's `s32`/`u32` as
  newtypes. It also holds the C++ `(s32)` conversion of a `u32` (`AsS32`), the
  `position2d<s32>` point and the device-type tag.
- `device_android.dfy` (module `DreamDeviceAndroid`) holds two classes:
  - `Device`, with the fields `MouseX`, `MouseY`, `MouseButtonStates`,
    `Width`, `Height` and the window flags;
  - `CursorControl`, with the `Device` back-reference, `CursorPos` and
    `IsVisible`.

  `UpdateCursorPos` keeps the source's conditional assignments. It is proved
  against the specification function `ClampedPosition`, whose own properties
  (bounds, identity inside the range, clamping below and above, per-axis
  independence, exact range) are stated and proved alongside it.

The comparison `CursorPos.X > (s32)Device->Width` and the assignment
`CursorPos.X = Device->Width` both convert a `u32` to `s32`. The model writes
that conversion out as a two's-complement wrap. The window bound therefore
holds exactly when the extents are below 2^31. For a wider extent the
reported coordinate is the wrapped, negative extent (`ClampedPosition`'s last
two ensures clauses).

The design of the cursor control intends two things the code does not do:

- `setPosition(x, y)` followed by `getPosition()` was meant to return the
  clamped `(x, y)`.
- `isVisible()` was meant to follow `setVisible`.

The code does neither, because both setter bodies are commented out. The
model follows the code (`SetPositionThenGetPosition`,
`SetVisibleThenIsVisible`, `WindowEdgeScenario`).

## Model

| member | source | states |
|---|---|---|
| `DreamTypes.AsS32` | CDreamDeviceAndroid.h:164-168 | the `(s32)` view of a `u32` extent is the unique `s32` congruent to it modulo 2^32; it is non-negative exactly when the extent is below 2^31, and then equals it |
| `DreamDeviceAndroid.ClampAxis` | CDreamDeviceAndroid.h:162-169 | one axis of the update: for a non-negative extent the result lies in `[0, extent]`, equals the input inside that range, is 0 below it and the extent above it; for a negative (wrapped) extent the result is that extent |
| `DreamDeviceAndroid.ClampedPosition` | CDreamDeviceAndroid.h:159-169 | the cached position lies in `[0, Width] x [0, Height]` when both extents fit in `s32`; a raw coordinate inside the range is kept; a negative one becomes 0 and one above the extent becomes the extent; an extent of 2^31 or more yields a negative coordinate |
| `DreamDeviceAndroid.AxesIndependent` | CDreamDeviceAndroid.h:159-169 | X depends only on `MouseX` and `Width`, Y only on `MouseY` and `Height` |
| `DreamDeviceAndroid.ReachablePositions` | CDreamDeviceAndroid.h:157-170 | for extents that fit in `s32` the set of reportable positions is exactly the window rectangle: every reported point is inside, and every point inside is reported for some raw mouse state |
| `DreamDeviceAndroid.Device.GetType` | CDreamDeviceAndroid.h:81-84 | the device always reports the Android backend tag |
| `DreamDeviceAndroid.CursorControl.constructor` | CDreamDeviceAndroid.h:91-94 | a new cursor control is bound to the given device and is visible |
| `DreamDeviceAndroid.CursorControl.SetVisible` | CDreamDeviceAndroid.h:97-104 | changes neither the cursor control nor the device, whatever flag is passed |
| `DreamDeviceAndroid.CursorControl.IsVisible` | CDreamDeviceAndroid.h:107-110 | under the object invariant the cursor is always reported visible |
| `DreamDeviceAndroid.CursorControl.SetPosition` | CDreamDeviceAndroid.h:131-134 | changes neither the cursor control nor the device, whatever point is passed |
| `DreamDeviceAndroid.CursorControl.SetPositionTo` | CDreamDeviceAndroid.h:125-128 | the point overload forwards to the integer one and likewise changes nothing |
| `DreamDeviceAndroid.CursorControl.GetPosition` | CDreamDeviceAndroid.h:137-141 | returns the refreshed cache, which is the clamped device mouse position and lies in the window when the extents fit in `s32`; only `CursorPos` is written |
| `DreamDeviceAndroid.CursorControl.UpdateCursorPos` | CDreamDeviceAndroid.h:157-170 | the new `CursorPos` is the clamped raw mouse position of the device; the device and the visibility flag are untouched |
| `DreamDeviceAndroid.RepeatedGetPosition` | CDreamDeviceAndroid.h:137-141 | two `getPosition` calls with unchanged device state return the same point |
| `DreamDeviceAndroid.SetPositionThenGetPosition` | CDreamDeviceAndroid.h:131-141 | after `setPosition(x, y)`, `getPosition` reports the device's clamped mouse position regardless of `(x, y)` |
| `DreamDeviceAndroid.SetVisibleThenIsVisible` | CDreamDeviceAndroid.h:91-110 | after `setVisible(b)` on a new cursor control, `isVisible()` is true for every `b` |
| `DreamDeviceAndroid.WindowEdgeScenario` | CDreamDeviceAndroid.h:159-169 | on an 800 x 600 window with the raw mouse at (900, 300), `getPosition` returns (800, 300), even after `setPosition(10, 20)` |

## Left out

- The float `setPosition` overloads (CDreamDeviceAndroid.h:113-122) and `getRelativePosition` (CDreamDeviceAndroid.h:144-149) are left out. They use floating-point scaling and division. The division has no guard for a zero extent, and no fallback is modelled for that case.
- `setReferenceRect` (CDreamDeviceAndroid.h:151-153) is left out: its body is empty.
- The device's own methods are left out: constructor, destructor, `run`, `yield`, `sleep`, `present`, `closeDevice`, the window queries and requests, `getColorFormat`, `setWindowCaption`, `getVideoModeList`, the gamma ramp, `createDriver`, `createWindow` and `createKeyMap`. They are only declared in the header, so their behaviour is not visible, and most of them are host I/O. The host event pump that writes `MouseX`/`MouseY`/`Width`/`Height` is therefore not modelled; those fields are plain inputs.
- `SKeyMap` and `KeyMap` are left out: the struct has no fields, and its `operator<` has no return statement.
- The commented-out SDL calls are not modelled: they are foreign library calls.
- The `Device` back-pointer is modelled as a valid reference that never changes. A dangling pointer is not modelled.
- `getPosition` returns a reference to `CursorPos` in the source. The model returns a copy, so a caller's reference seeing a later refresh is not captured.
- DreamDeviceAndroid.CursorControl.constructor: the initial `CursorPos` comes from the default constructor of `position2d`, which is not part of this model. The model starts at (0, 0), and the contract promises nothing about it.
