/** The Android device of the Dream engine: the device fields the cursor reads,
    the device-type query, and the cursor-control object nested in the device. */
module DreamDeviceAndroid {
  import opened DreamTypes

  /** `p` lies in the closed rectangle `[0, width] x [0, height]`. */
  predicate InWindow(p: Position2D, width: u32, height: u32)
  {
    0 <= p.x as int <= width as int && 0 <= p.y as int <= height as int
  }

  /** An extent that survives the `(s32)` conversion unchanged. */
  predicate FitsS32(extent: u32)
  {
    extent < 0x8000_0000
  }

  /** One axis of the cursor update: raise a negative coordinate to 0, then
      lower anything above `extent` to `extent`, in that order. */
  function ClampAxis(v: s32, extent: s32): (r: s32)
    ensures 0 <= extent ==> 0 <= r <= extent
    ensures 0 <= extent && 0 <= v <= extent ==> r == v
    ensures 0 <= extent && v < 0 ==> r == 0
    ensures extent < v ==> r == extent
    ensures extent < 0 ==> r == extent
  {
    var raised := if v < 0 then 0 else v;
    if raised > extent then extent else raised
  }

  /** The position the cursor control caches for the raw mouse coordinates
      and the window extents of its device. */
  function ClampedPosition(mouseX: s32, mouseY: s32, width: u32, height: u32): (p: Position2D)
    ensures FitsS32(width) && FitsS32(height) ==> InWindow(p, width, height)
    ensures FitsS32(width) && 0 <= mouseX as int <= width as int ==> p.x == mouseX
    ensures FitsS32(height) && 0 <= mouseY as int <= height as int ==> p.y == mouseY
    ensures mouseX < 0 ==> p.x as int == if FitsS32(width) then 0 else width as int - 0x1_0000_0000
    ensures mouseY < 0 ==> p.y as int == if FitsS32(height) then 0 else height as int - 0x1_0000_0000
    ensures mouseX as int > width as int ==> p.x as int == width as int
    ensures mouseY as int > height as int ==> p.y as int == height as int
    ensures !FitsS32(width) ==> p.x < 0
    ensures !FitsS32(height) ==> p.y < 0
  {
    Position2D(ClampAxis(mouseX, AsS32(width)), ClampAxis(mouseY, AsS32(height)))
  }

  /** The axes are clamped independently: X depends only on the raw X and
      the width, Y only on the raw Y and the height. */
  lemma AxesIndependent(mouseX: s32, mouseY: s32, width: u32, height: u32,
                        mouseX': s32, mouseY': s32, width': u32, height': u32)
    ensures mouseX == mouseX' && width == width' ==>
      ClampedPosition(mouseX, mouseY, width, height).x == ClampedPosition(mouseX', mouseY', width', height').x
    ensures mouseY == mouseY' && height == height' ==>
      ClampedPosition(mouseX, mouseY, width, height).y == ClampedPosition(mouseX', mouseY', width', height').y
  {
  }

  /** For extents that fit in `s32`, the positions the cursor can report are
      exactly the points of the window rectangle: every reported point is
      inside, and every point inside is reported for some raw mouse state. */
  lemma ReachablePositions(width: u32, height: u32)
    requires FitsS32(width) && FitsS32(height)
    ensures forall p :: InWindow(p, width, height) <==>
      exists mouseX: s32, mouseY: s32 :: ClampedPosition(mouseX, mouseY, width, height) == p
  {
    forall p | InWindow(p, width, height)
      ensures exists mouseX: s32, mouseY: s32 :: ClampedPosition(mouseX, mouseY, width, height) == p
    {
      assert ClampedPosition(p.x, p.y, width, height) == p;
    }
  }

  /** `CDreamDeviceAndroid`: the fields the cursor control reads and the
      window flags beside them. The host event pump that writes them is not
      part of this model. */
  class Device {
    var mouseX: s32
    var mouseY: s32
    var mouseButtonStates: u32
    var width: u32
    var height: u32
    var resizable: bool
    var windowHasFocus: bool
    var windowMinimized: bool

    /** The backend tag of this device. */
    function GetType(): (t: DeviceType)
      ensures t == Android
    {
      Android
    }
  }

  /** `CDreamDeviceAndroid::CCursorControl`: a cursor cache bound to one
      device through a non-owning back-reference. */
  class CursorControl {
    const device: Device
    var cursorPos: Position2D
    var isVisible: bool

    /** The cursor is shown: only the constructor writes the visibility flag. */
    ghost predicate Valid()
      reads this
    {
      isVisible
    }

    constructor (dev: Device)
      ensures device == dev && Valid()
    {
      device := dev;
      cursorPos := Position2D(0, 0);
      isVisible := true;
    }

    /** The request to show or hide the host cursor; it records nothing. */
    method SetVisible(visible: bool)
      ensures unchanged(this, device)
    {
    }

    /** Whether the cursor is shown; under the object invariant it always is. */
    function IsVisible(): (shown: bool)
      reads this
      requires Valid()
      ensures shown
    {
      isVisible
    }

    /** The request to move the host cursor to `(x, y)`; it records nothing. */
    method SetPosition(x: s32, y: s32)
      ensures unchanged(this, device)
    {
    }

    /** The `position2d<s32>` overload, forwarding both coordinates. */
    method SetPositionTo(pos: Position2D)
      ensures unchanged(this, device)
    {
      SetPosition(pos.x, pos.y);
    }

    /** Refreshes the cache from the device and returns it. */
    method GetPosition() returns (p: Position2D)
      modifies this`cursorPos
      ensures p == cursorPos
      ensures p == ClampedPosition(device.mouseX, device.mouseY, device.width, device.height)
      ensures FitsS32(device.width) && FitsS32(device.height) ==> InWindow(p, device.width, device.height)
    {
      UpdateCursorPos();
      p := cursorPos;
    }

    /** Copies the raw mouse coordinates into the cache, then clamps each
      axis by successive conditional assignments. */
    method UpdateCursorPos()
      modifies this`cursorPos
      ensures cursorPos == ClampedPosition(device.mouseX, device.mouseY, device.width, device.height)
    {
      cursorPos := Position2D(device.mouseX, device.mouseY);

      if cursorPos.x < 0 {
        cursorPos := cursorPos.(x := 0);
      }
      if cursorPos.x > AsS32(device.width) {
        cursorPos := cursorPos.(x := AsS32(device.width));
      }
      if cursorPos.y < 0 {
        cursorPos := cursorPos.(y := 0);
      }
      if cursorPos.y > AsS32(device.height) {
        cursorPos := cursorPos.(y := AsS32(device.height));
      }
    }
  }

  /** Two calls of `getPosition` with no change to the device in between
      report the same point. */
  method RepeatedGetPosition(dev: Device) returns (first: Position2D, second: Position2D)
    ensures first == second == ClampedPosition(dev.mouseX, dev.mouseY, dev.width, dev.height)
  {
    var cursor := new CursorControl(dev);
    first := cursor.GetPosition();
    second := cursor.GetPosition();
  }

  /** `setPosition(x, y)` leaves no trace: a later `getPosition` reports the
      device's mouse state, whatever `(x, y)` was. */
  method SetPositionThenGetPosition(dev: Device, x: s32, y: s32) returns (p: Position2D)
    ensures p == ClampedPosition(dev.mouseX, dev.mouseY, dev.width, dev.height)
  {
    var cursor := new CursorControl(dev);
    cursor.SetPosition(x, y);
    p := cursor.GetPosition();
  }

  /** `setVisible(false)` does not hide the cursor. */
  method SetVisibleThenIsVisible(dev: Device, visible: bool) returns (shown: bool)
    ensures shown
  {
    var cursor := new CursorControl(dev);
    cursor.SetVisible(visible);
    shown := cursor.IsVisible();
  }

  /** An 800 x 600 window with the raw mouse at (900, 300) reports (800, 300);
      moving the cursor to (10, 20) beforehand changes nothing. */
  method WindowEdgeScenario() returns (p: Position2D)
    ensures p == Position2D(800, 300)
  {
    var dev := new Device;
    dev.width, dev.height := 800, 600;
    dev.mouseX, dev.mouseY := 900, 300;
    var cursor := new CursorControl(dev);
    cursor.SetPosition(10, 20);
    p := cursor.GetPosition();
  }
}
