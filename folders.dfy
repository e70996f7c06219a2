/**
 * The three folder windows of the desktop (script.js, "Folder JS"). Each
 * window toggles on its folder button, closes on its close button, comes to
 * the front on a mousedown on its header and follows the mouse while the
 * header is held. The source repeats the same handlers for each window;
 * here they are one operation indexed by the window.
 */
module Folders {
  import opened Wrappers

  const WINDOW_COUNT: nat := 3
  /** The windows of the software, hardware and personal folders. */
  const SOFTWARE: nat := 0
  const HARDWARE: nat := 1
  const PERSONAL: nat := 2
  /** The initial value of the shared z-index counter. */
  const FIRST_Z_INDEX: int := 1000

  /**
   * One window: whether it carries the 'active' class, its inline z-index
   * (None until a handler first sets one), its left/top offset in pixels,
   * and whether its header's mousemove drag listener is attached.
   */
  datatype Window = Window(active: bool, zIndex: Option<int>, left: int, top: int, dragging: bool)

  class Desktop {
    const windows: array<Window>
    var zIndexCounter: int

    ghost predicate Valid()
      reads this, windows
    {
      && windows.Length == WINDOW_COUNT
      && FIRST_Z_INDEX <= zIndexCounter
      && forall k :: 0 <= k < WINDOW_COUNT && windows[k].zIndex.Some? ==> windows[k].zIndex.value <= zIndexCounter
    }

    /** Window i is in front of every other window that has a z-index. */
    ghost predicate InFront(i: nat)
      requires Valid() && i < WINDOW_COUNT
      reads this, windows
    {
      && windows[i].zIndex.Some?
      && forall k :: 0 <= k < WINDOW_COUNT && k != i && windows[k].zIndex.Some? ==>
           windows[k].zIndex.value < windows[i].zIndex.value
    }

    /** Page load: all windows closed at their stylesheet positions. */
    constructor (positions: seq<(int, int)>)
      requires |positions| == WINDOW_COUNT
      ensures Valid() && fresh(windows) && zIndexCounter == FIRST_Z_INDEX
      ensures forall k :: 0 <= k < WINDOW_COUNT ==>
        windows[k] == Window(false, None, positions[k].0, positions[k].1, false)
    {
      windows := new Window[WINDOW_COUNT](k requires 0 <= k < WINDOW_COUNT =>
        Window(false, None, positions[k].0, positions[k].1, false));
      zIndexCounter := FIRST_Z_INDEX;
    }

    /** A folder button: closes an open window, or opens a closed one in front of the others. */
    method FolderClick(i: nat)
      requires Valid() && i < WINDOW_COUNT
      modifies this, windows
      ensures Valid()
      ensures old(windows[i].active) ==>
        windows[i] == old(windows[i]).(active := false) && zIndexCounter == old(zIndexCounter)
      ensures !old(windows[i].active) ==>
        && zIndexCounter == old(zIndexCounter) + 1
        && windows[i] == old(windows[i]).(active := true, zIndex := Some(zIndexCounter))
        && InFront(i)
      ensures forall k :: 0 <= k < WINDOW_COUNT && k != i ==> windows[k] == old(windows[k])
    {
      if windows[i].active {
        windows[i] := windows[i].(active := false);
      } else {
        zIndexCounter := zIndexCounter + 1;
        windows[i] := windows[i].(active := true, zIndex := Some(zIndexCounter));
      }
    }

    /** A close button: the window loses 'active' and nothing else changes. */
    method CloseClick(i: nat)
      requires Valid() && i < WINDOW_COUNT
      modifies windows
      ensures Valid()
      ensures windows[i] == old(windows[i]).(active := false)
      ensures forall k :: 0 <= k < WINDOW_COUNT && k != i ==> windows[k] == old(windows[k])
    {
      windows[i] := windows[i].(active := false);
    }

    /** Mousedown on a header: the window comes to the front and starts following the mouse. */
    method HeaderMouseDown(i: nat)
      requires Valid() && i < WINDOW_COUNT
      modifies this, windows
      ensures Valid()
      ensures zIndexCounter == old(zIndexCounter) + 1
      ensures windows[i] == old(windows[i]).(zIndex := Some(zIndexCounter), dragging := true)
      ensures InFront(i)
      ensures forall k :: 0 <= k < WINDOW_COUNT && k != i ==> windows[k] == old(windows[k])
    {
      zIndexCounter := zIndexCounter + 1;
      windows[i] := windows[i].(zIndex := Some(zIndexCounter), dragging := true);
    }

    /** Mouseup on a header: the drag listener is removed. */
    method HeaderMouseUp(i: nat)
      requires Valid() && i < WINDOW_COUNT
      modifies windows
      ensures Valid()
      ensures windows[i] == old(windows[i]).(dragging := false)
      ensures forall k :: 0 <= k < WINDOW_COUNT && k != i ==> windows[k] == old(windows[k])
    {
      windows[i] := windows[i].(dragging := false);
    }

    /** Mousemove on a header: a dragged window moves by the mouse's movement. */
    method HeaderMouseMove(i: nat, movementX: int, movementY: int)
      requires Valid() && i < WINDOW_COUNT
      modifies windows
      ensures Valid()
      ensures old(windows[i].dragging) ==>
        windows[i] == old(windows[i]).(left := old(windows[i].left) + movementX,
                                       top := old(windows[i].top) + movementY)
      ensures !old(windows[i].dragging) ==> windows[i] == old(windows[i])
      ensures forall k :: 0 <= k < WINDOW_COUNT && k != i ==> windows[k] == old(windows[k])
    {
      if windows[i].dragging {
        windows[i] := windows[i].(left := windows[i].left + movementX, top := windows[i].top + movementY);
      }
    }
  }

  /**
   * Opening the software, hardware and personal folders in that order and
   * then grabbing the software window's header: each window opens in front
   * of the ones before it, and the grab brings the software window back
   * above both.
   */
  method RaiseOnGrab(positions: seq<(int, int)>) returns (zSoftware: int, zHardware: int, zPersonal: int)
    requires |positions| == WINDOW_COUNT
    ensures zHardware < zPersonal < zSoftware
    ensures zSoftware == FIRST_Z_INDEX + 4
  {
    var d := new Desktop(positions);
    d.FolderClick(SOFTWARE);
    d.FolderClick(HARDWARE);
    d.FolderClick(PERSONAL);
    d.HeaderMouseDown(SOFTWARE);
    zSoftware := d.windows[SOFTWARE].zIndex.value;
    zHardware := d.windows[HARDWARE].zIndex.value;
    zPersonal := d.windows[PERSONAL].zIndex.value;
  }
}
