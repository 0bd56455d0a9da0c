/**
 * The zoom tool (core/thin/editor/toolaction/zoomaction.js): a click zooms in
 * by 10, or out by 10 while ALT is held; the zoom layer's cursor follows the
 * ALT key; activating the tool starts in zoom-in mode.
 */
module ZoomAction {

  /** The key code of ALT in the browser's key codes. */
  const ALT: int := 18
  /** The zoom step of one click, in percent. */
  const STEP: int := 10

  /** Which cursor the zoom layer shows. */
  datatype Mode = ZoomIn | ZoomOut

  /** The parts of a key event the tool reads. */
  datatype KeyEvent = KeyEvent(keyCode: int, altKey: bool)

  /** The zoom a click asks for. */
  function ZoomStep(zoom: int, altKey: bool): (z: int)
    ensures altKey ==> z < zoom
    ensures !altKey ==> z > zoom
    ensures z - zoom == STEP || zoom - z == STEP
  {
    if altKey then zoom - STEP else zoom + STEP
  }

  /** A click with ALT undoes one without, and the other way round. */
  lemma ZoomStepInverse(zoom: int)
    ensures ZoomStep(ZoomStep(zoom, true), false) == zoom
    ensures ZoomStep(ZoomStep(zoom, false), true) == zoom
  {
  }

  /** The zoom after a run of clicks, given whether ALT was held at each. */
  function ZoomAfterClicks(zoom: int, alts: seq<bool>): int
    decreases |alts|
  {
    if alts == [] then zoom else ZoomAfterClicks(ZoomStep(zoom, alts[0]), alts[1..])
  }

  function CountAlt(alts: seq<bool>): nat
    decreases |alts|
  {
    if alts == [] then 0 else (if alts[0] then 1 else 0) + CountAlt(alts[1..])
  }

  /** A run of clicks moves the zoom by 10 for each plain click and back by 10 for each ALT click. */
  lemma {:induction false} ZoomAfterClicksNet(zoom: int, alts: seq<bool>)
    ensures ZoomAfterClicks(zoom, alts) == zoom + STEP * (|alts| - 2 * CountAlt(alts))
    decreases |alts|
  {
    if alts != [] {
      ZoomAfterClicksNet(ZoomStep(zoom, alts[0]), alts[1..]);
    }
  }

  /** `setZoomMode_` on a value: an ALT key event picks the mode from `altKey`; any other key leaves it. */
  function ModeAfter(mode: Mode, e: KeyEvent): (m: Mode)
    ensures e.keyCode == ALT ==> (m == ZoomOut <==> e.altKey)
    ensures e.keyCode != ALT ==> m == mode
  {
    if e.keyCode == ALT then (if e.altKey then ZoomOut else ZoomIn) else mode
  }

  /** The mode after a run of key events, in order. */
  function ModeAfterAll(mode: Mode, es: seq<KeyEvent>): Mode
    decreases |es|
  {
    if es == [] then mode else ModeAfter(ModeAfterAll(mode, es[..|es| - 1]), es[|es| - 1])
  }

  /** With no ALT event in the run, the mode is what it was. */
  lemma {:induction false} NoAltKeepsMode(mode: Mode, es: seq<KeyEvent>)
    requires forall i :: 0 <= i < |es| ==> es[i].keyCode != ALT
    ensures ModeAfterAll(mode, es) == mode
    decreases |es|
  {
    if es != [] {
      NoAltKeepsMode(mode, es[..|es| - 1]);
    }
  }

  /** After a run of key events, the last ALT event decides: zoom-out iff it had `altKey`. */
  lemma {:induction false} LastAltDecides(mode: Mode, es: seq<KeyEvent>, i: nat)
    requires i < |es| && es[i].keyCode == ALT
    requires forall j :: i < j < |es| ==> es[j].keyCode != ALT
    ensures ModeAfterAll(mode, es) == ZoomOut <==> es[i].altKey
    decreases |es|
  {
    if i < |es| - 1 {
      var init := es[..|es| - 1];
      assert init[i] == es[i];
      LastAltDecides(mode, init, i);
    }
  }

  /** The tool and its zoom layer's cursor. */
  class ZoomTool {
    var mode: Mode

    /** `handleActionInternal`: activating the tool shows the zoom-in cursor. */
    constructor ()
      ensures mode == ZoomIn
    {
      mode := ZoomIn;
    }

    /** `handleActionInternal` again on a live tool: back to zoom-in. */
    method Activate()
      modifies this`mode
      ensures mode == ZoomIn
    {
      mode := ZoomIn;
    }

    /** `setZoomMode_`, run on every key-down and key-up. */
    method SetZoomMode(e: KeyEvent)
      modifies this`mode
      ensures mode == ModeAfter(old(mode), e)
    {
      if e.keyCode == ALT {
        if e.altKey {
          mode := ZoomOut;
        } else {
          mode := ZoomIn;
        }
      }
    }

    /** `handleMouseDownAction_`: the zoom to ask the workspace for; the cursor is not changed. */
    method MouseDown(zoom: int, altKey: bool) returns (z: int)
      ensures z == ZoomStep(zoom, altKey)
    {
      if altKey {
        z := zoom - STEP;
      } else {
        z := zoom + STEP;
      }
    }
  }
}
