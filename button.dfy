/**
 * The on-screen button of both programs (Button.draw in main.py and in
 * level_editor.py): an edge-triggered latch on the left mouse button.
 */
module Buttons {
  import opened Geometry

  /** What one call of Button.draw yields: whether the button fired, and the new latch. */
  datatype Press = Press(action: bool, clicked: bool)

  /**
   * One frame of Button.draw: the button fires when the cursor is over it,
   * the left button is down and the latch is open; the latch closes on firing
   * and opens again only once the left button is up.
   */
  function DrawStep(clicked: bool, hover: bool, pressed: bool): (p: Press)
    ensures p.action <==> hover && pressed && !clicked
    ensures p.clicked <==> pressed && (clicked || hover)
  {
    var action := hover && pressed && !clicked;
    var clicked1 := if action then true else clicked;
    Press(action, if !pressed then false else clicked1)
  }

  /** The number of times the button fires over a run of frames, each a (hover, pressed) pair. */
  function Fires(clicked: bool, frames: seq<(bool, bool)>): nat
    decreases |frames|
  {
    if |frames| == 0 then 0
    else
      var p := DrawStep(clicked, frames[0].0, frames[0].1);
      (if p.action then 1 else 0) + Fires(p.clicked, frames[1..])
  }

  /** The latch after a run of frames. */
  function LatchAfter(clicked: bool, frames: seq<(bool, bool)>): bool
    decreases |frames|
  {
    if |frames| == 0 then clicked else LatchAfter(DrawStep(clicked, frames[0].0, frames[0].1).clicked, frames[1..])
  }

  /**
   * While the left button stays down the button fires at most once, and not at
   * all if the latch was already closed; once it has fired the latch stays
   * closed.
   */
  lemma {:induction false} OneFirePerPress(clicked: bool, frames: seq<(bool, bool)>)
    requires forall i :: 0 <= i < |frames| ==> frames[i].1
    ensures Fires(clicked, frames) <= 1
    ensures clicked ==> Fires(clicked, frames) == 0 && LatchAfter(clicked, frames)
    ensures Fires(clicked, frames) == 1 ==> LatchAfter(clicked, frames)
    decreases |frames|
  {
    if |frames| > 0 {
      var p := DrawStep(clicked, frames[0].0, frames[0].1);
      OneFirePerPress(p.clicked, frames[1..]);
    }
  }

  /** A release opens the latch, so the next press over the button fires again. */
  lemma ReleaseRearms(clicked: bool, hover: bool)
    ensures var released := DrawStep(clicked, hover, false);
      !released.action && !released.clicked && DrawStep(released.clicked, true, true).action
  {
  }

  /** Button: its rectangle and its latch. */
  class Button {
    const rect: Rect
    var clicked: bool

    constructor (rect: Rect)
      ensures this.rect == rect && !clicked
    {
      this.rect := rect;
      clicked := false;
    }

    /** Button.draw with the mouse position and the left button's state read this frame. */
    method Draw(pos: Pos, pressed: bool) returns (action: bool)
      modifies this`clicked
      ensures Press(action, clicked) == DrawStep(old(clicked), Contains(rect, pos), pressed)
    {
      action := false;
      if Contains(rect, pos) {
        if pressed && !clicked {
          action := true;
          clicked := true;
        }
      }
      if !pressed {
        clicked := false;
      }
    }
  }
}
