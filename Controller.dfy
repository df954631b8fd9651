/**
 * The gesture controller as the main loop runs it: an object holding the
 * loop-carried `mode` and `active` variables, whose `Step` performs one loop
 * iteration on one frame's landmarks and returns the desktop action it asks for.
 */
module GestureController {
  import opened Numeric
  import opened Gesture

  class Controller {
    /** Platform and volume range, fixed at start-up. */
    const platform: Platform
    var mode: Mode
    var active: bool

    ghost function Current(): State
      reads this
    {
      State(mode, active)
    }

    ghost predicate Valid()
      reads this
    {
      ValidPlatform(platform) && Latched(Current())
    }

    /** `mode = ''` and `active = 0` before the first frame. */
    constructor (platform: Platform)
      requires ValidPlatform(platform)
      ensures Valid()
      ensures this.platform == platform && Current() == Initial
    {
      this.platform := platform;
      mode := Blank;
      active := false;
    }

    /** One iteration of the main loop, with camera, drawing and actuation removed. */
    method Step(frame: Frame) returns (action: Action)
      requires Valid() && WellFormed(frame.landmarks)
      modifies this
      ensures Valid()
      ensures StepResult(Current(), action) == Transition(platform, old(Current()), frame)
    {
      var lm := frame.landmarks;
      var fingers: seq<Bit> := [];
      action := NoAction;
      if |lm| != 0 {
        fingers := FingerStates(lm);
        SelectMode(fingers);
      }
      if mode == Scroll {
        action := HandleScroll(|lm| != 0, fingers);
      }
      if mode == Volume && platform.isWindows {
        action := HandleVolume(|lm| != 0, fingers, frame.length);
      }
      if mode == Cursor {
        action := HandleCursor(lm, fingers, frame.screenW, frame.screenH);
      }
    }

    /** The selection chain; it changes nothing while the latch is set. */
    method SelectMode(fingers: seq<Bit>)
      modifies this
      ensures Current() == Select(old(Current()), fingers)
    {
      if fingers == [0, 0, 0, 0, 0] && !active {
        mode := Neutral;
      } else if (fingers == [0, 1, 0, 0, 0] || fingers == [0, 1, 1, 0, 0]) && !active {
        mode := Scroll;
        active := true;
      } else if fingers == [1, 1, 0, 0, 0] && !active {
        mode := Volume;
        active := true;
      } else if fingers == [1, 1, 1, 1, 1] && !active {
        mode := Cursor;
        active := true;
      }
    }

    /** The Scroll handler; `hand` says whether landmarks were found. */
    method HandleScroll(hand: bool, fingers: seq<Bit>) returns (action: Action)
      requires mode == Scroll
      modifies this
      ensures StepResult(Current(), action) == ScrollHandler(hand, fingers)
    {
      action := NoAction;
      active := true;
      if hand {
        if fingers == [0, 1, 0, 0, 0] {
          action := ScrollBy(ScrollAmount);
        }
        if fingers == [0, 1, 1, 0, 0] {
          action := ScrollBy(-ScrollAmount);
        } else if fingers == [0, 0, 0, 0, 0] {
          active := false;
          mode := Neutral;
        }
      }
    }

    /** The Volume handler, reached on Windows only. */
    method HandleVolume(hand: bool, fingers: seq<Bit>, length: real) returns (action: Action)
      requires mode == Volume && ValidPlatform(platform) && platform.isWindows
      requires hand ==> |fingers| > 0
      modifies this
      ensures StepResult(Current(), action) == VolumeHandler(platform, hand, fingers, length)
    {
      action := NoAction;
      active := true;
      if hand {
        if fingers[|fingers| - 1] == 1 {
          active := false;
          mode := Neutral;
        } else {
          var vol := Interp(length, HMin, HMax, platform.minVol, platform.maxVol);
          var volPer := Interp(vol, platform.minVol, platform.maxVol, 0.0, 100.0);
          action := SetVolume(vol, volPer);
        }
      }
    }

    /** The Cursor handler; its release check runs even without landmarks. */
    method HandleCursor(lm: seq<Landmark>, fingers: seq<Bit>, w: int, h: int) returns (action: Action)
      requires mode == Cursor && WellFormed(lm)
      requires |lm| > 0 ==> |fingers| > 0
      modifies this
      ensures StepResult(Current(), action) == CursorHandler(lm, fingers, w, h)
    {
      action := NoAction;
      active := true;
      if Rest(fingers) == [0, 0, 0, 0] {
        active := false;
        mode := Neutral;
      } else if |lm| != 0 {
        var x1, y1 := lm[8].x, lm[8].y;
        var x := Trunc(Interp(x1 as real, CursorLeft as real, CursorRight as real, 0.0, (w - 1) as real));
        var y := Trunc(Interp(y1 as real, CursorTop as real, CursorBottom as real, 0.0, (h - 1) as real));
        if x % 2 != 0 {
          x := x - x % 2;
        }
        if y % 2 != 0 {
          y := y - y % 2;
        }
        action := MoveTo(x, y, fingers[0] == 0);
      }
    }
  }
}
