/**
 * Properties of the gesture controller's frame transition: what selection,
 * each handler and hand loss do, the pixel mapping of Cursor mode, the volume
 * percentage, and the latch invariant over any run of frames.
 */
module GestureProperties {
  import opened Numeric
  import opened Gesture

  // ---------------------------------------------------------------------------
  // Selection
  // ---------------------------------------------------------------------------

  /** In a latched state a new mode is only chosen from start-up or Neutral,
      with the latch clear; a set latch blocks selection entirely. */
  lemma SelectionOnlyFromNeutral(s: State, f: seq<Bit>)
    requires Latched(s)
    ensures s.active ==> Select(s, f) == s
    ensures Select(s, f) != s ==> !s.active && s.mode in {Blank, Neutral} && |f| == 5
  {
    if !s.active {
      assert s.mode != Scroll && s.mode != Volume && s.mode != Cursor;
    }
  }

  /** A newly selected mode acts in the frame that selects it. */
  lemma SelectedModeActsAtOnce(p: Platform, s: State, fr: Frame)
    requires ValidPlatform(p) && |fr.landmarks| >= 21 && !s.active
    ensures var f, r := Fingers(fr.landmarks), Transition(p, s, fr);
      && (f == [0, 0, 0, 0, 0] ==> r == StepResult(State(Neutral, false), NoAction))
      && (f == [0, 1, 0, 0, 0] ==> r == StepResult(State(Scroll, true), ScrollBy(300)))
      && (f == [0, 1, 1, 0, 0] ==> r == StepResult(State(Scroll, true), ScrollBy(-300)))
      && (f == [1, 1, 0, 0, 0] && p.isWindows ==>
            r.state == State(Volume, true) && r.action.SetVolume? &&
            r.action.level == Interp(fr.length, 50.0, 200.0, p.minVol, p.maxVol))
      && (f == [1, 1, 0, 0, 0] && !p.isWindows ==> r == StepResult(State(Volume, true), NoAction))
      && (f == [1, 1, 1, 1, 1] ==>
            r.state == State(Cursor, true) && r.action.MoveTo? && !r.action.click)
  {
  }

  // ---------------------------------------------------------------------------
  // Scroll mode
  // ---------------------------------------------------------------------------

  /** Scroll mode with a hand: up, down, release, or stay. */
  lemma ScrollFrame(p: Platform, s: State, fr: Frame)
    requires ValidPlatform(p) && |fr.landmarks| >= 21
    requires Select(s, Fingers(fr.landmarks)).mode == Scroll
    ensures var f, r := Fingers(fr.landmarks), Transition(p, s, fr);
      && (f == [0, 1, 0, 0, 0] ==> r == StepResult(State(Scroll, true), ScrollBy(300)))
      && (f == [0, 1, 1, 0, 0] ==> r == StepResult(State(Scroll, true), ScrollBy(-300)))
      && (f == [0, 0, 0, 0, 0] ==> r == StepResult(State(Neutral, false), NoAction))
      && (f !in {[0, 1, 0, 0, 0], [0, 1, 1, 0, 0], [0, 0, 0, 0, 0]} ==>
            r == StepResult(State(Scroll, true), NoAction))
  {
  }

  // ---------------------------------------------------------------------------
  // Volume mode
  // ---------------------------------------------------------------------------

  /** The percentage `volPer`, before `int(...)` turns it into the on-screen
      label, is the distance mapped straight onto [0, 100]: 0 up to 50 pixels,
      100 from 200 pixels on. */
  lemma VolumePercent(length: real, minVol: real, maxVol: real)
    requires minVol < maxVol
    ensures var per := Interp(Interp(length, HMin, HMax, minVol, maxVol), minVol, maxVol, 0.0, 100.0);
      && per == Interp(length, HMin, HMax, 0.0, 100.0)
      && (length <= 50.0 ==> per == 0.0)
      && (length >= 200.0 ==> per == 100.0)
      && 0.0 <= per <= 100.0
  {
    var vol := Interp(length, HMin, HMax, minVol, maxVol);
    if HMin < length < HMax {
      var d := maxVol - minVol;
      var t := (length - HMin) / (HMax - HMin);
      assert vol == minVol + t * d;
      assert vol - minVol == t * d;
      assert minVol < vol < maxVol by {
        assert 0.0 < t < 1.0;
        MulPos(t, d);
        MulPos(1.0 - t, d);
      }
      calc {
        Interp(vol, minVol, maxVol, 0.0, 100.0);
        0.0 + (vol - minVol) / d * (100.0 - 0.0);
        (t * d) / d * 100.0;
        { assert (t * d) / d == t; }
        t * 100.0;
        Interp(length, HMin, HMax, 0.0, 100.0);
      }
    }
  }

  /** Volume mode on Windows with a hand: the last entry (the pinky) releases,
      otherwise the distance sets the volume and its percentage. */
  lemma VolumeFrame(p: Platform, s: State, fr: Frame)
    requires ValidPlatform(p) && p.isWindows && |fr.landmarks| >= 21
    requires Select(s, Fingers(fr.landmarks)).mode == Volume
    ensures var f, r := Fingers(fr.landmarks), Transition(p, s, fr);
      && (f[|f| - 1] == 1 ==> r == StepResult(State(Neutral, false), NoAction))
      && (f[|f| - 1] == 0 ==>
            && r.state == State(Volume, true)
            && r.action.SetVolume?
            && r.action.level == Interp(fr.length, 50.0, 200.0, p.minVol, p.maxVol)
            && p.minVol <= r.action.level <= p.maxVol
            && r.action.percent == Interp(fr.length, 50.0, 200.0, 0.0, 100.0)
            && (fr.length <= 50.0 ==> r.action.percent == 0.0)
            && (fr.length >= 200.0 ==> r.action.percent == 100.0))
  {
    VolumePercent(fr.length, p.minVol, p.maxVol);
  }

  /** Without the audio API, an engaged Volume mode does nothing and never ends. */
  lemma VolumeStaysOffWindows(p: Platform, fr: Frame)
    requires ValidPlatform(p) && !p.isWindows && WellFormed(fr.landmarks)
    ensures Transition(p, State(Volume, true), fr) == StepResult(State(Volume, true), NoAction)
  {
  }

  /** ... and so no sequence of frames leaves it. */
  lemma {:induction false} VolumeStuckOffWindows(p: Platform, frames: seq<Frame>)
    requires ValidPlatform(p) && !p.isWindows && AllWellFormed(frames)
    ensures Run(p, State(Volume, true), frames) == State(Volume, true)
    decreases |frames|
  {
    if frames != [] {
      VolumeStaysOffWindows(p, frames[0]);
      assert AllWellFormed(frames[1..]) by {
        forall i | 0 <= i < |frames[1..]| ensures WellFormed(frames[1..][i].landmarks) {
          assert frames[1..][i] == frames[i + 1];
        }
      }
      VolumeStuckOffWindows(p, frames[1..]);
    }
  }

  // ---------------------------------------------------------------------------
  // Cursor mode
  // ---------------------------------------------------------------------------

  /** The screen coordinate of Cursor mode lies on the screen, is even, is
      the interpolated pixel or one less, and maps the rectangle's near edge to 0
      and its far edge to the last pixel, snapped to even. */
  lemma CursorCoordFacts(pos: int, lo: int, hi: int, size: int)
    requires lo < hi && size >= 1
    ensures var raw, c := Trunc(Interp(pos as real, lo as real, hi as real, 0.0, (size - 1) as real)),
                          CursorCoord(pos, lo, hi, size);
      && 0 <= raw <= size - 1
      && 0 <= c <= size - 1
      && c % 2 == 0
      && c <= raw <= c + 1
      && (pos <= lo ==> raw == 0 && c == 0)
      && (pos >= hi ==> raw == size - 1 && c == size - 1 - (size - 1) % 2)
  {
  }

  /** Moving the index tip right (or down) never moves the cursor left (or up). */
  lemma CursorCoordMonotone(pos1: int, pos2: int, lo: int, hi: int, size: int)
    requires lo < hi && size >= 1 && pos1 <= pos2
    ensures CursorCoord(pos1, lo, hi, size) <= CursorCoord(pos2, lo, hi, size)
  {
    InterpMonotone(pos1 as real, pos2 as real, lo as real, hi as real, 0.0, (size - 1) as real);
    TruncMonotone(Interp(pos1 as real, lo as real, hi as real, 0.0, (size - 1) as real),
                  Interp(pos2 as real, lo as real, hi as real, 0.0, (size - 1) as real));
  }

  /** Cursor mode with a hand: release exactly when every entry after the first
      is down, whatever the first is; otherwise move on screen, clicking exactly
      when the first entry is down. */
  lemma CursorFrame(p: Platform, s: State, fr: Frame)
    requires ValidPlatform(p) && |fr.landmarks| >= 21 && fr.screenW >= 1 && fr.screenH >= 1
    requires Select(s, Fingers(fr.landmarks)).mode == Cursor
    ensures var f, r := Fingers(fr.landmarks), Transition(p, s, fr);
      && (r.state.mode == Neutral <==> f[1..] == [0, 0, 0, 0])
      && (f[1..] == [0, 0, 0, 0] ==> r == StepResult(State(Neutral, false), NoAction))
      && (f[1..] != [0, 0, 0, 0] ==>
            && r.state == State(Cursor, true)
            && r.action.MoveTo?
            && r.action.x == CursorCoord(fr.landmarks[8].x, 110, 620, fr.screenW)
            && r.action.y == CursorCoord(fr.landmarks[8].y, 20, 350, fr.screenH)
            && 0 <= r.action.x < fr.screenW && r.action.x % 2 == 0
            && 0 <= r.action.y < fr.screenH && r.action.y % 2 == 0
            && (r.action.click <==> f[0] == 0))
  {
  }

  /** When the thumb's entry is skipped (thumb tip and pinky tip share their x),
      Cursor mode cannot be released: the slice after the first entry has only
      three entries; and the click follows the index finger, now the first entry. */
  lemma CursorWithoutThumbEntry(p: Platform, fr: Frame)
    requires ValidPlatform(p) && |fr.landmarks| >= 21
    requires fr.landmarks[4].x == fr.landmarks[20].x
    ensures var r := Transition(p, State(Cursor, true), fr);
      && r.state == State(Cursor, true)
      && r.action.MoveTo?
      && (r.action.click <==> fr.landmarks[8].y >= fr.landmarks[6].y)
  {
  }

  // ---------------------------------------------------------------------------
  // Hand loss, release, and the latch invariant
  // ---------------------------------------------------------------------------

  /** A frame without landmarks changes no mode and asks for nothing; in a
      latched state it changes nothing at all (Cursor mode is not released). */
  lemma HandLossPersists(p: Platform, s: State, fr: Frame)
    requires ValidPlatform(p) && |fr.landmarks| == 0
    ensures Transition(p, s, fr).state.mode == s.mode
    ensures Transition(p, s, fr).action == NoAction
    ensures Latched(s) ==> Transition(p, s, fr).state == s
  {
  }

  /** An engaged mode ends only through its own release pattern, seen in a
      frame with a hand, and always ends in Neutral with the latch clear. */
  lemma ReleaseOnlyByPattern(p: Platform, s: State, fr: Frame)
    requires ValidPlatform(p) && WellFormed(fr.landmarks) && Latched(s) && s.active
    ensures var r := Transition(p, s, fr);
      r.state != s ==>
        && r.state == State(Neutral, false)
        && |fr.landmarks| >= 21
        && var f := Fingers(fr.landmarks);
           || (s.mode == Scroll && f == [0, 0, 0, 0, 0])
           || (s.mode == Volume && p.isWindows && f[|f| - 1] == 1)
           || (s.mode == Cursor && f[1..] == [0, 0, 0, 0])
  {
  }

  /** From start-up, on either platform, every run of frames keeps the latch
      set exactly in Scroll, Volume and Cursor (by the contract of `Run`). */
  lemma ReachableStatesLatched(p: Platform, frames: seq<Frame>)
    requires ValidPlatform(p) && AllWellFormed(frames)
    ensures Latched(Run(p, Initial, frames))
  {
  }
}
