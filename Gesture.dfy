/**
 * The per-frame gesture logic of the hand-gesture desktop controller, as pure
 * functions: the finger-state vector computed from the 21 hand landmarks, the
 * mode-selection latch, the Scroll, Volume and Cursor handlers, and the whole
 * frame transition that the controller object performs (Controller.dfy).
 *
 * Desktop actuation (scrolling, setting the master volume, moving the cursor,
 * clicking) is not performed; each frame yields an `Action` value instead.
 */
module Gesture {
  import opened Numeric

  /** The source stores finger states as the integers 0 and 1. */
  type Bit = b: int | b == 0 || b == 1

  /** One landmark as the landmark provider lists it: `[id, x, y]` in pixels. */
  datatype Landmark = Landmark(id: int, x: int, y: int)

  /** The mode string: `''` at start-up, `'N'`, `'Scroll'`, `'Volume'`, `'Cursor'`. */
  datatype Mode = Blank | Neutral | Scroll | Volume | Cursor

  /** The two loop-carried variables: `mode`, and the latch `active` (1 is `true`). */
  datatype State = State(mode: Mode, active: bool)

  /** What a frame asks of the desktop. */
  datatype Action =
    | NoAction
    | ScrollBy(amount: int)
      /** The master volume level in dB, and the percentage `volPer` before `int(...)`. */
    | SetVolume(level: real, percent: real)
      /** Move the cursor to (x, y), then click there when `click` holds. */
    | MoveTo(x: int, y: int, click: bool)

  /** Fixed at start-up: whether the audio API exists, and the volume range it reports. */
  datatype Platform = Platform(isWindows: bool, minVol: real, maxVol: real)

  /** One camera frame's inputs: the landmark list (empty when no hand is seen),
      the thumb-tip to index-tip distance in pixels, and the screen size. */
  datatype Frame = Frame(landmarks: seq<Landmark>, length: real, screenW: int, screenH: int)

  datatype StepResult = StepResult(state: State, action: Action)

  /** Landmark ids of the five finger tips: thumb, index, middle, ring, pinky. */
  const TipIds: seq<int> := [4, 8, 12, 16, 20]

  /** Thumb-to-index distances mapped onto the ends of the volume range. */
  const HMin: real := 50.0
  const HMax: real := 200.0

  const ScrollAmount: int := 300

  /** The camera-pixel rectangle mapped onto the whole screen in Cursor mode. */
  const CursorLeft: int := 110
  const CursorRight: int := 620
  const CursorTop: int := 20
  const CursorBottom: int := 350

  /** `mode = ''`, `active = 0` before the first frame. */
  const Initial: State := State(Blank, false)

  /** The landmark provider lists either no landmark or all 21 of one hand. */
  predicate WellFormed(lm: seq<Landmark>)
  {
    |lm| == 0 || |lm| >= 21
  }

  /** The volume range is only read, and only used, on Windows. */
  predicate ValidPlatform(p: Platform)
  {
    p.isWindows ==> p.minVol < p.maxVol
  }

  /** The latch invariant: the latch is set exactly in the three engaged modes. */
  predicate Latched(s: State)
  {
    s.active <==> s.mode in {Scroll, Volume, Cursor}
  }

  /** Python's `s[1:]`, which is empty for an empty list. */
  function Rest(s: seq<Bit>): (r: seq<Bit>)
    ensures |s| == 0 ==> r == []
    ensures |s| > 0 ==> [s[0]] + r == s
  {
    if |s| == 0 then [] else s[1..]
  }

  // ---------------------------------------------------------------------------
  // Finger-state vector
  // ---------------------------------------------------------------------------

  /** The thumb's entry, or none. The tip's x is first compared with the pinky
      tip's x (`tipIds[0 - 1]` is the last tip id), which tells which way the
      hand faces; when both are equal no entry is produced. */
  function ThumbEntry(lm: seq<Landmark>): (r: seq<Bit>)
    requires |lm| >= 21
    ensures |r| <= 1
    ensures |r| == 0 <==> lm[4].x == lm[20].x
    ensures lm[4].x > lm[20].x ==> (r == [1] <==> lm[4].x >= lm[3].x)
    ensures lm[4].x < lm[20].x ==> (r == [1] <==> lm[4].x <= lm[3].x)
  {
    var tip := lm[TipIds[0]].x;
    var pinkyTip := lm[TipIds[|TipIds| - 1]].x;
    var joint := lm[TipIds[0] - 1].x;
    if tip > pinkyTip then [if tip >= joint then 1 else 0]
    else if tip < pinkyTip then [if tip <= joint then 1 else 0]
    else []
  }

  /** Finger `id` (1 to 4) is up when its tip is above (smaller y than) the
      joint two landmarks below it. */
  function FingerUp(lm: seq<Landmark>, id: int): (r: Bit)
    requires |lm| >= 21 && 1 <= id < |TipIds|
    ensures r == 1 <==> lm[4 * id + 4].y < lm[4 * id + 2].y
  {
    if lm[TipIds[id]].y < lm[TipIds[id] - 2].y then 1 else 0
  }

  /** The finger-state vector of one hand. */
  function Fingers(lm: seq<Landmark>): (f: seq<Bit>)
    requires |lm| >= 21
    ensures |f| == if lm[4].x == lm[20].x then 4 else 5
    ensures |f| == 5 ==>
      (f[0] == 1 <==> (lm[4].x > lm[20].x && lm[4].x >= lm[3].x) || (lm[4].x < lm[20].x && lm[4].x <= lm[3].x))
    ensures f[|f| - 4] == 1 <==> lm[8].y < lm[6].y
    ensures f[|f| - 3] == 1 <==> lm[12].y < lm[10].y
    ensures f[|f| - 2] == 1 <==> lm[16].y < lm[14].y
    ensures f[|f| - 1] == 1 <==> lm[20].y < lm[18].y
  {
    ThumbEntry(lm) + [FingerUp(lm, 1), FingerUp(lm, 2), FingerUp(lm, 3), FingerUp(lm, 4)]
  }

  /** The finger-state loop as the source writes it: start from an empty list,
      append the thumb's entry if any, then one entry per other finger. */
  method FingerStates(lm: seq<Landmark>) returns (fingers: seq<Bit>)
    requires |lm| >= 21
    ensures fingers == Fingers(lm)
  {
    fingers := [];
    if lm[TipIds[0]].x > lm[TipIds[|TipIds| - 1]].x {
      if lm[TipIds[0]].x >= lm[TipIds[0] - 1].x {
        fingers := fingers + [1];
      } else {
        fingers := fingers + [0];
      }
    } else if lm[TipIds[0]].x < lm[TipIds[|TipIds| - 1]].x {
      if lm[TipIds[0]].x <= lm[TipIds[0] - 1].x {
        fingers := fingers + [1];
      } else {
        fingers := fingers + [0];
      }
    }
    ghost var thumb := fingers;
    for id := 1 to 5
      invariant |fingers| == |thumb| + id - 1
      invariant fingers[..|thumb|] == thumb
      invariant forall k :: 1 <= k < id ==> fingers[|thumb| + k - 1] == FingerUp(lm, k)
    {
      if lm[TipIds[id]].y < lm[TipIds[id] - 2].y {
        fingers := fingers + [1];
      } else {
        fingers := fingers + [0];
      }
    }
    assert fingers == thumb + [FingerUp(lm, 1), FingerUp(lm, 2), FingerUp(lm, 3), FingerUp(lm, 4)];
  }

  // ---------------------------------------------------------------------------
  // Mode selection
  // ---------------------------------------------------------------------------

  /** The trigger patterns and the state each one selects. */
  const Triggers: map<seq<Bit>, State> := map[
    [0, 0, 0, 0, 0] := State(Neutral, false),
    [0, 1, 0, 0, 0] := State(Scroll, true),
    [0, 1, 1, 0, 0] := State(Scroll, true),
    [1, 1, 0, 0, 0] := State(Volume, true),
    [1, 1, 1, 1, 1] := State(Cursor, true)
  ]

  /** The selection chain, run on every frame with a hand: only while the latch
      is clear, and only for a trigger pattern. */
  function Select(s: State, f: seq<Bit>): (r: State)
    ensures r == if !s.active && f in Triggers then Triggers[f] else s
    ensures |f| != 5 ==> r == s
  {
    if f == [0, 0, 0, 0, 0] && !s.active then State(Neutral, s.active)
    else if (f == [0, 1, 0, 0, 0] || f == [0, 1, 1, 0, 0]) && !s.active then State(Scroll, true)
    else if f == [1, 1, 0, 0, 0] && !s.active then State(Volume, true)
    else if f == [1, 1, 1, 1, 1] && !s.active then State(Cursor, true)
    else s
  }

  // ---------------------------------------------------------------------------
  // Mode handlers
  // ---------------------------------------------------------------------------

  /** Scroll mode: up for the index finger alone, down for index and middle,
      back to neutral for a closed hand. */
  function ScrollHandler(hand: bool, f: seq<Bit>): (r: StepResult)
    ensures Latched(r.state) && r.state.mode in {Scroll, Neutral}
    ensures r.action == NoAction || (r.action.ScrollBy? && r.state.mode == Scroll)
    ensures r.state.mode == Neutral <==> hand && f == [0, 0, 0, 0, 0]
  {
    if !hand then StepResult(State(Scroll, true), NoAction)
    else if f == [0, 1, 0, 0, 0] then StepResult(State(Scroll, true), ScrollBy(ScrollAmount))
    else if f == [0, 1, 1, 0, 0] then StepResult(State(Scroll, true), ScrollBy(-ScrollAmount))
    else if f == [0, 0, 0, 0, 0] then StepResult(State(Neutral, false), NoAction)
    else StepResult(State(Scroll, true), NoAction)
  }

  /** Volume mode (Windows only): release when the last finger entry is up,
      otherwise map the thumb-to-index distance onto the volume range. */
  function VolumeHandler(p: Platform, hand: bool, f: seq<Bit>, length: real): (r: StepResult)
    requires ValidPlatform(p) && p.isWindows
    requires hand ==> |f| > 0
    ensures Latched(r.state) && r.state.mode in {Volume, Neutral}
    ensures r.action == NoAction || (r.action.SetVolume? && r.state.mode == Volume)
    ensures r.state.mode == Neutral <==> hand && f[|f| - 1] == 1
  {
    if !hand then StepResult(State(Volume, true), NoAction)
    else if f[|f| - 1] == 1 then StepResult(State(Neutral, false), NoAction)
    else
      var vol := Interp(length, HMin, HMax, p.minVol, p.maxVol);
      var volPer := Interp(vol, p.minVol, p.maxVol, 0.0, 100.0);
      StepResult(State(Volume, true), SetVolume(vol, volPer))
  }

  /** The even-snapping step: an odd coordinate moves one pixel down. */
  function Snap(n: int): (r: int)
    ensures r % 2 == 0
    ensures r <= n <= r + 1
  {
    if n % 2 != 0 then n - n % 2 else n
  }

  /** One screen coordinate in Cursor mode: camera pixel `pos` interpolated from
      [lo, hi] onto [0, size - 1], converted with `int(...)`, then snapped. */
  function CursorCoord(pos: int, lo: int, hi: int, size: int): (c: int)
    requires lo < hi
    ensures c % 2 == 0
    ensures size >= 1 ==> 0 <= c <= size - 1
    ensures pos <= lo ==> c == 0
  {
    Snap(Trunc(Interp(pos as real, lo as real, hi as real, 0.0, (size - 1) as real)))
  }

  /** Cursor mode: release when every finger but the first entry is down
      (this check runs with or without a hand), otherwise move the cursor to
      the index tip's mapped position and click when the first entry is down. */
  function CursorHandler(lm: seq<Landmark>, f: seq<Bit>, w: int, h: int): (r: StepResult)
    requires WellFormed(lm)
    requires |lm| > 0 ==> |f| > 0
    ensures Latched(r.state) && r.state.mode in {Cursor, Neutral}
    ensures r.action == NoAction || (r.action.MoveTo? && r.state.mode == Cursor)
    ensures r.state.mode == Neutral <==> Rest(f) == [0, 0, 0, 0]
  {
    if Rest(f) == [0, 0, 0, 0] then StepResult(State(Neutral, false), NoAction)
    else if |lm| == 0 then StepResult(State(Cursor, true), NoAction)
    else
      var x := CursorCoord(lm[8].x, CursorLeft, CursorRight, w);
      var y := CursorCoord(lm[8].y, CursorTop, CursorBottom, h);
      StepResult(State(Cursor, true), MoveTo(x, y, f[0] == 0))
  }

  // ---------------------------------------------------------------------------
  // One frame, and a run of frames
  // ---------------------------------------------------------------------------

  /** One iteration of the main loop: finger states and selection when a hand is
      seen, then the Scroll, Volume and Cursor handlers in that order, each on
      the mode the previous steps left. */
  function Transition(p: Platform, s: State, fr: Frame): (r: StepResult)
    requires ValidPlatform(p) && WellFormed(fr.landmarks)
    ensures Latched(s) ==> Latched(r.state)
    ensures r.action.ScrollBy? ==> r.state.mode == Scroll
    ensures r.action.SetVolume? ==> r.state.mode == Volume && p.isWindows
    ensures r.action.MoveTo? ==> r.state.mode == Cursor
  {
    var hand := |fr.landmarks| != 0;
    var f := if hand then Fingers(fr.landmarks) else [];
    var selected := if hand then Select(s, f) else s;
    var afterScroll :=
      if selected.mode == Scroll then ScrollHandler(hand, f) else StepResult(selected, NoAction);
    var afterVolume :=
      if afterScroll.state.mode == Volume && p.isWindows then VolumeHandler(p, hand, f, fr.length)
      else afterScroll;
    if afterVolume.state.mode == Cursor then CursorHandler(fr.landmarks, f, fr.screenW, fr.screenH)
    else afterVolume
  }

  predicate AllWellFormed(frames: seq<Frame>)
  {
    forall i :: 0 <= i < |frames| ==> WellFormed(frames[i].landmarks)
  }

  /** The state after a sequence of frames; each frame keeps the latch
      invariant, so the whole run does. */
  function Run(p: Platform, s: State, frames: seq<Frame>): (r: State)
    requires ValidPlatform(p) && AllWellFormed(frames)
    ensures Latched(s) ==> Latched(r)
    decreases |frames|
  {
    if frames == [] then s
    else Run(p, Transition(p, s, frames[0]).state, frames[1..])
  }
}
