/** The per-asset capture sequence of both scripts, as the trace of browser
    and recorder calls it issues. The calls themselves are foreign; only their
    order and arguments are modelled. */
module Session {
  import opened Common
  import opened JsNumber
  import opened Batch
  import JsString
  import Progress

  /** The readiness marker both scripts wait for. */
  const Marker: string := "model-viewer"
  /** Fixed pause between the settle sweep and the start of recording, in ms. */
  const SettleDelay: real := 500.0
  /** Budget divided by the frame rate to get the pause after each step, in ms. */
  const StepBudget: int := 500
  const FullTurn: real := 360.0

  datatype Event =
    | Navigate(url: string)
    | SetViewport(width: int, height: int, scale: real)
    | WaitForSelector(selector: string)
    | CreateRecorder(fps: int)
    | TransparentBackground
    | ResetTurntable(angle: int)
      /** `camera-orbit` set to `<degrees>deg 80deg 0`. */
    | SetOrbit(degrees: real)
    | Pause(ms: Num)
    | ProgressBar(current: int, total: int)
    | StartRecording(path: string)
    | StopRecording
    | CountProcessed
    | WriteNewline
    | CloseBrowser
    | ExitAfter(delay: int)

  /** How often a loop counting from 0 while below `frames` runs. */
  function Iterations(frames: int): nat
  {
    if frames > 0 then frames else 0
  }

  /** The angle of step `i`: `i` times the increment of a full turn over `frames`. */
  function Angle(i: nat, frames: int): real
    requires frames > 0
  {
    i as real * (FullTurn / frames as real)
  }

  /** The angles a sweep visits, in order. */
  function Angles(frames: int): seq<real>
  {
    seq(Iterations(frames), i requires 0 <= i < Iterations(frames) => Angle(i, frames))
  }

  /** One loop iteration: set the orbit, pause `500 / fps` ms, and in the
      single-asset settle sweep report progress `i + 1` of `frames`. */
  function Step(i: nat, frames: int, fps: int, progress: bool): seq<Event>
    requires i < frames
  {
    [SetOrbit(Angle(i, frames)), Pause(Divide(StepBudget, fps))] +
    (if progress then [ProgressBar(i + 1, frames)] else [])
  }

  /** The first `k` iterations of a sweep. */
  function Sweep(k: nat, frames: int, fps: int, progress: bool): seq<Event>
    requires k <= Iterations(frames)
  {
    if k == 0 then [] else Sweep(k - 1, frames, fps, progress) + Step(k - 1, frames, fps, progress)
  }

  /** From the reset to the stop: settle sweep, stabilisation delay, start,
      record sweep without progress output, stop. */
  function Capture(frames: int, fps: int, path: string, progress: bool): seq<Event>
  {
    Settling(frames, fps, progress) + [StartRecording(path)] + Recording(frames, fps)
  }

  /** Reset to angle 0, the settle sweep, then the stabilisation delay. */
  function Settling(frames: int, fps: int, progress: bool): seq<Event>
  {
    [ResetTurntable(0)] + Sweep(Iterations(frames), frames, fps, progress) + [Pause(Finite(SettleDelay))]
  }

  /** The record sweep, without progress output, then the stop. */
  function Recording(frames: int, fps: int): seq<Event>
  {
    Sweep(Iterations(frames), frames, fps, false) + [StopRecording]
  }

  /** Page preparation: navigate, size the viewport, wait for the marker,
      create the recorder, make the background transparent. */
  function Setup(url: string, width: int, height: int, scale: real, fps: int): seq<Event>
  {
    [Navigate(url), SetViewport(width, height, scale), WaitForSelector(Marker),
     CreateRecorder(fps), TransparentBackground]
  }

  /** One batch task (record_animation.js): fixed 480x360 viewport, the video
      goes to the task's output path, and the completion counter is bumped. */
  function TaskTrace(task: Task, frames: int, fps: int, scale: real): seq<Event>
  {
    Setup(task.url, 480, 360, scale, fps) + Capture(frames, fps, task.outputPath, false) + [CountProcessed]
  }

  /** The single-asset script (record_animation2.js): the viewport comes from
      the page, progress is printed while settling, the video goes to the
      output argument verbatim, then a newline, the browser closes, and the
      process exits 500 ms later. */
  function SingleTrace(url: string, output: string, frames: int, fps: int,
                       width: int, height: int, scale: real): seq<Event>
  {
    Setup(url, width, height, scale, fps) + Capture(frames, fps, output, true) +
    [WriteNewline, CloseBrowser, ExitAfter(500)]
  }

  /** Tasks run one after another, as with one worker. */
  function SequentialRun(tasks: seq<Task>, frames: int, fps: int, scale: real): seq<Event>
  {
    if |tasks| == 0 then []
    else TaskTrace(tasks[0], frames, fps, scale) + SequentialRun(tasks[1..], frames, fps, scale)
  }

  // Projections of a trace.

  function Select<T>(t: seq<Event>, f: Event -> Option<T>): seq<T>
  {
    if |t| == 0 then []
    else (match f(t[0]) case Some(x) => [x] case None => []) + Select(t[1..], f)
  }

  lemma {:induction false} SelectAppend<T>(a: seq<Event>, b: seq<Event>, f: Event -> Option<T>)
    ensures Select(a + b, f) == Select(a, f) + Select(b, f)
    decreases |a|
  {
    if |a| == 0 {
      assert a + b == b;
    } else {
      assert (a + b)[1..] == a[1..] + b;
      SelectAppend(a[1..], b, f);
    }
  }

  function OrbitOf(e: Event): Option<real> {
    if e.SetOrbit? then Some(e.degrees) else None
  }

  function StartOf(e: Event): Option<string> {
    if e.StartRecording? then Some(e.path) else None
  }

  function StopOf(e: Event): Option<Event> {
    if e.StopRecording? then Some(e) else None
  }

  function ResetOf(e: Event): Option<int> {
    if e.ResetTurntable? then Some(e.angle) else None
  }

  function ProgressOf(e: Event): Option<(int, int)> {
    if e.ProgressBar? then Some((e.current, e.total)) else None
  }

  function CompletionOf(e: Event): Option<Event> {
    if e.CountProcessed? then Some(e) else None
  }

  /** The orbit angles a trace sets, in order. */
  function Orbits(t: seq<Event>): seq<real> { Select(t, OrbitOf) }
  /** The paths recording is started on, in order. */
  function Starts(t: seq<Event>): seq<string> { Select(t, StartOf) }
  function Stops(t: seq<Event>): seq<Event> { Select(t, StopOf) }
  function Resets(t: seq<Event>): seq<int> { Select(t, ResetOf) }
  /** The arguments of the progress-bar calls, in order. */
  function ProgressCalls(t: seq<Event>): seq<(int, int)> { Select(t, ProgressOf) }
  function Completions(t: seq<Event>): seq<Event> { Select(t, CompletionOf) }

  /** The arguments of `progressBar(i + 1, frames)` over the first `k` steps. */
  function ProgressArgs(k: nat, frames: int): seq<(int, int)>
  {
    seq(k, i => (i + 1, frames))
  }

  /** Each angle is the previous one plus `360 / frames`. */
  lemma AngleNext(i: nat, frames: int)
    requires frames > 0
    ensures Angle(i + 1, frames) == Angle(i, frames) + FullTurn / frames as real
  {
    var inc := FullTurn / frames as real;
    assert (i + 1) as real * inc == i as real * inc + 1.0 * inc;
  }

  /** The angles of a sweep lie in [0, 360) and grow strictly. */
  lemma AngleRange(i: nat, j: nat, frames: int)
    requires i < j <= frames
    ensures 0.0 <= Angle(i, frames) < Angle(j, frames) <= FullTurn
  {
    var inc := FullTurn / frames as real;
    assert inc > 0.0;
    assert Angle(j, frames) - Angle(i, frames) == (j - i) as real * inc;
    assert (j - i) as real * inc >= 1.0 * inc;
    assert Angle(frames, frames) == FullTurn;
    assert Angle(frames, frames) - Angle(j, frames) == (frames - j) as real * inc;
  }

  /** A sweep of `frames` orbit updates visits `0, 360/frames, ...`: the
      angles start at 0, rise by exactly `360 / frames` each step, stay below
      360, and the next step after the last would complete the full turn. */
  lemma AnglesSweepCircle(frames: int)
    requires frames > 0
    ensures var a := Angles(frames);
            |a| == frames && a[0] == 0.0 &&
            (forall i :: 0 <= i < |a| ==> 0.0 <= a[i] < FullTurn) &&
            (forall i, j :: 0 <= i < j < |a| ==> a[i] < a[j]) &&
            (forall i :: 0 <= i < |a| - 1 ==> a[i + 1] - a[i] == FullTurn / frames as real) &&
            a[|a| - 1] + FullTurn / frames as real == FullTurn
  {
    var a := Angles(frames);
    forall i | 0 <= i < |a|
      ensures 0.0 <= a[i] < FullTurn
    {
      AngleRange(i, frames, frames);
    }
    forall i, j | 0 <= i < j < |a|
      ensures a[i] < a[j]
    {
      AngleRange(i, j, frames);
    }
    forall i | 0 <= i < |a| - 1
      ensures a[i + 1] - a[i] == FullTurn / frames as real
    {
      AngleNext(i, frames);
    }
    AngleNext(frames - 1, frames);
    AngleRange(0, frames, frames);
  }

  /** Four frames visit the quarter turns. */
  lemma AnglesOfFour()
    ensures Angles(4) == [0.0, 90.0, 180.0, 270.0]
  {
  }

  lemma SelectSingle<T>(e: Event, f: Event -> Option<T>)
    ensures Select([e], f) == match f(e) case Some(x) => [x] case None => []
  {
    assert [e][1..] == [];
  }

  lemma Select3<T>(a: seq<Event>, b: seq<Event>, c: seq<Event>, f: Event -> Option<T>)
    ensures Select(a + b + c, f) == Select(a, f) + Select(b, f) + Select(c, f)
  {
    SelectAppend(a + b, c, f);
    SelectAppend(a, b, f);
  }

  /** The six projections of a one-event trace. */
  lemma SingleSelects(e: Event)
    ensures Orbits([e]) == (if e.SetOrbit? then [e.degrees] else [])
    ensures ProgressCalls([e]) == (if e.ProgressBar? then [(e.current, e.total)] else [])
    ensures Starts([e]) == (if e.StartRecording? then [e.path] else [])
    ensures Stops([e]) == (if e.StopRecording? then [e] else [])
    ensures Resets([e]) == (if e.ResetTurntable? then [e.angle] else [])
    ensures Completions([e]) == (if e.CountProcessed? then [e] else [])
  {
    SelectSingle(e, OrbitOf);
    SelectSingle(e, ProgressOf);
    SelectSingle(e, StartOf);
    SelectSingle(e, StopOf);
    SelectSingle(e, ResetOf);
    SelectSingle(e, CompletionOf);
  }

  /** The projections of three consecutive pieces of a trace. */
  lemma Projections3(a: seq<Event>, b: seq<Event>, c: seq<Event>)
    ensures Orbits(a + b + c) == Orbits(a) + Orbits(b) + Orbits(c)
    ensures ProgressCalls(a + b + c) == ProgressCalls(a) + ProgressCalls(b) + ProgressCalls(c)
    ensures Starts(a + b + c) == Starts(a) + Starts(b) + Starts(c)
    ensures Stops(a + b + c) == Stops(a) + Stops(b) + Stops(c)
    ensures Resets(a + b + c) == Resets(a) + Resets(b) + Resets(c)
    ensures Completions(a + b + c) == Completions(a) + Completions(b) + Completions(c)
  {
    Select3(a, b, c, OrbitOf);
    Select3(a, b, c, ProgressOf);
    Select3(a, b, c, StartOf);
    Select3(a, b, c, StopOf);
    Select3(a, b, c, ResetOf);
    Select3(a, b, c, CompletionOf);
  }

  /** One step sets one angle, reports its progress when shown, and nothing
      else. */
  lemma StepProjections(i: nat, frames: int, fps: int, progress: bool)
    requires i < frames
    ensures var s := Step(i, frames, fps, progress);
            Orbits(s) == [Angle(i, frames)] &&
            ProgressCalls(s) == (if progress then [(i + 1, frames)] else []) &&
            Starts(s) == [] && Stops(s) == [] && Resets(s) == [] && Completions(s) == []
  {
    if progress {
      OrbitPauseThen(Angle(i, frames), Divide(StepBudget, fps), [ProgressBar(i + 1, frames)]);
      SingleSelects(ProgressBar(i + 1, frames));
    } else {
      OrbitPauseThen(Angle(i, frames), Divide(StepBudget, fps), []);
    }
  }

  /** An orbit update and a pause, followed by other events. */
  lemma OrbitPauseThen(d: real, m: Num, rest: seq<Event>)
    ensures var s := [SetOrbit(d), Pause(m)] + rest;
            Orbits(s) == [d] + Orbits(rest) && ProgressCalls(s) == ProgressCalls(rest) &&
            Starts(s) == Starts(rest) && Stops(s) == Stops(rest) &&
            Resets(s) == Resets(rest) && Completions(s) == Completions(rest)
  {
    assert [SetOrbit(d), Pause(m)] + rest == [SetOrbit(d)] + [Pause(m)] + rest;
    Projections3([SetOrbit(d)], [Pause(m)], rest);
    SingleSelects(SetOrbit(d));
    SingleSelects(Pause(m));
  }

  /** The projections of a sweep extended by one step. */
  lemma SweepNext(k: nat, frames: int, fps: int, progress: bool)
    requires k < Iterations(frames)
    ensures var s := Sweep(k, frames, fps, progress);
            var s' := Sweep(k + 1, frames, fps, progress);
            Orbits(s') == Orbits(s) + [Angle(k, frames)] &&
            ProgressCalls(s') == ProgressCalls(s) + (if progress then [(k + 1, frames)] else []) &&
            Starts(s') == Starts(s) && Stops(s') == Stops(s) &&
            Resets(s') == Resets(s) && Completions(s') == Completions(s)
  {
    var s := Sweep(k, frames, fps, progress);
    var step := Step(k, frames, fps, progress);
    assert Sweep(k + 1, frames, fps, progress) == s + step + [];
    Projections3(s, step, []);
    StepProjections(k, frames, fps, progress);
  }

  /** A sweep of `k` steps sets the first `k` angles in order, calls the
      progress bar with `1..k` of `frames` exactly when progress is shown,
      and neither resets, records nor completes anything. */
  lemma {:induction false} SweepProjections(k: nat, frames: int, fps: int, progress: bool)
    requires k <= Iterations(frames)
    ensures var s := Sweep(k, frames, fps, progress);
            Orbits(s) == Angles(frames)[..k] &&
            ProgressCalls(s) == (if progress then ProgressArgs(k, frames) else []) &&
            Starts(s) == [] && Stops(s) == [] && Resets(s) == [] && Completions(s) == []
    decreases k
  {
    if k > 0 {
      SweepProjections(k - 1, frames, fps, progress);
      SweepNext(k - 1, frames, fps, progress);
      TakeOneMore(Angles(frames), k);
      assert ProgressArgs(k, frames) == ProgressArgs(k - 1, frames) + [(k, frames)];
    }
  }

  lemma TakeOneMore<T>(s: seq<T>, k: nat)
    requires 0 < k <= |s|
    ensures s[..k] == s[..k - 1] + [s[k - 1]]
  {
  }

  /** The shape of a sweep of `k` steps with progress shown: exactly `3 * k`
      events; step `i` is the orbit update to angle `i` at `3 * i`, then the
      `500 / fps` ms pause, then the progress call `i + 1` of `frames`. Every
      slot is pinned, so a step issues nothing else. */
  lemma {:induction false} SweepShapeShown(k: nat, frames: int, fps: int)
    requires k <= Iterations(frames)
    ensures var s := Sweep(k, frames, fps, true);
            |s| == 3 * k &&
            forall i {:trigger Angle(i, frames)} :: 0 <= i < k ==>
              s[3 * i] == SetOrbit(Angle(i, frames)) &&
              s[3 * i + 1] == Pause(Divide(StepBudget, fps)) &&
              s[3 * i + 2] == ProgressBar(i + 1, frames)
    decreases k
  {
    if k > 0 {
      var prev := Sweep(k - 1, frames, fps, true);
      var s := prev + Step(k - 1, frames, fps, true);
      SweepShapeShown(k - 1, frames, fps);
      assert Sweep(k, frames, fps, true) == s;
      forall i | 0 <= i < k
        ensures s[3 * i] == SetOrbit(Angle(i, frames)) &&
                s[3 * i + 1] == Pause(Divide(StepBudget, fps)) &&
                s[3 * i + 2] == ProgressBar(i + 1, frames)
      {
      }
    }
  }

  /** The shape of a sweep of `k` steps without progress: exactly `2 * k`
      events; step `i` is the orbit update to angle `i` at `2 * i`, then the
      `500 / fps` ms pause, and nothing else. */
  lemma {:induction false} SweepShapeQuiet(k: nat, frames: int, fps: int)
    requires k <= Iterations(frames)
    ensures var s := Sweep(k, frames, fps, false);
            |s| == 2 * k &&
            forall i {:trigger Angle(i, frames)} :: 0 <= i < k ==>
              s[2 * i] == SetOrbit(Angle(i, frames)) &&
              s[2 * i + 1] == Pause(Divide(StepBudget, fps))
    decreases k
  {
    if k > 0 {
      var prev := Sweep(k - 1, frames, fps, false);
      var s := prev + Step(k - 1, frames, fps, false);
      SweepShapeQuiet(k - 1, frames, fps);
      assert Sweep(k, frames, fps, false) == s;
      forall i | 0 <= i < k
        ensures s[2 * i] == SetOrbit(Angle(i, frames)) &&
                s[2 * i + 1] == Pause(Divide(StepBudget, fps))
      {
      }
    }
  }

  /** What the settling phase does: one reset to 0, every sweep angle in
      order, the progress calls `1..frames` of `frames` when shown, and no
      recording. */
  lemma SettlingProjections(frames: int, fps: int, progress: bool)
    ensures var s := Settling(frames, fps, progress);
            Orbits(s) == Angles(frames) && Resets(s) == [0] &&
            ProgressCalls(s) == (if progress then ProgressArgs(Iterations(frames), frames) else []) &&
            Starts(s) == [] && Stops(s) == [] && Completions(s) == []
  {
    var n := Iterations(frames);
    SweepProjections(n, frames, fps, progress);
    assert Angles(frames)[..n] == Angles(frames);
    ResetThenPause(Sweep(n, frames, fps, progress), Finite(SettleDelay));
  }

  /** A reset, some events, then a pause. */
  lemma ResetThenPause(mid: seq<Event>, m: Num)
    ensures var s := [ResetTurntable(0)] + mid + [Pause(m)];
            Orbits(s) == Orbits(mid) && Resets(s) == [0] + Resets(mid) &&
            ProgressCalls(s) == ProgressCalls(mid) && Starts(s) == Starts(mid) &&
            Stops(s) == Stops(mid) && Completions(s) == Completions(mid)
  {
    Projections3([ResetTurntable(0)], mid, [Pause(m)]);
    SingleSelects(ResetTurntable(0));
    SingleSelects(Pause(m));
  }

  /** What the recording phase does: every sweep angle in order, one stop,
      and no reset, progress call or further start. */
  lemma RecordingProjections(frames: int, fps: int)
    ensures var r := Recording(frames, fps);
            Orbits(r) == Angles(frames) && Resets(r) == [] && ProgressCalls(r) == [] &&
            Starts(r) == [] && Stops(r) == [StopRecording] && Completions(r) == []
  {
    var n := Iterations(frames);
    SweepProjections(n, frames, fps, false);
    assert Angles(frames)[..n] == Angles(frames);
    ThenOne(Sweep(n, frames, fps, false), StopRecording);
  }

  /** Some events followed by one more. */
  lemma ThenOne(s: seq<Event>, e: Event)
    ensures Orbits(s + [e]) == Orbits(s) + Orbits([e])
    ensures ProgressCalls(s + [e]) == ProgressCalls(s) + ProgressCalls([e])
    ensures Starts(s + [e]) == Starts(s) + Starts([e])
    ensures Stops(s + [e]) == Stops(s) + Stops([e])
    ensures Resets(s + [e]) == Resets(s) + Resets([e])
    ensures Completions(s + [e]) == Completions(s) + Completions([e])
    ensures Orbits([e]) == (if e.SetOrbit? then [e.degrees] else [])
    ensures ProgressCalls([e]) == (if e.ProgressBar? then [(e.current, e.total)] else [])
    ensures Starts([e]) == (if e.StartRecording? then [e.path] else [])
    ensures Stops([e]) == (if e.StopRecording? then [e] else [])
    ensures Resets([e]) == (if e.ResetTurntable? then [e.angle] else [])
    ensures Completions([e]) == (if e.CountProcessed? then [e] else [])
  {
    assert s + [e] == s + [e] + [];
    Projections3(s, [e], []);
    SingleSelects(e);
  }

  /** The order of a capture, with `s` the position of the start of
      recording: the reset comes first, then exactly the settle sweep, the
      500 ms stabilisation pause right before the start on the given path,
      exactly the record sweep without progress, and the stop last. */
  lemma CaptureOrder(frames: int, fps: int, path: string, progress: bool) returns (s: nat)
    ensures s == |Settling(frames, fps, progress)|
    ensures var c := Capture(frames, fps, path, progress);
            var n := Iterations(frames);
            1 < s < |c| - 1 &&
            c[0] == ResetTurntable(0) && c[1..s - 1] == Sweep(n, frames, fps, progress) &&
            c[s - 1] == Pause(Finite(SettleDelay)) && c[s] == StartRecording(path) &&
            c[s + 1..|c| - 1] == Sweep(n, frames, fps, false) && c[|c| - 1] == StopRecording
  {
    var n := Iterations(frames);
    var settle := Sweep(n, frames, fps, progress);
    s := |settle| + 2;
    CaptureParts(ResetTurntable(0), settle, Pause(Finite(SettleDelay)), StartRecording(path),
                 Sweep(n, frames, fps, false), StopRecording);
  }

  /** Where the parts of a capture-shaped sequence lie: one element, a
      block, two elements, a block and a last element. */
  lemma CaptureParts<T>(first: T, a: seq<T>, before: T, mid: T, b: seq<T>, last: T)
    ensures var c := [first] + a + [before] + [mid] + (b + [last]);
            var s := |a| + 2;
            s < |c| - 1 &&
            c[0] == first && c[1..s - 1] == a && c[s - 1] == before && c[s] == mid &&
            c[s + 1..|c| - 1] == b && c[|c| - 1] == last
  {
    var c := [first] + a + [before] + [mid] + (b + [last]);
    var s := |a| + 2;
    assert c[1..s - 1] == a;
    assert c[s + 1..|c| - 1] == b;
  }

  /** Before the start of recording lie exactly the settle angles and, when
      shown, all progress calls; after it lie exactly the same angles again
      and no progress call. */
  lemma CaptureSlices(frames: int, fps: int, path: string, progress: bool)
    ensures var c := Capture(frames, fps, path, progress);
            var s := |Settling(frames, fps, progress)|;
            s < |c| &&
            Orbits(c[..s]) == Angles(frames) && Orbits(c[s + 1..]) == Angles(frames) &&
            ProgressCalls(c[..s]) == (if progress then ProgressArgs(Iterations(frames), frames) else []) &&
            ProgressCalls(c[s..]) == []
  {
    var pre := Settling(frames, fps, progress);
    var post := Recording(frames, fps);
    var c := Capture(frames, fps, path, progress);
    var s := |pre|;
    assert c[..s] == pre;
    assert c[s + 1..] == post;
    SettlingProjections(frames, fps, progress);
    RecordingProjections(frames, fps);
    assert ProgressCalls(c[s..]) == [] by {
      assert c[s..] == [] + [StartRecording(path)] + post;
      Projections3([], [StartRecording(path)], post);
      SingleSelects(StartRecording(path));
    }
  }

  /** A capture starts and stops recording once each, on the given path,
      resets the turntable once, sets every angle twice and completes
      nothing by itself. */
  lemma CaptureOnce(frames: int, fps: int, path: string, progress: bool)
    ensures var c := Capture(frames, fps, path, progress);
            Starts(c) == [path] && Stops(c) == [StopRecording] && Resets(c) == [0] &&
            Completions(c) == [] &&
            ProgressCalls(c) == (if progress then ProgressArgs(Iterations(frames), frames) else []) &&
            Orbits(c) == Angles(frames) + Angles(frames)
  {
    var pre := Settling(frames, fps, progress);
    var post := Recording(frames, fps);
    SettlingProjections(frames, fps, progress);
    RecordingProjections(frames, fps);
    JoinAtStart(pre, path, post);
  }

  /** Joining a settle phase and a record phase at the start of recording
      adds exactly the one start to their projections. */
  lemma JoinAtStart(pre: seq<Event>, path: string, post: seq<Event>)
    ensures var c := pre + [StartRecording(path)] + post;
            Starts(c) == Starts(pre) + [path] + Starts(post) &&
            Stops(c) == Stops(pre) + Stops(post) &&
            Resets(c) == Resets(pre) + Resets(post) &&
            Completions(c) == Completions(pre) + Completions(post) &&
            ProgressCalls(c) == ProgressCalls(pre) + ProgressCalls(post) &&
            Orbits(c) == Orbits(pre) + Orbits(post)
  {
    var e := StartRecording(path);
    var c := pre + [e] + post;
    assert Starts(c) == Starts(pre) + [path] + Starts(post) by {
      Select3(pre, [e], post, StartOf);
      SelectSingle(e, StartOf);
    }
    assert Stops(c) == Stops(pre) + Stops(post) by {
      Select3(pre, [e], post, StopOf);
      SelectSingle(e, StopOf);
    }
    assert Resets(c) == Resets(pre) + Resets(post) by {
      Select3(pre, [e], post, ResetOf);
      SelectSingle(e, ResetOf);
    }
    assert Completions(c) == Completions(pre) + Completions(post) by {
      Select3(pre, [e], post, CompletionOf);
      SelectSingle(e, CompletionOf);
    }
    assert ProgressCalls(c) == ProgressCalls(pre) + ProgressCalls(post) by {
      Select3(pre, [e], post, ProgressOf);
      SelectSingle(e, ProgressOf);
    }
    assert Orbits(c) == Orbits(pre) + Orbits(post) by {
      Select3(pre, [e], post, OrbitOf);
      SelectSingle(e, OrbitOf);
    }
  }

  /** Page preparation sets no orbit, starts nothing and reports nothing. */
  lemma SetupProjections(url: string, width: int, height: int, scale: real, fps: int)
    ensures var p := Setup(url, width, height, scale, fps);
            Orbits(p) == [] && Resets(p) == [] && ProgressCalls(p) == [] &&
            Starts(p) == [] && Stops(p) == [] && Completions(p) == []
  {
    var p := Setup(url, width, height, scale, fps);
    assert Orbits(p) == [] by { SelectNone(p, OrbitOf); }
    assert Resets(p) == [] by { SelectNone(p, ResetOf); }
    assert ProgressCalls(p) == [] by { SelectNone(p, ProgressOf); }
    assert Starts(p) == [] by { SelectNone(p, StartOf); }
    assert Stops(p) == [] by { SelectNone(p, StopOf); }
    assert Completions(p) == [] by { SelectNone(p, CompletionOf); }
  }

  /** A projection that keeps none of a trace's events selects nothing. */
  lemma {:induction false} SelectNone<T>(t: seq<Event>, f: Event -> Option<T>)
    requires forall i :: 0 <= i < |t| ==> f(t[i]).None?
    ensures Select(t, f) == []
    decreases |t|
  {
    if |t| > 0 {
      assert f(t[0]).None?;
      SelectNone(t[1..], f);
    }
  }

  /** Where the pieces of a capture land once page preparation `p` comes
      before it and `rest` after it; `k` is a position inside the capture. */
  lemma Placed(p: seq<Event>, c: seq<Event>, rest: seq<Event>, k: nat)
    requires 1 < k < |c| - 1
    ensures var t := p + c + rest;
            var s := |p| + k;
            s < |t| - |rest| - 1 && t[..|p|] == p && t[|p|] == c[0] &&
            t[s - 1] == c[k - 1] && t[s] == c[k] &&
            t[|p| + 1..s - 1] == c[1..k - 1] && t[s + 1..|t| - |rest| - 1] == c[k + 1..|c| - 1] &&
            t[|t| - |rest| - 1..] == [c[|c| - 1]] + rest
  {
    var t := p + c + rest;
    assert t[|t| - |rest| - 1..] == [c[|c| - 1]] + rest;
  }

  /** The slices of a placed capture before and after position `k`, when
      the events around the capture set no orbit and print no progress. */
  lemma PlacedSlices(p: seq<Event>, c: seq<Event>, rest: seq<Event>, k: nat)
    requires 0 < k < |c| - 1
    requires Orbits(p) == [] && Orbits(rest) == [] && ProgressCalls(p) == [] && ProgressCalls(rest) == []
    ensures var t := p + c + rest;
            var s := |p| + k;
            s < |t| &&
            Orbits(t[..s]) == Orbits(c[..k]) && Orbits(t[s + 1..]) == Orbits(c[k + 1..]) &&
            ProgressCalls(t[..s]) == ProgressCalls(c[..k]) && ProgressCalls(t[s..]) == ProgressCalls(c[k..])
  {
    var t := p + c + rest;
    var s := |p| + k;
    assert Orbits(t[..s]) == Orbits(c[..k]) by {
      assert t[..s] == p + c[..k];
      SelectAppend(p, c[..k], OrbitOf);
    }
    assert ProgressCalls(t[..s]) == ProgressCalls(c[..k]) by {
      assert t[..s] == p + c[..k];
      SelectAppend(p, c[..k], ProgressOf);
    }
    assert Orbits(t[s + 1..]) == Orbits(c[k + 1..]) by {
      assert t[s + 1..] == c[k + 1..] + rest;
      SelectAppend(c[k + 1..], rest, OrbitOf);
    }
    assert ProgressCalls(t[s..]) == ProgressCalls(c[k..]) by {
      assert t[s..] == c[k..] + rest;
      SelectAppend(c[k..], rest, ProgressOf);
    }
  }

  /** The order of one batch task, with `s` the position of the start of
      recording: page preparation loads the task's page at 480x360, creates
      the recorder and awaits the marker before the turntable is reset; the
      settle sweep follows; the stabilisation pause comes right before the
      start on the task's output path; the record sweep follows; the stop is
      followed only by the completion count. */
  lemma TaskOrder(task: Task, frames: int, fps: int, scale: real) returns (s: nat)
    ensures s == |Setup(task.url, 480, 360, scale, fps)| + |Settling(frames, fps, false)|
    ensures var t := TaskTrace(task, frames, fps, scale);
            var n := Iterations(frames);
            6 < s < |t| - 2 &&
            t[..5] == Setup(task.url, 480, 360, scale, fps) && t[5] == ResetTurntable(0) &&
            t[6..s - 1] == Sweep(n, frames, fps, false) &&
            t[s - 1] == Pause(Finite(SettleDelay)) && t[s] == StartRecording(task.outputPath) &&
            t[s + 1..|t| - 2] == Sweep(n, frames, fps, false) &&
            t[|t| - 2..] == [StopRecording, CountProcessed]
  {
    var p := Setup(task.url, 480, 360, scale, fps);
    var c := Capture(frames, fps, task.outputPath, false);
    var k := CaptureOrder(frames, fps, task.outputPath, false);
    Placed(p, c, [CountProcessed], k);
    s := |p| + k;
  }

  /** In a batch task every settle angle precedes the start of recording and
      the record sweep repeats the same angles after it. */
  lemma TaskSlices(task: Task, frames: int, fps: int, scale: real)
    ensures var t := TaskTrace(task, frames, fps, scale);
            var s := |Setup(task.url, 480, 360, scale, fps)| + |Settling(frames, fps, false)|;
            s < |t| && Orbits(t[..s]) == Angles(frames) && Orbits(t[s + 1..]) == Angles(frames)
  {
    var p := Setup(task.url, 480, 360, scale, fps);
    var c := Capture(frames, fps, task.outputPath, false);
    var k := |Settling(frames, fps, false)|;
    CaptureSlices(frames, fps, task.outputPath, false);
    SetupProjections(task.url, 480, 360, scale, fps);
    assert Orbits([CountProcessed]) == [] && ProgressCalls([CountProcessed]) == [] by {
      SelectSingle(CountProcessed, OrbitOf);
      SelectSingle(CountProcessed, ProgressOf);
    }
    PlacedSlices(p, c, [CountProcessed], k);
    var t := TaskTrace(task, frames, fps, scale);
    assert t == p + c + [CountProcessed];
    assert Orbits(t[..|p| + k]) == Orbits(c[..k]);
    assert Orbits(t[|p| + k + 1..]) == Orbits(c[k + 1..]);
  }

  /** One batch task records exactly once, to its output path, stops once,
      counts one completion and prints no progress. */
  lemma TaskOnce(task: Task, frames: int, fps: int, scale: real)
    ensures var t := TaskTrace(task, frames, fps, scale);
            Starts(t) == [task.outputPath] && Stops(t) == [StopRecording] &&
            Completions(t) == [CountProcessed] && ProgressCalls(t) == [] && Resets(t) == [0]
  {
    var p := Setup(task.url, 480, 360, scale, fps);
    var c := Capture(frames, fps, task.outputPath, false);
    SetupProjections(task.url, 480, 360, scale, fps);
    CaptureOnce(frames, fps, task.outputPath, false);
    Framed(p, c, [CountProcessed]);
    SingleSelects(CountProcessed);
  }

  /** The projections of a capture framed by the events before and after it. */
  lemma Framed(p: seq<Event>, c: seq<Event>, rest: seq<Event>)
    ensures var t := p + c + rest;
            Starts(t) == Starts(p) + Starts(c) + Starts(rest) &&
            Stops(t) == Stops(p) + Stops(c) + Stops(rest) &&
            Completions(t) == Completions(p) + Completions(c) + Completions(rest) &&
            ProgressCalls(t) == ProgressCalls(p) + ProgressCalls(c) + ProgressCalls(rest) &&
            Resets(t) == Resets(p) + Resets(c) + Resets(rest)
  {
    Projections3(p, c, rest);
  }

  /** The order of the single-asset script, with `s` the position of the
      start of recording: page preparation, then the reset, the settle
      sweep with progress and the stabilisation pause, the start on the output
      path as given, the record sweep without progress; the stop is followed
      by the newline, the browser close and the delayed exit, in that order,
      and nothing else. */
  lemma SingleOrder(url: string, output: string, frames: int, fps: int,
                    width: int, height: int, scale: real) returns (s: nat)
    ensures s == |Setup(url, width, height, scale, fps)| + |Settling(frames, fps, true)|
    ensures var t := SingleTrace(url, output, frames, fps, width, height, scale);
            var n := Iterations(frames);
            6 < s < |t| - 4 &&
            t[..5] == Setup(url, width, height, scale, fps) && t[5] == ResetTurntable(0) &&
            t[6..s - 1] == Sweep(n, frames, fps, true) &&
            t[s - 1] == Pause(Finite(SettleDelay)) && t[s] == StartRecording(output) &&
            t[s + 1..|t| - 4] == Sweep(n, frames, fps, false) &&
            t[|t| - 4..] == [StopRecording, WriteNewline, CloseBrowser, ExitAfter(500)]
  {
    var p := Setup(url, width, height, scale, fps);
    var c := Capture(frames, fps, output, true);
    var k := CaptureOrder(frames, fps, output, true);
    Placed(p, c, [WriteNewline, CloseBrowser, ExitAfter(500)], k);
    s := |p| + k;
  }

  /** In the single-asset script the progress calls `1..frames` of `frames`
      all happen before recording starts and none after; the orbit angles
      before and after the start are the same full sweep. */
  lemma SingleSlices(url: string, output: string, frames: int, fps: int,
                     width: int, height: int, scale: real)
    ensures var t := SingleTrace(url, output, frames, fps, width, height, scale);
            var s := |Setup(url, width, height, scale, fps)| + |Settling(frames, fps, true)|;
            s < |t| &&
            Orbits(t[..s]) == Angles(frames) && Orbits(t[s + 1..]) == Angles(frames) &&
            ProgressCalls(t[..s]) == ProgressArgs(Iterations(frames), frames) &&
            ProgressCalls(t[s..]) == []
  {
    var p := Setup(url, width, height, scale, fps);
    var c := Capture(frames, fps, output, true);
    var k := |Settling(frames, fps, true)|;
    CaptureSlices(frames, fps, output, true);
    SetupProjections(url, width, height, scale, fps);
    TailProjections();
    PlacedSlices(p, c, [WriteNewline, CloseBrowser, ExitAfter(500)], k);
    var t := SingleTrace(url, output, frames, fps, width, height, scale);
    assert t == p + c + [WriteNewline, CloseBrowser, ExitAfter(500)];
  }

  /** The script's epilogue sets no orbit, prints no progress, and neither
      starts, stops nor completes a recording. */
  lemma TailProjections()
    ensures var tail := [WriteNewline, CloseBrowser, ExitAfter(500)];
            Orbits(tail) == [] && ProgressCalls(tail) == [] && Starts(tail) == [] &&
            Stops(tail) == [] && Completions(tail) == [] && Resets(tail) == []
  {
    var tail := [WriteNewline, CloseBrowser, ExitAfter(500)];
    assert Orbits(tail) == [] by { SelectNone(tail, OrbitOf); }
    assert ProgressCalls(tail) == [] by { SelectNone(tail, ProgressOf); }
    assert Starts(tail) == [] by { SelectNone(tail, StartOf); }
    assert Stops(tail) == [] by { SelectNone(tail, StopOf); }
    assert Completions(tail) == [] by { SelectNone(tail, CompletionOf); }
    assert Resets(tail) == [] by { SelectNone(tail, ResetOf); }
  }

  /** The single-asset script records exactly once, to the output argument
      as given, and stops once. */
  lemma SingleOnce(url: string, output: string, frames: int, fps: int,
                   width: int, height: int, scale: real)
    ensures var t := SingleTrace(url, output, frames, fps, width, height, scale);
            Starts(t) == [output] && Stops(t) == [StopRecording] && Completions(t) == []
  {
    var p := Setup(url, width, height, scale, fps);
    var c := Capture(frames, fps, output, true);
    SetupProjections(url, width, height, scale, fps);
    CaptureOnce(frames, fps, output, true);
    TailProjections();
    Framed(p, c, [WriteNewline, CloseBrowser, ExitAfter(500)]);
  }

  /** Every progress line the single-asset script prints renders without a
      `RangeError`, and the last one, after the final settle step, shows the
      full bar at 100.00%. With no frames nothing is printed. */
  lemma SingleProgressRenders(url: string, output: string, frames: int, fps: int,
                              width: int, height: int, scale: real)
    ensures var calls := ProgressCalls(SingleTrace(url, output, frames, fps, width, height, scale));
            (forall i :: 0 <= i < |calls| ==> Progress.SingleLine(calls[i].0, calls[i].1).Normal?) &&
            (frames <= 0 ==> calls == []) &&
            (frames > 0 ==>
               |calls| == frames &&
               Progress.SingleLine(calls[|calls| - 1].0, calls[|calls| - 1].1) ==
               Normal("\r[" + JsString.Chars('#', Progress.Width) + "] 100.00%"))
  {
    var t := SingleTrace(url, output, frames, fps, width, height, scale);
    var s := |Setup(url, width, height, scale, fps)| + |Settling(frames, fps, true)|;
    assert ProgressCalls(t) == ProgressArgs(Iterations(frames), frames) by {
      SingleSlices(url, output, frames, fps, width, height, scale);
      assert t == t[..s] + t[s..];
      SelectAppend(t[..s], t[s..], ProgressOf);
    }
    var calls := ProgressCalls(t);
    forall i | 0 <= i < |calls|
      ensures Progress.SingleLine(calls[i].0, calls[i].1).Normal?
    {
      Progress.BarOutcome(i + 1, frames);
      assert (i + 1) * Progress.Width < (Progress.Width + 1) * frames by {
        Progress.MulLe(i + 1, frames, Progress.Width);
      }
    }
    if frames > 0 {
      Progress.SingleLineFull(frames);
    }
  }

  /** One orbit loop over the steps `0..frames - 1`, run statement by
      statement. */
  method RunSweep(frames: int, fps: int, progress: bool) returns (events: seq<Event>)
    ensures events == Sweep(Iterations(frames), frames, fps, progress)
  {
    // `360 / frames` is Infinity when frames is 0 and negative when frames is
    // negative; the loop then never runs.
    var increment := Divide(360, frames);
    events := [];
    var i := 0;
    while i < frames
      invariant 0 <= i <= Iterations(frames)
      invariant events == Sweep(i, frames, fps, progress)
    {
      var angle := i as real * increment.v;
      assert angle == Angle(i, frames);
      var step := [SetOrbit(angle), Pause(Divide(StepBudget, fps))];
      if progress {
        step := step + [ProgressBar(i + 1, frames)];
      }
      events := events + step;
      i := i + 1;
    }
  }

  /** The capture: reset, settle loop, stabilisation delay, start, record
      loop, stop. */
  method RunCapture(frames: int, fps: int, path: string, progress: bool) returns (trace: seq<Event>)
    ensures trace == Capture(frames, fps, path, progress)
    ensures Starts(trace) == [path] && Stops(trace) == [StopRecording]
  {
    var settle := RunSweep(frames, fps, progress);
    var record := RunSweep(frames, fps, false);
    trace := [ResetTurntable(0)] + settle + [Pause(Finite(SettleDelay)), StartRecording(path)] +
             record + [StopRecording];
    assert trace == Settling(frames, fps, progress) + [StartRecording(path)] + Recording(frames, fps);
    CaptureOnce(frames, fps, path, progress);
  }

  /** The batch task body for one queued task. */
  method RecordTask(task: Task, frames: int, fps: int, scale: real) returns (trace: seq<Event>)
    ensures trace == TaskTrace(task, frames, fps, scale)
    ensures Starts(trace) == [task.outputPath] && Completions(trace) == [CountProcessed]
  {
    trace := Setup(task.url, 480, 360, scale, fps);
    var capture := RunCapture(frames, fps, task.outputPath, false);
    trace := trace + capture + [CountProcessed];
    TaskOnce(task, frames, fps, scale);
  }

  /** The whole single-asset script after argument parsing. */
  method RecordSingle(url: string, output: string, frames: int, fps: int,
                      width: int, height: int, scale: real) returns (trace: seq<Event>)
    ensures trace == SingleTrace(url, output, frames, fps, width, height, scale)
    ensures Starts(trace) == [output] && |trace| >= 4 && trace[|trace| - 1] == ExitAfter(500)
  {
    trace := Setup(url, width, height, scale, fps);
    var capture := RunCapture(frames, fps, output, true);
    trace := trace + capture + [WriteNewline, CloseBrowser, ExitAfter(500)];
    SingleOnce(url, output, frames, fps, width, height, scale);
  }

  lemma {:induction false} SequentialRunAppend(tasks: seq<Task>, task: Task, frames: int, fps: int, scale: real)
    ensures SequentialRun(tasks + [task], frames, fps, scale) ==
            SequentialRun(tasks, frames, fps, scale) + TaskTrace(task, frames, fps, scale)
    decreases |tasks|
  {
    if |tasks| == 0 {
      assert SequentialRun([], frames, fps, scale) == [];
      assert ([] + [task])[1..] == [];
    } else {
      assert (tasks + [task])[1..] == tasks[1..] + [task];
      SequentialRunAppend(tasks[1..], task, frames, fps, scale);
    }
  }

  /** Running the queued tasks one after another records one video per task,
      on the tasks' output paths, in queue order. */
  lemma {:induction false} SequentialRunStarts(tasks: seq<Task>, frames: int, fps: int, scale: real)
    ensures Starts(SequentialRun(tasks, frames, fps, scale)) ==
            seq(|tasks|, i requires 0 <= i < |tasks| => tasks[i].outputPath)
    decreases |tasks|
  {
    if |tasks| > 0 {
      var head := TaskTrace(tasks[0], frames, fps, scale);
      var rest := SequentialRun(tasks[1..], frames, fps, scale);
      SequentialRunStarts(tasks[1..], frames, fps, scale);
      TaskOnce(tasks[0], frames, fps, scale);
      SelectAppend(head, rest, StartOf);
      assert seq(|tasks|, i requires 0 <= i < |tasks| => tasks[i].outputPath) ==
             [tasks[0].outputPath] + seq(|tasks[1..]|, i requires 0 <= i < |tasks[1..]| => tasks[1..][i].outputPath);
    }
  }

  /** Running the queued tasks one after another stops every recording,
      counts one completion per task and prints no progress bar. */
  lemma {:induction false} SequentialRunCounts(tasks: seq<Task>, frames: int, fps: int, scale: real)
    ensures var t := SequentialRun(tasks, frames, fps, scale);
            Stops(t) == seq(|tasks|, _ => StopRecording) &&
            Completions(t) == seq(|tasks|, _ => CountProcessed) &&
            ProgressCalls(t) == []
    decreases |tasks|
  {
    if |tasks| > 0 {
      var head := TaskTrace(tasks[0], frames, fps, scale);
      var rest := SequentialRun(tasks[1..], frames, fps, scale);
      SequentialRunCounts(tasks[1..], frames, fps, scale);
      TaskOnce(tasks[0], frames, fps, scale);
      SelectAppend(head, rest, StopOf);
      SelectAppend(head, rest, CompletionOf);
      SelectAppend(head, rest, ProgressOf);
      assert seq(|tasks|, _ => StopRecording) == [StopRecording] + seq(|tasks[1..]|, _ => StopRecording);
      assert seq(|tasks|, _ => CountProcessed) == [CountProcessed] + seq(|tasks[1..]|, _ => CountProcessed);
    }
  }


  /** The batch script's queue worked through in order: tasks are recorded
      one after another, in queue order. */
  method RunBatch(tasks: seq<Task>, frames: int, fps: int, scale: real) returns (trace: seq<Event>)
    ensures trace == SequentialRun(tasks, frames, fps, scale)
    ensures Starts(trace) == seq(|tasks|, i requires 0 <= i < |tasks| => tasks[i].outputPath)
  {
    trace := [];
    var i := 0;
    while i < |tasks|
      invariant 0 <= i <= |tasks|
      invariant trace == SequentialRun(tasks[..i], frames, fps, scale)
    {
      var one := RecordTask(tasks[i], frames, fps, scale);
      SequentialRunAppend(tasks[..i], tasks[i], frames, fps, scale);
      assert tasks[..i + 1] == tasks[..i] + [tasks[i]];
      trace := trace + one;
      i := i + 1;
    }
    assert tasks[..i] == tasks;
    SequentialRunStarts(tasks, frames, fps, scale);
  }

  /** End to end over an input file: one video per non-empty line, in file
      order, each at `<output>/<dir>/<name>.mov`, and one completion each. */
  lemma BatchRunOutputs(text: string, output: string, frames: int, fps: int, scale: real)
    ensures var urls := Lines(text);
            var t := SequentialRun(Tasks(text, output), frames, fps, scale);
            |Starts(t)| == |urls| && |Completions(t)| == |urls| &&
            forall i :: 0 <= i < |urls| ==>
              Starts(t)[i] == output + "/" + DirName(urls[i]) + "/" + FileName(urls[i]) + ".mov"
  {
    TasksOfLines(text, output);
    SequentialRunStarts(Tasks(text, output), frames, fps, scale);
    SequentialRunCounts(Tasks(text, output), frames, fps, scale);
  }
}
