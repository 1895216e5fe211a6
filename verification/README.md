# Turntable capture scripts, modelled in Dafny

Two Puppeteer scripts record a turntable video of a `<model-viewer>` page:

- `record_animation.js` is the batch mode. It reads a list of URLs and derives an output path for each. It queues one task per URL, and each task records one `.mov` video.
- `record_animation2.js` is the single-asset mode. It records one page to one output path and prints a progress bar while the camera warms up.

This project models the deterministic core of both scripts:

- **Batch task construction** (module `Batch`). The input text is split on newlines and empty pieces are dropped. Only empty pieces go: a line of spaces stays a URL, and so does the `\r` a CRLF file leaves at every line end, which then ends up in the file name. Each URL becomes a `Task` with the path `<output>/<dir>/<name>.mov` and its 1-based ordinal. `<dir>` is what follows the fixed server prefix, up to the next slash. `<name>` is the last path segment with `.html` removed.
- **Progress bars** (module `Progress`). Both `progressBar` variants are modelled with JavaScript number semantics:
  - the number of `#` is the floor of `(cur / total) * 50`, computed on exact reals, whereas JavaScript computes it on doubles (see "## Left out");
  - a zero total gives NaN or an infinity (module `JsNumber`);
  - `String.prototype.repeat` throws a `RangeError` on a negative or infinite count (module `JsString`);
  - the percentage is formatted with `toFixed(2)` (module `NumberText`).
- **The capture sequence** (module `Session`). The browser and recorder calls are modelled as a trace of `Event`s, in order:
  1. page preparation;
  2. the turntable reset;
  3. a settle sweep of `frames` orbit updates at `i * (360 / frames)`, each followed by a `500 / fps` ms pause (and, in the single-asset script, a progress call);
  4. the 500 ms stabilisation pause;
  5. the start of recording;
  6. the record sweep: the same orbit updates and pauses, without progress calls;
  7. the stop;
  8. the epilogue of each script.

  Projections of a trace (`Orbits`, `Starts`, `Stops`, `ProgressCalls`, `Resets`, `Completions`) state what happens and in which order.

Modules `Common`, `JsNumber`, `JsString` and `NumberText` hold the JavaScript semantics the scripts rely on:

- `replace` with a string pattern (first occurrence only), `split` on one character, and `repeat`;
- `Math.floor`, division by zero, integer `toString` and `toFixed(2)`.

Two more string operations are modelled although the scripts do not call them: `indexOf` is the search that `replace` performs, and `join` is the inverse that states what `split` does. `filter(Boolean)` on the lines is modelled in `Batch`, as `NonEmpty`.

Each has an independent partner: `Split` with `Join`, `ReplaceFirst` with re-insertion, and `NatToString` with `ParseNat`.

Three points about the program that the model keeps as written:

- The `--format` option is declared with the help text "Video format (e.g., mp4)" (record_animation.js:76-80), but nothing reads it. Every batch video ends in `.mov` (record_animation.js:184), so `Batch.Extension` is `.mov`.
- Any `frames` is accepted. With `frames <= 0` both loops run zero times and no progress is printed. The model keeps that case (`Iterations`, `SingleProgressRenders`).
- There is no error handling beyond what the worker pool does. The only completion report is the `Processed n/total` log line, which the model records as one `CountProcessed` event per task.

## Model

| member | source | states |
|---|---|---|
| JsNumber.Divide | record_animation.js:12 | `a / b` is finite exactly for a non-zero divisor, and then multiplies back to `a`; it is NaN exactly for `0 / 0`, +Infinity for a positive number over 0 and -Infinity for a negative one, which fixes the `500 / fps` pause at `--fps 0` |
| JsNumber.Floor | record_animation.js:12 | `Math.floor` gives the integral value `r` with `r <= x < r + 1`, and passes NaN and the infinities through |
| JsNumber.ToIntegerOrInfinity | record_animation.js:13 | the count conversion inside `repeat`: NaN becomes 0, a finite value is truncated toward zero and is non-negative exactly when it exceeds -1, integral values are kept, and +Infinity and -Infinity stay infinite with their sign |
| JsString.Repeat | record_animation.js:13 | `c.repeat(n)` completes exactly for NaN or a finite count above -1, and otherwise throws a RangeError; the result holds only `c`, NaN repeats zero times, and a whole count `k` gives `k` characters |
| JsString.IndexOfChar | record_animation.js:180-181 | `indexOf` for one character: none exactly when the character is absent, otherwise the first position holding it |
| JsString.IndexOf | record_animation.js:180-181 | `indexOf` for a string: the leftmost occurrence when there is one, and none exactly when the pattern does not occur |
| JsString.ReplaceFirst | record_animation.js:180-181 | `replace` with a string pattern rewrites only the leftmost occurrence, and leaves the text unchanged when the pattern is absent |
| JsString.RemoveFirstRestores | record_animation.js:180-181 | removing the leftmost occurrence shortens the text by the pattern length, and putting the pattern back at the same place restores the text |
| JsString.Split | record_animation.js:175 | `split` always yields at least one piece |
| JsString.SplitPieces | record_animation.js:175 | no piece of a split contains the separator |
| JsString.JoinSplit | record_animation.js:175 | joining the pieces of a split with the separator gives the original text |
| JsString.SplitJoin | record_animation.js:175 | splitting a join of separator-free pieces gives those pieces back, so the split is the unique such decomposition |
| Batch.NonEmpty | record_animation.js:175 | `filter(Boolean)` keeps exactly the non-empty strings: every kept string is non-empty and comes from the input, and every non-empty input string is kept |
| Batch.NonEmptyAppend | record_animation.js:175 | the filter works line by line: filtering a concatenation is concatenating the filtered parts |
| Batch.Lines | record_animation.js:175 | every URL read from the input is non-empty and holds no newline |
| Batch.LinesOfJoin | record_animation.js:175-176 | a file written as lines, with or without a final newline, reads back as exactly its non-empty lines in order |
| Batch.FirstSegment | record_animation.js:180 | `split('/')[0]` is the longest slash-free prefix, and it is followed by a slash unless it is the whole text |
| Batch.DirNameStripsPrefix | record_animation.js:180 | for a URL starting with the server prefix, the directory is the first segment of what follows the prefix |
| Batch.DirNameWithoutPrefix | record_animation.js:180 | for a URL without the server prefix, the directory is the text before its first slash, e.g. `http:` |
| Batch.FirstSegmentAtSlash | record_animation.js:180 | the first segment of `head/tail` is `head` for a slash-free `head` |
| Batch.DirNameOfServerUrl | record_animation.js:180 | for `<prefix><dir>/<name>.html` the directory is `<dir>` |
| Batch.LastSegmentOfSplit | record_animation.js:181 | the last segment is the element `pop()` returns from `split('/')` |
| Batch.LastSegmentAfterSlash | record_animation.js:181 | whatever precedes the last slash, the last segment is the slash-free text after it |
| Batch.HtmlSuffixFirst | record_animation.js:181 | in `<name>.html`, where `name` contains no `.html`, the leftmost `.html` is the appended one |
| Batch.FileNameOfHtml | record_animation.js:181 | the file name of `<anything>/<name>.html` is `<name>` |
| Batch.OutputPathOfServerUrl | record_animation.js:180-184 | a URL of the expected shape `<prefix><dir>/<name>.html` gets the path `<output>/<dir>/<name>.mov` |
| Batch.TasksOfJoin | record_animation.js:175-184 | for a file written as newline-free lines, with or without a final newline, task `i` is the `i`-th non-empty line with ordinal `i + 1`, the count of non-empty lines as total, and the path `<output>/<dir>/<name>.mov` of that line |
| Batch.LoadStepsOrder | record_animation.js:178-184 | step `2i` creates the directory of task `i` and step `2i + 1` queues that task, so each task is queued right after its directory is made |
| Batch.LoadBatch | record_animation.js:175-184 | the loading loop creates `<output>/<dir>` and then queues the task for each non-empty line, in order, and does nothing else |
| NumberText.ParseNatToString | record_animation.js:14 | reading back the decimal text of a number gives the number |
| NumberText.NatToStringParse | record_animation.js:14 | printing the value of canonical digits gives the same digits, so the integer text is the unique canonical one |
| NumberText.RoundHundredths | record_animation2.js:22 | `toFixed(2)` rounds to the nearest hundredth: the chosen count is within one half of `100 x` |
| NumberText.RoundHundredthsNearest | record_animation2.js:22 | no other count of hundredths is nearer to `100 x`, and a tie goes to the larger one |
| NumberText.FixedDigitsSpec | record_animation2.js:22 | the fixed text has canonical integer digits, a point and exactly two fraction digits, which together read back as the rounded count |
| NumberText.ToFixed2Spec | record_animation2.js:22 | `toFixed(2)` writes a minus sign exactly for negative values, then the nearest count of hundredths of the magnitude with two decimals |
| NumberText.ToFixed2Hundred | record_animation2.js:22 | a full reading prints as `100.00` |
| Progress.HashCountPositive | record_animation.js:12 | for a positive total the hash count is `cur * 50 / total`, and it lies in [0, 50] exactly when `0 <= cur` and `cur * 50 < 51 * total` |
| Progress.BarShape | record_animation.js:11-13 | for `0 <= cur <= total` the bar is 52 characters: `[`, exactly `cur * 50 / total` hash marks, spaces making up 50, and `]`; a finished count gives 50 hashes |
| Progress.BarOutcome | record_animation.js:12-13 | when the bar is drawn and when `repeat` throws: for a positive total exactly when `0 <= cur` and `cur * 50 < 51 * total`; for a zero total exactly at `0/0`, which draws `[]`; for a negative total the same as with both signs flipped |
| Progress.BarNormalRange | record_animation2.js:19-21 | a drawn bar means the quotient is NaN or `(cur / total) * 50` lies in [0, 51) |
| Progress.BatchLine | record_animation.js:10-15 | the batch log line renders exactly when the bar does |
| Progress.BatchLineFull | record_animation.js:10-15 | the batch log line for a finished file is `File i/n: [` then 50 hashes then `] total/total` |
| Progress.SingleLine | record_animation2.js:17-23 | the single-asset line renders exactly when the bar does |
| Progress.SingleLineInRange | record_animation2.js:19-22 | for `0 <= cur <= total` the percentage `(cur / total) * 100` lies in [0, 100] and the line is the bar followed by its `toFixed(2)` text |
| Progress.SingleLineFull | record_animation2.js:17-23 | the last settle step prints a carriage return, a full bar and `100.00%` |
| Progress.SingleLineZeroOfZero | record_animation2.js:17-23 | `progressBar(0, 0)` prints `[] NaN%`, because both repeat counts are NaN |
| Session.AngleRange | record_animation.js:144-148 | sweep angles lie in [0, 360] and grow strictly with the step index |
| Session.AnglesSweepCircle | record_animation.js:144-148 | a sweep visits `frames` angles, starting at 0, rising by exactly `360 / frames`, staying below 360 and strictly increasing; one more step would complete the turn |
| Session.AnglesOfFour | record_animation.js:144-148 | four frames visit 0, 90, 180 and 270 degrees |
| Session.StepProjections | record_animation2.js:143-151 | one loop iteration sets one angle, prints its progress `i + 1` of `frames` when progress is shown, and neither resets, starts, stops nor completes; its pause is stated by the sweep shape lemmas |
| Session.SweepProjections | record_animation.js:147-154 | a sweep of `k` steps sets the first `k` angles in order and, when shown, calls the progress bar with `1..k` of `frames`; it neither resets, records nor completes |
| Session.SweepShapeShown | record_animation2.js:143-151 | a settle sweep of `k` steps with progress has exactly `3k` events; step `i` is the orbit update to angle `i`, the `500 / fps` ms pause and `progressBar(i + 1, frames)`, in that order and nothing else |
| Session.SweepShapeQuiet | record_animation.js:147-154 | a sweep of `k` steps without progress has exactly `2k` events; step `i` is the orbit update to angle `i` followed by the `500 / fps` ms pause, and nothing else |
| Session.SettlingProjections | record_animation.js:139-156 | the settle phase resets the turntable once to 0, sets every angle once in order, prints all progress calls when shown, and records nothing |
| Session.RecordingProjections | record_animation.js:160-169 | the record phase sets every angle once in order, stops once, and neither resets, prints progress nor starts |
| Session.CaptureOrder | record_animation.js:139-169 | a capture starts with the reset, followed by exactly the settle sweep; the 500 ms pause comes right before the start on the given path; exactly the record sweep without progress follows, and the stop is last |
| Session.CaptureSlices | record_animation2.js:134-167 | before the start lie exactly the settle angles and all progress calls; after it lie the same angles again and no progress call |
| Session.CaptureOnce | record_animation.js:139-169 | a capture starts once, on the given path, stops once, resets once, sets every angle exactly twice, and completes nothing by itself |
| Session.SetupProjections | record_animation.js:112-137 | page preparation sets no orbit, prints no progress, and neither starts, stops, resets nor completes |
| Session.TaskOrder | record_animation.js:111-171 | a batch task first loads its URL at 480x360 and awaits the marker; it then resets, runs exactly the sweep of orbit updates and `500 / fps` pauses, pauses 500 ms, starts on its output path and runs exactly the same sweep again; the stop is followed only by the completion count |
| Session.TaskSlices | record_animation.js:139-169 | in a batch task every settle angle precedes the start of recording, and the record sweep repeats the same angles after it |
| Session.TaskOnce | record_animation.js:111-172 | a batch task records exactly once, to its output path, stops once, counts one completion, resets once and prints no progress |
| Session.SingleOrder | record_animation2.js:107-173 | the single-asset script prepares the page, resets, runs exactly the settle sweep with progress, pauses 500 ms, starts on the output argument verbatim and runs exactly the record sweep without progress; after the stop come only the newline, the browser close and the delayed exit |
| Session.SingleSlices | record_animation2.js:134-165 | in the single-asset script the progress calls `1..frames` of `frames` all come before the start and none after, and both sides of the start see the full angle sweep |
| Session.SingleOnce | record_animation2.js:107-169 | the single-asset script records exactly once, to the output argument, stops once and counts no completion |
| Session.SingleProgressRenders | record_animation2.js:143-151 | every progress line renders without a RangeError; there are `frames` of them and the last shows a full bar at `100.00%`; none is printed when `frames <= 0` |
| Session.RunSweep | record_animation.js:144-154 | the orbit loop, run statement by statement, issues exactly the reference sweep |
| Session.RunCapture | record_animation.js:139-169 | the capture, run statement by statement, is the reference capture, with one start on the given path and one stop |
| Session.RecordTask | record_animation.js:111-172 | the task body issues the batch task trace, with one start on the task's path and one completion |
| Session.RecordSingle | record_animation2.js:101-174 | the single-asset script issues its trace, starts once on the output argument, and ends with the delayed exit |
| Session.SequentialRunAppend | record_animation.js:184-187 | running one more queued task appends exactly that task's trace |
| Session.SequentialRunStarts | record_animation.js:111-187 | running the queue in order records one video per task, on the tasks' paths, in queue order |
| Session.SequentialRunCounts | record_animation.js:109-187 | running the queue in order stops every recording, counts one completion per task and prints no progress bar |
| Session.RunBatch | record_animation.js:184-187 | working through the queue one task at a time issues the sequential run, with one start per task in queue order |
| Session.BatchRunOutputs | record_animation.js:175-187 | end to end over an input file: one video per non-empty line, in file order, each at `<output>/<dir>/<name>.mov`, with one completion each |

## Left out

- Concurrency across cluster workers (`maxConcurrency`, `cluster.idle`, `cluster.close`) is not modelled. Tasks are run one after another (`SequentialRun`), which matches the default of one worker. With more workers the per-task traces interleave in ways the source does not determine.
- Puppeteer, CDP and the screen recorder are foreign code. The calls that change what is recorded appear as events carrying their arguments. Some calls issue no event:
  - `puppeteer.launch` and `browser.newPage` (record_animation2.js:102-106), and `Cluster.launch` (record_animation.js:100), which only provide the page;
  - the `page.evaluate` calls that read the viewport size (record_animation.js:113-119, record_animation2.js:109-115), because their result becomes the `SetViewport` event;
  - `page.target().createCDPSession()` (record_animation.js:134, record_animation2.js:129), because its only use is the `TransparentBackground` event.

  The device scale factor and the single-asset viewport size come from the live page, so they are parameters.
- Wall-clock time is not modelled: `setTimeout` pauses and the delayed `process.exit` are events carrying their duration.
- `yargs` option parsing, the browser flag table, `fs.readFileSync` and `fs.mkdirSync` are I/O and configuration. The input text and the output directory are parameters, and directory creation is a `MakeDirectory` event.
- The console text `Processed n/total files` and `Processing completed.` is not modelled. Each finished task is one `CountProcessed` event.
- `frames` and `fps` are taken as integers. The scripts accept any JavaScript number; with a non-integral `frames` the loops run `ceil(frames)` times.
- Progress.HashCountPositive: takes the floor of the exact quotient times 50, but JavaScript floors a double, and a last-bit error there costs a whole hash mark. For `progressBar(29, 50)` (the single-asset script with `--frames 50`, settle step 29) the double `(29 / 50) * 50` is 28.999999999999996, so JavaScript draws 28 hash marks where the model has 29.
- Progress.BarShape: states exactly `cur * 50 / total` hash marks and the matching spaces, computed on exact reals. JavaScript draws one hash mark fewer, and one more space, when the double product falls just below an integer, as for `progressBar(29, 50)` (28 and 22, not 29 and 21). The bounds [0, 50] and the full bar at `cur == total` do not depend on this.
- Progress.BarOutcome: the draw-or-throw thresholds are stated on exact reals. JavaScript decides on the double `(cur / total) * 50`, and the two can differ when `cur * 50` lies just below `51 * total`. For `progressBar(287104476257461, 281474976723001)`, where `cur * 50 == 51 * total - 1`, the model draws a bar of 50 hash marks, but the double product rounds to 51, so JavaScript evaluates `' '.repeat(-1)` and throws a RangeError. The scripts only call the bar with `cur <= total`, where both agree.
- Progress.SingleLineInRange: formats the exact percentage `(cur / total) * 100`, but JavaScript formats a double. For `progressBar(23, 160)` the double is 14.374999999999998, so JavaScript prints `14.37%` where the model prints `14.38%`.
- Progress.BatchLineFull: integer text is modelled only as plain digits. JavaScript prints a number of 10^21 or more in exponent notation (`1e+21`), so the stated line holds only when the file counts and `total` are below 10^21 in magnitude.
- Session.AnglesSweepCircle: angles are exact reals. JavaScript doubles computing `i * (360 / frames)` can differ in the last bit, so the exact statements (equal increments, the last step completing the turn) hold only for the exact real values.
- NumberText.ToFixed2Spec: rounds the exact real value of `(cur / total) * 100`. The double that JavaScript rounds can differ in the last bit, so a value at an exact tie may print differently. Magnitudes of 10^21 and above (exponent notation) are excluded by the precondition; the percentage is always below 102.
- Progress.BatchLine: only states when the line renders. Its full text is stated for a finished file (`Progress.BatchLineFull`) and through `Progress.BarShape` for the bar itself.
- Per-task error handling, selector timeouts and failed tasks are not modelled: the scripts have no such code, and an exception in a task is handled by the worker-pool library.
