/** Batch mode of record_animation.js: the URL list is read, split into
    lines, empty pieces are dropped, and each URL becomes a task carrying the
    path of its video and its 1-based position in the batch. */
module Batch {
  import opened Common
  import opened JsString

  /** The address prefix stripped from a URL to find its directory. */
  const ServerPrefix: string := "http://0.0.0.0:8002/glb_xmp/"
  const HtmlSuffix: string := ".html"
  /** Every batch video gets this extension; the `--format` option is unused. */
  const Extension: string := ".mov"

  /** One unit of work handed to the worker pool. */
  datatype Task = Task(url: string, outputPath: string, currentFile: int, totalFiles: int)

  /** A step of the loading loop: create a directory, or queue a task. */
  datatype LoadEvent = MakeDirectory(path: string) | Enqueue(task: Task)

  /** Filtering strings by truthiness: keep the non-empty ones, in order. */
  function NonEmpty(parts: seq<string>): (r: seq<string>)
    ensures |r| <= |parts|
    ensures forall k :: 0 <= k < |r| ==> r[k] != "" && r[k] in parts
    ensures forall x :: x in parts && x != "" ==> x in r
  {
    if |parts| == 0 then []
    else (if parts[0] == "" then [] else [parts[0]]) + NonEmpty(parts[1..])
  }

  lemma {:induction false} NonEmptyAppend(a: seq<string>, b: seq<string>)
    ensures NonEmpty(a + b) == NonEmpty(a) + NonEmpty(b)
    decreases |a|
  {
    if |a| == 0 {
      assert a + b == b;
    } else {
      assert (a + b)[1..] == a[1..] + b;
      NonEmptyAppend(a[1..], b);
    }
  }

  /** The URLs of an input file: its newline-separated pieces that are not
      empty. A piece of spaces, or the `\r` left by a CRLF line end, stays. */
  function Lines(text: string): (r: seq<string>)
    ensures forall k :: 0 <= k < |r| ==> r[k] != "" && Lacks(r[k], '\n')
  {
    SplitPieces(text, '\n');
    NonEmpty(Split(text, '\n'))
  }

  /** Reading back a file written as newline-separated lines yields exactly
      its non-empty lines, in order, whether or not it ends with a newline. */
  lemma LinesOfJoin(lines: seq<string>)
    requires |lines| >= 1
    requires forall k :: 0 <= k < |lines| ==> Lacks(lines[k], '\n')
    ensures Lines(Join(lines, '\n')) == NonEmpty(lines)
    ensures Lines(Join(lines, '\n') + "\n") == NonEmpty(lines)
  {
    SplitJoin(lines, '\n');
    JoinAppend(lines, "", '\n');
    assert Join(lines, '\n') + "\n" == Join(lines, '\n') + ['\n'] + "";
    SplitJoin(lines + [""], '\n');
    NonEmptyAppend(lines, [""]);
    assert NonEmpty([""]) == [];
  }

  /** The first piece of a split on `/`: the text before the first slash, or
      all of `s`. */
  function FirstSegment(s: string): (r: string)
    ensures Lacks(r, '/')
    ensures |r| <= |s| && r == s[..|r|]
    ensures |r| < |s| ==> s[|r|] == '/'
  {
    match IndexOfChar(s, '/')
    case None => assert Split(s, '/') == [s]; s
    case Some(i) => SplitPieces(s, '/'); Split(s, '/')[0]
  }

  /** The last piece of a split on `/`: the text after the last slash, or all of `s`
      when there is none. */
  function LastSegment(s: string): string
    decreases |s|
  {
    match IndexOfChar(s, '/')
    case None => s
    case Some(i) => LastSegment(s[i + 1..])
  }

  /** `LastSegment` is the last piece of the split on `/`. */
  lemma {:induction false} LastSegmentOfSplit(s: string)
    ensures var parts := Split(s, '/'); LastSegment(s) == parts[|parts| - 1]
    decreases |s|
  {
    match IndexOfChar(s, '/')
    case None =>
    case Some(i) =>
      var rest := Split(s[i + 1..], '/');
      assert Split(s, '/') == [s[..i]] + rest;
      LastSegmentOfSplit(s[i + 1..]);
  }

  /** Whatever comes before it, a slash-free text after the last slash is
      the last segment. */
  lemma {:induction false} LastSegmentAfterSlash(front: string, base: string)
    requires Lacks(base, '/')
    ensures LastSegment(front + "/" + base) == base
    decreases |front|
  {
    var s := front + "/" + base;
    assert s[|front|] == '/';
    var i := IndexOfChar(s, '/').value;
    if i < |front| {
      assert s[i + 1..] == front[i + 1..] + "/" + base;
      LastSegmentAfterSlash(front[i + 1..], base);
    } else {
      assert s[i + 1..] == base;
    }
  }

  /** The directory segment: drop the first occurrence of the server prefix
      (wherever it is), then keep the text before the first slash. */
  function DirName(url: string): string
  {
    FirstSegment(ReplaceFirst(url, ServerPrefix, ""))
  }

  /** The file segment: the last path segment with the first `.html`
      removed (wherever it is in that segment). */
  function FileName(url: string): string
  {
    ReplaceFirst(LastSegment(url), HtmlSuffix, "")
  }

  function OutputDir(output: string, url: string): string
  {
    output + "/" + DirName(url)
  }

  function OutputPath(output: string, url: string): string
  {
    OutputDir(output, url) + "/" + FileName(url) + Extension
  }

  /** The tasks queued for an input file, in input order. */
  function Tasks(text: string, output: string): seq<Task>
  {
    var urls := Lines(text);
    seq(|urls|, i requires 0 <= i < |urls| => Task(urls[i], OutputPath(output, urls[i]), i + 1, |urls|))
  }

  /** Unfolds `Tasks` field by field, as a helper for proofs about the
      batch run; `TasksOfJoin` states the property in terms of the file. */
  lemma TasksOfLines(text: string, output: string)
    ensures var urls := Lines(text);
            var r := Tasks(text, output);
            |r| == |urls| &&
            (forall i :: 0 <= i < |r| ==> r[i].url == urls[i] && r[i].url != "" && Lacks(r[i].url, '\n')) &&
            (forall i :: 0 <= i < |r| ==> r[i].currentFile == i + 1 && r[i].totalFiles == |urls|) &&
            (forall i :: 0 <= i < |r| ==>
               r[i].outputPath == output + "/" + DirName(urls[i]) + "/" + FileName(urls[i]) + ".mov")
  {
  }

  /** For a file written as newline-free lines, with or without a final
      newline, the tasks are its non-empty lines in order: task `i` carries
      the `i`-th such line, the ordinal `i + 1`, their count, and the path
      `<output>/<dir>/<name>.mov` of that line. */
  lemma TasksOfJoin(lines: seq<string>, output: string, text: string)
    requires |lines| >= 1
    requires forall k :: 0 <= k < |lines| ==> Lacks(lines[k], '\n')
    requires text == Join(lines, '\n') || text == Join(lines, '\n') + "\n"
    ensures var urls := NonEmpty(lines);
            var r := Tasks(text, output);
            |r| == |urls| &&
            forall i :: 0 <= i < |r| ==>
              r[i] == Task(urls[i], output + "/" + DirName(urls[i]) + "/" + FileName(urls[i]) + ".mov",
                           i + 1, |urls|)
  {
    LinesOfJoin(lines);
  }

  /** The directories created for an input file, one per task. */
  function Dirs(text: string, output: string): (r: seq<string>)
  {
    var urls := Lines(text);
    seq(|urls|, i requires 0 <= i < |urls| => OutputDir(output, urls[i]))
  }

  /** The events of the loading loop once it has handled the given tasks:
      for each task, create its directory, then queue it. */
  function LoadSteps(dirs: seq<string>, tasks: seq<Task>): seq<LoadEvent>
    requires |dirs| == |tasks|
  {
    if |tasks| == 0 then []
    else
      var n := |tasks| - 1;
      LoadSteps(dirs[..n], tasks[..n]) + [MakeDirectory(dirs[n]), Enqueue(tasks[n])]
  }

  /** Step `2 i` creates the directory of task `i` and step `2 i + 1` queues
      that task, so every task is queued right after its directory exists. */
  lemma {:induction false} LoadStepsOrder(dirs: seq<string>, tasks: seq<Task>)
    requires |dirs| == |tasks|
    ensures var r := LoadSteps(dirs, tasks);
            |r| == 2 * |tasks| &&
            forall i :: 0 <= i < |tasks| ==> r[2 * i] == MakeDirectory(dirs[i]) && r[2 * i + 1] == Enqueue(tasks[i])
    decreases |tasks|
  {
    if |tasks| > 0 {
      var n := |tasks| - 1;
      LoadStepsOrder(dirs[..n], tasks[..n]);
      assert forall i :: 0 <= i < n ==> dirs[..n][i] == dirs[i] && tasks[..n][i] == tasks[i];
    }
  }

  /** The loading loop (record_animation.js lines 175-185): for each non-empty
      line, create the output directory, then queue the task. */
  method LoadBatch(text: string, output: string) returns (events: seq<LoadEvent>)
    ensures events == LoadSteps(Dirs(text, output), Tasks(text, output))
    ensures var urls := Lines(text);
            |events| == 2 * |urls| &&
            forall i :: 0 <= i < |urls| ==>
              events[2 * i] == MakeDirectory(output + "/" + DirName(urls[i])) &&
              events[2 * i + 1] == Enqueue(Tasks(text, output)[i])
  {
    var urls := NonEmpty(Split(text, '\n'));
    var totalFiles := |urls|;
    ghost var dirs := Dirs(text, output);
    ghost var tasks := Tasks(text, output);
    events := [];
    var i := 0;
    while i < totalFiles
      invariant 0 <= i <= totalFiles
      invariant events == LoadSteps(dirs[..i], tasks[..i])
    {
      var url := urls[i];
      var dirName := DirName(url);
      var fileName := FileName(url);
      var outputDir := output + "/" + dirName;
      var task := Task(url, outputDir + "/" + fileName + ".mov", i + 1, totalFiles);
      assert outputDir == dirs[i] && task == tasks[i];
      LoadStepsSnoc(dirs, tasks, i);
      events := events + [MakeDirectory(outputDir), Enqueue(task)];
      i := i + 1;
    }
    assert dirs[..totalFiles] == dirs && tasks[..totalFiles] == tasks;
    assert forall k :: 0 <= k < totalFiles ==> dirs[k] == output + "/" + DirName(urls[k]);
    LoadStepsOrder(dirs, tasks);
  }

  /** One more turn of the loading loop appends one directory and one task. */
  lemma LoadStepsSnoc(dirs: seq<string>, tasks: seq<Task>, i: nat)
    requires |dirs| == |tasks| && i < |tasks|
    ensures LoadSteps(dirs[..i + 1], tasks[..i + 1]) ==
            LoadSteps(dirs[..i], tasks[..i]) + [MakeDirectory(dirs[i]), Enqueue(tasks[i])]
  {
    assert dirs[..i + 1][..i] == dirs[..i];
    assert tasks[..i + 1][..i] == tasks[..i];
  }

  /** A URL of the expected shape `<prefix><dir>/<name>.html` becomes
      `<output>/<dir>/<name>.mov`. */
  lemma OutputPathOfServerUrl(output: string, dir: string, name: string)
    requires Lacks(dir, '/') && Lacks(name, '/')
    requires !Occurs(name, HtmlSuffix)
    ensures OutputPath(output, ServerPrefix + dir + "/" + name + HtmlSuffix) ==
            output + "/" + dir + "/" + name + ".mov"
  {
    DirNameOfServerUrl(dir, name);
    FileNameOfHtml(ServerPrefix + dir, name);
    OutputPathOfSegments(output, ServerPrefix + dir + "/" + name + HtmlSuffix, dir, name);
  }

  /** The output path only depends on the two segments of the URL. */
  lemma OutputPathOfSegments(output: string, url: string, dir: string, name: string)
    requires DirName(url) == dir && FileName(url) == name
    ensures OutputPath(output, url) == output + "/" + dir + "/" + name + ".mov"
  {
  }

  /** Behind the server prefix, the directory is the text up to the next slash. */
  lemma DirNameOfServerUrl(dir: string, name: string)
    requires Lacks(dir, '/')
    ensures DirName(ServerPrefix + dir + "/" + name + HtmlSuffix) == dir
  {
    var tail := name + HtmlSuffix;
    var rest := dir + "/" + tail;
    assert ServerPrefix + dir + "/" + name + HtmlSuffix == ServerPrefix + rest by {
      Regroup(ServerPrefix + dir + "/", name, HtmlSuffix);
      Regroup(ServerPrefix, dir + "/", tail);
      Regroup(dir, "/", tail);
      Regroup(ServerPrefix, dir, "/");
    }
    DirNameStripsPrefix(rest);
    FirstSegmentAtSlash(dir, tail);
  }

  lemma Regroup(a: string, b: string, c: string)
    ensures a + b + c == a + (b + c)
  {
  }

  /** When the URL starts with the server prefix, the directory is the first
      segment of what follows it. */
  lemma DirNameStripsPrefix(rest: string)
    ensures DirName(ServerPrefix + rest) == FirstSegment(rest)
  {
    var url := ServerPrefix + rest;
    assert url[0..|ServerPrefix|] == ServerPrefix;
    assert OccursAt(url, ServerPrefix, 0);
    assert IndexOf(url, ServerPrefix) == Some(0);
    assert url[|ServerPrefix|..] == rest;
    assert ReplaceFirst(url, ServerPrefix, "") == rest;
  }

  /** A URL without the server prefix keeps its text before the first slash,
      so `https://host/x` gives the directory `https:`. */
  lemma DirNameWithoutPrefix(url: string)
    requires !Occurs(url, ServerPrefix)
    ensures DirName(url) == FirstSegment(url)
  {
  }

  lemma FirstSegmentAtSlash(head: string, tail: string)
    requires Lacks(head, '/')
    ensures FirstSegment(head + "/" + tail) == head
  {
    var s := head + "/" + tail;
    assert s[..|head|] == head;
    assert s[|head|] == '/';
    var found := IndexOfChar(s, '/');
    assert found.value == |head|;
  }

  /** `.html` cannot start inside a name free of `.html` and overlap the
      appended suffix, because no proper prefix of `.html` is also a suffix. */
  lemma HtmlSuffixFirst(name: string)
    requires !Occurs(name, HtmlSuffix)
    ensures FirstOccurrence(name + HtmlSuffix, HtmlSuffix, |name|)
  {
    var s := name + HtmlSuffix;
    assert s[|name|..] == HtmlSuffix;
    forall j | 0 <= j < |name|
      ensures !OccursAt(s, HtmlSuffix, j)
    {
      if j + |HtmlSuffix| <= |name| {
        assert name[j..j + |HtmlSuffix|] == s[j..j + |HtmlSuffix|];
        assert !OccursAt(name, HtmlSuffix, j);
      } else {
        assert s[j..j + |HtmlSuffix|][|name| - j] == '.';
        assert HtmlSuffix[|name| - j] != '.';
      }
    }
  }

  /** The file segment of `<anything>/<name>.html` is `<name>`. */
  lemma FileNameOfHtml(front: string, name: string)
    requires Lacks(name, '/')
    requires !Occurs(name, HtmlSuffix)
    ensures FileName(front + "/" + name + HtmlSuffix) == name
  {
    var base := name + HtmlSuffix;
    assert front + "/" + name + HtmlSuffix == front + "/" + base;
    assert Lacks(base, '/') by {
      assert forall k :: |name| <= k < |base| ==> base[k] == HtmlSuffix[k - |name|];
    }
    LastSegmentAfterSlash(front, base);
    HtmlSuffixFirst(name);
    assert base[..|name|] == name;
  }
}
