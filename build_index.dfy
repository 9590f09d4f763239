/** Building the index from scanned files
    (src/application/usecases/build-task-index.usecase.ts) and the service that owns
    the index's life cycle (src/application/services/task-index.service.ts). The
    parser, the scanner and the settings reader are parameters. */
module BuildIndex {
  import opened Wrappers
  import opened Js
  import opened Tasks
  import opened TaskFactory
  import opened TaskOrder
  import opened TaskIndex
  import opened MarkdownParser
  import opened TaskScanner
  import opened ExtensionSettings

  /** `BuildTaskIndexIssue`: a parser issue tagged with the file it came from. */
  datatype IndexIssue = IndexIssue(message: string, line: nat, column: nat, detail: FactoryError, filePath: string)

  /** `BuildTaskIndexOutput` */
  datatype BuildOutput = BuildOutput(tasks: seq<Task>, issues: seq<IndexIssue>)

  /** The parser port: one file in, its tasks and issues out. */
  type Parser = ParserInput -> ParserOutput

  function Tagged(issue: ParserIssue, filePath: string): IndexIssue {
    IndexIssue(issue.message, issue.line, issue.column, issue.detail, filePath)
  }

  /** The issues of one file, each tagged with the file's path. */
  function WithPath(issues: seq<ParserIssue>, filePath: string): (r: seq<IndexIssue>)
    ensures |r| == |issues|
    ensures forall i :: 0 <= i < |issues| ==> r[i] == Tagged(issues[i], filePath)
  {
    if issues == [] then [] else WithPath(issues[..|issues| - 1], filePath) + [Tagged(issues[|issues| - 1], filePath)]
  }

  /** Every file's tasks, file after file, each file's in the parser's order. */
  function AllTasks(files: seq<ParserInput>, parse: Parser): seq<Task> {
    if files == [] then []
    else AllTasks(files[..|files| - 1], parse) + parse(files[|files| - 1]).tasks
  }

  /** Every file's issues, tagged, file after file. */
  function AllIssues(files: seq<ParserInput>, parse: Parser): seq<IndexIssue> {
    if files == [] then []
    else AllIssues(files[..|files| - 1], parse) + WithPath(parse(files[|files| - 1]).issues, files[|files| - 1].filePath)
  }

  function BuildResult(files: seq<ParserInput>, parse: Parser): BuildOutput {
    BuildOutput(AllTasks(files, parse), AllIssues(files, parse))
  }

  /** A task is in the build output exactly when the parser produced it for one of
      the files. */
  lemma {:induction false} AllTasksMembers(files: seq<ParserInput>, parse: Parser, t: Task)
    ensures t in AllTasks(files, parse) <==> exists i :: 0 <= i < |files| && t in parse(files[i]).tasks
  {
    if files != [] {
      var init := files[..|files| - 1];
      AllTasksMembers(init, parse, t);
      if exists i :: 0 <= i < |files| && t in parse(files[i]).tasks {
        var i :| 0 <= i < |files| && t in parse(files[i]).tasks;
        if i < |init| {
          assert init[i] == files[i];
        }
      }
      if exists i :: 0 <= i < |init| && t in parse(init[i]).tasks {
        var i :| 0 <= i < |init| && t in parse(init[i]).tasks;
        assert files[i] == init[i];
      }
    }
  }

  /** Building from two lists of files concatenates the two outputs, so files keep
      their order and nothing is dropped or merged. */
  lemma BuildResultAppend(a: seq<ParserInput>, b: seq<ParserInput>, parse: Parser)
    ensures AllTasks(a + b, parse) == AllTasks(a, parse) + AllTasks(b, parse)
    ensures AllIssues(a + b, parse) == AllIssues(a, parse) + AllIssues(b, parse)
  {
    AllTasksAppend(a, b, parse);
    AllIssuesAppend(a, b, parse);
  }

  lemma {:induction false} AllTasksAppend(a: seq<ParserInput>, b: seq<ParserInput>, parse: Parser)
    ensures AllTasks(a + b, parse) == AllTasks(a, parse) + AllTasks(b, parse)
    decreases |b|
  {
    if b == [] {
      assert a + b == a;
    } else {
      var init := b[..|b| - 1];
      var last := b[|b| - 1];
      assert (a + b)[..|a + b| - 1] == a + init;
      assert (a + b)[|a + b| - 1] == last;
      AllTasksAppend(a, init, parse);
      assert AllTasks(a + b, parse) == AllTasks(a + init, parse) + parse(last).tasks;
      assert AllTasks(b, parse) == AllTasks(init, parse) + parse(last).tasks;
    }
  }

  lemma {:induction false} AllIssuesAppend(a: seq<ParserInput>, b: seq<ParserInput>, parse: Parser)
    ensures AllIssues(a + b, parse) == AllIssues(a, parse) + AllIssues(b, parse)
    decreases |b|
  {
    if b == [] {
      assert a + b == a;
    } else {
      var init := b[..|b| - 1];
      var last := b[|b| - 1];
      assert (a + b)[..|a + b| - 1] == a + init;
      assert (a + b)[|a + b| - 1] == last;
      AllIssuesAppend(a, init, parse);
      var tagged := WithPath(parse(last).issues, last.filePath);
      assert AllIssues(a + b, parse) == AllIssues(a + init, parse) + tagged;
      assert AllIssues(b, parse) == AllIssues(init, parse) + tagged;
    }
  }

  /** Each issue carries the path of a file whose parse reported it. */
  lemma {:induction false} AllIssuesTagged(files: seq<ParserInput>, parse: Parser, k: nat)
    requires k < |AllIssues(files, parse)|
    ensures exists i, j ::
              && 0 <= i < |files| && 0 <= j < |parse(files[i]).issues|
              && AllIssues(files, parse)[k] == Tagged(parse(files[i]).issues[j], files[i].filePath)
  {
    var init := files[..|files| - 1];
    var last := files[|files| - 1];
    var head := AllIssues(init, parse);
    if k < |head| {
      AllIssuesTagged(init, parse, k);
      var i, j :| 0 <= i < |init| && 0 <= j < |parse(init[i]).issues| &&
        head[k] == Tagged(parse(init[i]).issues[j], init[i].filePath);
      assert files[i] == init[i];
    } else {
      var j := k - |head|;
      assert AllIssues(files, parse)[k] == WithPath(parse(last).issues, last.filePath)[j];
    }
  }

  /** `collectIssues`: nothing to do for a parse without issues; otherwise each
      issue is appended with the file's path. */
  method CollectIssues(result: ParserOutput, filePath: string, store: seq<IndexIssue>) returns (stored: seq<IndexIssue>)
    ensures stored == store + WithPath(result.issues, filePath)
  {
    stored := store;
    if |result.issues| == 0 {
      return;
    }
    for i := 0 to |result.issues|
      invariant stored == store + WithPath(result.issues[..i], filePath)
    {
      assert result.issues[..i + 1][..i] == result.issues[..i];
      stored := stored + [Tagged(result.issues[i], filePath)];
    }
    assert result.issues[..|result.issues|] == result.issues;
  }

  /** `execute`: parses every file, collects the tasks and issues, and replaces the
      index contents with the tasks in one step. */
  method Execute(files: seq<ParserInput>, parse: Parser, writer: InMemoryTaskIndex) returns (output: BuildOutput)
    modifies writer
    ensures output == BuildResult(files, parse)
    ensures (writer.byId, writer.byFile) == Loaded(output.tasks)
    ensures DistinctIds(output.tasks) ==> writer.Valid()
  {
    var aggregatedTasks: seq<Task> := [];
    var aggregatedIssues: seq<IndexIssue> := [];
    for i := 0 to |files|
      invariant aggregatedTasks == AllTasks(files[..i], parse)
      invariant aggregatedIssues == AllIssues(files[..i], parse)
    {
      assert files[..i + 1][..i] == files[..i];
      var result := parse(files[i]);
      aggregatedTasks := aggregatedTasks + result.tasks;
      aggregatedIssues := CollectIssues(result, files[i].filePath, aggregatedIssues);
    }
    assert files[..|files|] == files;
    writer.Replace(aggregatedTasks);
    output := BuildOutput(aggregatedTasks, aggregatedIssues);
  }

  /** `mergeScannerOptions`: each list from the explicit options when present,
      else from the settings; absent when neither has either list. */
  function MergeScannerOptions(primary: Option<ScannerOptions>, fallback: Option<ScannerOptions>): (r: Option<ScannerOptions>)
    ensures r.None? <==> IncludeOf(primary).None? && IncludeOf(fallback).None? &&
                         ExcludeOf(primary).None? && ExcludeOf(fallback).None?
    ensures r.Some? ==> r.value.includes == (if IncludeOf(primary).Some? then IncludeOf(primary) else IncludeOf(fallback))
    ensures r.Some? ==> r.value.excludes == (if ExcludeOf(primary).Some? then ExcludeOf(primary) else ExcludeOf(fallback))
  {
    var includes := if IncludeOf(primary).Some? then IncludeOf(primary) else IncludeOf(fallback);
    var excludes := if ExcludeOf(primary).Some? then ExcludeOf(primary) else ExcludeOf(fallback);
    if includes.None? && excludes.None? then None
    else Some(ScannerOptions(includes, excludes))
  }

  /** Explicit options that set both lists make the settings irrelevant. */
  lemma ExplicitOptionsWin(primary: ScannerOptions, fallback: Option<ScannerOptions>)
    requires primary.includes.Some? && primary.excludes.Some?
    ensures MergeScannerOptions(Some(primary), fallback) == Some(primary)
  {
  }

  /** Without settings the explicit options pass through, except that options
      setting neither list read as absent. */
  lemma MergeWithoutSettings(primary: Option<ScannerOptions>)
    ensures MergeScannerOptions(primary, None) ==
      if primary.Some? && (primary.value.includes.Some? || primary.value.excludes.Some?) then primary else None
  {
  }

  /** The scanner port: workspace folders and options in, files out. */
  type Scanner = (seq<WorkspaceFolder>, Option<ScannerOptions>) -> seq<ParserInput>

  /** What the service hands the scanner: the explicit options merged over the
      settings, when a settings reader is configured. */
  function ScanOptions(options: Option<ScannerOptions>, settings: Option<string -> JsValue>): Option<ScannerOptions> {
    MergeScannerOptions(options, if settings.Some? then GetScannerOptions(settings.value) else None)
  }

  const NotInitializedMessage: string := "TaskIndexService is not initialized"

  /** `TaskIndexService`: the index is listed only after a first build, and the
      last build's issues are kept. The index is both the build's writer and the
      repository that is listed. */
  class TaskIndexService {
    var initialized: bool
    var issues: seq<IndexIssue>
    const index: InMemoryTaskIndex
    const scan: Scanner
    const parse: Parser
    const settings: Option<string -> JsValue>

    constructor(index: InMemoryTaskIndex, scan: Scanner, parse: Parser, settings: Option<string -> JsValue>)
      ensures !initialized && issues == []
      ensures this.index == index && this.scan == scan && this.parse == parse && this.settings == settings
    {
      initialized := false;
      issues := [];
      this.index := index;
      this.scan := scan;
      this.parse := parse;
      this.settings := settings;
    }

    /** `initialize`: scans with the merged options, rebuilds the index and keeps
        the issues. Calling it again rebuilds from scratch. */
    method Initialize(folders: seq<WorkspaceFolder>, options: Option<ScannerOptions>)
      modifies this, index
      ensures initialized
      ensures var built := BuildResult(scan(folders, ScanOptions(options, settings)), parse);
        issues == built.issues && (index.byId, index.byFile) == Loaded(built.tasks)
    {
      var settingsOptions := if settings.Some? then GetScannerOptions(settings.value) else None;
      var mergedOptions := MergeScannerOptions(options, settingsOptions);
      var files := scan(folders, mergedOptions);
      var result := Execute(files, parse, index);
      issues := result.issues;
      initialized := true;
    }

    /** `listAll`: refused before the first `initialize`; otherwise the index's
        listing. */
    method ListAll() returns (r: Result<seq<Task>, string>)
      ensures !initialized ==> r == Err(NotInitializedMessage)
      ensures initialized ==> r.Ok? && Sorted(r.value) && |r.value| == |index.byId|
      ensures initialized ==> r.Ok? && forall t :: t in r.value <==> t in index.byId.Values
    {
      if !initialized {
        return Err(NotInitializedMessage);
      }
      var listed := index.ListAll();
      return Ok(listed);
    }

    /** `getIssues`: needs no initialisation; empty until the first build. */
    method GetIssues() returns (r: seq<IndexIssue>)
      ensures r == issues
    {
      r := issues;
    }
  }
}
