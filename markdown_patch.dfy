/** The patch engine (src/infrastructure/patch/markdown-patch.service.ts): it inserts,
    rewrites or removes one task line of a Markdown file and leaves every other line
    byte for byte as it was. */
module MarkdownPatch {
  import opened Wrappers
  import opened Text
  import opened TaskStatuses
  import opened TaskAttrs
  import opened Tasks
  import opened FileSystems

  /** `PatchServiceError`, without the `CONFLICT` case nothing produces. */
  datatype PatchError =
    | FileNotFound(filePath: string)
    | ParseError(message: string)
    | TaskNotFound(taskId: string)
    | WriteError(message: string)

  /** `PatchOperation`: an insert at an optional line, an update of the task's own
      line, or a delete by id. */
  datatype PatchOperation =
    | Insert(filePath: string, task: Task, insertLine: Option<int>)
    | Update(task: Task)
    | Delete(taskId: string, filePath: string)

  // ---------------------------------------------------------------------------
  // Errors

  /** `mapFileSystemError`: a missing file stays a missing file, a read failure
      becomes a parse error, and everything else is reported as a write error. */
  function MapFileSystemError(e: FileSystemError): (r: PatchError)
    ensures r.FileNotFound? <==> e.kind == FileNotFoundKind
    ensures r.ParseError? <==> e.kind == ReadErrorKind
    ensures r.WriteError? <==> e.kind != FileNotFoundKind && e.kind != ReadErrorKind
    ensures r.FileNotFound? ==> r.filePath == e.filePath.GetOr("")
    ensures r.ParseError? ==> r.message == e.message.GetOr("Failed to read file")
    ensures e.kind == WriteErrorKind ==> r.message == e.message.GetOr("Failed to write file")
  {
    if e.kind == FileNotFoundKind then FileNotFound(e.filePath.GetOr(""))
    else if e.kind == ReadErrorKind then ParseError(e.message.GetOr("Failed to read file"))
    else if e.kind == WriteErrorKind then WriteError(e.message.GetOr("Failed to write file"))
    else WriteError("Unknown file system error")
  }

  // ---------------------------------------------------------------------------
  // The one-line task format

  /** `key: value` for a present, non-empty string; nothing otherwise. */
  function ScalarPart(key: string, value: Option<string>): seq<string> {
    if value.Some? && value.value != [] then [key + ": " + value.value] else []
  }

  /** `key: [a, b]` for a present, non-empty list; nothing otherwise. */
  function ListPart(key: string, value: Option<seq<string>>): seq<string> {
    if value.Some? && |value.value| > 0 then [key + ": [" + Join(value.value, ", ") + "]"] else []
  }

  /** The entries of the attribute block, in the order the formatter writes them. */
  function AttributeParts(t: Task): (r: seq<string>)
    ensures |r| >= 1 && r[0] == "id: " + t.id
  {
    ["id: " + t.id]
    + (if t.status != Todo then ["status: " + t.status.Name()] else [])
    + ScalarPart("project", t.attributes.project)
    + ScalarPart("assignee", t.attributes.assignee)
    + ScalarPart("due", t.attributes.due)
    + ListPart("tags", t.attributes.tags)
    + ListPart("depends", t.attributes.depends)
  }

  /** `formatAttributes` */
  function FormatAttributes(t: Task): string {
    "{" + Join(AttributeParts(t), ", ") + "}"
  }

  /** The checkbox: ticked exactly for a finished task. */
  function Checkbox(status: TaskStatus): (r: string)
    ensures |r| == 3 && r[0] == '[' && r[2] == ']'
    ensures r[1] == 'x' <==> status == Done
    ensures r[1] == ' ' <==> status != Done
  {
    if status == Done then "[x]" else "[ ]"
  }

  /** `formatTaskLine` without its indentation. */
  function TaskLineBody(t: Task): string {
    "- " + Checkbox(t.status) + " " + t.title + " " + FormatAttributes(t)
  }

  /** `formatTaskLine` */
  function FormatTaskLine(t: Task, indentation: string): string {
    indentation + TaskLineBody(t)
  }

  /** Everything before the identifier: the indentation, the bullet, the checkbox,
      the title and the opening of the block. */
  function LineHead(t: Task, indentation: string): string {
    indentation + "- " + Checkbox(t.status) + " " + t.title + " {"
  }

  /** The formatted line is the head, then the block that opens with the
      identifier and closes the line. */
  lemma FormattedLineShape(t: Task, indentation: string)
    ensures FormatTaskLine(t, indentation) == LineHead(t, indentation) + "id: " + t.id + (AttributesTail(t) + "}")
  {
    var parts := AttributeParts(t);
    assert Join(parts, ", ") == parts[0] + AttributesTail(t);
    Regroup(indentation, Checkbox(t.status), t.title, t.id, AttributesTail(t));
  }

  lemma Regroup(indentation: string, checkbox: string, title: string, id: string, tail: string)
    ensures indentation + ("- " + checkbox + " " + title + " " + ("{" + ("id: " + id + tail) + "}"))
      == (indentation + "- " + checkbox + " " + title + " {") + "id: " + id + (tail + "}")
  {
  }

  /** What follows the identifier inside the block: nothing, or `, ` and the rest. */
  function AttributesTail(t: Task): (r: string)
    ensures r == [] || r[0] == ','
  {
    var parts := AttributeParts(t);
    if |parts| == 1 then [] else ", " + Join(parts[1..], ", ")
  }

  /** The status entry is written exactly when the status is not `todo`, and the
      checkbox alone tells a finished task. */
  lemma StatusEntryIffNotTodo(t: Task)
    ensures t.status != Todo <==> |AttributeParts(t)| >= 2 && AttributeParts(t)[1] == "status: " + t.status.Name()
  {
    var parts := AttributeParts(t);
    if t.status == Todo && |parts| >= 2 && parts[1] == "status: " + t.status.Name() {
      var rest := ScalarPart("project", t.attributes.project)
        + ScalarPart("assignee", t.attributes.assignee)
        + ScalarPart("due", t.attributes.due)
        + ListPart("tags", t.attributes.tags)
        + ListPart("depends", t.attributes.depends);
      assert parts == ["id: " + t.id] + rest;
      assert parts[1] == rest[0];
      assert parts[1][..2] == "st";
      NoOtherPartStartsLikeStatus(t, rest[0]);
      assert false;
    }
  }

  /** Only the status entry begins with `st`. */
  lemma NoOtherPartStartsLikeStatus(t: Task, part: string)
    requires part in ScalarPart("project", t.attributes.project)
      + ScalarPart("assignee", t.attributes.assignee)
      + ScalarPart("due", t.attributes.due)
      + ListPart("tags", t.attributes.tags)
      + ListPart("depends", t.attributes.depends)
    ensures |part| < 2 || part[..2] != "st"
  {
    var a := t.attributes;
    if part in ScalarPart("project", a.project) {
      assert part[..2] == "pr";
    } else if part in ScalarPart("assignee", a.assignee) {
      assert part[..2] == "as";
    } else if part in ScalarPart("due", a.due) {
      assert part[..2] == "du";
    } else if part in ListPart("tags", a.tags) {
      assert part[..2] == "ta";
    } else {
      assert part in ListPart("depends", a.depends);
      assert part[..2] == "de";
    }
  }

  // ---------------------------------------------------------------------------
  // Finding a task line: `\bid:\s*<id>\b`

  /** `\b` between positions `q - 1` and `q`: a word character on one side only. */
  predicate WordBoundary(s: string, q: nat)
    requires q <= |s|
  {
    (q > 0 && IsWordChar(s[q - 1])) != (q < |s| && IsWordChar(s[q]))
  }

  /** The pattern matches with `id:` at `p` and the identifier at `q`. The identifier
      is escaped before it enters the pattern, so it matches literally. */
  predicate IdMatchAt(line: string, id: string, p: nat, q: nat) {
    && p + 3 <= q && q + |id| <= |line|
    && WordBoundary(line, p)
    && line[p..p + 3] == "id:"
    && AllWhitespace(line[p + 3..q])
    && line[q..q + |id|] == id
    && WordBoundary(line, q + |id|)
  }

  predicate MentionsId(line: string, id: string) {
    exists p: nat, q: nat | p <= q <= |line| :: IdMatchAt(line, id, p, q)
  }

  /** `findTaskLineById`: the first line the pattern matches, if any. */
  function FindTaskLine(lines: seq<string>, id: string): (r: Option<nat>)
    ensures r.Some? ==> r.value < |lines| && MentionsId(lines[r.value], id)
    ensures r.Some? ==> forall j :: 0 <= j < r.value ==> !MentionsId(lines[j], id)
    ensures r.None? ==> forall j :: 0 <= j < |lines| ==> !MentionsId(lines[j], id)
  {
    if |lines| == 0 then None
    else if MentionsId(lines[0], id) then Some(0)
    else match FindTaskLine(lines[1..], id)
      case None => None
      case Some(i) => Some(i + 1)
  }

  /** A line whose identifier sits between a non-word character and `id: `, and
      ends on a word character followed by a non-word character, is found. */
  lemma MentionsIdIn(before: string, id: string, after: string)
    requires before != [] && !IsWordChar(before[|before| - 1])
    requires id != [] && IsWordChar(id[|id| - 1])
    requires after != [] && !IsWordChar(after[0])
    ensures MentionsId(before + "id: " + id + after, id)
  {
    var line := before + "id: " + id + after;
    var p := |before|;
    var q := p + 4;
    assert line[p - 1] == before[|before| - 1];
    assert line[p] == 'i';
    assert line[p..p + 3] == "id:";
    assert line[p + 3..q] == " ";
    assert line[q..q + |id|] == id;
    assert line[q + |id| - 1] == id[|id| - 1];
    assert line[q + |id|] == after[0];
    assert IdMatchAt(line, id, p, q);
  }

  /** A formatted line is found again by its own identifier, provided that
      identifier ends on a word character (every valid identifier does). */
  lemma FormattedLineMentionsId(t: Task, indentation: string)
    requires t.id != [] && IsWordChar(t.id[|t.id| - 1])
    ensures MentionsId(FormatTaskLine(t, indentation), t.id)
  {
    FormattedLineShape(t, indentation);
    MentionsIdIn(LineHead(t, indentation), t.id, AttributesTail(t) + "}");
  }

  // ---------------------------------------------------------------------------
  // Line edits

  /** The lines after an insert: at `insertLine` when it is a position of the
      sequence, else appended after a blank separator line unless the last line is
      already blank. */
  function InsertedLines(lines: seq<string>, taskLine: string, insertLine: Option<int>): seq<string> {
    if insertLine.Some? && 0 <= insertLine.value <= |lines| then
      lines[..insertLine.value] + [taskLine] + lines[insertLine.value..]
    else
      (if |lines| == 0 || lines[|lines| - 1] != "" then lines + [""] else lines) + [taskLine]
  }

  /** An insert in range puts the line at that index and shifts the rest by one. */
  lemma InsertAtIndex(lines: seq<string>, taskLine: string, at: int)
    requires 0 <= at <= |lines|
    ensures var r := InsertedLines(lines, taskLine, Some(at));
      && |r| == |lines| + 1 && r[at] == taskLine
      && (forall j :: 0 <= j < at ==> r[j] == lines[j])
      && (forall j :: at <= j < |lines| ==> r[j + 1] == lines[j])
  {
  }

  /** Any other insert keeps every line, adds a blank line when the file does not
      already end in one, and puts the task line last. */
  lemma InsertAtEnd(lines: seq<string>, taskLine: string, insertLine: Option<int>)
    requires insertLine.None? || insertLine.value < 0 || insertLine.value > |lines|
    ensures var r := InsertedLines(lines, taskLine, insertLine);
      && |r| >= 2 && r[..|lines|] == lines && r[|r| - 1] == taskLine && r[|r| - 2] == ""
      && |r| == (if |lines| > 0 && lines[|lines| - 1] == "" then |lines| + 1 else |lines| + 2)
  {
  }

  /** The lines after an update: the found line, replaced by the formatted task
      under that line's own indentation. */
  function UpdatedLines(lines: seq<string>, i: nat, t: Task): seq<string>
    requires i < |lines|
  {
    lines[i := FormatTaskLine(t, LeadingWhitespace(lines[i]))]
  }

  /** An update changes only the found line, keeps the count of lines, and the new
      line keeps the indentation of the old one. */
  lemma UpdateKeepsOtherLines(lines: seq<string>, i: nat, t: Task)
    requires i < |lines|
    ensures var r := UpdatedLines(lines, i, t);
      && |r| == |lines|
      && (forall j :: 0 <= j < |lines| && j != i ==> r[j] == lines[j])
      && LeadingWhitespace(r[i]) == LeadingWhitespace(lines[i])
      && r[i][|LeadingWhitespace(lines[i])|..] == TaskLineBody(t)
  {
    var w := LeadingWhitespace(lines[i]);
    LeadingWhitespaceOf(w, TaskLineBody(t));
  }

  /** The lines after a delete: the found line is gone. */
  function DeletedLines(lines: seq<string>, i: nat): seq<string>
    requires i < |lines|
  {
    lines[..i] + lines[i + 1..]
  }

  /** A delete removes that one line and keeps the others in order. */
  lemma DeleteKeepsOtherLines(lines: seq<string>, i: nat)
    requires i < |lines|
    ensures var r := DeletedLines(lines, i);
      && |r| == |lines| - 1
      && (forall j :: 0 <= j < i ==> r[j] == lines[j])
      && (forall j :: i < j < |lines| ==> r[j - 1] == lines[j])
  {
  }

  // ---------------------------------------------------------------------------
  // Whole operations

  /** The file an operation reads and writes. */
  function TargetPath(op: PatchOperation): string {
    match op
    case Insert(filePath, _, _) => filePath
    case Update(task) => task.source.filePath
    case Delete(_, filePath) => filePath
  }

  /** The new lines of a file, or TASK_NOT_FOUND when an update or delete finds no
      line with the identifier. */
  function EditedLines(op: PatchOperation, lines: seq<string>): (r: Result<seq<string>, PatchError>)
    ensures op.Insert? ==> r.Ok?
    ensures op.Update? ==> (r.Err? <==> FindTaskLine(lines, op.task.id).None?)
    ensures op.Delete? ==> (r.Err? <==> FindTaskLine(lines, op.taskId).None?)
    ensures r.Err? ==> r.error == TaskNotFound(if op.Update? then op.task.id else op.taskId)
  {
    match op
    case Insert(_, task, insertLine) => Ok(InsertedLines(lines, FormatTaskLine(task, ""), insertLine))
    case Update(task) =>
      (match FindTaskLine(lines, task.id)
       case None => Err(TaskNotFound(task.id))
       case Some(i) => Ok(UpdatedLines(lines, i, task)))
    case Delete(taskId, _) =>
      (match FindTaskLine(lines, taskId)
       case None => Err(TaskNotFound(taskId))
       case Some(i) => Ok(DeletedLines(lines, i)))
  }

  /** The new content of a file: split on line feeds, edited, joined again. */
  function PatchedContent(op: PatchOperation, content: string): Result<string, PatchError> {
    match EditedLines(op, Split(content, '\n'))
    case Ok(lines) => Ok(Join(lines, "\n"))
    case Err(e) => Err(e)
  }

  /** What `applyPatch` does to a file map: the new content of the target file, or
      the error that stops it before anything is written. */
  function Patched(op: PatchOperation, files: map<string, string>): (r: Result<string, PatchError>)
    ensures TargetPath(op) !in files ==> r == Err(FileNotFound(TargetPath(op)))
    ensures TargetPath(op) in files ==> r == PatchedContent(op, files[TargetPath(op)])
  {
    match Lookup(files, TargetPath(op))
    case Err(e) => Err(MapFileSystemError(e))
    case Ok(content) => PatchedContent(op, content)
  }

  /** Updating a task line twice gives the same file as updating it once, for a
      task whose identifier ends on a word character and whose formatted line holds
      no line feed. */
  lemma UpdateIdempotent(t: Task, content: string)
    requires t.id != [] && IsWordChar(t.id[|t.id| - 1])
    requires '\n' !in TaskLineBody(t)
    requires PatchedContent(Update(t), content).Ok?
    ensures var once := PatchedContent(Update(t), content).value;
      PatchedContent(Update(t), once) == Ok(once)
  {
    var lines := Split(content, '\n');
    var i := FindTaskLine(lines, t.id).value;
    var edited := UpdatedLines(lines, i, t);
    UpdatedLinesLackNewline(content, i, t);
    SplitJoin(edited, '\n');
    UpdateFindsItsOwnLine(lines, i, t);
  }

  /** An update writes no line feed unless the formatted task holds one. */
  lemma UpdatedLinesLackNewline(content: string, i: nat, t: Task)
    requires i < |Split(content, '\n')|
    requires '\n' !in TaskLineBody(t)
    ensures var edited := UpdatedLines(Split(content, '\n'), i, t);
      forall k :: 0 <= k < |edited| ==> '\n' !in edited[k]
  {
    SplitPiecesLackSeparator(content, '\n');
  }

  /** After an update the search finds the rewritten line where the old one was,
      and rewriting it again changes nothing. */
  lemma UpdateFindsItsOwnLine(lines: seq<string>, i: nat, t: Task)
    requires t.id != [] && IsWordChar(t.id[|t.id| - 1])
    requires FindTaskLine(lines, t.id) == Some(i)
    ensures var edited := UpdatedLines(lines, i, t);
      && FindTaskLine(edited, t.id) == Some(i)
      && UpdatedLines(edited, i, t) == edited
  {
    var w := LeadingWhitespace(lines[i]);
    var edited := UpdatedLines(lines, i, t);
    FormattedLineMentionsId(t, w);
    FirstMentionIs(edited, t.id, i);
    UpdateKeepsOtherLines(lines, i, t);
  }

  /** The first line that mentions the identifier is what the search finds. */
  lemma {:induction false} FirstMentionIs(lines: seq<string>, id: string, i: nat)
    requires i < |lines| && MentionsId(lines[i], id)
    requires forall j :: 0 <= j < i ==> !MentionsId(lines[j], id)
    ensures FindTaskLine(lines, id) == Some(i)
  {
    if i > 0 {
      FirstMentionIs(lines[1..], id, i - 1);
    }
  }

  /** The patch engine over the in-memory file map. */
  class MarkdownPatchService {
    const files: InMemoryFileSystem

    constructor(files: InMemoryFileSystem)
      ensures this.files == files
    {
      this.files := files;
    }

    /** `applyPatch`: on success exactly the target file is rewritten with the
        patched content; on any error no file changes. */
    method ApplyPatch(op: PatchOperation) returns (r: Result<(), PatchError>)
      modifies files
      ensures var p := Patched(op, old(files.files));
        && (p.Ok? ==> r == Ok(()) && files.files == old(files.files)[TargetPath(op) := p.value])
        && (p.Err? ==> r == Err(p.error) && files.files == old(files.files))
    {
      var filePath := TargetPath(op);
      var contentResult := files.ReadFile(filePath);
      if contentResult.Err? {
        return Err(MapFileSystemError(contentResult.error));
      }
      var lines := Split(contentResult.value, '\n');
      match op {
        case Insert(_, task, insertLine) =>
          var taskLine := FormatTaskLine(task, "");
          if insertLine.Some? && 0 <= insertLine.value <= |lines| {
            lines := lines[..insertLine.value] + [taskLine] + lines[insertLine.value..];
          } else {
            if |lines| == 0 || lines[|lines| - 1] != "" {
              lines := lines + [""];
            }
            lines := lines + [taskLine];
          }
        case Update(task) =>
          var found := FindTaskLine(lines, task.id);
          if found.None? {
            return Err(TaskNotFound(task.id));
          }
          var indentation := LeadingWhitespace(lines[found.value]);
          lines := lines[found.value := FormatTaskLine(task, indentation)];
        case Delete(taskId, _) =>
          var found := FindTaskLine(lines, taskId);
          if found.None? {
            return Err(TaskNotFound(taskId));
          }
          lines := lines[..found.value] + lines[found.value + 1..];
      }
      var writeResult := files.WriteFile(filePath, Join(lines, "\n"));
      r := Ok(());
    }
  }
}
