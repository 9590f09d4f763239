/** The task entity (src/domain/entities/task.ts): an identifier, a title, a status,
    attributes and the position of its checkbox line. */
module Tasks {
  import opened Wrappers
  import opened Text
  import opened Validation
  import opened TaskIds
  import opened TaskStatuses
  import opened TaskAttrs
  import opened Seqs

  /** Where the task's checkbox line is: file, zero-based line and column. */
  datatype TaskSource = TaskSource(filePath: string, line: int, column: int)

  datatype Task = Task(
    id: string,
    title: string,
    status: TaskStatus,
    attributes: TaskAttributes,
    source: TaskSource)

  const TitleMessage: string := "Task title must not be empty"
  const FilePathMessage: string := "String must contain at least 1 character(s)"
  const NegativeMessage: string := "Number must be greater than or equal to 0"

  /** `TaskTitleSchema` */
  function TitleSchema(title: string): (r: SchemaOutcome<string>)
    ensures r.Accepted? <==> title != []
    ensures r.Accepted? ==> r.data == title
  {
    if title != [] then Accepted(title) else Rejected([Issue([], TitleMessage)])
  }

  predicate IsValidSource(source: TaskSource) {
    source.filePath != [] && source.line >= 0 && source.column >= 0
  }

  /** `TaskSourceSchema`: a non-empty path and non-negative line and column. */
  function SourceSchema(source: TaskSource): (r: SchemaOutcome<TaskSource>)
    ensures r.Accepted? <==> IsValidSource(source)
    ensures r.Accepted? ==> r.data == source
  {
    var issues :=
      (if source.filePath == [] then [Issue(["filePath"], FilePathMessage)] else [])
      + (if source.line < 0 then [Issue(["line"], NegativeMessage)] else [])
      + (if source.column < 0 then [Issue(["column"], NegativeMessage)] else []);
    if issues == [] then Accepted(source) else Rejected(issues)
  }

  /** A task in the form `TaskSchema` accepts and leaves unchanged. */
  predicate IsValidTask(t: Task) {
    MatchesIdPattern(t.id) && t.title != [] && IsCanonical(t.attributes) && IsValidSource(t.source)
  }

  /** `TaskSchema`: every field is checked by its own schema; the identifier is
      upper-cased and the attributes transformed on the way out. */
  function TaskSchema(t: Task): (r: SchemaOutcome<Task>)
    ensures r.Accepted? <==>
      MatchesIdPattern(Upper(t.id)) && t.title != [] && AttributesAccepted(t.attributes) && IsValidSource(t.source)
    ensures r.Accepted? ==>
      r.data == Task(Upper(t.id), t.title, t.status, AttributesSchema(t.attributes).data, t.source)
  {
    var id := TaskIdSchema(t.id);
    var title := TitleSchema(t.title);
    var attributes := AttributesSchema(t.attributes);
    var source := SourceSchema(t.source);
    var issues :=
      (if id.Rejected? then Prefixed(["id"], id.issues) else [])
      + (if title.Rejected? then Prefixed(["title"], title.issues) else [])
      + (if attributes.Rejected? then Prefixed(["attributes"], attributes.issues) else [])
      + (if source.Rejected? then Prefixed(["source"], source.issues) else []);
    if id.Accepted? && title.Accepted? && attributes.Accepted? && source.Accepted? then
      Accepted(Task(id.data, title.data, t.status, attributes.data, source.data))
    else Rejected(issues)
  }

  /** What `TaskSchema` accepts comes out valid: an upper-case identifier matching a
      pattern, and tags and dependencies free of repeats. */
  lemma SchemaOutputValid(t: Task)
    ensures var r := TaskSchema(t);
      r.Accepted? ==>
        && IsValidTask(r.data)
        && (r.data.attributes.tags.Some? ==> NoDuplicates(r.data.attributes.tags.value))
        && (r.data.attributes.depends.Some? ==> NoDuplicates(r.data.attributes.depends.value))
  {
    if TaskSchema(t).Accepted? {
      SchemaOutputCanonical(t.attributes);
    }
  }

  /** A valid task passes `TaskSchema` unchanged. */
  lemma ValidTaskPassesSchema(t: Task)
    requires IsValidTask(t)
    ensures TaskSchema(t) == Accepted(t)
  {
    CanonicalIdShape(t.id);
    UpperOfUpper(t.id);
    SchemaKeepsCanonical(t.attributes);
  }
}
