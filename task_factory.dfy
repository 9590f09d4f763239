/** Building a task from raw strings (src/domain/services/task-factory.ts): each field
    is checked on its own, every failed check adds one tagged issue, and only a task
    whose five checks all pass is created. */
module TaskFactory {
  import opened Wrappers
  import opened Text
  import opened Seqs
  import opened Js
  import opened Validation
  import opened TaskIds
  import opened TaskStatuses
  import opened TaskAttrs
  import opened Tasks

  datatype Reason = ReasonTaskId | ReasonTaskStatus | ReasonTaskTitle | ReasonTaskAttributes | ReasonTaskSource

  datatype FactoryIssue = FactoryIssue(reason: Reason, message: string)

  datatype FactoryError = FactoryError(message: string, reasons: seq<Reason>, issues: seq<FactoryIssue>)

  /** `TaskFactoryInput`: the attribute inputs are optional objects. */
  datatype FactoryInput = FactoryInput(
    id: string,
    title: string,
    status: string,
    attributes: Option<AttributesInput>,
    defaults: Option<AttributesInput>,
    source: TaskSource)

  const CreationError: string := "Failed to create Task"
  const SchemaFailure: string := "Task schema validation failed"

  /** `{...(defaults ?? {}), ...(attributes ?? {})}` */
  function MergeAttributeInputs(defaults: Option<AttributesInput>, attributes: Option<AttributesInput>): AttributesInput {
    SpreadInput(defaults.GetOr(NoAttributesInput), attributes.GetOr(NoAttributesInput))
  }

  /** A key present inline wins, even when it holds nothing; otherwise the default's
      key, if any, is kept. */
  lemma InlineOverridesDefaults(defaults: AttributesInput, attributes: AttributesInput)
    ensures var m := MergeAttributeInputs(Some(defaults), Some(attributes));
      (m.project == if attributes.project.Unset? then defaults.project else attributes.project)
      && (m.assignee == if attributes.assignee.Unset? then defaults.assignee else attributes.assignee)
      && (m.tags == if attributes.tags.Unset? then defaults.tags else attributes.tags)
      && (m.due == if attributes.due.Unset? then defaults.due else attributes.due)
      && (m.depends == if attributes.depends.Unset? then defaults.depends else attributes.depends)
  {
  }

  function MergedAttributes(input: FactoryInput): Result<TaskAttributes, ValidationError> {
    ParseTaskAttributes(Some(MergeAttributeInputs(input.defaults, input.attributes)))
  }

  /** The issue a check adds: none when it passes, one tagged issue when it fails. */
  function IssueIf(failed: bool, reason: Reason, message: string): seq<FactoryIssue> {
    if failed then [FactoryIssue(reason, message)] else []
  }

  function ErrorMessage<T>(r: Result<T, ValidationError>): string {
    if r.Err? then r.error.message else ""
  }

  function FirstIssueMessage<T>(r: SchemaOutcome<T>): string {
    if r.Rejected? && r.issues != [] then r.issues[0].message else ""
  }

  function IdIssues(id: string): seq<FactoryIssue> {
    IssueIf(ParseTaskId(id).Err?, ReasonTaskId, ErrorMessage(ParseTaskId(id)))
  }

  function StatusIssues(status: string): seq<FactoryIssue> {
    IssueIf(ParseTaskStatus(Str(status)).Err?, ReasonTaskStatus, ErrorMessage(ParseTaskStatus(Str(status))))
  }

  function TitleIssues(title: string): seq<FactoryIssue> {
    IssueIf(TitleSchema(Trim(title)).Rejected?, ReasonTaskTitle, FirstIssueMessage(TitleSchema(Trim(title))))
  }

  function SourceIssues(source: TaskSource): seq<FactoryIssue> {
    IssueIf(SourceSchema(source).Rejected?, ReasonTaskSource, FirstIssueMessage(SourceSchema(source)))
  }

  function AttributeIssues(defaults: Option<AttributesInput>, attributes: Option<AttributesInput>): seq<FactoryIssue> {
    var r := ParseTaskAttributes(Some(MergeAttributeInputs(defaults, attributes)));
    IssueIf(r.Err?, ReasonTaskAttributes, ErrorMessage(r))
  }

  /** Every check runs, in the order id, status, title, source, attributes. */
  function FactoryIssues(input: FactoryInput): seq<FactoryIssue> {
    IdIssues(input.id) + StatusIssues(input.status) + TitleIssues(input.title) + SourceIssues(input.source)
    + AttributeIssues(input.defaults, input.attributes)
  }

  function ReasonsOf(issues: seq<FactoryIssue>): (r: seq<Reason>)
    ensures |r| == |issues| && forall i :: 0 <= i < |issues| ==> r[i] == issues[i].reason
  {
    seq(|issues|, i requires 0 <= i < |issues| => issues[i].reason)
  }

  /** What `TaskFactory.create` returns. */
  function Outcome(input: FactoryInput): (r: Result<Task, FactoryError>)
    ensures r.Err? ==> r.error.message == CreationError && r.error.reasons != []
    ensures r.Ok? ==> r.value.source == input.source && r.value.title == Trim(input.title)
  {
    var issues := FactoryIssues(input);
    if issues != [] then Err(FactoryError(CreationError, ReasonsOf(issues), issues))
    else
      var task := Task(
        ParseTaskId(input.id).value, Trim(input.title), ParseTaskStatus(Str(input.status)).value,
        MergedAttributes(input).value, input.source);
      match TaskSchema(task)
      case Accepted(data) => Ok(data)
      case Rejected(_) =>
        Err(FactoryError(CreationError, [ReasonTaskAttributes], [FactoryIssue(ReasonTaskAttributes, SchemaFailure)]))
  }

  /** The five checks, as the source states them. */
  predicate AllChecksPass(input: FactoryInput) {
    ParseTaskId(input.id).Ok? && ParseTaskStatus(Str(input.status)).Ok?
    && Trim(input.title) != [] && IsValidSource(input.source) && MergedAttributes(input).Ok?
  }

  /** Creation succeeds exactly when every check passes; then the task holds the
      upper-cased id, the lower-cased status, the trimmed title, the merged attributes
      and the source as given, and it is valid, so the final schema check never fails. */
  lemma OutcomeOkIffChecksPass(input: FactoryInput)
    ensures Outcome(input).Ok? <==> AllChecksPass(input)
    ensures Outcome(input).Ok? ==>
      var t := Outcome(input).value;
      t.id == SanitizeTaskId(input.id)
      && t.status.Name() == Lower(Trim(input.status))
      && t.title == Trim(input.title)
      && t.attributes == MergedAttributes(input).value
      && t.source == input.source
      && IsValidTask(t)
  {
    if AllChecksPass(input) {
      var task := Task(
        ParseTaskId(input.id).value, Trim(input.title), ParseTaskStatus(Str(input.status)).value,
        MergedAttributes(input).value, input.source);
      ParsedAttributesCanonical(Some(MergeAttributeInputs(input.defaults, input.attributes)));
      assert IsValidTask(task);
      ValidTaskPassesSchema(task);
    }
  }

  /** The tag list a check contributes: its reason when it fails. */
  function Flag(failed: bool, reason: Reason): seq<Reason> {
    if failed then [reason] else []
  }

  lemma ReasonsOfConcat(a: seq<FactoryIssue>, b: seq<FactoryIssue>)
    ensures ReasonsOf(a + b) == ReasonsOf(a) + ReasonsOf(b)
  {
  }

  lemma ReasonsOfIssueIf(failed: bool, reason: Reason, message: string)
    ensures ReasonsOf(IssueIf(failed, reason, message)) == Flag(failed, reason)
  {
  }

  /** The reasons of the gathered issues, check by check. */
  lemma ReasonsAreFailedChecks(input: FactoryInput)
    ensures ReasonsOf(FactoryIssues(input)) ==
      Flag(ParseTaskId(input.id).Err?, ReasonTaskId)
      + Flag(ParseTaskStatus(Str(input.status)).Err?, ReasonTaskStatus)
      + Flag(Trim(input.title) == [], ReasonTaskTitle)
      + Flag(!IsValidSource(input.source), ReasonTaskSource)
      + Flag(MergedAttributes(input).Err?, ReasonTaskAttributes)
  {
    var i1, i2, i3, i4, i5 := IdIssues(input.id), StatusIssues(input.status), TitleIssues(input.title),
      SourceIssues(input.source), AttributeIssues(input.defaults, input.attributes);
    ReasonsOfIssueIf(ParseTaskId(input.id).Err?, ReasonTaskId, ErrorMessage(ParseTaskId(input.id)));
    ReasonsOfIssueIf(ParseTaskStatus(Str(input.status)).Err?, ReasonTaskStatus, ErrorMessage(ParseTaskStatus(Str(input.status))));
    ReasonsOfIssueIf(TitleSchema(Trim(input.title)).Rejected?, ReasonTaskTitle, FirstIssueMessage(TitleSchema(Trim(input.title))));
    ReasonsOfIssueIf(SourceSchema(input.source).Rejected?, ReasonTaskSource, FirstIssueMessage(SourceSchema(input.source)));
    ReasonsOfIssueIf(MergedAttributes(input).Err?, ReasonTaskAttributes, ErrorMessage(MergedAttributes(input)));
    ReasonsOfConcat(i1, i2);
    ReasonsOfConcat(i1 + i2, i3);
    ReasonsOfConcat(i1 + i2 + i3, i4);
    ReasonsOfConcat(i1 + i2 + i3 + i4, i5);
  }

  lemma FlagsHaveNoDuplicates(b1: bool, b2: bool, b3: bool, b4: bool, b5: bool)
    ensures NoDuplicates(Flag(b1, ReasonTaskId) + Flag(b2, ReasonTaskStatus) + Flag(b3, ReasonTaskTitle)
      + Flag(b4, ReasonTaskSource) + Flag(b5, ReasonTaskAttributes))
  {
    var f1, f2, f3, f4, f5 := Flag(b1, ReasonTaskId), Flag(b2, ReasonTaskStatus), Flag(b3, ReasonTaskTitle),
      Flag(b4, ReasonTaskSource), Flag(b5, ReasonTaskAttributes);
    NoDuplicatesConcat(f1, f2);
    NoDuplicatesConcat(f1 + f2, f3);
    NoDuplicatesConcat(f1 + f2 + f3, f4);
    NoDuplicatesConcat(f1 + f2 + f3 + f4, f5);
  }

  /** A failure is reported with one issue per failed check, in check order, and its
      reasons are those issues' tags, so no reason repeats. */
  lemma FailureReasons(input: FactoryInput)
    requires Outcome(input).Err?
    ensures Outcome(input).error.message == "Failed to create Task"
    ensures Outcome(input).error.issues == FactoryIssues(input)
    ensures Outcome(input).error.reasons ==
      Flag(ParseTaskId(input.id).Err?, ReasonTaskId)
      + Flag(ParseTaskStatus(Str(input.status)).Err?, ReasonTaskStatus)
      + Flag(Trim(input.title) == [], ReasonTaskTitle)
      + Flag(!IsValidSource(input.source), ReasonTaskSource)
      + Flag(MergedAttributes(input).Err?, ReasonTaskAttributes)
    ensures NoDuplicates(Outcome(input).error.reasons)
  {
    OutcomeOkIffChecksPass(input);
    assert FactoryIssues(input) != [];
    ReasonsAreFailedChecks(input);
    FlagsHaveNoDuplicates(ParseTaskId(input.id).Err?, ParseTaskStatus(Str(input.status)).Err?,
      Trim(input.title) == [], !IsValidSource(input.source), MergedAttributes(input).Err?);
  }

  // `create` threads one issue list through the five checks; each check appends the
  // issue it finds and hands back the parsed value, if any.

  method ParseId(value: string, issues: seq<FactoryIssue>) returns (id: Option<string>, out: seq<FactoryIssue>)
    ensures out == issues + IdIssues(value)
    ensures id == (if ParseTaskId(value).Ok? then Some(ParseTaskId(value).value) else None)
  {
    var result := ParseTaskId(value);
    if result.Err? {
      out := issues + [FactoryIssue(ReasonTaskId, result.error.message)];
      return None, out;
    }
    return Some(result.value), issues;
  }

  method ParseStatus(value: string, issues: seq<FactoryIssue>) returns (status: Option<TaskStatus>, out: seq<FactoryIssue>)
    ensures out == issues + StatusIssues(value)
    ensures status == (if ParseTaskStatus(Str(value)).Ok? then Some(ParseTaskStatus(Str(value)).value) else None)
  {
    var result := ParseTaskStatus(Str(value));
    if result.Err? {
      out := issues + [FactoryIssue(ReasonTaskStatus, result.error.message)];
      return None, out;
    }
    return Some(result.value), issues;
  }

  method ParseTitle(value: string, issues: seq<FactoryIssue>) returns (title: Option<string>, out: seq<FactoryIssue>)
    ensures out == issues + TitleIssues(value)
    ensures title == (if Trim(value) != [] then Some(Trim(value)) else None)
  {
    var trimmed := Trim(value);
    var validation := TitleSchema(trimmed);
    if validation.Rejected? {
      out := issues + [FactoryIssue(ReasonTaskTitle, validation.issues[0].message)];
      return None, out;
    }
    return Some(trimmed), issues;
  }

  method ParseSource(value: TaskSource, issues: seq<FactoryIssue>) returns (source: Option<TaskSource>, out: seq<FactoryIssue>)
    ensures out == issues + SourceIssues(value)
    ensures source == (if IsValidSource(value) then Some(value) else None)
  {
    var validation := SourceSchema(value);
    if validation.Rejected? {
      out := issues + [FactoryIssue(ReasonTaskSource, FirstIssueMessage(validation))];
      return None, out;
    }
    return Some(validation.data), issues;
  }

  method ParseAttributes(defaults: Option<AttributesInput>, attributes: Option<AttributesInput>, issues: seq<FactoryIssue>)
    returns (parsed: Option<TaskAttributes>, out: seq<FactoryIssue>)
    ensures out == issues + AttributeIssues(defaults, attributes)
    ensures var r := ParseTaskAttributes(Some(MergeAttributeInputs(defaults, attributes)));
      parsed == (if r.Ok? then Some(r.value) else None)
  {
    var merged := MergeAttributeInputs(defaults, attributes);
    var result := ParseTaskAttributes(Some(merged));
    if result.Err? {
      out := issues + [FactoryIssue(ReasonTaskAttributes, result.error.message)];
      return None, out;
    }
    return Some(result.value), issues;
  }

  /** `TaskFactory.create`: run the five checks, fail with every issue found, or build the
      task and pass it through `TaskSchema`. */
  method Create(input: FactoryInput) returns (r: Result<Task, FactoryError>)
    ensures r == Outcome(input)
  {
    var issues: seq<FactoryIssue> := [];
    var id, status, title, source, attributes;
    id, issues := ParseId(input.id, issues);
    ghost var expected := IdIssues(input.id);
    assert issues == expected;
    status, issues := ParseStatus(input.status, issues);
    expected := expected + StatusIssues(input.status);
    title, issues := ParseTitle(input.title, issues);
    expected := expected + TitleIssues(input.title);
    source, issues := ParseSource(input.source, issues);
    expected := expected + SourceIssues(input.source);
    attributes, issues := ParseAttributes(input.defaults, input.attributes, issues);
    expected := expected + AttributeIssues(input.defaults, input.attributes);
    assert issues == FactoryIssues(input);
    if |issues| > 0 || id.None? || status.None? || title.None? || source.None? || attributes.None? {
      return Err(FactoryError(CreationError, ReasonsOf(issues), issues));
    }
    var task := Task(id.value, title.value, status.value, attributes.value, source.value);
    var validation := TaskSchema(task);
    if validation.Rejected? {
      return Err(FactoryError(CreationError, [ReasonTaskAttributes], [FactoryIssue(ReasonTaskAttributes, SchemaFailure)]));
    }
    return Ok(validation.data);
  }
}
