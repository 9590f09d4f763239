/** Task attributes (src/domain/entities/task-attributes.ts): optional project,
    assignee, tags, due date and dependencies, sanitized and then validated. */
module TaskAttrs {
  import opened Wrappers
  import opened Text
  import opened Seqs
  import opened Validation
  import opened TaskIds
  import opened DueDates

  /** One key of an attributes input object: absent, present but `null`/`undefined`,
      or present with a value. Object spread copies a present key even when its value
      is `undefined`, so the middle case is kept apart from the first. */
  datatype Field<T> = Unset | Clear | Set(value: T)
  {
    /** The value a `typeof`-guarded read sees. */
    function AsOption(): Option<T> {
      if Set? then Some(value) else None
    }
  }

  /** `TaskAttributesInput` */
  datatype AttributesInput = AttributesInput(
    project: Field<string>,
    assignee: Field<string>,
    tags: Field<seq<string>>,
    due: Field<string>,
    depends: Field<seq<string>>)

  const NoAttributesInput: AttributesInput := AttributesInput(Unset, Unset, Unset, Unset, Unset)

  /** `TaskAttributes`, and also the sanitized input, which has the same shape. */
  datatype TaskAttributes = TaskAttributes(
    project: Option<string>,
    assignee: Option<string>,
    tags: Option<seq<string>>,
    due: Option<string>,
    depends: Option<seq<string>>)

  const NoAttributes: TaskAttributes := TaskAttributes(None, None, None, None, None)

  /** `{...base, ...over}`: a key present in `over` wins, even when it holds nothing. */
  function Spread<T>(base: Field<T>, over: Field<T>): (r: Field<T>)
    ensures over.Unset? ==> r == base
    ensures !over.Unset? ==> r == over
  {
    if over.Unset? then base else over
  }

  function SpreadInput(base: AttributesInput, over: AttributesInput): AttributesInput {
    AttributesInput(
      Spread(base.project, over.project), Spread(base.assignee, over.assignee),
      Spread(base.tags, over.tags), Spread(base.due, over.due), Spread(base.depends, over.depends))
  }

  /** The tags that survive trimming, trimmed, in order: one tag gives its trim unless
      that is blank, and `TrimmedNonEmptyAppend` gives the order of longer lists. */
  function TrimmedNonEmpty(tags: seq<string>): (r: seq<string>)
    ensures |r| <= |tags|
    ensures forall i :: 0 <= i < |r| ==> r[i] != [] && IsTrimmed(r[i])
    ensures |tags| == 1 ==> r == (if Trim(tags[0]) != [] then [Trim(tags[0])] else [])
  {
    if tags == [] then []
    else if Trim(tags[0]) != [] then [Trim(tags[0])] + TrimmedNonEmpty(tags[1..])
    else TrimmedNonEmpty(tags[1..])
  }

  /** No non-blank tag is lost. */
  lemma {:induction false} TrimmedNonEmptyKeeps(tags: seq<string>, i: nat)
    requires i < |tags| && Trim(tags[i]) != []
    ensures Trim(tags[i]) in TrimmedNonEmpty(tags)
  {
    var rest := TrimmedNonEmpty(tags[1..]);
    if i == 0 {
      assert TrimmedNonEmpty(tags) == [Trim(tags[0])] + rest;
    } else {
      assert tags[i] == tags[1..][i - 1];
      TrimmedNonEmptyKeeps(tags[1..], i - 1);
      assert TrimmedNonEmpty(tags) == rest || TrimmedNonEmpty(tags) == [Trim(tags[0])] + rest;
    }
  }

  /** The kept tags of two lists are those of the first, then those of the second. */
  lemma {:induction false} TrimmedNonEmptyAppend(a: seq<string>, b: seq<string>)
    ensures TrimmedNonEmpty(a + b) == TrimmedNonEmpty(a) + TrimmedNonEmpty(b)
  {
    if a == [] {
      assert a + b == b;
    } else {
      assert (a + b)[0] == a[0];
      assert (a + b)[1..] == a[1..] + b;
      TrimmedNonEmptyAppend(a[1..], b);
    }
  }

  /** Every kept tag is the trim of an input tag. */
  lemma {:induction false} TrimmedNonEmptyFrom(tags: seq<string>, i: nat)
    requires i < |TrimmedNonEmpty(tags)|
    ensures exists j :: 0 <= j < |tags| && TrimmedNonEmpty(tags)[i] == Trim(tags[j])
  {
    var rest := TrimmedNonEmpty(tags[1..]);
    if Trim(tags[0]) != [] && i == 0 {
      assert TrimmedNonEmpty(tags)[0] == Trim(tags[0]);
    } else {
      var k := if Trim(tags[0]) != [] then i - 1 else i;
      assert TrimmedNonEmpty(tags)[i] == rest[k];
      TrimmedNonEmptyFrom(tags[1..], k);
      var j :| 0 <= j < |tags[1..]| && rest[k] == Trim(tags[1..][j]);
      assert tags[1..][j] == tags[j + 1];
    }
  }

  function SanitizeIds(ids: seq<string>): (r: seq<string>)
    ensures |r| == |ids| && forall i :: 0 <= i < |ids| ==> r[i] == SanitizeTaskId(ids[i])
  {
    seq(|ids|, i requires 0 <= i < |ids| => SanitizeTaskId(ids[i]))
  }

  function NonEmptyOrNone<T>(s: seq<T>): Option<seq<T>> {
    if s != [] then Some(s) else None
  }

  /** `sanitizeAttributesInput`: project and assignee are trimmed when they are strings
      (and may become empty); tags are trimmed and blank tags dropped; dependency ids
      are sanitized like task ids; a blank due date and an empty tag or dependency
      list become absent. */
  function SanitizeAttributes(input: AttributesInput): (r: TaskAttributes)
    ensures r.project == (if input.project.Set? then Some(Trim(input.project.value)) else None)
    ensures r.assignee == (if input.assignee.Set? then Some(Trim(input.assignee.value)) else None)
    ensures r.tags.Some? ==> r.tags.value != [] && forall i :: 0 <= i < |r.tags.value| ==> r.tags.value[i] != [] && IsTrimmed(r.tags.value[i])
    ensures r.tags == (if input.tags.Set? && TrimmedNonEmpty(input.tags.value) != []
                       then Some(TrimmedNonEmpty(input.tags.value)) else None)
    ensures r.due == (if input.due.Set? && Trim(input.due.value) != [] then Some(Trim(input.due.value)) else None)
    ensures r.depends == (if input.depends.Set? && input.depends.value != []
                          then Some(SanitizeIds(input.depends.value)) else None)
  {
    TaskAttributes(
      if input.project.Set? then Some(Trim(input.project.value)) else None,
      if input.assignee.Set? then Some(Trim(input.assignee.value)) else None,
      if input.tags.Set? then NonEmptyOrNone(TrimmedNonEmpty(input.tags.value)) else None,
      if input.due.Set? && Trim(input.due.value) != [] then Some(Trim(input.due.value)) else None,
      if input.depends.Set? then NonEmptyOrNone(SanitizeIds(input.depends.value)) else None)
  }

  const NonEmptyMessage: string := "Value must not be empty"

  function Prefixed(prefix: seq<string>, issues: seq<Issue>): (r: seq<Issue>)
    ensures |r| == |issues|
  {
    seq(|issues|, i requires 0 <= i < |issues| => Issue(prefix + issues[i].path, issues[i].message))
  }

  function NonEmptyIssues(key: string, value: Option<string>): seq<Issue> {
    if value.Some? && value.value == [] then [Issue([key], NonEmptyMessage)] else []
  }

  function TagIssues(tags: seq<string>, from: nat): seq<Issue>
    decreases |tags|
  {
    if tags == [] then []
    else
      (if tags[0] == [] then [Issue(["tags", NatToString(from)], NonEmptyMessage)] else [])
      + TagIssues(tags[1..], from + 1)
  }

  function DependsIssues(ids: seq<string>, from: nat): seq<Issue>
    decreases |ids|
  {
    if ids == [] then []
    else var head := TaskIdSchema(ids[0]);
      (if head.Rejected? then Prefixed(["depends", NatToString(from)], head.issues) else [])
      + DependsIssues(ids[1..], from + 1)
  }

  /** What the object schema checks, key by key. */
  predicate AttributesAccepted(a: TaskAttributes) {
    (a.project.Some? ==> a.project.value != [])
    && (a.assignee.Some? ==> a.assignee.value != [])
    && (a.tags.Some? ==> forall i :: 0 <= i < |a.tags.value| ==> a.tags.value[i] != [])
    && (a.due.Some? ==> IsValidCalendarDate(a.due.value))
    && (a.depends.Some? ==> forall i :: 0 <= i < |a.depends.value| ==> MatchesIdPattern(Upper(a.depends.value[i])))
  }

  lemma {:induction false} TagIssuesEmpty(tags: seq<string>, from: nat)
    ensures TagIssues(tags, from) == [] <==> forall i :: 0 <= i < |tags| ==> tags[i] != []
    decreases |tags|
  {
    if tags != [] {
      TagIssuesEmpty(tags[1..], from + 1);
      assert forall i :: 1 <= i < |tags| ==> tags[i] == tags[1..][i - 1];
    }
  }

  lemma {:induction false} DependsIssuesEmpty(ids: seq<string>, from: nat)
    ensures DependsIssues(ids, from) == [] <==> forall i :: 0 <= i < |ids| ==> MatchesIdPattern(Upper(ids[i]))
    decreases |ids|
  {
    if ids != [] {
      DependsIssuesEmpty(ids[1..], from + 1);
      assert forall i :: 1 <= i < |ids| ==> ids[i] == ids[1..][i - 1];
    }
  }

  function UpperAll(ids: seq<string>): (r: seq<string>)
    ensures |r| == |ids| && forall i :: 0 <= i < |ids| ==> r[i] == Upper(ids[i])
  {
    seq(|ids|, i requires 0 <= i < |ids| => Upper(ids[i]))
  }

  /** The issues of the object schema, in key order; the transform removes repeated
      tags and dependencies, keeping the first occurrence of each. */
  function AttributesSchema(a: TaskAttributes): (r: SchemaOutcome<TaskAttributes>)
    ensures r.Accepted? <==> AttributesAccepted(a)
    ensures r.Accepted? ==> r.data == a.(
      tags := if a.tags.Some? then Some(Dedup(a.tags.value)) else None,
      depends := if a.depends.Some? then Some(Dedup(UpperAll(a.depends.value))) else None)
  {
    var issues :=
      NonEmptyIssues("project", a.project)
      + NonEmptyIssues("assignee", a.assignee)
      + (if a.tags.Some? then TagIssues(a.tags.value, 0) else [])
      + (if a.due.Some? then (var d := DueDateSchema(a.due.value); if d.Rejected? then Prefixed(["due"], d.issues) else []) else [])
      + (if a.depends.Some? then DependsIssues(a.depends.value, 0) else []);
    TagIssuesEmpty(a.tags.GetOr([]), 0);
    DependsIssuesEmpty(a.depends.GetOr([]), 0);
    if issues == [] then
      Accepted(a.(
        tags := if a.tags.Some? then Some(Dedup(a.tags.value)) else None,
        depends := if a.depends.Some? then Some(Dedup(UpperAll(a.depends.value))) else None))
    else Rejected(issues)
  }

  /** Attributes in the form the schema produces: valid, tags and dependencies free of
      repeats, dependencies stored as upper-case identifiers. */
  predicate IsCanonical(a: TaskAttributes) {
    AttributesAccepted(a)
    && (a.tags.Some? ==> NoDuplicates(a.tags.value))
    && (a.depends.Some? ==>
          NoDuplicates(a.depends.value)
          && forall i :: 0 <= i < |a.depends.value| ==> MatchesIdPattern(a.depends.value[i]))
  }

  /** The schema's output is canonical, and canonical attributes pass the schema
      unchanged. */
  lemma SchemaOutputCanonical(a: TaskAttributes)
    ensures AttributesSchema(a).Accepted? ==> IsCanonical(AttributesSchema(a).data)
  {
    if AttributesSchema(a).Accepted? && a.depends.Some? {
      var b := AttributesSchema(a).data;
      var u := UpperAll(a.depends.value);
      forall i | 0 <= i < |b.depends.value|
        ensures MatchesIdPattern(b.depends.value[i]) && MatchesIdPattern(Upper(b.depends.value[i]))
      {
        var k :| 0 <= k < |u| && u[k] == b.depends.value[i];
        CanonicalIdShape(u[k]);
        UpperOfUpper(u[k]);
      }
    }
  }

  lemma SchemaKeepsCanonical(a: TaskAttributes)
    requires IsCanonical(a)
    ensures AttributesSchema(a) == Accepted(a)
  {
    if a.tags.Some? { DedupOfDistinct(a.tags.value); }
    if a.depends.Some? {
      var ds := a.depends.value;
      forall i | 0 <= i < |ds| ensures Upper(ds[i]) == ds[i] {
        CanonicalIdShape(ds[i]);
        UpperOfUpper(ds[i]);
      }
      assert UpperAll(ds) == ds;
      DedupOfDistinct(ds);
    }
  }

  /** `parseTaskAttributes`: no input gives empty attributes; otherwise the sanitized
      input is validated and its repeated tags and dependencies are removed. The
      result, when there is one, is canonical. */
  function ParseTaskAttributes(input: Option<AttributesInput>): (r: Result<TaskAttributes, ValidationError>)
    ensures input.None? ==> r == Ok(NoAttributes)
    ensures input.Some? ==> (r.Ok? <==> AttributesAccepted(SanitizeAttributes(input.value)))
    ensures input.Some? && r.Ok? ==> r.value == AttributesSchema(SanitizeAttributes(input.value)).data
    ensures r.Err? ==> r.error.message == "TaskAttributes is invalid"
  {
    match input
    case None => Ok(NoAttributes)
    case Some(i) => ParseWithSchema(AttributesSchema(SanitizeAttributes(i)), Some("TaskAttributes"))
  }

  /** What `parseTaskAttributes` returns is canonical. */
  lemma ParsedAttributesCanonical(input: Option<AttributesInput>)
    ensures var r := ParseTaskAttributes(input); r.Ok? ==> IsCanonical(r.value)
  {
    if input.Some? {
      SchemaOutputCanonical(SanitizeAttributes(input.value));
    }
  }

  /** A blank project or assignee is not dropped by sanitizing: it fails validation. */
  lemma BlankProjectRejected(input: AttributesInput)
    requires input.project.Set? && Trim(input.project.value) == []
    ensures ParseTaskAttributes(Some(input)).Err?
  {
  }

  /** Every trimmed, non-blank tag of the input is kept, once. */
  lemma ParsedTagsAreTheInputTags(input: AttributesInput, i: nat)
    requires ParseTaskAttributes(Some(input)).Ok?
    requires input.tags.Set? && i < |input.tags.value| && Trim(input.tags.value[i]) != []
    ensures ParseTaskAttributes(Some(input)).value.tags.Some?
    ensures Trim(input.tags.value[i]) in ParseTaskAttributes(Some(input)).value.tags.value
  {
    var ts := TrimmedNonEmpty(input.tags.value);
    TrimmedNonEmptyKeeps(input.tags.value, i);
    var k :| 0 <= k < |ts| && ts[k] == Trim(input.tags.value[i]);
    assert ts[k] in Dedup(ts);
  }
}
