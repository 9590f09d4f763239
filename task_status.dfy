/** Task statuses (src/domain/value-objects/task-status.ts): five fixed lower-case names. */
module TaskStatuses {
  import opened Wrappers
  import opened Text
  import opened Js
  import opened Validation

  datatype TaskStatus = Todo | Doing | Blocked | Done | Archived
  {
    /** The status as written in Markdown and on the wire. */
    function Name(): (r: string)
      ensures |r| >= 4
      ensures forall i :: 0 <= i < |r| ==> 'a' <= r[i] <= 'z'
    {
      match this
      case Todo => "todo"
      case Doing => "doing"
      case Blocked => "blocked"
      case Done => "done"
      case Archived => "archived"
    }
  }

  /** `TASK_STATUS_VALUES`, and also `DEFAULT_STATUS_ORDER`. */
  const StatusValues: seq<TaskStatus> := [Todo, Doing, Blocked, Done, Archived]

  /** The enum schema's lookup: the status with exactly this name. */
  function FromName(s: string): (r: Option<TaskStatus>)
    ensures r.Some? ==> r.value.Name() == s
    ensures r.None? ==> forall st: TaskStatus :: st.Name() != s
  {
    if s == "todo" then Some(Todo)
    else if s == "doing" then Some(Doing)
    else if s == "blocked" then Some(Blocked)
    else if s == "done" then Some(Done)
    else if s == "archived" then Some(Archived)
    else None
  }

  lemma FromNameOfName(st: TaskStatus)
    ensures FromName(st.Name()) == Some(st)
  {
  }

  const EnumMessage: string := "Invalid enum value. Expected 'todo' | 'doing' | 'blocked' | 'done' | 'archived'"

  function TaskStatusSchema(value: JsValue): (r: SchemaOutcome<TaskStatus>)
    ensures r.Accepted? <==> value.Str? && FromName(value.s).Some?
    ensures r.Accepted? ==> r.data.Name() == value.s
  {
    if value.Str? && FromName(value.s).Some? then Accepted(FromName(value.s).value)
    else Rejected([Issue([], EnumMessage)])
  }

  /** `parseTaskStatus`: a string is trimmed and lower-cased before the enum check;
      any other value is checked as it is, and so rejected. */
  function ParseTaskStatus(value: JsValue): (r: Result<TaskStatus, ValidationError>)
    ensures r.Ok? <==> value.Str? && FromName(Lower(Trim(value.s))).Some?
    ensures r.Ok? ==> r.value.Name() == Lower(Trim(value.s))
    ensures r.Err? ==> r.error.message == "TaskStatus is invalid"
  {
    var normalized := if value.Str? then Str(Lower(Trim(value.s))) else value;
    ParseWithSchema(TaskStatusSchema(normalized), Some("TaskStatus"))
  }

  /** `isTaskStatus`: the enum check without any normalisation. */
  predicate IsTaskStatus(value: JsValue) {
    TaskStatusSchema(value).Accepted?
  }

  /** A status name is already trimmed and lower-case. */
  lemma NameIsNormalised(st: TaskStatus)
    ensures Lower(Trim(st.Name())) == st.Name()
  {
    var n := st.Name();
    assert !IsWhitespace(n[0]) && !IsWhitespace(n[|n| - 1]) by {
      match st
      case Todo =>
      case Doing =>
      case Blocked =>
      case Done =>
      case Archived =>
    }
    TrimOfTrimmed(n);
    LowerOfLowerCase(n);
  }

  /** Every exact status name passes both the guard and the parser, to the same status;
      the guard is stricter than the parser, which forgives case and padding. */
  lemma GuardImpliesParse(value: JsValue)
    ensures IsTaskStatus(value) ==> ParseTaskStatus(value) == Ok(FromName(value.s).value)
    ensures IsTaskStatus(value) ==> value.Str? && FromName(value.s).Some?
  {
    if IsTaskStatus(value) {
      NameIsNormalised(FromName(value.s).value);
    }
  }

  /** The parser forgives case and padding that the guard refuses. */
  lemma ParseForgivesCaseAndPadding(padded: string)
    requires padded == " DONE "
    ensures ParseTaskStatus(Str(padded)) == Ok(Done)
  {
    var w, t := " ", "DONE";
    assert AllWhitespace(w);
    assert IsTrimmed(t) by { assert t[0] == 'D' && t[3] == 'E'; }
    assert padded == w + t + w;
    TrimPadded(w, t, w);
    assert Lower(Trim(padded)) == "done";
    assert TaskStatusSchema(Str("done")) == Accepted(Done);
  }

  /** The guard takes only exact names; the parser takes only strings. */
  lemma GuardIsExact()
    ensures !IsTaskStatus(Str("DONE")) && IsTaskStatus(Str("done"))
    ensures ParseTaskStatus(Other).Err? && ParseTaskStatus(Null).Err?
  {
  }

  /** `DEFAULT_STATUS_ORDER` lists every status exactly once. */
  lemma StatusOrderIsPermutation(st: TaskStatus)
    ensures multiset(StatusValues)[st] == 1
  {
  }
}
