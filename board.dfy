/** The pure helpers of the two board webview hosts
    (src/interface/webview/board-view-panel.ts and board-view-provider.ts): the
    grouping of tasks into the four board columns, the card data sent to the
    webview, the cleaning of attribute fields typed into the board, and the
    inputs handed to the create and update use cases. Messages to the webview are
    modelled as the outcome values that decide them. */
module Board {
  import opened Wrappers
  import opened Text
  import opened Js
  import opened DueDates
  import opened TaskStatuses
  import opened TaskAttrs
  import opened Tasks
  import opened TaskUseCases

  // ---------------------------------------------------------------------------
  // Columns

  /** The column a status is shown in: its own, except that any status without a
      column (archived) goes to todo. */
  function ColumnOf(status: TaskStatus): (c: TaskStatus)
    ensures c != Archived
    ensures status != Archived ==> c == status
  {
    if status == Archived then Todo else status
  }

  /** The tasks of one column, in input order. */
  function InColumn(tasks: seq<Task>, column: TaskStatus): seq<Task> {
    if tasks == [] then []
    else
      var rest := InColumn(tasks[..|tasks| - 1], column);
      if ColumnOf(tasks[|tasks| - 1].status) == column then rest + [tasks[|tasks| - 1]] else rest
  }

  /** A task is in a column exactly when it is one of the tasks and that column is
      its status's. */
  lemma {:induction false} InColumnMembers(tasks: seq<Task>, column: TaskStatus, t: Task)
    ensures t in InColumn(tasks, column) <==> t in tasks && ColumnOf(t.status) == column
  {
    if tasks != [] {
      var init := tasks[..|tasks| - 1];
      InColumnMembers(init, column, t);
      assert tasks == init + [tasks[|tasks| - 1]];
    }
  }

  /** The columns split the tasks: each task lands in exactly one of the four, as
      often as it occurs. */
  lemma {:induction false} ColumnsPartition(tasks: seq<Task>)
    ensures multiset(InColumn(tasks, Todo)) + multiset(InColumn(tasks, Doing))
          + multiset(InColumn(tasks, Blocked)) + multiset(InColumn(tasks, Done)) == multiset(tasks)
  {
    if tasks != [] {
      var init := tasks[..|tasks| - 1];
      ColumnsPartition(init);
      assert tasks == init + [tasks[|tasks| - 1]];
    }
  }

  /** Grouping keeps the input order within a column: grouping two lists in turn
      groups their concatenation. */
  lemma {:induction false} InColumnAppend(a: seq<Task>, b: seq<Task>, column: TaskStatus)
    ensures InColumn(a + b, column) == InColumn(a, column) + InColumn(b, column)
    decreases |b|
  {
    if b == [] {
      assert a + b == a;
    } else {
      var init := b[..|b| - 1];
      assert (a + b)[..|a + b| - 1] == a + init;
      assert (a + b)[|a + b| - 1] == b[|b| - 1];
      InColumnAppend(a, init, column);
    }
  }

  datatype Grouped = Grouped(todo: seq<Task>, doing: seq<Task>, blocked: seq<Task>, done: seq<Task>)

  /** `_groupTasksByStatus` (the panel's `_createBoardData` runs the same loop): one
      pass that appends each task to its column. */
  method GroupTasksByStatus(tasks: seq<Task>) returns (grouped: Grouped)
    ensures grouped.todo == InColumn(tasks, Todo) && grouped.doing == InColumn(tasks, Doing)
    ensures grouped.blocked == InColumn(tasks, Blocked) && grouped.done == InColumn(tasks, Done)
  {
    var todo, doing, blocked, done := [], [], [], [];
    for i := 0 to |tasks|
      invariant todo == InColumn(tasks[..i], Todo) && doing == InColumn(tasks[..i], Doing)
      invariant blocked == InColumn(tasks[..i], Blocked) && done == InColumn(tasks[..i], Done)
    {
      assert tasks[..i + 1][..i] == tasks[..i];
      var status := tasks[i].status;
      if status == Doing {
        doing := doing + [tasks[i]];
      } else if status == Blocked {
        blocked := blocked + [tasks[i]];
      } else if status == Done {
        done := done + [tasks[i]];
      } else {
        todo := todo + [tasks[i]];
      }
    }
    assert tasks[..|tasks|] == tasks;
    grouped := Grouped(todo, doing, blocked, done);
  }

  // ---------------------------------------------------------------------------
  // Cards and board data

  /** The card the webview draws for a task. */
  datatype CardData = CardData(
    id: string, title: string, status: TaskStatus,
    dueDate: Option<string>, assignee: Option<string>, tags: seq<string>,
    filePath: string, lineNumber: int, project: Option<string>, depends: seq<string>)

  /** `_taskToCardData`: the task's fields, its line as the line number, and empty
      lists for missing tags and dependencies. */
  function TaskToCardData(t: Task): (c: CardData)
    ensures c.id == t.id && c.title == t.title && c.status == t.status
    ensures c.filePath == t.source.filePath && c.lineNumber == t.source.line
    ensures c.dueDate == t.attributes.due && c.assignee == t.attributes.assignee && c.project == t.attributes.project
    ensures t.attributes.tags.None? ==> c.tags == []
    ensures t.attributes.tags.Some? ==> c.tags == t.attributes.tags.value
    ensures t.attributes.depends.None? ==> c.depends == []
    ensures t.attributes.depends.Some? ==> c.depends == t.attributes.depends.value
  {
    CardData(
      t.id, t.title, t.status,
      t.attributes.due, t.attributes.assignee,
      if t.attributes.tags.Some? then t.attributes.tags.value else [],
      t.source.filePath, t.source.line, t.attributes.project,
      if t.attributes.depends.Some? then t.attributes.depends.value else [])
  }

  function Cards(tasks: seq<Task>): (r: seq<CardData>)
    ensures |r| == |tasks|
    ensures forall i :: 0 <= i < |tasks| ==> r[i] == TaskToCardData(tasks[i])
  {
    if tasks == [] then [] else [TaskToCardData(tasks[0])] + Cards(tasks[1..])
  }

  datatype Column = Column(id: string, heading: string, cards: seq<CardData>)

  /** The four columns in board order. */
  function BoardFor(tasks: seq<Task>): (columns: seq<Column>)
    ensures |columns| == 4
    ensures columns[0].id == "todo" && columns[1].id == "doing" && columns[2].id == "blocked" && columns[3].id == "done"
  {
    [ Column("todo", "Todo", Cards(InColumn(tasks, Todo))),
      Column("doing", "Doing", Cards(InColumn(tasks, Doing))),
      Column("blocked", "Blocked", Cards(InColumn(tasks, Blocked))),
      Column("done", "Done", Cards(InColumn(tasks, Done))) ]
  }

  /** The column whose identifier is a status's name. */
  function ColumnIndex(status: TaskStatus): (i: nat)
    ensures i < 4
  {
    match status
    case Todo | Archived => 0
    case Doing => 1
    case Blocked => 2
    case Done => 3
  }

  /** Every task shows up as a card in the column of its status, archived ones
      under todo. */
  lemma EveryTaskHasCard(tasks: seq<Task>, t: Task)
    requires t in tasks
    ensures TaskToCardData(t) in BoardFor(tasks)[ColumnIndex(t.status)].cards
  {
    var column := ColumnOf(t.status);
    InColumnMembers(tasks, column, t);
    var members := InColumn(tasks, column);
    var k :| 0 <= k < |members| && members[k] == t;
    assert Cards(members)[k] == TaskToCardData(t);
  }

  /** `_createBoardData`: the grouped tasks as four columns of cards. */
  method CreateBoardData(tasks: seq<Task>) returns (columns: seq<Column>)
    ensures columns == BoardFor(tasks)
  {
    var grouped := GroupTasksByStatus(tasks);
    columns := [
      Column("todo", "Todo", Cards(grouped.todo)),
      Column("doing", "Doing", Cards(grouped.doing)),
      Column("blocked", "Blocked", Cards(grouped.blocked)),
      Column("done", "Done", Cards(grouped.done))];
  }

  /** The panel shows only the tasks of its own file, in listing order. */
  function TasksOfFile(tasks: seq<Task>, filePath: string): (r: seq<Task>)
    ensures forall t :: t in r <==> t in tasks && t.source.filePath == filePath
  {
    if tasks == [] then []
    else if tasks[0].source.filePath == filePath then [tasks[0]] + TasksOfFile(tasks[1..], filePath)
    else TasksOfFile(tasks[1..], filePath)
  }

  /** Filtering keeps the listing order: filtering two lists in turn filters their
      concatenation. */
  lemma {:induction false} TasksOfFileAppend(a: seq<Task>, b: seq<Task>, filePath: string)
    ensures TasksOfFile(a + b, filePath) == TasksOfFile(a, filePath) + TasksOfFile(b, filePath)
  {
    if a == [] {
      assert a + b == b;
    } else {
      assert (a + b)[1..] == a[1..] + b;
      TasksOfFileAppend(a[1..], b, filePath);
    }
  }

  /** Each task of the file is kept as often as it is listed; no other task is kept. */
  lemma {:induction false} TasksOfFileCount(tasks: seq<Task>, filePath: string, t: Task)
    ensures multiset(TasksOfFile(tasks, filePath))[t]
      == if t.source.filePath == filePath then multiset(tasks)[t] else 0
  {
    if tasks != [] {
      TasksOfFileCount(tasks[1..], filePath, t);
      assert tasks == [tasks[0]] + tasks[1..];
    }
  }

  // ---------------------------------------------------------------------------
  // Attribute fields typed into the board

  /** The raw attribute fields of a message, whatever their runtime types. */
  datatype RawFields = RawFields(assignee: JsValue, dueDate: JsValue, tags: JsValue, project: JsValue, depends: JsValue)

  /** A string field: trimmed, and dropped when blank or not a string. */
  function TrimmedString(value: JsValue): (r: Option<string>)
    ensures r.Some? ==> value.Str? && r.value == Trim(value.s) && r.value != []
    ensures r.None? ==> !value.Str? || Trim(value.s) == []
  {
    if value.Str? && Trim(value.s) != [] then Some(Trim(value.s)) else None
  }

  /** A list field: its strings, trimmed, without blanks; dropped when nothing is
      left or it is not an array. */
  function TrimmedList(value: JsValue): (r: Option<seq<string>>)
    ensures r.Some? ==> value.Arr? && r.value != []
    ensures r.Some? ==> forall i :: 0 <= i < |r.value| ==> r.value[i] != [] && IsTrimmed(r.value[i])
    ensures value.Arr? ==> r == NonEmptyOrNone(TrimmedNonEmpty(StringsOf(value.items)))
  {
    if value.Arr? then NonEmptyOrNone(TrimmedNonEmpty(StringsOf(value.items))) else None
  }

  /** A non-blank string in an array is kept, trimmed, so the list is not dropped. */
  lemma TrimmedListKeeps(value: JsValue, i: nat)
    requires value.Arr? && i < |value.items| && value.items[i].Str? && Trim(value.items[i].s) != []
    ensures TrimmedList(value).Some? && Trim(value.items[i].s) in TrimmedList(value).value
  {
    var strings := StringsOf(value.items);
    StringsOfMembers(value.items, value.items[i].s);
    var k :| 0 <= k < |strings| && strings[k] == value.items[i].s;
    TrimmedNonEmptyKeeps(strings, k);
  }

  function SetIfSome<T>(value: Option<T>): (r: Field<T>)
    ensures r.Set? <==> value.Some?
    ensures value.Some? ==> r.value == value.value
  {
    if value.Some? then Set(value.value) else Unset
  }

  predicate IsEmptyInput(a: AttributesInput) {
    a.project.Unset? && a.assignee.Unset? && a.tags.Unset? && a.due.Unset? && a.depends.Unset?
  }

  /** `extractAttributes`: the fields that survive cleaning, or nothing when none
      does. */
  function ExtractAttributes(raw: RawFields): (r: Option<AttributesInput>)
    ensures r.None? <==> (TrimmedString(raw.assignee).None? && TrimmedString(raw.dueDate).None?
      && TrimmedList(raw.tags).None? && TrimmedString(raw.project).None? && TrimmedList(raw.depends).None?)
    ensures r.Some? ==> !IsEmptyInput(r.value)
    ensures r.Some? ==> r.value == AttributesInput(
      SetIfSome(TrimmedString(raw.project)), SetIfSome(TrimmedString(raw.assignee)),
      SetIfSome(TrimmedList(raw.tags)), SetIfSome(TrimmedString(raw.dueDate)),
      SetIfSome(TrimmedList(raw.depends)))
  {
    var a := AttributesInput(
      SetIfSome(TrimmedString(raw.project)),
      SetIfSome(TrimmedString(raw.assignee)),
      SetIfSome(TrimmedList(raw.tags)),
      SetIfSome(TrimmedString(raw.dueDate)),
      SetIfSome(TrimmedList(raw.depends)));
    if IsEmptyInput(a) then None else Some(a)
  }

  /** Extracted fields are clean: every string present is non-blank and trimmed,
      and no cleared value appears. */
  lemma ExtractedFieldsClean(raw: RawFields)
    requires ExtractAttributes(raw).Some?
    ensures var a := ExtractAttributes(raw).value;
      && !a.project.Clear? && !a.assignee.Clear? && !a.tags.Clear? && !a.due.Clear? && !a.depends.Clear?
      && (a.project.Set? ==> a.project.value != [] && IsTrimmed(a.project.value))
      && (a.assignee.Set? ==> a.assignee.value != [] && IsTrimmed(a.assignee.value))
      && (a.due.Set? ==> a.due.value != [] && IsTrimmed(a.due.value))
  {
  }

  /** `normalizeAttributesInput`: only an object is read, and its due date comes
      from `due`, falling back to `dueDate`. An array passes the object test but has
      none of the named properties, so it reads as nothing, like any non-object. */
  function NormalizeAttributesInput(value: JsValue): (r: Option<AttributesInput>)
    ensures !value.Obj? ==> r.None?
    ensures value.Obj? ==> r == ExtractAttributes(RawFields(
      Js.Field(value.fields, "assignee"),
      Coalesce(Js.Field(value.fields, "due"), Js.Field(value.fields, "dueDate")),
      Js.Field(value.fields, "tags"), Js.Field(value.fields, "project"), Js.Field(value.fields, "depends")))
  {
    match value
    case Obj(fields) =>
      ExtractAttributes(RawFields(
        Js.Field(fields, "assignee"),
        Coalesce(Js.Field(fields, "due"), Js.Field(fields, "dueDate")),
        Js.Field(fields, "tags"),
        Js.Field(fields, "project"),
        Js.Field(fields, "depends")))
    case _ => None
  }

  /** `dueDate` counts when `due` is missing. */
  lemma DueFallsBackToDueDate(fields: map<string, JsValue>, d: string)
    requires "due" !in fields && "dueDate" in fields && fields["dueDate"] == Str(d) && Trim(d) != []
    ensures NormalizeAttributesInput(Obj(fields)).Some?
    ensures NormalizeAttributesInput(Obj(fields)).value.due == Set(Trim(d))
  {
  }

  /** A non-blank `due` string wins over whatever `dueDate` holds. */
  lemma DueWinsOverDueDate(fields: map<string, JsValue>, d: string)
    requires "due" in fields && fields["due"] == Str(d) && Trim(d) != []
    ensures NormalizeAttributesInput(Obj(fields)).Some?
    ensures NormalizeAttributesInput(Obj(fields)).value.due == Set(Trim(d))
  {
  }

  /** A blank `due` string is present, so `??` does not fall back to `dueDate`: the
      object gives no due date at all. */
  lemma BlankDueHidesDueDate(fields: map<string, JsValue>, d: string)
    requires "due" in fields && fields["due"] == Str(d) && Trim(d) == []
    ensures var r := NormalizeAttributesInput(Obj(fields)); r.None? || r.value.due.Unset?
  {
  }

  /** One key of `{...base, ...extra}`: the key of `extra` when it has one, else
      that of `base`. */
  predicate KeyWins<T(==)>(merged: Field<T>, base: Field<T>, extra: Field<T>) {
    (extra.Unset? ==> merged == base) && (!extra.Unset? ==> merged == extra)
  }

  /** `mergeAttributes`: field by field, the second input's keys override the
      first's; nothing when both are missing or nothing is set. */
  function MergeAttributes(base: Option<AttributesInput>, extra: Option<AttributesInput>): (r: Option<AttributesInput>)
    ensures base.None? && extra.None? ==> r.None?
    ensures base.Some? && extra.None? && !IsEmptyInput(base.value) ==> r == base
    ensures base.None? && extra.Some? && !IsEmptyInput(extra.value) ==> r == extra
    ensures r.None? <==> (base.None? || IsEmptyInput(base.value)) && (extra.None? || IsEmptyInput(extra.value))
    ensures r.Some? ==>
      var b, e := base.GetOr(NoAttributesInput), extra.GetOr(NoAttributesInput);
      KeyWins(r.value.project, b.project, e.project) && KeyWins(r.value.assignee, b.assignee, e.assignee)
      && KeyWins(r.value.tags, b.tags, e.tags) && KeyWins(r.value.due, b.due, e.due)
      && KeyWins(r.value.depends, b.depends, e.depends)
  {
    if base.None? && extra.None? then None
    else
      var merged := SpreadInput(if base.Some? then base.value else NoAttributesInput,
                                if extra.Some? then extra.value else NoAttributesInput);
      if IsEmptyInput(merged) then None else Some(merged)
  }

  /** The merge of two extracted inputs is absent only when both are. */
  lemma MergeOfExtracted(payload: RawFields, fields: RawFields)
    ensures var merged := MergeAttributes(ExtractAttributes(payload), ExtractAttributes(fields));
      merged.None? <==> ExtractAttributes(payload).None? && ExtractAttributes(fields).None?
  {
  }

  /** Every key typed into the board overrides the same key in the payload's
      attributes, and every key not typed keeps the payload's value. */
  lemma FieldOverridesPayload(base: AttributesInput, extra: AttributesInput)
    requires !IsEmptyInput(extra)
    ensures MergeAttributes(Some(base), Some(extra)).Some?
    ensures var m := MergeAttributes(Some(base), Some(extra)).value;
      && (extra.project.Set? ==> m.project == extra.project) && (extra.project.Unset? ==> m.project == base.project)
      && (extra.assignee.Set? ==> m.assignee == extra.assignee) && (extra.assignee.Unset? ==> m.assignee == base.assignee)
      && (extra.tags.Set? ==> m.tags == extra.tags) && (extra.tags.Unset? ==> m.tags == base.tags)
      && (extra.due.Set? ==> m.due == extra.due) && (extra.due.Unset? ==> m.due == base.due)
      && (extra.depends.Set? ==> m.depends == extra.depends) && (extra.depends.Unset? ==> m.depends == base.depends)
  {
  }

  /** What converting attributes for a use case comes to: nothing to send, a
      cleared bag (update only), a rejected due date (reported to the webview), or
      the attributes. */
  datatype Conversion = Absent | Cleared | DueRejected(detail: DueDateFailure) | Converted(attributes: TaskAttributes)

  function OptionOf<T>(f: Field<T>): Option<T> {
    if f.Set? then Some(f.value) else None
  }

  /** The shared part of `toCreateAttributes` and `toUpdateAttributes`: a due date
      that is set must be a valid date; then every key is carried over. */
  function ConvertAttributes(a: AttributesInput): (r: Conversion)
    ensures r.DueRejected? <==> a.due.Set? && a.due.value != [] && EnsureDueDate(Str(a.due.value)).Err?
    ensures !r.DueRejected? ==> r.Converted?
    ensures r.Converted? ==> (r.attributes.tags == OptionOf(a.tags) && r.attributes.depends == OptionOf(a.depends)
      && r.attributes.project == OptionOf(a.project) && r.attributes.assignee == OptionOf(a.assignee))
    ensures r.Converted? ==> r.attributes.due == (if a.due.Set? && a.due.value != [] then Some(a.due.value) else None)
  {
    if a.due.Set? && a.due.value != [] && EnsureDueDate(Str(a.due.value)).Err? then
      DueRejected(EnsureDueDate(Str(a.due.value)).error)
    else
      Converted(TaskAttributes(
        OptionOf(a.project), OptionOf(a.assignee), OptionOf(a.tags),
        if a.due.Set? && a.due.value != [] then Some(a.due.value) else None,
        OptionOf(a.depends)))
  }

  /** `toCreateAttributes` */
  function ToCreateAttributes(a: Option<AttributesInput>): (r: Conversion)
    ensures a.None? <==> r.Absent?
    ensures !r.Cleared?
  {
    if a.None? then Absent else ConvertAttributes(a.value)
  }

  /** `toUpdateAttributes`: as for create, except that null stays null. */
  function ToUpdateAttributes(a: Field<AttributesInput>): (r: Conversion)
    ensures a.Unset? <==> r.Absent?
    ensures a.Clear? <==> r.Cleared?
  {
    match a
    case Unset => Absent
    case Clear => Cleared
    case Set(v) => ConvertAttributes(v)
  }

  /** A valid due date, or none, always converts. */
  lemma ValidDueConverts(a: AttributesInput)
    requires a.due.Set? && a.due.value != [] ==> IsValidCalendarDate(a.due.value)
    ensures ConvertAttributes(a).Converted?
  {
    if a.due.Set? && a.due.value != [] {
      ParseStoredDueDate(a.due.value);
    }
  }

  // ---------------------------------------------------------------------------
  // The inputs handed to the use cases

  /** The attributes the panel sends: the payload's attributes merged with the
      fields typed into the board. */
  function PanelAttributes(payloadAttributes: JsValue, fields: RawFields): Option<AttributesInput> {
    MergeAttributes(NormalizeAttributesInput(payloadAttributes), ExtractAttributes(fields))
  }

  /** The panel's create: nothing is created without a title and a file path; the
      attributes come from the payload and the fields merged, and a rejected due
      date only drops them. */
  function PanelCreateInput(title: Option<string>, filePath: Option<string>, payloadAttributes: JsValue, fields: RawFields): (r: Option<CreateInput>)
    ensures r.Some? <==> title.Some? && title.value != [] && filePath.Some? && filePath.value != []
    ensures r.Some? ==> r.value.title == title.value && r.value.filePath == filePath.value && r.value.insertLine.None?
    ensures r.Some? && PanelAttributes(payloadAttributes, fields).None? ==> r.value.attributes.None?
    ensures r.Some? && PanelAttributes(payloadAttributes, fields).Some? ==>
      var c := ConvertAttributes(PanelAttributes(payloadAttributes, fields).value);
      r.value.attributes == (if c.Converted? then Some(c.attributes) else None)
  {
    if title.None? || title.value == [] || filePath.None? || filePath.value == [] then None
    else
      var merged := PanelAttributes(payloadAttributes, fields);
      var converted := ToCreateAttributes(merged);
      Some(CreateInput(title.value, if converted.Converted? then Some(converted.attributes) else None, filePath.value, None))
  }

  /** A rejected due date does not stop the panel's create: the task is created
      without attributes. */
  lemma RejectedDueStillCreates(title: string, filePath: string, payloadAttributes: JsValue, fields: RawFields)
    requires title != [] && filePath != []
    requires var merged := PanelAttributes(payloadAttributes, fields);
      merged.Some? && ConvertAttributes(merged.value).DueRejected?
    ensures var r := PanelCreateInput(Some(title), Some(filePath), payloadAttributes, fields);
      r.Some? && r.value.attributes.None?
  {
  }

  /** The sidebar's create forwards only the title and the file path. */
  function ProviderCreateInput(title: Option<string>, filePath: Option<string>): (r: Option<CreateInput>)
    ensures r.Some? <==> title.Some? && title.value != [] && filePath.Some? && filePath.value != []
    ensures r.Some? ==> r.value.attributes.None? && r.value.insertLine.None?
  {
    if title.None? || title.value == [] || filePath.None? || filePath.value == [] then None
    else Some(CreateInput(title.value, None, filePath.value, None))
  }

  /** A title or status is forwarded only when given and not empty. */
  function Truthy(title: Option<string>): Option<string> {
    if title.Some? && title.value != [] then title else None
  }

  /** The panel's update: title and status when given, and the converted
      attributes unless there were none to send or the due date was rejected. */
  function PanelUpdateInput(id: Option<string>, hasUpdates: bool, title: Option<string>, status: Option<TaskStatus>,
                            payloadAttributes: JsValue, fields: RawFields): (r: Option<UpdateInput>)
    ensures r.Some? <==> id.Some? && id.value != [] && hasUpdates
    ensures r.Some? ==> r.value.id == id.value && r.value.title == Truthy(title) && r.value.status == status
    ensures r.Some? && PanelAttributes(payloadAttributes, fields).None? ==> r.value.attributes.Unset?
    ensures r.Some? && PanelAttributes(payloadAttributes, fields).Some? ==>
      var c := ConvertAttributes(PanelAttributes(payloadAttributes, fields).value);
      r.value.attributes == (if c.Converted? then Set(c.attributes) else Unset)
  {
    if id.None? || id.value == [] || !hasUpdates then None
    else
      var merged := PanelAttributes(payloadAttributes, fields);
      var converted := ToUpdateAttributes(if merged.Some? then Set(merged.value) else Unset);
      var attributes := match converted
        case Converted(a) => Set(a)
        case Cleared => Clear
        case _ => Unset;
      Some(UpdateInput(id.value, Truthy(title), status, attributes))
  }

  /** The sidebar's update forwards only the title and the status. */
  function ProviderUpdateInput(id: Option<string>, hasUpdates: bool, title: Option<string>, status: Option<TaskStatus>): (r: Option<UpdateInput>)
    ensures r.Some? <==> id.Some? && id.value != [] && hasUpdates
    ensures r.Some? ==> r.value.id == id.value && r.value.title == Truthy(title) && r.value.status == status
    ensures r.Some? ==> r.value.attributes.Unset?
  {
    if id.None? || id.value == [] || !hasUpdates then None
    else Some(UpdateInput(id.value, Truthy(title), status, Unset))
  }

  /** Clearing a title from the board leaves it as it was: the empty title is not
      forwarded, although the update use case itself would store it. */
  lemma EmptyTitleKeepsTitle(existing: Task, id: string, status: Option<TaskStatus>)
    requires id != []
    ensures var input := ProviderUpdateInput(Some(id), true, Some(""), status);
      input.Some? && MergedTask(existing, input.value).title == existing.title
    ensures MergedTask(existing, UpdateInput(id, Some(""), status, Unset)).title == ""
  {
  }

  /** The panel never clears attributes: its merged attributes are never null. */
  lemma PanelNeverClears(id: string, title: Option<string>, status: Option<TaskStatus>, payload: JsValue, fields: RawFields)
    requires id != []
    ensures !PanelUpdateInput(Some(id), true, title, status, payload, fields).value.attributes.Clear?
  {
  }
}
