/** The three editing use cases (src/application/usecases/create-task.usecase.ts,
    update-task.usecase.ts and delete-task.usecase.ts): each edits the markdown
    file through the patch engine first and touches the index only when the file
    edit succeeded. The ULID generator is a parameter. */
module TaskUseCases {
  import opened Wrappers
  import opened TaskIds
  import opened TaskStatuses
  import opened TaskAttrs
  import opened Tasks
  import opened TaskIndex
  import opened MarkdownPatch

  // ---------------------------------------------------------------------------
  // Create

  /** `CreateTaskInput` */
  datatype CreateInput = CreateInput(title: string, attributes: Option<TaskAttributes>, filePath: string, insertLine: Option<int>)

  /** `generateTaskId`: `T-` and the first six characters of a fresh ULID. */
  function GenerateTaskId(u: Ulid): (r: string)
    ensures |r| == 8 && r[..2] == "T-" && r[2..] == u[..6]
  {
    "T-" + u[..6]
  }

  /** A generated identifier has the legacy shape, so the id schema accepts it. */
  lemma GeneratedIdIsLegacy(u: Ulid)
    ensures IsLegacyId(GenerateTaskId(u))
  {
    var r := GenerateTaskId(u);
    forall i | 2 <= i < |r| ensures IsUpperAlnum(r[i]) {
      assert r[i] == u[i - 2];
      assert IsCrockfordChar(u[i - 2]);
    }
  }

  /** The task `execute` builds before any file is touched. */
  function NewTask(input: CreateInput, u: Ulid): (t: Task)
    ensures t.id == GenerateTaskId(u) && t.title == input.title && t.status == Todo
    ensures t.source.filePath == input.filePath && t.source.column == 0
    ensures t.source.line == (if input.insertLine.Some? then input.insertLine.value else -1)
    ensures input.attributes.None? ==> t.attributes == NoAttributes
    ensures input.attributes.Some? ==> t.attributes == input.attributes.value
  {
    Task(
      GenerateTaskId(u),
      input.title,
      Todo,
      if input.attributes.Some? then input.attributes.value else NoAttributes,
      TaskSource(input.filePath, if input.insertLine.Some? then input.insertLine.value else -1, 0))
  }

  /** A task appended at the end of its file is recorded at line -1, which the
      task source rule would refuse; nothing checks it. */
  lemma AppendedTaskHasNegativeLine(input: CreateInput, u: Ulid)
    requires input.insertLine.None?
    ensures !IsValidSource(NewTask(input, u).source)
  {
  }

  /** `execute` (create): the insert is issued with the input's path and line; a
      patch error comes back unchanged and leaves the index alone; on success the
      task is upserted and returned. */
  method CreateTask(input: CreateInput, u: Ulid, patch: MarkdownPatchService, index: InMemoryTaskIndex)
    returns (r: Result<Task, PatchError>)
    modifies patch.files, index
    ensures old(index.Valid()) ==> index.Valid()
    ensures var t := NewTask(input, u);
      var p := Patched(Insert(input.filePath, t, input.insertLine), old(patch.files.files));
      && (p.Err? ==> r == Err(p.error) && patch.files.files == old(patch.files.files)
                     && index.byId == old(index.byId) && index.byFile == old(index.byFile))
      && (p.Ok? ==> r == Ok(t) && patch.files.files == old(patch.files.files)[input.filePath := p.value]
                    && (index.byId, index.byFile) == Upserted(old(index.byId), old(index.byFile), t))
  {
    var task := NewTask(input, u);
    var patchResult := patch.ApplyPatch(Insert(input.filePath, task, input.insertLine));
    if patchResult.Err? {
      return Err(patchResult.error);
    }
    index.Upsert(task);
    return Ok(task);
  }

  // ---------------------------------------------------------------------------
  // Update

  /** `UpdateTaskInput`: `attributes` may be left out (kept), null (cleared) or
      given (replaced). */
  datatype UpdateInput = UpdateInput(id: string, title: Option<string>, status: Option<TaskStatus>, attributes: Field<TaskAttributes>)

  /** The stored task with the given fields laid over it. */
  function MergedTask(existing: Task, input: UpdateInput): (t: Task)
    ensures t.id == existing.id && t.source == existing.source
    ensures t.title == (if input.title.Some? then input.title.value else existing.title)
    ensures t.status == (if input.status.Some? then input.status.value else existing.status)
    ensures input.attributes.Unset? ==> t.attributes == existing.attributes
    ensures input.attributes.Clear? ==> t.attributes == NoAttributes
    ensures input.attributes.Set? ==> t.attributes == input.attributes.value
  {
    existing.(
      title := if input.title.Some? then input.title.value else existing.title,
      status := if input.status.Some? then input.status.value else existing.status,
      attributes := match input.attributes
        case Unset => existing.attributes
        case Clear => NoAttributes
        case Set(a) => a)
  }

  /** An update that names no field leaves the task as it was. */
  lemma EmptyUpdateKeepsTask(existing: Task, id: string)
    ensures MergedTask(existing, UpdateInput(id, None, None, Unset)) == existing
  {
  }

  /** Two updates run one after the other, folded into one: each field comes from
      the second update when it names that field, and from the first otherwise. */
  function Then(first: UpdateInput, second: UpdateInput): (r: UpdateInput)
    ensures r.title.Some? <==> first.title.Some? || second.title.Some?
    ensures r.status.Some? <==> first.status.Some? || second.status.Some?
    ensures r.attributes.Unset? <==> first.attributes.Unset? && second.attributes.Unset?
  {
    UpdateInput(
      second.id,
      if second.title.Some? then second.title else first.title,
      if second.status.Some? then second.status else first.status,
      if second.attributes.Unset? then first.attributes else second.attributes)
  }

  /** Merging is last-writer-wins field by field: applying two updates in turn is
      applying their combination once. */
  lemma MergeTwice(existing: Task, first: UpdateInput, second: UpdateInput)
    ensures MergedTask(MergedTask(existing, first), second) == MergedTask(existing, Then(first, second))
  {
  }

  /** Combining updates is associative, so any run of updates folds into one. */
  lemma ThenAssociative(a: UpdateInput, b: UpdateInput, c: UpdateInput)
    ensures Then(Then(a, b), c) == Then(a, Then(b, c))
  {
  }

  /** `execute` (update): an unknown identifier is TASK_NOT_FOUND and issues no
      patch; otherwise the merged task's line is rewritten and, on success, the
      index is upserted with it. */
  method UpdateTask(input: UpdateInput, patch: MarkdownPatchService, index: InMemoryTaskIndex)
    returns (r: Result<Task, PatchError>)
    modifies patch.files, index
    ensures old(index.Valid()) ==> index.Valid()
    ensures input.id !in old(index.byId) ==>
      && r == Err(TaskNotFound(input.id)) && patch.files.files == old(patch.files.files)
      && index.byId == old(index.byId) && index.byFile == old(index.byFile)
    ensures input.id in old(index.byId) ==>
      var t := MergedTask(old(index.byId)[input.id], input);
      var p := Patched(Update(t), old(patch.files.files));
      && (p.Err? ==> r == Err(p.error) && patch.files.files == old(patch.files.files)
                     && index.byId == old(index.byId) && index.byFile == old(index.byFile))
      && (p.Ok? ==> r == Ok(t) && patch.files.files == old(patch.files.files)[t.source.filePath := p.value]
                    && (index.byId, index.byFile) == Upserted(old(index.byId), old(index.byFile), t))
  {
    var existing := index.FindById(input.id);
    if existing.None? {
      return Err(TaskNotFound(input.id));
    }
    var updatedTask := MergedTask(existing.value, input);
    var patchResult := patch.ApplyPatch(Update(updatedTask));
    if patchResult.Err? {
      return Err(patchResult.error);
    }
    index.Upsert(updatedTask);
    return Ok(updatedTask);
  }

  /** An update never moves a task: the stored task keeps its identifier and its
      place in the index. */
  lemma UpdateKeepsPlace(byId: ById, byFile: ByFile, input: UpdateInput)
    requires Lockstep(byId, byFile) && input.id in byId
    ensures var t := MergedTask(byId[input.id], input);
      var (i2, f2) := Upserted(byId, byFile, t);
      && i2.Keys == byId.Keys && f2.Keys == byFile.Keys
      && i2[input.id] == t && f2[t.source.filePath][input.id] == t
  {
    var t := MergedTask(byId[input.id], input);
    var f := t.source.filePath;
    assert byId[input.id].id == input.id;
    UpsertKeepsLockstep(byId, byFile, t);
    var (i2, f2) := Upserted(byId, byFile, t);
    assert f in byFile;
    assert f2.Keys == byFile.Keys by {
      var cleared := RemovedFromFile(byFile, f, input.id);
      assert f2 == AddedToFile(cleared, t);
    }
  }

  // ---------------------------------------------------------------------------
  // Delete

  /** `execute` (delete): an unknown identifier is TASK_NOT_FOUND and issues no
      patch; otherwise the line is deleted from the task's own file and, on
      success, the task leaves the index. */
  method DeleteTask(id: string, patch: MarkdownPatchService, index: InMemoryTaskIndex)
    returns (r: Result<(), PatchError>)
    modifies patch.files, index
    ensures old(index.Valid()) ==> index.Valid()
    ensures id !in old(index.byId) ==>
      && r == Err(TaskNotFound(id)) && patch.files.files == old(patch.files.files)
      && index.byId == old(index.byId) && index.byFile == old(index.byFile)
    ensures id in old(index.byId) ==>
      var filePath := old(index.byId)[id].source.filePath;
      var p := Patched(Delete(id, filePath), old(patch.files.files));
      && (p.Err? ==> r == Err(p.error) && patch.files.files == old(patch.files.files)
                     && index.byId == old(index.byId) && index.byFile == old(index.byFile))
      && (p.Ok? ==> r == Ok(()) && patch.files.files == old(patch.files.files)[filePath := p.value]
                    && id !in index.byId
                    && (index.byId, index.byFile) == Removed(old(index.byId), old(index.byFile), id))
  {
    var existing := index.FindById(id);
    if existing.None? {
      return Err(TaskNotFound(id));
    }
    var patchResult := patch.ApplyPatch(Delete(id, existing.value.source.filePath));
    if patchResult.Err? {
      return Err(patchResult.error);
    }
    index.Remove(id);
    return Ok(());
  }
}
