/**
 * The per-field translation of the mapping-table generation (app/sync.py,
 * lines 12-146): building a task for the other side, refreshing one side's
 * fields from the other, and the change check that decides whether a mapped
 * Google task is copied to Notion.
 *
 * The task records carry exactly the fields app/sync.py reads. Dates are day
 * numbers and timestamps integers; a Notion status is identified by its id,
 * which is what the status database lookup in the source is keyed on.
 */
module FieldSync {
  import opened Basics
  import opened Mapper

  /** The Notion status id the source treats as "done". */
  const DoneStatusId: Id := "8be52672-830d-4447-86d2-1072bb266d92"
  /** The Notion status id the source resets a reopened task to. */
  const TodoStatusId: Id := "c062eac1-aff7-4c30-b4bb-76656a4c5495"

  datatype NotionStatus = NotionStatus(id: Id)

  /** A Notion task as app/sync.py reads it. */
  datatype NotionTask = NotionTask(
    id: Option<Id>,
    title: string,
    bucket: Option<Id>,
    details: Option<string>,
    status: Option<NotionStatus>,
    due: Option<int>,
    parentTasks: seq<Id>,
    synced: Option<int>,
    updated: Option<int>)

  /** A Google task as app/sync.py reads it. */
  datatype GoogleTask = GoogleTask(
    id: Option<Id>,
    tasklist: Id,
    title: string,
    notes: Option<string>,
    status: GoogleStatus,
    due: Option<int>,
    parent: Option<Id>,
    updated: Option<int>)

  /** Why an operation of app/sync.py raises. */
  datatype Failure =
    | ParentNotLinked   // the explicit `raise Exception(...)` for an unmapped parent
    | MissingRecord     // attribute access on a lookup that returned None, or a fetch of an absent id
    | RemoteRejected    // the provider refuses the call (unknown task or parent)
    | DueTypeError      // a Notion due date compared with a missing Google due date
    | NoWorkList        // no Google list titled "Work"

  /** The Notion task is done: it has a status and that status has the done id. */
  predicate NotionDone(n: NotionTask)
  {
    n.status.Some? && n.status.value.id == DoneStatusId
  }

  /** `construct_google_task_from_notion`: a Google task (no id yet) carrying the Notion task's fields. */
  function ConstructGoogleFromNotion(tasklist: Id, n: NotionTask): (g: GoogleTask)
    ensures g.status == Done <==> NotionDone(n)
    ensures g.status == Todo <==> !NotionDone(n)
    ensures g.id == None && g.parent == None && g.updated == None
    ensures g.tasklist == tasklist && g.title == n.title && g.notes == n.details && g.due == n.due
  {
    GoogleTask(None, tasklist, n.title, n.details, if NotionDone(n) then Done else Todo, n.due, None, None)
  }

  /** The result of `move_parent(p)`: the provider refuses a parent it does not hold. */
  function MoveTarget(google: map<Id, GoogleTask>, p: Id): (r: Result<Option<Id>, Failure>)
    ensures r.Ok? <==> p in google
    ensures r.Ok? ==> r.value == Some(p)
  {
    if p in google then Ok(Some(p)) else Err(RemoteRejected)
  }

  /**
   * The Google parent `update_google_task_from_notion` leaves the task with,
   * after its `move_parent` calls (app/sync.py:43-60).
   */
  function GoogleParentAfterUpdate(n: NotionTask, g: GoogleTask, records: seq<TaskMapping>, google: map<Id, GoogleTask>): (r: Result<Option<Id>, Failure>)
    ensures n.parentTasks == [] ==> r.Ok? && (Truthy(g.parent) ==> r.value == None) && (!Truthy(g.parent) ==> r.value == g.parent)
    ensures n.parentTasks != [] && Get(records, Some(n.parentTasks[0]), None).None? ==> r.Err?
    ensures n.parentTasks != [] && r.Ok? ==> r.value == Some(Get(records, Some(n.parentTasks[0]), None).value.googleId)
  {
    if n.parentTasks == [] then
      // moved out from its parent to the root, or already at the root
      if Truthy(g.parent) then Ok(None) else Ok(g.parent)
    else
      match Get(records, Some(n.parentTasks[0]), None)
      case None =>
        // "Google parent task does not exist", or the attribute access on None
        if !Truthy(g.parent) then Err(ParentNotLinked) else Err(MissingRecord)
      case Some(m) =>
        if !Truthy(g.parent) || m.googleId != g.parent.value then MoveTarget(google, m.googleId)
        else Ok(g.parent)
  }

  /**
   * `update_google_task_from_notion`: the Google task as it is written back
   * (app/sync.py:31-62), or the exception it raises before writing.
   */
  function UpdateGoogleFromNotion(n: NotionTask, g: GoogleTask, records: seq<TaskMapping>, google: map<Id, GoogleTask>): (r: Result<GoogleTask, Failure>)
    ensures r.Ok? ==> r.value.id == g.id && r.value.tasklist == g.tasklist && r.value.updated == g.updated
    ensures r.Ok? ==> r.value.title == n.title && r.value.notes == n.details
    ensures r.Ok? ==> (r.value.status == Done <==> NotionDone(n))
    ensures r.Ok? ==> r.value.due == n.due
    ensures r.Ok? && n.due.None? ==> r.value.due.None?
    ensures n.parentTasks == [] ==> r.Ok?
    ensures r.Ok? && n.parentTasks == [] && Truthy(g.parent) ==> r.value.parent == None
    ensures n.parentTasks != [] && Get(records, Some(n.parentTasks[0]), None).None? ==> r.Err?
    ensures n.parentTasks != [] && !Truthy(g.parent) && Get(records, Some(n.parentTasks[0]), None).None? ==> r == Err(ParentNotLinked)
    ensures r.Ok? && n.parentTasks != [] ==> r.value.parent == Some(Get(records, Some(n.parentTasks[0]), None).value.googleId)
  {
    match GoogleParentAfterUpdate(n, g, records, google)
    case Err(e) => Err(e)
    case Ok(parent) =>
      Ok(g.(title := n.title, notes := n.details,
            status := if NotionDone(n) then Done else Todo,
            due := n.due, parent := parent))
  }

  /**
   * `construct_notion_task_from_google`: a Notion task (no id yet) in the
   * bucket linked to the Google task's list, synced at `now`.
   */
  function ConstructNotionFromGoogle(g: GoogleTask, buckets: seq<ListBucket>, now: int): (r: Result<NotionTask, Failure>)
    ensures r.Ok? <==> GetBucket(buckets, None, Some(g.tasklist)).Some?
    ensures r.Ok? ==> r.value.bucket == Some(GetBucket(buckets, None, Some(g.tasklist)).value.notionId)
    ensures r.Ok? ==> r.value.id == None && r.value.parentTasks == [] && r.value.synced == Some(now)
    ensures r.Ok? ==> r.value.title == g.title && r.value.details == g.notes && r.value.due == g.due
    ensures r.Ok? ==> (NotionDone(r.value) <==> g.status == Done)
    ensures r.Ok? && g.status != Done ==> r.value.status == Some(NotionStatus(TodoStatusId))
  {
    match GetBucket(buckets, None, Some(g.tasklist))
    case None => Err(MissingRecord)
    case Some(b) =>
      var status := if g.status == Done then NotionStatus(DoneStatusId) else NotionStatus(TodoStatusId);
      Ok(NotionTask(None, g.title, Some(b.notionId), g.notes, Some(status), g.due, [], Some(now), None))
  }

  /**
   * `update_notion_task_from_google`: the Notion task as it is written back
   * (app/sync.py:93-122), or the exception it raises before writing.
   */
  function UpdateNotionFromGoogle(g: GoogleTask, n: NotionTask, records: seq<TaskMapping>): (r: Result<NotionTask, Failure>)
    ensures r.Ok? ==> r.value.id == n.id && r.value.bucket == n.bucket && r.value.synced == n.synced && r.value.updated == n.updated
    ensures r.Ok? ==> r.value.title == g.title && r.value.details == g.notes && r.value.due == g.due
    ensures r.Ok? && g.status == Done ==> r.value.status == Some(NotionStatus(DoneStatusId))
    ensures r.Ok? && g.status != Done && n.status == Some(NotionStatus(DoneStatusId)) ==> r.value.status == Some(NotionStatus(TodoStatusId))
    ensures r.Ok? && g.status != Done && n.status != Some(NotionStatus(DoneStatusId)) ==> r.value.status == n.status
    ensures r.Err? <==> Truthy(g.parent) && n.parentTasks == [] && Get(records, None, g.parent).None?
    ensures r.Ok? && !Truthy(g.parent) ==> r.value.parentTasks == []
    ensures r.Ok? && Truthy(g.parent) && n.parentTasks == [] ==> r.value.parentTasks == [Get(records, None, g.parent).value.notionId]
    ensures r.Ok? && Truthy(g.parent) && n.parentTasks != [] ==> r.value.parentTasks == n.parentTasks
  {
    var status :=
      if g.status == Done then Some(NotionStatus(DoneStatusId))
      else if n.status == Some(NotionStatus(DoneStatusId)) then Some(NotionStatus(TodoStatusId))
      else n.status;
    var parents :=
      if !Truthy(g.parent) && n.parentTasks != [] then Ok([])
      else if Truthy(g.parent) && n.parentTasks == [] then
        match Get(records, None, g.parent)
        case None => Err(ParentNotLinked)
        case Some(m) => Ok([m.notionId])
      else Ok(n.parentTasks);
    match parents
    case Err(e) => Err(e)
    case Ok(ps) => Ok(n.(title := g.title, details := g.notes, status := status, due := g.due, parentTasks := ps))
  }

  /** The due-date and notes tests that open `check_change_notion_and_google_tasks` (app/sync.py:125-132). */
  function DueOrNotesChanged(n: NotionTask, g: GoogleTask): (r: Result<bool, Failure>)
    ensures r.Err? <==> n.due.Some? && g.due.None?
    ensures r == Ok(false) ==> (n.due.Some? ==> n.due.value - g.due.value <= 1)
    ensures r == Ok(false) ==> (Truthy(n.details) && Truthy(g.notes) ==> n.details == g.notes)
  {
    if n.due.Some? && g.due.None? then Err(DueTypeError)
    else if n.due.Some? && n.due.value - g.due.value > 1 then Ok(true)
    else Ok(Truthy(n.details) && Truthy(g.notes) && n.details != g.notes)
  }

  /** The title and parent tests that close `check_change_notion_and_google_tasks` (app/sync.py:142-146). */
  predicate TitleOrParentChanged(n: NotionTask, g: GoogleTask)
  {
    || n.title != g.title
    || (n.parentTasks == [] && Truthy(g.parent))
    || (n.parentTasks != [] && !Truthy(g.parent))
    || (n.parentTasks != [] && Truthy(g.parent))
  }

  /** The Notion task's status is the done status, compared as the source compares status objects. */
  predicate HasDoneStatus(n: NotionTask)
  {
    n.status == Some(NotionStatus(DoneStatusId))
  }

  /**
   * `check_change_notion_and_google_tasks` as written: the two status tests
   * at app/sync.py:136-140 answer True for every pair of statuses, so once
   * the due and notes tests pass it always reports a change.
   */
  function CheckChangeAsWritten(n: NotionTask, g: GoogleTask): (r: Result<bool, Failure>)
    ensures r.Err? <==> n.due.Some? && g.due.None?
    ensures r != Ok(false)
  {
    match DueOrNotesChanged(n, g)
    case Err(e) => Err(e)
    case Ok(true) => Ok(true)
    case Ok(false) =>
      if !(g.status == Done && HasDoneStatus(n)) then Ok(true)
      else if !(g.status != Done && !HasDoneStatus(n)) then Ok(true)
      else Ok(TitleOrParentChanged(n, g))
  }

  /**
   * The change check with the status tests as evidently intended: a change
   * only when exactly one of the two sides is done.
   */
  function CheckChange(n: NotionTask, g: GoogleTask): (r: Result<bool, Failure>)
    ensures r.Err? <==> n.due.Some? && g.due.None?
    ensures r.Ok? && (g.status == Done) != HasDoneStatus(n) ==> r.value
    ensures r.Ok? && n.title != g.title ==> r.value
    ensures r == Ok(false) ==> (g.status == Done <==> HasDoneStatus(n)) && n.title == g.title
    ensures r == Ok(false) ==> (Truthy(n.details) && Truthy(g.notes) ==> n.details == g.notes)
    ensures r == Ok(false) ==> (n.due.Some? ==> n.due.value - g.due.value <= 1)
    ensures r == Ok(false) ==> n.parentTasks == [] && !Truthy(g.parent)
  {
    match DueOrNotesChanged(n, g)
    case Err(e) => Err(e)
    case Ok(true) => Ok(true)
    case Ok(false) =>
      if (g.status == Done) != HasDoneStatus(n) then Ok(true)
      else Ok(TitleOrParentChanged(n, g))
  }

  /**
   * As written, a Notion task that was just refreshed from a top-level
   * Google task is still reported as changed: every mapped task is written
   * again on every pass.
   */
  lemma RefreshedStillReportedChanged(g: GoogleTask, n: NotionTask, records: seq<TaskMapping>)
    requires !Truthy(g.parent)
    requires UpdateNotionFromGoogle(g, n, records).Ok?
    ensures CheckChangeAsWritten(UpdateNotionFromGoogle(g, n, records).value, g) == Ok(true)
  {
    var n' := UpdateNotionFromGoogle(g, n, records).value;
    assert n'.due == g.due;
  }

  /** A concrete pair that agrees on every field and is still reported as changed. */
  lemma AgreeingPairReportedChanged()
    ensures CheckChangeAsWritten(
      NotionTask(Some("n1"), "Buy milk", None, None, Some(NotionStatus(DoneStatusId)), None, [], None, None),
      GoogleTask(Some("g1"), "l1", "Buy milk", None, Done, None, None, None)) == Ok(true)
    ensures CheckChange(
      NotionTask(Some("n1"), "Buy milk", None, None, Some(NotionStatus(DoneStatusId)), None, [], None, None),
      GoogleTask(Some("g1"), "l1", "Buy milk", None, Done, None, None, None)) == Ok(false)
  {
  }

  /**
   * With the intended status test, refreshing a Notion task from a
   * top-level Google task leaves nothing to change: a second pass with no
   * new edits writes nothing.
   */
  lemma RefreshedNeedsNoChange(g: GoogleTask, n: NotionTask, records: seq<TaskMapping>)
    requires !Truthy(g.parent)
    requires UpdateNotionFromGoogle(g, n, records).Ok?
    ensures CheckChange(UpdateNotionFromGoogle(g, n, records).value, g) == Ok(false)
  {
    var n' := UpdateNotionFromGoogle(g, n, records).value;
    assert n'.due == g.due && n'.details == g.notes && n'.title == g.title;
    assert n'.parentTasks == [];
    assert g.status == Done <==> HasDoneStatus(n');
  }
}
