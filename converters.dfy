/**
 * app/converters/__init__.py: translation of statuses through the
 * configured status table, and of a task into the other side's shape,
 * resolving the parent through the two repositories.
 *
 * The status table, the Notion buckets and the Google task lists are
 * configuration and directory lookups; they are passed in as `Env`.
 */
module Converters {
  import opened Basics
  import opened Tasks

  /** One row of the status table: a Notion status and the Google status it stands for. */
  datatype StatusEntry = StatusEntry(notion: NotionStatus, google: GoogleStatus)

  /** A Notion bucket or a Google task list: its id and its title. */
  datatype Named = Named(id: Id, title: string)

  datatype Env = Env(statuses: seq<StatusEntry>, buckets: seq<Named>, tasklists: seq<Named>)

  /** `notion_to_google_status`: the Google status of the first row with the same Notion status id, else todo. */
  function NotionToGoogleStatus(table: seq<StatusEntry>, s: NotionStatus): (r: GoogleStatus)
    ensures forall i :: (0 <= i < |table| && table[i].notion.notionId == s.notionId
                         && forall j :: 0 <= j < i ==> table[j].notion.notionId != s.notionId) ==> r == table[i].google
    ensures (forall i :: 0 <= i < |table| ==> table[i].notion.notionId != s.notionId) ==> r == Todo
  {
    match FirstIndex(table, (e: StatusEntry) => e.notion.notionId == s.notionId)
    case Some(i) => table[i].google
    case None => Todo
  }

  /** `google_to_notion_status`: the Notion status of the first row with the same Google status, else None. */
  function GoogleToNotionStatus(table: seq<StatusEntry>, s: GoogleStatus): (r: Option<NotionStatus>)
    ensures forall i :: (0 <= i < |table| && table[i].google == s
                         && forall j :: 0 <= j < i ==> table[j].google != s) ==> r == Some(table[i].notion)
    ensures r.None? <==> forall i :: 0 <= i < |table| ==> table[i].google != s
  {
    match FirstIndex(table, (e: StatusEntry) => e.google == s)
    case Some(i) => Some(table[i].notion)
    case None => None
  }

  /** The title of the first entry with the given id. */
  function TitleOf(entries: seq<Named>, id: Id): (r: Option<string>)
    ensures r.Some? ==> Named(id, r.value) in entries
    ensures r.None? <==> forall i :: 0 <= i < |entries| ==> entries[i].id != id
  {
    match First(entries, (e: Named) => e.id == id)
    case Some(e) => Some(e.title)
    case None => None
  }

  /** The id of the first entry with the given title. */
  function IdOf(entries: seq<Named>, title: string): (r: Option<Id>)
    ensures r.Some? ==> Named(r.value, title) in entries
    ensures r.None? <==> forall i :: 0 <= i < |entries| ==> entries[i].title != title
  {
    match First(entries, (e: Named) => e.title == title)
    case Some(e) => Some(e.id)
    case None => None
  }

  /** The Google task list of a Notion bucket: the list that bears the bucket's title. */
  function TasklistFor(env: Env, bucketId: Id): (r: Option<Id>)
    ensures r.Some? ==> exists title :: Named(bucketId, title) in env.buckets && Named(r.value, title) in env.tasklists
    ensures r.None? <==>
      (forall i :: 0 <= i < |env.buckets| ==> env.buckets[i].id != bucketId)
      || (TitleOf(env.buckets, bucketId).Some? &&
          forall j :: 0 <= j < |env.tasklists| ==> env.tasklists[j].title != TitleOf(env.buckets, bucketId).value)
  {
    match TitleOf(env.buckets, bucketId)
    case None => None
    case Some(title) => IdOf(env.tasklists, title)
  }

  /** The Notion bucket of a Google task list: the bucket that bears the list's title. */
  function BucketFor(env: Env, tasklist: Id): (r: Option<Id>)
    ensures r.Some? ==> exists title :: Named(tasklist, title) in env.tasklists && Named(r.value, title) in env.buckets
    ensures r.None? <==>
      (forall i :: 0 <= i < |env.tasklists| ==> env.tasklists[i].id != tasklist)
      || (TitleOf(env.tasklists, tasklist).Some? &&
          forall j :: 0 <= j < |env.buckets| ==> env.buckets[j].title != TitleOf(env.tasklists, tasklist).value)
  {
    match TitleOf(env.tasklists, tasklist)
    case None => None
    case Some(title) => IdOf(env.buckets, title)
  }

  /**
   * The Google parent of a Notion task's first parent: the Google id recorded
   * on the parent's internal Notion copy, provided the Google repository
   * holds that task in the same list. None when either lookup fails.
   */
  function GoogleParentOf(googleRepo: seq<GoogleTask>, notionRepo: seq<NotionTask>, tasklist: Id, parentId: Id): (r: Option<Option<Id>>)
    ensures r.Some? <==> FindNotion(notionRepo, Some(parentId)).Some?
                         && FindGoogleIn(googleRepo, tasklist, FindNotion(notionRepo, Some(parentId)).value.googleId).Some?
    ensures r.Some? ==> r.value == FindNotion(notionRepo, Some(parentId)).value.googleId
  {
    match FindNotion(notionRepo, Some(parentId))
    case None => None
    case Some(np) =>
      match FindGoogleIn(googleRepo, tasklist, np.googleId)
      case None => None
      case Some(gp) => Some(gp.googleId)
  }

  /**
   * `notion_to_google_task`: the task list from the bucket's title, the
   * parent through the repositories (`RuntimeError` when it is not linked),
   * the status through the table; title, notes, sync time and both ids are
   * copied. A missing bucket or list raises some other exception, and so
   * does a task without a status once the table has a row to compare it
   * with; with an empty table such a task gets the default, todo.
   */
  function NotionToGoogleTask(env: Env, googleRepo: seq<GoogleTask>, notionRepo: seq<NotionTask>, n: NotionTask): (r: Result<GoogleTask, Failure>)
    ensures TasklistFor(env, n.bucketId).None? ==> r == Err(Fault)
    ensures r == Err(ParentUnlinked) <==>
      TasklistFor(env, n.bucketId).Some? && n.parentTaskIds != []
      && GoogleParentOf(googleRepo, notionRepo, TasklistFor(env, n.bucketId).value, n.parentTaskIds[0]).None?
    ensures r == Err(Fault) <==>
      TasklistFor(env, n.bucketId).None? || (r != Err(ParentUnlinked) && n.status.None? && env.statuses != [])
    ensures r.Ok? ==> (n.status.Some? || env.statuses == []) && TasklistFor(env, n.bucketId) == Some(r.value.tasklist)
    ensures r.Ok? ==> r.value.title == n.title && r.value.notes == n.notes && r.value.synced == n.synced
                      && r.value.notionId == n.notionId && r.value.googleId == n.googleId && r.value.updated.None?
    ensures r.Ok? && n.status.Some? ==> r.value.status == NotionToGoogleStatus(env.statuses, n.status.value)
    ensures r.Ok? && n.status.None? ==> r.value.status == Todo
    ensures r.Ok? ==> (r.value.due.Some? <==> n.due.Some?) && (n.due.Some? ==> r.value.due.value == n.due.value.day)
    ensures r.Ok? && n.parentTaskIds == [] ==> r.value.parent.None?
    ensures r.Ok? && n.parentTaskIds != [] ==> Some(r.value.parent) == GoogleParentOf(googleRepo, notionRepo, r.value.tasklist, n.parentTaskIds[0])
  {
    match TasklistFor(env, n.bucketId)
    case None => Err(Fault)
    case Some(tasklist) =>
      var parent :=
        if n.parentTaskIds == [] then Some(None)
        else GoogleParentOf(googleRepo, notionRepo, tasklist, n.parentTaskIds[0]);
      if parent.None? then Err(ParentUnlinked)
      // the table lookup reads the status id of every row it visits
      else if n.status.None? && env.statuses != [] then Err(Fault)
      else
        var status := if n.status.Some? then NotionToGoogleStatus(env.statuses, n.status.value) else Todo;
        var due := if n.due.Some? then Some(n.due.value.day) else None;
        Ok(GoogleTask(n.googleId, tasklist, n.title, n.notes, status, parent.value, due, None, n.synced, n.notionId))
  }

  /**
   * The Notion parent of a Google task's parent: the Notion id recorded on
   * the parent's internal Google copy, provided the Notion repository holds
   * that task. None when either lookup fails.
   */
  function NotionParentOf(googleRepo: seq<GoogleTask>, notionRepo: seq<NotionTask>, parentId: Id): (r: Option<NotionTask>)
    ensures r.Some? <==> FindGoogle(googleRepo, Some(parentId)).Some?
                         && FindNotion(notionRepo, FindGoogle(googleRepo, Some(parentId)).value.notionId).Some?
    ensures r.Some? ==> r.value in notionRepo && r.value.notionId == FindGoogle(googleRepo, Some(parentId)).value.notionId
  {
    match FindGoogle(googleRepo, Some(parentId))
    case None => None
    case Some(gp) => FindNotion(notionRepo, gp.notionId)
  }

  /**
   * `google_to_notion_task`: the bucket from the list's title, the parent
   * through the repositories when the task has one (`RuntimeError` when it
   * is not linked), the due day without a time of day, the status through
   * the table; title, notes, sync time and both ids are copied.
   */
  function GoogleToNotionTask(env: Env, googleRepo: seq<GoogleTask>, notionRepo: seq<NotionTask>, g: GoogleTask): (r: Result<NotionTask, Failure>)
    ensures BucketFor(env, g.tasklist).None? ==> r == Err(Fault)
    ensures r == Err(ParentUnlinked) <==>
      BucketFor(env, g.tasklist).Some? && Truthy(g.parent) && NotionParentOf(googleRepo, notionRepo, g.parent.value).None?
    ensures r.Ok? <==>
      BucketFor(env, g.tasklist).Some?
      && (!Truthy(g.parent) || (NotionParentOf(googleRepo, notionRepo, g.parent.value).Some?
                                && NotionParentOf(googleRepo, notionRepo, g.parent.value).value.notionId.Some?))
    ensures r.Ok? ==> BucketFor(env, g.tasklist) == Some(r.value.bucketId)
    ensures r.Ok? ==> r.value.title == g.title && r.value.notes == g.notes && r.value.synced == g.synced
                      && r.value.notionId == g.notionId && r.value.googleId == g.googleId && r.value.updated.None?
    ensures r.Ok? ==> r.value.status == GoogleToNotionStatus(env.statuses, g.status)
    ensures r.Ok? ==> (r.value.due.Some? <==> g.due.Some?) && (g.due.Some? ==> r.value.due.value == NotionTime(g.due.value, false))
    ensures r.Ok? && !Truthy(g.parent) ==> r.value.parentTaskIds == []
    ensures r.Ok? && Truthy(g.parent) ==>
      && |r.value.parentTaskIds| == 1
      && NotionParentOf(googleRepo, notionRepo, g.parent.value).Some?
      && NotionParentOf(googleRepo, notionRepo, g.parent.value).value.notionId == Some(r.value.parentTaskIds[0])
  {
    match BucketFor(env, g.tasklist)
    case None => Err(Fault)
    case Some(bucketId) =>
      var parents :=
        if !Truthy(g.parent) then Ok([])
        else match NotionParentOf(googleRepo, notionRepo, g.parent.value)
          case None => Err(ParentUnlinked)
          // a linked parent whose internal copy has no Notion id fails validation
          case Some(np) => if np.notionId.None? then Err(Fault) else Ok([np.notionId.value]);
      if parents.Err? then Err(parents.error)
      else
        var due := if g.due.Some? then Some(NotionTime(g.due.value, false)) else None;
        Ok(NotionTask(g.notionId, g.title, g.notes, GoogleToNotionStatus(env.statuses, g.status), bucketId,
                      parents.value, due, None, g.synced, g.googleId))
  }

  // ---------------------------------------------------------------------
  // Round trips

  /** Ids and titles that each name one entry. */
  predicate Directory(entries: seq<Named>)
  {
    (forall i, j :: 0 <= i < |entries| && 0 <= j < |entries| && entries[i].id == entries[j].id ==> i == j)
    && (forall i, j :: 0 <= i < |entries| && 0 <= j < |entries| && entries[i].title == entries[j].title ==> i == j)
  }

  /** With a one-to-one directory, the bucket's list leads back to the same bucket. */
  lemma BucketRoundTrip(env: Env, bucketId: Id)
    requires Directory(env.buckets) && Directory(env.tasklists)
    requires TasklistFor(env, bucketId).Some?
    ensures BucketFor(env, TasklistFor(env, bucketId).value) == Some(bucketId)
  {
    var title := TitleOf(env.buckets, bucketId).value;
    var list := TasklistFor(env, bucketId).value;
    var i :| 0 <= i < |env.tasklists| && env.tasklists[i] == Named(list, title);
    var b :| 0 <= b < |env.buckets| && env.buckets[b] == Named(bucketId, title);
    assert TitleOf(env.tasklists, list) == Some(title) by {
      var t := TitleOf(env.tasklists, list).value;
      var k :| 0 <= k < |env.tasklists| && env.tasklists[k] == Named(list, t);
    }
    var back := IdOf(env.buckets, title).value;
    var k :| 0 <= k < |env.buckets| && env.buckets[k] == Named(back, title);
  }

  /** Rows whose statuses each appear once. */
  predicate StatusTable(table: seq<StatusEntry>)
  {
    (forall i, j :: 0 <= i < |table| && 0 <= j < |table| && table[i].notion.notionId == table[j].notion.notionId ==> i == j)
    && (forall i, j :: 0 <= i < |table| && 0 <= j < |table| && table[i].google == table[j].google ==> i == j)
  }

  /** With a one-to-one table, a Google status that has a Notion row translates back to itself. */
  lemma StatusRoundTrip(table: seq<StatusEntry>, s: GoogleStatus)
    requires StatusTable(table)
    requires GoogleToNotionStatus(table, s).Some?
    ensures NotionToGoogleStatus(table, GoogleToNotionStatus(table, s).value) == s
  {
    var i :| 0 <= i < |table| && table[i].google == s;
    var k := FirstIndex(table, (e: StatusEntry) => e.google == s).value;
    assert GoogleToNotionStatus(table, s) == Some(table[k].notion);
    var back := table[k].notion;
    var m := FirstIndex(table, (e: StatusEntry) => e.notion.notionId == back.notionId).value;
  }

  /**
   * Converting a Notion task to Google and back keeps the fields both
   * shapes share: title, notes, sync time, both ids and the due day (the
   * time of day is dropped); with one-to-one directories the bucket comes
   * back, and with a one-to-one status table the status comes back as one
   * that means the same Google status.
   */
  lemma NotionRoundTrip(env: Env, googleRepo: seq<GoogleTask>, notionRepo: seq<NotionTask>, n: NotionTask)
    requires NotionToGoogleTask(env, googleRepo, notionRepo, n).Ok?
    requires GoogleToNotionTask(env, googleRepo, notionRepo, NotionToGoogleTask(env, googleRepo, notionRepo, n).value).Ok?
    ensures
      var n2 := GoogleToNotionTask(env, googleRepo, notionRepo, NotionToGoogleTask(env, googleRepo, notionRepo, n).value).value;
      && n2.title == n.title && n2.notes == n.notes && n2.synced == n.synced
      && n2.notionId == n.notionId && n2.googleId == n.googleId
      && (n.due.Some? ==> n2.due == Some(NotionTime(n.due.value.day, false)))
      && (n.due.None? ==> n2.due.None?)
      && (Directory(env.buckets) && Directory(env.tasklists) ==> n2.bucketId == n.bucketId)
      && (StatusTable(env.statuses) && n.status.Some? && n2.status.Some? ==> NotionToGoogleStatus(env.statuses, n2.status.value) == NotionToGoogleStatus(env.statuses, n.status.value))
      && (n.status.None? ==> n2.status.None?)
  {
    var g := NotionToGoogleTask(env, googleRepo, notionRepo, n).value;
    if Directory(env.buckets) && Directory(env.tasklists) {
      BucketRoundTrip(env, n.bucketId);
    }
    var n2 := GoogleToNotionTask(env, googleRepo, notionRepo, g).value;
    if StatusTable(env.statuses) && n.status.Some? && n2.status.Some? {
      StatusRoundTrip(env.statuses, g.status);
    }
  }
}
