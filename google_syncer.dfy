/**
 * `GoogleSyncer` of app/syncers/google.py: one pass over the tasks listed
 * from Google Tasks. Each listed task is refreshed through its internal
 * copy, or created in Notion when it has none, fixing up an unlinked parent
 * first; afterwards every internal copy the pass did not see is removed
 * together with its Notion counterpart.
 *
 * The pure steps below are the branches of `sync_task`; the class holds the
 * syncer's own fields and runs them against the shared `Backend`.
 */
module GoogleSyncing {
  import opened Basics
  import opened Tasks
  import opened Converters

  // ---------------------------------------------------------------------
  // The branches of `sync_task`

  /**
   * The Google task is newer than its internal copy: the copy is fetched
   * from Google and stamped, the linked Notion task takes over its content
   * and is saved to Notion, and the fetched copy is stored.
   * None when any of these raises (the bare `except:` then takes over).
   */
  function PullFromGoogle(env: Env, st: Stores, i: GoogleTask, now: int): (r: Option<(Stores, GoogleTask)>)
    ensures r.Some? ==> i.googleId.Some? && i.googleId.value in st.googleRemote
    ensures r.Some? ==> r.value.1.googleId == i.googleId && r.value.1.notionId == i.notionId && r.value.1.synced == Some(now)
    ensures r.Some? ==> r.value.1.title == st.googleRemote[i.googleId.value].title
                        && r.value.1.updated == st.googleRemote[i.googleId.value].updated
    ensures r.Some? ==> FindGoogle(r.value.0.googleRepo, i.googleId) == Some(r.value.1)
    ensures r.Some? ==> r.value.0.googleRemote == st.googleRemote && r.value.0.notionRepo == st.notionRepo
    ensures r.Some? && i.notionId.Some? ==>
      && r.value.0.notionRemote.Keys == st.notionRemote.Keys
      && i.notionId.value in r.value.0.notionRemote
      && r.value.0.notionRemote[i.notionId.value].title == r.value.1.title
    ensures r.Some? ==> r.value.1 == GoogleWithContent(i, st.googleRemote[i.googleId.value])
                                       .(updated := st.googleRemote[i.googleId.value].updated, synced := Some(now))
    ensures r.Some? && i.notionId.Some? ==>
      && FindNotion(st.notionRepo, i.notionId).Some?
      && GoogleToNotionTask(env, st.googleRepo, st.notionRepo, r.value.1).Ok?
      && r.value.0.notionRemote[i.notionId.value]
         == NotionWithContent(FindNotion(st.notionRepo, i.notionId).value,
                              GoogleToNotionTask(env, st.googleRepo, st.notionRepo, r.value.1).value).(updated := Some(now))
    ensures r.Some? ==> GoogleCopiesKept(st.googleRepo, r.value.0.googleRepo)
    ensures r.Some? ==> StoresGrow(st, r.value.0)
  {
    match GoogleFetch(st, i)
    case Err(_) => None
    case Ok(f) =>
      var fetched := f.(synced := Some(now));
      match FindNotion(st.notionRepo, fetched.notionId)
      case None => None
      case Some(linked) =>
        match GoogleToNotionTask(env, st.googleRepo, st.notionRepo, fetched)
        case Err(_) => None
        case Ok(converted) =>
          match NotionSave(st, NotionWithContent(linked, converted), now)
          case Err(_) => None
          case Ok(saved) =>
            var stored := saved.0.(googleRepo := SaveGoogle(saved.0.googleRepo, fetched));
            assert StoresGrow(st, stored);
            Some((stored, fetched))
  }

  /**
   * The internal copy is newer than the Google task: the copy is saved back
   * to Google, and both internal copies are stamped with one sync time.
   */
  function PushToGoogle(st: Stores, i: GoogleTask, now: int): (r: Option<(Stores, GoogleTask)>)
    ensures r.Some? ==> r.value.1 == i.(synced := Some(now))
    ensures r.Some? ==> FindGoogle(r.value.0.googleRepo, i.googleId) == Some(r.value.1)
    ensures r.Some? ==>
      && FindNotion(st.notionRepo, i.notionId).Some?
      && FindNotion(r.value.0.notionRepo, i.notionId) == Some(FindNotion(st.notionRepo, i.notionId).value.(synced := Some(now)))
    ensures r.Some? && i.googleId.Some? ==> r.value.0.googleRemote == st.googleRemote[i.googleId.value := i.(updated := Some(now))]
    ensures r.Some? ==> r.value.0.notionRemote == st.notionRemote
    ensures r.Some? ==> GoogleCopiesKept(st.googleRepo, r.value.0.googleRepo)
    ensures r.Some? ==> StoresGrow(st, r.value.0)
  {
    match FindNotion(st.notionRepo, i.notionId)
    case None => None
    case Some(linked) =>
      match GoogleSave(st, i, now)
      case Err(_) => None
      case Ok(pushed) =>
        var copy := i.(synced := Some(now));
        var stored := pushed.0.(googleRepo := SaveGoogle(pushed.0.googleRepo, copy),
                                notionRepo := SaveNotion(pushed.0.notionRepo, linked.(synced := Some(now))));
        assert StoresGrow(st, stored);
        Some((stored, copy))
  }

  /**
   * The first `try` block of `sync_task`: the internal copy with the same
   * Google id is compared with the listed task by modification time. None
   * when there is no copy or anything in the block raises (a missing time
   * cannot be compared); equal times change nothing.
   */
  function SyncExisting(env: Env, st: Stores, g: GoogleTask, now: int): (r: Option<(Stores, GoogleTask)>)
    ensures FindGoogle(st.googleRepo, g.googleId).None? ==> r.None?
    ensures r.Some? ==> r.value.1.googleId == g.googleId && FindGoogle(r.value.0.googleRepo, g.googleId) == Some(r.value.1)
    ensures var i := FindGoogle(st.googleRepo, g.googleId);
      i.Some? && (g.updated.None? || i.value.updated.None?) ==> r.None?
    ensures var i := FindGoogle(st.googleRepo, g.googleId);
      i.Some? && g.updated.Some? && i.value.updated == g.updated ==> r == Some((st, i.value))
    ensures var i := FindGoogle(st.googleRepo, g.googleId);
      i.Some? && g.updated.Some? && i.value.updated.Some? && g.updated.value > i.value.updated.value ==>
        r == PullFromGoogle(env, st, i.value, now)
    ensures var i := FindGoogle(st.googleRepo, g.googleId);
      i.Some? && g.updated.Some? && i.value.updated.Some? && g.updated.value < i.value.updated.value ==>
        r == PushToGoogle(st, i.value, now)
    ensures r.Some? ==> GoogleCopiesKept(st.googleRepo, r.value.0.googleRepo)
    ensures r.Some? ==> StoresGrow(st, r.value.0)
  {
    match FindGoogle(st.googleRepo, g.googleId)
    case None => None
    case Some(i) =>
      if g.updated.None? || i.updated.None? then None
      else if g.updated.value > i.updated.value then PullFromGoogle(env, st, i, now)
      else if g.updated.value < i.updated.value then PushToGoogle(st, i, now)
      else Some((st, i))
  }

  /**
   * The same block as written: the keyword `exlude` passed to the task's
   * `dict` is not one it accepts, so the pull branch always raises a
   * `TypeError`, which the bare `except:` turns into the new-task path.
   */
  function SyncExistingAsWritten(env: Env, st: Stores, g: GoogleTask, now: int): (r: Option<(Stores, GoogleTask)>)
    ensures var i := FindGoogle(st.googleRepo, g.googleId);
      i.Some? && g.updated.Some? && i.value.updated.Some? && g.updated.value > i.value.updated.value ==> r.None?
    ensures var i := FindGoogle(st.googleRepo, g.googleId);
      !(i.Some? && g.updated.Some? && i.value.updated.Some? && g.updated.value > i.value.updated.value) ==> r == SyncExisting(env, st, g, now)
  {
    match FindGoogle(st.googleRepo, g.googleId)
    case None => None
    case Some(i) =>
      if g.updated.None? || i.updated.None? then None
      else if g.updated.value > i.updated.value then None
      else if g.updated.value < i.updated.value then PushToGoogle(st, i, now)
      else Some((st, i))
  }

  /**
   * The new-task path: the task is stamped, converted and saved to Notion,
   * takes the Notion id it got, and both internal copies are stored.
   * `ParentUnlinked` is the converter's `RuntimeError`; every other
   * failure is `Fault`.
   */
  function SyncNew(env: Env, st: Stores, g: GoogleTask, now: int): (r: Result<(Stores, GoogleTask), Failure>)
    ensures r == Err(ParentUnlinked) <==> GoogleToNotionTask(env, st.googleRepo, st.notionRepo, g.(synced := Some(now))) == Err(ParentUnlinked)
    ensures r == Err(ParentUnlinked) ==> Truthy(g.parent)
    ensures r.Ok? ==> r.value.1.notionId.Some? && r.value.1 == g.(synced := Some(now), notionId := r.value.1.notionId)
    ensures r.Ok? ==> FindGoogle(r.value.0.googleRepo, g.googleId) == Some(r.value.1)
    ensures r.Ok? ==>
      && FindNotion(r.value.0.notionRepo, r.value.1.notionId).Some?
      && FindNotion(r.value.0.notionRepo, r.value.1.notionId).value.googleId == g.googleId
      && FindNotion(r.value.0.notionRepo, r.value.1.notionId).value.synced == Some(now)
    ensures r.Ok? ==> r.value.1.notionId.value in r.value.0.notionRemote && r.value.0.notionRemote[r.value.1.notionId.value].title == g.title
    ensures r.Ok? ==> r.value.0.googleRemote == st.googleRemote
    ensures r.Ok? ==> r.value.0.notionRemote.Keys == st.notionRemote.Keys + {r.value.1.notionId.value}
    ensures r.Ok? && g.notionId.None? ==> r.value.1.notionId == Some(MintedId(st.minted))
    ensures r.Ok? ==> GoogleCopiesKept(st.googleRepo, r.value.0.googleRepo)
    ensures var c := GoogleToNotionTask(env, st.googleRepo, st.notionRepo, g.(synced := Some(now)));
      r.Ok? <==> c.Ok? && NotionSave(st, c.value, now).Ok?
    ensures r.Ok? ==>
      && var c := GoogleToNotionTask(env, st.googleRepo, st.notionRepo, g.(synced := Some(now))).value;
      && r.value.0.notionRemote[r.value.1.notionId.value] == c.(notionId := r.value.1.notionId, updated := Some(now))
      && FindNotion(r.value.0.notionRepo, r.value.1.notionId) == Some(r.value.0.notionRemote[r.value.1.notionId.value])
    ensures r.Ok? ==> StoresGrow(st, r.value.0)
  {
    var stamped := g.(synced := Some(now));
    match GoogleToNotionTask(env, st.googleRepo, st.notionRepo, stamped)
    case Err(e) => Err(e)
    case Ok(n) =>
      match NotionSave(st, n, now)
      case Err(_) => Err(Fault)
      case Ok(saved) =>
        var linked := stamped.(notionId := saved.1.notionId);
        var stored := saved.0.(googleRepo := SaveGoogle(saved.0.googleRepo, linked),
                               notionRepo := SaveNotion(saved.0.notionRepo, saved.1));
        assert StoresGrow(st, stored);
        Ok((stored, linked))
  }

  // ---------------------------------------------------------------------
  // What the branches promise across passes

  /**
   * Once a newer Google task has been pulled, listing the same task again
   * finds its internal copy up to date: the next pass writes nothing.
   */
  lemma PullSettles(env: Env, st: Stores, g: GoogleTask, now: int, later: int)
    requires g.googleId.Some? && g.googleId.value in st.googleRemote
    requires g.updated.Some? && st.googleRemote[g.googleId.value].updated == g.updated
    requires FindGoogle(st.googleRepo, g.googleId).Some? && FindGoogle(st.googleRepo, g.googleId).value.updated.Some?
    requires g.updated.value > FindGoogle(st.googleRepo, g.googleId).value.updated.value
    requires SyncExisting(env, st, g, now).Some?
    ensures var r := SyncExisting(env, st, g, now).value;
      SyncExisting(env, r.0, g, later) == Some(r)
  {
    var i := FindGoogle(st.googleRepo, g.googleId).value;
    assert SyncExisting(env, st, g, now) == PullFromGoogle(env, st, i, now);
  }

  /**
   * The corrected pull keeps the link: the edited task updates the Notion
   * task its internal copy already points at, and no Notion task is added.
   */
  lemma EditedTaskRefreshesLinkedNotionTask(env: Env, st: Stores, g: GoogleTask, now: int)
    requires FindGoogle(st.googleRepo, g.googleId).Some?
    requires var i := FindGoogle(st.googleRepo, g.googleId).value;
      g.updated.Some? && i.updated.Some? && g.updated.value > i.updated.value && i.notionId.Some?
    requires SyncExisting(env, st, g, now).Some?
    ensures var i := FindGoogle(st.googleRepo, g.googleId).value;
      var r := SyncExisting(env, st, g, now).value;
      && r.0.notionRemote.Keys == st.notionRemote.Keys
      && FindGoogle(r.0.googleRepo, g.googleId).value.notionId == i.notionId
      && r.0.notionRemote[i.notionId.value].title == st.googleRemote[g.googleId.value].title
  {
    var i := FindGoogle(st.googleRepo, g.googleId).value;
    assert SyncExisting(env, st, g, now) == PullFromGoogle(env, st, i, now);
  }

  /**
   * As written, a task edited in Google after its last sync is treated as
   * new: a second Notion task is created, the internal copy is re-pointed
   * at it, and the Notion task it was linked to is left behind.
   */
  lemma EditedTaskDuplicatedAsWritten(env: Env, st: Stores, g: GoogleTask, now: int)
    requires FindGoogle(st.googleRepo, g.googleId).Some?
    requires var i := FindGoogle(st.googleRepo, g.googleId).value;
      g.updated.Some? && i.updated.Some? && g.updated.value > i.updated.value
      && i.notionId.Some? && i.notionId.value in st.notionRemote
    requires g.notionId.None?
    requires MintedId(st.minted) !in st.notionRemote
    requires SyncNew(env, st, g, now).Ok?
    ensures SyncExistingAsWritten(env, st, g, now).None?
    ensures var i := FindGoogle(st.googleRepo, g.googleId).value;
      var after := SyncNew(env, st, g, now).value.0;
      && i.notionId.value in after.notionRemote
      && MintedId(st.minted) in after.notionRemote
      && MintedId(st.minted) != i.notionId.value
      && |after.notionRemote.Keys| == |st.notionRemote.Keys| + 1
      && FindGoogle(after.googleRepo, g.googleId).value.notionId == Some(MintedId(st.minted))
  {
    var minted := MintedId(st.minted);
    var after := SyncNew(env, st, g, now).value.0;
    assert after.notionRemote.Keys == st.notionRemote.Keys + {minted};
  }

  /**
   * A push stamps the Google task with the push time while the internal
   * copy keeps its older time, so the next pass finds the Google task
   * newer than its copy: a pull, which as written fails and sends the task
   * down the new-task path, where it is duplicated.
   */
  lemma PushedTaskPulledNextPass(env: Env, st: Stores, i: GoogleTask, now: int, later: int)
    requires i.googleId.Some? && i.updated.Some? && i.updated.value < now
    requires PushToGoogle(st, i, now).Some?
    ensures var after := PushToGoogle(st, i, now).value.0;
      var listed := after.googleRemote[i.googleId.value];
      && listed.googleId == i.googleId
      && FindGoogle(after.googleRepo, i.googleId) == Some(i.(synced := Some(now)))
      && SyncExisting(env, after, listed, later) == PullFromGoogle(env, after, i.(synced := Some(now)), later)
      && SyncExistingAsWritten(env, after, listed, later).None?
  {
  }

  // ---------------------------------------------------------------------
  // The sweep at the end of `sync`

  /** The Google ids of the tasks a pass synced, in order. */
  function SyncedIds(tasks: seq<GoogleTask>): (ids: seq<Option<Id>>)
    ensures |ids| == |tasks|
    ensures forall k :: 0 <= k < |tasks| ==> ids[k] == tasks[k].googleId
  {
    seq(|tasks|, k requires 0 <= k < |tasks| => tasks[k].googleId)
  }

  /** Synced ids are never lost when more tasks are appended. */
  lemma SyncedIdsGrow(a: seq<GoogleTask>, b: seq<GoogleTask>)
    requires a <= b
    ensures forall x :: x in SyncedIds(a) ==> x in SyncedIds(b)
  {
    forall x | x in SyncedIds(a)
      ensures x in SyncedIds(b)
    {
      var k :| 0 <= k < |a| && SyncedIds(a)[k] == x;
      assert SyncedIds(b)[k] == x;
    }
  }

  /**
   * The Notion task `nid` is accounted for: the internal Notion repository
   * holds a copy of it, so the sweep can find it, or Notion no longer has it.
   */
  ghost predicate TracksNotion(st: Stores, nid: Id)
  {
    FindNotion(st.notionRepo, Some(nid)).Some? || nid !in st.notionRemote
  }

  /** Deleting one Notion task in Notion and its internal copy keeps every other task accounted for. */
  lemma TracksNotionAfterDelete(st: Stores, r: Stores, x: Id)
    requires r.notionRemote == st.notionRemote - {x}
    requires r.notionRepo == DeleteOneNotion(st.notionRepo, Some(x))
    ensures forall nid :: TracksNotion(st, nid) ==> TracksNotion(r, nid)
  {
  }

  /**
   * One internal copy visited by the sweep: a copy the pass did not sync
   * has its Notion counterpart deleted in Notion, then both internal
   * copies are dropped. A missing counterpart or a failed delete is only
   * logged, so nothing changes.
   */
  function SweepOneGoogle(st: Stores, i: GoogleTask, ids: seq<Option<Id>>): (r: Stores)
    ensures Where(r.googleRepo, GoogleKey, ids) == Where(st.googleRepo, GoogleKey, ids)
    ensures forall t :: t in r.googleRepo ==> t in st.googleRepo
    ensures forall t :: t in r.notionRepo ==> t in st.notionRepo
    ensures r.googleRemote == st.googleRemote && r.minted == st.minted
    ensures r.notionRemote.Keys <= st.notionRemote.Keys
    ensures i.googleId in ids ==> r == st
    ensures var n := FindNotion(st.notionRepo, i.notionId);
      i.googleId !in ids && n.Some? && n.value.notionId.Some? && n.value.notionId.value in st.notionRemote ==>
        && r.notionRemote == st.notionRemote - {n.value.notionId.value}
        && r.notionRepo == DeleteOneNotion(st.notionRepo, i.notionId)
        && r.googleRepo == DeleteOneGoogle(st.googleRepo, i.googleId)
    ensures var n := FindNotion(st.notionRepo, i.notionId);
      !(n.Some? && n.value.notionId.Some? && n.value.notionId.value in st.notionRemote) ==> r == st
    ensures forall nid :: TracksNotion(st, nid) ==> TracksNotion(r, nid)
    ensures i.googleId !in ids && i.notionId.Some? && TracksNotion(st, i.notionId.value) ==> i.notionId.value !in r.notionRemote
  {
    if i.googleId in ids then st
    else
      match FindNotion(st.notionRepo, i.notionId)
      case None => st
      case Some(n) =>
        match NotionDelete(st, n)
        case Err(_) => st
        case Ok(deleted) =>
          RemoveFirstKeeps(deleted.googleRepo, GoogleKey, i.googleId, ids);
          var swept := deleted.(notionRepo := DeleteOneNotion(deleted.notionRepo, n.notionId),
                                googleRepo := DeleteOneGoogle(deleted.googleRepo, i.googleId));
          TracksNotionAfterDelete(st, swept, n.notionId.value);
          swept
  }

  /**
   * The sweep over the copies `pending`, in order: the copies of synced
   * tasks stay exactly as they were, nothing is added, Google is not
   * touched, and with every copy synced nothing changes at all.
   */
  function SweepGoogle(st: Stores, pending: seq<GoogleTask>, ids: seq<Option<Id>>): (r: Stores)
    decreases |pending|
    ensures Where(r.googleRepo, GoogleKey, ids) == Where(st.googleRepo, GoogleKey, ids)
    ensures forall t :: t in r.googleRepo ==> t in st.googleRepo
    ensures forall t :: t in r.notionRepo ==> t in st.notionRepo
    ensures r.googleRemote == st.googleRemote && r.minted == st.minted
    ensures r.notionRemote.Keys <= st.notionRemote.Keys
    ensures (forall k :: 0 <= k < |pending| ==> pending[k].googleId in ids) ==> r == st
  {
    if pending == [] then st
    else SweepOneGoogle(SweepGoogle(st, pending[..|pending| - 1], ids), pending[|pending| - 1], ids)
  }

  /**
   * What the sweep removes: every pending copy that was not synced and
   * points at an accounted-for Notion task leaves that task deleted in
   * Notion, and no other task stops being accounted for.
   */
  lemma {:induction false} SweepDeletesUnsynced(st: Stores, pending: seq<GoogleTask>, ids: seq<Option<Id>>)
    ensures forall nid :: TracksNotion(st, nid) ==> TracksNotion(SweepGoogle(st, pending, ids), nid)
    ensures forall k :: 0 <= k < |pending| && pending[k].googleId !in ids && pending[k].notionId.Some? &&
                        TracksNotion(st, pending[k].notionId.value) ==>
                          pending[k].notionId.value !in SweepGoogle(st, pending, ids).notionRemote
    decreases |pending|
  {
    if pending != [] {
      var front := pending[..|pending| - 1];
      SweepDeletesUnsynced(st, front, ids);
      var r := SweepGoogle(st, pending, ids);
      forall k | 0 <= k < |pending| && pending[k].googleId !in ids && pending[k].notionId.Some? && TracksNotion(st, pending[k].notionId.value)
        ensures pending[k].notionId.value !in r.notionRemote
      {
        if k < |front| {
          assert front[k] == pending[k];
        }
      }
    }
  }

  // ---------------------------------------------------------------------
  // The syncer

  class GoogleSyncer {
    var lastSync: Option<int>
    var syncedTasks: seq<GoogleTask>

    constructor ()
      ensures lastSync.None? && syncedTasks == []
    {
      lastSync := None;
      syncedTasks := [];
    }

    /**
     * `sync_task`: the existing-task branches, else the new-task path; when
     * the parent is not linked yet and `fixParent` holds, the parent is
     * fetched from Google and synced first (and recorded as synced), then
     * the task is tried again. The source recurses without a bound; `fuel`
     * stands for the interpreter's recursion limit, whose error escapes.
     */
    method SyncTask(backend: Backend, env: Env, g: GoogleTask, fixParent: bool, fuel: nat, now: int) returns (r: SyncResult<GoogleTask>)
      modifies this, backend
      decreases fuel, 1
      ensures lastSync == old(lastSync)
      ensures old(syncedTasks) <= syncedTasks
      ensures r.Synced? ==> r.task.googleId == g.googleId && FindGoogle(backend.stores.googleRepo, g.googleId) == Some(r.task)
      ensures r.Skipped? <==>
        !fixParent && SyncExisting(env, old(backend.stores), g, now).None? && SyncNew(env, old(backend.stores), g, now) == Err(ParentUnlinked)
      ensures r.Skipped? ==> backend.stores == old(backend.stores) && syncedTasks == old(syncedTasks)
      ensures var e := SyncExisting(env, old(backend.stores), g, now);
        e.Some? ==> r == Synced(e.value.1) && backend.stores == e.value.0 && syncedTasks == old(syncedTasks)
      ensures var n := SyncNew(env, old(backend.stores), g, now);
        SyncExisting(env, old(backend.stores), g, now).None? && n.Ok? ==>
          r == Synced(n.value.1) && backend.stores == n.value.0 && syncedTasks == old(syncedTasks)
      ensures SyncExisting(env, old(backend.stores), g, now).None? && SyncNew(env, old(backend.stores), g, now) == Err(ParentUnlinked) && r.Synced? ==>
        g.parent in SyncedIds(syncedTasks)
      ensures SyncExisting(env, old(backend.stores), g, now).None? && SyncNew(env, old(backend.stores), g, now) == Err(Fault) ==>
        r == Aborted && backend.stores == old(backend.stores)
      ensures GoogleCopiesKept(old(backend.stores).googleRepo, backend.stores.googleRepo)
      ensures StoresGrow(old(backend.stores), backend.stores)
    {
      var existing := SyncExisting(env, backend.stores, g, now);
      if existing.Some? {
        backend.stores := existing.value.0;
        return Synced(existing.value.1);
      }
      var created := SyncNew(env, backend.stores, g, now);
      if created.Ok? {
        backend.stores := created.value.0;
        return Synced(created.value.1);
      }
      if created.error == Fault {
        return Aborted;
      }
      if !fixParent {
        return Skipped;
      }
      r := FixParentAndRetry(backend, env, g, fuel, now);
    }

    /**
     * The `RuntimeError` handler of `sync_task` with `fix_parent` set: the
     * parent is fetched and synced, recorded, and the task tried again.
     */
    method FixParentAndRetry(backend: Backend, env: Env, g: GoogleTask, fuel: nat, now: int) returns (r: SyncResult<GoogleTask>)
      requires SyncNew(env, backend.stores, g, now) == Err(ParentUnlinked)
      modifies this, backend
      decreases fuel, 0
      ensures lastSync == old(lastSync)
      ensures old(syncedTasks) <= syncedTasks
      ensures !r.Skipped?
      ensures r.Synced? ==> r.task.googleId == g.googleId && FindGoogle(backend.stores.googleRepo, g.googleId) == Some(r.task)
      ensures r.Synced? ==> g.parent in SyncedIds(syncedTasks)
      ensures GoogleCopiesKept(old(backend.stores).googleRepo, backend.stores.googleRepo)
      ensures StoresGrow(old(backend.stores), backend.stores)
    {
      if fuel == 0 {
        return Aborted;
      }
      var parent := GoogleGet(backend.stores, g.parent.value);
      if parent.Err? {
        return Aborted;
      }
      var syncedParent := SyncListedTask(backend, env, parent.value, fuel - 1, now);
      if !syncedParent.Synced? {
        return Aborted;
      }
      syncedTasks := syncedTasks + [syncedParent.task];
      ghost var recorded := syncedTasks;
      assert SyncedIds(recorded)[|recorded| - 1] == g.parent;
      r := SyncListedTask(backend, env, g.(synced := Some(now)), fuel - 1, now);
      SyncedIdsGrow(recorded, syncedTasks);
    }

    /**
     * The call `sync` makes for each listed task, with parent fix-up on:
     * a synced task keeps its id, and earlier records are kept.
     */
    method SyncListedTask(backend: Backend, env: Env, g: GoogleTask, fuel: nat, now: int) returns (r: SyncResult<GoogleTask>)
      modifies this, backend
      decreases fuel, 2
      ensures lastSync == old(lastSync)
      ensures old(syncedTasks) <= syncedTasks
      ensures !r.Skipped?
      ensures r.Synced? ==> r.task.googleId == g.googleId && FindGoogle(backend.stores.googleRepo, g.googleId) == Some(r.task)
      ensures GoogleCopiesKept(old(backend.stores).googleRepo, backend.stores.googleRepo)
      ensures StoresGrow(old(backend.stores), backend.stores)
    {
      r := SyncTask(backend, env, g, true, fuel, now);
    }

    /**
     * The sweep loop of `sync`, over the internal Google copies as they
     * stood when it began.
     */
    method SweepRepository(backend: Backend, ids: seq<Option<Id>>)
      modifies backend
      ensures backend.stores == SweepGoogle(old(backend.stores), old(backend.stores).googleRepo, ids)
      ensures forall t :: (t in old(backend.stores).googleRepo && t.googleId !in ids && t.notionId.Some? &&
                           TracksNotion(old(backend.stores), t.notionId.value)) ==> t.notionId.value !in backend.stores.notionRemote
    {
      var snapshot := backend.stores.googleRepo;
      ghost var start := backend.stores;
      for k := 0 to |snapshot|
        invariant backend.stores == SweepGoogle(start, snapshot[..k], ids)
      {
        assert snapshot[..k + 1][..k] == snapshot[..k];
        backend.stores := SweepOneGoogle(backend.stores, snapshot[k], ids);
      }
      assert snapshot[..|snapshot|] == snapshot;
      SweepDeletesUnsynced(start, snapshot, ids);
      forall t | t in snapshot && t.googleId !in ids && t.notionId.Some? && TracksNotion(start, t.notionId.value)
        ensures t.notionId.value !in backend.stores.notionRemote
      {
        var k :| 0 <= k < |snapshot| && snapshot[k] == t;
      }
    }

    /**
     * The loop of `sync` over the listed tasks: each is synced with parent
     * fix-up and recorded. An escaping error stops it. Nothing is deleted
     * on the way, and on success every listed task is recorded and has an
     * internal copy.
     */
    method WalkListed(backend: Backend, env: Env, listed: seq<GoogleTask>, fuel: nat, now: int) returns (ok: bool)
      modifies this, backend
      ensures lastSync == old(lastSync)
      ensures old(syncedTasks) <= syncedTasks
      ensures ok ==> |syncedTasks| >= |old(syncedTasks)| + |listed|
      ensures ok ==> forall k :: 0 <= k < |listed| ==> listed[k].googleId in SyncedIds(syncedTasks)
      ensures ok ==> forall k :: 0 <= k < |listed| ==> FindGoogle(backend.stores.googleRepo, listed[k].googleId).Some?
      ensures StoresGrow(old(backend.stores), backend.stores)
    {
      for k := 0 to |listed|
        invariant lastSync == old(lastSync)
        invariant old(syncedTasks) <= syncedTasks
        invariant |syncedTasks| >= |old(syncedTasks)| + k
        invariant forall j :: 0 <= j < k ==> listed[j].googleId in SyncedIds(syncedTasks)
        invariant forall j :: 0 <= j < k ==> FindGoogle(backend.stores.googleRepo, listed[j].googleId).Some?
        invariant StoresGrow(old(backend.stores), backend.stores)
      {
        var before := syncedTasks;
        ghost var start := backend.stores;
        var r := SyncListedTask(backend, env, listed[k], fuel, now);
        StoresGrowTrans(old(backend.stores), start, backend.stores);
        if !r.Synced? {
          return false;
        }
        syncedTasks := syncedTasks + [r.task];
        SyncedIdsGrow(before, syncedTasks);
        assert SyncedIds(syncedTasks)[|syncedTasks| - 1] == listed[k].googleId;
        forall j | 0 <= j < k + 1
          ensures listed[j].googleId in SyncedIds(syncedTasks)
          ensures FindGoogle(backend.stores.googleRepo, listed[j].googleId).Some?
        {
          if j < k {
            assert listed[j].googleId in SyncedIds(before);
            assert FindGoogle(start.googleRepo, listed[j].googleId).Some?;
          }
        }
      }
      ok := true;
    }

    /**
     * `sync`: every listed task is synced with parent fix-up and recorded,
     * then the internal copies of tasks that were not synced are swept, and
     * the time is recorded. An escaping error ends the pass without a new
     * sync time. `walked` is the state the sweep started from: it still
     * holds every internal copy the pass began with and one for each
     * listed task, and the sweep deletes in Notion the counterpart of every
     * copy in it that the pass did not sync.
     */
    method Sync(backend: Backend, env: Env, listed: seq<GoogleTask>, fuel: nat, now: int) returns (ok: bool, ghost walked: Stores)
      modifies this, backend
      ensures ok ==> lastSync == Some(now)
      ensures !ok ==> lastSync == old(lastSync)
      ensures ok ==> |syncedTasks| >= |listed|
      ensures ok ==> forall k :: 0 <= k < |listed| ==> listed[k].googleId in SyncedIds(syncedTasks)
      ensures ok ==> backend.stores == SweepGoogle(walked, walked.googleRepo, SyncedIds(syncedTasks))
      ensures ok ==> GoogleCopiesKept(old(backend.stores).googleRepo, walked.googleRepo)
      ensures ok ==> StoresGrow(old(backend.stores), walked)
      ensures !ok ==> StoresGrow(old(backend.stores), backend.stores)
      ensures ok ==> forall k :: 0 <= k < |listed| ==> FindGoogle(walked.googleRepo, listed[k].googleId).Some?
      ensures ok ==> forall t :: (t in walked.googleRepo && t.googleId !in SyncedIds(syncedTasks) && t.notionId.Some? &&
                                  TracksNotion(walked, t.notionId.value)) ==> t.notionId.value !in backend.stores.notionRemote
    {
      syncedTasks := [];
      ok := WalkListed(backend, env, listed, fuel, now);
      if !ok {
        return false, backend.stores;
      }
      walked := backend.stores;
      SweepRepository(backend, SyncedIds(syncedTasks));
      lastSync := Some(now);
    }
  }
}
