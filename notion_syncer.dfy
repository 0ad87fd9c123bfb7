/**
 * `NotionSyncer` of app/syncers/notion.py, the mirror of the Google syncer:
 * one pass over the tasks listed from Notion. Each listed task is refreshed
 * through its internal copy, or created in Google Tasks when it has none,
 * fixing up an unlinked parent first; afterwards every internal copy the
 * pass did not see is removed together with its Google counterpart, which
 * is deleted in Google as well.
 */
module NotionSyncing {
  import opened Basics
  import opened Tasks
  import opened Converters

  // ---------------------------------------------------------------------
  // The branches of `sync_task`

  /**
   * The Notion task is newer than its internal copy: the copy is fetched
   * from Notion and stamped, the linked Google copy takes over its content
   * and is saved to Google, and both copies are stored.
   * None when any of these raises.
   */
  function PullFromNotion(env: Env, st: Stores, i: NotionTask, now: int): (r: Option<(Stores, NotionTask)>)
    ensures r.Some? ==> i.notionId.Some? && i.notionId.value in st.notionRemote
    ensures r.Some? ==> r.value.1.notionId == i.notionId && r.value.1.googleId == i.googleId && r.value.1.synced == Some(now)
    ensures r.Some? ==> r.value.1.title == st.notionRemote[i.notionId.value].title
                        && r.value.1.updated == st.notionRemote[i.notionId.value].updated
    ensures r.Some? ==> FindNotion(r.value.0.notionRepo, i.notionId) == Some(r.value.1)
    ensures r.Some? ==> r.value.0.notionRemote == st.notionRemote
    ensures r.Some? && i.googleId.Some? ==>
      && r.value.0.googleRemote.Keys == st.googleRemote.Keys
      && i.googleId.value in r.value.0.googleRemote
      && r.value.0.googleRemote[i.googleId.value].title == r.value.1.title
      && FindGoogle(r.value.0.googleRepo, i.googleId).Some?
      && FindGoogle(r.value.0.googleRepo, i.googleId).value.title == r.value.1.title
    ensures r.Some? ==> r.value.1 == NotionWithContent(i, st.notionRemote[i.notionId.value])
                                       .(updated := st.notionRemote[i.notionId.value].updated, synced := Some(now))
    ensures r.Some? && i.googleId.Some? ==>
      && FindGoogle(st.googleRepo, i.googleId).Some?
      && NotionToGoogleTask(env, st.googleRepo, st.notionRepo, r.value.1).Ok?
      && r.value.0.googleRemote[i.googleId.value]
         == GoogleWithContent(FindGoogle(st.googleRepo, i.googleId).value,
                              NotionToGoogleTask(env, st.googleRepo, st.notionRepo, r.value.1).value).(updated := Some(now))
    ensures r.Some? ==> NotionCopiesKept(st.notionRepo, r.value.0.notionRepo)
    ensures r.Some? ==> StoresGrow(st, r.value.0)
  {
    match NotionFetch(st, i)
    case Err(_) => None
    case Ok(f) =>
      var fetched := f.(synced := Some(now));
      match FindGoogle(st.googleRepo, fetched.googleId)
      case None => None
      case Some(linked) =>
        match NotionToGoogleTask(env, st.googleRepo, st.notionRepo, fetched)
        case Err(_) => None
        case Ok(converted) =>
          match GoogleSave(st, GoogleWithContent(linked, converted), now)
          case Err(_) => None
          case Ok(saved) =>
            var stored := saved.0.(notionRepo := SaveNotion(saved.0.notionRepo, fetched),
                                   googleRepo := SaveGoogle(saved.0.googleRepo, saved.1));
            assert StoresGrow(st, stored);
            Some((stored, fetched))
  }

  /**
   * The internal copy is newer than the Notion task: the copy is saved back
   * to Notion, and both internal copies are stamped with one sync time.
   */
  function PushToNotion(st: Stores, i: NotionTask, now: int): (r: Option<(Stores, NotionTask)>)
    ensures r.Some? ==> r.value.1 == i.(synced := Some(now))
    ensures r.Some? ==> FindNotion(r.value.0.notionRepo, i.notionId) == Some(r.value.1)
    ensures r.Some? ==>
      && FindGoogle(st.googleRepo, i.googleId).Some?
      && FindGoogle(r.value.0.googleRepo, i.googleId) == Some(FindGoogle(st.googleRepo, i.googleId).value.(synced := Some(now)))
    ensures r.Some? && i.notionId.Some? ==> r.value.0.notionRemote == st.notionRemote[i.notionId.value := i.(updated := Some(now))]
    ensures r.Some? ==> r.value.0.googleRemote == st.googleRemote
    ensures r.Some? ==> NotionCopiesKept(st.notionRepo, r.value.0.notionRepo)
    ensures r.Some? ==> StoresGrow(st, r.value.0)
  {
    match FindGoogle(st.googleRepo, i.googleId)
    case None => None
    case Some(linked) =>
      match NotionSave(st, i, now)
      case Err(_) => None
      case Ok(pushed) =>
        var copy := i.(synced := Some(now));
        var stored := pushed.0.(notionRepo := SaveNotion(pushed.0.notionRepo, copy),
                                googleRepo := SaveGoogle(pushed.0.googleRepo, linked.(synced := Some(now))));
        assert StoresGrow(st, stored);
        Some((stored, copy))
  }

  /**
   * The first `try` block of `sync_task`: the internal copy with the same
   * Notion id is compared with the listed task by modification time. None
   * when there is no copy or anything in the block raises; equal times
   * change nothing.
   */
  function SyncExisting(env: Env, st: Stores, n: NotionTask, now: int): (r: Option<(Stores, NotionTask)>)
    ensures FindNotion(st.notionRepo, n.notionId).None? ==> r.None?
    ensures r.Some? ==> r.value.1.notionId == n.notionId && FindNotion(r.value.0.notionRepo, n.notionId) == Some(r.value.1)
    ensures var i := FindNotion(st.notionRepo, n.notionId);
      i.Some? && (n.updated.None? || i.value.updated.None?) ==> r.None?
    ensures var i := FindNotion(st.notionRepo, n.notionId);
      i.Some? && n.updated.Some? && i.value.updated == n.updated ==> r == Some((st, i.value))
    ensures var i := FindNotion(st.notionRepo, n.notionId);
      i.Some? && n.updated.Some? && i.value.updated.Some? && n.updated.value > i.value.updated.value ==>
        r == PullFromNotion(env, st, i.value, now)
    ensures var i := FindNotion(st.notionRepo, n.notionId);
      i.Some? && n.updated.Some? && i.value.updated.Some? && n.updated.value < i.value.updated.value ==>
        r == PushToNotion(st, i.value, now)
    ensures r.Some? ==> NotionCopiesKept(st.notionRepo, r.value.0.notionRepo)
    ensures r.Some? ==> StoresGrow(st, r.value.0)
  {
    match FindNotion(st.notionRepo, n.notionId)
    case None => None
    case Some(i) =>
      if n.updated.None? || i.updated.None? then None
      else if n.updated.value > i.updated.value then PullFromNotion(env, st, i, now)
      else if n.updated.value < i.updated.value then PushToNotion(st, i, now)
      else Some((st, i))
  }

  /**
   * The new-task path: the task is stamped, converted and saved to Google,
   * takes the Google id it got, and both internal copies are stored.
   */
  function SyncNew(env: Env, st: Stores, n: NotionTask, now: int): (r: Result<(Stores, NotionTask), Failure>)
    ensures r == Err(ParentUnlinked) <==> NotionToGoogleTask(env, st.googleRepo, st.notionRepo, n.(synced := Some(now))) == Err(ParentUnlinked)
    ensures r == Err(ParentUnlinked) ==> n.parentTaskIds != []
    ensures r.Ok? ==> r.value.1.googleId.Some? && r.value.1 == n.(synced := Some(now), googleId := r.value.1.googleId)
    ensures r.Ok? ==> FindNotion(r.value.0.notionRepo, n.notionId) == Some(r.value.1)
    ensures r.Ok? ==>
      && FindGoogle(r.value.0.googleRepo, r.value.1.googleId).Some?
      && FindGoogle(r.value.0.googleRepo, r.value.1.googleId).value.notionId == n.notionId
      && FindGoogle(r.value.0.googleRepo, r.value.1.googleId).value.synced == Some(now)
    ensures r.Ok? ==> r.value.1.googleId.value in r.value.0.googleRemote && r.value.0.googleRemote[r.value.1.googleId.value].title == n.title
    ensures r.Ok? ==> r.value.0.notionRemote == st.notionRemote
    ensures r.Ok? ==> r.value.0.googleRemote.Keys == st.googleRemote.Keys + {r.value.1.googleId.value}
    ensures r.Ok? && n.googleId.None? ==> r.value.1.googleId == Some(MintedId(st.minted))
    ensures r.Ok? ==> NotionCopiesKept(st.notionRepo, r.value.0.notionRepo)
    ensures var c := NotionToGoogleTask(env, st.googleRepo, st.notionRepo, n.(synced := Some(now)));
      r.Ok? <==> c.Ok? && GoogleSave(st, c.value, now).Ok?
    ensures r.Ok? ==>
      && var c := NotionToGoogleTask(env, st.googleRepo, st.notionRepo, n.(synced := Some(now))).value;
      && r.value.0.googleRemote[r.value.1.googleId.value] == c.(googleId := r.value.1.googleId, updated := Some(now))
      && FindGoogle(r.value.0.googleRepo, r.value.1.googleId) == Some(r.value.0.googleRemote[r.value.1.googleId.value])
    ensures r.Ok? ==> StoresGrow(st, r.value.0)
  {
    var stamped := n.(synced := Some(now));
    match NotionToGoogleTask(env, st.googleRepo, st.notionRepo, stamped)
    case Err(e) => Err(e)
    case Ok(g) =>
      match GoogleSave(st, g, now)
      case Err(_) => Err(Fault)
      case Ok(saved) =>
        var linked := stamped.(googleId := saved.1.googleId);
        var stored := saved.0.(notionRepo := SaveNotion(saved.0.notionRepo, linked),
                               googleRepo := SaveGoogle(saved.0.googleRepo, saved.1));
        assert StoresGrow(st, stored);
        Ok((stored, linked))
  }

  // ---------------------------------------------------------------------
  // What the branches promise across passes

  /**
   * Once a newer Notion task has been pulled, listing the same task again
   * finds its internal copy up to date: the next pass writes nothing.
   */
  lemma PullSettles(env: Env, st: Stores, n: NotionTask, now: int, later: int)
    requires n.notionId.Some? && n.notionId.value in st.notionRemote
    requires n.updated.Some? && st.notionRemote[n.notionId.value].updated == n.updated
    requires FindNotion(st.notionRepo, n.notionId).Some? && FindNotion(st.notionRepo, n.notionId).value.updated.Some?
    requires n.updated.value > FindNotion(st.notionRepo, n.notionId).value.updated.value
    requires SyncExisting(env, st, n, now).Some?
    ensures var r := SyncExisting(env, st, n, now).value;
      SyncExisting(env, r.0, n, later) == Some(r)
  {
    var i := FindNotion(st.notionRepo, n.notionId).value;
    assert SyncExisting(env, st, n, now) == PullFromNotion(env, st, i, now);
  }

  /**
   * A pull keeps the link: the edited task updates the Google task its
   * internal copy already points at, and no Google task is added.
   */
  lemma EditedTaskRefreshesLinkedGoogleTask(env: Env, st: Stores, n: NotionTask, now: int)
    requires FindNotion(st.notionRepo, n.notionId).Some?
    requires var i := FindNotion(st.notionRepo, n.notionId).value;
      n.updated.Some? && i.updated.Some? && n.updated.value > i.updated.value && i.googleId.Some?
    requires SyncExisting(env, st, n, now).Some?
    ensures var i := FindNotion(st.notionRepo, n.notionId).value;
      var r := SyncExisting(env, st, n, now).value;
      && r.0.googleRemote.Keys == st.googleRemote.Keys
      && FindNotion(r.0.notionRepo, n.notionId).value.googleId == i.googleId
      && r.0.googleRemote[i.googleId.value].title == st.notionRemote[n.notionId.value].title
  {
    var i := FindNotion(st.notionRepo, n.notionId).value;
    assert SyncExisting(env, st, n, now) == PullFromNotion(env, st, i, now);
  }

  // ---------------------------------------------------------------------
  // The sweep at the end of `sync`

  /** The Notion ids of the tasks a pass synced, in order. */
  function SyncedIds(tasks: seq<NotionTask>): (ids: seq<Option<Id>>)
    ensures |ids| == |tasks|
    ensures forall k :: 0 <= k < |tasks| ==> ids[k] == tasks[k].notionId
  {
    seq(|tasks|, k requires 0 <= k < |tasks| => tasks[k].notionId)
  }

  /** Synced ids are never lost when more tasks are appended. */
  lemma SyncedIdsGrow(a: seq<NotionTask>, b: seq<NotionTask>)
    requires a <= b
    ensures forall x :: x in SyncedIds(a) ==> x in SyncedIds(b)
  {
    forall x | x in SyncedIds(a)
      ensures x in SyncedIds(b)
    {
      var k :| 0 <= k < |a| && SyncedIds(a)[k] == x;
      assert SyncedIds(b)[k] == x;
    }
  }

  /**
   * The Google task `gid` is accounted for: the internal Google repository
   * holds a copy of it, so the sweep can find it, or Google no longer has it.
   */
  ghost predicate TracksGoogle(st: Stores, gid: Id)
  {
    FindGoogle(st.googleRepo, Some(gid)).Some? || gid !in st.googleRemote
  }

  /** Deleting one Google task in Google and its internal copy keeps every other task accounted for. */
  lemma TracksGoogleAfterDelete(st: Stores, r: Stores, x: Id)
    requires r.googleRemote == st.googleRemote - {x}
    requires r.googleRepo == DeleteOneGoogle(st.googleRepo, Some(x))
    ensures forall gid :: TracksGoogle(st, gid) ==> TracksGoogle(r, gid)
  {
  }

  /**
   * One internal copy visited by the sweep: a copy the pass did not sync
   * has its Google counterpart deleted in Google, then both internal
   * copies are dropped. A missing counterpart or a failed delete is only
   * logged, so nothing changes.
   */
  function SweepOneNotion(st: Stores, i: NotionTask, ids: seq<Option<Id>>): (r: Stores)
    ensures Where(r.notionRepo, NotionKey, ids) == Where(st.notionRepo, NotionKey, ids)
    ensures forall t :: t in r.googleRepo ==> t in st.googleRepo
    ensures forall t :: t in r.notionRepo ==> t in st.notionRepo
    ensures r.notionRemote == st.notionRemote && r.minted == st.minted
    ensures r.googleRemote.Keys <= st.googleRemote.Keys
    ensures i.notionId in ids ==> r == st
    ensures var g := FindGoogle(st.googleRepo, i.googleId);
      i.notionId !in ids && g.Some? && g.value.googleId.Some? && g.value.googleId.value in st.googleRemote ==>
        && r.googleRemote == st.googleRemote - {g.value.googleId.value}
        && r.googleRepo == DeleteOneGoogle(st.googleRepo, i.googleId)
        && r.notionRepo == DeleteOneNotion(st.notionRepo, i.notionId)
    ensures var g := FindGoogle(st.googleRepo, i.googleId);
      !(g.Some? && g.value.googleId.Some? && g.value.googleId.value in st.googleRemote) ==> r == st
    ensures forall gid :: TracksGoogle(st, gid) ==> TracksGoogle(r, gid)
    ensures i.notionId !in ids && i.googleId.Some? && TracksGoogle(st, i.googleId.value) ==> i.googleId.value !in r.googleRemote
  {
    if i.notionId in ids then st
    else
      match FindGoogle(st.googleRepo, i.googleId)
      case None => st
      case Some(g) =>
        match GoogleDelete(st, g)
        case Err(_) => st
        case Ok(deleted) =>
          RemoveFirstKeeps(deleted.notionRepo, NotionKey, i.notionId, ids);
          var swept := deleted.(googleRepo := DeleteOneGoogle(deleted.googleRepo, g.googleId),
                                notionRepo := DeleteOneNotion(deleted.notionRepo, i.notionId));
          TracksGoogleAfterDelete(st, swept, g.googleId.value);
          swept
  }

  /**
   * The sweep over the copies `pending`, in order: the copies of synced
   * tasks stay exactly as they were, nothing is added, Notion is not
   * touched, and with every copy synced nothing changes at all.
   */
  function SweepNotion(st: Stores, pending: seq<NotionTask>, ids: seq<Option<Id>>): (r: Stores)
    decreases |pending|
    ensures Where(r.notionRepo, NotionKey, ids) == Where(st.notionRepo, NotionKey, ids)
    ensures forall t :: t in r.googleRepo ==> t in st.googleRepo
    ensures forall t :: t in r.notionRepo ==> t in st.notionRepo
    ensures r.notionRemote == st.notionRemote && r.minted == st.minted
    ensures r.googleRemote.Keys <= st.googleRemote.Keys
    ensures (forall k :: 0 <= k < |pending| ==> pending[k].notionId in ids) ==> r == st
  {
    if pending == [] then st
    else SweepOneNotion(SweepNotion(st, pending[..|pending| - 1], ids), pending[|pending| - 1], ids)
  }

  /**
   * What the sweep removes: every pending copy that was not synced and
   * points at an accounted-for Google task leaves that task deleted in
   * Google, and no other task stops being accounted for.
   */
  lemma {:induction false} SweepDeletesUnsynced(st: Stores, pending: seq<NotionTask>, ids: seq<Option<Id>>)
    ensures forall gid :: TracksGoogle(st, gid) ==> TracksGoogle(SweepNotion(st, pending, ids), gid)
    ensures forall k :: 0 <= k < |pending| && pending[k].notionId !in ids && pending[k].googleId.Some? &&
                        TracksGoogle(st, pending[k].googleId.value) ==>
                          pending[k].googleId.value !in SweepNotion(st, pending, ids).googleRemote
    decreases |pending|
  {
    if pending != [] {
      var front := pending[..|pending| - 1];
      SweepDeletesUnsynced(st, front, ids);
      var r := SweepNotion(st, pending, ids);
      forall k | 0 <= k < |pending| && pending[k].notionId !in ids && pending[k].googleId.Some? && TracksGoogle(st, pending[k].googleId.value)
        ensures pending[k].googleId.value !in r.googleRemote
      {
        if k < |front| {
          assert front[k] == pending[k];
        }
      }
    }
  }

  // ---------------------------------------------------------------------
  // The syncer

  class NotionSyncer {
    var lastSync: Option<int>
    var syncedTasks: seq<NotionTask>

    constructor ()
      ensures lastSync.None? && syncedTasks == []
    {
      lastSync := None;
      syncedTasks := [];
    }

    /**
     * `sync_task`: the existing-task branches, else the new-task path; when
     * the first parent is not linked yet and `fixParent` holds, that parent
     * is fetched from Notion and synced first (and recorded as synced),
     * then the task is tried again. `fuel` stands for the interpreter's
     * recursion limit, whose error escapes.
     */
    method SyncTask(backend: Backend, env: Env, n: NotionTask, fixParent: bool, fuel: nat, now: int) returns (r: SyncResult<NotionTask>)
      modifies this, backend
      decreases fuel, 1
      ensures lastSync == old(lastSync)
      ensures old(syncedTasks) <= syncedTasks
      ensures r.Synced? ==> r.task.notionId == n.notionId && FindNotion(backend.stores.notionRepo, n.notionId) == Some(r.task)
      ensures r.Skipped? <==>
        !fixParent && SyncExisting(env, old(backend.stores), n, now).None? && SyncNew(env, old(backend.stores), n, now) == Err(ParentUnlinked)
      ensures r.Skipped? ==> backend.stores == old(backend.stores) && syncedTasks == old(syncedTasks)
      ensures var e := SyncExisting(env, old(backend.stores), n, now);
        e.Some? ==> r == Synced(e.value.1) && backend.stores == e.value.0 && syncedTasks == old(syncedTasks)
      ensures var c := SyncNew(env, old(backend.stores), n, now);
        SyncExisting(env, old(backend.stores), n, now).None? && c.Ok? ==>
          r == Synced(c.value.1) && backend.stores == c.value.0 && syncedTasks == old(syncedTasks)
      ensures SyncExisting(env, old(backend.stores), n, now).None? && SyncNew(env, old(backend.stores), n, now) == Err(ParentUnlinked) && r.Synced? ==>
        Some(n.parentTaskIds[0]) in SyncedIds(syncedTasks)
      ensures SyncExisting(env, old(backend.stores), n, now).None? && SyncNew(env, old(backend.stores), n, now) == Err(Fault) ==>
        r == Aborted && backend.stores == old(backend.stores)
      ensures NotionCopiesKept(old(backend.stores).notionRepo, backend.stores.notionRepo)
      ensures StoresGrow(old(backend.stores), backend.stores)
    {
      var existing := SyncExisting(env, backend.stores, n, now);
      if existing.Some? {
        backend.stores := existing.value.0;
        return Synced(existing.value.1);
      }
      var created := SyncNew(env, backend.stores, n, now);
      if created.Ok? {
        backend.stores := created.value.0;
        return Synced(created.value.1);
      }
      if created.error == Fault {
        return Aborted;
      }
      if !fixParent {
        return Skipped;
      }
      r := FixParentAndRetry(backend, env, n, fuel, now);
    }

    /**
     * The `RuntimeError` handler of `sync_task` with `fix_parent` set: the
     * parent is fetched and synced, recorded, and the task tried again.
     */
    method FixParentAndRetry(backend: Backend, env: Env, n: NotionTask, fuel: nat, now: int) returns (r: SyncResult<NotionTask>)
      requires SyncNew(env, backend.stores, n, now) == Err(ParentUnlinked)
      modifies this, backend
      decreases fuel, 0
      ensures lastSync == old(lastSync)
      ensures old(syncedTasks) <= syncedTasks
      ensures !r.Skipped?
      ensures r.Synced? ==> r.task.notionId == n.notionId && FindNotion(backend.stores.notionRepo, n.notionId) == Some(r.task)
      ensures r.Synced? ==> Some(n.parentTaskIds[0]) in SyncedIds(syncedTasks)
      ensures NotionCopiesKept(old(backend.stores).notionRepo, backend.stores.notionRepo)
      ensures StoresGrow(old(backend.stores), backend.stores)
    {
      if fuel == 0 {
        return Aborted;
      }
      var parent := NotionGet(backend.stores, n.parentTaskIds[0]);
      if parent.Err? {
        return Aborted;
      }
      var syncedParent := SyncListedTask(backend, env, parent.value, fuel - 1, now);
      if !syncedParent.Synced? {
        return Aborted;
      }
      syncedTasks := syncedTasks + [syncedParent.task];
      ghost var recorded := syncedTasks;
      assert SyncedIds(recorded)[|recorded| - 1] == Some(n.parentTaskIds[0]);
      r := SyncListedTask(backend, env, n.(synced := Some(now)), fuel - 1, now);
      SyncedIdsGrow(recorded, syncedTasks);
    }

    /**
     * The call `sync` makes for each listed task, with parent fix-up on:
     * a synced task keeps its id, and earlier records are kept.
     */
    method SyncListedTask(backend: Backend, env: Env, n: NotionTask, fuel: nat, now: int) returns (r: SyncResult<NotionTask>)
      modifies this, backend
      decreases fuel, 2
      ensures lastSync == old(lastSync)
      ensures old(syncedTasks) <= syncedTasks
      ensures !r.Skipped?
      ensures r.Synced? ==> r.task.notionId == n.notionId && FindNotion(backend.stores.notionRepo, n.notionId) == Some(r.task)
      ensures NotionCopiesKept(old(backend.stores).notionRepo, backend.stores.notionRepo)
      ensures StoresGrow(old(backend.stores), backend.stores)
    {
      r := SyncTask(backend, env, n, true, fuel, now);
    }

    /**
     * The sweep loop of `sync`, over the internal Notion copies as they
     * stood when it began.
     */
    method SweepRepository(backend: Backend, ids: seq<Option<Id>>)
      modifies backend
      ensures backend.stores == SweepNotion(old(backend.stores), old(backend.stores).notionRepo, ids)
      ensures forall t :: (t in old(backend.stores).notionRepo && t.notionId !in ids && t.googleId.Some? &&
                           TracksGoogle(old(backend.stores), t.googleId.value)) ==> t.googleId.value !in backend.stores.googleRemote
    {
      var snapshot := backend.stores.notionRepo;
      ghost var start := backend.stores;
      for k := 0 to |snapshot|
        invariant backend.stores == SweepNotion(start, snapshot[..k], ids)
      {
        assert snapshot[..k + 1][..k] == snapshot[..k];
        backend.stores := SweepOneNotion(backend.stores, snapshot[k], ids);
      }
      assert snapshot[..|snapshot|] == snapshot;
      SweepDeletesUnsynced(start, snapshot, ids);
      forall t | t in snapshot && t.notionId !in ids && t.googleId.Some? && TracksGoogle(start, t.googleId.value)
        ensures t.googleId.value !in backend.stores.googleRemote
      {
        var k :| 0 <= k < |snapshot| && snapshot[k] == t;
      }
    }

    /**
     * The loop of `sync` over the listed tasks: each is synced with parent
     * fix-up and recorded. An escaping error stops it. Nothing is deleted
     * on the way, and on success every listed task is recorded and has an
     * internal copy.
     */
    method WalkListed(backend: Backend, env: Env, listed: seq<NotionTask>, fuel: nat, now: int) returns (ok: bool)
      modifies this, backend
      ensures lastSync == old(lastSync)
      ensures old(syncedTasks) <= syncedTasks
      ensures ok ==> |syncedTasks| >= |old(syncedTasks)| + |listed|
      ensures ok ==> forall k :: 0 <= k < |listed| ==> listed[k].notionId in SyncedIds(syncedTasks)
      ensures ok ==> forall k :: 0 <= k < |listed| ==> FindNotion(backend.stores.notionRepo, listed[k].notionId).Some?
      ensures StoresGrow(old(backend.stores), backend.stores)
    {
      for k := 0 to |listed|
        invariant lastSync == old(lastSync)
        invariant old(syncedTasks) <= syncedTasks
        invariant |syncedTasks| >= |old(syncedTasks)| + k
        invariant forall j :: 0 <= j < k ==> listed[j].notionId in SyncedIds(syncedTasks)
        invariant forall j :: 0 <= j < k ==> FindNotion(backend.stores.notionRepo, listed[j].notionId).Some?
        invariant StoresGrow(old(backend.stores), backend.stores)
      {
        var before := syncedTasks;
        ghost var start := backend.stores;
        var r := SyncListedTask(backend, env, listed[k], fuel, now);
        StoresGrowTrans(old(backend.stores), start, backend.stores);
        if !r.Synced? {
          return false;
        }
        syncedTasks := syncedTasks + [r.task];
        SyncedIdsGrow(before, syncedTasks);
        assert SyncedIds(syncedTasks)[|syncedTasks| - 1] == listed[k].notionId;
        forall j | 0 <= j < k + 1
          ensures listed[j].notionId in SyncedIds(syncedTasks)
          ensures FindNotion(backend.stores.notionRepo, listed[j].notionId).Some?
        {
          if j < k {
            assert listed[j].notionId in SyncedIds(before);
            assert FindNotion(start.notionRepo, listed[j].notionId).Some?;
          }
        }
      }
      ok := true;
    }

    /**
     * `sync`: every listed task is synced with parent fix-up and recorded,
     * then the internal copies of tasks that were not synced are swept, and
     * the time is recorded. An escaping error ends the pass without a new
     * sync time. `walked` is the state the sweep started from: it still
     * holds every internal copy the pass began with and one for each
     * listed task, and the sweep deletes in Google the counterpart of every
     * copy in it that the pass did not sync.
     */
    method Sync(backend: Backend, env: Env, listed: seq<NotionTask>, fuel: nat, now: int) returns (ok: bool, ghost walked: Stores)
      modifies this, backend
      ensures ok ==> lastSync == Some(now)
      ensures !ok ==> lastSync == old(lastSync)
      ensures ok ==> |syncedTasks| >= |listed|
      ensures ok ==> forall k :: 0 <= k < |listed| ==> listed[k].notionId in SyncedIds(syncedTasks)
      ensures ok ==> backend.stores == SweepNotion(walked, walked.notionRepo, SyncedIds(syncedTasks))
      ensures ok ==> NotionCopiesKept(old(backend.stores).notionRepo, walked.notionRepo)
      ensures ok ==> StoresGrow(old(backend.stores), walked)
      ensures !ok ==> StoresGrow(old(backend.stores), backend.stores)
      ensures ok ==> forall k :: 0 <= k < |listed| ==> FindNotion(walked.notionRepo, listed[k].notionId).Some?
      ensures ok ==> forall t :: (t in walked.notionRepo && t.notionId !in SyncedIds(syncedTasks) && t.googleId.Some? &&
                                  TracksGoogle(walked, t.googleId.value)) ==> t.googleId.value !in backend.stores.googleRemote
    {
      syncedTasks := [];
      ok := WalkListed(backend, env, listed, fuel, now);
      if !ok {
        return false, backend.stores;
      }
      walked := backend.stores;
      SweepRepository(backend, SyncedIds(syncedTasks));
      lastSync := Some(now);
    }
  }
}
