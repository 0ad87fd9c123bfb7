/**
 * The passes of the mapping-table generation (app/sync.py:149-294): the two
 * purge sweeps and the two directional syncs. They read the providers'
 * listings, write to the providers and change the `TasksMapper` table in
 * place through `create`, `update` and `delete_many`.
 *
 * The two providers are maps from id to task; the listings a pass walks are
 * its parameters, and "now" is a parameter too. A pass that raises stops
 * where it is: what it already wrote stays written.
 */
module SyncPasses {
  import opened Basics
  import opened Mapper
  import opened FieldSync

  /** The two remote task stores, and the counter the providers draw new ids from. */
  datatype Remotes = Remotes(notion: map<Id, NotionTask>, google: map<Id, GoogleTask>, minted: nat)

  // ---------------------------------------------------------------------
  // Provider calls

  /** `NotionTask.get`: the stored task carrying its id, or a failure for an absent id. */
  function NotionGet(rm: Remotes, id: Id): (r: Result<NotionTask, Failure>)
    ensures r.Ok? <==> id in rm.notion
    ensures r.Ok? ==> r.value.id == Some(id) && r.value.parentTasks == rm.notion[id].parentTasks
  {
    if id in rm.notion then Ok(rm.notion[id].(id := Some(id))) else Err(MissingRecord)
  }

  /** `NotionTask.create`: stores the task under a new id and returns it with that id. */
  function NotionCreate(rm: Remotes, n: NotionTask, now: int): (r: (Remotes, NotionTask))
    ensures r.1 == n.(id := Some(MintedId(rm.minted)), updated := Some(now))
    ensures r.0 == rm.(notion := rm.notion[MintedId(rm.minted) := r.1], minted := rm.minted + 1)
  {
    var id := MintedId(rm.minted);
    var t := n.(id := Some(id), updated := Some(now));
    (rm.(notion := rm.notion[id := t], minted := rm.minted + 1), t)
  }

  /** `NotionTask.update` of a task the provider holds. */
  function NotionWrite(rm: Remotes, id: Id, n: NotionTask, now: int): (rm': Remotes)
    ensures rm'.notion == rm.notion[id := n.(updated := Some(now))]
    ensures rm'.google == rm.google && rm'.minted == rm.minted
  {
    rm.(notion := rm.notion[id := n.(updated := Some(now))])
  }

  /** `NotionTask.delete`: fails for an id the provider does not hold. */
  function NotionDelete(rm: Remotes, id: Id): (r: Result<Remotes, Failure>)
    ensures r.Ok? <==> id in rm.notion
    ensures r.Ok? ==> r.value == rm.(notion := rm.notion - {id})
  {
    if id in rm.notion then Ok(rm.(notion := rm.notion - {id})) else Err(RemoteRejected)
  }

  /** `GoogleTask.get`: the stored task carrying its id, or a failure for an absent id. */
  function GoogleGet(rm: Remotes, id: Id): (r: Result<GoogleTask, Failure>)
    ensures r.Ok? <==> id in rm.google
    ensures r.Ok? ==> r.value == rm.google[id].(id := Some(id))
  {
    if id in rm.google then Ok(rm.google[id].(id := Some(id))) else Err(MissingRecord)
  }

  /** `GoogleTask.create`: stores title, notes, status and due under a new id, at the root of the list. */
  function GoogleCreate(rm: Remotes, g: GoogleTask, now: int): (r: (Remotes, GoogleTask))
    ensures r.1 == g.(id := Some(MintedId(rm.minted)), parent := None, updated := Some(now))
    ensures r.0 == rm.(google := rm.google[MintedId(rm.minted) := r.1], minted := rm.minted + 1)
  {
    var id := MintedId(rm.minted);
    var t := g.(id := Some(id), parent := None, updated := Some(now));
    (rm.(google := rm.google[id := t], minted := rm.minted + 1), t)
  }

  /** `GoogleTask.move_parent`: fails unless both the task and the new parent exist. */
  function GoogleMove(rm: Remotes, id: Id, parent: Id): (r: Result<Remotes, Failure>)
    ensures r.Ok? <==> id in rm.google && parent in rm.google
    ensures r.Ok? ==> r.value == rm.(google := rm.google[id := rm.google[id].(parent := Some(parent))])
  {
    if id in rm.google && parent in rm.google then Ok(rm.(google := rm.google[id := rm.google[id].(parent := Some(parent))]))
    else Err(RemoteRejected)
  }

  /** `GoogleTask.update` of a task the provider holds. */
  function GoogleWrite(rm: Remotes, id: Id, g: GoogleTask, now: int): (rm': Remotes)
    ensures rm'.google == rm.google[id := g.(updated := Some(now))]
    ensures rm'.notion == rm.notion && rm'.minted == rm.minted
  {
    rm.(google := rm.google[id := g.(updated := Some(now))])
  }

  /** `GoogleTask.delete`: fails for an id the provider does not hold. */
  function GoogleDelete(rm: Remotes, id: Id): (r: Result<Remotes, Failure>)
    ensures r.Ok? <==> id in rm.google
    ensures r.Ok? ==> r.value == rm.(google := rm.google - {id})
  {
    if id in rm.google then Ok(rm.(google := rm.google - {id})) else Err(RemoteRejected)
  }

  // ---------------------------------------------------------------------
  // Listings

  /** The own id of a Google task. */
  function GoogleTaskId(t: GoogleTask): Option<Id> { t.id }

  /** The own id of a Notion task. */
  function NotionTaskId(t: NotionTask): Option<Id> { t.id }

  /** The ids of a listing, in order (`[task.id for task in ...]`); listed tasks carry ids. */
  function ListedIds<T>(tasks: seq<T>, id: T -> Option<Id>): (ids: seq<Id>)
    requires forall t :: t in tasks ==> id(t).Some?
    ensures |ids| == |tasks|
    ensures forall i :: 0 <= i < |tasks| ==> ids[i] == id(tasks[i]).value
  {
    if tasks == [] then [] else [id(tasks[0]).value] + ListedIds(tasks[1..], id)
  }

  /** The Google side of a mapping document. */
  function MappedGoogle(m: TaskMapping): Id { m.googleId }

  /** The Notion side of a mapping document. */
  function MappedNotion(m: TaskMapping): Id { m.notionId }

  /** One side's ids of some mappings, in order. */
  function MappedIds(ms: seq<TaskMapping>, side: TaskMapping -> Id): (ids: seq<Id>)
    ensures |ids| == |ms|
    ensures forall i :: 0 <= i < |ms| ==> ids[i] == side(ms[i])
  {
    if ms == [] then [] else [side(ms[0])] + MappedIds(ms[1..], side)
  }

  /** Two filters that agree on every stored mapping leave the same store behind. */
  lemma {:induction false} RejectAgrees(records: seq<TaskMapping>, f1: Filter, f2: Filter)
    requires forall m :: m in records ==> (Matches(f1, m) <==> Matches(f2, m))
    ensures Reject(records, f1) == Reject(records, f2)
  {
    if records != [] {
      assert forall m :: m in records[1..] ==> m in records;
      RejectAgrees(records[1..], f1, f2);
    }
  }

  // ---------------------------------------------------------------------
  // Purge sweeps

  /**
   * Deleting the mappings whose Google id is among those of the found stale
   * mappings removes exactly the mappings whose Google id is not listed.
   */
  lemma PurgeNotionFilter(records: seq<TaskMapping>, ids: seq<Id>)
    ensures
      var removed := Find(records, Filter(Any, NotIn(ids)));
      Reject(records, Filter(Any, In(MappedIds(removed, MappedGoogle)))) == Reject(records, Filter(Any, NotIn(ids)))
  {
    var gone := Filter(Any, NotIn(ids));
    var removed := Find(records, gone);
    var removedIds := MappedIds(removed, MappedGoogle);
    forall m | m in records
      ensures Matches(gone, m) <==> Matches(Filter(Any, In(removedIds)), m)
    {
      if m.googleId !in ids {
        assert m in removed;
        var k :| 0 <= k < |removed| && removed[k] == m;
        assert removedIds[k] == m.googleId;
      } else if m.googleId in removedIds {
        var k :| 0 <= k < |removedIds| && removedIds[k] == m.googleId;
        assert removed[k] in removed;
      }
    }
    RejectAgrees(records, gone, Filter(Any, In(removedIds)));
  }

  /** The same for the Notion side of the table. */
  lemma PurgeGoogleFilter(records: seq<TaskMapping>, ids: seq<Id>)
    ensures
      var removed := Find(records, Filter(NotIn(ids), Any));
      Reject(records, Filter(In(MappedIds(removed, MappedNotion)), Any)) == Reject(records, Filter(NotIn(ids), Any))
  {
    var gone := Filter(NotIn(ids), Any);
    var removed := Find(records, gone);
    var removedIds := MappedIds(removed, MappedNotion);
    forall m | m in records
      ensures Matches(gone, m) <==> Matches(Filter(In(removedIds), Any), m)
    {
      if m.notionId !in ids {
        assert m in removed;
        var k :| 0 <= k < |removed| && removed[k] == m;
        assert removedIds[k] == m.notionId;
      } else if m.notionId in removedIds {
        var k :| 0 <= k < |removedIds| && removedIds[k] == m.notionId;
        assert removed[k] in removed;
      }
    }
    RejectAgrees(records, gone, Filter(In(removedIds), Any));
  }

  /** The Notion ids of some mappings. */
  function NotionIdsOf(ms: seq<TaskMapping>): (ids: set<Id>)
    ensures forall m :: m in ms ==> m.notionId in ids
    ensures forall id :: id in ids ==> exists m :: m in ms && m.notionId == id
  {
    if ms == [] then {} else NotionIdsOf(ms[..|ms| - 1]) + {ms[|ms| - 1].notionId}
  }

  /** One more mapping adds its Notion id, and a prefix's ids are among the whole sequence's. */
  lemma NotionIdsOfPrefix(ms: seq<TaskMapping>, i: nat)
    requires i < |ms|
    ensures NotionIdsOf(ms[..i + 1]) == NotionIdsOf(ms[..i]) + {ms[i].notionId}
    ensures NotionIdsOf(ms[..i + 1]) <= NotionIdsOf(ms)
  {
    assert ms[..i + 1][..i] == ms[..i];
    forall id | id in NotionIdsOf(ms[..i + 1])
      ensures id in NotionIdsOf(ms)
    {
      var m :| m in ms[..i + 1] && m.notionId == id;
    }
  }

  /** Removing a set of Notion ids and then one more removes their union. */
  lemma NotionMinusStep(notion: map<Id, NotionTask>, gone: set<Id>, id: Id)
    ensures (notion - gone) - {id} == notion - (gone + {id})
  {
  }

  /**
   * The Notion deletions of `purge_tasks_notion`: the Notion task of each
   * removed mapping in turn; the first failure stops the pass, keeping the
   * deletions already made.
   */
  method DeleteNotionTasks(rm: Remotes, removed: seq<TaskMapping>) returns (rm': Remotes, ok: bool)
    ensures rm'.google == rm.google && rm'.notion.Keys <= rm.notion.Keys && rm'.minted == rm.minted
    ensures ok ==> forall m :: m in removed ==> m.notionId !in rm'.notion
    ensures ok ==> rm'.notion == rm.notion - NotionIdsOf(removed)
    ensures forall k :: k in rm'.notion ==> rm'.notion[k] == rm.notion[k]
    ensures forall k :: k in rm.notion && k !in NotionIdsOf(removed) ==> k in rm'.notion
  {
    rm', ok := rm, false;
    assert removed[..0] == [];
    for i := 0 to |removed|
      invariant rm'.google == rm.google && rm'.minted == rm.minted
      invariant NotionIdsOf(removed[..i]) <= NotionIdsOf(removed)
      invariant rm'.notion == rm.notion - NotionIdsOf(removed[..i])
    {
      NotionIdsOfPrefix(removed, i);
      match NotionDelete(rm', removed[i].notionId)
      case Err(_) =>
        return;
      case Ok(next) =>
        NotionMinusStep(rm.notion, NotionIdsOf(removed[..i]), removed[i].notionId);
        rm' := next;
    }
    assert removed[..|removed|] == removed;
    ok := true;
  }

  /** The Notion ids of the mappings whose Google id is not listed. */
  lemma StaleNotionIds(records: seq<TaskMapping>, ids: seq<Id>)
    ensures NotionIdsOf(Find(records, Filter(Any, NotIn(ids)))) == (set m | m in records && m.googleId !in ids :: m.notionId)
  {
    var removed := Find(records, Filter(Any, NotIn(ids)));
    forall id | id in NotionIdsOf(removed)
      ensures id in (set m | m in records && m.googleId !in ids :: m.notionId)
    {
      var m :| m in removed && m.notionId == id;
    }
    forall m | m in records && m.googleId !in ids
      ensures m.notionId in NotionIdsOf(removed)
    {
      assert m in removed;
    }
  }

  /**
   * `purge_tasks_notion`: deletes the Notion counterpart of every mapping
   * whose Google id is no longer listed, then deletes those mappings.
   */
  method PurgeTasksNotion(table: TaskMapperTable, rm: Remotes, listed: seq<GoogleTask>) returns (rm': Remotes, ok: bool, count: nat)
    requires forall t :: t in listed ==> t.id.Some?
    modifies table
    ensures ok ==> table.records == Reject(old(table.records), Filter(Any, NotIn(ListedIds(listed, GoogleTaskId))))
    ensures ok ==> forall m :: m in table.records <==> m in old(table.records) && m.googleId in ListedIds(listed, GoogleTaskId)
    ensures ok ==> count == |old(table.records)| - |table.records|
    ensures !ok ==> table.records == old(table.records)
    ensures ok ==> forall m :: m in old(table.records) && m.googleId !in ListedIds(listed, GoogleTaskId) ==> m.notionId !in rm'.notion
    ensures ok ==> rm'.notion == rm.notion - (set m | m in old(table.records) && m.googleId !in ListedIds(listed, GoogleTaskId) :: m.notionId)
    ensures rm'.google == rm.google && rm'.notion.Keys <= rm.notion.Keys && rm'.minted == rm.minted
    ensures forall k :: k in rm'.notion ==> rm'.notion[k] == rm.notion[k]
    ensures forall k :: k in rm.notion && k !in (set m | m in old(table.records) && m.googleId !in ListedIds(listed, GoogleTaskId) :: m.notionId)
                        ==> k in rm'.notion
  {
    var ids := ListedIds(listed, GoogleTaskId);
    var removed := Find(table.records, Filter(Any, NotIn(ids)));
    count := 0;
    StaleNotionIds(table.records, ids);
    rm', ok := DeleteNotionTasks(rm, removed);
    if !ok {
      return;
    }
    forall m | m in table.records && m.googleId !in ids
      ensures m.notionId !in rm'.notion
    {
      assert m in removed;
    }
    PurgeNotionFilter(table.records, ids);
    count := table.DeleteMany(Filter(Any, In(MappedIds(removed, MappedGoogle))));
    forall m
      ensures m in table.records <==> m in old(table.records) && m.googleId in ids
    {
      assert Matches(Filter(Any, NotIn(ids)), m) <==> m.googleId !in ids;
    }
  }


  /** The Google id of the first removed mapping of a Notion id (`next(filter(...))` at app/sync.py:182). */
  function PurgeTarget(removed: seq<TaskMapping>, notionId: Id): (r: Option<Id>)
    ensures r.None? <==> forall k :: 0 <= k < |removed| ==> removed[k].notionId != notionId
    ensures r.Some? ==> exists k :: 0 <= k < |removed| && removed[k].notionId == notionId && removed[k].googleId == r.value
  {
    match First(removed, (m: TaskMapping) => m.notionId == notionId)
    case None => None
    case Some(m) => Some(m.googleId)
  }

  /** The Google id `purge_tasks_google` deletes for the `j`-th removed mapping. */
  function TargetOf(removed: seq<TaskMapping>, j: nat): Id
    requires j < |removed|
  {
    var r := PurgeTarget(removed, removed[j].notionId);
    assert r.Some? by { assert removed[j].notionId == removed[j].notionId; }
    r.value
  }

  /** The Google ids the first `i` removed mappings send `purge_tasks_google` to delete. */
  function PurgeTargets(removed: seq<TaskMapping>, i: nat): set<Id>
    requires i <= |removed|
  {
    set j | 0 <= j < i :: TargetOf(removed, j)
  }

  /** One more removed mapping adds its target. */
  lemma PurgeTargetsStep(removed: seq<TaskMapping>, i: nat)
    requires i < |removed|
    ensures PurgeTargets(removed, i + 1) == PurgeTargets(removed, i) + {TargetOf(removed, i)}
  {
  }

  /**
   * One step of the Google deletions of `purge_tasks_google`: fetch the
   * Notion task of the `k`-th removed mapping and its bucket's link, then
   * delete the Google task of the first removed mapping with that Notion id.
   */
  method DeleteGoogleCounterpart(rm: Remotes, buckets: seq<ListBucket>, removed: seq<TaskMapping>, k: nat) returns (rm': Remotes, ok: bool)
    requires k < |removed|
    ensures rm'.notion == rm.notion && rm'.google.Keys <= rm.google.Keys
    ensures ok ==> PurgeTarget(removed, removed[k].notionId).Some? && PurgeTarget(removed, removed[k].notionId).value !in rm'.google
    ensures ok <==> var nid := removed[k].notionId;
                    && nid in rm.notion && rm.notion[nid].bucket.Some? && GetBucket(buckets, rm.notion[nid].bucket, None).Some?
                    && PurgeTarget(removed, nid).value in rm.google
    ensures !ok ==> rm' == rm
    ensures ok ==> rm' == rm.(google := rm.google - {PurgeTarget(removed, removed[k].notionId).value})
  {
    var nid := removed[k].notionId;
    rm', ok := rm, false;
    match NotionGet(rm, nid)
    case Err(_) =>
      return;
    case Ok(task) =>
      if task.bucket.None? || GetBucket(buckets, task.bucket, None).None? {
        return;
      }
      match GoogleDelete(rm, PurgeTarget(removed, nid).value)
      case Err(_) =>
        return;
      case Ok(next) =>
        rm', ok := next, true;
  }

  /**
   * The Google deletions of `purge_tasks_google`: for each removed Notion id
   * in turn, fetch the Notion task and its bucket's link, then delete the
   * Google task of the first removed mapping with that id. The first failure
   * stops the pass, keeping the deletions already made.
   */
  method DeleteGoogleCounterparts(rm: Remotes, buckets: seq<ListBucket>, removed: seq<TaskMapping>) returns (rm': Remotes, ok: bool)
    ensures rm'.notion == rm.notion && rm'.google.Keys <= rm.google.Keys && rm'.minted == rm.minted
    ensures ok ==> forall k :: 0 <= k < |removed| ==>
                     PurgeTarget(removed, removed[k].notionId).Some? && PurgeTarget(removed, removed[k].notionId).value !in rm'.google
    ensures ok ==> rm'.google == rm.google - PurgeTargets(removed, |removed|)
    ensures forall id :: id in rm'.google ==> rm'.google[id] == rm.google[id]
    ensures forall id :: id in rm.google && id !in PurgeTargets(removed, |removed|) ==> id in rm'.google
  {
    rm', ok := rm, false;
    for i := 0 to |removed|
      invariant rm'.notion == rm.notion && rm'.minted == rm.minted
      invariant rm'.google == rm.google - PurgeTargets(removed, i)
    {
      var next, stepOk := DeleteGoogleCounterpart(rm', buckets, removed, i);
      if !stepOk {
        return rm', false;
      }
      PurgeTargetsStep(removed, i);
      MinusStep(rm.google, PurgeTargets(removed, i), TargetOf(removed, i));
      rm' := next;
    }
    TargetsGone(rm.google, removed);
    ok := true;
  }

  /** Removing a set and then one more id removes their union. */
  lemma MinusStep(google: map<Id, GoogleTask>, gone: set<Id>, id: Id)
    ensures (google - gone) - {id} == google - (gone + {id})
  {
  }

  /** Removing every purge target from Google leaves none of them behind. */
  lemma TargetsGone(google: map<Id, GoogleTask>, removed: seq<TaskMapping>)
    ensures forall k :: 0 <= k < |removed| ==>
              PurgeTarget(removed, removed[k].notionId).Some? &&
              PurgeTarget(removed, removed[k].notionId).value !in google - PurgeTargets(removed, |removed|)
  {
    forall k | 0 <= k < |removed|
      ensures PurgeTarget(removed, removed[k].notionId).value !in google - PurgeTargets(removed, |removed|)
    {
      assert TargetOf(removed, k) in PurgeTargets(removed, |removed|);
    }
  }

  /**
   * `purge_tasks_google`: deletes the Google counterpart of every mapping
   * whose Notion id is no longer listed, then deletes those mappings. The
   * deleted Notion task is still fetched to find its bucket's task list.
   */
  method PurgeTasksGoogle(table: TaskMapperTable, rm: Remotes, buckets: seq<ListBucket>, listed: seq<NotionTask>)
    returns (rm': Remotes, ok: bool, count: nat)
    requires forall t :: t in listed ==> t.id.Some?
    modifies table
    ensures ok ==> table.records == Reject(old(table.records), Filter(NotIn(ListedIds(listed, NotionTaskId)), Any))
    ensures ok ==> forall m :: m in table.records <==> m in old(table.records) && m.notionId in ListedIds(listed, NotionTaskId)
    ensures ok ==> count == |old(table.records)| - |table.records|
    ensures !ok ==> table.records == old(table.records)
    ensures ok ==> var removed := Find(old(table.records), Filter(NotIn(ListedIds(listed, NotionTaskId)), Any));
                   forall k :: 0 <= k < |removed| ==>
                     PurgeTarget(removed, removed[k].notionId).Some? && PurgeTarget(removed, removed[k].notionId).value !in rm'.google
    ensures ok ==> var removed := Find(old(table.records), Filter(NotIn(ListedIds(listed, NotionTaskId)), Any));
                   rm'.google == rm.google - PurgeTargets(removed, |removed|)
    ensures rm'.notion == rm.notion && rm'.google.Keys <= rm.google.Keys && rm'.minted == rm.minted
    ensures forall id :: id in rm'.google ==> rm'.google[id] == rm.google[id]
    ensures var removed := Find(old(table.records), Filter(NotIn(ListedIds(listed, NotionTaskId)), Any));
            forall id :: id in rm.google && id !in PurgeTargets(removed, |removed|) ==> id in rm'.google
  {
    var ids := ListedIds(listed, NotionTaskId);
    var removed := Find(table.records, Filter(NotIn(ids), Any));
    count := 0;
    rm', ok := DeleteGoogleCounterparts(rm, buckets, removed);
    if !ok {
      return;
    }
    PurgeGoogleFilter(table.records, ids);
    count := table.DeleteMany(Filter(In(MappedIds(removed, MappedNotion)), Any));
    forall m
      ensures m in table.records <==> m in old(table.records) && m.notionId in ids
    {
      assert Matches(Filter(NotIn(ids), Any), m) <==> m.notionId !in ids;
    }
  }

  // ---------------------------------------------------------------------
  // One task of a directional pass

  /**
   * What one task of a pass leaves behind: the providers' state, the
   * mapping to create or update (if any), and whether the pass goes on.
   */
  datatype Outcome = Outcome(remotes: Remotes, link: Option<TaskMapping>, ok: bool)

  /** The Notion side of a step kept every task it held, with its parent list. */
  predicate ParentsKept(rm: Remotes, rm': Remotes)
  {
    forall k :: k in rm.notion ==> k in rm'.notion && rm'.notion[k].parentTasks == rm.notion[k].parentTasks
  }

  /**
   * `google_to_notion_sync` for a Google task with no mapping
   * (app/sync.py:207-229): build the Notion task, skip a subtask whose
   * parent is not mapped yet, otherwise create it and link the two ids.
   */
  function LinkNewGoogleTask(records: seq<TaskMapping>, rm: Remotes, buckets: seq<ListBucket>, g: GoogleTask, now: int): (out: Outcome)
    requires g.id.Some?
    ensures !out.ok <==> ConstructNotionFromGoogle(g, buckets, now).Err?
    ensures !out.ok ==> out.remotes == rm
    ensures out.ok && Truthy(g.parent) && Get(records, None, g.parent).None? ==> out == Outcome(rm, None, true)
    ensures out.ok && !Truthy(g.parent) ==> out.link.Some?
    ensures out.link.Some? ==>
      && var m := out.link.value;
      && m.googleId == g.id.value && m.notionSync == now && m.googleSync == now
      && m == TaskMapping(MintedId(rm.minted), g.id.value, now, now)
      && out.remotes.google == rm.google
      && m.notionId in out.remotes.notion
      && out.remotes.notion == rm.notion[m.notionId := out.remotes.notion[m.notionId]]
      && out.remotes.notion[m.notionId].title == g.title
      && (NotionDone(out.remotes.notion[m.notionId]) <==> g.status == Done)
      && (Truthy(g.parent) ==> Get(records, None, g.parent).Some? && out.remotes.notion[m.notionId].parentTasks == [Get(records, None, g.parent).value.notionId])
    ensures out.link.Some? ==>
      && out.remotes.minted == rm.minted + 1
      && out.remotes.notion[out.link.value.notionId] ==
           ConstructNotionFromGoogle(g, buckets, now).value.(
             id := Some(MintedId(rm.minted)), updated := Some(now),
             parentTasks := if Truthy(g.parent) then [Get(records, None, g.parent).value.notionId] else [])
    ensures out.link.None? ==> out.remotes == rm
  {
    match ConstructNotionFromGoogle(g, buckets, now)
    case Err(_) => Outcome(rm, None, false)
    case Ok(n) =>
      if Truthy(g.parent) && Get(records, None, g.parent).None? then
        // parent task does not exist yet: jump over it for now
        Outcome(rm, None, true)
      else
        var n1 := if Truthy(g.parent) then n.(parentTasks := [Get(records, None, g.parent).value.notionId]) else n;
        var (rm1, created) := NotionCreate(rm, n1, now);
        Outcome(rm1, Some(TaskMapping(created.id.value, g.id.value, created.synced.value, created.synced.value)), true)
  }

  /**
   * `google_to_notion_sync` for a mapped Google task (app/sync.py:231-242):
   * fetch the Notion task, and if the change check says so, refresh it
   * from Google and stamp both sync times with `now`.
   */
  function RefreshNotionTask(records: seq<TaskMapping>, rm: Remotes, g: GoogleTask, m: TaskMapping, now: int): (out: Outcome)
    ensures out.remotes.google == rm.google
    ensures !out.ok ==> out.remotes == rm
    ensures m.notionId !in rm.notion ==> !out.ok
    ensures out.link.Some? ==> out.ok && out.link.value == m.(notionSync := now, googleSync := now)
    ensures out.link.None? ==> out.remotes == rm
    ensures out.link.Some? ==> m.notionId in out.remotes.notion && out.remotes.notion == rm.notion[m.notionId := out.remotes.notion[m.notionId]]
    ensures out.link.Some? ==> out.remotes.notion[m.notionId].title == g.title && out.remotes.notion[m.notionId].synced == Some(now)
    ensures out.link.Some? ==>
      && NotionGet(rm, m.notionId).Ok?
      && UpdateNotionFromGoogle(g, NotionGet(rm, m.notionId).value.(synced := Some(now)), records).Ok?
      && out.remotes.notion[m.notionId] ==
           UpdateNotionFromGoogle(g, NotionGet(rm, m.notionId).value.(synced := Some(now)), records).value.(updated := Some(now))
    ensures out.ok && NotionGet(rm, m.notionId).Ok? && CheckChange(NotionGet(rm, m.notionId).value, g) == Ok(false) ==> out == Outcome(rm, None, true)
  {
    match NotionGet(rm, m.notionId)
    case Err(_) => Outcome(rm, None, false)
    case Ok(n) =>
      match CheckChange(n, g)
      case Err(_) => Outcome(rm, None, false)
      case Ok(false) => Outcome(rm, None, true)
      case Ok(true) =>
        match UpdateNotionFromGoogle(g, n.(synced := Some(now)), records)
        case Err(_) => Outcome(rm, None, false)
        case Ok(n2) => Outcome(NotionWrite(rm, m.notionId, n2, now), Some(m.(notionSync := now, googleSync := now)), true)
  }

  /**
   * Refreshing a Notion task from a top-level Google task settles it: the
   * next pass over the same Google task writes nothing, whatever the table
   * and the clock then say.
   */
  lemma RefreshSettles(records: seq<TaskMapping>, rm: Remotes, g: GoogleTask, m: TaskMapping, now: int, records': seq<TaskMapping>, later: int)
    requires !Truthy(g.parent)
    requires RefreshNotionTask(records, rm, g, m, now).link.Some?
    ensures
      var rm' := RefreshNotionTask(records, rm, g, m, now).remotes;
      RefreshNotionTask(records', rm', g, m, later) == Outcome(rm', None, true)
  {
    var n := NotionGet(rm, m.notionId).value;
    var n1 := n.(synced := Some(now));
    var n2 := UpdateNotionFromGoogle(g, n1, records).value;
    RefreshedNeedsNoChange(g, n1, records);
    var rm' := RefreshNotionTask(records, rm, g, m, now).remotes;
    var fetched := NotionGet(rm', m.notionId).value;
    assert fetched == n2.(updated := Some(now));
    assert CheckChange(fetched, g) == CheckChange(n2, g);
  }

  /**
   * `notion_to_google_sync` for a Notion task with no mapping, as written
   * (app/sync.py:255-277): the Google task is created BEFORE the parent's
   * mapping is looked up, so a subtask whose parent is not mapped yet
   * leaves a Google task behind with no mapping.
   */
  function LinkNewNotionTaskAsWritten(records: seq<TaskMapping>, rm: Remotes, tasklist: Id, n: NotionTask, now: int): (out: Outcome)
    requires n.id.Some? && n.id.value in rm.notion
    ensures out.ok ==> MintedId(rm.minted) in out.remotes.google
    ensures MintedId(rm.minted) in out.remotes.google && out.remotes.google[MintedId(rm.minted)].title == n.title
    ensures out.remotes.google == rm.google[MintedId(rm.minted) := out.remotes.google[MintedId(rm.minted)]]
    ensures out.link.None? ==> out.remotes.notion == rm.notion
    ensures !out.ok ==> n.parentTasks != [] && out.link.None?
    ensures n.parentTasks != [] && Get(records, Some(n.parentTasks[0]), None).None? ==> out.ok && out.link.None?
    ensures n.parentTasks == [] ==> out.link.Some?
    ensures out.remotes.minted == rm.minted + 1
    ensures out.link.None? ==>
      // created at the root before the parent was looked up, and left there
      out.remotes.google ==
        rm.google[MintedId(rm.minted) :=
          ConstructGoogleFromNotion(tasklist, n.(synced := Some(now))).(id := Some(MintedId(rm.minted)), updated := Some(now))]
    ensures out.link.Some? ==>
      && out.remotes.google[MintedId(rm.minted)] ==
           ConstructGoogleFromNotion(tasklist, n.(synced := Some(now))).(
             id := Some(MintedId(rm.minted)), updated := Some(now),
             parent := if n.parentTasks != [] then Some(Get(records, Some(n.parentTasks[0]), None).value.googleId) else None)
      && n.id.value in out.remotes.notion && out.remotes.notion[n.id.value] == n.(synced := Some(now), updated := Some(now))
    ensures out.link.Some? ==>
      && var m := out.link.value;
      && m == TaskMapping(n.id.value, MintedId(rm.minted), now, now)
      && (out.remotes.google[m.googleId].status == Done <==> NotionDone(n))
      && (n.parentTasks != [] ==> Get(records, Some(n.parentTasks[0]), None).Some? && out.remotes.google[m.googleId].parent == Some(Get(records, Some(n.parentTasks[0]), None).value.googleId))
      && n.id.value in out.remotes.notion
      && out.remotes.notion == rm.notion[n.id.value := out.remotes.notion[n.id.value]]
      && out.remotes.notion[n.id.value].synced == Some(now)
  {
    var n1 := n.(synced := Some(now));
    var (rm1, g) := GoogleCreate(rm, ConstructGoogleFromNotion(tasklist, n1), now);
    if n1.parentTasks != [] then
      match Get(records, Some(n1.parentTasks[0]), None)
      case None => Outcome(rm1, None, true)
      case Some(pm) =>
        match GoogleMove(rm1, g.id.value, pm.googleId)
        case Err(_) => Outcome(rm1, None, false)
        case Ok(rm2) => Outcome(NotionWrite(rm2, n.id.value, n1, now), Some(TaskMapping(n.id.value, g.id.value, now, now)), true)
    else
      Outcome(NotionWrite(rm1, n.id.value, n1, now), Some(TaskMapping(n.id.value, g.id.value, now, now)), true)
  }

  /** As written, an unmapped Notion subtask of an unmapped parent creates a Google task that nothing links to. */
  lemma AsWrittenLeavesUnlinkedGoogleTask(records: seq<TaskMapping>, rm: Remotes, tasklist: Id, n: NotionTask, now: int)
    requires n.id.Some? && n.id.value in rm.notion
    requires n.parentTasks != [] && Get(records, Some(n.parentTasks[0]), None).None?
    ensures
      var out := LinkNewNotionTaskAsWritten(records, rm, tasklist, n, now);
      && out.ok && out.link.None?
      && out.remotes.google == rm.google[MintedId(rm.minted) := out.remotes.google[MintedId(rm.minted)]]
      && out.remotes.google[MintedId(rm.minted)].title == n.title
      && out.remotes.minted == rm.minted + 1
  {
  }

  /**
   * As written, the orphans pile up: the skipped subtask is still unmapped on
   * the next pass, which creates yet another Google task for it.
   */
  lemma {:induction false} AsWrittenOrphansPileUp(records: seq<TaskMapping>, rm: Remotes, tasklist: Id, n: NotionTask, now: int, later: int)
    requires n.id.Some? && n.id.value in rm.notion
    requires n.parentTasks != [] && Get(records, Some(n.parentTasks[0]), None).None?
    ensures
      var first := LinkNewNotionTaskAsWritten(records, rm, tasklist, n, now);
      var second := LinkNewNotionTaskAsWritten(records, first.remotes, tasklist, n, later);
      && second.ok && second.link.None?
      && MintedId(rm.minted) != MintedId(rm.minted + 1)
      && MintedId(rm.minted) in second.remotes.google && MintedId(rm.minted + 1) in second.remotes.google
      && second.remotes.google[MintedId(rm.minted)].title == n.title
      && second.remotes.google[MintedId(rm.minted + 1)].title == n.title
  {
    var first := LinkNewNotionTaskAsWritten(records, rm, tasklist, n, now);
    AsWrittenLeavesUnlinkedGoogleTask(records, rm, tasklist, n, now);
    assert first.remotes.notion == rm.notion;
    AsWrittenLeavesUnlinkedGoogleTask(records, first.remotes, tasklist, n, later);
    assert |MintedId(rm.minted)| != |MintedId(rm.minted + 1)|;
  }

  /**
   * `notion_to_google_sync` for a Notion task with no mapping, with the
   * parent's mapping looked up before anything is written (as
   * `google_to_notion_sync` does): a subtask of an unmapped parent is
   * skipped, otherwise the Google task is created (under its parent), the
   * two ids are linked and the Notion task is saved with its sync time.
   */
  function LinkNewNotionTask(records: seq<TaskMapping>, rm: Remotes, tasklist: Id, n: NotionTask, now: int): (out: Outcome)
    requires n.id.Some? && NotionGet(rm, n.id.value) == Ok(n)
    ensures out.ok && out.link.None? ==> out.remotes == rm
    ensures !out.ok ==> n.parentTasks != [] && out.remotes.notion == rm.notion
    ensures n.parentTasks != [] && Get(records, Some(n.parentTasks[0]), None).None? ==> out == Outcome(rm, None, true)
    ensures n.parentTasks == [] ==> out.link.Some?
    ensures out.link.Some? ==>
      && var m := out.link.value;
      && m == TaskMapping(n.id.value, MintedId(rm.minted), now, now)
      && m.googleId in out.remotes.google && n.id.value in out.remotes.notion
      && out.remotes.google == rm.google[m.googleId := out.remotes.google[m.googleId]]
      && out.remotes.google[m.googleId].title == n.title
      && (out.remotes.google[m.googleId].status == Done <==> NotionDone(n))
      && (n.parentTasks != [] ==> Get(records, Some(n.parentTasks[0]), None).Some? && out.remotes.google[m.googleId].parent == Some(Get(records, Some(n.parentTasks[0]), None).value.googleId))
      && out.remotes.notion == rm.notion[n.id.value := out.remotes.notion[n.id.value]]
      && out.remotes.notion[n.id.value].synced == Some(now)
    ensures out.ok ==> forall k :: k in out.remotes.google && k !in rm.google ==> out.link.Some? && k == out.link.value.googleId
    ensures out.link.Some? ==>
      && out.remotes.minted == rm.minted + 1
      && out.remotes.google[out.link.value.googleId] ==
           ConstructGoogleFromNotion(tasklist, n.(synced := Some(now))).(
             id := Some(MintedId(rm.minted)), updated := Some(now),
             parent := if n.parentTasks != [] then Some(Get(records, Some(n.parentTasks[0]), None).value.googleId) else None)
      && out.remotes.notion[n.id.value] == n.(synced := Some(now), updated := Some(now))
    ensures !out.ok ==>
      // the Google task was created before `move_parent` raised, and stays
      && out.remotes.notion == rm.notion && out.remotes.minted == rm.minted + 1
      && out.remotes.google ==
           rm.google[MintedId(rm.minted) :=
             ConstructGoogleFromNotion(tasklist, n.(synced := Some(now))).(id := Some(MintedId(rm.minted)), updated := Some(now))]
    ensures ParentsKept(rm, out.remotes)
  {
    var n1 := n.(synced := Some(now));
    if n1.parentTasks != [] && Get(records, Some(n1.parentTasks[0]), None).None? then
      // parent task does not exist yet: jump over it for now, writing nothing
      Outcome(rm, None, true)
    else
      var (rm1, g) := GoogleCreate(rm, ConstructGoogleFromNotion(tasklist, n1), now);
      if n1.parentTasks != [] then
        var pm := Get(records, Some(n1.parentTasks[0]), None).value;
        match GoogleMove(rm1, g.id.value, pm.googleId)
        case Err(_) => Outcome(rm1, None, false)
        case Ok(rm2) => Outcome(NotionWrite(rm2, n.id.value, n1, now), Some(TaskMapping(n.id.value, g.id.value, now, now)), true)
      else
        Outcome(NotionWrite(rm1, n.id.value, n1, now), Some(TaskMapping(n.id.value, g.id.value, now, now)), true)
  }

  /**
   * `notion_to_google_sync` for a mapped Notion task (app/sync.py:279-294):
   * pushed to Google only when it was never synced or was edited after its
   * last sync; a failing Google update skips the task and leaves the
   * mapping and the Notion task as they were.
   */
  function RefreshGoogleTask(records: seq<TaskMapping>, rm: Remotes, n: NotionTask, m: TaskMapping, now: int): (out: Outcome)
    requires n.id.Some? && NotionGet(rm, n.id.value) == Ok(n)
    ensures out.link.None? && out.ok ==> out.remotes == rm
    ensures !out.ok ==> out.remotes == rm
    ensures n.synced.Some? && n.updated.Some? && n.synced.value >= n.updated.value ==> out == Outcome(rm, None, true)
    ensures out.link.Some? ==> out.ok && (n.synced.None? || (n.updated.Some? && n.synced.value < n.updated.value))
    ensures out.link.Some? ==> out.link.value == m.(notionSync := now, googleSync := now)
    ensures out.ok && (n.synced.None? || (n.updated.Some? && n.synced.value < n.updated.value)) && GoogleGet(rm, m.googleId).Ok?
            && UpdateGoogleFromNotion(n.(synced := Some(now)), GoogleGet(rm, m.googleId).value, records, rm.google).Err?
            ==> out == Outcome(rm, None, true)
    ensures out.link.Some? ==>
      && m.googleId in out.remotes.google && n.id.value in out.remotes.notion
      && out.remotes.google == rm.google[m.googleId := out.remotes.google[m.googleId]]
      && out.remotes.google[m.googleId].title == n.title
      && out.remotes.notion == rm.notion[n.id.value := out.remotes.notion[n.id.value]]
      && out.remotes.notion[n.id.value].synced == Some(now)
    ensures out.link.Some? ==>
      && GoogleGet(rm, m.googleId).Ok?
      && UpdateGoogleFromNotion(n.(synced := Some(now)), GoogleGet(rm, m.googleId).value, records, rm.google).Ok?
      && out.remotes.google[m.googleId] ==
           UpdateGoogleFromNotion(n.(synced := Some(now)), GoogleGet(rm, m.googleId).value, records, rm.google).value.(updated := Some(now))
      && out.remotes.notion[n.id.value] == n.(synced := Some(now), updated := Some(now))
    ensures ParentsKept(rm, out.remotes)
  {
    if n.synced.Some? && n.updated.None? then
      Outcome(rm, None, false)
    else if n.synced.None? || n.synced.value < n.updated.value then
      var n1 := n.(synced := Some(now));
      match GoogleGet(rm, m.googleId)
      case Err(_) => Outcome(rm, None, false)
      case Ok(g) =>
        match UpdateGoogleFromNotion(n1, g, records, rm.google)
        case Err(_) => Outcome(rm, None, true)
        case Ok(g2) =>
          var rm1 := GoogleWrite(rm, m.googleId, g2, now);
          Outcome(NotionWrite(rm1, n.id.value, n1, now), Some(m.(notionSync := now, googleSync := now)), true)
    else
      Outcome(rm, None, true)
  }

  // ---------------------------------------------------------------------
  // Directional passes

  /** The table only grew at its end, and the documents already there kept their pair of ids. */
  predicate KeysGrow(before: seq<TaskMapping>, after: seq<TaskMapping>)
  {
    |before| <= |after| && forall i :: 0 <= i < |before| ==> SameKeys(after[i], before[i])
  }

  /** Every document is either as it was or was written by this pass, stamped with `now` on both sides. */
  predicate Touched(before: seq<TaskMapping>, after: seq<TaskMapping>, now: int)
  {
    |before| <= |after| &&
    forall k :: 0 <= k < |after| ==>
      (k < |before| && after[k] == before[k]) || (after[k].notionSync == now && after[k].googleSync == now)
  }

  lemma TouchedTrans(a: seq<TaskMapping>, b: seq<TaskMapping>, c: seq<TaskMapping>, now: int)
    requires Touched(a, b, now) && Touched(b, c, now)
    ensures Touched(a, c, now)
  {
  }

  /** The documents appended since `before` carry one of `ids` as Google id. */
  predicate AppendedGoogleIn(before: seq<TaskMapping>, after: seq<TaskMapping>, ids: seq<Id>)
  {
    forall k :: |before| <= k < |after| ==> after[k].googleId in ids
  }

  /** The documents appended since `before` carry a listed task as Notion id. */
  predicate AppendedNotionIn(before: seq<TaskMapping>, after: seq<TaskMapping>, listing: seq<BucketListing>)
  {
    forall k :: |before| <= k < |after| ==> ListedTask(listing, after[k].notionId)
  }

  /** A step that keeps the keys and appends only documents of a listed Google id keeps `AppendedGoogleIn`. */
  lemma AppendedGoogleStep(before: seq<TaskMapping>, prev: seq<TaskMapping>, after: seq<TaskMapping>, ids: seq<Id>, id: Id)
    requires |before| <= |prev| && AppendedGoogleIn(before, prev, ids) && KeysGrow(prev, after) && id in ids
    requires forall k :: |prev| <= k < |after| ==> after[k].googleId == id
    ensures AppendedGoogleIn(before, after, ids)
  {
    forall k | |before| <= k < |after|
      ensures after[k].googleId in ids
    {
      if k < |prev| {
        assert SameKeys(after[k], prev[k]);
      }
    }
  }

  /** The same for the Notion side. */
  lemma AppendedNotionStep(before: seq<TaskMapping>, prev: seq<TaskMapping>, after: seq<TaskMapping>, listing: seq<BucketListing>, tid: Id)
    requires |before| <= |prev| && AppendedNotionIn(before, prev, listing) && KeysGrow(prev, after) && ListedTask(listing, tid)
    requires forall k :: |prev| <= k < |after| ==> after[k].notionId == tid
    ensures AppendedNotionIn(before, after, listing)
  {
    forall k | |before| <= k < |after|
      ensures ListedTask(listing, after[k].notionId)
    {
      if k < |prev| {
        assert SameKeys(after[k], prev[k]);
      }
    }
  }

  /** A Google task that is mapped stays mapped while the table's keys only grow. */
  lemma {:induction false} MappedStaysMapped(before: seq<TaskMapping>, after: seq<TaskMapping>, notionId: Option<Id>, googleId: Option<Id>)
    requires KeysGrow(before, after)
    requires Get(before, notionId, googleId).Some?
    ensures Get(after, notionId, googleId).Some?
  {
    var i :| 0 <= i < |before| && Selects(notionId, googleId, before[i].notionId, before[i].googleId);
    assert Selects(notionId, googleId, after[i].notionId, after[i].googleId);
  }

  /** Updating the table keeps its keys, and every document is either untouched or the new one. */
  lemma UpdatedKeepsKeys(records: seq<TaskMapping>, m: TaskMapping)
    ensures KeysGrow(records, Updated(records, m))
    ensures forall i :: 0 <= i < |records| ==> Updated(records, m)[i] == records[i] || Updated(records, m)[i] == m
  {
  }

  /** Where a pass stands: the providers' state, the mapping table, and whether it goes on. */
  datatype PassState = PassState(remotes: Remotes, records: seq<TaskMapping>, ok: bool)

  /**
   * One Google task of `google_to_notion_sync` (app/sync.py:205-242): the
   * task is linked when the table has no mapping for it, and refreshed
   * otherwise; a new link is appended, a refreshed one updated in place.
   */
  function GoogleToNotionTaskState(records: seq<TaskMapping>, rm: Remotes, buckets: seq<ListBucket>, g: GoogleTask, now: int): (s: PassState)
    requires g.id.Some?
    ensures KeysGrow(records, s.records) && Touched(records, s.records, now)
    ensures forall k :: |records| <= k < |s.records| ==> s.records[k].googleId == g.id.value
    ensures s.remotes.google == rm.google
    ensures s.ok && !Truthy(g.parent) ==> Get(s.records, None, g.id).Some?
  {
    match Get(records, None, g.id)
    case None =>
      var out := LinkNewGoogleTask(records, rm, buckets, g, now);
      if out.link.Some? then
        AppendTouches(records, out.link.value, now);
        assert Selects(None, g.id, (records + [out.link.value])[|records|].notionId, (records + [out.link.value])[|records|].googleId);
        PassState(out.remotes, records + [out.link.value], out.ok)
      else PassState(out.remotes, records, out.ok)
    case Some(m) =>
      var out := RefreshNotionTask(records, rm, g, m, now);
      if out.link.Some? then
        UpdateTouches(records, out.link.value, now);
        MappedStaysMapped(records, Updated(records, out.link.value), None, g.id);
        PassState(out.remotes, Updated(records, out.link.value), out.ok)
      else PassState(out.remotes, records, out.ok)
  }

  /**
   * `google_to_notion_sync` over the listed Google tasks, one after the
   * other; the first task that raises stops the pass where it is.
   */
  function GoogleToNotionPass(records: seq<TaskMapping>, rm: Remotes, buckets: seq<ListBucket>, listed: seq<GoogleTask>, now: int): (s: PassState)
    requires forall t :: t in listed ==> t.id.Some?
    ensures KeysGrow(records, s.records) && Touched(records, s.records, now)
    ensures s.remotes.google == rm.google
    decreases |listed|
  {
    if listed == [] then PassState(rm, records, true)
    else
      assert forall t :: t in listed[..|listed| - 1] ==> t in listed;
      var prev := GoogleToNotionPass(records, rm, buckets, listed[..|listed| - 1], now);
      if !prev.ok then prev
      else
        var s := GoogleToNotionTaskState(prev.records, prev.remotes, buckets, listed[|listed| - 1], now);
        TouchedTrans(records, prev.records, s.records, now);
        s
  }

  /** A pass still going on over a prefix of the listing takes the next task's step. */
  lemma GoogleToNotionPassStep(records: seq<TaskMapping>, rm: Remotes, buckets: seq<ListBucket>, listed: seq<GoogleTask>, i: nat, now: int)
    requires forall t :: t in listed ==> t.id.Some?
    requires i < |listed|
    requires GoogleToNotionPass(records, rm, buckets, listed[..i], now).ok
    ensures listed[i].id.Some?
    ensures
      var prev := GoogleToNotionPass(records, rm, buckets, listed[..i], now);
      GoogleToNotionPass(records, rm, buckets, listed[..i + 1], now) == GoogleToNotionTaskState(prev.records, prev.remotes, buckets, listed[i], now)
  {
    assert listed[i] in listed;
    assert listed[..i + 1][..i] == listed[..i];
  }

  /** Once a prefix of the listing has stopped the pass, the rest of the listing changes nothing. */
  lemma {:induction false} GoogleToNotionPassStops(records: seq<TaskMapping>, rm: Remotes, buckets: seq<ListBucket>, listed: seq<GoogleTask>, i: nat, now: int)
    requires forall t :: t in listed ==> t.id.Some?
    requires i <= |listed|
    requires !GoogleToNotionPass(records, rm, buckets, listed[..i], now).ok
    ensures GoogleToNotionPass(records, rm, buckets, listed, now) == GoogleToNotionPass(records, rm, buckets, listed[..i], now)
    decreases |listed| - i
  {
    if i < |listed| {
      var init := listed[..|listed| - 1];
      assert forall t :: t in init ==> t in listed;
      assert init[..i] == listed[..i];
      GoogleToNotionPassStops(records, rm, buckets, init, i, now);
    } else {
      assert listed[..i] == listed;
    }
  }

  /** An unmapped Google task of `google_to_notion_sync`: linked to a new Notion task when possible. */
  method LinkGoogleTaskStep(table: TaskMapperTable, rm: Remotes, buckets: seq<ListBucket>, g: GoogleTask, now: int)
    returns (rm': Remotes, ok: bool)
    requires g.id.Some?
    modifies table
    ensures KeysGrow(old(table.records), table.records)
    ensures Touched(old(table.records), table.records, now)
    ensures forall k :: |old(table.records)| <= k < |table.records| ==> table.records[k].googleId == g.id.value
    ensures rm'.google == rm.google
    ensures ok && !Truthy(g.parent) ==> Get(table.records, None, g.id).Some?
    ensures var out := LinkNewGoogleTask(old(table.records), rm, buckets, g, now);
            && rm' == out.remotes && ok == out.ok
            && table.records == old(table.records) + (if out.link.Some? then [out.link.value] else [])
  {
    var out := LinkNewGoogleTask(table.records, rm, buckets, g, now);
    if out.link.Some? {
      AppendTouches(table.records, out.link.value, now);
      table.Create(out.link.value);
      assert Selects(None, g.id, table.records[|old(table.records)|].notionId, table.records[|old(table.records)|].googleId);
    }
    rm', ok := out.remotes, out.ok;
  }

  /** A mapped Google task of `google_to_notion_sync`: its Notion side refreshed when it changed. */
  method RefreshNotionStep(table: TaskMapperTable, rm: Remotes, g: GoogleTask, m: TaskMapping, now: int)
    returns (rm': Remotes, ok: bool)
    requires g.id.Some? && Get(table.records, None, g.id).Some?
    modifies table
    ensures KeysGrow(old(table.records), table.records)
    ensures Touched(old(table.records), table.records, now)
    ensures |table.records| == |old(table.records)|
    ensures rm'.google == rm.google
    ensures Get(table.records, None, g.id).Some?
    ensures var out := RefreshNotionTask(old(table.records), rm, g, m, now);
            && rm' == out.remotes && ok == out.ok
            && table.records == if out.link.Some? then Updated(old(table.records), out.link.value) else old(table.records)
  {
    var out := RefreshNotionTask(table.records, rm, g, m, now);
    if out.link.Some? {
      UpdateTouches(table.records, out.link.value, now);
      table.Update(out.link.value);
    }
    MappedStaysMapped(old(table.records), table.records, None, g.id);
    rm', ok := out.remotes, out.ok;
  }

  /** A document stamped with `now` on both sides, appended, keeps the keys and touches only itself. */
  lemma AppendTouches(records: seq<TaskMapping>, m: TaskMapping, now: int)
    requires m.notionSync == now && m.googleSync == now
    ensures KeysGrow(records, records + [m]) && Touched(records, records + [m], now)
  {
  }

  /** An update stamped with `now` on both sides keeps the keys and touches only what it overwrites. */
  lemma UpdateTouches(records: seq<TaskMapping>, m: TaskMapping, now: int)
    requires m.notionSync == now && m.googleSync == now
    ensures KeysGrow(records, Updated(records, m)) && Touched(records, Updated(records, m), now)
  {
    UpdatedKeepsKeys(records, m);
  }

  /**
   * One task of `google_to_notion_sync`: link it if it has no mapping,
   * otherwise refresh its Notion side. Keeps every invariant the pass needs.
   */
  method GoogleToNotionTaskStep(table: TaskMapperTable, rm: Remotes, buckets: seq<ListBucket>, g: GoogleTask, now: int)
    returns (rm': Remotes, ok: bool)
    requires g.id.Some?
    modifies table
    ensures KeysGrow(old(table.records), table.records)
    ensures Touched(old(table.records), table.records, now)
    ensures forall k :: |old(table.records)| <= k < |table.records| ==> table.records[k].googleId == g.id.value
    ensures rm'.google == rm.google
    ensures ok && !Truthy(g.parent) ==> Get(table.records, None, g.id).Some?
    ensures PassState(rm', table.records, ok) == GoogleToNotionTaskState(old(table.records), rm, buckets, g, now)
  {
    var mapper := Get(table.records, None, g.id);
    if mapper.None? {
      rm', ok := LinkGoogleTaskStep(table, rm, buckets, g, now);
    } else {
      rm', ok := RefreshNotionStep(table, rm, g, mapper.value, now);
    }
  }

  /**
   * `google_to_notion_sync`: walks the listed Google tasks in order; links
   * each unmapped one to a new Notion task (skipping subtasks of unmapped
   * parents) and refreshes the Notion side of each mapped one when the
   * change check asks for it.
   */
  method GoogleToNotionSync(table: TaskMapperTable, rm: Remotes, buckets: seq<ListBucket>, listTitles: seq<string>,
                            listed: seq<GoogleTask>, now: int) returns (rm': Remotes, ok: bool)
    requires forall t :: t in listed ==> t.id.Some?
    modifies table
    ensures KeysGrow(old(table.records), table.records)
    ensures Touched(old(table.records), table.records, now)
    ensures AppendedGoogleIn(old(table.records), table.records, ListedIds(listed, GoogleTaskId))
    ensures "Work" !in listTitles ==> !ok && rm' == rm && table.records == old(table.records)
    ensures ok ==> forall g :: g in listed && !Truthy(g.parent) ==> Get(table.records, None, g.id).Some?
    ensures rm'.google == rm.google
    ensures "Work" in listTitles ==> PassState(rm', table.records, ok) == GoogleToNotionPass(old(table.records), rm, buckets, listed, now)
  {
    rm', ok := rm, false;
    if "Work" !in listTitles {
      return;  // `list(filter(...))[0]` raises before anything is read
    }
    ghost var before := table.records;
    var ids := ListedIds(listed, GoogleTaskId);
    for i := 0 to |listed|
      invariant KeysGrow(before, table.records)
      invariant Touched(before, table.records, now)
      invariant AppendedGoogleIn(before, table.records, ids)
      invariant forall j :: 0 <= j < i && !Truthy(listed[j].parent) ==> Get(table.records, None, listed[j].id).Some?
      invariant rm'.google == rm.google
      invariant PassState(rm', table.records, true) == GoogleToNotionPass(before, rm, buckets, listed[..i], now)
    {
      assert listed[i] in listed;
      assert listed[i].id.value == ids[i];
      GoogleToNotionPassStep(before, rm, buckets, listed, i, now);
      ghost var prev := table.records;
      var stepOk;
      rm', stepOk := GoogleToNotionTaskStep(table, rm', buckets, listed[i], now);
      TouchedTrans(before, prev, table.records, now);
      AppendedGoogleStep(before, prev, table.records, ids, ids[i]);
      if !stepOk {
        GoogleToNotionPassStops(before, rm, buckets, listed, i + 1, now);
        return;
      }
      forall j | 0 <= j < i + 1 && !Truthy(listed[j].parent)
        ensures Get(table.records, None, listed[j].id).Some?
      {
        if j < i {
          MappedStaysMapped(prev, table.records, None, listed[j].id);
        }
      }
    }
    forall g | g in listed && !Truthy(g.parent)
      ensures Get(table.records, None, g.id).Some?
    {
      var j :| 0 <= j < |listed| && listed[j] == g;
    }
    assert listed[..|listed|] == listed;
    ok := true;
  }

  /** One listed Notion bucket: its id and the ids of its tasks. */
  datatype BucketListing = BucketListing(id: Id, tasks: seq<Id>)

  /** Every task id a bucket listing names. */
  predicate ListedTask(listing: seq<BucketListing>, tid: Id)
  {
    exists b :: b in listing && tid in b.tasks
  }

  /** A listed Notion task ended up on the Notion side, and linked unless it is a subtask. */
  predicate LinkedUnlessSubtask(records: seq<TaskMapping>, rm: Remotes, tid: Id)
  {
    tid in rm.notion && (rm.notion[tid].parentTasks == [] ==> Get(records, Some(tid), None).Some?)
  }

  /** `ParentsKept` composes. */
  lemma ParentsKeptTrans(a: Remotes, b: Remotes, c: Remotes)
    requires ParentsKept(a, b) && ParentsKept(b, c)
    ensures ParentsKept(a, c)
  {
  }

  /**
   * One listed Notion task of `notion_to_google_sync` (app/sync.py:252-294):
   * fetched, then linked when the table has no mapping for it and pushed to
   * Google otherwise; a new link is appended, a refreshed one updated in place.
   */
  function NotionToGoogleTaskState(records: seq<TaskMapping>, rm: Remotes, tasklist: Id, tid: Id, now: int): (s: PassState)
    ensures KeysGrow(records, s.records) && Touched(records, s.records, now)
    ensures forall k :: |records| <= k < |s.records| ==> s.records[k].notionId == tid
    ensures ParentsKept(rm, s.remotes)
    ensures s.ok ==> LinkedUnlessSubtask(s.records, s.remotes, tid)
  {
    match NotionGet(rm, tid)
    case Err(_) => PassState(rm, records, false)
    case Ok(n) =>
      match Get(records, n.id, None)
      case None =>
        var out := LinkNewNotionTask(records, rm, tasklist, n, now);
        if out.link.Some? then
          AppendTouches(records, out.link.value, now);
          assert Selects(n.id, None, (records + [out.link.value])[|records|].notionId, (records + [out.link.value])[|records|].googleId);
          PassState(out.remotes, records + [out.link.value], out.ok)
        else PassState(out.remotes, records, out.ok)
      case Some(m) =>
        var out := RefreshGoogleTask(records, rm, n, m, now);
        if out.link.Some? then
          UpdateTouches(records, out.link.value, now);
          MappedStaysMapped(records, Updated(records, out.link.value), n.id, None);
          PassState(out.remotes, Updated(records, out.link.value), out.ok)
        else PassState(out.remotes, records, out.ok)
  }

  /** The tasks of one bucket, one after the other, from `st`; the first that raises stops the pass. */
  function NotionTasksPass(st: PassState, tasklist: Id, tids: seq<Id>, now: int): (s: PassState)
    ensures KeysGrow(st.records, s.records) && Touched(st.records, s.records, now)
    ensures ParentsKept(st.remotes, s.remotes)
    ensures forall x :: LinkedUnlessSubtask(st.records, st.remotes, x) ==> LinkedUnlessSubtask(s.records, s.remotes, x)
    ensures s.ok ==> forall x :: x in tids ==> LinkedUnlessSubtask(s.records, s.remotes, x)
    ensures forall k :: |st.records| <= k < |s.records| ==> s.records[k].notionId in tids
    decreases |tids|
  {
    if tids == [] then st
    else
      var init := tids[..|tids| - 1];
      var prev := NotionTasksPass(st, tasklist, init, now);
      if !prev.ok then prev
      else
        var s := NotionToGoogleTaskState(prev.records, prev.remotes, tasklist, tids[|tids| - 1], now);
        TouchedTrans(st.records, prev.records, s.records, now);
        ParentsKeptTrans(st.remotes, prev.remotes, s.remotes);
        LinkedStays(prev.records, prev.remotes, s.records, s.remotes);
        assert forall x :: x in tids ==> x in init || x == tids[|tids| - 1];
        assert forall k :: |st.records| <= k < |prev.records| ==> s.records[k].notionId == prev.records[k].notionId;
        s
  }

  /** One listed bucket: its tasks go to the bucket's linked list; a bucket with no link stops the pass. */
  function NotionBucketPass(st: PassState, buckets: seq<ListBucket>, bucket: BucketListing, now: int): (s: PassState)
    ensures KeysGrow(st.records, s.records) && Touched(st.records, s.records, now)
    ensures ParentsKept(st.remotes, s.remotes)
    ensures GetBucket(buckets, Some(bucket.id), None).None? ==> s == st.(ok := false)
  {
    match GetBucket(buckets, Some(bucket.id), None)
    case None => st.(ok := false)
    case Some(link) => NotionTasksPass(st, link.googleId, bucket.tasks, now)
  }

  /** `notion_to_google_sync` over the listed buckets, one after the other. */
  function NotionToGooglePass(records: seq<TaskMapping>, rm: Remotes, buckets: seq<ListBucket>, listing: seq<BucketListing>, now: int): (s: PassState)
    ensures KeysGrow(records, s.records) && Touched(records, s.records, now)
    ensures ParentsKept(rm, s.remotes)
    decreases |listing|
  {
    if listing == [] then PassState(rm, records, true)
    else
      var prev := NotionToGooglePass(records, rm, buckets, listing[..|listing| - 1], now);
      if !prev.ok then prev
      else
        var s := NotionBucketPass(prev, buckets, listing[|listing| - 1], now);
        TouchedTrans(records, prev.records, s.records, now);
        ParentsKeptTrans(rm, prev.remotes, s.remotes);
        s
  }

  /** A bucket's pass still going on over a prefix of its tasks takes the next task's step. */
  lemma NotionTasksPassStep(st: PassState, tasklist: Id, tids: seq<Id>, i: nat, now: int)
    requires i < |tids|
    requires NotionTasksPass(st, tasklist, tids[..i], now).ok
    ensures
      var prev := NotionTasksPass(st, tasklist, tids[..i], now);
      NotionTasksPass(st, tasklist, tids[..i + 1], now) == NotionToGoogleTaskState(prev.records, prev.remotes, tasklist, tids[i], now)
  {
    assert tids[..i + 1][..i] == tids[..i];
  }

  /** Once a prefix of a bucket's tasks has stopped the pass, its other tasks change nothing. */
  lemma {:induction false} NotionTasksPassStops(st: PassState, tasklist: Id, tids: seq<Id>, i: nat, now: int)
    requires i <= |tids|
    requires !NotionTasksPass(st, tasklist, tids[..i], now).ok
    ensures NotionTasksPass(st, tasklist, tids, now) == NotionTasksPass(st, tasklist, tids[..i], now)
    decreases |tids| - i
  {
    if i < |tids| {
      var init := tids[..|tids| - 1];
      assert init[..i] == tids[..i];
      NotionTasksPassStops(st, tasklist, init, i, now);
    } else {
      assert tids[..i] == tids;
    }
  }

  /** The pass still going on over a prefix of the buckets takes the next bucket. */
  lemma NotionToGooglePassStep(records: seq<TaskMapping>, rm: Remotes, buckets: seq<ListBucket>, listing: seq<BucketListing>, b: nat, now: int)
    requires b < |listing|
    requires NotionToGooglePass(records, rm, buckets, listing[..b], now).ok
    ensures
      NotionToGooglePass(records, rm, buckets, listing[..b + 1], now) ==
      NotionBucketPass(NotionToGooglePass(records, rm, buckets, listing[..b], now), buckets, listing[b], now)
  {
    assert listing[..b + 1][..b] == listing[..b];
  }

  /** Once a prefix of the buckets has stopped the pass, the other buckets change nothing. */
  lemma {:induction false} NotionToGooglePassStops(records: seq<TaskMapping>, rm: Remotes, buckets: seq<ListBucket>, listing: seq<BucketListing>, b: nat, now: int)
    requires b <= |listing|
    requires !NotionToGooglePass(records, rm, buckets, listing[..b], now).ok
    ensures NotionToGooglePass(records, rm, buckets, listing, now) == NotionToGooglePass(records, rm, buckets, listing[..b], now)
    decreases |listing| - b
  {
    if b < |listing| {
      var init := listing[..|listing| - 1];
      assert init[..b] == listing[..b];
      NotionToGooglePassStops(records, rm, buckets, init, b, now);
    } else {
      assert listing[..b] == listing;
    }
  }

  /** An unmapped Notion task of `notion_to_google_sync`: linked to a new Google task unless its parent is unmapped. */
  method LinkNotionTaskStep(table: TaskMapperTable, rm: Remotes, tasklist: Id, n: NotionTask, now: int) returns (rm': Remotes, ok: bool)
    requires n.id.Some? && NotionGet(rm, n.id.value) == Ok(n)
    modifies table
    ensures KeysGrow(old(table.records), table.records)
    ensures Touched(old(table.records), table.records, now)
    ensures forall k :: |old(table.records)| <= k < |table.records| ==> table.records[k].notionId == n.id.value
    ensures ParentsKept(rm, rm')
    ensures ok ==> LinkedUnlessSubtask(table.records, rm', n.id.value)
    ensures var out := LinkNewNotionTask(old(table.records), rm, tasklist, n, now);
            && rm' == out.remotes && ok == out.ok
            && table.records == old(table.records) + (if out.link.Some? then [out.link.value] else [])
  {
    var out := LinkNewNotionTask(table.records, rm, tasklist, n, now);
    if out.link.Some? {
      AppendTouches(table.records, out.link.value, now);
      table.Create(out.link.value);
      assert Selects(n.id, None, table.records[|old(table.records)|].notionId, table.records[|old(table.records)|].googleId);
    }
    rm', ok := out.remotes, out.ok;
  }

  /** A mapped Notion task of `notion_to_google_sync`: pushed to Google when it changed. */
  method RefreshGoogleStep(table: TaskMapperTable, rm: Remotes, n: NotionTask, m: TaskMapping, now: int) returns (rm': Remotes, ok: bool)
    requires n.id.Some? && NotionGet(rm, n.id.value) == Ok(n)
    requires Get(table.records, n.id, None).Some?
    modifies table
    ensures KeysGrow(old(table.records), table.records)
    ensures Touched(old(table.records), table.records, now)
    ensures |table.records| == |old(table.records)|
    ensures ParentsKept(rm, rm')
    ensures ok ==> LinkedUnlessSubtask(table.records, rm', n.id.value)
    ensures var out := RefreshGoogleTask(old(table.records), rm, n, m, now);
            && rm' == out.remotes && ok == out.ok
            && table.records == if out.link.Some? then Updated(old(table.records), out.link.value) else old(table.records)
  {
    var out := RefreshGoogleTask(table.records, rm, n, m, now);
    if out.link.Some? {
      UpdateTouches(table.records, out.link.value, now);
      table.Update(out.link.value);
    }
    MappedStaysMapped(old(table.records), table.records, n.id, None);
    rm', ok := out.remotes, out.ok;
  }

  /**
   * One task of `notion_to_google_sync`: fetch it, then link it or push it
   * to Google. Keeps every invariant the pass needs.
   */
  method NotionToGoogleTaskStep(table: TaskMapperTable, rm: Remotes, tasklist: Id, tid: Id, now: int) returns (rm': Remotes, ok: bool)
    modifies table
    ensures KeysGrow(old(table.records), table.records)
    ensures Touched(old(table.records), table.records, now)
    ensures forall k :: |old(table.records)| <= k < |table.records| ==> table.records[k].notionId == tid
    ensures ParentsKept(rm, rm')
    ensures ok ==> LinkedUnlessSubtask(table.records, rm', tid)
    ensures PassState(rm', table.records, ok) == NotionToGoogleTaskState(old(table.records), rm, tasklist, tid, now)
  {
    rm', ok := rm, false;
    match NotionGet(rm, tid)
    case Err(_) =>
      return;
    case Ok(n) =>
      var mapper := Get(table.records, n.id, None);
      if mapper.None? {
        rm', ok := LinkNotionTaskStep(table, rm, tasklist, n, now);
      } else {
        rm', ok := RefreshGoogleStep(table, rm, n, mapper.value, now);
      }
  }

  /** A listed task that was linked stays linked while the table's keys only grow and Notion keeps its tasks. */
  lemma LinkedStays(before: seq<TaskMapping>, rm: Remotes, after: seq<TaskMapping>, rm': Remotes)
    requires KeysGrow(before, after) && ParentsKept(rm, rm')
    ensures forall tid :: LinkedUnlessSubtask(before, rm, tid) ==> LinkedUnlessSubtask(after, rm', tid)
  {
    forall tid | LinkedUnlessSubtask(before, rm, tid)
      ensures LinkedUnlessSubtask(after, rm', tid)
    {
      if rm'.notion[tid].parentTasks == [] {
        MappedStaysMapped(before, after, Some(tid), None);
      }
    }
  }

  /** `AppendedNotionIn` composes. */
  lemma AppendedNotionTrans(a: seq<TaskMapping>, b: seq<TaskMapping>, c: seq<TaskMapping>, listing: seq<BucketListing>)
    requires |a| <= |b| && AppendedNotionIn(a, b, listing) && AppendedNotionIn(b, c, listing) && KeysGrow(b, c)
    ensures AppendedNotionIn(a, c, listing)
  {
    forall k | |a| <= k < |c|
      ensures ListedTask(listing, c[k].notionId)
    {
      if k < |b| {
        assert SameKeys(c[k], b[k]);
      }
    }
  }

  /**
   * The tasks of one listed bucket in `notion_to_google_sync`, in order,
   * against the bucket's linked task list; the first that raises stops.
   */
  method NotionBucketTasks(table: TaskMapperTable, rm: Remotes, tasklist: Id, tids: seq<Id>, now: int)
    returns (rm': Remotes, ok: bool)
    modifies table
    ensures PassState(rm', table.records, ok) == NotionTasksPass(PassState(rm, old(table.records), true), tasklist, tids, now)
  {
    rm', ok := rm, false;
    ghost var start := PassState(rm, table.records, true);
    for t := 0 to |tids|
      invariant PassState(rm', table.records, true) == NotionTasksPass(start, tasklist, tids[..t], now)
    {
      NotionTasksPassStep(start, tasklist, tids, t, now);
      var stepOk;
      rm', stepOk := NotionToGoogleTaskStep(table, rm', tasklist, tids[t], now);
      if !stepOk {
        NotionTasksPassStops(start, tasklist, tids, t + 1, now);
        return;
      }
    }
    assert tids[..|tids|] == tids;
    ok := true;
  }

  /**
   * `notion_to_google_sync`: walks every listed bucket and each of its tasks
   * in order; a bucket without a linked task list stops the pass.
   */
  method NotionToGoogleSync(table: TaskMapperTable, rm: Remotes, buckets: seq<ListBucket>, listing: seq<BucketListing>, now: int)
    returns (rm': Remotes, ok: bool)
    modifies table
    ensures KeysGrow(old(table.records), table.records)
    ensures Touched(old(table.records), table.records, now)
    ensures AppendedNotionIn(old(table.records), table.records, listing)
    ensures ParentsKept(rm, rm')
    ensures ok ==> forall tid :: ListedTask(listing, tid) ==> LinkedUnlessSubtask(table.records, rm', tid)
    ensures PassState(rm', table.records, ok) == NotionToGooglePass(old(table.records), rm, buckets, listing, now)
  {
    rm', ok := rm, false;
    ghost var before := table.records;
    for b := 0 to |listing|
      invariant KeysGrow(before, table.records)
      invariant Touched(before, table.records, now)
      invariant AppendedNotionIn(before, table.records, listing)
      invariant ParentsKept(rm, rm')
      invariant forall tid :: ListedTask(listing[..b], tid) ==> LinkedUnlessSubtask(table.records, rm', tid)
      invariant PassState(rm', table.records, true) == NotionToGooglePass(before, rm, buckets, listing[..b], now)
    {
      var bucket := listing[b];
      NotionToGooglePassStep(before, rm, buckets, listing, b, now);
      var link := GetBucket(buckets, Some(bucket.id), None);
      if link.None? {
        NotionToGooglePassStops(before, rm, buckets, listing, b + 1, now);
        return;  // `.google_id` of None raises
      }
      assert forall tid :: tid in bucket.tasks ==> ListedTask(listing, tid) by { assert bucket in listing; }
      ghost var prev, prevRm := table.records, rm';
      var bucketOk;
      rm', bucketOk := NotionBucketTasks(table, rm', link.value.googleId, bucket.tasks, now);
      ParentsKeptTrans(rm, prevRm, rm');
      TouchedTrans(before, prev, table.records, now);
      AppendedNotionTrans(before, prev, table.records, listing);
      if !bucketOk {
        NotionToGooglePassStops(before, rm, buckets, listing, b + 1, now);
        return;
      }
      forall x | ListedTask(listing[..b + 1], x)
        ensures LinkedUnlessSubtask(table.records, rm', x)
      {
        var c :| c in listing[..b + 1] && x in c.tasks;
        if c != bucket {
          assert c in listing[..b];
        }
      }
    }
    assert listing[..|listing|] == listing;
    ok := true;
  }
}
