/**
 * The task records and stores of the repository generation
 * (app/syncers/google.py, app/syncers/notion.py and app/converters/__init__.py): the two task shapes with
 * their internal fields (the other side's id and the last sync time), the
 * two remote providers as maps from id to task, and the two Mongo
 * repositories of internal copies as sequences in store order.
 *
 * A repository lookup `next(Repo.find(field=value))` is the first stored
 * task whose field equals the value (an absent id is `None`, and Mongo
 * matches `None` against `None`); `save` replaces the first stored task
 * with the same own id or appends; `delete_one` drops the first match.
 */
module Tasks {
  import opened Basics

  /** A Notion date: the day, and whether a time of day is attached. */
  datatype NotionTime = NotionTime(day: int, hasTime: bool)

  datatype NotionStatus = NotionStatus(notionId: Id, name: string)

  datatype GoogleTask = GoogleTask(
    googleId: Option<Id>, tasklist: Id, title: string, notes: Option<string>, status: GoogleStatus,
    parent: Option<Id>, due: Option<int>, updated: Option<int>,
    synced: Option<int>, notionId: Option<Id>)

  datatype NotionTask = NotionTask(
    notionId: Option<Id>, title: string, notes: Option<string>, status: Option<NotionStatus>,
    bucketId: Id, parentTaskIds: seq<Id>, due: Option<NotionTime>, updated: Option<int>,
    synced: Option<int>, googleId: Option<Id>)

  /** The two kinds of exception the syncers tell apart: `RuntimeError` and any other. */
  datatype Failure = ParentUnlinked | Fault

  /** What `sync_task` ends with: the synced task, None (skipped), or an exception that escapes. */
  datatype SyncResult<T> = Synced(task: T) | Skipped | Aborted

  /**
   * `update_from_params` with the other side's converted task, internal
   * fields excluded: the content is taken over, the ids, sync time and
   * modification time stay.
   */
  function GoogleWithContent(t: GoogleTask, src: GoogleTask): (r: GoogleTask)
    ensures r.googleId == t.googleId && r.notionId == t.notionId && r.synced == t.synced && r.updated == t.updated
    ensures r.title == src.title && r.notes == src.notes && r.status == src.status && r.parent == src.parent
    ensures r.due == src.due && r.tasklist == src.tasklist
  {
    t.(tasklist := src.tasklist, title := src.title, notes := src.notes, status := src.status, parent := src.parent, due := src.due)
  }

  function NotionWithContent(t: NotionTask, src: NotionTask): (r: NotionTask)
    ensures r.notionId == t.notionId && r.googleId == t.googleId && r.synced == t.synced && r.updated == t.updated
    ensures r.title == src.title && r.notes == src.notes && r.status == src.status && r.parentTaskIds == src.parentTaskIds
    ensures r.due == src.due && r.bucketId == src.bucketId
  {
    t.(title := src.title, notes := src.notes, status := src.status, bucketId := src.bucketId,
       parentTaskIds := src.parentTaskIds, due := src.due)
  }

  /** Everything the syncers read and write besides their own fields. */
  datatype Stores = Stores(
    googleRemote: map<Id, GoogleTask>, notionRemote: map<Id, NotionTask>,
    googleRepo: seq<GoogleTask>, notionRepo: seq<NotionTask>, minted: nat)

  /** The shared world both syncers change in place. */
  class Backend {
    var stores: Stores

    constructor (initial: Stores)
      ensures stores == initial
    {
      stores := initial;
    }
  }

  // ---------------------------------------------------------------------
  // Sequences in store order, keyed by one field

  /** The own id of a Google task, the key its repository is searched and saved by. */
  function GoogleKey(t: GoogleTask): Option<Id> { t.googleId }

  /** The own id of a Notion task. */
  function NotionKey(t: NotionTask): Option<Id> { t.notionId }

  /** The index of the first element whose key is `k`. */
  function KeyIndex<T, K(==)>(s: seq<T>, key: T -> K, k: K): (r: Option<nat>)
    ensures r.Some? ==> r.value < |s| && key(s[r.value]) == k
    ensures r.Some? ==> forall j :: 0 <= j < r.value ==> key(s[j]) != k
    ensures r.None? <==> forall j :: 0 <= j < |s| ==> key(s[j]) != k
  {
    if s == [] then None
    else if key(s[0]) == k then Some(0)
    else match KeyIndex(s[1..], key, k) case None => None case Some(i) => Some(i + 1)
  }

  /** The elements whose key is one of `ks`, in order. */
  function Where<T(==,!new), K(==)>(s: seq<T>, key: T -> K, ks: seq<K>): (r: seq<T>)
    ensures |r| <= |s|
    ensures forall x :: x in r <==> x in s && key(x) in ks
  {
    if s == [] then [] else (if key(s[0]) in ks then [s[0]] else []) + Where(s[1..], key, ks)
  }

  /** `save`: `x` replaces the first element with the same key, or is appended when there is none. */
  function Upsert<T(==,!new), K(==)>(s: seq<T>, key: T -> K, x: T): (r: seq<T>)
    ensures KeyIndex(r, key, key(x)).Some? && r[KeyIndex(r, key, key(x)).value] == x
    ensures |r| == if KeyIndex(s, key, key(x)).Some? then |s| else |s| + 1
    ensures forall y :: y in s && key(y) != key(x) ==> y in r
    ensures forall y :: y in r ==> y == x || y in s
  {
    if s == [] then [x]
    else if key(s[0]) == key(x) then [x] + s[1..]
    else
      var rest := Upsert(s[1..], key, x);
      assert ([s[0]] + rest)[1..] == rest;
      [s[0]] + rest
  }

  /** `delete_one`: the first element with key `k` is dropped. */
  function RemoveFirst<T(==,!new), K(==)>(s: seq<T>, key: T -> K, k: K): (r: seq<T>)
    ensures |r| == if KeyIndex(s, key, k).Some? then |s| - 1 else |s|
    ensures forall y :: y in r ==> y in s
    ensures forall y :: y in s && key(y) != k ==> y in r
  {
    if s == [] then []
    else if key(s[0]) == k then s[1..]
    else [s[0]] + RemoveFirst(s[1..], key, k)
  }

  /** Dropping an element whose key is not among `ks` leaves the elements keyed by `ks`, in order, as they were. */
  lemma {:induction false} RemoveFirstKeeps<T(!new), K>(s: seq<T>, key: T -> K, k: K, ks: seq<K>)
    requires k !in ks
    ensures Where(RemoveFirst(s, key, k), key, ks) == Where(s, key, ks)
  {
    if s != [] && key(s[0]) != k {
      RemoveFirstKeeps(s[1..], key, k, ks);
      assert RemoveFirst(s, key, k)[1..] == RemoveFirst(s[1..], key, k);
    }
  }

  // ---------------------------------------------------------------------
  // Repository queries

  function FindGoogle(repo: seq<GoogleTask>, googleId: Option<Id>): (r: Option<GoogleTask>)
    ensures r.Some? ==> r.value in repo && r.value.googleId == googleId
    ensures r.None? <==> forall i :: 0 <= i < |repo| ==> repo[i].googleId != googleId
  {
    match KeyIndex(repo, GoogleKey, googleId)
    case None => None
    case Some(i) => Some(repo[i])
  }

  /** `find(tasklist=..., google_id=...)`: both fields must match. */
  function FindGoogleIn(repo: seq<GoogleTask>, tasklist: Id, googleId: Option<Id>): (r: Option<GoogleTask>)
    ensures r.Some? ==> r.value in repo && r.value.googleId == googleId && r.value.tasklist == tasklist
    ensures r.None? <==> forall i :: 0 <= i < |repo| ==> !(repo[i].googleId == googleId && repo[i].tasklist == tasklist)
  {
    First(repo, (t: GoogleTask) => t.googleId == googleId && t.tasklist == tasklist)
  }

  function FindNotion(repo: seq<NotionTask>, notionId: Option<Id>): (r: Option<NotionTask>)
    ensures r.Some? ==> r.value in repo && r.value.notionId == notionId
    ensures r.None? <==> forall i :: 0 <= i < |repo| ==> repo[i].notionId != notionId
  {
    match KeyIndex(repo, NotionKey, notionId)
    case None => None
    case Some(i) => Some(repo[i])
  }

  /** Every id a lookup in `a` finds, a lookup in `b` finds as well: no internal copy was lost. */
  ghost predicate GoogleCopiesKept(a: seq<GoogleTask>, b: seq<GoogleTask>)
  {
    forall id :: FindGoogle(a, id).Some? ==> FindGoogle(b, id).Some?
  }

  ghost predicate NotionCopiesKept(a: seq<NotionTask>, b: seq<NotionTask>)
  {
    forall id :: FindNotion(a, id).Some? ==> FindNotion(b, id).Some?
  }

  /**
   * Nothing was deleted from `a` to `b`: both providers still hold every
   * task they held, both repositories still find every internal copy, and
   * no id is minted twice.
   */
  ghost predicate StoresGrow(a: Stores, b: Stores)
  {
    && a.googleRemote.Keys <= b.googleRemote.Keys
    && a.notionRemote.Keys <= b.notionRemote.Keys
    && a.minted <= b.minted
    && GoogleCopiesKept(a.googleRepo, b.googleRepo)
    && NotionCopiesKept(a.notionRepo, b.notionRepo)
  }

  /** Two steps that delete nothing make one. */
  lemma StoresGrowTrans(a: Stores, b: Stores, c: Stores)
    requires StoresGrow(a, b) && StoresGrow(b, c)
    ensures StoresGrow(a, c)
  {
  }

  /** When `b` keeps every element of `a` not keyed `k`, every other id `a` finds, `b` finds. */
  lemma GoogleLookupsKept(a: seq<GoogleTask>, b: seq<GoogleTask>, k: Option<Id>)
    requires forall y :: y in a && y.googleId != k ==> y in b
    ensures forall id :: id != k && FindGoogle(a, id).Some? ==> FindGoogle(b, id).Some?
  {
    forall id | id != k && FindGoogle(a, id).Some?
      ensures FindGoogle(b, id).Some?
    {
      var y := FindGoogle(a, id).value;
      var j :| 0 <= j < |b| && b[j] == y;
    }
  }

  lemma NotionLookupsKept(a: seq<NotionTask>, b: seq<NotionTask>, k: Option<Id>)
    requires forall y :: y in a && y.notionId != k ==> y in b
    ensures forall id :: id != k && FindNotion(a, id).Some? ==> FindNotion(b, id).Some?
  {
    forall id | id != k && FindNotion(a, id).Some?
      ensures FindNotion(b, id).Some?
    {
      var y := FindNotion(a, id).value;
      var j :| 0 <= j < |b| && b[j] == y;
    }
  }

  /** `GoogleTaskRepository.save`: afterwards a lookup by the task's id finds exactly this task. */
  function SaveGoogle(repo: seq<GoogleTask>, t: GoogleTask): (r: seq<GoogleTask>)
    ensures FindGoogle(r, t.googleId) == Some(t)
    ensures |r| == if FindGoogle(repo, t.googleId).Some? then |repo| else |repo| + 1
    ensures forall y :: y in repo && y.googleId != t.googleId ==> y in r
    ensures forall y :: y in r ==> y == t || y in repo
    ensures GoogleCopiesKept(repo, r)
  {
    var r := Upsert(repo, GoogleKey, t);
    GoogleLookupsKept(repo, r, t.googleId);
    r
  }

  /** `NotionTaskRepository.save`: afterwards a lookup by the task's id finds exactly this task. */
  function SaveNotion(repo: seq<NotionTask>, t: NotionTask): (r: seq<NotionTask>)
    ensures FindNotion(r, t.notionId) == Some(t)
    ensures |r| == if FindNotion(repo, t.notionId).Some? then |repo| else |repo| + 1
    ensures forall y :: y in repo && y.notionId != t.notionId ==> y in r
    ensures forall y :: y in r ==> y == t || y in repo
    ensures NotionCopiesKept(repo, r)
  {
    var r := Upsert(repo, NotionKey, t);
    NotionLookupsKept(repo, r, t.notionId);
    r
  }

  /** `delete_one({"google_id": ...})`: one document fewer when one matches, none otherwise. */
  function DeleteOneGoogle(repo: seq<GoogleTask>, googleId: Option<Id>): (r: seq<GoogleTask>)
    ensures |r| == if FindGoogle(repo, googleId).Some? then |repo| - 1 else |repo|
    ensures forall y :: y in r ==> y in repo
    ensures forall y :: y in repo && y.googleId != googleId ==> y in r
    ensures forall id :: id != googleId && FindGoogle(repo, id).Some? ==> FindGoogle(r, id).Some?
  {
    var r := RemoveFirst(repo, GoogleKey, googleId);
    GoogleLookupsKept(repo, r, googleId);
    r
  }

  /** `delete_one({"notion_id": ...})`. */
  function DeleteOneNotion(repo: seq<NotionTask>, notionId: Option<Id>): (r: seq<NotionTask>)
    ensures |r| == if FindNotion(repo, notionId).Some? then |repo| - 1 else |repo|
    ensures forall y :: y in r ==> y in repo
    ensures forall y :: y in repo && y.notionId != notionId ==> y in r
    ensures forall id :: id != notionId && FindNotion(repo, id).Some? ==> FindNotion(r, id).Some?
  {
    var r := RemoveFirst(repo, NotionKey, notionId);
    NotionLookupsKept(repo, r, notionId);
    r
  }

  // ---------------------------------------------------------------------
  // Remote providers

  /**
   * `google_save`: a task without an id is created under a new one, a task
   * with an id overwrites the stored one (and fails if Google has none);
   * Google stamps the modification time.
   */
  function GoogleSave(st: Stores, t: GoogleTask, now: int): (r: Result<(Stores, GoogleTask), Failure>)
    ensures t.googleId.None? ==> r.Ok? && r.value.1.googleId == Some(MintedId(st.minted))
    ensures t.googleId.Some? ==> (r.Ok? <==> t.googleId.value in st.googleRemote) && (r.Ok? ==> r.value.1.googleId == t.googleId)
    ensures r.Ok? ==> r.value.1 == t.(googleId := r.value.1.googleId, updated := Some(now))
    ensures r.Ok? ==> r.value.1.googleId.Some? && r.value.0.googleRemote == st.googleRemote[r.value.1.googleId.value := r.value.1]
    ensures r.Ok? ==> r.value.0.googleRemote.Keys == st.googleRemote.Keys + {r.value.1.googleId.value}
    ensures r.Ok? && t.googleId.Some? ==> r.value.0.googleRemote.Keys == st.googleRemote.Keys
    ensures r.Ok? ==> r.value.0.notionRemote == st.notionRemote && r.value.0.googleRepo == st.googleRepo && r.value.0.notionRepo == st.notionRepo
    ensures r.Ok? ==> r.value.0.minted == if t.googleId.None? then st.minted + 1 else st.minted
  {
    if t.googleId.None? then
      var saved := t.(googleId := Some(MintedId(st.minted)), updated := Some(now));
      Ok((st.(googleRemote := st.googleRemote[MintedId(st.minted) := saved], minted := st.minted + 1), saved))
    else if t.googleId.value in st.googleRemote then
      var saved := t.(updated := Some(now));
      Ok((st.(googleRemote := st.googleRemote[t.googleId.value := saved]), saved))
    else Err(Fault)
  }

  function NotionSave(st: Stores, t: NotionTask, now: int): (r: Result<(Stores, NotionTask), Failure>)
    ensures t.notionId.None? ==> r.Ok? && r.value.1.notionId == Some(MintedId(st.minted))
    ensures t.notionId.Some? ==> (r.Ok? <==> t.notionId.value in st.notionRemote) && (r.Ok? ==> r.value.1.notionId == t.notionId)
    ensures r.Ok? ==> r.value.1 == t.(notionId := r.value.1.notionId, updated := Some(now))
    ensures r.Ok? ==> r.value.1.notionId.Some? && r.value.0.notionRemote == st.notionRemote[r.value.1.notionId.value := r.value.1]
    ensures r.Ok? ==> r.value.0.notionRemote.Keys == st.notionRemote.Keys + {r.value.1.notionId.value}
    ensures r.Ok? && t.notionId.Some? ==> r.value.0.notionRemote.Keys == st.notionRemote.Keys
    ensures r.Ok? ==> r.value.0.googleRemote == st.googleRemote && r.value.0.googleRepo == st.googleRepo && r.value.0.notionRepo == st.notionRepo
    ensures r.Ok? ==> r.value.0.minted == if t.notionId.None? then st.minted + 1 else st.minted
  {
    if t.notionId.None? then
      var saved := t.(notionId := Some(MintedId(st.minted)), updated := Some(now));
      Ok((st.(notionRemote := st.notionRemote[MintedId(st.minted) := saved], minted := st.minted + 1), saved))
    else if t.notionId.value in st.notionRemote then
      var saved := t.(updated := Some(now));
      Ok((st.(notionRemote := st.notionRemote[t.notionId.value := saved]), saved))
    else Err(Fault)
  }

  /** `fetch`: the content and modification time Google holds now, with the internal fields kept. */
  function GoogleFetch(st: Stores, t: GoogleTask): (r: Result<GoogleTask, Failure>)
    ensures r.Ok? <==> t.googleId.Some? && t.googleId.value in st.googleRemote
    ensures r.Ok? ==> r.value == GoogleWithContent(t, st.googleRemote[t.googleId.value]).(updated := st.googleRemote[t.googleId.value].updated)
  {
    if t.googleId.Some? && t.googleId.value in st.googleRemote then
      var remote := st.googleRemote[t.googleId.value];
      Ok(GoogleWithContent(t, remote).(updated := remote.updated))
    else Err(Fault)
  }

  function NotionFetch(st: Stores, t: NotionTask): (r: Result<NotionTask, Failure>)
    ensures r.Ok? <==> t.notionId.Some? && t.notionId.value in st.notionRemote
    ensures r.Ok? ==> r.value == NotionWithContent(t, st.notionRemote[t.notionId.value]).(updated := st.notionRemote[t.notionId.value].updated)
  {
    if t.notionId.Some? && t.notionId.value in st.notionRemote then
      var remote := st.notionRemote[t.notionId.value];
      Ok(NotionWithContent(t, remote).(updated := remote.updated))
    else Err(Fault)
  }

  /** `GoogleTasks.get`: a task as Google returns it, with no internal fields. */
  function GoogleGet(st: Stores, id: Id): (r: Result<GoogleTask, Failure>)
    ensures r.Ok? <==> id in st.googleRemote
    ensures r.Ok? ==> r.value.googleId == Some(id) && r.value.notionId.None? && r.value.synced.None?
  {
    if id in st.googleRemote then Ok(st.googleRemote[id].(googleId := Some(id), notionId := None, synced := None))
    else Err(Fault)
  }

  function NotionGet(st: Stores, id: Id): (r: Result<NotionTask, Failure>)
    ensures r.Ok? <==> id in st.notionRemote
    ensures r.Ok? ==> r.value.notionId == Some(id) && r.value.googleId.None? && r.value.synced.None?
  {
    if id in st.notionRemote then Ok(st.notionRemote[id].(notionId := Some(id), googleId := None, synced := None))
    else Err(Fault)
  }

  /** `google_delete`: fails for a task Google does not hold. */
  function GoogleDelete(st: Stores, t: GoogleTask): (r: Result<Stores, Failure>)
    ensures r.Ok? <==> t.googleId.Some? && t.googleId.value in st.googleRemote
    ensures r.Ok? ==> r.value == st.(googleRemote := st.googleRemote - {t.googleId.value})
  {
    if t.googleId.Some? && t.googleId.value in st.googleRemote then Ok(st.(googleRemote := st.googleRemote - {t.googleId.value}))
    else Err(Fault)
  }

  function NotionDelete(st: Stores, t: NotionTask): (r: Result<Stores, Failure>)
    ensures r.Ok? <==> t.notionId.Some? && t.notionId.value in st.notionRemote
    ensures r.Ok? ==> r.value == st.(notionRemote := st.notionRemote - {t.notionId.value})
  {
    if t.notionId.Some? && t.notionId.value in st.notionRemote then Ok(st.(notionRemote := st.notionRemote - {t.notionId.value}))
    else Err(Fault)
  }
}
