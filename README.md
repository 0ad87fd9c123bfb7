# Task syncer between Notion and Google Tasks — a Dafny model

The task syncer keeps a Notion task database and Google Tasks lists in step.
The repository holds two generations of the synchronisation logic, and both
are modelled here.

- **The mapping-table generation** is `app/sync.py` over `app/models/mapper.py`.
  - A Mongo collection of `TasksMapper` documents pairs each Notion task id
    with a Google task id, with a sync time for each side.
  - A second collection of `ListBucketMapper` documents pairs each Notion
    bucket with a Google task list.
  - Two purge passes delete, on the other side, the tasks that disappeared
    from one side, and drop their mapping documents.
  - Two directional passes create the missing counterpart of each listed
    task, or copy a changed task's fields over to its counterpart.
- **The repository generation** is `app/syncers/google.py`,
  `app/syncers/notion.py` and `app/converters/__init__.py`.
  - Each side has a Mongo repository of internal copies. Each copy records
    the other side's id and the last sync time.
  - `GoogleSyncer` and `NotionSyncer` walk one side's listing. For each task
    they pull a newer remote edit, push a newer internal edit, or create the
    counterpart of a task seen for the first time.
  - When the parent of a subtask is not linked yet, they sync the parent
    first and retry.
  - Finally they sweep away the internal copies, and the counterparts, of
    tasks that were not listed.
  - The converters translate one side's task into the other's shape. They
    look up the list or bucket with the same title, the status in the status
    table, and the linked parent.

The remote services are values:

- Google Tasks and Notion are maps from task id to task.
- The Mongo collections are sequences in store order.
- The two syncers are classes whose `last_sync` and `synced_tasks` fields
  change in place.
- The repository generation's stores sit in a `Backend` object that the
  syncers update.
- Clocks are a `now` parameter.
- New remote ids come from a counter (`Basics.MintedId`).
- Every exception the source raises is a `Failure` value. A `SyncResult`
  says whether `sync_task` returned a task, returned `None`, or raised.

Files:

- `basics.dfy`: shared types, Python truthiness, first match.
- `mapper.dfy`: `app/models/mapper.py`.
- `field_sync.dfy`: `app/sync.py` lines 12-146.
- `sync_passes.dfy`: `app/sync.py` lines 149-294.
- `tasks.dfy`: the task records and stores of the repository generation.
- `converters.dfy`: `app/converters/__init__.py`.
- `google_syncer.dfy`: `app/syncers/google.py`.
- `notion_syncer.dfy`: `app/syncers/notion.py`.

## Model

| member | source | states |
|---|---|---|
| Mapper.KeyFilter | app/models/mapper.py:24-29 | the filter built from the two optional ids selects exactly the documents that agree on every id that is given (non-empty); with no id given it selects every document |
| Mapper.Get | app/models/mapper.py:24-35 | `TasksMapper.get` returns a stored document agreeing with every given id, and returns None exactly when no document agrees |
| Mapper.GetIsFirstSelected | app/models/mapper.py:31-33 | the document returned is the first one in store order that the filter selects |
| Mapper.GetWithoutIdsIsFirstRecord | app/models/mapper.py:24-35 | with no id given (or only empty ones) the filter is empty and `get` returns the first document, or None on an empty collection |
| Mapper.Find | app/models/mapper.py:38-40 | `find` returns exactly the stored documents the filter matches, never more than are stored |
| Mapper.FindAppend | app/models/mapper.py:38-40 | finding in a collection extended by `insert_one` is finding in the old part followed by finding in the new part |
| Mapper.Reject | app/models/mapper.py:43-45 | what `delete_many` leaves is exactly the unmatched documents, and left plus matched accounts for every document |
| Mapper.Updated | app/models/mapper.py:51-60 | `update_one` keyed on the pair of ids overwrites the first document with the same pair and no other; with no such document nothing changes; every document keeps its pair of ids |
| Mapper.TaskMapperTable.Create | app/models/mapper.py:47-49 | the new document is appended to the collection |
| Mapper.TaskMapperTable.Update | app/models/mapper.py:51-60 | the collection becomes `Updated` of the old one |
| Mapper.TaskMapperTable.DeleteMany | app/models/mapper.py:43-45 | the collection loses exactly the matched documents, and the returned deleted count is the number that `find` with the same filter would have returned |
| Mapper.GetBucket | app/models/mapper.py:64-76 | `ListBucketMapper.get` returns a stored list–bucket pair agreeing with every given id, or None exactly when none agrees |
| Mapper.GetBucketIsFirstSelected | app/models/mapper.py:72-74 | the pair returned is the first selected one in store order |
| Basics.FirstIndex | app/converters/__init__.py:12-14 | the first position whose element satisfies the test, and None exactly when no element does |
| Basics.FirstIsAtFirstIndex | app/converters/__init__.py:21-23 | the first match is the element at the first matching position |
| FieldSync.ConstructGoogleFromNotion | app/sync.py:12-26 | the new Google task is done exactly when the Notion status has the done id, otherwise to-do; it has the Notion title, details as notes, and the due date; it has no id, parent or modification time yet |
| FieldSync.MoveTarget | app/sync.py:45-60 | `move_parent` succeeds exactly when the provider holds the new parent, and the task's parent becomes that id |
| FieldSync.GoogleParentAfterUpdate | app/sync.py:43-60 | a task with no Notion parent is moved to the list's root (or stays there); a Notion subtask of an unmapped parent raises; otherwise the Google parent becomes the mapped parent's Google id |
| FieldSync.UpdateGoogleFromNotion | app/sync.py:31-62 | on success the Google task keeps its id and list and takes the Notion title, details, done-ness, due date and mapped parent; a task moved to an unmapped parent raises `Google parent task does not exist` |
| FieldSync.ConstructNotionFromGoogle | app/sync.py:64-88 | it fails exactly when the Google list has no linked bucket; on success the Notion task sits in the linked bucket and is synced now; it has the Google title, notes as details and due date; it is done exactly when the Google task is done, otherwise it is reset to the to-do status |
| FieldSync.UpdateNotionFromGoogle | app/sync.py:93-122 | the Notion task takes the Google title, notes and due date; the done status is set by a done Google task and reset to to-do when the Google task is reopened; it raises exactly when a Google subtask's parent is unmapped and the Notion task has no parent; otherwise the parent list is cleared, set to the mapped parent, or kept |
| FieldSync.DueOrNotesChanged | app/sync.py:125-132 | the due-date comparison raises exactly when Notion has a due date and Google has none; a "no change" answer means the due dates are at most a day apart and non-empty notes agree |
| FieldSync.CheckChangeAsWritten | app/sync.py:124-146 | as written, `check_change_notion_and_google_tasks` never answers "no change": the two status tests cannot both fail |
| FieldSync.CheckChange | app/sync.py:124-146 | corrected check: a mismatch in done-ness or title is a change; "no change" means the done-ness and the title agree, non-empty notes agree, the Notion due date is at most a day past the Google one, and neither side has a parent |
| FieldSync.RefreshedStillReportedChanged | app/sync.py:136-140 | as written, a Notion task just refreshed from a top-level Google task is still reported changed |
| FieldSync.AgreeingPairReportedChanged | app/sync.py:136-140 | a concrete pair that agrees on every field is reported changed as written and unchanged by the corrected check |
| FieldSync.RefreshedNeedsNoChange | app/sync.py:93-146 | with the corrected check, a Notion task refreshed from a top-level Google task needs no further change |
| SyncPasses.NotionGet | app/sync.py:180 | fetching a Notion task succeeds exactly when Notion holds the id, and returns that task with its id and parent list |
| SyncPasses.NotionCreate | app/sync.py:222 | `create` adds the task to Notion under a new id, stamped as modified now |
| SyncPasses.NotionWrite | app/sync.py:277 | `update` overwrites the task under its id, stamped now, and touches nothing else |
| SyncPasses.NotionDelete | app/sync.py:162 | deleting succeeds exactly when Notion holds the id, and removes it and nothing else |
| SyncPasses.GoogleGet | app/sync.py:286 | fetching a Google task succeeds exactly when the provider holds the id |
| SyncPasses.GoogleCreate | app/sync.py:28-29 | `create` adds the task under a new id, with no parent, stamped now |
| SyncPasses.GoogleMove | app/sync.py:266 | `move_parent` succeeds exactly when the task and the new parent exist, and changes only the task's parent |
| SyncPasses.GoogleWrite | app/sync.py:62 | `update` overwrites the task under its id, stamped now, and touches nothing else |
| SyncPasses.GoogleDelete | app/sync.py:183 | deleting succeeds exactly when the provider holds the id, and removes it and nothing else |
| SyncPasses.ListedIds | app/sync.py:158-174 | the ids of the listed Google or Notion tasks, position by position |
| SyncPasses.MappedIds | app/sync.py:165-175 | the Google or the Notion ids of the given mapping documents, position by position |
| SyncPasses.RejectAgrees | app/sync.py:156-167 | two filters that agree on every stored document leave the same documents |
| SyncPasses.PurgeNotionFilter | app/sync.py:156-167 | deleting with `$in` over the removed documents' Google ids removes exactly the documents whose Google id is not listed |
| SyncPasses.PurgeGoogleFilter | app/sync.py:174-189 | deleting with `$in` over the removed documents' Notion ids removes exactly the documents whose Notion id is not listed |
| SyncPasses.NotionIdsOf | app/sync.py:161-162 | the Notion ids of the given documents: every document's id is in it, and nothing else is |
| SyncPasses.StaleNotionIds | app/sync.py:156-162 | the Notion ids of the documents the `$nin` filter finds are exactly those of the stored documents whose Google id is not listed |
| SyncPasses.DeleteNotionTasks | app/sync.py:161-162 | when every delete succeeds, Notion is exactly the old Notion minus the removed documents' Notion ids; whatever happens, only those ids can disappear, surviving tasks are unchanged, and Google and the id counter are untouched |
| SyncPasses.PurgeTasksNotion | app/sync.py:149-168 | on success the table keeps exactly the documents whose Google task is still listed, the count is the number dropped, and Notion is exactly the old Notion minus the dropped documents' Notion ids; whatever happens, no other Notion task disappears or changes, Google is untouched, and on failure the table is unchanged |
| SyncPasses.PurgeTarget | app/sync.py:182 | the Google id of the first removed document with the given Notion id, and None exactly when there is none |
| SyncPasses.DeleteGoogleCounterpart | app/sync.py:180-183 | it succeeds exactly when the removed Notion task can still be fetched, its bucket has a linked list, and Google holds the target; then Google loses exactly that target; otherwise nothing changes |
| SyncPasses.DeleteGoogleCounterparts | app/sync.py:179-183 | when every delete succeeds, Google is exactly the old Google minus the targets of all removed documents; whatever happens, only targets can disappear, surviving tasks are unchanged, and Notion is untouched |
| SyncPasses.PurgeTasksGoogle | app/sync.py:170-190 | on success the table keeps exactly the documents whose Notion task is still listed, the count is the number dropped, and Google is exactly the old Google minus the targets of the dropped documents; whatever happens, every Google task that is not a target survives unchanged, Notion is untouched, and on failure the table is unchanged |
| SyncPasses.LinkNewGoogleTask | app/sync.py:207-229 | it fails exactly when the Google list has no linked bucket; a subtask of an unmapped parent is skipped with nothing written; otherwise the Notion task created under the new id is `ConstructNotionFromGoogle` of the Google task (title, notes, due, done-ness, bucket, sync time now) with the mapped parent, and a document linking the two ids, stamped now, is produced |
| SyncPasses.RefreshNotionTask | app/sync.py:231-242 | Google is untouched; a mapping to a missing Notion task fails; a change writes the Notion task as `UpdateNotionFromGoogle` of the fetched task with sync time now, and restamps the document; "no change" writes nothing |
| SyncPasses.RefreshSettles | app/sync.py:231-242 | after a refresh from a top-level Google task, the next pass finds nothing to change |
| SyncPasses.LinkNewNotionTaskAsWritten | app/sync.py:255-277 | as written, the Google task is created under a new id before the parent's mapping is looked up, so it exists even when the subtask is then skipped (no mapping, Notion untouched) or the move fails; it is exactly `ConstructGoogleFromNotion` of the Notion task stamped with sync time now (title, notes, due date, list and done-ness), at the root in those two cases and under the mapped parent otherwise; the counter advances by one; when linked, the Notion task is saved with sync time now and the two ids are linked |
| SyncPasses.AsWrittenLeavesUnlinkedGoogleTask | app/sync.py:258-269 | as written, a Notion subtask of an unmapped parent adds a Google task that no document links |
| SyncPasses.AsWrittenOrphansPileUp | app/sync.py:258-269 | as written, two passes over such a subtask leave two distinct unlinked Google tasks carrying its title |
| SyncPasses.LinkNewNotionTask | app/sync.py:255-277 | corrected: a subtask of an unmapped parent is skipped with nothing written; otherwise the Google task created under the new id is `ConstructGoogleFromNotion` of the Notion task under the mapped parent, it is linked, and the Notion task is saved with its sync time; a failing move keeps the created task, unlinked; no other Google task appears |
| SyncPasses.RefreshGoogleTask | app/sync.py:283-294 | a task synced at or after its last edit is left alone; otherwise its Google counterpart is overwritten with `UpdateGoogleFromNotion` of the fetched Google task, the Notion task is saved with sync time now and the document is restamped; an update that raises is skipped |
| SyncPasses.MappedStaysMapped | app/models/mapper.py:24-35 | once `get` finds a document, it still finds one after the table only grew and kept its pairs of ids |
| SyncPasses.UpdatedKeepsKeys | app/models/mapper.py:51-60 | `update_one` keeps the pairs of ids, and each document is either unchanged or the new one |
| SyncPasses.TouchedTrans | app/sync.py:224-242 | "changed only by stamping now" composes along a pass |
| SyncPasses.AppendedGoogleStep | app/sync.py:204-229 | documents appended while handling a listed Google task carry a listed Google id |
| SyncPasses.AppendedNotionStep | app/sync.py:251-276 | documents appended while handling a listed Notion task carry a listed Notion id |
| SyncPasses.AppendTouches | app/models/mapper.py:47-49 | inserting a document stamped now keeps the pairs of ids and touches only by stamping now |
| SyncPasses.UpdateTouches | app/models/mapper.py:51-60 | updating with a document stamped now keeps the pairs of ids and touches only by stamping now |
| SyncPasses.GoogleToNotionTaskState | app/sync.py:205-242 | one Google task as a value: an unmapped task takes `LinkNewGoogleTask` and its document is appended, a mapped one takes `RefreshNotionTask` and its document updated; the table only grows, is only stamped with now, appends only this Google id; Google is untouched; on success a top-level task is mapped |
| SyncPasses.GoogleToNotionPass | app/sync.py:201-242 | the listed Google tasks one after the other, stopping at the first that raises; the table only grows and is only stamped with now; Google is untouched |
| SyncPasses.GoogleToNotionPassStep | app/sync.py:204-242 | a pass still going after a prefix of the listing continues with the next task's `GoogleToNotionTaskState` |
| SyncPasses.GoogleToNotionPassStops | app/sync.py:204-242 | once a prefix of the listing has raised, the rest of the listing changes nothing |
| SyncPasses.LinkGoogleTaskStep | app/sync.py:207-229 | the new providers' state and the verdict are `LinkNewGoogleTask`'s, and the table gains exactly its document, if any; Google is untouched; a top-level task ends up mapped |
| SyncPasses.RefreshNotionStep | app/sync.py:231-242 | the new providers' state and the verdict are `RefreshNotionTask`'s, and the table is updated with exactly its document, if any; Google is untouched; the task stays mapped |
| SyncPasses.GoogleToNotionTaskStep | app/sync.py:205-242 | one Google task: the providers, the table and the verdict are exactly `GoogleToNotionTaskState`; the table only grows, is only touched by stamping now, and appends only this Google id; a top-level task ends up mapped |
| SyncPasses.GoogleToNotionSync | app/sync.py:194-242 | with no list titled "Work" nothing is written; otherwise the providers, the table and the verdict are exactly `GoogleToNotionPass` over the listed tasks, and every listed top-level Google task ends up mapped; the table only grows, only with listed ids, and existing documents are only restamped with now; Google is untouched |
| SyncPasses.ParentsKeptTrans | app/sync.py:245-294 | "every Notion task is kept with its parent list" composes along a pass |
| SyncPasses.NotionToGoogleTaskState | app/sync.py:252-294 | one Notion task as a value: a missing task raises; an unmapped task takes `LinkNewNotionTask` and its document is appended, a mapped one takes `RefreshGoogleTask` and its document updated; the table only grows, is only stamped with now, appends only this Notion id; Notion tasks keep their parents; on success the task is mapped unless it is a subtask |
| SyncPasses.NotionTasksPass | app/sync.py:251-294 | a bucket's tasks one after the other, stopping at the first that raises; a linked task stays linked, and on success every one of them is on the Notion side and mapped unless it is a subtask; appended documents carry one of these ids |
| SyncPasses.NotionBucketPass | app/sync.py:249-294 | a bucket without a linked list stops the pass with nothing written; otherwise its tasks go through `NotionTasksPass` against the linked list |
| SyncPasses.NotionToGooglePass | app/sync.py:249-294 | the listed buckets one after the other, stopping at the first that raises; the table only grows and is only stamped with now; Notion tasks keep their parents |
| SyncPasses.NotionTasksPassStep | app/sync.py:251-294 | a bucket's pass still going after a prefix of its tasks continues with the next task's `NotionToGoogleTaskState` |
| SyncPasses.NotionTasksPassStops | app/sync.py:251-294 | once a prefix of a bucket's tasks has raised, its other tasks change nothing |
| SyncPasses.NotionToGooglePassStep | app/sync.py:249-294 | the pass still going after a prefix of the buckets continues with the next bucket's `NotionBucketPass` |
| SyncPasses.NotionToGooglePassStops | app/sync.py:249-294 | once a prefix of the buckets has raised, the other buckets change nothing |
| SyncPasses.LinkedStays | app/sync.py:251-294 | a Notion task that is on the Notion side and mapped stays so while the table's keys only grow and Notion keeps its tasks |
| SyncPasses.AppendedNotionTrans | app/sync.py:249-276 | "appended documents carry a listed Notion id" composes along a pass |
| SyncPasses.NotionBucketTasks | app/sync.py:251-294 | the providers, the table and the verdict after one bucket's tasks are exactly `NotionTasksPass` from the state before |
| SyncPasses.LinkNotionTaskStep | app/sync.py:255-277 | the new providers' state and the verdict are `LinkNewNotionTask`'s (a failing move keeps the created Google task) and the table gains exactly its document, if any; Notion tasks keep their parents; on success the task is mapped unless it is a subtask |
| SyncPasses.RefreshGoogleStep | app/sync.py:283-294 | the new providers' state and the verdict are `RefreshGoogleTask`'s, and the table is updated with exactly its document, if any; Notion tasks keep their parents; the task stays mapped |
| SyncPasses.NotionToGoogleTaskStep | app/sync.py:252-294 | one Notion task: the providers, the table and the verdict are exactly `NotionToGoogleTaskState`; the table only grows, is only touched by stamping now, and appends only this Notion id; on success the task is mapped unless it is a subtask |
| SyncPasses.NotionToGoogleSync | app/sync.py:245-294 | the providers, the table and the verdict are exactly `NotionToGooglePass` over the listed buckets; on success every listed Notion task is on the Notion side and mapped unless it is a subtask; the table only grows, only with listed ids, and existing documents are only restamped with now; Notion tasks keep their parents |
| Tasks.GoogleWithContent | app/syncers/notion.py:37-41 | `update_from_params` with the internal fields excluded: ids, sync and modification times stay, and the content is taken over |
| Tasks.NotionWithContent | app/syncers/google.py:38-42 | the same for a Notion copy |
| Tasks.KeyIndex | app/syncers/google.py:28 | the first position whose key equals the wanted one, and None exactly when there is none |
| Tasks.Where | app/syncers/google.py:103-106 | the stored tasks whose key is in the given list, and only those |
| Tasks.Upsert | app/syncers/google.py:44 | `save` leaves the task findable under its key, replaces the first task with that key or appends, and keeps every task with another key |
| Tasks.RemoveFirst | app/syncers/google.py:116 | `delete_one` drops one task with the key if there is one, and keeps every task with another key |
| Tasks.RemoveFirstKeeps | app/syncers/google.py:104-116 | deleting a task whose key is not among the kept ids leaves the kept tasks as they were |
| Tasks.FindGoogle | app/syncers/google.py:28 | `next(find(google_id=...))`: a stored copy with that id, and None exactly when there is none |
| Tasks.FindGoogleIn | app/converters/__init__.py:46-49 | a stored copy with that id in that list, and None exactly when there is none |
| Tasks.FindNotion | app/syncers/google.py:36 | `next(find(notion_id=...))`: a stored copy with that id, and None exactly when there is none |
| Tasks.SaveGoogle | app/syncers/google.py:44 | after `save` the copy is found under its id; other copies stay; nothing else appears; every id found before is still found |
| Tasks.SaveNotion | app/syncers/google.py:77 | after `save` the copy is found under its id; other copies stay; nothing else appears; every id found before is still found |
| Tasks.DeleteOneGoogle | app/syncers/google.py:116 | `delete_one` on the Google id drops one copy if any, keeping the others, so every other id is still found |
| Tasks.DeleteOneNotion | app/syncers/google.py:115 | `delete_one` on the Notion id drops one copy if any, keeping the others, so every other id is still found |
| Tasks.GoogleSave | app/syncers/google.py:53 | `google_save` creates a task without an id under a new id, or updates an existing one, failing on an unknown id; the remote holds the saved task stamped now; its set of ids grows only by a new id |
| Tasks.NotionSave | app/syncers/google.py:73 | `notion_save` does the same on the Notion side |
| Tasks.GoogleFetch | app/syncers/google.py:34 | `fetch` fails exactly when the copy has no id or the remote lacks it; otherwise it takes the remote content and modification time and keeps the internal fields |
| Tasks.NotionFetch | app/syncers/notion.py:33 | the same on the Notion side |
| Tasks.GoogleGet | app/syncers/google.py:83-84 | `GoogleTasks.get` fails exactly on an unknown id; the task comes back without internal fields |
| Tasks.NotionGet | app/syncers/notion.py:81 | `NotionTasks.get` fails exactly on an unknown id; the task comes back without internal fields |
| Tasks.GoogleDelete | app/syncers/notion.py:111 | `google_delete` fails exactly on an unknown id, and removes only that task |
| Tasks.NotionDelete | app/syncers/google.py:114 | `notion_delete` fails exactly on an unknown id, and removes only that task |
| Converters.NotionToGoogleStatus | app/converters/__init__.py:11-17 | the Google status of the first table entry for the Notion status id, and to-do when there is none |
| Converters.GoogleToNotionStatus | app/converters/__init__.py:20-23 | the Notion status of the first table entry for the Google status, and None exactly when there is none |
| Converters.TitleOf | app/converters/__init__.py:36-37 | the title stored for an id, and None exactly when the id is unknown |
| Converters.IdOf | app/converters/__init__.py:36-37 | the id stored under a title, and None exactly when no entry has that title |
| Converters.TasklistFor | app/converters/__init__.py:36-37 | the Google list found has the same title as the bucket, and there is none exactly when the bucket id is unknown or no list bears the first matching bucket's title |
| Converters.BucketFor | app/converters/__init__.py:85-86 | the bucket found has the same title as the Google list, and there is none exactly when the list id is unknown or no bucket bears the first matching list's title |
| Converters.GoogleParentOf | app/converters/__init__.py:39-52 | the Google parent is found exactly when the Notion parent has an internal copy, and is that copy's Google id when it sits in the target list |
| Converters.NotionToGoogleTask | app/converters/__init__.py:26-71 | an unknown bucket title fails; the conversion raises `RuntimeError` exactly when the Notion parent has no internal copy or no Google copy in the list; a task without a status fails exactly when the status table has a row to compare with, and gets to-do when it is empty; on success the Google task lies in the list with the bucket's title and carries the title, notes, sync time, ids, mapped status, due day and linked parent |
| Converters.NotionParentOf | app/converters/__init__.py:88-96 | the Notion parent is found exactly when the Google parent has an internal copy, and carries that copy's Notion id |
| Converters.GoogleToNotionTask | app/converters/__init__.py:74-118 | an unknown list title fails; the conversion raises `RuntimeError` exactly when the Google parent is not linked internally; the conversion succeeds exactly when the list has a bucket and the task has no parent or a parent whose internal copies lead to a Notion id; on success the Notion task lies in the bucket with the list's title and carries the title, notes, sync time, ids, mapped status, due date without time of day, and linked parent |
| Converters.BucketRoundTrip | app/converters/__init__.py:36-37 | with titles unique on both sides, going from a bucket to its list and back gives the same bucket |
| Converters.StatusRoundTrip | app/converters/__init__.py:11-23 | with a one-to-one status table, a Google status mapped to Notion and back is itself |
| Converters.NotionRoundTrip | app/converters/__init__.py:26-118 | converting a Notion task to Google and back keeps the title, notes, sync time, both ids and the due day, with the time of day dropped; with unique titles it keeps the bucket; with a one-to-one status table it keeps the status's meaning; a task without a status comes back without one |
| GoogleSyncing.PullFromGoogle | app/syncers/google.py:30-46 | a newer Google edit is fetched into the internal copy: the remote content and modification time, internal ids kept, synced now; the remote is untouched; the linked Notion task becomes its content-refreshed self with the converted Google task's content, stamped now, and Notion gains no task; nothing is deleted: both providers keep every task, both repositories keep every internal copy, and the id counter never goes back |
| GoogleSyncing.PushToGoogle | app/syncers/google.py:48-61 | an older Google task is overwritten from the internal copy, stamped now; both internal copies are stamped synced now; Notion is untouched; nothing is deleted: both providers keep every task, both repositories keep every internal copy, and the id counter never goes back |
| GoogleSyncing.SyncExisting | app/syncers/google.py:26-65 | with no internal copy, or a missing time, the existing path fails; a newer Google task is pulled and a newer internal copy is pushed; equal times change nothing; the internal copy is found afterwards and nothing is deleted: both providers keep every task, both repositories keep every internal copy, and the id counter never goes back |
| GoogleSyncing.SyncExistingAsWritten | app/syncers/google.py:26-67 | as written, the pull branch always ends in the bare `except:`; the other branches are those of `SyncExisting` |
| GoogleSyncing.SyncNew | app/syncers/google.py:70-78 | the new path raises `RuntimeError` exactly when the converter does, and only for a subtask; it succeeds exactly when the conversion and the Notion save both do; the created Notion task is exactly the converted task under its new id, stamped now, and its internal copy is that task; the two copies point at each other, Notion gains exactly that id, and nothing is deleted |
| GoogleSyncing.PullSettles | app/syncers/google.py:30-65 | after a pull the same listing finds the internal copy up to date |
| GoogleSyncing.EditedTaskRefreshesLinkedNotionTask | app/syncers/google.py:30-46 | corrected pull: the edited task refreshes the Notion task it is linked to, keeps the link, and Notion gains no task |
| GoogleSyncing.EditedTaskDuplicatedAsWritten | app/syncers/google.py:38-78 | as written, a task edited in Google creates a second Notion task and re-points its internal copy at it, leaving the old Notion task behind |
| GoogleSyncing.PushedTaskPulledNextPass | app/syncers/google.py:30-61 | a push stamps the Google task newer than its internal copy, so the next pass over it is a pull, and with the pull as written it falls to the new-task path |
| GoogleSyncing.SyncedIds | app/syncers/google.py:103 | the Google ids of the synced tasks, position by position |
| GoogleSyncing.SyncedIdsGrow | app/syncers/google.py:86-101 | appending to `synced_tasks` keeps every synced id |
| GoogleSyncing.SweepOneGoogle | app/syncers/google.py:105-124 | one sweep step keeps every copy whose id was synced and the Google remote; a synced copy changes nothing; an unsynced copy with a linked Notion task deletes that task in Notion and both internal copies; a missing Notion copy or a failed delete is logged and skipped; a Notion task that had an internal copy or was already gone stays so |
| GoogleSyncing.SweepGoogle | app/syncers/google.py:105-124 | the whole sweep keeps every synced copy, only removes, never touches the Google remote, and changes nothing when every stored copy was synced |
| GoogleSyncing.SweepDeletesUnsynced | app/syncers/google.py:103-124 | after the whole sweep, every pending copy whose Google id was not synced and whose Notion task had an internal copy (or was already gone) has that Notion task deleted in Notion; no other Notion task stops being accounted for |
| GoogleSyncing.GoogleSyncer.constructor | app/syncers/google.py:19-21 | no last sync and no synced tasks |
| GoogleSyncing.GoogleSyncer.SyncTask | app/syncers/google.py:23-93 | when the existing path applies its result is returned; otherwise the new path's result is returned; an error of the new path other than `RuntimeError` aborts with the stores unchanged; the task is skipped exactly when its parent is unlinked and fixing is off, and then nothing changes; when the parent had to be fixed, a synced task has its parent recorded in `synced_tasks`; a synced task is found in the repository; whatever the path, nothing is deleted: both providers keep every task, both repositories keep every internal copy, and the id counter never goes back |
| GoogleSyncing.GoogleSyncer.FixParentAndRetry | app/syncers/google.py:80-89 | after syncing the parent, the retry never skips; a synced task is found under its id and its parent's id is among the synced ids; nothing is deleted on either service or in either repository, through the parent's sync and the retry |
| GoogleSyncing.GoogleSyncer.SyncListedTask | app/syncers/google.py:100 | a listed task is never skipped, `synced_tasks` only grows, a synced task is found under its id, and nothing is deleted on either service or in either repository |
| GoogleSyncing.GoogleSyncer.WalkListed | app/syncers/google.py:99-101 | the loop over the listed tasks: `synced_tasks` only grows; on success every listed id is among the synced ids and has an internal copy; whether it succeeds or not, nothing is deleted on either service or in either repository |
| GoogleSyncing.GoogleSyncer.SweepRepository | app/syncers/google.py:105-124 | the stores become `SweepGoogle` over the repository as it stood, and every unsynced copy in it that points at an accounted-for Notion task has that task deleted in Notion |
| GoogleSyncing.GoogleSyncer.Sync | app/syncers/google.py:95-126 | on success `last_sync` is now and every listed id is among the synced ids; the state the sweep starts from still holds every task on both services, every internal copy the pass began with, and one copy for each listed task; the stores are the sweep of it, which deletes in Notion the counterpart of every copy that was not synced; on an escaping exception `last_sync` is unchanged and nothing has been deleted |
| NotionSyncing.PullFromNotion | app/syncers/notion.py:29-45 | a newer Notion edit is fetched into the internal copy: the remote content and modification time, internal ids kept, synced now; the Notion remote is untouched; the linked Google task becomes its content-refreshed self with the converted Notion task's content, stamped now, and Google gains no task; nothing is deleted: both providers keep every task, both repositories keep every internal copy, and the id counter never goes back |
| NotionSyncing.PushToNotion | app/syncers/notion.py:47-59 | an older Notion task is overwritten from the internal copy, stamped now; both internal copies are stamped synced now; Google is untouched; nothing is deleted: both providers keep every task, both repositories keep every internal copy, and the id counter never goes back |
| NotionSyncing.SyncExisting | app/syncers/notion.py:25-63 | with no internal copy, or a missing time, the existing path fails; a newer Notion task is pulled and a newer internal copy is pushed; equal times change nothing; the internal copy is found afterwards and nothing is deleted: both providers keep every task, both repositories keep every internal copy, and the id counter never goes back |
| NotionSyncing.SyncNew | app/syncers/notion.py:68-76 | the new path raises `RuntimeError` exactly when the converter does, and only for a subtask; it succeeds exactly when the conversion and the Google save both do; the created Google task is exactly the converted task under its new id, stamped now, and its internal copy is that task; the two copies point at each other, Google gains exactly that id, and nothing is deleted |
| NotionSyncing.PullSettles | app/syncers/notion.py:29-63 | after a pull the same listing finds the internal copy up to date |
| NotionSyncing.EditedTaskRefreshesLinkedGoogleTask | app/syncers/notion.py:29-45 | an edited Notion task refreshes the Google task it is linked to and keeps the link |
| NotionSyncing.SyncedIds | app/syncers/notion.py:101 | the Notion ids of the synced tasks, position by position |
| NotionSyncing.SyncedIdsGrow | app/syncers/notion.py:83-99 | appending to `synced_tasks` keeps every synced id |
| NotionSyncing.SweepOneNotion | app/syncers/notion.py:103-121 | one sweep step keeps every copy whose id was synced and the Notion remote; an unsynced copy with a linked Google task deletes that task in Google and both internal copies; a failure is logged and skipped; a Google task that had an internal copy or was already gone stays so |
| NotionSyncing.SweepNotion | app/syncers/notion.py:103-121 | the whole sweep keeps every synced copy, only removes, never touches the Notion remote, and changes nothing when every stored copy was synced |
| NotionSyncing.SweepDeletesUnsynced | app/syncers/notion.py:101-121 | after the whole sweep, every pending copy whose Notion id was not synced and whose Google task had an internal copy (or was already gone) has that Google task deleted in Google; no other Google task stops being accounted for |
| NotionSyncing.NotionSyncer.constructor | app/syncers/notion.py:18-20 | no last sync and no synced tasks |
| NotionSyncing.NotionSyncer.SyncTask | app/syncers/notion.py:22-90 | when the existing path applies its result is returned; otherwise the new path's result is returned; an error of the new path other than `RuntimeError` aborts with the stores unchanged; the task is skipped exactly when its parent is unlinked and fixing is off, and then nothing changes; when the parent had to be fixed, a synced task has its first parent recorded in `synced_tasks`; a synced task is found in the repository; whatever the path, nothing is deleted: both providers keep every task, both repositories keep every internal copy, and the id counter never goes back |
| NotionSyncing.NotionSyncer.FixParentAndRetry | app/syncers/notion.py:78-86 | after syncing the first parent, the retry never skips; a synced task is found under its id and its first parent's id is among the synced ids; nothing is deleted on either service or in either repository, through the parent's sync and the retry |
| NotionSyncing.NotionSyncer.SyncListedTask | app/syncers/notion.py:98 | a listed task is never skipped, `synced_tasks` only grows, a synced task is found under its id, and nothing is deleted on either service or in either repository |
| NotionSyncing.NotionSyncer.WalkListed | app/syncers/notion.py:97-99 | the loop over the listed tasks: `synced_tasks` only grows; on success every listed id is among the synced ids and has an internal copy; whether it succeeds or not, nothing is deleted on either service or in either repository |
| NotionSyncing.NotionSyncer.SweepRepository | app/syncers/notion.py:103-121 | the stores become `SweepNotion` over the repository as it stood, and every unsynced copy in it that points at an accounted-for Google task has that task deleted in Google |
| NotionSyncing.NotionSyncer.Sync | app/syncers/notion.py:93-123 | on success `last_sync` is now and every listed id is among the synced ids; the state the sweep starts from still holds every task on both services, every internal copy the pass began with, and one copy for each listed task; the stores are the sweep of it, which deletes in Google the counterpart of every copy that was not synced; on an escaping exception `last_sync` is unchanged and nothing has been deleted |

## Left out

- Network access is left out: the Google Tasks and Notion HTTP APIs, OAuth, and the Mongo connection. The services are maps and sequences passed in and returned.
- The clock is left out: `datetime.now()` is a `now` parameter, one value per call or pass.
- New remote ids are left out: they come from a counter. The model does not prove that such an id differs from the ids the service already holds; lemmas that need this take it as a precondition.
- Logging is left out: the `print` and `logger` calls, and the `deleted_count` checks in the sweeps (google.py:118-121, notion.py:115-118), which only log.
- The `mongomantic` repository and the pydantic task models behind `save`, `fetch`, `update_from_params` and `dict()` are not part of this model. `Tasks` defines them as the syncers rely on them: `save` is an upsert on the side's own id, and `fetch` takes the remote content and keeps the internal fields.
- `GoogleTaskRepository` is imported from app/models/mongo.py, which does not define it. The model treats it as the Google counterpart of `NotionTaskRepository`.
- google.py:45 saves the Notion copy through `GoogleTaskRepository.save`. The model leaves that save out, so the Notion repository keeps its previous copy.
- The tasklist argument of `GoogleTasks.get` and `GoogleTask.delete` is ignored: Google ids are unique across lists in the keyed map.
- GoogleSyncing.GoogleSyncer.SyncTask: the recursion for unlinked parents is bounded by a `fuel` parameter. Running out of fuel is modelled as `Aborted`, the `RecursionError` that escapes every handler. The same holds for `SyncListedTask`, `FixParentAndRetry`, `Sync` and their NotionSyncing mirrors.
- GoogleSyncing.GoogleSyncer.Sync: `Skipped` cannot happen inside `sync`, because the recursive calls use the default `fix_parent=True`. The `AttributeError` at google.py:103 on a `None` entry therefore cannot occur, and is not modelled. The same holds for NotionSyncing.NotionSyncer.Sync.
- GoogleSyncing.GoogleSyncer.SweepRepository: the sweep walks a snapshot of the repository taken when it starts, not a live Mongo cursor. The same holds for NotionSyncing.NotionSyncer.SweepRepository.
- The status table of `settings.status_mapper` is a sequence of typed entries. A malformed entry (a `KeyError` or a bad `GoogleStatus` value) is not modelled.
- Converters.GoogleToNotionTask: a Google parent whose internal copy has no Notion id is looked up with a `None` id. When that lookup finds a Notion copy with no id, the converter builds `parent_task_ids` holding `None`. The pydantic `NotionTask` model that would reject it is not part of this model. The model treats this as a failing validation: `Fault`, not the `RuntimeError` of a missing parent, because it happens after the `try` block at app/converters/__init__.py:91-98.
- Converters.NotionToGoogleTask: a Notion parent whose internal copy has no Google id is looked up with a `None` id, as the source does. When a Google copy with no id sits in the list, the task gets no parent.
- SyncPasses.RefreshNotionTask: runs the corrected change check `FieldSync.CheckChange`, not the check as written at app/sync.py:136-140. As written every mapped task is rewritten on every pass (`FieldSync.RefreshedStillReportedChanged`). Its "no change writes nothing" clause and `SyncPasses.RefreshSettles` hold only for the corrected check.
- SyncPasses.RefreshNotionStep: built on `SyncPasses.RefreshNotionTask`, so it runs the corrected change check, not the one at app/sync.py:136-140.
- SyncPasses.GoogleToNotionTaskStep: built on `SyncPasses.RefreshNotionTask`, so it runs the corrected change check, not the one at app/sync.py:136-140.
- SyncPasses.GoogleToNotionSync: built on `SyncPasses.RefreshNotionTask`, so it runs the corrected change check, not the one at app/sync.py:136-140.
- SyncPasses.LinkNotionTaskStep: built on the corrected `SyncPasses.LinkNewNotionTask`, which looks the parent up before creating anything. The order as written is `SyncPasses.LinkNewNotionTaskAsWritten`. The step does not show the unlinked Google task that order leaves behind for a skipped subtask.
- SyncPasses.NotionToGoogleTaskStep: built on the corrected `SyncPasses.LinkNewNotionTask`, so it does not show the unlinked Google tasks of the order as written.
- SyncPasses.NotionToGoogleSync: built on the corrected `SyncPasses.LinkNewNotionTask`, so it does not show the unlinked Google tasks of the order as written. `SyncPasses.AsWrittenOrphansPileUp` shows them.
- SyncPasses.GoogleToNotionTaskState: built on `SyncPasses.RefreshNotionTask`, so it runs the corrected change check, not the one at app/sync.py:136-140.
- SyncPasses.GoogleToNotionPass: built on `SyncPasses.GoogleToNotionTaskState`, so it runs the corrected change check.
- SyncPasses.NotionToGoogleTaskState: built on the corrected `SyncPasses.LinkNewNotionTask`, so it does not show the unlinked Google tasks of the order as written.
- SyncPasses.NotionTasksPass: built on `SyncPasses.NotionToGoogleTaskState`, so it follows the corrected order.
- SyncPasses.NotionBucketPass: built on `SyncPasses.NotionTasksPass`, so it follows the corrected order.
- SyncPasses.NotionToGooglePass: built on `SyncPasses.NotionBucketPass`, so it follows the corrected order.
- SyncPasses.NotionBucketTasks: built on `SyncPasses.NotionToGoogleTaskStep`, so it follows the corrected order.
- GoogleSyncing.GoogleSyncer.SyncTask: on the parent fix-up path the contract states that nothing is deleted, that the parent is recorded and that a synced task is found under its id; what the parent's sync and the retry write is not given as a function of the old state, because `sync_task` recurses through the repository and the services without a value-level counterpart in this model. The same holds for `FixParentAndRetry`, `SyncListedTask`, `WalkListed` and `Sync`, and for their NotionSyncing mirrors.
- GoogleSyncing.GoogleSyncer.FixParentAndRetry: does not give the stores after the parent's sync and the retry as a function of the old state. It states that nothing is deleted, the parent is recorded and the retry never skips. The same holds for NotionSyncing.NotionSyncer.FixParentAndRetry.
- GoogleSyncing.GoogleSyncer.SyncListedTask: outside the existing-task and new-task paths, which `SyncTask` pins, its contract states only that nothing is deleted and that a synced task is found under its id. The same holds for NotionSyncing.NotionSyncer.SyncListedTask.
- GoogleSyncing.GoogleSyncer.Sync: the state the sweep starts from is constrained by what the walk cannot do (delete anything) and by what it must do (record and keep a copy of every listed task), not by an exact value. The same holds for NotionSyncing.NotionSyncer.Sync.
- NotionSyncing.NotionSyncer.SyncTask: on the parent fix-up path the contract states that nothing is deleted, that the first parent is recorded and that a synced task is found under its id; the writes of that path are not given as a function of the old state, as for the Google syncer.
- NotionSyncing.NotionSyncer.FixParentAndRetry: states that nothing is deleted, the first parent is recorded and the retry never skips, not the stores it ends with.
- NotionSyncing.NotionSyncer.SyncListedTask: outside the paths `SyncTask` pins, states only that nothing is deleted and that a synced task is found under its id.
- NotionSyncing.NotionSyncer.Sync: the state the sweep starts from is constrained by what the walk cannot delete and must record, not by an exact value.
- GoogleSyncing.GoogleSyncer.SyncTask: built on the corrected `GoogleSyncing.SyncExisting`, whose pull passes `exclude`. As written (app/syncers/google.py:38-42), a task edited in Google goes down the new-task path instead: `GoogleSyncing.SyncExistingAsWritten` and `GoogleSyncing.EditedTaskDuplicatedAsWritten`.
- GoogleSyncing.GoogleSyncer.FixParentAndRetry: built on `GoogleSyncing.GoogleSyncer.SyncTask`, so it uses the corrected pull.
- GoogleSyncing.GoogleSyncer.SyncListedTask: built on `GoogleSyncing.GoogleSyncer.SyncTask`, so it uses the corrected pull.
- GoogleSyncing.GoogleSyncer.WalkListed: built on `GoogleSyncing.GoogleSyncer.SyncTask`, so it uses the corrected pull.
- GoogleSyncing.GoogleSyncer.Sync: built on `GoogleSyncing.GoogleSyncer.SyncTask`, so it uses the corrected pull.
- Dates are day numbers and times integers. Time zones and the Notion `datetime()` conversion are left out, except that a Google due date reaches Notion without a time of day.

## Findings

| source | as written | input that shows it | evidently intended | confidence | as-written member | corrected member |
|---|---|---|---|---|---|---|
| app/sync.py:136-140 | the two status tests `not (done and done)` and `not (not done and not done)` cannot both be false, so the function never gets past line 140 and always reports a change | a Google task and a Notion task that agree on every field (`FieldSync.AgreeingPairReportedChanged`) | report a change only when the done-ness differs, then go on to the title and parent tests | high (not executed) | FieldSync.CheckChangeAsWritten (FieldSync.RefreshedStillReportedChanged) | FieldSync.CheckChange (FieldSync.RefreshedNeedsNoChange, SyncPasses.RefreshSettles) |
| app/sync.py:258-269 | `create_google_task_from_notion` runs before the parent's mapping is looked up; when the parent is unmapped the loop `continue`s, leaving a Google task no mapping document links | a Notion subtask whose parent has no mapping document (`SyncPasses.AsWrittenLeavesUnlinkedGoogleTask`); each later pass adds one more copy (`SyncPasses.AsWrittenOrphansPileUp`) | look the parent up first and create nothing for a skipped subtask, as `google_to_notion_sync` does at lines 211-222 | high (not executed) | SyncPasses.LinkNewNotionTaskAsWritten (SyncPasses.AsWrittenOrphansPileUp) | SyncPasses.LinkNewNotionTask |
| app/syncers/google.py:38-42 | `.dict(exlude=...)` passes a keyword pydantic's `dict()` does not accept; the `TypeError` is caught by the bare `except:` at line 67; the edited task then goes down the new-task path | a Google task edited after its last sync whose internal copy links a Notion task (`GoogleSyncing.EditedTaskDuplicatedAsWritten`) | `exclude=...`, as in notion.py:39, so the linked Notion task is refreshed | medium (not executed; assumes pydantic's keyword-only `dict()`) | GoogleSyncing.SyncExistingAsWritten (GoogleSyncing.EditedTaskDuplicatedAsWritten) | GoogleSyncing.SyncExisting (GoogleSyncing.EditedTaskRefreshesLinkedNotionTask) |
