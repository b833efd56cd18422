# Task store and dashboard queries, modelled in Dafny

The application is a client-side task manager. One service owns the ordered
collection of tasks (`_tasks`), and every view reads that collection and
changes it only through the service. The service can add a task in front,
change the status of a task by id, merge a partial update into a task by id,
delete by id, look a task up by id, and replace the whole collection from
imported JSON. After every change it writes the whole collection to a
browser storage slot. On start-up it reads the collection back from that
slot, or uses four example tasks when the slot holds nothing usable. The
dashboard shows a filtered view of the collection: a case-insensitive search
on title or description, then an exact status filter, then an exact priority
filter. It also shows counts by status.

The model has three modules:

- `Seqs` (`seqs.dfy`): `Map`, `Filter` and `Find` with the meaning of the
  JavaScript array methods. Each carries the contract that characterises it:
  pointwise for `map`, and for `filter` the kept elements with every
  occurrence, in their order. `Find` returns the first element that
  satisfies the predicate. The module also holds the generic lemmas about
  them (filters compose, filters commute with lookup, and so on).
- `TaskService` (`task_service.dfy`): the `Task`, `Draft` (the argument of
  `addTask`) and `Patch` (a `Partial<Task>`) values. It has one pure
  transform per operation and the two classes. `StorageSlot` is the durable
  entry. `TaskStore` has the `tasks` field and one method per operation;
  each method states the new collection and the new slot content in terms of
  the old ones. The module also holds the lemmas that relate the operations.
- `Dashboard` (`dashboard.dfy`): the three filter fields as a `Filters`
  value, `FilteredTasks`, the status counts, ASCII lower-casing, and
  `Includes` (`String.prototype.includes`).

The clock is a parameter: every operation that stamps a time takes `now`
(milliseconds since the epoch). Parsing JSON is abstracted to its outcome: an
`Option<seq<Task>>`, where `None` means the text did not parse, parsed to
something other than an array, or held an element whose timestamps could not
be read (such as `null`).
The slot holds what a later load would decode. Saving writes the collection
with both timestamps cut to whole seconds (`Persisted`), because the source
stores them as date-and-time strings with second precision and parses them
back.

Four places where the code does less than its names suggest; the model
follows the code:

- `addTask` takes its id from the clock and does not check that it is unique
  (`AddMayDuplicateId`).
- `updateTask` lets a patch overwrite `id` and `createdAt`.
- The store keeps a draft's description and due date as given. The defaults
  ("No Description provided", today + 7 days) are filled in by the home form,
  which is not part of this model.
- A stored empty list loads as an empty collection, not as the seed tasks.

## Model

| member | source | states |
|---|---|---|
| `Seqs.Map` | src/app/services/task.service.ts:119-121 | `tasks.map(...)` keeps the length and applies the function at every position |
| `Seqs.Filter` | src/app/dashboard/dashboard.component.ts:53-66 | `filter` keeps exactly the elements that pass, with every occurrence (multiset counts), as a subsequence in the original order |
| `Seqs.Find` | src/app/services/task.service.ts:138 | `find` returns nothing exactly when no element passes; otherwise it returns a passing element of the sequence, namely the one at the first passing index |
| `TaskService.NewTask` | src/app/services/task.service.ts:102-107 | the new task keeps every draft field (its draft part is the draft), and its id, `createdAt` and `lastUpdated` are the clock value |
| `TaskService.FindById` | src/app/services/task.service.ts:137-139 | lookup finds nothing exactly when no task has the id; otherwise it finds a task of the collection with that id, the first in order |
| `TaskService.SetStatusById` | src/app/services/task.service.ts:119-121 | same length and order; each task with the id gets the new status and `lastUpdated`, with its other fields unchanged; other tasks are unchanged; an unknown id changes nothing |
| `TaskService.UpdateById` | src/app/services/task.service.ts:144-146 | same length and order; each task with the id becomes the patch merge stamped with now; other tasks are unchanged; an unknown id changes nothing |
| `TaskService.RemoveById` | src/app/services/task.service.ts:130 | no remaining task has the id; the rest is a subsequence that keeps every non-matching task with its multiplicity; an unknown id changes nothing |
| `TaskService.SeedTasks` | src/app/services/task.service.ts:83 | the fallback collection has four tasks with ids 1 to 4 in order |
| `TaskService.Spread` | src/app/services/task.service.ts:145 | `{ ...t, ...p }`: each of the eight fields is the patch's value when the patch carries it and the task's value when the patch omits it; so an empty patch changes nothing and a patch with an id replaces the task's id |
| `TaskService.Merge` | src/app/services/task.service.ts:145 | the merged task is stamped now whatever the patch says about `lastUpdated`, and agrees with the spread on every other field |
| `TaskService.Load` | src/app/services/task.service.ts:29-47 | loading yields what the slot holds, an empty list included, or the four seed tasks when it holds nothing usable |
| `TaskService.WholeSeconds` | src/app/services/task.service.ts:65-79 | a timestamp written with second precision and read back is the whole second at or before it |
| `TaskService.StorageForm` | src/app/services/task.service.ts:53-57 | a stored task differs from the task only in its two timestamps, each cut to the whole second at or before it |
| `TaskService.Persisted` | src/app/services/task.service.ts:50-58 | a save keeps length, order and every field except the two timestamps, which lose less than a second |
| `TaskService.StorageSlot.constructor` | src/app/services/task.service.ts:31 | the slot starts with the given content (`None` for absent, empty or unreadable) |
| `TaskService.TaskStore.constructor` | src/app/services/task.service.ts:29-47 | the initial collection is what the slot holds (even an empty list), or the seed tasks when it holds nothing usable |
| `TaskService.TaskStore.Save` | src/app/services/task.service.ts:50-62 | the slot afterwards holds the saved collection as a later load reads it |
| `TaskService.TaskStore.AddTask` | src/app/services/task.service.ts:101-114 | the collection becomes the new task followed by the old tasks in their order, and is saved |
| `TaskService.TaskStore.UpdateTaskStatus` | src/app/services/task.service.ts:117-125 | the collection becomes `SetStatusById` of the old one, and is saved |
| `TaskService.TaskStore.DeleteTask` | src/app/services/task.service.ts:128-134 | the collection becomes `RemoveById` of the old one, and is saved |
| `TaskService.TaskStore.GetTaskById` | src/app/services/task.service.ts:137-139 | returns the first task with the id, or nothing; changes nothing |
| `TaskService.TaskStore.UpdateTask` | src/app/services/task.service.ts:142-150 | the collection becomes `UpdateById` of the old one, and is saved |
| `TaskService.TaskStore.ImportTasksFromJson` | src/app/services/task.service.ts:158-174 | returns true exactly when parsing succeeded; then the parsed tasks replace the collection (no merge) and are saved; on failure neither the collection nor the slot changes |
| `TaskService.DeleteThenReload` | src/app/services/task.service.ts:128-134 | after a deletion, a store loaded again from the same slot does not find the id |
| `TaskService.FindAfterAdd` | src/app/services/task.service.ts:109-113 | looking up the clock value right after an add finds the new task, even if an older task has that id |
| `TaskService.FindAfterRemove` | src/app/services/task.service.ts:128-139 | after deleting an id, lookup of it finds nothing and lookup of any other id is unchanged |
| `TaskService.FindAfterSetStatus` | src/app/services/task.service.ts:117-139 | after a status change, lookup of the id finds the previously found task with the new status and time; other ids are unchanged |
| `TaskService.SetStatusTwice` | src/app/services/task.service.ts:119-121 | setting the same status twice equals setting it once at the second time |
| `TaskService.SetStatusIsStatusPatch` | src/app/services/task.service.ts:117-150 | `updateTaskStatus(id, s)` is `updateTask(id, { status: s })` |
| `TaskService.MergeStampsNow` | src/app/services/task.service.ts:145 | a merged task's `lastUpdated` is always now; a `lastUpdated` in the patch has no effect |
| `TaskService.MergeEmptyPatch` | src/app/services/task.service.ts:145 | an empty patch only refreshes `lastUpdated` |
| `TaskService.MergeTwice` | src/app/services/task.service.ts:145 | two merges in a row are one merge with the spread of the two patches |
| `TaskService.OperationsKeepUniqueIds` | src/app/services/task.service.ts:101-150 | distinct ids stay distinct under status change, deletion, a patch that leaves the id alone, and an add whose clock value is not already an id |
| `TaskService.AddMayDuplicateId` | src/app/services/task.service.ts:104 | an add at a time equal to an existing id yields two tasks with the same id |
| `TaskService.OperationsKeepTimestampsOrdered` | src/app/services/task.service.ts:101-150 | with a clock not behind any task, every operation keeps `createdAt <= lastUpdated`; for a patch this needs its `createdAt` not to be after now |
| `TaskService.PersistedStable` | src/app/services/task.service.ts:50-79 | saving again what a save wrote changes nothing; a save changes a collection exactly when some timestamp is not a whole second |
| `TaskService.ReloadDropsMilliseconds` | src/app/services/task.service.ts:65-79 | a task created at 1500 ms reads back as created at 1000 ms |
| `TaskService.DeletePersists` | src/app/services/task.service.ts:128-134 | the collection loaded from what a deletion saved has no task with the deleted id |
| `TaskService.SeedDeleteScenario` | src/app/services/task.service.ts:83 | deleting id 3 from the seed leaves tasks 1, 2 and 4 in order, and id 3 is not found |
| `Dashboard.LowerChar` | src/app/dashboard/dashboard.component.ts:54 | lower-casing maps `A`-`Z` to `a`-`z`, leaves every other character, and never yields an upper-case letter |
| `Dashboard.ToLower` | src/app/dashboard/dashboard.component.ts:54-55 | ASCII lower-casing keeps the length, lower-cases every character, and leaves no upper-case ASCII letter |
| `Dashboard.Includes` | src/app/dashboard/dashboard.component.ts:54-55 | `includes` holds exactly when the needle occurs at some position of the text |
| `Dashboard.ToLowerIdempotent` | src/app/dashboard/dashboard.component.ts:54 | lower-casing twice is lower-casing once |
| `Dashboard.ToLowerKeepsSubstring` | src/app/dashboard/dashboard.component.ts:54-55 | a substring stays a substring after both sides are lower-cased |
| `Dashboard.MatchesSearch` | src/app/dashboard/dashboard.component.ts:53-55 | a task matches exactly when the lower-cased term occurs in its lower-cased title or description; the empty term matches every task |
| `Dashboard.MatchesSearchMeaning` | src/app/dashboard/dashboard.component.ts:53-55 | the term's case does not matter; a term occurring verbatim in the title or description is always found |
| `Dashboard.FilteredTasks` | src/app/dashboard/dashboard.component.ts:48-70 | the filtered list is no longer than the collection; every listed task is in the collection and passes every active filter; every task that passes is listed as often as it occurs |
| `Dashboard.FilteredIsOneFilter` | src/app/dashboard/dashboard.component.ts:48-70 | the three conditional filters in a row are one filter by the conjunction of the active predicates |
| `Dashboard.FilteredIsSubsequence` | src/app/dashboard/dashboard.component.ts:48-70 | the filtered list is a subsequence of the collection in the same relative order |
| `Dashboard.FilteredSound` | src/app/dashboard/dashboard.component.ts:52-67 | every listed task is in the collection; it has the selected status unless "All Status", the selected priority unless "All Priorities", and the lower-cased term in its lower-cased title or description when a term is entered |
| `Dashboard.FilteredComplete` | src/app/dashboard/dashboard.component.ts:48-70 | every task that passes the active filters is listed, as often as it occurs in the collection |
| `Dashboard.FilteredKeepsAll` | src/app/dashboard/dashboard.component.ts:14-17 | with the initial empty term, "All Status" and "All Priorities" the list is the whole collection; in general nothing is dropped when every task passes |
| `Dashboard.CountWithStatus` | src/app/dashboard/dashboard.component.ts:31-41 | a status count is at most the number of tasks, zero exactly when no task has the status, and the number of tasks exactly when all have it |
| `Dashboard.TotalTasks` | src/app/dashboard/dashboard.component.ts:27-29 | the total bounds every status count |
| `Dashboard.PendingTasks` | src/app/dashboard/dashboard.component.ts:31-33 | at most the total; zero exactly when no task is pending |
| `Dashboard.InProgressTasks` | src/app/dashboard/dashboard.component.ts:35-37 | at most the total; zero exactly when no task is in progress |
| `Dashboard.CompletedTasks` | src/app/dashboard/dashboard.component.ts:39-41 | at most the total; zero exactly when no task is completed |
| `Dashboard.StatusOptionsAreKnown` | src/app/dashboard/dashboard.component.ts:44 | the status choices are "All Status", which is no status, followed by exactly the three statuses the counts use |
| `Dashboard.StatisticsBounded` | src/app/dashboard/dashboard.component.ts:27-41 | each status count is at most the total; pending + in-progress + completed is at most the total, and equals it exactly when every status is one of the three |
| `Dashboard.CountsAfterAdd` | src/app/dashboard/dashboard.component.ts:27-41 | after an add the total grows by one, the count of the new task's status grows by one, and the other counts stay |
| `Dashboard.CountsAfterRemove` | src/app/dashboard/dashboard.component.ts:27-41 | a deletion never raises a status count |
| `Dashboard.PriorityOptionsMatchNoSeedTask` | src/app/dashboard/dashboard.component.ts:45 | each of the dashboard's priority choices "low", "medium" and "high" lists no task of the seed collection |
| `Dashboard.SeedPrioritiesAreLabels` | src/app/services/task.service.ts:83 | every seed priority is one of "Low Priority", "Medium Priority" and "High Priority" |
| `Dashboard.LabelPriorityOptionsMatchSeed` | src/app/dashboard/dashboard.component.ts:45 | with the choices in label form, each choice lists at least one seed task |

## Findings

| source | as written | input that shows it | evidently intended | confidence | as-written member | corrected member |
|---|---|---|---|---|---|---|
| src/app/dashboard/dashboard.component.ts:45 | the priority choices are "low", "medium" and "high", but the filter compares them for equality with stored priorities, which are "Low Priority", "Medium Priority" and "High Priority" (seed data, home form default) | the seed collection with `selectedPriority` = "low" (or "medium", "high"): the list is empty | choices in the stored label form, so that each choice lists the tasks with that label | medium; not executed; the view template that binds these choices is not part of this model | `Dashboard.PriorityOptionsMatchNoSeedTask` | `Dashboard.LabelPriorityOptionsMatchSeed` |

## Left out

- TaskService.TaskStore.Save: a failed storage write (quota exceeded, storage disabled) is caught and logged in the source, so the slot keeps its old content. The model's write always succeeds.
- TaskService.Persisted: the date-and-time string is formatted in the fixed `en-US` format, in the browser's time zone. The model assumes it reads back to the same whole second. The repeated hour at a daylight-saving change and years the parser reads differently are not modelled.
- TaskService.SeedTasks: the seed timestamps are parsed in the browser's local time zone. The model reads them as UTC.
- TaskService.TaskStore.AddTask: the source reads the clock three times (`Date.now()` for the id and `new Date()` for each timestamp). The model uses one instant for all three.
- TaskService.TaskStore.UpdateTaskStatus and TaskService.TaskStore.UpdateTask: the source reads `new Date()` once per matching task. The model stamps all matching tasks with one instant.
- TaskService.TaskStore.ImportTasksFromJson: parsing is abstracted to its outcome. Text that parses to a non-array, or an array with a `null` element, makes the source throw and return false; the model covers these as `None`. The source also accepts arrays whose elements are not task objects (they become objects with invalid dates). Such arrays cannot be written as `Task` values.
- TaskService.UpdateById: a patch key that is present with the value `undefined` overwrites the field with `undefined` in the source. A `Patch` field is either present with a value or absent.
- `exportTasksAsJSON` (`JSON.stringify`) is a foreign call and is not modelled. So the import-after-export round trip is not stated.
- The JSON text in the storage slot is not modelled. The slot holds the decoded collection, and `None` stands for a missing value, an empty string, text that does not parse, text that parses to something other than an array (`{}`, `null`), or an array with an element such as `null` whose timestamps cannot be read; each of these loads the seed tasks.
- Angular signals (`signal`, `update`, `asReadonly`), dependency injection and the console logging in the error paths are framework plumbing. `tasks` is a plain field that callers can read.
- Ids and timestamps are JavaScript numbers. They are modelled as unbounded integers.
- Dashboard.LowerChar: `toLowerCase` is full Unicode case mapping. The model lower-cases ASCII letters only.
- Dashboard.ToLower: the length-keeping clause holds for the ASCII mapping only. Full Unicode lower-casing can lengthen a string (`"İ"` becomes `"i̇"`, two code points).
- The dashboard's delegating methods (`updateTaskStatus`, `onStatusChange`, `deleteTask`), its icon and class lookups, and navigation are display and routing.
- src/app/task-detail/task-detail.component.ts, src/app/home/home.component.ts (form defaults, `updateTaskCounts`), src/app/tasks/tasks.component.ts and src/app/app.routes.ts are not part of this model. They are view, form and routing code.
