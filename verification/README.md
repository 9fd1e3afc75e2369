# Workflow editor and workflow endpoints of a DNA-lab admin app

This project models the parts of the DotNetCoreWebApi admin application that carry bespoke logic. It is written in Dafny. The application manages DNA processes, workflows (ordered lists of processes), workflow groups and worksheets. The three parts are:

- **The workflow form** (`client/src/components/WorkflowForm.tsx`), module `WorkflowForm`. It keeps two lists: the processes that can still be added and the ordered selection. Processes move between the two lists. The selection is reordered by drag (`reorder`) or by up/down buttons (`moveSelected`). The first selection is built from the workflow's links sorted by `processOrder`. A valid submit turns the selection into the ordered `dnaProcessIds` payload.
  - `reorder` and `moveSelected` copy the list into an array and splice it in place. They are methods over an `array`, proved against the specification function `Reordered`.
  - The other list operations are pure functions.
  - `validate` builds its error object step by step.
- **The workflow endpoints** (`DotNetCoreWebApi/Controllers/WorkflowsController.cs`), module `WorkflowsController`. The class `WorkflowStore` holds the Workflows table as a map, the WorkflowProcesses link rows as a sequence in insertion order, and the next value of each identity column. Its methods are `GetWorkflow`, `PostWorkflow`, `AddProcessToWorkflow`, `PutWorkflow` and `DeleteWorkflow`.
  - Each method returns the HTTP outcome as an `ActionResult`. `BadRequest("")` stands for a `BadRequest()` without a message.
  - Each method preserves `Valid()`. This covers the unique index on (WorkflowId, DnaProcessId) and increasing identities that start at 1.
- **The group report** (`DotNetCoreWebApi/Controllers/WorkflowGroupsController.cs`), module `WorkflowGroupsController`. It is a pure function of the tables:
  - select the worksheet placements of one group;
  - sort them stably by `StepOrder`;
  - project five joined fields;
  - answer NotFound when nothing matched.

  Because it is a function of a `Database` value, it changes no table.

Shared modules:
- `Sequences`: an order-keeping filter, the subsequence relation, and a stable insertion sort by an integer key. They model `Array.prototype.filter`, LINQ `Where`, `Array.prototype.sort` with a numeric comparator, and LINQ `OrderBy`.
- `Models`: the server records.
- `ActionResults`: the HTTP outcomes.
- `Optional`: the `Option` type.

A duplicate (workflow, process) link is rejected with `BadRequest("Process already in workflow")`, as `WorkflowsController.cs:59-60` does. The action answers a duplicate with 400, not 409.

## Model

| member | source | states |
|---|---|---|
| Sequences.Filter | client/src/components/WorkflowForm.tsx:83 | the result holds each element that passes the test exactly as often as the input does, and no other element |
| Sequences.FilterIsSubsequence | client/src/components/WorkflowForm.tsx:118 | filtering keeps the relative order of the elements it keeps |
| Sequences.SortBy | client/src/components/WorkflowForm.tsx:43 | sorting by a key yields a permutation of the input (same multiset) in non-decreasing key order |
| Sequences.SortByStable | DotNetCoreWebApi/Controllers/WorkflowGroupsController.cs:29 | the sort is stable: for every key value, the elements with that key keep their input order |
| Sequences.SortBySorted | DotNetCoreWebApi/Controllers/WorkflowsController.cs:35 | an input already in key order comes out unchanged |
| WorkflowForm.Reordered | client/src/components/WorkflowForm.tsx:99-104 | moving the element at `from` to `to` gives a permutation of the same length: the moved element sits at `to`, and deleting it leaves the other elements in their old relative order |
| WorkflowForm.AdjacentReorderIsSwap | client/src/components/WorkflowForm.tsx:133-135 | moving an element to a neighbouring index exchanges the two and leaves every other index unchanged |
| WorkflowForm.SpliceOut | client/src/components/WorkflowForm.tsx:101 | `splice(i, 1)` returns the element at `i`; the cells before the live length then hold the old list without that element |
| WorkflowForm.SpliceIn | client/src/components/WorkflowForm.tsx:102 | `splice(i, 0, x)` leaves the old list with `x` inserted at index `i` |
| WorkflowForm.Reorder | client/src/components/WorkflowForm.tsx:99-104 | `reorder` computes `Reordered`: same length, same elements, the dragged element at `endIndex`, and the others in their relative order |
| WorkflowForm.MoveSelected | client/src/components/WorkflowForm.tsx:129-138 | a target index outside the list leaves the list unchanged; otherwise the element and its neighbour are exchanged and nothing else moves |
| WorkflowForm.IndexOfId | client/src/components/WorkflowForm.tsx:115 | `find` by id: -1 exactly when no process has the id, otherwise the index of the first one that does |
| WorkflowForm.WithoutId | client/src/components/WorkflowForm.tsx:118 | `filter(p => p.id !== id)` keeps every process with another id, as often as it occurs and in order, and none with that id remains |
| WorkflowForm.AddProcess | client/src/components/WorkflowForm.tsx:114-119 | an id not in `available` changes neither list; otherwise the first process with that id is appended to the selection (the old selection is a prefix), and `available` keeps, in order and as often as they occur, exactly its processes with other ids |
| WorkflowForm.RemoveSelected | client/src/components/WorkflowForm.tsx:121-126 | an id not in the selection changes neither list; otherwise every process with that id leaves the selection (the rest keep their order and their multiplicities), and the first of them is appended to `available` |
| WorkflowForm.ComputeAvailable | client/src/components/WorkflowForm.tsx:83-84 | the available list is the fetched list minus every process whose id is selected, with multiplicities and in fetched order, and shares no id with the selection |
| WorkflowForm.AddProcessKeepsConsistent | client/src/components/WorkflowForm.tsx:114-119 | adding keeps the two lists disjoint by id and the selection free of repeated ids |
| WorkflowForm.RemoveSelectedKeepsConsistent | client/src/components/WorkflowForm.tsx:121-126 | removing keeps the two lists disjoint by id and the selection free of repeated ids |
| WorkflowForm.LinkedProcesses | client/src/components/WorkflowForm.tsx:44-45 | `.map(wp => wp.dnaProcess).filter(Boolean)`: for every input, the result, wrapped back as process fields, is the filter of the links' fields for present ones, so it lists the carried processes in link order with their multiplicities; when every link has one, the result is exactly those processes, index by index |
| WorkflowForm.InitialSelected | client/src/components/WorkflowForm.tsx:40-49 | without links the selection is empty; otherwise it is the processes of a permutation of the links that is sorted by `processOrder` and keeps links of equal `processOrder` in array order, and it holds exactly the processes the links carry |
| WorkflowForm.InitialSelectedOfOrderedLinks | client/src/components/WorkflowForm.tsx:40-46 | links already in `processOrder` order, each with a process, give exactly their processes in that order |
| WorkflowForm.LeadingWhitespace | client/src/components/WorkflowForm.tsx:108 | counts the whitespace prefix: every character before the count is whitespace and the next one is not |
| WorkflowForm.WithoutTrailingWhitespace | client/src/components/WorkflowForm.tsx:108 | every character from the returned length on is whitespace and the one before it is not |
| WorkflowForm.Trim | client/src/components/WorkflowForm.tsx:154 | `trim()` is empty exactly when the string is all whitespace; otherwise it is the infix after the leading whitespace, with only whitespace after it, and it starts and ends with non-whitespace |
| WorkflowForm.Validate | client/src/components/WorkflowForm.tsx:106-112 | valid exactly when the trimmed name is non-empty and the creator is positive; the error state is cleared exactly then; otherwise each message is set exactly when its field is in error |
| WorkflowForm.Ids | client/src/components/WorkflowForm.tsx:156 | `map(p => p.id)` gives the ids of the processes, index by index |
| WorkflowForm.HandleSubmit | client/src/components/WorkflowForm.tsx:149-159 | a payload is produced exactly when validation passes; it carries the id exactly when the edited workflow's id is truthy (non-zero), the trimmed name, the creator, and the ids of the selection in list order, with no repeats when the selection has none |
| WorkflowsController.AppendKeepsUniquePairs | DotNetCoreWebApi.Data/Migrations/20251017165937_InitialCreateFinal.cs:339-343 | appending a row whose (workflow, process) pair is new keeps every pair unique |
| WorkflowsController.LinksOf | DotNetCoreWebApi/Controllers/WorkflowsController.cs:35 | the link rows of one workflow: every row with that workflow id, as often as it is stored, in table order |
| WorkflowsController.WorkflowStore.constructor | DotNetCoreWebApi.Data/Migrations/20251017165937_InitialCreateFinal.cs:54-55 | an empty database whose identity columns start at 1 satisfies the store invariant |
| WorkflowsController.WorkflowStore.GetWorkflow | DotNetCoreWebApi/Controllers/WorkflowsController.cs:32-40 | NotFound exactly when no workflow has the id; otherwise that workflow with exactly its link rows (as a multiset), sorted by ProcessOrder |
| WorkflowsController.WorkflowStore.PostWorkflow | DotNetCoreWebApi/Controllers/WorkflowsController.cs:44-49 | a name that is empty, all white space or longer than 255 characters (`[Required, MaxLength(255)]` at DotNetCoreWebApi.Models/Models.cs:49-50, checked automatically under `[ApiController]`) gets a 400 with no change; otherwise Created, with the workflow stored under an identity no existing workflow has, and nothing else changes |
| WorkflowsController.WorkflowStore.AddProcessToWorkflow | DotNetCoreWebApi/Controllers/WorkflowsController.cs:53-71 | NotFound with no change when the workflow is absent; BadRequest "Process already in workflow" with no change when the pair is linked; otherwise exactly one row is appended and the earlier rows, with their ProcessOrder, are untouched; pairs stay unique |
| WorkflowsController.WorkflowStore.PutWorkflow | DotNetCoreWebApi/Controllers/WorkflowsController.cs:75-89 | the same automatic 400 with no change for an invalid name; otherwise BadRequest with no change when the path id differs from the body's; NotFound with no change when the workflow is absent; otherwise the stored workflow is replaced by the body and nothing else changes |
| WorkflowsController.WorkflowStore.DeleteWorkflow | DotNetCoreWebApi/Controllers/WorkflowsController.cs:93-100 | NotFound with no change when the workflow is absent; otherwise exactly that workflow is removed |
| WorkflowsController.AddTwice | DotNetCoreWebApi/Controllers/WorkflowsController.cs:58-70 | adding the same process to a workflow twice appends one row; the second call is rejected as a duplicate and appends nothing |
| WorkflowGroupsController.RowOf | DotNetCoreWebApi/Controllers/WorkflowGroupsController.cs:30-38 | the line of a placement carries that placement's StepOrder beside its joined names |
| WorkflowGroupsController.GroupPlacements | DotNetCoreWebApi/Controllers/WorkflowGroupsController.cs:24 | every placement whose WorkflowGroupId is the requested id, as often as it is stored, and no other, in table order |
| WorkflowGroupsController.ReportSource | DotNetCoreWebApi/Controllers/WorkflowGroupsController.cs:23-29 | the placements of the group, each once (same multiset), in non-decreasing StepOrder |
| WorkflowGroupsController.Project | DotNetCoreWebApi/Controllers/WorkflowGroupsController.cs:30-38 | one line per placement, in the same order, each the five joined fields of its placement |
| WorkflowGroupsController.ProjectKeepsStepOrder | DotNetCoreWebApi/Controllers/WorkflowGroupsController.cs:29-33 | projecting placements in step order gives lines in step order |
| WorkflowGroupsController.GetGroupReport | DotNetCoreWebApi/Controllers/WorkflowGroupsController.cs:21-44 | NotFound exactly when no placement belongs to the group; otherwise Ok with the lines of the group's placements, each placement taken once, in non-decreasing StepOrder with equal steps in table order |
| WorkflowGroupsController.GroupReportLines | DotNetCoreWebApi/Controllers/WorkflowGroupsController.cs:23-41 | the projected, sorted lines: their count, emptiness exactly when no placement matches, their order, and their origin in the group |
| WorkflowGroupsController.ReportListsEachPlacementOnce | DotNetCoreWebApi/Controllers/WorkflowGroupsController.cs:23-39 | the report lines are the group's placements, each taken once, and placements with equal StepOrder stay in table order |
| WorkflowGroupsController.ReportOrdersBySteps | DotNetCoreWebApi/Controllers/WorkflowGroupsController.cs:23-43 | placements stored with steps 3, 1, 2 in one group are reported as the lines of steps 1, 2, 3 |

## Left out

- The server-side atomic replace of a workflow's process list. The client calls it (`client/src/api/workflows.ts:77-83`), but `WorkflowsController.cs` has no such action, so there is nothing to model.
- `GetWorkflows` (the list of all workflows with their creators and links): eager loading with no rule of its own, and the order of its rows is left to the database.
- React rendering, hooks, the `mounted` flags and the asynchronous fetches of the workflow form. The fetched process list and the users are parameters of the model.
- `onDragEnd` and the drag-and-drop library. Only `reorder` is modelled. Drag indices outside the list are excluded by `Reorder`'s precondition, because the library supplies only positions inside the list.
- `WorkflowForm.MoveSelected`: `index` is required to lie inside the list, because the buttons that call it pass the index of a rendered row.
- The Add button's `if (val)` guard, and a `createdBy` that is `NaN`. The model's creator is an integer.
- `WorkflowForm.AddProcess` and `WorkflowForm.RemoveSelected` are modelled on one snapshot of both lists. The source's `handleRemoveSelected` appends to the `availableProcesses` of the render rather than to `prev`. The effect at lines 77-96 then refetches and recomputes the available list (`WorkflowForm.ComputeAvailable`). Interleavings of stale snapshots are not modelled.
- `client/src/components/WorkflowsList.tsx`, which orders the HTTP calls after a submit and skips the process replace when the list is empty, and the axios wrappers under `client/src/api`: both are network I/O.
- `WorkflowsController.WorkflowStore.AddProcessToWorkflow`: a `dnaProcessId` naming no process is accepted here. The database rejects it through its foreign key, which the code does not handle.
- `WorkflowsController.WorkflowStore.DeleteWorkflow`: the store lets a workflow that still has link rows or groups be removed. The database's no-action foreign keys would make that save fail, which the code does not handle.
- `WorkflowsController.WorkflowStore.PostWorkflow`: the body's id is always replaced by the next identity. A client-supplied non-zero id, which SQL Server refuses for an identity column, is not modelled.
- Concurrency: async/await, concurrent requests, and the rethrow of `DbUpdateConcurrencyException` when the workflow still exists (`WorkflowsController.cs:86`).
- 32-bit overflow of identity values and of `ProcessOrder`/`StepOrder`: integers are unbounded here.
- `WorkflowsController.WorkflowStore.PostWorkflow`: `Workflows.Add` also inserts every untracked entity reachable from the body. A body that carries `workflowProcesses` or `workflowGroups` would insert those rows too, without the duplicate check. The model takes the body as the flat `Workflow` record, so it cannot carry them.
- `WorkflowsController.WorkflowStore.PostWorkflow` and `WorkflowsController.WorkflowStore.PutWorkflow`: a `createdBy` that names no user breaks FK_Workflows_Users_CreatedBy. `SaveChangesAsync` then throws an exception the actions do not catch, which gives a 500. The store holds no users table, so it accepts the row.
- `WorkflowsController.WorkflowStore.PostWorkflow` and `WorkflowsController.WorkflowStore.PutWorkflow`: `MaxLength` counts UTF-16 code units, while the model counts characters. A name with characters outside the Basic Multilingual Plane can therefore pass the model's length test and still fail the real one. Validation failures of fields other than the name are not modelled; that includes a non-nullable `CreatedByUser` reference, which is checked only when the project enables nullable reference types.
- Navigation properties (`CreatedByUser`, `DnaProcess` on a link) and JSON serialisation of the results.
- `WorkflowGroupsController.GetGroupReport` requires that every placement's worksheet, group, workflow, process and analyst exist. The database's foreign keys guarantee this (migration lines 70-95, 97-115 and 206-230), so the model states it as a precondition.
- Rows with equal `StepOrder` or `ProcessOrder`: SQL `ORDER BY` leaves their order unspecified. The model uses a stable sort, which is one allowed order.
- `DnaProcessesController.cs`, the users pages, the measurement records, and the hosting code: they are generic CRUD or UI with no rule of their own.
