# prodflow release tracker, in Dafny

prodflow tracks software releases through their environments. A release owns
one stage per environment (staging, uat, prod). Each stage holds a checklist
of tasks and a list of blockers. Every change is written to an activity log.

This project models three parts of the system:

- **The server.** The tables and their column defaults and foreign-key rules
  (`shared/schema.ts`). The `DatabaseStorage` class (`server/storage.ts`),
  modelled as a Dafny class whose fields are the tables as sequences of rows.
  The HTTP handlers (`server/routes.ts`), modelled as methods on that store
  that return a `Response` (200, 201, 204, 404, 400 or 500). This covers:
  - release creation seeding three stages;
  - the approval gate;
  - blockers forcing and releasing the `blocked` status;
  - the diagram upsert;
  - the newest-first, capped activity log;
  - the dashboard aggregation.
- **The task canvas** of a stage (`TaskFlowCanvas.tsx`). This covers:
  - reconciling a saved layout with the live task list;
  - the save payload;
  - the component state whose "unsaved changes" flag decides whether a
    refresh may replace the canvas.
- **The small client rules.** Task toggles, the stage panel's request bodies
  and counters, the environment lane, URL building and error messages in the
  query client, release search, checklist toggling, initials, badge labels,
  the screen order of the invitation page, and the team page's invite form.

Module layout, one file each:

| File | Contents |
|---|---|
| `common.dfy` | Option, `Field` (Keep or Set, for partial updates), Filter, Reverse, order predicates |
| `text.dfy` | ASCII case mapping, trim, `includes`, `split` and `join`, JavaScript truthiness |
| `schema.dfy` | enumerations, rows, defaults, request validation |
| `tables.dfy` | the SQL operations on one table |
| `storage.dfy` | the `DatabaseStorage` class and the invariant every write keeps |
| `routes.dfy` | the handlers |
| `dashboard.dfy` | progress and overall status |
| `layouts.dfy` | the saved canvas layout |
| `canvas.dfy`, `stagepanel.dfy`, `envcanvas.dfy`, `envnode.dfy`, `queryclient.dfy`, `releaselist.dfy`, `taskdetails.dfy`, `taskcard.dfy`, `invite.dfy`, `team.dfy` | one client component each |

How the store is modelled:

- **Ids.** The store draws ids from a counter. This stands for
  `gen_random_uuid()`, whose only promised property is that ids never repeat.
- **Timestamps.** The program has two clocks: the database's `now()` fills
  the column defaults, and the server's own clock stamps task updates and
  stage approvals. The model merges them into one clock that advances at
  every write, so "newest first" is the reverse of insertion order.
- **Requests.** Requests are handled one at a time. Each route runs to
  completion before the next starts.
- **The invariant.** `Storage.Consistent` is kept by every write. It says:
  - ids are unique and increasing;
  - creation times follow insertion order;
  - a release has at most one diagram (the table has no unique constraint;
    this holds because the diagram upsert is not interleaved with another);
  - every foreign key names an existing row.
- **Timestamps in request bodies.** JSON has no date type, so a timestamp
  field arrives as `null` or as a string. The validators of timestamp
  columns accept a date or `null`, so a string is rejected with 400.

## Model

| member | source | states |
|---|---|---|
| Schema.ParseEnv | shared/schema.ts:7 | exactly "staging", "uat" and "prod" are environments, and each parses to the value that prints as it |
| Schema.ParseStageStatus | shared/schema.ts:8 | exactly not_started, in_progress, blocked and done are stage statuses, parsed to the value that prints as the input |
| Schema.ParseTaskStatus | shared/schema.ts:9 | exactly todo, doing, done and na are task statuses, parsed to the value that prints as the input |
| Schema.ParseSeverity | shared/schema.ts:10 | exactly P1, P2 and P3 are severities, parsed to the value that prints as the input |
| Schema.EnumNamesParse | shared/schema.ts:7-10 | printing any enumeration value and parsing it back gives the same value (round trip) |
| Schema.ParseRelease | shared/schema.ts:38-44 | a release body is accepted iff it has a name; name, version, team, creator and change window are those posted |
| Schema.ParseTask | shared/schema.ts:80-86 | a task body is accepted iff it has a title and any status given is a task status; it belongs to the path's stage; `required` defaults to true and status to todo |
| Schema.ParseBlocker | shared/schema.ts:111-118 | a blocker body is accepted iff it has a reason, any severity given is P1/P2/P3 and any eta is `null`; severity defaults to P2 and `active` to true; a given severity is kept by name; reason and owner are those posted and there is no eta |
| Schema.ParseField | shared/schema.ts:54 | an absent field stays absent; a supplied enumeration field is rejected iff it is not a member |
| Schema.ParseTimeField | shared/schema.ts:56-57 | an absent timestamp field stays absent; `null` clears the column; a string is rejected |
| Schema.ToDriver | server/routes.ts:196 | a timestamp column accepts a date and converts it unchanged; a string makes the write fail |
| Schema.ParseNotNull | shared/schema.ts:30 | a field of a not-null column is rejected iff it is `null`; absent stays absent and a value is kept |
| Schema.ParseReleasePatch | server/routes.ts:103 | a release patch is rejected iff `name` is `null`; an absent name stays absent and a given one is kept; version, change window, team and creator pass through, `null` included |
| Schema.ParseStagePatch | shared/schema.ts:61-68 | a stage patch is rejected iff the release is `null`, a supplied env or status is not a member or a supplied start or end time is not `null`; a supplied release is kept; approver passes through; a supplied env or status is kept by name; a supplied time can only clear the column |
| Schema.ParseTaskPatch | shared/schema.ts:86-94 | a task patch is rejected iff the stage or title is `null` or a supplied status is not a task status; a supplied stage or title is kept; details, owner, `required` and evidence URL pass through; a supplied status is kept by name; it never sets the update time itself |
| Schema.ParseBlockerPatch | shared/schema.ts:111-118 | a blocker patch is rejected iff the stage or reason is `null`, a supplied severity is not P1/P2/P3 or a supplied eta is not `null`; a supplied stage or reason is kept; owner and `active` pass through; a supplied severity is kept by name; a supplied eta can only clear the column |
| Tables.FindRelease | server/storage.ts:103-106 | a release is found iff its id is in the table, and it is that row |
| Tables.FindStage | server/storage.ts:128-131 | a stage is found iff its id is in the table, and it is that row |
| Tables.FindTask | server/storage.ts:153-156 | a task is found iff its id is in the table, and it is that row |
| Tables.FindBlocker | server/storage.ts:184-187 | a blocker is found iff its id is in the table, and it is that row |
| Tables.FindDiagramOf | server/storage.ts:205-208 | no diagram iff the release has none; otherwise a diagram of that release (the only one, since every diagram is inserted through the upsert) |
| Tables.StageUnique | server/storage.ts:128-131 | with increasing ids, two rows with the same id are the same row |
| Tables.UpdateReleases | server/storage.ts:113-116 | only the row with the id gets the supplied fields; every other row and the length are unchanged |
| Tables.UpdateStages | server/storage.ts:138-141 | only the row with the id gets the supplied fields; every other row and the length are unchanged |
| Tables.UpdateTasks | server/storage.ts:163-166 | only the row with the id gets the supplied fields; every other row and the length are unchanged |
| Tables.UpdateBlockers | server/storage.ts:194-197 | only the row with the id gets the supplied fields; every other row and the length are unchanged |
| Tables.ReplaceDiagram | server/storage.ts:215-217 | only the diagram with the id is replaced; every other row is unchanged |
| Tables.UpdateReleasesKeepsIds | server/storage.ts:113-116 | an update never adds or removes an id |
| Tables.UpdateStagesKeepsIds | server/storage.ts:138-141 | an update never adds or removes an id |
| Tables.ReleasesExcept | server/storage.ts:118-121 | exactly the other releases remain, still in id and creation order |
| Tables.StagesExcept | server/storage.ts:143-146 | exactly the other stages remain, still in id order |
| Tables.StagesOutsideRelease | shared/schema.ts:52 | the cascade from a release: exactly the stages of other releases remain |
| Tables.TasksExcept | server/storage.ts:168-171 | exactly the other tasks remain, still in id order |
| Tables.TasksOutside | shared/schema.ts:76 | the cascade from stages: exactly the tasks of surviving stages remain |
| Tables.BlockersExcept | server/storage.ts:199-202 | exactly the other blockers remain, in id and creation order |
| Tables.BlockersOutside | shared/schema.ts:102 | the cascade from stages: exactly the blockers of surviving stages remain |
| Tables.DiagramsOutsideRelease | shared/schema.ts:126 | the cascade from a release: exactly the diagrams of other releases remain, in order |
| Tables.NodesOutside | shared/schema.ts:146 | the cascade from diagrams: exactly the nodes of surviving diagrams remain |
| Tables.Detach | shared/schema.ts:163-164 | `on delete set null`: an entry loses exactly the references to deleted rows; its action, actor, time and meta stay |
| Tables.DetachAll | shared/schema.ts:161-175 | no log entry is deleted by a cascade; each one is detached in place |
| Tables.StagesIn | server/storage.ts:124-126 | exactly the release's stages, in table order |
| Tables.TasksIn | server/storage.ts:149-151 | exactly the stage's tasks |
| Tables.BlockersIn | server/storage.ts:174-182 | exactly the stage's blockers, only the active ones when asked, in creation order |
| Tables.InsertByUpdate | server/storage.ts:149-151 | inserting adds exactly that task (as a multiset) |
| Tables.InsertByUpdateSorted | server/storage.ts:149-151 | inserting into a list sorted by update time keeps it sorted |
| Tables.SortByUpdate | server/storage.ts:149-151 | `order by updated_at` gives a permutation of the tasks, sorted by update time |
| Storage.EntriesMatching | server/storage.ts:235-249 | exactly the entries that pass every supplied filter; an absent filter passes everything |
| Storage.MatchesFilters | server/storage.ts:237-242 | no contract of its own: an entry passes iff it has the release and the stage of every supplied filter; `Storage.EntriesMatching` states what the filter keeps |
| Storage.ReleasesOfTeam | server/storage.ts:90-101 | exactly the releases of the team, in creation order |
| Storage.PrefixOfNewestFirst | server/storage.ts:246-248 | cutting a newest-first list leaves out only entries older than every entry kept |
| Storage.NewestMatchingFacts | server/storage.ts:235-249 | the log query returns at most 100 matching entries, newest first, and any matching entry left out is older than all those returned |
| Storage.UpdateReleaseKeeps | server/storage.ts:113-116 | updating a release keeps the store consistent |
| Storage.UpdateStageKeeps | server/storage.ts:138-141 | updating a stage to an existing release keeps the store consistent |
| Storage.UpdateTaskKeeps | server/storage.ts:163-166 | updating a task to an existing stage keeps the store consistent |
| Storage.UpdateBlockerKeeps | server/storage.ts:194-197 | updating a blocker to an existing stage keeps the store consistent |
| Storage.DeleteStageKeeps | server/storage.ts:143-146 | deleting a stage with its cascades keeps the store consistent |
| Storage.DeleteReleaseKeeps | server/storage.ts:118-121 | deleting a release with all its cascades keeps the store consistent, including one diagram per release |
| Storage.DeleteReleaseKeepsLinks | shared/schema.ts:52-164 | after a release delete and its cascades, every remaining foreign key names an existing row |
| Storage.DistinctFilteredDiagrams | shared/schema.ts:126 | the diagrams left by a release delete still belong to distinct releases |
| Storage.ReplaceDiagramKeeps | server/storage.ts:210-232 | rewriting a diagram in place keeps the store consistent |
| Storage.ReplaceDiagramFound | server/storage.ts:222-232 | after rewriting, the release's only diagram is the new row; rewriting with the same row changes nothing |
| Storage.DatabaseStorage.constructor | server/storage.ts:72 | the store starts with empty tables and a consistent state |
| Storage.DatabaseStorage.Now | server/routes.ts:196 | a clock reading is later than every timestamp stored so far and changes nothing else |
| Storage.DatabaseStorage.GetReleases | server/storage.ts:90-101 | only the team filter applies (missing or empty team means all); `status` is ignored; newest first |
| Storage.DatabaseStorage.GetRelease | server/storage.ts:103-106 | found iff the id exists, and it is that row |
| Storage.DatabaseStorage.CreateRelease | server/storage.ts:108-111 | appends one release with a fresh id and the posted fields; nothing else changes |
| Storage.DatabaseStorage.UpdateRelease | server/storage.ts:113-116 | fails iff the patch names no field; otherwise absent iff the id is missing; both with nothing changed; otherwise only that row's supplied fields change |
| Storage.DatabaseStorage.DeleteRelease | server/storage.ts:118-121 | returns true iff the release existed; afterwards it is gone, with its stages, tasks, blockers, diagrams and nodes; log entries stay but lose their references |
| Storage.DatabaseStorage.Restore | server/storage.ts:118-121 | installs a consistent snapshot, which is then the whole state |
| Storage.DatabaseStorage.GetStagesByRelease | server/storage.ts:124-126 | exactly the release's stages, in table order |
| Storage.DatabaseStorage.GetStage | server/storage.ts:128-131 | found iff the id exists, and it is that row |
| Storage.DatabaseStorage.CreateStage | server/storage.ts:133-136 | refused, with nothing changed, iff the release is missing; otherwise appends one stage with a fresh id |
| Storage.DatabaseStorage.UpdateStage | server/storage.ts:138-141 | fails iff the patch names no field or moves an existing stage to a missing release; otherwise absent iff the id is missing; both with nothing changed; otherwise only the supplied fields of that row change |
| Storage.DatabaseStorage.DeleteStage | server/storage.ts:143-146 | returns true iff the stage existed; afterwards it is gone with its tasks and blockers, other stages untouched, log entries detached |
| Storage.DatabaseStorage.GetTasksByStage | server/storage.ts:149-151 | exactly the stage's tasks, least recently updated first |
| Storage.DatabaseStorage.GetTask | server/storage.ts:153-156 | found iff the id exists, and it is that row |
| Storage.DatabaseStorage.CreateTask | server/storage.ts:158-161 | refused, with nothing changed, iff the stage is missing; otherwise appends one task with a fresh id |
| Storage.DatabaseStorage.UpdateTask | server/storage.ts:163-166 | fails iff the patch names no field or moves an existing task to a missing stage; otherwise absent iff the id is missing; otherwise only the supplied fields change |
| Storage.DatabaseStorage.DeleteTask | server/storage.ts:168-171 | returns true iff the task existed; afterwards no such task, the other tasks untouched |
| Storage.DatabaseStorage.GetBlockersByStage | server/storage.ts:174-182 | exactly the stage's blockers, or only its active ones, newest first |
| Storage.DatabaseStorage.GetBlocker | server/storage.ts:184-187 | found iff the id exists, and it is that row |
| Storage.DatabaseStorage.CreateBlocker | server/storage.ts:189-192 | refused, with nothing changed, iff the stage is missing; otherwise appends one blocker with a fresh id |
| Storage.DatabaseStorage.UpdateBlocker | server/storage.ts:194-197 | fails iff the patch names no field or moves an existing blocker to a missing stage; otherwise absent iff the id is missing; otherwise only the supplied fields change |
| Storage.DatabaseStorage.DeleteBlocker | server/storage.ts:199-202 | returns true iff the blocker existed; afterwards no such blocker, the others untouched |
| Storage.DatabaseStorage.GetDiagramByRelease | server/storage.ts:205-208 | none iff the release has no diagram; otherwise a diagram of that release |
| Storage.DatabaseStorage.RewriteDiagram | server/storage.ts:213-226 | the update branch of both upserts: the release's diagram is replaced by the new row in place, the store stays consistent, and the release then has exactly that one diagram |
| Storage.DatabaseStorage.UpdateDiagramLayout | server/storage.ts:222-232 | `layout` is absent, `null` or a layout. Refused iff the release has a diagram and `layout` is absent (the update names no column), or the release has no diagram and does not exist; nothing changes then. Otherwise the release has exactly one diagram afterwards, holding the layout (`null` and absent both leave it null). An existing diagram is rewritten in place; storing its own layout again leaves the store unchanged |
| Storage.DatabaseStorage.CreateOrUpdateDiagram | server/storage.ts:210-220 | afterwards the release has exactly one diagram, with the supplied columns set; refused iff the release is missing |
| Storage.DatabaseStorage.InsertDiagram | server/storage.ts:218-219 | the insert branch of the upsert: appends the release's one diagram |
| Storage.DatabaseStorage.GetActivityLog | server/storage.ts:235-249 | at most 100 matching entries, newest first; any matching entry left out is older than all those returned |
| Storage.DatabaseStorage.CreateActivityLog | server/storage.ts:251-254 | appends exactly one entry, leaving every existing entry unchanged; refused iff it names a missing release or stage |
| Routes.StatusPatch | server/routes.ts:301-303 | the patch changes a stage's status and nothing else |
| Routes.FindUpdatedStage | server/routes.ts:146-170 | after an update, looking the stage up finds the updated row |
| Routes.Log | server/routes.ts:77-82 | a log call appends one entry with these references, actor and action, and changes no other table |
| Routes.StageViews | server/routes.ts:47-53 | each stage is paired with exactly its tasks and its (active) blockers |
| Routes.ViewFor | server/routes.ts:48-51 | one stage shown with exactly its tasks and its blockers (only the active ones when asked) |
| Routes.ListReleasesRoute | server/routes.ts:25-34 | GET /api/releases: the team's releases (all without a team), newest first |
| Routes.GetReleaseRoute | server/routes.ts:36-59 | 404 iff the release is missing; otherwise every stage of the release, each with its tasks and only its active blockers |
| Routes.GetStageRoute | server/routes.ts:130-144 | 404 iff the stage is missing; otherwise the stage with exactly its tasks and all its blockers |
| Routes.GetDiagramRoute | server/routes.ts:378-388 | 404 iff the release has no diagram (never an empty layout); otherwise its diagram |
| Routes.ActivityRoute | server/routes.ts:401-410 | at most 100 matching entries, newest first; a matching entry is left out only when 100 are returned, all newer than it |
| Routes.CreateReleaseRoute | server/routes.ts:61-99 | 400 iff there is no name, with nothing changed; otherwise one new release, exactly three new not-started stages for staging, uat and prod in that order, and one `release.created` entry whose actor is the creator or "system"; nothing else changes |
| Routes.SeedStages | server/routes.ts:66-74 | the stage table gains exactly three not-started stages of the release, staging, uat and prod in that order, after the existing rows; every other table is unchanged |
| Routes.PatchReleaseRoute | server/routes.ts:101-115 | 400 iff validation fails (a `null` name); 500 iff the valid body supplies no field; otherwise 404 iff the release is missing; all three with nothing changed; otherwise only the release's supplied fields change and nothing else in the store |
| Routes.DeleteReleaseRoute | server/routes.ts:117-127 | 204 iff the release existed; afterwards it, its stages and their tasks are gone; the new state is the full cascade: its stages, their tasks and blockers, its diagram and that diagram's nodes are removed, activity references to them are cleared, and nothing else changes |
| Routes.PatchStageRoute | server/routes.ts:146-170 | 400 iff validation fails; 500 iff the valid body supplies no field or moves an existing stage to a missing release; otherwise 404 iff the stage is missing; only these leave the store unchanged; otherwise the supplied fields change (status `done` included, with no approval gate) and `stage.updated` is logged |
| Routes.ApprovalAllowed | server/routes.ts:182-190 | approval is allowed iff every required task is done (a required `na` task blocks it; no required tasks allows it) |
| Routes.ApproveStageRoute | server/routes.ts:172-212 | with the end time handed over as a date: 404 iff the stage is missing; 400 iff some required task of the stage is not done, with nothing changed; otherwise status `done`, the approver if one is given, the end time, and a `stage.approved` entry whose actor is the approver or "system" |
| Routes.ApproveStageRouteAsWritten | server/routes.ts:172-212 | as written: 404 iff the stage is missing; 400 iff some required task is not done; 500 iff the gate lets the approval through; no table and no log entry ever changes |
| Routes.CreateTaskRoute | server/routes.ts:215-241 | 404 iff the stage is missing; 400 iff validation fails; otherwise one task under the path's stage and a `task.created` entry; stages never change |
| Routes.PatchTaskRoute | server/routes.ts:243-275 | 404, 400 or 500 exactly as the task, body or new stage is missing or invalid; otherwise the supplied fields and a new update time; stages never change |
| Routes.DeleteTaskRoute | server/routes.ts:277-287 | 204 iff the task existed; afterwards it is gone; stages never change |
| Routes.CreateBlockerRoute | server/routes.ts:290-321 | 404 iff the stage is missing; 400 iff validation fails; otherwise one new blocker, and the stage is `blocked` afterwards whatever its status and whatever `active` was posted; `blocker.created` is logged |
| Routes.PatchBlockerRoute | server/routes.ts:323-363 | 404 iff the blocker is missing; then 400 iff validation fails; then 500 iff the valid body supplies no field or moves the blocker to a missing stage; the stage returns to `in_progress` iff the patch sets `active` false, the stage was blocked and no active blocker remains; without `active: false` no stage changes |
| Routes.Unblocks | server/routes.ts:334-339 | no contract of its own: the patch sets `active` false, the stage is blocked and it has no active blocker left; `Routes.PatchBlockerRoute` states that the stage returns to `in_progress` exactly then |
| Routes.UnblockIfClear | server/routes.ts:334-342 | a blocked stage with no active blocker becomes `in_progress`; otherwise nothing changes |
| Routes.DeleteBlockerRoute | server/routes.ts:365-375 | 204 iff the blocker existed; no stage changes, even when the last active blocker goes |
| Routes.PutDiagramRoute | server/routes.ts:390-398 | 500 iff the body has no `layout` and the release already has a diagram, or the release has no diagram and does not exist; otherwise the diagram route afterwards returns the written diagram, whose layout is the posted one (`null` when it was `null` or absent); the store changes only in that release's diagram: it is rewritten in place, or appended with a fresh id and the current time; nothing is logged |
| Routes.Statuses | server/routes.ts:436-445 | the stage statuses, one per stage in stage order |
| Routes.TasksOfStages | server/routes.ts:423-431 | exactly the tasks of the given stages |
| Routes.Summarize | server/routes.ts:419-454 | a release's row: its status is the overall status of its stages' statuses; blocked iff some stage is blocked; done iff every stage is done; in progress iff none is blocked and some stage is in progress, or some is done and some not started; not started iff it has stages and all are not started; no stages gives done with progress 0; progress at most 100 and equal to the progress of the tasks of the release's stages |
| Routes.StatusesOfRelease | server/routes.ts:436-441 | read against the whole stage table: a status is among the statuses iff some stage of the release has it; all of the release's stages are done (or all not started) iff every status is; a release with no stage row has no statuses |
| Routes.OverallOfRelease | server/routes.ts:436-447 | the overall status of a release's stages, read against the whole stage table: each of the four statuses exactly under its condition on the release's stage rows |
| Routes.Summaries | server/routes.ts:419-454 | one row per release, in order |
| Routes.DashboardRoute | server/routes.ts:413-460 | one row per release of the team, in the release list's order; row i is the summary of release i |
| Dashboard.Percent | server/routes.ts:431-433 | 0 without tasks; otherwise the nearest integer to 100·done/total, at most 100 |
| Dashboard.PercentNearest | server/routes.ts:433 | the percentage is the unique integer nearest to 100·done/total, halves upward (`Math.round`) |
| Dashboard.PercentMonotone | server/routes.ts:433 | more finished tasks never lower the percentage |
| Dashboard.PercentEnds | server/routes.ts:431-433 | none done gives 0%; all done gives 100% |
| Dashboard.DivBelow | server/routes.ts:433 | the rounded quotient stays below its bound |
| Dashboard.MulMonotone | server/routes.ts:433 | scaling preserves order |
| Dashboard.DoneCount | server/routes.ts:432 | the number of tasks whose status is `done`; at most the number of tasks; all iff every task is done; none iff no task is done |
| Dashboard.Progress | server/routes.ts:431-433 | the whole percentage nearest to 100 · done / total (halves up); in 0..100; 0 with no tasks or none done; 100 when all are done; `na` tasks count only in the total |
| Dashboard.Overall | server/routes.ts:436-445 | blocked iff some stage is blocked; done iff all stages are done (zero stages included); not started iff all stages are not started; in progress otherwise |
| Dashboard.OverallIsRanked | server/routes.ts:436-445 | the handler's order of tests equals a plain ranking: blocked, then all done, then any progress, then not started |
| Dashboard.NoStagesIsDone | server/routes.ts:441 | a release with no stages reads as done |
| TaskCanvas.ToggleTodoRejected | client/src/components/TaskFlowCanvas.tsx:98 | the toggle of a `todo` task sends "in_progress", which is not a task status, so the server rejects the PATCH |
| TaskCanvas.ToggleAsWritten | client/src/components/TaskFlowCanvas.tsx:98 | as written: never the same status, `todo` exactly for a done task, and a status that task validation rejects exactly when the task was `todo` |
| TaskCanvas.Toggle | client/src/components/TaskFlowCanvas.tsx:98 | the corrected toggle always sends a task status the server accepts, never the same status, and `todo` exactly for a done task |
| TaskCanvas.Lookup | client/src/components/TaskFlowCanvas.tsx:132 | none iff no task has the id; otherwise a task with that id |
| TaskCanvas.LookupNode | client/src/components/TaskFlowCanvas.tsx:187 | none iff no node has the id; otherwise a node with that id |
| TaskCanvas.NodeIdsAppend | client/src/components/TaskFlowCanvas.tsx:156-177 | the ids of concatenated node lists are the concatenated ids |
| TaskCanvas.TaskNode | client/src/components/TaskFlowCanvas.tsx:159-172 | a task's node has the task's id, the given position, the task's fields and the callbacks |
| TaskCanvas.Refresh | client/src/components/TaskFlowCanvas.tsx:131-149 | a saved node keeps its id, type and position; when a live task has its id it shows that task and gets the callbacks; otherwise it is unchanged |
| TaskCanvas.Surviving | client/src/components/TaskFlowCanvas.tsx:131-147 | exactly the saved nodes of live tasks are kept, each refreshed with its task's fields and its saved position, in saved order |
| TaskCanvas.Unplaced | client/src/components/TaskFlowCanvas.tsx:156-158 | exactly the live tasks without a kept node, in task order |
| TaskCanvas.GridSlotsDistinct | client/src/components/TaskFlowCanvas.tsx:162 | two new task nodes never share a grid slot |
| TaskCanvas.CoversTasks | client/src/components/TaskFlowCanvas.tsx:156-177 | kept nodes plus grid-placed new tasks show exactly the live task ids |
| TaskCanvas.Reconcile | client/src/components/TaskFlowCanvas.tsx:131-177 | the node ids are exactly the task ids; surviving saved nodes come first in saved order, then one node per new task in task order, the k-th at (100 + (k mod 3)·350, 100 + (k div 3)·200) |
| TaskCanvas.StartPosition | client/src/components/TaskFlowCanvas.tsx:189-194 | the position of a saved node with the task's id when there is one, else the scattered position |
| TaskCanvas.Scatter | client/src/components/TaskFlowCanvas.tsx:185-214 | one node per task in task order, at its saved position if any and at the scattered position otherwise; ids are exactly the task ids |
| TaskCanvas.ScatterCovers | client/src/components/TaskFlowCanvas.tsx:185-214 | nodes built one per task have exactly the task ids |
| TaskCanvas.Target | client/src/components/TaskFlowCanvas.tsx:129-214 | the nodes a refresh computes have exactly the task ids |
| TaskCanvas.FallbackIsScattered | client/src/components/TaskFlowCanvas.tsx:185-214 | without saved nodes every node sits at its scattered position |
| TaskCanvas.OrZero | client/src/components/TaskFlowCanvas.tsx:267-268 | a saved coordinate is always a number; a nonzero number is kept; 0 exactly for 0 or NaN |
| TaskCanvas.SavedForm | client/src/components/TaskFlowCanvas.tsx:263-279 | a saved node keeps its id and task fields, drops its type and callbacks, and has numeric coordinates, each nonzero one kept |
| TaskCanvas.SavePayload | client/src/components/TaskFlowCanvas.tsx:263-279 | one saved node per node with the same id and task fields, position with falsy coordinates as 0, and the edges unchanged |
| TaskCanvas.SaveThenReconcile | client/src/components/TaskFlowCanvas.tsx:131-147 | when a saved layout reaches the canvas, reconciling it keeps a live task's node at its saved position, with the task's current fields |
| TaskCanvas.LayoutAt | client/src/components/TaskFlowCanvas.tsx:72-75 | a response carries a layout only at the task-diagram URL, and then it is the saved one |
| TaskCanvas.DiagramKeyAsWritten | client/src/components/TaskFlowCanvas.tsx:72-75 | the saved-layout key as written is the stage query's key with "task-diagram" appended |
| TaskCanvas.DiagramKey | client/src/components/TaskFlowCanvas.tsx:72-75 | the corrected key stands for the task-diagram path from every base URL |
| TaskCanvas.SavedLayoutNeverReached | client/src/components/TaskFlowCanvas.tsx:72-75 | as written, the saved-layout query fetches the stage URL, gets no layout, and every refresh scatters the nodes |
| TaskCanvas.SaveThenReload | client/src/components/TaskFlowCanvas.tsx:72-75 | keyed by its whole path, the query reaches the task-diagram URL, and a saved layout reloads every live task's node at its saved position |
| TaskCanvas.DiagramKeyReachesPath | client/src/components/TaskFlowCanvas.tsx:72-75 | the whole path as the only key element is fetched as it is |
| TaskCanvas.CanvasState.constructor | client/src/components/TaskFlowCanvas.tsx:63-112 | an empty canvas with nothing unsaved |
| TaskCanvas.CanvasState.Sync | client/src/components/TaskFlowCanvas.tsx:115-219 | the flag is untouched; with no tasks the canvas is cleared only when nothing is unsaved; otherwise a non-empty unsaved canvas and unsaved edges are kept, and a clean canvas shows exactly the task ids |
| TaskCanvas.CanvasState.ChangeNodes | client/src/components/TaskFlowCanvas.tsx:221-227 | a node change is applied and marks the canvas unsaved |
| TaskCanvas.CanvasState.ChangeEdges | client/src/components/TaskFlowCanvas.tsx:229-235 | an edge change is applied and marks the canvas unsaved |
| TaskCanvas.CanvasState.Connect | client/src/components/TaskFlowCanvas.tsx:237-253 | a connection is applied and marks the canvas unsaved |
| TaskCanvas.CanvasState.Payload | client/src/components/TaskFlowCanvas.tsx:263-279 | the posted layout has one node per canvas node, with the same ids, and the current edges |
| TaskCanvas.CanvasState.SaveSucceeded | client/src/components/TaskFlowCanvas.tsx:287-288 | only a successful save clears the flag; the canvas is untouched |
| TaskCanvas.RefreshAfterSave | client/src/components/TaskFlowCanvas.tsx:176-179 | after a save, a refresh with tasks replaces the canvas with exactly the task ids |
| TaskCanvas.RefreshKeepsUnsaved | client/src/components/TaskFlowCanvas.tsx:176-179 | after a local change, a refresh keeps the local nodes and edges |
| StagePanel.NextStatus | client/src/components/StageDetailPanel.tsx:237-240 | `todo` iff the task was done, else `done`; always a valid task status |
| StagePanel.ToggleTwice | client/src/components/StageDetailPanel.tsx:237-240 | toggling twice from done or todo is the identity |
| StagePanel.ToggleBody | client/src/components/StageDetailPanel.tsx:238 | the PATCH sets only the status, and the server accepts it |
| StagePanel.TrimmedOrAbsent | client/src/components/StageDetailPanel.tsx:221-222 | absent iff the trimmed text is blank; otherwise the trimmed text |
| StagePanel.AddTask | client/src/components/StageDetailPanel.tsx:217-225 | nothing is sent iff the trimmed title is blank; otherwise the trimmed title, blank description and owner absent, status todo, to the selected stage |
| StagePanel.TaskRequestBody | client/src/components/StageDetailPanel.tsx:116-121 | no contract of its own: the posted fields as the server's validation reads them; `StagePanel.SentTaskAccepted` states what the server makes of them |
| StagePanel.SentTaskAccepted | client/src/components/StageDetailPanel.tsx:116-121 | every task the panel sends passes the server's validation and is created todo and required under the stage |
| StagePanel.AddBlocker | client/src/components/StageDetailPanel.tsx:227-235 | nothing is sent iff the trimmed reason is blank; otherwise the trimmed reason, the chosen severity and `active: true` |
| StagePanel.BlockerRequestBody | client/src/components/StageDetailPanel.tsx:166-171 | no contract of its own: the posted fields as the server's validation reads them; `StagePanel.SentBlockerAccepted` states what the server makes of them |
| StagePanel.SentBlockerAccepted | client/src/components/StageDetailPanel.tsx:166-171 | every blocker the panel sends passes the server's validation, active and with the chosen severity |
| StagePanel.ResolveBody | client/src/components/StageDetailPanel.tsx:196-197 | resolving sends only `active: false`, which the server accepts |
| StagePanel.StatusLabel | client/src/components/StageDetailPanel.tsx:244 | an unknown status reads Not Started; Blocked exactly for blocked |
| StagePanel.ActiveBlockers | client/src/components/StageDetailPanel.tsx:247 | exactly the active blockers, in the order received |
| StagePanel.TasksCompleted | client/src/components/StageDetailPanel.tsx:248 | at most the total; equal iff every task is done; zero iff none is |
| StagePanel.TasksTotal | client/src/components/StageDetailPanel.tsx:249 | the number of tasks, a missing list counting as none |
| StagePanel.PanelForm.constructor | client/src/components/StageDetailPanel.tsx:99-106 | closed dialogs, empty fields, severity P2 |
| StagePanel.PanelForm.SubmitTask | client/src/components/StageDetailPanel.tsx:217-225 | the add-task button sends iff the title is not blank |
| StagePanel.PanelForm.SubmitBlocker | client/src/components/StageDetailPanel.tsx:227-235 | the add-blocker button sends iff the reason is not blank, always active |
| StagePanel.PanelForm.TaskAdded | client/src/components/StageDetailPanel.tsx:127-130 | the task dialog closes and its fields clear; the blocker form is untouched |
| StagePanel.PanelForm.BlockerAdded | client/src/components/StageDetailPanel.tsx:177-179 | the blocker dialog closes, reason and owner clear, the severity stays |
| EnvCanvas.DisplayName | client/src/components/EnvironmentFlowCanvas.tsx:51 | the env with its first letter upper-cased, followed by " Environment" |
| EnvCanvas.FirstOfEnv | client/src/components/EnvironmentFlowCanvas.tsx:47 | none iff no stage has the env; otherwise the first stage that has it |
| EnvCanvas.DoneCount | client/src/components/EnvironmentFlowCanvas.tsx:67 | the number of `done` statuses; at most the total; equal iff every task is done |
| EnvCanvas.LaneFor | client/src/components/EnvironmentFlowCanvas.tsx:47-74 | with a stage: its id, status, last update, its number of tasks, and the number of them that are `done`; without: a placeholder named after the env, counts 0, not started |
| EnvCanvas.Lanes | client/src/components/EnvironmentFlowCanvas.tsx:42-76 | empty without a stages field; otherwise exactly three lanes, staging, uat, prod |
| EnvCanvas.Nodes | client/src/components/EnvironmentFlowCanvas.tsx:78-102 | one node per environment lane, in lane order, with the lane's id and the lane itself |
| EnvCanvas.Edges | client/src/components/EnvironmentFlowCanvas.tsx:104-125 | one edge fewer than lanes (none for no lane); edge i runs from lane i to lane i+1 |
| EnvCanvas.NodesInARow | client/src/components/EnvironmentFlowCanvas.tsx:78-102 | node i sits at (150 + 320·i, 250): all on one line, left to right, 320 apart |
| EnvCanvas.EdgesChainNodes | client/src/components/EnvironmentFlowCanvas.tsx:104-125 | n−1 edges; edge i links node i to node i+1, is named "src-tgt", and is animated iff its source is done |
| EnvCanvas.ThreeEnvironments | client/src/components/EnvironmentFlowCanvas.tsx:42-125 | with a stages field: three environments in order, chained by two edges |
| EnvCanvas.MissingStagePlaceholder | client/src/components/EnvironmentFlowCanvas.tsx:48-58 | an env without a stage shows its placeholder |
| QueryClient.JoinUrl | client/src/lib/queryClient.ts:42-44 | the URL is the base, one slash, then the path without its own leading slash |
| QueryClient.LeadingSlashOptional | client/src/lib/queryClient.ts:42-44 | "/x" and "x" give the same URL |
| QueryClient.ApiRequest | client/src/lib/queryClient.ts:36-55 | a JSON body and its Content-Type are sent iff the data is truthy; credentials always |
| QueryClient.TruthyParams | client/src/lib/queryClient.ts:86-88 | exactly the entries with truthy values become parameters |
| QueryClient.TruthyParamsAppend | client/src/lib/queryClient.ts:86-88 | the parameters of concatenated entries are the concatenated parameters |
| QueryClient.FormEncode | client/src/lib/queryClient.ts:89-90 | the serialised query is empty iff there are no parameters |
| QueryClient.KeyUrl | client/src/lib/queryClient.ts:67-93 | a plain key is fetched at its joined path; an array key's URL starts with its joined first element, and is exactly that when there is no second element or the second is neither a string nor an object |
| QueryClient.QueryUrl | client/src/lib/queryClient.ts:67-93 | the URL built one entry at a time equals the URL the query key stands for |
| QueryClient.CollectParams | client/src/lib/queryClient.ts:85-88 | the parameters appended one entry at a time are exactly the truthy entries, in order |
| QueryClient.SegmentKey | client/src/lib/queryClient.ts:76-82 | a string second key element adds "/" and the segment |
| QueryClient.ParamsKey | client/src/lib/queryClient.ts:84-91 | "?" and the truthy parameters are added iff some value is truthy |
| QueryClient.LaterPartsIgnored | client/src/lib/queryClient.ts:76-93 | key elements after the second never change the URL |
| QueryClient.MessageAsWritten | client/src/lib/queryClient.ts:22-33 | as written, the error message is the body text if any, else the status text, whatever JSON the body holds |
| QueryClient.JsonMessageLost | client/src/lib/queryClient.ts:22-33 | a JSON body's `message` is never shown |
| QueryClient.Message | client/src/lib/queryClient.ts:22-33 | corrected: a truthy JSON message wins; otherwise the text or the status text |
| QueryClient.QueryOutcome | client/src/lib/queryClient.ts:99-104 | with the corrected message: null iff the query asks for it on a 401; an error iff the response is otherwise not ok; else the body |
| QueryClient.QueryOutcomeAsWritten | client/src/lib/queryClient.ts:99-104 | as written: the same cases, with the error message `throwIfResNotOk` produces |
| QueryClient.OutcomesDifferOnlyInMessage | client/src/lib/queryClient.ts:22-33 | the two outcomes fail together and differ only in the message, and only for a JSON body with a truthy `message` |
| Text.ToLower | client/src/components/ReleaseListPanel.tsx:20-21 | the same length, each character lower-cased |
| Text.ToUpper | client/src/components/TaskDetailsDialog.tsx:67 | the same length, each character upper-cased |
| Text.ToLowerOfToUpper | client/src/components/ReleaseListPanel.tsx:20-21 | lower-casing forgets any earlier upper-casing |
| Text.Trim | client/src/components/StageDetailPanel.tsx:218-232 | the result occurs in the input with only white space before and after it, and neither of its ends is white space; empty iff the input is all white space |
| Text.IncludesFrom | client/src/components/ReleaseListPanel.tsx:20-21 | true iff the substring occurs at some position from the given one on |
| Text.Includes | client/src/components/ReleaseListPanel.tsx:20-21 | true iff the substring occurs somewhere in the string |
| Text.OrElse | client/src/lib/queryClient.ts:31 | the string itself when it is truthy, otherwise the fallback |
| Text.Split | client/src/components/TaskDetailsDialog.tsx:64 | at least one piece, none containing the separator, and joining the pieces with the separator gives back the string |
| ReleaseList.Search | client/src/components/ReleaseListPanel.tsx:18-22 | exactly the releases whose lower-cased name or version contains the lower-cased query, in input order |
| ReleaseList.IncludesEmpty | client/src/components/ReleaseListPanel.tsx:20 | the empty query occurs in every string |
| ReleaseList.EmptyQuery | client/src/components/ReleaseListPanel.tsx:18-22 | the empty query keeps exactly the releases with a name or a version |
| ReleaseList.NoVersionMatchesByName | client/src/components/ReleaseListPanel.tsx:21 | a release without a version matches only through its name |
| ReleaseList.SearchIgnoresCase | client/src/components/ReleaseListPanel.tsx:18-22 | the search result does not depend on the query's case |
| ReleaseList.CardOf | client/src/components/ReleaseListPanel.tsx:66-68 | missing version shows "No version", missing status `not_started`, missing progress 0 |
| TaskDetails.ToggleItem | client/src/components/TaskDetailsDialog.tsx:53-60 | length, order, ids, texts and owners are kept; an item changes iff it has the id, and then only `completed` flips |
| TaskDetails.ToggleTwice | client/src/components/TaskDetailsDialog.tsx:55-57 | toggling the same id twice restores the list |
| TaskDetails.ToggleUnknown | client/src/components/TaskDetailsDialog.tsx:54-57 | an unknown id leaves the list unchanged |
| TaskDetails.Heads | client/src/components/TaskDetailsDialog.tsx:65 | at most one character per word |
| TaskDetails.Initials | client/src/components/TaskDetailsDialog.tsx:62-69 | at most two characters |
| TaskDetails.Words | client/src/components/TaskDetailsDialog.tsx:64 | the words are non-empty and contain no space |
| TaskDetails.FirstLetters | client/src/components/TaskDetailsDialog.tsx:65 | one character per word, its first |
| TaskDetails.HeadsAreFirstLetters | client/src/components/TaskDetailsDialog.tsx:64-66 | empty words between spaces add nothing |
| TaskDetails.InitialsOfWords | client/src/components/TaskDetailsDialog.tsx:62-69 | the initials are the upper-cased first letters of the first two words |
| TaskDetails.OneWord | client/src/components/TaskCard.tsx:47-54 | a one-word name gives exactly its upper-cased first letter |
| TaskCard.Display | client/src/components/TaskCard.tsx:20-25 | the check icon exactly for done, the clock exactly for doing |
| TaskCard.DisplayOf | client/src/components/TaskCard.tsx:20-25 | an entry exists for exactly the four task statuses |
| TaskCard.CaptionsDistinct | client/src/components/TaskCard.tsx:20-25 | no two statuses share a caption |
| EnvNode.EnvKey | client/src/components/EnvironmentNode.tsx:49 | the lower-cased env, or "" without one |
| EnvNode.EnvLabel | client/src/components/EnvironmentNode.tsx:20-28 | prod and production give Production, staging Staging, uat UAT, anything else or nothing Custom |
| EnvNode.LabelIgnoresCase | client/src/components/EnvironmentNode.tsx:49-50 | "STAGING" and "staging" give the same label |
| EnvNode.Progress | client/src/components/EnvironmentNode.tsx:52 | 0 without tasks; within 0..100; 100 iff every task is done |
| EnvNode.Bar | client/src/components/EnvironmentNode.tsx:101-104 | the destructive colour iff the status is blocked |
| Invite.ScreenOf | client/src/pages/InviteAccept.tsx:35-161 | loading first; then not found on an error or no invitation; then welcome on success; then the accept error (with a fallback message); then sign-in without a user; else the invitation |
| Invite.AcceptOutcomeBeforeSession | client/src/pages/InviteAccept.tsx:76-125 | signing in or out never changes a welcome or accept-error screen |
| Invite.Accept | client/src/pages/InviteAccept.tsx:22-27 | without a token accepting fails with no request; otherwise it POSTs to the token's accept path |
| Invite.InvitationQuery | client/src/pages/InviteAccept.tsx:16-20 | the query runs iff there is a token |
| Invite.NoTokenNoRequest | client/src/pages/InviteAccept.tsx:16-27 | without a token no request of either kind is made |
| Team.StatusText | client/src/pages/TeamManagement.tsx:90-92 | the same length, the first character upper-cased, the rest unchanged; "" stays "" |
| Team.StatusTextIdempotent | client/src/pages/TeamManagement.tsx:90-92 | capitalising twice is capitalising once |
| Team.IconOf | client/src/pages/TeamManagement.tsx:76-88 | pending clock, accepted check, declined or expired a cross, anything else none |
| Team.InviteForm.constructor | client/src/pages/TeamManagement.tsx:17-18 | empty email, role developer |
| Team.InviteForm.Submit | client/src/pages/TeamManagement.tsx:58-74 | no invite iff there is no workspace; otherwise the form's email and role for the first workspace |
| Team.InviteForm.Edit | client/src/pages/TeamManagement.tsx:17-18 | the fields take the typed values |
| Team.InviteForm.Sent | client/src/pages/TeamManagement.tsx:40-43 | after a send the email is "" and the role developer |

## Left out

- The health route (`server/routes.ts:9-22`) and the user methods of the store (`server/storage.ts:74-88`): no logic beyond a lookup.
- Connection set-up, the database driver and the email sender (`server/db.ts`, `scripts/init-db.ts`, `server/email.ts`): I/O.
- Validation and query building are library calls. They are modelled by their effect: Parse* functions for validation and sequence operations for the queries.
- `Routes.PatchReleaseRoute` and the Parse* functions (`Schema.ParseRelease`, `Schema.ParseTask`, `Schema.ParseBlocker`, `Schema.ParseReleasePatch`, `Schema.ParseStagePatch`, `Schema.ParseTaskPatch`, `Schema.ParseBlockerPatch`): request bodies are taken to be JSON whose fields have the column's type. A field of the wrong JSON type (`{"name": 5}`), which validation rejects with 400, is not modelled. `null` is modelled for the text and id columns of the partial updates (name, title, reason, release, stage). `null` for an enumeration or boolean column is not modelled, in a partial update or in a create body, where it would be rejected with 400 rather than take the default. In a create body, `null` for a required text field is rejected like its absence, and `null` for a nullable column is stored like its absence, so both are covered.
- `Promise.all`, React Query caching and invalidation, toasts, rendering and routing are not modelled. Independent reads give the same result in any order.
- Math.random placement in the canvas fallback: the `scatter` parameter of `TaskCanvas.Scatter` stands for it, with an arbitrary position per task.
- reactflow's `applyNodeChanges`, `applyEdgeChanges` and `addEdge`: their results are parameters of `ChangeNodes`, `ChangeEdges` and `Connect`.
- Canvas coordinates are opaque real numbers or NaN.
- `EnvNode.Progress`: uses exact real division, without floating-point rounding.
- `Dashboard.Percent`: `Math.round` on floating point is modelled as exact round-half-up on integers.
- `formatDistanceToNow` and all clock readings: timestamps are opaque, and `Now` only promises a later value.
- Case mapping (`toLowerCase`, `toUpperCase`) covers ASCII letters only. `Text.ToLower` and `Text.ToUpper` leave other characters alone.
- `EnvNode.EnvLabel`: keys such as "constructor" that the source's object lookup would find on the prototype are treated as unknown (Custom).
- The server defines no task-diagram route (GET or POST `/api/stages/:id/task-diagram`). `TaskCanvas.LayoutAt` states what the corrected query would need from one: the layout last saved there. The teams, invitations and workspaces routes are not part of this model; only their client side is modelled.
- `Storage.DatabaseStorage.Now`: the model has one clock. In the program, `now()` in the database and the server's clock are two clocks. The readers that sort by time (`Storage.DatabaseStorage.GetTasksByStage`, `Storage.DatabaseStorage.GetBlockersByStage`, `Storage.DatabaseStorage.GetActivityLog`, `Storage.NewestMatchingFacts`) therefore state the order only for one strictly increasing clock. Equal or out-of-order readings from the two clocks are not modelled.
- Routes.PutDiagramRoute: the body's `layout` is stored unvalidated, so any JSON value reaches the column. The model takes it to be absent, `null` or a node/edge layout; a number, a string or an object of another shape is not modelled.
- `Storage.DatabaseStorage.CreateOrUpdateDiagram`: the look-up-then-insert is not atomic. Two concurrent requests for a release without a diagram could insert two diagrams. The model runs requests one at a time, so "at most one diagram per release" holds only under that assumption.
- Schema.ParseBlocker, Schema.ParseStagePatch and Schema.ParseBlockerPatch: a timestamp arrives as a JSON string and is rejected. A body that is not JSON, where a date object could reach validation, is not modelled.
- `Team.InviteForm.Submit`: the request uses a relative URL rather than the API base URL. The model records what is sent, not where.
- `ReleaseList.EmptyQuery`: an empty search keeps every release that has a name or a version. The code tests the version too, so "every release with a name" would understate it.
- `Routes.PatchStageRoute`: the code can set `done` without the approval gate. The model follows the code.
- `StagePanel.TaskRequestBody`: the panel posts `description`, but the task table's column is `details`. Validation drops the field, so the description is never stored.
- Thin wrappers (hooks, pages and dialogs without logic of their own, example components) are not modelled.

## Findings

| source | as written | input that shows it | evidently intended | confidence | as-written member | corrected member |
|---|---|---|---|---|---|---|
| client/src/components/TaskFlowCanvas.tsx:98 | a `todo` task toggles to "in_progress", a stage status that task validation rejects with 400 | toggling a task whose status is "todo" | `todo` moves to "doing", the task status the card labels In Progress | not executed | TaskCanvas.ToggleTodoRejected | TaskCanvas.Toggle |
| client/src/components/TaskFlowCanvas.tsx:72-75 | the saved-layout key `['/api/stages', stageId, 'task-diagram']` goes to the default query function, which drops key elements after the second, so the query fetches `/api/stages/:id`; that response has no `layout`, and the saved-layout branch never runs | any stage whose layout was saved: the next refresh scatters its nodes | the query fetches the task-diagram path, and a saved layout reloads where it was saved | not executed | TaskCanvas.SavedLayoutNeverReached | TaskCanvas.SaveThenReload |
| server/routes.ts:190-197 | the approval hands `endedAt` to the update as an ISO string; the timestamp column converts its value with the date method `toISOString`, which a string lacks, so the update throws and the route answers 500 | approving a stage whose required tasks are all done | the end time is handed over as a date, the stage becomes `done` and `stage.approved` is logged | not executed | Routes.ApproveStageRouteAsWritten | Routes.ApproveStageRoute |
| client/src/lib/queryClient.ts:22-33 | the error carrying `json.message` is thrown inside the `try` and caught by its own `catch`, which throws `text \|\| statusText` instead | a 404 whose body is `{"message":"Release not found"}` shows the raw JSON | a truthy JSON `message` becomes the error message | not executed | QueryClient.JsonMessageLost | QueryClient.Message |
