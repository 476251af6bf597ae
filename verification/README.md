# Workforce task registry — a Dafny model

This project models the core of a small workforce task-tracking backend: the
in-memory `TaskService` that registers staff, creates tasks, retires and
clones tasks on reassignment, changes priorities, records comments and
activity entries, and answers filtered queries, together with the
`TaskMapper` projection that turns a task into its external view by
replacing the assigned staff member with the staff name.

The registry is an immutable `Store`. It holds a task map, a staff map,
and the values of the two identifier generators. Both generators start at 0,
so the first identifier each one issues is 1. Every lifecycle operation is a
pure function from the store before the call to a `Reply`. A `Reply`
holds the store after the call and a `Result`. So "a failed call changes
nothing" is a stated postcondition (`r.store == s`), not an accident of
the encoding. The source's not-found exceptions become the errors
`TaskNotFound` and `StaffNotFound`. The controller's rejection of a
window whose start lies after its end becomes `InvalidRange`.

Modelling choices:

- A `LocalDate` is an integer day number. `isAfter` is `>` and `isBefore` is `<`.
- Clock readings (`LocalDateTime.now()`) are parameters.
  `addCommentToTask` reads the clock twice, so it takes two parameters.
- A task holds its staff member by value. Staff records are never changed
  after registration, so a copy and the source's shared reference agree.
- The queries are methods. They visit the map's keys in an arbitrary order,
  as `HashMap` iteration is unspecified. Each returns its list of views and a
  ghost list of the keys the views came from. The predicate `Lists` says the
  list is sound and complete and names no key twice. No order is promised.
- Queries take the store by value, so they cannot change it.

Modules: `Model`, `Dto` and `Errors` (`model.dfy`) hold the records.
`TaskMapper` (`task_mapper.dfy`) holds the projection. `TaskService`
(`task_service.dfy`) holds the store, the operations and the queries.
`TaskController` (`task_controller.dfy`) holds the range check.
`QueryFacts` (`query_facts.dfy`) and `LifecycleFacts`
(`lifecycle_facts.dfy`) hold the lemmas that relate the operations.

Two facts about the source shape the model:

- The `start > end` check is made only by the controller
  (TaskController.java:65, :77); the service's date queries are total and
  accept an inverted window.
- The service has no staff lookup; the staff map is read only in
  `createTask` and `reassignTask` (TaskService.java:34, :93).

## Model

| member | source | states |
|---|---|---|
| TaskMapper.TaskToDto | src/main/java/com/sumitav_railse_assignment/work_force_mgmt/mapper/TaskMapper.java:12-15 | the view carries the assigned staff member's name, and the task is rebuilt exactly from the view plus that staff record; so id, title, status, priority, dates, comments and history all pass through unchanged |
| TaskMapper.SameViewIffSameButStaffId | src/main/java/com/sumitav_railse_assignment/work_force_mgmt/mapper/TaskMapper.java:12-15 | two tasks have equal views exactly when they differ at most in the id of equally named staff: the projection loses only the staff id |
| TaskService.Empty | src/main/java/com/sumitav_railse_assignment/work_force_mgmt/service/TaskService.java:23-26 | the initial registry is empty, both generators are at 0 (so the first task id and the first staff id issued are 1), and it satisfies the registry invariant (keys issued by the generators, keys equal record ids, staff of every task registered) |
| TaskService.AddStaff | src/main/java/com/sumitav_railse_assignment/work_force_mgmt/service/TaskService.java:77-81 | always succeeds; the new member gets the next staff id, which is fresh in a valid registry; tasks and the task generator are untouched; the invariant is kept |
| TaskService.CreateTask | src/main/java/com/sumitav_railse_assignment/work_force_mgmt/service/TaskService.java:33-61 | fails with StaffNotFound exactly when the staff id is unknown, and then changes nothing; otherwise stores exactly one new task under the next task id, larger than every existing key, ACTIVE with the request's fields, the resolved staff and empty trails; returns its view; the invariant is kept |
| TaskService.ReassignTask | src/main/java/com/sumitav_railse_assignment/work_force_mgmt/service/TaskService.java:87-125 | unknown task gives TaskNotFound, checked first; then unknown staff gives StaffNotFound; both leave the store and generators unchanged; otherwise the old task becomes CANCELLED with everything else kept, one ACTIVE clone (title, priority, dates copied, new staff, empty trails) is added under the next id, all other tasks are unchanged; the old status is not consulted |
| TaskService.UpdateTaskPriority | src/main/java/com/sumitav_railse_assignment/work_force_mgmt/service/TaskService.java:160-165 | unknown id gives TaskNotFound with no change; otherwise only that task's priority changes (comments and history untouched, nothing else in the store changes) and its view is returned |
| TaskService.FindTaskById | src/main/java/com/sumitav_railse_assignment/work_force_mgmt/service/TaskService.java:227-233 | succeeds exactly for a stored id, with the stored task; otherwise TaskNotFound |
| TaskService.LogActivity | src/main/java/com/sumitav_railse_assignment/work_force_mgmt/service/TaskService.java:182-186 | unknown id gives TaskNotFound with no change; otherwise exactly one entry (actor, description, time) is appended to that task's history, earlier entries kept in order, nothing else changes |
| TaskService.AddCommentToTask | src/main/java/com/sumitav_railse_assignment/work_force_mgmt/service/TaskService.java:192-201 | unknown id gives TaskNotFound with no change; otherwise exactly one comment (commenter, message, first clock reading) and exactly one activity entry (commenter, "Added a comment", second clock reading) are appended, the request's own timestamp is ignored, nothing else changes |
| TaskService.GetTaskDetails | src/main/java/com/sumitav_railse_assignment/work_force_mgmt/service/TaskService.java:206-221 | the hand-built detail view equals the projector's view of the stored task; TaskNotFound exactly for an unknown id |
| TaskService.Select | src/main/java/com/sumitav_railse_assignment/work_force_mgmt/service/TaskService.java:67-175 | the filter-then-project stream lists each selected stored task's view exactly once and nothing else, in some order |
| TaskService.GetAllTasks | src/main/java/com/sumitav_railse_assignment/work_force_mgmt/service/TaskService.java:67-71 | lists every stored task, cancelled ones included |
| TaskService.GetTasksByDateRange | src/main/java/com/sumitav_railse_assignment/work_force_mgmt/service/TaskService.java:130-138 | lists exactly the non-cancelled tasks with startDate <= end and dueDate >= start; none listed is cancelled |
| TaskService.GetSmartTasksByDateRange | src/main/java/com/sumitav_railse_assignment/work_force_mgmt/service/TaskService.java:144-155 | lists exactly the ACTIVE tasks that start within [start, end] or started before start and are not due before start |
| TaskService.GetTasksByPriority | src/main/java/com/sumitav_railse_assignment/work_force_mgmt/service/TaskService.java:170-175 | lists exactly the non-cancelled tasks of the given priority |
| TaskController.GetTasksByDateRange | src/main/java/com/sumitav_railse_assignment/work_force_mgmt/controller/TaskController.java:60-69 | fails with InvalidRange exactly when start is after end; otherwise gives the service's date-range listing |
| TaskController.GetSmartTasks | src/main/java/com/sumitav_railse_assignment/work_force_mgmt/controller/TaskController.java:72-81 | fails with InvalidRange exactly when start is after end; otherwise gives the service's smart listing |
| QueryFacts.ListingIsMatching | src/main/java/com/sumitav_railse_assignment/work_force_mgmt/service/TaskService.java:130-138 | a listing's keys are exactly the selected keys and its length is their number |
| QueryFacts.DateRangeWithinSmart | src/main/java/com/sumitav_railse_assignment/work_force_mgmt/service/TaskService.java:130-155 | every task the overlap query keeps is kept by the smart query |
| QueryFacts.SmartAgreesWithDateRange | src/main/java/com/sumitav_railse_assignment/work_force_mgmt/service/TaskService.java:144-155 | for start <= end and a task with startDate <= dueDate, the smart and overlap selections agree |
| QueryFacts.SmartListingAgreesWithDateRange | src/main/java/com/sumitav_railse_assignment/work_force_mgmt/service/TaskService.java:130-155 | over well-dated tasks and start <= end, the two date queries list the same keys and the same number of views |
| QueryFacts.InvertedTaskSplitsViews | src/main/java/com/sumitav_railse_assignment/work_force_mgmt/service/TaskService.java:144-155 | a task due before it starts can be kept by the smart query and not by the overlap query |
| QueryFacts.InvertedWindowSplitsViews | src/main/java/com/sumitav_railse_assignment/work_force_mgmt/service/TaskService.java:144-155 | with start after end, a task open before start is kept by the smart query and not by the overlap query, which is why the controller's check matters |
| QueryFacts.CancelledOnlyInAll | src/main/java/com/sumitav_railse_assignment/work_force_mgmt/service/TaskService.java:130-175 | a cancelled task is kept by the unfiltered query and by no other |
| QueryFacts.OpenTaskExample | src/main/java/com/sumitav_railse_assignment/work_force_mgmt/service/TaskService.java:130-155 | an ACTIVE task of 2024-01-10..2024-01-20 is in both date views of 2024-01-15..2024-01-16 and in neither once cancelled |
| LifecycleFacts.AddStaffSucceeds | src/main/java/com/sumitav_railse_assignment/work_force_mgmt/service/TaskService.java:77-81 | registering staff keeps every task, status and trail |
| LifecycleFacts.CreateTaskSucceeds | src/main/java/com/sumitav_railse_assignment/work_force_mgmt/service/TaskService.java:33-61 | creating a task keeps every stored task and numbers the new one above the previous generator value |
| LifecycleFacts.ReassignSucceeds | src/main/java/com/sumitav_railse_assignment/work_force_mgmt/service/TaskService.java:87-125 | a reassignment keeps every other status and leaves the reassigned task CANCELLED when it succeeds |
| LifecycleFacts.UpdatePrioritySucceeds | src/main/java/com/sumitav_railse_assignment/work_force_mgmt/service/TaskService.java:160-165 | a priority change keeps every status, identity and trail |
| LifecycleFacts.LogActivitySucceeds | src/main/java/com/sumitav_railse_assignment/work_force_mgmt/service/TaskService.java:182-186 | logging keeps every status and leaves every task other than the named one exactly as it was |
| LifecycleFacts.AddCommentSucceeds | src/main/java/com/sumitav_railse_assignment/work_force_mgmt/service/TaskService.java:192-201 | commenting keeps every status and leaves every task other than the commented one exactly as it was |
| LifecycleFacts.ApplySucceeds | src/main/java/com/sumitav_railse_assignment/work_force_mgmt/service/TaskService.java:33-201 | any one call keeps the invariant, removes nothing, and the only status change it can make is ACTIVE to CANCELLED on the task being reassigned |
| LifecycleFacts.RunSucceeds | src/main/java/com/sumitav_railse_assignment/work_force_mgmt/service/TaskService.java:33-201 | any sequence of calls keeps the invariant; no task is removed and no id reused; ids of later tasks are larger; a task's id, title, dates and staff never change; a cancelled task stays cancelled; comments and history only grow at the end |
| LifecycleFacts.ReassignRetiresFromQueries | src/main/java/com/sumitav_railse_assignment/work_force_mgmt/service/TaskService.java:98-175 | after a reassignment the old task leaves every filtered query, the clone is selected exactly where the old task would be if ACTIVE, and no other task's selection changes |
| LifecycleFacts.CommentIsLoggedActivity | src/main/java/com/sumitav_railse_assignment/work_force_mgmt/service/TaskService.java:182-201 | commenting leaves the same activity history as logging "Added a comment" by the commenter |
| LifecycleFacts.FirstIdsAreOne | src/main/java/com/sumitav_railse_assignment/work_force_mgmt/service/TaskService.java:25-26 | the first staff member registered gets id 1 for any name, and a task created next gets id 1 for any request that succeeds |
| LifecycleFacts.ReassignScenario | src/main/java/com/sumitav_railse_assignment/work_force_mgmt/service/TaskService.java:77-125 | Alice and Bob get staff ids 1 and 2, task T1 gets id 1, reassigning it to Bob returns ACTIVE task 2 named for Bob, and task 1 remains stored as CANCELLED |

## Left out

- HTTP routing, status codes (404, 400, 201) and messages of the controller, other than the start-after-end check: transport plumbing.
- Spring wiring, application bootstrap and the generated builders and accessors: framework plumbing with no behaviour of its own.
- Concurrency: the atomicity of the `AtomicLong` generators and the unsynchronised `HashMap`s. The model is sequential.
- Exception types and message texts: they are reduced to the three error values.
- The order of query results: `HashMap` iteration order is unspecified, so no order is stated.
- Null inputs (a missing staff id, title, dates or priority): the model's fields are always present. In the source a missing staff id is reported as not found, and a missing date can make the two date queries throw on a task that passes their status filter.
- Identifier width: the generators are unbounded naturals, so the 64-bit wrap-around of a `long` after 2^63 identifiers is not modelled.
- Aliasing: the view built by `getTaskDetails` holds the stored task's own comment and history lists (TaskService.java:217-218), so later appends show through it. Whether the mapper's views share the lists is not known, because its implementation is generated code. The model has value semantics and cannot express either.
