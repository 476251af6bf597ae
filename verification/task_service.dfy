/** The task service: an in-memory registry of tasks and staff with two
    independent identifier generators, the lifecycle operations that change
    it, and the filtered queries that read it. Each operation takes the
    registry as it is before the call and returns it as it is afterwards. */
module TaskService {
  import opened Model
  import opened Dto
  import opened Errors
  import opened TaskMapper

  /** The registry. `lastTaskId` and `lastStaffId` are the values of the two
      generators: both start at 0 and the next identifier issued is the
      value plus one. */
  datatype Store = Store(
    tasks: map<Id, Task>,
    staff: map<Id, Staff>,
    lastTaskId: nat,
    lastStaffId: nat
  )

  /** The registry after an operation, with the operation's outcome. */
  datatype Reply<+T> = Reply(store: Store, result: Result<T>)

  /** `member` is the record the registry holds under its own identifier. */
  predicate Registered(s: Store, member: Staff) {
    member.id in s.staff && s.staff[member.id] == member
  }

  /** What the registry keeps true between calls: every key was issued by its
      generator and is the record's own identifier, and every task's staff
      member is registered. */
  ghost predicate Valid(s: Store) {
    && (forall id :: id in s.tasks ==> 1 <= id <= s.lastTaskId && s.tasks[id].id == id)
    && (forall id :: id in s.staff ==> 1 <= id <= s.lastStaffId && s.staff[id].id == id)
    && (forall id :: id in s.tasks ==> Registered(s, s.tasks[id].assignedStaff))
  }

  /** A task as it is when created: ACTIVE, with no comments and no history. */
  predicate IsFreshTask(t: Task, id: Id, title: string, priority: Priority,
                        startDate: Date, dueDate: Date, assignee: Staff)
  {
    && t.id == id && t.title == title && t.status == Active && t.priority == priority
    && t.startDate == startDate && t.dueDate == dueDate && t.assignedStaff == assignee
    && t.comments == [] && t.activityHistory == []
  }

  /** `s'` differs from `s` in the task stored under `id` at most. */
  predicate OnlyTaskChanged(s: Store, s': Store, id: Id) {
    && s'.tasks.Keys == s.tasks.Keys
    && (forall k :: k in s.tasks && k != id ==> s'.tasks[k] == s.tasks[k])
    && s'.staff == s.staff
    && s'.lastTaskId == s.lastTaskId
    && s'.lastStaffId == s.lastStaffId
  }

  /** `t'` is `t` with the same identity, title, status, priority, dates and
      staff; only its comments and activity history may differ. */
  predicate SameExceptTrail(t: Task, t': Task) {
    t'.(comments := t.comments, activityHistory := t.activityHistory) == t
  }

  /** The registry before any call. */
  function Empty(): (s: Store)
    ensures Valid(s)
    ensures s.tasks == map[] && s.staff == map[]
    ensures s.lastTaskId == 0 && s.lastStaffId == 0
  {
    Store(map[], map[], 0, 0)
  }

  /** Registers a staff member under the next staff identifier; any name is
      accepted. */
  function AddStaff(s: Store, name: string): (r: Reply<Staff>)
    ensures r.result.Success?
    ensures r.result.value.name == name
    ensures r.result.value.id == s.lastStaffId + 1 == r.store.lastStaffId
    ensures r.store.staff == s.staff[r.result.value.id := r.result.value]
    ensures r.store.tasks == s.tasks && r.store.lastTaskId == s.lastTaskId
    ensures Valid(s) ==> r.result.value.id !in s.staff && Valid(r.store)
  {
    var member := Staff(s.lastStaffId + 1, name);
    Reply(s.(staff := s.staff[member.id := member], lastStaffId := member.id), Success(member))
  }

  /** Creates an ACTIVE task for a registered staff member under the next
      task identifier. An unknown staff identifier fails before anything is
      issued or stored. */
  function CreateTask(s: Store, request: CreateTaskRequest): (r: Reply<TaskDto>)
    ensures r.result.Failure? <==> request.staffId !in s.staff
    ensures r.result.Failure? ==> r.result.error == StaffNotFound && r.store == s
    ensures r.result.Success? ==>
              var id := s.lastTaskId + 1;
              && r.store.lastTaskId == id
              && id in r.store.tasks
              && r.store.tasks == s.tasks[id := r.store.tasks[id]]
              && IsFreshTask(r.store.tasks[id], id, request.title, request.priority,
                             request.startDate, request.dueDate, s.staff[request.staffId])
              && r.result.value == TaskToDto(r.store.tasks[id])
              && r.store.staff == s.staff && r.store.lastStaffId == s.lastStaffId
    ensures Valid(s) && r.result.Success? ==>
              && (forall k :: k in s.tasks ==> k < r.result.value.id)
              && Valid(r.store)
  {
    if request.staffId !in s.staff then
      Reply(s, Failure(StaffNotFound))
    else
      var id := s.lastTaskId + 1;
      var task := Task(id, request.title, Active, request.priority, request.startDate,
                       request.dueDate, s.staff[request.staffId], [], []);
      Reply(s.(tasks := s.tasks[id := task], lastTaskId := id), Success(TaskToDto(task)))
  }

  /** Retires a task and clones it for another staff member: the task is
      cancelled in place and an ACTIVE copy with the same title, priority
      and dates, but no comments or history, is stored under the next task
      identifier. Both lookups happen before anything changes; the current
      status of the task is not consulted. */
  function ReassignTask(s: Store, taskId: Id, newStaffId: Id): (r: Reply<TaskDto>)
    ensures taskId !in s.tasks ==> r == Reply(s, Failure(TaskNotFound))
    ensures taskId in s.tasks && newStaffId !in s.staff ==> r == Reply(s, Failure(StaffNotFound))
    ensures taskId in s.tasks && newStaffId in s.staff ==>
              var prior := s.tasks[taskId];
              var id := s.lastTaskId + 1;
              && r.result.Success?
              && r.store.lastTaskId == id
              && r.store.tasks.Keys == s.tasks.Keys + {id}
              && IsFreshTask(r.store.tasks[id], id, prior.title, prior.priority,
                             prior.startDate, prior.dueDate, s.staff[newStaffId])
              && r.result.value == TaskToDto(r.store.tasks[id])
              && (id != taskId ==> r.store.tasks[taskId] == prior.(status := Cancelled))
              && (forall k :: k in s.tasks && k != taskId && k != id ==> r.store.tasks[k] == s.tasks[k])
              && r.store.staff == s.staff && r.store.lastStaffId == s.lastStaffId
    ensures Valid(s) && r.result.Success? ==>
              && r.result.value.id != taskId
              && (forall k :: k in s.tasks ==> k < r.result.value.id)
              && Valid(r.store)
  {
    if taskId !in s.tasks then
      Reply(s, Failure(TaskNotFound))
    else if newStaffId !in s.staff then
      Reply(s, Failure(StaffNotFound))
    else
      var prior := s.tasks[taskId];
      var id := s.lastTaskId + 1;
      var clone := Task(id, prior.title, Active, prior.priority, prior.startDate,
                        prior.dueDate, s.staff[newStaffId], [], []);
      var tasks := s.tasks[taskId := prior.(status := Cancelled)][id := clone];
      Reply(s.(tasks := tasks, lastTaskId := id), Success(TaskToDto(clone)))
  }

  /** Changes the priority of a task in place; nothing is appended to its
      comments or activity history. */
  function UpdateTaskPriority(s: Store, taskId: Id, priority: Priority): (r: Reply<TaskDto>)
    ensures taskId !in s.tasks ==> r == Reply(s, Failure(TaskNotFound))
    ensures taskId in s.tasks ==>
              && r.result.Success?
              && OnlyTaskChanged(s, r.store, taskId)
              && var prior := s.tasks[taskId];
              var t := r.store.tasks[taskId];
              && t.priority == priority
              && t.(priority := prior.priority) == prior
              && r.result.value == TaskToDto(t)
    ensures Valid(s) ==> Valid(r.store)
  {
    if taskId !in s.tasks then
      Reply(s, Failure(TaskNotFound))
    else
      var t := s.tasks[taskId].(priority := priority);
      Reply(s.(tasks := s.tasks[taskId := t]), Success(TaskToDto(t)))
  }

  /** The task stored under `taskId`, or `TaskNotFound`. */
  function FindTaskById(s: Store, taskId: Id): (r: Result<Task>)
    ensures r.Success? <==> taskId in s.tasks
    ensures r.Failure? ==> r.error == TaskNotFound
    ensures r.Success? ==> r.value == s.tasks[taskId]
  {
    if taskId in s.tasks then Success(s.tasks[taskId]) else Failure(TaskNotFound)
  }

  /** Appends one entry to a task's activity history. */
  function LogActivity(s: Store, taskId: Id, actor: string, description: string,
                       now: Timestamp): (r: Reply<()>)
    ensures r.result.Failure? <==> taskId !in s.tasks
    ensures r.result.Failure? ==> r.result.error == TaskNotFound && r.store == s
    ensures r.result.Success? ==>
              && OnlyTaskChanged(s, r.store, taskId)
              && var prior := s.tasks[taskId];
              var t := r.store.tasks[taskId];
              && SameExceptTrail(prior, t)
              && t.comments == prior.comments
              && t.activityHistory == prior.activityHistory + [ActivityLog(actor, description, now)]
    ensures Valid(s) ==> Valid(r.store)
  {
    match FindTaskById(s, taskId)
    case Failure(e) => Reply(s, Failure(e))
    case Success(task) =>
      var entry := ActivityLog(actor, description, now);
      var t := task.(activityHistory := task.activityHistory + [entry]);
      Reply(s.(tasks := s.tasks[taskId := t]), Success(()))
  }

  /** The description of the activity entry a comment leaves behind. */
  const CommentActivity: string := "Added a comment"

  /** Appends a comment built from the request's commenter and message (the
      request's own timestamp is ignored), then one activity entry by the
      commenter. The clock is read once for each: `commentedAt` stamps the
      comment and `loggedAt` the activity entry. */
  function AddCommentToTask(s: Store, taskId: Id, request: Comment,
                            commentedAt: Timestamp, loggedAt: Timestamp): (r: Reply<Comment>)
    ensures r.result.Failure? <==> taskId !in s.tasks
    ensures r.result.Failure? ==> r.result.error == TaskNotFound && r.store == s
    ensures r.result.Success? ==>
              && OnlyTaskChanged(s, r.store, taskId)
              && var prior := s.tasks[taskId];
              var t := r.store.tasks[taskId];
              && r.result.value == Comment(request.commenter, request.message, commentedAt)
              && SameExceptTrail(prior, t)
              && t.comments == prior.comments + [r.result.value]
              && t.activityHistory
                 == prior.activityHistory + [ActivityLog(request.commenter, CommentActivity, loggedAt)]
    ensures Valid(s) ==> Valid(r.store)
  {
    match FindTaskById(s, taskId)
    case Failure(e) => Reply(s, Failure(e))
    case Success(task) =>
      var comment := Comment(request.commenter, request.message, commentedAt);
      var entry := ActivityLog(request.commenter, CommentActivity, loggedAt);
      var t := task.(comments := task.comments + [comment],
                     activityHistory := task.activityHistory + [entry]);
      Reply(s.(tasks := s.tasks[taskId := t]), Success(comment))
  }

  /** The detailed view of one task, assembled field by field; it is the same
      view the projector gives. */
  function GetTaskDetails(s: Store, taskId: Id): (r: Result<TaskDto>)
    ensures r.Success? <==> taskId in s.tasks
    ensures r.Failure? ==> r.error == TaskNotFound
    ensures r.Success? ==> r.value == TaskToDto(s.tasks[taskId])
  {
    match FindTaskById(s, taskId)
    case Failure(e) => Failure(e)
    case Success(task) =>
      Success(TaskDto(task.id, task.title, task.status, task.priority, task.startDate,
                      task.dueDate, task.assignedStaff.name, task.comments, task.activityHistory))
  }

  // ---------------------------------------------------------------------
  // Queries

  /** The selections the queries make. */
  datatype Filter =
    | All
    | DateRange(start: Date, end: Date)
    | Smart(start: Date, end: Date)
    | ByPriority(priority: Priority)

  /** The task's `[startDate, dueDate]` interval meets `[start, end]`. */
  predicate Overlaps(t: Task, start: Date, end: Date) {
    !IsAfter(t.startDate, end) && !IsBefore(t.dueDate, start)
  }

  /** The task starts within `[start, end]`, or started before `start` and is
      not yet due at `start`. */
  predicate OpenInWindow(t: Task, start: Date, end: Date) {
    || (!IsAfter(t.startDate, end) && !IsBefore(t.startDate, start))
    || (IsBefore(t.startDate, start) && !IsBefore(t.dueDate, start))
  }

  predicate Keeps(f: Filter, t: Task) {
    match f
    case All => true
    case DateRange(start, end) => t.status != Cancelled && Overlaps(t, start, end)
    case Smart(start, end) => t.status == Active && OpenInWindow(t, start, end)
    case ByPriority(p) => t.priority == p && t.status != Cancelled
  }

  /** No identifier occurs twice in `xs`. */
  ghost predicate Distinct(xs: seq<Id>) {
    forall i, j :: 0 <= i < j < |xs| ==> xs[i] != xs[j]
  }

  /** `views` lists the selected tasks of `tasks`, each once, in some order:
      `ids` are the keys the views were drawn from. */
  ghost predicate Lists(tasks: map<Id, Task>, f: Filter, views: seq<TaskDto>, ids: seq<Id>) {
    && |views| == |ids|
    && (forall i :: 0 <= i < |ids| ==>
          ids[i] in tasks && Keeps(f, tasks[ids[i]]) && views[i] == TaskToDto(tasks[ids[i]]))
    && Distinct(ids)
    && (forall id :: id in tasks && Keeps(f, tasks[id]) ==> id in ids)
  }

  /** A non-empty key set has a member. */
  lemma NonEmptyHasMember(keys: set<Id>)
    requires keys != {}
    ensures exists k :: k in keys
  {
    if forall k :: k !in keys {
      assert false;
    }
  }

  /** Streams the stored tasks through the filter and the projector. The map
      is visited in an unspecified order, so any order may come out. */
  method Select(tasks: map<Id, Task>, f: Filter) returns (views: seq<TaskDto>, ghost ids: seq<Id>)
    ensures Lists(tasks, f, views, ids)
    ensures forall id :: id in tasks && Keeps(f, tasks[id]) ==> TaskToDto(tasks[id]) in views
  {
    var rest := tasks.Keys;
    views, ids := [], [];
    while rest != {}
      invariant rest <= tasks.Keys
      invariant |views| == |ids|
      invariant forall i :: 0 <= i < |ids| ==>
                  ids[i] in tasks && ids[i] !in rest && Keeps(f, tasks[ids[i]])
                  && views[i] == TaskToDto(tasks[ids[i]])
      invariant Distinct(ids)
      invariant forall id :: id in tasks && id !in rest && Keeps(f, tasks[id]) ==> id in ids
      decreases rest
    {
      NonEmptyHasMember(rest);
      var k :| k in rest;
      if Keeps(f, tasks[k]) {
        views, ids := views + [TaskToDto(tasks[k])], ids + [k];
      }
      rest := rest - {k};
    }
  }

  /** Every stored task, cancelled ones included. */
  method GetAllTasks(s: Store) returns (views: seq<TaskDto>, ghost ids: seq<Id>)
    ensures Lists(s.tasks, All, views, ids)
    ensures forall id :: id in s.tasks <==> id in ids
    ensures forall id :: id in s.tasks ==> TaskToDto(s.tasks[id]) in views
  {
    views, ids := Select(s.tasks, All);
  }

  /** The tasks that are not cancelled and whose dates overlap `[start, end]`;
      the range itself is not checked here. */
  method GetTasksByDateRange(s: Store, start: Date, end: Date)
    returns (views: seq<TaskDto>, ghost ids: seq<Id>)
    ensures Lists(s.tasks, DateRange(start, end), views, ids)
    ensures forall i :: 0 <= i < |views| ==> views[i].status != Cancelled
  {
    views, ids := Select(s.tasks, DateRange(start, end));
  }

  /** The ACTIVE tasks that start in `[start, end]` or are still open at
      `start`; the range itself is not checked here. */
  method GetSmartTasksByDateRange(s: Store, start: Date, end: Date)
    returns (views: seq<TaskDto>, ghost ids: seq<Id>)
    ensures Lists(s.tasks, Smart(start, end), views, ids)
    ensures forall i :: 0 <= i < |views| ==> views[i].status == Active
  {
    views, ids := Select(s.tasks, Smart(start, end));
  }

  /** The tasks of exactly this priority that are not cancelled. */
  method GetTasksByPriority(s: Store, priority: Priority)
    returns (views: seq<TaskDto>, ghost ids: seq<Id>)
    ensures Lists(s.tasks, ByPriority(priority), views, ids)
    ensures forall i :: 0 <= i < |views| ==>
              views[i].priority == priority && views[i].status != Cancelled
  {
    views, ids := Select(s.tasks, ByPriority(priority));
  }
}
