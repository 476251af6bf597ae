/** Facts about sequences of lifecycle operations: the registry invariant is
    kept, tasks are never removed, a stored task's identity never changes,
    its trail only grows, and its only status change is ACTIVE to CANCELLED,
    made by a reassignment. */
module LifecycleFacts {
  import opened Model
  import opened Dto
  import opened TaskService
  import opened QueryFacts

  /** One call of a lifecycle operation, with the clock readings it takes. */
  datatype Command =
    | AddStaffCall(name: string)
    | CreateTaskCall(request: CreateTaskRequest)
    | ReassignCall(taskId: Id, newStaffId: Id)
    | UpdatePriorityCall(taskId: Id, priority: Priority)
    | LogActivityCall(taskId: Id, actor: string, description: string, now: Timestamp)
    | AddCommentCall(taskId: Id, comment: Comment, commentedAt: Timestamp, loggedAt: Timestamp)

  /** The registry after one call, whether it succeeded or not. */
  function Apply(s: Store, c: Command): Store {
    match c
    case AddStaffCall(name) => AddStaff(s, name).store
    case CreateTaskCall(request) => CreateTask(s, request).store
    case ReassignCall(taskId, newStaffId) => ReassignTask(s, taskId, newStaffId).store
    case UpdatePriorityCall(taskId, p) => UpdateTaskPriority(s, taskId, p).store
    case LogActivityCall(taskId, actor, description, now) =>
      LogActivity(s, taskId, actor, description, now).store
    case AddCommentCall(taskId, comment, commentedAt, loggedAt) =>
      AddCommentToTask(s, taskId, comment, commentedAt, loggedAt).store
  }

  /** The registry after a sequence of calls, in order. */
  function Run(s: Store, cs: seq<Command>): Store
    decreases |cs|
  {
    if cs == [] then s else Run(Apply(s, cs[0]), cs[1..])
  }

  /** `t'` is a later state of `t`: same identity, title, dates and staff;
      a cancelled task stays cancelled; comments and history are only
      appended to. */
  predicate Evolves(t: Task, t': Task) {
    && t'.id == t.id && t'.title == t.title
    && t'.startDate == t.startDate && t'.dueDate == t.dueDate
    && t'.assignedStaff == t.assignedStaff
    && (t.status == Cancelled ==> t'.status == Cancelled)
    && t.comments <= t'.comments
    && t.activityHistory <= t'.activityHistory
  }

  /** `s'` is a later state of the registry `s`: no task or staff member is
      lost, the stored tasks evolve, the generators never go back, and every
      task added since is numbered above `s`'s last task id. */
  ghost predicate Succeeds(s: Store, s': Store) {
    && s.lastTaskId <= s'.lastTaskId
    && s.lastStaffId <= s'.lastStaffId
    && (forall k :: k in s.staff ==> k in s'.staff && s'.staff[k] == s.staff[k])
    && (forall k :: k in s.tasks ==> k in s'.tasks && Evolves(s.tasks[k], s'.tasks[k]))
    && (forall k :: k in s'.tasks && k !in s.tasks ==> s.lastTaskId < k)
  }

  /** Later states of later states are later states. */
  lemma EvolvesTransitive(t: Task, t': Task, t'': Task)
    requires Evolves(t, t') && Evolves(t', t'')
    ensures Evolves(t, t'')
  {
  }

  /** Every stored task outside `except` is still stored in `s'`, with the
      status it had in `s`. */
  ghost predicate StatusesKept(s: Store, s': Store, except: set<Id>) {
    forall k :: k in s.tasks && k !in except ==> k in s'.tasks && s'.tasks[k].status == s.tasks[k].status
  }

  /** Registering staff moves the registry forward and touches no task. */
  lemma AddStaffSucceeds(s: Store, name: string)
    requires Valid(s)
    ensures Succeeds(s, AddStaff(s, name).store)
    ensures StatusesKept(s, AddStaff(s, name).store, {})
  {
  }

  /** Creating a task adds a fresh key above every existing one and leaves
      the stored tasks as they were. */
  lemma CreateTaskSucceeds(s: Store, request: CreateTaskRequest)
    requires Valid(s)
    ensures Succeeds(s, CreateTask(s, request).store)
    ensures StatusesKept(s, CreateTask(s, request).store, {})
  {
    var r := CreateTask(s, request);
    if r.result.Success? {
      forall k | k in s.tasks ensures k in r.store.tasks && r.store.tasks[k] == s.tasks[k] {
        assert k < r.result.value.id;
      }
    }
  }

  /** A reassignment changes no status but the reassigned task's, which it
      sets to CANCELLED. */
  lemma ReassignSucceeds(s: Store, taskId: Id, newStaffId: Id)
    requires Valid(s)
    ensures Succeeds(s, ReassignTask(s, taskId, newStaffId).store)
    ensures StatusesKept(s, ReassignTask(s, taskId, newStaffId).store, {taskId})
    ensures ReassignTask(s, taskId, newStaffId).result.Success?
            ==> ReassignTask(s, taskId, newStaffId).store.tasks[taskId].status == Cancelled
  {
    var r := ReassignTask(s, taskId, newStaffId);
    if r.result.Success? {
      forall k | k in s.tasks ensures k in r.store.tasks && Evolves(s.tasks[k], r.store.tasks[k]) {
        assert k < r.result.value.id;
      }
    }
  }

  /** A priority change keeps every status, identity and trail. */
  lemma UpdatePrioritySucceeds(s: Store, taskId: Id, p: Priority)
    requires Valid(s)
    ensures Succeeds(s, UpdateTaskPriority(s, taskId, p).store)
    ensures StatusesKept(s, UpdateTaskPriority(s, taskId, p).store, {})
  {
  }

  /** Logging an activity moves the registry forward, keeps every status and
      leaves every task but the named one exactly as it was. */
  lemma LogActivitySucceeds(s: Store, taskId: Id, actor: string, description: string, now: Timestamp)
    requires Valid(s)
    ensures Succeeds(s, LogActivity(s, taskId, actor, description, now).store)
    ensures StatusesKept(s, LogActivity(s, taskId, actor, description, now).store, {})
    ensures var s' := LogActivity(s, taskId, actor, description, now).store;
            forall k :: k in s.tasks && k != taskId ==> k in s'.tasks && s'.tasks[k] == s.tasks[k]
  {
  }

  /** Adding a comment moves the registry forward, keeps every status and
      leaves every task but the commented one exactly as it was. */
  lemma AddCommentSucceeds(s: Store, taskId: Id, comment: Comment,
                           commentedAt: Timestamp, loggedAt: Timestamp)
    requires Valid(s)
    ensures Succeeds(s, AddCommentToTask(s, taskId, comment, commentedAt, loggedAt).store)
    ensures StatusesKept(s, AddCommentToTask(s, taskId, comment, commentedAt, loggedAt).store, {})
    ensures var s' := AddCommentToTask(s, taskId, comment, commentedAt, loggedAt).store;
            forall k :: k in s.tasks && k != taskId ==> k in s'.tasks && s'.tasks[k] == s.tasks[k]
  {
  }

  /** One call keeps the invariant and moves the registry forward; a task's
      status changes only when it is the one being reassigned, and then from
      ACTIVE to CANCELLED. */
  lemma ApplySucceeds(s: Store, c: Command)
    requires Valid(s)
    ensures Valid(Apply(s, c))
    ensures Succeeds(s, Apply(s, c))
    ensures forall k :: k in s.tasks && Apply(s, c).tasks[k].status != s.tasks[k].status ==>
              && c.ReassignCall? && c.taskId == k
              && s.tasks[k].status == Active && Apply(s, c).tasks[k].status == Cancelled
  {
    match c
    case AddStaffCall(name) => AddStaffSucceeds(s, name);
    case CreateTaskCall(request) => CreateTaskSucceeds(s, request);
    case ReassignCall(taskId, newStaffId) => ReassignSucceeds(s, taskId, newStaffId);
    case UpdatePriorityCall(taskId, p) => UpdatePrioritySucceeds(s, taskId, p);
    case LogActivityCall(taskId, actor, description, now) =>
      LogActivitySucceeds(s, taskId, actor, description, now);
    case AddCommentCall(taskId, comment, commentedAt, loggedAt) =>
      AddCommentSucceeds(s, taskId, comment, commentedAt, loggedAt);
  }

  /** Any sequence of calls keeps the invariant and moves the registry
      forward: no task is ever removed, no identifier reused, and a
      cancelled task is never revived. */
  lemma {:induction false} RunSucceeds(s: Store, cs: seq<Command>)
    requires Valid(s)
    ensures Valid(Run(s, cs))
    ensures Succeeds(s, Run(s, cs))
    decreases |cs|
  {
    if cs != [] {
      var mid := Apply(s, cs[0]);
      ApplySucceeds(s, cs[0]);
      RunSucceeds(mid, cs[1..]);
      var last := Run(mid, cs[1..]);
      forall k | k in s.tasks ensures k in last.tasks && Evolves(s.tasks[k], last.tasks[k]) {
        EvolvesTransitive(s.tasks[k], mid.tasks[k], last.tasks[k]);
      }
    }
  }

  /** After a reassignment the retired task drops out of every filtered
      query, the clone is selected exactly where its source would be if it
      were ACTIVE, and every other task's selection is unchanged. */
  lemma ReassignRetiresFromQueries(s: Store, taskId: Id, newStaffId: Id, f: Filter)
    requires Valid(s)
    requires taskId in s.tasks && newStaffId in s.staff
    requires f != All
    ensures var r := ReassignTask(s, taskId, newStaffId);
            var clone := r.result.value.id;
            && taskId !in Matching(r.store.tasks, f)
            && (clone in Matching(r.store.tasks, f)
                <==> Keeps(f, s.tasks[taskId].(status := Active)))
            && (forall k :: k != taskId && k != clone ==>
                  (k in Matching(r.store.tasks, f) <==> k in Matching(s.tasks, f)))
  {
    var r := ReassignTask(s, taskId, newStaffId);
    CancelledOnlyInAll(r.store.tasks[taskId], f);
  }

  /** Adding a comment leaves the same activity history as logging the
      activity "Added a comment" by the commenter would. */
  lemma CommentIsLoggedActivity(s: Store, taskId: Id, request: Comment,
                                commentedAt: Timestamp, loggedAt: Timestamp)
    ensures var commented := AddCommentToTask(s, taskId, request, commentedAt, loggedAt);
            var logged := LogActivity(s, taskId, request.commenter, CommentActivity, loggedAt);
            && commented.result.Success? == logged.result.Success?
            && (commented.result.Success? ==>
                  commented.store.tasks[taskId].activityHistory
                  == logged.store.tasks[taskId].activityHistory)
  {
  }

  /** Both generators issue 1 first: the first staff member registered gets
      id 1, whatever the name, and a task created right after it, for any
      request that succeeds, gets id 1. */
  lemma FirstIdsAreOne(name: string, request: CreateTaskRequest)
    ensures AddStaff(Empty(), name).result.value.id == 1
    ensures var s := AddStaff(Empty(), name).store;
            CreateTask(s, request).result.Success? ==> CreateTask(s, request).result.value.id == 1
  {
  }

  /** Staff "Alice" and "Bob" get ids 1 and 2; a HIGH task for Alice from
      2024-02-01 to 2024-02-05 gets id 1; reassigning it to Bob yields an
      ACTIVE task 2 shown with Bob's name, and task 1 stays stored,
      cancelled. */
  lemma ReassignScenario()
    ensures var alice := AddStaff(Empty(), "Alice");
            var bob := AddStaff(alice.store, "Bob");
            var created := CreateTask(bob.store, CreateTaskRequest("T1", High, 19754, 19758, 1));
            var moved := ReassignTask(created.store, 1, 2);
            && alice.result.value.id == 1 && bob.result.value.id == 2
            && created.result.Success? && created.result.value.id == 1
            && created.result.value.status == Active
            && moved.result.Success? && moved.result.value.id == 2
            && moved.result.value.status == Active
            && moved.result.value.assignedStaffName == "Bob"
            && moved.store.tasks.Keys == {1, 2}
            && moved.store.tasks[1].status == Cancelled
            && moved.store.tasks[2].status == Active
  {
    var alice := AddStaff(Empty(), "Alice");
    assert alice.store == Store(map[], map[1 := Staff(1, "Alice")], 0, 1);
    var bob := AddStaff(alice.store, "Bob");
    assert bob.store.staff == map[1 := Staff(1, "Alice"), 2 := Staff(2, "Bob")];
    assert bob.store.tasks == map[] && bob.store.lastTaskId == 0;
    var created := CreateTask(bob.store, CreateTaskRequest("T1", High, 19754, 19758, 1));
    assert created.store.tasks.Keys == {1} && created.store.lastTaskId == 1;
    assert created.store.staff == bob.store.staff;
    var moved := ReassignTask(created.store, 1, 2);
    assert moved.store.tasks.Keys == {1, 2};
  }
}
