/**
  The dependency and budget scheduler: what a dependency status means, that
  activation ends with nothing left to activate, and when the budget holds.
 */
module TeamScheduler {
  import opened TeamModel
  import opened TeamFrames
  import opened TeamSteps
  import opened TeamQuiet
  import opened TeamIntake

  // ----------------------------------------------------------------- dependencies

  predicate CompletedTask(ts: seq<Task>, id: nat) {
    var i := FindTask(ts, id);
    i < |ts| && ts[i].status == Completed
  }

  predicate DeadTask(ts: seq<Task>, id: nat) {
    var i := FindTask(ts, id);
    i == |ts| || ts[i].status in {Failed, Cancelled, Blocked}
  }

  predicate AllCompleted(ts: seq<Task>, deps: seq<nat>) {
    forall k :: 0 <= k < |deps| ==> CompletedTask(ts, deps[k])
  }

  // The position of the first dependency in list order that is not completed.
  function FirstOpen(ts: seq<Task>, deps: seq<nat>): (k: nat)
    ensures k <= |deps|
    ensures forall j :: 0 <= j < k ==> CompletedTask(ts, deps[j])
    ensures k < |deps| ==> !CompletedTask(ts, deps[k])
  {
    if |deps| == 0 || !CompletedTask(ts, deps[0]) then 0 else 1 + FirstOpen(ts, deps[1..])
  }

  /** Accepted exactly when all dependencies are completed; otherwise the first one that is not decides,
      and a later failed one is not seen. */
  lemma {:induction false} DepStatusMeaning(ts: seq<Task>, deps: seq<nat>)
    ensures DepStatus(ts, deps) == Accepted <==> AllCompleted(ts, deps)
    ensures var k := FirstOpen(ts, deps);
      DepStatus(ts, deps) == if k == |deps| then Accepted else if DeadTask(ts, deps[k]) then Blocked else WaitingDependency
    decreases |deps|
  {
    if |deps| == 0 {
    } else {
      DepStatusMeaning(ts, deps[1..]);
      assert forall k :: 0 < k < |deps| ==> deps[k] == deps[1..][k - 1];
    }
  }

  // What a retry keeps of the task.
  lemma RetriedSame(s: State, t: Task, budget: nat, now: nat)
    ensures var u := RetriedTask(s, t, budget, now);
      && u.id == t.id && u.project == t.project && u.deps == t.deps && u.attempt == t.attempt + 1
      && (u.status == Accepted ==> DepStatus(s.tasks, t.deps) == Accepted)
  {
  }

  lemma FindPut(ts: seq<Task>, i: nat, u: Task, id: nat)
    requires i < |ts| && u.id == ts[i].id
    ensures FindTask(ts[i := u], id) == FindTask(ts, id)
  {
    var j, k := FindTask(ts, id), FindTask(ts[i := u], id);
    assert j < |ts| ==> ts[i := u][j].id == id;
    assert k < |ts| ==> ts[k].id == id;
  }

  lemma FindOwn(ts: seq<Task>, j: nat)
    requires Ids(ts) && j < |ts|
    ensures FindTask(ts, ts[j].id) == j
  {
  }

  // The dependencies are the same tasks with the same status.
  lemma {:induction false} DepsSame(ts: seq<Task>, ts': seq<Task>, deps: seq<nat>)
    requires forall d :: d in deps ==>
      var j := FindTask(ts, d);
      j < |ts| && FindTask(ts', d) == j < |ts'| && ts'[j].status == ts[j].status
    ensures DepStatus(ts', deps) == DepStatus(ts, deps)
    decreases |deps|
  {
    if |deps| == 0 {
    } else {
      assert deps[0] in deps;
      DepsSame(ts, ts', deps[1..]);
    }
  }

  // Consecutive positions on a path are joined by a dependency.
  predicate DependencyPath(ts: seq<Task>, path: seq<nat>) {
    && (forall k :: 0 <= k < |path| ==> path[k] < |ts|)
    && (forall k :: 0 <= k < |path| - 1 ==> ts[path[k + 1]].id in ts[path[k]].deps)
  }

  /** In every reachable state a dependency is an earlier task of the same project, so every dependency
      path runs strictly backwards and never returns to where it started. */
  lemma {:induction false} ReachableAcyclic(calls: seq<Call>, path: seq<nat>, a: nat, b: nat)
    requires DependencyPath(Run(EMPTY, calls).tasks, path) && a < b < |path|
    ensures path[b] < path[a]
    ensures var ts := Run(EMPTY, calls).tasks; ts[path[b]].project == ts[path[a]].project
    decreases b - a
  {
    hide Run, CommandsKept, RuntimesKept, LogsGrow, CommandsWf, RuntimesWf;
    RunGrows(EMPTY, calls);
    var ts := Run(EMPTY, calls).tasks;
    if b - 1 == a {
    } else {
      ReachableAcyclic(calls, path, a, b - 1);
    }
    assert ts[path[(b - 1) + 1]].id in ts[path[b - 1]].deps;
    assert EarlierTask(ts, path[b - 1], ts[path[b]].id);
    var j :| 0 <= j < path[b - 1] && ts[j].id == ts[path[b]].id && ts[j].project == ts[path[b - 1]].project;
    assert j == path[b];
  }

  // ------------------------------------------------------------ the end of activation

  predicate SettledAt(s: State, budget: nat, p: string, i: nat)
    requires i < |s.tasks|
  {
    var t := s.tasks[i];
    t.project == p && Waiting(t.status) ==>
      || DepStatus(s.tasks, t.deps) == WaitingDependency
      || (AllCompleted(s.tasks, t.deps) && t.status == WaitingResource && !Fits(s.tasks, budget, p, t.profile, t.id))
  }

  // No task of the project that could go on is left waiting.
  predicate Settled(s: State, budget: nat, p: string) {
    forall i :: 0 <= i < |s.tasks| ==> SettledAt(s, budget, p, i)
  }

  lemma StillMeansSettled(s: State, budget: nat, p: string, i: nat, now: nat)
    requires i < |s.tasks| && Visit(s, budget, p, i, now) == s
    ensures SettledAt(s, budget, p, i)
  {
    var t := s.tasks[i];
    DepStatusMeaning(s.tasks, t.deps);
    var s' := Visit(s, budget, p, i, now);
    assert s'.tasks[i].status == t.status;
  }

  lemma {:induction false} StillPass(s: State, budget: nat, p: string, i: nat, now: nat)
    requires i <= |s.tasks| && Rank(Pass(s, budget, p, i, now).tasks) >= Rank(s.tasks)
    ensures Pass(s, budget, p, i, now) == s
    ensures forall j :: i <= j < |s.tasks| ==> SettledAt(s, budget, p, j)
    decreases |s.tasks| - i
  {
    hide Visit, SettledAt, Rank;
    if i == |s.tasks| {
    } else {
      VisitRank(s, budget, p, i, now);
      PassRank(Visit(s, budget, p, i, now), budget, p, i + 1, now);
      StillMeansSettled(s, budget, p, i, now);
      StillPass(s, budget, p, i + 1, now);
    }
  }

  /** Activation ends, and ends with every task of the project settled. */
  lemma {:induction false} ActivateSettles(s: State, budget: nat, p: string, now: nat)
    ensures Settled(Activate(s, budget, p, now), budget, p)
    decreases Rank(s.tasks)
  {
    var s1 := Pass(s, budget, p, 0, now);
    PassRank(s, budget, p, 0, now);
    if s1.tasks == s.tasks {
      StillPass(s, budget, p, 0, now);
    } else {
      ActivateSettles(s1, budget, p, now);
    }
  }

  // ------------------------------------------------------- what activation may touch

  // A task is left alone, or was waiting and is now waiting for resources, ready or blocked.
  predicate Moved(t: Task, t': Task, p: string) {
    || t' == t
    || (t.project == p && Waiting(t.status) && t'.status in {WaitingResource, Accepted, Blocked}
        && t' == t.(status := t'.status, updatedAt := t'.updatedAt))
  }

  predicate OnlyMoved(ts: seq<Task>, ts': seq<Task>, p: string) {
    |ts'| == |ts| && forall i :: 0 <= i < |ts| ==> Moved(ts[i], ts'[i], p)
  }

  lemma VisitMoves(s: State, budget: nat, p: string, i: nat, now: nat)
    requires i < |s.tasks|
    ensures OnlyMoved(s.tasks, Visit(s, budget, p, i, now).tasks, p)
  {
    hide DepStatus, Fits, FindReachable, Compacted, Log, LastN;
  }

  lemma {:induction false} PassMoves(s: State, budget: nat, p: string, i: nat, now: nat)
    requires i <= |s.tasks|
    ensures OnlyMoved(s.tasks, Pass(s, budget, p, i, now).tasks, p)
    decreases |s.tasks| - i
  {
    hide Visit;
    if i == |s.tasks| {
    } else {
      VisitMoves(s, budget, p, i, now);
      PassMoves(Visit(s, budget, p, i, now), budget, p, i + 1, now);
    }
  }

  /** Activation touches only waiting tasks of its own project, and nothing but their status and time. */
  lemma {:induction false} ActivateMoves(s: State, budget: nat, p: string, now: nat)
    ensures OnlyMoved(s.tasks, Activate(s, budget, p, now).tasks, p)
    decreases Rank(s.tasks)
  {
    var s1 := Pass(s, budget, p, 0, now);
    PassMoves(s, budget, p, 0, now);
    PassRank(s, budget, p, 0, now);
    if s1.tasks == s.tasks {
    } else {
      ActivateMoves(s1, budget, p, now);
    }
  }

  // ----------------------------------------------------------------------- the budget

  predicate WithinBudget(ts: seq<Task>, budget: nat, p: string) { Used(ts, p, 0) <= budget }

  lemma {:induction false} UsedPut(ts: seq<Task>, i: nat, t: Task, p: string, exclude: nat)
    requires i < |ts|
    ensures Used(ts[i := t], p, exclude) == Used(ts, p, exclude) - Charge(ts[i], p, exclude) + Charge(t, p, exclude)
  {
    if i == 0 {
      assert ts[i := t][1..] == ts[1..];
    } else {
      assert ts[i := t][1..] == ts[1..][i - 1 := t];
      UsedPut(ts[1..], i - 1, t, p, exclude);
    }
  }

  lemma {:induction false} UsedAdded(ts: seq<Task>, t: Task, p: string, exclude: nat)
    ensures Used(ts + [t], p, exclude) == Used(ts, p, exclude) + Charge(t, p, exclude)
  {
    if |ts| == 0 {
      assert ts + [t] == [t] && [t][1..] == [];
    } else {
      assert (ts + [t])[1..] == ts[1..] + [t];
      UsedAdded(ts[1..], t, p, exclude);
    }
  }

  // Identifiers are positive and grow along the list.
  predicate Ids(ts: seq<Task>) {
    && (forall k :: 0 <= k < |ts| ==> ts[k].id >= 1)
    && (forall j, k :: 0 <= j < k < |ts| ==> ts[j].id < ts[k].id)
  }

  // Leaving one task out of the sum subtracts exactly its charge: no other task has its id.
  lemma {:induction false} UsedWithout(ts: seq<Task>, i: nat, p: string)
    requires i < |ts| && Ids(ts)
    ensures Used(ts, p, 0) == Used(ts, p, ts[i].id) + Charge(ts[i], p, 0)
  {
    if i == 0 {
      assert forall k :: 0 <= k < |ts[1..]| ==> ts[1..][k].id != ts[0].id;
      UsedAbsent(ts[1..], p, ts[0].id);
    } else {
      UsedWithout(ts[1..], i - 1, p);
    }
  }

  lemma {:induction false} UsedAbsent(ts: seq<Task>, p: string, id: nat)
    requires forall k :: 0 <= k < |ts| ==> ts[k].id != id && ts[k].id >= 1
    ensures Used(ts, p, 0) == Used(ts, p, id)
  {
    if |ts| == 0 {
    } else {
      UsedAbsent(ts[1..], p, id);
    }
  }

  // The task list after a visit, without the events and commands that go with it.
  function Visited(ts: seq<Task>, budget: nat, p: string, i: nat, now: nat): Task
    requires i < |ts|
  {
    var t := ts[i];
    var d := DepStatus(ts, t.deps);
    if t.project != p || !Waiting(t.status) || d == WaitingDependency then t
    else if d == Accepted && !Fits(ts, budget, p, t.profile, t.id) then
      if t.status == WaitingResource then t else t.(status := WaitingResource, updatedAt := now)
    else t.(status := d, updatedAt := now)
  }

  lemma VisitTasks(s: State, budget: nat, p: string, i: nat, now: nat)
    requires i < |s.tasks|
    ensures Visit(s, budget, p, i, now).tasks == s.tasks[i := Visited(s.tasks, budget, p, i, now)]
  {
  }

  lemma VisitBudget(ts: seq<Task>, budget: nat, p: string, i: nat, now: nat, q: string)
    requires Ids(ts) && i < |ts|
    ensures var ts' := ts[i := Visited(ts, budget, p, i, now)];
      && Ids(ts')
      && Used(ts, q, 0) <= Used(ts', q, 0)
      && (WithinBudget(ts, budget, q) ==> WithinBudget(ts', budget, q))
  {
    UsedPut(ts, i, Visited(ts, budget, p, i, now), q, 0);
    UsedWithout(ts, i, q);
  }

  lemma {:induction false} PassBudget(s: State, budget: nat, p: string, i: nat, now: nat, q: string)
    requires Ids(s.tasks) && i <= |s.tasks|
    ensures var s' := Pass(s, budget, p, i, now);
      && Ids(s'.tasks)
      && Used(s.tasks, q, 0) <= Used(s'.tasks, q, 0)
      && (WithinBudget(s.tasks, budget, q) ==> WithinBudget(s'.tasks, budget, q))
    decreases |s.tasks| - i
  {
    if i == |s.tasks| {
    } else {
      VisitTasks(s, budget, p, i, now);
      VisitBudget(s.tasks, budget, p, i, now, q);
      PassBudget(Visit(s, budget, p, i, now), budget, p, i + 1, now, q);
    }
  }

  /** Activation never frees what a task charges, and never goes over the budget. */
  lemma {:induction false} ActivateBudget(s: State, budget: nat, p: string, now: nat, q: string)
    requires Ids(s.tasks)
    ensures var s' := Activate(s, budget, p, now);
      && Used(s.tasks, q, 0) <= Used(s'.tasks, q, 0)
      && (WithinBudget(s.tasks, budget, q) ==> WithinBudget(s'.tasks, budget, q))
    decreases Rank(s.tasks)
  {
    var s1 := Pass(s, budget, p, 0, now);
    PassBudget(s, budget, p, 0, now, q);
    PassRank(s, budget, p, 0, now);
    if s1.tasks == s.tasks {
    } else {
      ActivateBudget(s1, budget, p, now, q);
    }
  }

  lemma {:induction false} RestartTasks(s: State, p: string, i: nat, now: nat)
    requires i <= |s.tasks|
    ensures Restart(s, p, i, now).tasks == s.tasks
    decreases |s.tasks| - i
  {
    if i == |s.tasks| {
    } else {
      RestartTasks(RestartOne(s, p, s.tasks[i], now), p, i + 1, now);
    }
  }

  lemma {:induction false} ExpireTasks(s: State, i: nat, now: nat)
    requires i <= |s.runtimes|
    ensures ExpireFrom(s, i, now).tasks == s.tasks && ExpireFrom(s, i, now).commands == s.commands
    decreases |s.runtimes| - i
  {
    if i == |s.runtimes| {
    } else {
      var r := s.runtimes[i];
      ExpireTasks(if Expired(r, now)
                  then Append(s.(runtimes := s.runtimes[i := r.(status := Offline, lease := 0, lastSeen := now)]),
                              r.project, RuntimeOffline, 0, r.runtime, 0, false)
                  else s, i + 1, now);
    }
  }

  // An action that moves its task out of the count and then activates.
  lemma ReleaseBudget(s: State, i: nat, u: Task, s1: State, budget: nat, now: nat, q: string)
    requires Ids(s.tasks) && i < |s.tasks| && WithinBudget(s.tasks, budget, q)
    requires u.id == s.tasks[i].id && !Counted(u.status) && s1.tasks == s.tasks[i := u]
    ensures WithinBudget(Activate(s1, budget, u.project, now).tasks, budget, q)
  {
    UsedPut(s.tasks, i, u, q, 0);
    ActivateBudget(s1, budget, u.project, now, q);
  }

  lemma CancelBudget(s: State, i: nat, budget: nat, now: nat, q: string)
    requires Ids(s.tasks) && i < |s.tasks| && WithinBudget(s.tasks, budget, q)
    ensures WithinBudget(ActCancel(s, i, budget, now).tasks, budget, q)
  {
    var u := s.tasks[i].(status := Cancelled, cancellation := Manual, updatedAt := now);
    var s1 := Append(PutTask(s, i, u), u.project, TaskAction(Cancel), u.id, "", 0, false);
    ReleaseBudget(s, i, u, s1.(commands := Supersede(s1.commands, u.id)), budget, now, q);
  }

  lemma CompleteBudget(s: State, i: nat, budget: nat, now: nat, q: string)
    requires Ids(s.tasks) && i < |s.tasks| && WithinBudget(s.tasks, budget, q)
    ensures WithinBudget(ActComplete(s, i, budget, now).tasks, budget, q)
  {
    var u := s.tasks[i].(status := Completed, completion := Manual, updatedAt := now);
    var s1 := Append(PutTask(s, i, u), u.project, TaskAction(Complete), u.id, "", 0, false);
    var s2 := Enqueue(s1.(commands := Supersede(s1.commands, u.id)), u, CancelTask, u.attempt, now);
    ReleaseBudget(s, i, u, s2, budget, now, q);
  }

  lemma RejectBudget(s: State, i: nat, budget: nat, now: nat, q: string)
    requires Ids(s.tasks) && i < |s.tasks| && WithinBudget(s.tasks, budget, q)
    ensures WithinBudget(ActReject(s, i, budget, now).tasks, budget, q)
  {
    var u := s.tasks[i].(approval := Rejected, status := Blocked, updatedAt := now);
    ReleaseBudget(s, i, u, Append(PutTask(s, i, u), u.project, TaskAction(Reject), u.id, "", 0, false), budget, now, q);
  }

  lemma RetryBudget(s: State, i: nat, budget: nat, now: nat, q: string)
    requires Ids(s.tasks) && i < |s.tasks| && WithinBudget(s.tasks, budget, q)
    ensures WithinBudget(ActRetry(s, i, budget, now).tasks, budget, q)
  {
    var t := s.tasks[i];
    var s1 := Enqueue(s.(commands := Supersede(s.commands, t.id)), t, CancelTask, t.attempt, now);
    var u := RetriedTask(s1, t, budget, now);
    assert ActRetry(s, i, budget, now).tasks == s.tasks[i := u];
    UsedPut(s.tasks, i, u, q, 0);
    UsedWithout(s.tasks, i, q);
  }

  lemma ActionBudget(s: State, task: nat, action: Action, budget: nat, now: nat, q: string)
    requires Ids(s.tasks) && WithinBudget(s.tasks, budget, q)
    ensures var o := HandleAction(s, task, action, budget, now); o.Write? ==> WithinBudget(o.next.tasks, budget, q)
  {
    var i := FindTask(s.tasks, task);
    if i < |s.tasks| {
      match action
      case Input(_) => UsedPut(s.tasks, i, s.tasks[i].(updatedAt := now), q, 0);
      case Approve => UsedPut(s.tasks, i, s.tasks[i].(approval := Approved, updatedAt := now), q, 0);
      case Cancel => CancelBudget(s, i, budget, now, q);
      case Retry => RetryBudget(s, i, budget, now, q);
      case Complete => CompleteBudget(s, i, budget, now, q);
      case Reject => RejectBudget(s, i, budget, now, q);
    }
  }

  lemma HandleBudget(s: State, req: Request, env: Env, q: string)
    requires Ids(s.tasks) && WithinBudget(s.tasks, env.budget, q) && !req.Events?
    ensures var o := Handle(s, req, env); o.Write? ==> WithinBudget(o.next.tasks, env.budget, q)
  {
    hide Used, FindRuntime, FindCurrent, AckAll, Compacted, CreateGuard, ActionGuard, Acted, HoldsLease, Ids;
    match req
    case Register(p, r) => RestartTasks(TakeOver(s, p, r, env.now), p, 0, env.now);
    case Heartbeat(_, _, _, _) =>
    case Unregister(_, _, _) =>
    case Expire => ExpireTasks(s, 0, env.now);
    case Create(p, deps, profile, key, owner) =>
      UsedAdded(s.tasks, NewTask(s, p, deps, profile, key, owner, env.budget, env.now), q, 0);
    case Poll(_, _, _, _) =>
    case Ack(_, _, _, _) =>
    case Act(task, action) => ActionBudget(s, task, action, env.budget, env.now, q);
  }

  /** Every request except a batch of agent events keeps every project within the budget. */
  lemma StepBudget(s: State, req: Request, env: Env, q: string)
    requires Wf(s) && WithinBudget(s.tasks, env.budget, q) && !req.Events?
    ensures WithinBudget(After(s, req, env).tasks, env.budget, q)
  {
    hide Handle, Used;
    HandleBudget(s, req, env, q);
    var i := if req.Act? then FindTask(s.tasks, req.task) else |s.tasks|;
    if i < |s.tasks| { UsedPut(s.tasks, i, s.tasks[i].(updatedAt := env.now), q, 0); }
  }

  // --------------------------------------------------------------- agent events

  function ReportedStatus(report: Report): TaskStatus {
    match report
    case ReportCompleted => Completed
    case ReportFailed => Failed
    case ReportBlocked => Blocked
    case ReportNeedsInput => WaitingInput
    case ReportInProgress => Running
  }

  // The task an event moves, and where to; read off the state before the event.
  function MovesTo(s: State, p: string, e: RawEvent): StatusChange
    requires e.RawEvent?
  {
    var i := FindTask(s.tasks, e.task);
    if Stale(s.tasks, e) || i == |s.tasks| || s.tasks[i].project != p || HumanTerminal(s.tasks[i]) then NoChange
    else if e.typ.TaskReport? then To(ReportedStatus(e.typ.report))
    else StatusFromEvent(e.typ)
  }

  // What a caller can work out beforehand: does the project stay within budget with the task moved?
  predicate EventFits(s: State, budget: nat, p: string, e: RawEvent)
    requires e.RawEvent?
  {
    match MovesTo(s, p, e)
    case NoChange => true
    case To(st) =>
      var t := s.tasks[FindTask(s.tasks, e.task)];
      !Counted(st) || Counted(t.status) || Used(s.tasks, p, 0) + Units(t.profile) <= budget
  }

  // What an event makes of the task it names.
  function MovedBy(t: Task, p: string, e: RawEvent, now: nat): Task
    requires e.RawEvent?
  {
    if AttemptOf(e.attempt) != t.attempt || t.project != p || HumanTerminal(t) then t
    else
      match e.typ
      case TaskHandoff(member) => t.(owner := if member == "" then t.owner else member, updatedAt := now)
      case ArtifactCreated => t.(updatedAt := now)
      case TaskReport(report) => Reported(t, report, now)
      case typ =>
        match StatusFromEvent(typ)
        case NoChange => t
        case To(st) => t.(status := st, updatedAt := now)
  }

  // The state between an event's own change and the activation it sets off.
  function EventPut(s: State, p: string, r: string, e: RawEvent, now: nat): State
    requires e.RawEvent?
  {
    var s0 := Logged(s, p, r, e);
    var i := FindTask(s.tasks, e.task);
    if i < |s.tasks| then PutTask(s0, i, MovedBy(s.tasks[i], p, e, now)) else s0
  }

  predicate SetsOff(s: State, p: string, e: RawEvent)
    requires e.RawEvent?
  {
    !Stale(s.tasks, e) &&
    (Finishes(e.typ) || (e.typ.TaskReport? && MovesTo(s, p, e).To? && MovesTo(s, p, e).status in {Completed, Failed, Blocked}))
  }

  lemma EventShape(s: State, p: string, r: string, e: RawEvent, budget: nat, now: nat)
    requires Ids(s.tasks) && e.RawEvent?
    ensures ApplyEvent(s, p, r, e, budget, now) ==
            if SetsOff(s, p, e) then Activate(EventPut(s, p, r, e, now), budget, p, now) else EventPut(s, p, r, e, now)
  {
    var s0 := Logged(s, p, r, e);
    assert s0.tasks == s.tasks;
    var i := FindTask(s.tasks, e.task);
    if i < |s.tasks| { assert s.tasks[i := s.tasks[i]] == s.tasks; }
    if !Stale(s.tasks, e) {
      var s1 := UpdateFromEvent(s0, p, e.task, e.typ, now);
      if Collaboration(e.typ) {
        assert StatusFromEvent(e.typ) == NoChange;
        assert s1 == s0;
      } else {
        assert ApplyCollaboration(s1, p, e.task, e.typ, budget, now) == s1;
        assert s1 == EventPut(s, p, r, e, now);
      }
    }
  }

  lemma EventPutBudget(s: State, p: string, r: string, e: RawEvent, budget: nat, now: nat)
    requires Ids(s.tasks) && e.RawEvent? && WithinBudget(s.tasks, budget, p)
    ensures Ids(EventPut(s, p, r, e, now).tasks)
    ensures WithinBudget(EventPut(s, p, r, e, now).tasks, budget, p) <==> EventFits(s, budget, p, e)
  {
    hide Used, Log, LastN, Counter;
    var i := FindTask(s.tasks, e.task);
    if i < |s.tasks| { UsedPut(s.tasks, i, MovedBy(s.tasks[i], p, e, now), p, 0); }
  }

  /** An agent event keeps its project within the budget exactly when `EventFits` holds before it. */
  lemma EventBudget(s: State, p: string, r: string, e: RawEvent, budget: nat, now: nat)
    requires Wf(s) && e.RawEvent? && WithinBudget(s.tasks, budget, p)
    ensures WithinBudget(ApplyEvent(s, p, r, e, budget, now).tasks, budget, p) <==> EventFits(s, budget, p, e)
  {
    EventShape(s, p, r, e, budget, now);
    EventPutBudget(s, p, r, e, budget, now);
    ActivateBudget(EventPut(s, p, r, e, now), budget, p, now, p);
  }

  predicate BatchFits(s: State, p: string, r: string, es: seq<RawEvent>, budget: nat, now: nat)
    requires Objects(es)
    decreases |es|
  {
    |es| > 0 ==>
      && EventFits(s, budget, p, es[0])
      && BatchFits(ApplyEvent(s, p, r, es[0], budget, now), p, r, es[1..], budget, now)
  }

  // No project is over the budget.
  ghost predicate AllWithin(ts: seq<Task>, budget: nat) { forall q :: WithinBudget(ts, budget, q) }

  // Nor is one after any of these events.
  ghost predicate BatchWithin(s: State, p: string, r: string, es: seq<RawEvent>, budget: nat, now: nat)
    requires Objects(es)
    decreases |es|
  {
    && AllWithin(s.tasks, budget)
    && (|es| > 0 ==> BatchWithin(ApplyEvent(s, p, r, es[0], budget, now), p, r, es[1..], budget, now))
  }

  // An event charges nothing to another project than its own.
  lemma EventElsewhere(s: State, p: string, r: string, e: RawEvent, budget: nat, now: nat, q: string)
    requires Wf(s) && e.RawEvent? && q != p && WithinBudget(s.tasks, budget, q)
    ensures WithinBudget(ApplyEvent(s, p, r, e, budget, now).tasks, budget, q)
  {
    EventShape(s, p, r, e, budget, now);
    ElsewherePut(s, p, r, e, now, q);
    hide Used, EventPut, Wf, ApplyEvent;
    EventPutIds(s, p, r, e, now);
    ActivateBudget(EventPut(s, p, r, e, now), budget, p, now, q);
  }

  lemma EventPutIds(s: State, p: string, r: string, e: RawEvent, now: nat)
    requires Wf(s) && e.RawEvent?
    ensures Ids(EventPut(s, p, r, e, now).tasks)
  {
    hide Log, LastN, Counter;
  }

  lemma ElsewherePut(s: State, p: string, r: string, e: RawEvent, now: nat, q: string)
    requires e.RawEvent? && q != p
    ensures Used(EventPut(s, p, r, e, now).tasks, q, 0) == Used(s.tasks, q, 0)
  {
    hide Used, Log, LastN, Counter;
    var i := FindTask(s.tasks, e.task);
    if i < |s.tasks| { UsedPut(s.tasks, i, MovedBy(s.tasks[i], p, e, now), q, 0); }
  }

  lemma EventWithin(s: State, p: string, r: string, e: RawEvent, budget: nat, now: nat)
    requires Wf(s) && e.RawEvent? && AllWithin(s.tasks, budget)
    ensures AllWithin(ApplyEvent(s, p, r, e, budget, now).tasks, budget) <==> EventFits(s, budget, p, e)
  {
    var ts := ApplyEvent(s, p, r, e, budget, now).tasks;
    assert WithinBudget(s.tasks, budget, p);
    EventBudget(s, p, r, e, budget, now);
    hide WithinBudget, ApplyEvent, EventFits, Wf;
    forall q | q != p ensures WithinBudget(ts, budget, q) {
      assert WithinBudget(s.tasks, budget, q);
      EventElsewhere(s, p, r, e, budget, now, q);
    }
  }

  /** A batch keeps every project within the budget from event to event exactly when each of its events
      fits in the state it meets. */
  lemma {:induction false} BatchBudget(s: State, p: string, r: string, es: seq<RawEvent>, budget: nat, now: nat)
    requires Wf(s) && Objects(es) && AllWithin(s.tasks, budget)
    ensures BatchWithin(s, p, r, es, budget, now) <==> BatchFits(s, p, r, es, budget, now)
    decreases |es|
  {
    if |es| == 0 {
    } else {
      hide Wf, AllWithin, ApplyEvent, EventFits;
      var s1 := ApplyEvent(s, p, r, es[0], budget, now);
      EventWithin(s, p, r, es[0], budget, now);
      ApplyEventKeeps(s, p, r, es[0], budget, now);
      if AllWithin(s1.tasks, budget) { BatchBudget(s1, p, r, es[1..], budget, now); }
    }
  }

  lemma {:induction false} BatchEnds(s: State, p: string, r: string, es: seq<RawEvent>, budget: nat, now: nat)
    requires Objects(es) && BatchWithin(s, p, r, es, budget, now)
    ensures AllWithin(ApplyAll(s, p, r, es, budget, now).tasks, budget)
    decreases |es|
  {
    if |es| == 0 {
    } else {
      BatchEnds(ApplyEvent(s, p, r, es[0], budget, now), p, r, es[1..], budget, now);
    }
  }

  // ------------------------------------------------------------- the budget over runs

  // The states of a request, those inside a saved batch included.
  ghost predicate StepWithin(s: State, req: Request, env: Env) {
    if BatchSaved(s, req, env)
    then BatchWithin(s, req.project, req.runtime, Intake(s, Call(req, env), req.project, req.runtime), env.budget, env.now)
    else AllWithin(After(s, req, env).tasks, env.budget)
  }

  // What a caller can work out beforehand, event by event.
  predicate RequestFits(s: State, req: Request, env: Env) {
    BatchSaved(s, req, env) ==>
      BatchFits(s, req.project, req.runtime, Intake(s, Call(req, env), req.project, req.runtime), env.budget, env.now)
  }

  /** A request keeps every project within the budget exactly when it is not a saved batch with an event
      that does not fit. */
  lemma RequestBudget(s: State, req: Request, env: Env)
    requires Wf(s) && AllWithin(s.tasks, env.budget)
    ensures StepWithin(s, req, env) <==> RequestFits(s, req, env)
    ensures StepWithin(s, req, env) ==> AllWithin(After(s, req, env).tasks, env.budget)
  {
    hide WithinBudget, BatchFits, BatchWithin, Intake, Handle, After, ApplyAll;
    if BatchSaved(s, req, env) {
      var p, r := req.project, req.runtime;
      var es := Intake(s, Call(req, env), p, r);
      BatchBudget(s, p, r, es, env.budget, env.now);
      BatchApplies(s, Call(req, env));
      if BatchWithin(s, p, r, es, env.budget, env.now) { BatchEnds(s, p, r, es, env.budget, env.now); }
    } else {
      forall q ensures WithinBudget(After(s, req, env).tasks, env.budget, q) {
        assert WithinBudget(s.tasks, env.budget, q);
        if req.Events? { UnsavedBatch(s, req, env); } else { StepBudget(s, req, env, q); }
      }
    }
  }

  lemma UnsavedBatch(s: State, req: Request, env: Env)
    requires req.Events? && !BatchSaved(s, req, env)
    ensures After(s, req, env).tasks == s.tasks
  {
    hide HandleEvents;
  }

  predicate FixedBudget(calls: seq<Call>, budget: nat) {
    forall k :: 0 <= k < |calls| ==> calls[k].env.budget == budget
  }

  ghost predicate WithinThroughout(s: State, calls: seq<Call>, budget: nat)
    decreases |calls|
  {
    && AllWithin(s.tasks, budget)
    && (|calls| > 0 ==>
          StepWithin(s, calls[0].req, calls[0].env) && WithinThroughout(After(s, calls[0].req, calls[0].env), calls[1..], budget))
  }

  predicate RunFits(s: State, calls: seq<Call>)
    decreases |calls|
  {
    |calls| > 0 ==>
      RequestFits(s, calls[0].req, calls[0].env) && RunFits(After(s, calls[0].req, calls[0].env), calls[1..])
  }

  /** With a fixed budget no project is over it in any state of a run, those inside batches included,
      exactly when every agent event taken in it fits in the state it meets. */
  lemma {:induction false} BudgetOverRuns(s: State, calls: seq<Call>, budget: nat)
    requires Wf(s) && AllWithin(s.tasks, budget) && FixedBudget(calls, budget)
    ensures WithinThroughout(s, calls, budget) <==> RunFits(s, calls)
    ensures RunFits(s, calls) ==> AllWithin(Run(s, calls).tasks, budget)
    decreases |calls|
  {
    hide Wf, AllWithin, After, StepWithin, RequestFits;
    if |calls| == 0 {
    } else {
      assert calls[0].env.budget == budget;
      var s1 := After(s, calls[0].req, calls[0].env);
      RequestBudget(s, calls[0].req, calls[0].env);
      StepGrows(s, calls[0].req, calls[0].env);
      if AllWithin(s1.tasks, budget) { BudgetOverRuns(s1, calls[1..], budget); }
    }
  }

  // ------------------------------------------------------------------- which events fit

  /** An event on a task that is counted already, or that moves it to an uncounted status, always fits. */
  lemma UsualEventsFit(s: State, budget: nat, p: string, e: RawEvent)
    requires e.RawEvent?
    requires
      || !(e.typ.TaskStarted? || e.typ == TaskReport(ReportInProgress) || e.typ == TaskReport(ReportNeedsInput))
      || (FindTask(s.tasks, e.task) < |s.tasks| && Counted(s.tasks[FindTask(s.tasks, e.task)].status))
    ensures EventFits(s, budget, p, e)
  {
  }

  const BIG := Task(2, "p", Accepted, 1, [], Large, "", NoSource, NoSource, Undecided, "", LEASE)
  const SMALL := Task(3, "p", WaitingResource, 1, [], Small, "", NoSource, NoSource, Undecided, "", LEASE)
  const STARTED := RawEvent(1, TaskStarted, 3, NoAttempt, true)
  const FIRST := Env(4, 0, true)
  const LATER := Env(4, LEASE, true)

  // A large task, then a small one that has to wait for its share of a budget of 4.
  const TWO_TASKS := [Call(Register("p", "r"), FIRST), Call(Create("p", [], Large, "", ""), LATER),
                      Call(Create("p", [], Small, "", ""), LATER)]

  lemma BigAndSmall(u: Task)
    requires u.project == "p" && u.id == 3 && u.profile == Small
    ensures Used([BIG, u], "p", 0) == 4 + (if Counted(u.status) then 1 else 0) && Used([BIG], "p", 0) == 4
    ensures FindTask([BIG, u], 3) == 1
  {
    assert [BIG, u][1..] == [u] && [u][1..] == [] && [BIG][1..] == [];
    assert Used([u], "p", 0) == if Counted(u.status) then 1 else 0;
  }

  lemma TwoCreated(s: State)
    requires OutOfReach(s, 0, LEASE) && s.tasks == [] && s.nextId == 2
    ensures var s' := After(After(s, Create("p", [], Large, "", ""), LATER), Create("p", [], Small, "", ""), LATER);
      s'.tasks == [BIG, SMALL] && OutOfReach(s', 0, LEASE)
  {
    QuietCreate(s, [], Large, LATER, 0, LEASE);
    QuietCreate(After(s, Create("p", [], Large, "", ""), LATER), [], Small, LATER, 0, LEASE);
    BigAndSmall(SMALL);
    hide After, OutOfReach;
  }

  lemma TwoTasks()
    ensures var s := Run(EMPTY, TWO_TASKS);
      s.tasks == [BIG, SMALL] && OutOfReach(s, 0, LEASE)
  {
    hide After, OutOfReach;
    FirstRegister(FIRST);
    TwoCreated(After(EMPTY, TWO_TASKS[0].req, FIRST));
    var s1 := After(EMPTY, TWO_TASKS[0].req, FIRST);
    var s2 := After(s1, TWO_TASKS[1].req, LATER);
    assert TWO_TASKS[1..][1..] == [TWO_TASKS[2]] && TWO_TASKS[1..][1..][1..] == [];
    assert Run(s2, [TWO_TASKS[2]]) == After(s2, TWO_TASKS[2].req, LATER);
    assert Run(s1, TWO_TASKS[1..]) == Run(s2, [TWO_TASKS[2]]);
  }

  lemma SmallStarts(s: State)
    requires s.tasks == [BIG, SMALL] && OutOfReach(s, 0, LEASE)
    ensures After(s, Events("p", "r", 1, [STARTED]), LATER).tasks == [BIG, SMALL.(status := Running)]
  {
    BigAndSmall(SMALL);
    LoneEvent(s, STARTED, 1, 4, LEASE);
    hide ApplyEvent;
    assert [STARTED][1..] == [];
    assert Selected([STARTED], 0) == [STARTED];
    var s1 := ApplyEvent(s, "p", "r", STARTED, 4, LEASE);
    assert ApplyAll(s1, "p", "r", [], 4, LEASE) == s1;
    assert ApplyAll(s, "p", "r", [STARTED], 4, LEASE) == s1;
    QuietEvents(s, [STARTED], LATER, 0);
  }

  /** The overrun, in a run from the start: a task waiting for resources beside one that uses them all
      reports that it has started. */
  lemma StartedOverBudget()
    ensures WithinBudget(Run(EMPTY, TWO_TASKS).tasks, 4, "p")
    ensures !WithinBudget(Run(EMPTY, TWO_TASKS + [Call(Events("p", "r", 1, [STARTED]), LATER)]).tasks, 4, "p")
  {
    TwoTasks();
    SmallStarts(Run(EMPTY, TWO_TASKS));
    RunLast(EMPTY, TWO_TASKS, Call(Events("p", "r", 1, [STARTED]), LATER));
    BigAndSmall(SMALL);
    BigAndSmall(SMALL.(status := Running));
  }

  /** After an event that finishes a task, and after complete, cancel and reject, nothing ready is left waiting. */
  lemma FinishingEventSettles(s: State, p: string, r: string, e: RawEvent, budget: nat, now: nat)
    requires Wf(s) && e.RawEvent? && SetsOff(s, p, e)
    ensures Settled(ApplyEvent(s, p, r, e, budget, now), budget, p)
  {
    EventShape(s, p, r, e, budget, now);
    ActivateSettles(EventPut(s, p, r, e, now), budget, p, now);
  }

  lemma FinishingActionsSettle(s: State, i: nat, budget: nat, now: nat)
    requires i < |s.tasks|
    ensures Settled(ActComplete(s, i, budget, now), budget, s.tasks[i].project)
    ensures Settled(ActReject(s, i, budget, now), budget, s.tasks[i].project)
    ensures Settled(ActCancel(s, i, budget, now), budget, s.tasks[i].project)
  {
    var p := s.tasks[i].project;
    CompleteSettles(s, i, budget, now);
    var u := s.tasks[i].(approval := Rejected, status := Blocked, updatedAt := now);
    ActivateSettles(Append(PutTask(s, i, u), p, TaskAction(Reject), u.id, "", 0, false), budget, p, now);
    var t := s.tasks[i].(status := Cancelled, cancellation := Manual, updatedAt := now);
    var s1 := Append(PutTask(s, i, t), p, TaskAction(Cancel), t.id, "", 0, false);
    EnqueueSettled(s1.(commands := Supersede(s1.commands, t.id)), t, CancelTask, budget, p, now);
  }

  lemma CompleteSettles(s: State, i: nat, budget: nat, now: nat)
    requires i < |s.tasks|
    ensures Settled(ActComplete(s, i, budget, now), budget, s.tasks[i].project)
  {
    var t := s.tasks[i].(status := Completed, completion := Manual, updatedAt := now);
    var s1 := Append(PutTask(s, i, t), t.project, TaskAction(Complete), t.id, "", 0, false);
    var s2 := Enqueue(s1.(commands := Supersede(s1.commands, t.id)), t, CancelTask, t.attempt, now);
    ActivateSettles(s2, budget, t.project, now);
  }

  lemma EnqueueSettled(s: State, t: Task, kind: Kind, budget: nat, p: string, now: nat)
    ensures Settled(Enqueue(Activate(s, budget, p, now), t, kind, t.attempt, now), budget, p)
  {
    var s1 := Activate(s, budget, p, now);
    ActivateSettles(s, budget, p, now);
    var s2 := Enqueue(s1, t, kind, t.attempt, now);
    assert s2.tasks == s1.tasks;
    assert forall i :: 0 <= i < |s1.tasks| ==> SettledAt(s1, budget, p, i) ==> SettledAt(s2, budget, p, i);
  }

  // ---------------------------------------------------------------- user completion

  /** In every reachable state a manual completion means completed, and it stays so, attempt included,
      through every later request of every run. */
  lemma UserCompletionFinal(before: seq<Call>, later: seq<Call>, i: nat)
    requires i < |Run(EMPTY, before).tasks| && Run(EMPTY, before).tasks[i].completion == Manual
    ensures var t := Run(EMPTY, before).tasks[i];
            var s' := Run(Run(EMPTY, before), later);
      && t.status == Completed
      && i < |s'.tasks| && s'.tasks[i].id == t.id
      && s'.tasks[i].status == Completed && s'.tasks[i].completion == Manual && s'.tasks[i].attempt == t.attempt
  {
    RunGrows(EMPTY, before);
    RunGrows(Run(EMPTY, before), later);
  }
}
