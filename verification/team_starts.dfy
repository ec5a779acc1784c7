/**
  Start commands: none is ever made before all dependencies of its task are completed.
 */
module TeamStarts {
  import opened TeamModel
  import opened TeamFrames
  import opened TeamSteps
  import opened TeamScheduler
  import opened TeamIntake

  predicate TaskIsFree(ts: seq<Task>, task: nat) {
    var i := FindTask(ts, task);
    i < |ts| && AllCompleted(ts, ts[i].deps)
  }

  // Every start command made since the first state belongs to a task whose dependencies
  // are all completed in the second.
  ghost predicate StartsFree(s: State, s': State) {
    forall c :: c in s'.commands && c.id >= s.nextId && c.kind == StartTask ==> TaskIsFree(s'.tasks, c.task)
  }

  // Tasks keep their identity and dependencies, and completed ones stay completed.
  ghost predicate StillCompleted(ts: seq<Task>, ts': seq<Task>) {
    |ts| <= |ts'| && forall i :: 0 <= i < |ts| ==>
      ts'[i].id == ts[i].id && ts'[i].deps == ts[i].deps && (ts[i].status == Completed ==> ts'[i].status == Completed)
  }

  // A part of a handler after which the first state's start commands are still justified.
  ghost predicate Advances(s: State, s': State) {
    Keeps(s, s') && StillCompleted(s.tasks, s'.tasks) && StartsFree(s, s')
  }

  lemma StillFree(ts: seq<Task>, ts': seq<Task>, task: nat)
    requires StillCompleted(ts, ts') && TaskIsFree(ts, task)
    ensures TaskIsFree(ts', task)
  {
    assert FindTask(ts', task) == FindTask(ts, task);
    var deps := ts[FindTask(ts, task)].deps;
    forall k | 0 <= k < |deps| ensures CompletedTask(ts', deps[k]) {
      assert CompletedTask(ts, deps[k]);
      assert FindTask(ts', deps[k]) == FindTask(ts, deps[k]);
    }
  }

  lemma AdvancesTrans(s: State, s1: State, s2: State)
    requires Advances(s, s1) && Advances(s1, s2)
    ensures Advances(s, s2)
  {
    KeepsTrans(s, s1, s2);
    forall c | c in s2.commands && c.id >= s.nextId && c.kind == StartTask ensures TaskIsFree(s2.tasks, c.task) {
      if c.id < s1.nextId {
        assert From(s1.commands, c);
        var x :| x in s1.commands && SameCommand(x, c);
        StillFree(s1.tasks, s2.tasks, c.task);
      }
    }
  }

  // No command here has an identifier from n on.
  ghost predicate Before(cs: seq<Command>, n: nat) { forall c :: c in cs ==> c.id < n }

  lemma OldIds(s: State)
    requires Wf(s)
    ensures Before(s.commands, s.nextId)
  {
    forall c | c in s.commands ensures c.id < s.nextId {
      var k :| 0 <= k < |s.commands| && s.commands[k] == c;
    }
  }

  lemma QuietAdvances(s: State, s': State)
    requires Keeps(s, s') && StillCompleted(s.tasks, s'.tasks) && s'.nextId == s.nextId
    ensures Advances(s, s')
  {
    OldIds(s');
  }

  lemma AdvancesRefl(s: State)
    requires Wf(s)
    ensures Advances(s, s)
  {
    KeepsRefl(s);
    QuietAdvances(s, s);
  }

  // A change that makes no command, followed by one whose starts are justified.
  lemma StartsAfter(s: State, s1: State, s2: State)
    requires Before(s1.commands, s.nextId) && Advances(s1, s2)
    ensures StartsFree(s, s2)
  {
    forall c | c in s2.commands && c.id < s1.nextId ensures c.id < s.nextId {
      assert From(s1.commands, c);
      var x :| x in s1.commands && SameCommand(x, c);
    }
  }

  // The only new command of an enqueue is the one asked for, and a start is made only for a free task.
  lemma EnqueuedCommand(s: State, t: Task, kind: Kind, attempt: nat, now: nat, c: Command)
    requires Wf(s) && c in Enqueue(s, t, kind, attempt, now).commands && c.id >= s.nextId
    ensures c.id == s.nextId && c.kind == kind && c.task == t.id && c.attempt == attempt
    ensures kind == StartTask ==> DepStatus(s.tasks, t.deps) == Accepted
  {
    OldIds(s);
    var i := FindReachable(s.runtimes, t.project, now);
    if i < |s.runtimes| {
      var cs := s.commands + [Command(s.nextId, t.project, s.runtimes[i].runtime, t.id, kind, Queued, attempt, 0, 0)];
      assert CommandsWf(cs, s.nextId + 1);
      CompactedFrom(cs, t.project, s.nextId + 1);
    }
  }

  lemma EnqueueAdvances(s: State, t: Task, kind: Kind, attempt: nat, now: nat)
    requires Wf(s)
    requires kind == StartTask ==> FindTask(s.tasks, t.id) < |s.tasks| && s.tasks[FindTask(s.tasks, t.id)].deps == t.deps
    ensures Advances(s, Enqueue(s, t, kind, attempt, now))
  {
    var s' := Enqueue(s, t, kind, attempt, now);
    EnqueueKeeps(s, t, kind, attempt, now);
    DepStatusMeaning(s.tasks, t.deps);
    forall c | c in s'.commands && c.id >= s.nextId && c.kind == StartTask ensures TaskIsFree(s'.tasks, c.task) {
      EnqueuedCommand(s, t, kind, attempt, now, c);
    }
  }

  // ------------------------------------------------------------------- activation

  lemma VisitAdvances(s: State, budget: nat, p: string, i: nat, now: nat)
    requires Wf(s) && i < |s.tasks|
    ensures Advances(s, Visit(s, budget, p, i, now))
  {
    var s' := Visit(s, budget, p, i, now);
    VisitMade(s, budget, p, i, now);
    hide Grows, Addressed, StartsFree, Visit, Enqueue;
    VisitKeeps(s, budget, p, i, now);
    if s'.nextId == s.nextId {
      VisitMoves(s, budget, p, i, now);
      QuietAdvances(s, s');
    } else {
      ReadyAdvances(s, i, s.tasks[i].(status := Accepted, updatedAt := now), p, now);
    }
  }

  // A visit makes a command only where it makes a task ready.
  lemma VisitMade(s: State, budget: nat, p: string, i: nat, now: nat)
    requires i < |s.tasks|
    ensures var s', u := Visit(s, budget, p, i, now), s.tasks[i].(status := Accepted, updatedAt := now);
      s'.nextId != s.nextId ==>
        && Waiting(s.tasks[i].status)
        && s' == Enqueue(Append(PutTask(s, i, u), p, TaskReady, u.id, "", 0, false), u, StartTask, u.attempt, now)
  {
    hide Fits, DepStatus, FindReachable, Compacted, LastN;
  }

  lemma ReadyAdvances(s: State, i: nat, u: Task, p: string, now: nat)
    requires Wf(s) && i < |s.tasks| && Waiting(s.tasks[i].status)
    requires u == s.tasks[i].(status := Accepted, updatedAt := now)
    ensures Advances(s, Enqueue(Append(PutTask(s, i, u), p, TaskReady, u.id, "", 0, false), u, StartTask, u.attempt, now))
  {
    hide Grows, Addressed, StartsFree;
    var s0 := PutTask(s, i, u);
    PutKeeps(s, i, u);
    var s1 := Append(s0, p, TaskReady, u.id, "", 0, false);
    ThenAppend(s, s0, p, TaskReady, u.id, "", 0, false);
    QuietAdvances(s, s1);
    assert FindTask(s1.tasks, u.id) == i;
    EnqueueAdvances(s1, u, StartTask, u.attempt, now);
    AdvancesTrans(s, s1, Enqueue(s1, u, StartTask, u.attempt, now));
  }

  lemma {:induction false} PassAdvances(s: State, budget: nat, p: string, i: nat, now: nat)
    requires Wf(s) && i <= |s.tasks|
    ensures Advances(s, Pass(s, budget, p, i, now))
    decreases |s.tasks| - i
  {
    hide Wf, Grows, Addressed, StillCompleted, StartsFree;
    if i == |s.tasks| {
      KeepsRefl(s);
      QuietAdvances(s, s);
    } else {
      var s1 := Visit(s, budget, p, i, now);
      VisitAdvances(s, budget, p, i, now);
      PassAdvances(s1, budget, p, i + 1, now);
      AdvancesTrans(s, s1, Pass(s1, budget, p, i + 1, now));
    }
  }

  lemma {:induction false} ActivateAdvances(s: State, budget: nat, p: string, now: nat)
    requires Wf(s)
    ensures Advances(s, Activate(s, budget, p, now))
    decreases Rank(s.tasks)
  {
    var s1 := Pass(s, budget, p, 0, now);
    PassAdvances(s, budget, p, 0, now);
    PassRank(s, budget, p, 0, now);
    if s1.tasks == s.tasks {
    } else {
      ActivateAdvances(s1, budget, p, now);
      AdvancesTrans(s, s1, Activate(s1, budget, p, now));
    }
  }

  // ---------------------------------------------------------------------- requests

  lemma EventPutKeeps(s: State, p: string, r: string, e: RawEvent, now: nat)
    requires Wf(s) && e.RawEvent?
    ensures Keeps(s, EventPut(s, p, r, e, now))
  {
    var s0 := Logged(s, p, r, e);
    AppendKeeps(s, p, e.typ, e.task, r, if e.task != 0 then AttemptOf(e.attempt) else 0, Stale(s.tasks, e));
    var i := FindTask(s.tasks, e.task);
    if i < |s.tasks| { MovedKeeps(s, s0, i, p, e, now); }
  }

  lemma MovedKeeps(s: State, s0: State, i: nat, p: string, e: RawEvent, now: nat)
    requires Keeps(s, s0) && e.RawEvent? && i < |s0.tasks|
    ensures Keeps(s, PutTask(s0, i, MovedBy(s0.tasks[i], p, e, now)))
  {
    PutKeeps(s0, i, MovedBy(s0.tasks[i], p, e, now));
    KeepsTrans(s, s0, PutTask(s0, i, MovedBy(s0.tasks[i], p, e, now)));
  }

  /** Each start command an agent event brings about is for a task free in the state right after that event. */
  lemma EventStartsFree(s: State, p: string, r: string, e: RawEvent, budget: nat, now: nat)
    requires Wf(s) && e.RawEvent?
    ensures StartsFree(s, ApplyEvent(s, p, r, e, budget, now))
  {
    hide ApplyEvent, MovedBy, Activate, LastN;
    var s1 := EventPut(s, p, r, e, now);
    EventPutKeeps(s, p, r, e, now);
    EventShape(s, p, r, e, budget, now);
    assert s1.nextId == s.nextId;
    assert Wf(s1);
    hide Wf, Grows, Addressed, Keeps, Advances, EventPut, SetsOff, StillCompleted;
    OldIds(s1);
    if SetsOff(s, p, e) {
      ActivateAdvances(s1, budget, p, now);
    } else {
      AdvancesRefl(s1);
    }
    StartsAfter(s, s1, ApplyEvent(s, p, r, e, budget, now));
  }

  lemma {:induction false} RestartAdvances(s: State, p: string, i: nat, now: nat)
    requires Wf(s) && i <= |s.tasks|
    ensures Advances(s, Restart(s, p, i, now))
    decreases |s.tasks| - i
  {
    hide Grows, Addressed, StillCompleted, StartsFree;
    if i == |s.tasks| {
      AdvancesRefl(s);
    } else {
      var t := s.tasks[i];
      var s1 := RestartOne(s, p, t, now);
      if s1 == s {
        AdvancesRefl(s);
      } else {
        assert FindTask(s.tasks, t.id) == i;
        EnqueueAdvances(s, t, StartTask, t.attempt, now);
      }
      RestartAdvances(s1, p, i + 1, now);
      AdvancesTrans(s, s1, Restart(s1, p, i + 1, now));
    }
  }

  lemma RegisterStartsFree(s: State, p: string, r: string, now: nat)
    requires Wf(s)
    ensures StartsFree(s, Append(Restart(TakeOver(s, p, r, now), p, 0, now), p, RuntimeOnline, 0, r, 0, false))
  {
    var s1 := TakeOver(s, p, r, now);
    TakeOverGrows(s, p, r, now);
    RestartAdvances(s1, p, 0, now);
    OldIds(s);
    StartsAfter(s, s1, Restart(s1, p, 0, now));
  }

  lemma CreateStartsFree(s: State, t: Task, now: nat)
    requires Wf(s) && t.id == s.nextId && t.attempt == 1 && t.completion == NoSource
    requires forall d :: d in t.deps ==> InProject(s.tasks, t.project, d)
    ensures StartsFree(s, AddTask(s, t, now))
  {
    var typ := CreationEvent(t.status);
    var s1 := Announced(s, t, typ);
    AnnounceKeeps(s, t, typ);
    OldIds(s);
    NewTaskFound(s, t);
    assert Wf(s1) && s1.tasks == s.tasks + [t] && s1.commands == s.commands;
    hide Wf, Grows, Addressed, Keeps, Advances, Announced, Enqueue, FindTask;
    if t.status == Accepted {
      EnqueueAdvances(s1, t, StartTask, t.attempt, now);
      StartsAfter(s, s1, AddTask(s, t, now));
    }
  }

  lemma NewTaskFound(s: State, t: Task)
    requires Wf(s) && t.id == s.nextId
    ensures FindTask(s.tasks + [t], t.id) == |s.tasks|
  {
    var ts := s.tasks + [t];
    assert ts[|s.tasks|] == t && forall j :: 0 <= j < |s.tasks| ==> ts[j] == s.tasks[j];
  }

  lemma ActionStartsFree(s: State, task: nat, action: Action, budget: nat, now: nat)
    requires Wf(s)
    ensures var o := HandleAction(s, task, action, budget, now); o.Write? ==> StartsFree(s, o.next)
  {
    var i := FindTask(s.tasks, task);
    OldIds(s);
    if i < |s.tasks| && ActionGuard(s, s.tasks[i], action) == Done {
      match action
      case Input(_) => InputStartsFree(s, i, action, now);
      case Cancel => CancelStartsFree(s, i, budget, now);
      case Retry => RetryStartsFree(s, i, budget, now);
      case Complete => CompleteStartsFree(s, i, budget, now);
      case Approve =>
      case Reject => RejectStartsFree(s, i, budget, now);
    }
  }

  lemma InputStartsFree(s: State, i: nat, action: Action, now: nat)
    requires Wf(s) && i < |s.tasks|
    ensures StartsFree(s, ActInput(s, i, action, now))
  {
    var t := s.tasks[i].(updatedAt := now);
    var s1 := Append(PutTask(s, i, t), t.project, TaskAction(action), t.id, "", 0, false);
    PutAndAppendKeeps(s, i, t, TaskAction(action));
    EnqueueAdvances(s1, t, InputTask, t.attempt, now);
    OldIds(s);
    StartsAfter(s, s1, Enqueue(s1, t, InputTask, t.attempt, now));
  }

  lemma ActivateThenEnqueue(s: State, s1: State, t: Task, budget: nat, now: nat)
    requires Wf(s1) && Before(s1.commands, s.nextId)
    ensures StartsFree(s, Enqueue(Activate(s1, budget, t.project, now), t, CancelTask, t.attempt, now))
    ensures StartsFree(s, Activate(Enqueue(s1, t, CancelTask, t.attempt, now), budget, t.project, now))
  {
    var a := Activate(s1, budget, t.project, now);
    ActivateAdvances(s1, budget, t.project, now);
    EnqueueAdvances(a, t, CancelTask, t.attempt, now);
    AdvancesTrans(s1, a, Enqueue(a, t, CancelTask, t.attempt, now));
    StartsAfter(s, s1, Enqueue(a, t, CancelTask, t.attempt, now));
    var b := Enqueue(s1, t, CancelTask, t.attempt, now);
    EnqueueAdvances(s1, t, CancelTask, t.attempt, now);
    ActivateAdvances(b, budget, t.project, now);
    AdvancesTrans(s1, b, Activate(b, budget, t.project, now));
    StartsAfter(s, s1, Activate(b, budget, t.project, now));
  }

  lemma SupersededIds(s: State, task: nat)
    requires Wf(s)
    ensures Before(Supersede(s.commands, task), s.nextId)
  {
    SupersedeKeeps(s, task);
    OldIds(s.(commands := Supersede(s.commands, task)));
  }

  lemma CancelStartsFree(s: State, i: nat, budget: nat, now: nat)
    requires Wf(s) && i < |s.tasks| && !UserCompleted(s.tasks[i])
    ensures StartsFree(s, ActCancel(s, i, budget, now))
  {
    var t := s.tasks[i].(status := Cancelled, cancellation := Manual, updatedAt := now);
    var s1 := Append(PutTask(s, i, t), t.project, TaskAction(Cancel), t.id, "", 0, false);
    PutAndAppendKeeps(s, i, t, TaskAction(Cancel));
    ThenSupersede(s, s1, t.id);
    SupersededIds(s, t.id);
    ActivateThenEnqueue(s, s1.(commands := Supersede(s1.commands, t.id)), t, budget, now);
  }

  lemma CompleteStartsFree(s: State, i: nat, budget: nat, now: nat)
    requires Wf(s) && i < |s.tasks|
    ensures StartsFree(s, ActComplete(s, i, budget, now))
  {
    var t := s.tasks[i].(status := Completed, completion := Manual, updatedAt := now);
    var s1 := Append(PutTask(s, i, t), t.project, TaskAction(Complete), t.id, "", 0, false);
    PutAndAppendKeeps(s, i, t, TaskAction(Complete));
    ThenSupersede(s, s1, t.id);
    SupersededIds(s, t.id);
    ActivateThenEnqueue(s, s1.(commands := Supersede(s1.commands, t.id)), t, budget, now);
  }

  lemma RejectStartsFree(s: State, i: nat, budget: nat, now: nat)
    requires Wf(s) && i < |s.tasks| && !UserCompleted(s.tasks[i])
    ensures StartsFree(s, ActReject(s, i, budget, now))
  {
    var u := s.tasks[i].(approval := Rejected, status := Blocked, updatedAt := now);
    var s1 := Append(PutTask(s, i, u), u.project, TaskAction(Reject), u.id, "", 0, false);
    PutAndAppendKeeps(s, i, u, TaskAction(Reject));
    OldIds(s);
    ActivateAdvances(s1, budget, u.project, now);
    StartsAfter(s, s1, Activate(s1, budget, u.project, now));
  }

  lemma RetryStartsFree(s: State, i: nat, budget: nat, now: nat)
    requires Wf(s) && i < |s.tasks| && !UserCompleted(s.tasks[i]) && s.tasks[i].attempt < MAX_ATTEMPT
    ensures StartsFree(s, ActRetry(s, i, budget, now))
  {
    var t := s.tasks[i];
    var s1 := Enqueue(s.(commands := Supersede(s.commands, t.id)), t, CancelTask, t.attempt, now);
    CancelMade(s, t, now);
    RetryTail(s, s1, i, budget, now);
  }

  lemma CancelMade(s: State, t: Task, now: nat)
    requires Wf(s)
    ensures var s1 := Enqueue(s.(commands := Supersede(s.commands, t.id)), t, CancelTask, t.attempt, now);
      Wf(s1) && s1.tasks == s.tasks && forall c :: c in s1.commands && c.id >= s.nextId ==> c.kind != StartTask
  {
    var s0 := s.(commands := Supersede(s.commands, t.id));
    SupersedeKeeps(s, t.id);
    EnqueueKeeps(s0, t, CancelTask, t.attempt, now);
    forall c | c in Enqueue(s0, t, CancelTask, t.attempt, now).commands && c.id >= s.nextId ensures c.kind != StartTask {
      EnqueuedCommand(s0, t, CancelTask, t.attempt, now, c);
    }
  }

  // No start command has been made when the retried task is put back.
  lemma RetryTail(s: State, s1: State, i: nat, budget: nat, now: nat)
    requires Wf(s1) && i < |s1.tasks| && !UserCompleted(s1.tasks[i]) && s1.tasks[i].attempt < MAX_ATTEMPT
    requires forall c :: c in s1.commands && c.id >= s.nextId ==> c.kind != StartTask
    ensures var t' := RetriedTask(s1, s1.tasks[i], budget, now);
      var s2 := Append(PutTask(s1, i, t'), t'.project, TaskAction(Retry), t'.id, "", 0, false);
      StartsFree(s, if t'.status == Accepted then Enqueue(s2, t', StartTask, t'.attempt, now) else s2)
  {
    var t' := RetriedTask(s1, s1.tasks[i], budget, now);
    var s2 := Append(PutTask(s1, i, t'), t'.project, TaskAction(Retry), t'.id, "", 0, false);
    PutAndAppendKeeps(s1, i, t', TaskAction(Retry));
    if t'.status == Accepted {
      assert FindTask(s2.tasks, t'.id) == i;
      var s3 := Enqueue(s2, t', StartTask, t'.attempt, now);
      EnqueueAdvances(s2, t', StartTask, t'.attempt, now);
      forall c | c in s3.commands && c.id < s2.nextId && c.kind == StartTask ensures c.id < s.nextId {
        assert From(s2.commands, c);
        var x :| x in s2.commands && SameCommand(x, c);
      }
    }
  }

  /** Apart from agent events, no request makes a start command for a task that is not free afterwards. */
  lemma StepStartsFree(s: State, req: Request, env: Env)
    requires Wf(s) && !req.Events?
    ensures StartsFree(s, After(s, req, env))
  {
    OldIds(s);
    match Handle(s, req, env)
    case Keep(_) =>
    case Write(next, _) =>
      if env.saves {
        assert After(s, req, env) == next;
        HandleStartsFree(s, req, env);
      }
  }

  lemma HandleStartsFree(s: State, req: Request, env: Env)
    requires Wf(s) && !req.Events?
    ensures var o := Handle(s, req, env); o.Write? ==> StartsFree(s, o.next)
  {
    hide Compacted, AckAll, Acted, ActionGuard, HoldsLease, FindCurrent, FindRuntime, FindTask, DepsWellFormed;
    OldIds(s);
    match req
    case Register(p, r) => RegisterStartsFree(s, p, r, env.now);
    case Heartbeat(_, _, _, _) =>
    case Unregister(_, _, _) =>
    case Expire => ExpireTasks(s, 0, env.now);
    case Create(p, deps, profile, key, owner) =>
      if Handle(s, req, env).Write? {
        assert DepsExist(s.tasks, p, s.nextId, deps);
        CreateStartsFree(s, NewTask(s, p, deps, profile, key, owner, env.budget, env.now), env.now);
      }
    case Poll(p, r, token, limit) => PollStartsFree(s, p, r, token, limit, env.now);
    case Ack(p, r, token, ids) =>
      AckThenCompactKeeps(s, p, r, ids);
      OldIds(s.(commands := Compacted(AckAll(s.commands, p, r, ids), p)));
    case Act(task, action) => ActionStartsFree(s, task, action, env.budget, env.now);
  }

  lemma PollStartsFree(s: State, p: string, r: string, token: nat, limit: nat, now: nat)
    requires Wf(s)
    ensures var o := HandlePoll(s, p, r, token, limit, now); o.Write? ==> StartsFree(s, o.next)
  {
    PollKeeps(s, p, r, token, limit, now);
    var o := HandlePoll(s, p, r, token, limit, now);
    if o.Write? { OldIds(o.next); }
  }

  // --------------------------------------------------------------------- whole runs

  // The command was drawn on the way from one state to the next, which has it, and its
  // task is free there.
  ghost predicate MadeFree(s: State, s': State, c: Command) {
    c.id >= s.nextId && From(s'.commands, c) && TaskIsFree(s'.tasks, c.task)
  }

  ghost predicate BatchMadeFree(s: State, p: string, r: string, es: seq<RawEvent>, budget: nat, now: nat, c: Command)
    requires Objects(es)
    decreases |es|
  {
    |es| > 0 &&
      var s1 := ApplyEvent(s, p, r, es[0], budget, now);
      MadeFree(s, s1, c) || BatchMadeFree(s1, p, r, es[1..], budget, now, c)
  }

  // The request, or one of the events of a batch that is taken.
  ghost predicate StepMadeFree(s: State, req: Request, env: Env, c: Command) {
    if BatchSaved(s, req, env) then
      var p, r := req.project, req.runtime;
      BatchMadeFree(s, p, r, Intake(s, Call(req, env), p, r), env.budget, env.now, c)
    else
      MadeFree(s, After(s, req, env), c)
  }

  ghost predicate RunMadeFree(s: State, calls: seq<Call>, c: Command)
    decreases |calls|
  {
    |calls| > 0 &&
      (StepMadeFree(s, calls[0].req, calls[0].env, c) || RunMadeFree(After(s, calls[0].req, calls[0].env), calls[1..], c))
  }

  lemma FromFrom(a: seq<Command>, b: seq<Command>, n: nat, c: Command)
    requires CommandsKept(a, b, n) && From(b, c) && c.id < n
    ensures From(a, c)
  {
    var y :| y in b && SameCommand(y, c);
    var x :| x in a && SameCommand(x, y);
    assert SameCommand(x, c);
  }

  lemma {:induction false} BatchStartsFree(s: State, p: string, r: string, es: seq<RawEvent>, budget: nat, now: nat, c: Command)
    requires Wf(s) && Objects(es) && From(ApplyAll(s, p, r, es, budget, now).commands, c)
    requires c.kind == StartTask && c.id >= s.nextId
    ensures BatchMadeFree(s, p, r, es, budget, now, c)
    decreases |es|
  {
    if |es| == 0 {
      OldIds(s);
    } else {
      hide Wf, ApplyEvent, TaskIsFree;
      var s1 := ApplyEvent(s, p, r, es[0], budget, now);
      ApplyEventKeeps(s, p, r, es[0], budget, now);
      if c.id >= s1.nextId {
        BatchStartsFree(s1, p, r, es[1..], budget, now, c);
      } else {
        ApplyAllKeeps(s1, p, r, es[1..], budget, now);
        FromFrom(s1.commands, ApplyAll(s1, p, r, es[1..], budget, now).commands, s1.nextId, c);
        EventStartsFree(s, p, r, es[0], budget, now);
      }
    }
  }

  lemma StepMade(s: State, req: Request, env: Env, c: Command)
    requires Wf(s) && From(After(s, req, env).commands, c) && c.kind == StartTask && c.id >= s.nextId
    ensures StepMadeFree(s, req, env, c)
  {
    hide Wf, Handle, After, ApplyAll, TaskIsFree, Intake;
    if BatchSaved(s, req, env) {
      BatchApplies(s, Call(req, env));
      BatchStartsFree(s, req.project, req.runtime, Intake(s, Call(req, env), req.project, req.runtime), env.budget, env.now, c);
    } else if req.Events? {
      NothingMade(s, req, env);
    } else {
      StepStartsFree(s, req, env);
    }
  }

  lemma NothingMade(s: State, req: Request, env: Env)
    requires Wf(s) && req.Events? && !BatchSaved(s, req, env)
    ensures Before(After(s, req, env).commands, s.nextId)
  {
    OldIds(s);
    hide HandleEvents, Wf;
  }

  /** Every start command of a run was made in a state of it, inside a batch if need be, in which its task
      was there and all dependencies of the task were completed. */
  lemma {:induction false} StartsMadeFree(s: State, calls: seq<Call>, c: Command)
    requires Wf(s) && From(Run(s, calls).commands, c) && c.kind == StartTask && c.id >= s.nextId
    ensures RunMadeFree(s, calls, c)
    decreases |calls|
  {
    if |calls| == 0 {
      OldIds(s);
    } else {
      hide Wf, StepMadeFree, After;
      var s1 := After(s, calls[0].req, calls[0].env);
      StepGrows(s, calls[0].req, calls[0].env);
      if c.id >= s1.nextId {
        StartsMadeFree(s1, calls[1..], c);
      } else {
        RunGrows(s1, calls[1..]);
        FromFrom(s1.commands, Run(s1, calls[1..]).commands, s1.nextId, c);
        StepMade(s, calls[0].req, calls[0].env, c);
      }
    }
  }

  /** In particular every start command there is in a reachable state. */
  lemma ReachableStartsFree(calls: seq<Call>, c: Command)
    requires c in Run(EMPTY, calls).commands && c.kind == StartTask
    ensures RunMadeFree(EMPTY, calls, c)
  {
    hide Run, RunMadeFree;
    RunGrows(EMPTY, calls);
    assert SameCommand(c, c);
    if c.id < EMPTY.nextId { FromFrom([], Run(EMPTY, calls).commands, EMPTY.nextId, c); }
    StartsMadeFree(EMPTY, calls, c);
  }
}
