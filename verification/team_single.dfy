/**
  Start commands, task by task: in every reachable state a task has at most one that is not
  finished, it is for the attempt the task is at, and a task that waits has none.
 */
module TeamSingle {
  import opened TeamModel
  import opened TeamFrames
  import opened TeamSteps
  import opened TeamScheduler
  import opened TeamStarts

  predicate OpenStart(c: Command, task: nat) { c.kind == StartTask && !Terminal(c) && c.task == task }

  ghost predicate Unstarted(cs: seq<Command>, task: nat) { forall c :: c in cs ==> !OpenStart(c, task) }

  // The task is there, at that attempt, and does not wait.
  predicate Going(ts: seq<Task>, task: nat, attempt: nat) {
    var i := FindTask(ts, task);
    i < |ts| && ts[i].attempt == attempt && !Waiting(ts[i].status)
  }

  ghost predicate Single(s: State) {
    && (forall c :: c in s.commands && OpenStart(c, c.task) ==> Going(s.tasks, c.task, c.attempt))
    && (forall c, d :: c in s.commands && d in s.commands && OpenStart(c, c.task) && OpenStart(d, c.task) ==> c.id == d.id)
  }

  // Tasks keep their place, and each stays at its attempt and does not begin to wait, or has no
  // open start.
  ghost predicate Carries(ts: seq<Task>, ts': seq<Task>, cs': seq<Command>) {
    |ts| <= |ts'| && forall i :: 0 <= i < |ts| ==>
      && ts'[i].id == ts[i].id
      && ((ts'[i].attempt == ts[i].attempt && (Waiting(ts'[i].status) ==> Waiting(ts[i].status))) || Unstarted(cs', ts[i].id))
  }

  lemma OpenBefore(s: State, s': State, c: Command) returns (x: Command)
    requires CommandsKept(s.commands, s'.commands, s.nextId) && c in s'.commands && c.id < s.nextId && OpenStart(c, c.task)
    ensures x in s.commands && OpenStart(x, c.task) && x.id == c.id && x.attempt == c.attempt && x.task == c.task
  {
    assert From(s.commands, c);
    x :| x in s.commands && SameCommand(x, c);
  }

  lemma StillGoing(ts: seq<Task>, ts': seq<Task>, cs': seq<Command>, c: Command)
    requires Carries(ts, ts', cs') && Ids(ts') && c in cs' && OpenStart(c, c.task) && Going(ts, c.task, c.attempt)
    ensures Going(ts', c.task, c.attempt)
  {
    var i := FindTask(ts, c.task);
    assert FindTask(ts', c.task) == i;
  }

  // No command is made.
  lemma SingleCarried(s: State, s': State)
    requires Single(s) && Ids(s'.tasks) && CommandsKept(s.commands, s'.commands, s.nextId) && Before(s'.commands, s.nextId)
    requires Carries(s.tasks, s'.tasks, s'.commands)
    ensures Single(s')
  {
    forall c | c in s'.commands && OpenStart(c, c.task) ensures Going(s'.tasks, c.task, c.attempt) {
      var x := OpenBefore(s, s', c);
      StillGoing(s.tasks, s'.tasks, s'.commands, c);
    }
    hide Going, Carries;
    forall c, d | c in s'.commands && d in s'.commands && OpenStart(c, c.task) && OpenStart(d, c.task) ensures c.id == d.id {
      var x := OpenBefore(s, s', c);
      var y := OpenBefore(s, s', d);
    }
  }

  lemma SingleQuiet(s: State, s': State)
    requires Single(s) && Keeps(s, s') && s'.nextId == s.nextId && Carries(s.tasks, s'.tasks, s'.commands)
    ensures Single(s')
  {
    OldIds(s');
    assert Ids(s'.tasks);
    hide Carries, Addressed, LogsGrow, TasksKept, RuntimesKept, Ids;
    SingleCarried(s, s');
  }

  lemma SingleEnqueue(s: State, t: Task, kind: Kind, attempt: nat, now: nat)
    requires Wf(s) && Single(s)
    requires kind == StartTask ==> Unstarted(s.commands, t.id) && Going(s.tasks, t.id, attempt)
    ensures Single(Enqueue(s, t, kind, attempt, now))
  {
    var s' := Enqueue(s, t, kind, attempt, now);
    EnqueueKeeps(s, t, kind, attempt, now);
    assert s'.tasks == s.tasks;
    hide Enqueue, Wf, Addressed, LogsGrow, TasksKept, RuntimesKept, CommandsKept, Going;
    forall c | c in s'.commands && OpenStart(c, c.task) ensures Going(s'.tasks, c.task, c.attempt) {
      EnqueuedOpen(s, t, kind, attempt, now, c);
    }
    forall c, d | c in s'.commands && d in s'.commands && OpenStart(c, c.task) && OpenStart(d, c.task) ensures c.id == d.id {
      EnqueuedOpen(s, t, kind, attempt, now, c);
      EnqueuedOpen(s, t, kind, attempt, now, d);
    }
  }

  // An open start after an enqueue is an old one, or the one asked for.
  lemma EnqueuedOpen(s: State, t: Task, kind: Kind, attempt: nat, now: nat, c: Command)
    requires Wf(s) && c in Enqueue(s, t, kind, attempt, now).commands && OpenStart(c, c.task)
    ensures
      || (exists x :: x in s.commands && OpenStart(x, c.task) && x.id == c.id && x.attempt == c.attempt && x.task == c.task)
      || (c.id == s.nextId && kind == StartTask && c.task == t.id && c.attempt == attempt)
  {
    EnqueueKeeps(s, t, kind, attempt, now);
    if c.id < s.nextId {
      var x := OpenBefore(s, Enqueue(s, t, kind, attempt, now), c);
    } else {
      EnqueuedCommand(s, t, kind, attempt, now, c);
    }
  }

  lemma SingleSame(s: State, s': State)
    requires Single(s) && s'.tasks == s.tasks && s'.commands == s.commands
    ensures Single(s')
  {
  }

  // ------------------------------------------------------------------- activation

  lemma MovedCarries(ts: seq<Task>, ts': seq<Task>, p: string, cs': seq<Command>)
    requires OnlyMoved(ts, ts', p)
    ensures Carries(ts, ts', cs')
  {
    hide Unstarted;
  }

  lemma VisitSingle(s: State, budget: nat, p: string, i: nat, now: nat)
    requires Wf(s) && Single(s) && i < |s.tasks|
    ensures Single(Visit(s, budget, p, i, now))
  {
    var s', u := Visit(s, budget, p, i, now), s.tasks[i].(status := Accepted, updatedAt := now);
    if s'.nextId == s.nextId {
      hide Visit, Single, Wf, Carries, Grows;
      VisitKeeps(s, budget, p, i, now);
      VisitMoves(s, budget, p, i, now);
      MovedCarries(s.tasks, s'.tasks, p, s'.commands);
      SingleQuiet(s, s');
    } else {
      VisitMade(s, budget, p, i, now);
      assert s.tasks[i].project == p by { hide DepStatus, Fits, Enqueue, Append; }
      hide Visit, Single, Wf;
      ReadySingle(s, i, u, now);
    }
  }

  lemma ReadySingle(s: State, i: nat, u: Task, now: nat)
    requires Wf(s) && Single(s) && i < |s.tasks| && Waiting(s.tasks[i].status)
    requires u == s.tasks[i].(status := Accepted, updatedAt := now)
    ensures Single(Enqueue(Append(PutTask(s, i, u), u.project, TaskReady, u.id, "", 0, false), u, StartTask, u.attempt, now))
  {
    var s1 := Append(PutTask(s, i, u), u.project, TaskReady, u.id, "", 0, false);
    assert s1.tasks == s.tasks[i := u] && s1.commands == s.commands;
    assert 1 <= u.attempt <= MAX_ATTEMPT && u.completion != Manual;
    FindOwn(s.tasks, i);
    FindPut(s.tasks, i, u, u.id);
    assert Unstarted(s.commands, u.id);
    hide Append, Single, Wf, Enqueue, FindTask;
    PutSingle(s, i, u, TaskReady);
    SingleEnqueue(s1, u, StartTask, u.attempt, now);
  }

  lemma {:induction false} PassSingle(s: State, budget: nat, p: string, i: nat, now: nat)
    requires Wf(s) && Single(s) && i <= |s.tasks|
    ensures Single(Pass(s, budget, p, i, now))
    decreases |s.tasks| - i
  {
    hide Wf, Grows, Addressed, Single, Visit;
    if i == |s.tasks| {
    } else {
      VisitSingle(s, budget, p, i, now);
      VisitKeeps(s, budget, p, i, now);
      PassSingle(Visit(s, budget, p, i, now), budget, p, i + 1, now);
    }
  }

  lemma {:induction false} ActivateSingle(s: State, budget: nat, p: string, now: nat)
    requires Wf(s) && Single(s)
    ensures Single(Activate(s, budget, p, now))
    decreases Rank(s.tasks)
  {
    hide Wf, Grows, Addressed, Single, Pass;
    var s1 := Pass(s, budget, p, 0, now);
    PassSingle(s, budget, p, 0, now);
    PassKeeps(s, budget, p, 0, now);
    PassRank(s, budget, p, 0, now);
    if s1.tasks == s.tasks {
    } else {
      ActivateSingle(s1, budget, p, now);
    }
  }

  // ------------------------------------------------------------------------ requests

  lemma EventSingle(s: State, p: string, r: string, e: RawEvent, budget: nat, now: nat)
    requires Wf(s) && Single(s) && e.RawEvent?
    ensures Single(ApplyEvent(s, p, r, e, budget, now))
  {
    var s1 := EventPut(s, p, r, e, now);
    EventPutKeeps(s, p, r, e, now);
    EventShape(s, p, r, e, budget, now);
    EventCarries(s, p, r, e, now);
    hide ApplyEvent, EventPut, Single, SetsOff, Carries;
    SingleQuiet(s, s1);
    ActivateSingle(s1, budget, p, now);
  }

  lemma EventCarries(s: State, p: string, r: string, e: RawEvent, now: nat)
    requires e.RawEvent?
    ensures var s1 := EventPut(s, p, r, e, now);
      s1.commands == s.commands && s1.nextId == s.nextId && Carries(s.tasks, s1.tasks, s1.commands)
  {
    hide LastN;
  }

  lemma {:induction false} BatchSingle(s: State, p: string, r: string, es: seq<RawEvent>, budget: nat, now: nat)
    requires Wf(s) && Single(s) && Objects(es)
    ensures Single(ApplyAll(s, p, r, es, budget, now))
    decreases |es|
  {
    hide Wf, Grows, Addressed, Single, ApplyEvent;
    if |es| == 0 {
    } else {
      EventSingle(s, p, r, es[0], budget, now);
      ApplyEventKeeps(s, p, r, es[0], budget, now);
      BatchSingle(ApplyEvent(s, p, r, es[0], budget, now), p, r, es[1..], budget, now);
    }
  }

  lemma RestartOneSingle(s: State, p: string, i: nat, now: nat)
    requires Wf(s) && Single(s) && i < |s.tasks|
    ensures var s1 := RestartOne(s, p, s.tasks[i], now); Single(s1) && Wf(s1) && s1.tasks == s.tasks
  {
    var t := s.tasks[i];
    FindOwn(s.tasks, i);
    RestartOneKeeps(s, p, t, now);
    hide Single, FindTask, DepStatus, FindReachable, Compacted, Wf, Grows, Addressed;
    if RestartOne(s, p, t, now) != s { SingleEnqueue(s, t, StartTask, t.attempt, now); }
  }

  lemma {:induction false} RestartSingle(s: State, p: string, i: nat, now: nat)
    requires Wf(s) && Single(s) && i <= |s.tasks|
    ensures Single(Restart(s, p, i, now))
    decreases |s.tasks| - i
  {
    hide Wf, Single, RestartOne;
    if i == |s.tasks| {
    } else {
      RestartOneSingle(s, p, i, now);
      RestartSingle(RestartOne(s, p, s.tasks[i], now), p, i + 1, now);
    }
  }

  lemma RegisterSingle(s: State, p: string, r: string, now: nat)
    requires Wf(s) && Single(s)
    ensures Single(Append(Restart(TakeOver(s, p, r, now), p, 0, now), p, RuntimeOnline, 0, r, 0, false))
  {
    var s1 := TakeOver(s, p, r, now);
    TakeOverGrows(s, p, r, now);
    OldIds(s);
    assert Before(s1.commands, s.nextId) && Carries(s.tasks, s1.tasks, s1.commands) && Ids(s1.tasks);
    hide Wf, Carries, Ids, TakeOver, Single, Addressed, LogsGrow, TasksKept, RuntimesKept;
    SingleCarried(s, s1);
    RestartSingle(s1, p, 0, now);
    var s2 := Restart(s1, p, 0, now);
    SingleSame(s2, Append(s2, p, RuntimeOnline, 0, r, 0, false));
  }

  // A new task has no commands yet.
  lemma AnnouncedSingle(s: State, t: Task, typ: EventType)
    requires Wf(s) && Single(s) && t.id == s.nextId && Wf(Announced(s, t, typ))
    ensures var s1 := Announced(s, t, typ);
      Single(s1) && Unstarted(s1.commands, t.id) && s1.tasks == s.tasks + [t] && FindTask(s1.tasks, t.id) == |s.tasks|
  {
    var s1 := Announced(s, t, typ);
    OldIds(s);
    NewTaskFound(s, t);
    assert s1.tasks == s.tasks + [t] && s1.commands == s.commands && Ids(s1.tasks);
    assert forall j :: 0 <= j < |s.tasks| ==> s.tasks[j].id < t.id;
    hide Announced, Wf;
    forall c | c in s.commands ensures !OpenStart(c, t.id) { }
    assert Carries(s.tasks, s1.tasks, s1.commands);
    assert forall c :: c in s.commands ==> SameCommand(c, c);
    hide Single, Carries, Ids, FindTask;
    SingleCarried(s, s1);
  }

  lemma CreateSingle(s: State, t: Task, now: nat)
    requires Wf(s) && Single(s) && t.id == s.nextId && t.attempt == 1 && t.completion == NoSource
    requires forall d :: d in t.deps ==> InProject(s.tasks, t.project, d)
    ensures Single(AddTask(s, t, now))
  {
    var s1 := Announced(s, t, CreationEvent(t.status));
    hide Announced, Single, Ids, Wf, Keeps, FindTask, Enqueue;
    AnnounceKeeps(s, t, CreationEvent(t.status));
    WfKept(s, s1);
    AnnouncedSingle(s, t, CreationEvent(t.status));
    if t.status == Accepted { SingleEnqueue(s1, t, StartTask, t.attempt, now); }
  }

  // A task is put back and something is logged.
  lemma PutSingle(s: State, i: nat, u: Task, typ: EventType)
    requires Wf(s) && Single(s) && i < |s.tasks| && SameTask(s.tasks[i], u) && 1 <= u.attempt <= MAX_ATTEMPT
    requires u.completion == Manual ==> u.status == Completed
    requires
      || (u.attempt == s.tasks[i].attempt && (Waiting(u.status) ==> Waiting(s.tasks[i].status)))
      || Unstarted(s.commands, u.id)
    ensures var s1 := Append(PutTask(s, i, u), u.project, typ, u.id, "", 0, false); Wf(s1) && Single(s1)
  {
    var s1 := Append(PutTask(s, i, u), u.project, typ, u.id, "", 0, false);
    PutAndAppendKeeps(s, i, u, typ);
    assert Carries(s.tasks, s1.tasks, s1.commands);
    assert s1.nextId == s.nextId;
    hide Append, Single, Carries, Grows, Addressed;
    SingleQuiet(s, s1);
  }

  lemma SupersedeSingle(s: State, task: nat)
    requires Wf(s) && Single(s)
    ensures var s1 := s.(commands := Supersede(s.commands, task)); Wf(s1) && Single(s1) && Unstarted(s1.commands, task)
  {
    var s1 := s.(commands := Supersede(s.commands, task));
    SupersedeKeeps(s, task);
    forall c | c in s1.commands ensures !OpenStart(c, task) {
      var k :| 0 <= k < |s1.commands| && s1.commands[k] == c;
    }
    assert Carries(s.tasks, s1.tasks, s1.commands);
    hide Single, Carries, Grows, Addressed;
    SingleQuiet(s, s1);
  }

  lemma ActionSingle(s: State, task: nat, action: Action, budget: nat, now: nat)
    requires Wf(s) && Single(s)
    ensures var o := HandleAction(s, task, action, budget, now); o.Write? ==> Single(o.next)
  {
    var i := FindTask(s.tasks, task);
    if i < |s.tasks| && ActionGuard(s, s.tasks[i], action) == Done {
      var t := s.tasks[i];
      assert 1 <= t.attempt <= MAX_ATTEMPT && (t.completion == Manual ==> t.status == Completed);
      match action
      case Input(_) => InputSingle(s, i, action, now);
      case Cancel => CancelSingle(s, i, budget, now);
      case Retry => RetrySingle(s, i, budget, now);
      case Complete => CompleteSingle(s, i, budget, now);
      case Approve =>
        PutSingle(s, i, t.(approval := Approved, updatedAt := now), TaskAction(Approve));
      case Reject => RejectSingle(s, i, budget, now);
    }
  }

  lemma InputSingle(s: State, i: nat, action: Action, now: nat)
    requires Wf(s) && Single(s) && i < |s.tasks|
    ensures Single(ActInput(s, i, action, now))
  {
    var t := s.tasks[i].(updatedAt := now);
    PutSingle(s, i, t, TaskAction(action));
    hide Single, Wf, Append, Enqueue;
    SingleEnqueue(Append(PutTask(s, i, t), t.project, TaskAction(action), t.id, "", 0, false), t, InputTask, t.attempt, now);
  }

  lemma CancelSingle(s: State, i: nat, budget: nat, now: nat)
    requires Wf(s) && Single(s) && i < |s.tasks| && !UserCompleted(s.tasks[i])
    ensures Single(ActCancel(s, i, budget, now))
  {
    var t := s.tasks[i].(status := Cancelled, cancellation := Manual, updatedAt := now);
    PutSingle(s, i, t, TaskAction(Cancel));
    hide Single, Wf, Append, Enqueue, Activate;
    var s1 := Append(PutTask(s, i, t), t.project, TaskAction(Cancel), t.id, "", 0, false);
    SupersedeSingle(s1, t.id);
    var s2 := s1.(commands := Supersede(s1.commands, t.id));
    ActivateSingle(s2, budget, t.project, now);
    ActivateKeeps(s2, budget, t.project, now);
    SingleEnqueue(Activate(s2, budget, t.project, now), t, CancelTask, t.attempt, now);
  }

  lemma CompleteSingle(s: State, i: nat, budget: nat, now: nat)
    requires Wf(s) && Single(s) && i < |s.tasks|
    ensures Single(ActComplete(s, i, budget, now))
  {
    var t := s.tasks[i].(status := Completed, completion := Manual, updatedAt := now);
    PutSingle(s, i, t, TaskAction(Complete));
    hide Single, Wf, Append, Enqueue, Activate;
    var s1 := Append(PutTask(s, i, t), t.project, TaskAction(Complete), t.id, "", 0, false);
    SupersedeSingle(s1, t.id);
    var s2 := s1.(commands := Supersede(s1.commands, t.id));
    SingleEnqueue(s2, t, CancelTask, t.attempt, now);
    EnqueueKeeps(s2, t, CancelTask, t.attempt, now);
    ActivateSingle(Enqueue(s2, t, CancelTask, t.attempt, now), budget, t.project, now);
  }

  lemma RejectSingle(s: State, i: nat, budget: nat, now: nat)
    requires Wf(s) && Single(s) && i < |s.tasks| && !UserCompleted(s.tasks[i])
    ensures Single(ActReject(s, i, budget, now))
  {
    var u := s.tasks[i].(approval := Rejected, status := Blocked, updatedAt := now);
    PutSingle(s, i, u, TaskAction(Reject));
    hide Single, Wf, Append, Activate;
    ActivateSingle(Append(PutTask(s, i, u), u.project, TaskAction(Reject), u.id, "", 0, false), budget, u.project, now);
  }

  lemma CancelFirst(s: State, t: Task, now: nat)
    requires Wf(s) && Single(s)
    ensures var s1 := Enqueue(s.(commands := Supersede(s.commands, t.id)), t, CancelTask, t.attempt, now);
      Wf(s1) && Single(s1) && Unstarted(s1.commands, t.id) && s1.tasks == s.tasks
  {
    var s0 := s.(commands := Supersede(s.commands, t.id));
    SupersedeSingle(s, t.id);
    SingleEnqueue(s0, t, CancelTask, t.attempt, now);
    EnqueueKeeps(s0, t, CancelTask, t.attempt, now);
    hide Single, Wf, Grows, Addressed, Supersede;
    forall c | c in Enqueue(s0, t, CancelTask, t.attempt, now).commands ensures !OpenStart(c, t.id) {
      if OpenStart(c, t.id) { EnqueuedOpen(s0, t, CancelTask, t.attempt, now, c); }
    }
  }

  lemma RetrySingle(s: State, i: nat, budget: nat, now: nat)
    requires Wf(s) && Single(s) && i < |s.tasks| && !UserCompleted(s.tasks[i]) && s.tasks[i].attempt < MAX_ATTEMPT
    ensures Single(ActRetry(s, i, budget, now))
  {
    hide Single, Supersede, Enqueue, DepStatus, Fits;
    var t := s.tasks[i];
    var s1 := Enqueue(s.(commands := Supersede(s.commands, t.id)), t, CancelTask, t.attempt, now);
    assert Ids(s.tasks) && 1 <= t.attempt;
    CancelFirst(s, t, now);
    hide Wf, Ids;
    var u := RetriedTask(s1, t, budget, now);
    PutSingle(s1, i, u, TaskAction(Retry));
    var s2 := Append(PutTask(s1, i, u), t.project, TaskAction(Retry), t.id, "", 0, false);
    assert s2.commands == s1.commands && s2.tasks == s.tasks[i := u];
    FindOwn(s.tasks, i);
    FindPut(s.tasks, i, u, t.id);
    hide Append, FindTask;
    if u.status == Accepted { SingleEnqueue(s2, u, StartTask, u.attempt, now); }
  }

  // ---------------------------------------------------------------------- whole runs

  lemma HandleSingle(s: State, req: Request, env: Env)
    requires Wf(s) && Single(s)
    ensures var o := Handle(s, req, env); o.Write? ==> Single(o.next)
  {
    hide Wf, Single, Grows, Addressed, Compacted, AckAll, Acted, ActionGuard, HoldsLease, FindCurrent, FindRuntime, FindTask,
      HandleEvents, HandleCreate, HandlePoll, HandleAction, TakeOver, Restart, Append;
    var next := Handle(s, req, env);
    match req
    case Register(p, r) => RegisterSingle(s, p, r, env.now);
    case Heartbeat(_, _, _, _) => if next.Write? { SingleSame(s, next.next); }
    case Unregister(p, r, token) => UnregisterSingle(s, p, r, token, env.now);
    case Events(p, r, token, batch) => EventsSingle(s, p, r, token, batch, env.budget, env.now);
    case Expire =>
      ExpireTasks(s, 0, env.now);
      if next.Write? { SingleSame(s, next.next); }
    case Create(p, deps, profile, key, owner) => CreatedSingle(s, p, deps, profile, key, owner, env.budget, env.now);
    case Poll(p, r, token, limit) => PollSingle(s, p, r, token, limit, env.now);
    case Ack(p, r, token, ids) => AckSingle(s, p, r, ids);
    case Act(task, action) => ActionSingle(s, task, action, env.budget, env.now);
  }

  lemma UnregisterSingle(s: State, p: string, r: string, token: nat, now: nat)
    requires Single(s)
    ensures var o := HandleUnregister(s, p, r, token, now); o.Write? ==> Single(o.next)
  {
    hide Single;
    var o := HandleUnregister(s, p, r, token, now);
    if o.Write? { SingleSame(s, o.next); }
  }

  lemma EventsSingle(s: State, p: string, r: string, token: nat, batch: seq<RawEvent>, budget: nat, now: nat)
    requires Wf(s) && Single(s)
    ensures var o := HandleEvents(s, p, r, token, batch, budget, now); o.Write? ==> Single(o.next)
  {
    hide Wf, Single, ApplyAll, Selected, LastTaken, ReplaceRuntime;
    var o := HandleEvents(s, p, r, token, batch, budget, now);
    if o.Write? {
      var last := s.runtimes[FindRuntime(s.runtimes, p, r)].lastSequence;
      ValidObjects(s.tasks, p, batch, last, last);
      BatchSingle(s, p, r, Selected(batch, last), budget, now);
      SingleSame(ApplyAll(s, p, r, Selected(batch, last), budget, now), o.next);
    }
  }

  lemma CreatedSingle(s: State, p: string, deps: seq<nat>, profile: Profile, key: string, owner: string, budget: nat, now: nat)
    requires Wf(s) && Single(s)
    ensures var o := HandleCreate(s, p, deps, profile, key, owner, budget, now); o.Write? ==> Single(o.next)
  {
    hide Wf, Single, AddTask;
    if HandleCreate(s, p, deps, profile, key, owner, budget, now).Write? {
      assert DepsExist(s.tasks, p, s.nextId, deps);
      CreateSingle(s, NewTask(s, p, deps, profile, key, owner, budget, now), now);
    }
  }

  lemma PollSingle(s: State, p: string, r: string, token: nat, limit: nat, now: nat)
    requires Wf(s) && Single(s)
    ensures var o := HandlePoll(s, p, r, token, limit, now); o.Write? ==> Single(o.next)
  {
    PollKeeps(s, p, r, token, limit, now);
    hide Single, Wf, Grows, Addressed, Deliver;
    var o := HandlePoll(s, p, r, token, limit, now);
    if o.Write? { SingleQuiet(s, o.next); }
  }

  lemma AckSingle(s: State, p: string, r: string, ids: seq<nat>)
    requires Wf(s) && Single(s)
    ensures Single(s.(commands := Compacted(AckAll(s.commands, p, r, ids), p)))
  {
    AckThenCompactKeeps(s, p, r, ids);
    hide Single, Wf, Grows, Addressed, Compacted, AckAll;
    SingleQuiet(s, s.(commands := Compacted(AckAll(s.commands, p, r, ids), p)));
  }

  /** Every request, saved or not, keeps it so. */
  lemma StepSingle(s: State, req: Request, env: Env)
    requires Wf(s) && Single(s)
    ensures Single(After(s, req, env))
  {
    HandleSingle(s, req, env);
    RolledBackSingle(s, req, env);
    hide Handle, Single, Wf, RolledBack;
  }

  lemma RolledBackSingle(s: State, req: Request, env: Env)
    requires Wf(s) && Single(s)
    ensures var o := Handle(s, req, env); o.Write? ==> Single(RolledBack(s, req, o.next, env.now))
  {
    hide Handle, Single, Wf, Grows, RolledBack;
    HandleGrows(s, req, env);
    if Handle(s, req, env).Write? { RestoredSingle(s, req, Handle(s, req, env).next, env.now); }
  }

  lemma RestoredSingle(s: State, req: Request, next: State, now: nat)
    requires Wf(s) && Single(s) && Grows(s, next)
    ensures Single(RolledBack(s, req, next, now))
  {
    var s' := RolledBack(s, req, next, now);
    OldIds(s);
    assert forall c :: c in s.commands ==> SameCommand(c, c);
    assert Carries(s.tasks, s'.tasks, s'.commands) && Ids(s'.tasks) && s'.commands == s.commands;
    hide Carries, Ids, Wf, Grows, RolledBack, Single;
    SingleCarried(s, s');
  }

  lemma {:induction false} RunSingle(s: State, calls: seq<Call>)
    requires Wf(s) && Single(s)
    ensures Single(Run(s, calls))
    decreases |calls|
  {
    hide Wf, Single, After;
    if |calls| == 0 {
    } else {
      StepSingle(s, calls[0].req, calls[0].env);
      StepGrows(s, calls[0].req, calls[0].env);
      RunSingle(After(s, calls[0].req, calls[0].env), calls[1..]);
    }
  }

  /** In every reachable state the unfinished start commands are at most one for each task, each for the
      attempt its task is at, and none for a task that waits. */
  lemma ReachableSingle(calls: seq<Call>, j: nat, k: nat)
    requires var cs := Run(EMPTY, calls).commands;
      j < |cs| && k < |cs| && OpenStart(cs[j], cs[j].task) && OpenStart(cs[k], cs[j].task)
    ensures var s := Run(EMPTY, calls);
      j == k && Going(s.tasks, s.commands[j].task, s.commands[j].attempt)
  {
    RunSingle(EMPTY, calls);
    RunGrows(EMPTY, calls);
    var s := Run(EMPTY, calls);
    hide Run, Going, Grows;
    assert s.commands[j] in s.commands && s.commands[k] in s.commands;
  }
}
