/**
  Creating a task twice under one client key: the key is used once, however often the
  request is repeated.
 */
module TeamKeys {
  import opened TeamModel
  import opened TeamFrames
  import opened TeamSteps
  import opened TeamScheduler

  // No two tasks of a project share a key.
  predicate UniqueKeys(ts: seq<Task>) {
    forall i, j :: 0 <= i < j < |ts| && ts[i].project == ts[j].project && ts[i].key != "" ==> ts[i].key != ts[j].key
  }

  lemma KeptKeys(ts: seq<Task>, ts': seq<Task>)
    requires UniqueKeys(ts) && TasksKept(ts, ts') && |ts'| == |ts|
    ensures UniqueKeys(ts')
  {
  }

  lemma EventLength(s: State, p: string, r: string, e: RawEvent, budget: nat, now: nat)
    requires e.RawEvent?
    ensures |ApplyEvent(s, p, r, e, budget, now).tasks| == |s.tasks|
  {
  }

  lemma {:induction false} EventsLength(s: State, p: string, r: string, es: seq<RawEvent>, budget: nat, now: nat)
    requires Objects(es)
    ensures |ApplyAll(s, p, r, es, budget, now).tasks| == |s.tasks|
    decreases |es|
  {
    hide ApplyEvent;
    if |es| == 0 {
    } else {
      EventLength(s, p, r, es[0], budget, now);
      EventsLength(ApplyEvent(s, p, r, es[0], budget, now), p, r, es[1..], budget, now);
    }
  }

  lemma BatchLength(s: State, p: string, r: string, token: nat, batch: seq<RawEvent>, budget: nat, now: nat)
    ensures var o := HandleEvents(s, p, r, token, batch, budget, now); o.Write? ==> |o.next.tasks| == |s.tasks|
  {
    if HandleEvents(s, p, r, token, batch, budget, now).Write? {
      var last := s.runtimes[FindRuntime(s.runtimes, p, r)].lastSequence;
      ValidObjects(s.tasks, p, batch, last, last);
      EventsLength(s, p, r, Selected(batch, last), budget, now);
    }
  }

  lemma ActedLength(s: State, i: nat, action: Action, budget: nat, now: nat)
    requires i < |s.tasks|
    ensures |Acted(s, i, action, budget, now).tasks| == |s.tasks|
  {
    hide Compacted, LastN, DepStatus, Fits;
  }

  lemma HandleLength(s: State, req: Request, env: Env)
    ensures var o := Handle(s, req, env); o.Write? && !req.Create? ==> |o.next.tasks| == |s.tasks|
  {
    hide Compacted, ActionGuard, HoldsLease, FindCurrent, FindRuntime, AnyExpired, LastN, Acted, HandleEvents;
    match req
    case Register(p, r) => RestartTasks(TakeOver(s, p, r, env.now), p, 0, env.now);
    case Events(p, r, token, batch) => BatchLength(s, p, r, token, batch, env.budget, env.now);
    case Expire => ExpireTasks(s, 0, env.now);
    case Act(task, action) =>
      var i := FindTask(s.tasks, task);
      if i < |s.tasks| { ActedLength(s, i, action, env.budget, env.now); }
    case _ =>
  }

  /** Every request, saved or not, keeps client keys unique within a project. */
  lemma StepKeys(s: State, req: Request, env: Env)
    requires Wf(s) && UniqueKeys(s.tasks)
    ensures UniqueKeys(After(s, req, env).tasks)
  {
    hide Handle, Wf, Grows, TasksKept, UniqueKeys;
    var s' := After(s, req, env);
    StepGrows(s, req, env);
    TasksGrow(s, s');
    if req.Create? && |s'.tasks| != |s.tasks| {
      CreateKeys(s, req, env);
    } else {
      HandleLength(s, req, env);
      KeptKeys(s.tasks, s'.tasks);
    }
  }

  lemma TasksGrow(s: State, s': State)
    requires Grows(s, s')
    ensures TasksKept(s.tasks, s'.tasks)
  {
  }

  lemma CreateKeys(s: State, req: Request, env: Env)
    requires req.Create? && UniqueKeys(s.tasks) && |After(s, req, env).tasks| != |s.tasks|
    ensures UniqueKeys(After(s, req, env).tasks)
  {
    hide DepStatus, Fits, DepsWellFormed, DepsExist, TaskCount, PendingCount, Compacted, LastN, FindReachable;
    var t := NewTask(s, req.project, req.deps, req.profile, req.key, req.owner, env.budget, env.now);
    assert After(s, req, env).tasks == s.tasks + [t];
  }

  lemma {:induction false} KeysOverRuns(s: State, calls: seq<Call>)
    requires Wf(s) && UniqueKeys(s.tasks)
    ensures UniqueKeys(Run(s, calls).tasks)
    decreases |calls|
  {
    hide Wf, Grows, After, UniqueKeys;
    if |calls| == 0 {
    } else {
      StepKeys(s, calls[0].req, calls[0].env);
      StepGrows(s, calls[0].req, calls[0].env);
      KeysOverRuns(After(s, calls[0].req, calls[0].env), calls[1..]);
    }
  }

  /** In every reachable state a project has at most one task of a client key, and once it has one, in every
      later state a create with that key is answered with it, or refused, and changes nothing. */
  lemma CreatedOnce(before: seq<Call>, later: seq<Call>, i: nat, j: nat, deps: seq<nat>, profile: Profile,
                    owner: string, env: Env)
    requires i < |Run(EMPTY, before).tasks| && Run(EMPTY, before).tasks[i].key != ""
    ensures var t, s' := Run(EMPTY, before).tasks[i], Run(Run(EMPTY, before), later);
      var again := Create(t.project, deps, profile, t.key, owner);
      && (j < |s'.tasks| && s'.tasks[j].project == t.project && s'.tasks[j].key == t.key ==> j == i)
      && After(s', again, env) == s'
      && Reply(s', again, env) in {Replayed, Refused(DependenciesInvalid), Refused(FieldsRequired)}
  {
    hide Run, Wf, Grows, TasksKept, UniqueKeys, After, Reply;
    var s := Run(EMPTY, before);
    var s' := Run(s, later);
    assert Wf(EMPTY) && UniqueKeys(EMPTY.tasks) by { EmptyKeys(); }
    RunGrows(EMPTY, before);
    RunGrows(s, later);
    KeysOverRuns(EMPTY, before);
    KeysOverRuns(s, later);
    TasksGrow(s, s');
    SameKey(s.tasks, s'.tasks, i);
    KeyTaken(s', i, j, deps, profile, owner, env);
  }

  lemma EmptyKeys()
    ensures Wf(EMPTY) && UniqueKeys(EMPTY.tasks)
  {
  }

  lemma SameKey(ts: seq<Task>, ts': seq<Task>, i: nat)
    requires TasksKept(ts, ts') && i < |ts|
    ensures i < |ts'| && ts'[i].project == ts[i].project && ts'[i].key == ts[i].key
  {
  }

  lemma KeyTaken(s: State, i: nat, j: nat, deps: seq<nat>, profile: Profile, owner: string, env: Env)
    requires i < |s.tasks| && s.tasks[i].key != "" && UniqueKeys(s.tasks)
    ensures var t := s.tasks[i];
      var again := Create(t.project, deps, profile, t.key, owner);
      && (j < |s.tasks| && s.tasks[j].project == t.project && s.tasks[j].key == t.key ==> j == i)
      && After(s, again, env) == s
      && Reply(s, again, env) in {Replayed, Refused(DependenciesInvalid), Refused(FieldsRequired)}
  {
    hide DepsWellFormed, DepsExist, TaskCount, PendingCount, HandleRegister, HandleHeartbeat, HandleUnregister, HandleEvents,
         HandleExpire, HandlePoll, HandleAck, HandleAction, AddTask, NewTask;
    assert FindKey(s.tasks, s.tasks[i].project, s.tasks[i].key) < |s.tasks|;
  }
}
