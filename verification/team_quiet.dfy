/**
  Requests while no runtime can be reached: the steps the example runs are made of.  One
  runtime r of a project p holds the lease up to the very moment, so its events are taken
  but no command can be addressed to it.
 */
module TeamQuiet {
  import opened TeamModel

  predicate OutOfReach(s: State, last: nat, lease: nat) {
    && s.commands == [] && |s.runtimes| == 1
    && var x := s.runtimes[0];
       x.project == "p" && x.runtime == "r" && x.status == Online && x.token == 1
       && x.lastSequence == last && x.lease == lease
  }

  // A runtime that registers in a project nobody holds any longer, with no tasks or commands about.
  lemma QuietRegister(s: State, r: string, env: Env)
    requires s.tasks == [] && s.commands == [] && r != "" && env.saves
    requires FindCurrent(s.runtimes, "p") < |s.runtimes| ==> s.runtimes[FindCurrent(s.runtimes, "p")].lease <= env.now
    ensures var s' := After(s, Register("p", r), env);
      && s'.runtimes == FenceOthers(s.runtimes, "p", r) + [Runtime("p", r, Online, s.nextId, env.now + LEASE, 0, env.now)]
      && s'.tasks == [] && s'.commands == [] && s'.nextId == s.nextId + 1
  {
    var s1 := TakeOver(s, "p", r, env.now);
    assert Restart(s1, "p", 0, env.now) == s1;
  }

  lemma FirstRegister(env: Env)
    requires env.saves
    ensures var s := After(EMPTY, Register("p", "r"), env);
      OutOfReach(s, 0, env.now + LEASE) && s.tasks == [] && s.nextId == 2
  {
    QuietRegister(EMPTY, "r", env);
  }

  lemma {:induction false} FewTasks(ts: seq<Task>)
    ensures TaskCount(ts, "p") <= |ts|
  {
    if |ts| == 0 {
    } else {
      FewTasks(ts[1..]);
    }
  }

  lemma QuietCreate(s: State, deps: seq<nat>, profile: Profile, env: Env, last: nat, lease: nat)
    requires OutOfReach(s, last, lease) && lease <= env.now && env.saves && |s.tasks| < TASK_LIMIT
    requires DepsWellFormed(deps) && DepsExist(s.tasks, "p", s.nextId, deps)
    ensures var s' := After(s, Create("p", deps, profile, "", ""), env);
      && s'.tasks == s.tasks + [NewTask(s, "p", deps, profile, "", "", env.budget, env.now)]
      && OutOfReach(s', last, lease) && s'.nextId == s.nextId + 1
  {
    FewTasks(s.tasks);
    assert FindReachable(s.runtimes, "p", env.now) == 1;
    hide DepStatus, Used, DepsWellFormed, DepsExist, LastN;
    assert CreateGuard(s, "p", deps, "") == Done;
  }

  lemma {:induction false} NoneWaitingPass(s: State, budget: nat, p: string, i: nat, now: nat)
    requires i <= |s.tasks| && forall j :: 0 <= j < |s.tasks| ==> !Waiting(s.tasks[j].status)
    ensures Pass(s, budget, p, i, now) == s
    decreases |s.tasks| - i
  {
    if i == |s.tasks| {
    } else {
      NoneWaitingPass(s, budget, p, i + 1, now);
    }
  }

  // A started or failed event for a task no user has ended, with nobody waiting for what it
  // may set free.
  predicate Lone(s: State, e: RawEvent, i: nat) {
    && e.RawEvent? && e.typ in {TaskStarted, TaskFailed} && e.task != 0 && i == FindTask(s.tasks, e.task) < |s.tasks|
    && s.tasks[i].project == "p" && AttemptOf(e.attempt) == s.tasks[i].attempt && !HumanTerminal(s.tasks[i])
    && (e.typ == TaskFailed ==> forall j :: 0 <= j < |s.tasks| && j != i ==> !Waiting(s.tasks[j].status))
  }

  lemma LoneUpdate(s: State, e: RawEvent, i: nat, now: nat)
    requires Lone(s, e, i)
    ensures UpdateFromEvent(Logged(s, "p", "r", e), "p", e.task, e.typ, now) ==
      PutTask(Logged(s, "p", "r", e), i,
              s.tasks[i].(status := if e.typ == TaskFailed then Failed else Running, updatedAt := now))
  {
    hide LastN;
  }

  lemma LoneEvent(s: State, e: RawEvent, i: nat, budget: nat, now: nat)
    requires Lone(s, e, i)
    ensures var s' := ApplyEvent(s, "p", "r", e, budget, now);
      && s'.tasks == s.tasks[i := s.tasks[i].(status := if e.typ == TaskFailed then Failed else Running, updatedAt := now)]
      && s'.commands == s.commands && s'.runtimes == s.runtimes && s'.nextId == s.nextId
  {
    var s1 := UpdateFromEvent(Logged(s, "p", "r", e), "p", e.task, e.typ, now);
    LoneUpdate(s, e, i, now);
    hide LastN, Used, DepStatus, UpdateFromEvent;
    if e.typ == TaskFailed { NoneWaitingPass(s1, budget, "p", 0, now); }
  }

  // A batch that is accepted, when applying it leaves entries, queue and identifiers alone.
  lemma QuietEvents(s: State, batch: seq<RawEvent>, env: Env, last: nat)
    requires OutOfReach(s, last, env.now) && env.saves && 1 <= |batch| <= BATCH_LIMIT
    requires Objects(batch) && Validate(s.tasks, "p", batch, last, last) == Valid
    requires var s1 := ApplyAll(s, "p", "r", Selected(batch, last), env.budget, env.now);
      s1.commands == [] && s1.runtimes == s.runtimes && s1.nextId == s.nextId
    ensures var s' := After(s, Events("p", "r", 1, batch), env);
      && s'.tasks == ApplyAll(s, "p", "r", Selected(batch, last), env.budget, env.now).tasks
      && OutOfReach(s', LastTaken(batch, last), env.now + LEASE) && s'.nextId == s.nextId
  {
    hide ApplyAll, Selected, LastTaken, Validate;
    assert FindRuntime(s.runtimes, "p", "r") == 0;
  }

  lemma {:induction false} RunLast(s: State, calls: seq<Call>, c: Call)
    ensures Run(s, calls + [c]) == After(Run(s, calls), c.req, c.env)
    decreases |calls|
  {
    hide After;
    if |calls| == 0 {
      assert calls + [c] == [c];
    } else {
      assert (calls + [c])[1..] == calls[1..] + [c];
      RunLast(After(s, calls[0].req, calls[0].env), calls[1..], c);
    }
  }
}
