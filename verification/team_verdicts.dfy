/**
  What a user's decision about a task is worth against the agent: a cancellation stands until
  a user undoes it; a rejection does not.
 */
module TeamVerdicts {
  import opened TeamModel
  import opened TeamFrames
  import opened TeamSteps
  import opened TeamQuiet
  import opened TeamIntake
  import opened TeamScheduler

  predicate UserCancelled(t: Task) { t.status == Cancelled && t.cancellation == Manual }

  // A retry, a completion or a rejection of the task that is granted and saved.
  predicate Undoes(s: State, req: Request, env: Env, i: nat)
    requires i < |s.tasks|
  {
    && env.saves && req.Act? && FindTask(s.tasks, req.task) == i
    && (req.action.Retry? || req.action.Complete? || req.action.Reject?)
    && ActionGuard(s, s.tasks[i], req.action) == Done
  }

  // ------------------------------------------------------------------ agent events

  lemma PutElse(s: State, p: string, r: string, e: RawEvent, now: nat, i: nat)
    requires e.RawEvent? && i < |s.tasks| && !Waiting(s.tasks[i].status)
    ensures var ts := EventPut(s, p, r, e, now).tasks;
      && |ts| == |s.tasks| && !Waiting(ts[i].status)
      && ts[i] == if FindTask(s.tasks, e.task) == i then MovedBy(s.tasks[i], p, e, now) else s.tasks[i]
  {
    hide LastN, Log, Counter;
    assert !Waiting(MovedBy(s.tasks[i], p, e, now).status);
    hide MovedBy;
  }

  // An event leaves every task alone but the one it moves, and those that were waiting.
  lemma EventElse(s: State, p: string, r: string, e: RawEvent, budget: nat, now: nat, i: nat)
    requires Wf(s) && e.RawEvent? && i < |s.tasks| && !Waiting(s.tasks[i].status)
    ensures var ts := ApplyEvent(s, p, r, e, budget, now).tasks;
      |ts| == |s.tasks| && ts[i] == if FindTask(s.tasks, e.task) == i then MovedBy(s.tasks[i], p, e, now) else s.tasks[i]
  {
    var s1 := EventPut(s, p, r, e, now);
    assert Ids(s.tasks);
    hide EventPut, ApplyEvent, MovedBy, SetsOff, Wf, Ids;
    EventShape(s, p, r, e, budget, now);
    PutElse(s, p, r, e, now, i);
    ActivateMoves(s1, budget, p, now);
  }

  /** A blocked task, rejected or not, stays blocked under an agent event exactly unless the event moves it
      to another status. */
  lemma EventOnBlocked(s: State, p: string, r: string, e: RawEvent, budget: nat, now: nat, i: nat)
    requires Wf(s) && e.RawEvent? && i < |s.tasks| && s.tasks[i].status == Blocked
    ensures var ts := ApplyEvent(s, p, r, e, budget, now).tasks;
      i < |ts| && (ts[i].status == Blocked <==> !(FindTask(s.tasks, e.task) == i && MovesTo(s, p, e) !in {NoChange, To(Blocked)}))
  {
    hide ApplyEvent, Wf;
    EventElse(s, p, r, e, budget, now, i);
  }

  lemma {:induction false} BatchCancelled(s: State, p: string, r: string, es: seq<RawEvent>, budget: nat, now: nat, i: nat)
    requires Wf(s) && Objects(es) && i < |s.tasks| && UserCancelled(s.tasks[i])
    ensures var ts := ApplyAll(s, p, r, es, budget, now).tasks; |ts| == |s.tasks| && ts[i] == s.tasks[i]
    decreases |es|
  {
    if |es| == 0 {
    } else {
      EventElse(s, p, r, es[0], budget, now, i);
      ApplyEventKeeps(s, p, r, es[0], budget, now);
      hide Wf, Grows, Addressed, ApplyEvent;
      BatchCancelled(ApplyEvent(s, p, r, es[0], budget, now), p, r, es[1..], budget, now, i);
    }
  }

  // ----------------------------------------------------------------------- requests

  // An action on another task moves it, and sets waiting ones free.
  lemma ActionElsewhere(s: State, j: nat, action: Action, budget: nat, now: nat, i: nat)
    requires j < |s.tasks| && i < |s.tasks| && i != j && !Waiting(s.tasks[i].status)
    ensures var ts := Acted(s, j, action, budget, now).tasks; |ts| == |s.tasks| && ts[i] == s.tasks[i]
  {
    match action
    case Input(_) =>
    case Cancel => CancelTasks(s, j, budget, now);
    case Retry =>
    case Complete => CompleteTasks(s, j, budget, now);
    case Approve =>
    case Reject => RejectTasks(s, j, budget, now);
  }

  lemma CancelTasks(s: State, j: nat, budget: nat, now: nat)
    requires j < |s.tasks|
    ensures var t := s.tasks[j];
      OnlyMoved(s.tasks[j := t.(status := Cancelled, cancellation := Manual, updatedAt := now)],
                ActCancel(s, j, budget, now).tasks, t.project)
  {
    var t := s.tasks[j].(status := Cancelled, cancellation := Manual, updatedAt := now);
    var s1 := Append(PutTask(s, j, t), t.project, TaskAction(Cancel), t.id, "", 0, false);
    ActivateMoves(s1.(commands := Supersede(s1.commands, t.id)), budget, t.project, now);
    hide Activate, LastN, Compacted;
  }

  lemma CompleteTasks(s: State, j: nat, budget: nat, now: nat)
    requires j < |s.tasks|
    ensures var t := s.tasks[j];
      OnlyMoved(s.tasks[j := t.(status := Completed, completion := Manual, updatedAt := now)],
                ActComplete(s, j, budget, now).tasks, t.project)
  {
    var t := s.tasks[j].(status := Completed, completion := Manual, updatedAt := now);
    var s1 := Append(PutTask(s, j, t), t.project, TaskAction(Complete), t.id, "", 0, false);
    ActivateMoves(Enqueue(s1.(commands := Supersede(s1.commands, t.id)), t, CancelTask, t.attempt, now), budget, t.project, now);
    hide Activate, LastN, Compacted;
  }

  lemma RejectTasks(s: State, j: nat, budget: nat, now: nat)
    requires j < |s.tasks|
    ensures var t := s.tasks[j];
      OnlyMoved(s.tasks[j := t.(approval := Rejected, status := Blocked, updatedAt := now)],
                ActReject(s, j, budget, now).tasks, t.project)
  {
    var t := s.tasks[j].(approval := Rejected, status := Blocked, updatedAt := now);
    ActivateMoves(Append(PutTask(s, j, t), t.project, TaskAction(Reject), t.id, "", 0, false), budget, t.project, now);
    hide Activate, LastN;
  }

  lemma ActionOnCancelled(s: State, action: Action, budget: nat, now: nat, i: nat)
    requires i < |s.tasks| && UserCancelled(s.tasks[i]) && ActionGuard(s, s.tasks[i], action) == Done
    ensures var ts := Acted(s, i, action, budget, now).tasks;
      |ts| == |s.tasks| && (UserCancelled(ts[i]) <==> !(action.Retry? || action.Complete? || action.Reject?))
  {
    match action
    case Input(_) =>
    case Cancel =>
    case Retry =>
    case Complete => CompleteTasks(s, i, budget, now);
    case Approve =>
    case Reject => RejectTasks(s, i, budget, now);
  }

  lemma HandleCancelled(s: State, req: Request, env: Env, i: nat)
    requires Wf(s) && i < |s.tasks| && UserCancelled(s.tasks[i])
    ensures var o := Handle(s, req, env);
      o.Write? ==> i < |o.next.tasks| && (UserCancelled(o.next.tasks[i]) <==> !Undoes(s, req, env.(saves := true), i))
  {
    hide Wf, FindRuntime, FindCurrent, AckAll, Compacted, CreateGuard, ActionGuard, Acted, HoldsLease, LastN, HandleEvents;
    match req
    case Register(p, r) => RestartTasks(TakeOver(s, p, r, env.now), p, 0, env.now);
    case Heartbeat(_, _, _, _) =>
    case Unregister(_, _, _) =>
    case Events(p, r, token, batch) => EventsCancelled(s, p, r, token, batch, env.budget, env.now, i);
    case Expire => ExpireTasks(s, 0, env.now);
    case Create(_, _, _, _, _) =>
    case Poll(_, _, _, _) =>
    case Ack(_, _, _, _) =>
    case Act(task, action) =>
      var j := FindTask(s.tasks, task);
      if j < |s.tasks| && ActionGuard(s, s.tasks[j], action) == Done {
        if j == i { ActionOnCancelled(s, action, env.budget, env.now, i); }
        else { ActionElsewhere(s, j, action, env.budget, env.now, i); }
      }
  }

  lemma EventsCancelled(s: State, p: string, r: string, token: nat, batch: seq<RawEvent>, budget: nat, now: nat, i: nat)
    requires Wf(s) && i < |s.tasks| && UserCancelled(s.tasks[i])
    ensures var o := HandleEvents(s, p, r, token, batch, budget, now);
      o.Write? ==> i < |o.next.tasks| && o.next.tasks[i] == s.tasks[i]
  {
    hide Wf, ApplyAll, Selected, LastTaken, ReplaceRuntime;
    if HandleEvents(s, p, r, token, batch, budget, now).Write? {
      var last := s.runtimes[FindRuntime(s.runtimes, p, r)].lastSequence;
      ValidObjects(s.tasks, p, batch, last, last);
      BatchCancelled(s, p, r, Selected(batch, last), budget, now, i);
    }
  }

  /** A task a user has cancelled stays so under a request exactly unless the request is a saved retry,
      completion or rejection of it. */
  lemma StepCancelled(s: State, req: Request, env: Env, i: nat)
    requires Wf(s) && i < |s.tasks| && UserCancelled(s.tasks[i])
    ensures var ts := After(s, req, env).tasks; i < |ts| && (UserCancelled(ts[i]) <==> !Undoes(s, req, env, i))
  {
    HandleCancelled(s, req, env, i);
    hide Wf, Acted, ActionGuard, HandleEvents, HandleRegister, HandleHeartbeat, HandleUnregister, HandleExpire, HandleCreate,
      HandlePoll, HandleAck;
  }

  // In every state of the run the task is cancelled by a user.
  predicate CancelledThroughout(s: State, calls: seq<Call>, i: nat)
    decreases |calls|
  {
    && i < |s.tasks| && UserCancelled(s.tasks[i])
    && (|calls| > 0 ==> CancelledThroughout(After(s, calls[0].req, calls[0].env), calls[1..], i))
  }

  predicate NeverUndone(s: State, calls: seq<Call>, i: nat)
    decreases |calls|
  {
    |calls| > 0 ==>
      && i < |s.tasks| && !Undoes(s, calls[0].req, calls[0].env, i)
      && NeverUndone(After(s, calls[0].req, calls[0].env), calls[1..], i)
  }

  /** A user's cancellation stands through a whole run, whatever agents report, exactly when no user undoes
      it in the run. */
  lemma {:induction false} UserCancellationStands(s: State, calls: seq<Call>, i: nat)
    requires Wf(s) && i < |s.tasks| && UserCancelled(s.tasks[i])
    ensures CancelledThroughout(s, calls, i) <==> NeverUndone(s, calls, i)
    decreases |calls|
  {
    if |calls| == 0 {
    } else {
      hide Wf, Grows, After, Undoes, UserCancelled;
      var s1 := After(s, calls[0].req, calls[0].env);
      StepCancelled(s, calls[0].req, calls[0].env, i);
      StepGrows(s, calls[0].req, calls[0].env);
      if UserCancelled(s1.tasks[i]) { UserCancellationStands(s1, calls[1..], i); }
    }
  }

  // ------------------------------------------------------------- a rejection undone

  const REJECTED := Task(2, "p", Blocked, 1, [], Small, "", NoSource, NoSource, Rejected, "", LEASE)
  const RESUMED := RawEvent(1, TaskStarted, 2, NoAttempt, true)
  const BEGINNING := Env(4, 0, true)
  const LATER := Env(4, LEASE, true)

  const REJECTION := [Call(Register("p", "r"), BEGINNING), Call(Create("p", [], Small, "", ""), LATER),
                      Call(Act(2, Reject), LATER)]
  const RESUMPTION := Call(Events("p", "r", 1, [RESUMED]), LATER)

  lemma FirstTask(s: State)
    requires OutOfReach(s, 0, LEASE) && s.tasks == [] && s.nextId == 2
    ensures var s' := After(s, Create("p", [], Small, "", ""), LATER);
      OutOfReach(s', 0, LEASE) && s'.tasks == [REJECTED.(status := Accepted, approval := Undecided)]
  {
    QuietCreate(s, [], Small, LATER, 0, LEASE);
    hide After, OutOfReach;
  }

  lemma Rejecting(s: State)
    requires OutOfReach(s, 0, LEASE) && s.tasks == [REJECTED.(status := Accepted, approval := Undecided)]
    ensures var s' := After(s, Act(2, Reject), LATER); OutOfReach(s', 0, LEASE) && s'.tasks == [REJECTED]
  {
    assert FindTask(s.tasks, 2) == 0;
    var s1 := Append(PutTask(s, 0, REJECTED), "p", TaskAction(Reject), 2, "", 0, false);
    assert s1.tasks == [REJECTED];
    NoneWaitingPass(s1, 4, "p", 0, LEASE);
    hide LastN, Pass, FindTask;
    assert Activate(s1, 4, "p", LEASE) == s1;
    hide Activate;
    assert ActReject(s, 0, 4, LEASE) == s1;
  }

  lemma Resuming(s: State)
    requires OutOfReach(s, 0, LEASE) && s.tasks == [REJECTED]
    ensures After(s, RESUMPTION.req, LATER).tasks == [REJECTED.(status := Running)]
  {
    assert FindTask(s.tasks, 2) == 0;
    LoneEvent(s, RESUMED, 0, 4, LEASE);
    hide ApplyEvent;
    assert [RESUMED][1..] == [];
    assert Selected([RESUMED], 0) == [RESUMED];
    var s1 := ApplyEvent(s, "p", "r", RESUMED, 4, LEASE);
    assert ApplyAll(s1, "p", "r", [], 4, LEASE) == s1;
    assert ApplyAll(s, "p", "r", [RESUMED], 4, LEASE) == s1;
    QuietEvents(s, [RESUMED], LATER, 0);
  }

  /** A rejection undone, in a run from the start: the agent reports that the rejected task has started. */
  lemma RejectionUndone()
    ensures Run(EMPTY, REJECTION).tasks == [REJECTED]
    ensures Run(EMPTY, REJECTION + [RESUMPTION]).tasks == [REJECTED.(status := Running)]
  {
    hide After, OutOfReach;
    FirstRegister(BEGINNING);
    var s1 := After(EMPTY, REJECTION[0].req, BEGINNING);
    FirstTask(s1);
    var s2 := After(s1, REJECTION[1].req, LATER);
    Rejecting(s2);
    var s3 := After(s2, REJECTION[2].req, LATER);
    assert REJECTION[1..][1..] == [REJECTION[2]] && REJECTION[1..][1..][1..] == [];
    assert Run(s3, []) == s3 && Run(s2, [REJECTION[2]]) == s3;
    assert Run(s1, REJECTION[1..]) == s3;
    RunLast(EMPTY, REJECTION, RESUMPTION);
    Resuming(s3);
  }
}
