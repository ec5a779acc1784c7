/**
  What an agent's event makes of its task, said event by event, and what the activation it
  sets off makes of the tasks that waited for it.
 */
module TeamEvents {
  import opened TeamModel
  import opened TeamFrames
  import opened TeamSteps
  import opened TeamScheduler
  import opened TeamStarts

  // A user has completed or cancelled it.
  predicate UserEnded(t: Task) {
    (t.status == Completed && t.completion == Manual) || (t.status == Cancelled && t.cancellation == Manual)
  }

  // The event names this attempt; one that names none means the first.
  predicate SpeaksOf(a: AttemptField, attempt: nat) {
    (a.NoAttempt? && attempt == 1) || (a.AttemptGiven? && a.n == attempt)
  }

  // What is left of a task apart from its status and what goes with it.
  predicate SameButStatus(t: Task, t': Task) {
    t' == t.(status := t'.status, completion := t'.completion, updatedAt := t'.updatedAt)
  }

  predicate Completing(typ: EventType) { typ in {TaskCompleted, TaskReport(ReportCompleted)} }

  predicate Failing(typ: EventType) {
    typ in {TaskFailed, TaskCancelled, TaskBlocked, TaskReport(ReportFailed), TaskReport(ReportBlocked)}
  }

  lemma PutAt(s: State, p: string, r: string, e: RawEvent, budget: nat, now: nat, i: nat)
    requires Wf(s) && e.RawEvent? && i < |s.tasks| && s.tasks[i].id == e.task
    requires !Waiting(EventPut(s, p, r, e, now).tasks[i].status)
    ensures var ts := ApplyEvent(s, p, r, e, budget, now).tasks; |ts| == |s.tasks| && ts[i] == MovedBy(s.tasks[i], p, e, now)
  {
    var s1 := EventPut(s, p, r, e, now);
    assert Ids(s.tasks);
    EventShape(s, p, r, e, budget, now);
    FindOwn(s.tasks, i);
    assert s1.tasks[i] == MovedBy(s.tasks[i], p, e, now);
    hide EventPut, ApplyEvent, MovedBy, SetsOff, Wf, Ids;
    ActivateMoves(s1, budget, p, now);
  }

  lemma MovedOpen(s: State, p: string, r: string, e: RawEvent, now: nat, i: nat)
    requires Wf(s) && e.RawEvent? && i < |s.tasks| && s.tasks[i].id == e.task
    ensures EventPut(s, p, r, e, now).tasks[i] == MovedBy(s.tasks[i], p, e, now)
  {
    FindOwn(s.tasks, i);
    hide LastN, MovedBy;
  }

  // What such an event makes of a task, type by type.
  predicate Becomes(t: Task, typ: EventType, now: nat, t': Task) {
    && SameButStatus(t, t') && t'.updatedAt == now
    && (typ in {TaskStarted, TaskReport(ReportInProgress)} ==> t'.status == Running)
    && (typ in {TaskBlocked, TaskReport(ReportBlocked)} ==> t'.status == Blocked)
    && (Completing(typ) ==> t'.status == Completed)
    && (typ in {TaskFailed, TaskReport(ReportFailed)} ==> t'.status == Failed)
    && (typ == TaskCancelled ==> t'.status == Cancelled)
    && (typ == TaskReport(ReportNeedsInput) ==> t'.status == WaitingInput)
    && t'.completion == if typ == TaskReport(ReportCompleted) then AgentReport else t.completion
  }

  predicate Speaking(t: Task, p: string, e: RawEvent) {
    e.RawEvent? && t.id == e.task && t.project == p && !UserEnded(t) && SpeaksOf(e.attempt, t.attempt)
  }

  lemma MovedMeaning(t: Task, p: string, e: RawEvent, now: nat)
    requires Speaking(t, p, e) && 1 <= t.attempt <= MAX_ATTEMPT
    requires e.typ.TaskReport? || e.typ in {TaskStarted, TaskBlocked, TaskCompleted, TaskFailed, TaskCancelled}
    ensures Becomes(t, e.typ, now, MovedBy(t, p, e, now)) && !Waiting(MovedBy(t, p, e, now).status)
  {
    assert AttemptOf(e.attempt) == t.attempt;
  }

  /** An event for the attempt its task is at, where no user has ended the task, gives the task the status
      its type names, and changes nothing else of it but the time; a report of completion is noted as the
      agent's. */
  lemma EventMeaning(s: State, p: string, r: string, e: RawEvent, budget: nat, now: nat, i: nat)
    requires Wf(s) && i < |s.tasks| && Speaking(s.tasks[i], p, e)
    requires e.typ.TaskReport? || e.typ in {TaskStarted, TaskBlocked, TaskCompleted, TaskFailed, TaskCancelled}
    ensures var ts := ApplyEvent(s, p, r, e, budget, now).tasks;
      |ts| == |s.tasks| && Becomes(s.tasks[i], e.typ, now, ts[i])
  {
    assert 1 <= s.tasks[i].attempt <= MAX_ATTEMPT;
    hide EventPut, ApplyEvent, MovedBy, Becomes, Wf;
    MovedOpen(s, p, r, e, now, i);
    MovedMeaning(s.tasks[i], p, e, now);
    PutAt(s, p, r, e, budget, now, i);
  }

  lemma PutQuietly(s: State, p: string, r: string, e: RawEvent, budget: nat, now: nat, i: nat)
    requires Wf(s) && e.RawEvent? && i < |s.tasks| && s.tasks[i].id == e.task && !SetsOff(s, p, e)
    ensures var ts := ApplyEvent(s, p, r, e, budget, now).tasks; |ts| == |s.tasks| && ts[i] == MovedBy(s.tasks[i], p, e, now)
  {
    MovedOpen(s, p, r, e, now, i);
    EventShape(s, p, r, e, budget, now);
    hide ApplyEvent, MovedBy, Wf, SetsOff;
  }

  /** A handoff gives such a task to the member it names, if it names one; an artifact only stamps it; and
      every other event leaves it exactly as it is. */
  lemma OtherEventMeaning(s: State, p: string, r: string, e: RawEvent, budget: nat, now: nat, i: nat)
    requires Wf(s) && i < |s.tasks| && Speaking(s.tasks[i], p, e)
    requires !e.typ.TaskReport? && e.typ !in {TaskStarted, TaskBlocked, TaskCompleted, TaskFailed, TaskCancelled}
    ensures var ts, t := ApplyEvent(s, p, r, e, budget, now).tasks, s.tasks[i];
      |ts| == |s.tasks|
      && ts[i] == match e.typ
                  case TaskHandoff(member) => t.(owner := if member == "" then t.owner else member, updatedAt := now)
                  case ArtifactCreated => t.(updatedAt := now)
                  case _ => t
  {
    assert !SetsOff(s, p, e);
    hide ApplyEvent, Wf;
    PutQuietly(s, p, r, e, budget, now, i);
  }

  /** A task a user has ended, a task of another project, one at another attempt, and every task the event
      does not name: it leaves them as they are, unless they were waiting. */
  lemma EventLeaves(s: State, p: string, r: string, e: RawEvent, budget: nat, now: nat, i: nat)
    requires Wf(s) && e.RawEvent? && AttemptOk(e.attempt) && i < |s.tasks| && !Waiting(s.tasks[i].status)
    requires !Speaking(s.tasks[i], p, e)
    ensures var ts := ApplyEvent(s, p, r, e, budget, now).tasks; |ts| == |s.tasks| && ts[i] == s.tasks[i]
  {
    var s1 := EventPut(s, p, r, e, now);
    assert s1.tasks[i] == s.tasks[i] && |s1.tasks| == |s.tasks| by { LeftAlone(s, p, r, e, now, i); }
    EventShape(s, p, r, e, budget, now);
    hide EventPut, ApplyEvent, SetsOff, Wf;
    ActivateMoves(s1, budget, p, now);
  }

  lemma LeftAlone(s: State, p: string, r: string, e: RawEvent, now: nat, i: nat)
    requires Wf(s) && e.RawEvent? && AttemptOk(e.attempt) && i < |s.tasks|
    requires !Speaking(s.tasks[i], p, e)
    ensures EventPut(s, p, r, e, now).tasks[i] == s.tasks[i]
  {
    if s.tasks[i].id == e.task { FindOwn(s.tasks, i); }
    assert AttemptOf(e.attempt) == s.tasks[i].attempt ==> SpeaksOf(e.attempt, s.tasks[i].attempt);
    hide LastN;
  }

  // The event names a task that is there, at another attempt.
  predicate OutOfDate(ts: seq<Task>, e: RawEvent) {
    e.RawEvent? && exists k :: 0 <= k < |ts| && ts[k].id == e.task && !SpeaksOf(e.attempt, ts[k].attempt)
  }

  lemma OutOfDateExact(s: State, e: RawEvent)
    requires Wf(s) && e.RawEvent? && AttemptOk(e.attempt)
    ensures Stale(s.tasks, e) <==> OutOfDate(s.tasks, e)
  {
    var i := FindTask(s.tasks, e.task);
    if k :| 0 <= k < |s.tasks| && s.tasks[k].id == e.task && !SpeaksOf(e.attempt, s.tasks[k].attempt) { FindOwn(s.tasks, k); }
    if i < |s.tasks| { assert AttemptOf(e.attempt) == s.tasks[i].attempt <==> SpeaksOf(e.attempt, s.tasks[i].attempt); }
  }

  // The event as it is logged.
  function LogEntry(s: State, p: string, r: string, e: RawEvent): Event
    requires e.RawEvent?
  {
    var attempt := if e.task == 0 then 0 else if e.attempt.AttemptGiven? && e.attempt.n >= 0 then e.attempt.n else 1;
    Event(Counter(s, p) + 1, e.typ, e.task, r, attempt, OutOfDate(s.tasks, e))
  }

  lemma PutLogged(s: State, p: string, r: string, e: RawEvent, now: nat)
    requires Wf(s) && e.RawEvent? && AttemptOk(e.attempt)
    ensures LogAdds(s, EventPut(s, p, r, e, now), p, [LogEntry(s, p, r, e)])
  {
    OutOfDateExact(s, e);
    hide LastN, OutOfDate, Wf, MovedBy, Stale;
  }

  // What comes later is logged behind.
  lemma LoggedThen(s: State, s1: State, s2: State, p: string, first: Event) returns (more: seq<Event>)
    requires LogAdds(s, s1, p, [first]) && LogGrows(s1, s2, p)
    ensures LogAdds(s, s2, p, [first] + more)
  {
    if SameLog(s1, s2, p) {
      more := [];
      assert [first] + [] == [first];
    } else {
      more :| LogAdds(s1, s2, p, more);
      LogAddsTrans(s, s1, s2, p, [first], more);
    }
  }

  /** An event is logged first, under the next number, as the runtime's, with the attempt it means if it names a
      task, and marked as out of date exactly when it is; what else is logged follows it. */
  lemma EventLogged(s: State, p: string, r: string, e: RawEvent, budget: nat, now: nat) returns (more: seq<Event>)
    requires Wf(s) && e.RawEvent? && AttemptOk(e.attempt)
    ensures LogAdds(s, ApplyEvent(s, p, r, e, budget, now), p, [LogEntry(s, p, r, e)] + more)
  {
    var s1, s' := EventPut(s, p, r, e, now), ApplyEvent(s, p, r, e, budget, now);
    assert Ids(s.tasks);
    hide EventPut, ApplyEvent, SetsOff, LogAdds, LogEntry, Wf, Keeps, Ids;
    PutLogged(s, p, r, e, now);
    EventPutKeeps(s, p, r, e, now);
    WfKept(s, s1);
    EventShape(s, p, r, e, budget, now);
    if SetsOff(s, p, e) { ActivateKeeps(s1, budget, p, now); } else { KeepsRefl(s1); }
    LogKept(s1, s', p);
    more := LoggedThen(s, s1, s', p, LogEntry(s, p, r, e));
  }

  lemma LogKept(s: State, s': State, p: string)
    requires Keeps(s, s')
    ensures LogGrows(s, s', p)
  {
    hide LogGrows;
  }

  // ------------------------------------------------------------------- who is set free

  // The dependencies before the m-th are completed, and the m-th is dead.
  predicate BlockedBy(ts: seq<Task>, deps: seq<nat>, m: nat) {
    m < |deps| && (forall k :: 0 <= k < m ==> CompletedTask(ts, deps[k])) && DeadTask(ts, deps[m])
  }

  lemma {:induction false} BlockedByStatus(ts: seq<Task>, deps: seq<nat>, m: nat)
    requires BlockedBy(ts, deps, m)
    ensures DepStatus(ts, deps) == Blocked
  {
    DepStatusMeaning(ts, deps);
    var k := FirstOpen(ts, deps);
    assert k == m;
  }

  lemma MovedFind(ts: seq<Task>, ts': seq<Task>, p: string, id: nat)
    requires OnlyMoved(ts, ts', p)
    ensures FindTask(ts', id) == FindTask(ts, id)
    ensures CompletedTask(ts, id) ==> CompletedTask(ts', id)
    ensures DeadTask(ts, id) ==> DeadTask(ts', id)
  {
    var i, j := FindTask(ts, id), FindTask(ts', id);
    assert forall k :: 0 <= k < |ts| ==> ts'[k].id == ts[k].id;
  }

  lemma MovedDeps(ts: seq<Task>, ts': seq<Task>, p: string, deps: seq<nat>, m: nat)
    requires OnlyMoved(ts, ts', p)
    ensures AllCompleted(ts, deps) ==> AllCompleted(ts', deps)
    ensures BlockedBy(ts, deps, m) ==> BlockedBy(ts', deps, m)
  {
    hide OnlyMoved, CompletedTask, DeadTask;
    forall k | 0 <= k < |deps|
      ensures (CompletedTask(ts, deps[k]) ==> CompletedTask(ts', deps[k])) && (DeadTask(ts, deps[k]) ==> DeadTask(ts', deps[k]))
    {
      MovedFind(ts, ts', p, deps[k]);
    }
  }

  // The decision about a task, as long as activation has not got to it.
  predicate Decided(ts: seq<Task>, i: nat, m: nat, free: bool)
    requires i < |ts|
  {
    if free then AllCompleted(ts, ts[i].deps) && ts[i].status in {WaitingDependency, WaitingResource, Accepted}
    else BlockedBy(ts, ts[i].deps, m) && ts[i].status in {WaitingDependency, WaitingResource, Blocked}
  }

  lemma VisitDecided(s: State, budget: nat, p: string, j: nat, now: nat, i: nat, m: nat, free: bool)
    requires j < |s.tasks| && i < |s.tasks| && Decided(s.tasks, i, m, free)
    ensures Decided(Visit(s, budget, p, j, now).tasks, i, m, free)
  {
    var s' := Visit(s, budget, p, j, now);
    VisitMoves(s, budget, p, j, now);
    MovedDeps(s.tasks, s'.tasks, p, s.tasks[i].deps, m);
    assert s'.tasks[i].deps == s.tasks[i].deps;
    if free { DepStatusMeaning(s.tasks, s.tasks[i].deps); } else { BlockedByStatus(s.tasks, s.tasks[i].deps, m); }
    hide AllCompleted, BlockedBy, OnlyMoved, Append, Enqueue, Fits;
    VisitStatus(s, budget, p, j, now, i);
  }

  lemma VisitStatus(s: State, budget: nat, p: string, j: nat, now: nat, i: nat)
    requires j < |s.tasks| && i < |s.tasks|
    ensures var st, st' := s.tasks[i].status, Visit(s, budget, p, j, now).tasks[i].status;
      || st' == st
      || (Waiting(st) && st' == DepStatus(s.tasks, s.tasks[i].deps))
      || (Waiting(st) && st' == WaitingResource && DepStatus(s.tasks, s.tasks[i].deps) == Accepted)
  {
    hide DepStatus, Fits, FindReachable, Compacted, LastN;
  }

  lemma {:induction false} PassDecided(s: State, budget: nat, p: string, j: nat, now: nat, i: nat, m: nat, free: bool)
    requires j <= |s.tasks| && i < |s.tasks| && Decided(s.tasks, i, m, free)
    ensures Decided(Pass(s, budget, p, j, now).tasks, i, m, free)
    decreases |s.tasks| - j
  {
    hide Decided, Visit;
    if j == |s.tasks| {
    } else {
      VisitDecided(s, budget, p, j, now, i, m, free);
      PassDecided(Visit(s, budget, p, j, now), budget, p, j + 1, now, i, m, free);
    }
  }

  lemma {:induction false} ActivateDecided(s: State, budget: nat, p: string, now: nat, i: nat, m: nat, free: bool)
    requires i < |s.tasks| && Decided(s.tasks, i, m, free)
    ensures Decided(Activate(s, budget, p, now).tasks, i, m, free)
    decreases Rank(s.tasks)
  {
    hide Decided, Pass;
    var s1 := Pass(s, budget, p, 0, now);
    PassDecided(s, budget, p, 0, now, i, m, free);
    PassRank(s, budget, p, 0, now);
    if s1.tasks == s.tasks {
    } else {
      ActivateDecided(s1, budget, p, now, i, m, free);
    }
  }

  /** A visit logs one event for a task it moves, which names its new status, and stamps the task; it logs none
      for one it leaves. */
  lemma VisitLogged(s: State, budget: nat, p: string, i: nat, now: nat)
    requires i < |s.tasks|
    ensures var s', t := Visit(s, budget, p, i, now), s.tasks[i];
      if s'.tasks[i].status == t.status then SameLog(s, s', p)
      else
        var typ := if s'.tasks[i].status == Accepted then TaskReady
                   else if s'.tasks[i].status == Blocked then TaskBlocked else TaskWaitingResource;
        LogAdds(s, s', p, [Event(Counter(s, p) + 1, typ, t.id, "", 0, false)]) && s'.tasks[i].updatedAt == now
  {
    hide DepStatus, Fits, FindReachable, Compacted, LastN;
  }

  // Accepted, or held up by the budget alone.
  predicate Released(ts: seq<Task>, budget: nat, i: nat)
    requires i < |ts|
  {
    || ts[i].status == Accepted
    || (ts[i].status == WaitingResource && Used(ts, ts[i].project, ts[i].id) + Units(ts[i].profile) > budget)
  }

  /** Activation releases every waiting task whose dependencies are all completed, and blocks every one that
      has a dead dependency behind completed ones. */
  lemma ActivationDecides(s: State, budget: nat, p: string, now: nat, i: nat)
    requires i < |s.tasks| && Waiting(s.tasks[i].status) && s.tasks[i].project == p
    ensures var ts := Activate(s, budget, p, now).tasks;
      |ts| == |s.tasks|
      && (AllCompleted(s.tasks, s.tasks[i].deps) ==> Released(ts, budget, i))
      && ((exists m :: BlockedBy(s.tasks, s.tasks[i].deps, m)) ==> ts[i].status == Blocked)
  {
    var s' := Activate(s, budget, p, now);
    ActivateSettles(s, budget, p, now);
    ActivateMoves(s, budget, p, now);
    assert SettledAt(s', budget, p, i);
    assert s'.tasks[i].project == p && s'.tasks[i].deps == s.tasks[i].deps;
    hide OnlyMoved, Activate;
    DepStatusMeaning(s'.tasks, s'.tasks[i].deps);
    if AllCompleted(s.tasks, s.tasks[i].deps) { ActivateDecided(s, budget, p, now, i, 0, true); }
    if m :| BlockedBy(s.tasks, s.tasks[i].deps, m) {
      ActivateDecided(s, budget, p, now, i, m, false);
      BlockedByStatus(s'.tasks, s'.tasks[i].deps, m);
    }
  }

  predicate WaitsOnlyFor(ts: seq<Task>, deps: seq<nat>, id: nat) {
    forall k :: 0 <= k < |deps| ==> deps[k] == id || CompletedTask(ts, deps[k])
  }

  // The task named is the first dependency that is not completed.
  predicate FirstWaitsFor(ts: seq<Task>, deps: seq<nat>, id: nat, m: nat) {
    m < |deps| && deps[m] == id && forall k :: 0 <= k < m ==> deps[k] != id && CompletedTask(ts, deps[k])
  }

  // The dependencies of a task, once the one at position i has another status.
  lemma PutDeps(ts: seq<Task>, i: nat, u: Task, deps: seq<nat>)
    requires Ids(ts) && i < |ts| && u.id == ts[i].id
    ensures u.status == Completed && WaitsOnlyFor(ts, deps, u.id) ==> AllCompleted(ts[i := u], deps)
    ensures u.status in {Failed, Cancelled, Blocked} ==>
      forall m :: FirstWaitsFor(ts, deps, u.id, m) ==> BlockedBy(ts[i := u], deps, m)
  {
    FindOwn(ts, i);
    forall d ensures FindTask(ts[i := u], d) == FindTask(ts, d)
                     && (d != u.id && CompletedTask(ts, d) ==> CompletedTask(ts[i := u], d))
                     && (d == u.id ==> FindTask(ts, d) == i) {
      FindPut(ts, i, u, d);
    }
    hide FindTask, Ids;
  }

  /** When an event completes a task, each task of the project that waited for nothing else is released; when it
      fails, cancels or blocks it, each one that waited for it first is blocked. */
  lemma DependentsDecided(s: State, p: string, r: string, e: RawEvent, budget: nat, now: nat, i: nat, j: nat)
    requires Wf(s) && i < |s.tasks| && Speaking(s.tasks[i], p, e)
    requires j < |s.tasks| && j != i && Waiting(s.tasks[j].status) && s.tasks[j].project == p
    ensures var ts, deps := ApplyEvent(s, p, r, e, budget, now).tasks, s.tasks[j].deps;
      |ts| == |s.tasks|
      && (Completing(e.typ) && WaitsOnlyFor(s.tasks, deps, e.task) ==> Released(ts, budget, j))
      && (forall m :: FirstWaitsFor(s.tasks, deps, e.task, m) ==> (Failing(e.typ) ==> ts[j].status == Blocked))
  {
    var s1 := EventPut(s, p, r, e, now);
    PutOne(s, p, r, e, now, i);
    var u := s1.tasks[i];
    assert Ids(s.tasks);
    EventShape(s, p, r, e, budget, now);
    hide EventPut, ApplyEvent, Wf, Ids, WaitsOnlyFor, FirstWaitsFor;
    PutDeps(s.tasks, i, u, s.tasks[j].deps);
    ActivationDecides(s1, budget, p, now, j);
    hide SetsOff, AllCompleted, BlockedBy, Released, Activate;
  }

  // The state an event's own change leaves: one task is replaced, and what it sets off.
  lemma PutOne(s: State, p: string, r: string, e: RawEvent, now: nat, i: nat)
    requires Wf(s) && i < |s.tasks| && Speaking(s.tasks[i], p, e)
    ensures var ts := EventPut(s, p, r, e, now).tasks;
      |ts| == |s.tasks| && ts == s.tasks[i := ts[i]] && ts[i].id == e.task
      && (Completing(e.typ) ==> ts[i].status == Completed && SetsOff(s, p, e))
      && (Failing(e.typ) ==> ts[i].status in {Failed, Cancelled, Blocked} && SetsOff(s, p, e))
  {
    FindOwn(s.tasks, i);
    assert AttemptOf(e.attempt) == s.tasks[i].attempt;
    hide LastN;
  }

  // ------------------------------------------------------------------ what requests log

  /** A creation logs one event, which says where the task was put. */
  lemma CreateLogged(s: State, p: string, deps: seq<nat>, profile: Profile, key: string, owner: string, env: Env)
    requires Reply(s, Create(p, deps, profile, key, owner), env) == Done
    ensures var s' := After(s, Create(p, deps, profile, key, owner), env);
      |s'.tasks| == |s.tasks| + 1 &&
      var t := s'.tasks[|s.tasks|];
      var typ := if t.status == WaitingDependency then TaskWaitingDependency
                 else if t.status == WaitingResource then TaskWaitingResource else TaskAccepted;
      LogAdds(s, s', p, [Event(Counter(s, p) + 1, typ, t.id, "", 0, false)])
  {
    hide CreateGuard, NewTask, DepStatus, FindReachable, Compacted, LastN;
    var t := NewTask(s, p, deps, profile, key, owner, env.budget, env.now);
    assert t.project == p && t.id == s.nextId by { NewTaskOf(s, p, deps, profile, key, owner, env.budget, env.now); }
  }

  lemma NewTaskOf(s: State, p: string, deps: seq<nat>, profile: Profile, key: string, owner: string, budget: nat, now: nat)
    ensures var t := NewTask(s, p, deps, profile, key, owner, budget, now); t.project == p && t.id == s.nextId
  {
  }

  /** A served action logs itself first; what activation logs follows. */
  lemma ActionLogged(s: State, i: nat, action: Action, budget: nat, now: nat) returns (more: seq<Event>)
    requires Wf(s) && i < |s.tasks| && ActionGuard(s, s.tasks[i], action) == Done
    ensures var t := s.tasks[i];
      LogAdds(s, Acted(s, i, action, budget, now), t.project,
              [Event(Counter(s, t.project) + 1, TaskAction(action), t.id, "", 0, false)] + more)
  {
    var t := s.tasks[i];
    var p, first := t.project, Event(Counter(s, t.project) + 1, TaskAction(action), t.id, "", 0, false);
    var s1, s' := Begun(s, i, action, budget, now), Acted(s, i, action, budget, now);
    BegunLogged(s, i, action, budget, now);
    BegunGrows(s, i, action, budget, now);
    more := LoggedThen(s, s1, s', p, first);
  }

  // The state in which the action has just been logged.
  function Begun(s: State, i: nat, action: Action, budget: nat, now: nat): State
    requires i < |s.tasks|
  {
    var t := s.tasks[i];
    match action
    case Input(_) => Append(PutTask(s, i, t.(updatedAt := now)), t.project, TaskAction(action), t.id, "", 0, false)
    case Cancel =>
      Append(PutTask(s, i, t.(status := Cancelled, cancellation := Manual, updatedAt := now)), t.project, TaskAction(Cancel),
             t.id, "", 0, false)
    case Retry =>
      var s1 := Enqueue(s.(commands := Supersede(s.commands, t.id)), t, CancelTask, t.attempt, now);
      Append(PutTask(s1, i, RetriedTask(s1, t, budget, now)), t.project, TaskAction(Retry), t.id, "", 0, false)
    case Complete =>
      Append(PutTask(s, i, t.(status := Completed, completion := Manual, updatedAt := now)), t.project, TaskAction(Complete),
             t.id, "", 0, false)
    case Approve =>
      Append(PutTask(s, i, t.(approval := Approved, updatedAt := now)), t.project, TaskAction(Approve), t.id, "", 0, false)
    case Reject =>
      Append(PutTask(s, i, t.(approval := Rejected, status := Blocked, updatedAt := now)), t.project, TaskAction(Reject),
             t.id, "", 0, false)
  }

  lemma BegunLogged(s: State, i: nat, action: Action, budget: nat, now: nat)
    requires i < |s.tasks|
    ensures var t := s.tasks[i];
      LogAdds(s, Begun(s, i, action, budget, now), t.project,
              [Event(Counter(s, t.project) + 1, TaskAction(action), t.id, "", 0, false)])
  {
    hide RetriedTask, DepStatus, FindReachable, Compacted, Supersede, LastN;
  }

  lemma ActivatedLog(s: State, budget: nat, q: string, now: nat, p: string)
    requires Wf(s)
    ensures LogGrows(s, Activate(s, budget, q, now), p)
  {
    hide Wf, Keeps, Activate;
    ActivateKeeps(s, budget, q, now);
    LogKept(s, Activate(s, budget, q, now), p);
  }

  lemma EnqueuedLog(s: State, t: Task, kind: Kind, attempt: nat, now: nat, p: string)
    ensures SameLog(s, Enqueue(s, t, kind, attempt, now), p)
  {
    hide DepStatus, FindReachable, Compacted;
  }

  lemma BegunWf(s: State, i: nat, action: Action, budget: nat, now: nat)
    requires Wf(s) && i < |s.tasks| && ActionGuard(s, s.tasks[i], action) == Done && !action.Retry?
    ensures Wf(Begun(s, i, action, budget, now))
  {
    var t := s.tasks[i];
    assert 1 <= t.attempt <= MAX_ATTEMPT && (t.completion == Manual ==> t.status == Completed);
    assert action.Cancel? || action.Reject? ==> !UserCompleted(t);
    hide Wf, Append, ActionGuard, Keeps;
    match action
    case Input(_) => PutAndAppendKeeps(s, i, t.(updatedAt := now), TaskAction(action));
    case Cancel => PutAndAppendKeeps(s, i, t.(status := Cancelled, cancellation := Manual, updatedAt := now), TaskAction(Cancel));
    case Complete =>
      PutAndAppendKeeps(s, i, t.(status := Completed, completion := Manual, updatedAt := now), TaskAction(Complete));
    case Approve => PutAndAppendKeeps(s, i, t.(approval := Approved, updatedAt := now), TaskAction(Approve));
    case Reject => PutAndAppendKeeps(s, i, t.(approval := Rejected, status := Blocked, updatedAt := now), TaskAction(Reject));
    WfKept(s, Begun(s, i, action, budget, now));
  }

  lemma BegunGrows(s: State, i: nat, action: Action, budget: nat, now: nat)
    requires Wf(s) && i < |s.tasks| && ActionGuard(s, s.tasks[i], action) == Done
    ensures LogGrows(Begun(s, i, action, budget, now), Acted(s, i, action, budget, now), s.tasks[i].project)
  {
    hide Wf, Append, Activate, Enqueue, Supersede, ActionGuard, RetriedTask;
    var t, s1 := s.tasks[i], Begun(s, i, action, budget, now);
    var p := t.project;
    if !action.Retry? { BegunWf(s, i, action, budget, now); }
    match action
    case Input(_) =>
      EnqueuedLog(s1, t.(updatedAt := now), InputTask, t.attempt, now, p);
    case Cancel =>
      var u := t.(status := Cancelled, cancellation := Manual, updatedAt := now);
      var s2 := s1.(commands := Supersede(s1.commands, t.id));
      SupersededWf(s1, t.id);
      ActivatedLog(s2, budget, p, now, p);
      EnqueuedLog(Activate(s2, budget, p, now), u, CancelTask, t.attempt, now, p);
      SameThen(s1, s2, Activate(s2, budget, p, now), ActCancel(s, i, budget, now), p);
    case Retry => RetryGrowsLog(s, i, budget, now);
    case Complete =>
      var u := t.(status := Completed, completion := Manual, updatedAt := now);
      var s2 := s1.(commands := Supersede(s1.commands, t.id));
      var s3 := Enqueue(s2, u, CancelTask, t.attempt, now);
      SupersededWf(s1, t.id);
      EnqueuedWf(s2, u, CancelTask, t.attempt, now);
      EnqueuedLog(s2, u, CancelTask, t.attempt, now, p);
      ActivatedLog(s3, budget, p, now, p);
      SameThen(s1, s3, Activate(s3, budget, p, now), ActComplete(s, i, budget, now), p);
    case Approve =>
    case Reject => ActivatedLog(s1, budget, p, now, p);
  }

  lemma RetryGrowsLog(s: State, i: nat, budget: nat, now: nat)
    requires i < |s.tasks|
    ensures SameLog(Begun(s, i, Retry, budget, now), ActRetry(s, i, budget, now), s.tasks[i].project)
  {
    hide Append, Supersede, RetriedTask, Enqueue;
    var t := s.tasks[i];
    var s1 := Enqueue(s.(commands := Supersede(s.commands, t.id)), t, CancelTask, t.attempt, now);
    var u := RetriedTask(s1, t, budget, now);
    EnqueuedLog(Begun(s, i, Retry, budget, now), u, StartTask, u.attempt, now, t.project);
  }

  lemma SupersededWf(s: State, task: nat)
    requires Wf(s)
    ensures Wf(s.(commands := Supersede(s.commands, task)))
  {
    hide Wf, Keeps, Supersede;
    SupersedeKeeps(s, task);
    WfKept(s, s.(commands := Supersede(s.commands, task)));
  }

  lemma EnqueuedWf(s: State, t: Task, kind: Kind, attempt: nat, now: nat)
    requires Wf(s)
    ensures Wf(Enqueue(s, t, kind, attempt, now))
  {
    hide Wf, Keeps, Enqueue;
    EnqueueKeeps(s, t, kind, attempt, now);
    WfKept(s, Enqueue(s, t, kind, attempt, now));
  }

  lemma SameThen(s: State, s1: State, s2: State, s3: State, p: string)
    requires SameLog(s, s1, p) && LogGrows(s1, s2, p) && SameLog(s2, s3, p)
    ensures LogGrows(s, s3, p)
  {
    LogGrowsTrans(s, s1, s2, p);
    LogGrowsTrans(s, s2, s3, p);
  }
}
