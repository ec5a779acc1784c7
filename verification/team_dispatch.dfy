/**
  What is sent to the agents: every task that becomes ready gets its start command, each
  command goes to a runtime that can be reached, and each user action sends what it has to.
 */
module TeamDispatch {
  import opened TeamModel
  import opened TeamFrames
  import opened TeamSteps
  import opened TeamScheduler
  import opened TeamStarts
  import opened TeamQueue
  import opened TeamIntake

  // ------------------------------------------------------------------- what may change

  // The command is still what it was, or has been finished.
  ghost predicate Stays(cs: seq<Command>, c': Command) {
    exists c :: c in cs && c.id == c'.id && c' == c.(status := c'.status) && (c'.status == c.status || Terminal(c'))
  }

  // An entry of the project that is not fenced and holds its lease.
  ghost predicate CanReach(rs: seq<Runtime>, p: string, now: nat) {
    exists x :: x in rs && x.project == p && x.status != Fenced && x.lease > now
  }

  // A command as it is first queued, whatever becomes of it: not yet delivered, and
  // addressed to a runtime of its project that is not fenced and holds its lease.
  ghost predicate Addressee(rs: seq<Runtime>, c: Command, now: nat) {
    c.deliveries == 0 && c.visibleAt == 0
    && exists x :: x in rs && x.project == c.project && x.runtime == c.runtime && x.status != Fenced && x.lease > now
  }

  // Old commands stay or are finished, and new ones go to somebody.
  ghost predicate Queues(s: State, s': State, now: nat) {
    && (forall c :: c in s'.commands && c.id < s.nextId ==> Stays(s.commands, c))
    && (forall c :: c in s'.commands && c.id >= s.nextId ==> Addressee(s.runtimes, c, now))
  }

  ghost predicate Flows(s: State, s': State, now: nat) {
    s'.runtimes == s.runtimes && s.nextId <= s'.nextId && Queues(s, s', now)
  }

  ghost predicate WasWaiting(ts: seq<Task>, id: nat) { exists i :: 0 <= i < |ts| && ts[i].id == id && Waiting(ts[i].status) }

  // What is made are starts, and for tasks that waited.
  ghost predicate ForWaiting(s: State, s': State) {
    forall c :: c in s'.commands && c.id >= s.nextId ==> c.kind == StartTask && WasWaiting(s.tasks, c.task)
  }

  // The task has been accepted, or is accepted for another attempt.
  predicate NewlyAccepted(ts: seq<Task>, ts': seq<Task>, i: nat)
    requires i < |ts'|
  {
    ts'[i].status == Accepted && (i >= |ts| || ts[i].status != Accepted || ts[i].attempt != ts'[i].attempt)
  }

  ghost predicate Started(cs: seq<Command>, t: Task) {
    exists c :: c in cs && c.kind == StartTask && !Terminal(c) && c.task == t.id && c.attempt == t.attempt
  }

  // Every task accepted in the meantime has its start command, if its project can be reached.
  ghost predicate Sends(s: State, s': State, now: nat) {
    forall i :: 0 <= i < |s'.tasks| && NewlyAccepted(s.tasks, s'.tasks, i) && CanReach(s.runtimes, s'.tasks[i].project, now) ==>
      Started(s'.commands, s'.tasks[i])
  }

  ghost predicate Works(s: State, s': State, now: nat) {
    && Keeps(s, s') && |s'.tasks| == |s.tasks| && Flows(s, s', now) && Holds(s.commands, s'.commands, {})
    && Sends(s, s', now) && ForWaiting(s, s') && NoneBeginWaiting(s.tasks, s'.tasks)
  }

  predicate NoneBeginWaiting(ts: seq<Task>, ts': seq<Task>) {
    |ts| <= |ts'| && forall i :: 0 <= i < |ts| ==> ts'[i].id == ts[i].id && (Waiting(ts'[i].status) ==> Waiting(ts[i].status))
  }

  // -------------------------------------------------------------------- one after another

  lemma StaysTrans(a: seq<Command>, b: seq<Command>, c: Command)
    requires Stays(b, c) && forall x :: x in b && x.id == c.id ==> Stays(a, x)
    ensures Stays(a, c)
  {
    var y :| y in b && y.id == c.id && c == y.(status := c.status) && (c.status == y.status || Terminal(c));
    assert Stays(a, y);
    var x :| x in a && x.id == y.id && y == x.(status := y.status) && (y.status == x.status || Terminal(y));
  }

  lemma FlowsTrans(s: State, s1: State, s2: State, now: nat)
    requires Flows(s, s1, now) && Flows(s1, s2, now)
    ensures Flows(s, s2, now)
  {
    forall c | c in s2.commands && c.id < s.nextId ensures Stays(s.commands, c) { StaysTrans(s.commands, s1.commands, c); }
    forall c | c in s2.commands && c.id >= s.nextId ensures Addressee(s.runtimes, c, now) {
      if c.id < s1.nextId {
        assert Stays(s1.commands, c);
        var y :| y in s1.commands && y.id == c.id && c == y.(status := c.status);
        assert Addressee(s.runtimes, y, now);
      }
    }
  }

  lemma FlowsSame(s: State, s': State, now: nat)
    requires Wf(s) && s'.commands == s.commands && s'.runtimes == s.runtimes && s.nextId <= s'.nextId
    ensures Flows(s, s', now) && ForWaiting(s, s')
  {
    OldIds(s);
  }

  lemma StartedHeld(cs: seq<Command>, cs': seq<Command>, t: Task, except: set<nat>)
    requires Started(cs, t) && Holds(cs, cs', except) && t.id !in except
    ensures Started(cs', t)
  {
    var c :| c in cs && c.kind == StartTask && !Terminal(c) && c.task == t.id && c.attempt == t.attempt;
    assert Held(cs', c);
    var c' :| c' in cs' && SameCommand(c, c') && !Terminal(c');
  }

  lemma SendsTrans(s: State, s1: State, s2: State, now: nat)
    requires Sends(s, s1, now) && Sends(s1, s2, now) && Holds(s1.commands, s2.commands, {})
    requires s1.runtimes == s.runtimes && TasksKept(s1.tasks, s2.tasks) && |s.tasks| <= |s1.tasks|
    ensures Sends(s, s2, now)
  {
    hide Started, CanReach, Holds;
    forall i | 0 <= i < |s2.tasks| && NewlyAccepted(s.tasks, s2.tasks, i) && CanReach(s.runtimes, s2.tasks[i].project, now)
      ensures Started(s2.commands, s2.tasks[i])
    {
      if !NewlyAccepted(s1.tasks, s2.tasks, i) {
        assert NewlyAccepted(s.tasks, s1.tasks, i) && SameTask(s1.tasks[i], s2.tasks[i]);
        StartedHeld(s1.commands, s2.commands, s1.tasks[i], {});
        StartedAlike(s2.commands, s1.tasks[i], s2.tasks[i]);
      }
    }
  }

  lemma StartedAlike(cs: seq<Command>, t: Task, u: Task)
    requires Started(cs, t) && u.id == t.id && u.attempt == t.attempt
    ensures Started(cs, u)
  {
  }

  lemma ForWaitingTrans(s: State, s1: State, s2: State)
    requires ForWaiting(s, s1) && ForWaiting(s1, s2) && NoneBeginWaiting(s.tasks, s1.tasks) && |s1.tasks| == |s.tasks|
    requires CommandsKept(s1.commands, s2.commands, s1.nextId)
    ensures ForWaiting(s, s2)
  {
    forall c | c in s2.commands && c.id >= s.nextId ensures c.kind == StartTask && WasWaiting(s.tasks, c.task) {
      if c.id < s1.nextId {
        assert From(s1.commands, c);
        var y :| y in s1.commands && SameCommand(y, c);
      } else {
        var i :| 0 <= i < |s1.tasks| && s1.tasks[i].id == c.task && Waiting(s1.tasks[i].status);
        assert s.tasks[i].id == c.task;
      }
    }
  }

  lemma WorksTrans(s: State, s1: State, s2: State, now: nat)
    requires Works(s, s1, now) && Works(s1, s2, now)
    ensures Works(s, s2, now)
  {
    hide Flows, Sends, ForWaiting, Addressed, LogsGrow, RuntimesKept, Holds, Wf, CommandsKept, TasksKept;
    KeepsTrans(s, s1, s2);
    FlowsTrans(s, s1, s2, now);
    HoldsTrans(s.commands, s1.commands, s2.commands, {});
    SendsTrans(s, s1, s2, now);
    ForWaitingTrans(s, s1, s2);
  }

  lemma WorksRefl(s: State, now: nat)
    requires Wf(s)
    ensures Works(s, s, now)
  {
    KeepsRefl(s);
    FlowsSame(s, s, now);
    HoldsRefl(s.commands, {});
    hide Wf, Keeps, Flows, Holds, ForWaiting;
  }

  // No task is accepted and no command is made.
  lemma WorksQuietly(s: State, s': State, now: nat)
    requires Wf(s) && Keeps(s, s') && s'.commands == s.commands && s'.nextId == s.nextId && |s'.tasks| == |s.tasks|
    requires NoneBeginWaiting(s.tasks, s'.tasks)
    requires forall i :: 0 <= i < |s.tasks| ==> !NewlyAccepted(s.tasks, s'.tasks, i)
    ensures Works(s, s', now)
  {
    FlowsSame(s, s', now);
    HoldsRefl(s.commands, {});
    hide Wf, Grows, Addressed, Flows, Holds, ForWaiting;
  }

  // --------------------------------------------------------------------------- enqueuing

  lemma EnqueueFlows(s: State, t: Task, kind: Kind, attempt: nat, now: nat)
    requires Wf(s)
    ensures Flows(s, Enqueue(s, t, kind, attempt, now), now)
    ensures forall c :: c in Enqueue(s, t, kind, attempt, now).commands && c.id >= s.nextId ==> c.kind == kind && c.task == t.id
  {
    OldIds(s);
    var s', i := Enqueue(s, t, kind, attempt, now), FindReachable(s.runtimes, t.project, now);
    if s' != s {
      var c := Command(s.nextId, t.project, s.runtimes[i].runtime, t.id, kind, Queued, attempt, 0, 0);
      assert s.runtimes[i] in s.runtimes;
      CompactedIn(s.commands + [c], t.project);
      assert forall x :: x in s'.commands ==> x in s.commands || x == c;
      hide Compacted, Wf, FindReachable, Reachable, DepStatus;
      assert Addressee(s.runtimes, c, now) by {
        assert Reachable(s.runtimes[i], t.project, now);
        IsReachable(s.runtimes[i], t.project, now);
      }
    }
  }

  lemma IsReachable(x: Runtime, p: string, now: nat)
    requires Reachable(x, p, now)
    ensures x.project == p && x.status != Fenced && x.lease > now
  {
  }

  // What an enqueue adds, if the project can be reached and, for a start, the task is free.
  lemma EnqueueAdds(s: State, t: Task, kind: Kind, attempt: nat, now: nat)
    requires CanReach(s.runtimes, t.project, now) && (kind == StartTask ==> DepStatus(s.tasks, t.deps) == Accepted)
    ensures exists c :: c in Enqueue(s, t, kind, attempt, now).commands && c.id == s.nextId && c.kind == kind
                        && c.status == Queued && c.task == t.id && c.project == t.project && c.attempt == attempt
  {
    var i := FindReachable(s.runtimes, t.project, now);
    var x :| x in s.runtimes && x.project == t.project && x.status != Fenced && x.lease > now;
    var k :| 0 <= k < |s.runtimes| && s.runtimes[k] == x;
    assert i <= k;
    var c := Command(s.nextId, t.project, s.runtimes[i].runtime, t.id, kind, Queued, attempt, 0, 0);
    CompactKeepsPending(s.commands + [c], t.project);
    hide Compacted, DepStatus, FindReachable;
    assert c in s.commands + [c] && c in Enqueue(s, t, kind, attempt, now).commands;
  }

  lemma EnqueueStarts(s: State, t: Task, now: nat)
    requires CanReach(s.runtimes, t.project, now) && DepStatus(s.tasks, t.deps) == Accepted
    ensures Started(Enqueue(s, t, StartTask, t.attempt, now).commands, t)
  {
    EnqueueAdds(s, t, StartTask, t.attempt, now);
    hide Enqueue, DepStatus;
  }

  // -------------------------------------------------------------------------- activation

  // A visit makes a task ready and asks for its start, or accepts none and leaves the queue alone.
  lemma VisitCases(s: State, budget: nat, p: string, i: nat, now: nat)
    requires i < |s.tasks|
    ensures var s', u := Visit(s, budget, p, i, now), s.tasks[i].(status := Accepted, updatedAt := now);
      || (Waiting(s.tasks[i].status) && s.tasks[i].project == p && DepStatus(s.tasks, u.deps) == Accepted
          && s' == Enqueue(Append(PutTask(s, i, u), p, TaskReady, u.id, "", 0, false), u, StartTask, u.attempt, now))
      || (s'.commands == s.commands && s'.nextId == s.nextId
          && forall j :: 0 <= j < |s.tasks| ==> !NewlyAccepted(s.tasks, s'.tasks, j))
  {
    hide DepStatus, Fits, FindReachable, Compacted, LastN;
  }

  lemma VisitWorks(s: State, budget: nat, p: string, i: nat, now: nat)
    requires Wf(s) && i < |s.tasks|
    ensures Works(s, Visit(s, budget, p, i, now), now)
  {
    var s', u := Visit(s, budget, p, i, now), s.tasks[i].(status := Accepted, updatedAt := now);
    VisitCases(s, budget, p, i, now);
    hide Visit, Grows, Addressed, Wf, Keeps, Append, Enqueue, DepStatus, Works;
    if s'.commands == s.commands && s'.nextId == s.nextId
       && forall j :: 0 <= j < |s.tasks| ==> !NewlyAccepted(s.tasks, s'.tasks, j)
    {
      VisitKeeps(s, budget, p, i, now);
      VisitMoves(s, budget, p, i, now);
      WorksQuietly(s, s', now);
    } else {
      ReadyWorks(s, i, u, p, now);
    }
  }

  // What putting a task back and logging it leaves alone.
  lemma PutShape(s: State, i: nat, u: Task, p: string, typ: EventType)
    requires i < |s.tasks|
    ensures var s1 := Append(PutTask(s, i, u), p, typ, u.id, "", 0, false);
      s1.tasks == s.tasks[i := u] && s1.commands == s.commands && s1.runtimes == s.runtimes && s1.nextId == s.nextId
  {
    hide LastN, Log, Counter;
  }

  lemma EnqueueShape(s: State, t: Task, kind: Kind, attempt: nat, now: nat)
    ensures Enqueue(s, t, kind, attempt, now).tasks == s.tasks
  {
    hide DepStatus, FindReachable, Compacted;
  }

  lemma ReadyKeeps(s: State, i: nat, u: Task, p: string, now: nat)
    requires Wf(s) && i < |s.tasks| && Waiting(s.tasks[i].status) && u == s.tasks[i].(status := Accepted, updatedAt := now)
    ensures var ready := Append(PutTask(s, i, u), p, TaskReady, u.id, "", 0, false);
      && Keeps(s, ready) && Wf(ready) && Keeps(s, Enqueue(ready, u, StartTask, u.attempt, now))
      && DepStatus(ready.tasks, u.deps) == DepStatus(s.tasks, u.deps)
  {
    var ready := Append(PutTask(s, i, u), p, TaskReady, u.id, "", 0, false);
    PutKeeps(s, i, u);
    OwnDeps(s, i, u);
    assert ready.tasks == s.tasks[i := u];
    hide Keeps, Wf, Append, Enqueue, DepStatus;
    ThenAppend(s, PutTask(s, i, u), p, TaskReady, u.id, "", 0, false);
    ThenEnqueue(s, ready, u, StartTask, u.attempt, now);
    WfKept(s, ready);
  }

  lemma ReadyWorks(s: State, i: nat, u: Task, p: string, now: nat)
    requires Wf(s) && i < |s.tasks| && Waiting(s.tasks[i].status) && u == s.tasks[i].(status := Accepted, updatedAt := now)
    requires DepStatus(s.tasks, u.deps) == Accepted
    ensures Works(s, Enqueue(Append(PutTask(s, i, u), p, TaskReady, u.id, "", 0, false), u, StartTask, u.attempt, now), now)
  {
    hide Append, Enqueue, Wf, Keeps, DepStatus, Flows, Holds, Started, CanReach;
    var ready := Append(PutTask(s, i, u), p, TaskReady, u.id, "", 0, false);
    var s' := Enqueue(ready, u, StartTask, u.attempt, now);
    ReadyKeeps(s, i, u, p, now);
    PutShape(s, i, u, p, TaskReady);
    EnqueueShape(ready, u, StartTask, u.attempt, now);
    FlowsSame(s, ready, now);
    EnqueueFlows(ready, u, StartTask, u.attempt, now);
    EnqueueHolds(ready, u, StartTask, u.attempt, now, {});
    FlowsTrans(s, ready, s', now);
    if CanReach(s.runtimes, u.project, now) { EnqueueStarts(ready, u, now); }
    assert s.tasks[i].id == u.id && WasWaiting(s.tasks, u.id);
  }

  lemma {:induction false} PassWorks(s: State, budget: nat, p: string, i: nat, now: nat)
    requires Wf(s) && i <= |s.tasks|
    ensures Works(s, Pass(s, budget, p, i, now), now)
    decreases |s.tasks| - i
  {
    hide Wf, Works, Visit;
    if i == |s.tasks| {
      WorksRefl(s, now);
    } else {
      var s1 := Visit(s, budget, p, i, now);
      VisitWorks(s, budget, p, i, now);
      WorksWf(s, s1, now);
      PassWorks(s1, budget, p, i + 1, now);
      WorksTrans(s, s1, Pass(s1, budget, p, i + 1, now), now);
    }
  }

  lemma WorksWf(s: State, s': State, now: nat)
    requires Works(s, s', now)
    ensures Wf(s') && |s'.tasks| == |s.tasks| && s'.runtimes == s.runtimes && Flows(s, s', now) && Sends(s, s', now)
    ensures Keeps(s, s') && TasksKept(s.tasks, s'.tasks) && Holds(s.commands, s'.commands, {})
  {
    hide Flows, Sends, TasksKept, Holds, Wf;
  }

  lemma {:induction false} ActivateWorks(s: State, budget: nat, p: string, now: nat)
    requires Wf(s)
    ensures Works(s, Activate(s, budget, p, now), now)
    decreases Rank(s.tasks)
  {
    hide Wf, Works, Pass;
    var s1 := Pass(s, budget, p, 0, now);
    PassWorks(s, budget, p, 0, now);
    PassRank(s, budget, p, 0, now);
    if s1.tasks == s.tasks {
    } else {
      WorksWf(s, s1, now);
      ActivateWorks(s1, budget, p, now);
      WorksTrans(s, s1, Activate(s1, budget, p, now), now);
    }
  }

  // ------------------------------------------------------------------------ agent events

  lemma EventPutQuiet(s: State, p: string, r: string, e: RawEvent, now: nat)
    requires e.RawEvent?
    ensures var s1 := EventPut(s, p, r, e, now);
      && s1.commands == s.commands && s1.nextId == s.nextId && |s1.tasks| == |s.tasks|
      && NoneBeginWaiting(s.tasks, s1.tasks) && forall i :: 0 <= i < |s.tasks| ==> !NewlyAccepted(s.tasks, s1.tasks, i)
  {
    hide LastN;
  }

  lemma EventWorks(s: State, p: string, r: string, e: RawEvent, budget: nat, now: nat)
    requires Wf(s) && e.RawEvent?
    ensures Works(s, ApplyEvent(s, p, r, e, budget, now), now)
  {
    var s1 := EventPut(s, p, r, e, now);
    assert Ids(s.tasks);
    hide Wf, Works, ApplyEvent, EventPut, SetsOff, Ids, Keeps;
    EventPutKeeps(s, p, r, e, now);
    EventShape(s, p, r, e, budget, now);
    EventPutQuiet(s, p, r, e, now);
    WorksQuietly(s, s1, now);
    WorksWf(s, s1, now);
    ActivateWorks(s1, budget, p, now);
    WorksTrans(s, s1, Activate(s1, budget, p, now), now);
  }

  lemma {:induction false} BatchWorks(s: State, p: string, r: string, es: seq<RawEvent>, budget: nat, now: nat)
    requires Wf(s) && Objects(es)
    ensures Works(s, ApplyAll(s, p, r, es, budget, now), now)
    decreases |es|
  {
    hide Wf, Works, ApplyEvent;
    if |es| == 0 {
      WorksRefl(s, now);
    } else {
      var s1 := ApplyEvent(s, p, r, es[0], budget, now);
      EventWorks(s, p, r, es[0], budget, now);
      WorksWf(s, s1, now);
      BatchWorks(s1, p, r, es[1..], budget, now);
      WorksTrans(s, s1, ApplyAll(s1, p, r, es[1..], budget, now), now);
    }
  }

  // ----------------------------------------------------------------- creation and actions

  ghost predicate Serves(s: State, s': State, now: nat) { Flows(s, s', now) && Sends(s, s', now) }

  lemma ServesThen(s: State, s1: State, s2: State, now: nat)
    requires Serves(s, s1, now) && Works(s1, s2, now) && |s.tasks| <= |s1.tasks|
    ensures Serves(s, s2, now)
  {
    WorksWf(s1, s2, now);
    assert s1.runtimes == s.runtimes;
    hide Works, Sends, Holds, TasksKept, Keeps, Wf;
    FlowsTrans(s, s1, s2, now);
    SendsTrans(s, s1, s2, now);
  }

  // A request to an agent that is not a start.
  lemma ServesEnqueue(s: State, s1: State, t: Task, kind: Kind, attempt: nat, now: nat)
    requires Serves(s, s1, now) && Wf(s1) && kind != StartTask && |s.tasks| <= |s1.tasks|
    ensures Serves(s, Enqueue(s1, t, kind, attempt, now), now)
  {
    var s2 := Enqueue(s1, t, kind, attempt, now);
    EnqueueFlows(s1, t, kind, attempt, now);
    EnqueueHolds(s1, t, kind, attempt, now, {});
    assert s2.tasks == s1.tasks && s1.runtimes == s.runtimes;
    hide Enqueue, Wf, Holds;
    FlowsTrans(s, s1, s2, now);
    hide Flows;
    assert Sends(s1, s2, now);
    SendsTrans(s, s1, s2, now);
  }

  // Tasks are changed, none is accepted, and commands are at most finished.
  lemma ServesQuietly(s: State, s': State, now: nat)
    requires Wf(s) && s'.runtimes == s.runtimes && s.nextId <= s'.nextId && Before(s'.commands, s.nextId)
    requires forall c :: c in s'.commands ==> Stays(s.commands, c)
    requires forall i :: 0 <= i < |s'.tasks| ==> !NewlyAccepted(s.tasks, s'.tasks, i)
    ensures Serves(s, s', now)
  {
    hide Wf, NewlyAccepted, Stays;
  }

  lemma SupersededStays(cs: seq<Command>, task: nat)
    ensures forall c :: c in Supersede(cs, task) ==> Stays(cs, c)
    ensures forall c :: c in Supersede(cs, task) && c.task == task ==> Terminal(c)
  {
    forall c | c in Supersede(cs, task) ensures Stays(cs, c) && (c.task == task ==> Terminal(c)) {
      var k :| 0 <= k < |cs| && Supersede(cs, task)[k] == c;
      assert cs[k] in cs;
    }
  }

  // The task is put back and its commands are superseded.
  function Cleared(s: State, i: nat, u: Task, typ: EventType): State
    requires i < |s.tasks|
  {
    var s1 := Append(PutTask(s, i, u), u.project, typ, u.id, "", 0, false);
    s1.(commands := Supersede(s1.commands, u.id))
  }

  lemma ClearedServes(s: State, i: nat, u: Task, typ: EventType, now: nat)
    requires Wf(s) && i < |s.tasks| && u.status != Accepted && SameTask(s.tasks[i], u) && 1 <= u.attempt <= MAX_ATTEMPT
    requires u.completion == Manual ==> u.status == Completed
    ensures var s2 := Cleared(s, i, u, typ);
      Wf(s2) && Serves(s, s2, now) && s2.tasks == s.tasks[i := u] && s2.nextId == s.nextId && s2.runtimes == s.runtimes
      && forall c :: c in s2.commands && c.task == u.id ==> Terminal(c)
  {
    hide Append, Wf, Keeps, Supersede, Stays, Serves;
    var s1 := Append(PutTask(s, i, u), u.project, typ, u.id, "", 0, false);
    var s2 := Cleared(s, i, u, typ);
    PutAndAppendKeeps(s, i, u, typ);
    PutShape(s, i, u, u.project, typ);
    ThenSupersede(s, s1, u.id);
    WfKept(s, s2);
    SupersededStays(s.commands, u.id);
    OldIds(s2);
    NoneAccepted(s, i, u, s2);
    ServesQuietly(s, s2, now);
  }

  lemma NoneAccepted(s: State, i: nat, u: Task, s': State)
    requires i < |s.tasks| && s'.tasks == s.tasks[i := u]
    requires u.status == Accepted ==> s.tasks[i].status == Accepted && u.attempt == s.tasks[i].attempt
    ensures forall j :: 0 <= j < |s'.tasks| ==> !NewlyAccepted(s.tasks, s'.tasks, j)
  {
  }

  lemma CancelServes(s: State, i: nat, budget: nat, now: nat)
    requires Wf(s) && i < |s.tasks| && !UserCompleted(s.tasks[i])
    ensures Serves(s, ActCancel(s, i, budget, now), now)
  {
    var t := s.tasks[i].(status := Cancelled, cancellation := Manual, updatedAt := now);
    assert 1 <= t.attempt <= MAX_ATTEMPT && (t.completion == Manual ==> t.status == Completed);
    var s2 := Cleared(s, i, t, TaskAction(Cancel));
    var s3 := Activate(s2, budget, t.project, now);
    assert ActCancel(s, i, budget, now) == Enqueue(s3, t, CancelTask, t.attempt, now)
      by { hide Activate, Enqueue, Append, Supersede; }
    hide ActCancel, Cleared, Wf, Serves, Works, Activate, Enqueue;
    ClearedServes(s, i, t, TaskAction(Cancel), now);
    ActivateWorks(s2, budget, t.project, now);
    WorksWf(s2, s3, now);
    ServesThen(s, s2, s3, now);
    ServesEnqueue(s, s3, t, CancelTask, t.attempt, now);
  }

  lemma CompleteServes(s: State, i: nat, budget: nat, now: nat)
    requires Wf(s) && i < |s.tasks|
    ensures Serves(s, ActComplete(s, i, budget, now), now)
  {
    var t := s.tasks[i].(status := Completed, completion := Manual, updatedAt := now);
    assert 1 <= t.attempt <= MAX_ATTEMPT;
    var s2 := Cleared(s, i, t, TaskAction(Complete));
    var s3 := Enqueue(s2, t, CancelTask, t.attempt, now);
    assert ActComplete(s, i, budget, now) == Activate(s3, budget, t.project, now)
      by { hide Activate, Enqueue, Append, Supersede; }
    assert s3.tasks == s2.tasks;
    hide ActComplete, Cleared, Wf, Serves, Works, Activate, Enqueue, Keeps;
    ClearedServes(s, i, t, TaskAction(Complete), now);
    ServesEnqueue(s, s2, t, CancelTask, t.attempt, now);
    EnqueueKeeps(s2, t, CancelTask, t.attempt, now);
    WfKept(s2, s3);
    ActivateWorks(s3, budget, t.project, now);
    ServesThen(s, s3, Activate(s3, budget, t.project, now), now);
  }

  // The task is put back.
  lemma PutServes(s: State, i: nat, u: Task, typ: EventType, now: nat)
    requires Wf(s) && i < |s.tasks| && SameTask(s.tasks[i], u) && 1 <= u.attempt <= MAX_ATTEMPT
    requires u.completion == Manual ==> u.status == Completed
    requires u.attempt == s.tasks[i].attempt && (u.status == Accepted ==> s.tasks[i].status == Accepted)
    ensures var s1 := Append(PutTask(s, i, u), u.project, typ, u.id, "", 0, false); Wf(s1) && Serves(s, s1, now)
  {
    hide Append, Wf, Keeps, Flows;
    var s1 := Append(PutTask(s, i, u), u.project, typ, u.id, "", 0, false);
    PutAndAppendKeeps(s, i, u, typ);
    PutShape(s, i, u, u.project, typ);
    WfKept(s, s1);
    FlowsSame(s, s1, now);
    NoneAccepted(s, i, u, s1);
  }

  lemma InputServes(s: State, i: nat, action: Action, now: nat)
    requires Wf(s) && i < |s.tasks|
    ensures Serves(s, ActInput(s, i, action, now), now)
  {
    var t := s.tasks[i].(updatedAt := now);
    assert 1 <= t.attempt <= MAX_ATTEMPT && (t.completion == Manual ==> t.status == Completed);
    var s1 := Append(PutTask(s, i, t), t.project, TaskAction(action), t.id, "", 0, false);
    assert |s1.tasks| == |s.tasks|;
    hide Wf, Serves, Append, Enqueue;
    PutServes(s, i, t, TaskAction(action), now);
    ServesEnqueue(s, s1, t, InputTask, t.attempt, now);
  }

  lemma RejectServes(s: State, i: nat, budget: nat, now: nat)
    requires Wf(s) && i < |s.tasks| && !UserCompleted(s.tasks[i])
    ensures Serves(s, ActReject(s, i, budget, now), now)
  {
    var u := s.tasks[i].(approval := Rejected, status := Blocked, updatedAt := now);
    assert 1 <= u.attempt <= MAX_ATTEMPT && (u.completion == Manual ==> u.status == Completed);
    var s1 := Append(PutTask(s, i, u), u.project, TaskAction(Reject), u.id, "", 0, false);
    assert |s1.tasks| == |s.tasks|;
    hide Wf, Serves, Append, Activate, Works;
    PutServes(s, i, u, TaskAction(Reject), now);
    ActivateWorks(s1, budget, u.project, now);
    ServesThen(s, s1, Activate(s1, budget, u.project, now), now);
  }

  lemma CancelFirst(s: State, t: Task, now: nat)
    requires Wf(s)
    ensures var s1 := Enqueue(s.(commands := Supersede(s.commands, t.id)), t, CancelTask, t.attempt, now);
      Wf(s1) && Serves(s, s1, now) && s1.tasks == s.tasks
  {
    var s0 := s.(commands := Supersede(s.commands, t.id));
    SupersedeKeeps(s, t.id);
    SupersededStays(s.commands, t.id);
    EnqueueKeeps(s0, t, CancelTask, t.attempt, now);
    assert Enqueue(s0, t, CancelTask, t.attempt, now).tasks == s.tasks;
    hide Supersede, Enqueue, Wf, Keeps;
    WfKept(s, s0);
    WfKept(s0, Enqueue(s0, t, CancelTask, t.attempt, now));
    OldIds(s0);
    ServesQuietly(s, s0, now);
    hide Serves;
    ServesEnqueue(s, s0, t, CancelTask, t.attempt, now);
  }

  lemma RetryServes(s: State, i: nat, budget: nat, now: nat)
    requires Wf(s) && i < |s.tasks| && !UserCompleted(s.tasks[i]) && s.tasks[i].attempt < MAX_ATTEMPT
    ensures Serves(s, ActRetry(s, i, budget, now), now)
  {
    var t := s.tasks[i];
    var s1 := Enqueue(s.(commands := Supersede(s.commands, t.id)), t, CancelTask, t.attempt, now);
    assert 1 <= t.attempt;
    hide Wf, Serves, Append, Enqueue, Supersede;
    CancelFirst(s, t, now);
    var u := RetriedTask(s1, t, budget, now);
    hide RetriedTask, DepStatus;
    RetriedSame(s1, t, budget, now);
    assert u.completion == NoSource && u.profile == t.profile && u.key == t.key by { RetriedRest(s1, t, budget, now); }
    RetriedServes(s, s1, i, u, now);
  }

  lemma RetriedRest(s: State, t: Task, budget: nat, now: nat)
    ensures var u := RetriedTask(s, t, budget, now); u.completion == NoSource && u.profile == t.profile && u.key == t.key
  {
    hide DepStatus, Fits;
  }

  lemma RetriedServes(s: State, s1: State, i: nat, u: Task, now: nat)
    requires Wf(s) && Wf(s1) && Serves(s, s1, now) && s1.tasks == s.tasks && i < |s.tasks| && !UserCompleted(s.tasks[i])
    requires var t := s.tasks[i];
      u.id == t.id && u.project == t.project && u.deps == t.deps && u.profile == t.profile && u.key == t.key
      && u.attempt == t.attempt + 1 <= MAX_ATTEMPT && u.completion == NoSource
      && (u.status == Accepted ==> DepStatus(s.tasks, t.deps) == Accepted)
    ensures var s2 := Append(PutTask(s1, i, u), u.project, TaskAction(Retry), u.id, "", 0, false);
      Serves(s, if u.status == Accepted then Enqueue(s2, u, StartTask, u.attempt, now) else s2, now)
  {
    hide Wf, Append, DepStatus, Keeps, Enqueue, Flows, Started, CanReach;
    var s2 := Append(PutTask(s1, i, u), u.project, TaskAction(Retry), u.id, "", 0, false);
    PutAndAppendKeeps(s1, i, u, TaskAction(Retry));
    OwnDeps(s, i, u);
    PutShape(s1, i, u, u.project, TaskAction(Retry));
    WfKept(s1, s2);
    FlowsSame(s1, s2, now);
    FlowsTrans(s, s1, s2, now);
    assert s1.runtimes == s.runtimes by { FlowsRuntimes(s, s1, now); }
    if u.status == Accepted {
      var s3 := Enqueue(s2, u, StartTask, u.attempt, now);
      EnqueueShape(s2, u, StartTask, u.attempt, now);
      EnqueueFlows(s2, u, StartTask, u.attempt, now);
      FlowsTrans(s, s2, s3, now);
      if CanReach(s.runtimes, u.project, now) { EnqueueStarts(s2, u, now); }
    }
  }

  lemma FlowsRuntimes(s: State, s': State, now: nat)
    requires Flows(s, s', now)
    ensures s'.runtimes == s.runtimes
  {
  }

  lemma AppendedFind(ts: seq<Task>, t: Task, id: nat)
    requires FindTask(ts, id) < |ts|
    ensures FindTask(ts + [t], id) == FindTask(ts, id)
  {
    var j, k := FindTask(ts, id), FindTask(ts + [t], id);
    assert (ts + [t])[j].id == id;
    assert k <= j;
  }

  lemma AnnouncedShape(s: State, t: Task)
    ensures var s1 := Announced(s, t, CreationEvent(t.status));
      s1.tasks == s.tasks + [t] && s1.commands == s.commands && s1.runtimes == s.runtimes && s1.nextId == s.nextId + 1
  {
    hide LastN, Log, Counter;
  }

  lemma AppendedDeps(ts: seq<Task>, p: string, deps: seq<nat>, t: Task)
    requires forall d :: d in deps ==> InProject(ts, p, d)
    ensures DepStatus(ts + [t], deps) == DepStatus(ts, deps)
  {
    forall d | d in deps ensures FindTask(ts, d) < |ts| && FindTask(ts + [t], d) == FindTask(ts, d) { AppendedFind(ts, t, d); }
    DepsSame(ts, ts + [t], deps);
  }

  lemma CreateServes(s: State, t: Task, now: nat)
    requires Wf(s) && t.id == s.nextId && t.attempt == 1 && t.completion == NoSource
    requires forall d :: d in t.deps ==> InProject(s.tasks, t.project, d)
    requires t.status == Accepted ==> DepStatus(s.tasks, t.deps) == Accepted
    ensures Serves(s, AddTask(s, t, now), now)
  {
    hide Wf, Announced, DepStatus, Keeps, InProject, Enqueue, Flows, Started, CanReach, CreationEvent;
    var s1 := Announced(s, t, CreationEvent(t.status));
    AnnounceKeeps(s, t, CreationEvent(t.status));
    AnnouncedShape(s, t);
    AppendedDeps(s.tasks, t.project, t.deps, t);
    WfKept(s, s1);
    FlowsSame(s, s1, now);
    if t.status == Accepted {
      var s2 := Enqueue(s1, t, StartTask, t.attempt, now);
      EnqueueShape(s1, t, StartTask, t.attempt, now);
      EnqueueFlows(s1, t, StartTask, t.attempt, now);
      FlowsTrans(s, s1, s2, now);
      if CanReach(s.runtimes, t.project, now) { EnqueueStarts(s1, t, now); }
    }
  }

  // -------------------------------------------------------------------------- all requests

  // The part of a request's work that concerns the queue.
  ghost predicate Attends(s: State, s': State, now: nat) { Queues(s, s', now) && Sends(s, s', now) }

  lemma AttendsFrom(s: State, s1: State, s2: State, now: nat)
    requires Serves(s, s1, now) && s2.tasks == s1.tasks && s2.commands == s1.commands
    ensures Attends(s, s2, now)
  {
    hide Stays, Addressee, Started, CanReach, NewlyAccepted;
  }

  lemma AttendsSame(s: State, s': State, now: nat)
    requires Wf(s) && s'.commands == s.commands && |s'.tasks| == |s.tasks|
    requires forall i :: 0 <= i < |s.tasks| ==> !NewlyAccepted(s.tasks, s'.tasks, i)
    ensures Attends(s, s', now)
  {
    FlowsSame(s, s.(tasks := s'.tasks), now);
    hide Wf, NewlyAccepted, Stays, Addressee;
  }

  lemma ActionAttends(s: State, task: nat, action: Action, budget: nat, now: nat)
    requires Wf(s)
    ensures var o := HandleAction(s, task, action, budget, now); o.Write? ==> Attends(s, o.next, now)
  {
    var i := FindTask(s.tasks, task);
    if i < |s.tasks| && ActionGuard(s, s.tasks[i], action) == Done {
      var t := s.tasks[i];
      assert 1 <= t.attempt <= MAX_ATTEMPT && (t.completion == Manual ==> t.status == Completed);
      assert !action.Input? && !action.Complete? && !action.Approve? ==> !UserCompleted(t);
      assert action.Retry? ==> t.attempt < MAX_ATTEMPT;
      hide Wf, ActCancel, ActRetry, ActComplete, ActReject, ActInput, ActionGuard, Serves, Attends, Append;
      match action
      case Input(_) => InputServes(s, i, action, now);
      case Cancel => CancelServes(s, i, budget, now);
      case Retry => RetryServes(s, i, budget, now);
      case Complete => CompleteServes(s, i, budget, now);
      case Approve => PutServes(s, i, t.(approval := Approved, updatedAt := now), TaskAction(Approve), now);
      case Reject => RejectServes(s, i, budget, now);
      AttendsFrom(s, Acted(s, i, action, budget, now), Acted(s, i, action, budget, now), now);
    }
  }

  lemma EventsAttend(s: State, p: string, r: string, token: nat, batch: seq<RawEvent>, budget: nat, now: nat)
    requires Wf(s)
    ensures var o := HandleEvents(s, p, r, token, batch, budget, now); o.Write? ==> Attends(s, o.next, now)
  {
    hide Wf, ApplyAll, Selected, LastTaken, ReplaceRuntime, Validate, Works, Attends, Flows, Sends;
    var o := HandleEvents(s, p, r, token, batch, budget, now);
    if o.Write? {
      var last := s.runtimes[FindRuntime(s.runtimes, p, r)].lastSequence;
      ValidObjects(s.tasks, p, batch, last, last);
      var s1 := ApplyAll(s, p, r, Selected(batch, last), budget, now);
      BatchWorks(s, p, r, Selected(batch, last), budget, now);
      WorksWf(s, s1, now);
      AttendsFrom(s, s1, o.next, now);
    }
  }

  lemma CreateAttends(s: State, p: string, deps: seq<nat>, profile: Profile, key: string, owner: string, budget: nat, now: nat)
    requires Wf(s)
    ensures var o := HandleCreate(s, p, deps, profile, key, owner, budget, now); o.Write? ==> Attends(s, o.next, now)
  {
    hide Wf, AddTask, DepStatus, Fits, Attends, Serves;
    if HandleCreate(s, p, deps, profile, key, owner, budget, now).Write? {
      assert DepsExist(s.tasks, p, s.nextId, deps);
      var t := NewTask(s, p, deps, profile, key, owner, budget, now);
      CreateServes(s, t, now);
      AttendsFrom(s, AddTask(s, t, now), AddTask(s, t, now), now);
    }
  }

  lemma HandleAttends(s: State, req: Request, env: Env)
    requires Wf(s) && !req.Register? && !req.Poll? && !req.Ack?
    ensures var o := Handle(s, req, env); o.Write? ==> Attends(s, o.next, env.now)
  {
    hide Wf, Attends, HandleEvents, HandleCreate, HandleAction, FindRuntime, Append;
    var o := Handle(s, req, env);
    match req
    case Heartbeat(_, _, _, _) => if o.Write? { AttendsSame(s, o.next, env.now); }
    case Unregister(p, r, token) => UnregisterAttends(s, p, r, token, env.now);
    case Events(p, r, token, batch) => EventsAttend(s, p, r, token, batch, env.budget, env.now);
    case Expire =>
      ExpireTasks(s, 0, env.now);
      if o.Write? { AttendsSame(s, o.next, env.now); }
    case Create(p, deps, profile, key, owner) => CreateAttends(s, p, deps, profile, key, owner, env.budget, env.now);
    case Act(task, action) => ActionAttends(s, task, action, env.budget, env.now);
  }

  lemma UnregisterAttends(s: State, p: string, r: string, token: nat, now: nat)
    requires Wf(s)
    ensures var o := HandleUnregister(s, p, r, token, now); o.Write? ==> Attends(s, o.next, now)
  {
    hide Wf, Attends, FindRuntime;
    var o := HandleUnregister(s, p, r, token, now);
    if o.Write? { AttendsSame(s, o.next, now); }
  }

  lemma RollbackAttends(s: State, req: Request, next: State, now: nat)
    requires Wf(s)
    ensures Attends(s, RolledBack(s, req, next, now), now)
  {
    var s' := RolledBack(s, req, next, now);
    assert |s'.tasks| == |s.tasks| && forall i :: 0 <= i < |s.tasks| ==> !NewlyAccepted(s.tasks, s'.tasks, i);
    hide Wf, Attends;
    AttendsSame(s, s', now);
  }

  /** A request, saved or not, leaves every command it finds as it is or finished, and addresses each one it
      makes to a runtime of the project that is not fenced and holds its lease. */
  lemma StepQueues(s: State, req: Request, env: Env)
    requires Wf(s) && !req.Register? && !req.Poll? && !req.Ack?
    ensures Queues(s, After(s, req, env), env.now)
  {
    StepAttends(s, req, env);
  }

  lemma StepAttends(s: State, req: Request, env: Env)
    requires Wf(s) && !req.Register? && !req.Poll? && !req.Ack?
    ensures Attends(s, After(s, req, env), env.now)
  {
    hide Wf, Attends, Handle, RolledBack;
    match Handle(s, req, env)
    case Keep(_) => AttendsSame(s, s, env.now);
    case Write(next, _) =>
      HandleAttends(s, req, env);
      RollbackAttends(s, req, next, env.now);
  }

  lemma TasksAlone(s: State, req: Request, env: Env)
    requires req.Register? || req.Poll? || req.Ack?
    ensures After(s, req, env).tasks == s.tasks
  {
    if req.Register? { RestartTasks(TakeOver(s, req.project, req.runtime, env.now), req.project, 0, env.now); }
    hide TakeOver, Restart, Deliver, Compacted, AckAll, HoldsLease, FindCurrent, FindRuntime, Append;
    if req.Register? { AppendTasks(Restart(TakeOver(s, req.project, req.runtime, env.now), req.project, 0, env.now), req); }
  }

  lemma AppendTasks(s: State, req: Request)
    requires req.Register?
    ensures Append(s, req.project, RuntimeOnline, 0, req.runtime, 0, false).tasks == s.tasks
  {
  }

  /** Whatever request makes a task accepted, or accepted for a new attempt, be it created, retried, set free by
      an agent's batch, or by a user, sees to it that an unfinished start command for that attempt is in the
      queue, if a runtime of the project can be reached. */
  lemma StepDispatches(s: State, req: Request, env: Env)
    requires Wf(s)
    ensures Sends(s, After(s, req, env), env.now)
  {
    hide Wf, After, Started, CanReach, Queues;
    if req.Register? || req.Poll? || req.Ack? {
      TasksAlone(s, req, env);
    } else {
      StepAttends(s, req, env);
    }
  }

  /** So does every event of a batch, for the state it leaves. */
  lemma BatchDispatches(s: State, p: string, r: string, es: seq<RawEvent>, budget: nat, now: nat)
    requires Wf(s) && Objects(es)
    ensures Sends(s, ApplyAll(s, p, r, es, budget, now), now)
  {
    hide Wf, ApplyAll, Sends, Works;
    BatchWorks(s, p, r, es, budget, now);
    WorksWf(s, ApplyAll(s, p, r, es, budget, now), now);
  }

  // A start for an accepted task of the project, at the attempt it is at.
  ghost predicate ForAccepted(ts: seq<Task>, p: string, c: Command) {
    c.project == p && c.kind == StartTask
    && exists i :: 0 <= i < |ts| && ts[i].id == c.task && ts[i].project == p && ts[i].status == Accepted
                   && ts[i].attempt == c.attempt
  }

  /** The events of a batch make nothing but starts, and only for tasks that waited before it. */
  lemma BatchSends(s: State, p: string, r: string, es: seq<RawEvent>, budget: nat, now: nat)
    requires Wf(s) && Objects(es)
    ensures ForWaiting(s, ApplyAll(s, p, r, es, budget, now))
  {
    hide Wf, ApplyAll, Sends, Flows, Holds, Keeps, NoneBeginWaiting, ForWaiting;
    BatchWorks(s, p, r, es, budget, now);
  }

  /** A creation makes at most a start of the new task. */
  lemma CreateSends(s: State, p: string, deps: seq<nat>, profile: Profile, key: string, owner: string, env: Env, c: Command)
    requires Wf(s) && Reply(s, Create(p, deps, profile, key, owner), env) == Done
    requires c in After(s, Create(p, deps, profile, key, owner), env).commands && c.id >= s.nextId
    ensures c.kind == StartTask && c.task == s.nextId
  {
    var t := NewTask(s, p, deps, profile, key, owner, env.budget, env.now);
    assert DepsExist(s.tasks, p, s.nextId, deps);
    assert t.id == s.nextId && t.attempt == 1 && t.completion == NoSource && t.project == p && t.deps == deps;
    hide Wf, NewTask, CreateGuard, Keeps, Announced, Enqueue, DepsExist;
    assert After(s, Create(p, deps, profile, key, owner), env) == AddTask(s, t, env.now);
    CreatedCommand(s, t, env.now, c);
  }

  lemma CreatedCommand(s: State, t: Task, now: nat, c: Command)
    requires Wf(s) && t.id == s.nextId && t.attempt == 1 && t.completion == NoSource
    requires DepsExist(s.tasks, t.project, s.nextId, t.deps) && c in AddTask(s, t, now).commands && c.id >= s.nextId
    ensures c.kind == StartTask && c.task == t.id
  {
    hide Wf, Announced, Keeps, Enqueue, InProject, Flows, CreationEvent, DepStatus;
    OldIds(s);
    var s1 := Announced(s, t, CreationEvent(t.status));
    assert forall d :: d in t.deps ==> InProject(s.tasks, t.project, d);
    AnnounceKeeps(s, t, CreationEvent(t.status));
    AnnouncedShape(s, t);
    WfKept(s, s1);
    if t.status == Accepted {
      EnqueueFlows(s1, t, StartTask, t.attempt, now);
      if c.id < s1.nextId { var _ := FlowsBack(s1, Enqueue(s1, t, StartTask, t.attempt, now), c, now); }
    }
  }

  /** An approval sends nothing; a rejection sends nothing but starts for tasks that waited. */
  lemma ApproveSends(s: State, i: nat, now: nat)
    requires i < |s.tasks|
    ensures ActApprove(s, i, now).commands == s.commands
  {
  }

  lemma RejectSends(s: State, i: nat, budget: nat, now: nat)
    requires Wf(s) && i < |s.tasks| && !UserCompleted(s.tasks[i])
    ensures ForWaiting(s, ActReject(s, i, budget, now))
  {
    hide Wf, Append, Activate, Works, Serves, ForWaiting, NoneBeginWaiting;
    TaskFacts(s, i);
    var u := s.tasks[i].(approval := Rejected, status := Blocked, updatedAt := now);
    var s1 := Append(PutTask(s, i, u), u.project, TaskAction(Reject), u.id, "", 0, false);
    PutServes(s, i, u, TaskAction(Reject), now);
    PutShape(s, i, u, u.project, TaskAction(Reject));
    ActivateWorks(s1, budget, u.project, now);
    NoneBeginPut(s.tasks, i, u);
    ForWaitingBack(s1, Activate(s1, budget, u.project, now), s, now);
  }

  lemma NoneBeginPut(ts: seq<Task>, i: nat, u: Task)
    requires i < |ts| && u.id == ts[i].id && !Waiting(u.status)
    ensures NoneBeginWaiting(ts, ts[i := u])
  {
  }

  lemma TaskFacts(s: State, i: nat)
    requires Wf(s) && i < |s.tasks|
    ensures var t := s.tasks[i]; 1 <= t.attempt <= MAX_ATTEMPT && (t.completion == Manual ==> t.status == Completed)
    ensures Ids(s.tasks)
  {
  }

  lemma ForWaitingBack(s1: State, s': State, s: State, now: nat)
    requires Works(s1, s', now) && s1.nextId == s.nextId && |s1.tasks| == |s.tasks| && NoneBeginWaiting(s.tasks, s1.tasks)
    ensures ForWaiting(s, s')
  {
    hide Flows, Sends, Keeps, Holds;
    forall c | c in s'.commands && c.id >= s.nextId ensures c.kind == StartTask && WasWaiting(s.tasks, c.task) {
      var i :| 0 <= i < |s1.tasks| && s1.tasks[i].id == c.task && Waiting(s1.tasks[i].status);
      assert s.tasks[i].id == c.task;
    }
  }

  /** A retry makes commands for its own task only. */
  lemma RetrySends(s: State, i: nat, budget: nat, now: nat, c: Command)
    requires Wf(s) && i < |s.tasks| && !UserCompleted(s.tasks[i]) && s.tasks[i].attempt < MAX_ATTEMPT
    requires c in ActRetry(s, i, budget, now).commands && c.id >= s.nextId
    ensures c.task == s.tasks[i].id
  {
    var t := s.tasks[i];
    var s0 := s.(commands := Supersede(s.commands, t.id));
    var s1 := Enqueue(s0, t, CancelTask, t.attempt, now);
    SupersedeKeeps(s, t.id);
    assert 1 <= t.attempt;
    hide Wf, Append, Enqueue, Supersede, Keeps, DepStatus;
    WfKept(s, s0);
    CancelFirst(s, t, now);
    EnqueueFlows(s0, t, CancelTask, t.attempt, now);
    var u := RetriedTask(s1, t, budget, now);
    RetriedSame(s1, t, budget, now);
    RetriedRest(s1, t, budget, now);
    hide RetriedTask;
    RetriedCommand(s, s0, s1, i, u, now, c);
  }

  lemma RetriedCommand(s: State, s0: State, s1: State, i: nat, u: Task, now: nat, c: Command)
    requires Wf(s1) && Flows(s0, s1, now) && s0.nextId == s.nextId && i < |s1.tasks| && s1.tasks == s.tasks
    requires !UserCompleted(s.tasks[i]) && s.tasks[i].attempt < MAX_ATTEMPT
    requires var t := s.tasks[i];
      u.id == t.id && u.project == t.project && u.deps == t.deps && u.profile == t.profile && u.key == t.key
      && u.attempt == t.attempt + 1 && u.completion == NoSource
    requires forall x :: x in s1.commands && x.id >= s.nextId ==> x.task == u.id
    requires var s2 := Append(PutTask(s1, i, u), u.project, TaskAction(Retry), u.id, "", 0, false);
      c in (if u.status == Accepted then Enqueue(s2, u, StartTask, u.attempt, now) else s2).commands && c.id >= s.nextId
    ensures c.task == u.id
  {
    hide Wf, Append, Keeps, Enqueue, Flows;
    var s2 := Append(PutTask(s1, i, u), u.project, TaskAction(Retry), u.id, "", 0, false);
    PutAndAppendKeeps(s1, i, u, TaskAction(Retry));
    PutShape(s1, i, u, u.project, TaskAction(Retry));
    WfKept(s1, s2);
    if u.status == Accepted {
      EnqueueFlows(s2, u, StartTask, u.attempt, now);
      if c.id < s2.nextId { var _ := FlowsBack(s2, Enqueue(s2, u, StartTask, u.attempt, now), c, now); }
    }
  }

  /** A registration, too, makes commands only for its own runtime, which holds the lease it has just got, and
      only starts of accepted tasks. */
  lemma RegisterAddresses(s: State, p: string, r: string, env: Env, c: Command)
    requires Wf(s) && Reply(s, Register(p, r), env).Registered?
    requires c in After(s, Register(p, r), env).commands && c.id >= s.nextId
    ensures Addressee(After(s, Register(p, r), env).runtimes, c, env.now) && ForAccepted(s.tasks, p, c)
  {
    var s1 := TakeOver(s, p, r, env.now);
    TakeOverGrows(s, p, r, env.now);
    OldIds(s);
    assert Before(s1.commands, s.nextId);
    RestartFlows(s1, p, 0, env.now);
    hide Wf, TakeOver, Restart, FindCurrent;
    assert After(s, Register(p, r), env).commands == Restart(s1, p, 0, env.now).commands;
    assert After(s, Register(p, r), env).runtimes == Restart(s1, p, 0, env.now).runtimes;
    if c.id < s1.nextId {
      var _ := FlowsBack(s1, Restart(s1, p, 0, env.now), c, env.now);
      assert false;
    }
  }

  ghost predicate NewForAccepted(s: State, s': State, p: string) {
    forall c :: c in s'.commands && c.id >= s.nextId ==> ForAccepted(s.tasks, p, c)
  }

  lemma {:induction false} RestartFlows(s: State, p: string, i: nat, now: nat)
    requires Wf(s) && i <= |s.tasks|
    ensures var s' := Restart(s, p, i, now); Flows(s, s', now) && NewForAccepted(s, s', p)
    decreases |s.tasks| - i
  {
    hide Flows, Wf, Keeps, RestartOne, ForAccepted;
    if i == |s.tasks| {
      FlowsSame(s, s, now);
      OldIds(s);
    } else {
      var s1 := RestartOne(s, p, s.tasks[i], now);
      RestartOneFlows(s, p, i, now);
      RestartOneKeeps(s, p, s.tasks[i], now);
      WfKept(s, s1);
      RestartOneShape(s, p, s.tasks[i], now);
      RestartFlows(s1, p, i + 1, now);
      var s' := Restart(s1, p, i + 1, now);
      FlowsTrans(s, s1, s', now);
      forall c | c in s'.commands && c.id >= s.nextId ensures ForAccepted(s.tasks, p, c) {
        if c.id < s1.nextId {
          var x := FlowsBack(s1, s', c, now);
          SameFor(s.tasks, p, x, c);
        }
      }
    }
  }

  lemma SameFor(ts: seq<Task>, p: string, c: Command, d: Command)
    requires ForAccepted(ts, p, c) && d == c.(status := d.status)
    ensures ForAccepted(ts, p, d)
  {
  }

  lemma RestartOneShape(s: State, p: string, t: Task, now: nat)
    ensures RestartOne(s, p, t, now).tasks == s.tasks
  {
    hide DepStatus, FindReachable, Compacted;
  }

  lemma FlowsBack(s: State, s': State, c: Command, now: nat) returns (x: Command)
    requires Flows(s, s', now) && c in s'.commands && c.id < s.nextId
    ensures x in s.commands && x.id == c.id && c == x.(status := c.status)
  {
    assert Stays(s.commands, c);
    x :| x in s.commands && x.id == c.id && c == x.(status := c.status) && (c.status == x.status || Terminal(c));
  }

  lemma RestartOneFlows(s: State, p: string, i: nat, now: nat)
    requires Wf(s) && i < |s.tasks|
    ensures var s1 := RestartOne(s, p, s.tasks[i], now); Flows(s, s1, now) && NewForAccepted(s, s1, p)
  {
    var t := s.tasks[i];
    FlowsSame(s, s, now);
    OldIds(s);
    EnqueueFlows(s, t, StartTask, t.attempt, now);
    hide Flows, Wf, DepStatus;
    if RestartOne(s, p, t, now) != s {
      EnqueueProject(s, t, StartTask, t.attempt, now);
      forall c | c in RestartOne(s, p, t, now).commands && c.id >= s.nextId ensures ForAccepted(s.tasks, p, c) {
        EnqueuedCommand(s, t, StartTask, t.attempt, now, c);
      }
    }
  }

  lemma EnqueueProject(s: State, t: Task, kind: Kind, attempt: nat, now: nat)
    requires Wf(s)
    ensures forall c :: c in Enqueue(s, t, kind, attempt, now).commands && c.id >= s.nextId ==> c.project == t.project
  {
    OldIds(s);
    var i := FindReachable(s.runtimes, t.project, now);
    if i < |s.runtimes| {
      var c := Command(s.nextId, t.project, s.runtimes[i].runtime, t.id, kind, Queued, attempt, 0, 0);
      CompactedIn(s.commands + [c], t.project);
    }
    hide Compacted, Wf, DepStatus;
  }
}
