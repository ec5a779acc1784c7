/**
  What the scheduler keeps between requests: with a fixed budget, no task that could go on
  is left waiting in any project.  The one request that can break this is a retry, because
  no activation follows it, and it does exactly when another task gains by it.
 */
module TeamSettled {
  import opened TeamModel
  import opened TeamFrames
  import opened TeamSteps
  import opened TeamQuiet
  import opened TeamScheduler

  predicate DeadEnd(st: TaskStatus) { st in {Failed, Cancelled, Blocked} }

  // The task does not wait, or waits for a dependency, or does not fit.
  predicate Rests(ts: seq<Task>, budget: nat, i: nat)
    requires i < |ts|
  {
    var t := ts[i];
    Waiting(t.status) ==>
      || DepStatus(ts, t.deps) == WaitingDependency
      || (DepStatus(ts, t.deps) == Accepted && t.status == WaitingResource && !Fits(ts, budget, t.project, t.profile, t.id))
  }

  predicate AllRest(ts: seq<Task>, budget: nat) { forall i :: 0 <= i < |ts| ==> Rests(ts, budget, i) }

  predicate RestOutside(ts: seq<Task>, budget: nat, p: string) {
    forall i :: 0 <= i < |ts| && ts[i].project != p ==> Rests(ts, budget, i)
  }

  // Identifiers grow, and dependencies are earlier tasks of the same project.
  ghost predicate Linked(ts: seq<Task>) {
    Ids(ts) && forall i, d :: 0 <= i < |ts| && d in ts[i].deps ==> EarlierTask(ts, i, d)
  }

  predicate SamePlace(t: Task, u: Task) {
    u.id == t.id && u.project == t.project && u.deps == t.deps && u.profile == t.profile
  }

  // A change no other task can profit from: it completes nothing, fails nothing, frees nothing.
  predicate Quiet(t: Task, u: Task) {
    && SamePlace(t, u)
    && (u.status == Completed ==> t.status == Completed)
    && (DeadEnd(u.status) ==> DeadEnd(t.status))
    && (Counted(t.status) ==> Counted(u.status))
  }

  // What waits keeps waiting, and what is free waits at most for a dependency.
  lemma {:induction false} QuietDeps(ts: seq<Task>, i: nat, u: Task, deps: seq<nat>)
    requires i < |ts| && Quiet(ts[i], u) && DepStatus(ts, deps) != Blocked
    ensures DepStatus(ts[i := u], deps) == WaitingDependency || DepStatus(ts[i := u], deps) == DepStatus(ts, deps) == Accepted
    decreases |deps|
  {
    if |deps| == 0 {
    } else {
      FindPut(ts, i, u, deps[0]);
      if DepStatus(ts, deps[1..]) != Blocked { QuietDeps(ts, i, u, deps[1..]); }
    }
  }

  /** A quiet change leaves nothing behind that could go on. */
  lemma QuietPut(ts: seq<Task>, budget: nat, i: nat, u: Task)
    requires i < |ts| && AllRest(ts, budget) && Quiet(ts[i], u)
    requires Waiting(u.status) && u.status != ts[i].status ==> Rests(ts[i := u], budget, i)
    ensures AllRest(ts[i := u], budget)
  {
    var ts' := ts[i := u];
    forall j | 0 <= j < |ts| && Waiting(ts'[j].status) && (j == i ==> u.status == ts[i].status) ensures Rests(ts', budget, j) {
      assert Rests(ts, budget, j);
      hide DepStatus;
      QuietDeps(ts, i, u, ts[j].deps);
      UsedPut(ts, i, u, ts[j].project, ts[j].id);
    }
  }

  // Tasks of other projects do not notice.
  lemma {:induction false} DepsElsewhere(ts: seq<Task>, ts': seq<Task>, p: string, i: nat, deps: seq<nat>)
    requires Linked(ts) && |ts'| == |ts| && i < |ts| && ts[i].project != p
    requires forall j :: 0 <= j < |ts| ==> ts'[j].id == ts[j].id && (ts[j].project != p ==> ts'[j] == ts[j])
    requires forall d :: d in deps ==> d in ts[i].deps
    ensures DepStatus(ts', deps) == DepStatus(ts, deps)
    decreases |deps|
  {
    if |deps| == 0 {
    } else {
      var d := deps[0];
      assert EarlierTask(ts, i, d);
      var j :| 0 <= j < i && ts[j].id == d && ts[j].project == ts[i].project;
      FindOwn(ts, j);
      FindOwn(ts', j);
      DepsElsewhere(ts, ts', p, i, deps[1..]);
    }
  }

  lemma {:induction false} UsedElsewhere(ts: seq<Task>, ts': seq<Task>, p: string, q: string, exclude: nat)
    requires |ts'| == |ts| && q != p
    requires forall j :: 0 <= j < |ts| ==> ts'[j].project == ts[j].project && (ts[j].project != p ==> ts'[j] == ts[j])
    ensures Used(ts', q, exclude) == Used(ts, q, exclude)
  {
    if |ts| == 0 {
    } else {
      UsedElsewhere(ts[1..], ts'[1..], p, q, exclude);
    }
  }

  // Only tasks of project p differ.
  predicate Within(ts: seq<Task>, ts': seq<Task>, p: string) {
    |ts'| == |ts| &&
    forall j :: 0 <= j < |ts| ==> SamePlace(ts[j], ts'[j]) && (ts[j].project != p ==> ts'[j] == ts[j])
  }

  lemma WithinRests(ts: seq<Task>, ts': seq<Task>, budget: nat, p: string)
    requires Linked(ts) && Within(ts, ts', p) && RestOutside(ts, budget, p)
    ensures RestOutside(ts', budget, p)
  {
    forall i | 0 <= i < |ts| && ts'[i].project != p ensures Rests(ts', budget, i) {
      assert Rests(ts, budget, i);
      hide DepStatus, Linked, Ids;
      DepsElsewhere(ts, ts', p, i, ts[i].deps);
      UsedElsewhere(ts, ts', p, ts[i].project, ts[i].id);
    }
  }

  lemma LinkedWithin(ts: seq<Task>, ts': seq<Task>, p: string)
    requires Linked(ts) && Within(ts, ts', p)
    ensures Linked(ts')
  {
    forall i, d | 0 <= i < |ts'| && d in ts'[i].deps ensures EarlierTask(ts', i, d) {
      assert EarlierTask(ts, i, d);
      var j :| 0 <= j < i && ts[j].id == d && ts[j].project == ts[i].project;
      assert ts'[j].id == d;
    }
  }

  /** After an activation nothing that could go on is left waiting, if that was so in the other projects. */
  lemma ActivateRests(s: State, budget: nat, p: string, now: nat)
    requires Linked(s.tasks) && RestOutside(s.tasks, budget, p)
    ensures AllRest(Activate(s, budget, p, now).tasks, budget)
  {
    var s' := Activate(s, budget, p, now);
    ActivateSettles(s, budget, p, now);
    ActivateMoves(s, budget, p, now);
    assert Within(s.tasks, s'.tasks, p);
    WithinRests(s.tasks, s'.tasks, budget, p);
    hide Activate, Linked, DepStatus, Fits;
    forall i | 0 <= i < |s'.tasks| ensures Rests(s'.tasks, budget, i) {
      assert SettledAt(s', budget, p, i);
      DepStatusMeaning(s'.tasks, s'.tasks[i].deps);
    }
  }

  // One task is changed and its project activated.
  lemma PutThenActivate(s: State, s1: State, i: nat, u: Task, budget: nat, now: nat)
    requires Linked(s.tasks) && AllRest(s.tasks, budget) && i < |s.tasks| && SamePlace(s.tasks[i], u)
    requires s1.tasks == s.tasks[i := u]
    ensures AllRest(Activate(s1, budget, u.project, now).tasks, budget)
  {
    assert Within(s.tasks, s1.tasks, u.project);
    assert RestOutside(s.tasks, budget, u.project);
    hide AllRest, RestOutside, Linked, Within, Activate;
    WithinRests(s.tasks, s1.tasks, budget, u.project);
    LinkedWithin(s.tasks, s1.tasks, u.project);
    ActivateRests(s1, budget, u.project, now);
  }

  // ------------------------------------------------------------------ new and retried

  lemma FindAdded(ts: seq<Task>, t: Task, id: nat)
    requires FindTask(ts, id) < |ts|
    ensures FindTask(ts + [t], id) == FindTask(ts, id)
  {
    assert (ts + [t])[FindTask(ts, id)] == ts[FindTask(ts, id)];
  }

  // The identifiers of the dependencies are those of listed tasks.
  predicate DepsListed(ts: seq<Task>, deps: seq<nat>) { forall d :: d in deps ==> FindTask(ts, d) < |ts| }

  lemma LinkedListed(ts: seq<Task>, i: nat)
    requires Linked(ts) && i < |ts|
    ensures DepsListed(ts, ts[i].deps)
    ensures forall d :: d in ts[i].deps ==> FindTask(ts, d) < i
  {
    forall d | d in ts[i].deps ensures FindTask(ts, d) < i {
      assert EarlierTask(ts, i, d);
      var j :| 0 <= j < i && ts[j].id == d && ts[j].project == ts[i].project;
      FindOwn(ts, j);
    }
  }

  lemma AddedDeps(ts: seq<Task>, t: Task, deps: seq<nat>)
    requires DepsListed(ts, deps)
    ensures DepStatus(ts + [t], deps) == DepStatus(ts, deps)
  {
    forall d | d in deps ensures FindTask(ts + [t], d) == FindTask(ts, d) { FindAdded(ts, t, d); }
    DepsSame(ts, ts + [t], deps);
  }

  /** A new task starts out where the scheduler would put it, and disturbs no other. */
  lemma CreateRests(s: State, p: string, deps: seq<nat>, profile: Profile, key: string, owner: string, budget: nat, now: nat)
    requires Linked(s.tasks) && AllRest(s.tasks, budget) && DepsListed(s.tasks, deps)
    requires forall j :: 0 <= j < |s.tasks| ==> s.tasks[j].id < s.nextId
    ensures AllRest(s.tasks + [NewTask(s, p, deps, profile, key, owner, budget, now)], budget)
    ensures NewTask(s, p, deps, profile, key, owner, budget, now).status == Accepted ==> AllCompleted(s.tasks, deps)
  {
    var ts, t := s.tasks, NewTask(s, p, deps, profile, key, owner, budget, now);
    DepStatusMeaning(ts, deps);
    AddedDeps(ts, t, deps);
    UsedAdded(ts, t, p, t.id);
    UsedAbsent(ts, p, t.id);
    forall j | 0 <= j < |ts| && Waiting(ts[j].status) ensures Rests(ts + [t], budget, j) {
      assert Rests(ts, budget, j);
      LinkedListed(ts, j);
      hide DepStatus, DepsListed;
      AddedDeps(ts, t, ts[j].deps);
      UsedAdded(ts, t, ts[j].project, ts[j].id);
    }
  }

  // The position of the first dependency that is this task or not completed.
  function FirstOpenWith(ts: seq<Task>, deps: seq<nat>, id: nat): (k: nat)
    ensures k <= |deps|
    ensures forall j :: 0 <= j < k ==> deps[j] != id && CompletedTask(ts, deps[j])
    ensures k < |deps| ==> deps[k] == id || !CompletedTask(ts, deps[k])
  {
    if |deps| == 0 || deps[0] == id || !CompletedTask(ts, deps[0]) then 0 else 1 + FirstOpenWith(ts, deps[1..], id)
  }

  // Whether a retry of task i lets task j go on: by blocking a dependency that j then waits
  // for, or by giving back units that are enough for j.
  predicate Gains(ts: seq<Task>, budget: nat, i: nat, j: nat)
    requires i < |ts| && j < |ts|
  {
    var t, w := ts[i], ts[j];
    var d, k := DepStatus(ts, t.deps), FirstOpenWith(ts, w.deps, t.id);
    && j != i && Waiting(w.status)
    && (|| (d == Blocked && k < |w.deps| && w.deps[k] == t.id)
        || (w.project == t.project && Counted(t.status) && !(d == Accepted && Fits(ts, budget, t.project, t.profile, t.id))
            && AllCompleted(ts, w.deps) && Used(ts, w.project, w.id) + Units(w.profile) <= budget + Units(t.profile)))
  }

  predicate NobodyGains(ts: seq<Task>, budget: nat, i: nat)
    requires i < |ts|
  {
    forall j :: 0 <= j < |ts| ==> !Gains(ts, budget, i, j)
  }

  // What a retry makes of its task.
  predicate Retried(ts: seq<Task>, budget: nat, i: nat, u: Task)
    requires i < |ts|
  {
    var t := ts[i];
    var d := DepStatus(ts, t.deps);
    SamePlace(t, u) && u.status == if d == Accepted && !Fits(ts, budget, t.project, t.profile, t.id) then WaitingResource else d
  }

  lemma RetriedFirst(ts: seq<Task>, i: nat, u: Task, d: nat)
    requires Ids(ts) && i < |ts| && u.id == ts[i].id
    ensures var ts' := ts[i := u];
      var j := FindTask(ts', d);
      if d == u.id then j == i && ts'[j] == u else j == FindTask(ts, d) && (j < |ts| ==> ts'[j] == ts[j])
  {
    FindPut(ts, i, u, d);
    FindOwn(ts, i);
  }

  lemma {:induction false} RetriedDeps(ts: seq<Task>, i: nat, u: Task, deps: seq<nat>)
    requires Ids(ts) && i < |ts| && u.id == ts[i].id && u.status in {Accepted, WaitingDependency, WaitingResource, Blocked}
    ensures var k := FirstOpenWith(ts, deps, u.id);
      DepStatus(ts[i := u], deps) ==
        if k == |deps| then Accepted
        else if deps[k] == u.id then if u.status == Blocked then Blocked else WaitingDependency
        else if DeadTask(ts, deps[k]) then Blocked else WaitingDependency
    decreases |deps|
  {
    if |deps| == 0 {
    } else {
      RetriedFirst(ts, i, u, deps[0]);
      RetriedDeps(ts, i, u, deps[1..]);
      hide FindTask, Ids;
    }
  }

  // The first open dependency is the same but for the retried task.
  lemma OpenWith(ts: seq<Task>, deps: seq<nat>, id: nat)
    ensures var k := FirstOpenWith(ts, deps, id);
      && (k == |deps| ==> DepStatus(ts, deps) == Accepted)
      && (k < |deps| && deps[k] != id ==> DepStatus(ts, deps) == if DeadTask(ts, deps[k]) then Blocked else WaitingDependency)
    ensures AllCompleted(ts, deps) && !CompletedTask(ts, id) ==> FirstOpenWith(ts, deps, id) == |deps|
  {
    DepStatusMeaning(ts, deps);
    hide DepStatus;
    var k, f := FirstOpenWith(ts, deps, id), FirstOpen(ts, deps);
    assert k <= f;
  }

  // A waiting task other than the retried one rests afterwards exactly if it gains nothing.
  lemma OtherRests(ts: seq<Task>, budget: nat, i: nat, u: Task, j: nat)
    requires Ids(ts) && i < |ts| && j < |ts| && j != i && Rests(ts, budget, j) && Retried(ts, budget, i, u)
    ensures Rests(ts[i := u], budget, j) <==> !Gains(ts, budget, i, j)
  {
    var w := ts[j];
    RetriedDeps(ts, i, u, w.deps);
    OpenWith(ts, w.deps, u.id);
    DepStatusMeaning(ts, w.deps);
    FindOwn(ts, i);
    UsedPut(ts, i, u, w.project, w.id);
    assert w.id != u.id;
    hide Ids, Used, DepStatus, FirstOpenWith;
  }

  lemma OwnRests(ts: seq<Task>, budget: nat, i: nat, u: Task)
    requires Linked(ts) && i < |ts| && Retried(ts, budget, i, u)
    ensures Rests(ts[i := u], budget, i)
  {
    var t := ts[i];
    LinkedListed(ts, i);
    forall d | d in t.deps ensures FindTask(ts[i := u], d) == FindTask(ts, d) { FindPut(ts, i, u, d); }
    DepsSame(ts, ts[i := u], t.deps);
    UsedPut(ts, i, u, t.project, t.id);
    hide Linked, Used, DepsListed, FindTask;
  }

  lemma RetriedRests(ts: seq<Task>, budget: nat, i: nat, u: Task)
    requires Linked(ts) && AllRest(ts, budget) && i < |ts| && Retried(ts, budget, i, u)
    ensures AllRest(ts[i := u], budget) <==> NobodyGains(ts, budget, i)
  {
    var ts' := ts[i := u];
    OwnRests(ts, budget, i, u);
    forall j | 0 <= j < |ts| ensures Rests(ts', budget, j) <==> !Gains(ts, budget, i, j) {
      assert Rests(ts, budget, j);
      if j != i { OtherRests(ts, budget, i, u, j); }
    }
    hide Rests, Gains, Linked;
    if j :| 0 <= j < |ts| && Gains(ts, budget, i, j) { assert !Rests(ts', budget, j); }
    if j :| 0 <= j < |ts| && !Rests(ts', budget, j) { assert Gains(ts, budget, i, j); }
  }

  /** A retry leaves no task waiting that could go on exactly when nobody gains by it, which can be read off
      the tasks before it. */
  lemma RetryRests(s: State, i: nat, budget: nat, now: nat)
    requires Linked(s.tasks) && AllRest(s.tasks, budget) && i < |s.tasks|
    ensures AllRest(ActRetry(s, i, budget, now).tasks, budget) <==> NobodyGains(s.tasks, budget, i)
  {
    hide Linked, AllRest, NobodyGains, DepStatus, Fits, FindReachable, Compacted, LastN;
    var t := s.tasks[i];
    var s1 := Enqueue(s.(commands := Supersede(s.commands, t.id)), t, CancelTask, t.attempt, now);
    var u := RetriedTask(s1, t, budget, now);
    assert ActRetry(s, i, budget, now).tasks == s.tasks[i := u];
    RetriedRests(s.tasks, budget, i, u);
  }

  // -------------------------------------------------------------------- agent events

  // An event that sets off no activation makes a quiet change.
  lemma MovedQuietly(s: State, p: string, e: RawEvent, now: nat)
    requires e.RawEvent? && FindTask(s.tasks, e.task) < |s.tasks|
    ensures var t := s.tasks[FindTask(s.tasks, e.task)];
      var u := MovedBy(t, p, e, now);
      && SamePlace(t, u) && (t.project != p ==> u == t)
      && (!SetsOff(s, p, e) ==> Quiet(t, u) && (Waiting(u.status) ==> u.status == t.status))
  {
  }

  lemma EventRests(s: State, p: string, r: string, e: RawEvent, budget: nat, now: nat)
    requires Linked(s.tasks) && AllRest(s.tasks, budget) && e.RawEvent?
    ensures AllRest(ApplyEvent(s, p, r, e, budget, now).tasks, budget)
  {
    EventShape(s, p, r, e, budget, now);
    var i, s1 := FindTask(s.tasks, e.task), EventPut(s, p, r, e, now);
    assert RestOutside(s.tasks, budget, p);
    if i < |s.tasks| {
      var t, u := s.tasks[i], MovedBy(s.tasks[i], p, e, now);
      MovedQuietly(s, p, e, now);
      assert s1.tasks == s.tasks[i := u];
      hide Linked, AllRest, RestOutside, Activate, ApplyEvent, EventPut, MovedBy, SetsOff, FindTask, Ids;
      if !SetsOff(s, p, e) {
        QuietPut(s.tasks, budget, i, u);
      } else if t.project == p {
        PutThenActivate(s, s1, i, u, budget, now);
      } else {
        assert s.tasks[i := u] == s.tasks;
        ActivateRests(s1, budget, p, now);
      }
    } else {
      assert s1.tasks == s.tasks;
      hide Linked, AllRest, RestOutside, Activate, ApplyEvent, EventPut, MovedBy, FindTask, Ids;
      if SetsOff(s, p, e) { ActivateRests(s1, budget, p, now); }
    }
  }

  lemma WfLinked(s: State)
    requires Wf(s)
    ensures Linked(s.tasks)
  {
  }

  lemma {:induction false} EventsRest(s: State, p: string, r: string, es: seq<RawEvent>, budget: nat, now: nat)
    requires Wf(s) && AllRest(s.tasks, budget) && Objects(es)
    ensures AllRest(ApplyAll(s, p, r, es, budget, now).tasks, budget)
    decreases |es|
  {
    hide Wf, Keeps, AllRest, ApplyEvent, Linked;
    if |es| == 0 {
    } else {
      var s1 := ApplyEvent(s, p, r, es[0], budget, now);
      WfLinked(s);
      EventRests(s, p, r, es[0], budget, now);
      ApplyEventKeeps(s, p, r, es[0], budget, now);
      WfKept(s, s1);
      EventsRest(s1, p, r, es[1..], budget, now);
    }
  }

  // ------------------------------------------------------------------------ requests

  // A retry, if that is what is served and saved, from which nobody gains.
  predicate Calm(s: State, req: Request, env: Env) {
    req.Act? && req.action.Retry? && env.saves && Handle(s, req, env).Write? ==>
      NobodyGains(s.tasks, env.budget, FindTask(s.tasks, req.task))
  }

  lemma ActionRests(s: State, i: nat, action: Action, budget: nat, now: nat)
    requires Linked(s.tasks) && AllRest(s.tasks, budget) && i < |s.tasks|
    ensures AllRest(Acted(s, i, action, budget, now).tasks, budget) <==> (action.Retry? ==> NobodyGains(s.tasks, budget, i))
  {
    var t := s.tasks[i];
    match action
    case Input(_) => QuietPut(s.tasks, budget, i, t.(updatedAt := now));
    case Approve => QuietPut(s.tasks, budget, i, t.(approval := Approved, updatedAt := now));
    case Retry => RetryRests(s, i, budget, now);
    case Cancel =>
      var u := t.(status := Cancelled, cancellation := Manual, updatedAt := now);
      var s1 := Append(PutTask(s, i, u), u.project, TaskAction(Cancel), u.id, "", 0, false);
      PutThenActivate(s, s1.(commands := Supersede(s1.commands, u.id)), i, u, budget, now);
    case Complete =>
      var u := t.(status := Completed, completion := Manual, updatedAt := now);
      var s1 := Append(PutTask(s, i, u), u.project, TaskAction(Complete), u.id, "", 0, false);
      var s2 := Enqueue(s1.(commands := Supersede(s1.commands, u.id)), u, CancelTask, u.attempt, now);
      PutThenActivate(s, s2, i, u, budget, now);
    case Reject =>
      var u := t.(approval := Rejected, status := Blocked, updatedAt := now);
      PutThenActivate(s, Append(PutTask(s, i, u), u.project, TaskAction(Reject), u.id, "", 0, false), i, u, budget, now);
  }

  lemma EventsHandled(s: State, p: string, r: string, token: nat, batch: seq<RawEvent>, budget: nat, now: nat)
    requires Wf(s) && AllRest(s.tasks, budget)
    ensures var o := HandleEvents(s, p, r, token, batch, budget, now); o.Write? ==> AllRest(o.next.tasks, budget)
  {
    hide AllRest, Wf;
    if HandleEvents(s, p, r, token, batch, budget, now).Write? {
      var last := s.runtimes[FindRuntime(s.runtimes, p, r)].lastSequence;
      ValidObjects(s.tasks, p, batch, last, last);
      EventsRest(s, p, r, Selected(batch, last), budget, now);
    }
  }

  lemma CreateHandled(s: State, p: string, deps: seq<nat>, profile: Profile, key: string, owner: string, budget: nat, now: nat)
    requires Wf(s) && AllRest(s.tasks, budget)
    ensures var o := HandleCreate(s, p, deps, profile, key, owner, budget, now); o.Write? ==> AllRest(o.next.tasks, budget)
  {
    if HandleCreate(s, p, deps, profile, key, owner, budget, now).Write? {
      assert DepsListed(s.tasks, deps) by { assert forall k :: 0 <= k < |deps| ==> InProject(s.tasks, p, deps[k]); }
      CreateRests(s, p, deps, profile, key, owner, budget, now);
      hide AllRest;
    }
  }

  lemma HandleRests(s: State, req: Request, env: Env)
    requires Wf(s) && AllRest(s.tasks, env.budget)
    ensures var o := Handle(s, req, env);
      o.Write? ==> (AllRest(o.next.tasks, env.budget)
                    <==> (req.Act? && req.action.Retry? ==> NobodyGains(s.tasks, env.budget, FindTask(s.tasks, req.task))))
  {
    WfLinked(s);
    hide Wf, AllRest, Linked, FindRuntime, FindCurrent, AckAll, Compacted, ActionGuard, Acted, HoldsLease, AnyExpired, LastN,
         HandleEvents, HandleCreate, NobodyGains, TakeOver, Restart, ExpireFrom, Deliver, DepStatus, FindTask;
    match req
    case Register(p, r) => RestartTasks(TakeOver(s, p, r, env.now), p, 0, env.now);
    case Heartbeat(_, _, _, _) =>
    case Unregister(_, _, _) =>
    case Events(p, r, token, batch) => EventsHandled(s, p, r, token, batch, env.budget, env.now);
    case Expire => ExpireTasks(s, 0, env.now);
    case Create(p, deps, profile, key, owner) => CreateHandled(s, p, deps, profile, key, owner, env.budget, env.now);
    case Poll(_, _, _, _) =>
    case Ack(_, _, _, _) =>
    case Act(task, action) =>
      var i := FindTask(s.tasks, task);
      if i < |s.tasks| { ActionRests(s, i, action, env.budget, env.now); }
  }

  /** A request leaves no task waiting that could go on exactly when it is not a saved retry from which
      somebody gains. */
  lemma StepRests(s: State, req: Request, env: Env)
    requires Wf(s) && AllRest(s.tasks, env.budget)
    ensures AllRest(After(s, req, env).tasks, env.budget) <==> Calm(s, req, env)
  {
    WfLinked(s);
    HandleRests(s, req, env);
    hide Handle, Wf, Linked, NobodyGains;
    var i := if req.Act? then FindTask(s.tasks, req.task) else |s.tasks|;
    if i < |s.tasks| { QuietPut(s.tasks, env.budget, i, s.tasks[i].(updatedAt := env.now)); }
    hide AllRest;
  }

  // Every request is calm in the state it meets.
  predicate CalmRun(s: State, calls: seq<Call>)
    decreases |calls|
  {
    |calls| > 0 ==>
      Calm(s, calls[0].req, calls[0].env) && CalmRun(After(s, calls[0].req, calls[0].env), calls[1..])
  }

  predicate RestsThroughout(s: State, calls: seq<Call>, budget: nat)
    decreases |calls|
  {
    && AllRest(s.tasks, budget)
    && (|calls| > 0 ==> RestsThroughout(After(s, calls[0].req, calls[0].env), calls[1..], budget))
  }

  /** With a fixed budget no task that could go on is left waiting in any state of a run exactly when nobody
      gains by a retry in it. */
  lemma {:induction false} RestsOverRuns(s: State, calls: seq<Call>, budget: nat)
    requires Wf(s) && AllRest(s.tasks, budget) && FixedBudget(calls, budget)
    ensures RestsThroughout(s, calls, budget) <==> CalmRun(s, calls)
    ensures CalmRun(s, calls) ==> AllRest(Run(s, calls).tasks, budget)
    decreases |calls|
  {
    hide Wf, Grows, AllRest, After, Calm;
    if |calls| == 0 {
    } else {
      assert calls[0].env.budget == budget;
      var s1 := After(s, calls[0].req, calls[0].env);
      StepRests(s, calls[0].req, calls[0].env);
      StepGrows(s, calls[0].req, calls[0].env);
      if AllRest(s1.tasks, budget) { RestsOverRuns(s1, calls[1..], budget); }
    }
  }

  /** In every state such a run reaches from the start: a task still waiting either waits for a dependency that
      has not failed, or has all its dependencies and does not fit the budget beside the counted tasks. */
  lemma NothingReadyWaits(calls: seq<Call>, budget: nat, i: nat)
    requires FixedBudget(calls, budget) && CalmRun(EMPTY, calls) && i < |Run(EMPTY, calls).tasks|
    ensures var ts := Run(EMPTY, calls).tasks;
      var t := ts[i];
      Waiting(t.status) ==>
        || DepStatus(ts, t.deps) == WaitingDependency
        || (AllCompleted(ts, t.deps) && t.status == WaitingResource && Used(ts, t.project, t.id) + Units(t.profile) > budget)
  {
    hide Run;
    RestsOverRuns(EMPTY, calls, budget);
    var ts := Run(EMPTY, calls).tasks;
    assert Rests(ts, budget, i);
    DepStatusMeaning(ts, ts[i].deps);
  }

  const LOST := Task(2, "p", Failed, 1, [], Small, "", NoSource, NoSource, Undecided, "", LEASE)
  const HUGE := Task(3, "p", Running, 1, [2], Large, "", NoSource, NoSource, Undecided, "", LEASE)
  const TINY := Task(4, "p", WaitingResource, 1, [], Small, "", NoSource, NoSource, Undecided, "", 2 * LEASE)

  const STARTS := RawEvent(1, TaskStarted, 3, NoAttempt, true)
  const FAILS := RawEvent(2, TaskFailed, 2, NoAttempt, true)

  const FIRST := Env(4, 0, true)
  const SECOND := Env(4, LEASE, true)
  const THIRD := Env(4, 2 * LEASE, true)

  // A small task, a large one that depends on it, the large one started and the small one
  // failed, and another small one.
  const THREE_TASKS := [Call(Register("p", "r"), FIRST), Call(Create("p", [], Small, "", ""), SECOND),
                        Call(Create("p", [2], Large, "", ""), SECOND), Call(Events("p", "r", 1, [STARTS, FAILS]), SECOND),
                        Call(Create("p", [], Small, "", ""), THIRD)]

  lemma LostAndHuge(a: Task, b: Task)
    requires a.id == 2 && b.id == 3 && a.project == b.project == "p" && a.profile == Small && b.profile == Large
    ensures Used([a, b], "p", 0) == (if Counted(a.status) then 1 else 0) + (if Counted(b.status) then 4 else 0)
    ensures FindTask([a, b], 2) == 0 && FindTask([a, b], 3) == 1 && FindTask([a], 2) == 0
    ensures a.status == Accepted ==> DepStatus([a], [2]) == WaitingDependency
  {
    assert [a, b][1..] == [b] && [b][1..] == [];
    assert Used([b], "p", 0) == if Counted(b.status) then 4 else 0;
  }

  lemma TwoCreated(s: State)
    requires OutOfReach(s, 0, LEASE) && s.tasks == [] && s.nextId == 2
    ensures var s' := After(After(s, Create("p", [], Small, "", ""), SECOND), Create("p", [2], Large, "", ""), SECOND);
      && OutOfReach(s', 0, LEASE) && s'.nextId == 4
      && s'.tasks == [LOST.(status := Accepted), HUGE.(status := WaitingDependency)]
  {
    QuietCreate(s, [], Small, SECOND, 0, LEASE);
    var s1 := After(s, Create("p", [], Small, "", ""), SECOND);
    assert s1.tasks == [LOST.(status := Accepted)];
    LostAndHuge(LOST.(status := Accepted), HUGE);
    QuietCreate(s1, [2], Large, SECOND, 0, LEASE);
    hide After, OutOfReach, DepStatus;
  }

  lemma BothApplied(s: State)
    requires s.tasks == [LOST.(status := Accepted), HUGE.(status := WaitingDependency)]
    ensures var s' := ApplyEvent(ApplyEvent(s, "p", "r", STARTS, 4, LEASE), "p", "r", FAILS, 4, LEASE);
      s'.tasks == [LOST, HUGE] && s'.commands == s.commands && s'.runtimes == s.runtimes && s'.nextId == s.nextId
  {
    LostAndHuge(s.tasks[0], s.tasks[1]);
    LoneEvent(s, STARTS, 1, 4, LEASE);
    var s1 := ApplyEvent(s, "p", "r", STARTS, 4, LEASE);
    LostAndHuge(s1.tasks[0], s1.tasks[1]);
    hide ApplyEvent, FindTask, Used, DepStatus;
    LoneEvent(s1, FAILS, 0, 4, LEASE);
  }

  lemma TwoApplied(s: State, a: RawEvent, b: RawEvent)
    requires a.RawEvent? && b.RawEvent? && a.sequence == 1 && b.sequence == 2
    ensures Selected([a, b], 0) == [a, b] && LastTaken([a, b], 0) == 2
    ensures ApplyAll(s, "p", "r", [a, b], 4, LEASE) ==
      ApplyEvent(ApplyEvent(s, "p", "r", a, 4, LEASE), "p", "r", b, 4, LEASE)
  {
    hide ApplyEvent;
    assert [a, b][1..] == [b] && [b][1..] == [];
    assert Selected([b], 1) == [b] && LastTaken([b], 1) == 2;
    assert ApplyAll(ApplyEvent(s, "p", "r", a, 4, LEASE), "p", "r", [b], 4, LEASE) ==
      ApplyEvent(ApplyEvent(s, "p", "r", a, 4, LEASE), "p", "r", b, 4, LEASE);
  }

  lemma StartedAndFailed(s: State)
    requires OutOfReach(s, 0, LEASE) && s.nextId == 4
    requires s.tasks == [LOST.(status := Accepted), HUGE.(status := WaitingDependency)]
    ensures var s' := After(s, Events("p", "r", 1, [STARTS, FAILS]), SECOND);
      OutOfReach(s', 2, 2 * LEASE) && s'.nextId == 4 && s'.tasks == [LOST, HUGE]
  {
    hide ApplyEvent, ApplyAll, Selected, LastTaken, After, Validate;
    BothApplied(s);
    TwoApplied(s, STARTS, FAILS);
    BatchValid(s.tasks);
    QuietEvents(s, [STARTS, FAILS], SECOND, 0);
  }

  lemma BatchValid(ts: seq<Task>)
    requires ts == [LOST.(status := Accepted), HUGE.(status := WaitingDependency)]
    ensures Validate(ts, "p", [STARTS, FAILS], 0, 0) == Valid
  {
    LostAndHuge(ts[0], ts[1]);
    assert [STARTS, FAILS][1..] == [FAILS] && [FAILS][1..] == [];
    hide FindTask;
    assert Validate(ts, "p", [], 0, 2) == Valid;
    assert Validate(ts, "p", [FAILS], 0, 1) == Valid;
  }

  lemma ThreeTasks()
    ensures var s := Run(EMPTY, THREE_TASKS);
      s.tasks == [LOST, HUGE, TINY] && OutOfReach(s, 2, 2 * LEASE)
  {
    FirstRegister(FIRST);
    var s1 := After(EMPTY, THREE_TASKS[0].req, FIRST);
    TwoCreated(s1);
    var s2 := After(s1, THREE_TASKS[1].req, SECOND);
    var s3 := After(s2, THREE_TASKS[2].req, SECOND);
    StartedAndFailed(s3);
    var s4 := After(s3, THREE_TASKS[3].req, SECOND);
    QuietCreate(s4, [], Small, THIRD, 2, 2 * LEASE);
    LostAndHuge(LOST, HUGE);
    assert s4.tasks + [NewTask(s4, "p", [], Small, "", "", 4, 2 * LEASE)] == [LOST, HUGE, TINY];
    hide After, OutOfReach, Used, DepStatus;
    var s5 := After(s4, THREE_TASKS[4].req, THIRD);
    RunFive(EMPTY, THREE_TASKS[0], THREE_TASKS[1], THREE_TASKS[2], THREE_TASKS[3], THREE_TASKS[4]);
  }

  lemma RunFive(s: State, a: Call, b: Call, c: Call, d: Call, e: Call)
    ensures Run(s, [a, b, c, d, e]) ==
      After(After(After(After(After(s, a.req, a.env), b.req, b.env), c.req, c.env), d.req, d.env), e.req, e.env)
  {
    hide After;
    assert Run(s, []) == s;
    RunLast(s, [], a);
    RunLast(s, [a], b);
    RunLast(s, [a, b], c);
    RunLast(s, [a, b, c], d);
    RunLast(s, [a, b, c, d], e);
    assert [] + [a] == [a] && [a] + [b] == [a, b] && [a, b] + [c] == [a, b, c];
    assert [a, b, c] + [d] == [a, b, c, d] && [a, b, c, d] + [e] == [a, b, c, d, e];
  }

  lemma LostHugeTiny(u: Task)
    requires u.id == 3 && u.project == "p" && u.profile == Large && u.deps == [2]
    ensures var ts := [LOST, u, TINY];
      && Used(ts, "p", 4) == (if Counted(u.status) then 4 else 0) && FindTask(ts, 3) == 1
      && DepStatus(ts, []) == Accepted && DepStatus(ts, [2]) == Blocked
  {
    var ts := [LOST, u, TINY];
    assert ts[1..] == [u, TINY] && ts[1..][1..] == [TINY] && [TINY][1..] == [];
    assert Used([TINY], "p", 4) == 0;
    assert Used([u, TINY], "p", 4) == Charge(u, "p", 4) + 0;
    assert FindTask(ts, 2) == 0;
  }

  lemma RetryAllowed(s: State)
    requires s.commands == []
    ensures ActionGuard(s, HUGE, Retry) == Done
  {
  }

  lemma RetryGranted(s: State)
    requires s.tasks == [LOST, HUGE, TINY] && s.commands == []
    ensures After(s, Act(3, Retry), THIRD) == ActRetry(s, 1, 4, 2 * LEASE)
  {
    assert FindTask(s.tasks, 3) == 1 by { LostHugeTiny(HUGE); }
    RetryAllowed(s);
    hide ActRetry, FindTask, ActionGuard, After;
    assert HandleAction(s, 3, Retry, 4, 2 * LEASE) == Write(ActRetry(s, 1, 4, 2 * LEASE), Done);
    ActServed(s, 3, Retry, THIRD, ActRetry(s, 1, 4, 2 * LEASE));
  }

  lemma ActServed(s: State, task: nat, action: Action, env: Env, next: State)
    requires HandleAction(s, task, action, env.budget, env.now) == Write(next, Done) && env.saves
    ensures After(s, Act(task, action), env) == next
  {
    hide HandleAction;
  }

  lemma RetryBlocksHuge(s: State)
    requires s.tasks == [LOST, HUGE, TINY] && s.commands == []
    ensures AllRest(s.tasks, 4) && !AllRest(After(s, Act(3, Retry), THIRD).tasks, 4)
  {
    hide Used, After, LastN, Compacted, FindReachable, FindTask;
    var ts := s.tasks;
    RetryGranted(s);
    LostHugeTiny(HUGE);
    var u := RetriedTask(Enqueue(s.(commands := Supersede(s.commands, 3)), HUGE, CancelTask, 1, 2 * LEASE), HUGE, 4, 2 * LEASE);
    assert ActRetry(s, 1, 4, 2 * LEASE).tasks == ts[1 := u];
    LostHugeTiny(u);
    assert ts[1 := u] == [LOST, u, TINY];
    hide DepStatus, ActRetry;
    assert !Rests([LOST, u, TINY], 4, 2);
  }

  /** The retry that breaks it, in a run from the start: a running task that used up the budget is retried
      after its dependency has failed.  It is blocked, and the task that waited for its share goes on
      waiting. */
  lemma RetryLeavesReadyWaiting()
    ensures AllRest(Run(EMPTY, THREE_TASKS).tasks, 4)
    ensures !AllRest(Run(EMPTY, THREE_TASKS + [Call(Act(3, Retry), THIRD)]).tasks, 4)
  {
    hide AllRest, After;
    ThreeTasks();
    RetryBlocksHuge(Run(EMPTY, THREE_TASKS));
    RunLast(EMPTY, THREE_TASKS, Call(Act(3, Retry), THIRD));
  }
}
