/**
  What every request keeps.  `Wf` is the invariant of all reachable states and
  `Grows` the relation between any state and any later one; both are proved for
  each elementary change first and carried through the handlers from there.
 */
module TeamFrames {
  import opened TeamModel

  // ----------------------------------------------------------------- the invariant

  predicate EarlierTask(ts: seq<Task>, i: nat, d: nat)
    requires i < |ts|
  {
    exists j :: 0 <= j < i && ts[j].id == d && ts[j].project == ts[i].project
  }

  ghost predicate TasksWf(ts: seq<Task>, n: nat) {
    && (forall i :: 0 <= i < |ts| ==> 1 <= ts[i].id < n)
    && (forall i, j :: 0 <= i < j < |ts| ==> ts[i].id < ts[j].id)
    && (forall i :: 0 <= i < |ts| ==> 1 <= ts[i].attempt <= MAX_ATTEMPT)
    && (forall i :: 0 <= i < |ts| ==> ts[i].completion == Manual ==> ts[i].status == Completed)
    && (forall i, d :: 0 <= i < |ts| && d in ts[i].deps ==> EarlierTask(ts, i, d))
  }

  ghost predicate CommandsWf(cs: seq<Command>, n: nat) {
    && (forall i :: 0 <= i < |cs| ==> 1 <= cs[i].id < n)
    && (forall i, j :: 0 <= i < j < |cs| ==> cs[i].id < cs[j].id)
  }

  ghost predicate RuntimesWf(rs: seq<Runtime>, n: nat) {
    && (forall i :: 0 <= i < |rs| ==> 1 <= rs[i].token < n)
    && (forall i, j :: 0 <= i < j < |rs| ==> !(rs[i].project == rs[j].project && rs[i].runtime == rs[j].runtime))
  }

  ghost predicate Wf(s: State) {
    && s.nextId >= 1
    && TasksWf(s.tasks, s.nextId)
    && CommandsWf(s.commands, s.nextId)
    && RuntimesWf(s.runtimes, s.nextId)
  }

  // ------------------------------------------------------------------ the relation

  predicate UserCompleted(t: Task) { t.status == Completed && t.completion == Manual }

  predicate SameTask(t: Task, t': Task) {
    && t'.id == t.id && t'.project == t.project && t'.deps == t.deps && t'.profile == t.profile && t'.key == t.key
    && t.attempt <= t'.attempt
    && (UserCompleted(t) ==> UserCompleted(t') && t'.attempt == t.attempt)
  }

  ghost predicate TasksKept(ts: seq<Task>, ts': seq<Task>) {
    |ts| <= |ts'| && forall i :: 0 <= i < |ts| ==> SameTask(ts[i], ts'[i])
  }

  // A finished command does not change at all; an unfinished one keeps what it is about.
  predicate SameCommand(c: Command, c': Command) {
    && c'.id == c.id && c'.project == c.project && c'.task == c.task && c'.kind == c.kind && c'.attempt == c.attempt
    && (Terminal(c) ==> c' == c)
  }

  ghost predicate From(cs: seq<Command>, c': Command) {
    exists c :: c in cs && SameCommand(c, c')
  }

  ghost predicate CommandsKept(cs: seq<Command>, cs': seq<Command>, n: nat) {
    forall c' :: c' in cs' && c'.id < n ==> From(cs, c')
  }

  predicate SameLease(r: Runtime, r': Runtime) {
    r'.project == r.project && r'.runtime == r.runtime && r'.token == r.token
  }

  ghost predicate LeasedBefore(rs: seq<Runtime>, r': Runtime) {
    exists r :: r in rs && SameLease(r, r')
  }

  ghost predicate RuntimesKept(rs: seq<Runtime>, rs': seq<Runtime>, n: nat) {
    forall r' :: r' in rs' && r'.token < n ==> LeasedBefore(rs, r')
  }

  predicate Numbered(es: seq<Event>, first: nat) {
    forall k :: 0 <= k < |es| ==> es[k].sequence == first + k
  }

  // `added` was appended to the project's log between the two states.
  ghost predicate LogAdds(s: State, s': State, p: string, added: seq<Event>) {
    && Numbered(added, Counter(s, p) + 1)
    && Counter(s', p) == Counter(s, p) + |added|
    && Log(s', p) == LastN(Log(s, p) + added, EVENT_LIMIT)
  }

  predicate SameLog(s: State, s': State, p: string) {
    Log(s', p) == Log(s, p) && Counter(s', p) == Counter(s, p)
  }

  // Where nothing is appended the log is left as it is, whatever its length.
  ghost predicate LogGrows(s: State, s': State, p: string) {
    SameLog(s, s', p) || exists added :: LogAdds(s, s', p, added)
  }

  ghost predicate LogsGrow(s: State, s': State) { forall p :: LogGrows(s, s', p) }

  ghost predicate Grows(s: State, s': State) {
    && s.nextId <= s'.nextId
    && TasksKept(s.tasks, s'.tasks)
    && CommandsKept(s.commands, s'.commands, s.nextId)
    && RuntimesKept(s.runtimes, s'.runtimes, s.nextId)
    && LogsGrow(s, s')
  }

  // Every unfinished command is addressed to an entry of its project that is not fenced.
  ghost predicate Live(rs: seq<Runtime>, p: string, r: string) {
    exists x :: x in rs && x.project == p && x.runtime == r && x.status != Fenced
  }

  ghost predicate Addressed(rs: seq<Runtime>, cs: seq<Command>) {
    forall c :: c in cs && !Terminal(c) ==> Live(rs, c.project, c.runtime)
  }

  // The effect of any part of a handler that leaves the runtime entries alone.
  ghost predicate Keeps(s: State, s': State) {
    && Wf(s') && Grows(s, s')
    && s'.runtimes == s.runtimes
    && (Addressed(s.runtimes, s.commands) ==> Addressed(s.runtimes, s'.commands))
  }

  // -------------------------------------------------------------- sequence lemmas

  lemma LastNOfAppend<T>(a: seq<T>, b: seq<T>, n: nat)
    ensures LastN(LastN(a, n) + b, n) == LastN(a + b, n)
  {
  }

  lemma LogAddsTrans(s: State, s1: State, s2: State, p: string, a: seq<Event>, b: seq<Event>)
    requires LogAdds(s, s1, p, a) && LogAdds(s1, s2, p, b)
    ensures LogAdds(s, s2, p, a + b)
  {
    LastNOfAppend(Log(s, p) + a, b, EVENT_LIMIT);
    assert Log(s, p) + a + b == Log(s, p) + (a + b);
  }

  lemma LogGrowsTrans(s: State, s1: State, s2: State, p: string)
    requires LogGrows(s, s1, p) && LogGrows(s1, s2, p)
    ensures LogGrows(s, s2, p)
  {
    if SameLog(s, s1, p) {
      if !SameLog(s1, s2, p) {
        var b :| LogAdds(s1, s2, p, b);
        assert LogAdds(s, s2, p, b);
      }
    } else {
      var a :| LogAdds(s, s1, p, a);
      if SameLog(s1, s2, p) {
        assert LogAdds(s, s2, p, a);
      } else {
        var b :| LogAdds(s1, s2, p, b);
        LogAddsTrans(s, s1, s2, p, a, b);
      }
    }
  }

  lemma CommandsKeptTrans(a: seq<Command>, b: seq<Command>, c: seq<Command>, n: nat, m: nat)
    requires CommandsKept(a, b, n) && CommandsKept(b, c, m) && n <= m
    ensures CommandsKept(a, c, n)
  {
    forall z | z in c && z.id < n ensures From(a, z) {
      assert From(b, z);
      var y :| y in b && SameCommand(y, z);
      assert From(a, y);
      var x :| x in a && SameCommand(x, y);
      assert SameCommand(x, z);
    }
  }

  lemma RuntimesKeptTrans(a: seq<Runtime>, b: seq<Runtime>, c: seq<Runtime>, n: nat, m: nat)
    requires RuntimesKept(a, b, n) && RuntimesKept(b, c, m) && n <= m
    ensures RuntimesKept(a, c, n)
  {
    forall z | z in c && z.token < n ensures LeasedBefore(a, z) {
      assert LeasedBefore(b, z);
      var y :| y in b && SameLease(y, z);
      assert LeasedBefore(a, y);
      var x :| x in a && SameLease(x, y);
      assert SameLease(x, z);
    }
  }

  lemma GrowsRefl(s: State)
    ensures Grows(s, s)
  {
    assert forall c :: c in s.commands ==> SameCommand(c, c);
    assert forall r :: r in s.runtimes ==> SameLease(r, r);
  }

  lemma GrowsTrans(s: State, s1: State, s2: State)
    requires Grows(s, s1) && Grows(s1, s2)
    ensures Grows(s, s2)
  {
    CommandsKeptTrans(s.commands, s1.commands, s2.commands, s.nextId, s1.nextId);
    RuntimesKeptTrans(s.runtimes, s1.runtimes, s2.runtimes, s.nextId, s1.nextId);
    forall p ensures LogGrows(s, s2, p) { LogGrowsTrans(s, s1, s2, p); }
  }

  lemma KeepsTrans(s: State, s1: State, s2: State)
    requires Keeps(s, s1) && Keeps(s1, s2)
    ensures Keeps(s, s2)
  {
    GrowsTrans(s, s1, s2);
  }

  lemma KeepsRefl(s: State)
    requires Wf(s)
    ensures Keeps(s, s)
  {
    GrowsRefl(s);
  }

  // -------------------------------------------------------------- elementary changes

  lemma AppendKeeps(s: State, p: string, typ: EventType, task: nat, runtime: string, attempt: nat, stale: bool)
    requires Wf(s)
    ensures Keeps(s, Append(s, p, typ, task, runtime, attempt, stale))
  {
    var s' := Append(s, p, typ, task, runtime, attempt, stale);
    GrowsRefl(s);
    forall q ensures LogGrows(s, s', q) {
      if q == p {
        assert LogAdds(s, s', q, [Event(Counter(s, p) + 1, typ, task, runtime, attempt, stale)]);
      }
    }
  }

  lemma PutKeeps(s: State, i: nat, t: Task)
    requires Wf(s) && i < |s.tasks|
    requires SameTask(s.tasks[i], t) && 1 <= t.attempt <= MAX_ATTEMPT
    requires t.completion == Manual ==> t.status == Completed
    ensures Keeps(s, PutTask(s, i, t))
  {
    GrowsRefl(s);
    var ts, ts' := s.tasks, PutTask(s, i, t).tasks;
    forall k, d | 0 <= k < |ts'| && d in ts'[k].deps ensures EarlierTask(ts', k, d) {
      assert EarlierTask(ts, k, d);
      var j :| 0 <= j < k && ts[j].id == d && ts[j].project == ts[k].project;
      assert ts'[j].id == d && ts'[j].project == ts'[k].project;
    }
  }

  // A task is appended behind the tasks it depends on.
  lemma NewTaskKeeps(s: State, t: Task)
    requires Wf(s) && t.id == s.nextId && t.attempt == 1 && t.completion == NoSource
    requires forall d :: d in t.deps ==> InProject(s.tasks, t.project, d)
    ensures Keeps(s, s.(tasks := s.tasks + [t], nextId := s.nextId + 1))
  {
    GrowsRefl(s);
    var ts, ts' := s.tasks, s.tasks + [t];
    forall k, d | 0 <= k < |ts'| && d in ts'[k].deps ensures EarlierTask(ts', k, d) {
      if k < |ts| {
        assert EarlierTask(ts, k, d);
        var j :| 0 <= j < k && ts[j].id == d && ts[j].project == ts[k].project;
        assert ts'[j].id == d && ts'[j].project == ts'[k].project;
      } else {
        var j := FindTask(ts, d);
        assert ts'[j].id == d && ts'[j].project == ts'[k].project;
      }
    }
  }

  // Replacing the queue by one whose commands all come from the old one.
  lemma QueueKeeps(s: State, cs: seq<Command>)
    requires Wf(s) && CommandsWf(cs, s.nextId)
    requires forall c' :: c' in cs ==> From(s.commands, c')
    requires forall c' :: c' in cs && !Terminal(c') ==>
               exists c :: c in s.commands && !Terminal(c) && c.project == c'.project && c.runtime == c'.runtime
    ensures Keeps(s, s.(commands := cs))
  {
    GrowsRefl(s);
  }

  lemma {:induction false} CompactedIn(cs: seq<Command>, p: string)
    ensures forall c :: c in Compacted(cs, p) ==> c in cs
  {
    if |cs| == 0 {
    } else {
      CompactedIn(cs[1..], p);
    }
  }

  lemma TailWf(cs: seq<Command>, n: nat)
    requires CommandsWf(cs, n) && |cs| > 0
    ensures CommandsWf(cs[1..], n) && forall c :: c in cs[1..] ==> cs[0].id < c.id
  {
    assert forall k :: 0 <= k < |cs| - 1 ==> cs[1..][k] == cs[k + 1];
  }

  lemma ConsWf(c: Command, rest: seq<Command>, n: nat)
    requires CommandsWf(rest, n) && 1 <= c.id < n && forall x :: x in rest ==> c.id < x.id
    ensures CommandsWf([c] + rest, n)
  {
    var cs := [c] + rest;
    assert forall k :: 1 <= k < |cs| ==> cs[k] == rest[k - 1] && cs[k] in rest;
  }

  lemma {:induction false} CompactedFrom(cs: seq<Command>, p: string, n: nat)
    requires CommandsWf(cs, n)
    ensures CommandsWf(Compacted(cs, p), n)
    ensures forall c :: c in Compacted(cs, p) ==> c in cs
  {
    CompactedIn(cs, p);
    if |cs| == 0 {
    } else {
      assert 1 <= cs[0].id < n;
      TailWf(cs, n);
      CompactedFrom(cs[1..], p, n);
      ConsWf(cs[0], Compacted(cs[1..], p), n);
      hide CommandsWf;
    }
  }

  lemma CompactKeeps(s: State, p: string)
    requires Wf(s)
    ensures Keeps(s, s.(commands := Compacted(s.commands, p)))
  {
    CompactedFrom(s.commands, p, s.nextId);
    forall c | c in Compacted(s.commands, p) ensures From(s.commands, c) { assert SameCommand(c, c); }
    QueueKeeps(s, Compacted(s.commands, p));
  }

  lemma SupersedeKeeps(s: State, task: nat)
    requires Wf(s)
    ensures Keeps(s, s.(commands := Supersede(s.commands, task)))
  {
    var cs := Supersede(s.commands, task);
    forall c' | c' in cs ensures From(s.commands, c') {
      var k :| 0 <= k < |cs| && cs[k] == c';
      assert SameCommand(s.commands[k], c');
    }
    QueueKeeps(s, cs);
  }

  lemma AckKeeps(s: State, p: string, r: string, ids: seq<nat>)
    requires Wf(s)
    ensures Keeps(s, s.(commands := AckAll(s.commands, p, r, ids)))
  {
    var cs := AckAll(s.commands, p, r, ids);
    forall c' | c' in cs ensures From(s.commands, c') {
      var k :| 0 <= k < |cs| && cs[k] == c';
      assert SameCommand(s.commands[k], c');
    }
    QueueKeeps(s, cs);
  }

  lemma PushKeeps(s: State, c: Command)
    requires Wf(s) && c.id == s.nextId && Live(s.runtimes, c.project, c.runtime)
    ensures Keeps(s, s.(commands := s.commands + [c], nextId := s.nextId + 1))
  {
    var cs := s.commands + [c];
    assert forall x :: x in cs ==> x == c || (x in s.commands && SameCommand(x, x));
    assert CommandsWf(cs, s.nextId + 1);
    assert CommandsKept(s.commands, cs, s.nextId);
    GrowsRefl(s);
  }

  lemma EnqueueKeeps(s: State, t: Task, kind: Kind, attempt: nat, now: nat)
    requires Wf(s)
    ensures Keeps(s, Enqueue(s, t, kind, attempt, now))
  {
    var s2, i := Enqueue(s, t, kind, attempt, now), FindReachable(s.runtimes, t.project, now);
    if s2 == s {
      KeepsRefl(s);
    } else {
      var c := Command(s.nextId, t.project, s.runtimes[i].runtime, t.id, kind, Queued, attempt, 0, 0);
      var s1 := s.(commands := s.commands + [c], nextId := s.nextId + 1);
      assert s.runtimes[i] in s.runtimes && Live(s.runtimes, c.project, c.runtime);
      assert s2 == s1.(commands := Compacted(s1.commands, t.project));
      hide Wf, Keeps, Live, Enqueue, FindReachable, DepStatus, Compacted;
      PushKeeps(s, c);
      assert Wf(s1) by { WfKept(s, s1); }
      CompactKeeps(s1, t.project);
      KeepsTrans(s, s1, s2);
    }
  }

  lemma WfKept(s: State, s': State)
    requires Keeps(s, s')
    ensures Wf(s')
  {
  }

  lemma ThenEnqueue(s: State, s1: State, t: Task, kind: Kind, attempt: nat, now: nat)
    requires Keeps(s, s1)
    ensures Keeps(s, Enqueue(s1, t, kind, attempt, now))
  {
    EnqueueKeeps(s1, t, kind, attempt, now);
    KeepsTrans(s, s1, Enqueue(s1, t, kind, attempt, now));
  }

  lemma ThenAppend(s: State, s1: State, p: string, typ: EventType, task: nat, runtime: string, attempt: nat, stale: bool)
    requires Keeps(s, s1)
    ensures Keeps(s, Append(s1, p, typ, task, runtime, attempt, stale))
  {
    AppendKeeps(s1, p, typ, task, runtime, attempt, stale);
    KeepsTrans(s, s1, Append(s1, p, typ, task, runtime, attempt, stale));
  }

  lemma ThenSupersede(s: State, s1: State, task: nat)
    requires Keeps(s, s1)
    ensures Keeps(s, s1.(commands := Supersede(s1.commands, task)))
  {
    SupersedeKeeps(s1, task);
    KeepsTrans(s, s1, s1.(commands := Supersede(s1.commands, task)));
  }

  // ------------------------------------------------------------------- activation

  lemma VisitKeeps(s: State, budget: nat, p: string, i: nat, now: nat)
    requires Wf(s) && i < |s.tasks|
    ensures Keeps(s, Visit(s, budget, p, i, now))
  {
    hide Grows, Addressed;
    KeepsRefl(s);
    var t := s.tasks[i];
    if t.project == p && Waiting(t.status) {
      var d := DepStatus(s.tasks, t.deps);
      if d != WaitingDependency {
        var waits := d == Accepted && !Fits(s.tasks, budget, p, t.profile, t.id);
        var u := t.(status := if waits then WaitingResource else d, updatedAt := now);
        var typ := if waits then TaskWaitingResource else if d == Accepted then TaskReady else TaskBlocked;
        var s1 := PutTask(s, i, u);
        PutKeeps(s, i, u);
        ThenAppend(s, s1, p, typ, t.id, "", 0, false);
        if d == Accepted && !waits {
          ThenEnqueue(s, Append(s1, p, typ, t.id, "", 0, false), u, StartTask, u.attempt, now);
        }
      }
    }
  }

  lemma {:induction false} PassKeeps(s: State, budget: nat, p: string, i: nat, now: nat)
    requires Wf(s) && i <= |s.tasks|
    ensures Keeps(s, Pass(s, budget, p, i, now))
    decreases |s.tasks| - i
  {
    hide Wf, Grows, Addressed;
    if i == |s.tasks| {
      KeepsRefl(s);
    } else {
      var s1 := Visit(s, budget, p, i, now);
      VisitKeeps(s, budget, p, i, now);
      PassKeeps(s1, budget, p, i + 1, now);
      KeepsTrans(s, s1, Pass(s1, budget, p, i + 1, now));
    }
  }

  lemma {:induction false} ActivateKeeps(s: State, budget: nat, p: string, now: nat)
    requires Wf(s)
    ensures Keeps(s, Activate(s, budget, p, now))
    decreases Rank(s.tasks)
  {
    var s1 := Pass(s, budget, p, 0, now);
    PassKeeps(s, budget, p, 0, now);
    PassRank(s, budget, p, 0, now);
    if s1.tasks == s.tasks {
    } else {
      ActivateKeeps(s1, budget, p, now);
      KeepsTrans(s, s1, Activate(s1, budget, p, now));
    }
  }

  lemma ThenActivate(s: State, s1: State, budget: nat, p: string, now: nat)
    requires Keeps(s, s1)
    ensures Keeps(s, Activate(s1, budget, p, now))
  {
    ActivateKeeps(s1, budget, p, now);
    KeepsTrans(s, s1, Activate(s1, budget, p, now));
  }

  // --------------------------------------------------------------------- handlers

  lemma ApplyEventKeeps(s: State, p: string, r: string, e: RawEvent, budget: nat, now: nat)
    requires Wf(s) && e.RawEvent?
    ensures Keeps(s, ApplyEvent(s, p, r, e, budget, now))
  {
    var s0 := Logged(s, p, r, e);
    AppendKeeps(s, p, e.typ, e.task, r, if e.task != 0 then AttemptOf(e.attempt) else 0, Stale(s.tasks, e));
    if !Stale(s.tasks, e) {
      var s1 := UpdateFromEvent(s0, p, e.task, e.typ, now);
      UpdateKeeps(s0, p, e.task, e.typ, now);
      KeepsTrans(s, s0, s1);
      var s2 := ApplyCollaboration(s1, p, e.task, e.typ, budget, now);
      CollaborationKeeps(s1, p, e.task, e.typ, budget, now);
      KeepsTrans(s, s1, s2);
      if Finishes(e.typ) { ThenActivate(s, s2, budget, p, now); }
    }
  }

  lemma UpdateKeeps(s: State, p: string, task: nat, typ: EventType, now: nat)
    requires Wf(s)
    ensures Keeps(s, UpdateFromEvent(s, p, task, typ, now))
  {
    KeepsRefl(s);
    var i := FindTask(s.tasks, task);
    if task != 0 && i < |s.tasks| && !HumanTerminal(s.tasks[i]) {
      match StatusFromEvent(typ)
      case NoChange =>
      case To(st) => PutKeeps(s, i, s.tasks[i].(status := st, updatedAt := now));
    }
  }

  lemma ReportKeeps(s: State, i: nat, report: Report, budget: nat, now: nat)
    requires Wf(s) && i < |s.tasks| && !HumanTerminal(s.tasks[i])
    ensures var s1 := PutTask(s, i, Reported(s.tasks[i], report, now));
            Keeps(s, s1) && Keeps(s, Activate(s1, budget, s.tasks[i].project, now))
  {
    var p, u := s.tasks[i].project, Reported(s.tasks[i], report, now);
    PutKeeps(s, i, u);
    ThenActivate(s, PutTask(s, i, u), budget, p, now);
  }

  lemma CollaborationKeeps(s: State, p: string, task: nat, typ: EventType, budget: nat, now: nat)
    requires Wf(s)
    ensures Keeps(s, ApplyCollaboration(s, p, task, typ, budget, now))
  {
    hide Grows, Addressed, Activate;
    var i := FindTask(s.tasks, task);
    if Collaboration(typ) && i < |s.tasks| && s.tasks[i].project == p && !HumanTerminal(s.tasks[i]) {
      var t := s.tasks[i];
      if typ.TaskHandoff? {
        PutKeeps(s, i, t.(owner := if typ.member == "" then t.owner else typ.member, updatedAt := now));
      } else if typ.TaskReport? {
        ReportKeeps(s, i, typ.report, budget, now);
      } else {
        PutKeeps(s, i, t.(updatedAt := now));
      }
    } else {
      KeepsRefl(s);
    }
  }

  lemma {:induction false} ApplyAllKeeps(s: State, p: string, r: string, es: seq<RawEvent>, budget: nat, now: nat)
    requires Wf(s) && Objects(es)
    ensures Keeps(s, ApplyAll(s, p, r, es, budget, now))
    decreases |es|
  {
    hide Wf, Grows, Addressed;
    if |es| == 0 {
      KeepsRefl(s);
    } else {
      var s1 := ApplyEvent(s, p, r, es[0], budget, now);
      ApplyEventKeeps(s, p, r, es[0], budget, now);
      ApplyAllKeeps(s1, p, r, es[1..], budget, now);
      KeepsTrans(s, s1, ApplyAll(s1, p, r, es[1..], budget, now));
    }
  }

  lemma RestartOneKeeps(s: State, p: string, t: Task, now: nat)
    requires Wf(s)
    ensures Keeps(s, RestartOne(s, p, t, now))
  {
    if RestartOne(s, p, t, now) == s { KeepsRefl(s); } else { EnqueueKeeps(s, t, StartTask, t.attempt, now); }
  }

  lemma {:induction false} RestartKeeps(s: State, p: string, i: nat, now: nat)
    requires Wf(s) && i <= |s.tasks|
    ensures Keeps(s, Restart(s, p, i, now))
    decreases |s.tasks| - i
  {
    hide Wf, Grows, Addressed;
    if i == |s.tasks| {
      KeepsRefl(s);
    } else {
      var s1 := RestartOne(s, p, s.tasks[i], now);
      RestartOneKeeps(s, p, s.tasks[i], now);
      RestartKeeps(s1, p, i + 1, now);
      KeepsTrans(s, s1, Restart(s1, p, i + 1, now));
    }
  }

  lemma AnnounceKeeps(s: State, t: Task, typ: EventType)
    requires Wf(s) && t.id == s.nextId && t.attempt == 1 && t.completion == NoSource
    requires forall d :: d in t.deps ==> InProject(s.tasks, t.project, d)
    ensures Keeps(s, Announced(s, t, typ))
  {
    var s0 := s.(tasks := s.tasks + [t], nextId := s.nextId + 1);
    assert Announced(s, t, typ) == Append(s0, t.project, typ, t.id, "", 0, false);
    NewTaskKeeps(s, t);
    ThenAppend(s, s0, t.project, typ, t.id, "", 0, false);
  }

  lemma AddTaskKeeps(s: State, t: Task, now: nat)
    requires Wf(s) && t.id == s.nextId && t.attempt == 1 && t.completion == NoSource
    requires forall d :: d in t.deps ==> InProject(s.tasks, t.project, d)
    ensures Keeps(s, AddTask(s, t, now))
  {
    var typ := CreationEvent(t.status);
    AnnounceKeeps(s, t, typ);
    if t.status == Accepted { ThenEnqueue(s, Announced(s, t, typ), t, StartTask, t.attempt, now); }
  }

  ghost predicate DeliversFrom(cs: seq<Command>, cs': seq<Command>) {
    && |cs'| == |cs|
    && forall k :: 0 <= k < |cs| ==> cs'[k] == cs[k] || (!Terminal(cs[k]) && exists now :: cs'[k] == DeliveredAt(cs[k], now))
  }

  lemma {:induction false} DeliverFrom(cs: seq<Command>, p: string, r: string, now: nat, room: nat)
    ensures DeliversFrom(cs, Deliver(cs, p, r, now, room).0)
  {
    if |cs| == 0 {
    } else {
      DeliverFrom(cs[1..], p, r, now, room);
      if room > 1 { DeliverFrom(cs[1..], p, r, now, room - 1); }
      var cs' := Deliver(cs, p, r, now, room).0;
      forall k | 0 <= k < |cs|
        ensures cs'[k] == cs[k] || (!Terminal(cs[k]) && exists t :: cs'[k] == DeliveredAt(cs[k], t))
      {
        if k > 0 { assert cs[k] == cs[1..][k - 1]; assert cs'[k] == cs'[1..][k - 1]; }
      }
    }
  }

  lemma DeliveredKeeps(s: State, cs: seq<Command>)
    requires Wf(s) && DeliversFrom(s.commands, cs)
    ensures Keeps(s, s.(commands := cs))
  {
    forall c' | c' in cs ensures From(s.commands, c') {
      var k :| 0 <= k < |cs| && cs[k] == c';
      assert SameCommand(s.commands[k], c');
    }
    hide Keeps, Grows;
    QueueKeeps(s, cs);
  }

  lemma PollKeeps(s: State, p: string, r: string, token: nat, limit: nat, now: nat)
    requires Wf(s)
    ensures var o := HandlePoll(s, p, r, token, limit, now); o.Write? ==> Keeps(s, o.next)
  {
    hide Deliver, Keeps, Wf, DeliversFrom, HoldsLease;
    DeliverFrom(s.commands, p, r, now, limit);
    DeliveredKeeps(s, Deliver(s.commands, p, r, now, limit).0);
  }

  lemma ActionKeeps(s: State, task: nat, action: Action, budget: nat, now: nat)
    requires Wf(s)
    ensures var o := HandleAction(s, task, action, budget, now); o.Write? ==> Keeps(s, o.next)
  {
    var i := FindTask(s.tasks, task);
    if i < |s.tasks| && ActionGuard(s, s.tasks[i], action) == Done {
      match action
      case Input(_) => InputKeeps(s, i, action, now);
      case Cancel => CancelKeeps(s, i, budget, now);
      case Retry => RetryKeeps(s, i, budget, now);
      case Complete => CompleteKeeps(s, i, budget, now);
      case Approve => PutAndAppendKeeps(s, i, s.tasks[i].(approval := Approved, updatedAt := now), TaskAction(Approve));
      case Reject =>
        var u := s.tasks[i].(approval := Rejected, status := Blocked, updatedAt := now);
        PutAndAppendKeeps(s, i, u, TaskAction(Reject));
        ThenActivate(s, Append(PutTask(s, i, u), u.project, TaskAction(Reject), u.id, "", 0, false), budget, u.project, now);
    }
  }

  lemma PutAndAppendKeeps(s: State, i: nat, u: Task, typ: EventType)
    requires Wf(s) && i < |s.tasks|
    requires SameTask(s.tasks[i], u) && 1 <= u.attempt <= MAX_ATTEMPT
    requires u.completion == Manual ==> u.status == Completed
    ensures Keeps(s, Append(PutTask(s, i, u), u.project, typ, u.id, "", 0, false))
  {
    PutKeeps(s, i, u);
    ThenAppend(s, PutTask(s, i, u), u.project, typ, u.id, "", 0, false);
  }

  lemma InputKeeps(s: State, i: nat, action: Action, now: nat)
    requires Wf(s) && i < |s.tasks|
    ensures Keeps(s, ActInput(s, i, action, now))
  {
    var t := s.tasks[i].(updatedAt := now);
    PutAndAppendKeeps(s, i, t, TaskAction(action));
    ThenEnqueue(s, Append(PutTask(s, i, t), t.project, TaskAction(action), t.id, "", 0, false), t, InputTask, t.attempt, now);
  }

  lemma CancelKeeps(s: State, i: nat, budget: nat, now: nat)
    requires Wf(s) && i < |s.tasks| && !UserCompleted(s.tasks[i])
    ensures Keeps(s, ActCancel(s, i, budget, now))
  {
    var t := s.tasks[i].(status := Cancelled, cancellation := Manual, updatedAt := now);
    PutAndAppendKeeps(s, i, t, TaskAction(Cancel));
    var s1 := Append(PutTask(s, i, t), t.project, TaskAction(Cancel), t.id, "", 0, false);
    ThenSupersede(s, s1, t.id);
    var s2 := s1.(commands := Supersede(s1.commands, t.id));
    ThenActivate(s, s2, budget, t.project, now);
    ThenEnqueue(s, Activate(s2, budget, t.project, now), t, CancelTask, t.attempt, now);
  }

  lemma RetryKeeps(s: State, i: nat, budget: nat, now: nat)
    requires Wf(s) && i < |s.tasks| && !UserCompleted(s.tasks[i]) && s.tasks[i].attempt < MAX_ATTEMPT
    ensures Keeps(s, ActRetry(s, i, budget, now))
  {
    var t := s.tasks[i];
    var s0 := s.(commands := Supersede(s.commands, t.id));
    SupersedeKeeps(s, t.id);
    var s1 := Enqueue(s0, t, CancelTask, t.attempt, now);
    ThenEnqueue(s, s0, t, CancelTask, t.attempt, now);
    var t' := RetriedTask(s1, t, budget, now);
    PutAndAppendKeeps(s1, i, t', TaskAction(Retry));
    var s2 := Append(PutTask(s1, i, t'), t.project, TaskAction(Retry), t.id, "", 0, false);
    KeepsTrans(s, s1, s2);
    if t'.status == Accepted { ThenEnqueue(s, s2, t', StartTask, t'.attempt, now); }
  }

  lemma CompleteKeeps(s: State, i: nat, budget: nat, now: nat)
    requires Wf(s) && i < |s.tasks|
    ensures Keeps(s, ActComplete(s, i, budget, now))
  {
    var t := s.tasks[i].(status := Completed, completion := Manual, updatedAt := now);
    PutAndAppendKeeps(s, i, t, TaskAction(Complete));
    var s1 := Append(PutTask(s, i, t), t.project, TaskAction(Complete), t.id, "", 0, false);
    ThenSupersede(s, s1, t.id);
    var s2 := s1.(commands := Supersede(s1.commands, t.id));
    ThenEnqueue(s, s2, t, CancelTask, t.attempt, now);
    ThenActivate(s, Enqueue(s2, t, CancelTask, t.attempt, now), budget, t.project, now);
  }
}
