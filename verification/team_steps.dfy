/**
  Every request, saved or rolled back, keeps the invariant `Wf` and only grows the
  state; hence so does every run.
 */
module TeamSteps {
  import opened TeamModel
  import opened TeamFrames

  // --------------------------------------------------------- replacing one entry

  lemma ReplaceEntry(rs: seq<Runtime>, i: nat, e: Runtime, n: nat)
    requires RuntimesWf(rs, n) && i < |rs| && SameLease(rs[i], e)
    ensures RuntimesWf(rs[i := e], n) && RuntimesKept(rs, rs[i := e], n)
  {
    var rs' := rs[i := e];
    forall r' | r' in rs' ensures LeasedBefore(rs, r') {
      var k :| 0 <= k < |rs'| && rs'[k] == r';
      assert SameLease(rs[k], r');
    }
  }

  lemma ReplaceGrows(s: State, i: nat, e: Runtime)
    requires Wf(s) && i < |s.runtimes| && SameLease(s.runtimes[i], e)
    ensures Wf(s.(runtimes := s.runtimes[i := e])) && Grows(s, s.(runtimes := s.runtimes[i := e]))
  {
    ReplaceEntry(s.runtimes, i, e, s.nextId);
    GrowsRefl(s);
  }

  // ---------------------------------------------------------------------- takeover

  // What the takeover of project p by runtime r makes of one older entry.
  predicate Remains(y: Runtime, p: string, r: string, x: Runtime) {
    (y.project != p && x == y) || (y.project == p && y.runtime != r && x == y.(status := Fenced))
  }

  ghost predicate RemainsOf(rs: seq<Runtime>, p: string, r: string, x: Runtime) {
    exists y :: y in rs && Remains(y, p, r, x)
  }

  lemma {:induction false} FenceOthersIn(rs: seq<Runtime>, p: string, r: string, x: Runtime)
    ensures x in FenceOthers(rs, p, r) <==> RemainsOf(rs, p, r, x)
  {
    if |rs| == 0 {
    } else {
      FenceOthersIn(rs[1..], p, r, x);
      assert forall y :: y in rs <==> y == rs[0] || y in rs[1..];
      var rest := FenceOthers(rs[1..], p, r);
      assert x in FenceOthers(rs, p, r) <==> Remains(rs[0], p, r, x) || x in rest;
      if RemainsOf(rs[1..], p, r, x) {
        var y :| y in rs[1..] && Remains(y, p, r, x);
        assert y in rs;
      }
    }
  }

  // What is left of the other entries is none of the first one's.
  lemma FencedApart(rs: seq<Runtime>, p: string, r: string, n: nat, x: Runtime)
    requires RuntimesWf(rs, n) && |rs| > 0 && x in FenceOthers(rs[1..], p, r)
    ensures !(rs[0].project == x.project && rs[0].runtime == x.runtime)
  {
    FenceOthersIn(rs[1..], p, r, x);
    var y :| y in rs[1..] && Remains(y, p, r, x);
    var j :| 0 <= j < |rs[1..]| && rs[1..][j] == y;
    assert rs[j + 1] == y;
  }

  lemma AlsoWf(e: Runtime, rest: seq<Runtime>, n: nat)
    requires RuntimesWf(rest, n) && 1 <= e.token < n
    requires forall x :: x in rest ==> !(e.project == x.project && e.runtime == x.runtime)
    ensures RuntimesWf([e] + rest, n)
  {
    assert forall k :: 1 <= k <= |rest| ==> ([e] + rest)[k] == rest[k - 1] && ([e] + rest)[k] in rest;
  }

  lemma {:induction false} FenceOthersWf(rs: seq<Runtime>, p: string, r: string, n: nat)
    requires RuntimesWf(rs, n)
    ensures RuntimesWf(FenceOthers(rs, p, r), n)
  {
    if |rs| == 0 {
    } else {
      FenceOthersWf(rs[1..], p, r, n);
      var e, rest := rs[0], FenceOthers(rs[1..], p, r);
      forall x | x in rest ensures !(e.project == x.project && e.runtime == x.runtime) { FencedApart(rs, p, r, n, x); }
      assert 1 <= e.token < n;
      hide RuntimesWf;
      AlsoWf(e, rest, n);
      AlsoWf(e.(status := Fenced), rest, n);
      assert [] + rest == rest;
    }
  }

  lemma RequeueKept(s: State, p: string, r: string)
    requires Wf(s)
    ensures CommandsWf(Requeue(s.commands, p, r), s.nextId)
    ensures CommandsKept(s.commands, Requeue(s.commands, p, r), s.nextId)
  {
    var cs := Requeue(s.commands, p, r);
    forall c' | c' in cs ensures From(s.commands, c') {
      var k :| 0 <= k < |cs| && cs[k] == c';
      assert SameCommand(s.commands[k], c');
    }
  }

  lemma TakeOverRuntimes(rs: seq<Runtime>, p: string, r: string, e: Runtime, n: nat)
    requires RuntimesWf(rs, n) && e.project == p && e.runtime == r && e.token == n && n >= 1
    ensures RuntimesWf(FenceOthers(rs, p, r) + [e], n + 1)
    ensures RuntimesKept(rs, FenceOthers(rs, p, r) + [e], n)
  {
    var fo := FenceOthers(rs, p, r);
    FenceOthersWf(rs, p, r, n);
    forall x | x in fo ensures LeasedBefore(rs, x) && !(x.project == p && x.runtime == r) {
      FenceOthersIn(rs, p, r, x);
      var y :| y in rs && Remains(y, p, r, x);
      assert SameLease(y, x);
    }
    assert forall x :: x in fo + [e] ==> x in fo || x == e;
  }

  lemma TakeOverGrows(s: State, p: string, r: string, now: nat)
    requires Wf(s)
    ensures Wf(TakeOver(s, p, r, now)) && Grows(s, TakeOver(s, p, r, now))
  {
    var e := Runtime(p, r, Online, s.nextId, now + LEASE, 0, now);
    TakeOverRuntimes(s.runtimes, p, r, e, s.nextId);
    RequeueKept(s, p, r);
    GrowsRefl(s);
  }

  // ------------------------------------------------------------------ whole requests

  lemma {:induction false} ExpireGrows(s: State, i: nat, now: nat)
    requires Wf(s) && i <= |s.runtimes|
    ensures Wf(ExpireFrom(s, i, now)) && Grows(s, ExpireFrom(s, i, now))
    decreases |s.runtimes| - i
  {
    if i == |s.runtimes| {
      GrowsRefl(s);
    } else {
      var r := s.runtimes[i];
      if Expired(r, now) {
        var e := r.(status := Offline, lease := 0, lastSeen := now);
        var s0 := s.(runtimes := s.runtimes[i := e]);
        ReplaceGrows(s, i, e);
        var s1 := Append(s0, r.project, RuntimeOffline, 0, r.runtime, 0, false);
        AppendKeeps(s0, r.project, RuntimeOffline, 0, r.runtime, 0, false);
        GrowsTrans(s, s0, s1);
        ExpireGrows(s1, i + 1, now);
        GrowsTrans(s, s1, ExpireFrom(s1, i + 1, now));
      } else {
        ExpireGrows(s, i + 1, now);
      }
    }
  }

  lemma RegisterGrows(s: State, p: string, r: string, now: nat)
    requires Wf(s)
    ensures var s' := Append(Restart(TakeOver(s, p, r, now), p, 0, now), p, RuntimeOnline, 0, r, 0, false);
            Wf(s') && Grows(s, s')
  {
    var s1 := TakeOver(s, p, r, now);
    TakeOverGrows(s, p, r, now);
    RestartKeeps(s1, p, 0, now);
    ThenAppend(s1, Restart(s1, p, 0, now), p, RuntimeOnline, 0, r, 0, false);
    GrowsTrans(s, s1, Append(Restart(s1, p, 0, now), p, RuntimeOnline, 0, r, 0, false));
  }

  // The position of the caller's entry does not move while its batch is applied.
  lemma EventsGrow(s: State, p: string, r: string, token: nat, batch: seq<RawEvent>, budget: nat, now: nat)
    requires Wf(s)
    ensures var o := HandleEvents(s, p, r, token, batch, budget, now); o.Write? ==> Wf(o.next) && Grows(s, o.next)
  {
    var o := HandleEvents(s, p, r, token, batch, budget, now);
    if o.Write? {
      var i := FindRuntime(s.runtimes, p, r);
      var last := s.runtimes[i].lastSequence;
      ValidObjects(s.tasks, p, batch, last, last);
      var s1 := ApplyAll(s, p, r, Selected(batch, last), budget, now);
      ApplyAllKeeps(s, p, r, Selected(batch, last), budget, now);
      var e := s.runtimes[i].(lastSequence := LastTaken(batch, last), lastSeen := now, lease := now + LEASE);
      ReplaceGrows(s1, i, e);
      GrowsTrans(s, s1, s1.(runtimes := s1.runtimes[i := e]));
    }
  }

  lemma HandleGrows(s: State, req: Request, env: Env)
    requires Wf(s)
    ensures var o := Handle(s, req, env); o.Write? ==> Wf(o.next) && Grows(s, o.next)
  {
    hide Wf, Grows, Addressed, Compacted, AckAll, HoldsLease, FindCurrent, FindRuntime, AnyExpired, HandleAction, HandleEvents,
         HandleCreate, HandleHeartbeat, HandlePoll;
    match req
    case Register(p, r) => RegisterGrows(s, p, r, env.now);
    case Heartbeat(p, r, token, busy) => HeartbeatGrows(s, p, r, token, busy, env.now);
    case Unregister(p, r, token) => UnregisterGrows(s, p, r, env.now);
    case Events(p, r, token, batch) => EventsGrow(s, p, r, token, batch, env.budget, env.now);
    case Expire => ExpireGrows(s, 0, env.now);
    case Create(p, deps, profile, key, owner) =>
      CreateGrows(s, p, deps, profile, key, owner, env.budget, env.now);
    case Poll(p, r, token, limit) => PollKeeps(s, p, r, token, limit, env.now);
    case Ack(p, r, token, ids) => AckThenCompactKeeps(s, p, r, ids);
    case Act(task, action) => ActionKeeps(s, task, action, env.budget, env.now);
  }

  lemma HeartbeatGrows(s: State, p: string, r: string, token: nat, busy: bool, now: nat)
    requires Wf(s)
    ensures var o := HandleHeartbeat(s, p, r, token, busy, now); o.Write? ==> Wf(o.next) && Grows(s, o.next)
  {
    var i := FindRuntime(s.runtimes, p, r);
    if i < |s.runtimes| {
      ReplaceGrows(s, i, s.runtimes[i].(status := if busy then Busy else Online, lastSeen := now, lease := now + LEASE));
    }
  }

  lemma AckThenCompactKeeps(s: State, p: string, r: string, ids: seq<nat>)
    requires Wf(s)
    ensures Keeps(s, s.(commands := Compacted(AckAll(s.commands, p, r, ids), p)))
  {
    var s1 := s.(commands := AckAll(s.commands, p, r, ids));
    AckKeeps(s, p, r, ids);
    CompactKeeps(s1, p);
    KeepsTrans(s, s1, s1.(commands := Compacted(s1.commands, p)));
  }

  lemma UnregisterGrows(s: State, p: string, r: string, now: nat)
    requires Wf(s)
    ensures var i := FindRuntime(s.runtimes, p, r);
      i < |s.runtimes| ==>
        var s' := Append(s.(runtimes := s.runtimes[i := s.runtimes[i].(status := Offline, lastSeen := now, lease := 0)]),
                         p, RuntimeOffline, 0, r, 0, false);
        Wf(s') && Grows(s, s')
  {
    var i := FindRuntime(s.runtimes, p, r);
    if i < |s.runtimes| {
      var e := s.runtimes[i].(status := Offline, lastSeen := now, lease := 0);
      var s0 := s.(runtimes := s.runtimes[i := e]);
      ReplaceGrows(s, i, e);
      AppendKeeps(s0, p, RuntimeOffline, 0, r, 0, false);
      GrowsTrans(s, s0, Append(s0, p, RuntimeOffline, 0, r, 0, false));
    }
  }

  lemma CreateGrows(s: State, p: string, deps: seq<nat>, profile: Profile, key: string, owner: string, budget: nat, now: nat)
    requires Wf(s)
    ensures var o := HandleCreate(s, p, deps, profile, key, owner, budget, now); o.Write? ==> Keeps(s, o.next)
  {
    if HandleCreate(s, p, deps, profile, key, owner, budget, now).Write? {
      var t := NewTask(s, p, deps, profile, key, owner, budget, now);
      assert DepsExist(s.tasks, p, s.nextId, deps);
      AddTaskKeeps(s, t, now);
    }
  }

  lemma RollbackKeeps(s: State, req: Request, next: State, now: nat)
    requires Wf(s) && Grows(s, next)
    ensures Keeps(s, RolledBack(s, req, next, now))
  {
    var s1 := s.(nextId := next.nextId);
    GrowsRefl(s);
    var i := if req.Act? then FindTask(s.tasks, req.task) else |s.tasks|;
    if i < |s.tasks| {
      PutKeeps(s1, i, s.tasks[i].(updatedAt := now));
      KeepsTrans(s, s1, PutTask(s1, i, s.tasks[i].(updatedAt := now)));
    }
  }

  /** Every request keeps the invariant and only grows the state, whether or not its save succeeds. */
  lemma StepGrows(s: State, req: Request, env: Env)
    requires Wf(s)
    ensures Wf(After(s, req, env)) && Grows(s, After(s, req, env))
  {
    hide Wf, Grows, Handle;
    match Handle(s, req, env)
    case Keep(_) =>
      GrowsRefl(s);
    case Write(next, _) =>
      HandleGrows(s, req, env);
      if env.saves {
        assert After(s, req, env) == next;
      } else {
        RollbackKeeps(s, req, next, env.now);
        assert After(s, req, env) == RolledBack(s, req, next, env.now);
      }
  }

  lemma {:induction false} RunGrows(s: State, calls: seq<Call>)
    requires Wf(s)
    ensures Wf(Run(s, calls)) && Grows(s, Run(s, calls))
    decreases |calls|
  {
    if |calls| == 0 {
      GrowsRefl(s);
    } else {
      var s1 := After(s, calls[0].req, calls[0].env);
      StepGrows(s, calls[0].req, calls[0].env);
      RunGrows(s1, calls[1..]);
      GrowsTrans(s, s1, Run(s1, calls[1..]));
    }
  }
}
