/**
  Who may speak for a project: fencing over whole runs, dead tokens, and what a
  takeover leaves of the runtimes before it.
 */
module TeamFencing {
  import opened TeamModel
  import opened TeamFrames
  import opened TeamSteps
  import opened TeamQuiet

  // --------------------------------------------------------------- the invariant

  // At most one entry of each project is not fenced.
  ghost predicate Sole(rs: seq<Runtime>) {
    forall i, j :: 0 <= i < j < |rs| && rs[i].project == rs[j].project ==> rs[i].status == Fenced || rs[j].status == Fenced
  }

  ghost predicate HasLive(rs: seq<Runtime>, p: string) {
    exists y :: y in rs && y.project == p && y.status != Fenced
  }

  ghost predicate Covered(rs: seq<Runtime>) { forall x :: x in rs ==> HasLive(rs, x.project) }

  ghost predicate FencingInv(s: State) {
    && Sole(s.runtimes)
    && Covered(s.runtimes)
    && Addressed(s.runtimes, s.commands)
  }

  // The requests a run may contain: an unregister that is served comes from an entry
  // that is not fenced.
  predicate CleanUnregister(s: State, req: Request) {
    req.Unregister? ==>
      var i := FindRuntime(s.runtimes, req.project, req.runtime);
      i < |s.runtimes| && s.runtimes[i].token == req.token ==> s.runtimes[i].status != Fenced
  }

  predicate CleanRun(s: State, calls: seq<Call>)
    decreases |calls|
  {
    |calls| > 0 ==>
      && (CleanUnregister(s, calls[0].req) || !calls[0].env.saves)
      && CleanRun(After(s, calls[0].req, calls[0].env), calls[1..])
  }

  // --------------------------------------------------------------- single changes

  // An entry that stays on its side of the fence keeps all three parts.
  lemma ReplaceFencing(rs: seq<Runtime>, cs: seq<Command>, i: nat, e: Runtime)
    requires i < |rs| && SameLease(rs[i], e) && rs[i].status != Fenced && e.status != Fenced
    requires Sole(rs) && Covered(rs) && Addressed(rs, cs)
    ensures Sole(rs[i := e]) && Covered(rs[i := e]) && Addressed(rs[i := e], cs)
  {
    var rs' := rs[i := e];
    forall x | x in rs && x.status != Fenced
      ensures exists y :: y in rs' && y.project == x.project && y.runtime == x.runtime && y.status != Fenced
    {
      var k :| 0 <= k < |rs| && rs[k] == x;
      assert rs'[k] in rs';
    }
    forall x | x in rs' ensures HasLive(rs', x.project) {
      var k :| 0 <= k < |rs'| && rs'[k] == x;
      assert HasLive(rs, rs[k].project);
      var y :| y in rs && y.project == x.project && y.status != Fenced;
      var z :| z in rs' && z.project == y.project && z.runtime == y.runtime && z.status != Fenced;
    }
    forall c | c in cs && !Terminal(c) ensures Live(rs', c.project, c.runtime) {
      assert Live(rs, c.project, c.runtime);
    }
  }

  // Two entries that remain of one project: both are fenced, or they are two of the old entries.
  lemma RemainingSole(rs: seq<Runtime>, p: string, r: string, n: nat, i: nat, j: nat)
    requires RuntimesWf(rs, n) && Sole(rs) && i < j < |FenceOthers(rs, p, r)|
    requires var fo := FenceOthers(rs, p, r); fo[i].project == fo[j].project
    ensures var fo := FenceOthers(rs, p, r); fo[i].status == Fenced || fo[j].status == Fenced
  {
    var fo := FenceOthers(rs, p, r);
    FenceOthersWf(rs, p, r, n);
    assert fo[i].runtime != fo[j].runtime;
    FenceOthersIn(rs, p, r, fo[i]);
    FenceOthersIn(rs, p, r, fo[j]);
    var a :| a in rs && Remains(a, p, r, fo[i]);
    var b :| b in rs && Remains(b, p, r, fo[j]);
    hide FenceOthers, RuntimesWf;
    var k :| 0 <= k < |rs| && rs[k] == a;
    var m :| 0 <= m < |rs| && rs[m] == b;
    if fo[i].project != p { assert k < m || m < k; }
  }

  lemma TakeOverSole(s: State, p: string, r: string, now: nat)
    requires Wf(s) && Sole(s.runtimes)
    ensures Sole(TakeOver(s, p, r, now).runtimes)
  {
    var rs := s.runtimes;
    var fo := FenceOthers(rs, p, r);
    forall i, j | 0 <= i < j < |fo| && fo[i].project == fo[j].project
      ensures fo[i].status == Fenced || fo[j].status == Fenced
    {
      RemainingSole(rs, p, r, s.nextId, i, j);
    }
    forall x | x in fo && x.project == p ensures x.status == Fenced { FenceOthersIn(rs, p, r, x); }
    hide Wf, FenceOthers;
  }

  lemma TakeOverKeepsOthers(s: State, p: string, r: string, now: nat, x: Runtime)
    requires x in s.runtimes && x.project != p
    ensures x in TakeOver(s, p, r, now).runtimes
  {
    assert Remains(x, p, r, x);
    FenceOthersIn(s.runtimes, p, r, x);
  }

  lemma TakeOverCovered(s: State, p: string, r: string, now: nat)
    requires Covered(s.runtimes)
    ensures Covered(TakeOver(s, p, r, now).runtimes)
  {
    var rs' := TakeOver(s, p, r, now).runtimes;
    var e := rs'[|rs'| - 1];
    forall x | x in rs' ensures HasLive(rs', x.project) {
      if x.project == p {
        assert e in rs';
      } else {
        FenceOthersIn(s.runtimes, p, r, x);
        assert HasLive(s.runtimes, x.project);
        var y :| y in s.runtimes && y.project == x.project && y.status != Fenced;
        TakeOverKeepsOthers(s, p, r, now, y);
      }
    }
  }

  lemma TakeOverAddressed(s: State, p: string, r: string, now: nat)
    requires Addressed(s.runtimes, s.commands)
    ensures Addressed(TakeOver(s, p, r, now).runtimes, TakeOver(s, p, r, now).commands)
  {
    var rs', cs' := TakeOver(s, p, r, now).runtimes, TakeOver(s, p, r, now).commands;
    var e := rs'[|rs'| - 1];
    forall c | c in cs' && !Terminal(c) ensures Live(rs', c.project, c.runtime) {
      var k :| 0 <= k < |cs'| && cs'[k] == c;
      if c.project == p {
        assert e in rs';
      } else {
        assert s.commands[k] in s.commands;
        assert Live(s.runtimes, c.project, c.runtime);
        var x :| x in s.runtimes && x.project == c.project && x.runtime == c.runtime && x.status != Fenced;
        TakeOverKeepsOthers(s, p, r, now, x);
      }
    }
  }

  lemma RegisterFencing(s: State, p: string, r: string, now: nat)
    requires Wf(s) && FencingInv(s)
    ensures FencingInv(Append(Restart(TakeOver(s, p, r, now), p, 0, now), p, RuntimeOnline, 0, r, 0, false))
  {
    var s1 := TakeOver(s, p, r, now);
    TakeOverGrows(s, p, r, now);
    TakeOverSole(s, p, r, now);
    TakeOverCovered(s, p, r, now);
    TakeOverAddressed(s, p, r, now);
    RestartKeeps(s1, p, 0, now);
    ThenAppend(s1, Restart(s1, p, 0, now), p, RuntimeOnline, 0, r, 0, false);
  }

  lemma {:induction false} ExpireFencing(s: State, i: nat, now: nat)
    requires FencingInv(s) && i <= |s.runtimes|
    ensures FencingInv(ExpireFrom(s, i, now))
    decreases |s.runtimes| - i
  {
    if i == |s.runtimes| {
    } else {
      var r := s.runtimes[i];
      if Expired(r, now) {
        var e := r.(status := Offline, lease := 0, lastSeen := now);
        ReplaceFencing(s.runtimes, s.commands, i, e);
        ExpireFencing(Append(s.(runtimes := s.runtimes[i := e]), r.project, RuntimeOffline, 0, r.runtime, 0, false), i + 1, now);
      } else {
        ExpireFencing(s, i + 1, now);
      }
    }
  }

  lemma EventsFencing(s: State, p: string, r: string, token: nat, batch: seq<RawEvent>, budget: nat, now: nat)
    requires Wf(s) && FencingInv(s)
    ensures var o := HandleEvents(s, p, r, token, batch, budget, now); o.Write? ==> FencingInv(o.next)
  {
    if HandleEvents(s, p, r, token, batch, budget, now).Write? {
      var i := FindRuntime(s.runtimes, p, r);
      var last := s.runtimes[i].lastSequence;
      ValidObjects(s.tasks, p, batch, last, last);
      var s1 := ApplyAll(s, p, r, Selected(batch, last), budget, now);
      ApplyAllKeeps(s, p, r, Selected(batch, last), budget, now);
      var e := s.runtimes[i].(lastSequence := LastTaken(batch, last), lastSeen := now, lease := now + LEASE);
      ReplaceFencing(s1.runtimes, s1.commands, i, e);
    }
  }

  // An entry that unregisters keeps the invariant exactly when it was not fenced:
  // a fenced one comes back beside the project's current entry.
  lemma UnregisterFencing(s: State, p: string, r: string, now: nat)
    requires Wf(s) && FencingInv(s) && FindRuntime(s.runtimes, p, r) < |s.runtimes|
    ensures var i := FindRuntime(s.runtimes, p, r);
      var e := s.runtimes[i].(status := Offline, lastSeen := now, lease := 0);
      FencingInv(Append(s.(runtimes := s.runtimes[i := e]), p, RuntimeOffline, 0, r, 0, false))
      <==> s.runtimes[i].status != Fenced
  {
    var i := FindRuntime(s.runtimes, p, r);
    var rs := s.runtimes;
    var e := rs[i].(status := Offline, lastSeen := now, lease := 0);
    if rs[i].status != Fenced {
      ReplaceFencing(rs, s.commands, i, e);
    } else {
      assert HasLive(rs, rs[i].project);
      var y :| y in rs && y.project == rs[i].project && y.status != Fenced;
      var k :| 0 <= k < |rs| && rs[k] == y;
      assert rs[i := e][k] == y && rs[i := e][i] == e;
      assert k < i || i < k;
    }
  }

  lemma HandleFencing(s: State, req: Request, env: Env)
    requires Wf(s) && FencingInv(s) && !req.Unregister?
    ensures var o := Handle(s, req, env); o.Write? ==> FencingInv(o.next)
  {
    hide Wf, Compacted, AckAll, Acted, ActionGuard, CreateGuard, HoldsLease, AnyExpired, FindCurrent, FindTask, LastN;
    match req
    case Register(p, r) => RegisterFencing(s, p, r, env.now);
    case Heartbeat(p, r, token, busy) =>
      var i := FindRuntime(s.runtimes, p, r);
      if i < |s.runtimes| && s.runtimes[i].status != Fenced {
        ReplaceFencing(s.runtimes, s.commands, i,
          s.runtimes[i].(status := if busy then Busy else Online, lastSeen := env.now, lease := env.now + LEASE));
      }
    case Unregister(p, r, token) =>
    case Events(p, r, token, batch) => EventsFencing(s, p, r, token, batch, env.budget, env.now);
    case Expire => ExpireFencing(s, 0, env.now);
    case Create(p, deps, profile, key, owner) =>
      CreateGrows(s, p, deps, profile, key, owner, env.budget, env.now);
    case Poll(p, r, token, limit) => PollKeeps(s, p, r, token, limit, env.now);
    case Ack(p, r, token, ids) => AckThenCompactKeeps(s, p, r, ids);
    case Act(task, action) => ActionKeeps(s, task, action, env.budget, env.now);
  }

  /** One request keeps the fencing invariant exactly when it is not a saved unregister of a fenced entry. */
  lemma StepFencing(s: State, req: Request, env: Env)
    requires Wf(s) && FencingInv(s)
    ensures FencingInv(After(s, req, env)) <==> CleanUnregister(s, req) || !env.saves
  {
    match Handle(s, req, env)
    case Keep(_) =>
    case Write(next, _) =>
      if env.saves {
        assert After(s, req, env) == next;
        if req.Unregister? {
          UnregisterFencing(s, req.project, req.runtime, env.now);
        } else {
          HandleFencing(s, req, env);
        }
      }
  }

  ghost predicate FencedThroughout(s: State, calls: seq<Call>)
    decreases |calls|
  {
    FencingInv(s) && (|calls| > 0 ==> FencedThroughout(After(s, calls[0].req, calls[0].env), calls[1..]))
  }

  /** Each project has at most one entry that is not fenced, and every unfinished command is addressed to
      it, in every state of a run exactly when the run is clean. */
  lemma {:induction false} FencingOverRuns(s: State, calls: seq<Call>)
    requires Wf(s) && FencingInv(s)
    ensures FencedThroughout(s, calls) <==> CleanRun(s, calls)
    ensures CleanRun(s, calls) ==> Wf(Run(s, calls)) && FencingInv(Run(s, calls))
    decreases |calls|
  {
    hide Wf, Grows, FencingInv, After, CleanUnregister;
    if |calls| == 0 {
    } else {
      var s1 := After(s, calls[0].req, calls[0].env);
      StepGrows(s, calls[0].req, calls[0].env);
      StepFencing(s, calls[0].req, calls[0].env);
      if FencingInv(s1) { FencingOverRuns(s1, calls[1..]); }
    }
  }

  /** What the invariant says of every state a clean run reaches: one entry a runtime, one of them not fenced,
      and the unfinished commands belong to that one. */
  lemma ReachableFencing(calls: seq<Call>, c: Command, x: Runtime, y: Runtime)
    requires CleanRun(EMPTY, calls)
    ensures var s := Run(EMPTY, calls);
      && (x in s.runtimes && y in s.runtimes && x.project == y.project && x.runtime == y.runtime ==> x == y)
      && (x in s.runtimes && y in s.runtimes && x.project == y.project && x.status != Fenced && y.status != Fenced ==> x == y)
      && (c in s.commands && !Terminal(c) && x in s.runtimes && x.project == c.project && x.status != Fenced ==>
            c.runtime == x.runtime)
  {
    FencingOverRuns(EMPTY, calls);
    var s := Run(EMPTY, calls);
    SoleIn(s.runtimes, x, y);
    if c in s.commands && !Terminal(c) && x in s.runtimes && x.project == c.project && x.status != Fenced {
      assert Live(s.runtimes, c.project, c.runtime);
      var z :| z in s.runtimes && z.project == c.project && z.runtime == c.runtime && z.status != Fenced;
      SoleIn(s.runtimes, x, z);
    }
    if x in s.runtimes && y in s.runtimes && x.project == y.project && x.runtime == y.runtime {
      var i :| 0 <= i < |s.runtimes| && s.runtimes[i] == x;
      var j :| 0 <= j < |s.runtimes| && s.runtimes[j] == y;
      assert i == j;
    }
  }

  lemma SoleIn(rs: seq<Runtime>, x: Runtime, y: Runtime)
    requires Sole(rs)
    ensures x in rs && y in rs && x.project == y.project && x.status != Fenced && y.status != Fenced ==> x == y
  {
    if x in rs && y in rs && x.project == y.project && x.status != Fenced && y.status != Fenced {
      var i :| 0 <= i < |rs| && rs[i] == x;
      var j :| 0 <= j < |rs| && rs[j] == y;
      assert i == j;
    }
  }

  const OLD := Runtime("p", "a", Online, 1, LEASE, 0, 0)
  const NEW := Runtime("p", "b", Online, 2, 3 * LEASE, 0, 2 * LEASE)
  const EARLY := Env(4, 0, true)
  const LATE := Env(4, 2 * LEASE, true)

  lemma TwoRegistrations()
    ensures After(After(EMPTY, Register("p", "a"), EARLY), Register("p", "b"), LATE).runtimes == [OLD.(status := Fenced), NEW]
  {
    QuietRegister(EMPTY, "a", EARLY);
    var s1 := After(EMPTY, Register("p", "a"), EARLY);
    assert s1.runtimes == [OLD];
    QuietRegister(s1, "b", LATE);
    assert "a" != "b" by { assert "a"[0] != "b"[0]; }
    assert s1.runtimes[1..] == [];
    assert FenceOthers(s1.runtimes, "p", "b") == [OLD.(status := Fenced)];
  }

  lemma OldTokenRevives(s: State)
    requires s.runtimes == [OLD.(status := Fenced), NEW]
    ensures var s' := After(After(s, Unregister("p", "a", 1), LATE), Heartbeat("p", "a", 1, false), LATE);
      |s'.runtimes| == 2 && s'.runtimes[0].status == Online && s'.runtimes[1] == NEW && !FencingInv(s')
  {
    assert FindRuntime(s.runtimes, "p", "a") == 0;
    var s1 := After(s, Unregister("p", "a", 1), LATE);
    assert s1.runtimes[0] == OLD.(status := Offline, lastSeen := 2 * LEASE, lease := 0);
    assert FindRuntime(s1.runtimes, "p", "a") == 0;
    var s' := After(s1, Heartbeat("p", "a", 1, false), LATE);
    assert s'.runtimes[0].project == s'.runtimes[1].project;
  }

  /** The run that shows the assumption is needed: a is taken over by b, unregisters with its old
      token, and its heartbeat is accepted again beside b. */
  lemma FencedEntryRevives()
    ensures var calls := [Call(Register("p", "a"), EARLY), Call(Register("p", "b"), LATE),
                          Call(Unregister("p", "a", 1), LATE), Call(Heartbeat("p", "a", 1, false), LATE)];
      !FencingInv(Run(EMPTY, calls))
  {
    TwoRegistrations();
    OldTokenRevives(After(After(EMPTY, Register("p", "a"), EARLY), Register("p", "b"), LATE));
    RunFour(EMPTY, Call(Register("p", "a"), EARLY), Call(Register("p", "b"), LATE),
            Call(Unregister("p", "a", 1), LATE), Call(Heartbeat("p", "a", 1, false), LATE));
  }

  lemma RunFour(s: State, a: Call, b: Call, c: Call, d: Call)
    ensures Run(s, [a, b, c, d]) == After(After(After(After(s, a.req, a.env), b.req, b.env), c.req, c.env), d.req, d.env)
  {
    assert [a, b, c, d][1..] == [b, c, d] && [b, c, d][1..] == [c, d] && [c, d][1..] == [d] && [d][1..] == [];
    var s1 := After(s, a.req, a.env);
    var s2 := After(s1, b.req, b.env);
    var s3 := After(s2, c.req, c.env);
    assert Run(s3, [d]) == After(s3, d.req, d.env);
    assert Run(s2, [c, d]) == Run(s3, [d]);
    assert Run(s1, [b, c, d]) == Run(s2, [c, d]);
  }

  // ------------------------------------------------------------------- dead tokens

  // Drawn already, and not the token of the runtime's entry.
  ghost predicate Dead(s: State, p: string, r: string, token: nat) {
    token < s.nextId && forall x :: x in s.runtimes && x.project == p && x.runtime == r ==> x.token != token
  }

  // The requests that carry a token.
  predicate SpeaksWith(req: Request, p: string, r: string, token: nat) {
    match req
    case Heartbeat(q, u, t, _) => q == p && u == r && t == token
    case Unregister(q, u, t) => q == p && u == r && t == token
    case Events(q, u, t, _) => q == p && u == r && t == token
    case Poll(q, u, t, _) => q == p && u == r && t == token
    case Ack(q, u, t, _) => q == p && u == r && t == token
    case _ => false
  }

  predicate TurnedAway(s: State, req: Request, env: Env) {
    After(s, req, env) == s && Reply(s, req, env) in {Refused(LeaseLost), Refused(FieldsRequired)}
  }

  // An accepted registration leaves exactly the entries of the takeover.
  lemma RegisteredEntries(s: State, p: string, r: string, env: Env)
    requires Wf(s) && Reply(s, Register(p, r), env).Registered?
    ensures After(s, Register(p, r), env).runtimes ==
            FenceOthers(s.runtimes, p, r) + [Runtime(p, r, Online, s.nextId, env.now + LEASE, 0, env.now)]
    ensures s.nextId < After(s, Register(p, r), env).nextId
    ensures Reply(s, Register(p, r), env).token == s.nextId
  {
    hide Wf, Grows, Addressed;
    var s1 := TakeOver(s, p, r, env.now);
    TakeOverGrows(s, p, r, env.now);
    RestartKeeps(s1, p, 0, env.now);
    assert After(s, Register(p, r), env) == Append(Restart(s1, p, 0, env.now), p, RuntimeOnline, 0, r, 0, false);
    NextIdGrows(s1, Restart(s1, p, 0, env.now));
  }

  lemma NextIdGrows(s: State, s': State)
    requires Keeps(s, s')
    ensures s.nextId <= s'.nextId
  {
  }

  /** Registering again kills every token the runtime held before. */
  lemma RegisterKills(s: State, p: string, r: string, env: Env, token: nat)
    requires Wf(s) && Reply(s, Register(p, r), env).Registered? && token < s.nextId
    ensures Dead(After(s, Register(p, r), env), p, r, token)
  {
    hide Wf, Reply, After;
    RegisteredEntries(s, p, r, env);
    forall x | x in FenceOthers(s.runtimes, p, r) ensures !(x.project == p && x.runtime == r) {
      FenceOthersIn(s.runtimes, p, r, x);
    }
  }

  /** A dead token is refused by every request that carries it, changes nothing, and holds no lease. */
  lemma DeadRefused(s: State, req: Request, env: Env, p: string, r: string, token: nat)
    requires Dead(s, p, r, token) && SpeaksWith(req, p, r, token)
    ensures TurnedAway(s, req, env)
    ensures !HoldsLease(s.runtimes, p, r, token, env.now)
  {
    var i := FindRuntime(s.runtimes, p, r);
    if i < |s.runtimes| { assert s.runtimes[i] in s.runtimes; }
  }

  lemma StaysDead(s: State, s': State, p: string, r: string, token: nat)
    requires Dead(s, p, r, token) && Grows(s, s')
    ensures Dead(s', p, r, token)
  {
    forall x' | x' in s'.runtimes && x'.project == p && x'.runtime == r ensures x'.token != token {
      if x'.token < s.nextId {
        assert LeasedBefore(s.runtimes, x');
        var x :| x in s.runtimes && SameLease(x, x');
      }
    }
  }

  /** Once dead, dead in every later state of every run, with no assumption on the run: whatever request
      shows the token then is turned away. */
  lemma DeadForever(s: State, calls: seq<Call>, p: string, r: string, token: nat)
    requires Wf(s) && Dead(s, p, r, token)
    ensures Dead(Run(s, calls), p, r, token)
    ensures forall req, env :: SpeaksWith(req, p, r, token) ==> TurnedAway(Run(s, calls), req, env)
  {
    RunGrows(s, calls);
    StaysDead(s, Run(s, calls), p, r, token);
    hide SpeaksWith, TurnedAway, Dead;
    forall req, env | SpeaksWith(req, p, r, token) ensures TurnedAway(Run(s, calls), req, env) {
      DeadRefused(Run(s, calls), req, env, p, r, token);
    }
  }

  // ----------------------------------------------------------------- fenced entries

  ghost predicate AllFenced(rs: seq<Runtime>, p: string, r: string) {
    forall x :: x in rs && x.project == p && x.runtime == r ==> x.status == Fenced
  }

  /** A takeover fences every other runtime of its project. */
  lemma TakeoverFences(s: State, p: string, r: string, env: Env, other: string)
    requires Wf(s) && Reply(s, Register(p, r), env).Registered? && other != r
    ensures AllFenced(After(s, Register(p, r), env).runtimes, p, other)
  {
    hide Wf, Reply, After;
    RegisteredEntries(s, p, r, env);
    forall x | x in FenceOthers(s.runtimes, p, r) && x.project == p ensures x.status == Fenced {
      FenceOthersIn(s.runtimes, p, r, x);
    }
  }

  /** A fenced entry is refused by everything except unregister, whatever token it shows. */
  lemma FencedRefused(s: State, req: Request, env: Env, p: string, r: string, token: nat)
    requires AllFenced(s.runtimes, p, r) && SpeaksWith(req, p, r, token) && !req.Unregister?
    ensures TurnedAway(s, req, env)
    ensures !HoldsLease(s.runtimes, p, r, token, env.now)
  {
    var i := FindRuntime(s.runtimes, p, r);
    if i < |s.runtimes| { assert s.runtimes[i] in s.runtimes; }
  }

  // Only the runtime itself can lift its fence: by registering, or by unregistering.
  lemma StepAllFenced(s: State, req: Request, env: Env, p: string, r: string)
    requires Wf(s) && AllFenced(s.runtimes, p, r) && (CleanUnregister(s, req) || !env.saves) && req != Register(p, r)
    ensures AllFenced(After(s, req, env).runtimes, p, r)
  {
    match Handle(s, req, env)
    case Keep(_) =>
    case Write(next, _) =>
      if env.saves {
        assert After(s, req, env) == next;
        HandleAllFenced(s, req, env, p, r);
      }
  }

  lemma ReplaceAllFenced(rs: seq<Runtime>, i: nat, e: Runtime, p: string, r: string)
    requires AllFenced(rs, p, r) && i < |rs| && SameLease(rs[i], e) && rs[i].status != Fenced
    ensures AllFenced(rs[i := e], p, r)
  {
    assert rs[i] in rs;
    forall x | x in rs[i := e] && x.project == p && x.runtime == r ensures x.status == Fenced {
      var k :| 0 <= k < |rs| && rs[i := e][k] == x;
      assert rs[k] in rs;
    }
  }

  lemma {:induction false} ExpireAllFenced(s: State, i: nat, now: nat, p: string, r: string)
    requires AllFenced(s.runtimes, p, r) && i <= |s.runtimes|
    ensures AllFenced(ExpireFrom(s, i, now).runtimes, p, r)
    decreases |s.runtimes| - i
  {
    if i == |s.runtimes| {
    } else {
      var x := s.runtimes[i];
      if Expired(x, now) {
        var e := x.(status := Offline, lease := 0, lastSeen := now);
        ReplaceAllFenced(s.runtimes, i, e, p, r);
        ExpireAllFenced(Append(s.(runtimes := s.runtimes[i := e]), x.project, RuntimeOffline, 0, x.runtime, 0, false),
                        i + 1, now, p, r);
      } else {
        ExpireAllFenced(s, i + 1, now, p, r);
      }
    }
  }

  lemma RegisterAllFenced(s: State, q: string, u: string, now: nat, p: string, r: string)
    requires Wf(s) && AllFenced(s.runtimes, p, r) && !(q == p && u == r)
    ensures AllFenced(Append(Restart(TakeOver(s, q, u, now), q, 0, now), q, RuntimeOnline, 0, u, 0, false).runtimes, p, r)
  {
    var s1 := TakeOver(s, q, u, now);
    TakeOverGrows(s, q, u, now);
    RestartKeeps(s1, q, 0, now);
    forall x | x in s1.runtimes && x.project == p && x.runtime == r ensures x.status == Fenced {
      FenceOthersIn(s.runtimes, q, u, x);
    }
  }

  lemma EventsAllFenced(s: State, q: string, u: string, token: nat, batch: seq<RawEvent>, budget: nat, now: nat,
                        p: string, r: string)
    requires Wf(s) && AllFenced(s.runtimes, p, r)
    ensures var o := HandleEvents(s, q, u, token, batch, budget, now); o.Write? ==> AllFenced(o.next.runtimes, p, r)
  {
    if HandleEvents(s, q, u, token, batch, budget, now).Write? {
      var i := FindRuntime(s.runtimes, q, u);
      var last := s.runtimes[i].lastSequence;
      ValidObjects(s.tasks, q, batch, last, last);
      ApplyAllKeeps(s, q, u, Selected(batch, last), budget, now);
      ReplaceAllFenced(s.runtimes, i,
        s.runtimes[i].(lastSequence := LastTaken(batch, last), lastSeen := now, lease := now + LEASE), p, r);
    }
  }

  lemma HandleAllFenced(s: State, req: Request, env: Env, p: string, r: string)
    requires Wf(s) && AllFenced(s.runtimes, p, r) && CleanUnregister(s, req) && req != Register(p, r)
    ensures var o := Handle(s, req, env); o.Write? ==> AllFenced(o.next.runtimes, p, r)
  {
    hide Wf, Compacted, AckAll, Acted, ActionGuard, CreateGuard, HoldsLease, AnyExpired, FindCurrent, FindTask, LastN;
    match req
    case Register(q, u) => RegisterAllFenced(s, q, u, env.now, p, r);
    case Heartbeat(q, u, token, busy) =>
      var i := FindRuntime(s.runtimes, q, u);
      if i < |s.runtimes| && s.runtimes[i].status != Fenced {
        ReplaceAllFenced(s.runtimes, i,
          s.runtimes[i].(status := if busy then Busy else Online, lastSeen := env.now, lease := env.now + LEASE), p, r);
      }
    case Unregister(q, u, token) =>
      var i := FindRuntime(s.runtimes, q, u);
      if i < |s.runtimes| && s.runtimes[i].status != Fenced {
        ReplaceAllFenced(s.runtimes, i, s.runtimes[i].(status := Offline, lastSeen := env.now, lease := 0), p, r);
      }
    case Events(q, u, token, batch) => EventsAllFenced(s, q, u, token, batch, env.budget, env.now, p, r);
    case Expire => ExpireAllFenced(s, 0, env.now, p, r);
    case Create(q, deps, profile, key, owner) => CreateGrows(s, q, deps, profile, key, owner, env.budget, env.now);
    case Poll(q, u, token, limit) =>
    case Ack(q, u, token, ids) =>
    case Act(task, action) => ActionKeeps(s, task, action, env.budget, env.now);
  }

  predicate NeverRegisters(calls: seq<Call>, p: string, r: string) {
    forall k :: 0 <= k < |calls| ==> calls[k].req != Register(p, r)
  }

  lemma {:induction false} StaysFenced(s: State, calls: seq<Call>, p: string, r: string)
    requires Wf(s) && AllFenced(s.runtimes, p, r) && CleanRun(s, calls) && NeverRegisters(calls, p, r)
    ensures AllFenced(Run(s, calls).runtimes, p, r)
    decreases |calls|
  {
    hide Wf, Grows, AllFenced, After, CleanUnregister;
    if |calls| == 0 {
    } else {
      StepGrows(s, calls[0].req, calls[0].env);
      StepAllFenced(s, calls[0].req, calls[0].env, p, r);
      StaysFenced(After(s, calls[0].req, calls[0].env), calls[1..], p, r);
    }
  }

  /** Over every clean run a fenced runtime stays fenced until it registers again itself: everything else
      it asks for is turned away, whatever token it shows. */
  lemma FencedForever(s: State, calls: seq<Call>, p: string, r: string)
    requires Wf(s) && AllFenced(s.runtimes, p, r) && CleanRun(s, calls) && NeverRegisters(calls, p, r)
    ensures AllFenced(Run(s, calls).runtimes, p, r)
    ensures forall req, env, token ::
      SpeaksWith(req, p, r, token) && !req.Unregister? ==> TurnedAway(Run(s, calls), req, env)
  {
    StaysFenced(s, calls, p, r);
    hide SpeaksWith, TurnedAway, AllFenced, Run;
    forall req, env, token | SpeaksWith(req, p, r, token) && !req.Unregister? ensures TurnedAway(Run(s, calls), req, env) {
      FencedRefused(Run(s, calls), req, env, p, r, token);
    }
  }
}
