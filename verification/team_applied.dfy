/**
  What a runtime's requests leave in the event log: the events taken from it, each once
  and in order, and one notice for each time it comes and goes, whatever the scheduler
  and other runtimes add between them.
 */
module TeamApplied {
  import opened TeamModel
  import opened TeamFrames
  import opened TeamSteps
  import opened TeamScheduler
  import opened TeamIntake
  import opened TeamLog

  // What a logged event says.
  datatype Said = Said(typ: EventType, task: nat, attempt: nat)

  function SaidBy(e: Event, r: string): seq<Said> {
    if e.runtime == r then [Said(e.typ, e.task, e.attempt)] else []
  }

  // The logged events that name this runtime.
  function SentBy(es: seq<Event>, r: string): seq<Said> {
    if |es| == 0 then [] else SaidBy(es[0], r) + SentBy(es[1..], r)
  }

  // An attempt is kept only with a task.
  function SaidOf(e: RawEvent): Said
    requires e.RawEvent?
  {
    Said(e.typ, e.task, if e.task != 0 then AttemptOf(e.attempt) else 0)
  }

  function Reports(es: seq<RawEvent>): seq<Said>
    requires Objects(es)
  {
    seq(|es|, k requires 0 <= k < |es| => SaidOf(es[k]))
  }

  // Between the two states the project's log has gained these events of the runtime.
  ghost predicate LogGains(s: State, s': State, p: string, r: string, said: seq<Said>) {
    (SameLog(s, s', p) && said == []) || exists added :: LogAdds(s, s', p, added) && SentBy(added, r) == said
  }

  lemma {:induction false} SentByJoin(a: seq<Event>, b: seq<Event>, r: string)
    ensures SentBy(a + b, r) == SentBy(a, r) + SentBy(b, r)
  {
    hide SaidBy;
    if |a| == 0 {
      assert a + b == b;
    } else {
      SentByJoin(a[1..], b, r);
      assert (a + b)[0] == a[0] && (a + b)[1..] == a[1..] + b;
    }
  }

  lemma GainsTrans(s: State, s1: State, s2: State, p: string, r: string, a: seq<Said>, b: seq<Said>)
    requires LogGains(s, s1, p, r, a) && LogGains(s1, s2, p, r, b)
    ensures LogGains(s, s2, p, r, a + b)
  {
    if SameLog(s, s1, p) && a == [] {
      assert a + b == b;
      if !(SameLog(s1, s2, p) && b == []) {
        var y :| LogAdds(s1, s2, p, y) && SentBy(y, r) == b;
        assert LogAdds(s, s2, p, y);
      }
    } else {
      var x :| LogAdds(s, s1, p, x) && SentBy(x, r) == a;
      if SameLog(s1, s2, p) && b == [] {
        assert a + b == a && LogAdds(s, s2, p, x);
      } else {
        var y :| LogAdds(s1, s2, p, y) && SentBy(y, r) == b;
        LogAddsTrans(s, s1, s2, p, x, y);
        SentByJoin(x, y, r);
      }
    }
  }

  lemma AppendGains(s: State, q: string, typ: EventType, task: nat, runtime: string, attempt: nat, stale: bool,
                    p: string, r: string)
    ensures LogGains(s, Append(s, q, typ, task, runtime, attempt, stale), p, r,
                  if q == p && runtime == r then [Said(typ, task, attempt)] else [])
  {
    var s', e := Append(s, q, typ, task, runtime, attempt, stale), Event(Counter(s, q) + 1, typ, task, runtime, attempt, stale);
    if q == p {
      assert LogAdds(s, s', p, [e]);
      assert SentBy([e], r) == if runtime == r then [Said(typ, task, attempt)] else [];
    }
  }

  lemma AppendElsewhere(s: State, q: string, typ: EventType, task: nat, stale: bool, p: string, r: string)
    requires r != ""
    ensures LogGains(s, Append(s, q, typ, task, "", 0, stale), p, r, [])
  {
    AppendGains(s, q, typ, task, "", 0, stale, p, r);
  }

  lemma GainsSame(s: State, s1: State, s2: State, p: string, r: string, a: seq<Said>)
    requires LogGains(s, s1, p, r, a) && s2.events == s1.events && s2.sequences == s1.sequences
    ensures LogGains(s, s2, p, r, a)
  {
    assert SameLog(s1, s2, p);
    GainsTrans(s, s1, s2, p, r, a, []);
    assert a + [] == a;
  }

  // What is written in between keeps quiet.
  lemma GainsThen(s: State, s1: State, s2: State, p: string, r: string, a: seq<Said>)
    requires LogGains(s, s1, p, r, a) && LogGains(s1, s2, p, r, [])
    ensures LogGains(s, s2, p, r, a)
  {
    GainsTrans(s, s1, s2, p, r, a, []);
    assert a + [] == a;
  }

  lemma NothingGained(s: State, s': State, p: string, r: string)
    requires s'.events == s.events && s'.sequences == s.sequences
    ensures LogGains(s, s', p, r, [])
  {
  }

  lemma EnqueueGains(s: State, t: Task, kind: Kind, attempt: nat, now: nat, p: string, r: string)
    ensures LogGains(s, Enqueue(s, t, kind, attempt, now), p, r, [])
  {
    hide DepStatus, FindReachable, Compacted;
    NothingGained(s, Enqueue(s, t, kind, attempt, now), p, r);
  }

  // ------------------------------------------------------------------- activation

  lemma PutAndAppendGains(s: State, i: nat, t: Task, q: string, typ: EventType, p: string, r: string)
    requires i < |s.tasks| && r != ""
    ensures LogGains(s, Append(PutTask(s, i, t), q, typ, t.id, "", 0, false), p, r, [])
  {
    var s0 := PutTask(s, i, t);
    NothingGained(s, s0, p, r);
    AppendElsewhere(s0, q, typ, t.id, false, p, r);
    hide LogGains, Append;
    GainsThen(s, s0, Append(s0, q, typ, t.id, "", 0, false), p, r, []);
  }

  lemma VisitGains(s: State, budget: nat, q: string, i: nat, now: nat, p: string, r: string)
    requires i < |s.tasks| && r != ""
    ensures LogGains(s, Visit(s, budget, q, i, now), p, r, [])
  {
    hide DepStatus, Fits, Enqueue, Append, LogGains;
    var t, u := s.tasks[i], s.tasks[i].(status := Accepted, updatedAt := now);
    var ready := Append(PutTask(s, i, u), q, TaskReady, t.id, "", 0, false);
    NothingGained(s, s, p, r);
    PutAndAppendGains(s, i, t.(status := WaitingResource, updatedAt := now), q, TaskWaitingResource, p, r);
    PutAndAppendGains(s, i, t.(status := Blocked, updatedAt := now), q, TaskBlocked, p, r);
    PutAndAppendGains(s, i, u, q, TaskReady, p, r);
    EnqueueGains(ready, u, StartTask, u.attempt, now, p, r);
    GainsThen(s, ready, Enqueue(ready, u, StartTask, u.attempt, now), p, r, []);
  }

  lemma {:induction false} PassGains(s: State, budget: nat, q: string, i: nat, now: nat, p: string, r: string)
    requires i <= |s.tasks| && r != ""
    ensures LogGains(s, Pass(s, budget, q, i, now), p, r, [])
    decreases |s.tasks| - i
  {
    hide Visit, LogGains;
    if i == |s.tasks| {
      NothingGained(s, s, p, r);
    } else {
      var s1 := Visit(s, budget, q, i, now);
      VisitGains(s, budget, q, i, now, p, r);
      PassGains(s1, budget, q, i + 1, now, p, r);
      GainsThen(s, s1, Pass(s1, budget, q, i + 1, now), p, r, []);
    }
  }

  lemma {:induction false} ActivateGains(s: State, budget: nat, q: string, now: nat, p: string, r: string)
    requires r != ""
    ensures LogGains(s, Activate(s, budget, q, now), p, r, [])
    decreases Rank(s.tasks)
  {
    hide LogGains, Pass;
    var s1 := Pass(s, budget, q, 0, now);
    PassGains(s, budget, q, 0, now, p, r);
    PassRank(s, budget, q, 0, now);
    if s1.tasks == s.tasks {
    } else {
      ActivateGains(s1, budget, q, now, p, r);
      GainsThen(s, s1, Activate(s1, budget, q, now), p, r, []);
    }
  }

  // ---------------------------------------------------------------- batches of events

  // What an event of runtime u in project q adds to what p has of r.
  function Share(q: string, u: string, p: string, r: string, said: seq<Said>): seq<Said> {
    if q == p && u == r then said else []
  }

  lemma EventGains(s: State, q: string, u: string, e: RawEvent, budget: nat, now: nat, p: string, r: string)
    requires Wf(s) && e.RawEvent? && r != ""
    ensures LogGains(s, ApplyEvent(s, q, u, e, budget, now), p, r, Share(q, u, p, r, [SaidOf(e)]))
  {
    var s0, s1 := Logged(s, q, u, e), EventPut(s, q, u, e, now);
    AppendGains(s, q, e.typ, e.task, u, if e.task != 0 then AttemptOf(e.attempt) else 0, Stale(s.tasks, e), p, r);
    EventShape(s, q, u, e, budget, now);
    assert s1.events == s0.events && s1.sequences == s0.sequences;
    hide LogGains, ApplyEvent, EventPut, Logged, SetsOff;
    GainsSame(s, s0, s1, p, r, Share(q, u, p, r, [SaidOf(e)]));
    ActivateGains(s1, budget, q, now, p, r);
    GainsThen(s, s1, Activate(s1, budget, q, now), p, r, Share(q, u, p, r, [SaidOf(e)]));
  }

  lemma {:induction false} AllGain(s: State, q: string, u: string, es: seq<RawEvent>, budget: nat, now: nat, p: string, r: string)
    requires Wf(s) && Objects(es) && r != ""
    ensures LogGains(s, ApplyAll(s, q, u, es, budget, now), p, r, Share(q, u, p, r, Reports(es)))
    decreases |es|
  {
    hide LogGains, ApplyEvent, Wf, Grows, Addressed;
    if |es| == 0 {
      NothingGained(s, s, p, r);
      assert Reports(es) == [];
    } else {
      var s1 := ApplyEvent(s, q, u, es[0], budget, now);
      ApplyEventKeeps(s, q, u, es[0], budget, now);
      EventGains(s, q, u, es[0], budget, now, p, r);
      AllGain(s1, q, u, es[1..], budget, now, p, r);
      GainsTrans(s, s1, ApplyAll(s1, q, u, es[1..], budget, now), p, r,
                 Share(q, u, p, r, [SaidOf(es[0])]), Share(q, u, p, r, Reports(es[1..])));
      assert Reports(es) == [SaidOf(es[0])] + Reports(es[1..]);
      assert Share(q, u, p, r, Reports(es)) == Share(q, u, p, r, [SaidOf(es[0])]) + Share(q, u, p, r, Reports(es[1..]));
    }
  }

  lemma BatchGains(s: State, call: Call, p: string, r: string)
    requires Wf(s) && BatchSaved(s, call.req, call.env) && r != ""
    ensures var q, u := call.req.project, call.req.runtime;
      LogGains(s, After(s, call.req, call.env), p, r, Share(q, u, p, r, Reports(Intake(s, call, q, u))))
  {
    var q, u := call.req.project, call.req.runtime;
    var es := Intake(s, call, q, u);
    BatchApplies(s, call);
    AllGain(s, q, u, es, call.env.budget, call.env.now, p, r);
    hide LogGains, ApplyAll, Intake, After;
    GainsSame(s, ApplyAll(s, q, u, es, call.env.budget, call.env.now), After(s, call.req, call.env), p, r,
              Share(q, u, p, r, Reports(es)));
  }

  // -------------------------------------------------------------------- all requests

  lemma RestartLog(s: State, p: string, i: nat, now: nat)
    requires i <= |s.tasks|
    ensures var s' := Restart(s, p, i, now); s'.events == s.events && s'.sequences == s.sequences
    decreases |s.tasks| - i
  {
    hide DepStatus, FindReachable, Compacted, StartPending;
    if i == |s.tasks| {
    } else {
      RestartLog(RestartOne(s, p, s.tasks[i], now), p, i + 1, now);
    }
  }

  lemma RegisterGains(s: State, q: string, u: string, env: Env, p: string, r: string)
    requires Handle(s, Register(q, u), env).Write?
    ensures LogGains(s, Handle(s, Register(q, u), env).next, p, r, Share(q, u, p, r, [Said(RuntimeOnline, 0, 0)]))
  {
    var s1 := Restart(TakeOver(s, q, u, env.now), q, 0, env.now);
    RestartLog(TakeOver(s, q, u, env.now), q, 0, env.now);
    AppendGains(s1, q, RuntimeOnline, 0, u, 0, false, p, r);
    hide LogGains, TakeOver, Restart, Append;
    NothingGained(s, s1, p, r);
    assert [] + Share(q, u, p, r, [Said(RuntimeOnline, 0, 0)]) == Share(q, u, p, r, [Said(RuntimeOnline, 0, 0)]);
    GainsTrans(s, s1, Append(s1, q, RuntimeOnline, 0, u, 0, false), p, r, [], Share(q, u, p, r, [Said(RuntimeOnline, 0, 0)]));
  }

  // The expired entries from position i on: the runtime has one of them at most.
  function Expiries(rs: seq<Runtime>, i: nat, now: nat, p: string, r: string): seq<Said> {
    var k := FindRuntime(rs, p, r);
    if i <= k < |rs| && Expired(rs[k], now) then [Said(RuntimeOffline, 0, 0)] else []
  }

  lemma {:induction false} ExpireGains(s: State, i: nat, now: nat, n: nat, p: string, r: string)
    requires RuntimesWf(s.runtimes, n) && i <= |s.runtimes|
    ensures LogGains(s, ExpireFrom(s, i, now), p, r, Expiries(s.runtimes, i, now, p, r))
    decreases |s.runtimes| - i
  {
    hide LogGains;
    if i == |s.runtimes| {
      NothingGained(s, s, p, r);
    } else {
      var x := s.runtimes[i];
      var rs := if Expired(x, now) then s.runtimes[i := x.(status := Offline, lease := 0, lastSeen := now)] else s.runtimes;
      ExpiriesNext(s.runtimes, rs, i, now, n, p, r);
      if Expired(x, now) {
        var s0 := s.(runtimes := rs);
        var s1 := Append(s0, x.project, RuntimeOffline, 0, x.runtime, 0, false);
        var said := Share(x.project, x.runtime, p, r, [Said(RuntimeOffline, 0, 0)]);
        ExpireGains(s1, i + 1, now, n, p, r);
        NothingGained(s, s0, p, r);
        AppendGains(s0, x.project, RuntimeOffline, 0, x.runtime, 0, false, p, r);
        GainsTrans(s, s0, s1, p, r, [], said);
        assert [] + said == said;
        GainsTrans(s, s1, ExpireFrom(s1, i + 1, now), p, r, said, Expiries(rs, i + 1, now, p, r));
      } else {
        assert Expiries(s.runtimes, i, now, p, r) == [] + Expiries(s.runtimes, i + 1, now, p, r);
        ExpireGains(s, i + 1, now, n, p, r);
      }
    }
  }

  lemma ExpiriesNext(rs: seq<Runtime>, rs': seq<Runtime>, i: nat, now: nat, n: nat, p: string, r: string)
    requires RuntimesWf(rs, n) && i < |rs|
    requires rs' == if Expired(rs[i], now) then rs[i := rs[i].(status := Offline, lease := 0, lastSeen := now)] else rs
    ensures RuntimesWf(rs', n)
    ensures Expiries(rs, i, now, p, r) ==
      (if Expired(rs[i], now) then Share(rs[i].project, rs[i].runtime, p, r, [Said(RuntimeOffline, 0, 0)]) else [])
      + Expiries(rs', i + 1, now, p, r)
  {
    var k, k' := FindRuntime(rs, p, r), FindRuntime(rs', p, r);
    assert k < |rs| ==> rs'[k].project == p && rs'[k].runtime == r;
    assert k' < |rs| ==> rs[k'].project == p && rs[k'].runtime == r;
    assert k == k';
  }

  lemma ActionGains(s: State, i: nat, action: Action, budget: nat, now: nat, p: string, r: string)
    requires i < |s.tasks| && r != ""
    ensures LogGains(s, Acted(s, i, action, budget, now), p, r, [])
  {
    match action
    case Input(_) => InputGains(s, i, action, now, p, r);
    case Cancel => CancelGains(s, i, budget, now, p, r);
    case Retry => RetryGains(s, i, budget, now, p, r);
    case Complete => CompleteGains(s, i, budget, now, p, r);
    case Approve =>
      var t := s.tasks[i].(approval := Approved, updatedAt := now);
      PutAndAppendGains(s, i, t, t.project, TaskAction(Approve), p, r);
    case Reject => RejectGains(s, i, budget, now, p, r);
  }

  lemma InputGains(s: State, i: nat, action: Action, now: nat, p: string, r: string)
    requires i < |s.tasks| && r != ""
    ensures LogGains(s, ActInput(s, i, action, now), p, r, [])
  {
    hide LogGains, Append, Enqueue;
    var t := s.tasks[i].(updatedAt := now);
    var s1 := Append(PutTask(s, i, t), t.project, TaskAction(action), t.id, "", 0, false);
    PutAndAppendGains(s, i, t, t.project, TaskAction(action), p, r);
    EnqueueGains(s1, t, InputTask, t.attempt, now, p, r);
    GainsThen(s, s1, Enqueue(s1, t, InputTask, t.attempt, now), p, r, []);
  }

  lemma CancelGains(s: State, i: nat, budget: nat, now: nat, p: string, r: string)
    requires i < |s.tasks| && r != ""
    ensures LogGains(s, ActCancel(s, i, budget, now), p, r, [])
  {
    hide LogGains, Append, Enqueue, Activate;
    var t := s.tasks[i].(status := Cancelled, cancellation := Manual, updatedAt := now);
    var s1 := Append(PutTask(s, i, t), t.project, TaskAction(Cancel), t.id, "", 0, false);
    var s2 := s1.(commands := Supersede(s1.commands, t.id));
    var s3 := Activate(s2, budget, t.project, now);
    PutAndAppendGains(s, i, t, t.project, TaskAction(Cancel), p, r);
    GainsSame(s, s1, s2, p, r, []);
    ActivateGains(s2, budget, t.project, now, p, r);
    GainsThen(s, s2, s3, p, r, []);
    EnqueueGains(s3, t, CancelTask, t.attempt, now, p, r);
    GainsThen(s, s3, Enqueue(s3, t, CancelTask, t.attempt, now), p, r, []);
  }

  lemma CompleteGains(s: State, i: nat, budget: nat, now: nat, p: string, r: string)
    requires i < |s.tasks| && r != ""
    ensures LogGains(s, ActComplete(s, i, budget, now), p, r, [])
  {
    hide LogGains, Append, Enqueue, Activate;
    var t := s.tasks[i].(status := Completed, completion := Manual, updatedAt := now);
    var s1 := Append(PutTask(s, i, t), t.project, TaskAction(Complete), t.id, "", 0, false);
    var s2 := s1.(commands := Supersede(s1.commands, t.id));
    var s3 := Enqueue(s2, t, CancelTask, t.attempt, now);
    PutAndAppendGains(s, i, t, t.project, TaskAction(Complete), p, r);
    GainsSame(s, s1, s2, p, r, []);
    EnqueueGains(s2, t, CancelTask, t.attempt, now, p, r);
    GainsThen(s, s2, s3, p, r, []);
    ActivateGains(s3, budget, t.project, now, p, r);
    GainsThen(s, s3, Activate(s3, budget, t.project, now), p, r, []);
  }

  lemma RejectGains(s: State, i: nat, budget: nat, now: nat, p: string, r: string)
    requires i < |s.tasks| && r != ""
    ensures LogGains(s, ActReject(s, i, budget, now), p, r, [])
  {
    hide LogGains, Append, Activate;
    var t := s.tasks[i].(approval := Rejected, status := Blocked, updatedAt := now);
    var s1 := Append(PutTask(s, i, t), t.project, TaskAction(Reject), t.id, "", 0, false);
    PutAndAppendGains(s, i, t, t.project, TaskAction(Reject), p, r);
    ActivateGains(s1, budget, t.project, now, p, r);
    GainsThen(s, s1, Activate(s1, budget, t.project, now), p, r, []);
  }

  lemma RetryGains(s: State, i: nat, budget: nat, now: nat, p: string, r: string)
    requires i < |s.tasks| && r != ""
    ensures LogGains(s, ActRetry(s, i, budget, now), p, r, [])
  {
    var t := s.tasks[i];
    var s0 := s.(commands := Supersede(s.commands, t.id));
    var s1 := Enqueue(s0, t, CancelTask, t.attempt, now);
    assert s1.tasks == s.tasks;
    hide LogGains, Append, Enqueue, RetriedTask;
    var t' := RetriedTask(s1, t, budget, now);
    assert t'.project == t.project && t'.id == t.id by { RetriedSame(s1, t, budget, now); }
    var s2 := Append(PutTask(s1, i, t'), t.project, TaskAction(Retry), t.id, "", 0, false);
    NothingGained(s, s0, p, r);
    EnqueueGains(s0, t, CancelTask, t.attempt, now, p, r);
    GainsThen(s, s0, s1, p, r, []);
    PutAndAppendGains(s1, i, t', t.project, TaskAction(Retry), p, r);
    GainsThen(s, s1, s2, p, r, []);
    EnqueueGains(s2, t', StartTask, t'.attempt, now, p, r);
    GainsThen(s, s2, Enqueue(s2, t', StartTask, t'.attempt, now), p, r, []);
  }

  lemma CreateGains(s: State, t: Task, now: nat, p: string, r: string)
    requires r != ""
    ensures LogGains(s, AddTask(s, t, now), p, r, [])
  {
    var typ := CreationEvent(t.status);
    var s0 := s.(tasks := s.tasks + [t], nextId := s.nextId + 1);
    var s1 := Announced(s, t, typ);
    NothingGained(s, s0, p, r);
    AppendElsewhere(s0, t.project, typ, t.id, false, p, r);
    hide LogGains, Append, Enqueue;
    GainsThen(s, s0, s1, p, r, []);
    EnqueueGains(s1, t, StartTask, t.attempt, now, p, r);
    GainsThen(s, s1, Enqueue(s1, t, StartTask, t.attempt, now), p, r, []);
  }

  // --------------------------------------------------------------------- whole runs

  // A log entry that names a runtime: the server's own notice, or a report taken from it.
  datatype Mark = ByServer(said: Said) | ByAgent(said: Said)

  function Shown(ms: seq<Mark>): seq<Said> {
    if |ms| == 0 then [] else [ms[0].said] + Shown(ms[1..])
  }

  function FromAgent(ms: seq<Mark>): seq<Said> {
    if |ms| == 0 then [] else (if ms[0].ByAgent? then [ms[0].said] else []) + FromAgent(ms[1..])
  }

  function Marked(said: seq<Said>, agent: bool): seq<Mark> {
    seq(|said|, k requires 0 <= k < |said| => if agent then ByAgent(said[k]) else ByServer(said[k]))
  }

  // What the server itself notes of the runtime when it serves the request.
  function Notices(s: State, req: Request, now: nat, p: string, r: string): seq<Said> {
    match req
    case Register(q, u) => Share(q, u, p, r, [Said(RuntimeOnline, 0, 0)])
    case Unregister(q, u, _) => Share(q, u, p, r, [Said(RuntimeOffline, 0, 0)])
    case Expire => Expiries(s.runtimes, 0, now, p, r)
    case _ => []
  }

  function Marks(s: State, call: Call, p: string, r: string): seq<Mark> {
    if !call.env.saves || !Handle(s, call.req, call.env).Write? then []
    else Marked(Notices(s, call.req, call.env.now, p, r), false) + Marked(Reports(Intake(s, call, p, r)), true)
  }

  function RunMarks(s: State, calls: seq<Call>, p: string, r: string): seq<Mark>
    decreases |calls|
  {
    if |calls| == 0 then []
    else Marks(s, calls[0], p, r) + RunMarks(After(s, calls[0].req, calls[0].env), calls[1..], p, r)
  }

  lemma {:induction false} ShownJoin(a: seq<Mark>, b: seq<Mark>)
    ensures Shown(a + b) == Shown(a) + Shown(b)
  {
    if |a| == 0 {
      assert a + b == b;
    } else {
      assert (a + b)[0] == a[0] && (a + b)[1..] == a[1..] + b;
      ShownJoin(a[1..], b);
    }
  }

  lemma {:induction false} FromAgentJoin(a: seq<Mark>, b: seq<Mark>)
    ensures FromAgent(a + b) == FromAgent(a) + FromAgent(b)
  {
    if |a| == 0 {
      assert a + b == b;
    } else {
      assert (a + b)[0] == a[0] && (a + b)[1..] == a[1..] + b;
      FromAgentJoin(a[1..], b);
    }
  }

  lemma MarksJoin(a: seq<Mark>, b: seq<Mark>)
    ensures Shown(a + b) == Shown(a) + Shown(b) && FromAgent(a + b) == FromAgent(a) + FromAgent(b)
  {
    ShownJoin(a, b);
    FromAgentJoin(a, b);
  }

  lemma {:induction false} MarkedShown(said: seq<Said>, agent: bool)
    ensures Shown(Marked(said, agent)) == said && FromAgent(Marked(said, agent)) == if agent then said else []
  {
    if |said| == 0 {
    } else {
      assert Marked(said, agent)[1..] == Marked(said[1..], agent);
      MarkedShown(said[1..], agent);
    }
  }

  lemma MarksShown(s: State, call: Call, p: string, r: string)
    ensures FromAgent(Marks(s, call, p, r)) == Reports(Intake(s, call, p, r))
    ensures call.env.saves && Handle(s, call.req, call.env).Write? ==>
      Shown(Marks(s, call, p, r)) == Notices(s, call.req, call.env.now, p, r) + Reports(Intake(s, call, p, r))
  {
    var notices, reports := Notices(s, call.req, call.env.now, p, r), Reports(Intake(s, call, p, r));
    MarksJoin(Marked(notices, false), Marked(reports, true));
    MarkedShown(notices, false);
    MarkedShown(reports, true);
    assert [] + reports == reports;
    hide Marked, Shown, FromAgent, Handle, Notices;
  }

  lemma RequestGains(s: State, req: Request, env: Env, p: string, r: string)
    requires Wf(s) && r != "" && !req.Events? && Handle(s, req, env).Write?
    ensures LogGains(s, Handle(s, req, env).next, p, r, Notices(s, req, env.now, p, r))
  {
    hide LogGains, Append, Acted, AddTask, Compacted, Deliver, AckAll, ActionGuard, CreateGuard, HoldsLease, FindRuntime,
      FindTask, Wf, TakeOver, Restart, Expiries;
    var next := Handle(s, req, env).next;
    match req
    case Register(q, u) => RegisterGains(s, q, u, env, p, r);
    case Heartbeat(_, _, _, _) => NothingGained(s, next, p, r);
    case Unregister(q, u, token) => UnregisterGains(s, q, u, token, env.now, p, r);
    case Expire => EveryoneExpires(s, env.now, p, r);
    case Create(q, deps, profile, key, owner) =>
      CreateGains(s, NewTask(s, q, deps, profile, key, owner, env.budget, env.now), env.now, p, r);
    case Poll(_, _, _, _) => NothingGained(s, next, p, r);
    case Ack(_, _, _, _) => NothingGained(s, next, p, r);
    case Act(task, action) => ActionGains(s, FindTask(s.tasks, task), action, env.budget, env.now, p, r);
  }

  lemma EveryoneExpires(s: State, now: nat, p: string, r: string)
    requires Wf(s)
    ensures LogGains(s, ExpireFrom(s, 0, now), p, r, Expiries(s.runtimes, 0, now, p, r))
  {
    ExpireGains(s, 0, now, s.nextId, p, r);
  }

  lemma UnregisterGains(s: State, q: string, u: string, token: nat, now: nat, p: string, r: string)
    requires HandleUnregister(s, q, u, token, now).Write?
    ensures LogGains(s, HandleUnregister(s, q, u, token, now).next, p, r, Share(q, u, p, r, [Said(RuntimeOffline, 0, 0)]))
  {
    var i, said := FindRuntime(s.runtimes, q, u), Share(q, u, p, r, [Said(RuntimeOffline, 0, 0)]);
    var s1 := s.(runtimes := s.runtimes[i := s.runtimes[i].(status := Offline, lastSeen := now, lease := 0)]);
    NothingGained(s, s1, p, r);
    AppendGains(s1, q, RuntimeOffline, 0, u, 0, false, p, r);
    hide LogGains, Append;
    assert [] + said == said;
    GainsTrans(s, s1, Append(s1, q, RuntimeOffline, 0, u, 0, false), p, r, [], said);
  }

  lemma StepMarked(s: State, call: Call, p: string, r: string)
    requires Wf(s) && r != ""
    ensures LogGains(s, After(s, call.req, call.env), p, r, Shown(Marks(s, call, p, r)))
  {
    var req, env := call.req, call.env;
    MarksShown(s, call, p, r);
    hide Shown, LogGains, Handle, Wf, Intake;
    if !(env.saves && Handle(s, req, env).Write?) {
      NothingGained(s, After(s, req, env), p, r);
      assert Shown([]) == [] by { MarkedShown([], false); }
    } else if req.Events? {
      BatchGains(s, call, p, r);
      BatchShare(s, call, p, r);
    } else {
      RequestGains(s, req, env, p, r);
      OtherShare(s, call, p, r);
    }
  }

  lemma BatchShare(s: State, call: Call, p: string, r: string)
    requires BatchSaved(s, call.req, call.env)
    ensures var q, u := call.req.project, call.req.runtime;
      Notices(s, call.req, call.env.now, p, r) + Reports(Intake(s, call, p, r))
      == Share(q, u, p, r, Reports(Intake(s, call, q, u)))
  {
    hide Handle, Selected;
  }

  lemma OtherShare(s: State, call: Call, p: string, r: string)
    requires !call.req.Events?
    ensures var notices := Notices(s, call.req, call.env.now, p, r); notices + Reports(Intake(s, call, p, r)) == notices
  {
    hide Handle, Selected, Notices;
  }

  lemma ReportsJoin(a: seq<RawEvent>, b: seq<RawEvent>)
    requires Objects(a) && Objects(b)
    ensures Objects(a + b) && Reports(a + b) == Reports(a) + Reports(b)
  {
    hide SaidOf;
    assert forall k :: 0 <= k < |a + b| ==> (a + b)[k] == if k < |a| then a[k] else b[k - |a|];
    assert Objects(a + b);
  }

  /** Over any run a project's log gains, of each runtime, exactly its notices and the events taken from it,
      each once and in the order of the requests; what everybody else logs names other runtimes or none. */
  lemma {:induction false} RunMarked(s: State, calls: seq<Call>, p: string, r: string)
    requires Wf(s) && r != ""
    ensures LogGains(s, Run(s, calls), p, r, Shown(RunMarks(s, calls, p, r)))
    ensures Objects(TotalIntake(s, calls, p, r)) && FromAgent(RunMarks(s, calls, p, r)) == Reports(TotalIntake(s, calls, p, r))
    decreases |calls|
  {
    if |calls| == 0 {
      NothingGained(s, s, p, r);
    } else {
      hide Wf, LogGains, After, Intake, Marks;
      var s1 := After(s, calls[0].req, calls[0].env);
      var first, rest := Marks(s, calls[0], p, r), RunMarks(s1, calls[1..], p, r);
      StepGrows(s, calls[0].req, calls[0].env);
      StepMarked(s, calls[0], p, r);
      MarksShown(s, calls[0], p, r);
      RunMarked(s1, calls[1..], p, r);
      MarksJoin(first, rest);
      GainsTrans(s, s1, Run(s1, calls[1..]), p, r, Shown(first), Shown(rest));
      ReportsJoin(Intake(s, calls[0], p, r), TotalIntake(s1, calls[1..], p, r));
    }
  }

  // The server's own notices say that the runtime has come or gone.
  ghost predicate ComingAndGoing(ms: seq<Mark>) {
    forall m :: m in ms && m.ByServer? ==> m.said in {Said(RuntimeOnline, 0, 0), Said(RuntimeOffline, 0, 0)}
  }

  lemma CallNotices(s: State, call: Call, p: string, r: string)
    ensures ComingAndGoing(Marks(s, call, p, r))
  {
    hide Handle, Intake, Reports;
    var notices := Notices(s, call.req, call.env.now, p, r);
    assert forall x :: x in notices ==> x in {Said(RuntimeOnline, 0, 0), Said(RuntimeOffline, 0, 0)};
  }

  lemma {:induction false} NoticesOnly(s: State, calls: seq<Call>, p: string, r: string)
    ensures ComingAndGoing(RunMarks(s, calls, p, r))
    decreases |calls|
  {
    if |calls| == 0 {
    } else {
      hide After, Marks;
      CallNotices(s, calls[0], p, r);
      NoticesOnly(After(s, calls[0].req, calls[0].env), calls[1..], p, r);
    }
  }

  /** The whole way from the agent's stream to the log: after a registration and any requests that do not
      repeat it, the project's history has gained, of this runtime, the stream up to the registration's
      `lastSequence`, once each and in order, with only the server's notices between. */
  lemma StreamIsLogged(s: State, p: string, r: string, env: Env, calls: seq<Call>, stream: seq<RawEvent>, all: seq<Event>)
      returns (added: seq<Event>, marks: seq<Mark>, last: nat)
    requires Wf(s) && Reply(s, Register(p, r), env).Registered? && Objects(stream)
    requires IsStream(stream) && OneRegistration(calls, p, r, stream)
    requires History(After(s, Register(p, r), env), p, all)
    ensures var s' := Run(After(s, Register(p, r), env), calls);
      && HasLast(s'.runtimes, p, r, last) && last <= |stream|
      && History(s', p, all + added) && SentBy(added, r) == Shown(marks) && FromAgent(marks) == Reports(stream[..last])
      && marks == RunMarks(After(s, Register(p, r), env), calls, p, r)
      && forall m :: m in marks && m.ByServer? ==> m.said in {Said(RuntimeOnline, 0, 0), Said(RuntimeOffline, 0, 0)}
  {
    var s1 := After(s, Register(p, r), env);
    var s' := Run(s1, calls);
    assert r != "";
    hide After, Run, RunMarks, TotalIntake, Wf, History, HasLast, OneRegistration, IsStream;
    StepGrows(s, Register(p, r), env);
    FreshRegistration(s, p, r, env);
    IntakeContinues(s1, calls, p, r, 0, stream);
    RunMarked(s1, calls, p, r);
    NoticesOnly(s1, calls, p, r);
    marks, last := RunMarks(s1, calls, p, r), |TotalIntake(s1, calls, p, r)|;
    added := Gained(s1, s', p, r, Shown(marks), all);
  }

  lemma Gained(s: State, s': State, p: string, r: string, said: seq<Said>, all: seq<Event>) returns (added: seq<Event>)
    requires LogGains(s, s', p, r, said) && History(s, p, all)
    ensures History(s', p, all + added) && SentBy(added, r) == said
  {
    if SameLog(s, s', p) && said == [] {
      added := [];
      assert all + added == all;
    } else {
      added :| LogAdds(s, s', p, added) && SentBy(added, r) == said;
      HistoryAdds(s, s', p, all, added);
    }
  }
}
