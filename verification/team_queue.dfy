/**
  The command queue: what compaction removes, how a command may leave the queue,
  what a takeover guarantees, and what a retry leaves behind.
 */
module TeamQueue {
  import opened TeamModel
  import opened TeamFrames
  import opened TeamSteps
  import opened TeamScheduler

  // -------------------------------------------------------------------- compaction

  // Unfinished, of another project, or among the newest finished ones of this project.
  predicate Survives(cs: seq<Command>, p: string, k: nat)
    requires k < |cs|
  {
    cs[k].project == p && Terminal(cs[k]) ==> TerminalCount(cs[k..], p) <= HISTORY_LIMIT
  }

  lemma FirstCompacted(cs: seq<Command>, p: string)
    requires |cs| > 0
    ensures Compacted(cs, p) == (if Survives(cs, p, 0) then [cs[0]] else []) + Compacted(cs[1..], p)
  {
    assert cs[0..] == cs;
  }

  /** Compaction keeps exactly the surviving commands, in their old order. */
  lemma {:induction false} CompactionExact(cs: seq<Command>, p: string, n: nat)
    requires CommandsWf(cs, n)
    ensures CommandsWf(Compacted(cs, p), n)
    ensures forall c :: c in Compacted(cs, p) ==> c in cs
    ensures forall k :: 0 <= k < |cs| ==> (cs[k] in Compacted(cs, p) <==> Survives(cs, p, k))
  {
    CompactedFrom(cs, p, n);
    if |cs| == 0 {
    } else {
      CompactionExact(cs[1..], p, n);
      assert cs[0..] == cs;
      assert forall j :: 0 <= j < |cs[1..]| ==> cs[1..][j] == cs[j + 1];
      assert cs[0] !in cs[1..];
      FirstCompacted(cs, p);
      hide Compacted, TerminalCount;
      forall k | 1 <= k < |cs| ensures cs[k] in Compacted(cs, p) <==> Survives(cs, p, k) {
        assert cs[k..] == cs[1..][k - 1..];
        assert Survives(cs, p, k) <==> Survives(cs[1..], p, k - 1);
        assert cs[k] != cs[0];
      }
    }
  }

  /** What is left of the project's finished commands is the limit, or all of them if there were fewer. */
  lemma {:induction false} CompactionCount(cs: seq<Command>, p: string)
    ensures TerminalCount(Compacted(cs, p), p) ==
            if TerminalCount(cs, p) <= 2000 then TerminalCount(cs, p) else 2000
  {
    if |cs| == 0 {
    } else {
      CompactionCount(cs[1..], p);
      var rest := Compacted(cs[1..], p);
      assert ([cs[0]] + rest)[1..] == rest;
    }
  }

  // -------------------------------------------------------------------- unfinished work

  // The command is still in the queue and still unfinished.
  ghost predicate Held(cs: seq<Command>, c: Command) {
    exists c' :: c' in cs && SameCommand(c, c') && !Terminal(c')
  }

  // Unfinished commands are held, except those of the tasks named.
  ghost predicate Holds(cs: seq<Command>, cs': seq<Command>, except: set<nat>) {
    forall c :: c in cs && !Terminal(c) && c.task !in except ==> Held(cs', c)
  }

  lemma HoldsRefl(cs: seq<Command>, except: set<nat>)
    ensures Holds(cs, cs, except)
  {
    assert forall c :: c in cs ==> SameCommand(c, c);
  }

  lemma HoldsTrans(a: seq<Command>, b: seq<Command>, c: seq<Command>, except: set<nat>)
    requires Holds(a, b, except) && Holds(b, c, except)
    ensures Holds(a, c, except)
  {
    forall x | x in a && !Terminal(x) && x.task !in except ensures Held(c, x) {
      assert Held(b, x);
      var y :| y in b && SameCommand(x, y) && !Terminal(y);
      assert Held(c, y);
      var z :| z in c && SameCommand(y, z) && !Terminal(z);
      assert SameCommand(x, z);
    }
  }

  lemma {:induction false} CompactKeepsPending(cs: seq<Command>, p: string)
    ensures forall c :: c in cs && !Terminal(c) ==> c in Compacted(cs, p)
  {
    if |cs| == 0 {
    } else {
      CompactKeepsPending(cs[1..], p);
    }
  }

  lemma EnqueueHolds(s: State, t: Task, kind: Kind, attempt: nat, now: nat, except: set<nat>)
    ensures Holds(s.commands, Enqueue(s, t, kind, attempt, now).commands, except)
  {
    HoldsRefl(s.commands, except);
    var i := FindReachable(s.runtimes, t.project, now);
    if i < |s.runtimes| {
      var cs := s.commands + [Command(s.nextId, t.project, s.runtimes[i].runtime, t.id, kind, Queued, attempt, 0, 0)];
      CompactKeepsPending(cs, t.project);
      forall c | c in s.commands && !Terminal(c) ensures Held(Compacted(cs, t.project), c) {
        assert c in cs && SameCommand(c, c);
      }
    }
  }

  lemma SupersedeHolds(cs: seq<Command>, task: nat)
    ensures Holds(cs, Supersede(cs, task), {task})
  {
    forall c | c in cs && !Terminal(c) && c.task != task ensures Held(Supersede(cs, task), c) {
      var k :| 0 <= k < |cs| && cs[k] == c;
      assert Supersede(cs, task)[k] == c;
    }
  }

  lemma EnqueueAfterHolds(s: State, s1: State, t: Task, kind: Kind, now: nat, except: set<nat>)
    requires s1.commands == s.commands
    ensures Holds(s.commands, Enqueue(s1, t, kind, t.attempt, now).commands, except)
  {
    EnqueueHolds(s1, t, kind, t.attempt, now, except);
  }

  lemma VisitHolds(s: State, budget: nat, p: string, i: nat, now: nat, except: set<nat>)
    requires i < |s.tasks|
    ensures Holds(s.commands, Visit(s, budget, p, i, now).commands, except)
  {
    var u := s.tasks[i].(status := Accepted, updatedAt := now);
    var s1 := Append(PutTask(s, i, u), p, TaskReady, u.id, "", 0, false);
    if Visit(s, budget, p, i, now).commands == s.commands {
      HoldsRefl(s.commands, except);
    } else {
      assert Visit(s, budget, p, i, now) == Enqueue(s1, u, StartTask, u.attempt, now);
      EnqueueAfterHolds(s, s1, u, StartTask, now, except);
    }
  }

  lemma {:induction false} PassHolds(s: State, budget: nat, p: string, i: nat, now: nat, except: set<nat>)
    requires i <= |s.tasks|
    ensures Holds(s.commands, Pass(s, budget, p, i, now).commands, except)
    decreases |s.tasks| - i
  {
    hide Holds, Visit;
    if i == |s.tasks| {
      HoldsRefl(s.commands, except);
    } else {
      var s1 := Visit(s, budget, p, i, now);
      VisitHolds(s, budget, p, i, now, except);
      PassHolds(s1, budget, p, i + 1, now, except);
      HoldsTrans(s.commands, s1.commands, Pass(s1, budget, p, i + 1, now).commands, except);
    }
  }

  lemma {:induction false} ActivateHolds(s: State, budget: nat, p: string, now: nat, except: set<nat>)
    ensures Holds(s.commands, Activate(s, budget, p, now).commands, except)
    decreases Rank(s.tasks)
  {
    hide Holds, Pass;
    var s1 := Pass(s, budget, p, 0, now);
    PassHolds(s, budget, p, 0, now, except);
    PassRank(s, budget, p, 0, now);
    if s1.tasks == s.tasks {
    } else {
      ActivateHolds(s1, budget, p, now, except);
      HoldsTrans(s.commands, s1.commands, Activate(s1, budget, p, now).commands, except);
    }
  }

  lemma ApplyEventHolds(s: State, p: string, r: string, e: RawEvent, budget: nat, now: nat)
    requires Ids(s.tasks) && e.RawEvent?
    ensures Holds(s.commands, ApplyEvent(s, p, r, e, budget, now).commands, {})
  {
    var s1 := EventPut(s, p, r, e, now);
    EventShape(s, p, r, e, budget, now);
    assert s1.commands == s.commands;
    if SetsOff(s, p, e) {
      ActivateHolds(s1, budget, p, now, {});
    } else {
      HoldsRefl(s.commands, {});
    }
  }

  lemma WfIds(s: State)
    requires Wf(s)
    ensures Ids(s.tasks)
  {
  }

  lemma {:induction false} ApplyAllHolds(s: State, p: string, r: string, es: seq<RawEvent>, budget: nat, now: nat)
    requires Wf(s) && Objects(es)
    ensures Holds(s.commands, ApplyAll(s, p, r, es, budget, now).commands, {})
    decreases |es|
  {
    hide Wf, Keeps, Holds, ApplyEvent, Ids;
    WfIds(s);
    if |es| == 0 {
      HoldsRefl(s.commands, {});
    } else {
      var s1 := ApplyEvent(s, p, r, es[0], budget, now);
      ApplyEventHolds(s, p, r, es[0], budget, now);
      ApplyEventKeeps(s, p, r, es[0], budget, now);
      WfKept(s, s1);
      ApplyAllHolds(s1, p, r, es[1..], budget, now);
      HoldsTrans(s.commands, s1.commands, ApplyAll(s1, p, r, es[1..], budget, now).commands, {});
    }
  }

  lemma {:induction false} RestartHolds(s: State, p: string, i: nat, now: nat)
    requires i <= |s.tasks|
    ensures Holds(s.commands, Restart(s, p, i, now).commands, {})
    decreases |s.tasks| - i
  {
    hide Holds;
    if i == |s.tasks| {
      HoldsRefl(s.commands, {});
    } else {
      var t := s.tasks[i];
      var s1 := RestartOne(s, p, t, now);
      HoldsRefl(s.commands, {});
      EnqueueHolds(s, t, StartTask, t.attempt, now, {});
      RestartHolds(s1, p, i + 1, now);
      HoldsTrans(s.commands, s1.commands, Restart(s1, p, i + 1, now).commands, {});
    }
  }

  lemma ActionHolds(s: State, i: nat, action: Action, budget: nat, now: nat)
    requires i < |s.tasks|
    ensures Holds(s.commands, ActInput(s, i, action, now).commands, {})
    ensures Holds(s.commands, ActReject(s, i, budget, now).commands, {})
    ensures Holds(s.commands, ActApprove(s, i, now).commands, {})
  {
    HoldsRefl(s.commands, {});
    var t := s.tasks[i].(updatedAt := now);
    EnqueueHolds(Append(PutTask(s, i, t), t.project, TaskAction(action), t.id, "", 0, false), t, InputTask, t.attempt, now, {});
    var u := s.tasks[i].(approval := Rejected, status := Blocked, updatedAt := now);
    ActivateHolds(Append(PutTask(s, i, u), u.project, TaskAction(Reject), u.id, "", 0, false), budget, u.project, now, {});
  }

  lemma CancelHolds(s: State, i: nat, budget: nat, now: nat)
    requires i < |s.tasks|
    ensures Holds(s.commands, ActCancel(s, i, budget, now).commands, {s.tasks[i].id})
  {
    var id := s.tasks[i].id;
    var t := s.tasks[i].(status := Cancelled, cancellation := Manual, updatedAt := now);
    var s1 := Append(PutTask(s, i, t), t.project, TaskAction(Cancel), t.id, "", 0, false);
    var s2 := s1.(commands := Supersede(s1.commands, id));
    var s3 := Activate(s2, budget, t.project, now);
    SupersedeHolds(s.commands, id);
    ActivateHolds(s2, budget, t.project, now, {id});
    HoldsTrans(s.commands, s2.commands, s3.commands, {id});
    EnqueueHolds(s3, t, CancelTask, t.attempt, now, {id});
    HoldsTrans(s.commands, s3.commands, Enqueue(s3, t, CancelTask, t.attempt, now).commands, {id});
  }

  lemma CompleteHolds(s: State, i: nat, budget: nat, now: nat)
    requires i < |s.tasks|
    ensures Holds(s.commands, ActComplete(s, i, budget, now).commands, {s.tasks[i].id})
  {
    var id := s.tasks[i].id;
    var t := s.tasks[i].(status := Completed, completion := Manual, updatedAt := now);
    var s1 := Append(PutTask(s, i, t), t.project, TaskAction(Complete), t.id, "", 0, false);
    var s2 := s1.(commands := Supersede(s1.commands, id));
    var s3 := Enqueue(s2, t, CancelTask, t.attempt, now);
    SupersedeHolds(s.commands, id);
    EnqueueHolds(s2, t, CancelTask, t.attempt, now, {id});
    HoldsTrans(s.commands, s2.commands, s3.commands, {id});
    ActivateHolds(s3, budget, t.project, now, {id});
    HoldsTrans(s.commands, s3.commands, Activate(s3, budget, t.project, now).commands, {id});
  }

  lemma RetryHolds(s: State, i: nat, budget: nat, now: nat)
    requires i < |s.tasks|
    ensures Holds(s.commands, ActRetry(s, i, budget, now).commands, {s.tasks[i].id})
  {
    var t := s.tasks[i];
    var s0 := s.(commands := Supersede(s.commands, t.id));
    var s1 := Enqueue(s0, t, CancelTask, t.attempt, now);
    SupersedeHolds(s.commands, t.id);
    EnqueueHolds(s0, t, CancelTask, t.attempt, now, {t.id});
    HoldsTrans(s.commands, s0.commands, s1.commands, {t.id});
    var t' := RetriedTask(s1, t, budget, now);
    var s2 := Append(PutTask(s1, i, t'), t.project, TaskAction(Retry), t.id, "", 0, false);
    EnqueueHolds(s2, t', StartTask, t'.attempt, now, {t.id});
    HoldsTrans(s.commands, s1.commands, Enqueue(s2, t', StartTask, t'.attempt, now).commands, {t.id});
  }

  // The only requests after which this unfinished command may be finished.
  predicate MayFinish(req: Request, c: Command) {
    match req
    case Ack(p, r, _, ids) => c.project == p && c.runtime == r && c.status == Delivered && c.id in ids
    case Act(task, action) => c.task == task && (action.Cancel? || action.Retry? || action.Complete?)
    case _ => false
  }

  lemma EventsHold(s: State, p: string, r: string, token: nat, batch: seq<RawEvent>, budget: nat, now: nat)
    requires Wf(s)
    ensures var o := HandleEvents(s, p, r, token, batch, budget, now); o.Write? ==> Holds(s.commands, o.next.commands, {})
  {
    if HandleEvents(s, p, r, token, batch, budget, now).Write? {
      var last := s.runtimes[FindRuntime(s.runtimes, p, r)].lastSequence;
      ValidObjects(s.tasks, p, batch, last, last);
      ApplyAllHolds(s, p, r, Selected(batch, last), budget, now);
    }
  }

  lemma CreateHolds(s: State, t: Task, now: nat)
    ensures Holds(s.commands, AddTask(s, t, now).commands, {})
  {
    HoldsRefl(s.commands, {});
    hide Holds, LastN;
    EnqueueAfterHolds(s, Announced(s, t, CreationEvent(t.status)), t, StartTask, now, {});
  }

  lemma HandleHolds(s: State, req: Request, env: Env, c: Command)
    requires Wf(s) && c in s.commands && !Terminal(c) && !MayFinish(req, c)
    ensures var o := Handle(s, req, env); o.Write? ==> Held(o.next.commands, c)
  {
    hide Wf, Compacted, AckAll, CreateGuard, HoldsLease, FindCurrent, AnyExpired, HandleAction, LastN, DepStatus, Fits,
         FindRuntime, TakeOver, Restart, ApplyAll, Selected, LastTaken, ReplaceRuntime, Validate, AddTask, Deliver;
    match req
    case Register(p, r) => RegisterHolds(s, p, r, env.now, c);
    case Heartbeat(_, _, _, _) => HoldsRefl(s.commands, {});
    case Unregister(_, _, _) => HoldsRefl(s.commands, {});
    case Events(p, r, token, batch) => EventsHold(s, p, r, token, batch, env.budget, env.now);
    case Expire => ExpireTasks(s, 0, env.now); HoldsRefl(s.commands, {});
    case Create(p, deps, profile, key, owner) =>
      CreateHolds(s, NewTask(s, p, deps, profile, key, owner, env.budget, env.now), env.now);
    case Poll(p, r, token, limit) => PollHolds(s, p, r, limit, env.now, c);
    case Ack(p, r, token, ids) => AckHolds(s, p, r, ids, c);
    case Act(task, action) => ActHolds(s, task, action, env.budget, env.now, c);
  }

  lemma ActHolds(s: State, task: nat, action: Action, budget: nat, now: nat, c: Command)
    requires c in s.commands && !Terminal(c) && !MayFinish(Act(task, action), c)
    ensures var o := HandleAction(s, task, action, budget, now); o.Write? ==> Held(o.next.commands, c)
  {
    hide ActInput, ActCancel, ActRetry, ActComplete, ActApprove, ActReject, ActionGuard, FindTask;
    var i := FindTask(s.tasks, task);
    if i < |s.tasks| {
      match action
      case Input(_) => ActionHolds(s, i, action, budget, now);
      case Approve => ActionHolds(s, i, action, budget, now);
      case Reject => ActionHolds(s, i, action, budget, now);
      case Cancel => CancelHolds(s, i, budget, now);
      case Retry => RetryHolds(s, i, budget, now);
      case Complete => CompleteHolds(s, i, budget, now);
    }
  }

  lemma RegisterHolds(s: State, p: string, r: string, now: nat, c: Command)
    requires c in s.commands && !Terminal(c)
    ensures Held(Restart(TakeOver(s, p, r, now), p, 0, now).commands, c)
  {
    var s1 := TakeOver(s, p, r, now);
    var k :| 0 <= k < |s.commands| && s.commands[k] == c;
    var d := RequeuedFor(c, p, r);
    assert s1.commands[k] == d && d in s1.commands;
    RestartHolds(s1, p, 0, now);
    assert Held(Restart(s1, p, 0, now).commands, d);
    var e :| e in Restart(s1, p, 0, now).commands && SameCommand(d, e) && !Terminal(e);
    assert SameCommand(c, e);
  }

  lemma PollHolds(s: State, p: string, r: string, limit: nat, now: nat, c: Command)
    requires c in s.commands && !Terminal(c)
    ensures Held(Deliver(s.commands, p, r, now, limit).0, c)
  {
    DeliverFrom(s.commands, p, r, now, limit);
    var cs := Deliver(s.commands, p, r, now, limit).0;
    var k :| 0 <= k < |s.commands| && s.commands[k] == c;
    assert cs[k] in cs && SameCommand(c, cs[k]);
  }

  lemma AckHolds(s: State, p: string, r: string, ids: seq<nat>, c: Command)
    requires c in s.commands && !Terminal(c) && AckedIf(c, p, r, ids) == c
    ensures Held(Compacted(AckAll(s.commands, p, r, ids), p), c)
  {
    var cs := AckAll(s.commands, p, r, ids);
    var k :| 0 <= k < |s.commands| && s.commands[k] == c;
    assert cs[k] == c;
    CompactKeepsPending(cs, p);
    assert SameCommand(c, c);
  }

  /** An unfinished command leaves the queue's unfinished part only by an ack of its own runtime
      after delivery, or by cancel, retry or complete of its task. */
  lemma StepHolds(s: State, req: Request, env: Env, c: Command)
    requires Wf(s) && c in s.commands && !Terminal(c) && !MayFinish(req, c)
    ensures Held(After(s, req, env).commands, c)
  {
    assert SameCommand(c, c);
    match Handle(s, req, env)
    case Keep(_) =>
    case Write(next, _) =>
      HandleHolds(s, req, env, c);
      if env.saves { assert After(s, req, env) == next; }
  }

  /** A finished command never changes again: whatever bears its id in a later state is that command itself. */
  lemma FinishedForever(s: State, calls: seq<Call>, c: Command, c': Command)
    requires Wf(s) && c in s.commands && Terminal(c)
    requires c' in Run(s, calls).commands && c'.id == c.id
    ensures c' == c
  {
    hide Run, TasksKept, RuntimesKept, LogsGrow;
    RunGrows(s, calls);
    OnlyOfItsId(s, c, c', Run(s, calls));
  }

  lemma OnlyOfItsId(s: State, c: Command, c': Command, later: State)
    requires CommandsWf(s.commands, s.nextId) && CommandsKept(s.commands, later.commands, s.nextId)
    requires c in s.commands && Terminal(c) && c' in later.commands && c'.id == c.id
    ensures c' == c
  {
    assert From(s.commands, c');
    var x :| x in s.commands && SameCommand(x, c');
    var i :| 0 <= i < |s.commands| && s.commands[i] == x;
    var j :| 0 <= j < |s.commands| && s.commands[j] == c;
    assert i == j;
  }

  // The commands a poll could hand out, in queue order, as they look once delivered.
  function Ready(cs: seq<Command>, p: string, r: string, now: nat): seq<Command> {
    if |cs| == 0 then []
    else (if Deliverable(cs[0], p, r, now) then [DeliveredAt(cs[0], now)] else []) + Ready(cs[1..], p, r, now)
  }

  // A poll that asks for none still gets one.
  function AtLeastOne(limit: nat): nat { if limit == 0 then 1 else limit }

  // Command k is one of the first `limit` that are ready.
  predicate Handed(cs: seq<Command>, p: string, r: string, now: nat, limit: nat, k: nat)
    requires k < |cs|
  {
    Deliverable(cs[k], p, r, now) && |Ready(cs[..k], p, r, now)| < AtLeastOne(limit)
  }

  // The first n of them.
  function First(ready: seq<Command>, n: nat): seq<Command> { if |ready| <= n then ready else ready[..n] }

  lemma FirstOf(c: Command, rest: seq<Command>, n: nat)
    requires n >= 1
    ensures First([c] + rest, n) == [c] + First(rest, n - 1)
  {
  }

  lemma {:induction false} DeliverItems(cs: seq<Command>, p: string, r: string, now: nat, room: nat)
    ensures Deliver(cs, p, r, now, room).1 == First(Ready(cs, p, r, now), AtLeastOne(room))
    ensures |Deliver(cs, p, r, now, room).0| == |cs|
  {
    hide Deliverable, DeliveredAt, First;
    if |cs| == 0 {
      assert Ready(cs, p, r, now) == [];
      assert First([], AtLeastOne(room)) == [] by { FirstNone(AtLeastOne(room)); }
    } else if !Deliverable(cs[0], p, r, now) {
      DeliverItems(cs[1..], p, r, now, room);
      assert Ready(cs, p, r, now) == Ready(cs[1..], p, r, now);
    } else {
      var c, rest := DeliveredAt(cs[0], now), Ready(cs[1..], p, r, now);
      assert Ready(cs, p, r, now) == [c] + rest;
      FirstOf(c, rest, AtLeastOne(room));
      if room > 1 {
        DeliverItems(cs[1..], p, r, now, room - 1);
      } else {
        FirstZero(rest);
      }
    }
  }

  lemma FirstNone(n: nat)
    ensures First([], n) == []
  {
  }

  lemma FirstZero(ready: seq<Command>)
    ensures First(ready, 0) == []
  {
  }

  lemma ReadyBefore(cs: seq<Command>, p: string, r: string, now: nat, k: nat)
    requires 0 < k <= |cs|
    ensures |Ready(cs[..k], p, r, now)| ==
            (if Deliverable(cs[0], p, r, now) then 1 else 0) + |Ready(cs[1..][..k - 1], p, r, now)|
  {
    assert cs[..k][0] == cs[0] && cs[..k][1..] == cs[1..][..k - 1];
  }

  lemma {:induction false} DeliverChanges(cs: seq<Command>, p: string, r: string, now: nat, room: nat, k: nat)
    requires k < |cs|
    ensures var cs' := Deliver(cs, p, r, now, room).0;
      |cs'| == |cs| && cs'[k] == if Handed(cs, p, r, now, room, k) then DeliveredAt(cs[k], now) else cs[k]
  {
    hide Deliverable, DeliveredAt;
    DeliverItems(cs, p, r, now, room);
    if k == 0 {
    } else {
      var rest := if !Deliverable(cs[0], p, r, now) then room else if room <= 1 then 0 else room - 1;
      ReadyBefore(cs, p, r, now, k);
      DeliverChanges(cs[1..], p, r, now, rest, k - 1);
      assert cs[k] == cs[1..][k - 1];
    }
  }

  /** A served poll hands out exactly the first available commands of the asking runtime, in queue order and
      at most as many as asked for, and changes those and no others. */
  lemma PollExact(s: State, p: string, r: string, token: nat, limit: nat, env: Env)
    requires Reply(s, Poll(p, r, token, limit), env).Items?
    ensures var items, cs := Reply(s, Poll(p, r, token, limit), env).items, After(s, Poll(p, r, token, limit), env).commands;
      var ready := Ready(s.commands, p, r, env.now);
      && items == First(ready, AtLeastOne(limit))
      && |cs| == |s.commands|
      && forall k :: 0 <= k < |cs| ==>
           cs[k] == if Handed(s.commands, p, r, env.now, limit, k) then DeliveredAt(s.commands[k], env.now) else s.commands[k]
  {
    hide Deliver, Ready, Handed, Deliverable, DeliveredAt, HoldsLease, FindRuntime;
    DeliverItems(s.commands, p, r, env.now, limit);
    forall k | 0 <= k < |s.commands|
      ensures var cs' := Deliver(s.commands, p, r, env.now, limit).0;
        cs'[k] == if Handed(s.commands, p, r, env.now, limit, k) then DeliveredAt(s.commands[k], env.now) else s.commands[k]
    {
      DeliverChanges(s.commands, p, r, env.now, limit, k);
    }
    if |Deliver(s.commands, p, r, env.now, limit).1| == 0 { NoneHanded(s.commands, p, r, env.now, limit); }
  }

  lemma NoneHanded(cs: seq<Command>, p: string, r: string, now: nat, limit: nat)
    requires |Ready(cs, p, r, now)| == 0
    ensures forall k :: 0 <= k < |cs| ==> !Handed(cs, p, r, now, limit, k)
  {
    forall k | 0 <= k < |cs| ensures !Deliverable(cs[k], p, r, now) { NotReady(cs, p, r, now, k); }
  }

  lemma {:induction false} NotReady(cs: seq<Command>, p: string, r: string, now: nat, k: nat)
    requires |Ready(cs, p, r, now)| == 0 && k < |cs|
    ensures !Deliverable(cs[k], p, r, now)
  {
    if k == 0 {
    } else {
      NotReady(cs[1..], p, r, now, k - 1);
    }
  }

  /** A served ack finishes every command it names that was delivered to its runtime: what is left of it is
      acked, and nothing else but compaction touches the queue. */
  lemma AckFinishes(s: State, p: string, r: string, token: nat, ids: seq<nat>, env: Env, c: Command, c': Command)
    requires Wf(s) && Reply(s, Ack(p, r, token, ids), env) == Done
    requires c in s.commands && c' in After(s, Ack(p, r, token, ids), env).commands && c'.id == c.id
    ensures c' == if c.project == p && c.runtime == r && c.status == Delivered && c.id in ids then c.(status := Acked) else c
  {
    assert CommandsWf(s.commands, s.nextId);
    hide Wf, CommandsWf, Compacted, AckAll, HoldsLease, FindRuntime;
    AckedQueue(s.commands, s.nextId, p, r, ids, c, c');
  }

  lemma AckedQueue(cs: seq<Command>, n: nat, p: string, r: string, ids: seq<nat>, c: Command, c': Command)
    requires CommandsWf(cs, n) && c in cs && c' in Compacted(AckAll(cs, p, r, ids), p) && c'.id == c.id
    ensures c' == AckedIf(c, p, r, ids)
  {
    var q := AckAll(cs, p, r, ids);
    AckedWf(cs, n, p, r, ids);
    CompactionExact(q, p, n);
    assert c' in q;
    hide Compacted, Survives, TerminalCount, CommandsWf, AckAll;
    var k :| 0 <= k < |cs| && cs[k] == c;
    var j :| 0 <= j < |q| && q[j] == c';
    SameId(cs, n, j, k);
  }

  lemma AckedWf(cs: seq<Command>, n: nat, p: string, r: string, ids: seq<nat>)
    requires CommandsWf(cs, n)
    ensures CommandsWf(AckAll(cs, p, r, ids), n)
  {
    assert forall k :: 0 <= k < |cs| ==> AckAll(cs, p, r, ids)[k].id == cs[k].id;
  }

  lemma SameId(cs: seq<Command>, n: nat, j: nat, k: nat)
    requires CommandsWf(cs, n) && j < |cs| && k < |cs| && cs[j].id == cs[k].id
    ensures j == k
  {
  }

  // ---------------------------------------------------------------------- takeover

  // Nothing unfinished of the project is out with anybody, or addressed to anybody else.
  ghost predicate AllQueuedFor(cs: seq<Command>, p: string, r: string) {
    forall c :: c in cs && c.project == p && !Terminal(c) ==> c.runtime == r && c.status == Queued
  }

  ghost predicate OnlyReachable(rs: seq<Runtime>, p: string, r: string, now: nat) {
    && FindReachable(rs, p, now) < |rs|
    && forall x :: x in rs && Reachable(x, p, now) ==> x.runtime == r
  }

  lemma EnqueueQueuedFor(s: State, t: Task, p: string, r: string, now: nat)
    requires t.project == p && AllQueuedFor(s.commands, p, r) && OnlyReachable(s.runtimes, p, r, now)
    requires CommandsWf(s.commands, s.nextId) && s.nextId >= 1
    ensures AllQueuedFor(Enqueue(s, t, StartTask, t.attempt, now).commands, p, r)
    ensures AllCompleted(s.tasks, t.deps) ==> StartPending(Enqueue(s, t, StartTask, t.attempt, now).commands, t.id)
  {
    DepStatusMeaning(s.tasks, t.deps);
    var i := FindReachable(s.runtimes, p, now);
    assert s.runtimes[i] in s.runtimes;
    var c := Command(s.nextId, p, s.runtimes[i].runtime, t.id, StartTask, Queued, t.attempt, 0, 0);
    var cs := s.commands + [c];
    assert CommandsWf(cs, s.nextId + 1);
    CompactedFrom(cs, p, s.nextId + 1);
    CompactKeepsPending(cs, p);
    assert c in cs;
    var k :| 0 <= k < |Compacted(cs, p)| && Compacted(cs, p)[k] == c;
  }

  lemma StartPendingHeld(cs: seq<Command>, cs': seq<Command>, task: nat)
    requires StartPending(cs, task) && Holds(cs, cs', {})
    ensures StartPending(cs', task)
  {
    var k :| 0 <= k < |cs| && cs[k].task == task && cs[k].kind == StartTask && !Terminal(cs[k]);
    assert cs[k] in cs;
    assert Held(cs', cs[k]);
    var c :| c in cs' && SameCommand(cs[k], c) && !Terminal(c);
    var j :| 0 <= j < |cs'| && cs'[j] == c;
  }

  // Every accepted task of the project from position i on that is free to run has a start command waiting.
  predicate StartsCovered(ts: seq<Task>, cs: seq<Command>, p: string, i: nat) {
    forall j :: i <= j < |ts| && ts[j].project == p && ts[j].status == Accepted && AllCompleted(ts, ts[j].deps)
      ==> StartPending(cs, ts[j].id)
  }

  lemma RestartOneCovers(s: State, t: Task, p: string, r: string, now: nat)
    requires Wf(s) && AllQueuedFor(s.commands, p, r) && OnlyReachable(s.runtimes, p, r, now)
    ensures var s1 := RestartOne(s, p, t, now);
      && AllQueuedFor(s1.commands, p, r) && s1.runtimes == s.runtimes && s1.tasks == s.tasks
      && (t.project == p && t.status == Accepted && AllCompleted(s.tasks, t.deps) ==> StartPending(s1.commands, t.id))
  {
    if RestartOne(s, p, t, now) != s { EnqueueQueuedFor(s, t, p, r, now); }
    if t.project == p && t.status == Accepted && !StartPending(s.commands, t.id) { EnqueueQueuedFor(s, t, p, r, now); }
  }

  lemma {:induction false} RestartCovers(s: State, p: string, r: string, i: nat, now: nat)
    requires Wf(s) && i <= |s.tasks| && AllQueuedFor(s.commands, p, r) && OnlyReachable(s.runtimes, p, r, now)
    ensures var s' := Restart(s, p, i, now);
      AllQueuedFor(s'.commands, p, r) && StartsCovered(s.tasks, s'.commands, p, i)
    decreases |s.tasks| - i
  {
    hide Wf, Grows, Holds, AllQueuedFor, OnlyReachable, StartPending, Addressed;
    if i == |s.tasks| {
    } else {
      var s1 := RestartOne(s, p, s.tasks[i], now);
      RestartOneCovers(s, s.tasks[i], p, r, now);
      RestartOneKeeps(s, p, s.tasks[i], now);
      RestartCovers(s1, p, r, i + 1, now);
      RestartHolds(s1, p, i + 1, now);
      if StartPending(s1.commands, s.tasks[i].id) {
        StartPendingHeld(s1.commands, Restart(s1, p, i + 1, now).commands, s.tasks[i].id);
      }
    }
  }

  lemma TakeOverReaches(s: State, p: string, r: string, now: nat)
    requires Wf(s)
    ensures var s1 := TakeOver(s, p, r, now);
      AllQueuedFor(s1.commands, p, r) && OnlyReachable(s1.runtimes, p, r, now)
  {
    var s1 := TakeOver(s, p, r, now);
    var fo := FenceOthers(s.runtimes, p, r);
    forall x | x in s1.runtimes && Reachable(x, p, now) ensures x.runtime == r {
      if x in fo { FenceOthersIn(s.runtimes, p, r, x); }
    }
    assert Reachable(s1.runtimes[|fo|], p, now);
  }

  /** After a registration every unfinished command of the project is queued and addressed to the new
      runtime, and every accepted task whose dependencies are completed has an unfinished start command. */
  lemma NoLostWork(s: State, p: string, r: string, env: Env)
    requires Wf(s) && Reply(s, Register(p, r), env).Registered?
    ensures var s' := After(s, Register(p, r), env);
      && AllQueuedFor(s'.commands, p, r)
      && s'.tasks == s.tasks
      && StartsCovered(s.tasks, s'.commands, p, 0)
  {
    var s1 := TakeOver(s, p, r, env.now);
    TakeOverGrows(s, p, r, env.now);
    TakeOverReaches(s, p, r, env.now);
    RestartCovers(s1, p, r, 0, env.now);
    RestartTasks(s1, p, 0, env.now);
  }

  // ----------------------------------------------------------------------- retry

  lemma {:induction false} PendingOfAppend(cs: seq<Command>, c: Command, task: nat)
    ensures PendingOf(cs + [c], task) == PendingOf(cs, task) + (if c.task == task && !Terminal(c) then [c] else [])
  {
    if |cs| == 0 {
      assert cs + [c] == [c] && [c][1..] == [];
    } else {
      hide Terminal;
      PendingOfAppend(cs[1..], c, task);
      assert (cs + [c])[0] == cs[0] && (cs + [c])[1..] == cs[1..] + [c];
      var head := if cs[0].task == task && !Terminal(cs[0]) then [cs[0]] else [];
      var last := if c.task == task && !Terminal(c) then [c] else [];
      assert PendingOf(cs + [c], task) == head + PendingOf(cs[1..] + [c], task);
      assert head + (PendingOf(cs[1..], task) + last) == head + PendingOf(cs[1..], task) + last;
    }
  }

  lemma {:induction false} PendingOfCompacted(cs: seq<Command>, p: string, task: nat)
    ensures PendingOf(Compacted(cs, p), task) == PendingOf(cs, task)
  {
    if |cs| == 0 {
    } else {
      PendingOfCompacted(cs[1..], p, task);
      FirstCompacted(cs, p);
      hide Compacted, TerminalCount;
      assert ([cs[0]] + Compacted(cs[1..], p))[1..] == Compacted(cs[1..], p);
    }
  }

  lemma {:induction false} PendingOfNone(cs: seq<Command>, task: nat)
    requires forall k :: 0 <= k < |cs| ==> cs[k].task == task ==> Terminal(cs[k])
    ensures PendingOf(cs, task) == []
  {
    if |cs| == 0 {
    } else {
      assert forall k :: 0 <= k < |cs[1..]| ==> cs[1..][k] == cs[k + 1];
      PendingOfNone(cs[1..], task);
    }
  }

  lemma {:induction false} PendingOfAll(cs: seq<Command>, task: nat, c: Command)
    ensures c in PendingOf(cs, task) <==> c in cs && c.task == task && !Terminal(c)
  {
    if |cs| == 0 {
    } else {
      PendingOfAll(cs[1..], task, c);
    }
  }

  // The command an enqueue adds, if there is a runtime to address it to.
  function NewCommand(s: State, t: Task, kind: Kind, attempt: nat, now: nat): seq<Command> {
    var i := FindReachable(s.runtimes, t.project, now);
    if i < |s.runtimes| then [Command(s.nextId, t.project, s.runtimes[i].runtime, t.id, kind, Queued, attempt, 0, 0)] else []
  }

  lemma EnqueuePending(s: State, t: Task, kind: Kind, attempt: nat, now: nat)
    requires kind == StartTask ==> DepStatus(s.tasks, t.deps) == Accepted
    ensures PendingOf(Enqueue(s, t, kind, attempt, now).commands, t.id) ==
            PendingOf(s.commands, t.id) + NewCommand(s, t, kind, attempt, now)
  {
    var i := FindReachable(s.runtimes, t.project, now);
    if i < |s.runtimes| {
      var c := Command(s.nextId, t.project, s.runtimes[i].runtime, t.id, kind, Queued, attempt, 0, 0);
      PendingOfAppend(s.commands, c, t.id);
      PendingOfCompacted(s.commands + [c], t.project, t.id);
    }
  }

  // A retried task does not depend on itself, so its own new status changes nothing for it.
  lemma OwnDeps(s: State, i: nat, u: Task)
    requires Wf(s) && i < |s.tasks| && u.id == s.tasks[i].id
    ensures DepStatus(s.tasks[i := u], s.tasks[i].deps) == DepStatus(s.tasks, s.tasks[i].deps)
  {
    forall d | d in s.tasks[i].deps
      ensures FindTask(s.tasks[i := u], d) == FindTask(s.tasks, d) && FindTask(s.tasks, d) < i
    {
      assert EarlierTask(s.tasks, i, d);
      FindPut(s.tasks, i, u, d);
    }
    DepsSame(s.tasks, s.tasks[i := u], s.tasks[i].deps);
  }

  // The queue of the retried task once its cancel has been queued.
  lemma CancelQueued(s: State, t: Task, now: nat)
    ensures var s1 := Enqueue(s.(commands := Supersede(s.commands, t.id)), t, CancelTask, t.attempt, now);
      var cancel := NewCommand(s, t, CancelTask, t.attempt, now);
      && PendingOf(s1.commands, t.id) == cancel
      && s1 == s.(commands := s1.commands, nextId := s.nextId + |cancel|)
  {
    var s0 := s.(commands := Supersede(s.commands, t.id));
    PendingOfNone(s0.commands, t.id);
    EnqueuePending(s0, t, CancelTask, t.attempt, now);
  }

  // And once its start has been queued behind the cancel.
  lemma StartQueued(s: State, s1: State, i: nat, u: Task, typ: EventType, now: nat)
    requires Wf(s) && i < |s.tasks| && u.id == s.tasks[i].id && u.deps == s.tasks[i].deps
    requires s1 == s.(commands := s1.commands, nextId := s1.nextId) && DepStatus(s.tasks, u.deps) == Accepted
    ensures var s2 := Append(PutTask(s1, i, u), u.project, typ, u.id, "", 0, false);
      PendingOf(Enqueue(s2, u, StartTask, u.attempt, now).commands, u.id) ==
        PendingOf(s1.commands, u.id) + NewCommand(s1, u, StartTask, u.attempt, now)
  {
    OwnDeps(s, i, u);
    var s2 := Append(PutTask(s1, i, u), u.project, typ, u.id, "", 0, false);
    assert s2.tasks == s.tasks[i := u] && s2.commands == s1.commands && s2.runtimes == s.runtimes && s2.nextId == s1.nextId;
    hide Append, Enqueue, PendingOf, DepStatus;
    EnqueuePending(s2, u, StartTask, u.attempt, now);
  }

  /** A retry raises the attempt by one.  Of the task's commands only the new ones are unfinished: a cancel
      for the old attempt, followed by a start for the new one when the task is accepted again; neither if
      the project has no reachable runtime. */
  lemma RetryIsolation(s: State, i: nat, budget: nat, now: nat)
    requires Wf(s) && i < |s.tasks|
    ensures var t := s.tasks[i];
      var s' := ActRetry(s, i, budget, now);
      var cancel := NewCommand(s, t, CancelTask, t.attempt, now);
      && i < |s'.tasks| && s'.tasks[i].id == t.id && s'.tasks[i].attempt == t.attempt + 1
      && PendingOf(s'.commands, t.id) == cancel +
           (if s'.tasks[i].status == Accepted
            then NewCommand(s.(nextId := s.nextId + |cancel|), t, StartTask, t.attempt + 1, now) else [])
  {
    hide PendingOf, Supersede, Enqueue, DepStatus;
    var t := s.tasks[i];
    var s1 := Enqueue(s.(commands := Supersede(s.commands, t.id)), t, CancelTask, t.attempt, now);
    CancelQueued(s, t, now);
    var u := RetriedTask(s1, t, budget, now);
    RetriedSame(s1, t, budget, now);
    RetryTasks(s, i, budget, now);
    var s2 := Append(PutTask(s1, i, u), t.project, TaskAction(Retry), t.id, "", 0, false);
    assert s2.commands == s1.commands;
    hide Wf, Append, RetriedTask;
    assert ActRetry(s, i, budget, now) == if u.status == Accepted then Enqueue(s2, u, StartTask, u.attempt, now) else s2;
    hide ActRetry;
    if u.status == Accepted {
      StartQueued(s, s1, i, u, TaskAction(Retry), now);
      SameNew(s1, s.(nextId := s1.nextId), u, t, u.attempt, now);
    }
    hide NewCommand;
  }

  lemma RetryTasks(s: State, i: nat, budget: nat, now: nat)
    requires i < |s.tasks|
    ensures var t := s.tasks[i];
      var s1 := Enqueue(s.(commands := Supersede(s.commands, t.id)), t, CancelTask, t.attempt, now);
      ActRetry(s, i, budget, now).tasks == s.tasks[i := RetriedTask(s1, t, budget, now)]
  {
    hide DepStatus, RetriedTask, Compacted, Supersede, FindReachable;
  }

  lemma SameNew(s: State, s': State, t: Task, t': Task, attempt: nat, now: nat)
    requires s'.runtimes == s.runtimes && s'.nextId == s.nextId && t'.id == t.id && t'.project == t.project
    ensures NewCommand(s', t', StartTask, attempt, now) == NewCommand(s, t, StartTask, attempt, now)
  {
  }

  /** Every command the task had before the retry is finished or dropped. */
  lemma RetryFinishesOld(s: State, i: nat, budget: nat, now: nat, c: Command)
    requires Wf(s) && i < |s.tasks|
    requires c in ActRetry(s, i, budget, now).commands && c.task == s.tasks[i].id && c.id < s.nextId
    ensures Terminal(c)
  {
    RetryIsolation(s, i, budget, now);
    PendingOfAll(ActRetry(s, i, budget, now).commands, s.tasks[i].id, c);
  }

  /** An event that speaks of another attempt than the task's current one changes nothing but the log. */
  lemma StaleEventOnlyLogs(s: State, p: string, r: string, e: RawEvent, budget: nat, now: nat)
    requires e.RawEvent? && FindTask(s.tasks, e.task) < |s.tasks|
    requires AttemptOf(e.attempt) != s.tasks[FindTask(s.tasks, e.task)].attempt
    ensures var s' := ApplyEvent(s, p, r, e, budget, now);
      && s'.tasks == s.tasks && s'.commands == s.commands && s'.runtimes == s.runtimes
      && |Log(s', p)| > 0 && Log(s', p)[|Log(s', p)| - 1].stale
  {
  }

  /** Attempts only rise, so an event left behind by a retry stays stale: in whatever later state it
      arrives, it changes nothing but the log. */
  lemma StaleForever(s: State, calls: seq<Call>, i: nat, p: string, r: string, e: RawEvent, budget: nat, now: nat)
    requires Wf(s) && i < |s.tasks| && e.RawEvent? && e.task == s.tasks[i].id && AttemptOf(e.attempt) < s.tasks[i].attempt
    ensures var later := Run(s, calls);
      var s' := ApplyEvent(later, p, r, e, budget, now);
      && s'.tasks == later.tasks && s'.commands == later.commands && s'.runtimes == later.runtimes
      && |Log(s', p)| > 0 && Log(s', p)[|Log(s', p)| - 1].stale
  {
    RunGrows(s, calls);
    var ts := Run(s, calls).tasks;
    assert ts[i].id == e.task;
    assert FindTask(ts, e.task) == i;
    StaleEventOnlyLogs(Run(s, calls), p, r, e, budget, now);
    hide ApplyEvent, Log;
  }
}
