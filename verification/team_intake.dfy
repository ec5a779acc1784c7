/**
  Exactly-once intake: within one registration the events taken from an agent's
  stream are its items 1..lastSequence, in order and once each.
 */
module TeamIntake {
  import opened TeamModel
  import opened TeamFrames
  import opened TeamSteps

  // ------------------------------------------------------------------ one batch

  // The events the validation pass looks at: those beyond a `last` that does not move.
  function Beyond(batch: seq<RawEvent>, last: nat): (r: seq<RawEvent>)
    requires Objects(batch)
    ensures Objects(r)
  {
    if |batch| == 0 then []
    else (if Clamp(batch[0].sequence) > last then [batch[0]] else []) + Beyond(batch[1..], last)
  }

  // The numbers continue from `from` without a gap.
  predicate Continues(es: seq<RawEvent>, from: nat)
    requires Objects(es)
  {
    forall k :: 0 <= k < |es| ==> Clamp(es[k].sequence) == from + 1 + k
  }

  /** On a batch the validation pass accepts, the pass that moves `last` takes exactly the events the
      validation looked at, and they continue the numbering. */
  lemma {:induction false} PassesAgree(ts: seq<Task>, p: string, batch: seq<RawEvent>, last: nat, expected: nat)
    requires Objects(batch) && last <= expected && Validate(ts, p, batch, last, expected) == Valid
    ensures Selected(batch, expected) == Beyond(batch, last)
    ensures LastTaken(batch, expected) == expected + |Selected(batch, expected)|
    ensures Continues(Selected(batch, expected), expected)
  {
    if |batch| == 0 {
    } else {
      assert Objects(batch[1..]);
      if Clamp(batch[0].sequence) <= last {
        PassesAgree(ts, p, batch[1..], last, expected);
      } else {
        PassesAgree(ts, p, batch[1..], last, Clamp(batch[0].sequence));
        var rest := Selected(batch[1..], Clamp(batch[0].sequence));
        assert Selected(batch, expected) == [batch[0]] + rest;
        forall k | 0 <= k < |rest| + 1
          ensures Clamp(([batch[0]] + rest)[k].sequence) == expected + 1 + k
        {
          if k > 0 { assert ([batch[0]] + rest)[k] == rest[k - 1]; }
        }
      }
    }
  }

  // An agent numbers its events from 1, below the clamp.
  predicate IsStream(stream: seq<RawEvent>) {
    |stream| < MAX_SEQUENCE && forall k :: 0 <= k < |stream| ==> stream[k].RawEvent? && stream[k].sequence == k + 1
  }

  // Any selection of the stream's items, in any order, repeated or not.
  predicate Drawn(batch: seq<RawEvent>, stream: seq<RawEvent>) {
    forall k :: 0 <= k < |batch| ==> batch[k] in stream
  }

  lemma {:induction false} SelectedIn(batch: seq<RawEvent>, last: nat)
    requires Objects(batch)
    ensures forall e :: e in Selected(batch, last) ==> e in batch
  {
    if |batch| == 0 {
    } else {
      assert forall e :: e in batch[1..] ==> e in batch;
      SelectedIn(batch[1..], last);
      SelectedIn(batch[1..], Clamp(batch[0].sequence));
    }
  }

  /** What an accepted batch of an agent's stream adds is the next slice of that stream. */
  lemma BatchTakesSlice(ts: seq<Task>, p: string, batch: seq<RawEvent>, last: nat, stream: seq<RawEvent>)
    requires IsStream(stream) && Drawn(batch, stream) && last <= |stream|
    requires Validate(ts, p, batch, last, last) == Valid
    ensures Objects(batch) && last <= LastTaken(batch, last) <= |stream|
    ensures Selected(batch, last) == stream[last..LastTaken(batch, last)]
  {
    ValidObjects(ts, p, batch, last, last);
    PassesAgree(ts, p, batch, last, last);
    SelectedIn(batch, last);
    var sel := Selected(batch, last);
    hide Selected, Validate, Beyond, LastTaken;
    forall k | 0 <= k < |sel| ensures last + k < |stream| && sel[k] == stream[last + k] {
      StreamItem(stream, batch, sel, last, k);
    }
    if |sel| > 0 { StreamItem(stream, batch, sel, last, |sel| - 1); }
  }

  lemma StreamItem(stream: seq<RawEvent>, batch: seq<RawEvent>, sel: seq<RawEvent>, last: nat, k: nat)
    requires IsStream(stream) && Drawn(batch, stream) && k < |sel| && sel[k] in batch
    requires Objects(sel) && Clamp(sel[k].sequence) == last + k + 1
    ensures last + k < |stream| && sel[k] == stream[last + k]
  {
    var j :| 0 <= j < |batch| && batch[j] == sel[k];
    assert sel[k] in stream;
    var m :| 0 <= m < |stream| && stream[m] == sel[k];
    assert Clamp(sel[k].sequence) == m + 1;
  }

  // -------------------------------------------------------------- one registration

  ghost predicate HasLast(rs: seq<Runtime>, p: string, r: string, last: nat) {
    exists x :: x in rs && x.project == p && x.runtime == r && x.lastSequence == last
  }

  lemma LastFound(rs: seq<Runtime>, p: string, r: string, last: nat, n: nat)
    requires RuntimesWf(rs, n) && HasLast(rs, p, r, last)
    ensures var i := FindRuntime(rs, p, r); i < |rs| && rs[i].lastSequence == last
  {
    var x :| x in rs && x.project == p && x.runtime == r && x.lastSequence == last;
    var k :| 0 <= k < |rs| && rs[k] == x;
    var i := FindRuntime(rs, p, r);
    assert i <= k;
  }

  lemma ReplaceLast(rs: seq<Runtime>, i: nat, e: Runtime, p: string, r: string, last: nat)
    requires HasLast(rs, p, r, last) && i < |rs| && SameLease(rs[i], e) && e.lastSequence == rs[i].lastSequence
    ensures HasLast(rs[i := e], p, r, last)
  {
    var x :| x in rs && x.project == p && x.runtime == r && x.lastSequence == last;
    var k :| 0 <= k < |rs| && rs[k] == x;
    assert rs[i := e][k] in rs[i := e];
  }

  lemma OtherReplaceLast(rs: seq<Runtime>, i: nat, e: Runtime, p: string, r: string, last: nat)
    requires HasLast(rs, p, r, last) && i < |rs| && !(rs[i].project == p && rs[i].runtime == r)
    ensures HasLast(rs[i := e], p, r, last)
  {
    var x :| x in rs && x.project == p && x.runtime == r && x.lastSequence == last;
    var k :| 0 <= k < |rs| && rs[k] == x;
    assert rs[i := e][k] == x;
  }

  lemma TakeOverLast(s: State, q: string, u: string, now: nat, p: string, r: string, last: nat)
    requires HasLast(s.runtimes, p, r, last) && !(q == p && u == r)
    ensures HasLast(TakeOver(s, q, u, now).runtimes, p, r, last)
  {
    var x :| x in s.runtimes && x.project == p && x.runtime == r && x.lastSequence == last;
    var y := if p == q then x.(status := Fenced) else x;
    assert Remains(x, q, u, y);
    FenceOthersIn(s.runtimes, q, u, y);
    assert y in TakeOver(s, q, u, now).runtimes;
  }

  lemma {:induction false} ExpireLast(s: State, i: nat, now: nat, p: string, r: string, last: nat)
    requires HasLast(s.runtimes, p, r, last) && i <= |s.runtimes|
    ensures HasLast(ExpireFrom(s, i, now).runtimes, p, r, last)
    decreases |s.runtimes| - i
  {
    if i == |s.runtimes| {
    } else {
      var x := s.runtimes[i];
      if Expired(x, now) {
        var e := x.(status := Offline, lease := 0, lastSeen := now);
        ReplaceLast(s.runtimes, i, e, p, r, last);
        ExpireLast(Append(s.(runtimes := s.runtimes[i := e]), x.project, RuntimeOffline, 0, x.runtime, 0, false),
                   i + 1, now, p, r, last);
      } else {
        ExpireLast(s, i + 1, now, p, r, last);
      }
    }
  }

  // The stream items a request takes in for (p, r): none unless it is a batch of that runtime that is saved.
  function Intake(s: State, call: Call, p: string, r: string): (es: seq<RawEvent>)
    ensures Objects(es)
  {
    if call.req.Events? && call.req.project == p && call.req.runtime == r && call.env.saves
       && Handle(s, call.req, call.env).Write?
    then
      var last := s.runtimes[FindRuntime(s.runtimes, p, r)].lastSequence;
      ValidObjects(s.tasks, p, call.req.batch, last, last);
      Selected(call.req.batch, last)
    else []
  }

  // Whether the request is a batch that is taken and saved.
  predicate BatchSaved(s: State, req: Request, env: Env) {
    req.Events? && env.saves && Handle(s, req, env).Write?
  }

  // Apart from the caller's entry, a saved batch leaves what applying the events taken leaves.
  lemma BatchApplies(s: State, call: Call)
    requires BatchSaved(s, call.req, call.env)
    ensures var p, r, s' := call.req.project, call.req.runtime, After(s, call.req, call.env);
      s'.(runtimes := []) == ApplyAll(s, p, r, Intake(s, call, p, r), call.env.budget, call.env.now).(runtimes := [])
  {
    hide ApplyAll, Selected, Validate, LastTaken, ReplaceRuntime;
  }

  // What one request does to the number a registration has taken.
  lemma StepLast(s: State, call: Call, p: string, r: string, last: nat, stream: seq<RawEvent>)
    requires Wf(s) && HasLast(s.runtimes, p, r, last) && call.req != Register(p, r)
    requires IsStream(stream) && last <= |stream|
    requires call.req.Events? && call.req.project == p && call.req.runtime == r ==> Drawn(call.req.batch, stream)
    ensures var taken := Intake(s, call, p, r);
      && HasLast(After(s, call.req, call.env).runtimes, p, r, last + |taken|)
      && last + |taken| <= |stream| && taken == stream[last..last + |taken|]
  {
    match Handle(s, call.req, call.env)
    case Keep(_) =>
    case Write(next, _) =>
      if call.env.saves {
        assert After(s, call.req, call.env) == next;
        if call.req.Events? {
          EventsLast(s, call, p, r, last, stream);
        } else {
          OtherLast(s, call.req, call.env, p, r, last);
        }
      }
  }

  // A saved batch replaces just the caller's entry.
  lemma EventsEntry(s: State, p: string, r: string, token: nat, batch: seq<RawEvent>, budget: nat, now: nat)
    requires Wf(s) && HandleEvents(s, p, r, token, batch, budget, now).Write?
    ensures var i := FindRuntime(s.runtimes, p, r);
      var last := s.runtimes[i].lastSequence;
      && i < |s.runtimes|
      && Validate(s.tasks, p, batch, last, last) == Valid && Objects(batch)
      && HandleEvents(s, p, r, token, batch, budget, now).next.runtimes
         == s.runtimes[i := s.runtimes[i].(lastSequence := LastTaken(batch, last), lastSeen := now, lease := now + LEASE)]
  {
    hide Wf, Grows, Addressed;
    var i := FindRuntime(s.runtimes, p, r);
    var last := s.runtimes[i].lastSequence;
    ValidObjects(s.tasks, p, batch, last, last);
    ApplyAllKeeps(s, p, r, Selected(batch, last), budget, now);
  }

  lemma EventsLast(s: State, call: Call, p: string, r: string, last: nat, stream: seq<RawEvent>)
    requires Wf(s) && HasLast(s.runtimes, p, r, last) && call.req.Events?
    requires Handle(s, call.req, call.env).Write? && call.env.saves
    requires IsStream(stream) && last <= |stream|
    requires call.req.project == p && call.req.runtime == r ==> Drawn(call.req.batch, stream)
    ensures var taken := Intake(s, call, p, r);
      && HasLast(Handle(s, call.req, call.env).next.runtimes, p, r, last + |taken|)
      && last + |taken| <= |stream| && taken == stream[last..last + |taken|]
  {
    var q, u, batch, now := call.req.project, call.req.runtime, call.req.batch, call.env.now;
    EventsEntry(s, q, u, call.req.token, batch, call.env.budget, now);
    var i := FindRuntime(s.runtimes, q, u);
    var from := s.runtimes[i].lastSequence;
    var e := s.runtimes[i].(lastSequence := LastTaken(batch, from), lastSeen := now, lease := now + LEASE);
    if q == p && u == r {
      LastFound(s.runtimes, p, r, last, s.nextId);
      BatchTakesSlice(s.tasks, p, batch, last, stream);
      PassesAgree(s.tasks, p, batch, last, last);
      assert s.runtimes[i := e][i] == e;
    } else {
      OtherReplaceLast(s.runtimes, i, e, p, r, last);
    }
  }

  lemma RegisterLast(s: State, q: string, u: string, now: nat, p: string, r: string, last: nat)
    requires Wf(s) && HasLast(s.runtimes, p, r, last) && !(q == p && u == r)
    ensures HasLast(Restart(TakeOver(s, q, u, now), q, 0, now).runtimes, p, r, last)
  {
    hide TakeOver, HasLast;
    TakeOverLast(s, q, u, now, p, r, last);
    TakeOverGrows(s, q, u, now);
    RestartKeeps(TakeOver(s, q, u, now), q, 0, now);
  }

  lemma OtherLast(s: State, req: Request, env: Env, p: string, r: string, last: nat)
    requires Wf(s) && HasLast(s.runtimes, p, r, last) && req != Register(p, r) && !req.Events?
    requires Handle(s, req, env).Write?
    ensures HasLast(Handle(s, req, env).next.runtimes, p, r, last)
  {
    match req
    case Register(q, u) => RegisterLast(s, q, u, env.now, p, r, last);
    case Heartbeat(q, u, token, busy) =>
      var i := FindRuntime(s.runtimes, q, u);
      ReplaceLast(s.runtimes, i,
        s.runtimes[i].(status := if busy then Busy else Online, lastSeen := env.now, lease := env.now + LEASE), p, r, last);
    case Unregister(q, u, token) =>
      var i := FindRuntime(s.runtimes, q, u);
      ReplaceLast(s.runtimes, i, s.runtimes[i].(status := Offline, lastSeen := env.now, lease := 0), p, r, last);
    case Expire => ExpireLast(s, 0, env.now, p, r, last);
    case Create(q, deps, profile, key, owner) => CreateGrows(s, q, deps, profile, key, owner, env.budget, env.now);
    case Poll(_, _, _, _) =>
    case Ack(_, _, _, _) =>
    case Act(task, action) => ActionKeeps(s, task, action, env.budget, env.now);
  }

  function TotalIntake(s: State, calls: seq<Call>, p: string, r: string): seq<RawEvent>
    decreases |calls|
  {
    if |calls| == 0 then []
    else Intake(s, calls[0], p, r) + TotalIntake(After(s, calls[0].req, calls[0].env), calls[1..], p, r)
  }

  // One registration: the runtime does not register again, and its batches come from one stream.
  predicate OneRegistration(calls: seq<Call>, p: string, r: string, stream: seq<RawEvent>) {
    forall k :: 0 <= k < |calls| ==>
      && calls[k].req != Register(p, r)
      && (calls[k].req.Events? && calls[k].req.project == p && calls[k].req.runtime == r ==> Drawn(calls[k].req.batch, stream))
  }

  /** Over any run, whatever else happens in it and however batches overlap, repeat or fail, the events
      taken are exactly the stream items after `last`, in order and once each. */
  lemma {:induction false} IntakeContinues(s: State, calls: seq<Call>, p: string, r: string, last: nat, stream: seq<RawEvent>)
    requires Wf(s) && HasLast(s.runtimes, p, r, last)
    requires IsStream(stream) && last <= |stream| && OneRegistration(calls, p, r, stream)
    ensures var taken := TotalIntake(s, calls, p, r);
      && last + |taken| <= |stream| && taken == stream[last..last + |taken|]
      && HasLast(Run(s, calls).runtimes, p, r, last + |taken|)
    decreases |calls|
  {
    hide Wf, Grows, HasLast, IsStream, Intake, After;
    if |calls| == 0 {
    } else {
      var s1 := After(s, calls[0].req, calls[0].env);
      var first := Intake(s, calls[0], p, r);
      StepLast(s, calls[0], p, r, last, stream);
      StepGrows(s, calls[0].req, calls[0].env);
      assert forall k :: 0 <= k < |calls[1..]| ==> calls[1..][k] == calls[k + 1];
      IntakeContinues(s1, calls[1..], p, r, last + |first|, stream);
      var rest := TotalIntake(s1, calls[1..], p, r);
      assert stream[last..last + |first|] + stream[last + |first|..last + |first| + |rest|]
          == stream[last..last + |first| + |rest|];
    }
  }

  /** From a fresh registration on, the events taken are the stream up to the registration's `lastSequence`. */
  lemma ExactlyOnce(s: State, p: string, r: string, env: Env, calls: seq<Call>, stream: seq<RawEvent>)
    requires Wf(s) && Reply(s, Register(p, r), env).Registered?
    requires IsStream(stream) && OneRegistration(calls, p, r, stream)
    ensures var s1 := After(s, Register(p, r), env);
      var rs := Run(s1, calls).runtimes;
      var i := FindRuntime(rs, p, r);
      i < |rs| && rs[i].lastSequence <= |stream| && TotalIntake(s1, calls, p, r) == stream[..rs[i].lastSequence]
  {
    var s1 := After(s, Register(p, r), env);
    StepGrows(s, Register(p, r), env);
    FreshRegistration(s, p, r, env);
    IntakeContinues(s1, calls, p, r, 0, stream);
    RunGrows(s1, calls);
    LastFound(Run(s1, calls).runtimes, p, r, |TotalIntake(s1, calls, p, r)|, Run(s1, calls).nextId);
  }

  // Numbering restarts with every registration.
  lemma FreshRegistration(s: State, p: string, r: string, env: Env)
    requires Wf(s) && Reply(s, Register(p, r), env).Registered?
    ensures HasLast(After(s, Register(p, r), env).runtimes, p, r, 0)
  {
    var s1 := TakeOver(s, p, r, env.now);
    TakeOverGrows(s, p, r, env.now);
    RestartKeeps(s1, p, 0, env.now);
    assert After(s, Register(p, r), env).runtimes == s1.runtimes;
    assert s1.runtimes[|s1.runtimes| - 1] in s1.runtimes;
  }

  /** A refused request changes nothing at all, and one whose save fails leaves everything but the
      counter of identifiers as it was, exactly unless it is an `input` that has moved the time stamp
      of its task. */
  lemma RollbackExact(s: State, req: Request, env: Env)
    ensures Reply(s, req, env).Refused? ==> After(s, req, env) == s
    ensures Reply(s, req, env) == SaveFailed ==>
      var i := if req.Act? then FindTask(s.tasks, req.task) else |s.tasks|;
      After(s, req, env) == s.(nextId := After(s, req, env).nextId)
      <==> !(req.Act? && req.action.Input? && s.tasks[i].updatedAt != env.now)
  {
    hide Acted;
    if Reply(s, req, env) == SaveFailed && req.Act? && req.action.Input? {
      var i := FindTask(s.tasks, req.task);
      assert After(s, req, env).tasks[i].updatedAt == env.now;
    }
  }

  const FIRST := Task(1, "p", Accepted, 1, [], Small, "", NoSource, NoSource, Undecided, "", 0)

  lemma FirstTask()
    ensures var s := After(EMPTY, Create("p", [], Small, "", ""), Env(6, 0, true)); s.tasks == [FIRST] && s.commands == []
  {
    hide LastN, Compacted;
  }

  lemma InputStamps(s: State)
    requires s.tasks == [FIRST] && s.commands == []
    ensures var input, env := Act(1, Input("go")), Env(6, 1, false);
      Reply(s, input, env) == SaveFailed && After(s, input, env).tasks == [FIRST.(updatedAt := 1)]
  {
    hide ActInput;
    assert FindTask(s.tasks, 1) == 0;
  }

  /** The exception at work: a task is created at time 0; at time 1 an input to it cannot be saved, and
      its stamp stays. */
  lemma InputStampSurvives()
    ensures var s := After(EMPTY, Create("p", [], Small, "", ""), Env(6, 0, true));
      && Reply(s, Act(1, Input("go")), Env(6, 1, false)) == SaveFailed
      && |s.tasks| == 1 && s.tasks[0].updatedAt == 0
      && After(s, Act(1, Input("go")), Env(6, 1, false)).tasks == [s.tasks[0].(updatedAt := 1)]
  {
    hide After, Reply;
    FirstTask();
    InputStamps(After(EMPTY, Create("p", [], Small, "", ""), Env(6, 0, true)));
  }
}
