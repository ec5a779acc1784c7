/**
  What each request answers and when, and what a served one makes of runtime entries and
  tasks, in terms of the state alone.
 */
module TeamReplies {
  import opened TeamModel
  import opened TeamFrames
  import opened TeamSteps
  import opened TeamScheduler
  import Fencing = TeamFencing
  import Entries = TeamIntake
  import Queue = TeamQueue
  import Dispatch = TeamDispatch
  import Delivery = TeamDelivery
  import Verdicts = TeamVerdicts

  // ---------------------------------------------------------------------- registration

  // An entry of the project that is not offline, of another runtime, whose lease runs on, with only
  // offline entries of the project before it.
  predicate Rival(rs: seq<Runtime>, p: string, r: string, now: nat, k: nat)
    requires k < |rs|
  {
    && rs[k].project == p && rs[k].status != Offline && rs[k].runtime != r && rs[k].lease > now
    && forall j :: 0 <= j < k && rs[j].project == p ==> rs[j].status == Offline
  }

  lemma RivalIsCurrent(rs: seq<Runtime>, p: string, r: string, now: nat)
    ensures var i := FindCurrent(rs, p);
      (i < |rs| && rs[i].runtime != r && rs[i].lease > now) <==> exists k :: 0 <= k < |rs| && Rival(rs, p, r, now, k)
  {
    var i := FindCurrent(rs, p);
    if i < |rs| && rs[i].runtime != r && rs[i].lease > now { assert Rival(rs, p, r, now, i); }
    if k :| 0 <= k < |rs| && Rival(rs, p, r, now, k) {
      assert i <= k;
      assert i == k;
    }
  }

  /** A registration that names project and runtime is refused exactly when a rival holds the project; in every
      other case it is served with a fresh token, or its save fails. */
  lemma RegisterReply(s: State, p: string, r: string, env: Env)
    ensures var reply := Reply(s, Register(p, r), env);
      if p == "" || r == "" then reply == Refused(FieldsRequired)
      else if exists k :: 0 <= k < |s.runtimes| && Rival(s.runtimes, p, r, env.now, k) then reply == Refused(AlreadyActive)
      else reply == if env.saves then Registered(s.nextId) else SaveFailed
  {
    RivalIsCurrent(s.runtimes, p, r, env.now);
    hide Rival, FindCurrent, Restart, TakeOver, Append;
  }

  /** A served registration puts in the runtime's entry, online, with a lease of 15 seconds and nothing taken
      yet, fences the others of the project and leaves those of other projects. */
  lemma RegisterEntries(s: State, p: string, r: string, env: Env, x: Runtime)
    requires Wf(s) && Reply(s, Register(p, r), env).Registered?
    ensures x in After(s, Register(p, r), env).runtimes <==>
      || x == Runtime(p, r, Online, s.nextId, env.now + 15_000_000_000, 0, env.now)
      || (x in s.runtimes && x.project != p)
      || (x.status == Fenced && x.project == p && x.runtime != r
          && exists y :: y in s.runtimes && x == y.(status := Fenced))
  {
    hide Wf, Reply, After, FenceOthers;
    Fencing.RegisteredEntries(s, p, r, env);
    FenceOthersIn(s.runtimes, p, r, x);
    if x in s.runtimes && x.project != p { assert Remains(x, p, r, x); }
    if x.project == p && x.runtime != r && x.status == Fenced {
      if y :| y in s.runtimes && x == y.(status := Fenced) { assert Remains(y, p, r, x); }
    }
  }

  // --------------------------------------------------------------------- holding a lease

  ghost predicate Leased(rs: seq<Runtime>, p: string, r: string, token: nat, now: nat) {
    exists x :: x in rs && x.project == p && x.runtime == r && x.token == token && x.status != Fenced && x.lease >= now
  }

  lemma EntryFound(rs: seq<Runtime>, n: nat, p: string, r: string, x: Runtime)
    requires RuntimesWf(rs, n) && x in rs && x.project == p && x.runtime == r
    ensures var i := FindRuntime(rs, p, r); i < |rs| && rs[i] == x
  {
    var k :| 0 <= k < |rs| && rs[k] == x;
    var i := FindRuntime(rs, p, r);
    assert i <= k;
  }

  lemma LeasedExact(rs: seq<Runtime>, n: nat, p: string, r: string, token: nat, now: nat)
    requires RuntimesWf(rs, n)
    ensures HoldsLease(rs, p, r, token, now) <==> Leased(rs, p, r, token, now)
  {
    var i := FindRuntime(rs, p, r);
    if HoldsLease(rs, p, r, token, now) { assert rs[i] in rs; }
    if Leased(rs, p, r, token, now) {
      var x :| x in rs && x.project == p && x.runtime == r && x.token == token && x.status != Fenced && x.lease >= now;
      EntryFound(rs, n, p, r, x);
    }
  }

  lemma WfRuntimes(s: State)
    requires Wf(s)
    ensures RuntimesWf(s.runtimes, s.nextId)
  {
  }

  /** A poll and an ack are served exactly when project, runtime and token are given, the ack names 1 to 100
      commands, and an entry with that token is not fenced and its lease has not run out. */
  lemma PollReply(s: State, p: string, r: string, token: nat, limit: nat, env: Env)
    requires Wf(s)
    ensures var reply := Reply(s, Poll(p, r, token, limit), env);
      if p == "" || r == "" || token == 0 then reply == Refused(FieldsRequired)
      else if !Leased(s.runtimes, p, r, token, env.now) then reply == Refused(LeaseLost)
      else reply.Items? || (reply == SaveFailed && !env.saves)
  {
    WfRuntimes(s);
    LeasedExact(s.runtimes, s.nextId, p, r, token, env.now);
    hide Wf, RuntimesWf, HoldsLease, Leased, Deliver;
  }

  lemma AckReply(s: State, p: string, r: string, token: nat, ids: seq<nat>, env: Env)
    requires Wf(s)
    ensures var reply := Reply(s, Ack(p, r, token, ids), env);
      if p == "" || r == "" || token == 0 || |ids| == 0 || |ids| > 100 then reply == Refused(FieldsRequired)
      else if !Leased(s.runtimes, p, r, token, env.now) then reply == Refused(LeaseLost)
      else reply == if env.saves then Done else SaveFailed
  {
    WfRuntimes(s);
    LeasedExact(s.runtimes, s.nextId, p, r, token, env.now);
    hide Wf, RuntimesWf, HoldsLease, Leased, Compacted, AckAll;
  }

  // The entry a heartbeat or an unregister speaks for.
  ghost predicate Known(rs: seq<Runtime>, p: string, r: string, token: nat, fencedToo: bool) {
    exists x :: x in rs && x.project == p && x.runtime == r && x.token == token && (fencedToo || x.status != Fenced)
  }

  lemma KnownExact(rs: seq<Runtime>, n: nat, p: string, r: string, token: nat, fencedToo: bool)
    requires RuntimesWf(rs, n)
    ensures var i := FindRuntime(rs, p, r);
      Known(rs, p, r, token, fencedToo) <==> i < |rs| && rs[i].token == token && (fencedToo || rs[i].status != Fenced)
  {
    var i := FindRuntime(rs, p, r);
    if i < |rs| { assert rs[i] in rs; }
    if Known(rs, p, r, token, fencedToo) {
      var x :| x in rs && x.project == p && x.runtime == r && x.token == token && (fencedToo || x.status != Fenced);
      EntryFound(rs, n, p, r, x);
    }
  }

  /** A heartbeat is served for an entry that is not fenced, whether or not its lease has run out; it renews the
      lease for 15 seconds and changes nothing else but status and time. */
  lemma HeartbeatMeaning(s: State, p: string, r: string, token: nat, busy: bool, env: Env)
    requires Wf(s)
    ensures var (s', reply) := Step(s, Heartbeat(p, r, token, busy), env);
      if p == "" || r == "" || token == 0 then reply == Refused(FieldsRequired)
      else if !Known(s.runtimes, p, r, token, false) then reply == Refused(LeaseLost)
      else if !env.saves then reply == SaveFailed
      else
        && reply == Done && s' == s.(runtimes := s'.runtimes) && |s'.runtimes| == |s.runtimes|
        && forall k :: 0 <= k < |s.runtimes| ==>
             var x := s.runtimes[k];
             s'.runtimes[k] ==
               if x.project == p && x.runtime == r
               then x.(status := if busy then Busy else Online, lastSeen := env.now, lease := env.now + 15_000_000_000)
               else x
  {
    WfRuntimes(s);
    KnownExact(s.runtimes, s.nextId, p, r, token, false);
    OneEntry(s.runtimes, s.nextId, p, r);
    hide Wf, RuntimesWf, Known;
  }

  lemma OneEntry(rs: seq<Runtime>, n: nat, p: string, r: string)
    requires RuntimesWf(rs, n)
    ensures forall k :: 0 <= k < |rs| && rs[k].project == p && rs[k].runtime == r ==> k == FindRuntime(rs, p, r)
  {
  }

  /** An unregister is served for any entry with that token, fenced ones included, and makes it offline. */
  lemma UnregisterMeaning(s: State, p: string, r: string, token: nat, env: Env)
    requires Wf(s)
    ensures var (s', reply) := Step(s, Unregister(p, r, token), env);
      if !Known(s.runtimes, p, r, token, true) then reply == Refused(LeaseLost)
      else if !env.saves then reply == SaveFailed
      else
        && reply == Done && s'.tasks == s.tasks && s'.commands == s.commands && |s'.runtimes| == |s.runtimes|
        && forall k :: 0 <= k < |s.runtimes| ==>
             var x := s.runtimes[k];
             s'.runtimes[k] ==
               if x.project == p && x.runtime == r then x.(status := Offline, lastSeen := env.now, lease := 0) else x
  {
    WfRuntimes(s);
    KnownExact(s.runtimes, s.nextId, p, r, token, true);
    OneEntry(s.runtimes, s.nextId, p, r);
    hide Wf, RuntimesWf, Known, LastN, Log, Counter;
  }

  // What an expiry makes of an entry: one that is online or busy and whose lease is over goes offline.
  predicate ExpiresTo(x: Runtime, now: nat, y: Runtime) {
    y == if (x.status == Online || x.status == Busy) && x.lease <= now
         then x.(status := Offline, lease := 0, lastSeen := now) else x
  }

  lemma {:induction false} ExpireEntries(s: State, i: nat, now: nat)
    requires i <= |s.runtimes|
    ensures var rs := ExpireFrom(s, i, now).runtimes;
      |rs| == |s.runtimes| && (forall k :: 0 <= k < i ==> rs[k] == s.runtimes[k])
      && forall k :: i <= k < |s.runtimes| ==> ExpiresTo(s.runtimes[k], now, rs[k])
    decreases |s.runtimes| - i
  {
    if i == |s.runtimes| {
    } else {
      var x := s.runtimes[i];
      var s1 := if Expired(x, now)
                then Append(s.(runtimes := s.runtimes[i := x.(status := Offline, lease := 0, lastSeen := now)]),
                            x.project, RuntimeOffline, 0, x.runtime, 0, false)
                else s;
      ExpireEntries(s1, i + 1, now);
    }
  }

  /** Expiry turns exactly the entries offline whose lease is over. */
  lemma ExpireMeaning(s: State, env: Env)
    ensures var (s', reply) := Step(s, Expire, env);
      var due := exists k :: 0 <= k < |s.runtimes| && !ExpiresTo(s.runtimes[k], env.now, s.runtimes[k]);
      if due && !env.saves then reply == SaveFailed
      else
        && reply == Done && s'.tasks == s.tasks && s'.commands == s.commands && |s'.runtimes| == |s.runtimes|
        && forall k :: 0 <= k < |s.runtimes| ==> ExpiresTo(s.runtimes[k], env.now, s'.runtimes[k])
  {
    ExpireEntries(s, 0, env.now);
    ExpireTasks(s, 0, env.now);
    assert forall x: Runtime :: Expired(x, env.now) <==> !ExpiresTo(x, env.now, x);
    hide ExpireFrom;
  }

  // ---------------------------------------------------------------------- event batches

  // How many events of the batch are beyond what has been taken.
  function FreshCount(batch: seq<RawEvent>, last: nat): nat {
    if |batch| == 0 then 0
    else
      var e := batch[|batch| - 1];
      FreshCount(batch[..|batch| - 1], last) + if e.RawEvent? && Clamp(e.sequence) > last then 1 else 0
  }

  predicate NamesTask(ts: seq<Task>, p: string, id: nat) { exists k :: 0 <= k < |ts| && ts[k].id == id && ts[k].project == p }

  // What is wrong with the k-th event of a batch, if those before it are right: it is no event at all; or
  // it is new and does not carry the next number, or its task, attempt or payload is not valid.
  function Fault(ts: seq<Task>, p: string, batch: seq<RawEvent>, last: nat, k: nat): Verdict
    requires k < |batch|
  {
    var e := batch[k];
    if e.NotAnObject? || e.sequence <= 0 || e.typ.InvalidType? then Invalid(EventInvalid)
    else if Clamp(e.sequence) <= last then Valid
    else if Clamp(e.sequence) != last + FreshCount(batch[..k], last) + 1 then Invalid(SequenceGap)
    else if e.task != 0 && !NamesTask(ts, p, e.task) then Invalid(EventTaskInvalid)
    else if !(e.attempt.NoAttempt? || (e.attempt.AttemptGiven? && 1 <= e.attempt.n <= 1_000_000)) then Invalid(AttemptInvalid)
    else if (e.typ.TaskHandoff? || e.typ.TaskReport? || e.typ.ArtifactCreated?) && !e.payloadOk then Invalid(PayloadInvalid)
    else Valid
  }

  predicate FirstFault(ts: seq<Task>, p: string, batch: seq<RawEvent>, last: nat, i: nat, k: nat) {
    i <= k < |batch| && Fault(ts, p, batch, last, k) != Valid && forall j :: i <= j < k ==> Fault(ts, p, batch, last, j) == Valid
  }

  lemma NamesTaskExact(ts: seq<Task>, n: nat, p: string, id: nat)
    requires TasksWf(ts, n)
    ensures InProject(ts, p, id) <==> NamesTask(ts, p, id)
  {
    var i := FindTask(ts, id);
    if k :| 0 <= k < |ts| && ts[k].id == id && ts[k].project == p { assert i <= k; }
  }

  lemma FreshNext(batch: seq<RawEvent>, last: nat, i: nat)
    requires i < |batch|
    ensures FreshCount(batch[..i + 1], last) ==
      FreshCount(batch[..i], last) + if batch[i].RawEvent? && Clamp(batch[i].sequence) > last then 1 else 0
  {
    assert batch[..i + 1][..i] == batch[..i] && batch[..i + 1][i] == batch[i];
  }

  lemma ValidateStep(ts: seq<Task>, n: nat, p: string, batch: seq<RawEvent>, last: nat, i: nat)
    requires TasksWf(ts, n) && i < |batch|
    ensures var v := Validate(ts, p, batch[i..], last, last + FreshCount(batch[..i], last));
      if Fault(ts, p, batch, last, i) != Valid then v == Fault(ts, p, batch, last, i)
      else batch[i].RawEvent? && v == Validate(ts, p, batch[i + 1..], last, last + FreshCount(batch[..i + 1], last))
  {
    var e := batch[i];
    assert batch[i..][0] == e && batch[i..][1..] == batch[i + 1..];
    FreshNext(batch, last, i);
    if e.RawEvent? { NamesTaskExact(ts, n, p, e.task); }
    hide FreshCount, NamesTask, InProject, TasksWf;
  }

  lemma TakenStep(ts: seq<Task>, p: string, batch: seq<RawEvent>, last: nat, i: nat)
    requires i < |batch| && batch[i].RawEvent? && Fault(ts, p, batch, last, i) == Valid && Objects(batch[i + 1..])
    ensures Objects(batch[i..]) && LastTaken(batch[i..], last + FreshCount(batch[..i], last)) ==
                                   LastTaken(batch[i + 1..], last + FreshCount(batch[..i + 1], last))
  {
    TakenNext(batch, last, i);
    FreshNext(batch, last, i);
    hide FreshCount, LastTaken, NamesTask;
  }

  // No fault from position i on.
  predicate FaultlessFrom(ts: seq<Task>, p: string, batch: seq<RawEvent>, last: nat, i: nat) {
    forall k :: i <= k < |batch| ==> Fault(ts, p, batch, last, k) == Valid
  }

  lemma FaultStep(ts: seq<Task>, p: string, batch: seq<RawEvent>, last: nat, i: nat)
    requires i < |batch|
    ensures if Fault(ts, p, batch, last, i) == Valid then
        && (FaultlessFrom(ts, p, batch, last, i) <==> FaultlessFrom(ts, p, batch, last, i + 1))
        && forall k :: FirstFault(ts, p, batch, last, i, k) ==> FirstFault(ts, p, batch, last, i + 1, k)
      else
        && !FaultlessFrom(ts, p, batch, last, i)
        && forall k :: FirstFault(ts, p, batch, last, i, k) ==> k == i
  {
    hide Fault;
  }

  // The first faulty event from position i on decides; if there is none the batch is valid, and the number
  // reached is how many are fresh.
  lemma {:induction false} ValidateFrom(ts: seq<Task>, n: nat, p: string, batch: seq<RawEvent>, last: nat, i: nat)
    requires TasksWf(ts, n) && i <= |batch|
    ensures var expected := last + FreshCount(batch[..i], last);
      var v := Validate(ts, p, batch[i..], last, expected);
      && (v == Valid <==> FaultlessFrom(ts, p, batch, last, i))
      && (forall k :: FirstFault(ts, p, batch, last, i, k) ==> v == Fault(ts, p, batch, last, k))
      && (v == Valid ==> Objects(batch[i..]) && LastTaken(batch[i..], expected) == last + FreshCount(batch, last))
    decreases |batch| - i
  {
    if i == |batch| {
      assert batch[..i] == batch && batch[i..] == [];
    } else {
      hide FreshCount, TasksWf, LastTaken, Validate, Fault, FirstFault, FaultlessFrom, Objects;
      ValidateStep(ts, n, p, batch, last, i);
      FaultStep(ts, p, batch, last, i);
      if Fault(ts, p, batch, last, i) == Valid {
        ValidateFrom(ts, n, p, batch, last, i + 1);
        if Objects(batch[i + 1..]) { TakenStep(ts, p, batch, last, i); }
      }
    }
  }

  lemma TakenNext(batch: seq<RawEvent>, last: nat, i: nat)
    requires i < |batch| && batch[i].RawEvent?
    ensures Objects(batch[i..]) <==> Objects(batch[i + 1..])
    ensures Objects(batch[i..]) ==>
      var expected := last + FreshCount(batch[..i], last);
      LastTaken(batch[i..], expected) ==
        if Clamp(batch[i].sequence) <= expected then LastTaken(batch[i + 1..], expected)
        else LastTaken(batch[i + 1..], Clamp(batch[i].sequence))
  {
    assert batch[i..][0] == batch[i] && batch[i..][1..] == batch[i + 1..];
    if Objects(batch[i + 1..]) {
      forall k | 0 <= k < |batch[i..]| ensures batch[i..][k].RawEvent? {
        if k > 0 { assert batch[i..][k] == batch[i + 1..][k - 1]; }
      }
    }
    if Objects(batch[i..]) {
      var rest := batch[i + 1..];
      forall k | 0 <= k < |rest| ensures rest[k].RawEvent? { assert rest[k] == batch[i..][k + 1]; }
    }
    hide FreshCount;
  }

  // Whether all events of the batch are right, against the number the entry has reached.
  predicate Faultless(ts: seq<Task>, p: string, batch: seq<RawEvent>, last: nat) {
    forall k :: 0 <= k < |batch| ==> Fault(ts, p, batch, last, k) == Valid
  }

  /** A batch of 1 to 100 events of an entry that holds its lease is taken exactly when none of its events is
      faulty, and then up to the number reached; otherwise its first faulty event decides the refusal. */
  lemma EventsReply(s: State, p: string, r: string, token: nat, batch: seq<RawEvent>, env: Env, x: Runtime)
    requires Wf(s) && x in s.runtimes && x.project == p && x.runtime == r
    ensures var reply, last := Reply(s, Events(p, r, token, batch), env), x.lastSequence;
      if p == "" || r == "" || token == 0 || |batch| == 0 || |batch| > 100 then reply == Refused(FieldsRequired)
      else if !Leased(s.runtimes, p, r, token, env.now) then reply == Refused(LeaseLost)
      else if Faultless(s.tasks, p, batch, last) then
        reply == if env.saves then Taken(last + FreshCount(batch, last)) else SaveFailed
      else exists k :: FirstFault(s.tasks, p, batch, last, 0, k) && reply == Refused(Fault(s.tasks, p, batch, last, k).error)
  {
    WfRuntimes(s);
    assert TasksWf(s.tasks, s.nextId);
    hide Wf, RuntimesWf, TasksWf, Leased, Fault, FreshCount, Reply, Faultless, FirstFault, HoldsLease;
    LeasedExact(s.runtimes, s.nextId, p, r, token, env.now);
    EntryFound(s.runtimes, s.nextId, p, r, x);
    EventsGuard(s, p, r, token, batch, env);
    var last := x.lastSequence;
    ValidateAll(s.tasks, s.nextId, p, batch, last);
    if !Faultless(s.tasks, p, batch, last) {
      NotFaultless(s.tasks, p, batch, last);
      var _ := SomeFirst(s.tasks, p, batch, last, 0);
    }
  }

  lemma NotFaultless(ts: seq<Task>, p: string, batch: seq<RawEvent>, last: nat)
    requires !Faultless(ts, p, batch, last)
    ensures exists j :: 0 <= j < |batch| && Fault(ts, p, batch, last, j) != Valid
  {
    hide Fault;
  }

  lemma EventsGuard(s: State, p: string, r: string, token: nat, batch: seq<RawEvent>, env: Env)
    ensures var reply, i := Reply(s, Events(p, r, token, batch), env), FindRuntime(s.runtimes, p, r);
      if p == "" || r == "" || token == 0 || |batch| == 0 || |batch| > 100 then reply == Refused(FieldsRequired)
      else if !HoldsLease(s.runtimes, p, r, token, env.now) then reply == Refused(LeaseLost)
      else
        var last := s.runtimes[i].lastSequence;
        var v := Validate(s.tasks, p, batch, last, last);
        if v.Invalid? then reply == Refused(v.error)
        else
          Objects(batch) && reply == if env.saves then Taken(LastTaken(batch, last)) else SaveFailed
  {
    hide ApplyAll, Selected, LastTaken, Validate, ReplaceRuntime, RolledBack;
    var i := FindRuntime(s.runtimes, p, r);
    if i < |s.runtimes| && Validate(s.tasks, p, batch, s.runtimes[i].lastSequence, s.runtimes[i].lastSequence) == Valid {
      ValidObjects(s.tasks, p, batch, s.runtimes[i].lastSequence, s.runtimes[i].lastSequence);
    }
  }

  lemma ValidateAll(ts: seq<Task>, n: nat, p: string, batch: seq<RawEvent>, last: nat)
    requires TasksWf(ts, n)
    ensures var v := Validate(ts, p, batch, last, last);
      && (v == Valid <==> Faultless(ts, p, batch, last))
      && (forall k :: FirstFault(ts, p, batch, last, 0, k) ==> v == Fault(ts, p, batch, last, k))
      && (v == Valid ==> Objects(batch) && LastTaken(batch, last) == last + FreshCount(batch, last))
  {
    assert batch[0..] == batch && batch[..0] == [];
    ValidateFrom(ts, n, p, batch, last, 0);
  }

  lemma {:induction false} SomeFirst(ts: seq<Task>, p: string, batch: seq<RawEvent>, last: nat, i: nat) returns (k: nat)
    requires exists j :: i <= j < |batch| && Fault(ts, p, batch, last, j) != Valid
    ensures FirstFault(ts, p, batch, last, i, k)
    decreases |batch| - i
  {
    hide Fault;
    if Fault(ts, p, batch, last, i) != Valid {
      k := i;
    } else {
      k := SomeFirst(ts, p, batch, last, i + 1);
    }
  }

  /** A batch for which there is no entry is refused. */
  lemma NoEntryRefused(s: State, p: string, r: string, token: nat, batch: seq<RawEvent>, env: Env)
    requires Wf(s) && p != "" && r != "" && token != 0 && 1 <= |batch| <= 100
    requires forall x :: x in s.runtimes ==> !(x.project == p && x.runtime == r)
    ensures Reply(s, Events(p, r, token, batch), env) == Refused(LeaseLost)
  {
    hide Wf;
    assert forall k :: 0 <= k < |s.runtimes| ==> s.runtimes[k] in s.runtimes;
  }

  /** A batch that is taken renews the lease of its entry for 15 seconds and notes the number reached; every
      other entry stays. */
  lemma EventsRenew(s: State, p: string, r: string, token: nat, batch: seq<RawEvent>, env: Env)
    requires Wf(s) && Reply(s, Events(p, r, token, batch), env).Taken?
    ensures var rs := After(s, Events(p, r, token, batch), env).runtimes;
      |rs| == |s.runtimes| && forall k :: 0 <= k < |rs| ==>
        var x := s.runtimes[k];
        rs[k] == if x.project == p && x.runtime == r
                 then x.(lastSequence := Reply(s, Events(p, r, token, batch), env).through, lastSeen := env.now,
                         lease := env.now + 15_000_000_000)
                 else x
  {
    WfRuntimes(s);
    OneEntry(s.runtimes, s.nextId, p, r);
    Entries.EventsEntry(s, p, r, token, batch, env.budget, env.now);
    hide Wf, RuntimesWf, ApplyAll, Selected, Validate, LastTaken, ReplaceRuntime;
  }

  // --------------------------------------------------------------------------- creation

  /** What the counts of tasks and of commands count: appending one raises them exactly if it is of the project,
      and not finished. */
  lemma {:induction false} TasksCounted(ts: seq<Task>, t: Task, p: string)
    ensures TaskCount([], p) == 0
    ensures TaskCount(ts + [t], p) == TaskCount(ts, p) + if t.project == p then 1 else 0
  {
    if |ts| == 0 {
      assert ts + [t] == [t] && [t][1..] == [];
    } else {
      assert (ts + [t])[0] == ts[0] && (ts + [t])[1..] == ts[1..] + [t];
      TasksCounted(ts[1..], t, p);
    }
  }

  lemma {:induction false} PendingCounted(cs: seq<Command>, c: Command, p: string)
    ensures PendingCount([], p) == 0
    ensures PendingCount(cs + [c], p) ==
      PendingCount(cs, p) + if c.project == p && (c.status == Queued || c.status == Delivered) then 1 else 0
  {
    if |cs| == 0 {
      assert cs + [c] == [c] && [c][1..] == [];
    } else {
      assert (cs + [c])[0] == cs[0] && (cs + [c])[1..] == cs[1..] + [c];
      PendingCounted(cs[1..], c, p);
    }
  }

  lemma {:induction false} FinishedCounted(cs: seq<Command>, c: Command, p: string)
    ensures TerminalCount([], p) == 0
    ensures TerminalCount(cs + [c], p) ==
      TerminalCount(cs, p) + if c.project == p && (c.status == Acked || c.status == Superseded) then 1 else 0
  {
    if |cs| == 0 {
      assert cs + [c] == [c] && [c][1..] == [];
    } else {
      assert (cs + [c])[0] == cs[0] && (cs + [c])[1..] == cs[1..] + [c];
      FinishedCounted(cs[1..], c, p);
    }
  }

  // Up to 32 identifiers, none absent and none twice.
  predicate ListOk(deps: seq<nat>) {
    |deps| <= 32 && (forall k :: 0 <= k < |deps| ==> deps[k] != 0) && (forall j, k :: 0 <= j < k < |deps| ==> deps[j] != deps[k])
  }

  predicate KeyUsed(ts: seq<Task>, p: string, key: string) {
    key != "" && exists k :: 0 <= k < |ts| && ts[k].project == p && ts[k].key == key
  }

  lemma KeyUsedExact(ts: seq<Task>, p: string, key: string)
    ensures KeyUsed(ts, p, key) <==> key != "" && FindKey(ts, p, key) < |ts|
  {
    if k :| 0 <= k < |ts| && ts[k].project == p && ts[k].key == key { assert FindKey(ts, p, key) <= k; }
  }

  predicate AllName(ts: seq<Task>, p: string, deps: seq<nat>) { forall k :: 0 <= k < |deps| ==> NamesTask(ts, p, deps[k]) }

  lemma AllNameExact(ts: seq<Task>, n: nat, p: string, deps: seq<nat>)
    requires TasksWf(ts, n)
    ensures DepsExist(ts, p, n, deps) <==> AllName(ts, p, deps)
  {
    forall k | 0 <= k < |deps| ensures InProject(ts, p, deps[k]) <==> NamesTask(ts, p, deps[k]) {
      NamesTaskExact(ts, n, p, deps[k]);
    }
    assert forall id: nat :: NamesTask(ts, p, id) ==> id < n;
    hide InProject, TasksWf;
  }

  /** The refusals of a new task, in their order: no project; a malformed list of dependencies; a key that is
      used, which is answered as a replay; 10000 tasks or 1000 unfinished commands; a dependency that is
      not a task of the project. */
  lemma CreateReply(s: State, p: string, deps: seq<nat>, profile: Profile, key: string, owner: string, env: Env)
    requires Wf(s)
    ensures var reply := Reply(s, Create(p, deps, profile, key, owner), env);
      if p == "" then reply == Refused(FieldsRequired)
      else if !ListOk(deps) then reply == Refused(DependenciesInvalid)
      else if KeyUsed(s.tasks, p, key) then reply == Replayed
      else if TaskCount(s.tasks, p) >= 10000 || PendingCount(s.commands, p) >= 1000 then reply == Refused(CapacityReached)
      else if !AllName(s.tasks, p, deps) then reply == Refused(DependenciesInvalid)
      else reply == if env.saves then Done else SaveFailed
  {
    assert TasksWf(s.tasks, s.nextId);
    hide Wf, TasksWf, KeyUsed, FindKey, AllName, DepsExist, AddTask, NewTask, TaskCount, PendingCount;
    KeyUsedExact(s.tasks, p, key);
    AllNameExact(s.tasks, s.nextId, p, deps);
  }

  // The share of the budget a task of this size takes.
  function Share(profile: Profile): nat { if profile == Large then 4 else if profile == Medium then 2 else 1 }

  /** What is charged to a project: the shares of its tasks that are accepted, running or waiting for input,
      except the one named. */
  lemma {:induction false} UnitsCounted(ts: seq<Task>, t: Task, p: string, exclude: nat)
    ensures Used([], p, exclude) == 0
    ensures Used(ts + [t], p, exclude) == Used(ts, p, exclude) +
      if t.project == p && t.id != exclude && t.status in {Accepted, Running, WaitingInput} then Share(t.profile) else 0
  {
    if |ts| == 0 {
      assert ts + [t] == [t] && [t][1..] == [];
    } else {
      assert (ts + [t])[0] == ts[0] && (ts + [t])[1..] == ts[1..] + [t];
      UnitsCounted(ts[1..], t, p, exclude);
    }
  }

  // The status a task of this kind has when the scheduler looks at it.
  predicate Placed(ts: seq<Task>, t: Task, budget: nat) {
    var k := FirstOpen(ts, t.deps);
    t.status ==
      if k < |t.deps| then if DeadTask(ts, t.deps[k]) then Blocked else WaitingDependency
      else if Used(ts, t.project, t.id) + Share(t.profile) <= budget then Accepted else WaitingResource
  }

  /** A created task is added behind the others, as it was asked for, with its first attempt, where the scheduler
      would put it. */
  lemma CreateMeaning(s: State, p: string, deps: seq<nat>, profile: Profile, key: string, owner: string, env: Env)
    requires Wf(s) && Reply(s, Create(p, deps, profile, key, owner), env) == Done
    ensures var ts := After(s, Create(p, deps, profile, key, owner), env).tasks;
      && |ts| == |s.tasks| + 1 && ts[..|s.tasks|] == s.tasks
      && var t := ts[|s.tasks|];
         && t.id == s.nextId && t.project == p && t.deps == deps && t.profile == profile && t.key == key && t.owner == owner
         && t.attempt == 1 && t.completion == NoSource && t.cancellation == NoSource && t.approval == Undecided
         && t.updatedAt == env.now && Placed(s.tasks, t, env.budget)
  {
    var t := NewTask(s, p, deps, profile, key, owner, env.budget, env.now);
    CreatedTasks(s, p, deps, profile, key, owner, env);
    DepStatusMeaning(s.tasks, deps);
    assert Used(s.tasks, p, 0) == Used(s.tasks, p, s.nextId) by { UsedNew(s, p); }
    hide Wf, Used, DepStatus, FirstOpen, Reply, After;
  }

  lemma UsedNew(s: State, p: string)
    requires Wf(s)
    ensures Used(s.tasks, p, 0) == Used(s.tasks, p, s.nextId)
  {
    assert forall k :: 0 <= k < |s.tasks| ==> s.tasks[k].id != s.nextId && s.tasks[k].id >= 1;
    hide Wf;
    UsedAbsent(s.tasks, p, s.nextId);
  }

  lemma CreatedTasks(s: State, p: string, deps: seq<nat>, profile: Profile, key: string, owner: string, env: Env)
    requires Reply(s, Create(p, deps, profile, key, owner), env) == Done
    ensures After(s, Create(p, deps, profile, key, owner), env).tasks ==
      s.tasks + [NewTask(s, p, deps, profile, key, owner, env.budget, env.now)]
  {
    hide CreateGuard, NewTask, DepStatus, FindReachable, Compacted, LastN, CreationEvent;
  }

  // -------------------------------------------------------------------------- user actions

  /** What an action is answered, in the order of its checks: an unknown task; a completion or cancellation that is
      there already, which is a replay; a task that is completed for good; a millionth attempt; 1000
      unfinished commands, counted with those the action finishes and makes; an empty input. */
  lemma ActionReply(s: State, task: nat, action: Action, env: Env)
    requires Wf(s)
    ensures var reply := Reply(s, Act(task, action), env);
      if forall k :: 0 <= k < |s.tasks| ==> s.tasks[k].id != task then reply == Refused(TaskNotFound)
      else exists k :: 0 <= k < |s.tasks| && s.tasks[k].id == task && Answers(s, s.tasks[k], action, env, reply)
  {
    var i := FindTask(s.tasks, task);
    if i < |s.tasks| { AnswersGuard(s, s.tasks[i], action, env); }
    hide ActionGuard, Acted, Answers, RolledBack;
    if i < |s.tasks| { assert Answers(s, s.tasks[i], action, env, Reply(s, Act(task, action), env)); }
  }

  predicate Answers(s: State, t: Task, action: Action, env: Env, reply: Response) {
    var pending, own := PendingCount(s.commands, t.project), |PendingOf(s.commands, t.id)|;
    if t.status == Completed && (action.Complete? || t.completion == Manual) then
      reply == if action.Complete? && t.completion == Manual then Replayed else Refused(AlreadyCompleted)
    else if t.status == Cancelled && action.Cancel? then reply == Replayed
    else if action.Retry? && t.attempt >= 1_000_000 then reply == Refused(AttemptExhausted)
    else if (action.Retry? && pending - own + 2 > 1000) || (action.Input? && pending >= 1000)
         || ((action.Cancel? || action.Complete?) && pending >= 1000 && own == 0)
    then reply == Refused(CommandCapacity)
    else if action == Input("") then reply == Refused(InputRequired)
    else reply == if env.saves then Done else SaveFailed
  }

  lemma AnswersGuard(s: State, t: Task, action: Action, env: Env)
    ensures Answers(s, t, action, env,
      if ActionGuard(s, t, action) != Done then ActionGuard(s, t, action) else if env.saves then Done else SaveFailed)
  {
    hide PendingCount, PendingOf;
  }

  // What an action makes of its task; the status a retry gives is the scheduler's.
  predicate ActsOn(ts: seq<Task>, t: Task, action: Action, budget: nat, now: nat, t': Task) {
    match action
    case Input(_) => t' == t.(updatedAt := now)
    case Cancel => t' == t.(status := Cancelled, cancellation := Manual, updatedAt := now)
    case Complete => t' == t.(status := Completed, completion := Manual, updatedAt := now)
    case Approve => t' == t.(approval := Approved, updatedAt := now)
    case Reject => t' == t.(approval := Rejected, status := Blocked, updatedAt := now)
    case Retry =>
      t' == t.(attempt := t.attempt + 1, completion := NoSource, cancellation := NoSource, status := t'.status, updatedAt := now)
      && Placed(ts, t', budget)
  }

  /** A served action does to its task what its name says, and to the others of the project no more than
      activation may: of those that wait, some are accepted, blocked or left to the budget. */
  lemma ActionMeaning(s: State, task: nat, action: Action, env: Env, i: nat)
    requires Wf(s) && Reply(s, Act(task, action), env) == Done && i < |s.tasks| && s.tasks[i].id == task
    ensures var ts := After(s, Act(task, action), env).tasks;
      && |ts| == |s.tasks| && ActsOn(s.tasks, s.tasks[i], action, env.budget, env.now, ts[i])
      && forall j :: 0 <= j < |ts| && j != i ==>
           || ts[j] == s.tasks[j]
           || ((action.Cancel? || action.Complete? || action.Reject?) && Moved(s.tasks[j], ts[j], s.tasks[i].project))
  {
    assert Ids(s.tasks);
    hide Wf, Reply, After, ActionGuard, Acted, ActsOn, ActedElse;
    FindOwn(s.tasks, i);
    Delivery.DoneActs(s, task, action, env);
    ActedMeaning(s, i, action, env.budget, env.now);
    ElseMeaning(s.tasks, After(s, Act(task, action), env).tasks, action, i);
  }

  predicate ActedElse(ts: seq<Task>, ts': seq<Task>, action: Action, i: nat)
    requires i < |ts|
  {
    |ts'| == |ts| && forall j :: 0 <= j < |ts| && j != i ==>
      || ts'[j] == ts[j]
      || ((action.Cancel? || action.Complete? || action.Reject?) && Moved(ts[j], ts'[j], ts[i].project))
  }

  lemma ElseMeaning(ts: seq<Task>, ts': seq<Task>, action: Action, i: nat)
    requires i < |ts| && ActedElse(ts, ts', action, i)
    ensures |ts'| == |ts| && forall j :: 0 <= j < |ts| && j != i ==>
      || ts'[j] == ts[j]
      || ((action.Cancel? || action.Complete? || action.Reject?) && Moved(ts[j], ts'[j], ts[i].project))
  {
    hide Moved;
  }

  lemma MovedElse(ts: seq<Task>, i: nat, u: Task, ts': seq<Task>, action: Action)
    requires i < |ts| && u.project == ts[i].project && !Waiting(u.status) && OnlyMoved(ts[i := u], ts', u.project)
    requires action.Cancel? || action.Complete? || action.Reject?
    ensures ActedElse(ts, ts', action, i) && ts'[i] == u
  {
  }

  lemma ActedMeaning(s: State, i: nat, action: Action, budget: nat, now: nat)
    requires i < |s.tasks|
    ensures var ts := Acted(s, i, action, budget, now).tasks;
      ActedElse(s.tasks, ts, action, i) && ActsOn(s.tasks, s.tasks[i], action, budget, now, ts[i])
  {
    hide LastN, FindReachable, Compacted, ActCancel, ActComplete, ActReject, ActRetry, OnlyMoved, Placed, Moved;
    var t := s.tasks[i];
    match action
    case Input(_) =>
    case Cancel =>
      Verdicts.CancelTasks(s, i, budget, now);
      MovedElse(s.tasks, i, t.(status := Cancelled, cancellation := Manual, updatedAt := now),
                ActCancel(s, i, budget, now).tasks, action);
    case Complete =>
      Verdicts.CompleteTasks(s, i, budget, now);
      MovedElse(s.tasks, i, t.(status := Completed, completion := Manual, updatedAt := now),
                ActComplete(s, i, budget, now).tasks, action);
    case Approve =>
    case Reject =>
      Verdicts.RejectTasks(s, i, budget, now);
      MovedElse(s.tasks, i, t.(approval := Rejected, status := Blocked, updatedAt := now),
                ActReject(s, i, budget, now).tasks, action);
    case Retry => RetryPlaced(s, i, budget, now);
  }

  lemma RetryPlaced(s: State, i: nat, budget: nat, now: nat)
    requires i < |s.tasks|
    ensures var ts := ActRetry(s, i, budget, now).tasks;
      ts == s.tasks[i := ts[i]] && ActsOn(s.tasks, s.tasks[i], Retry, budget, now, ts[i])
  {
    Queue.RetryTasks(s, i, budget, now);
    var t := s.tasks[i];
    var s1 := Enqueue(s.(commands := Supersede(s.commands, t.id)), t, CancelTask, t.attempt, now);
    Dispatch.EnqueueShape(s.(commands := Supersede(s.commands, t.id)), t, CancelTask, t.attempt, now);
    DepStatusMeaning(s.tasks, t.deps);
    hide ActRetry, Enqueue, Supersede, DepStatus, Used, FirstOpen, DeadTask;
    assert s1.tasks == s.tasks;
    var u := RetriedTask(s1, t, budget, now);
    assert u.deps == t.deps && u.id == t.id && u.project == t.project && u.profile == t.profile;
  }
}
