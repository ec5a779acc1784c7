/**
  Handing commands out: what a runtime is given, how long a command is then hidden, when it
  is handed out again, and what each user action sends.
 */
module TeamDelivery {
  import opened TeamModel
  import opened TeamFrames
  import opened TeamSteps
  import opened TeamStarts
  import opened TeamQueue
  import opened TeamScheduler
  import opened TeamDispatch

  // The command as it is handed out at this time: hidden for 30 seconds, and counted once more.
  predicate HandedAt(c: Command, now: nat, item: Command) {
    && item == c.(status := Delivered, deliveries := item.deliveries, visibleAt := now + 30_000_000_000)
    && item.deliveries == (if c.deliveries > 1_000_000 then 1_000_001 else c.deliveries + 1)
  }

  // Waiting to be handed out, for the first time or again.
  predicate Open(c: Command, p: string, r: string, now: nat) {
    c.project == p && c.runtime == r && (c.status == Queued || (c.status == Delivered && c.visibleAt <= now))
  }

  lemma {:induction false} ReadyIs(cs: seq<Command>, p: string, r: string, now: nat, item: Command)
    ensures item in Ready(cs, p, r, now) <==> exists c :: c in cs && Open(c, p, r, now) && HandedAt(c, now, item)
  {
    if |cs| == 0 {
    } else {
      ReadyIs(cs[1..], p, r, now, item);
      assert Deliverable(cs[0], p, r, now) <==> Open(cs[0], p, r, now);
      assert item == DeliveredAt(cs[0], now) <==> HandedAt(cs[0], now, item);
      hide Deliverable, DeliveredAt, Open, HandedAt;
      assert cs == [cs[0]] + cs[1..];
    }
  }

  lemma {:induction false} ReadyCount(cs: seq<Command>, p: string, r: string, now: nat)
    ensures |Ready(cs, p, r, now)| <= |cs|
  {
    if |cs| == 0 {
    } else {
      ReadyCount(cs[1..], p, r, now);
    }
  }

  /** Every item of a served poll is a command of the asking runtime that was open, as it is handed out now; and
      with room for all, every such command is among them. */
  lemma ItemsMeaning(s: State, p: string, r: string, token: nat, limit: nat, env: Env, item: Command)
    requires Reply(s, Poll(p, r, token, limit), env).Items?
    ensures var items := Reply(s, Poll(p, r, token, limit), env).items;
      && (item in items ==> exists c :: c in s.commands && Open(c, p, r, env.now) && HandedAt(c, env.now, item))
      && (limit >= |s.commands| ==>
            (item in items <==> exists c :: c in s.commands && Open(c, p, r, env.now) && HandedAt(c, env.now, item)))
  {
    hide Open, HandedAt, Ready, Reply, After, Handed;
    PollExact(s, p, r, token, limit, env);
    ReadyIs(s.commands, p, r, env.now, item);
    ReadyCount(s.commands, p, r, env.now);
  }

  // --------------------------------------------------------- one request and one command

  // What a request may make of a command: it stays or is finished; or a poll hands it out.
  ghost predicate Follows(s: State, req: Request, now: nat, c': Command) {
    || Stays(s.commands, c')
    || (req.Poll? && exists c :: c in s.commands && Open(c, req.project, req.runtime, now) && HandedAt(c, now, c'))
  }

  lemma StaysSame(cs: seq<Command>, c: Command)
    requires c in cs
    ensures Stays(cs, c)
  {
  }

  lemma PollFollows(s: State, req: Request, env: Env, c': Command)
    requires req.Poll? && c' in After(s, req, env).commands
    ensures Follows(s, req, env.now, c')
  {
    var p, r := req.project, req.runtime;
    if Reply(s, req, env).Items? {
      PollExact(s, p, r, req.token, req.limit, env);
      var k :| 0 <= k < |After(s, req, env).commands| && After(s, req, env).commands[k] == c';
      if Handed(s.commands, p, r, env.now, req.limit, k) {
        HandedOpen(s.commands, p, r, env.now, req.limit, k);
      } else {
        StaysSame(s.commands, c');
      }
    } else {
      assert After(s, req, env).commands == s.commands by { hide Deliver, HoldsLease; }
      StaysSame(s.commands, c');
    }
  }

  lemma HandedOpen(cs: seq<Command>, p: string, r: string, now: nat, limit: nat, k: nat)
    requires k < |cs| && Handed(cs, p, r, now, limit, k)
    ensures Open(cs[k], p, r, now) && HandedAt(cs[k], now, DeliveredAt(cs[k], now))
  {
  }

  lemma AckFollows(s: State, req: Request, env: Env, c': Command)
    requires Wf(s) && req.Ack? && c' in After(s, req, env).commands
    ensures Stays(s.commands, c')
  {
    var p, r := req.project, req.runtime;
    if Reply(s, req, env) == Done {
      var q := AckAll(s.commands, p, r, req.ids);
      assert After(s, req, env).commands == Compacted(q, p) by { hide Compacted, AckAll, HoldsLease; }
      CompactedIn(q, p);
      var k :| 0 <= k < |q| && q[k] == c';
      assert s.commands[k] in s.commands;
    } else {
      assert After(s, req, env).commands == s.commands by { hide Compacted, AckAll, HoldsLease; }
      StaysSame(s.commands, c');
    }
  }

  lemma Requeued(s: State, p: string, r: string, now: nat, c': Command)
    requires Wf(s) && c' in Restart(TakeOver(s, p, r, now), p, 0, now).commands && c'.id < s.nextId && c'.project != p
    ensures Stays(s.commands, c')
  {
    hide Restart, TakeOver, Wf, Flows, Stays;
    TakeOverGrows(s, p, r, now);
    RestartFlows(TakeOver(s, p, r, now), p, 0, now);
    TakeOverDraws(s, p, r, now);
    FlowsStays(TakeOver(s, p, r, now), Restart(TakeOver(s, p, r, now), p, 0, now), now, c');
    OthersCommand(s, p, r, now, c');
  }

  lemma TakeOverDraws(s: State, p: string, r: string, now: nat)
    ensures s.nextId <= TakeOver(s, p, r, now).nextId
  {
  }

  lemma OthersCommand(s: State, p: string, r: string, now: nat, c': Command)
    requires Stays(TakeOver(s, p, r, now).commands, c') && c'.project != p
    ensures Stays(s.commands, c')
  {
    var cs := TakeOver(s, p, r, now).commands;
    var y :| y in cs && y.id == c'.id && c' == y.(status := c'.status) && (c'.status == y.status || Terminal(c'));
    var k :| 0 <= k < |cs| && cs[k] == y;
    assert s.commands[k] == y && y in s.commands;
  }

  lemma RegisterFollows(s: State, req: Request, env: Env, c': Command)
    requires Wf(s) && req.Register? && c' in After(s, req, env).commands && c'.id < s.nextId
    requires c'.project != req.project || !Reply(s, req, env).Registered?
    ensures Stays(s.commands, c')
  {
    if Reply(s, req, env).Registered? {
      var s1 := TakeOver(s, req.project, req.runtime, env.now);
      assert After(s, req, env).commands == Restart(s1, req.project, 0, env.now).commands
        by { hide Restart, TakeOver, FindCurrent; }
      Requeued(s, req.project, req.runtime, env.now, c');
    } else {
      assert After(s, req, env).commands == s.commands by { hide Restart, TakeOver, FindCurrent; }
      StaysSame(s.commands, c');
    }
  }

  /** A registration puts every unfinished command of its project back as it was, queued for the new runtime,
      and leaves every other command alone. */
  lemma RegisterRequeues(s: State, p: string, r: string, env: Env, c': Command)
    requires Wf(s) && Reply(s, Register(p, r), env).Registered?
    requires c' in After(s, Register(p, r), env).commands && c'.id < s.nextId
    ensures Stays(s.commands, c') || exists c :: c in s.commands && c.project == p && !Terminal(c)
                                                && (c' == c.(runtime := r, status := Queued) || (c'.id == c.id && Terminal(c')))
  {
    hide Restart, TakeOver, Wf, Flows, Stays, After, Reply;
    var s1 := TakeOver(s, p, r, env.now);
    TakeOverGrows(s, p, r, env.now);
    RestartFlows(s1, p, 0, env.now);
    RegisteredQueue(s, p, r, env);
    FlowsStays(s1, Restart(s1, p, 0, env.now), env.now, c');
    TakenOverCommand(s, p, r, env.now, c');
  }

  lemma RegisteredQueue(s: State, p: string, r: string, env: Env)
    requires Reply(s, Register(p, r), env).Registered?
    ensures After(s, Register(p, r), env).commands == Restart(TakeOver(s, p, r, env.now), p, 0, env.now).commands
    ensures s.nextId <= TakeOver(s, p, r, env.now).nextId
  {
    hide Restart, FindCurrent;
  }

  lemma FlowsStays(s: State, s': State, now: nat, c': Command)
    requires Flows(s, s', now) && c' in s'.commands && c'.id < s.nextId
    ensures Stays(s.commands, c')
  {
    hide Stays, Addressee;
  }

  lemma TakenOverCommand(s: State, p: string, r: string, now: nat, c': Command)
    requires Stays(TakeOver(s, p, r, now).commands, c')
    ensures Stays(s.commands, c') || exists c :: c in s.commands && c.project == p && !Terminal(c)
                                                && (c' == c.(runtime := r, status := Queued) || (c'.id == c.id && Terminal(c')))
  {
    var cs := TakeOver(s, p, r, now).commands;
    var y :| y in cs && y.id == c'.id && c' == y.(status := c'.status) && (c'.status == y.status || Terminal(c'));
    var k :| 0 <= k < |cs| && cs[k] == y;
    assert s.commands[k] in s.commands;
  }

  // A registration that takes the project over, and its commands with it.
  predicate TakesOver(s: State, req: Request, env: Env, p: string) {
    req.Register? && req.project == p && Reply(s, req, env).Registered?
  }

  /** A command met again after a request is as it was, or finished, or handed out by that request; only a
      registration in its project puts it back. */
  lemma StepFollows(s: State, req: Request, env: Env, c': Command)
    requires Wf(s) && c' in After(s, req, env).commands && c'.id < s.nextId && !TakesOver(s, req, env, c'.project)
    ensures Follows(s, req, env.now, c')
  {
    hide After, Reply, Wf, Stays;
    if req.Register? {
      RegisterFollows(s, req, env, c');
    } else if req.Poll? {
      PollFollows(s, req, env, c');
    } else if req.Ack? {
      AckFollows(s, req, env, c');
    } else {
      StepQueues(s, req, env);
    }
  }

  // --------------------------------------------------------------------- hidden and back

  // The command, if it is still there, is finished or hidden until then.
  ghost predicate Hidden(s: State, p: string, id: nat, until: nat) {
    id < s.nextId && forall c :: c in s.commands && c.id == id ==>
      c.project == p && (Terminal(c) || (c.status == Delivered && c.visibleAt >= until))
  }

  lemma HiddenFollows(s: State, req: Request, now: nat, p: string, id: nat, until: nat, c': Command)
    requires Hidden(s, p, id, until) && c'.id == id && Follows(s, req, now, c')
    ensures c'.project == p && (Terminal(c') || (c'.status == Delivered && c'.visibleAt >= until))
  {
  }

  lemma OwnProject(s: State, req: Request, env: Env, c': Command) returns (x: Command)
    requires Wf(s) && c' in After(s, req, env).commands && c'.id < s.nextId
    ensures x in s.commands && SameCommand(x, c')
  {
    StepGrows(s, req, env);
    hide After, Wf;
    assert From(s.commands, c');
    x :| x in s.commands && SameCommand(x, c');
  }

  lemma StepHidden(s: State, req: Request, env: Env, p: string, id: nat, until: nat)
    requires Wf(s) && Hidden(s, p, id, until) && !TakesOver(s, req, env, p)
    ensures Hidden(After(s, req, env), p, id, until)
  {
    var s' := After(s, req, env);
    StepGrows(s, req, env);
    hide After, Wf, TakesOver, Follows;
    forall c' | c' in s'.commands && c'.id == id
      ensures c'.project == p && (Terminal(c') || (c'.status == Delivered && c'.visibleAt >= until))
    {
      var x := OwnProject(s, req, env, c');
      assert x.project == p;
      StepFollows(s, req, env, c');
      HiddenFollows(s, req, env.now, p, id, until, c');
    }
  }

  // Somebody takes the project over in the run.
  predicate TakenOver(s: State, calls: seq<Call>, p: string)
    decreases |calls|
  {
    |calls| > 0 &&
      (TakesOver(s, calls[0].req, calls[0].env, p) || TakenOver(After(s, calls[0].req, calls[0].env), calls[1..], p))
  }

  lemma {:induction false} RunHidden(s: State, calls: seq<Call>, p: string, id: nat, until: nat)
    requires Wf(s) && Hidden(s, p, id, until) && !TakenOver(s, calls, p)
    ensures Hidden(Run(s, calls), p, id, until)
    decreases |calls|
  {
    hide Wf, Hidden, After, TakesOver;
    if |calls| == 0 {
    } else {
      StepHidden(s, calls[0].req, calls[0].env, p, id, until);
      StepGrows(s, calls[0].req, calls[0].env);
      RunHidden(After(s, calls[0].req, calls[0].env), calls[1..], p, id, until);
    }
  }

  // An item is one of the commands that are handed out.
  lemma {:induction false} FirstHanded(cs: seq<Command>, p: string, r: string, now: nat, n: nat, item: Command) returns (k: nat)
    requires item in First(Ready(cs, p, r, now), n)
    ensures k < |cs| && Deliverable(cs[k], p, r, now) && |Ready(cs[..k], p, r, now)| < n && item == DeliveredAt(cs[k], now)
  {
    hide Deliverable, DeliveredAt;
    if Deliverable(cs[0], p, r, now) && item == DeliveredAt(cs[0], now) {
      k := 0;
      assert cs[..0] == [];
    } else {
      var m := if Deliverable(cs[0], p, r, now) then n - 1 else n;
      assert item in First(Ready(cs[1..], p, r, now), m);
      k := FirstHanded(cs[1..], p, r, now, m, item);
      k := k + 1;
      ReadyBefore(cs, p, r, now, k);
    }
  }

  // What the queue holds of a command that has just been handed out.
  lemma HandedStored(s: State, p: string, r: string, token: nat, limit: nat, env: Env, item: Command, c': Command)
    requires Wf(s) && Reply(s, Poll(p, r, token, limit), env).Items? && item in Reply(s, Poll(p, r, token, limit), env).items
    requires c' in After(s, Poll(p, r, token, limit), env).commands && c'.id == item.id
    ensures c' == item && item.id < s.nextId && item.project == p && item.runtime == r
    ensures item.status == Delivered && item.visibleAt == env.now + 30_000_000_000
  {
    assert CommandsWf(s.commands, s.nextId);
    hide Wf, Reply, After, Ready, First, Handed;
    PollExact(s, p, r, token, limit, env);
    var cs := s.commands;
    var k := FirstHanded(cs, p, r, env.now, AtLeastOne(limit), item);
    var cs' := After(s, Poll(p, r, token, limit), env).commands;
    var j :| 0 <= j < |cs'| && cs'[j] == c';
    assert cs[j].id == c'.id;
    SameId(cs, s.nextId, j, k);
    assert Handed(cs, p, r, env.now, limit, k) by { IsHanded(cs, p, r, env.now, limit, k); }
  }

  lemma IsHanded(cs: seq<Command>, p: string, r: string, now: nat, limit: nat, k: nat)
    requires k < |cs| && Deliverable(cs[k], p, r, now) && |Ready(cs[..k], p, r, now)| < AtLeastOne(limit)
    ensures Handed(cs, p, r, now, limit, k)
  {
  }

  lemma HandedHidden(s: State, p: string, r: string, token: nat, limit: nat, env: Env, item: Command)
    requires Wf(s) && Reply(s, Poll(p, r, token, limit), env).Items? && item in Reply(s, Poll(p, r, token, limit), env).items
    ensures Hidden(After(s, Poll(p, r, token, limit), env), p, item.id, env.now + 30_000_000_000)
  {
    var s' := After(s, Poll(p, r, token, limit), env);
    StepGrows(s, Poll(p, r, token, limit), env);
    assert s.nextId <= s'.nextId;
    hide Wf, Reply, After, Grows;
    ItemOld(s, p, r, token, limit, env, item);
    forall c | c in s'.commands && c.id == item.id
      ensures c.project == p && c.status == Delivered && c.visibleAt >= env.now + 30_000_000_000
    {
      HandedStored(s, p, r, token, limit, env, item, c);
    }
  }

  lemma ItemOld(s: State, p: string, r: string, token: nat, limit: nat, env: Env, item: Command)
    requires Wf(s) && Reply(s, Poll(p, r, token, limit), env).Items? && item in Reply(s, Poll(p, r, token, limit), env).items
    ensures item.id < s.nextId
  {
    OldIds(s);
    hide Wf, Reply, Open;
    ItemsMeaning(s, p, r, token, limit, env, item);
  }

  /** A command handed out at some time is in no answer to a later poll with a clock less than 30 seconds
      further, whatever happens in between and whoever asks, unless its project is taken over. */
  lemma NotHandedTwice(s: State, p: string, r: string, token: nat, limit: nat, env: Env, item: Command, calls: seq<Call>,
                       r': string, token': nat, limit': nat, p': string, env': Env, item': Command)
    requires Wf(s) && Reply(s, Poll(p, r, token, limit), env).Items? && item in Reply(s, Poll(p, r, token, limit), env).items
    requires var s1 := After(s, Poll(p, r, token, limit), env);
      && !TakenOver(s1, calls, p)
      && Reply(Run(s1, calls), Poll(p', r', token', limit'), env').Items?
      && item' in Reply(Run(s1, calls), Poll(p', r', token', limit'), env').items
    requires env'.now < env.now + 30_000_000_000
    ensures item'.id != item.id
  {
    hide Wf, Reply, After, Run, Hidden, Open, HandedAt;
    var s1 := After(s, Poll(p, r, token, limit), env);
    StepGrows(s, Poll(p, r, token, limit), env);
    HandedHidden(s, p, r, token, limit, env, item);
    RunHidden(s1, calls, p, item.id, env.now + 30_000_000_000);
    var s2 := Run(s1, calls);
    ItemsMeaning(s2, p', r', token', limit', env', item');
    var c :| c in s2.commands && Open(c, p', r', env'.now) && HandedAt(c, env'.now, item');
    HiddenClosed(s2, p, item.id, env.now + 30_000_000_000, c, p', r', env'.now, item');
  }

  lemma HiddenClosed(s: State, p: string, id: nat, until: nat, c: Command, p': string, r': string, now: nat, item: Command)
    requires Hidden(s, p, id, until) && c in s.commands && Open(c, p', r', now) && HandedAt(c, now, item) && now < until
    ensures item.id != id
  {
  }

  // ------------------------------------------------------------- handed out again

  // A poll of the run hands the command out.
  predicate HandsOut(s: State, calls: seq<Call>, id: nat)
    decreases |calls|
  {
    |calls| > 0 &&
      ((var reply := Reply(s, calls[0].req, calls[0].env);
        reply.Items? && exists k :: 0 <= k < |reply.items| && reply.items[k].id == id)
       || HandsOut(After(s, calls[0].req, calls[0].env), calls[1..], id))
  }

  // What is left of the command is itself, or it is finished.
  ghost predicate Unmoved(s: State, c: Command) {
    c.id < s.nextId && forall c' :: c' in s.commands && c'.id == c.id ==> c' == c || Terminal(c')
  }

  lemma PollUnmoved(s: State, req: Request, env: Env, c: Command, c': Command)
    requires Wf(s) && req.Poll? && c' in After(s, req, env).commands && c'.id == c.id
    requires var reply := Reply(s, req, env); reply.Items? ==> forall k :: 0 <= k < |reply.items| ==> reply.items[k].id != c.id
    ensures c' in s.commands
  {
    var p, r := req.project, req.runtime;
    if Reply(s, req, env).Items? {
      PollExact(s, p, r, req.token, req.limit, env);
      var k :| 0 <= k < |After(s, req, env).commands| && After(s, req, env).commands[k] == c';
      if Handed(s.commands, p, r, env.now, req.limit, k) {
        HandedIsItem(s.commands, p, r, env.now, AtLeastOne(req.limit), k);
      }
    } else {
      assert After(s, req, env).commands == s.commands by { hide Deliver, HoldsLease; }
    }
  }

  lemma {:induction false} HandedIsItem(cs: seq<Command>, p: string, r: string, now: nat, n: nat, k: nat)
    requires k < |cs| && Deliverable(cs[k], p, r, now) && |Ready(cs[..k], p, r, now)| < n
    ensures DeliveredAt(cs[k], now) in First(Ready(cs, p, r, now), n)
  {
    hide Deliverable, DeliveredAt;
    if k == 0 {
      assert Ready(cs, p, r, now) == [DeliveredAt(cs[0], now)] + Ready(cs[1..], p, r, now);
      FirstOf(DeliveredAt(cs[0], now), Ready(cs[1..], p, r, now), n);
    } else {
      ReadyBefore(cs, p, r, now, k);
      var m := if Deliverable(cs[0], p, r, now) then n - 1 else n;
      assert cs[1..][k - 1] == cs[k];
      HandedIsItem(cs[1..], p, r, now, m, k - 1);
      if Deliverable(cs[0], p, r, now) {
        assert Ready(cs, p, r, now) == [DeliveredAt(cs[0], now)] + Ready(cs[1..], p, r, now);
        FirstOf(DeliveredAt(cs[0], now), Ready(cs[1..], p, r, now), n);
      } else {
        assert Ready(cs, p, r, now) == Ready(cs[1..], p, r, now);
      }
    }
  }

  lemma StepUnmoved(s: State, req: Request, env: Env, c: Command)
    requires Wf(s) && Unmoved(s, c) && (forall x :: x in s.commands && x.id == c.id ==> x.project == c.project)
    requires !TakesOver(s, req, env, c.project)
    requires var reply := Reply(s, req, env); reply.Items? ==> forall k :: 0 <= k < |reply.items| ==> reply.items[k].id != c.id
    ensures var s' := After(s, req, env);
      Unmoved(s', c) && forall x :: x in s'.commands && x.id == c.id ==> x.project == c.project
  {
    var s' := After(s, req, env);
    StepGrows(s, req, env);
    assert s.nextId <= s'.nextId;
    hide After, Wf, TakesOver, Reply;
    forall c' | c' in s'.commands && c'.id == c.id ensures c'.project == c.project && (c' == c || Terminal(c')) {
      var x := OwnProject(s, req, env, c');
      StepFollows(s, req, env, c');
      if req.Poll? {
        PollUnmoved(s, req, env, c, c');
      } else {
        assert Stays(s.commands, c');
      }
    }
  }

  lemma {:induction false} RunUnmoved(s: State, calls: seq<Call>, c: Command)
    requires Wf(s) && Unmoved(s, c) && (forall x :: x in s.commands && x.id == c.id ==> x.project == c.project)
    requires !TakenOver(s, calls, c.project) && !HandsOut(s, calls, c.id)
    ensures Unmoved(Run(s, calls), c)
    decreases |calls|
  {
    hide Wf, Unmoved, After, TakesOver, Reply;
    if |calls| == 0 {
    } else {
      StepUnmoved(s, calls[0].req, calls[0].env, c);
      StepGrows(s, calls[0].req, calls[0].env);
      RunUnmoved(After(s, calls[0].req, calls[0].env), calls[1..], c);
    }
  }

  /** After any run in which it is not handed out otherwise and its project not taken over, a command handed out
      at some time and not yet finished is handed out again to its runtime, by a poll with room for all, exactly
      if the clock is 30 seconds further. */
  lemma HandedOutAgain(s: State, p: string, r: string, token: nat, limit: nat, env: Env, item: Command, calls: seq<Call>,
                       token': nat, limit': nat, env': Env)
    requires Wf(s) && Reply(s, Poll(p, r, token, limit), env).Items? && item in Reply(s, Poll(p, r, token, limit), env).items
    requires var s1 := After(s, Poll(p, r, token, limit), env);
      && !TakenOver(s1, calls, p) && !HandsOut(s1, calls, item.id)
      && (exists c :: c in Run(s1, calls).commands && c.id == item.id && !Terminal(c))
      && limit' >= |Run(s1, calls).commands| && Reply(Run(s1, calls), Poll(p, r, token', limit'), env').Items?
    ensures var items := Reply(Run(After(s, Poll(p, r, token, limit), env), calls), Poll(p, r, token', limit'), env').items;
      (exists again :: again in items && again.id == item.id) <==> env'.now >= env.now + 30_000_000_000
  {
    hide Wf, Reply, After, Run, HandsOut, TakenOver;
    var s1 := After(s, Poll(p, r, token, limit), env);
    StepGrows(s, Poll(p, r, token, limit), env);
    HandedUnmoved(s, p, r, token, limit, env, item);
    RunUnmoved(s1, calls, item);
    var s2 := Run(s1, calls);
    RunGrows(s1, calls);
    var c :| c in s2.commands && c.id == item.id && !Terminal(c);
    assert c == item;
    StoredItem(s, p, r, token, limit, env, item);
    ItemOpen(s2, p, r, token', limit', env', item);
  }

  // An item as such: who it is for and until when it is hidden.
  lemma StoredItem(s: State, p: string, r: string, token: nat, limit: nat, env: Env, item: Command)
    requires Wf(s) && Reply(s, Poll(p, r, token, limit), env).Items? && item in Reply(s, Poll(p, r, token, limit), env).items
    ensures item.project == p && item.runtime == r && item.status == Delivered && item.visibleAt == env.now + 30_000_000_000
  {
    hide Wf, Reply;
    ItemsMeaning(s, p, r, token, limit, env, item);
  }

  lemma HandedUnmoved(s: State, p: string, r: string, token: nat, limit: nat, env: Env, item: Command)
    requires Wf(s) && Reply(s, Poll(p, r, token, limit), env).Items? && item in Reply(s, Poll(p, r, token, limit), env).items
    ensures var s1 := After(s, Poll(p, r, token, limit), env);
      Unmoved(s1, item) && item.project == p && forall x :: x in s1.commands && x.id == item.id ==> x.project == item.project
  {
    var s1 := After(s, Poll(p, r, token, limit), env);
    StepGrows(s, Poll(p, r, token, limit), env);
    assert s.nextId <= s1.nextId;
    hide Wf, Reply, After;
    ItemOld(s, p, r, token, limit, env, item);
    StoredItem(s, p, r, token, limit, env, item);
    forall x | x in s1.commands && x.id == item.id ensures x == item { HandedStored(s, p, r, token, limit, env, item, x); }
  }

  lemma ItemOpen(s: State, p: string, r: string, token: nat, limit: nat, env: Env, item: Command)
    requires Wf(s) && item in s.commands && item.project == p && item.runtime == r && item.status == Delivered
    requires limit >= |s.commands| && Reply(s, Poll(p, r, token, limit), env).Items?
    ensures (exists again :: again in Reply(s, Poll(p, r, token, limit), env).items && again.id == item.id)
            <==> env.now >= item.visibleAt
  {
    assert CommandsWf(s.commands, s.nextId);
    hide Wf, Reply;
    var items := Reply(s, Poll(p, r, token, limit), env).items;
    if env.now >= item.visibleAt {
      var again := DeliveredAt(item, env.now);
      assert Open(item, p, r, env.now) && HandedAt(item, env.now, again);
      ItemsMeaning(s, p, r, token, limit, env, again);
    }
    if again :| again in items && again.id == item.id {
      ItemsMeaning(s, p, r, token, limit, env, again);
      var c :| c in s.commands && Open(c, p, r, env.now) && HandedAt(c, env.now, again);
      assert c == item by { OneOfId(s.commands, s.nextId, c, item); }
    }
  }

  lemma OneOfId(cs: seq<Command>, n: nat, c: Command, d: Command)
    requires CommandsWf(cs, n) && c in cs && d in cs && c.id == d.id
    ensures c == d
  {
    var j :| 0 <= j < |cs| && cs[j] == c;
    var k :| 0 <= k < |cs| && cs[k] == d;
    SameId(cs, n, j, k);
  }

  /** After an ack, and after every enqueue that reaches somebody, at most 2000 finished commands of the project
      are left. */
  lemma AckBounds(s: State, p: string, r: string, token: nat, ids: seq<nat>, env: Env)
    requires Reply(s, Ack(p, r, token, ids), env) == Done
    ensures TerminalCount(After(s, Ack(p, r, token, ids), env).commands, p) <= 2000
  {
    hide Compacted, AckAll, HoldsLease, TerminalCount;
    CompactionCount(AckAll(s.commands, p, r, ids), p);
  }

  lemma EnqueueBounds(s: State, t: Task, kind: Kind, attempt: nat, now: nat)
    requires Enqueue(s, t, kind, attempt, now) != s
    ensures TerminalCount(Enqueue(s, t, kind, attempt, now).commands, t.project) <= 2000
  {
    hide Compacted, TerminalCount, DepStatus, FindReachable;
    var i := FindReachable(s.runtimes, t.project, now);
    var c := Command(s.nextId, t.project, s.runtimes[i].runtime, t.id, kind, Queued, attempt, 0, 0);
    CompactionCount(s.commands + [c], t.project);
  }

  // --------------------------------------------------------------- what user actions send

  // A served action is what the handler does to the task named.
  lemma DoneActs(s: State, task: nat, action: Action, env: Env)
    requires Reply(s, Act(task, action), env) == Done
    ensures var i := FindTask(s.tasks, task);
      i < |s.tasks| && ActionGuard(s, s.tasks[i], action) == Done
      && After(s, Act(task, action), env) == Acted(s, i, action, env.budget, env.now)
  {
    hide ActionGuard, Acted, RolledBack;
  }

  // Unfinished, of this kind, and for the attempt the task is at.
  predicate IsFor(c: Command, kind: Kind, t: Task) {
    c.kind == kind && c.task == t.id && c.project == t.project && c.attempt == t.attempt && !Terminal(c)
  }

  ghost predicate Sent(cs: seq<Command>, kind: Kind, t: Task) { exists c :: c in cs && IsFor(c, kind, t) }

  lemma EnqueueSends(s: State, t: Task, kind: Kind, now: nat)
    requires Wf(s) && kind != StartTask
    ensures var s' := Enqueue(s, t, kind, t.attempt, now);
      && (CanReach(s.runtimes, t.project, now) ==> Sent(s'.commands, kind, t))
      && forall c :: c in s'.commands && c.id >= s.nextId ==> c.kind == kind && c.task == t.id && c.attempt == t.attempt
  {
    var s' := Enqueue(s, t, kind, t.attempt, now);
    forall c | c in s'.commands && c.id >= s.nextId ensures c.kind == kind && c.task == t.id && c.attempt == t.attempt {
      EnqueuedCommand(s, t, kind, t.attempt, now, c);
    }
    hide Enqueue, CanReach, Wf;
    if CanReach(s.runtimes, t.project, now) {
      EnqueueAdds(s, t, kind, t.attempt, now);
      var c :| c in s'.commands && c.id == s.nextId && c.kind == kind && c.status == Queued && c.task == t.id
               && c.project == t.project && c.attempt == t.attempt;
      assert IsFor(c, kind, t);
    }
  }

  /** A served input sends the agent an input for the attempt the task is at, if the project can be reached,
      and nothing else. */
  lemma InputSends(s: State, task: nat, text: string, env: Env)
    requires Wf(s) && Reply(s, Act(task, Input(text)), env) == Done
    ensures var i, s' := FindTask(s.tasks, task), After(s, Act(task, Input(text)), env);
      i < |s.tasks|
      && (CanReach(s.runtimes, s.tasks[i].project, env.now) ==> Sent(s'.commands, InputTask, s.tasks[i]))
      && forall c :: c in s'.commands && c.id >= s.nextId ==> c.kind == InputTask && c.task == task
  {
    hide Wf, Append, Enqueue, After, Reply, ActionGuard, CanReach;
    DoneActs(s, task, Input(text), env);
    var i := FindTask(s.tasks, task);
    var t := s.tasks[i].(updatedAt := env.now);
    var s1 := Append(PutTask(s, i, t), t.project, TaskAction(Input(text)), t.id, "", 0, false);
    InputPut(s, i, t, TaskAction(Input(text)));
    PutShape(s, i, t, t.project, TaskAction(Input(text)));
    EnqueueSends(s1, t, InputTask, env.now);
    if Sent(Enqueue(s1, t, InputTask, t.attempt, env.now).commands, InputTask, t) {
      SentAlike(Enqueue(s1, t, InputTask, t.attempt, env.now).commands, InputTask, t, s.tasks[i]);
    }
  }

  lemma SentAlike(cs: seq<Command>, kind: Kind, t: Task, u: Task)
    requires Sent(cs, kind, t) && u.id == t.id && u.project == t.project && u.attempt == t.attempt
    ensures Sent(cs, kind, u)
  {
    var c :| c in cs && IsFor(c, kind, t);
    assert IsFor(c, kind, u);
  }

  lemma InputPut(s: State, i: nat, t: Task, typ: EventType)
    requires Wf(s) && i < |s.tasks| && t == s.tasks[i].(updatedAt := t.updatedAt)
    ensures Wf(Append(PutTask(s, i, t), t.project, typ, t.id, "", 0, false))
  {
    assert 1 <= t.attempt <= MAX_ATTEMPT && (t.completion == Manual ==> t.status == Completed);
    hide Wf, Append, Keeps;
    PutAndAppendKeeps(s, i, t, typ);
    WfKept(s, Append(PutTask(s, i, t), t.project, typ, t.id, "", 0, false));
  }

  // Everything the task had is finished, and what is new for it is a cancel of this attempt.
  ghost predicate OnlyCancels(s: State, s': State, t: Task) {
    forall c :: c in s'.commands && c.task == t.id ==>
      Terminal(c) || (c.id >= s.nextId && c.kind == CancelTask && c.attempt == t.attempt)
  }

  lemma CancelledCommands(s2: State, s3: State, s4: State, t: Task, now: nat)
    requires Wf(s2) && Works(s2, s3, now) && s4 == Enqueue(s3, t, CancelTask, t.attempt, now)
    requires (forall c :: c in s2.commands && c.task == t.id ==> Terminal(c)) && !WasWaiting(s2.tasks, t.id)
    ensures OnlyCancels(s2, s4, t) && (CanReach(s2.runtimes, t.project, now) ==> Sent(s4.commands, CancelTask, t))
  {
    hide Wf, CanReach, Sends, Holds, Enqueue, Keeps;
    WorksWf(s2, s3, now);
    EnqueueSends(s3, t, CancelTask, now);
    EnqueueFlows(s3, t, CancelTask, t.attempt, now);
    hide Flows;
    forall c | c in s4.commands && c.task == t.id
      ensures Terminal(c) || (c.id >= s2.nextId && c.kind == CancelTask && c.attempt == t.attempt)
    {
      if c.id < s3.nextId { OldOfTask(s2, s3, s4, t, c, now); } else { NotLess(s2, s3, now); }
    }
  }

  lemma NotLess(s: State, s': State, now: nat)
    requires Flows(s, s', now)
    ensures s.nextId <= s'.nextId
  {
  }

  // Work that sends only starts for waiting tasks has nothing unfinished for this one.
  lemma OldOfTask(s2: State, s3: State, s4: State, t: Task, c: Command, now: nat)
    requires Works(s2, s3, now) && Flows(s3, s4, now) && c in s4.commands && c.task == t.id && c.id < s3.nextId
    requires (forall x :: x in s2.commands && x.task == t.id ==> Terminal(x)) && !WasWaiting(s2.tasks, t.id)
    ensures Terminal(c)
  {
    hide Sends, Holds, Keeps, WasWaiting, Addressee, NoneBeginWaiting;
    assert Stays(s3.commands, c);
    var y :| y in s3.commands && y.id == c.id && c == y.(status := c.status) && (c.status == y.status || Terminal(c));
    NoneMade(s2, s3, y, now);
    assert Stays(s2.commands, y);
  }

  /** A served cancel or completion finishes every command of its task and sends one kind of new one: a cancel
      of the attempt the task is at, if the project can be reached. */
  lemma CancelSends(s: State, task: nat, env: Env)
    requires Wf(s) && Reply(s, Act(task, Cancel), env) == Done
    ensures var i, s' := FindTask(s.tasks, task), After(s, Act(task, Cancel), env);
      i < |s.tasks| && OnlyCancels(s, s', s.tasks[i])
      && (CanReach(s.runtimes, s.tasks[i].project, env.now) ==> Sent(s'.commands, CancelTask, s.tasks[i]))
  {
    DoneActs(s, task, Cancel, env);
    var i := FindTask(s.tasks, task);
    assert !UserCompleted(s.tasks[i]);
    hide ActionGuard, After, Reply;
    CancelQueue(s, i, env.budget, env.now);
  }

  lemma CancelShape(s: State, i: nat, budget: nat, now: nat)
    requires i < |s.tasks|
    ensures var t := s.tasks[i].(status := Cancelled, cancellation := Manual, updatedAt := now);
      ActCancel(s, i, budget, now) ==
        Enqueue(Activate(Cleared(s, i, t, TaskAction(Cancel)), budget, t.project, now), t, CancelTask, t.attempt, now)
  {
    hide Activate, Enqueue, Append, Supersede;
  }

  lemma CompleteShape(s: State, i: nat, budget: nat, now: nat)
    requires i < |s.tasks|
    ensures var t := s.tasks[i].(status := Completed, completion := Manual, updatedAt := now);
      ActComplete(s, i, budget, now) ==
        Activate(Enqueue(Cleared(s, i, t, TaskAction(Complete)), t, CancelTask, t.attempt, now), budget, t.project, now)
  {
    hide Activate, Enqueue, Append, Supersede;
  }

  lemma CancelQueue(s: State, i: nat, budget: nat, now: nat)
    requires Wf(s) && i < |s.tasks| && !UserCompleted(s.tasks[i])
    ensures var s' := ActCancel(s, i, budget, now);
      && OnlyCancels(s, s', s.tasks[i])
      && (CanReach(s.runtimes, s.tasks[i].project, now) ==> Sent(s'.commands, CancelTask, s.tasks[i]))
  {
    hide ActCancel, Cleared, Wf, Serves, Works, Activate, Enqueue, CanReach, OnlyCancels, WasWaiting, Ids, Sent;
    TaskFacts(s, i);
    CancelShape(s, i, budget, now);
    var t := s.tasks[i].(status := Cancelled, cancellation := Manual, updatedAt := now);
    var s2 := Cleared(s, i, t, TaskAction(Cancel));
    var s3 := Activate(s2, budget, t.project, now);
    ClearedServes(s, i, t, TaskAction(Cancel), now);
    ActivateWorks(s2, budget, t.project, now);
    NotWaiting(s.tasks, i, t);
    CancelledCommands(s2, s3, Enqueue(s3, t, CancelTask, t.attempt, now), t, now);
    CancelsAlike(s2, s, Enqueue(s3, t, CancelTask, t.attempt, now), t, s.tasks[i]);
  }

  lemma NotWaiting(ts: seq<Task>, i: nat, u: Task)
    requires Ids(ts) && i < |ts| && u.id == ts[i].id && !Waiting(u.status)
    ensures !WasWaiting(ts[i := u], u.id)
  {
  }

  lemma CancelsAlike(s: State, s1: State, s': State, t: Task, u: Task)
    requires s1.nextId == s.nextId && u.id == t.id && u.project == t.project && u.attempt == t.attempt
    ensures OnlyCancels(s, s', t) ==> OnlyCancels(s1, s', u)
    ensures Sent(s'.commands, CancelTask, t) ==> Sent(s'.commands, CancelTask, u)
  {
    if Sent(s'.commands, CancelTask, t) { SentAlike(s'.commands, CancelTask, t, u); }
  }

  lemma CompleteSends(s: State, task: nat, env: Env)
    requires Wf(s) && Reply(s, Act(task, Complete), env) == Done
    ensures var i, s' := FindTask(s.tasks, task), After(s, Act(task, Complete), env);
      i < |s.tasks| && OnlyCancels(s, s', s.tasks[i])
      && (CanReach(s.runtimes, s.tasks[i].project, env.now) ==> Sent(s'.commands, CancelTask, s.tasks[i]))
  {
    DoneActs(s, task, Complete, env);
    hide ActionGuard, After, Reply;
    CompleteQueue(s, FindTask(s.tasks, task), env.budget, env.now);
  }

  lemma CompleteQueue(s: State, i: nat, budget: nat, now: nat)
    requires Wf(s) && i < |s.tasks|
    ensures var s' := ActComplete(s, i, budget, now);
      && OnlyCancels(s, s', s.tasks[i])
      && (CanReach(s.runtimes, s.tasks[i].project, now) ==> Sent(s'.commands, CancelTask, s.tasks[i]))
  {
    hide ActComplete, Cleared, Wf, Serves, Works, Activate, Enqueue, Keeps, CanReach, OnlyCancels, WasWaiting, Ids, Sent;
    TaskFacts(s, i);
    CompleteShape(s, i, budget, now);
    var t := s.tasks[i].(status := Completed, completion := Manual, updatedAt := now);
    var s2 := Cleared(s, i, t, TaskAction(Complete));
    var s3 := Enqueue(s2, t, CancelTask, t.attempt, now);
    EnqueueShape(s2, t, CancelTask, t.attempt, now);
    ClearedServes(s, i, t, TaskAction(Complete), now);
    EnqueueKeeps(s2, t, CancelTask, t.attempt, now);
    WfKept(s2, s3);
    ActivateWorks(s3, budget, t.project, now);
    NotWaiting(s.tasks, i, t);
    CompletedCommands(s2, s3, Activate(s3, budget, t.project, now), t, now);
    CancelsAlike(s2, s, Activate(s3, budget, t.project, now), t, s.tasks[i]);
  }

  lemma CompletedCommands(s2: State, s3: State, s4: State, t: Task, now: nat)
    requires Wf(s2) && Works(s3, s4, now) && s3 == Enqueue(s2, t, CancelTask, t.attempt, now)
    requires (forall c :: c in s2.commands && c.task == t.id ==> Terminal(c)) && !WasWaiting(s3.tasks, t.id)
    ensures OnlyCancels(s2, s4, t) && (CanReach(s2.runtimes, t.project, now) ==> Sent(s4.commands, CancelTask, t))
  {
    hide Wf, CanReach, Works, Enqueue, Keeps, WasWaiting, Stays, Addressee, Sent;
    WorksWf(s3, s4, now);
    EnqueueSends(s2, t, CancelTask, now);
    EnqueueFlows(s2, t, CancelTask, t.attempt, now);
    if Sent(s3.commands, CancelTask, t) { SentHeld(s3.commands, s4.commands, CancelTask, t); }
    hide Holds, Sends;
    forall c | c in s4.commands && c.task == t.id
      ensures Terminal(c) || (c.id >= s2.nextId && c.kind == CancelTask && c.attempt == t.attempt)
    {
      OneCommand(s2, s3, s4, t, c, now);
    }
  }

  lemma OneCommand(s2: State, s3: State, s4: State, t: Task, c: Command, now: nat)
    requires Flows(s2, s3, now) && Works(s3, s4, now) && c in s4.commands && c.task == t.id
    requires forall x :: x in s3.commands && x.id >= s2.nextId ==> x.kind == CancelTask && x.attempt == t.attempt
    requires (forall x :: x in s2.commands && x.task == t.id ==> Terminal(x)) && !WasWaiting(s3.tasks, t.id)
    ensures Terminal(c) || (c.id >= s2.nextId && c.kind == CancelTask && c.attempt == t.attempt)
  {
    hide Sends, Holds, Keeps, WasWaiting, Addressee, NoneBeginWaiting;
    NoneMade(s3, s4, c, now);
    assert Stays(s3.commands, c);
    var y :| y in s3.commands && y.id == c.id && c == y.(status := c.status) && (c.status == y.status || Terminal(c));
    if y.id < s2.nextId { assert Stays(s2.commands, y); }
  }

  // Work makes nothing for a task that does not wait.
  lemma NoneMade(s: State, s': State, c: Command, now: nat)
    requires Works(s, s', now) && c in s'.commands && !WasWaiting(s.tasks, c.task)
    ensures c.id < s.nextId
  {
    hide Sends, Holds, Keeps, WasWaiting, Flows, NoneBeginWaiting;
  }

  lemma SentHeld(cs: seq<Command>, cs': seq<Command>, kind: Kind, t: Task)
    requires Sent(cs, kind, t) && Holds(cs, cs', {})
    ensures Sent(cs', kind, t)
  {
    var c :| c in cs && IsFor(c, kind, t);
    assert Held(cs', c);
    var c' :| c' in cs' && SameCommand(c, c') && !Terminal(c');
    assert IsFor(c', kind, t);
  }
}
