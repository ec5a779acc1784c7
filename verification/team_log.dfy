/**
  The bounded event log of each project, and the readers that follow it with a cursor.
 */
module TeamLog {
  import opened TeamModel
  import opened TeamFrames
  import opened TeamSteps
  import opened TeamQuiet

  // Everything ever appended to the project's log, oldest first.
  ghost predicate History(s: State, p: string, all: seq<Event>) {
    && Numbered(all, 1)
    && Counter(s, p) == |all|
    && Log(s, p) == LastN(all, EVENT_LIMIT)
  }

  lemma HistoryAdds(s: State, s': State, p: string, all: seq<Event>, added: seq<Event>)
    requires History(s, p, all) && LogAdds(s, s', p, added)
    ensures History(s', p, all + added)
  {
    LastNOfAppend(all, added, EVENT_LIMIT);
  }

  /** A later state's history continues the earlier one: nothing is rewritten, only appended. */
  lemma HistoryGrows(s: State, s': State, p: string, all: seq<Event>) returns (more: seq<Event>)
    requires History(s, p, all) && Grows(s, s')
    ensures History(s', p, more) && all <= more
  {
    assert LogGrows(s, s', p);
    if SameLog(s, s', p) {
      more := all;
    } else {
      var added :| LogAdds(s, s', p, added);
      HistoryAdds(s, s', p, all, added);
      more := all + added;
    }
  }

  /** In every reachable state each log is the last min(n, 2000) of the n events ever appended to it,
      numbered consecutively up to the project's counter. */
  lemma ReachableLog(calls: seq<Call>, p: string) returns (all: seq<Event>)
    ensures var s := Run(EMPTY, calls);
      && History(s, p, all)
      && |Log(s, p)| == (if |all| <= 2000 then |all| else 2000)
      && forall k :: 0 <= k < |Log(s, p)| ==> Log(s, p)[k].sequence == Counter(s, p) - |Log(s, p)| + 1 + k
  {
    RunGrows(EMPTY, calls);
    all := HistoryGrows(EMPTY, Run(EMPTY, calls), p, []);
  }

  // --------------------------------------------------------------------- readers

  // A stream may ask for one task only; 0 asks for all.
  predicate Wants(e: Event, task: nat) { task == 0 || e.task == task }

  // The events one read sends: those wanted past the cursor, in log order.
  function UnreadOf(log: seq<Event>, task: nat, cursor: nat): seq<Event> {
    if |log| == 0 then []
    else if log[0].sequence <= cursor || !Wants(log[0], task) then UnreadOf(log[1..], task, cursor)
    else [log[0]] + UnreadOf(log[1..], task, log[0].sequence)
  }

  function CursorAfterOf(log: seq<Event>, task: nat, cursor: nat): (after: nat)
    ensures cursor <= after
  {
    if |log| == 0 then cursor
    else if log[0].sequence <= cursor || !Wants(log[0], task) then CursorAfterOf(log[1..], task, cursor)
    else CursorAfterOf(log[1..], task, log[0].sequence)
  }

  function Unread(log: seq<Event>, cursor: nat): seq<Event> { UnreadOf(log, 0, cursor) }

  function CursorAfter(log: seq<Event>, cursor: nat): nat { CursorAfterOf(log, 0, cursor) }

  /** One pass of the stream loop over a copy of the log. */
  method ReadOnce(log: seq<Event>, task: nat, start: nat) returns (sent: seq<Event>, cursor: nat)
    ensures sent == UnreadOf(log, task, start) && cursor == CursorAfterOf(log, task, start)
  {
    sent, cursor := [], start;
    for i := 0 to |log|
      invariant sent + UnreadOf(log[i..], task, cursor) == UnreadOf(log, task, start)
      invariant CursorAfterOf(log[i..], task, cursor) == CursorAfterOf(log, task, start)
    {
      var event := log[i];
      assert log[i..][0] == event && log[i..][1..] == log[i + 1..];
      if event.sequence <= cursor || (task != 0 && event.task != task) { continue; }
      ghost var rest := UnreadOf(log[i + 1..], task, event.sequence);
      assert sent + ([event] + rest) == sent + [event] + rest;
      sent, cursor := sent + [event], event.sequence;
    }
  }

  // A read of a log numbered from `first` on.
  lemma {:induction false} ReadNumbered(log: seq<Event>, first: nat, cursor: nat)
    requires Numbered(log, first) && first >= 1
    ensures var skip := if cursor + 1 <= first then 0 else if cursor + 1 - first <= |log| then cursor + 1 - first else |log|;
      && Unread(log, cursor) == log[skip..]
      && CursorAfter(log, cursor) == if skip == |log| then cursor else first + |log| - 1
  {
    if |log| == 0 {
    } else {
      assert forall k :: 0 <= k < |log[1..]| ==> log[1..][k] == log[k + 1];
      if log[0].sequence <= cursor {
        ReadNumbered(log[1..], first + 1, cursor);
        var skip := if cursor + 1 - first <= |log| then cursor + 1 - first else |log|;
        assert log[1..][skip - 1..] == log[skip..];
      } else {
        ReadNumbered(log[1..], first + 1, log[0].sequence);
        assert [log[0]] + log[1..] == log;
        if |log| > 1 { assert log[1..][0..] == log[1..]; }
      }
    }
  }

  // A reader that reads the project's log once after each stretch of requests.
  function Follow(s: State, stretches: seq<seq<Call>>, p: string, cursor: nat): seq<Event>
    decreases |stretches|
  {
    if |stretches| == 0 then []
    else
      var s1 := Run(s, stretches[0]);
      Unread(Log(s1, p), cursor) + Follow(s1, stretches[1..], p, CursorAfter(Log(s1, p), cursor))
  }

  function Final(s: State, stretches: seq<seq<Call>>): State
    decreases |stretches|
  {
    if |stretches| == 0 then s else Final(Run(s, stretches[0]), stretches[1..])
  }

  predicate Increasing(es: seq<Event>, cursor: nat) {
    && (forall k :: 0 <= k < |es| ==> es[k].sequence > cursor)
    && (forall j, k :: 0 <= j < k < |es| ==> es[j].sequence < es[k].sequence)
  }

  lemma LogNumbered(s: State, p: string, all: seq<Event>)
    requires History(s, p, all)
    ensures |Log(s, p)| == if |all| <= EVENT_LIMIT then |all| else EVENT_LIMIT
    ensures Numbered(Log(s, p), |all| - |Log(s, p)| + 1)
    ensures Log(s, p) == all[|all| - |Log(s, p)|..]
    ensures |Log(s, p)| > 0 ==> Log(s, p)[0].sequence == |all| - |Log(s, p)| + 1
  {
  }

  lemma ReadIncreases(s: State, p: string, cursor: nat, all: seq<Event>)
    requires History(s, p, all)
    ensures var sent, next := Unread(Log(s, p), cursor), CursorAfter(Log(s, p), cursor);
      Increasing(sent, cursor) && cursor <= next && forall k :: 0 <= k < |sent| ==> sent[k].sequence <= next
  {
    LogNumbered(s, p, all);
    ReadNumbered(Log(s, p), |all| - |Log(s, p)| + 1, cursor);
  }

  lemma IncreasingJoin(sent: seq<Event>, rest: seq<Event>, cursor: nat, next: nat)
    requires Increasing(sent, cursor) && Increasing(rest, next) && cursor <= next
    requires forall k :: 0 <= k < |sent| ==> sent[k].sequence <= next
    ensures Increasing(sent + rest, cursor)
  {
  }

  /** Whatever is lost to a slow reader, it is sent strictly increasing numbers beyond its cursor. */
  lemma {:induction false} FollowIncreases(s: State, stretches: seq<seq<Call>>, p: string, cursor: nat, all: seq<Event>)
    requires Wf(s) && History(s, p, all)
    ensures Increasing(Follow(s, stretches, p, cursor), cursor)
    decreases |stretches|
  {
    if |stretches| == 0 {
    } else {
      hide Run, Wf, Grows, History, Log, Unread, CursorAfter, Increasing;
      var s1 := Run(s, stretches[0]);
      RunGrows(s, stretches[0]);
      var more := HistoryGrows(s, s1, p, all);
      var sent, next := Unread(Log(s1, p), cursor), CursorAfter(Log(s1, p), cursor);
      ReadIncreases(s1, p, cursor, more);
      FollowIncreases(s1, stretches[1..], p, next, more);
      IncreasingJoin(sent, Follow(s1, stretches[1..], p, next), cursor, next);
    }
  }

  // The event after the cursor has already been dropped.
  predicate Late(log: seq<Event>, cursor: nat) { |log| > 0 && cursor + 1 < log[0].sequence }

  // One read sends everything after the cursor exactly when it is not late.
  lemma ReadShape(s: State, p: string, cursor: nat, all: seq<Event>)
    requires History(s, p, all) && cursor <= |all|
    ensures var sent := Unread(Log(s, p), cursor);
      && CursorAfter(Log(s, p), cursor) == |all| && |sent| <= |all| - cursor
      && (!Late(Log(s, p), cursor) ==> sent == all[cursor..])
      && (Late(Log(s, p), cursor) ==> |sent| < |all| - cursor)
  {
    LogNumbered(s, p, all);
    ReadNumbered(Log(s, p), |all| - |Log(s, p)| + 1, cursor);
  }

  // The check made when a stream is opened; a reader that starts from nothing is never refused.
  predicate CursorExpired(log: seq<Event>, cursor: nat) {
    |log| > 0 && cursor > 0 && cursor < log[0].sequence - 1
  }

  /** A stream is refused on opening exactly when its reader has seen something and an event after its cursor
      is no longer there to be sent. */
  lemma CursorCheckExact(s: State, p: string, cursor: nat, all: seq<Event>)
    requires History(s, p, all) && cursor <= |all|
    ensures CursorExpired(Log(s, p), cursor) <==> cursor > 0 && Unread(Log(s, p), cursor) != all[cursor..]
  {
    hide History, Unread, Log;
    ReadShape(s, p, cursor, all);
  }

  // At no read has the event after the cursor already been dropped.
  predicate KeepsUp(s: State, stretches: seq<seq<Call>>, p: string, cursor: nat)
    decreases |stretches|
  {
    |stretches| > 0 ==>
      var s1 := Run(s, stretches[0]);
      !Late(Log(s1, p), cursor) && KeepsUp(s1, stretches[1..], p, CursorAfter(Log(s1, p), cursor))
  }

  lemma Joined(h: seq<Event>, more: seq<Event>, cursor: nat, sent: seq<Event>, rest: seq<Event>)
    requires h <= more && cursor <= |h| && |sent| <= |h| - cursor && |rest| <= |more| - |h|
    requires sent == h[cursor..] || |sent| < |h| - cursor
    ensures sent + rest == more[cursor..] <==> sent == h[cursor..] && rest == more[|h|..]
  {
    assert h[cursor..] + more[|h|..] == more[cursor..];
    if sent + rest == more[cursor..] {
      assert |sent + rest| == |more| - cursor;
      assert rest == (sent + rest)[|sent|..] == more[cursor..][|sent|..] == more[|h|..];
    }
  }

  /** A reader is sent every event after its cursor, once each and in order, exactly when it keeps up. */
  lemma {:induction false} FollowGapFree(s: State, stretches: seq<seq<Call>>, p: string, cursor: nat, all: seq<Event>)
    returns (more: seq<Event>)
    requires Wf(s) && History(s, p, all) && cursor <= |all| && (|stretches| > 0 || cursor == |all|)
    ensures History(Final(s, stretches), p, more) && all <= more
    ensures |Follow(s, stretches, p, cursor)| <= |more| - cursor
    ensures Follow(s, stretches, p, cursor) == more[cursor..] <==> KeepsUp(s, stretches, p, cursor)
    decreases |stretches|
  {
    hide Run, Wf, Grows, History, Log, Unread, CursorAfter, Late;
    if |stretches| == 0 {
      more := all;
    } else {
      var s1 := Run(s, stretches[0]);
      RunGrows(s, stretches[0]);
      var h := HistoryGrows(s, s1, p, all);
      ReadShape(s1, p, cursor, h);
      more := FollowGapFree(s1, stretches[1..], p, |h|, h);
      Joined(h, more, cursor, Unread(Log(s1, p), cursor), Follow(s1, stretches[1..], p, |h|));
    }
  }

  // -------------------------------------------------- events gone in a run from the start

  const AGAIN := Call(Register("p", "r"), Env(4, 0, true))

  function Registrations(n: nat): seq<Call> { seq(n, _ => AGAIN) }

  // Nothing but the entry of one runtime.
  predicate OnlyOne(s: State) {
    s.tasks == [] && s.commands == [] && |s.runtimes| <= 1
    && forall x :: x in s.runtimes ==> x.project == "p" && x.runtime == "r"
  }

  lemma RegisteredAgain(s: State)
    requires OnlyOne(s)
    ensures var s' := After(s, AGAIN.req, AGAIN.env); OnlyOne(s') && Counter(s', "p") == Counter(s, "p") + 1
  {
    hide LastN;
    var s1 := TakeOver(s, "p", "r", 0);
    assert Restart(s1, "p", 0, 0) == s1;
    if |s.runtimes| == 1 { assert s.runtimes[0] in s.runtimes && s.runtimes[1..] == []; }
    assert FenceOthers(s.runtimes, "p", "r") == [];
    hide TakeOver, Restart, FenceOthers;
  }

  lemma {:induction false} RegisteredOften(n: nat)
    ensures OnlyOne(Run(EMPTY, Registrations(n))) && Counter(Run(EMPTY, Registrations(n)), "p") == n
  {
    if n == 0 {
    } else {
      RegisteredOften(n - 1);
      hide Run, After, OnlyOne, Counter;
      RunLast(EMPTY, Registrations(n - 1), AGAIN);
      assert Registrations(n - 1) + [AGAIN] == Registrations(n);
      RegisteredAgain(Run(EMPTY, Registrations(n - 1)));
    }
  }

  /** After 2001 events a reader that starts from nothing is not refused, but is not sent all of them: it has
      not kept up. */
  lemma FirstEventGone() returns (all: seq<Event>)
    ensures var s := Run(EMPTY, Registrations(EVENT_LIMIT + 1));
      && History(s, "p", all) && !CursorExpired(Log(s, "p"), 0) && Unread(Log(s, "p"), 0) != all
      && !KeepsUp(EMPTY, [Registrations(EVENT_LIMIT + 1)], "p", 0)
  {
    var calls := Registrations(EVENT_LIMIT + 1);
    RegisteredOften(EVENT_LIMIT + 1);
    hide Run;
    all := ReachableLog(calls, "p");
    LogNumbered(Run(EMPTY, calls), "p", all);
    ReadShape(Run(EMPTY, calls), "p", 0, all);
    hide Unread, Log;
    assert [calls][0] == calls;
  }

  // ------------------------------------------------------------- streams of one task

  function Only(es: seq<Event>, task: nat): seq<Event> {
    if |es| == 0 then [] else (if Wants(es[0], task) then [es[0]] else []) + Only(es[1..], task)
  }

  function FollowOf(s: State, stretches: seq<seq<Call>>, p: string, task: nat, cursor: nat): seq<Event>
    decreases |stretches|
  {
    if |stretches| == 0 then []
    else
      var s1 := Run(s, stretches[0]);
      UnreadOf(Log(s1, p), task, cursor) + FollowOf(s1, stretches[1..], p, task, CursorAfterOf(Log(s1, p), task, cursor))
  }

  // Nothing wanted lies between the two cursors.
  predicate NoneBetween(log: seq<Event>, task: nat, c: nat, d: nat) {
    forall k :: 0 <= k < |log| && c < log[k].sequence <= d ==> !Wants(log[k], task)
  }

  lemma {:induction false} OnlyJoin(a: seq<Event>, b: seq<Event>, task: nat)
    ensures Only(a + b, task) == Only(a, task) + Only(b, task)
  {
    if |a| == 0 {
      assert a + b == b;
    } else {
      hide Wants;
      assert (a + b)[0] == a[0] && (a + b)[1..] == a[1..] + b;
      OnlyJoin(a[1..], b, task);
      var head := if Wants(a[0], task) then [a[0]] else [];
      assert head + (Only(a[1..], task) + Only(b, task)) == head + Only(a[1..], task) + Only(b, task);
    }
  }

  // A cursor that only follows what is wanted reads the wanted part of what the other reads.
  lemma {:induction false} ReadsOnly(log: seq<Event>, first: nat, task: nat, c: nat, d: nat)
    requires Numbered(log, first) && c <= d && NoneBetween(log, task, c, d)
    ensures UnreadOf(log, task, c) == Only(Unread(log, d), task)
    ensures var c', d' := CursorAfterOf(log, task, c), CursorAfter(log, d);
      c' <= d' && NoneBetween(log, task, c', d')
  {
    if |log| == 0 {
    } else {
      var e, rest := log[0], log[1..];
      assert forall k :: 0 <= k < |rest| ==> rest[k] == log[k + 1] && rest[k].sequence > e.sequence;
      var d1 := if e.sequence <= d then d else e.sequence;
      var c1 := if e.sequence <= c || !Wants(e, task) then c else e.sequence;
      assert NoneBetween(rest, task, c1, d1);
      ReadsOnly(rest, first + 1, task, c1, d1);
      var c', d' := CursorAfterOf(log, task, c), CursorAfter(log, d);
      assert c' == CursorAfterOf(rest, task, c1) && d' == CursorAfter(rest, d1);
      if e.sequence > d { assert Unread(log, d) == [e] + Unread(rest, d1); } else { assert Unread(log, d) == Unread(rest, d1); }
      forall k | 0 <= k < |log| && c' < log[k].sequence <= d' ensures !Wants(log[k], task) {
        if k > 0 { assert log[k] == rest[k - 1]; }
      }
    }
  }

  lemma StillNoneBetween(s: State, s1: State, p: string, all: seq<Event>, more: seq<Event>, task: nat, c: nat, d: nat)
    requires History(s, p, all) && History(s1, p, more) && all <= more && d <= |all| && NoneBetween(Log(s, p), task, c, d)
    ensures NoneBetween(Log(s1, p), task, c, d)
  {
    hide History, Log, Wants;
    LogNumbered(s, p, all);
    LogNumbered(s1, p, more);
    var log, later := Log(s, p), Log(s1, p);
    forall k | 0 <= k < |later| && c < later[k].sequence <= d ensures !Wants(later[k], task) {
      var i := |more| - |later| + k;
      assert later[k].sequence == i + 1;
      assert later[k] == more[i] == all[i];
      assert all[i] == log[i - (|all| - |log|)];
    }
  }

  /** A reader of one task is sent exactly the events of that task out of what a reader of everything is
      sent, although its cursor stays behind. */
  lemma {:induction false} FollowOfTask(s: State, stretches: seq<seq<Call>>, p: string, task: nat, c: nat, d: nat,
                                        all: seq<Event>)
    requires Wf(s) && History(s, p, all) && c <= d <= |all| && NoneBetween(Log(s, p), task, c, d)
    ensures FollowOf(s, stretches, p, task, c) == Only(Follow(s, stretches, p, d), task)
    decreases |stretches|
  {
    if |stretches| == 0 {
    } else {
      hide Run, Wf, Grows, History, Log, Unread, UnreadOf, CursorAfter, CursorAfterOf, Late, NoneBetween;
      var s1 := Run(s, stretches[0]);
      var log := Log(s1, p);
      RunGrows(s, stretches[0]);
      var more := HistoryGrows(s, s1, p, all);
      StillNoneBetween(s, s1, p, all, more, task, c, d);
      LogNumbered(s1, p, more);
      ReadsOnly(log, |more| - |log| + 1, task, c, d);
      ReadShape(s1, p, d, more);
      FollowOfTask(s1, stretches[1..], p, task, CursorAfterOf(log, task, c), CursorAfter(log, d), more);
      OnlyJoin(Unread(log, d), Follow(s1, stretches[1..], p, CursorAfter(log, d)), task);
    }
  }
}
