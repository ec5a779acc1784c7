/**
  The control plane as the server holds it: lists of references to mutable records.
  Every method is proved to do to the values of those records what `TeamModel` says,
  while writing to no record that existed before; that is what makes it enough for a
  snapshot to copy only the lists.  The one exception, `input`, is visible in the
  `modifies` clause of `Act`.
 */
module TeamStore {
  import opened TeamModel

  // One record; the lists below hold references to these.
  class Record<T> {
    var v: T

    constructor (v: T)
      ensures this.v == v
    {
      this.v := v;
    }
  }

  ghost function Values<T>(rs: seq<Record<T>>): (vs: seq<T>)
    reads rs
    ensures |vs| == |rs| && forall i :: 0 <= i < |rs| ==> vs[i] == rs[i].v
  {
    seq(|rs|, i requires 0 <= i < |rs| reads rs => rs[i].v)
  }

  // Every record a log refers to is among the known ones.
  ghost predicate Known(logs: map<string, seq<Record<Event>>>, known: set<Record<Event>>) {
    forall p, r :: p in logs && r in logs[p] ==> r in known
  }

  ghost function LogValues(logs: map<string, seq<Record<Event>>>, known: set<Record<Event>>): map<string, seq<Event>>
    requires Known(logs, known)
    reads known
  {
    map p | p in logs :: Values(logs[p])
  }

  lemma ValuesLastN<T>(rs: seq<Record<T>>, n: nat)
    ensures Values(LastN(rs, n)) == LastN(Values(rs), n)
  {
  }

  // A copy of the lists, not of the records they refer to.
  datatype Snapshot = Snapshot(runtimes: seq<Record<Runtime>>, tasks: seq<Record<Task>>, commands: seq<Record<Command>>,
                               events: map<string, seq<Record<Event>>>, sequences: map<string, nat>)

  // What is left of an outcome once its save has succeeded or failed.
  function Conclude(s: State, o: Outcome, saves: bool): (State, Response) {
    match o
    case Keep(response) => (s, response)
    case Write(next, response) => if saves then (next, response) else (s.(nextId := next.nextId), SaveFailed)
  }

  // The lists of the snapshot refer to records that still hold these values.
  ghost predicate Recorded(before: Snapshot, k: set<Record<Event>>, s: State)
    reads before.runtimes, before.tasks, before.commands, k
  {
    && (forall i, j :: 0 <= i < j < |before.tasks| ==> before.tasks[i] != before.tasks[j])
    && Known(before.events, k)
    && Values(before.runtimes) == s.runtimes && Values(before.tasks) == s.tasks && Values(before.commands) == s.commands
    && LogValues(before.events, k) == s.events && before.sequences == s.sequences
  }

  class Store {
    var runtimes: seq<Record<Runtime>>
    var tasks: seq<Record<Task>>
    var commands: seq<Record<Command>>
    var events: map<string, seq<Record<Event>>>
    var sequences: map<string, nat>
    var nextId: nat
    ghost var known: set<Record<Event>>  // every event record ever stored

    constructor ()
      ensures Valid() && View() == EMPTY
    {
      runtimes, tasks, commands, events, sequences, nextId, known := [], [], [], map[], map[], 1, {};
    }

    // No task record is listed twice, and the logs hold known records only.
    ghost predicate Valid()
      reads this
    {
      && (forall i, j :: 0 <= i < j < |tasks| ==> tasks[i] != tasks[j])
      && Known(events, known)
    }

    ghost function View(): State
      requires Valid()
      reads this, runtimes, tasks, commands, known
    {
      State(Values(runtimes), Values(tasks), Values(commands), LogValues(events, known), sequences, nextId)
    }

    // What the lists hold, position by position.
    lemma Lists()
      requires Valid()
      ensures |View().runtimes| == |runtimes| && forall i :: 0 <= i < |runtimes| ==> View().runtimes[i] == runtimes[i].v
      ensures |View().tasks| == |tasks| && forall i :: 0 <= i < |tasks| ==> View().tasks[i] == tasks[i].v
      ensures |View().commands| == |commands| && forall i :: 0 <= i < |commands| ==> View().commands[i] == commands[i].v
    {
    }

    // -------------------------------------------------------------------- saving

    method TakeSnapshot() returns (before: Snapshot)
      requires Valid()
      ensures before == Snapshot(runtimes, tasks, commands, events, sequences)
      ensures Recorded(before, known, View())
    {
      before := Snapshot(runtimes, tasks, commands, events, sequences);
    }

    // The save itself may fail; then the lists of the snapshot are put back.  The
    // identifiers drawn meanwhile are not.
    method Save(before: Snapshot, saves: bool, ghost k: set<Record<Event>>, ghost s: State)
      requires Valid() && Recorded(before, k, s)
      modifies this
      ensures Valid()
      ensures View() == if saves then old(View()) else s.(nextId := old(View()).nextId)
    {
      if !saves { Restore(before, k, s); }
    }

    method Restore(before: Snapshot, ghost k: set<Record<Event>>, ghost s: State)
      requires Valid() && Recorded(before, k, s)
      modifies this
      ensures Valid() && View() == s.(nextId := old(nextId))
    {
      hide Values;
      runtimes, tasks, commands := before.runtimes, before.tasks, before.commands;
      events, sequences := before.events, before.sequences;
      known := known + k;
      assert LogValues(events, known) == LogValues(before.events, k);
    }

    method NewId() returns (id: nat)
      requires Valid()
      modifies this`nextId
      ensures Valid() && id == old(View()).nextId && View() == old(View()).(nextId := id + 1)
    {
      id := nextId;
      nextId := nextId + 1;
    }

    // ------------------------------------------------------------------- lookups

    method FindTask(id: nat) returns (i: nat)
      requires Valid()
      ensures i == TeamModel.FindTask(View().tasks, id)
    {
      i := 0;
      while i < |tasks| && tasks[i].v.id != id
        invariant i <= |tasks|
        invariant forall j :: 0 <= j < i ==> tasks[j].v.id != id
      {
        i := i + 1;
      }
    }

    method FindRuntime(p: string, r: string) returns (i: nat)
      requires Valid()
      ensures i == TeamModel.FindRuntime(View().runtimes, p, r)
    {
      i := 0;
      while i < |runtimes| && !(runtimes[i].v.project == p && runtimes[i].v.runtime == r)
        invariant i <= |runtimes|
        invariant forall j :: 0 <= j < i ==> !(runtimes[j].v.project == p && runtimes[j].v.runtime == r)
      {
        i := i + 1;
      }
    }

    method FindReachable(p: string, now: nat) returns (i: nat)
      requires Valid()
      ensures i == TeamModel.FindReachable(View().runtimes, p, now)
    {
      i := 0;
      while i < |runtimes| && !Reachable(runtimes[i].v, p, now)
        invariant i <= |runtimes|
        invariant forall j :: 0 <= j < i ==> !Reachable(runtimes[j].v, p, now)
      {
        i := i + 1;
      }
    }

    method FindCurrent(p: string) returns (i: nat)
      requires Valid()
      ensures i == TeamModel.FindCurrent(View().runtimes, p)
    {
      i := 0;
      while i < |runtimes| && !(runtimes[i].v.project == p && runtimes[i].v.status != Offline)
        invariant i <= |runtimes|
        invariant forall j :: 0 <= j < i ==> !(runtimes[j].v.project == p && runtimes[j].v.status != Offline)
      {
        i := i + 1;
      }
    }

    method DependencyStatus(deps: seq<nat>) returns (d: TaskStatus)
      requires Valid()
      ensures d == DepStatus(View().tasks, deps)
    {
      for k := 0 to |deps|
        invariant DepStatus(View().tasks, deps) == DepStatus(View().tasks, deps[k..])
      {
        var i := FindTask(deps[k]);
        assert deps[k..][0] == deps[k] && deps[k..][1..] == deps[k + 1..];
        if i == |tasks| || tasks[i].v.status in {Failed, Cancelled, Blocked} { return Blocked; }
        if tasks[i].v.status != Completed { return WaitingDependency; }
      }
      d := Accepted;
    }

    method ResourceAvailable(budget: nat, p: string, profile: Profile, exclude: nat) returns (ok: bool)
      requires Valid()
      ensures ok == Fits(View().tasks, budget, p, profile, exclude)
    {
      var used := 0;
      for i := 0 to |tasks|
        invariant used + Used(View().tasks[i..], p, exclude) == Used(View().tasks, p, exclude)
      {
        assert View().tasks[i..][0] == tasks[i].v && View().tasks[i..][1..] == View().tasks[i + 1..];
        used := used + Charge(tasks[i].v, p, exclude);
      }
      ok := used + Units(profile) <= budget;
    }

    method PendingCommands(p: string) returns (n: nat)
      requires Valid()
      ensures n == PendingCount(View().commands, p)
    {
      n := 0;
      for i := 0 to |commands|
        invariant n + PendingCount(View().commands[i..], p) == PendingCount(View().commands, p)
      {
        assert View().commands[i..][0] == commands[i].v && View().commands[i..][1..] == View().commands[i + 1..];
        if commands[i].v.project == p && !Terminal(commands[i].v) { n := n + 1; }
      }
    }

    method PendingTaskCommands(task: nat) returns (n: nat)
      requires Valid()
      ensures n == |PendingOf(View().commands, task)|
    {
      n := 0;
      for i := 0 to |commands|
        invariant n + |PendingOf(View().commands[i..], task)| == |PendingOf(View().commands, task)|
      {
        assert View().commands[i..][0] == commands[i].v && View().commands[i..][1..] == View().commands[i + 1..];
        if commands[i].v.task == task && !Terminal(commands[i].v) { n := n + 1; }
      }
    }

    // ------------------------------------------------------- writing a new record

    // Clone, change and replace: the record at position i is left as it was.
    method ReplaceTask(i: nat, t: Task)
      requires Valid() && i < |tasks|
      modifies this`tasks
      ensures Valid() && View() == PutTask(old(View()), i, t)
    {
      var r := new Record(t);
      tasks := tasks[i := r];
      assert Values(tasks) == old(Values(tasks))[i := t];
    }

    method ReplaceRuntimeAt(i: nat, x: Runtime)
      requires Valid() && i < |runtimes|
      modifies this`runtimes
      ensures Valid() && |runtimes| == old(|runtimes|) && View() == old(View()).(runtimes := old(View()).runtimes[i := x])
    {
      var r := new Record(x);
      runtimes := runtimes[i := r];
      assert Values(runtimes) == old(Values(runtimes))[i := x];
    }

    method ReplaceCommand(i: nat, c: Command)
      requires Valid() && i < |commands|
      modifies this`commands
      ensures Valid() && |commands| == old(|commands|)
      ensures View() == old(View()).(commands := old(View()).commands[i := c])
    {
      var r := new Record(c);
      commands := commands[i := r];
      assert Values(commands) == old(Values(commands))[i := c];
    }

    // Puts a new record at the end of the log and drops the oldest beyond the limit.
    method PushEvent(p: string, event: Event) returns (stored: Record<Event>)
      requires Valid()
      modifies this`events, this`sequences, this`known
      ensures Valid() && fresh(stored) && stored.v == event && known == old(known) + {stored}
      ensures sequences == old(sequences)[p := event.sequence]
      ensures events == old(events)[p := LastN((if p in old(events) then old(events)[p] else []) + [stored], EVENT_LIMIT)]
    {
      stored := new Record(event);
      var log := (if p in events then events[p] else []) + [stored];
      sequences, events := sequences[p := event.sequence], events[p := LastN(log, EVENT_LIMIT)];
      known := known + {stored};
    }

    // The new record alone decides what a log holds that it was appended to.
    lemma Stamped(logs: map<string, seq<Record<Event>>>, p: string, was: seq<Record<Event>>, stored: Record<Event>,
                  old_known: set<Record<Event>>)
      requires Known(logs, old_known) && was == if p in logs then logs[p] else []
      requires known == old_known + {stored}
      requires events == logs[p := LastN(was + [stored], EVENT_LIMIT)]
      ensures Known(events, known)
      ensures var vs := LogValues(logs, old_known);
        LogValues(events, known) == vs[p := LastN((if p in vs then vs[p] else []) + [stored.v], EVENT_LIMIT)]
    {
      assert Values(was + [stored]) == Values(was) + [stored.v];
      ValuesLastN(was + [stored], EVENT_LIMIT);
    }

    // An agent's event is stored first and stamped afterwards: the record is new, so no
    // snapshot can see the stamp.
    method PushStamped(p: string, event: Event, attempt: nat, stale: bool) returns (stored: Record<Event>)
      requires Valid()
      modifies this`events, this`sequences, this`known
      ensures Valid() && fresh(stored) && stored.v == event.(attempt := attempt, stale := stale)
      ensures known == old(known) + {stored} && sequences == old(sequences)[p := event.sequence]
      ensures events == old(events)[p := LastN((if p in old(events) then old(events)[p] else []) + [stored], EVENT_LIMIT)]
    {
      stored := PushEvent(p, event);
      stored.v := stored.v.(attempt := attempt, stale := stale);
    }

    method AppendEvent(p: string, typ: EventType, task: nat, runtime: string, attempt: nat, stale: bool)
      requires Valid()
      modifies this`events, this`sequences, this`known
      ensures Valid() && View() == Append(old(View()), p, typ, task, runtime, attempt, stale)
    {
      hide Values, LastN, LogValues;
      ghost var s := View();
      ghost var logs, known0 := events, known;
      ghost var was := if p in events then events[p] else [];
      var n := (if p in sequences then sequences[p] else 0) + 1;
      var stored := PushStamped(p, Event(n, typ, task, runtime, 0, false), attempt, stale);
      assert Values(runtimes) == s.runtimes && Values(tasks) == s.tasks && Values(commands) == s.commands;
      assert LogValues(logs, known0) == s.events;
      Stamped(logs, p, was, stored, known0);
      assert stored.v == Event(n, typ, task, runtime, attempt, stale) && n == Counter(s, p) + 1;
    }

    // ------------------------------------------------------------- command queue

    method CountTerminal(p: string) returns (terminal: nat)
      requires Valid()
      ensures terminal == TerminalCount(View().commands, p)
    {
      hide View, Values;
      ghost var cs := View().commands;
      Lists();
      terminal := 0;
      for i := 0 to |commands|
        invariant terminal + TerminalCount(cs[i..], p) == TerminalCount(cs, p)
      {
        assert cs[i..][0] == cs[i] && cs[i..][1..] == cs[i + 1..];
        if commands[i].v.project == p && Terminal(commands[i].v) { terminal := terminal + 1; }
      }
    }

    // The list without the oldest finished commands of the project beyond the limit.
    method Kept(p: string, terminal: nat) returns (result: seq<Record<Command>>)
      requires Valid() && terminal == TerminalCount(View().commands, p) && terminal > HISTORY_LIMIT
      ensures Values(result) == Compacted(View().commands, p)
    {
      hide View, Values, Compacted, TerminalCount;
      ghost var cs := View().commands;
      Lists();
      var removeBefore := terminal - HISTORY_LIMIT;
      result := [];
      CompactedTail(cs, |cs|, p);
      for i := 0 to |commands|
        invariant removeBefore == Excess(cs[i..], p)
        invariant Values(result) + Compacted(cs[i..], p) == Compacted(cs, p)
      {
        CompactedTail(cs, i, p);
        var command := commands[i];
        if command.v.project == p && Terminal(command.v) && removeBefore > 0 {
          removeBefore := removeBefore - 1;
        } else {
          assert Values(result + [command]) == Values(result) + [cs[i]];
          result := result + [command];
        }
      }
    }

    // Counts the finished commands of the project first, then drops the oldest beyond the limit.
    method Compact(p: string)
      requires Valid()
      modifies this`commands
      ensures Valid() && View() == old(View()).(commands := Compacted(old(View()).commands, p))
    {
      hide Values, Compacted, TerminalCount;
      var terminal := CountTerminal(p);
      if terminal <= HISTORY_LIMIT {
        CompactedAll(View().commands, p);
      } else {
        commands := Kept(p, terminal);
      }
    }

    method Supersede(task: nat)
      requires Valid()
      modifies this`commands
      ensures Valid() && View() == old(View()).(commands := TeamModel.Supersede(old(View()).commands, task))
    {
      ghost var s := View();
      for i := 0 to |commands|
        invariant Valid() && |commands| == |s.commands|
        invariant View() == s.(commands := View().commands)
        invariant forall k :: 0 <= k < i ==> View().commands[k] == SupersededIf(s.commands[k], task)
        invariant forall k :: i <= k < |commands| ==> View().commands[k] == s.commands[k]
      {
        var c := commands[i].v;
        if c.task == task && !Terminal(c) { ReplaceCommand(i, c.(status := Superseded)); }
      }
      assert View().commands == TeamModel.Supersede(s.commands, task);
    }

    method PushCommand(c: Command)
      requires Valid()
      modifies this`commands
      ensures Valid() && View() == old(View()).(commands := old(View()).commands + [c])
    {
      var r := new Record(c);
      commands := commands + [r];
      assert Values(commands) == old(Values(commands)) + [c];
    }

    method PushAndCompact(c: Command)
      requires Valid()
      modifies this`commands
      ensures Valid() && View() == old(View()).(commands := Compacted(old(View()).commands + [c], c.project))
    {
      hide View;
      PushCommand(c);
      Compact(c.project);
    }

    method Enqueue(t: Task, kind: Kind, attempt: nat, now: nat)
      requires Valid()
      modifies this`commands, this`nextId
      ensures Valid() && View() == TeamModel.Enqueue(old(View()), t, kind, attempt, now)
    {
      hide View, Values, Compacted, Reachable;
      ghost var s := View();
      Lists();
      if kind == StartTask {
        var d := DependencyStatus(t.deps);
        if d != Accepted { return; }
      }
      var i := FindReachable(t.project, now);
      if i < |runtimes| {
        var r := runtimes[i].v.runtime;
        var id := NewId();
        PushAndCompact(Command(id, t.project, r, t.id, kind, Queued, attempt, 0, 0));
      }
    }

    // ------------------------------------------------------------------ scheduler

    method Visit(budget: nat, p: string, i: nat, now: nat) returns (changed: bool)
      requires Valid() && i < |tasks|
      modifies this
      ensures Valid() && View() == TeamModel.Visit(old(View()), budget, p, i, now)
      ensures changed ==> Rank(View().tasks) < Rank(old(View()).tasks)
      ensures !changed ==> View() == old(View())
    {
      hide View, Values, Append, TeamModel.Enqueue, DepStatus, Fits, Used, Rank;
      ghost var s := View();
      Lists();
      var t := tasks[i].v;
      changed := false;
      if t.project != p || !Waiting(t.status) { return; }
      var d := DependencyStatus(t.deps);
      if d == WaitingDependency { return; }
      var fits := true;
      if d == Accepted { fits := ResourceAvailable(budget, p, t.profile, t.id); }
      VisitRank(s, budget, p, i, now);
      VisitChanges(s, budget, p, i, now);
      if !fits {
        if t.status == WaitingResource { return; }
        ReplaceTask(i, t.(status := WaitingResource, updatedAt := now));
        AppendEvent(p, TaskWaitingResource, t.id, "", 0, false);
        return true;
      }
      var u := t.(status := d, updatedAt := now);
      ReplaceTask(i, u);
      if d == Accepted {
        AppendEvent(p, TaskReady, t.id, "", 0, false);
        Enqueue(u, StartTask, u.attempt, now);
      } else {
        AppendEvent(p, TaskBlocked, t.id, "", 0, false);
      }
      changed := true;
    }

    method Pass(budget: nat, p: string, now: nat) returns (changed: bool)
      requires Valid()
      modifies this
      ensures Valid() && View() == TeamModel.Pass(old(View()), budget, p, 0, now)
      ensures changed ==> Rank(View().tasks) < Rank(old(View()).tasks)
      ensures !changed ==> View() == old(View())
    {
      hide View, Values, TeamModel.Visit, Rank;
      ghost var s := View();
      Lists();
      changed := false;
      var i := 0;
      while i < |tasks|
        invariant Valid() && i <= |tasks| == |View().tasks|
        invariant TeamModel.Pass(View(), budget, p, i, now) == TeamModel.Pass(s, budget, p, 0, now)
        invariant changed ==> Rank(View().tasks) < Rank(s.tasks)
        invariant !changed ==> View() == s
        decreases |View().tasks| - i
      {
        var moved := Visit(budget, p, i, now);
        changed := changed || moved;
        Lists();
        i := i + 1;
      }
    }

    // Passes over the tasks until one of them changes nothing.
    method Activate(budget: nat, p: string, now: nat)
      requires Valid()
      modifies this
      ensures Valid() && View() == TeamModel.Activate(old(View()), budget, p, now)
    {
      hide View, Values, TeamModel.Pass, Rank;
      ghost var goal := TeamModel.Activate(View(), budget, p, now);
      var changed := true;
      while changed
        invariant Valid()
        invariant changed ==> TeamModel.Activate(View(), budget, p, now) == goal
        invariant !changed ==> View() == goal
        decreases Rank(View().tasks), changed
      {
        changed := Pass(budget, p, now);
      }
    }

    // ---------------------------------------------------------------- agent events

    method UpdateFromEvent(p: string, task: nat, typ: EventType, now: nat)
      requires Valid()
      modifies this
      ensures Valid() && View() == TeamModel.UpdateFromEvent(old(View()), p, task, typ, now)
    {
      hide View, Values;
      Lists();
      if task == 0 { return; }
      var i := FindTask(task);
      if i == |tasks| || tasks[i].v.project != p || HumanTerminal(tasks[i].v) { return; }
      var change := StatusFromEvent(typ);
      if change.To? { ReplaceTask(i, tasks[i].v.(status := change.status, updatedAt := now)); }
    }

    method ApplyCollaboration(p: string, task: nat, typ: EventType, budget: nat, now: nat)
      requires Valid()
      modifies this
      ensures Valid() && View() == TeamModel.ApplyCollaboration(old(View()), p, task, typ, budget, now)
    {
      hide View, Values, TeamModel.Activate;
      Lists();
      if !Collaboration(typ) { return; }
      var i := FindTask(task);
      if i == |tasks| || tasks[i].v.project != p || HumanTerminal(tasks[i].v) { return; }
      var t := tasks[i].v;
      if typ.TaskHandoff? {
        ReplaceTask(i, t.(owner := if typ.member == "" then t.owner else typ.member, updatedAt := now));
      } else if typ.ArtifactCreated? {
        ReplaceTask(i, t.(updatedAt := now));
      } else {
        var u := Reported(t, typ.report, now);
        ReplaceTask(i, u);
        if u.status in {Completed, Failed, Blocked} { Activate(budget, p, now); }
      }
    }

    method ApplyEvent(p: string, r: string, e: RawEvent, budget: nat, now: nat)
      requires Valid() && e.RawEvent?
      modifies this
      ensures Valid() && View() == TeamModel.ApplyEvent(old(View()), p, r, e, budget, now)
    {
      hide View, Values, Append, TeamModel.Activate, TeamModel.UpdateFromEvent, TeamModel.ApplyCollaboration;
      Lists();
      var attempt := AttemptOf(e.attempt);
      var i := FindTask(e.task);
      var stale := i < |tasks| && attempt != tasks[i].v.attempt;
      AppendEvent(p, e.typ, e.task, r, if e.task != 0 then attempt else 0, stale);
      if !stale {
        UpdateFromEvent(p, e.task, e.typ, now);
        ApplyCollaboration(p, e.task, e.typ, budget, now);
        if Finishes(e.typ) { Activate(budget, p, now); }
      }
    }

    // The first pass over a batch: nothing is written.
    method ValidateBatch(p: string, batch: seq<RawEvent>, last: nat) returns (v: Verdict)
      requires Valid()
      ensures v == Validate(View().tasks, p, batch, last, last)
    {
      hide View, Values;
      Lists();
      var expected := last;
      for k := 0 to |batch|
        invariant Validate(View().tasks, p, batch[k..], last, expected) == Validate(View().tasks, p, batch, last, last)
      {
        var e := batch[k];
        assert batch[k..][0] == e && batch[k..][1..] == batch[k + 1..];
        if e.NotAnObject? || Clamp(e.sequence) == 0 || e.typ.InvalidType? { return Verdict.Invalid(EventInvalid); }
        if Clamp(e.sequence) > last {
          if Clamp(e.sequence) != expected + 1 { return Verdict.Invalid(SequenceGap); }
          if e.task != 0 {
            var i := FindTask(e.task);
            if i == |tasks| || tasks[i].v.project != p { return Verdict.Invalid(EventTaskInvalid); }
          }
          if !AttemptOk(e.attempt) { return Verdict.Invalid(AttemptInvalid); }
          if Collaboration(e.typ) && !e.payloadOk { return Verdict.Invalid(PayloadInvalid); }
          expected := Clamp(e.sequence);
        }
      }
      v := Verdict.Valid;
    }

    // The second pass: every event beyond a moving `last` is applied.
    method ApplyBatch(p: string, r: string, batch: seq<RawEvent>, start: nat, budget: nat, now: nat) returns (last: nat)
      requires Valid() && Objects(batch)
      modifies this
      ensures Valid() && View() == ApplyAll(old(View()), p, r, Selected(batch, start), budget, now)
      ensures last == LastTaken(batch, start)
    {
      hide View, Values, TeamModel.ApplyEvent;
      ghost var goal := ApplyAll(View(), p, r, Selected(batch, start), budget, now);
      last := start;
      for k := 0 to |batch|
        invariant Valid() && Objects(batch[k..])
        invariant ApplyAll(View(), p, r, Selected(batch[k..], last), budget, now) == goal
        invariant LastTaken(batch[k..], last) == LastTaken(batch, start)
      {
        var e := batch[k];
        assert batch[k..][0] == e && batch[k..][1..] == batch[k + 1..];
        if Clamp(e.sequence) > last {
          ghost var rest := Selected(batch[k + 1..], Clamp(e.sequence));
          assert ([e] + rest)[1..] == rest;
          ApplyEvent(p, r, e, budget, now);
          last := Clamp(e.sequence);
        }
      }
    }

    // ------------------------------------------------------------------- handlers

    // Every handler ends here: the proposed state is saved, or the snapshot comes back.
    method Finish(before: Snapshot, saves: bool, done: Response, ghost k: set<Record<Event>>, ghost s: State)
      returns (response: Response)
      requires Valid() && Recorded(before, k, s)
      modifies this
      ensures Valid()
      ensures saves ==> View() == old(View()) && response == done
      ensures !saves ==> View() == s.(nextId := old(View()).nextId) && response == SaveFailed
    {
      Save(before, saves, k, s);
      response := if saves then done else SaveFailed;
    }

    // The other entries of the project as fenced copies, without the runtime's own old entry.
    method FencedOthers(p: string, r: string) returns (updated: seq<Record<Runtime>>)
      requires Valid()
      ensures Values(updated) == FenceOthers(View().runtimes, p, r)
    {
      hide View, Values, FenceOthers;
      ghost var rs := View().runtimes;
      Lists();
      updated := [];
      for i := 0 to |runtimes|
        invariant Values(updated) + FenceOthers(rs[i..], p, r) == FenceOthers(rs, p, r)
      {
        FenceOthersFrom(rs, i, p, r);
        updated := KeepFenced(updated, runtimes[i], p, r);
      }
      FenceOthersFrom(rs, |rs|, p, r);
    }

    static method KeepFenced(updated: seq<Record<Runtime>>, entry: Record<Runtime>, p: string, r: string)
      returns (kept: seq<Record<Runtime>>)
      ensures Values(kept) == old(Values(updated)) + FenceOthers([entry.v], p, r)
    {
      if entry.v.project == p && entry.v.runtime == r {
        kept := updated;
      } else if entry.v.project == p {
        ghost var was := Values(updated);
        var copy := new Record(entry.v.(status := Fenced));
        kept := updated + [copy];
        assert Values(kept) == was + [copy.v];
      } else {
        kept := updated + [entry];
      }
    }

    method TakeOver(p: string, r: string, now: nat) returns (token: nat)
      requires Valid()
      modifies this
      ensures Valid() && View() == TeamModel.TakeOver(old(View()), p, r, now) && token == old(View()).nextId
    {
      hide Values, FenceOthers;
      ghost var s := View();
      token := NewId();
      var updated := FencedOthers(p, r);
      ghost var was := Values(updated);
      var item := new Record(Runtime(p, r, Online, token, now + LEASE, 0, now));
      runtimes := updated + [item];
      assert Values(runtimes) == was + [item.v];
      assert View() == s.(runtimes := FenceOthers(s.runtimes, p, r) + [item.v], nextId := token + 1);
      Requeue(p, r);
    }

    method Requeue(p: string, r: string)
      requires Valid()
      modifies this`commands
      ensures Valid() && View() == old(View()).(commands := TeamModel.Requeue(old(View()).commands, p, r))
    {
      ghost var s := View();
      for i := 0 to |commands|
        invariant Valid() && |commands| == |s.commands|
        invariant View() == s.(commands := View().commands)
        invariant forall k :: 0 <= k < i ==> View().commands[k] == RequeuedFor(s.commands[k], p, r)
        invariant forall k :: i <= k < |commands| ==> View().commands[k] == s.commands[k]
      {
        var c := commands[i].v;
        if c.project == p && !Terminal(c) { ReplaceCommand(i, c.(runtime := r, status := Queued)); }
      }
      assert View().commands == TeamModel.Requeue(s.commands, p, r);
    }

    method HasStart(task: nat) returns (found: bool)
      requires Valid()
      ensures found == StartPending(View().commands, task)
    {
      found := false;
      for k := 0 to |commands|
        invariant found == exists j :: 0 <= j < k && commands[j].v.task == task && commands[j].v.kind == StartTask
                                       && !Terminal(commands[j].v)
      {
        var c := commands[k].v;
        if c.task == task && c.kind == StartTask && !Terminal(c) { found := true; }
      }
    }

    method Restart(p: string, now: nat)
      requires Valid()
      modifies this
      ensures Valid() && View() == TeamModel.Restart(old(View()), p, 0, now)
    {
      hide View, Values, TeamModel.Enqueue, StartPending;
      ghost var s := View();
      Lists();
      var i := 0;
      while i < |tasks|
        invariant Valid() && i <= |tasks| == |View().tasks|
        invariant TeamModel.Restart(View(), p, i, now) == TeamModel.Restart(s, p, 0, now)
        decreases |View().tasks| - i
      {
        Lists();
        var t := tasks[i].v;
        ghost var before := View();
        EnqueueTasks(before, t, t.attempt, now);
        if t.project == p && t.status == Accepted {
          var found := HasStart(t.id);
          if !found { Enqueue(t, StartTask, t.attempt, now); }
        }
        assert View() == RestartOne(before, p, t, now);
        Lists();
        i := i + 1;
      }
    }

    method Register(p: string, r: string, env: Env) returns (response: Response)
      requires Valid()
      modifies this
      ensures Valid() && (View(), response) == Conclude(old(View()), HandleRegister(old(View()), p, r, env.now), env.saves)
    {
      hide View, Values, Recorded, Append, TeamModel.Restart, TeamModel.TakeOver, TeamModel.FindCurrent;
      ghost var s, k := View(), known;
      if p == "" || r == "" { return Refused(FieldsRequired); }
      var before := TakeSnapshot();
      Lists();
      var i := FindCurrent(p);
      if i < |runtimes| && runtimes[i].v.runtime != r && runtimes[i].v.lease > env.now { return Refused(AlreadyActive); }
      var token := TakeOver(p, r, env.now);
      Restart(p, env.now);
      AppendEvent(p, RuntimeOnline, 0, r, 0, false);
      response := Finish(before, env.saves, Registered(token), k, s);
    }

    method Heartbeat(p: string, r: string, token: nat, busy: bool, env: Env) returns (response: Response)
      requires Valid()
      modifies this
      ensures Valid() && (View(), response) == Conclude(old(View()),
        HandleHeartbeat(old(View()), p, r, token, busy, env.now), env.saves)
    {
      hide View, Values, Recorded, TeamModel.FindRuntime;
      ghost var s, k := View(), known;
      if p == "" || r == "" || token == 0 { return Refused(FieldsRequired); }
      var before := TakeSnapshot();
      Lists();
      var i := FindRuntime(p, r);
      if i == |runtimes| || runtimes[i].v.token != token || runtimes[i].v.status == Fenced { return Refused(LeaseLost); }
      var status := if busy then Busy else Online;
      ReplaceRuntimeAt(i, runtimes[i].v.(status := status, lastSeen := env.now, lease := env.now + LEASE));
      response := Finish(before, env.saves, Done, k, s);
    }

    method Unregister(p: string, r: string, token: nat, env: Env) returns (response: Response)
      requires Valid()
      modifies this
      ensures Valid() && (View(), response) == Conclude(old(View()),
        HandleUnregister(old(View()), p, r, token, env.now), env.saves)
    {
      hide View, Values, Recorded, Append, TeamModel.FindRuntime;
      ghost var s, k := View(), known;
      var before := TakeSnapshot();
      Lists();
      var i := FindRuntime(p, r);
      if i == |runtimes| || runtimes[i].v.token != token { return Refused(LeaseLost); }
      ReplaceRuntimeAt(i, runtimes[i].v.(status := Offline, lastSeen := env.now, lease := 0));
      AppendEvent(p, RuntimeOffline, 0, r, 0, false);
      response := Finish(before, env.saves, Done, k, s);
    }

    method LeaseHeld(p: string, r: string, token: nat, now: nat) returns (held: bool, i: nat)
      requires Valid()
      ensures held == HoldsLease(View().runtimes, p, r, token, now) && (held ==> i < |runtimes|)
      ensures i == TeamModel.FindRuntime(View().runtimes, p, r)
    {
      Lists();
      i := FindRuntime(p, r);
      held := i < |runtimes| && runtimes[i].v.token == token && runtimes[i].v.status != Fenced && runtimes[i].v.lease >= now;
    }

    method Events(p: string, r: string, token: nat, batch: seq<RawEvent>, env: Env) returns (response: Response)
      requires Valid()
      modifies this
      ensures Valid() && (View(), response) == Conclude(old(View()),
        HandleEvents(old(View()), p, r, token, batch, env.budget, env.now), env.saves)
    {
      hide View, Values, Recorded, ApplyAll, Validate, Selected, LastTaken, HoldsLease, TeamModel.FindRuntime,
           TeamModel.ReplaceRuntime, Objects;
      ghost var s, k := View(), known;
      if p == "" || r == "" || token == 0 || !(1 <= |batch| <= BATCH_LIMIT) { return Refused(FieldsRequired); }
      var before := TakeSnapshot();
      Lists();
      var held, i := LeaseHeld(p, r, token, env.now);
      if !held { return Refused(LeaseLost); }
      var x := runtimes[i].v;
      var v := ValidateBatch(p, batch, x.lastSequence);
      if v.Invalid? { return Refused(v.error); }
      ValidObjects(s.tasks, p, batch, x.lastSequence, x.lastSequence);
      var last := ApplyBatch(p, r, batch, x.lastSequence, env.budget, env.now);
      ReplaceRuntime(x.(lastSequence := last, lastSeen := env.now, lease := env.now + LEASE));
      response := Finish(before, env.saves, Taken(last), k, s);
    }

    method ReplaceRuntime(x: Runtime)
      requires Valid()
      modifies this
      ensures Valid() && View() == old(View()).(runtimes := TeamModel.ReplaceRuntime(old(View()).runtimes, x))
    {
      Lists();
      var i := FindRuntime(x.project, x.runtime);
      if i < |runtimes| {
        ReplaceRuntimeAt(i, x);
      } else {
        var item := new Record(x);
        runtimes := runtimes + [item];
        assert Values(runtimes) == old(Values(runtimes)) + [x];
      }
    }

    method Expire(env: Env) returns (response: Response)
      requires Valid()
      modifies this
      ensures Valid() && (View(), response) == Conclude(old(View()), HandleExpire(old(View()), env.now), env.saves)
    {
      hide View, Values, Recorded, ExpireFrom;
      ghost var s, k := View(), known;
      var found := false;
      Lists();
      for j := 0 to |runtimes|
        invariant found == exists m :: 0 <= m < j && Expired(s.runtimes[m], env.now)
      {
        if Expired(runtimes[j].v, env.now) { found := true; }
      }
      if !found { return Done; }
      var before := TakeSnapshot();
      ExpireLeases(env.now);
      response := Finish(before, env.saves, Done, k, s);
    }

    method ExpireLeases(now: nat)
      requires Valid()
      modifies this
      ensures Valid() && View() == ExpireFrom(old(View()), 0, now)
    {
      hide View, Values, Append;
      ghost var s := View();
      Lists();
      var i := 0;
      while i < |runtimes|
        invariant Valid() && i <= |runtimes| == |View().runtimes|
        invariant ExpireFrom(View(), i, now) == ExpireFrom(s, 0, now)
        decreases |View().runtimes| - i
      {
        Lists();
        var x := runtimes[i].v;
        ghost var before := View();
        AppendRuntimes(before.(runtimes := before.runtimes[i := x.(status := Offline, lease := 0, lastSeen := now)]),
                       x.project, RuntimeOffline, 0, x.runtime, 0, false);
        if Expired(x, now) {
          ReplaceRuntimeAt(i, x.(status := Offline, lease := 0, lastSeen := now));
          AppendEvent(x.project, RuntimeOffline, 0, x.runtime, 0, false);
        }
        Lists();
        i := i + 1;
      }
    }

    // ------------------------------------------------------------ client requests

    method FindKey(p: string, key: string) returns (i: nat)
      requires Valid()
      ensures i == TeamModel.FindKey(View().tasks, p, key)
    {
      i := 0;
      while i < |tasks| && !(tasks[i].v.project == p && tasks[i].v.key == key)
        invariant i <= |tasks|
        invariant forall j :: 0 <= j < i ==> !(tasks[j].v.project == p && tasks[j].v.key == key)
      {
        i := i + 1;
      }
    }

    method ProjectTasks(p: string) returns (n: nat)
      requires Valid()
      ensures n == TaskCount(View().tasks, p)
    {
      n := 0;
      for i := 0 to |tasks|
        invariant n + TaskCount(View().tasks[i..], p) == TaskCount(View().tasks, p)
      {
        assert View().tasks[i..][0] == tasks[i].v && View().tasks[i..][1..] == View().tasks[i + 1..];
        if tasks[i].v.project == p { n := n + 1; }
      }
    }

    method DependenciesExist(p: string, self: nat, deps: seq<nat>) returns (ok: bool)
      requires Valid()
      ensures ok == DepsExist(View().tasks, p, self, deps)
    {
      hide View, Values;
      Lists();
      for k := 0 to |deps|
        invariant forall j :: 0 <= j < k ==> deps[j] != self && InProject(View().tasks, p, deps[j])
      {
        var i := FindTask(deps[k]);
        if deps[k] == self || i == |tasks| || tasks[i].v.project != p { return false; }
      }
      ok := true;
    }

    method PushTask(t: Task)
      requires Valid()
      modifies this`tasks
      ensures Valid() && View() == old(View()).(tasks := old(View()).tasks + [t])
    {
      var r := new Record(t);
      tasks := tasks + [r];
      assert Values(tasks) == old(Values(tasks)) + [t];
    }

    method AddTask(t: Task, now: nat)
      requires Valid() && t.id == View().nextId
      modifies this
      ensures Valid() && View() == TeamModel.AddTask(old(View()), t, now)
    {
      hide View, Values, Append, TeamModel.Enqueue;
      var _ := NewId();
      PushTask(t);
      AppendEvent(t.project, CreationEvent(t.status), t.id, "", 0, false);
      if t.status == Accepted { Enqueue(t, StartTask, t.attempt, now); }
    }

    method Admit(p: string, deps: seq<nat>, key: string) returns (guard: Response)
      requires Valid()
      ensures guard == CreateGuard(View(), p, deps, key)
    {
      hide View, Values, DepsExist, DepsWellFormed, TaskCount, PendingCount, TeamModel.FindKey;
      Lists();
      if p == "" { return Refused(FieldsRequired); }
      if !DepsWellFormed(deps) { return Refused(DependenciesInvalid); }
      if key != "" {
        var i := FindKey(p, key);
        if i < |tasks| { return Replayed; }
      }
      var count := ProjectTasks(p);
      var pending := PendingCommands(p);
      if count >= TASK_LIMIT || pending >= PENDING_LIMIT { return Refused(CapacityReached); }
      var id := PeekId();
      var exist := DependenciesExist(p, id, deps);
      guard := if exist then Done else Refused(DependenciesInvalid);
    }

    method NewTask(p: string, deps: seq<nat>, profile: Profile, key: string, owner: string, budget: nat, now: nat)
      returns (t: Task)
      requires Valid()
      ensures t == TeamModel.NewTask(View(), p, deps, profile, key, owner, budget, now) && t.id == View().nextId
    {
      hide View, Values, DepStatus, Fits;
      var status := DependencyStatus(deps);
      if status == Accepted {
        var fits := ResourceAvailable(budget, p, profile, 0);
        if !fits { status := WaitingResource; }
      }
      var id := PeekId();
      t := Task(id, p, status, 1, deps, profile, key, NoSource, NoSource, Undecided, owner, now);
    }

    method Create(p: string, deps: seq<nat>, profile: Profile, key: string, owner: string, env: Env) returns (response: Response)
      requires Valid()
      modifies this
      ensures Valid() && (View(), response) == Conclude(old(View()),
        HandleCreate(old(View()), p, deps, profile, key, owner, env.budget, env.now), env.saves)
    {
      hide View, Values, Recorded, TeamModel.AddTask, TeamModel.NewTask, CreateGuard;
      ghost var s, k := View(), known;
      var before := TakeSnapshot();
      var guard := Admit(p, deps, key);
      if guard != Done { return guard; }
      var t := NewTask(p, deps, profile, key, owner, env.budget, env.now);
      AddTask(t, env.now);
      response := Finish(before, env.saves, Done, k, s);
    }

    // The identifier a new task is going to get.
    method PeekId() returns (id: nat)
      requires Valid()
      ensures id == View().nextId
    {
      id := nextId;
    }

    // -------------------------------------------------------------- runtime queue

    method Deliver(p: string, r: string, now: nat, limit: nat) returns (items: seq<Command>)
      requires Valid()
      modifies this`commands
      ensures Valid()
      ensures var (cs, out) := TeamModel.Deliver(old(View()).commands, p, r, now, limit);
        View() == old(View()).(commands := cs) && items == out
    {
      hide View, Values, Deliverable, DeliveredAt, TeamModel.Deliver;
      ghost var s := View();
      ghost var cs := s.commands;
      Lists();
      items := [];
      for i := 0 to |commands|
        invariant Valid() && |commands| == |View().commands| == |cs|
        invariant View() == s.(commands := View().commands) && View().commands[i..] == cs[i..]
        invariant |items| == 0 || |items| < limit
        invariant TeamModel.Deliver(cs, p, r, now, limit).0
               == View().commands[..i] + TeamModel.Deliver(cs[i..], p, r, now, limit - |items|).0
        invariant TeamModel.Deliver(cs, p, r, now, limit).1 == items + TeamModel.Deliver(cs[i..], p, r, now, limit - |items|).1
      {
        DeliverFrom(cs, i, p, r, now, limit - |items|);
        Lists();
        var c := commands[i].v;
        assert c == View().commands[i..][0] == cs[i..][0];
        ghost var was := View().commands;
        ghost var room := limit - |items|;
        if Deliverable(c, p, r, now) {
          ReplaceCommand(i, DeliveredAt(c, now));
          items := items + [DeliveredAt(c, now)];
          assert View().commands[..i + 1] == was[..i] + [DeliveredAt(c, now)] && View().commands[i + 1..] == cs[i + 1..];
          ghost var d, rest := DeliveredAt(c, now), TeamModel.Deliver(cs[i + 1..], p, r, now, if room <= 1 then 0 else room - 1);
          Reassociate(was[..i], [d], rest.0);
          Reassociate(items[..|items| - 1], [d], rest.1);
          if |items| >= limit { return; }
        } else {
          assert was[..i + 1] == was[..i] + [c];
          Reassociate(was[..i], [c], TeamModel.Deliver(cs[i + 1..], p, r, now, room).0);
        }
      }
      DeliverFrom(cs, |cs|, p, r, now, limit - |items|);
    }

    method Poll(p: string, r: string, token: nat, limit: nat, env: Env) returns (response: Response)
      requires Valid()
      modifies this
      ensures Valid() && (View(), response) == Conclude(old(View()),
        HandlePoll(old(View()), p, r, token, limit, env.now), env.saves)
    {
      hide View, Values, Recorded, TeamModel.Deliver;
      ghost var s, k := View(), known;
      if p == "" || r == "" || token == 0 { return Refused(FieldsRequired); }
      var held, i := LeaseHeld(p, r, token, env.now);
      if !held { return Refused(LeaseLost); }
      var before := TakeSnapshot();
      var items := Deliver(p, r, env.now, limit);
      if |items| == 0 {
        NothingDelivered(s.commands, p, r, env.now, limit);
        return Items([]);
      }
      response := Finish(before, env.saves, Items(items), k, s);
    }

    method AckDelivered(p: string, r: string, ids: seq<nat>)
      requires Valid()
      modifies this`commands
      ensures Valid() && View() == old(View()).(commands := AckAll(old(View()).commands, p, r, ids))
    {
      ghost var s := View();
      for i := 0 to |commands|
        invariant Valid() && |commands| == |s.commands|
        invariant View() == s.(commands := View().commands)
        invariant forall k :: 0 <= k < i ==> View().commands[k] == AckedIf(s.commands[k], p, r, ids)
        invariant forall k :: i <= k < |commands| ==> View().commands[k] == s.commands[k]
      {
        var c := commands[i].v;
        if c.project == p && c.runtime == r && c.status == Delivered && c.id in ids {
          ReplaceCommand(i, c.(status := Acked));
        }
      }
      assert View().commands == AckAll(s.commands, p, r, ids);
    }

    method Ack(p: string, r: string, token: nat, ids: seq<nat>, env: Env) returns (response: Response)
      requires Valid()
      modifies this
      ensures Valid() && (View(), response) == Conclude(old(View()),
        HandleAck(old(View()), p, r, token, ids, env.now), env.saves)
    {
      hide View, Values, Recorded, AckAll, Compacted;
      ghost var s, k := View(), known;
      if p == "" || r == "" || token == 0 || !(1 <= |ids| <= BATCH_LIMIT) { return Refused(FieldsRequired); }
      var before := TakeSnapshot();
      var held, i := LeaseHeld(p, r, token, env.now);
      if !held { return Refused(LeaseLost); }
      AckDelivered(p, r, ids);
      Compact(p);
      response := Finish(before, env.saves, Done, k, s);
    }

    // --------------------------------------------------------------- task actions

    method Guard(i: nat, action: Action) returns (guard: Response)
      requires Valid() && i < |tasks|
      ensures guard == ActionGuard(View(), View().tasks[i], action)
    {
      hide View, Values, PendingCount, PendingOf;
      Lists();
      var t := tasks[i].v;
      if t.status == Completed {
        if action.Complete? && t.completion == Manual { return Replayed; }
        if action.Complete? || t.completion == Manual { return Refused(AlreadyCompleted); }
      }
      if action.Cancel? && t.status == Cancelled { return Replayed; }
      var pending := PendingCommands(t.project);
      var own := PendingTaskCommands(t.id);
      if action.Retry? {
        if t.attempt >= MAX_ATTEMPT { return Refused(AttemptExhausted); }
        if pending - own + 2 > PENDING_LIMIT { return Refused(CommandCapacity); }
      }
      if action.Input? || action.Cancel? || action.Complete? {
        if pending >= PENDING_LIMIT && (action.Input? || own == 0) { return Refused(CommandCapacity); }
      }
      if action.Input? && action.text == "" { return Refused(InputRequired); }
      guard := Done;
    }

    // The task record `input` writes to while snapshots may still refer to it.
    ghost function Touched(task: nat, action: Action): set<Record<Task>>
      requires Valid()
      reads this, tasks, runtimes, commands, known
    {
      var i := TeamModel.FindTask(View().tasks, task);
      if action.Input? && i < |tasks| then {tasks[i]} else {}
    }

    method StampTask(i: nat, now: nat, before: Snapshot)
      requires Valid() && i < |tasks|
      requires before == Snapshot(runtimes, tasks, commands, events, sequences)
      modifies tasks[i]
      ensures Valid() && View() == PutTask(old(View()), i, old(View()).tasks[i].(updatedAt := now))
      ensures Recorded(before, known, View())
    {
      tasks[i].v := tasks[i].v.(updatedAt := now);
      assert Values(tasks) == old(Values(tasks))[i := tasks[i].v];
    }

    method ActInput(i: nat, action: Action, now: nat, before: Snapshot)
      requires Valid() && i < |tasks|
      requires before == Snapshot(runtimes, tasks, commands, events, sequences)
      modifies this, tasks[i]
      ensures Valid() && View() == TeamModel.ActInput(old(View()), i, action, now)
      ensures Recorded(before, old(known), PutTask(old(View()), i, old(View()).tasks[i].(updatedAt := now)))
    {
      hide View, Values, Recorded, Append, TeamModel.Enqueue;
      Lists();
      StampTask(i, now, before);
      Lists();
      var t := tasks[i].v;
      AppendEvent(t.project, TaskAction(action), t.id, "", 0, false);
      Enqueue(t, InputTask, t.attempt, now);
    }

    method ActCancel(i: nat, budget: nat, now: nat)
      requires Valid() && i < |tasks|
      modifies this
      ensures Valid() && View() == TeamModel.ActCancel(old(View()), i, budget, now)
    {
      hide View, Values, Append, TeamModel.Enqueue, TeamModel.Activate, TeamModel.Supersede;
      Lists();
      var t := tasks[i].v.(status := Cancelled, cancellation := Manual, updatedAt := now);
      ReplaceTask(i, t);
      AppendEvent(t.project, TaskAction(Cancel), t.id, "", 0, false);
      Supersede(t.id);
      Activate(budget, t.project, now);
      Enqueue(t, CancelTask, t.attempt, now);
    }

    method ActRetry(i: nat, budget: nat, now: nat)
      requires Valid() && i < |tasks|
      modifies this
      ensures Valid() && View() == TeamModel.ActRetry(old(View()), i, budget, now)
    {
      hide View, Values, Append, TeamModel.Enqueue, TeamModel.Supersede, DepStatus, Fits;
      Lists();
      var t := tasks[i].v;
      Supersede(t.id);
      Enqueue(t, CancelTask, t.attempt, now);
      var status := DependencyStatus(t.deps);
      if status == Accepted {
        var fits := ResourceAvailable(budget, t.project, t.profile, t.id);
        if !fits { status := WaitingResource; }
      }
      var u := t.(attempt := t.attempt + 1, completion := NoSource, cancellation := NoSource, updatedAt := now,
                  status := status);
      ReplaceTask(i, u);
      AppendEvent(t.project, TaskAction(Retry), t.id, "", 0, false);
      if status == Accepted { Enqueue(u, StartTask, u.attempt, now); }
    }

    method ActComplete(i: nat, budget: nat, now: nat)
      requires Valid() && i < |tasks|
      modifies this
      ensures Valid() && View() == TeamModel.ActComplete(old(View()), i, budget, now)
    {
      hide View, Values, Append, TeamModel.Enqueue, TeamModel.Activate, TeamModel.Supersede;
      Lists();
      var t := tasks[i].v.(status := Completed, completion := Manual, updatedAt := now);
      ReplaceTask(i, t);
      AppendEvent(t.project, TaskAction(Complete), t.id, "", 0, false);
      Supersede(t.id);
      Enqueue(t, CancelTask, t.attempt, now);
      Activate(budget, t.project, now);
    }

    method ActApprove(i: nat, now: nat)
      requires Valid() && i < |tasks|
      modifies this
      ensures Valid() && View() == TeamModel.ActApprove(old(View()), i, now)
    {
      hide View, Values, Append;
      Lists();
      var t := tasks[i].v.(approval := Approved, updatedAt := now);
      ReplaceTask(i, t);
      AppendEvent(t.project, TaskAction(Approve), t.id, "", 0, false);
    }

    method ActReject(i: nat, budget: nat, now: nat)
      requires Valid() && i < |tasks|
      modifies this
      ensures Valid() && View() == TeamModel.ActReject(old(View()), i, budget, now)
    {
      hide View, Values, Append, TeamModel.Activate;
      Lists();
      var t := tasks[i].v.(approval := Rejected, status := Blocked, updatedAt := now);
      ReplaceTask(i, t);
      AppendEvent(t.project, TaskAction(Reject), t.id, "", 0, false);
      Activate(budget, t.project, now);
    }

    // Every action but `input` works on clones of the task record.
    method Apply(i: nat, action: Action, budget: nat, now: nat)
      requires Valid() && i < |tasks| && !action.Input?
      modifies this
      ensures Valid() && View() == Acted(old(View()), i, action, budget, now)
    {
      match action
      case Cancel => ActCancel(i, budget, now);
      case Retry => ActRetry(i, budget, now);
      case Complete => ActComplete(i, budget, now);
      case Approve => ActApprove(i, now);
      case Reject => ActReject(i, budget, now);
    }

    method SaveInput(i: nat, action: Action, env: Env) returns (response: Response)
      requires Valid() && i < |tasks|
      modifies this, tasks[i]
      ensures Valid()
      ensures var s, next := old(View()), TeamModel.ActInput(old(View()), i, action, env.now);
        if env.saves then View() == next && response == Done
        else View() == PutTask(s, i, s.tasks[i].(updatedAt := env.now)).(nextId := next.nextId) && response == SaveFailed
    {
      hide View, Values, Recorded, TeamModel.ActInput;
      Lists();
      ghost var s, k := View(), known;
      var before := TakeSnapshot();
      ActInput(i, action, env.now, before);
      response := Finish(before, env.saves, Done, k, PutTask(s, i, s.tasks[i].(updatedAt := env.now)));
    }

    method SaveAction(i: nat, action: Action, env: Env) returns (response: Response)
      requires Valid() && i < |tasks| && !action.Input?
      modifies this
      ensures Valid()
      ensures (View(), response) == Conclude(old(View()),
        Write(Acted(old(View()), i, action, env.budget, env.now), Done), env.saves)
    {
      hide View, Values, Recorded, Acted;
      Lists();
      ghost var s, k := View(), known;
      var before := TakeSnapshot();
      Apply(i, action, env.budget, env.now);
      response := Finish(before, env.saves, Done, k, s);
    }

    method Act(task: nat, action: Action, env: Env) returns (response: Response)
      requires Valid()
      modifies this, Touched(task, action)
      ensures Valid() && (View(), response) == Step(old(View()), Request.Act(task, action), env)
    {
      hide View, Values, ActionGuard, TeamModel.ActInput;
      Lists();
      var i := FindTask(task);
      if i == |tasks| { return Refused(TaskNotFound); }
      var guard := Guard(i, action);
      if guard != Done { return guard; }
      if action.Input? {
        response := SaveInput(i, action, env);
      } else {
        response := SaveAction(i, action, env);
      }
    }

    // One request, handled under the lock: what memory then holds is exactly one step of
    // the machine.
    method Serve(req: Request, env: Env) returns (response: Response)
      requires Valid()
      modifies this, if req.Act? then Touched(req.task, req.action) else {}
      ensures Valid() && (View(), response) == Step(old(View()), req, env)
    {
      hide View, Values, HandleRegister, HandleHeartbeat, HandleUnregister, HandleEvents, HandleExpire, HandleCreate,
           HandlePoll, HandleAck, HandleAction;
      ConcludeStep(View(), req, env);
      match req
      case Register(p, r) => response := Register(p, r, env);
      case Heartbeat(p, r, token, busy) => response := Heartbeat(p, r, token, busy, env);
      case Unregister(p, r, token) => response := Unregister(p, r, token, env);
      case Events(p, r, token, batch) => response := Events(p, r, token, batch, env);
      case Expire => response := Expire(env);
      case Create(p, deps, profile, key, owner) => response := Create(p, deps, profile, key, owner, env);
      case Poll(p, r, token, limit) => response := Poll(p, r, token, limit, env);
      case Ack(p, r, token, ids) => response := Ack(p, r, token, ids, env);
      case Act(task, action) => response := Act(task, action, env);
    }

    // Any sequence of requests: what memory then holds is the run of the machine, and what was
    // answered are its replies.  No record that existed before is written to but those of tasks.
    method ServeAll(calls: seq<Call>) returns (responses: seq<Response>)
      requires Valid()
      modifies this, set t: Record<Task> {:trigger t.v} | allocated(t)
      ensures Valid() && View() == Run(old(View()), calls) && responses == Replies(old(View()), calls)
    {
      hide View, Step;
      responses := [];
      for k := 0 to |calls|
        invariant Valid() && |responses| == k
        invariant Run(View(), calls[k..]) == Run(old(View()), calls)
        invariant responses + Replies(View(), calls[k..]) == Replies(old(View()), calls)
      {
        ghost var s := View();
        assert calls[k..][0] == calls[k] && calls[k..][1..] == calls[k + 1..];
        assert Replies(s, calls[k..]) == [Reply(s, calls[k].req, calls[k].env)]
                                         + Replies(After(s, calls[k].req, calls[k].env), calls[k + 1..]);
        var response := Serve(calls[k].req, calls[k].env);
        responses := responses + [response];
      }
      assert calls[|calls|..] == [];
    }
  }

  // What the machine answers to each request of a sequence.
  function Replies(s: State, calls: seq<Call>): seq<Response>
    decreases |calls|
  {
    if |calls| == 0 then []
    else [Reply(s, calls[0].req, calls[0].env)] + Replies(After(s, calls[0].req, calls[0].env), calls[1..])
  }

  // Only an action can leave anything but identifiers behind when its save fails.
  lemma ConcludeStep(s: State, req: Request, env: Env)
    ensures !req.Act? ==> Step(s, req, env) == Conclude(s, Handle(s, req, env), env.saves)
  {
    hide Handle;
  }

  lemma Reassociate<T>(a: seq<T>, b: seq<T>, c: seq<T>)
    ensures a + (b + c) == a + b + c
  {
  }

  lemma DeliverFrom(cs: seq<Command>, i: nat, p: string, r: string, now: nat, room: nat)
    requires i <= |cs|
    ensures i == |cs| ==> Deliver(cs[i..], p, r, now, room) == ([], [])
    ensures i < |cs| ==>
      var rest, d := Deliver(cs[i + 1..], p, r, now, if room <= 1 then 0 else room - 1), DeliveredAt(cs[i], now);
      var all := Deliver(cs[i..], p, r, now, room);
      if !Deliverable(cs[i], p, r, now) then
        && all.0 == [cs[i]] + Deliver(cs[i + 1..], p, r, now, room).0
        && all.1 == Deliver(cs[i + 1..], p, r, now, room).1
      else if room <= 1 then all == ([d] + cs[i + 1..], [d])
      else all == ([d] + rest.0, [d] + rest.1)
  {
    if i < |cs| { assert cs[i..][0] == cs[i] && cs[i..][1..] == cs[i + 1..]; }
  }

  lemma FenceOthersFrom(rs: seq<Runtime>, i: nat, p: string, r: string)
    requires i <= |rs|
    ensures i < |rs| ==> FenceOthers(rs[i..], p, r) == FenceOthers([rs[i]], p, r) + FenceOthers(rs[i + 1..], p, r)
    ensures i == |rs| ==> FenceOthers(rs[i..], p, r) == []
  {
    if i < |rs| { assert rs[i..][0] == rs[i] && rs[i..][1..] == rs[i + 1..]; }
  }

  lemma {:induction false} NothingDelivered(cs: seq<Command>, p: string, r: string, now: nat, room: nat)
    ensures TeamModel.Deliver(cs, p, r, now, room).1 == [] ==> TeamModel.Deliver(cs, p, r, now, room).0 == cs
  {
    if |cs| == 0 || Deliverable(cs[0], p, r, now) {
    } else {
      NothingDelivered(cs[1..], p, r, now, room);
    }
  }

  lemma EnqueueTasks(s: State, t: Task, attempt: nat, now: nat)
    ensures Enqueue(s, t, StartTask, attempt, now).tasks == s.tasks
  {
  }

  lemma AppendRuntimes(s: State, p: string, typ: EventType, task: nat, runtime: string, attempt: nat, stale: bool)
    ensures Append(s, p, typ, task, runtime, attempt, stale).runtimes == s.runtimes
  {
  }

  // The visit does something exactly when one of its writing branches is reached.
  lemma VisitChanges(s: State, budget: nat, p: string, i: nat, now: nat)
    requires i < |s.tasks|
    ensures var t := s.tasks[i];
      var d := DepStatus(s.tasks, t.deps);
      Visit(s, budget, p, i, now) == s ==>
        || t.project != p || !Waiting(t.status) || d == WaitingDependency
        || (d == Accepted && !Fits(s.tasks, budget, p, t.profile, t.id) && t.status == WaitingResource)
  {
    var t := s.tasks[i];
    assert Visit(s, budget, p, i, now) == s ==> Visit(s, budget, p, i, now).tasks[i].status == t.status;
  }

  // How many finished commands of the project are too many.
  function Excess(cs: seq<Command>, p: string): nat {
    if TerminalCount(cs, p) > HISTORY_LIMIT then TerminalCount(cs, p) - HISTORY_LIMIT else 0
  }

  // What compaction does with the command at position i.
  lemma CompactedTail(cs: seq<Command>, i: nat, p: string)
    requires i <= |cs|
    ensures i == |cs| ==> Compacted(cs[i..], p) == [] && Excess(cs[i..], p) == 0
    ensures i < |cs| ==>
      var drop := cs[i].project == p && Terminal(cs[i]) && Excess(cs[i..], p) > 0;
      && Compacted(cs[i..], p) == (if drop then [] else [cs[i]]) + Compacted(cs[i + 1..], p)
      && Excess(cs[i + 1..], p) == Excess(cs[i..], p) - if drop then 1 else 0
  {
    if i < |cs| { assert cs[i..][0] == cs[i] && cs[i..][1..] == cs[i + 1..]; }
  }

  lemma {:induction false} CompactedAll(cs: seq<Command>, p: string)
    requires TerminalCount(cs, p) <= HISTORY_LIMIT
    ensures Compacted(cs, p) == cs
  {
    if |cs| == 0 {
    } else {
      CompactedAll(cs[1..], p);
    }
  }
}
