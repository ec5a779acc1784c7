/**
  The values the agent-team control plane keeps, and what each of its requests
  computes from them.  One value of `State` is everything guarded by the server's
  lock; one call of `Step` is one request handled under that lock.

  Generated identifiers are numbers drawn from `nextId`; 0 stands for an absent one.
  Times are nanoseconds since the epoch, and 0 is also what an unreadable time reads as.
 */
module TeamModel {

  const SECOND: nat := 1_000_000_000
  const LEASE: nat := 15 * SECOND
  const VISIBILITY: nat := 30 * SECOND
  const EVENT_LIMIT: nat := 2000
  const PENDING_LIMIT: nat := 1000
  const TASK_LIMIT: nat := 10000
  const HISTORY_LIMIT: nat := 2000
  const BATCH_LIMIT: nat := 100
  const DEPENDENCY_LIMIT: nat := 32
  const MAX_ATTEMPT: nat := 1_000_000
  const MAX_SEQUENCE: nat := 0x1000_0000_0000_0000

  // ---------------------------------------------------------------- entities

  datatype RuntimeStatus = Online | Busy | Offline | Fenced

  datatype Runtime = Runtime(project: string, runtime: string, status: RuntimeStatus, token: nat,
                             lease: nat, lastSequence: nat, lastSeen: nat)

  datatype TaskStatus =
    | Accepted | WaitingDependency | WaitingResource
    | Running | WaitingInput | Completed | Failed | Cancelled | Blocked

  datatype Profile = Small | Medium | Large

  datatype Source = NoSource | Manual | AgentReport

  datatype Approval = Undecided | Approved | Rejected

  datatype Task = Task(id: nat, project: string, status: TaskStatus, attempt: nat, deps: seq<nat>,
                       profile: Profile, key: string, completion: Source, cancellation: Source,
                       approval: Approval, owner: string, updatedAt: nat)

  datatype Kind = StartTask | CancelTask | InputTask

  datatype CommandStatus = Queued | Delivered | Acked | Superseded

  datatype Command = Command(id: nat, project: string, runtime: string, task: nat, kind: Kind,
                             status: CommandStatus, attempt: nat, deliveries: nat, visibleAt: nat)

  datatype Action = Input(text: string) | Cancel | Retry | Complete | Approve | Reject

  datatype Report = ReportInProgress | ReportCompleted | ReportFailed | ReportBlocked | ReportNeedsInput

  datatype EventType =
    | RuntimeOnline | RuntimeOffline
    | TaskAccepted | TaskWaitingDependency | TaskWaitingResource | TaskReady
    | TaskStarted | TaskBlocked | TaskCompleted | TaskFailed | TaskCancelled
    | TaskHandoff(member: string) | TaskReport(report: Report) | ArtifactCreated
    | TaskAction(action: Action) | OtherEvent(name: string) | InvalidType

  // A stored event; attempt is 0 when the event names no task.
  datatype Event = Event(sequence: nat, typ: EventType, task: nat, runtime: string, attempt: nat, stale: bool)

  datatype State = State(runtimes: seq<Runtime>, tasks: seq<Task>, commands: seq<Command>,
                         events: map<string, seq<Event>>, sequences: map<string, nat>, nextId: nat)

  const EMPTY := State([], [], [], map[], map[], 1)

  // -------------------------------------------------------- requests and replies

  datatype AttemptField = NoAttempt | AttemptGiven(n: int) | AttemptNotInteger

  datatype RawEvent =
    | NotAnObject
    | RawEvent(sequence: int, typ: EventType, task: nat, attempt: AttemptField, payloadOk: bool)

  datatype Request =
    | Register(project: string, runtime: string)
    | Heartbeat(project: string, runtime: string, token: nat, busy: bool)
    | Unregister(project: string, runtime: string, token: nat)
    | Events(project: string, runtime: string, token: nat, batch: seq<RawEvent>)
    | Expire
    | Create(project: string, deps: seq<nat>, profile: Profile, key: string, owner: string)
    | Poll(project: string, runtime: string, token: nat, limit: nat)
    | Ack(project: string, runtime: string, token: nat, ids: seq<nat>)
    | Act(task: nat, action: Action)

  datatype Error =
    | FieldsRequired | AlreadyActive | LeaseLost | EventInvalid | SequenceGap | EventTaskInvalid
    | AttemptInvalid | PayloadInvalid | DependenciesInvalid | CapacityReached | TaskNotFound
    | AlreadyCompleted | AttemptExhausted | CommandCapacity | InputRequired

  datatype Response =
    | Done | Replayed | Registered(token: nat) | Taken(through: nat) | Items(items: seq<Command>)
    | Refused(error: Error) | SaveFailed

  // A handler either answers without writing, or proposes a state that still has to be saved.
  datatype Outcome = Keep(response: Response) | Write(next: State, response: Response)

  // ------------------------------------------------------------------- lookups

  function FindRuntime(rs: seq<Runtime>, p: string, r: string): (i: nat)
    ensures i <= |rs|
    ensures i < |rs| ==> rs[i].project == p && rs[i].runtime == r
    ensures forall j :: 0 <= j < i ==> !(rs[j].project == p && rs[j].runtime == r)
  {
    if |rs| == 0 || (rs[0].project == p && rs[0].runtime == r) then 0 else 1 + FindRuntime(rs[1..], p, r)
  }

  // The first entry of the project that is not offline: the only one a registration looks at.
  function FindCurrent(rs: seq<Runtime>, p: string): (i: nat)
    ensures i <= |rs|
    ensures i < |rs| ==> rs[i].project == p && rs[i].status != Offline
    ensures forall j :: 0 <= j < i ==> !(rs[j].project == p && rs[j].status != Offline)
  {
    if |rs| == 0 || (rs[0].project == p && rs[0].status != Offline) then 0 else 1 + FindCurrent(rs[1..], p)
  }

  predicate Reachable(r: Runtime, p: string, now: nat) {
    r.project == p && r.status != Fenced && r.lease > now
  }

  // The runtime a new command is addressed to.
  function FindReachable(rs: seq<Runtime>, p: string, now: nat): (i: nat)
    ensures i <= |rs|
    ensures i < |rs| ==> Reachable(rs[i], p, now)
    ensures forall j :: 0 <= j < i ==> !Reachable(rs[j], p, now)
  {
    if |rs| == 0 || Reachable(rs[0], p, now) then 0 else 1 + FindReachable(rs[1..], p, now)
  }

  function FindTask(ts: seq<Task>, id: nat): (i: nat)
    ensures i <= |ts|
    ensures i < |ts| ==> ts[i].id == id
    ensures forall j :: 0 <= j < i ==> ts[j].id != id
  {
    if |ts| == 0 || ts[0].id == id then 0 else 1 + FindTask(ts[1..], id)
  }

  // The check every runtime request makes before it is served, except that a
  // heartbeat does not look at the lease and unregister looks at the token only.
  predicate HoldsLease(rs: seq<Runtime>, p: string, r: string, token: nat, now: nat) {
    var i := FindRuntime(rs, p, r);
    i < |rs| && rs[i].token == token && rs[i].status != Fenced && rs[i].lease >= now
  }

  // ------------------------------------------------------------------- event log

  function LastN<T>(xs: seq<T>, n: nat): (ys: seq<T>)
    ensures |ys| == if |xs| <= n then |xs| else n
  {
    if |xs| <= n then xs else xs[|xs| - n..]
  }

  function Log(s: State, p: string): seq<Event> {
    if p in s.events then s.events[p] else []
  }

  function Counter(s: State, p: string): nat {
    if p in s.sequences then s.sequences[p] else 0
  }

  function Append(s: State, p: string, typ: EventType, task: nat, runtime: string, attempt: nat, stale: bool): State {
    var n := Counter(s, p) + 1;
    s.(events := s.events[p := LastN(Log(s, p) + [Event(n, typ, task, runtime, attempt, stale)], EVENT_LIMIT)],
       sequences := s.sequences[p := n])
  }

  // ---------------------------------------------------------------- command queue

  predicate Terminal(c: Command) { c.status == Acked || c.status == Superseded }

  function TerminalCount(cs: seq<Command>, p: string): nat {
    if |cs| == 0 then 0
    else (if cs[0].project == p && Terminal(cs[0]) then 1 else 0) + TerminalCount(cs[1..], p)
  }

  // A finished command of the project is dropped while more than the limit, itself
  // included, remain from its position on.
  function Compacted(cs: seq<Command>, p: string): seq<Command> {
    if |cs| == 0 then []
    else if cs[0].project == p && Terminal(cs[0]) && TerminalCount(cs, p) > HISTORY_LIMIT then Compacted(cs[1..], p)
    else [cs[0]] + Compacted(cs[1..], p)
  }

  function PendingCount(cs: seq<Command>, p: string): nat {
    if |cs| == 0 then 0
    else (if cs[0].project == p && !Terminal(cs[0]) then 1 else 0) + PendingCount(cs[1..], p)
  }

  // The unfinished commands of one task, in queue order.
  function PendingOf(cs: seq<Command>, task: nat): seq<Command> {
    if |cs| == 0 then []
    else (if cs[0].task == task && !Terminal(cs[0]) then [cs[0]] else []) + PendingOf(cs[1..], task)
  }

  predicate Available(c: Command, now: nat) {
    c.status == Queued || (c.status == Delivered && c.visibleAt <= now)
  }

  function SupersededIf(c: Command, task: nat): Command {
    if c.task == task && !Terminal(c) then c.(status := Superseded) else c
  }

  function Supersede(cs: seq<Command>, task: nat): (r: seq<Command>)
    ensures |r| == |cs| && forall k :: 0 <= k < |cs| ==> r[k] == SupersededIf(cs[k], task)
  {
    seq(|cs|, k requires 0 <= k < |cs| => SupersededIf(cs[k], task))
  }

  function Enqueue(s: State, t: Task, kind: Kind, attempt: nat, now: nat): State {
    if kind == StartTask && DepStatus(s.tasks, t.deps) != Accepted then s
    else
      var i := FindReachable(s.runtimes, t.project, now);
      if i == |s.runtimes| then s
      else
        var c := Command(s.nextId, t.project, s.runtimes[i].runtime, t.id, kind, Queued, attempt, 0, 0);
        s.(commands := Compacted(s.commands + [c], t.project), nextId := s.nextId + 1)
  }

  // -------------------------------------------------------------------- scheduler

  // Decided by the first dependency, in list order, that is not completed.
  function DepStatus(ts: seq<Task>, deps: seq<nat>): (d: TaskStatus)
    ensures d in {Accepted, WaitingDependency, Blocked}
  {
    if |deps| == 0 then Accepted
    else
      var i := FindTask(ts, deps[0]);
      if i == |ts| || ts[i].status in {Failed, Cancelled, Blocked} then Blocked
      else if ts[i].status != Completed then WaitingDependency
      else DepStatus(ts, deps[1..])
  }

  function Units(profile: Profile): nat {
    match profile case Large => 4 case Medium => 2 case Small => 1
  }

  predicate Counted(st: TaskStatus) { st in {Accepted, Running, WaitingInput} }

  // What one task charges to the project's budget.
  function Charge(t: Task, p: string, exclude: nat): nat {
    if t.project == p && t.id != exclude && Counted(t.status) then Units(t.profile) else 0
  }

  function Used(ts: seq<Task>, p: string, exclude: nat): nat {
    if |ts| == 0 then 0 else Charge(ts[0], p, exclude) + Used(ts[1..], p, exclude)
  }

  predicate Fits(ts: seq<Task>, budget: nat, p: string, profile: Profile, exclude: nat) {
    Used(ts, p, exclude) + Units(profile) <= budget
  }

  predicate Waiting(st: TaskStatus) { st == WaitingDependency || st == WaitingResource }

  function RankOf(st: TaskStatus): nat {
    if st == WaitingDependency then 2 else if st == WaitingResource then 1 else 0
  }

  function Rank(ts: seq<Task>): nat {
    if |ts| == 0 then 0 else RankOf(ts[0].status) + Rank(ts[1..])
  }

  function PutTask(s: State, i: nat, t: Task): State
    requires i < |s.tasks|
  {
    s.(tasks := s.tasks[i := t])
  }

  // What one visit of the activation loop does to the task at position i.
  function Visit(s: State, budget: nat, p: string, i: nat, now: nat): (s': State)
    requires i < |s.tasks|
    ensures |s'.tasks| == |s.tasks|
  {
    var t := s.tasks[i];
    if t.project != p || !Waiting(t.status) then s
    else
      var d := DepStatus(s.tasks, t.deps);
      if d == WaitingDependency then s
      else if d == Accepted && !Fits(s.tasks, budget, p, t.profile, t.id) then
        if t.status == WaitingResource then s
        else Append(PutTask(s, i, t.(status := WaitingResource, updatedAt := now)), p, TaskWaitingResource, t.id, "", 0, false)
      else
        var u := t.(status := d, updatedAt := now);
        if d == Accepted then
          Enqueue(Append(PutTask(s, i, u), p, TaskReady, t.id, "", 0, false), u, StartTask, u.attempt, now)
        else
          Append(PutTask(s, i, u), p, TaskBlocked, t.id, "", 0, false)
  }

  function Pass(s: State, budget: nat, p: string, i: nat, now: nat): (s': State)
    requires i <= |s.tasks|
    ensures |s'.tasks| == |s.tasks|
    decreases |s.tasks| - i
  {
    if i == |s.tasks| then s else Pass(Visit(s, budget, p, i, now), budget, p, i + 1, now)
  }

  // Visits every task again until a whole pass changes none of them.
  function Activate(s: State, budget: nat, p: string, now: nat): (s': State)
    ensures |s'.tasks| == |s.tasks|
    decreases Rank(s.tasks)
  {
    var s1 := Pass(s, budget, p, 0, now);
    assert s1.tasks != s.tasks ==> Rank(s1.tasks) < Rank(s.tasks) by { PassRank(s, budget, p, 0, now); }
    if s1.tasks == s.tasks then s1 else Activate(s1, budget, p, now)
  }

  lemma {:induction false} RankPut(ts: seq<Task>, i: nat, t: Task)
    requires i < |ts|
    ensures Rank(ts[i := t]) == Rank(ts) - RankOf(ts[i].status) + RankOf(t.status)
  {
    if i == 0 {
      assert ts[i := t][1..] == ts[1..];
    } else {
      assert ts[i := t][1..] == ts[1..][i - 1 := t];
      RankPut(ts[1..], i - 1, t);
    }
  }

  // waiting_dependency > waiting_resource > everything else falls with each change.
  lemma VisitRank(s: State, budget: nat, p: string, i: nat, now: nat)
    requires i < |s.tasks|
    ensures var s' := Visit(s, budget, p, i, now); s' == s || Rank(s'.tasks) < Rank(s.tasks)
  {
    var t := s.tasks[i];
    RankPut(s.tasks, i, t.(status := WaitingResource, updatedAt := now));
    RankPut(s.tasks, i, t.(status := DepStatus(s.tasks, t.deps), updatedAt := now));
  }

  lemma {:induction false} PassRank(s: State, budget: nat, p: string, i: nat, now: nat)
    requires i <= |s.tasks|
    ensures var s' := Pass(s, budget, p, i, now); s' == s || Rank(s'.tasks) < Rank(s.tasks)
    decreases |s.tasks| - i
  {
    if i == |s.tasks| {
    } else {
      VisitRank(s, budget, p, i, now);
      PassRank(Visit(s, budget, p, i, now), budget, p, i + 1, now);
    }
  }

  // ------------------------------------------------------------ runtime requests

  function RequeuedFor(c: Command, p: string, r: string): Command {
    if c.project == p && !Terminal(c) then c.(runtime := r, status := Queued) else c
  }

  function Requeue(cs: seq<Command>, p: string, r: string): (q: seq<Command>)
    ensures |q| == |cs| && forall k :: 0 <= k < |cs| ==> q[k] == RequeuedFor(cs[k], p, r)
  {
    seq(|cs|, k requires 0 <= k < |cs| => RequeuedFor(cs[k], p, r))
  }

  // Every other entry of the project is fenced; the runtime's own old entry is dropped.
  function FenceOthers(rs: seq<Runtime>, p: string, r: string): seq<Runtime> {
    if |rs| == 0 then []
    else
      (if rs[0].project != p then [rs[0]]
       else if rs[0].runtime != r then [rs[0].(status := Fenced)]
       else []) + FenceOthers(rs[1..], p, r)
  }

  predicate StartPending(cs: seq<Command>, task: nat) {
    exists k :: 0 <= k < |cs| && cs[k].task == task && cs[k].kind == StartTask && !Terminal(cs[k])
  }

  // An accepted task that has no unfinished start command gets one.
  function RestartOne(s: State, p: string, t: Task, now: nat): State {
    if t.project == p && t.status == Accepted && !StartPending(s.commands, t.id)
    then Enqueue(s, t, StartTask, t.attempt, now) else s
  }

  function Restart(s: State, p: string, i: nat, now: nat): State
    requires i <= |s.tasks|
    decreases |s.tasks| - i
  {
    if i == |s.tasks| then s else Restart(RestartOne(s, p, s.tasks[i], now), p, i + 1, now)
  }

  function TakeOver(s: State, p: string, r: string, now: nat): State {
    var entry := Runtime(p, r, Online, s.nextId, now + LEASE, 0, now);
    s.(runtimes := FenceOthers(s.runtimes, p, r) + [entry],
       commands := Requeue(s.commands, p, r),
       nextId := s.nextId + 1)
  }

  function HandleRegister(s: State, p: string, r: string, now: nat): Outcome {
    if p == "" || r == "" then Keep(Refused(FieldsRequired))
    else
      var i := FindCurrent(s.runtimes, p);
      if i < |s.runtimes| && s.runtimes[i].runtime != r && s.runtimes[i].lease > now
      then Keep(Refused(AlreadyActive))
      else
        Write(Append(Restart(TakeOver(s, p, r, now), p, 0, now), p, RuntimeOnline, 0, r, 0, false),
              Registered(s.nextId))
  }

  function HandleHeartbeat(s: State, p: string, r: string, token: nat, busy: bool, now: nat): Outcome {
    if p == "" || r == "" || token == 0 then Keep(Refused(FieldsRequired))
    else
      var i := FindRuntime(s.runtimes, p, r);
      if i == |s.runtimes| || s.runtimes[i].token != token || s.runtimes[i].status == Fenced
      then Keep(Refused(LeaseLost))
      else
        var entry := s.runtimes[i].(status := if busy then Busy else Online, lastSeen := now, lease := now + LEASE);
        Write(s.(runtimes := s.runtimes[i := entry]), Done)
  }

  // Only the token is compared here, so a fenced entry can be turned offline.
  function HandleUnregister(s: State, p: string, r: string, token: nat, now: nat): Outcome {
    var i := FindRuntime(s.runtimes, p, r);
    if i == |s.runtimes| || s.runtimes[i].token != token then Keep(Refused(LeaseLost))
    else
      var entry := s.runtimes[i].(status := Offline, lastSeen := now, lease := 0);
      Write(Append(s.(runtimes := s.runtimes[i := entry]), p, RuntimeOffline, 0, r, 0, false), Done)
  }

  predicate Expired(r: Runtime, now: nat) {
    r.status != Fenced && r.status != Offline && r.lease <= now
  }

  predicate AnyExpired(rs: seq<Runtime>, now: nat) {
    exists k :: 0 <= k < |rs| && Expired(rs[k], now)
  }

  function ExpireFrom(s: State, i: nat, now: nat): State
    requires i <= |s.runtimes|
    decreases |s.runtimes| - i
  {
    if i == |s.runtimes| then s
    else
      var r := s.runtimes[i];
      var s1 := if Expired(r, now)
                then Append(s.(runtimes := s.runtimes[i := r.(status := Offline, lease := 0, lastSeen := now)]),
                            r.project, RuntimeOffline, 0, r.runtime, 0, false)
                else s;
      ExpireFrom(s1, i + 1, now)
  }

  function HandleExpire(s: State, now: nat): Outcome {
    if AnyExpired(s.runtimes, now) then Write(ExpireFrom(s, 0, now), Done) else Keep(Done)
  }

  // --------------------------------------------------------------- event intake

  function Clamp(x: int): nat {
    if x < 0 then 0 else if x > MAX_SEQUENCE then MAX_SEQUENCE else x
  }

  function AttemptOf(a: AttemptField): nat {
    match a
    case AttemptGiven(n) => if n < 0 then 1 else if n > MAX_ATTEMPT then MAX_ATTEMPT else n
    case _ => 1
  }

  predicate AttemptOk(a: AttemptField) {
    match a
    case NoAttempt => true
    case AttemptGiven(n) => 1 <= n <= MAX_ATTEMPT
    case AttemptNotInteger => false
  }

  predicate Collaboration(typ: EventType) {
    typ.TaskHandoff? || typ.TaskReport? || typ.ArtifactCreated?
  }

  predicate InProject(ts: seq<Task>, p: string, task: nat) {
    var i := FindTask(ts, task);
    i < |ts| && ts[i].project == p
  }

  datatype Verdict = Valid | Invalid(error: Error)

  function ValidateOne(ts: seq<Task>, p: string, e: RawEvent): Verdict
    requires e.RawEvent?
  {
    if e.task != 0 && !InProject(ts, p, e.task) then Invalid(EventTaskInvalid)
    else if !AttemptOk(e.attempt) then Invalid(AttemptInvalid)
    else if Collaboration(e.typ) && !e.payloadOk then Invalid(PayloadInvalid)
    else Valid
  }

  // The first pass: `last` stays what the registration has already taken.
  function Validate(ts: seq<Task>, p: string, batch: seq<RawEvent>, last: nat, expected: nat): Verdict {
    if |batch| == 0 then Valid
    else
      var e := batch[0];
      if e.NotAnObject? || Clamp(e.sequence) == 0 || e.typ.InvalidType? then Invalid(EventInvalid)
      else if Clamp(e.sequence) <= last then Validate(ts, p, batch[1..], last, expected)
      else if Clamp(e.sequence) != expected + 1 then Invalid(SequenceGap)
      else
        var v := ValidateOne(ts, p, e);
        if v.Invalid? then v else Validate(ts, p, batch[1..], last, Clamp(e.sequence))
  }

  predicate HumanTerminal(t: Task) {
    (t.status == Completed && t.completion == Manual) || (t.status == Cancelled && t.cancellation == Manual)
  }

  datatype StatusChange = NoChange | To(status: TaskStatus)

  function StatusFromEvent(typ: EventType): StatusChange {
    match typ
    case TaskStarted => To(Running)
    case TaskBlocked => To(Blocked)
    case TaskCompleted => To(Completed)
    case TaskFailed => To(Failed)
    case TaskCancelled => To(Cancelled)
    case _ => NoChange
  }

  function UpdateFromEvent(s: State, p: string, task: nat, typ: EventType, now: nat): State {
    var i := FindTask(s.tasks, task);
    if task == 0 || i == |s.tasks| || s.tasks[i].project != p || HumanTerminal(s.tasks[i]) then s
    else
      match StatusFromEvent(typ)
      case NoChange => s
      case To(st) => PutTask(s, i, s.tasks[i].(status := st, updatedAt := now))
  }

  function Reported(t: Task, report: Report, now: nat): Task {
    match report
    case ReportCompleted => t.(status := Completed, completion := AgentReport, updatedAt := now)
    case ReportFailed => t.(status := Failed, updatedAt := now)
    case ReportBlocked => t.(status := Blocked, updatedAt := now)
    case ReportNeedsInput => t.(status := WaitingInput, updatedAt := now)
    case ReportInProgress => t.(status := Running, updatedAt := now)
  }

  function ApplyCollaboration(s: State, p: string, task: nat, typ: EventType, budget: nat, now: nat): State {
    var i := FindTask(s.tasks, task);
    if !Collaboration(typ) || i == |s.tasks| || s.tasks[i].project != p || HumanTerminal(s.tasks[i]) then s
    else
      var t := s.tasks[i];
      match typ
      case TaskHandoff(member) =>
        PutTask(s, i, t.(owner := if member == "" then t.owner else member, updatedAt := now))
      case TaskReport(report) =>
        var s1 := PutTask(s, i, Reported(t, report, now));
        if Reported(t, report, now).status in {Completed, Failed, Blocked} then Activate(s1, budget, p, now) else s1
      case _ =>
        PutTask(s, i, t.(updatedAt := now))
  }

  predicate Finishes(typ: EventType) {
    typ.TaskCompleted? || typ.TaskFailed? || typ.TaskCancelled? || typ.TaskBlocked?
  }

  // The task exists and runs another attempt than the one the event speaks of.
  predicate Stale(ts: seq<Task>, e: RawEvent)
    requires e.RawEvent?
  {
    var i := FindTask(ts, e.task);
    i < |ts| && AttemptOf(e.attempt) != ts[i].attempt
  }

  function Logged(s: State, p: string, r: string, e: RawEvent): State
    requires e.RawEvent?
  {
    Append(s, p, e.typ, e.task, r, if e.task != 0 then AttemptOf(e.attempt) else 0, Stale(s.tasks, e))
  }

  function ApplyEvent(s: State, p: string, r: string, e: RawEvent, budget: nat, now: nat): State
    requires e.RawEvent?
  {
    var s0 := Logged(s, p, r, e);
    if Stale(s.tasks, e) then s0
    else
      var s1 := ApplyCollaboration(UpdateFromEvent(s0, p, e.task, e.typ, now), p, e.task, e.typ, budget, now);
      if Finishes(e.typ) then Activate(s1, budget, p, now) else s1
  }

  predicate Objects(batch: seq<RawEvent>) { forall k :: 0 <= k < |batch| ==> batch[k].RawEvent? }

  // The second pass: `last` moves with every event it takes.
  function Selected(batch: seq<RawEvent>, last: nat): (r: seq<RawEvent>)
    requires Objects(batch)
    ensures Objects(r)
  {
    if |batch| == 0 then []
    else if Clamp(batch[0].sequence) <= last then Selected(batch[1..], last)
    else [batch[0]] + Selected(batch[1..], Clamp(batch[0].sequence))
  }

  function LastTaken(batch: seq<RawEvent>, last: nat): nat
    requires Objects(batch)
  {
    if |batch| == 0 then last
    else if Clamp(batch[0].sequence) <= last then LastTaken(batch[1..], last)
    else LastTaken(batch[1..], Clamp(batch[0].sequence))
  }

  function ApplyAll(s: State, p: string, r: string, es: seq<RawEvent>, budget: nat, now: nat): State
    requires Objects(es)
    decreases |es|
  {
    if |es| == 0 then s else ApplyAll(ApplyEvent(s, p, r, es[0], budget, now), p, r, es[1..], budget, now)
  }

  function HandleEvents(s: State, p: string, r: string, token: nat, batch: seq<RawEvent>, budget: nat, now: nat): Outcome {
    if p == "" || r == "" || token == 0 || !(1 <= |batch| <= BATCH_LIMIT) then Keep(Refused(FieldsRequired))
    else if !HoldsLease(s.runtimes, p, r, token, now) then Keep(Refused(LeaseLost))
    else
      var i := FindRuntime(s.runtimes, p, r);
      var last := s.runtimes[i].lastSequence;
      var v := Validate(s.tasks, p, batch, last, last);
      if v.Invalid? then Keep(Refused(v.error))
      else
        ValidObjects(s.tasks, p, batch, last, last);
        var s1 := ApplyAll(s, p, r, Selected(batch, last), budget, now);
        var entry := s.runtimes[i].(lastSequence := LastTaken(batch, last), lastSeen := now, lease := now + LEASE);
        Write(s1.(runtimes := ReplaceRuntime(s1.runtimes, entry)), Taken(LastTaken(batch, last)))
  }

  function ReplaceRuntime(rs: seq<Runtime>, entry: Runtime): seq<Runtime> {
    var i := FindRuntime(rs, entry.project, entry.runtime);
    if i < |rs| then rs[i := entry] else rs + [entry]
  }

  lemma ValidObjects(ts: seq<Task>, p: string, batch: seq<RawEvent>, last: nat, expected: nat)
    requires Validate(ts, p, batch, last, expected) == Valid
    ensures Objects(batch)
  {
    if |batch| > 0 {
      var next := if Clamp(batch[0].sequence) <= last then expected else Clamp(batch[0].sequence);
      ValidObjects(ts, p, batch[1..], last, next);
      assert forall k :: 0 < k < |batch| ==> batch[k] == batch[1..][k - 1];
    }
  }

  // -------------------------------------------------------------- client requests

  function FindKey(ts: seq<Task>, p: string, key: string): (i: nat)
    ensures i <= |ts|
    ensures i < |ts| ==> ts[i].project == p && ts[i].key == key
    ensures forall j :: 0 <= j < i ==> !(ts[j].project == p && ts[j].key == key)
  {
    if |ts| == 0 || (ts[0].project == p && ts[0].key == key) then 0 else 1 + FindKey(ts[1..], p, key)
  }

  function TaskCount(ts: seq<Task>, p: string): nat {
    if |ts| == 0 then 0 else (if ts[0].project == p then 1 else 0) + TaskCount(ts[1..], p)
  }

  predicate DepsWellFormed(deps: seq<nat>) {
    && |deps| <= DEPENDENCY_LIMIT
    && (forall k :: 0 <= k < |deps| ==> deps[k] != 0)
    && (forall j, k :: 0 <= j < k < |deps| ==> deps[j] != deps[k])
  }

  predicate DepsExist(ts: seq<Task>, p: string, self: nat, deps: seq<nat>) {
    forall k :: 0 <= k < |deps| ==> deps[k] != self && InProject(ts, p, deps[k])
  }

  function NewTask(s: State, p: string, deps: seq<nat>, profile: Profile, key: string, owner: string,
                   budget: nat, now: nat): Task {
    var d := DepStatus(s.tasks, deps);
    var st := if d == Accepted && !Fits(s.tasks, budget, p, profile, 0) then WaitingResource else d;
    Task(s.nextId, p, st, 1, deps, profile, key, NoSource, NoSource, Undecided, owner, now)
  }

  function CreationEvent(st: TaskStatus): EventType {
    if st == WaitingDependency then TaskWaitingDependency
    else if st == WaitingResource then TaskWaitingResource else TaskAccepted
  }

  function Announced(s: State, t: Task, typ: EventType): State {
    Append(s.(tasks := s.tasks + [t], nextId := s.nextId + 1), t.project, typ, t.id, "", 0, false)
  }

  function AddTask(s: State, t: Task, now: nat): State {
    var s1 := Announced(s, t, CreationEvent(t.status));
    if t.status == Accepted then Enqueue(s1, t, StartTask, t.attempt, now) else s1
  }

  // The checks a new task has to pass.
  function CreateGuard(s: State, p: string, deps: seq<nat>, key: string): Response {
    if p == "" then Refused(FieldsRequired)
    else if !DepsWellFormed(deps) then Refused(DependenciesInvalid)
    else if key != "" && FindKey(s.tasks, p, key) < |s.tasks| then Replayed
    else if TaskCount(s.tasks, p) >= TASK_LIMIT || PendingCount(s.commands, p) >= PENDING_LIMIT then Refused(CapacityReached)
    else if !DepsExist(s.tasks, p, s.nextId, deps) then Refused(DependenciesInvalid)
    else Done
  }

  function HandleCreate(s: State, p: string, deps: seq<nat>, profile: Profile, key: string, owner: string,
                        budget: nat, now: nat): Outcome {
    var guard := CreateGuard(s, p, deps, key);
    if guard != Done then Keep(guard)
    else Write(AddTask(s, NewTask(s, p, deps, profile, key, owner, budget, now), now), Done)
  }

  predicate Deliverable(c: Command, p: string, r: string, now: nat) {
    c.project == p && c.runtime == r && Available(c, now)
  }

  function DeliveredAt(c: Command, now: nat): Command {
    c.(status := Delivered,
       deliveries := (if c.deliveries > MAX_ATTEMPT then MAX_ATTEMPT else c.deliveries) + 1,
       visibleAt := now + VISIBILITY)
  }

  // Delivers from position i on until `room` commands are out; `room` is never 0.
  function Deliver(cs: seq<Command>, p: string, r: string, now: nat, room: nat): (seq<Command>, seq<Command>)
  {
    if |cs| == 0 then ([], [])
    else if !Deliverable(cs[0], p, r, now) then
      var (rest, items) := Deliver(cs[1..], p, r, now, room);
      ([cs[0]] + rest, items)
    else
      var c := DeliveredAt(cs[0], now);
      if room <= 1 then ([c] + cs[1..], [c])
      else
        var (rest, items) := Deliver(cs[1..], p, r, now, room - 1);
        ([c] + rest, [c] + items)
  }

  function HandlePoll(s: State, p: string, r: string, token: nat, limit: nat, now: nat): Outcome {
    if p == "" || r == "" || token == 0 then Keep(Refused(FieldsRequired))
    else if !HoldsLease(s.runtimes, p, r, token, now) then Keep(Refused(LeaseLost))
    else
      var (cs, items) := Deliver(s.commands, p, r, now, limit);
      if |items| == 0 then Keep(Items([])) else Write(s.(commands := cs), Items(items))
  }

  function AckedIf(c: Command, p: string, r: string, ids: seq<nat>): Command {
    if c.project == p && c.runtime == r && c.status == Delivered && c.id in ids then c.(status := Acked) else c
  }

  function AckAll(cs: seq<Command>, p: string, r: string, ids: seq<nat>): (q: seq<Command>)
    ensures |q| == |cs| && forall k :: 0 <= k < |cs| ==> q[k] == AckedIf(cs[k], p, r, ids)
  {
    seq(|cs|, k requires 0 <= k < |cs| => AckedIf(cs[k], p, r, ids))
  }

  function HandleAck(s: State, p: string, r: string, token: nat, ids: seq<nat>, now: nat): Outcome {
    if p == "" || r == "" || token == 0 || !(1 <= |ids| <= BATCH_LIMIT) then Keep(Refused(FieldsRequired))
    else if !HoldsLease(s.runtimes, p, r, token, now) then Keep(Refused(LeaseLost))
    else Write(s.(commands := Compacted(AckAll(s.commands, p, r, ids), p)), Done)
  }

  // The checks an action has to pass before it changes anything.
  function ActionGuard(s: State, t: Task, action: Action): Response {
    if t.status == Completed && action.Complete? && t.completion == Manual then Replayed
    else if t.status == Completed && (action.Complete? || t.completion == Manual) then Refused(AlreadyCompleted)
    else if action.Cancel? && t.status == Cancelled then Replayed
    else if action.Retry? && t.attempt >= MAX_ATTEMPT then Refused(AttemptExhausted)
    else if action.Retry? && PendingCount(s.commands, t.project) - |PendingOf(s.commands, t.id)| + 2 > PENDING_LIMIT
    then Refused(CommandCapacity)
    else if (action.Input? || action.Cancel? || action.Complete?)
            && PendingCount(s.commands, t.project) >= PENDING_LIMIT
            && (action.Input? || |PendingOf(s.commands, t.id)| == 0)
    then Refused(CommandCapacity)
    else if action.Input? && action.text == "" then Refused(InputRequired)
    else Done
  }

  function RetriedTask(s: State, t: Task, budget: nat, now: nat): Task {
    var d := DepStatus(s.tasks, t.deps);
    t.(attempt := t.attempt + 1, completion := NoSource, cancellation := NoSource, updatedAt := now,
       status := if d == Accepted && !Fits(s.tasks, budget, t.project, t.profile, t.id) then WaitingResource else d)
  }

  function ActInput(s: State, i: nat, action: Action, now: nat): State
    requires i < |s.tasks|
  {
    var t := s.tasks[i].(updatedAt := now);
    var s1 := Append(PutTask(s, i, t), t.project, TaskAction(action), t.id, "", 0, false);
    Enqueue(s1, t, InputTask, t.attempt, now)
  }

  function ActCancel(s: State, i: nat, budget: nat, now: nat): State
    requires i < |s.tasks|
  {
    var t := s.tasks[i].(status := Cancelled, cancellation := Manual, updatedAt := now);
    var s1 := Append(PutTask(s, i, t), t.project, TaskAction(Cancel), t.id, "", 0, false);
    var s2 := Activate(s1.(commands := Supersede(s1.commands, t.id)), budget, t.project, now);
    Enqueue(s2, t, CancelTask, t.attempt, now)
  }

  function ActRetry(s: State, i: nat, budget: nat, now: nat): State
    requires i < |s.tasks|
  {
    var t := s.tasks[i];
    var s1 := Enqueue(s.(commands := Supersede(s.commands, t.id)), t, CancelTask, t.attempt, now);
    var t' := RetriedTask(s1, t, budget, now);
    var s2 := Append(PutTask(s1, i, t'), t.project, TaskAction(Retry), t.id, "", 0, false);
    if t'.status == Accepted then Enqueue(s2, t', StartTask, t'.attempt, now) else s2
  }

  function ActComplete(s: State, i: nat, budget: nat, now: nat): State
    requires i < |s.tasks|
  {
    var t := s.tasks[i].(status := Completed, completion := Manual, updatedAt := now);
    var s1 := Append(PutTask(s, i, t), t.project, TaskAction(Complete), t.id, "", 0, false);
    var s2 := Enqueue(s1.(commands := Supersede(s1.commands, t.id)), t, CancelTask, t.attempt, now);
    Activate(s2, budget, t.project, now)
  }

  function ActApprove(s: State, i: nat, now: nat): State
    requires i < |s.tasks|
  {
    var t := s.tasks[i].(approval := Approved, updatedAt := now);
    Append(PutTask(s, i, t), t.project, TaskAction(Approve), t.id, "", 0, false)
  }

  function ActReject(s: State, i: nat, budget: nat, now: nat): State
    requires i < |s.tasks|
  {
    var t := s.tasks[i].(approval := Rejected, status := Blocked, updatedAt := now);
    Activate(Append(PutTask(s, i, t), t.project, TaskAction(Reject), t.id, "", 0, false), budget, t.project, now)
  }

  function Acted(s: State, i: nat, action: Action, budget: nat, now: nat): State
    requires i < |s.tasks|
  {
    match action
    case Input(_) => ActInput(s, i, action, now)
    case Cancel => ActCancel(s, i, budget, now)
    case Retry => ActRetry(s, i, budget, now)
    case Complete => ActComplete(s, i, budget, now)
    case Approve => ActApprove(s, i, now)
    case Reject => ActReject(s, i, budget, now)
  }

  function HandleAction(s: State, task: nat, action: Action, budget: nat, now: nat): Outcome {
    var i := FindTask(s.tasks, task);
    if i == |s.tasks| then Keep(Refused(TaskNotFound))
    else
      var guard := ActionGuard(s, s.tasks[i], action);
      if guard != Done then Keep(guard) else Write(Acted(s, i, action, budget, now), Done)
  }

  // ------------------------------------------------------------- the whole machine

  // The project budget, the clock, and whether this request's save succeeds.
  datatype Env = Env(budget: nat, now: nat, saves: bool)

  function Handle(s: State, req: Request, env: Env): Outcome {
    match req
    case Register(p, r) => HandleRegister(s, p, r, env.now)
    case Heartbeat(p, r, token, busy) => HandleHeartbeat(s, p, r, token, busy, env.now)
    case Unregister(p, r, token) => HandleUnregister(s, p, r, token, env.now)
    case Events(p, r, token, batch) => HandleEvents(s, p, r, token, batch, env.budget, env.now)
    case Expire => HandleExpire(s, env.now)
    case Create(p, deps, profile, key, owner) => HandleCreate(s, p, deps, profile, key, owner, env.budget, env.now)
    case Poll(p, r, token, limit) => HandlePoll(s, p, r, token, limit, env.now)
    case Ack(p, r, token, ids) => HandleAck(s, p, r, token, ids, env.now)
    case Act(task, action) => HandleAction(s, task, action, env.budget, env.now)
  }

  // What is left in memory when the save of `next` fails.  Identifiers already drawn
  // are not handed out again, and `input` has stamped its task record in place.
  function RolledBack(s: State, req: Request, next: State, now: nat): State {
    var i := if req.Act? then FindTask(s.tasks, req.task) else |s.tasks|;
    s.(nextId := next.nextId,
       tasks := if req.Act? && req.action.Input? && i < |s.tasks|
                then s.tasks[i := s.tasks[i].(updatedAt := now)] else s.tasks)
  }

  function Step(s: State, req: Request, env: Env): (State, Response) {
    match Handle(s, req, env)
    case Keep(response) => (s, response)
    case Write(next, response) =>
      if env.saves then (next, response) else (RolledBack(s, req, next, env.now), SaveFailed)
  }

  function After(s: State, req: Request, env: Env): State { Step(s, req, env).0 }

  function Reply(s: State, req: Request, env: Env): Response { Step(s, req, env).1 }

  datatype Call = Call(req: Request, env: Env)

  // A run is any sequence of requests; each is one atomic step.
  function Run(s: State, calls: seq<Call>): State
    decreases |calls|
  {
    if |calls| == 0 then s else Run(After(s, calls[0].req, calls[0].env), calls[1..])
  }
}
