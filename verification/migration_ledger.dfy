/**
  Applying an ordered list of migrations to a database.  `S` is the schema with its data,
  and a migration turns one into another or fails.  Every database operation may fail:
  `fails(n)` says whether the n-th one of this run does.  A transaction that fails, at any
  of its operations, leaves schema and ledger as they were.
 */
module MigrationLedger {

  datatype Option<T> = None | Some(value: T)

  datatype Migration<!S> = Migration(id: string, checksum: string, up: Option<S -> Option<S>>)

  datatype Row = Row(id: string, checksum: string)

  datatype RunStatus = Running | Applied | Failed | Noop

  datatype Audit = Audit(from: string, to: string, status: RunStatus)

  datatype Database<S> = Database(schema: S, ledger: seq<Row>, runs: seq<Audit>)

  datatype Error =
    | SetupFailed | MigrationInvalid | LedgerUnreadable | ChecksumMismatch
    | AuditFailed | BeginFailed | UpFailed | RecordFailed | CommitFailed

  datatype Result = Skipped | Committed | Stopped(error: Error)

  datatype Outcome = Success | Failure(error: Error)

  predicate Blank(s: string) { forall c :: c in s ==> c in {' ', '\t', '\n', '\U{B}', '\U{C}', '\r', '\U{85}', '\U{A0}'} }

  predicate Valid<S>(m: Migration<S>) { !Blank(m.id) && !Blank(m.checksum) && m.up.Some? }

  function FindRow(ledger: seq<Row>, id: string): (i: nat)
    ensures i <= |ledger| && (i < |ledger| ==> ledger[i].id == id) && forall j :: 0 <= j < i ==> ledger[j].id != id
  {
    if |ledger| == 0 || ledger[0].id == id then 0 else 1 + FindRow(ledger[1..], id)
  }

  function FinishRun<S>(d: Database<S>, run: nat, status: RunStatus, n: nat, fails: nat -> bool): Database<S>
    requires run < |d.runs|
  {
    if fails(n) then d else d.(runs := d.runs[run := d.runs[run].(status := status)])
  }

  function StartRun<S>(d: Database<S>, from: string, to: string): Database<S> {
    d.(runs := d.runs + [Audit(from, to, Running)])
  }

  // The transaction of one migration and the end of its audit run, the last one started.
  function Executed<S>(d: Database<S>, m: Migration<S>, n: nat, fails: nat -> bool): (Database<S>, Result, nat)
    requires |d.runs| > 0 && Valid(m)
  {
    var run, s := |d.runs| - 1, m.up.value(d.schema);
    if fails(n) then (FinishRun(d, run, Failed, n + 1, fails), Stopped(BeginFailed), n + 2)
    else if fails(n + 1) || s.None? then (FinishRun(d, run, Failed, n + 2, fails), Stopped(UpFailed), n + 3)
    else if fails(n + 2) then (FinishRun(d, run, Failed, n + 3, fails), Stopped(RecordFailed), n + 4)
    else if fails(n + 3) then (FinishRun(d, run, Failed, n + 4, fails), Stopped(CommitFailed), n + 5)
    else
      var d1 := d.(schema := s.value, ledger := d.ledger + [Row(m.id, m.checksum)]);
      (FinishRun(d1, run, Applied, n + 4, fails), if fails(n + 4) then Stopped(AuditFailed) else Committed, n + 5)
  }

  // One migration, from the n-th operation on; also the number of the next operation.
  function MigrateOne<S>(d: Database<S>, m: Migration<S>, previous: string, n: nat, fails: nat -> bool)
    : (Database<S>, Result, nat)
  {
    var row := FindRow(d.ledger, m.id);
    if !Valid(m) then (d, Stopped(MigrationInvalid), n)
    else if fails(n) then (d, Stopped(LedgerUnreadable), n + 1)
    else if row < |d.ledger| then
      (d, if d.ledger[row].checksum != m.checksum then Stopped(ChecksumMismatch) else Skipped, n + 1)
    else if fails(n + 1) then (d, Stopped(AuditFailed), n + 2)
    else Executed(StartRun(d, previous, m.id), m, n + 2, fails)
  }

  function MigrateAll<S>(d: Database<S>, ms: seq<Migration<S>>, previous: string, changed: bool, n: nat, fails: nat -> bool)
    : (Database<S>, Outcome)
    decreases |ms|
  {
    if |ms| > 0 then
      var (d1, result, n1) := MigrateOne(d, ms[0], previous, n, fails);
      if result.Stopped? then (d1, Failure(result.error))
      else MigrateAll(d1, ms[1..], ms[0].id, changed || result == Committed, n1, fails)
    else if previous == "" || changed then (d, Success)  // a blank identifier was refused: the list was empty
    else if fails(n) then (d, Failure(AuditFailed))
    else
      (FinishRun(StartRun(d, previous, previous), |d.runs|, Noop, n + 1, fails),
       if fails(n + 1) then Failure(AuditFailed) else Success)
  }

  // The ledger and audit tables are created first, if they are missing.
  function Apply<S>(d: Database<S>, ms: seq<Migration<S>>, fails: nat -> bool): (Database<S>, Outcome) {
    if fails(0) || fails(1) then (d, Failure(SetupFailed)) else MigrateAll(d, ms, "", false, 2, fails)
  }

  // ------------------------------------------------------------------------ the store

  class Store<!S> {
    var schema: S
    var ledger: seq<Row>
    var runs: seq<Audit>
    var next: nat  // the number of the next operation of this run

    constructor (schema: S)
      ensures View() == Database(schema, [], [])
    {
      this.schema, ledger, runs, next := schema, [], [], 0;
    }

    function View(): Database<S>
      reads this
    {
      Database(schema, ledger, runs)
    }

    method Try(fails: nat -> bool) returns (ok: bool)
      modifies this`next
      ensures next == old(next) + 1 && ok == !fails(old(next))
    {
      ok := !fails(next);
      next := next + 1;
    }

    method Start(from: string, to: string, fails: nat -> bool) returns (run: nat, ok: bool)
      modifies this`runs, this`next
      ensures ok == !fails(old(next)) && next == old(next) + 1 && run == old(|runs|)
      ensures View() == if ok then StartRun(old(View()), from, to) else old(View())
    {
      run := |runs|;
      ok := Try(fails);
      if ok { runs := runs + [Audit(from, to, Running)]; }
    }

    method Finish(run: nat, status: RunStatus, fails: nat -> bool) returns (ok: bool)
      requires run < |runs|
      modifies this`runs, this`next
      ensures ok == !fails(old(next)) && next == old(next) + 1
      ensures View() == FinishRun(old(View()), run, status, old(next), fails)
    {
      ok := Try(fails);
      if ok { runs := runs[run := runs[run].(status := status)]; }
    }

    method Migrate(m: Migration<S>, previous: string, fails: nat -> bool) returns (result: Result)
      modifies this
      ensures (View(), result, next) == MigrateOne(old(View()), m, previous, old(next), fails)
    {
      if !Valid(m) { return Stopped(MigrationInvalid); }
      var ok := Try(fails);
      if !ok { return Stopped(LedgerUnreadable); }
      var row := FindRow(ledger, m.id);
      if row < |ledger| { return if ledger[row].checksum != m.checksum then Stopped(ChecksumMismatch) else Skipped; }
      var run;
      run, ok := Start(previous, m.id, fails);
      if !ok { return Stopped(AuditFailed); }
      result := Execute(m, fails);
    }

    method Execute(m: Migration<S>, fails: nat -> bool) returns (result: Result)
      requires |runs| > 0 && Valid(m)
      modifies this
      ensures (View(), result, next) == Executed(old(View()), m, old(next), fails)
    {
      var run := |runs| - 1;
      var ok := Try(fails);
      if !ok {
        var _ := Finish(run, Failed, fails);
        return Stopped(BeginFailed);
      }
      var staged := m.up.value(schema);
      ok := Try(fails);
      if !ok || staged.None? {
        var _ := Finish(run, Failed, fails);
        return Stopped(UpFailed);
      }
      var rows := ledger + [Row(m.id, m.checksum)];
      ok := Try(fails);
      if !ok {
        var _ := Finish(run, Failed, fails);
        return Stopped(RecordFailed);
      }
      ok := Try(fails);
      if !ok {
        var _ := Finish(run, Failed, fails);
        return Stopped(CommitFailed);
      }
      schema, ledger := staged.value, rows;
      ok := Finish(run, Applied, fails);
      result := if ok then Committed else Stopped(AuditFailed);
    }

    method ApplyMigrations(ms: seq<Migration<S>>, fails: nat -> bool) returns (outcome: Outcome)
      modifies this
      ensures (View(), outcome) == Apply(old(View()), ms, fails)
    {
      next := 0;
      var ok := Try(fails);
      if !ok { return Failure(SetupFailed); }
      ok := Try(fails);
      if !ok { return Failure(SetupFailed); }
      var previous, changed := "", false;
      ghost var goal := MigrateAll(View(), ms, "", false, 2, fails);
      for i := 0 to |ms|
        invariant MigrateAll(View(), ms[i..], previous, changed, next, fails) == goal
        invariant previous == "" <==> i == 0
        invariant changed ==> i > 0
      {
        var m := ms[i];
        assert ms[i..][0] == m && ms[i..][1..] == ms[i + 1..];
        var result := Migrate(m, previous, fails);
        if result.Stopped? { return Failure(result.error); }
        previous := m.id;
        changed := changed || result == Committed;
      }
      if |ms| > 0 && !changed {
        var run;
        run, ok := Start(previous, previous, fails);
        if !ok { return Failure(AuditFailed); }
        ok := Finish(run, Noop, fails);
        if !ok { return Failure(AuditFailed); }
      }
      outcome := Success;
    }
  }

  // ------------------------------------------------ schema and ledger go hand in hand

  // Running the migrations one after the other, if none fails.
  function Replay<S>(schema: S, ms: seq<Migration<S>>): Option<S>
    decreases |ms|
  {
    if |ms| == 0 then Some(schema)
    else if ms[0].up.None? || ms[0].up.value(schema).None? then None
    else Replay(ms[0].up.value(schema).value, ms[1..])
  }

  function Rows<S>(ms: seq<Migration<S>>): seq<Row> {
    seq(|ms|, i requires 0 <= i < |ms| => Row(ms[i].id, ms[i].checksum))
  }

  predicate UniqueIds(ledger: seq<Row>) {
    forall i, j :: 0 <= i < j < |ledger| ==> ledger[i].id != ledger[j].id
  }

  // The database is what running `done` on `initial` makes of it, each of them once.
  predicate Traced<S(==)>(d: Database<S>, initial: S, done: seq<Migration<S>>) {
    UniqueIds(d.ledger) && d.ledger == Rows(done) && Replay(initial, done) == Some(d.schema)
  }

  // The migrations one call commits, in order.
  function Done<S>(d: Database<S>, ms: seq<Migration<S>>, previous: string, n: nat, fails: nat -> bool): seq<Migration<S>>
    decreases |ms|
  {
    if |ms| == 0 then []
    else
      var (d1, result, n1) := MigrateOne(d, ms[0], previous, n, fails);
      (if |d1.ledger| > |d.ledger| then [ms[0]] else []) +
      if result.Stopped? then [] else Done(d1, ms[1..], ms[0].id, n1, fails)
  }

  lemma {:induction false} ReplayPush<S>(schema: S, ms: seq<Migration<S>>, m: Migration<S>)
    requires Replay(schema, ms).Some? && m.up.Some?
    ensures Replay(schema, ms + [m]) == m.up.value(Replay(schema, ms).value)
  {
    if |ms| == 0 {
      assert [m][1..] == [];
    } else {
      assert (ms + [m])[1..] == ms[1..] + [m];
      ReplayPush(ms[0].up.value(schema).value, ms[1..], m);
    }
  }

  lemma MigrateTraced<S>(d: Database<S>, m: Migration<S>, previous: string, n: nat, fails: nat -> bool, initial: S,
                         done: seq<Migration<S>>)
    requires Traced(d, initial, done)
    ensures var d1 := MigrateOne(d, m, previous, n, fails).0;
      Traced(d1, initial, done + if |d1.ledger| > |d.ledger| then [m] else [])
  {
    var d1 := MigrateOne(d, m, previous, n, fails).0;
    if |d1.ledger| > |d.ledger| {
      ReplayPush(initial, done, m);
      assert Rows(done + [m]) == Rows(done) + [Row(m.id, m.checksum)];
    } else {
      assert done + [] == done;
    }
  }

  lemma {:induction false} AllTraced<S>(d: Database<S>, ms: seq<Migration<S>>, previous: string, changed: bool, n: nat,
                                        fails: nat -> bool, initial: S, done: seq<Migration<S>>)
    requires Traced(d, initial, done)
    ensures Traced(MigrateAll(d, ms, previous, changed, n, fails).0, initial, done + Done(d, ms, previous, n, fails))
    ensures forall m :: m in Done(d, ms, previous, n, fails) ==> m in ms
    decreases |ms|
  {
    if |ms| == 0 {
      assert done + [] == done;
    } else {
      hide MigrateOne, Traced;
      var (d1, result, n1) := MigrateOne(d, ms[0], previous, n, fails);
      var first := if |d1.ledger| > |d.ledger| then [ms[0]] else [];
      MigrateTraced(d, ms[0], previous, n, fails, initial, done);
      if result.Stopped? {
        assert Done(d, ms, previous, n, fails) == first;
      } else {
        AllTraced(d1, ms[1..], ms[0].id, changed || result == Committed, n1, fails, initial, done + first);
        Regroup(done, first, Done(d1, ms[1..], ms[0].id, n1, fails));
      }
    }
  }

  lemma Regroup<T>(a: seq<T>, b: seq<T>, c: seq<T>)
    ensures (a + b) + c == a + (b + c)
  {
  }

  // One start of the server: the list it brings, and what fails.
  datatype Boot<!S> = Boot(list: seq<Migration<S>>, fails: nat -> bool)

  function Boots<S>(d: Database<S>, boots: seq<Boot<S>>): Database<S>
    decreases |boots|
  {
    if |boots| == 0 then d else Boots(Apply(d, boots[0].list, boots[0].fails).0, boots[1..])
  }

  function ApplyDone<S>(d: Database<S>, ms: seq<Migration<S>>, fails: nat -> bool): seq<Migration<S>> {
    if fails(0) || fails(1) then [] else Done(d, ms, "", 2, fails)
  }

  function BootsDone<S>(d: Database<S>, boots: seq<Boot<S>>): seq<Migration<S>>
    decreases |boots|
  {
    if |boots| == 0 then []
    else ApplyDone(d, boots[0].list, boots[0].fails) + BootsDone(Apply(d, boots[0].list, boots[0].fails).0, boots[1..])
  }

  lemma ApplyTraced<S>(d: Database<S>, ms: seq<Migration<S>>, fails: nat -> bool, initial: S, done: seq<Migration<S>>)
    requires Traced(d, initial, done)
    ensures Traced(Apply(d, ms, fails).0, initial, done + ApplyDone(d, ms, fails))
  {
    if fails(0) || fails(1) { assert done + [] == done; } else { AllTraced(d, ms, "", false, 2, fails, initial, done); }
  }

  lemma {:induction false} BootsTraced<S>(d: Database<S>, boots: seq<Boot<S>>, initial: S, done: seq<Migration<S>>)
    requires Traced(d, initial, done)
    ensures Traced(Boots(d, boots), initial, done + BootsDone(d, boots))
    decreases |boots|
  {
    if |boots| == 0 {
      assert done + [] == done;
    } else {
      hide Traced, Apply, ApplyDone;
      var d1, first := Apply(d, boots[0].list, boots[0].fails).0, ApplyDone(d, boots[0].list, boots[0].fails);
      ApplyTraced(d, boots[0].list, boots[0].fails, initial, done);
      BootsTraced(d1, boots[1..], initial, done + first);
      Regroup(done, first, BootsDone(d1, boots[1..]));
    }
  }

  /** Over any number of starts, failing wherever they may: the ledger names the committed migrations, each
      identifier once, and the schema is what running exactly those in that order makes of the first one. */
  lemma SchemaIsLedgered<S>(initial: S, boots: seq<Boot<S>>)
    ensures var d := Database(initial, [], []);
      Traced(Boots(d, boots), initial, BootsDone(d, boots))
  {
    var d: Database<S> := Database(initial, [], []);
    assert Traced(d, initial, []) by { assert Rows<S>([]) == []; }
    BootsTraced(d, boots, initial, []);
    assert [] + BootsDone(d, boots) == BootsDone(d, boots);
  }

  // -------------------------------------------------------------- what success means

  predicate Ledgered<S>(ledger: seq<Row>, m: Migration<S>) { Row(m.id, m.checksum) in ledger }

  lemma MigrateLedgers<S>(d: Database<S>, m: Migration<S>, previous: string, n: nat, fails: nat -> bool)
    ensures var (d1, result, _) := MigrateOne(d, m, previous, n, fails);
      && d.ledger <= d1.ledger && (!result.Stopped? ==> Ledgered(d1.ledger, m))
      && (result != Committed && result != Stopped(AuditFailed) ==> d1.ledger == d.ledger && d1.schema == d.schema)
      && (UniqueIds(d.ledger) ==> UniqueIds(d1.ledger))
  {
    var d1 := MigrateOne(d, m, previous, n, fails).0;
    if |d1.ledger| > |d.ledger| { assert d1.ledger[|d.ledger|] == Row(m.id, m.checksum); }
  }

  lemma {:induction false} AllLedgered<S>(d: Database<S>, ms: seq<Migration<S>>, previous: string, changed: bool, n: nat,
                                          fails: nat -> bool)
    ensures var (d', outcome) := MigrateAll(d, ms, previous, changed, n, fails);
      d.ledger <= d'.ledger && (outcome == Success ==> forall m :: m in ms ==> Ledgered(d'.ledger, m))
    decreases |ms|
  {
    if |ms| == 0 {
    } else {
      var (d1, result, n1) := MigrateOne(d, ms[0], previous, n, fails);
      MigrateLedgers(d, ms[0], previous, n, fails);
      hide MigrateOne;
      if !result.Stopped? {
        AllLedgered(d1, ms[1..], ms[0].id, changed || result == Committed, n1, fails);
        assert ms == [ms[0]] + ms[1..];
      }
    }
  }

  /** A successful start leaves every migration of its list in the ledger with its checksum, and no start
      ever takes or changes a row. */
  lemma SuccessLedgersAll<S>(d: Database<S>, ms: seq<Migration<S>>, fails: nat -> bool)
    ensures var (d', outcome) := Apply(d, ms, fails);
      d.ledger <= d'.ledger && (outcome == Success ==> forall m :: m in ms ==> Ledgered(d'.ledger, m))
  {
    AllLedgered(d, ms, "", false, 2, fails);
  }

  lemma LedgeredRow<S>(ledger: seq<Row>, m: Migration<S>)
    requires UniqueIds(ledger) && Ledgered(ledger, m)
    ensures FindRow(ledger, m.id) < |ledger| && ledger[FindRow(ledger, m.id)].checksum == m.checksum
  {
  }

  lemma {:induction false} AllSkipped<S>(d: Database<S>, ms: seq<Migration<S>>, previous: string, n: nat, fails: nat -> bool)
    requires UniqueIds(d.ledger) && forall m :: m in ms ==> Ledgered(d.ledger, m)
    ensures var (d', outcome) := MigrateAll(d, ms, previous, false, n, fails);
      var last := if |ms| == 0 then previous else ms[|ms| - 1].id;
      && d'.schema == d.schema && d'.ledger == d.ledger
      && (outcome == Success ==> d'.runs == d.runs + if last == "" then [] else [Audit(last, last, Noop)])
      && (outcome == Success && |ms| > 0 ==> last != "")
    decreases |ms|
  {
    if |ms| == 0 {
    } else {
      LedgeredRow(d.ledger, ms[0]);
      AllSkipped(d, ms[1..], ms[0].id, n + 1, fails);
    }
  }

  /** A list that is fully applied changes no schema and no ledger row, whatever fails; when the start
      succeeds it adds one no-op audit row, from the last migration to itself, or none for an empty list. */
  lemma AppliedListIsNoop<S>(d: Database<S>, ms: seq<Migration<S>>, fails: nat -> bool)
    requires UniqueIds(d.ledger) && forall m :: m in ms ==> Ledgered(d.ledger, m)
    ensures var (d', outcome) := Apply(d, ms, fails);
      && d'.schema == d.schema && d'.ledger == d.ledger
      && (outcome == Success && |ms| == 0 ==> d' == d)
      && (outcome == Success && |ms| > 0 ==> d'.runs == d.runs + [Audit(ms[|ms| - 1].id, ms[|ms| - 1].id, Noop)])
  {
    AllSkipped(d, ms, "", 2, fails);
  }

  // What a successful start adds to the audit table: one applied run for every migration
  // that was not in the ledger, from the migration before it in the list.
  function Trail<S>(ledger: seq<Row>, ms: seq<Migration<S>>, previous: string): seq<Audit>
    decreases |ms|
  {
    if |ms| == 0 then []
    else if FindRow(ledger, ms[0].id) < |ledger| then Trail(ledger, ms[1..], ms[0].id)
    else [Audit(previous, ms[0].id, Applied)] + Trail(ledger + [Row(ms[0].id, ms[0].checksum)], ms[1..], ms[0].id)
  }

  lemma {:induction false} AllTrailed<S>(d: Database<S>, ms: seq<Migration<S>>, previous: string, changed: bool, n: nat,
                                         fails: nat -> bool)
    ensures var (d', outcome) := MigrateAll(d, ms, previous, changed, n, fails);
      var last, trail := if |ms| == 0 then previous else ms[|ms| - 1].id, Trail(d.ledger, ms, previous);
      outcome == Success ==>
        d'.runs == d.runs + trail + if changed || trail != [] || last == "" then [] else [Audit(last, last, Noop)]
    decreases |ms|
  {
    if |ms| == 0 {
    } else {
      var (d1, result, n1) := MigrateOne(d, ms[0], previous, n, fails);
      MigrateTrailed(d, ms[0], previous, n, fails);
      hide MigrateOne, FindRow;
      if !result.Stopped? {
        AllTrailed(d1, ms[1..], ms[0].id, changed || result == Committed, n1, fails);
        Regroup(d.runs, [Audit(previous, ms[0].id, Applied)], Trail(d1.ledger, ms[1..], ms[0].id));
      }
    }
  }

  lemma MigrateTrailed<S>(d: Database<S>, m: Migration<S>, previous: string, n: nat, fails: nat -> bool)
    ensures var (d1, result, _) := MigrateOne(d, m, previous, n, fails);
      && (result == Skipped ==> d1 == d && FindRow(d.ledger, m.id) < |d.ledger|)
      && (result == Committed ==>
            && FindRow(d.ledger, m.id) == |d.ledger| && d1.ledger == d.ledger + [Row(m.id, m.checksum)]
            && d1.runs == d.runs + [Audit(previous, m.id, Applied)])
  {
  }

  /** A successful start leaves exactly that trail, and a no-op row instead when it applied nothing. */
  lemma SuccessTrail<S>(d: Database<S>, ms: seq<Migration<S>>, fails: nat -> bool)
    ensures var (d', outcome), trail := Apply(d, ms, fails), Trail(d.ledger, ms, "");
      outcome == Success && |ms| > 0 ==>
        d'.runs == d.runs + if trail == [] then [Audit(ms[|ms| - 1].id, ms[|ms| - 1].id, Noop)] else trail
  {
    hide MigrateAll, Trail;
    AllTrailed(d, ms, "", false, 2, fails);
    if Apply(d, ms, fails).1 == Success && |ms| > 0 {
      ListValid(d, ms, "", false, 2, fails);
      assert Valid(ms[|ms| - 1]);
    }
  }

  lemma {:induction false} ListValid<S>(d: Database<S>, ms: seq<Migration<S>>, previous: string, changed: bool, n: nat,
                                        fails: nat -> bool)
    requires MigrateAll(d, ms, previous, changed, n, fails).1 == Success
    ensures forall m :: m in ms ==> Valid(m)
    decreases |ms|
  {
    if |ms| == 0 {
    } else {
      var (d1, result, n1) := MigrateOne(d, ms[0], previous, n, fails);
      assert Valid(ms[0]) && ms == [ms[0]] + ms[1..];
      hide MigrateOne, Valid;
      ListValid(d1, ms[1..], ms[0].id, changed || result == Committed, n1, fails);
    }
  }

  // --------------------------------------------------------------- checksum conflicts

  lemma {:induction false} ConflictStops<S>(d: Database<S>, ms: seq<Migration<S>>, i: nat, previous: string, changed: bool,
                                            n: nat, fails: nat -> bool)
    requires UniqueIds(d.ledger) && i < |ms|
    requires exists row :: row in d.ledger && row.id == ms[i].id && row.checksum != ms[i].checksum
    ensures var (d', outcome) := MigrateAll(d, ms, previous, changed, n, fails);
      var before := MigrateAll(d, ms[..i], previous, changed, n, fails).0;
      outcome != Success && d'.schema == before.schema && d'.ledger == before.ledger
    decreases |ms|
  {
    var (d1, result, n1) := MigrateOne(d, ms[0], previous, n, fails);
    MigrateLedgers(d, ms[0], previous, n, fails);
    var row :| row in d.ledger && row.id == ms[i].id && row.checksum != ms[i].checksum;
    if i == 0 {
      assert result.Stopped? && d1.ledger == d.ledger && d1.schema == d.schema;
    } else if !result.Stopped? {
      assert row in d1.ledger;
      assert ms[..i][0] == ms[0] && ms[..i][1..] == ms[1..][..i - 1];
      hide MigrateOne, FindRow;
      ConflictStops(d1, ms[1..], i - 1, ms[0].id, changed || result == Committed, n1, fails);
    } else {
      assert ms[..i][0] == ms[0];
    }
  }

  /** If the ledger holds another checksum for the i-th migration of the list, the start fails, and schema and
      ledger are those of applying the migrations before it: nothing from it on has run. */
  lemma ChecksumConflict<S>(d: Database<S>, ms: seq<Migration<S>>, i: nat, fails: nat -> bool)
    requires UniqueIds(d.ledger) && i < |ms|
    requires exists row :: row in d.ledger && row.id == ms[i].id && row.checksum != ms[i].checksum
    ensures var (d', outcome), before := Apply(d, ms, fails), Apply(d, ms[..i], fails).0;
      outcome != Success && d'.schema == before.schema && d'.ledger == before.ledger
  {
    ConflictStops(d, ms, i, "", false, 2, fails);
  }

  // ------------------------------------------------- which starts succeed, and which error

  predicate Ledgers(ledger: seq<Row>, id: string) { exists i :: 0 <= i < |ledger| && ledger[i].id == id }

  // The ledger, or an earlier migration of the list, has another checksum for its identifier.
  predicate Clashes<S>(ledger: seq<Row>, ms: seq<Migration<S>>, k: nat)
    requires k < |ms|
  {
    || (exists i :: 0 <= i < |ledger| && ledger[i].id == ms[k].id && ledger[i].checksum != ms[k].checksum)
    || (exists j :: 0 <= j < k && ms[j].id == ms[k].id && ms[j].checksum != ms[k].checksum)
  }

  // The migrations of the list that are still to run: each identifier the first time it comes,
  // unless it is ledgered.
  function Pending<S>(ledger: seq<Row>, ms: seq<Migration<S>>): seq<Migration<S>>
    decreases |ms|
  {
    if |ms| == 0 then []
    else if Ledgers(ledger, ms[0].id) then Pending(ledger, ms[1..])
    else [ms[0]] + Pending(ledger + [Row(ms[0].id, ms[0].checksum)], ms[1..])
  }

  // Every migration is valid, none clashes, and those still to run can be run one after the other.
  predicate Sound<S(==)>(d: Database<S>, ms: seq<Migration<S>>) {
    && (forall k :: 0 <= k < |ms| ==> Valid(ms[k]))
    && (forall k :: 0 <= k < |ms| ==> !Clashes(d.ledger, ms, k))
    && Replay(d.schema, Pending(d.ledger, ms)).Some?
  }

  lemma FindLedgered(ledger: seq<Row>, id: string)
    ensures FindRow(ledger, id) < |ledger| <==> Ledgers(ledger, id)
  {
  }

  // The first migration of a list clashes when its row says something else.
  lemma {:induction false} FirstClash<S>(ledger: seq<Row>, ms: seq<Migration<S>>)
    requires UniqueIds(ledger) && |ms| > 0
    ensures var i := FindRow(ledger, ms[0].id);
      Clashes(ledger, ms, 0) <==> i < |ledger| && ledger[i].checksum != ms[0].checksum
  {
  }

  // The rest clashes as before: with the ledger, and with the first if that is in it.
  lemma {:induction false} RestClashes<S>(ledger: seq<Row>, ms: seq<Migration<S>>, k: nat)
    requires 0 < k < |ms| && !Clashes(ledger, ms, 0)
    ensures Ledgers(ledger, ms[0].id) ==> (Clashes(ledger, ms[1..], k - 1) <==> Clashes(ledger, ms, k))
    ensures Clashes(ledger + [Row(ms[0].id, ms[0].checksum)], ms[1..], k - 1) <==> Clashes(ledger, ms, k)
  {
    var rest, longer := ms[1..], ledger + [Row(ms[0].id, ms[0].checksum)];
    assert rest[k - 1] == ms[k] && forall j :: 0 <= j < k - 1 ==> rest[j] == ms[j + 1];
    assert longer[|ledger|] == Row(ms[0].id, ms[0].checksum) && forall i :: 0 <= i < |ledger| ==> longer[i] == ledger[i];
    if Clashes(ledger, ms, k) {
      if j :| 0 <= j < k && ms[j].id == ms[k].id && ms[j].checksum != ms[k].checksum {
        if j > 0 { assert rest[j - 1] == ms[j]; }
      }
    }
  }

  // What is left after the first migration of the list.
  function Onward<S>(d: Database<S>, m: Migration<S>): Database<S>
    requires Ledgers(d.ledger, m.id) || (m.up.Some? && m.up.value(d.schema).Some?)
  {
    if Ledgers(d.ledger, m.id) then d
    else d.(schema := m.up.value(d.schema).value, ledger := d.ledger + [Row(m.id, m.checksum)])
  }

  lemma {:induction false} SoundStep<S>(d: Database<S>, ms: seq<Migration<S>>)
    requires |ms| > 0
    ensures Sound(d, ms) <==>
      && Valid(ms[0]) && !Clashes(d.ledger, ms, 0)
      && (Ledgers(d.ledger, ms[0].id) || ms[0].up.value(d.schema).Some?)
      && Sound(Onward(d, ms[0]), ms[1..])
  {
    if Valid(ms[0]) && !Clashes(d.ledger, ms, 0) && (Ledgers(d.ledger, ms[0].id) || ms[0].up.value(d.schema).Some?) {
      var d1, rest := Onward(d, ms[0]), ms[1..];
      forall k | 0 < k < |ms| ensures Clashes(d1.ledger, rest, k - 1) <==> Clashes(d.ledger, ms, k) {
        RestClashes(d.ledger, ms, k);
      }
      hide Clashes;
      assert (forall k :: 0 <= k < |rest| ==> !Clashes(d1.ledger, rest, k)) <==>
             (forall k :: 0 < k < |ms| ==> !Clashes(d.ledger, ms, k)) by {
        assert forall k :: 0 <= k < |rest| ==> (Clashes(d1.ledger, rest, k) <==> Clashes(d.ledger, ms, k + 1));
      }
      assert forall k :: 0 <= k < |rest| ==> rest[k] == ms[k + 1];
      PendingStep(d, ms);
    }
  }

  lemma {:induction false} PendingStep<S>(d: Database<S>, ms: seq<Migration<S>>)
    requires |ms| > 0 && ms[0].up.Some? && (Ledgers(d.ledger, ms[0].id) || ms[0].up.value(d.schema).Some?)
    ensures var d1 := Onward(d, ms[0]);
      Replay(d.schema, Pending(d.ledger, ms)) == Replay(d1.schema, Pending(d1.ledger, ms[1..]))
  {
    if !Ledgers(d.ledger, ms[0].id) {
      var rest := Pending(Onward(d, ms[0]).ledger, ms[1..]);
      assert ([ms[0]] + rest)[1..] == rest;
    }
  }

  ghost predicate NothingFails(fails: nat -> bool) { forall n :: !fails(n) }

  // One migration when no operation fails.
  lemma {:induction false} OneStep<S>(d: Database<S>, ms: seq<Migration<S>>, previous: string, n: nat, fails: nat -> bool)
    requires NothingFails(fails) && UniqueIds(d.ledger) && |ms| > 0
    ensures var (d1, result, n1) := MigrateOne(d, ms[0], previous, n, fails);
      if !Valid(ms[0]) then result == Stopped(MigrationInvalid)
      else if Clashes(d.ledger, ms, 0) then result == Stopped(ChecksumMismatch)
      else if Ledgers(d.ledger, ms[0].id) then result == Skipped && d1 == d
      else if ms[0].up.value(d.schema).None? then result == Stopped(UpFailed)
      else result == Committed && UniqueIds(d1.ledger)
           && d1.schema == Onward(d, ms[0]).schema && d1.ledger == Onward(d, ms[0]).ledger
  {
    FindLedgered(d.ledger, ms[0].id);
    FirstClash(d.ledger, ms);
    hide Clashes, Blank;
  }

  lemma SoundAlike<S>(d: Database<S>, d': Database<S>, ms: seq<Migration<S>>)
    requires d'.schema == d.schema && d'.ledger == d.ledger
    ensures Sound(d', ms) == Sound(d, ms)
  {
  }

  lemma {:induction false} AllSound<S>(d: Database<S>, ms: seq<Migration<S>>, previous: string, changed: bool, n: nat,
                                       fails: nat -> bool)
    requires NothingFails(fails) && UniqueIds(d.ledger)
    ensures var (d', outcome) := MigrateAll(d, ms, previous, changed, n, fails);
      && (outcome == Success <==> Sound(d, ms))
      && (outcome == Success ==> d'.ledger == d.ledger + Rows(Pending(d.ledger, ms))
                                 && Some(d'.schema) == Replay(d.schema, Pending(d.ledger, ms)))
    decreases |ms|
  {
    if |ms| == 0 {
      assert d.ledger + [] == d.ledger;
    } else {
      hide MigrateOne, Valid, Clashes, Sound, UniqueIds;
      var (d1, result, n1) := MigrateOne(d, ms[0], previous, n, fails);
      OneStep(d, ms, previous, n, fails);
      SoundStep(d, ms);
      if !result.Stopped? {
        ValidUp(ms[0]);
        AllSound(d1, ms[1..], ms[0].id, changed || result == Committed, n1, fails);
        SoundAlike(Onward(d, ms[0]), d1, ms[1..]);
        PendingStep(d, ms);
        PendingRows(d.ledger, ms);
      }
    }
  }

  lemma ValidUp<S>(m: Migration<S>)
    requires Valid(m)
    ensures m.up.Some?
  {
  }

  lemma {:induction false} PendingRows<S>(ledger: seq<Row>, ms: seq<Migration<S>>)
    requires |ms| > 0
    ensures var longer := if Ledgers(ledger, ms[0].id) then ledger else ledger + [Row(ms[0].id, ms[0].checksum)];
      ledger + Rows(Pending(ledger, ms)) == longer + Rows(Pending(longer, ms[1..]))
  {
    if !Ledgers(ledger, ms[0].id) {
      var row, rest := Row(ms[0].id, ms[0].checksum), Pending(ledger + [Row(ms[0].id, ms[0].checksum)], ms[1..]);
      assert Rows([ms[0]] + rest) == [row] + Rows(rest);
      assert ledger + ([row] + Rows(rest)) == ledger + [row] + Rows(rest);
    }
  }

  /** When no operation fails, a start succeeds exactly when every migration of its list is valid, none has
      another checksum in the ledger or earlier in the list, and those not yet ledgered can be run one after
      the other.  It then has run and ledgered exactly those, in order. */
  lemma SuccessExact<S>(d: Database<S>, ms: seq<Migration<S>>, fails: nat -> bool)
    requires NothingFails(fails) && UniqueIds(d.ledger)
    ensures var (d', outcome) := Apply(d, ms, fails);
      && (outcome == Success <==> Sound(d, ms))
      && (outcome == Success ==> d'.ledger == d.ledger + Rows(Pending(d.ledger, ms))
                                 && Some(d'.schema) == Replay(d.schema, Pending(d.ledger, ms)))
  {
    AllSound(d, ms, "", false, 2, fails);
  }

  // ---------------------------------------------------- what the first obstacle answers

  // Where a start stands when it has come to the k-th migration.
  function Reached<S>(d: Database<S>, ms: seq<Migration<S>>): Database<S>
    requires Replay(d.schema, Pending(d.ledger, ms)).Some?
  {
    d.(schema := Replay(d.schema, Pending(d.ledger, ms)).value, ledger := d.ledger + Rows(Pending(d.ledger, ms)))
  }

  // The error of a migration that is an obstacle in this database.
  function Obstacle<S>(d: Database<S>, m: Migration<S>): Option<Error> {
    if !Valid(m) then Some(MigrationInvalid)
    else if exists i :: 0 <= i < |d.ledger| && d.ledger[i].id == m.id && d.ledger[i].checksum != m.checksum
    then Some(ChecksumMismatch)
    else if !Ledgers(d.ledger, m.id) && m.up.value(d.schema).None? then Some(UpFailed)
    else None
  }

  lemma {:induction false} OneObstacle<S>(d: Database<S>, ms: seq<Migration<S>>, previous: string, n: nat, fails: nat -> bool)
    requires NothingFails(fails) && UniqueIds(d.ledger) && |ms| > 0 && Obstacle(d, ms[0]).Some?
    ensures var (d1, result, n1) := MigrateOne(d, ms[0], previous, n, fails);
      result == Stopped(Obstacle(d, ms[0]).value) && d1.schema == d.schema && d1.ledger == d.ledger
  {
    OneStep(d, ms, previous, n, fails);
    assert Clashes(d.ledger, ms, 0) <==> exists i :: 0 <= i < |d.ledger| && d.ledger[i].id == ms[0].id
                                                     && d.ledger[i].checksum != ms[0].checksum;
    MigrateLedgers(d, ms[0], previous, n, fails);
    hide Clashes, MigrateOne, FindRow, Valid;
  }

  lemma {:induction false} AllObstacle<S>(d: Database<S>, ms: seq<Migration<S>>, k: nat, previous: string, changed: bool,
                                          n: nat, fails: nat -> bool)
    requires NothingFails(fails) && UniqueIds(d.ledger) && k < |ms| && Sound(d, ms[..k])
    requires Obstacle(Reached(d, ms[..k]), ms[k]).Some?
    ensures var (d', outcome) := MigrateAll(d, ms, previous, changed, n, fails);
      var before := Reached(d, ms[..k]);
      outcome == Failure(Obstacle(before, ms[k]).value) && d'.schema == before.schema && d'.ledger == before.ledger
    decreases |ms|
  {
    hide MigrateOne, Valid, Clashes, Sound, UniqueIds, Obstacle;
    var (d1, result, n1) := MigrateOne(d, ms[0], previous, n, fails);
    var first := ms[..k];
    if k == 0 {
      assert Rows(Pending(d.ledger, first)) == [] && d.ledger + [] == d.ledger;
      assert Reached(d, first) == d;
      OneObstacle(d, ms, previous, n, fails);
    } else {
      assert first[0] == ms[0] && first[1..] == ms[1..][..k - 1] && ms[k] == ms[1..][k - 1];
      SoundStep(d, first);
      OneStep(d, ms, previous, n, fails);
      FirstAlike(d.ledger, ms, first);
      ValidUp(ms[0]);
      PendingStep(d, first);
      PendingRows(d.ledger, first);
      SoundAlike(Onward(d, ms[0]), d1, first[1..]);
      SoundRuns(d, first);
      SoundRuns(d1, first[1..]);
      assert Reached(d1, first[1..]).schema == Reached(d, first).schema;
      assert Reached(d1, first[1..]).ledger == Reached(d, first).ledger;
      ObstacleAlike(Reached(d1, first[1..]), Reached(d, first), ms[k]);
      AllObstacle(d1, ms[1..], k - 1, ms[0].id, changed || result == Committed, n1, fails);
    }
  }

  lemma {:induction false} SoundRuns<S>(d: Database<S>, ms: seq<Migration<S>>)
    requires Sound(d, ms)
    ensures Replay(d.schema, Pending(d.ledger, ms)).Some?
  {
  }

  lemma {:induction false} FirstAlike<S>(ledger: seq<Row>, ms: seq<Migration<S>>, ms': seq<Migration<S>>)
    requires |ms| > 0 && |ms'| > 0 && ms'[0] == ms[0]
    ensures Clashes(ledger, ms', 0) <==> Clashes(ledger, ms, 0)
  {
  }

  lemma {:induction false} ObstacleAlike<S>(d: Database<S>, d': Database<S>, m: Migration<S>)
    requires d'.schema == d.schema && d'.ledger == d.ledger
    ensures Obstacle(d', m) == Obstacle(d, m)
  {
  }

  /** The first obstacle decides: when no operation fails and the migrations before the k-th can all be
      applied, but that one is invalid, has another checksum, or does not run, the start fails with just
      that error, with the ones before it applied and nothing else. */
  lemma {:induction false} FirstObstacle<S>(d: Database<S>, ms: seq<Migration<S>>, k: nat, fails: nat -> bool)
    requires NothingFails(fails) && UniqueIds(d.ledger) && k < |ms| && Sound(d, ms[..k])
    requires Obstacle(Reached(d, ms[..k]), ms[k]).Some?
    ensures var (d', outcome), before := Apply(d, ms, fails), Reached(d, ms[..k]);
      outcome == Failure(Obstacle(before, ms[k]).value) && d'.schema == before.schema && d'.ledger == before.ledger
  {
    AllObstacle(d, ms, k, "", false, 2, fails);
  }

  // ----------------------------------------------------------------- a second start

  lemma {:induction false} LedgeredSound<S>(d: Database<S>, ms: seq<Migration<S>>)
    requires UniqueIds(d.ledger) && (forall m :: m in ms ==> Ledgered(d.ledger, m) && Valid(m))
    ensures Sound(d, ms)
    decreases |ms|
  {
    if |ms| == 0 {
    } else {
      assert ms[0] in ms && forall m :: m in ms[1..] ==> m in ms;
      LedgeredSound(d, ms[1..]);
      LedgeredRow(d.ledger, ms[0]);
      FindLedgered(d.ledger, ms[0].id);
      FirstClash(d.ledger, ms);
      SoundStep(d, ms);
    }
  }

  /** A server can be started again: after a start that succeeded, whatever failed before it, one with the same
      list succeeds when nothing fails, changes no schema and no ledger row, and leaves one no-op audit row. */
  lemma {:induction false} SecondStart<S>(d: Database<S>, ms: seq<Migration<S>>, first: nat -> bool, fails: nat -> bool)
    requires UniqueIds(d.ledger) && NothingFails(fails) && Apply(d, ms, first).1 == Success
    ensures var d1 := Apply(d, ms, first).0;
      var (d2, outcome) := Apply(d1, ms, fails);
      && outcome == Success && d2.schema == d1.schema && d2.ledger == d1.ledger
      && d2.runs == d1.runs + if |ms| == 0 then [] else [Audit(ms[|ms| - 1].id, ms[|ms| - 1].id, Noop)]
  {
    var d1 := Apply(d, ms, first).0;
    SuccessLedgersAll(d, ms, first);
    ListValid(d, ms, "", false, 2, first);
    StillUnique(d, ms, "", false, 2, first);
    hide Apply, Sound, UniqueIds, Valid, Ledgered;
    LedgeredSound(d1, ms);
    SuccessExact(d1, ms, fails);
    AppliedListIsNoop(d1, ms, fails);
    assert d1.runs + [] == d1.runs;
  }

  lemma {:induction false} StillUnique<S>(d: Database<S>, ms: seq<Migration<S>>, previous: string, changed: bool, n: nat,
                                          fails: nat -> bool)
    requires UniqueIds(d.ledger)
    ensures UniqueIds(MigrateAll(d, ms, previous, changed, n, fails).0.ledger)
    decreases |ms|
  {
    if |ms| == 0 {
    } else {
      var (d1, result, n1) := MigrateOne(d, ms[0], previous, n, fails);
      MigrateLedgers(d, ms[0], previous, n, fails);
      hide MigrateOne, UniqueIds;
      if !result.Stopped? { StillUnique(d1, ms[1..], ms[0].id, changed || result == Committed, n1, fails); }
    }
  }

  // ------------------------------------------------------------- what a failed run leaves

  // The run of one migration: its transaction fails at one of its operations, or Up does.
  predicate TransactionFails<S>(d: Database<S>, m: Migration<S>, n: nat, fails: nat -> bool)
    requires Valid(m)
  {
    fails(n) || fails(n + 1) || m.up.value(d.schema).None? || fails(n + 2) || fails(n + 3)
  }

  /** A migration that is run leaves one audit row: applied, with schema and ledger moved on, when its
      transaction goes through; failed, with both as they were, when it does not; and still running if the
      end cannot be written.  It is committed exactly when the transaction goes through and the end is written. */
  lemma {:induction false} RunTrail<S>(d: Database<S>, m: Migration<S>, previous: string, n: nat, fails: nat -> bool)
    requires Valid(m) && !Ledgers(d.ledger, m.id) && !fails(n) && !fails(n + 1)
    ensures var (d1, result, n1) := MigrateOne(d, m, previous, n, fails);
      var bad := TransactionFails(d, m, n + 2, fails);
      && d1.runs == d.runs + [Audit(previous, m.id, if fails(n1 - 1) then Running else if bad then Failed else Applied)]
      && (bad ==> result.Stopped? && d1.schema == d.schema && d1.ledger == d.ledger)
      && (!bad ==> d1.schema == m.up.value(d.schema).value && d1.ledger == d.ledger + [Row(m.id, m.checksum)])
      && (result == Committed <==> !bad && !fails(n1 - 1))
      && (result == Stopped(UpFailed) <==> !fails(n + 2) && (fails(n + 3) || m.up.value(d.schema).None?))
  {
    FindLedgered(d.ledger, m.id);
    hide Ledgers, Valid;
  }
}
