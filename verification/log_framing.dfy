/**
  The writer that turns container output into server-sent events: it buffers bytes,
  emits one data frame per line, and lets named events interrupt the stream.  A byte is a
  `char`; whether the connection takes a frame is decided per frame identifier, so any
  pattern of failing writes is covered.
 */
module LogFraming {

  const PENDING_LIMIT: nat := 0x2_0000
  const PIECE: nat := 0x1_0000
  const HISTORY_LIMIT: nat := 256

  datatype Frame = Data(id: nat, data: string) | Named(id: nat, name: string, data: string)

  datatype State = State(pending: string, nextId: nat, frames: seq<Frame>, history: seq<Frame>)

  datatype Result = Written | Failed | Backlog

  // -------------------------------------------------------------------------- bytes

  // Position of the first line feed, or the length.
  function IndexOf(s: string): (i: nat)
    ensures i <= |s| && (i < |s| ==> s[i] == '\n') && forall j :: 0 <= j < i ==> s[j] != '\n'
  {
    if |s| == 0 || s[0] == '\n' then 0 else 1 + IndexOf(s[1..])
  }

  function Without(s: string, drop: set<char>): (r: string)
    ensures forall c :: c in r ==> c in s && c !in drop
  {
    if |s| == 0 then [] else (if s[0] in drop then [] else [s[0]]) + Without(s[1..], drop)
  }

  // The bytes a reader is shown: everything but carriage returns and line feeds.
  function Clean(s: string): string { Without(s, {'\r', '\n'}) }

  function LastN<T>(xs: seq<T>, n: nat): seq<T> {
    if |xs| <= n then xs else xs[|xs| - n..]
  }

  // ---------------------------------------------------------------------- the steps

  // The identifier is used up even when the connection does not take the frame.
  function Send(s: State, f: Frame, fails: nat -> bool): (State, Result) {
    if fails(f.id) then (s.(nextId := f.id), Failed)
    else (s.(nextId := f.id, frames := s.frames + [f], history := LastN(s.history + [f], HISTORY_LIMIT)), Written)
  }

  function SendLine(s: State, line: string, fails: nat -> bool): (State, Result) {
    Send(s, Data(s.nextId + 1, Without(line, {'\r'})), fails)
  }

  function Chomp(line: string): string {
    if |line| > 0 && line[|line| - 1] == '\r' then line[..|line| - 1] else line
  }

  // There is a complete line, or more than 64 KiB without one.
  predicate Due(pending: string) { IndexOf(pending) < |pending| || |pending| > PIECE }

  function FirstLine(pending: string): string
    requires Due(pending)
  {
    var i := IndexOf(pending);
    if i == |pending| then pending[..PIECE] else Chomp(pending[..i])
  }

  function Rest(pending: string): (rest: string)
    requires Due(pending)
    ensures |rest| < |pending|
  {
    var i := IndexOf(pending);
    if i == |pending| then pending[PIECE..] else pending[i + 1..]
  }

  // Emits what is due, line by line; what a failed frame was cut from stays pending.
  function Drain(s: State, fails: nat -> bool): (State, Result)
    decreases |s.pending|
  {
    if !Due(s.pending) then (s, Written)
    else
      var (s1, r) := SendLine(s, FirstLine(s.pending), fails);
      if r == Failed then (s1, r) else Drain(s1.(pending := Rest(s.pending)), fails)
  }

  datatype Op = Write(payload: string) | Flush | Event(name: string, value: string)

  predicate Overflows(s: State, payload: string) {
    |payload| > PENDING_LIMIT || |s.pending| + |payload| > PENDING_LIMIT
  }

  // The pending bytes are given up before their frame is sent.
  function FlushStep(s: State, fails: nat -> bool): (State, Result) {
    if s.pending == [] then (s, Written) else SendLine(s.(pending := []), s.pending, fails)
  }

  function Step(s: State, op: Op, fails: nat -> bool): (State, Result) {
    match op
    case Write(payload) =>
      if Overflows(s, payload) then (s, Backlog) else Drain(s.(pending := s.pending + payload), fails)
    case Flush => FlushStep(s, fails)
    case Event(name, value) =>
      var (s1, r) := FlushStep(s, fails);
      if r == Failed then (s1, r) else Send(s1, Named(s1.nextId + 1, name, value), fails)
  }

  function Run(s: State, ops: seq<Op>, fails: nat -> bool): State
    decreases |ops|
  {
    if |ops| == 0 then s else Run(Step(s, ops[0], fails).0, ops[1..], fails)
  }

  // ---------------------------------------------------------------------- the writer

  class Writer {
    const fails: nat -> bool
    var pending: string
    var nextId: nat
    var frames: seq<Frame>
    var history: seq<Frame>

    constructor (resumeId: nat, fails: nat -> bool)
      ensures View() == State([], resumeId, [], []) && this.fails == fails
    {
      this.fails, pending, nextId, frames, history := fails, [], resumeId, [], [];
    }

    function View(): State
      reads this
    {
      State(pending, nextId, frames, history)
    }

    method Emit(f: Frame) returns (r: Result)
      modifies this
      ensures (View(), r) == Send(old(View()), f, fails)
    {
      nextId := f.id;
      if fails(f.id) { return Failed; }
      frames := frames + [f];
      history := history + [f];
      if |history| > HISTORY_LIMIT { history := history[|history| - HISTORY_LIMIT..]; }
      r := Written;
    }

    method EmitLine(line: string) returns (r: Result)
      modifies this
      ensures (View(), r) == SendLine(old(View()), line, fails)
    {
      r := Emit(Data(nextId + 1, Without(line, {'\r'})));
    }

    method Write(payload: string) returns (r: Result)
      modifies this
      ensures (View(), r) == Step(old(View()), Op.Write(payload), fails)
    {
      if Overflows(View(), payload) { return Backlog; }
      pending := pending + payload;
      ghost var goal := Drain(View(), fails);
      while true
        invariant Drain(View(), fails) == goal
        decreases |pending|
      {
        var index := IndexOf(pending);
        if index == |pending| {
          if |pending| <= PIECE { return Written; }
          var sent := EmitLine(pending[..PIECE]);
          if sent == Failed { return Failed; }
          pending := pending[PIECE..];
        } else {
          var line := pending[..index];
          if |line| > 0 && line[|line| - 1] == '\r' { line := line[..|line| - 1]; }
          var sent := EmitLine(line);
          if sent == Failed { return Failed; }
          pending := pending[index + 1..];
        }
      }
    }

    method FlushPending() returns (r: Result)
      modifies this
      ensures (View(), r) == FlushStep(old(View()), fails)
    {
      if |pending| == 0 { return Written; }
      var line := pending;
      pending := [];
      r := EmitLine(line);
    }

    method Event(name: string, value: string) returns (r: Result)
      modifies this
      ensures (View(), r) == Step(old(View()), Op.Event(name, value), fails)
    {
      r := FlushPending();
      if r == Failed { return; }
      r := Emit(Named(nextId + 1, name, value));
    }
  }

  // --------------------------------------------------------------------- nothing is lost

  lemma {:induction false} WithoutJoin(a: string, b: string, drop: set<char>)
    ensures Without(a + b, drop) == Without(a, drop) + Without(b, drop)
  {
    if a == [] {
      assert a + b == b;
    } else {
      assert (a + b)[1..] == a[1..] + b;
      WithoutJoin(a[1..], b, drop);
    }
  }

  lemma {:induction false} CleanWithout(s: string)
    ensures Clean(Without(s, {'\r'})) == Clean(s)
  {
    if |s| == 0 {
    } else {
      WithoutJoin(if s[0] == '\r' then [] else [s[0]], Without(s[1..], {'\r'}), {'\r', '\n'});
      CleanWithout(s[1..]);
    }
  }

  lemma CleanChomp(line: string)
    ensures Clean(Chomp(line)) == Clean(line)
  {
    if Chomp(line) != line {
      CleanJoin(Chomp(line), ['\r']);
      CleanReturn();
      hide Clean;
      assert line == Chomp(line) + ['\r'];
      assert Clean(Chomp(line)) + [] == Clean(Chomp(line));
    }
  }

  lemma CleanReturn()
    ensures Clean(['\r']) == []
  {
  }

  // What the data frames show, in order.
  function Shown(fs: seq<Frame>): string {
    if |fs| == 0 then []
    else Shown(fs[..|fs| - 1]) + (if fs[|fs| - 1].Data? then Clean(fs[|fs| - 1].data) else [])
  }

  // Shown and still pending bytes together.
  function Held(s: State): string { Shown(s.frames) + Clean(s.pending) }

  // The input taken in: what a refused write carried never enters.
  function TakenIn(s: State, op: Op): string {
    if op.Write? && !Overflows(s, op.payload) then op.payload else []
  }

  lemma SentShown(s: State, line: string, fails: nat -> bool)
    ensures var (s', r) := SendLine(s, line, fails);
      s'.pending == s.pending && Shown(s'.frames) == Shown(s.frames) + if r == Failed then [] else Clean(line)
  {
    CleanWithout(line);
    var f := Data(s.nextId + 1, Without(line, {'\r'}));
    assert (s.frames + [f])[..|s.frames|] == s.frames;
  }

  lemma CutHeld(pending: string)
    requires Due(pending)
    ensures Clean(pending) == Clean(FirstLine(pending)) + Clean(Rest(pending))
  {
    hide Clean, IndexOf, Chomp;
    var i := IndexOf(pending);
    if i == |pending| {
      CleanJoin(pending[..PIECE], pending[PIECE..]);
      assert pending == pending[..PIECE] + pending[PIECE..];
    } else {
      CleanChomp(pending[..i]);
      CleanBreak(pending[i + 1..]);
      CleanJoin(pending[..i], ['\n'] + pending[i + 1..]);
      assert pending == pending[..i] + (['\n'] + pending[i + 1..]);
    }
  }

  lemma CleanBreak(rest: string)
    ensures Clean(['\n'] + rest) == Clean(rest)
  {
  }

  lemma {:induction false} DrainHeld(s: State, fails: nat -> bool)
    ensures Held(Drain(s, fails).0) == Held(s)
    decreases |s.pending|
  {
    hide Clean, Due, FirstLine, Rest, SendLine, Shown;
    if !Due(s.pending) {
    } else {
      var (s1, r) := SendLine(s, FirstLine(s.pending), fails);
      SentShown(s, FirstLine(s.pending), fails);
      CutHeld(s.pending);
      if r != Failed { DrainHeld(s1.(pending := Rest(s.pending)), fails); }
    }
  }

  // The one way to lose bytes: they were given up for a frame the connection did not take.
  predicate Drops(s: State, op: Op, fails: nat -> bool) {
    !op.Write? && Clean(s.pending) != [] && fails(s.nextId + 1)
  }

  /** Whatever is refused or fails, a step neither loses, repeats nor reorders a byte, exactly unless it
      flushes pending bytes into a frame that is not taken. */
  lemma StepHeld(s: State, op: Op, fails: nat -> bool)
    ensures Held(Step(s, op, fails).0) == Held(s) + Clean(TakenIn(s, op)) <==> !Drops(s, op, fails)
  {
    hide Clean, FlushStep, Shown, Send, Drain, Overflows;
    CleanEmpty();
    match op
    case Write(payload) =>
      if !Overflows(s, payload) { WriteHeld(s, payload, fails); }
    case Flush =>
      FlushHeld(s, fails);
      Lost(Shown(s.frames), Clean(s.pending));
    case Event(name, value) =>
      FlushHeld(s, fails);
      Lost(Shown(s.frames), Clean(s.pending));
      var s1 := FlushStep(s, fails).0;
      NamedHeld(s1, Named(s1.nextId + 1, name, value), fails);
  }

  lemma WriteHeld(s: State, payload: string, fails: nat -> bool)
    ensures Held(Drain(s.(pending := s.pending + payload), fails).0) == Held(s) + Clean(payload)
  {
    hide Clean, Drain, Shown;
    CleanJoin(s.pending, payload);
    DrainHeld(s.(pending := s.pending + payload), fails);
  }

  lemma Lost(shown: string, pending: string)
    ensures shown == shown + pending <==> pending == []
    ensures shown + pending + [] == shown + pending
  {
    assert |shown + pending| == |shown| + |pending|;
  }

  lemma NamedHeld(s: State, f: Frame, fails: nat -> bool)
    requires f.Named?
    ensures Held(Send(s, f, fails).0) == Held(s)
  {
    assert (s.frames + [f])[..|s.frames|] == s.frames;
    hide Clean;
  }

  lemma FlushHeld(s: State, fails: nat -> bool)
    ensures var (s', r) := FlushStep(s, fails);
      && (r == Failed <==> s.pending != [] && fails(s.nextId + 1))
      && Held(s') == if r == Failed then Shown(s.frames) else Held(s)
  {
    hide Clean, Shown;
    SentShown(s.(pending := []), s.pending, fails);
    CleanEmpty();
  }

  lemma CleanEmpty()
    ensures Clean([]) == []
  {
  }

  function AllTaken(s: State, ops: seq<Op>, fails: nat -> bool): string
    decreases |ops|
  {
    if |ops| == 0 then [] else TakenIn(s, ops[0]) + AllTaken(Step(s, ops[0], fails).0, ops[1..], fails)
  }

  predicate NoDrops(s: State, ops: seq<Op>, fails: nat -> bool)
    decreases |ops|
  {
    |ops| > 0 ==> !Drops(s, ops[0], fails) && NoDrops(Step(s, ops[0], fails).0, ops[1..], fails)
  }

  lemma StepBound(s: State, op: Op, fails: nat -> bool)
    ensures |Held(Step(s, op, fails).0)| <= |Held(s)| + |Clean(TakenIn(s, op))|
    ensures Drops(s, op, fails) ==> |Held(Step(s, op, fails).0)| < |Held(s)| + |Clean(TakenIn(s, op))|
  {
    StepHeld(s, op, fails);
    hide Clean, FlushStep, Shown, Send, Drain;
    if Drops(s, op, fails) {
      CleanEmpty();
      FlushHeld(s, fails);
      assert Step(s, op, fails).0 == FlushStep(s, fails).0;
    }
  }

  /** For every way of splitting the input into writes and interleaving events and flushes: what was
      shown plus what is pending is the input without its carriage returns and line feeds, exactly when
      no bytes are given up for a frame that is not taken. */
  lemma {:induction false} NothingLost(s: State, ops: seq<Op>, fails: nat -> bool)
    ensures Held(Run(s, ops, fails)) == Held(s) + Clean(AllTaken(s, ops, fails)) <==> NoDrops(s, ops, fails)
    ensures |Held(Run(s, ops, fails))| <= |Held(s)| + |Clean(AllTaken(s, ops, fails))|
    decreases |ops|
  {
    hide Step, Held, Drops, Clean, TakenIn;
    if |ops| == 0 {
      CleanEmpty();
    } else {
      var s1 := Step(s, ops[0], fails).0;
      StepHeld(s, ops[0], fails);
      StepBound(s, ops[0], fails);
      NothingLost(s1, ops[1..], fails);
      CleanJoin(TakenIn(s, ops[0]), AllTaken(s1, ops[1..], fails));
    }
  }

  const KEPT := Op.Write("a")

  /** The loss in a run from the start: a byte is written, and its flush is not taken. */
  lemma FlushLoses(fails: nat -> bool)
    requires fails(1)
    ensures var s := Run(State([], 0, [], []), [KEPT, Flush], fails);
      Held(s) == [] && Clean(AllTaken(State([], 0, [], []), [KEPT, Flush], fails)) == "a"
  {
    var s0 := State([], 0, [], []);
    var s1 := s0.(pending := "a");
    assert !Due("a");
    assert s0.pending + "a" == "a";
    assert Step(s0, KEPT, fails).0 == s1;
    assert Step(s1, Flush, fails).0 == State([], 1, [], []);
    assert [KEPT, Flush][1..] == [Flush] && [Flush][1..] == [];
    assert Run(s1, [Flush], fails) == State([], 1, [], []);
    assert AllTaken(s1, [Flush], fails) == [];
    assert AllTaken(s0, [KEPT, Flush], fails) == "a";
    assert "a"[1..] == [];
  }

  lemma CleanJoin(a: string, b: string)
    ensures Clean(a + b) == Clean(a) + Clean(b)
  {
    WithoutJoin(a, b, {'\r', '\n'});
  }

  // --------------------------------------------------- frames do not depend on the split

  predicate Broken(input: string) { IndexOf(input) < |input| }

  function Line(input: string): string
    requires Broken(input)
  {
    input[..IndexOf(input)]
  }

  function Later(input: string): (rest: string)
    requires Broken(input)
    ensures |rest| < |input|
  {
    input[IndexOf(input) + 1..]
  }

  // A line of at most 64 KiB is finished, or more than 64 KiB are there without one.
  predicate Ripe(input: string) { (Broken(input) && |Line(input)| <= PIECE) || |input| > PIECE }

  function Piece(input: string): string
    requires Ripe(input)
  {
    if Broken(input) && |Line(input)| <= PIECE then Line(input) else input[..PIECE]
  }

  function Onward(input: string): (rest: string)
    requires Ripe(input)
    ensures |rest| < |input|
  {
    if Broken(input) && |Line(input)| <= PIECE then Later(input) else input[PIECE..]
  }

  // The input line by line, each line in pieces of 64 KiB, and what is left pending.
  function Pieces(input: string): seq<string>
    decreases |input|
  {
    if Ripe(input) then [Clean(Piece(input))] + Pieces(Onward(input)) else []
  }

  function Remainder(input: string): string
    decreases |input|
  {
    if Ripe(input) then Remainder(Onward(input)) else input
  }

  // Every line closed by a line feed is at most 64 KiB long or a whole multiple of it.
  predicate Even(input: string)
    decreases |input|
  {
    Broken(input) ==> (|Line(input)| <= PIECE || |Line(input)| % PIECE == 0) && Even(Later(input))
  }

  // No line closed by a line feed is longer than 64 KiB.
  predicate ShortFinished(input: string)
    decreases |input|
  {
    Broken(input) ==> |Line(input)| <= PIECE && ShortFinished(Later(input))
  }

  function Framed(lines: seq<string>, id: nat): seq<Frame> {
    seq(|lines|, k requires 0 <= k < |lines| => Data(id + k + 1, lines[k]))
  }

  lemma IndexJoin(a: string, b: string)
    ensures IndexOf(a) < |a| ==> IndexOf(a + b) == IndexOf(a)
    ensures IndexOf(a) == |a| ==> IndexOf(a + b) == |a| + IndexOf(b)
  {
    var i, j, k := IndexOf(a), IndexOf(b), IndexOf(a + b);
    if i < |a| { assert (a + b)[i] == '\n'; } else if j < |b| { assert (a + b)[|a| + j] == '\n'; }
    assert k < |a + b| ==> (a + b)[k] == if k < |a| then a[k] else b[k - |a|];
  }

  lemma CutJoin(a: string, b: string)
    ensures Broken(a) ==> Broken(a + b) && Line(a + b) == Line(a) && Later(a + b) == Later(a) + b
    ensures !Broken(a) ==> |a| <= if Broken(a + b) then |Line(a + b)| else |a + b|
  {
    var i := IndexOf(a);
    IndexJoin(a, b);
    if i < |a| { assert (a + b)[..i] == a[..i] && (a + b)[i + 1..] == a[i + 1..] + b; }
  }

  lemma RipeJoin(a: string, b: string)
    requires Ripe(a)
    ensures Ripe(a + b) && Piece(a + b) == Piece(a) && Onward(a + b) == Onward(a) + b
  {
    CutJoin(a, b);
    hide Broken, Line, Later;
    if |a| > PIECE { assert (a + b)[..PIECE] == a[..PIECE] && (a + b)[PIECE..] == a[PIECE..] + b; }
  }

  lemma {:induction false} PiecesJoin(a: string, b: string)
    ensures Pieces(a + b) == Pieces(a) + Pieces(Remainder(a) + b)
    ensures Remainder(a + b) == Remainder(Remainder(a) + b)
    decreases |a|
  {
    hide Clean, Ripe, Piece, Onward;
    if !Ripe(a) {
      assert Pieces(a) == [];
    } else {
      RipeJoin(a, b);
      PiecesJoin(Onward(a), b);
      Reassociate([Clean(Piece(a))], Pieces(Onward(a)), Pieces(Remainder(a) + b));
    }
  }

  lemma {:induction false} RemainderCalm(input: string)
    ensures |Remainder(input)| <= PIECE && !Broken(Remainder(input))
    decreases |input|
  {
    if !Ripe(input) {
    } else {
      RemainderCalm(Onward(input));
    }
  }

  // Past its first 64 KiB a long line is just that much shorter.
  lemma OnwardLong(input: string)
    requires |input| > PIECE && (Broken(input) ==> |Line(input)| > PIECE)
    ensures Broken(input[PIECE..]) <==> Broken(input)
    ensures Broken(input) ==> |Line(input[PIECE..])| == |Line(input)| - PIECE && Later(input[PIECE..]) == Later(input)
  {
    var head, rest := input[..PIECE], input[PIECE..];
    assert input == head + rest && IndexOf(head) == PIECE;
    IndexJoin(head, rest);
    if Broken(input) { assert rest[IndexOf(rest) + 1..] == input[IndexOf(input) + 1..]; }
  }

  lemma EvenOnward(input: string)
    requires Ripe(input)
    ensures Even(input) ==> Even(Onward(input))
    ensures Broken(input) && (|Line(input)| <= PIECE || |Line(input)| >= 2 * PIECE) && Even(Onward(input)) ==> Even(input)
  {
    hide Even, Broken, Line, Later, IndexOf;
    EvenAt(input);
    if !(Broken(input) && |Line(input)| <= PIECE) {
      OnwardLong(input);
      EvenAt(input[PIECE..]);
      if Broken(input) { Multiple(|Line(input)|); }
    }
  }

  lemma EvenAt(input: string)
    ensures !Broken(input) ==> Even(input)
    ensures Broken(input) ==> (Even(input) <==> (|Line(input)| <= PIECE || |Line(input)| % PIECE == 0) && Even(Later(input)))
  {
  }

  lemma Multiple(n: nat)
    requires n > PIECE
    ensures (n - PIECE) % PIECE == 0 <==> n % PIECE == 0
  {
  }

  lemma {:induction false} EvenRemainder(a: string, b: string)
    requires Even(a + b)
    ensures Even(Remainder(a) + b)
    decreases |a|
  {
    hide Even, Ripe, Onward;
    if !Ripe(a) {
    } else {
      RipeJoin(a, b);
      EvenOnward(a + b);
      EvenRemainder(Onward(a), b);
    }
  }

  lemma {:induction false} EvenPrefix(a: string, b: string)
    requires Even(a + b)
    ensures Even(a)
    decreases |a|
  {
    hide Broken, Line, Later;
    CutJoin(a, b);
    if !Broken(a) {
    } else {
      EvenPrefix(Later(a), b);
    }
  }

  // What fits into the backlog has no finished line between 64 and 128 KiB if it is even.
  lemma {:induction false} EvenShort(input: string)
    requires Even(input) && |input| <= PENDING_LIMIT
    ensures ShortFinished(input)
    decreases |input|
  {
    if !Broken(input) {
    } else {
      EvenShort(Later(input));
    }
  }

  lemma CleanLine(line: string)
    requires '\n' !in line
    ensures Without(Chomp(line), {'\r'}) == Clean(line)
  {
    CleanChomp(line);
    NoBreaks(Chomp(line));
  }

  lemma {:induction false} NoBreaks(line: string)
    requires '\n' !in line
    ensures Without(line, {'\r'}) == Clean(line)
  {
    if |line| == 0 {
    } else {
      NoBreaks(line[1..]);
    }
  }

  // What a drain sends, and what it leaves.
  function Emitted(pending: string): seq<string>
    decreases |pending|
  {
    if Due(pending) then [Without(FirstLine(pending), {'\r'})] + Emitted(Rest(pending)) else []
  }

  function Left(pending: string): string
    decreases |pending|
  {
    if Due(pending) then Left(Rest(pending)) else pending
  }

  lemma {:induction false} DrainEmits(s: State, fails: nat -> bool)
    requires forall id :: !fails(id)
    ensures var (s', r) := Drain(s, fails);
      && r == Written && s'.pending == Left(s.pending) && s'.nextId == s.nextId + |Emitted(s.pending)|
      && s'.frames == s.frames + Framed(Emitted(s.pending), s.nextId)
    decreases |s.pending|
  {
    hide Due, FirstLine, Rest, Without;
    if !Due(s.pending) {
    } else {
      var (s1, r) := SendLine(s, FirstLine(s.pending), fails);
      DrainEmits(s1.(pending := Rest(s.pending)), fails);
      FramedJoin([Without(FirstLine(s.pending), {'\r'})], Emitted(Rest(s.pending)), s.nextId);
    }
  }

  lemma DueRipe(pending: string)
    requires Broken(pending) ==> |Line(pending)| <= PIECE
    ensures Due(pending) <==> Ripe(pending)
    ensures Ripe(pending) ==> Without(FirstLine(pending), {'\r'}) == Clean(Piece(pending)) && Rest(pending) == Onward(pending)
  {
    if Ripe(pending) {
      if Broken(pending) { CleanLine(Line(pending)); } else { NoBreaks(pending[..PIECE]); }
    }
  }

  // Without long finished lines a drain sends the pieces.
  lemma {:induction false} ShortDrain(pending: string)
    requires ShortFinished(pending)
    ensures Emitted(pending) == Pieces(pending) && Left(pending) == Remainder(pending)
    decreases |pending|
  {
    DueRipe(pending);
    if !Ripe(pending) {
    } else {
      ShortOnward(pending);
      hide Due, FirstLine, Rest, Without, Ripe, Piece, Onward, Clean;
      ShortDrain(Onward(pending));
    }
  }

  lemma ShortOnward(input: string)
    requires ShortFinished(input) && Ripe(input)
    ensures ShortFinished(Onward(input))
  {
    if !Broken(input) {
      var rest := input[PIECE..];
      assert input == input[..PIECE] + rest;
      IndexJoin(input[..PIECE], rest);
    }
  }

  function Writes(parts: seq<string>): seq<Op> {
    seq(|parts|, k requires 0 <= k < |parts| => Op.Write(parts[k]))
  }

  function Joined(parts: seq<string>): string {
    if |parts| == 0 then [] else parts[0] + Joined(parts[1..])
  }

  // None of these writes is refused.
  predicate Fit(s: State, parts: seq<string>, fails: nat -> bool)
    decreases |parts|
  {
    |parts| > 0 ==> !Overflows(s, parts[0]) && Fit(Step(s, Op.Write(parts[0]), fails).0, parts[1..], fails)
  }

  // The frames are the pieces of what was taken in, and the remainder is pending.
  predicate Frames(s: State, resumeId: nat, taken: string) {
    && s.pending == Remainder(taken) && s.nextId == resumeId + |Pieces(taken)|
    && s.frames == Framed(Pieces(taken), resumeId)
  }

  lemma WriteFrames(s: State, resumeId: nat, taken: string, payload: string, fails: nat -> bool)
    requires Frames(s, resumeId, taken) && ShortFinished(s.pending + payload) && !Overflows(s, payload)
    requires forall id :: !fails(id)
    ensures Frames(Step(s, Op.Write(payload), fails).0, resumeId, taken + payload)
  {
    hide Pieces, Remainder, ShortFinished, Emitted, Left, Drain, Framed, Overflows;
    PiecesJoin(taken, payload);
    ShortDrain(s.pending + payload);
    DrainEmits(s.(pending := s.pending + payload), fails);
    FramedJoin(Pieces(taken), Pieces(s.pending + payload), resumeId);
  }

  // What a write that fits makes of an even input is short.
  lemma EvenWrite(s: State, taken: string, payload: string, later: string)
    requires s.pending == Remainder(taken) && Even(taken + (payload + later)) && !Overflows(s, payload)
    ensures ShortFinished(s.pending + payload)
  {
    hide Even, Remainder, ShortFinished;
    EvenRemainder(taken, payload + later);
    assert s.pending + (payload + later) == (s.pending + payload) + later;
    EvenPrefix(s.pending + payload, later);
    EvenShort(s.pending + payload);
  }

  lemma {:induction false} WritesFrame(s: State, resumeId: nat, taken: string, parts: seq<string>, fails: nat -> bool)
    requires Frames(s, resumeId, taken) && Even(taken + Joined(parts)) && Fit(s, parts, fails) && forall id :: !fails(id)
    ensures Frames(Run(s, Writes(parts), fails), resumeId, taken + Joined(parts))
    decreases |parts|
  {
    if |parts| == 0 {
      assert taken + Joined(parts) == taken;
    } else {
      var s1, more := Step(s, Op.Write(parts[0]), fails).0, taken + parts[0];
      assert taken + Joined(parts) == taken + (parts[0] + Joined(parts[1..])) == more + Joined(parts[1..]);
      EvenWrite(s, taken, parts[0], Joined(parts[1..]));
      hide Frames, Even, Step, Overflows, Remainder;
      WriteFrames(s, resumeId, taken, parts[0], fails);
      RunWrites(s, parts, fails);
      WritesFrame(s1, resumeId, more, parts[1..], fails);
    }
  }

  lemma RunWrites(s: State, parts: seq<string>, fails: nat -> bool)
    requires |parts| > 0
    ensures Run(s, Writes(parts), fails) == Run(Step(s, Op.Write(parts[0]), fails).0, Writes(parts[1..]), fails)
  {
    hide Step;
    assert Writes(parts)[0] == Op.Write(parts[0]) && Writes(parts)[1..] == Writes(parts[1..]);
  }

  lemma FramedJoin(a: seq<string>, b: seq<string>, id: nat)
    ensures Framed(a + b, id) == Framed(a, id) + Framed(b, id + |a|)
  {
  }

  function Fresh(resumeId: nat): State { State([], resumeId, [], []) }

  /** If the finished lines of the input are at most 64 KiB long or whole multiples of it, the frames are the
      lines in pieces of 64 KiB, numbered from the resume identifier on, however the input is cut into
      writes that are not refused. */
  lemma SplitIrrelevant(resumeId: nat, parts: seq<string>, fails: nat -> bool)
    requires Even(Joined(parts)) && (forall id :: !fails(id)) && Fit(Fresh(resumeId), parts, fails)
    ensures var s := Run(Fresh(resumeId), Writes(parts), fails);
      s.frames == Framed(Pieces(Joined(parts)), resumeId) && s.pending == Remainder(Joined(parts))
  {
    assert [] + Joined(parts) == Joined(parts);
    assert Frames(Fresh(resumeId), resumeId, []);
    WritesFrame(Fresh(resumeId), resumeId, [], parts, fails);
  }

  // The finished lines, cleaned, and what follows the last of them.
  function Lines(input: string): seq<string>
    decreases |input|
  {
    if Broken(input) then [Clean(Line(input))] + Lines(Later(input)) else []
  }

  function Tail(input: string): string
    decreases |input|
  {
    if Broken(input) then Tail(Later(input)) else input
  }

  /** Where no finished line is longer than 64 KiB, each of them is one piece. */
  lemma {:induction false} ShortPieces(input: string)
    requires ShortFinished(input)
    ensures Pieces(input) == Lines(input) + Pieces(Tail(input))
    decreases |input|
  {
    if !Broken(input) {
    } else {
      assert Ripe(input) && Piece(input) == Line(input) && Onward(input) == Later(input);
      hide Broken, Line, Later, Ripe, Piece, Onward, Clean;
      ShortPieces(Later(input));
      Reassociate([Clean(Line(input))], Lines(Later(input)), Pieces(Tail(input)));
    }
  }

  // -------------------------------------------------------- and otherwise they do

  function Bytes(input: string): seq<string> {
    if |input| == 0 then [] else [[input[0]]] + Bytes(input[1..])
  }

  lemma {:induction false} BytesJoined(input: string)
    ensures Joined(Bytes(input)) == input
  {
    if |input| == 0 {
    } else {
      assert Bytes(input)[1..] == Bytes(input[1..]);
      BytesJoined(input[1..]);
    }
  }

  lemma {:induction false} JoinedParts(a: seq<string>, b: seq<string>)
    ensures Joined(a + b) == Joined(a) + Joined(b)
  {
    if |a| == 0 {
      assert a + b == b;
    } else {
      assert (a + b)[1..] == a[1..] + b;
      JoinedParts(a[1..], b);
    }
  }

  // Feeding one list of writes after another.
  lemma {:induction false} FedParts(s: State, a: seq<string>, b: seq<string>, fails: nat -> bool)
    ensures Run(s, Writes(a + b), fails) == Run(Run(s, Writes(a), fails), Writes(b), fails)
    ensures Fit(s, a, fails) && Fit(Run(s, Writes(a), fails), b, fails) ==> Fit(s, a + b, fails)
    decreases |a|
  {
    hide Step, Overflows;
    if |a| == 0 {
      assert a + b == b;
    } else {
      assert (a + b)[1..] == a[1..] + b && (a + b)[0] == a[0];
      RunWrites(s, a, fails);
      RunWrites(s, a + b, fails);
      FedParts(Step(s, Op.Write(a[0]), fails).0, a[1..], b, fails);
    }
  }

  // One write that leaves no long finished line in the buffer.
  lemma ShortWrite(s: State, payload: string, fails: nat -> bool)
    requires ShortFinished(s.pending + payload) && !Overflows(s, payload) && forall id :: !fails(id)
    ensures var s' := Step(s, Op.Write(payload), fails).0;
      s'.pending == Remainder(s.pending + payload) && |s'.frames| == |s.frames| + |Pieces(s.pending + payload)|
  {
    hide Pieces, Remainder, ShortFinished, Emitted, Left, Drain, Overflows;
    ShortDrain(s.pending + payload);
    DrainEmits(s.(pending := s.pending + payload), fails);
  }

  lemma ByteShort(pending: string, c: char)
    requires |pending| <= PIECE && !Broken(pending)
    ensures ShortFinished(pending + [c])
  {
    IndexJoin(pending, [c]);
    assert IndexOf([c]) == 0 || !Broken(pending + [c]);
  }

  // Fed byte by byte, any input comes out in its pieces.
  lemma {:induction false} ByteByByte(s: State, input: string, fails: nat -> bool)
    requires |s.pending| <= PIECE && !Broken(s.pending) && forall id :: !fails(id)
    ensures Fit(s, Bytes(input), fails)
    ensures var s' := Run(s, Writes(Bytes(input)), fails);
      s'.pending == Remainder(s.pending + input) && |s'.frames| == |s.frames| + |Pieces(s.pending + input)|
    decreases |input|
  {
    if |input| == 0 {
      assert s.pending + input == s.pending && !Ripe(s.pending);
    } else {
      var c, rest := [input[0]], input[1..];
      assert Bytes(input)[0] == c && Bytes(input)[1..] == Bytes(rest);
      assert (s.pending + c) + rest == s.pending + input;
      hide Pieces, Remainder, ShortFinished, Step, Broken, Bytes;
      var s1 := Step(s, Op.Write(c), fails).0;
      ByteShort(s.pending, input[0]);
      ShortWrite(s, c, fails);
      RemainderCalm(s.pending + c);
      PiecesJoin(s.pending + c, rest);
      RunWrites(s, Bytes(input), fails);
      ByteByByte(s1, rest, fails);
    }
  }

  // In an uneven input a finished line goes on for less than 64 KiB after its first whole
  // pieces: `a` ends where the last of these has just been read.
  lemma {:induction false} UnevenAt(input: string) returns (a: string, q: string, rest: string)
    requires !Even(input)
    ensures input == a + ((q + ['\n']) + rest)
    ensures |Remainder(a)| == PIECE && !Broken(q) && 0 < |q| < PIECE
    decreases |input|
  {
    assert Broken(input) && Ripe(input);
    LineText(input);
    if |Line(input)| <= PIECE {
      EvenOnward(input);
      hide Even, IndexOf, Line, Later, Remainder;
      var head := Line(input) + ['\n'];
      a, q, rest := UnevenAt(Later(input));
      HeadRemainder(head, Line(input), a);
      Reassociate(head, a, (q + ['\n']) + rest);
      a := head + a;
    } else if |Line(input)| < 2 * PIECE {
      UnbrokenPart(input);
      a, q, rest := input[..PIECE], Line(input)[PIECE..], Later(input);
      hide Even, IndexOf, Line, Later, Remainder;
      assert Line(input) == a + q;
      Reassociate(a, q + ['\n'], rest);
      assert (a + q) + ['\n'] == a + (q + ['\n']);
    } else {
      EvenOnward(input);
      var head := input[..PIECE];
      assert Onward(input) == input[PIECE..] && input == head + input[PIECE..];
      a, q, rest := UnevenAt(input[PIECE..]);
      hide Even, IndexOf, Line, Later;
      PieceRemainder(input, a, (q + ['\n']) + rest);
      Reassociate(head, a, (q + ['\n']) + rest);
      a := head + a;
    }
  }

  lemma LineText(input: string)
    requires Broken(input)
    ensures input == (Line(input) + ['\n']) + Later(input) && !Broken(Line(input))
    ensures |Line(input)| > PIECE ==> input[..PIECE] == Line(input)[..PIECE]
  {
    assert input[..IndexOf(input)] + [input[IndexOf(input)]] + input[IndexOf(input) + 1..] == input;
  }

  lemma Reassociate<T>(a: seq<T>, b: seq<T>, c: seq<T>)
    ensures a + (b + c) == (a + b) + c
  {
  }

  lemma HeadRemainder(head: string, line: string, a: string)
    requires !Broken(line) && |line| <= PIECE && head == line + ['\n']
    ensures Remainder(head + a) == Remainder(a)
  {
    IndexJoin(line, ['\n']);
    assert IndexOf(['\n']) == 0;
    assert Ripe(head) && Onward(head) == [];
    RipeJoin(head, a);
    assert [] + a == a;
  }

  lemma UnbrokenPart(input: string)
    requires Broken(input) && PIECE < |Line(input)|
    ensures !Broken(input[..PIECE]) && Remainder(input[..PIECE]) == input[..PIECE]
    ensures !Broken(Line(input)[PIECE..])
  {
  }

  lemma PieceRemainder(input: string, a: string, rest: string)
    requires Broken(input) && |Line(input)| >= 2 * PIECE && input[PIECE..] == a + rest && |a| > 0
    ensures Remainder(input[..PIECE] + a) == Remainder(a)
  {
    var head := input[..PIECE];
    UnbrokenPart(input);
    IndexJoin(head, a);
    assert a[0] == input[PIECE..][0] == input[PIECE];
    assert IndexOf(a) > 0;
    assert Ripe(head + a) && Onward(head + a) == (head + a)[PIECE..] == a;
  }

  // The same bytes of an uneven input sent as one write give one frame less.
  lemma LongWrite(s: State, q: string, fails: nat -> bool)
    requires |s.pending| == PIECE && !Broken(s.pending) && !Broken(q) && 0 < |q| < PIECE && forall id :: !fails(id)
    ensures Fit(s, [q + ['\n']], fails)
    ensures var s' := Run(s, Writes([q + ['\n']]), fails); s'.pending == [] && |s'.frames| == |s.frames| + 1
    ensures |Pieces(s.pending + (q + ['\n']))| == 2 && Remainder(s.pending + (q + ['\n'])) == []
  {
    hide Drain, Emitted, Left, Pieces, Remainder, IndexOf;
    var line, p := q + ['\n'], s.pending + (q + ['\n']);
    LongLine(s.pending, q);
    DrainEmits(s.(pending := p), fails);
    assert [line][0] == line && [line][1..] == [] && Writes([line])[0] == Op.Write(line) && Writes([line])[1..] == [];
    assert Step(s, Op.Write(line), fails) == Drain(s.(pending := p), fails);
    hide Step;
    assert Run(s, Writes([line]), fails) == Run(Step(s, Op.Write(line), fails).0, [], fails);
  }

  lemma LongLine(pending: string, q: string)
    requires |pending| == PIECE && !Broken(pending) && !Broken(q) && 0 < |q| < PIECE
    ensures var p := pending + (q + ['\n']);
      |Emitted(p)| == 1 && Left(p) == [] && |Pieces(p)| == 2 && Remainder(p) == []
  {
    var tail := q + ['\n'];
    var p := pending + tail;
    IndexJoin(q, ['\n']);
    IndexJoin(pending, tail);
    assert IndexOf(['\n']) == 0 && !Broken([]);
    assert Rest(p) == [] && Due(p) && !Due([]) && !Ripe([]);
    assert Ripe(p) && Onward(p) == tail by { assert p[PIECE..] == tail; }
    assert Ripe(tail) && Onward(tail) == [];
    hide Due, Rest, FirstLine, Ripe, Onward, Piece, IndexOf, Clean, Without;
    assert Emitted([]) == [] && Left([]) == [] && Pieces([]) == [] && Remainder([]) == [];
    assert |Pieces(tail)| == 1 && Remainder(tail) == [];
  }

  // Every two cuts of the input into writes that fit give the same frames.
  ghost predicate CutsAgree(input: string, resumeId: nat, fails: nat -> bool) {
    forall a: seq<string>, b: seq<string> ::
      Joined(a) == input && Joined(b) == input && Fit(Fresh(resumeId), a, fails) && Fit(Fresh(resumeId), b, fails) ==>
        Run(Fresh(resumeId), Writes(a), fails).frames == Run(Fresh(resumeId), Writes(b), fails).frames
  }

  lemma UnevenDiffers(input: string, resumeId: nat, fails: nat -> bool)
    requires !Even(input) && forall id :: !fails(id)
    ensures !CutsAgree(input, resumeId, fails)
  {
    hide Even, Pieces, Remainder, Broken, Step, Run, Joined, Fit, Writes, Bytes;
    var a, q, rest := UnevenAt(input);
    var s, line := Fresh(resumeId), q + ['\n'];
    assert !Broken([]) by { NothingBroken(); }
    // byte by byte
    ByteByByte(s, input, fails);
    BytesJoined(input);
    assert [] + input == input && [] + a == a && [] + rest == rest;
    PiecesJoin(a, line + rest);
    RemainderCalm(a);
    assert Remainder(a) + (line + rest) == (Remainder(a) + line) + rest;
    PiecesJoin(Remainder(a) + line, rest);
    // with the end of the line in one write
    ByteByByte(s, a, fails);
    var s1 := Run(s, Writes(Bytes(a)), fails);
    LongWrite(s1, q, fails);
    var s2 := Run(s1, Writes([line]), fails);
    ByteByByte(s2, rest, fails);
    FedParts(s1, [line], Bytes(rest), fails);
    FedParts(s, Bytes(a), [line] + Bytes(rest), fails);
    JoinedParts([line], Bytes(rest));
    JoinedParts(Bytes(a), [line] + Bytes(rest));
    BytesJoined(a);
    BytesJoined(rest);
    JoinedOne(line);
    var cut := Bytes(a) + ([line] + Bytes(rest));
    assert Joined(cut) == input && Fit(s, cut, fails);
    assert |Run(s, Writes(cut), fails).frames| + 1 == |Run(s, Writes(Bytes(input)), fails).frames|;
  }

  lemma NothingBroken()
    ensures !Broken([])
  {
  }

  lemma JoinedOne(part: string)
    ensures Joined([part]) == part
  {
    assert [part][1..] == [];
  }

  /** Exactly then do the frames not depend on the cut: every two cuts agree if and only if each finished line
      of the input is at most 64 KiB long or a whole multiple of it. */
  lemma SplitExact(input: string, resumeId: nat, fails: nat -> bool)
    requires forall id :: !fails(id)
    ensures CutsAgree(input, resumeId, fails) <==> Even(input)
  {
    if Even(input) {
      forall a: seq<string>, b: seq<string> | Joined(a) == input && Joined(b) == input
                                             && Fit(Fresh(resumeId), a, fails) && Fit(Fresh(resumeId), b, fails)
        ensures Run(Fresh(resumeId), Writes(a), fails).frames == Run(Fresh(resumeId), Writes(b), fails).frames
      {
        SplitIrrelevant(resumeId, a, fails);
        SplitIrrelevant(resumeId, b, fails);
      }
    } else {
      UnevenDiffers(input, resumeId, fails);
    }
  }

  // ------------------------------------------------------------ no backlog, one line a frame

  predicate OneLine(f: Frame) { f.Data? ==> '\n' !in f.data && '\r' !in f.data }

  // What holds between writes as long as no frame has failed.
  predicate Settled(s: State) {
    |s.pending| <= PIECE && '\n' !in s.pending && forall k :: 0 <= k < |s.frames| ==> OneLine(s.frames[k])
  }

  lemma {:induction false} DrainSettles(s: State, fails: nat -> bool)
    requires forall k :: 0 <= k < |s.frames| ==> OneLine(s.frames[k])
    ensures var (s', r) := Drain(s, fails); r != Backlog && (r != Failed ==> Settled(s'))
    decreases |s.pending|
  {
    if !Due(s.pending) {
    } else {
      assert '\n' !in FirstLine(s.pending) by { Unbroken(s.pending); }
      hide FirstLine, Rest, Due;
      var (s1, r) := SendLine(s, FirstLine(s.pending), fails);
      if r != Failed { DrainSettles(s1.(pending := Rest(s.pending)), fails); }
    }
  }

  lemma Unbroken(pending: string)
    requires Due(pending)
    ensures '\n' !in FirstLine(pending)
  {
  }

  lemma FlushSettles(s: State, fails: nat -> bool)
    requires Settled(s)
    ensures Settled(FlushStep(s, fails).0)
  {
    var line := Without(s.pending, {'\r'});
    assert '\n' !in line && '\r' !in line;
    hide Without;
  }

  /** Between steps at most 64 KiB are pending, so a write of at most 64 KiB is never refused, and every
      data frame is a single line. */
  lemma StepSettled(s: State, op: Op, fails: nat -> bool)
    requires Settled(s)
    ensures var (s', r) := Step(s, op, fails); r != Failed ==> Settled(s')
    ensures op.Write? && |op.payload| <= PIECE ==> Step(s, op, fails).1 != Backlog
  {
    match op
    case Write(payload) =>
      hide Drain, OneLine;
      if !Overflows(s, payload) { DrainSettles(s.(pending := s.pending + payload), fails); }
    case _ =>
      FlushSettles(s, fails);
      hide FlushStep, Drain;
  }

  /** Writes of at most 64 KiB are taken in whatever the input is. */
  lemma {:induction false} SmallWritesFit(s: State, parts: seq<string>, fails: nat -> bool)
    requires Settled(s) && (forall id :: !fails(id)) && forall k :: 0 <= k < |parts| ==> |parts[k]| <= PIECE
    ensures Fit(s, parts, fails)
    decreases |parts|
  {
    if |parts| == 0 {
    } else {
      StepSettled(s, Op.Write(parts[0]), fails);
      DrainTakes(s.(pending := s.pending + parts[0]), fails);
      hide Drain, Settled;
      SmallWritesFit(Step(s, Op.Write(parts[0]), fails).0, parts[1..], fails);
    }
  }

  lemma {:induction false} DrainTakes(s: State, fails: nat -> bool)
    requires forall id :: !fails(id)
    ensures Drain(s, fails).1 == Written
    decreases |s.pending|
  {
    if !Due(s.pending) {
    } else {
      DrainTakes(SendLine(s, FirstLine(s.pending), fails).0.(pending := Rest(s.pending)), fails);
    }
  }

  lemma {:induction false} DrainFrames(s: State, fails: nat -> bool)
    ensures s.frames <= Drain(s, fails).0.frames
    decreases |s.pending|
  {
    if !Due(s.pending) {
    } else {
      var (s1, r) := SendLine(s, FirstLine(s.pending), fails);
      if r != Failed { DrainFrames(s1.(pending := Rest(s.pending)), fails); }
    }
  }

  /** A frame once sent is never taken back or changed. */
  lemma FramesStay(s: State, op: Op, fails: nat -> bool)
    ensures s.frames <= Step(s, op, fails).0.frames
  {
    if op.Write? { DrainFrames(s.(pending := s.pending + op.payload), fails); }
  }

  // ------------------------------------------------------------------ the replay history

  // The history is the last 256 frames sent, and identifiers grow from frame to frame.
  predicate Recorded(s: State) {
    && s.history == LastN(s.frames, 256)
    && (forall j, k :: 0 <= j < k < |s.frames| ==> s.frames[j].id < s.frames[k].id)
    && (forall k :: 0 <= k < |s.frames| ==> s.frames[k].id <= s.nextId)
  }

  lemma SendRecorded(s: State, f: Frame, fails: nat -> bool)
    requires Recorded(s) && f.id > s.nextId
    ensures Recorded(Send(s, f, fails).0)
  {
  }

  lemma LineRecorded(s: State, line: string, rest: string, fails: nat -> bool)
    requires Recorded(s)
    ensures Recorded(SendLine(s, line, fails).0) && Recorded(SendLine(s, line, fails).0.(pending := rest))
  {
    SendRecorded(s, Data(s.nextId + 1, Without(line, {'\r'})), fails);
    hide LastN;
  }

  lemma {:induction false} DrainRecorded(s: State, fails: nat -> bool)
    requires Recorded(s)
    ensures Recorded(Drain(s, fails).0)
    decreases |s.pending|
  {
    hide Recorded, Due, FirstLine, Rest, SendLine;
    if !Due(s.pending) {
    } else {
      LineRecorded(s, FirstLine(s.pending), Rest(s.pending), fails);
      var (s1, r) := SendLine(s, FirstLine(s.pending), fails);
      if r != Failed { DrainRecorded(s1.(pending := Rest(s.pending)), fails); }
    }
  }

  /** Whatever fails, the history keeps the last 256 frames that were sent, in order of growing identifiers. */
  lemma {:induction false} RunRecorded(s: State, ops: seq<Op>, fails: nat -> bool)
    requires Recorded(s)
    ensures Recorded(Run(s, ops, fails))
    decreases |ops|
  {
    if |ops| == 0 {
    } else {
      match ops[0] {
        case Write(payload) => DrainRecorded(s.(pending := s.pending + payload), fails);
        case Flush => FlushRecorded(s, fails);
        case Event(name, value) =>
          FlushRecorded(s, fails);
          var s1 := FlushStep(s, fails).0;
          SendRecorded(s1, Named(s1.nextId + 1, name, value), fails);
      }
      hide Recorded, Drain, FlushStep;
      RunRecorded(Step(s, ops[0], fails).0, ops[1..], fails);
    }
  }

  lemma FlushRecorded(s: State, fails: nat -> bool)
    requires Recorded(s)
    ensures Recorded(FlushStep(s, fails).0)
  {
    LineRecorded(s.(pending := []), s.pending, [], fails);
    hide Recorded, SendLine;
  }

  // ---------------------------------------------------------------------- what is sent

  /** A flush sends what is pending as one frame, and a named event goes out after it; each is sent exactly
      when it is written, under the next identifier, and a flush with nothing pending sends nothing. */
  lemma EventFrames(s: State, name: string, value: string, fails: nat -> bool)
    ensures var ((f, flushed), (s', sent)) := (Step(s, Op.Flush, fails), Step(s, Op.Event(name, value), fails));
      && f.pending == [] && s'.pending == []
      && (s.pending == [] ==> flushed == Written && f == s)
      && (s.pending != [] ==>
            && (flushed == Written <==> !fails(s.nextId + 1)) && flushed != Backlog
            && f.frames == s.frames + if fails(s.nextId + 1) then [] else [Data(s.nextId + 1, Without(s.pending, {'\r'}))])
      && (sent == Written <==> flushed == Written && !fails(f.nextId + 1))
      && s'.frames == f.frames + if sent == Written then [Named(f.nextId + 1, name, value)] else []
  {
    assert s.frames + [] == s.frames;
  }

  /** A write answers a backlog exactly when what is pending and the payload come to more than 128 KiB, and then
      changes nothing; otherwise it is written unless a frame is not taken. */
  lemma WriteAnswer(s: State, payload: string, fails: nat -> bool)
    ensures var (s', r) := Step(s, Op.Write(payload), fails);
      && (r == Backlog <==> |s.pending| + |payload| > 131_072) && (r == Backlog ==> s' == s)
      && (r == Failed ==> fails(s'.nextId) && s'.nextId > s.nextId)
      && (r == Written ==> |s'.frames| - |s.frames| == s'.nextId - s.nextId && |s'.pending| <= 65_536 && '\n' !in s'.pending)
  {
    hide Drain;
    if !Overflows(s, payload) { DrainAnswer(s.(pending := s.pending + payload), fails); }
  }

  lemma {:induction false} DrainAnswer(s: State, fails: nat -> bool)
    ensures var (s', r) := Drain(s, fails);
      && r != Backlog && s'.nextId >= s.nextId
      && (r == Failed ==> fails(s'.nextId) && s'.nextId > s.nextId)
      && (r == Written ==> |s'.frames| - |s.frames| == s'.nextId - s.nextId && |s'.pending| <= 65_536 && '\n' !in s'.pending)
    decreases |s.pending|
  {
    if !Due(s.pending) {
    } else {
      hide Due, FirstLine, Rest, Without;
      var (s1, r) := SendLine(s, FirstLine(s.pending), fails);
      if r != Failed { DrainAnswer(s1.(pending := Rest(s.pending)), fails); }
    }
  }
}
