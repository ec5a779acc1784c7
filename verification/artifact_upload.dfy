/**
  The chunked artifact upload: the task's artifact records, the part files being written
  and the final files.  File operations and saves may fail one by one; the class below
  performs them in the source's order, with its removals, truncations and renames back,
  and is proved to do what `Step` says.
 */
module ArtifactUpload {
  import Team = TeamModel
  import Fencing = TeamFencing
  import Frames = TeamFrames
  import Quiet = TeamQuiet
  import Replies = TeamReplies

  const CHUNK_LIMIT: nat := 0x80_0000
  const MAX_BYTES: nat := 0x4000_0000
  const LIST_LIMIT: nat := 64

  newtype byte = x: int | 0 <= x < 256
  type Bytes = seq<byte>

  datatype Status = Announced | Uploading | HashMismatch | Complete

  datatype Artifact = Artifact(id: string, digest: string, size: nat, status: Status, offset: nat, stored: nat)

  datatype Key = Key(task: nat, artifact: string)

  // The artifact records of each task.
  type Records = map<nat, seq<Artifact>>

  datatype State = State(artifacts: Records, parts: map<Key, Bytes>, finals: map<Key, Bytes>)

  const EMPTY := State(map[], map[], map[])

  // Which operations of one call succeed; a failed write leaves its file as it was.
  datatype Faults = Faults(open: bool, write: bool, read: bool, rename: bool, save: bool, undo: bool)

  // The control plane at the moment of the call, the clock, and the failures to come.
  datatype Env = Env(team: Team.State, now: nat, faults: Faults)

  datatype Call =
    | Announce(project: string, task: nat, artifact: string, digest: string, size: nat)
    | Init(project: string, runtime: string, token: nat, task: nat, artifact: string)
    | Chunk(project: string, runtime: string, token: nat, task: nat, artifact: string, offset: int, data: Bytes)

  datatype Reply =
    | Logged | FieldsRequired | PayloadInvalid | ChunkTooLarge | ChunkInvalid | LeaseLost | NotFound | AlreadyExists
    | SizeExceeded | NotInitialized | OffsetMismatch(expected: nat) | StorageFailed | CloseFailed | SaveFailed | RollbackFailed
    | HashFailed | HashMismatched
    | Ready | Accepted(offset: nat) | AlreadyStored(size: nat) | Stored(offset: nat)

  function FileOf(c: Call): Key { Key(c.task, c.artifact) }

  // ----------------------------------------------------------------- artifact records

  function Listed(m: Records, task: nat): seq<Artifact> {
    if task in m then m[task] else []
  }

  function FindArtifact(xs: seq<Artifact>, id: string): (i: nat)
    ensures i <= |xs|
    ensures i < |xs| ==> xs[i].id == id
    ensures forall j :: 0 <= j < i ==> xs[j].id != id
  {
    if |xs| == 0 || xs[0].id == id then 0 else 1 + FindArtifact(xs[1..], id)
  }

  predicate Has(m: Records, k: Key) { FindArtifact(Listed(m, k.task), k.artifact) < |Listed(m, k.task)| }

  predicate Found(m: Records, team: Team.State, c: Call) {
    var i := Team.FindTask(team.tasks, c.task);
    i < |team.tasks| && team.tasks[i].project == c.project && Has(m, FileOf(c))
  }

  function Entry(m: Records, k: Key): (a: Artifact)
    requires Has(m, k)
    ensures a.id == k.artifact
  {
    Listed(m, k.task)[FindArtifact(Listed(m, k.task), k.artifact)]
  }

  function Put(m: Records, k: Key, a: Artifact): Records
    requires Has(m, k)
  {
    m[k.task := Listed(m, k.task)[FindArtifact(Listed(m, k.task), k.artifact) := a]]
  }

  // ------------------------------------------------------------------------ the steps

  predicate IsDigest(d: string) {
    |d| == 64 && forall i :: 0 <= i < 64 ==> '0' <= d[i] <= '9' || 'a' <= d[i] <= 'f'
  }

  // A record announced again is replaced where it stands; a new one goes last, and the
  // oldest drop out beyond the limit.
  function Added(xs: seq<Artifact>, a: Artifact): seq<Artifact> {
    var i := FindArtifact(xs, a.id);
    Team.LastN(if i < |xs| then xs[i := a] else xs + [a], LIST_LIMIT)
  }

  predicate ValidPayload(c: Call)
    requires c.Announce?
  {
    c.artifact != "" && IsDigest(c.digest) && c.size <= MAX_BYTES
  }

  // The task named is one of the project that no user has ended.
  predicate TaskOpen(c: Call, team: Team.State) {
    var i := Team.FindTask(team.tasks, c.task);
    i < |team.tasks| && team.tasks[i].project == c.project && !Team.HumanTerminal(team.tasks[i])
  }

  predicate TakesEffect(c: Call, e: Env)
    requires c.Announce?
  {
    ValidPayload(c) && TaskOpen(c, e.team) && e.faults.save
  }

  // An artifact.created event: a second one for the same artifact starts its record afresh.
  function AnnounceStep(s: State, c: Call, e: Env): (State, Reply)
    requires c.Announce?
  {
    if !ValidPayload(c) then (s, PayloadInvalid)
    else if !TaskOpen(c, e.team) then (s, Logged)
    else if !e.faults.save then (s, SaveFailed)
    else
      var a := Artifact(c.artifact, c.digest, c.size, Announced, 0, 0);
      (s.(artifacts := s.artifacts[c.task := Added(Listed(s.artifacts, c.task), a)]), Logged)
  }

  // What stands between an init and truncating the part file; Ready when nothing does.
  function InitGuard(s: State, c: Call, e: Env): Reply
    requires c.Init?
  {
    var k := FileOf(c);
    if c.project == "" || c.runtime == "" || c.token == 0 || c.task == 0 || c.artifact == "" then FieldsRequired
    else if !Team.HoldsLease(e.team.runtimes, c.project, c.runtime, c.token, e.now) then LeaseLost
    else if !Found(s.artifacts, e.team, c) then NotFound
    else if Entry(s.artifacts, k).status == Complete && k in s.finals && |s.finals[k]| == Entry(s.artifacts, k).size
    then AlreadyStored(|s.finals[k]|)
    else if k in s.finals then AlreadyExists
    else if !e.faults.open then StorageFailed
    else Ready
  }

  predicate Truncates(s: State, c: Call, e: Env) { c.Init? && InitGuard(s, c, e) == Ready }

  function TruncateStep(s: State, c: Call, e: Env): (State, Reply)
    requires Truncates(s, c, e)
  {
    var k, f := FileOf(c), e.faults;
    if f.write && f.save then
      (State(Put(s.artifacts, k, Entry(s.artifacts, k).(status := Uploading, offset := 0)), s.parts[k := []], s.finals), Ready)
    else
      (s.(parts := if f.undo then s.parts - {k} else s.parts[k := []]), if f.write then SaveFailed else CloseFailed)
  }

  // What stands between a chunk and the part file; Ready when nothing does.
  function ChunkGuard(s: State, c: Call, e: Env): Reply
    requires c.Chunk?
  {
    var k := FileOf(c);
    if c.project == "" || c.runtime == "" || c.token == 0 || c.task == 0 || c.artifact == "" || c.offset < 0 then FieldsRequired
    else if |c.data| > CHUNK_LIMIT + 1 then ChunkTooLarge
    else if |c.data| == 0 || |c.data| > CHUNK_LIMIT then ChunkInvalid
    else if !Team.HoldsLease(e.team.runtimes, c.project, c.runtime, c.token, e.now) then LeaseLost
    else if !Found(s.artifacts, e.team, c) then NotFound
    else if Entry(s.artifacts, k).status == Complete then AlreadyStored(Entry(s.artifacts, k).size)
    else if c.offset > Entry(s.artifacts, k).size || |c.data| > Entry(s.artifacts, k).size - c.offset then SizeExceeded
    else if k !in s.parts then NotInitialized
    else if |s.parts[k]| != c.offset then OffsetMismatch(|s.parts[k]|)
    else if !e.faults.open || !e.faults.write then StorageFailed
    else Ready
  }

  predicate Appends(s: State, c: Call, e: Env) { c.Chunk? && ChunkGuard(s, c, e) == Ready }

  predicate IsLast(s: State, c: Call, e: Env)
    requires Appends(s, c, e)
  {
    |s.parts[FileOf(c)] + c.data| == Entry(s.artifacts, FileOf(c)).size
  }

  function AppendStep(s: State, c: Call, e: Env): (State, Reply)
    requires Appends(s, c, e)
  {
    var k := FileOf(c);
    var part := s.parts[k] + c.data;
    if e.faults.save then
      (State(Put(s.artifacts, k, Entry(s.artifacts, k).(status := Uploading, offset := |part|)), s.parts[k := part], s.finals),
       Accepted(|part|))
    else if e.faults.undo then (s, SaveFailed)
    else (s.(parts := s.parts[k := part]), RollbackFailed)
  }

  function FinalStep(s: State, c: Call, e: Env, sha: Bytes -> string): (State, Reply)
    requires Appends(s, c, e)
  {
    var k, f := FileOf(c), e.faults;
    var part, a := s.parts[k] + c.data, Entry(s.artifacts, k);
    var appended, taken := s.parts[k := part], s.parts - {k};
    if !f.read then (s.(parts := appended), HashFailed)
    else if sha(part) != a.digest then
      (State(if f.save then Put(s.artifacts, k, a.(status := HashMismatch, offset := 0)) else s.artifacts,
             if f.undo then taken else appended, s.finals), HashMismatched)
    else if !f.rename then (s.(parts := appended), StorageFailed)
    else if f.save then
      (State(Put(s.artifacts, k, a.(status := Complete, stored := |part|)), taken, s.finals[k := part]), Stored(|part|))
    else if f.undo then (State(s.artifacts, appended, s.finals - {k}), SaveFailed)
    else (State(s.artifacts, taken, s.finals[k := part]), SaveFailed)
  }

  function Step(s: State, c: Call, e: Env, sha: Bytes -> string): (State, Reply) {
    if c.Announce? then AnnounceStep(s, c, e)
    else if c.Init? then if Truncates(s, c, e) then TruncateStep(s, c, e) else (s, InitGuard(s, c, e))
    else if !Appends(s, c, e) then (s, ChunkGuard(s, c, e))
    else if IsLast(s, c, e) then FinalStep(s, c, e, sha)
    else AppendStep(s, c, e)
  }

  // ------------------------------------------------------------ the server, step by step

  class Uploader {
    const sha: Bytes -> string
    var artifacts: Records
    var parts: map<Key, Bytes>
    var finals: map<Key, Bytes>

    constructor (sha: Bytes -> string)
      ensures View() == EMPTY && this.sha == sha
    {
      this.sha, artifacts, parts, finals := sha, map[], map[], map[];
    }

    function View(): State
      reads this
    {
      State(artifacts, parts, finals)
    }

    // Replaces the record and saves; a failed save puts the old lists back.
    method Record(k: Key, a: Artifact, saves: bool) returns (ok: bool)
      requires Has(artifacts, k)
      modifies this`artifacts
      ensures ok == saves && artifacts == if saves then Put(old(artifacts), k, a) else old(artifacts)
    {
      var before := artifacts;
      var xs := artifacts[k.task];
      artifacts := artifacts[k.task := xs[FindArtifact(xs, k.artifact) := a]];
      ok := saves;
      if !ok { artifacts := before; }
    }

    // Looks for the task, then for the artifact in its list.
    method Lookup(c: Call, team: Team.State) returns (found: bool, i: nat)
      requires !c.Announce?
      ensures found == Found(artifacts, team, c)
      ensures found ==> i < |artifacts[c.task]| && artifacts[c.task][i] == Entry(artifacts, FileOf(c))
    {
      i := Team.FindTask(team.tasks, c.task);
      if i == |team.tasks| || team.tasks[i].project != c.project || c.task !in artifacts { return false, 0; }
      found, i := false, 0;
      while i < |artifacts[c.task]| && !found
        invariant i <= |artifacts[c.task]| && i <= FindArtifact(artifacts[c.task], c.artifact)
        invariant found ==> i == FindArtifact(artifacts[c.task], c.artifact) < |artifacts[c.task]|
        decreases |artifacts[c.task]| - i, !found
      {
        if artifacts[c.task][i].id == c.artifact { found := true; } else { i := i + 1; }
      }
    }

    method Announce(c: Call, e: Env) returns (reply: Reply)
      requires c.Announce?
      modifies this
      ensures (View(), reply) == AnnounceStep(old(View()), c, e)
    {
      if c.artifact == "" || !IsDigest(c.digest) || c.size > MAX_BYTES { return PayloadInvalid; }
      var i := Team.FindTask(e.team.tasks, c.task);
      if i == |e.team.tasks| || e.team.tasks[i].project != c.project || Team.HumanTerminal(e.team.tasks[i]) { return Logged; }
      var before := artifacts;
      var xs := if c.task in artifacts then artifacts[c.task] else [];
      var found, j := false, 0;
      while j < |xs| && !found
        invariant j <= |xs| && |xs| == |Listed(artifacts, c.task)|
        invariant FindArtifact(Listed(artifacts, c.task), c.artifact) >= j
        invariant !found ==> xs == Listed(artifacts, c.task)
        invariant found ==> j == FindArtifact(Listed(artifacts, c.task), c.artifact) < |xs|
        invariant found ==> xs == Listed(artifacts, c.task)[j := Artifact(c.artifact, c.digest, c.size, Announced, 0, 0)]
        decreases |xs| - j, !found
      {
        if xs[j].id == c.artifact {
          xs := xs[j := Artifact(c.artifact, c.digest, c.size, Announced, 0, 0)];
          found := true;
        } else {
          j := j + 1;
        }
      }
      if !found { xs := xs + [Artifact(c.artifact, c.digest, c.size, Announced, 0, 0)]; }
      if |xs| > LIST_LIMIT { xs := xs[|xs| - LIST_LIMIT..]; }
      artifacts := artifacts[c.task := xs];
      if !e.faults.save {
        artifacts := before;
        return SaveFailed;
      }
      reply := Logged;
    }

    method Init(c: Call, e: Env) returns (reply: Reply)
      requires c.Init?
      modifies this
      ensures (View(), reply) == Step(old(View()), c, e, sha)
    {
      var k, f := FileOf(c), e.faults;
      if c.project == "" || c.runtime == "" || c.token == 0 || c.task == 0 || c.artifact == "" { return FieldsRequired; }
      if !Team.HoldsLease(e.team.runtimes, c.project, c.runtime, c.token, e.now) { return LeaseLost; }
      var found, i := Lookup(c, e.team);
      if !found { return NotFound; }
      var a := artifacts[c.task][i];
      if a.status == Complete && k in finals && |finals[k]| == a.size { return AlreadyStored(|finals[k]|); }
      if k in finals { return AlreadyExists; }
      if !f.open { return StorageFailed; }
      parts := parts[k := []];
      assert parts - {k} == old(parts) - {k};
      if !f.write {
        if f.undo { parts := parts - {k}; }
        return CloseFailed;
      }
      var ok := Record(k, a.(status := Uploading, offset := 0), f.save);
      if !ok {
        if f.undo { parts := parts - {k}; }
        return SaveFailed;
      }
      reply := Ready;
    }

    method Chunk(c: Call, e: Env) returns (reply: Reply)
      requires c.Chunk?
      modifies this
      ensures (View(), reply) == Step(old(View()), c, e, sha)
    {
      var k, f := FileOf(c), e.faults;
      if c.project == "" || c.runtime == "" || c.token == 0 || c.task == 0 || c.artifact == "" || c.offset < 0 {
        return FieldsRequired;
      }
      if |c.data| > CHUNK_LIMIT + 1 { return ChunkTooLarge; }
      if |c.data| == 0 || |c.data| > CHUNK_LIMIT { return ChunkInvalid; }
      if !Team.HoldsLease(e.team.runtimes, c.project, c.runtime, c.token, e.now) { return LeaseLost; }
      var found, i := Lookup(c, e.team);
      if !found { return NotFound; }
      var a := artifacts[c.task][i];
      if a.status == Complete { return AlreadyStored(a.size); }
      if c.offset > a.size || |c.data| > a.size - c.offset { return SizeExceeded; }
      if k !in parts { return NotInitialized; }
      var offset := |parts[k]|;
      if offset != c.offset { return OffsetMismatch(offset); }
      if !f.open || !f.write { return StorageFailed; }
      parts := parts[k := parts[k] + c.data];
      if |parts[k]| < a.size {
        var ok := Record(k, a.(status := Uploading, offset := |parts[k]|), f.save);
        if ok { return Accepted(|parts[k]|); }
        if !f.undo { return RollbackFailed; }
        parts := parts[k := parts[k][..offset]];
        assert parts[k] == old(parts)[k] && parts == old(parts);
        return SaveFailed;
      }
      reply := Finish(c, e, old(View()));
    }

    // The part file is complete: check it and give it its final name.
    method Finish(c: Call, e: Env, ghost was: State) returns (reply: Reply)
      requires Appends(was, c, e) && IsLast(was, c, e)
      requires View() == was.(parts := was.parts[FileOf(c) := was.parts[FileOf(c)] + c.data])
      modifies this
      ensures (View(), reply) == FinalStep(was, c, e, sha)
    {
      var k, f := FileOf(c), e.faults;
      var a := Entry(artifacts, k);
      hide ChunkGuard, FindArtifact;
      assert parts - {k} == was.parts - {k};
      assert finals[k := parts[k]] - {k} == finals - {k} && (parts - {k})[k := parts[k]] == parts;
      if !f.read { return HashFailed; }
      if sha(parts[k]) != a.digest {
        if f.undo { parts := parts - {k}; }
        var _ := Record(k, a.(status := HashMismatch, offset := 0), f.save);
        return HashMismatched;
      }
      if !f.rename { return StorageFailed; }
      var part := parts[k];
      finals, parts := finals[k := part], parts - {k};
      var ok := Record(k, a.(status := Complete, stored := |part|), f.save);
      if !ok {
        if f.undo { parts, finals := parts[k := part], finals - {k}; }
        return SaveFailed;
      }
      reply := Stored(|part|);
    }
  }

  // ------------------------------------------------------- what complete stands for

  predicate UniqueIds(xs: seq<Artifact>) {
    forall i, j :: 0 <= i < j < |xs| ==> xs[i].id != xs[j].id
  }

  // A complete record has its file, of the announced size and digest.
  predicate Intact(s: State, task: nat, a: Artifact, sha: Bytes -> string) {
    a.status == Complete ==>
      var k := Key(task, a.id);
      k in s.finals && |s.finals[k]| == a.size == a.stored && sha(s.finals[k]) == a.digest
  }

  // At most 64 records a task, no artifact twice.
  predicate Tidy(m: Records) { forall t :: t in m ==> |m[t]| <= LIST_LIMIT && UniqueIds(m[t]) }

  predicate Inv(s: State, sha: Bytes -> string) {
    && Tidy(s.artifacts)
    && (forall t, i :: t in s.artifacts && 0 <= i < |s.artifacts[t]| ==> Intact(s, t, s.artifacts[t][i], sha))
    && (forall k :: k in s.parts ==> k !in s.finals)
  }

  // A final file is never changed or removed.
  predicate FinalsKept(s: State, s': State) {
    forall k :: k in s.finals ==> k in s'.finals && s'.finals[k] == s.finals[k]
  }

  lemma PutInv(s: State, k: Key, a: Artifact, sha: Bytes -> string)
    requires Inv(s, sha) && Has(s.artifacts, k) && a.id == k.artifact && Intact(s, k.task, a, sha)
    ensures Inv(s.(artifacts := Put(s.artifacts, k, a)), sha)
  {
  }

  // Part files come and go where there is no final file.
  lemma PartsInv(s: State, k: Key, parts: map<Key, Bytes>, sha: Bytes -> string)
    requires Inv(s, sha) && k !in s.finals && parts.Keys <= s.parts.Keys + {k}
    ensures Inv(s.(parts := parts), sha)
  {
  }

  lemma MovedInv(s: State, k: Key, part: Bytes, sha: Bytes -> string)
    requires Inv(s, sha) && k in s.parts
    ensures k !in s.finals && Inv(State(s.artifacts, s.parts - {k}, s.finals[k := part]), sha)
  {
  }

  lemma AddedUnique(xs: seq<Artifact>, a: Artifact)
    requires UniqueIds(xs)
    ensures UniqueIds(Added(xs, a)) && forall x :: x in Added(xs, a) ==> x == a || x in xs
  {
    hide FindArtifact;
    var i := FindArtifact(xs, a.id);
    var ys := if i < |xs| then xs[i := a] else xs + [a];
    assert UniqueIds(ys) && forall x :: x in ys ==> x == a || x in xs;
  }

  lemma AnnounceInv(s: State, c: Call, e: Env, sha: Bytes -> string)
    requires Inv(s, sha) && c.Announce?
    ensures Inv(AnnounceStep(s, c, e).0, sha)
  {
    hide Team.FindTask, FindArtifact, Added;
    var a := Artifact(c.artifact, c.digest, c.size, Announced, 0, 0);
    var xs := Listed(s.artifacts, c.task);
    var ys := Added(xs, a);
    AddedUnique(xs, a);
    assert |ys| <= LIST_LIMIT by { AddedShort(xs, a); }
    forall i | 0 <= i < |ys| ensures Intact(s, c.task, ys[i], sha) {
      assert ys[i] in ys;
    }
  }

  lemma AddedShort(xs: seq<Artifact>, a: Artifact)
    ensures |Added(xs, a)| <= LIST_LIMIT
  {
  }

  lemma UploadingInv(s: State, k: Key, part: Bytes, offset: nat, sha: Bytes -> string)
    requires Inv(s, sha) && k !in s.finals && Has(s.artifacts, k)
    ensures Inv(s.(parts := s.parts[k := part]), sha)
    ensures var a := Entry(s.artifacts, k).(status := Uploading, offset := offset);
      Inv(State(Put(s.artifacts, k, a), s.parts[k := part], s.finals), sha)
  {
    hide Inv, Has;
    PartsInv(s, k, s.parts[k := part], sha);
    PutInv(s.(parts := s.parts[k := part]), k, Entry(s.artifacts, k).(status := Uploading, offset := offset), sha);
  }

  lemma FinalInv(s: State, c: Call, e: Env, sha: Bytes -> string)
    requires Inv(s, sha) && Appends(s, c, e) && IsLast(s, c, e)
    ensures Inv(FinalStep(s, c, e, sha).0, sha) && FinalsKept(s, FinalStep(s, c, e, sha).0)
  {
    var k := FileOf(c);
    assert k in s.parts && Has(s.artifacts, k);
    hide Inv, ChunkGuard, Has;
    var part, a := s.parts[k] + c.data, Entry(s.artifacts, k);
    MovedInv(s, k, part, sha);
    PartsInv(s, k, s.parts - {k}, sha);
    PartsInv(s, k, s.parts[k := part], sha);
    assert s.finals - {k} == s.finals;
    PutInv(s.(parts := s.parts[k := part]), k, a.(status := HashMismatch, offset := 0), sha);
    PutInv(s.(parts := s.parts - {k}), k, a.(status := HashMismatch, offset := 0), sha);
    if sha(part) == a.digest {
      PutInv(State(s.artifacts, s.parts - {k}, s.finals[k := part]), k, a.(status := Complete, stored := |part|), sha);
    }
  }

  /** Whatever fails, every step keeps complete records true to their files and every file as it is. */
  lemma StepInv(s: State, c: Call, e: Env, sha: Bytes -> string)
    requires Inv(s, sha)
    ensures Inv(Step(s, c, e, sha).0, sha) && FinalsKept(s, Step(s, c, e, sha).0)
  {
    if c.Announce? {
      AnnounceInv(s, c, e, sha);
    } else if Truncates(s, c, e) {
      UploadingInv(s, FileOf(c), [], 0, sha);
      PartsInv(s, FileOf(c), s.parts - {FileOf(c)}, sha);
    } else if Appends(s, c, e) {
      if IsLast(s, c, e) {
        FinalInv(s, c, e, sha);
      } else {
        var part := s.parts[FileOf(c)] + c.data;
        UploadingInv(s, FileOf(c), part, |part|, sha);
      }
    }
  }

  datatype Request = Request(call: Call, env: Env)

  function Run(s: State, rs: seq<Request>, sha: Bytes -> string): State
    decreases |rs|
  {
    if |rs| == 0 then s else Run(Step(s, rs[0].call, rs[0].env, sha).0, rs[1..], sha)
  }

  /** In every state of every run, whatever fails in it: a complete record has its file, whose size and
      digest are the announced ones, and that file stays as it is from then on. */
  lemma {:induction false} CompleteIsStored(s: State, rs: seq<Request>, sha: Bytes -> string)
    requires Inv(s, sha)
    ensures Inv(Run(s, rs, sha), sha) && FinalsKept(s, Run(s, rs, sha))
    decreases |rs|
  {
    if |rs| == 0 {
    } else {
      StepInv(s, rs[0].call, rs[0].env, sha);
      CompleteIsStored(Step(s, rs[0].call, rs[0].env, sha).0, rs[1..], sha);
    }
  }

  // --------------------------------------------- what the sender knows it has delivered

  // The bytes acknowledged since the last init, computed from calls and replies alone.
  function AckedAfter(acked: map<Key, Bytes>, c: Call, reply: Reply): map<Key, Bytes> {
    var k := FileOf(c);
    if c.Init? && reply in {Ready, SaveFailed, CloseFailed} then acked[k := []]
    else if c.Chunk? && (reply.Accepted? || reply.Stored?) then acked[k := (if k in acked then acked[k] else []) + c.data]
    else acked
  }

  // A part file is what was acknowledged; a record being uploaded says how much that is; a
  // complete file is all that was acknowledged.
  predicate Agrees(s: State, acked: map<Key, Bytes>, k: Key) {
    && (k in s.parts ==> k in acked && s.parts[k] == acked[k])
    && (Has(s.artifacts, k) ==> RecordAgrees(s, acked, k, Entry(s.artifacts, k)))
  }

  predicate RecordAgrees(s: State, acked: map<Key, Bytes>, k: Key, a: Artifact) {
    && (a.status == Uploading && k in s.parts ==> a.offset == |s.parts[k]|)
    && (a.status == Complete && k in s.finals ==> k in acked && s.finals[k] == acked[k])
  }

  ghost predicate InSync(s: State, acked: map<Key, Bytes>) { forall k :: Agrees(s, acked, k) }

  // The failures after which a part file holds something else than what was acknowledged, or
  // a record of an upload under way says another size.
  predicate Strays(s: State, c: Call, e: Env, sha: Bytes -> string) {
    var k, f := FileOf(c), e.faults;
    if Truncates(s, c, e) then
      !(f.write && f.save) && !f.undo && Entry(s.artifacts, k).status == Uploading && Entry(s.artifacts, k).offset > 0
    else if !Appends(s, c, e) then false
    else if !IsLast(s, c, e) then !f.save && !f.undo
    else if !f.read then true
    else if sha(s.parts[k] + c.data) != Entry(s.artifacts, k).digest then !f.undo
    else !f.rename || (!f.save && f.undo)
  }

  // The record of another artifact, except that the oldest go when the list is full.
  predicate SameRecord(m: Records, m': Records, j: Key) {
    Has(m', j) ==> Has(m, j) && Entry(m', j) == Entry(m, j)
  }

  lemma FindUnique(xs: seq<Artifact>, i: nat)
    requires UniqueIds(xs) && i < |xs|
    ensures FindArtifact(xs, xs[i].id) == i
  {
  }

  lemma {:induction false} FindUpdated(xs: seq<Artifact>, i: nat, a: Artifact, id: string)
    requires i < |xs| && a.id == xs[i].id
    ensures FindArtifact(xs[i := a], id) == FindArtifact(xs, id)
  {
    if i == 0 {
      assert xs[i := a][1..] == xs[1..];
    } else if xs[0].id != id {
      assert xs[i := a][1..] == xs[1..][i - 1 := a];
      FindUpdated(xs[1..], i - 1, a, id);
    }
  }

  lemma PutRecord(m: Records, k: Key, a: Artifact, j: Key)
    requires Has(m, k) && a.id == k.artifact
    ensures var m' := Put(m, k, a);
      Has(m', k) && Entry(m', k) == a && (Has(m', j) <==> Has(m, j)) && (j != k ==> SameRecord(m, m', j))
  {
    var xs := Listed(m, k.task);
    FindUpdated(xs, FindArtifact(xs, k.artifact), a, k.artifact);
    FindUpdated(xs, FindArtifact(xs, k.artifact), a, j.artifact);
  }

  lemma AddedOwn(xs: seq<Artifact>, a: Artifact)
    requires UniqueIds(xs) && |xs| <= LIST_LIMIT
    ensures var ys := Added(xs, a); var j := FindArtifact(ys, a.id); j < |ys| && ys[j] == a
  {
    AddedUnique(xs, a);
    hide FindArtifact, UniqueIds;
    var ys, i := Added(xs, a), FindArtifact(xs, a.id);
    FindUnique(ys, if i < |xs| then i else |ys| - 1);
  }

  lemma AddedOther(xs: seq<Artifact>, a: Artifact, id: string)
    requires UniqueIds(xs) && |xs| <= LIST_LIMIT && id != a.id
    ensures var ys := Added(xs, a);
      var i, j := FindArtifact(xs, id), FindArtifact(ys, id);
      j < |ys| ==> i < |xs| && ys[j] == xs[i]
  {
    hide FindArtifact, UniqueIds;
    var ys, i := Added(xs, a), FindArtifact(xs, a.id);
    var j := FindArtifact(ys, id);
    if j < |ys| {
      var back := if i < |xs| then 0 else |xs| + 1 - |ys|;
      assert xs[j + back] == ys[j];
      FindUnique(xs, j + back);
    }
  }

  lemma AnnouncedRecord(s: State, c: Call, e: Env, sha: Bytes -> string, j: Key)
    requires Inv(s, sha) && c.Announce?
    ensures var s' := AnnounceStep(s, c, e).0;
      if j != FileOf(c) then SameRecord(s.artifacts, s'.artifacts, j)
      else s' == s || (Has(s'.artifacts, j) && Entry(s'.artifacts, j).status == Announced)
  {
    hide Team.FindTask, FindArtifact, Added;
    var xs, a := Listed(s.artifacts, c.task), Artifact(c.artifact, c.digest, c.size, Announced, 0, 0);
    if j.artifact == c.artifact { AddedOwn(xs, a); } else { AddedOther(xs, a, j.artifact); }
  }

  // Nothing about this artifact differs.
  predicate Untouched(s: State, s': State, j: Key) {
    && (j in s'.parts <==> j in s.parts) && (j in s.parts ==> s'.parts[j] == s.parts[j])
    && (j in s'.finals <==> j in s.finals) && (j in s.finals ==> s'.finals[j] == s.finals[j])
    && SameRecord(s.artifacts, s'.artifacts, j)
  }

  lemma OtherUntouched(s: State, c: Call, e: Env, sha: Bytes -> string, j: Key)
    requires Inv(s, sha) && j != FileOf(c)
    ensures Untouched(s, Step(s, c, e, sha).0, j)
    ensures !c.Announce? && Has(s.artifacts, j) ==> Has(Step(s, c, e, sha).0.artifacts, j)
  {
    hide InitGuard, ChunkGuard, FinalStep, AnnounceStep, TruncateStep, AppendStep, Inv;
    if c.Announce? {
      AnnouncedUntouched(s, c, e, sha, j);
    } else if Appends(s, c, e) && IsLast(s, c, e) {
      FinalUntouched(s, c, e, sha, j);
    } else if Truncates(s, c, e) {
      TruncatedUntouched(s, c, e, j);
    } else if Appends(s, c, e) {
      AppendedUntouched(s, c, e, j);
    }
  }

  lemma AnnouncedUntouched(s: State, c: Call, e: Env, sha: Bytes -> string, j: Key)
    requires Inv(s, sha) && c.Announce? && j != FileOf(c)
    ensures Untouched(s, AnnounceStep(s, c, e).0, j)
  {
    hide Inv, Added;
    AnnouncedRecord(s, c, e, sha, j);
  }

  lemma TruncatedUntouched(s: State, c: Call, e: Env, j: Key)
    requires Truncates(s, c, e) && j != FileOf(c)
    ensures Untouched(s, TruncateStep(s, c, e).0, j)
    ensures Has(s.artifacts, j) ==> Has(TruncateStep(s, c, e).0.artifacts, j)
  {
    var k := FileOf(c);
    assert Has(s.artifacts, k);
    hide InitGuard, Put, Has, Entry;
    PutRecord(s.artifacts, k, Entry(s.artifacts, k).(status := Uploading, offset := 0), j);
  }

  lemma AppendedUntouched(s: State, c: Call, e: Env, j: Key)
    requires Appends(s, c, e) && j != FileOf(c)
    ensures Untouched(s, AppendStep(s, c, e).0, j)
    ensures Has(s.artifacts, j) ==> Has(AppendStep(s, c, e).0.artifacts, j)
  {
    var k := FileOf(c);
    assert Has(s.artifacts, k) && k in s.parts;
    hide ChunkGuard, Put, Has, Entry;
    PutRecord(s.artifacts, k, Entry(s.artifacts, k).(status := Uploading, offset := |s.parts[k] + c.data|), j);
  }

  lemma FinalRecords(s: State, c: Call, e: Env, sha: Bytes -> string, j: Key)
    requires Appends(s, c, e) && j != FileOf(c)
    ensures var m := FinalStep(s, c, e, sha).0.artifacts;
      SameRecord(s.artifacts, m, j) && (Has(s.artifacts, j) ==> Has(m, j))
  {
    var k := FileOf(c);
    assert Has(s.artifacts, k) && k in s.parts;
    hide ChunkGuard, Put, Has, Entry;
    var part, a := s.parts[k] + c.data, Entry(s.artifacts, k);
    PutRecord(s.artifacts, k, a.(status := HashMismatch, offset := 0), j);
    PutRecord(s.artifacts, k, a.(status := Complete, stored := |part|), j);
  }

  lemma FinalUntouched(s: State, c: Call, e: Env, sha: Bytes -> string, j: Key)
    requires Appends(s, c, e) && j != FileOf(c)
    ensures Untouched(s, FinalStep(s, c, e, sha).0, j)
    ensures Has(s.artifacts, j) ==> Has(FinalStep(s, c, e, sha).0.artifacts, j)
  {
    FinalRecords(s, c, e, sha, j);
    hide ChunkGuard, Put, Has, Entry, SameRecord;
  }

  // No other file and no other record is affected.
  lemma OtherFiles(s: State, acked: map<Key, Bytes>, c: Call, e: Env, sha: Bytes -> string, j: Key)
    requires Inv(s, sha) && j != FileOf(c) && Agrees(s, acked, j)
    ensures var (s', reply) := Step(s, c, e, sha); Agrees(s', AckedAfter(acked, c, reply), j)
  {
    hide Inv, Step, Has, Entry;
    OtherUntouched(s, c, e, sha, j);
  }

  lemma OwnTruncated(s: State, acked: map<Key, Bytes>, c: Call, e: Env, sha: Bytes -> string)
    requires Inv(s, sha) && Agrees(s, acked, FileOf(c)) && Truncates(s, c, e)
    ensures var (s', reply) := TruncateStep(s, c, e);
      Agrees(s', AckedAfter(acked, c, reply), FileOf(c)) <==> !Strays(s, c, e, sha)
  {
    var k := FileOf(c);
    assert Has(s.artifacts, k) && k !in s.finals;
    hide Inv, InitGuard, ChunkGuard, Put, Has, Entry;
    PutRecord(s.artifacts, k, Entry(s.artifacts, k).(status := Uploading, offset := 0), k);
  }

  lemma OwnAppended(s: State, acked: map<Key, Bytes>, c: Call, e: Env, sha: Bytes -> string)
    requires Inv(s, sha) && Agrees(s, acked, FileOf(c)) && Appends(s, c, e) && !IsLast(s, c, e)
    ensures var (s', reply) := AppendStep(s, c, e);
      Agrees(s', AckedAfter(acked, c, reply), FileOf(c)) <==> !Strays(s, c, e, sha)
  {
    var k := FileOf(c);
    assert Has(s.artifacts, k) && k in s.parts && |c.data| > 0 && k !in s.finals && Entry(s.artifacts, k).status != Complete;
    assert !Truncates(s, c, e);
    hide Inv, Truncates, ChunkGuard, Put, Has, Entry;
    PutRecord(s.artifacts, k, Entry(s.artifacts, k).(status := Uploading, offset := |s.parts[k] + c.data|), k);
  }

  lemma OwnFinished(s: State, acked: map<Key, Bytes>, c: Call, e: Env, sha: Bytes -> string)
    requires Inv(s, sha) && Agrees(s, acked, FileOf(c)) && Appends(s, c, e) && IsLast(s, c, e)
    ensures var (s', reply) := FinalStep(s, c, e, sha);
      Agrees(s', AckedAfter(acked, c, reply), FileOf(c)) <==> !Strays(s, c, e, sha)
  {
    var k := FileOf(c);
    assert Has(s.artifacts, k) && k in s.parts && |c.data| > 0 && k !in s.finals && Entry(s.artifacts, k).status != Complete;
    assert !Truncates(s, c, e);
    hide Inv, Truncates, ChunkGuard, Put, Has, Entry;
    var part, a := s.parts[k] + c.data, Entry(s.artifacts, k);
    PutRecord(s.artifacts, k, a.(status := HashMismatch, offset := 0), k);
    PutRecord(s.artifacts, k, a.(status := Complete, stored := |part|), k);
  }

  /** A step keeps part files, records and complete files equal to what was acknowledged exactly when it
      is not one of the failures that leave a stray chunk. */
  lemma StepInSync(s: State, acked: map<Key, Bytes>, c: Call, e: Env, sha: Bytes -> string)
    requires Inv(s, sha) && InSync(s, acked)
    ensures var (s', reply) := Step(s, c, e, sha);
      InSync(s', AckedAfter(acked, c, reply)) <==> !Strays(s, c, e, sha)
  {
    var (s', reply) := Step(s, c, e, sha);
    var acked' := AckedAfter(acked, c, reply);
    var k := FileOf(c);
    assert Agrees(s, acked, k);
    hide Inv, Agrees, AckedAfter;
    forall j | j != k ensures Agrees(s', acked', j) {
      assert Agrees(s, acked, j);
      OtherFiles(s, acked, c, e, sha, j);
    }
    OwnFile(s, acked, c, e, sha);
  }

  lemma OwnFile(s: State, acked: map<Key, Bytes>, c: Call, e: Env, sha: Bytes -> string)
    requires Inv(s, sha) && Agrees(s, acked, FileOf(c))
    ensures var (s', reply) := Step(s, c, e, sha);
      Agrees(s', AckedAfter(acked, c, reply), FileOf(c)) <==> !Strays(s, c, e, sha)
  {
    if c.Announce? {
      AnnouncedRecord(s, c, e, sha, FileOf(c));
    } else if Truncates(s, c, e) {
      hide Agrees, AckedAfter, Strays;
      OwnTruncated(s, acked, c, e, sha);
    } else if Appends(s, c, e) {
      hide Agrees, AckedAfter, Strays;
      if IsLast(s, c, e) { OwnFinished(s, acked, c, e, sha); } else { OwnAppended(s, acked, c, e, sha); }
    }
  }

  // The states of a run, and what its calls have had acknowledged.
  function RunAcked(s: State, acked: map<Key, Bytes>, rs: seq<Request>, sha: Bytes -> string): map<Key, Bytes>
    decreases |rs|
  {
    if |rs| == 0 then acked
    else
      var (s', reply) := Step(s, rs[0].call, rs[0].env, sha);
      RunAcked(s', AckedAfter(acked, rs[0].call, reply), rs[1..], sha)
  }

  predicate NoStrays(s: State, rs: seq<Request>, sha: Bytes -> string)
    decreases |rs|
  {
    |rs| > 0 ==> !Strays(s, rs[0].call, rs[0].env, sha) && NoStrays(Step(s, rs[0].call, rs[0].env, sha).0, rs[1..], sha)
  }

  lemma {:induction false} SyncOverRuns(s: State, acked: map<Key, Bytes>, rs: seq<Request>, sha: Bytes -> string)
    requires Inv(s, sha) && InSync(s, acked) && NoStrays(s, rs, sha)
    ensures InSync(Run(s, rs, sha), RunAcked(s, acked, rs, sha))
    decreases |rs|
  {
    hide Inv, Step, InSync, AckedAfter, Strays;
    if |rs| == 0 {
    } else {
      var (s', reply) := Step(s, rs[0].call, rs[0].env, sha);
      StepInv(s, rs[0].call, rs[0].env, sha);
      StepInSync(s, acked, rs[0].call, rs[0].env, sha);
      SyncOverRuns(s', AckedAfter(acked, rs[0].call, reply), rs[1..], sha);
    }
  }

  /** From an empty server, in a run without those failures: every part file is the chunks acknowledged
      since the last init, and every complete artifact is stored exactly as it was acknowledged, with
      the digest it was announced with. */
  lemma DeliveredAsSent(rs: seq<Request>, sha: Bytes -> string, k: Key)
    requires NoStrays(EMPTY, rs, sha)
    ensures var s, acked := Run(EMPTY, rs, sha), RunAcked(EMPTY, map[], rs, sha);
      && (k in s.parts ==> k in acked && s.parts[k] == acked[k])
      && (Has(s.artifacts, k) && Entry(s.artifacts, k).status == Complete ==>
            k in acked && k in s.finals && s.finals[k] == acked[k] && sha(acked[k]) == Entry(s.artifacts, k).digest)
  {
    var s, acked := Run(EMPTY, rs, sha), RunAcked(EMPTY, map[], rs, sha);
    assert Inv(EMPTY, sha) && InSync(EMPTY, map[]);
    hide Run, RunAcked, NoStrays;
    CompleteIsStored(EMPTY, rs, sha);
    SyncOverRuns(EMPTY, map[], rs, sha);
    assert Agrees(s, acked, k);
    if Has(s.artifacts, k) { assert Intact(s, k.task, Entry(s.artifacts, k), sha); }
  }

  // ------------------------------------------------------ uploads that cannot be taken up

  // The final file stands although no record calls it complete.
  predicate Stuck(s: State, k: Key) {
    k in s.finals && (Has(s.artifacts, k) ==> Entry(s.artifacts, k).status != Complete)
  }

  // A new record in a full list drops this one.
  predicate DropsOut(m: Records, c: Call, k: Key)
    requires c.Announce?
  {
    var xs := Listed(m, c.task);
    k.task == c.task && |xs| == 64 && FindArtifact(xs, c.artifact) == |xs| && xs[0].id == k.artifact
  }

  // The calls after which a final file stands without a complete record: the artifact, or one
  // more artifact than the list holds, is announced; or the record of the stored file can
  // neither be saved nor the file be named back.
  predicate Strands(s: State, c: Call, e: Env, sha: Bytes -> string, k: Key) {
    if c.Announce? then TakesEffect(c, e) && k in s.finals && (FileOf(c) == k || DropsOut(s.artifacts, c, k))
    else FileOf(c) == k && Appends(s, c, e) && IsLast(s, c, e) && Unnamed(s, c, e, sha)
  }

  predicate Unnamed(s: State, c: Call, e: Env, sha: Bytes -> string)
    requires Appends(s, c, e)
  {
    var k, f := FileOf(c), e.faults;
    f.read && sha(s.parts[k] + c.data) == Entry(s.artifacts, k).digest && f.rename && !f.save && !f.undo
  }

  lemma AddedKeeps(m: Records, c: Call, a: Artifact, k: Key)
    requires c.Announce? && Tidy(m) && a.id == c.artifact && k != FileOf(c)
    ensures var m' := m[c.task := Added(Listed(m, c.task), a)];
      Has(m', k) <==> Has(m, k) && !DropsOut(m, c, k)
  {
    var xs := Listed(m, c.task);
    assert UniqueIds(xs) && |xs| <= LIST_LIMIT;
    if k.task == c.task { AddedHas(xs, a, k.artifact); }
  }

  predicate Lists(xs: seq<Artifact>, id: string) { exists k :: 0 <= k < |xs| && xs[k].id == id }

  lemma FindLists(xs: seq<Artifact>, id: string)
    ensures FindArtifact(xs, id) < |xs| <==> Lists(xs, id)
  {
  }

  lemma AppendedLists(xs: seq<Artifact>, a: Artifact, id: string)
    requires id != a.id
    ensures Lists(xs + [a], id) <==> Lists(xs, id)
  {
    assert forall k :: 0 <= k < |xs| ==> (xs + [a])[k] == xs[k];
  }

  lemma ShiftedLists(xs: seq<Artifact>, id: string)
    requires UniqueIds(xs) && |xs| > 0
    ensures Lists(xs[1..], id) <==> Lists(xs, id) && xs[0].id != id
  {
    assert forall k :: 0 <= k < |xs| - 1 ==> xs[1..][k] == xs[k + 1];
    if Lists(xs, id) && xs[0].id != id {
      var k :| 0 <= k < |xs| && xs[k].id == id;
      assert xs[1..][k - 1].id == id;
    }
  }

  lemma AddedHas(xs: seq<Artifact>, a: Artifact, id: string)
    requires UniqueIds(xs) && |xs| <= LIST_LIMIT && id != a.id
    ensures var ys := Added(xs, a);
      FindArtifact(ys, id) < |ys| <==>
        FindArtifact(xs, id) < |xs| && !(|xs| == LIST_LIMIT && FindArtifact(xs, a.id) == |xs| && xs[0].id == id)
  {
    hide FindArtifact;
    var ys, i := Added(xs, a), FindArtifact(xs, a.id);
    FindLists(xs, id);
    FindLists(ys, id);
    if i < |xs| {
      assert forall k :: 0 <= k < |xs| ==> ys[k].id == xs[k].id;
    } else {
      AppendedLists(xs, a, id);
      if |xs| == LIST_LIMIT {
        assert UniqueIds(xs + [a]);
        assert ys == (xs + [a])[1..];
        ShiftedLists(xs + [a], id);
      }
    }
  }

  lemma AnnounceStrands(s: State, c: Call, e: Env, sha: Bytes -> string, k: Key)
    requires Inv(s, sha) && c.Announce?
    ensures Stuck(AnnounceStep(s, c, e).0, k) <==> Stuck(s, k) || Strands(s, c, e, sha, k)
  {
    AnnouncedRecord(s, c, e, sha, k);
    if k != FileOf(c) && TakesEffect(c, e) {
      AddedKeeps(s.artifacts, c, Artifact(c.artifact, c.digest, c.size, Announced, 0, 0), k);
    }
  }

  lemma FinalStrands(s: State, c: Call, e: Env, sha: Bytes -> string)
    requires Inv(s, sha) && Appends(s, c, e) && IsLast(s, c, e)
    ensures Stuck(FinalStep(s, c, e, sha).0, FileOf(c)) <==> Unnamed(s, c, e, sha)
  {
    var k := FileOf(c);
    assert Has(s.artifacts, k) && k in s.parts && k !in s.finals && Entry(s.artifacts, k).status != Complete;
    hide Inv, ChunkGuard, Put, Has, Entry;
    var part, a := s.parts[k] + c.data, Entry(s.artifacts, k);
    PutRecord(s.artifacts, k, a.(status := Complete, stored := |part|), k);
  }

  /** A step leaves a final file without a complete record exactly when it stood so before or the step
      is one of those three. */
  lemma StepStuck(s: State, c: Call, e: Env, sha: Bytes -> string, k: Key)
    requires Inv(s, sha)
    ensures Stuck(Step(s, c, e, sha).0, k) <==> Stuck(s, k) || Strands(s, c, e, sha, k)
  {
    if c.Announce? {
      AnnounceStrands(s, c, e, sha, k);
    } else if k != FileOf(c) {
      OtherUntouched(s, c, e, sha, k);
    } else if Appends(s, c, e) && IsLast(s, c, e) {
      FinalStrands(s, c, e, sha);
    }
  }

  // An init that nothing but the artifact's own files and record can refuse.
  predicate InitArrives(s: State, c: Call, e: Env) {
    && c.Init? && c.project != "" && c.runtime != "" && c.token != 0 && c.task != 0 && c.artifact != ""
    && Team.HoldsLease(e.team.runtimes, c.project, c.runtime, c.token, e.now) && Found(s.artifacts, e.team, c)
    && e.faults.open && e.faults.write && e.faults.save
  }

  /** Such an init is served, by a fresh part file or by the stored artifact, exactly when no final file
      stands without a complete record. */
  lemma InitServed(s: State, c: Call, e: Env, sha: Bytes -> string)
    requires Inv(s, sha) && InitArrives(s, c, e)
    ensures Step(s, c, e, sha).1 in {Ready, AlreadyStored(Entry(s.artifacts, FileOf(c)).size)} <==> !Stuck(s, FileOf(c))
  {
    assert Intact(s, c.task, Entry(s.artifacts, FileOf(c)), sha);
    hide Inv, Team.HoldsLease, Team.FindTask, FindArtifact;
  }

  /** After a last chunk an init is served exactly when it is not the record alone that failed, with the
      file left under its final name. */
  lemma LastChunkThenInit(s: State, c: Call, e: Env, sha: Bytes -> string, c': Call, e': Env)
    requires Inv(s, sha) && Appends(s, c, e) && IsLast(s, c, e)
    requires FileOf(c') == FileOf(c) && InitArrives(Step(s, c, e, sha).0, c', e')
    ensures var s' := Step(s, c, e, sha).0;
      Step(s', c', e', sha).1 in {Ready, AlreadyStored(Entry(s'.artifacts, FileOf(c)).size)} <==> !Unnamed(s, c, e, sha)
  {
    hide Inv, Stuck, InitArrives;
    StepInv(s, c, e, sha);
    FinalStrands(s, c, e, sha);
    InitServed(Step(s, c, e, sha).0, c', e', sha);
  }

  // No byte is taken for the artifact and none is reported stored.
  predicate Refused(reply: Reply) {
    !reply.Ready? && !reply.Accepted? && !reply.Stored? && !reply.AlreadyStored?
  }

  /** It stays so for ever: whatever is announced or sent in the meantime, every init and every chunk for
      the artifact is refused and changes nothing. */
  lemma {:induction false} StuckForever(s: State, rs: seq<Request>, c: Call, e: Env, sha: Bytes -> string)
    requires Inv(s, sha) && Stuck(s, FileOf(c)) && !c.Announce?
    ensures var s' := Run(s, rs, sha);
      Stuck(s', FileOf(c)) && Step(s', c, e, sha).0 == s' && Refused(Step(s', c, e, sha).1)
    decreases |rs|
  {
    if |rs| == 0 {
      StuckRefuses(s, c, e, sha);
    } else {
      hide Inv, Stuck, Step, Strands;
      StepInv(s, rs[0].call, rs[0].env, sha);
      StepStuck(s, rs[0].call, rs[0].env, sha, FileOf(c));
      StuckForever(Step(s, rs[0].call, rs[0].env, sha).0, rs[1..], c, e, sha);
    }
  }

  lemma StuckRefuses(s: State, c: Call, e: Env, sha: Bytes -> string)
    requires Inv(s, sha) && Stuck(s, FileOf(c)) && !c.Announce?
    ensures Step(s, c, e, sha).0 == s && Refused(Step(s, c, e, sha).1)
  {
    assert FileOf(c) !in s.parts;
    hide Inv, Team.HoldsLease, Team.FindTask, FindArtifact;
  }

  // ------------------------------------------------------------------ a full part file

  // The part file is at least as long as the record allows.
  predicate Full(s: State, k: Key) {
    k in s.parts && (Has(s.artifacts, k) ==> Entry(s.artifacts, k).size <= |s.parts[k]|)
  }

  // Whether the part file is full after the call, read off the state before it.  An announcement
  // changes the size and leaves the file; one that drops the record out of its list leaves it without
  // one; an init empties the file, which fills it if the size is 0; a last chunk fills it when it strays.
  predicate LeavesFull(s: State, c: Call, e: Env, sha: Bytes -> string, k: Key) {
    if c.Announce? && TakesEffect(c, e) then
      if FileOf(c) == k then k in s.parts && c.size <= |s.parts[k]|
      else Full(s, k) || (k in s.parts && DropsOut(s.artifacts, c, k))
    else if c.Announce? || FileOf(c) != k then Full(s, k)
    else if Truncates(s, c, e) then
      Entry(s.artifacts, k).size == 0 && ((e.faults.write && e.faults.save) || !e.faults.undo)
    else if Appends(s, c, e) then IsLast(s, c, e) && Strays(s, c, e, sha)
    else Full(s, k)
  }

  lemma AnnounceFull(s: State, c: Call, e: Env, sha: Bytes -> string, k: Key)
    requires Inv(s, sha) && c.Announce?
    ensures Full(AnnounceStep(s, c, e).0, k) <==> LeavesFull(s, c, e, sha, k)
  {
    if TakesEffect(c, e) {
      var a := Artifact(c.artifact, c.digest, c.size, Announced, 0, 0);
      if FileOf(c) == k {
        AddedOwn(Listed(s.artifacts, c.task), a);
      } else {
        AddedKeeps(s.artifacts, c, a, k);
        AnnouncedRecord(s, c, e, sha, k);
      }
      hide Inv, Added, DropsOut, FindArtifact;
    }
  }

  lemma TruncateFull(s: State, c: Call, e: Env, sha: Bytes -> string)
    requires Inv(s, sha) && Truncates(s, c, e)
    ensures Full(TruncateStep(s, c, e).0, FileOf(c)) <==> LeavesFull(s, c, e, sha, FileOf(c))
  {
    var k := FileOf(c);
    assert Has(s.artifacts, k);
    hide Inv, InitGuard, Put, Has, Entry;
    PutRecord(s.artifacts, k, Entry(s.artifacts, k).(status := Uploading, offset := 0), k);
  }

  lemma AppendFull(s: State, c: Call, e: Env, sha: Bytes -> string)
    requires Inv(s, sha) && Appends(s, c, e) && !IsLast(s, c, e)
    ensures !Full(AppendStep(s, c, e).0, FileOf(c))
  {
    var k := FileOf(c);
    assert Has(s.artifacts, k) && k in s.parts && |s.parts[k]| + |c.data| < Entry(s.artifacts, k).size;
    hide Inv, ChunkGuard, Put, Has, Entry;
    PutRecord(s.artifacts, k, Entry(s.artifacts, k).(status := Uploading, offset := |s.parts[k] + c.data|), k);
  }

  /** A last chunk leaves the part file full exactly when it is one of the failures that leave a stray
      chunk: then the sender has not been told, and cannot send it again. */
  lemma LastChunkFills(s: State, c: Call, e: Env, sha: Bytes -> string)
    requires Inv(s, sha) && Appends(s, c, e) && IsLast(s, c, e)
    ensures var (s', reply) := Step(s, c, e, sha);
      (Full(s', FileOf(c)) <==> Strays(s, c, e, sha)) && (Strays(s, c, e, sha) ==> Refused(reply))
  {
    var k := FileOf(c);
    assert Has(s.artifacts, k) && k in s.parts && Appends(s, c, e) && !Truncates(s, c, e);
    hide Inv, InitGuard, ChunkGuard, Put, Has, Entry;
    PutRecord(s.artifacts, k, Entry(s.artifacts, k).(status := HashMismatch, offset := 0), k);
  }

  /** After any step the part file of an artifact is full exactly when `LeavesFull` holds before it. */
  lemma StepFull(s: State, c: Call, e: Env, sha: Bytes -> string, k: Key)
    requires Inv(s, sha)
    ensures Full(Step(s, c, e, sha).0, k) <==> LeavesFull(s, c, e, sha, k)
  {
    if c.Announce? {
      AnnounceFull(s, c, e, sha, k);
    } else if FileOf(c) != k {
      OtherUntouched(s, c, e, sha, k);
      hide Step, Inv, Has, Entry;
    } else if Truncates(s, c, e) {
      TruncateFull(s, c, e, sha);
      hide Full, LeavesFull;
    } else if Appends(s, c, e) {
      hide Full;
      if IsLast(s, c, e) { LastChunkFills(s, c, e, sha); } else { AppendFull(s, c, e, sha); }
    }
  }

  // A chunk that nothing but the artifact's own file and record can refuse.
  predicate ChunkArrives(s: State, c: Call, e: Env) {
    && c.Chunk? && c.project != "" && c.runtime != "" && c.token != 0 && c.task != 0 && c.artifact != ""
    && 1 <= |c.data| <= CHUNK_LIMIT
    && Team.HoldsLease(e.team.runtimes, c.project, c.runtime, c.token, e.now) && Found(s.artifacts, e.team, c)
    && e.faults.open && e.faults.write
  }

  /** What full means: such a chunk is appended exactly when a part file stands, the chunk continues it and
      it is not longer than what the size leaves.  A full file leaves nothing; one that is not takes a byte. */
  lemma ChunkTaken(s: State, c: Call, e: Env, sha: Bytes -> string)
    requires Inv(s, sha) && ChunkArrives(s, c, e)
    ensures var k := FileOf(c);
      Appends(s, c, e) <==> k in s.parts && c.offset == |s.parts[k]| && |s.parts[k]| + |c.data| <= Entry(s.artifacts, k).size
    ensures Full(s, FileOf(c)) ==> !Appends(s, c, e)
    ensures var k := FileOf(c);
      k in s.parts && !Full(s, k) && c.offset == |s.parts[k]| && |c.data| == 1 ==> Appends(s, c, e)
  {
    var k := FileOf(c);
    assert Intact(s, k.task, Entry(s.artifacts, k), sha);
    assert k in s.parts ==> Entry(s.artifacts, k).status != Complete;
    hide Inv, Intact, Team.HoldsLease, Team.FindTask, FindArtifact, Entry;
  }

  // Nothing starts the artifact afresh.
  predicate NoRestart(rs: seq<Request>, k: Key) {
    forall i :: 0 <= i < |rs| ==> rs[i].call.Chunk? || FileOf(rs[i].call) != k
  }

  lemma NoRestartRest(rs: seq<Request>, k: Key)
    requires NoRestart(rs, k) && |rs| > 0
    ensures NoRestart(rs[1..], k) && (rs[0].call.Chunk? || FileOf(rs[0].call) != k)
  {
    assert forall i :: 0 <= i < |rs[1..]| ==> rs[1..][i] == rs[i + 1];
  }

  lemma FullStays(s: State, c: Call, e: Env, sha: Bytes -> string, k: Key)
    requires Inv(s, sha) && Full(s, k) && (c.Chunk? || FileOf(c) != k)
    ensures Full(Step(s, c, e, sha).0, k) && Step(s, c, e, sha).0.parts[k] == s.parts[k]
    ensures FileOf(c) == k ==> Step(s, c, e, sha).0 == s && Refused(Step(s, c, e, sha).1)
  {
    if FileOf(c) == k {
      FullRefuses(s, c, e, sha);
    } else {
      OtherUntouched(s, c, e, sha, k);
      hide Step, Inv, Has, Entry;
    }
  }

  lemma FullRefuses(s: State, c: Call, e: Env, sha: Bytes -> string)
    requires Inv(s, sha) && c.Chunk? && Full(s, FileOf(c))
    ensures Step(s, c, e, sha).0 == s && Refused(Step(s, c, e, sha).1)
  {
    var k := FileOf(c);
    if Has(s.artifacts, k) { assert Intact(s, k.task, Entry(s.artifacts, k), sha) && k !in s.finals; }
    hide Inv, Team.HoldsLease, Team.FindTask, FindArtifact;
  }

  /** A full part file stays as it is, and refuses every chunk, at least until the artifact is announced or
      initialised again. */
  lemma {:induction false} FullUntilRestart(s: State, rs: seq<Request>, c: Call, e: Env, sha: Bytes -> string)
    requires Inv(s, sha) && c.Chunk? && Full(s, FileOf(c)) && NoRestart(rs, FileOf(c))
    ensures var s' := Run(s, rs, sha);
      Full(s', FileOf(c)) && s'.parts[FileOf(c)] == s.parts[FileOf(c)]
      && Step(s', c, e, sha).0 == s' && Refused(Step(s', c, e, sha).1)
    decreases |rs|
  {
    if |rs| == 0 {
      FullStays(s, c, e, sha, FileOf(c));
    } else {
      NoRestartRest(rs, FileOf(c));
      hide Inv, Step, Full, NoRestart;
      StepInv(s, rs[0].call, rs[0].env, sha);
      FullStays(s, rs[0].call, rs[0].env, sha, FileOf(c));
      FullUntilRestart(Step(s, rs[0].call, rs[0].env, sha).0, rs[1..], c, e, sha);
    }
  }

  // ----------------------------------------------------------------- an empty artifact

  // The artifact is announced with size 0 only.
  predicate EmptyOnly(rs: seq<Request>, k: Key) {
    forall i :: 0 <= i < |rs| && rs[i].call.Announce? && FileOf(rs[i].call) == k ==> rs[i].call.size == 0
  }

  predicate EmptyUnstored(s: State, k: Key) {
    k !in s.finals && (Has(s.artifacts, k) ==> Entry(s.artifacts, k).size == 0)
  }

  lemma EmptyStep(s: State, c: Call, e: Env, sha: Bytes -> string, k: Key)
    requires Inv(s, sha) && EmptyUnstored(s, k) && (c.Announce? && FileOf(c) == k ==> c.size == 0)
    ensures EmptyUnstored(Step(s, c, e, sha).0, k)
  {
    if c.Announce? {
      EmptyAnnounced(s, c, e, sha, k);
    } else if FileOf(c) != k {
      OtherUntouched(s, c, e, sha, k);
      hide Step, Inv, Has, Entry;
    } else if Truncates(s, c, e) {
      EmptyTruncated(s, c, e, sha);
    } else if c.Chunk? {
      assert !Appends(s, c, e);
      hide ChunkGuard;
    }
  }

  lemma EmptyAnnounced(s: State, c: Call, e: Env, sha: Bytes -> string, k: Key)
    requires Inv(s, sha) && c.Announce? && EmptyUnstored(s, k) && (FileOf(c) == k ==> c.size == 0)
    ensures EmptyUnstored(AnnounceStep(s, c, e).0, k)
  {
    if TakesEffect(c, e) && FileOf(c) == k {
      AddedOwn(Listed(s.artifacts, c.task), Artifact(c.artifact, c.digest, c.size, Announced, 0, 0));
    } else {
      AnnouncedRecord(s, c, e, sha, k);
    }
    hide Inv, Added, FindArtifact;
  }

  lemma EmptyTruncated(s: State, c: Call, e: Env, sha: Bytes -> string)
    requires Truncates(s, c, e) && EmptyUnstored(s, FileOf(c))
    ensures EmptyUnstored(TruncateStep(s, c, e).0, FileOf(c))
  {
    var k := FileOf(c);
    assert Has(s.artifacts, k);
    hide InitGuard, Put, Has, Entry;
    PutRecord(s.artifacts, k, Entry(s.artifacts, k).(status := Uploading, offset := 0), k);
  }

  lemma {:induction false} EmptyStays(s: State, rs: seq<Request>, sha: Bytes -> string, k: Key)
    requires Inv(s, sha) && EmptyUnstored(s, k) && EmptyOnly(rs, k)
    ensures EmptyUnstored(Run(s, rs, sha), k)
    decreases |rs|
  {
    if |rs| == 0 {
    } else {
      assert EmptyOnly(rs[1..], k) by { assert forall i :: 0 <= i < |rs[1..]| ==> rs[1..][i] == rs[i + 1]; }
      hide Inv, Step, EmptyUnstored;
      StepInv(s, rs[0].call, rs[0].env, sha);
      EmptyStep(s, rs[0].call, rs[0].env, sha, k);
      EmptyStays(Step(s, rs[0].call, rs[0].env, sha).0, rs[1..], sha, k);
    }
  }

  /** An empty artifact can be announced and initialised but never stored: in no state of a run that
      announces it with size 0 only is there a final file, and every chunk for it is refused. */
  lemma EmptyNeverStored(rs: seq<Request>, c: Call, e: Env, sha: Bytes -> string)
    requires c.Chunk? && EmptyOnly(rs, FileOf(c))
    ensures var s := Run(EMPTY, rs, sha);
      FileOf(c) !in s.finals && Step(s, c, e, sha).0 == s && Refused(Step(s, c, e, sha).1)
  {
    assert Inv(EMPTY, sha) && EmptyUnstored(EMPTY, FileOf(c));
    EmptyStays(EMPTY, rs, sha, FileOf(c));
    CompleteIsStored(EMPTY, rs, sha);
    hide Run;
    EmptyRefused(Run(EMPTY, rs, sha), c, e, sha);
  }

  lemma EmptyRefused(s: State, c: Call, e: Env, sha: Bytes -> string)
    requires Inv(s, sha) && c.Chunk? && EmptyUnstored(s, FileOf(c))
    ensures Step(s, c, e, sha).0 == s && Refused(Step(s, c, e, sha).1)
  {
    var k := FileOf(c);
    if Has(s.artifacts, k) { assert Intact(s, k.task, Entry(s.artifacts, k), sha); }
    hide Inv, Team.HoldsLease, Team.FindTask, FindArtifact;
  }

  // ----------------------------------------------------------------- what is answered

  /** An announcement is taken exactly when it is well-formed, with a SHA-256 and a size of at most 1 GiB, names
      an open task of the project, and is saved: the record is then just as announced; any other leaves
      everything. */
  lemma AnnounceMeaning(s: State, c: Call, e: Env, sha: Bytes -> string)
    requires Inv(s, sha) && c.Announce?
    ensures var ((s', reply), k) := (Step(s, c, e, sha), FileOf(c));
      && (reply == PayloadInvalid <==> c.artifact == "" || !IsDigest(c.digest) || c.size > 1_073_741_824)
      && (TakesEffect(c, e) ==> reply == Logged && Has(s'.artifacts, k) && s'.parts == s.parts && s'.finals == s.finals
                                && Entry(s'.artifacts, k) == Artifact(c.artifact, c.digest, c.size, Announced, 0, 0))
      && (!TakesEffect(c, e) ==> s' == s)
      && (reply == SaveFailed <==> ValidPayload(c) && TaskOpen(c, e.team) && !e.faults.save)
  {
    var a := Artifact(c.artifact, c.digest, c.size, Announced, 0, 0);
    AddedOwn(Listed(s.artifacts, c.task), a);
    hide Inv, Added, FindArtifact, IsDigest, TaskOpen;
  }

  // The project has that task, and the task that artifact.
  predicate Known(m: Records, team: Team.State, c: Call) {
    && (exists i :: 0 <= i < |team.tasks| && team.tasks[i].id == c.task && team.tasks[i].project == c.project)
    && exists j :: 0 <= j < |Listed(m, c.task)| && Listed(m, c.task)[j].id == c.artifact
  }

  lemma KnownExact(m: Records, team: Team.State, c: Call)
    requires Frames.Wf(team)
    ensures Found(m, team, c) <==> Known(m, team, c)
  {
    var i := Team.FindTask(team.tasks, c.task);
    if k :| 0 <= k < |team.tasks| && team.tasks[k].id == c.task && team.tasks[k].project == c.project { assert k == i; }
    if j :| 0 <= j < |Listed(m, c.task)| && Listed(m, c.task)[j].id == c.artifact {
      assert FindArtifact(Listed(m, c.task), c.artifact) <= j;
    }
  }

  /** The refusals of an init, in their order, for a task the project has and a lease that is held. */
  lemma InitReply(s: State, c: Call, e: Env, sha: Bytes -> string)
    requires Inv(s, sha) && Frames.Wf(e.team) && c.Init?
    ensures var (reply, k) := (Step(s, c, e, sha).1, FileOf(c));
      if c.project == "" || c.runtime == "" || c.token == 0 || c.task == 0 || c.artifact == "" then reply == FieldsRequired
      else if !Replies.Leased(e.team.runtimes, c.project, c.runtime, c.token, e.now) then reply == LeaseLost
      else if !Known(s.artifacts, e.team, c) then reply == NotFound
      else if Entry(s.artifacts, k).status == Complete then
        (k in s.finals && reply == AlreadyStored(|s.finals[k]|) && |s.finals[k]| == Entry(s.artifacts, k).size)
      else if k in s.finals then reply == AlreadyExists
      else if !e.faults.open then reply == StorageFailed
      else if !e.faults.write then reply == CloseFailed
      else reply == if e.faults.save then Ready else SaveFailed
  {
    KnownExact(s.artifacts, e.team, c);
    Replies.WfRuntimes(e.team);
    Replies.LeasedExact(e.team.runtimes, e.team.nextId, c.project, c.runtime, c.token, e.now);
    if Found(s.artifacts, e.team, c) { assert Intact(s, c.task, Entry(s.artifacts, FileOf(c)), sha); }
    hide Inv, Frames.Wf, Known, Replies.Leased, Team.HoldsLease, Found, Entry, Put, Has;
  }

  /** The refusals of a chunk, in their order; whatever passes them is appended. */
  lemma ChunkReply(s: State, c: Call, e: Env, sha: Bytes -> string)
    requires Frames.Wf(e.team) && c.Chunk?
    ensures var (reply, k) := (Step(s, c, e, sha).1, FileOf(c));
      if c.project == "" || c.runtime == "" || c.token == 0 || c.task == 0 || c.artifact == "" || c.offset < 0
      then reply == FieldsRequired
      else if |c.data| > 8_388_609 then reply == ChunkTooLarge
      else if |c.data| == 0 || |c.data| > 8_388_608 then reply == ChunkInvalid
      else if !Replies.Leased(e.team.runtimes, c.project, c.runtime, c.token, e.now) then reply == LeaseLost
      else if !Known(s.artifacts, e.team, c) then reply == NotFound
      else
        var a := Entry(s.artifacts, k);
        if a.status == Complete then reply == AlreadyStored(a.size)
        else if c.offset + |c.data| > a.size then reply == SizeExceeded
        else if k !in s.parts then reply == NotInitialized
        else if |s.parts[k]| != c.offset then reply == OffsetMismatch(|s.parts[k]|)
        else if !e.faults.open || !e.faults.write then reply == StorageFailed
        else Appends(s, c, e)
  {
    KnownExact(s.artifacts, e.team, c);
    Replies.WfRuntimes(e.team);
    Replies.LeasedExact(e.team.runtimes, e.team.nextId, c.project, c.runtime, c.token, e.now);
    hide Frames.Wf, Known, Replies.Leased, Team.HoldsLease, Found, Entry, Put, Has, FinalStep, AppendStep;
  }

  /** What the size in an answer says: a chunk that is accepted leaves the part file longer by itself, and its
      length is the offset answered; one that completes the artifact leaves the final file of that length, with
      a complete record; an init that is served leaves an empty part file. */
  lemma AnsweredOffset(s: State, c: Call, e: Env, sha: Bytes -> string)
    requires Inv(s, sha)
    ensures var ((s', reply), k) := (Step(s, c, e, sha), FileOf(c));
      && (reply.Accepted? ==> c.Chunk? && k in s.parts && c.offset == |s.parts[k]| && k in s'.parts
                              && s'.parts[k] == s.parts[k] + c.data && reply.offset == |s'.parts[k]|)
      && (reply.Stored? ==> c.Chunk? && k in s.parts && c.offset == |s.parts[k]| && k in s'.finals && k !in s'.parts
                            && s'.finals[k] == s.parts[k] + c.data && reply.offset == |s'.finals[k]|
                            && Has(s'.artifacts, k) && Entry(s'.artifacts, k).status == Complete)
      && (reply.Ready? ==> c.Init? && k in s'.parts && s'.parts[k] == [] && Has(s'.artifacts, k)
                           && Entry(s'.artifacts, k).status == Uploading && Entry(s'.artifacts, k).offset == 0)
      && (reply.HashMismatched? ==> k !in s'.finals)
      && (reply.HashMismatched? && e.faults.undo ==> k !in s'.parts)
      && (reply.HashMismatched? && e.faults.save ==> Has(s'.artifacts, k) && Entry(s'.artifacts, k).status == HashMismatch)
  {
    if Appends(s, c, e) {
      AppendAnswered(s, c, e, sha);
    } else if Truncates(s, c, e) {
      TruncateAnswered(s, c, e);
    } else {
      hide AnnounceStep, Inv, Has, Entry;
    }
  }

  lemma TruncateAnswered(s: State, c: Call, e: Env)
    requires Truncates(s, c, e)
    ensures var ((s', reply), k) := (TruncateStep(s, c, e), FileOf(c));
      && (reply.Ready? ==> k in s'.parts && s'.parts[k] == [] && Has(s'.artifacts, k)
                           && Entry(s'.artifacts, k).status == Uploading && Entry(s'.artifacts, k).offset == 0)
      && !reply.Accepted? && !reply.Stored?
  {
    var k := FileOf(c);
    assert Has(s.artifacts, k);
    hide InitGuard, Put, Has, Entry;
    PutRecord(s.artifacts, k, Entry(s.artifacts, k).(status := Uploading, offset := 0), k);
  }

  lemma AppendAnswered(s: State, c: Call, e: Env, sha: Bytes -> string)
    requires Appends(s, c, e)
    ensures var ((s', reply), k) := (Step(s, c, e, sha), FileOf(c));
      && k in s.parts && c.offset == |s.parts[k]| && !reply.Ready?
      && (reply.Accepted? ==> k in s'.parts && s'.parts[k] == s.parts[k] + c.data && reply.offset == |s'.parts[k]|)
      && (reply.Stored? ==> k in s'.finals && k !in s'.parts && s'.finals[k] == s.parts[k] + c.data
                            && reply.offset == |s'.finals[k]| && Has(s'.artifacts, k)
                            && Entry(s'.artifacts, k).status == Complete)
      && (reply.HashMismatched? ==> s'.finals == s.finals)
      && (reply.HashMismatched? && e.faults.undo ==> k !in s'.parts)
      && (reply.HashMismatched? && e.faults.save ==> Has(s'.artifacts, k) && Entry(s'.artifacts, k).status == HashMismatch)
  {
    var k := FileOf(c);
    assert Has(s.artifacts, k) && k in s.parts && c.offset == |s.parts[k]|;
    hide ChunkGuard, Put, Has, Entry;
    var part := s.parts[k] + c.data;
    PutRecord(s.artifacts, k, Entry(s.artifacts, k).(status := HashMismatch, offset := 0), k);
    PutRecord(s.artifacts, k, Entry(s.artifacts, k).(status := Complete, stored := |part|), k);
  }

  // --------------------------------------------------- such states in runs from the start

  // A runtime registers and a task is created; the lease holds just until the upload.
  const TEAM_CALLS := [Team.Call(Team.Register("p", "r"), Team.Env(4, 0, true)),
                       Team.Call(Team.Create("p", [], Team.Small, "", ""), Team.Env(4, Team.LEASE, true))]

  ghost predicate TeamWaits(team: Team.State) {
    && Team.HoldsLease(team.runtimes, "p", "r", 1, Team.LEASE)
    && |team.tasks| == 1 && team.tasks[0].id == 2 && team.tasks[0].project == "p" && team.tasks[0].status == Team.Accepted
  }

  lemma TeamReady()
    ensures TeamWaits(Team.Run(Team.EMPTY, TEAM_CALLS))
  {
    var first, later := TEAM_CALLS[0].env, TEAM_CALLS[1].env;
    var t1 := Team.After(Team.EMPTY, TEAM_CALLS[0].req, first);
    Quiet.FirstRegister(first);
    Quiet.QuietCreate(t1, [], Team.Small, later, 0, Team.LEASE);
    var t2 := Team.After(t1, TEAM_CALLS[1].req, later);
    assert TEAM_CALLS[1..][1..] == [];
    assert Team.Run(t2, []) == t2 && Team.Run(t1, TEAM_CALLS[1..]) == t2;
    hide Team.After;
  }

  const FINE := Faults(true, true, true, true, true, true)
  const BYTES: Bytes := [0]
  const FILE := Key(2, "a")

  function At(f: Faults): Env { Env(Team.Run(Team.EMPTY, TEAM_CALLS), Team.LEASE, f) }

  function Announcing(sha: Bytes -> string): Request { Request(Announce("p", 2, "a", sha(BYTES), 1), At(FINE)) }

  function Starting(): Request { Request(Init("p", "r", 1, 2, "a"), At(FINE)) }

  function Sending(f: Faults): Request { Request(Chunk("p", "r", 1, 2, "a", 0, BYTES), At(f)) }

  // The state of the upload before its only chunk.
  function Begun(sha: Bytes -> string): State {
    State(map[2 := [Artifact("a", sha(BYTES), 1, Uploading, 0, 0)]], map[FILE := []], map[])
  }

  lemma FindOnly(a: Artifact)
    ensures FindArtifact([a], a.id) == 0
  {
  }

  lemma Announced1(sha: Bytes -> string)
    requires IsDigest(sha(BYTES))
    ensures Step(EMPTY, Announcing(sha).call, At(FINE), sha).0 ==
      State(map[2 := [Artifact("a", sha(BYTES), 1, Announced, 0, 0)]], map[], map[])
  {
    TeamReady();
    hide Team.Run;
    var c, e := Announcing(sha).call, At(FINE);
    assert TakesEffect(c, e);
    var a := Artifact("a", sha(BYTES), 1, Announced, 0, 0);
    assert Listed(EMPTY.artifacts, 2) == [] && [] + [a] == [a] && Added([], a) == [a];
    hide IsDigest, TaskOpen, Added;
  }

  lemma Started1(s: State, sha: Bytes -> string)
    requires s == State(map[2 := [Artifact("a", sha(BYTES), 1, Announced, 0, 0)]], map[], map[])
    ensures Step(s, Starting().call, At(FINE), sha).0 == Begun(sha)
  {
    TeamReady();
    hide Team.Run;
    var c, e, a := Starting().call, At(FINE), s.artifacts[2][0];
    FindOnly(a);
    assert Entry(s.artifacts, FILE) == a && Found(s.artifacts, e.team, c);
    assert Truncates(s, c, e);
    var b := a.(status := Uploading, offset := 0);
    assert [a][0 := b] == [b];
    assert Put(s.artifacts, FILE, b) == map[2 := [b]];
    hide InitGuard, Put, Entry, Found;
  }

  lemma Beginning(sha: Bytes -> string)
    requires IsDigest(sha(BYTES))
    ensures Run(EMPTY, [Announcing(sha), Starting()], sha) == Begun(sha)
  {
    hide Step, Begun, Team.Run;
    var s1 := Step(EMPTY, Announcing(sha).call, At(FINE), sha).0;
    Announced1(sha);
    Started1(s1, sha);
    assert [Announcing(sha), Starting()][1..] == [Starting()] && [Starting()][1..] == [];
    var s2 := Step(s1, Starting().call, At(FINE), sha).0;
    assert Run(s2, [], sha) == s2;
    assert Run(s1, [Starting()], sha) == s2;
  }

  lemma {:induction false} RunJoin(s: State, a: seq<Request>, b: seq<Request>, sha: Bytes -> string)
    ensures Run(s, a + b, sha) == Run(Run(s, a, sha), b, sha)
    decreases |a|
  {
    hide Step;
    if |a| == 0 {
      assert a + b == b;
    } else {
      assert (a + b)[0] == a[0] && (a + b)[1..] == a[1..] + b;
      RunJoin(Step(s, a[0].call, a[0].env, sha).0, a[1..], b, sha);
    }
  }

  lemma LastOne(sha: Bytes -> string, f: Faults)
    requires f.open && f.write
    ensures var c, e := Sending(f).call, At(f);
      && Inv(Begun(sha), sha) && Appends(Begun(sha), c, e) && IsLast(Begun(sha), c, e) && FileOf(c) == FILE
      && Begun(sha).parts[FILE] + c.data == BYTES && Entry(Begun(sha).artifacts, FILE).digest == sha(BYTES)
  {
    TeamReady();
    hide Team.Run;
    FindOnly(Begun(sha).artifacts[2][0]);
    assert [] + BYTES == BYTES;
  }

  lemma AfterChunk(sha: Bytes -> string, f: Faults)
    requires IsDigest(sha(BYTES))
    ensures Run(EMPTY, [Announcing(sha), Starting(), Sending(f)], sha) == Step(Begun(sha), Sending(f).call, At(f), sha).0
  {
    Beginning(sha);
    hide Step, Begun;
    RunJoin(EMPTY, [Announcing(sha), Starting()], [Sending(f)], sha);
    assert [Announcing(sha), Starting()] + [Sending(f)] == [Announcing(sha), Starting(), Sending(f)];
    assert [Sending(f)][1..] == [];
    var s := Begun(sha);
    assert Run(s, [Sending(f)], sha) == Run(Step(s, Sending(f).call, At(f), sha).0, [], sha);
  }

  /** A run from the start, with a team that is one too, after which the part file is full: the last chunk
      could not be read back. */
  lemma FullReached(sha: Bytes -> string)
    requires IsDigest(sha(BYTES))
    ensures Full(Run(EMPTY, [Announcing(sha), Starting(), Sending(FINE.(read := false))], sha), FILE)
  {
    var f := FINE.(read := false);
    AfterChunk(sha, f);
    LastOne(sha, f);
    hide Run, Team.Run, Inv, IsLast, ChunkGuard;
    LastChunkFills(Begun(sha), Sending(f).call, At(f), sha);
  }

  /** And two after which the final file stands without a complete record: the last chunk could be neither
      recorded nor named back; the stored artifact is announced again. */
  lemma StuckReached(sha: Bytes -> string)
    requires IsDigest(sha(BYTES))
    ensures Stuck(Run(EMPTY, [Announcing(sha), Starting(), Sending(FINE.(save := false, undo := false))], sha), FILE)
    ensures Stuck(Run(EMPTY, [Announcing(sha), Starting(), Sending(FINE), Announcing(sha)], sha), FILE)
  {
    FailedRecord(sha);
    AnnouncedAgain(sha);
    hide Run, Stuck;
  }

  lemma FailedRecord(sha: Bytes -> string)
    requires IsDigest(sha(BYTES))
    ensures Stuck(Run(EMPTY, [Announcing(sha), Starting(), Sending(FINE.(save := false, undo := false))], sha), FILE)
  {
    var f := FINE.(save := false, undo := false);
    AfterChunk(sha, f);
    LastOne(sha, f);
    hide Run, Team.Run, Inv, IsLast, ChunkGuard, Entry, Begun;
    assert Unnamed(Begun(sha), Sending(f).call, At(f), sha);
    StepStuck(Begun(sha), Sending(f).call, At(f), sha, FILE);
  }

  lemma StoredOnce(sha: Bytes -> string)
    ensures var s := Step(Begun(sha), Sending(FINE).call, At(FINE), sha).0; Inv(s, sha) && FILE in s.finals
  {
    LastOne(sha, FINE);
    StepInv(Begun(sha), Sending(FINE).call, At(FINE), sha);
    hide Run, Team.Run, Inv, IsLast, ChunkGuard, Entry, Begun, Put;
  }

  lemma AnnouncedAgain(sha: Bytes -> string)
    requires IsDigest(sha(BYTES))
    ensures Stuck(Run(EMPTY, [Announcing(sha), Starting(), Sending(FINE), Announcing(sha)], sha), FILE)
  {
    var s, again := Step(Begun(sha), Sending(FINE).call, At(FINE), sha).0, Announcing(sha);
    TeamReady();
    hide Team.Run;
    assert TakesEffect(again.call, again.env);
    hide Step, Begun, Inv, TakesEffect, Stuck;
    StoredOnce(sha);
    AfterChunk(sha, FINE);
    StepStuck(s, again.call, again.env, sha, FILE);
    RunJoin(EMPTY, [Announcing(sha), Starting(), Sending(FINE)], [again], sha);
    assert [Announcing(sha), Starting(), Sending(FINE)] + [again] == [Announcing(sha), Starting(), Sending(FINE), again];
    assert [again][1..] == [];
    var s' := Step(s, again.call, again.env, sha).0;
    assert Run(s', [], sha) == s';
    assert Run(s, [again], sha) == s';
  }

  // ---------------------------------------------------------------- who may upload

  /** A token that is dead at some moment, or a fenced entry, cannot upload: whatever requests follow,
      a call carrying the dead token changes no file and no record, and neither does one for an entry
      that is fenced when it arrives. */
  lemma DeadTokenCannotUpload(team: Team.State, calls: seq<Team.Call>, s: State, c: Call, e: Env, sha: Bytes -> string)
    requires !c.Announce?
    requires || (Frames.Wf(team) && Fencing.Dead(team, c.project, c.runtime, c.token) && e.team == Team.Run(team, calls))
             || Fencing.AllFenced(e.team.runtimes, c.project, c.runtime)
    ensures Step(s, c, e, sha).0 == s
    ensures Step(s, c, e, sha).1 in {FieldsRequired, ChunkTooLarge, ChunkInvalid, LeaseLost}
  {
    hide Team.Run, Team.After, Team.Reply, Frames.Wf, Found, Entry, Has;
    var poll := Team.Poll(c.project, c.runtime, c.token, 1);
    var env := Team.Env(0, e.now, true);
    if Fencing.AllFenced(e.team.runtimes, c.project, c.runtime) {
      Fencing.FencedRefused(e.team, poll, env, c.project, c.runtime, c.token);
    } else {
      Fencing.DeadForever(team, calls, c.project, c.runtime, c.token);
      Fencing.DeadRefused(e.team, poll, env, c.project, c.runtime, c.token);
    }
  }
}
