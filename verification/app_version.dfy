/**
  Application versions: parsing, comparing, and finding the newest catalogue entry of an
  installed application.  White space and letter case are those of ASCII.
 */
module AppVersion {

  datatype Option<T> = None | Some(value: T)

  datatype Version = Version(core: seq<nat>, pre: seq<string>)

  datatype App = App(key: string, id: string, name: string, version: string)

  // --------------------------------------------------------------------- text helpers

  predicate IsSpace(c: char) { c in {' ', '\t', '\n', '\U{B}', '\U{C}', '\r', '\U{85}', '\U{A0}'} }

  function TrimLeft(s: string): string {
    if |s| > 0 && IsSpace(s[0]) then TrimLeft(s[1..]) else s
  }

  function TrimRight(s: string): string {
    if |s| > 0 && IsSpace(s[|s| - 1]) then TrimRight(s[..|s| - 1]) else s
  }

  function Trim(s: string): string { TrimRight(TrimLeft(s)) }

  function DropPrefix(s: string, c: char): string {
    if |s| > 0 && s[0] == c then s[1..] else s
  }

  // Position of the first c, or the length.
  function IndexOf(s: string, c: char): (i: nat)
    ensures i <= |s| && (i < |s| ==> s[i] == c) && forall j :: 0 <= j < i ==> s[j] != c
  {
    if |s| == 0 || s[0] == c then 0 else 1 + IndexOf(s[1..], c)
  }

  function Split(s: string, c: char): (parts: seq<string>)
    ensures |parts| > 0 && forall k :: 0 <= k < |parts| ==> c !in parts[k]
  {
    var i := IndexOf(s, c);
    if i == |s| then [s] else [s[..i]] + Split(s[i + 1..], c)
  }

  function LowerChar(c: char): char { if 'A' <= c <= 'Z' then c - 'A' + 'a' else c }

  function Lower(s: string): string { seq(|s|, i requires 0 <= i < |s| => LowerChar(s[i])) }

  // ---------------------------------------------------------------------------- Atoi

  const MAX_INT: int := 0x7FFF_FFFF_FFFF_FFFF

  predicate IsDigits(s: string) { |s| > 0 && forall i :: 0 <= i < |s| ==> '0' <= s[i] <= '9' }

  function DigitOf(c: char): nat { if '0' <= c <= '9' then c as int - '0' as int else 0 }

  function ValueOf(s: string): nat {
    if |s| == 0 then 0 else 10 * ValueOf(s[..|s| - 1]) + DigitOf(s[|s| - 1])
  }

  // An optional sign and decimal digits, within 64 bits.
  function Atoi(s: string): Option<int> {
    var negative := |s| > 0 && s[0] == '-';
    var digits := if |s| > 0 && s[0] in {'-', '+'} then s[1..] else s;
    if !IsDigits(digits) then None
    else
      var n: int := if negative then -(ValueOf(digits) as int) else ValueOf(digits) as int;
      if -MAX_INT - 1 <= n <= MAX_INT then Some(n) else None
  }

  // -------------------------------------------------------------------------- parsing

  predicate IsCorePart(s: string) { Atoi(s).Some? && Atoi(s).value >= 0 }

  function ParseCore(parts: seq<string>): Option<seq<nat>> {
    if forall i :: 0 <= i < |parts| ==> IsCorePart(parts[i])
    then Some(seq(|parts|, i requires 0 <= i < |parts| => Atoi(parts[i]).value)) else None
  }

  // Without a leading v and without margins.
  function Bare(text: string): string { Trim(DropPrefix(DropPrefix(text, 'v'), 'V')) }

  // What precedes the build metadata.
  function Release(value: string): string { value[..IndexOf(value, '+')] }

  function CoreText(release: string): string { release[..IndexOf(release, '-')] }

  function PreTexts(release: string): seq<string> {
    var dash := IndexOf(release, '-');
    if dash < |release| then Split(release[dash + 1..], '.') else []
  }

  function Parse(text: string): Option<Version> {
    var release := Release(Bare(text));
    var core := ParseCore(Split(CoreText(release), '.'));
    if Bare(text) == "" || core.None? || "" in PreTexts(release) then None else Some(Version(core.value, PreTexts(release)))
  }

  method ParseComponents(parts: seq<string>) returns (r: Option<seq<nat>>)
    ensures r == ParseCore(parts)
  {
    hide Atoi;
    var core: seq<nat> := [];
    for i := 0 to |parts|
      invariant |core| == i && forall j :: 0 <= j < i ==> IsCorePart(parts[j]) && core[j] == Atoi(parts[j]).value
    {
      var n := Atoi(parts[i]);
      if n.None? || n.value < 0 {
        assert !IsCorePart(parts[i]);
        return None;
      }
      core := core + [n.value];
    }
    assert core == ParseCore(parts).value;
    r := Some(core);
  }

  method ParseVersion(text: string) returns (r: Option<Version>)
    ensures r == Parse(text)
  {
    hide Trim, DropPrefix, Split, IndexOf, ParseCore;
    var value := Trim(DropPrefix(DropPrefix(text, 'v'), 'V'));
    if value == "" { return None; }
    var whole := value[..IndexOf(value, '+')];
    var dash := IndexOf(whole, '-');
    var core := ParseComponents(Split(whole[..dash], '.'));
    if core.None? { return None; }
    var pre: seq<string> := [];
    if dash < |whole| {
      var ids := Split(whole[dash + 1..], '.');
      for i := 0 to |ids|
        invariant pre == ids[..i] && "" !in ids[..i]
      {
        if ids[i] == "" { return None; }
        pre := pre + [ids[i]];
      }
      assert pre == ids;
    }
    r := Some(Version(core.value, pre));
  }

  // ------------------------------------------------------------------------ comparing

  function CompareInt(a: int, b: int): int { if a > b then 1 else if a < b then -1 else 0 }

  function CompareChar(a: char, b: char): int { CompareInt(a as int, b as int) }

  // Element by element; a proper prefix comes first.
  function CompareSeq<T>(a: seq<T>, b: seq<T>, compare: (T, T) -> int): int {
    if |a| == 0 && |b| == 0 then 0
    else if |a| == 0 then -1
    else if |b| == 0 then 1
    else
      var c := compare(a[0], b[0]);
      if c != 0 then c else CompareSeq(a[1..], b[1..], compare)
  }

  function CompareText(a: string, b: string): int { CompareSeq(a, b, CompareChar) }

  // Numbers by value and before anything else; the rest, and equal numbers, as text.
  function CompareId(a: string, b: string): int {
    var m, n := Atoi(a), Atoi(b);
    if m.Some? && n.Some? && m.value != n.value then CompareInt(m.value, n.value)
    else if m.Some? && n.None? then -1
    else if m.None? && n.Some? then 1
    else CompareText(a, b)
  }

  function ComparePre(a: seq<string>, b: seq<string>): int {
    if a == [] && b == [] then 0
    else if a == [] then 1
    else if b == [] then -1
    else CompareSeq(a, b, CompareId)
  }

  // A missing component counts as zero.
  function At(core: seq<nat>, i: nat): nat { if i < |core| then core[i] else 0 }

  function CompareCore(a: seq<nat>, b: seq<nat>, i: nat): int
    decreases |a| + |b| - i
  {
    if i >= |a| && i >= |b| then 0
    else if At(a, i) != At(b, i) then CompareInt(At(a, i), At(b, i))
    else CompareCore(a, b, i + 1)
  }

  function Compare(a: Version, b: Version): int {
    var c := CompareCore(a.core, b.core, 0);
    if c != 0 then c else ComparePre(a.pre, b.pre)
  }

  function Folded(v: string): string { Lower(Trim(v)) }

  // Versions that cannot be parsed are compared as text.
  function CompareVersions(a: string, b: string): int {
    var m, n := Parse(a), Parse(b);
    if m.None? || n.None? then CompareText(Folded(a), Folded(b)) else Compare(m.value, n.value)
  }

  method CompareAppVersion(a: string, b: string) returns (c: int)
    ensures c == CompareVersions(a, b)
  {
    hide Parse, ComparePre, CompareText;
    var m := ParseVersion(a);
    var n := ParseVersion(b);
    if m.None? || n.None? { return CompareText(Lower(Trim(a)), Lower(Trim(b))); }
    var x, y := m.value.core, n.value.core;
    var i := 0;
    while i < |x| || i < |y|
      invariant CompareCore(x, y, i) == CompareCore(x, y, 0)
      decreases |x| + |y| - i
    {
      var an, bn := 0, 0;
      if i < |x| { an := x[i]; }
      if i < |y| { bn := y[i]; }
      if an != bn { return if an > bn then 1 else -1; }
      i := i + 1;
    }
    c := ComparePreRelease(m.value.pre, n.value.pre);
  }

  method ComparePreRelease(x: seq<string>, y: seq<string>) returns (c: int)
    ensures c == ComparePre(x, y)
  {
    hide Atoi, CompareText;
    if |x| == 0 && |y| == 0 { return 0; }
    if |x| == 0 { return 1; }
    if |y| == 0 { return -1; }
    var i := 0;
    while i < |x| && i < |y|
      invariant i <= |x| && i <= |y|
      invariant CompareSeq(x[i..], y[i..], CompareId) == CompareSeq(x, y, CompareId)
    {
      assert x[i..][1..] == x[i + 1..] && y[i..][1..] == y[i + 1..];
      var ai, bi := Atoi(x[i]), Atoi(y[i]);
      if ai.Some? && bi.Some? && ai.value != bi.value { return if ai.value > bi.value then 1 else -1; }
      if ai.Some? && bi.None? { return -1; }
      if ai.None? && bi.Some? { return 1; }
      var cmp := CompareText(x[i], y[i]);
      if cmp != 0 { return cmp; }
      i := i + 1;
    }
    c := CompareInt(|x|, |y|);
  }

  // ------------------------------------------------------------------- a total order

  ghost predicate Ordering<T(!new)>(compare: (T, T) -> int) {
    && (forall x, y :: compare(x, y) in {-1, 0, 1} && compare(x, y) == -compare(y, x))
    && (forall x, y :: compare(x, y) == 0 ==> x == y)
    && (forall x, y, z :: compare(x, y) < 0 && compare(y, z) < 0 ==> compare(x, z) < 0)
  }

  lemma {:induction false} SeqSign<T(!new)>(a: seq<T>, b: seq<T>, compare: (T, T) -> int)
    requires Ordering(compare)
    ensures CompareSeq(a, b, compare) in {-1, 0, 1} && CompareSeq(a, b, compare) == -CompareSeq(b, a, compare)
    ensures CompareSeq(a, b, compare) == 0 <==> a == b
  {
    if |a| == 0 || |b| == 0 {
    } else {
      SeqSign(a[1..], b[1..], compare);
      assert a == [a[0]] + a[1..] && b == [b[0]] + b[1..];
      assert compare(a[0], a[0]) == -compare(a[0], a[0]);
    }
  }

  lemma {:induction false} SeqTransitive<T(!new)>(a: seq<T>, b: seq<T>, c: seq<T>, compare: (T, T) -> int)
    requires Ordering(compare) && CompareSeq(a, b, compare) < 0 && CompareSeq(b, c, compare) < 0
    ensures CompareSeq(a, c, compare) < 0
  {
    if |a| == 0 {
    } else {
      assert |b| > 0 && |c| > 0;
      if compare(a[0], b[0]) == 0 && compare(b[0], c[0]) == 0 { SeqTransitive(a[1..], b[1..], c[1..], compare); }
    }
  }

  lemma SeqOrdering<T(!new)>(compare: (T, T) -> int)
    requires Ordering(compare)
    ensures Ordering((a, b) => CompareSeq(a, b, compare))
  {
    forall a, b ensures CompareSeq(a, b, compare) in {-1, 0, 1} && CompareSeq(a, b, compare) == -CompareSeq(b, a, compare)
                        && (CompareSeq(a, b, compare) == 0 ==> a == b) {
      SeqSign(a, b, compare);
    }
    forall a, b, c | CompareSeq(a, b, compare) < 0 && CompareSeq(b, c, compare) < 0 ensures CompareSeq(a, c, compare) < 0 {
      SeqTransitive(a, b, c, compare);
    }
  }

  lemma IdOrdering()
    ensures Ordering(CompareId)
  {
    assert Ordering(CompareChar);
    SeqOrdering(CompareChar);
    var text := (a, b) => CompareSeq(a, b, CompareChar);
    assert forall a, b :: text(a, b) == CompareText(a, b);
    hide Atoi, CompareSeq;
  }

  // ------------------------------------------------------- what the order is defined by

  // They agree before position k, where a ends or has the smaller element.
  ghost predicate DiffersAt<T(!new)>(a: seq<T>, b: seq<T>, k: nat, compare: (T, T) -> int) {
    && k <= |a| && k < |b| && (forall j :: 0 <= j < k ==> a[j] == b[j])
    && (k < |a| ==> compare(a[k], b[k]) < 0)
  }

  // Section 11 of Semantic Versioning 2.0.0, for cores of any length: components
  // numerically, a pre-release before its release, pre-releases identifier by identifier.
  ghost predicate Precedes(a: Version, b: Version) {
    || (exists k :: CoreBelow(a.core, b.core, k))
    || (SameCore(a.core, b.core) &&
        (if a.pre == [] || b.pre == [] then a.pre != [] && b.pre == [] else exists k :: DiffersAt(a.pre, b.pre, k, CompareId)))
  }

  // The first k components agree, and the next is smaller.
  ghost predicate CoreBelow(a: seq<nat>, b: seq<nat>, k: nat) {
    At(a, k) < At(b, k) && forall j :: 0 <= j < k ==> At(a, j) == At(b, j)
  }

  // Equal up to trailing zeros.
  ghost predicate SameCore(a: seq<nat>, b: seq<nat>) { forall i :: At(a, i) == At(b, i) }

  lemma {:induction false} CoreMeaning(a: seq<nat>, b: seq<nat>, i: nat)
    requires forall j :: 0 <= j < i ==> At(a, j) == At(b, j)
    ensures var c := CompareCore(a, b, i);
      && c in {-1, 0, 1} && (c < 0 <==> exists k :: CoreBelow(a, b, k)) && (c > 0 <==> exists k :: CoreBelow(b, a, k))
      && (c == 0 <==> SameCore(a, b))
    decreases |a| + |b| - i
  {
    if i >= |a| && i >= |b| {
    } else {
      if At(a, i) < At(b, i) {
        assert CoreBelow(a, b, i);
      } else if At(a, i) > At(b, i) {
        assert CoreBelow(b, a, i);
      } else {
        CoreMeaning(a, b, i + 1);
      }
    }
  }

  lemma {:induction false} SeqMeaning<T(!new)>(a: seq<T>, b: seq<T>, compare: (T, T) -> int)
    requires Ordering(compare)
    ensures CompareSeq(a, b, compare) < 0 <==> exists k :: DiffersAt(a, b, k, compare)
  {
    if |a| > 0 && |b| > 0 && compare(a[0], b[0]) == 0 {
      SeqMeaning(a[1..], b[1..], compare);
      if k: nat :| DiffersAt(a[1..], b[1..], k, compare) { assert DiffersAt(a, b, k + 1, compare); }
      if k: nat :| DiffersAt(a, b, k, compare) { assert DiffersAt(a[1..], b[1..], k - 1, compare); }
    } else if |b| > 0 && (|a| == 0 || compare(a[0], b[0]) < 0) {
      assert DiffersAt(a, b, 0, compare);
    }
  }

  // Numbers by value and before all else; the rest, and numbers of one value, as text.
  ghost predicate IdBelow(x: string, y: string) {
    var m, n := Atoi(x), Atoi(y);
    if m.Some? && n.Some? && m.value != n.value then m.value < n.value
    else if m.Some? != n.Some? then m.Some?
    else exists k :: DiffersAt(x, y, k, CompareChar)
  }

  /** The order of the identifiers of a pre-release. */
  lemma IdMeaning(x: string, y: string)
    ensures CompareId(x, y) < 0 <==> IdBelow(x, y)
  {
    assert Ordering(CompareChar);
    SeqMeaning(x, y, CompareChar);
    hide Atoi, CompareSeq, DiffersAt;
  }

  /** Comparing decides precedence, and its sign turns with its arguments; it is zero exactly when the
      cores agree up to trailing zeros and the pre-releases are the same. */
  lemma CompareMeaning(a: Version, b: Version)
    ensures Compare(a, b) in {-1, 0, 1} && Compare(a, b) == -Compare(b, a)
    ensures Compare(a, b) < 0 <==> Precedes(a, b)
    ensures Compare(a, b) == 0 <==> SameCore(a.core, b.core) && a.pre == b.pre
  {
    IdOrdering();
    CoreMeaning(a.core, b.core, 0);
    CoreMeaning(b.core, a.core, 0);
    SeqSign(a.pre, b.pre, CompareId);
    SeqMeaning(a.pre, b.pre, CompareId);
  }

  lemma {:induction false} CoreTransitive(a: seq<nat>, b: seq<nat>, c: seq<nat>, i: nat)
    requires CompareCore(a, b, i) <= 0 && CompareCore(b, c, i) <= 0
    ensures CompareCore(a, c, i) <= 0
    ensures CompareCore(a, c, i) == 0 <==> CompareCore(a, b, i) == 0 && CompareCore(b, c, i) == 0
    decreases |a| + |b| + |c| - i
  {
    if i >= |a| && i >= |b| && i >= |c| {
    } else {
      assert forall x: seq<nat>, y: seq<nat> :: i >= |x| && i >= |y| ==> CompareCore(x, y, i + 1) == 0;
      if At(a, i) == At(b, i) == At(c, i) { CoreTransitive(a, b, c, i + 1); }
    }
  }

  /** Comparing is transitive on parsed versions, ties included. */
  lemma CompareTransitive(a: Version, b: Version, c: Version)
    requires Compare(a, b) <= 0 && Compare(b, c) <= 0
    ensures Compare(a, c) <= 0
    ensures Compare(a, c) == 0 <==> Compare(a, b) == 0 && Compare(b, c) == 0
  {
    IdOrdering();
    CoreTransitive(a.core, b.core, c.core, 0);
    SeqSign(a.pre, b.pre, CompareId);
    SeqSign(b.pre, c.pre, CompareId);
    SeqSign(a.pre, c.pre, CompareId);
    if CompareSeq(a.pre, b.pre, CompareId) < 0 && CompareSeq(b.pre, c.pre, CompareId) < 0 {
      SeqTransitive(a.pre, b.pre, c.pre, CompareId);
    }
  }

  /** Comparing two texts in the other order gives the other sign, whether they parse or not. */
  lemma CompareFlips(a: string, b: string)
    ensures CompareVersions(a, b) == -CompareVersions(b, a)
  {
    var m, n := Parse(a), Parse(b);
    if m.Some? && n.Some? { CompareMeaning(m.value, n.value); }
    assert Ordering(CompareChar);
    SeqSign(Folded(a), Folded(b), CompareChar);
    hide Parse, Compare, CompareSeq, Folded;
  }

  // ----------------------------------------------------- when the comparison is an order

  predicate Parses(text: string) { Parse(text).Some? }

  function TextOrder(a: string, b: string): int { CompareText(Folded(a), Folded(b)) }

  // Two versions that parse, and one that does not between them as text, where the two compare the
  // other way round, or tie although the text does not.
  predicate Crossed(x: string, z: string, y: string) {
    && Parses(x) && Parses(y) && !Parses(z)
    && TextOrder(x, z) <= 0 && TextOrder(z, y) <= 0
    && (CompareVersions(x, y) > 0 || (CompareVersions(x, y) == 0 && (TextOrder(x, z) < 0 || TextOrder(z, y) < 0)))
  }

  ghost predicate NoneCrossed(vs: iset<string>) {
    forall x, z, y :: x in vs && z in vs && y in vs ==> !Crossed(x, z, y)
  }

  ghost predicate Transitive(vs: iset<string>) {
    forall x, y, z :: x in vs && y in vs && z in vs && CompareVersions(x, y) <= 0 && CompareVersions(y, z) <= 0 ==>
      CompareVersions(x, z) <= 0
  }

  lemma TextTransitive(a: string, b: string, c: string)
    requires TextOrder(a, b) <= 0 && TextOrder(b, c) <= 0
    ensures TextOrder(a, c) <= 0 && (TextOrder(a, c) == 0 ==> TextOrder(a, b) == 0 && TextOrder(b, c) == 0)
  {
    assert Ordering(CompareChar);
    var x, y, z := Folded(a), Folded(b), Folded(c);
    hide Folded, CompareSeq;
    SeqSign(x, y, CompareChar);
    SeqSign(y, z, CompareChar);
    SeqSign(x, z, CompareChar);
    if TextOrder(a, b) < 0 && TextOrder(b, c) < 0 { SeqTransitive(x, y, z, CompareChar); }
  }

  lemma TextFlips(a: string, b: string)
    ensures TextOrder(a, b) == -TextOrder(b, a)
  {
    assert Ordering(CompareChar);
    SeqSign(Folded(a), Folded(b), CompareChar);
    hide Folded, CompareSeq;
  }

  // What the comparison is of two texts.
  lemma ByText(a: string, b: string)
    ensures CompareVersions(a, b) == -CompareVersions(b, a) && TextOrder(a, b) == -TextOrder(b, a)
    ensures !(Parses(a) && Parses(b)) ==> CompareVersions(a, b) == TextOrder(a, b)
  {
    CompareFlips(a, b);
    TextFlips(a, b);
    hide Parse, Compare, CompareText, Folded;
  }

  lemma ParsedOrder(a: string, b: string, c: string)
    requires Parses(a) && Parses(b) && Parses(c) && CompareVersions(a, b) <= 0 && CompareVersions(b, c) <= 0
    ensures CompareVersions(a, c) <= 0
  {
    hide Parse, Compare;
    CompareTransitive(Parse(a).value, Parse(b).value, Parse(c).value);
  }

  // A step of the order from x over y to z that is not one from x to z crosses.
  lemma BrokenCrosses(x: string, y: string, z: string)
    requires CompareVersions(x, y) <= 0 && CompareVersions(y, z) <= 0 && CompareVersions(x, z) > 0
    ensures Crossed(x, y, z) || Crossed(z, x, y) || Crossed(y, z, x)
  {
    ByText(x, y);
    ByText(y, z);
    ByText(x, z);
    hide CompareVersions, TextOrder, Parses;
    if Parses(x) && Parses(y) && Parses(z) {
      ParsedOrder(x, y, z);
    } else if !Parses(y) && Parses(x) && Parses(z) {
      assert Crossed(x, y, z);
    } else if !Parses(x) && Parses(y) && Parses(z) {
      assert Crossed(z, x, y);
    } else if !Parses(z) && Parses(x) && Parses(y) {
      assert Crossed(y, z, x);
    } else {
      TextTransitive(x, y, z);
    }
  }

  /** The comparison is transitive on a set of texts exactly when none of them lies across two others. */
  lemma TransitiveExact(vs: iset<string>)
    ensures Transitive(vs) <==> NoneCrossed(vs)
  {
    hide CompareVersions, TextOrder, Parses;
    if Transitive(vs) {
      forall x, z, y | x in vs && z in vs && y in vs ensures !Crossed(x, z, y) {
        ByText(x, z);
        ByText(z, y);
        ByText(x, y);
      }
    }
    if NoneCrossed(vs) {
      forall x, y, z | x in vs && y in vs && z in vs && CompareVersions(x, y) <= 0 && CompareVersions(y, z) <= 0
        ensures CompareVersions(x, z) <= 0
      {
        if CompareVersions(x, z) > 0 { BrokenCrosses(x, y, z); }
      }
    }
  }

  /** So it is where all of them parse, and where none does. */
  lemma AlikeTransitive(vs: iset<string>)
    requires (forall v :: v in vs ==> Parses(v)) || (forall v :: v in vs ==> !Parses(v))
    ensures Transitive(vs)
  {
    hide CompareVersions, TextOrder, Parses;
    TransitiveExact(vs);
  }

  // ------------------------------------------------------------------- the catalogue

  // Some name of the first, not blank, is a name of the second but for case and margins.
  predicate SameApp(a: App, b: App) {
    exists x, y :: x in [a.key, a.id, a.name] && y in [b.key, b.id, b.name] && Trim(x) != "" && Lower(Trim(x)) == Lower(Trim(y))
  }

  method AppIdentityEqual(a: App, b: App) returns (same: bool)
    ensures same == SameApp(a, b)
  {
    hide Trim, Lower;
    var lefts, rights := [a.key, a.id, a.name], [b.key, b.id, b.name];
    for i := 0 to 3
      invariant forall k, y :: 0 <= k < i && y in rights ==> Trim(lefts[k]) == "" || Lower(Trim(lefts[k])) != Lower(Trim(y))
    {
      var left := Trim(lefts[i]);
      if left == "" { continue; }
      for j := 0 to 3
        invariant forall k :: 0 <= k < j ==> Lower(left) != Lower(Trim(rights[k]))
      {
        if Lower(left) == Lower(Trim(rights[j])) {
          assert lefts[i] in lefts && rights[j] in rights;
          return true;
        }
      }
    }
    same := false;
  }

  predicate Matches(app: App, candidate: App) { SameApp(app, candidate) && Trim(candidate.version) != "" }

  // The entry found by keeping, from left to right, whatever is newer than the one kept.
  function Latest(app: App, catalog: seq<App>): Option<App> {
    if |catalog| == 0 then None
    else
      var before, candidate := Latest(app, catalog[..|catalog| - 1]), catalog[|catalog| - 1];
      if !Matches(app, candidate) then before
      else if before.None? || CompareVersions(candidate.version, before.value.version) > 0 then Some(candidate)
      else before
  }

  method LatestCatalogVersion(app: App, catalog: seq<App>) returns (r: Option<App>)
    ensures r == Latest(app, catalog)
  {
    r := None;
    for i := 0 to |catalog|
      invariant r == Latest(app, catalog[..i])
    {
      var candidate := catalog[i];
      assert catalog[..i + 1][..i] == catalog[..i];
      var same := AppIdentityEqual(app, candidate);
      if !same || Trim(candidate.version) == "" { continue; }
      var newer := true;
      if r.Some? {
        var c := CompareAppVersion(candidate.version, r.value.version);
        newer := c > 0;
      }
      if newer { r := Some(candidate); }
    }
    assert catalog[..|catalog|] == catalog;
  }

  // The versions of the entries the application could be updated to.
  ghost function Candidates(app: App, catalog: seq<App>): iset<string> {
    iset c | c in catalog && Matches(app, c) :: c.version
  }

  predicate Newest(app: App, catalog: seq<App>, latest: App) {
    forall c :: c in catalog && Matches(app, c) ==> CompareVersions(c.version, latest.version) <= 0
  }

  // The entry found is a newest of the matching ones, and none is found only if none matches.
  predicate NewestFound(app: App, catalog: seq<App>) {
    match Latest(app, catalog)
    case None => forall c :: c in catalog ==> !Matches(app, c)
    case Some(latest) => latest in catalog && Matches(app, latest) && Newest(app, catalog, latest)
  }

  // The scan passes over y, takes x, and y is newer than x.
  predicate Overtaken(x: string, y: string, z: string) {
    CompareVersions(y, z) <= 0 && CompareVersions(z, x) < 0 && CompareVersions(x, y) < 0
  }

  ghost predicate NoneOvertaken(vs: iset<string>) {
    forall x, y, z :: x in vs && y in vs && z in vs ==> !Overtaken(x, y, z)
  }

  lemma FoundExtends(app: App, front: seq<App>, last: App)
    requires NewestFound(app, front) && NoneOvertaken(Candidates(app, front + [last]))
    ensures NewestFound(app, front + [last])
  {
    var before, all := Latest(app, front), front + [last];
    hide Matches, CompareVersions, NoneOvertaken, Candidates;
    CompareFlips(last.version, last.version);
    assert all[..|all| - 1] == front && all[|all| - 1] == last;
    if Matches(app, last) && before.Some? { NewestExtends(app, front, before.value, last); }
  }

  /** If no matching version is overtaken the entry found is a newest of them, and there is one exactly when
      some entry matches. */
  lemma {:induction false} LatestIsNewest(app: App, catalog: seq<App>)
    requires NoneOvertaken(Candidates(app, catalog))
    ensures NewestFound(app, catalog)
  {
    if |catalog| == 0 {
    } else {
      var front, last := catalog[..|catalog| - 1], catalog[|catalog| - 1];
      assert catalog == front + [last];
      hide Matches, Overtaken, NewestFound;
      assert Candidates(app, front) <= Candidates(app, catalog);
      LatestIsNewest(app, front);
      FoundExtends(app, front, last);
    }
  }

  lemma NewestExtends(app: App, front: seq<App>, before: App, last: App)
    requires NoneOvertaken(Candidates(app, front + [last]))
    requires before in front && Matches(app, before) && Newest(app, front, before) && Matches(app, last)
    ensures Newest(app, front + [last], if CompareVersions(last.version, before.version) > 0 then last else before)
  {
    hide CompareVersions, Matches;
    var vs := Candidates(app, front + [last]);
    assert before.version in vs && last.version in vs;
    CompareFlips(last.version, before.version);
    CompareFlips(last.version, last.version);
    forall c | c in front && Matches(app, c) && CompareVersions(last.version, before.version) > 0
      ensures CompareVersions(c.version, last.version) <= 0
    {
      assert c.version in vs && !Overtaken(last.version, c.version, before.version);
      CompareFlips(c.version, last.version);
    }
  }

  function Named(version: string): App { App("app", "", "", version) }

  lemma NamedMatches(x: string, y: string)
    requires Trim(y) != ""
    ensures Matches(Named(x), Named(y))
  {
    TrimPlain("app");
  }

  lemma {:induction false} TrimRightKeeps(s: string)
    requires |s| > 0 && !IsSpace(s[0])
    ensures |TrimRight(s)| > 0
  {
    if !IsSpace(s[|s| - 1]) {
    } else {
      TrimRightKeeps(s[..|s| - 1]);
    }
  }

  lemma BlankUnread(text: string)
    requires Trim(text) == ""
    ensures !Parses(text)
  {
    if |text| > 0 && !IsSpace(text[0]) { TrimRightKeeps(text); }
    assert DropPrefix(DropPrefix(text, 'v'), 'V') == text;
    hide Trim, DropPrefix;
  }

  // Nothing is older than a blank version but another.
  lemma BlankOldest(a: string, b: string)
    requires CompareVersions(a, b) <= 0 && Trim(b) == ""
    ensures Trim(a) == ""
  {
    BlankUnread(b);
    hide Parse, Trim;
    assert Folded(b) == "" && |Folded(a)| == |Trim(a)|;
  }

  lemma OvertakenShown(x: string, y: string, z: string)
    requires Overtaken(x, y, z)
    ensures Trim(x) != "" && Trim(y) != "" && Trim(z) != ""
  {
    CompareFlips(z, x);
    CompareFlips(x, y);
    hide CompareVersions, Trim;
    if Trim(x) == "" {
      BlankOldest(z, x);
      BlankTie(z, x);
    }
    if Trim(y) == "" { BlankOldest(x, y); }
    if Trim(z) == "" { BlankOldest(y, z); }
  }

  lemma BlankTie(a: string, b: string)
    requires Trim(a) == "" && Trim(b) == ""
    ensures CompareVersions(a, b) == 0
  {
    BlankUnread(a);
    hide Parse, Trim;
  }

  // The scan of three entries in which the third overtakes the first and the second does not.
  lemma LatestOfThree(app: App, z: App, y: App, x: App)
    requires Matches(app, z) && Matches(app, y) && Matches(app, x) && Overtaken(x.version, y.version, z.version)
    ensures Latest(app, [z, y, x]) == Some(x)
  {
    hide Matches, CompareVersions;
    CompareFlips(z.version, x.version);
    assert [z][..0] == [];
    assert Latest(app, [z]) == Some(z);
    assert [z, y][..1] == [z];
    assert Latest(app, [z, y]) == Some(z);
    assert [z, y, x][..2] == [z, y];
  }

  lemma OvertakenMissed(x: string, y: string, z: string)
    requires Overtaken(x, y, z)
    ensures !NewestFound(Named(x), [Named(z), Named(y), Named(x)])
  {
    CompareFlips(x, y);
    OvertakenShown(x, y, z);
    hide Latest, Matches, CompareVersions, Trim;
    NamedMatches(x, x);
    NamedMatches(x, y);
    NamedMatches(x, z);
    LatestOfThree(Named(x), Named(z), Named(y), Named(x));
    assert Named(y) in [Named(z), Named(y), Named(x)];
  }

  // Every catalogue with these versions gives every application a newest entry.
  ghost predicate AlwaysNewest(vs: iset<string>) {
    forall app: App, catalog: seq<App> :: Drawn(catalog, vs) ==> NewestFound(app, catalog)
  }

  ghost predicate Drawn(catalog: seq<App>, vs: iset<string>) { forall c :: c in catalog ==> c.version in vs }

  /** Every catalogue drawn from a set of versions yields a newest entry exactly when none of them is
      overtaken by another. */
  lemma NewestExact(vs: iset<string>)
    ensures AlwaysNewest(vs) <==> NoneOvertaken(vs)
  {
    hide CompareVersions, Latest, Matches;
    if NoneOvertaken(vs) {
      forall app: App, catalog: seq<App> | Drawn(catalog, vs) ensures NewestFound(app, catalog) {
        assert Candidates(app, catalog) <= vs;
        LatestIsNewest(app, catalog);
      }
    }
    if AlwaysNewest(vs) {
      forall x, y, z | x in vs && y in vs && z in vs ensures !Overtaken(x, y, z) {
        assert Drawn([Named(z), Named(y), Named(x)], vs);
        if Overtaken(x, y, z) { OvertakenMissed(x, y, z); }
      }
    }
  }

  lemma TransitiveNewest(vs: iset<string>)
    requires Transitive(vs)
    ensures NoneOvertaken(vs)
  {
    hide CompareVersions;
    forall x, y, z | x in vs && y in vs && z in vs ensures !Overtaken(x, y, z) { CompareFlips(x, y); }
  }

  /** So the newest is found where all matching versions parse, and where none does. */
  lemma AlikeNewest(app: App, catalog: seq<App>)
    requires var vs := Candidates(app, catalog); (forall v :: v in vs ==> Parses(v)) || (forall v :: v in vs ==> !Parses(v))
    ensures NewestFound(app, catalog)
  {
    hide Parses, Candidates, NewestFound;
    AlikeTransitive(Candidates(app, catalog));
    TransitiveNewest(Candidates(app, catalog));
    LatestIsNewest(app, catalog);
  }

  datatype Update = Update(current: App, latest: App)

  function UpdatesOf(installed: seq<App>, catalog: seq<App>): seq<Update> {
    if |installed| == 0 then []
    else
      var latest := Latest(installed[0], catalog);
      (if latest.Some? && CompareVersions(latest.value.version, installed[0].version) > 0
       then [Update(installed[0], latest.value)] else []) + UpdatesOf(installed[1..], catalog)
  }

  lemma UpdatesFrom(installed: seq<App>, i: nat, catalog: seq<App>)
    requires i <= |installed|
    ensures i == |installed| ==> UpdatesOf(installed[i..], catalog) == []
    ensures i < |installed| ==>
      var latest := Latest(installed[i], catalog);
      UpdatesOf(installed[i..], catalog) ==
        (if latest.Some? && CompareVersions(latest.value.version, installed[i].version) > 0
         then [Update(installed[i], latest.value)] else []) + UpdatesOf(installed[i + 1..], catalog)
  {
    hide Latest, CompareVersions;
    if i < |installed| { assert installed[i..][0] == installed[i] && installed[i..][1..] == installed[i + 1..]; }
  }

  method AppCatalogUpdates(installed: seq<App>, catalog: seq<App>) returns (updates: seq<Update>)
    ensures updates == UpdatesOf(installed, catalog)
  {
    hide Latest, CompareVersions, UpdatesOf;
    updates := [];
    UpdatesFrom(installed, |installed|, catalog);
    for i := 0 to |installed|
      invariant updates + UpdatesOf(installed[i..], catalog) == UpdatesOf(installed, catalog)
    {
      var current := installed[i];
      UpdatesFrom(installed, i, catalog);
      var latest := LatestCatalogVersion(current, catalog);
      if latest.None? { continue; }
      var c := CompareAppVersion(latest.value.version, current.version);
      if c <= 0 { continue; }
      updates := updates + [Update(current, latest.value)];
    }
  }

  // The application is listed exactly when some matching entry is newer than what is installed.
  predicate RightlyListed(installed: seq<App>, catalog: seq<App>, app: App) {
    (exists u :: u in UpdatesOf(installed, catalog) && u.current == app)
    <==> (exists c :: c in catalog && Matches(app, c) && CompareVersions(c.version, app.version) > 0)
  }

  lemma ListedIfTransitive(vs: iset<string>, installed: seq<App>, catalog: seq<App>, app: App)
    requires Transitive(vs) && app in installed && app.version in vs && Candidates(app, catalog) <= vs
    ensures RightlyListed(installed, catalog, app)
  {
    TransitiveNewest(vs);
    LatestIsNewest(app, catalog);
    Listed(installed, catalog, app);
    hide Matches, CompareVersions, Latest, UpdatesOf;
    var latest := Latest(app, catalog);
    forall c | c in catalog && Matches(app, c) && CompareVersions(c.version, app.version) > 0
      ensures latest.Some? && CompareVersions(latest.value.version, app.version) > 0
    {
      assert latest.Some? && c.version in Candidates(app, catalog) && latest.value.version in Candidates(app, catalog);
    }
  }

  // With these versions installed and in the catalogue the list of updates is right.
  ghost predicate AlwaysListed(vs: iset<string>) {
    forall installed: seq<App>, catalog: seq<App>, app: App ::
      app in installed && app.version in vs && Drawn(catalog, vs) ==> RightlyListed(installed, catalog, app)
  }

  lemma BrokenUnlisted(x: string, y: string, z: string)
    requires CompareVersions(x, y) <= 0 && CompareVersions(y, z) <= 0 && CompareVersions(x, z) > 0
    ensures !RightlyListed([Named(z)], [Named(y), Named(x)], Named(z))
  {
    var app, catalog := Named(z), [Named(y), Named(x)];
    CompareFlips(x, z);
    BrokenShown(x, y, z);
    hide CompareVersions, Trim;
    NamedMatches(z, x);
    NamedMatches(z, y);
    hide Matches;
    assert catalog[..1] == [Named(y)] && [Named(y)][..0] == [];
    assert Latest(app, [Named(y)]) == Some(Named(y));
    assert Latest(app, catalog) == Some(Named(y));
    hide Latest, UpdatesOf;
    Listed([app], catalog, app);
    assert Named(x) in catalog && CompareVersions(Named(x).version, app.version) > 0;
  }

  lemma BrokenShown(x: string, y: string, z: string)
    requires CompareVersions(x, y) <= 0 && CompareVersions(z, x) < 0
    ensures Trim(x) != "" && Trim(y) != ""
  {
    CompareFlips(z, x);
    hide CompareVersions, Trim;
    if Trim(x) == "" {
      BlankOldest(z, x);
      BlankTie(z, x);
    }
    if Trim(y) == "" { BlankOldest(x, y); }
  }

  /** The list of updates is right for every installation and catalogue drawn from a set of versions exactly
      when none of them lies across two others. */
  lemma ListedExactly(vs: iset<string>)
    ensures AlwaysListed(vs) <==> NoneCrossed(vs)
  {
    TransitiveExact(vs);
    hide CompareVersions, RightlyListed, Crossed, Matches;
    if Transitive(vs) {
      forall installed: seq<App>, catalog: seq<App>, app: App | app in installed && app.version in vs && Drawn(catalog, vs)
        ensures RightlyListed(installed, catalog, app)
      {
        ListedIfTransitive(vs, installed, catalog, app);
      }
    }
    if AlwaysListed(vs) {
      forall x, y, z | x in vs && y in vs && z in vs && CompareVersions(x, y) <= 0 && CompareVersions(y, z) <= 0
        ensures CompareVersions(x, z) <= 0
      {
        assert Drawn([Named(y), Named(x)], vs) && Named(z) in [Named(z)];
        if CompareVersions(x, z) > 0 { BrokenUnlisted(x, y, z); }
      }
    }
  }

  lemma {:induction false} Listed(installed: seq<App>, catalog: seq<App>, app: App)
    ensures (exists u :: u in UpdatesOf(installed, catalog) && u.current == app)
       <==> app in installed && Latest(app, catalog).Some?
            && CompareVersions(Latest(app, catalog).value.version, app.version) > 0
    ensures forall u :: u in UpdatesOf(installed, catalog) ==> Some(u.latest) == Latest(u.current, catalog)
  {
    hide Latest, CompareVersions;
    if |installed| == 0 {
    } else {
      Listed(installed[1..], catalog, app);
      assert installed == [installed[0]] + installed[1..];
    }
  }

  // --------------------------------------------------------------- what parsing reads

  function Join(parts: seq<string>, c: char): string
    requires |parts| > 0
  {
    if |parts| == 1 then parts[0] else parts[0] + [c] + Join(parts[1..], c)
  }

  // A version written out: components, then pre-release identifiers and build metadata if any.
  function Text(core: seq<string>, pre: seq<string>, build: Option<string>): string
    requires |core| > 0
  {
    Join(core, '.') + (if pre == [] then "" else "-" + Join(pre, '.')) + (if build.None? then "" else "+" + build.value)
  }

  predicate Plain(s: string) { forall i :: 0 <= i < |s| ==> !IsSpace(s[i]) && s[i] != '+' }

  lemma JoinMore(parts: seq<string>, c: char)
    requires |parts| > 1
    ensures Join(parts, c) == parts[0] + [c] + Join(parts[1..], c)
  {
  }

  lemma {:induction false} SplitJoin(parts: seq<string>, c: char)
    requires |parts| > 0 && forall i :: 0 <= i < |parts| ==> c !in parts[i]
    ensures Split(Join(parts, c), c) == parts
  {
    if |parts| == 1 {
      assert IndexOf(parts[0], c) == |parts[0]|;
    } else {
      hide IndexOf, Join;
      var s, rest := Join(parts, c), Join(parts[1..], c);
      FirstAt(parts[0], c, rest);
      JoinMore(parts, c);
      assert parts[0] + [c] + rest == parts[0] + ([c] + rest);
      assert s[..|parts[0]|] == parts[0] && s[|parts[0]| + 1..] == rest;
      SplitJoin(parts[1..], c);
    }
  }

  lemma FirstAt(a: string, c: char, b: string)
    requires c !in a
    ensures IndexOf(a + ([c] + b), c) == |a|
  {
    var s := a + ([c] + b);
    assert s[|a|] == c && forall j :: 0 <= j < |a| ==> s[j] == a[j];
  }

  lemma {:induction false} JoinChars(parts: seq<string>, c: char)
    requires |parts| > 0
    ensures forall x :: x in Join(parts, c) ==> x == c || exists i :: 0 <= i < |parts| && x in parts[i]
  {
    if |parts| == 1 {
      assert forall x :: x in parts[0] ==> x in parts[0];
    } else {
      JoinChars(parts[1..], c);
      forall x | x in Join(parts, c) && x != c ensures exists i :: 0 <= i < |parts| && x in parts[i] {
        if x !in parts[0] {
          assert x in Join(parts[1..], c);
          var i :| 0 <= i < |parts[1..]| && x in parts[1..][i];
          assert x in parts[i + 1];
        }
      }
    }
  }

  lemma AtoiDigits(s: string)
    requires IsDigits(s) && ValueOf(s) <= MAX_INT
    ensures IsCorePart(s) && Atoi(s).value == ValueOf(s)
  {
    assert s[0] != '-' && s[0] != '+';
  }

  lemma TrimPlain(s: string)
    requires Plain(s) || forall x :: x in s ==> !IsSpace(x)
    ensures Trim(s) == s
  {
    if |s| > 0 { assert s[0] in s && s[|s| - 1] in s; }
  }

  lemma NumbersChars(core: seq<string>)
    requires |core| > 0 && forall i :: 0 <= i < |core| ==> IsDigits(core[i])
    ensures |Join(core, '.')| > 0 && '0' <= Join(core, '.')[0] <= '9'
    ensures forall x :: x in Join(core, '.') ==> x == '.' || '0' <= x <= '9'
  {
    JoinChars(core, '.');
    assert Join(core, '.')[0] == core[0][0];
  }

  lemma IdsChars(pre: seq<string>)
    requires |pre| > 0 && forall i :: 0 <= i < |pre| ==> Plain(pre[i])
    ensures forall x :: x in Join(pre, '.') ==> !IsSpace(x) && x != '+'
  {
    JoinChars(pre, '.');
  }

  // Where the parts of a version text lie.
  lemma Cuts(numbers: string, ids: string, tail: string)
    requires forall x :: x in numbers + ids ==> x != '+'
    requires '-' !in numbers && (ids == "" || ids[0] == '-') && (tail == "" || tail[0] == '+')
    ensures var text := numbers + ids + tail;
      && IndexOf(text, '+') == |numbers + ids| && text[..|numbers + ids|] == numbers + ids
      && IndexOf(numbers + ids, '-') == |numbers|
  {
    var whole := numbers + ids;
    if tail != "" {
      FirstAt(whole, '+', tail[1..]);
      assert tail == ['+'] + tail[1..];
    } else {
      assert whole + tail == whole && '+' !in whole;
    }
    if ids != "" {
      FirstAt(numbers, '-', ids[1..]);
      assert ids == ['-'] + ids[1..];
    } else {
      assert whole == numbers;
    }
  }

  lemma ParseSpelled(numbers: string, ids: string, tail: string)
    requires numbers != "" && '0' <= numbers[0] <= '9' && '-' !in numbers
    requires forall x :: x in numbers + ids ==> x != '+'
    requires forall x :: x in numbers + ids + tail ==> !IsSpace(x)
    requires (ids == "" || ids[0] == '-') && (tail == "" || tail[0] == '+')
    ensures var core := ParseCore(Split(numbers, '.'));
      var pre := if ids == "" then [] else Split(ids[1..], '.');
      Parse(numbers + ids + tail) == if core.None? || "" in pre then None else Some(Version(core.value, pre))
  {
    var text, whole := numbers + ids + tail, numbers + ids;
    Cuts(numbers, ids, tail);
    assert Bare(text) == text by { assert text[0] == numbers[0]; TrimPlain(text); }
    assert Release(text) == whole;
    assert CoreText(whole) == numbers by { assert whole[..|numbers|] == numbers; }
    assert PreTexts(whole) == if ids == "" then [] else Split(ids[1..], '.') by {
      if ids != "" { assert whole[|numbers| + 1..] == ids[1..]; }
    }
    assert text != "";
    hide Bare, Release, CoreText, PreTexts, Split, ParseCore, IndexOf;
  }

  lemma CoreReads(core: seq<string>)
    requires forall i :: 0 <= i < |core| ==> IsDigits(core[i]) && ValueOf(core[i]) <= MAX_INT
    ensures var v := ParseCore(core);
      v.Some? && |v.value| == |core| && forall i :: 0 <= i < |core| ==> v.value[i] == ValueOf(core[i])
  {
    forall i | 0 <= i < |core| ensures IsCorePart(core[i]) && Atoi(core[i]).value == ValueOf(core[i]) { AtoiDigits(core[i]); }
    hide Atoi, ValueOf;
  }

  lemma IdsRead(pre: seq<string>)
    requires |pre| > 0 && forall i :: 0 <= i < |pre| ==> pre[i] != "" && Plain(pre[i]) && '.' !in pre[i]
    ensures var ids := "-" + Join(pre, '.');
      ids[0] == '-' && Split(ids[1..], '.') == pre && "" !in pre && forall x :: x in ids ==> !IsSpace(x) && x != '+'
  {
    IdsChars(pre);
    SplitJoin(pre, '.');
    assert ("-" + Join(pre, '.'))[1..] == Join(pre, '.');
  }

  lemma NumbersRead(core: seq<string>)
    requires |core| > 0 && forall i :: 0 <= i < |core| ==> IsDigits(core[i])
    ensures var numbers := Join(core, '.');
      && numbers != "" && '0' <= numbers[0] <= '9' && Split(numbers, '.') == core
      && '-' !in numbers && forall x :: x in numbers ==> !IsSpace(x) && x != '+'
  {
    NumbersChars(core);
    assert forall i :: 0 <= i < |core| ==> '.' !in core[i];
    SplitJoin(core, '.');
  }

  /** Parsing reads what the text says: the numbers between the dots, the identifiers after the first dash,
      and nothing of what follows a plus sign. */
  lemma ParseReads(core: seq<string>, pre: seq<string>, build: Option<string>)
    requires |core| > 0 && forall i :: 0 <= i < |core| ==> IsDigits(core[i]) && ValueOf(core[i]) <= MAX_INT
    requires forall i :: 0 <= i < |pre| ==> pre[i] != "" && Plain(pre[i]) && '.' !in pre[i]
    requires build.Some? ==> Plain(build.value)
    ensures var v := Parse(Text(core, pre, build));
      && v.Some? && v.value.pre == pre && |v.value.core| == |core|
      && forall i :: 0 <= i < |core| ==> v.value.core[i] == ValueOf(core[i])
  {
    var numbers, ids := Join(core, '.'), if pre == [] then "" else "-" + Join(pre, '.');
    var tail := if build.None? then "" else "+" + build.value;
    NumbersRead(core);
    if pre != [] { IdsRead(pre); }
    CoreReads(core);
    assert forall x :: x in tail ==> !IsSpace(x);
    hide Atoi, ValueOf, Split, Join, IsDigits, Parse, ParseCore, IsSpace, Plain;
    ParseSpelled(numbers, ids, tail);
  }

  // ------------------------------------------------------------- margins, prefix and case

  predicate Margin(s: string) { forall i :: 0 <= i < |s| ==> IsSpace(s[i]) }

  lemma {:induction false} TrimLeftMargin(left: string, s: string)
    requires Margin(left) && (s == "" || !IsSpace(s[0]))
    ensures TrimLeft(left + s) == s
  {
    if |left| == 0 {
      assert left + s == s;
    } else {
      assert (left + s)[1..] == left[1..] + s;
      TrimLeftMargin(left[1..], s);
    }
  }

  lemma {:induction false} TrimRightMargin(s: string, right: string)
    requires Margin(right) && (s == "" || !IsSpace(s[|s| - 1]))
    ensures TrimRight(s + right) == s
  {
    if |right| == 0 {
      assert s + right == s;
    } else {
      assert (s + right)[..|s + right| - 1] == s + right[..|right| - 1];
      TrimRightMargin(s, right[..|right| - 1]);
    }
  }

  /** Margins do not count, and neither do a v, a V or both in front of them. */
  lemma ParseMargins(prefix: string, left: string, text: string, right: string)
    requires prefix in {"", "v", "V", "vV"} && Margin(left) && Margin(right)
    requires text != "" && text[0] !in {'v', 'V'} && !IsSpace(text[0]) && !IsSpace(text[|text| - 1])
    ensures Parse(prefix + (left + (text + right))) == Parse(text)
  {
    var rest := left + (text + right);
    assert rest[0] !in {'v', 'V'} by { if left != "" { assert rest[0] == left[0]; } }
    PrefixDropped(prefix, rest);
    TrimLeftMargin(left, text + right);
    TrimRightMargin(text, right);
    TrimLeftMargin("", text);
    TrimRightMargin(text, "");
    assert "" + text == text && text + "" == text;
    assert Bare(text) == text;
    hide TrimLeft, TrimRight, DropPrefix, Release;
  }

  lemma PrefixDropped(prefix: string, rest: string)
    requires prefix in {"", "v", "V", "vV"} && rest != "" && rest[0] !in {'v', 'V'}
    ensures DropPrefix(DropPrefix(prefix + rest, 'v'), 'V') == rest
  {
    if prefix == "vV" {
      assert (prefix + rest)[1..] == "V" + rest && ("V" + rest)[1..] == rest;
    } else if prefix != "" {
      assert (prefix + rest)[1..] == rest;
    }
  }

  /** Texts are compared without regard to the case of the letters A to Z, and to nothing else. */
  lemma FoldsCase(a: string, b: string)
    ensures Lower(a) == Lower(b) <==>
      |a| == |b| && forall i :: 0 <= i < |a| ==>
        || a[i] == b[i]
        || ('A' <= a[i] <= 'Z' && b[i] as int == a[i] as int + 32)
        || ('A' <= b[i] <= 'Z' && a[i] as int == b[i] as int + 32)
  {
    if Lower(a) == Lower(b) {
      assert |Lower(a)| == |Lower(b)|;
      forall i | 0 <= i < |a| ensures LowerChar(a[i]) == LowerChar(b[i]) { assert Lower(a)[i] == Lower(b)[i]; }
    }
  }

  lemma {:induction false} JoinSplit(s: string, c: char)
    ensures Join(Split(s, c), c) == s
    decreases |s|
  {
    var i := IndexOf(s, c);
    if i == |s| {
    } else {
      JoinSplit(s[i + 1..], c);
      var rest := Split(s[i + 1..], c);
      assert ([s[..i]] + rest)[1..] == rest;
      hide Split;
      assert s == s[..i] + [c] + s[i + 1..];
    }
  }

  // Digits, with a sign or without, of this value; a negative number is no component.
  predicate Numeral(s: string, n: nat) {
    n <= MAX_INT &&
      ((IsDigits(s) && ValueOf(s) == n)
       || (|s| > 0 && s[0] == '+' && IsDigits(s[1..]) && ValueOf(s[1..]) == n)
       || (|s| > 0 && s[0] == '-' && IsDigits(s[1..]) && ValueOf(s[1..]) == n == 0))
  }

  lemma NumeralOnly(s: string)
    requires IsCorePart(s)
    ensures Numeral(s, Atoi(s).value)
  {
    hide ValueOf;
  }

  /** Nothing else parses: the text, without a leading v and without margins, is numerals between dots, after a
      dash identifiers that are not empty, between dots, and after a plus sign anything; and the version
      is those numbers and those identifiers. */
  lemma ParseOnly(text: string) returns (core: seq<string>, build: Option<string>)
    requires Parse(text).Some?
    ensures var v := Parse(text).value;
      && |core| == |v.core| > 0 && (forall i :: 0 <= i < |core| ==> Numeral(core[i], v.core[i]))
      && "" !in v.pre && (forall i :: 0 <= i < |v.pre| ==> '.' !in v.pre[i])
      && Bare(text) == Text(core, v.pre, build)
  {
    hide Bare, Split, Join, IndexOf, Numeral, IsCorePart, Release, CoreText, PreTexts;
    var release := Release(Bare(text));
    core := Split(CoreText(release), '.');
    build := BuildOnly(Bare(text));
    ReleaseOnly(release);
    forall i | 0 <= i < |core| ensures Numeral(core[i], Parse(text).value.core[i]) { NumeralOnly(core[i]); }
  }

  lemma BuildOnly(bare: string) returns (build: Option<string>)
    ensures bare == Release(bare) + if build.None? then "" else "+" + build.value
  {
    var plus := IndexOf(bare, '+');
    build := if plus == |bare| then None else Some(bare[plus + 1..]);
    hide IndexOf;
  }

  lemma ReleaseOnly(release: string)
    ensures var core, pre := Split(CoreText(release), '.'), PreTexts(release);
      && release == Join(core, '.') + (if pre == [] then "" else "-" + Join(pre, '.'))
      && forall i :: 0 <= i < |pre| ==> '.' !in pre[i]
  {
    hide Split, Join, IndexOf;
    var dash := IndexOf(release, '-');
    JoinSplit(CoreText(release), '.');
    if dash < |release| {
      var pre := Split(release[dash + 1..], '.');
      assert PreTexts(release) == pre && pre != [];
      JoinSplit(release[dash + 1..], '.');
      DashCut(release, dash);
    } else {
      assert PreTexts(release) == [] && CoreText(release) == release;
      assert Join(Split(CoreText(release), '.'), '.') + "" == release;
    }
  }

  lemma DashCut(release: string, dash: nat)
    requires dash < |release| && release[dash] == '-'
    ensures release == release[..dash] + ("-" + release[dash + 1..])
  {
  }

  lemma SingleNumber(s: string)
    requires IsDigits(s) && ValueOf(s) <= MAX_INT
    ensures Parse(s) == Some(Version([ValueOf(s)], []))
  {
    ParseReads([s], [], None);
    assert Text([s], [], None) == s;
    hide Parse, ValueOf;
    var v := Parse(s).value;
    assert v.core == [v.core[0]];
  }

  lemma NineTen()
    ensures Parse("9") == Some(Version([9], [])) && Parse("10") == Some(Version([10], []))
  {
    hide Parse;
    assert ValueOf("9") == 9;
    assert ValueOf("10") == 10 by { assert "10"[..1] == "1" && ValueOf("1") == 1; }
    hide ValueOf;
    SingleNumber("9");
    SingleNumber("10");
  }

  lemma FiveX()
    ensures Parse("5x").None?
  {
    assert Trim("5x") == "5x" by { TrimPlain("5x"); }
    assert IndexOf("5x", '+') == 2 && IndexOf("5x", '-') == 2 && IndexOf("5x", '.') == 2;
    assert "5x"[..2] == "5x" && Split("5x", '.') == ["5x"];
    assert !IsDigits("5x") by { assert "5x"[1] == 'x'; }
    assert !IsCorePart(["5x"][0]);
  }

  /** The text order used for a version that does not parse closes a cycle. */
  lemma TextFallbackCycles()
    ensures CompareVersions("9", "10") < 0 && CompareVersions("10", "5x") < 0 && CompareVersions("5x", "9") < 0
  {
    NineTen();
    FiveX();
    hide Parse;
    TrimPlain("9");
    TrimPlain("10");
    TrimPlain("5x");
    assert Lower("9") == "9" && Lower("10") == "10" && Lower("5x") == "5x";
  }

  lemma PlainVersions()
    ensures Trim("9") == "9" && Trim("10") == "10" && Trim("5x") == "5x"
  {
    TrimPlain("9");
    TrimPlain("10");
    TrimPlain("5x");
  }

  /** Such a cycle at work: the entry found is older than the second of the list. */
  lemma NewestMissed()
    ensures var z, y, x := Named("10"), Named("9"), Named("5x");
      && Matches(x, z) && Matches(x, y) && Matches(x, x)
      && Latest(x, [z, y, x]) == Some(x) && CompareVersions(y.version, x.version) > 0
  {
    PlainVersions();
    hide Trim;
    NamedMatches("5x", "10");
    NamedMatches("5x", "9");
    NamedMatches("5x", "5x");
    hide Matches, CompareVersions, Latest;
    TextFallbackCycles();
    CompareFlips("9", "5x");
    LatestOfThree(Named("5x"), Named("10"), Named("9"), Named("5x"));
  }
}
