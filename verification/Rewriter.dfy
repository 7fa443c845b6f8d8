/**
 The rewriter of duplicate string literals: occurrences on a line are spliced out from right to
 left, each constant gets a name of its own, and its definition quotes the literal's text.
 Positions count from 0.
 */
module Rewriter {
  import opened Common
  import opened Text

  /** Replaces `line[start..end]`, quotes included, by a constant's name. */
  datatype Op = Op(start: nat, end: nat, name: string)

  /**
   A literal right after an equals sign is taken for a JSX attribute value, which needs braces; the
   value of a declaration is taken for one as well.
   */
  predicate InAttribute(before: string) {
    var text := StripRight(before);
    text != "" && text[|text| - 1] == '='
  }

  function Replacement(before: string, name: string): string {
    if InAttribute(before) then "{" + name + "}" else name
  }

  /** Slices as in Python: positions past the end stand for the end. */
  function Take(s: string, n: nat): string {
    if n <= |s| then s[..n] else s
  }

  function Drop(s: string, n: nat): string {
    if n <= |s| then s[n..] else ""
  }

  function Splice(line: string, op: Op): string {
    Take(line, op.start) + Replacement(Take(line, op.start), op.name) + Drop(line, op.end)
  }

  function SpliceAll(line: string, ops: seq<Op>): string
    decreases |ops|
  {
    if ops == [] then line else SpliceAll(Splice(line, ops[0]), ops[1..])
  }

  // -------------------------------------------------- sorting by position

  function Insert(op: Op, sorted: seq<Op>): seq<Op> {
    if sorted == [] || op.start >= sorted[0].start then [op] + sorted else [sorted[0]] + Insert(op, sorted[1..])
  }

  /** Descending by start; among equal starts in the given order. */
  function SortDown(ops: seq<Op>): seq<Op> {
    if ops == [] then [] else Insert(ops[0], SortDown(ops[1..]))
  }

  predicate Descending(ops: seq<Op>) {
    forall i, j :: 0 <= i < j < |ops| ==> ops[i].start >= ops[j].start
  }

  lemma {:induction false} InsertMembers(op: Op, sorted: seq<Op>)
    ensures multiset(Insert(op, sorted)) == multiset(sorted) + multiset{op}
    ensures forall x :: x in Insert(op, sorted) ==> x == op || x in sorted
  {
    if sorted != [] && op.start < sorted[0].start {
      InsertMembers(op, sorted[1..]);
      assert sorted == [sorted[0]] + sorted[1..];
    }
  }

  lemma {:induction false} InsertSorts(op: Op, sorted: seq<Op>)
    requires Descending(sorted)
    ensures Descending(Insert(op, sorted))
  {
    if sorted != [] && op.start < sorted[0].start {
      var rest := Insert(op, sorted[1..]);
      InsertSorts(op, sorted[1..]);
      InsertMembers(op, sorted[1..]);
      forall j | 0 <= j < |rest| ensures sorted[0].start >= rest[j].start {
        assert rest[j] in rest;
      }
    }
  }

  lemma {:induction false} SortDownSorts(ops: seq<Op>)
    ensures Descending(SortDown(ops)) && multiset(SortDown(ops)) == multiset(ops)
  {
    if ops != [] {
      SortDownSorts(ops[1..]);
      InsertSorts(ops[0], SortDown(ops[1..]));
      InsertMembers(ops[0], SortDown(ops[1..]));
      assert ops == [ops[0]] + ops[1..];
    }
  }

  // ------------------------------------------------ simultaneous substitution

  /** What the rewriting should do: every interval replaced at once, looking at the original line only. */
  function Substituted(line: string, from: nat, ops: seq<Op>): string
    requires from <= |line| && Apart(ops, from, |line|)
    decreases |ops|
  {
    if ops == [] then line[from..]
    else line[from..ops[0].start] + Replacement(line[..ops[0].start], ops[0].name) + Substituted(line, ops[0].end, ops[1..])
  }

  /** Intervals in ascending order, none reaching into the next, all within the given bounds. */
  predicate Apart(ops: seq<Op>, from: nat, to: nat) {
    if ops == [] then from <= to
    else from <= ops[0].start <= ops[0].end <= to && Apart(ops[1..], ops[0].end, to)
  }

  function Reversed(ops: seq<Op>): seq<Op> {
    if ops == [] then [] else Reversed(ops[1..]) + [ops[0]]
  }

  lemma {:induction false} SpliceAllSnoc(line: string, ops: seq<Op>, op: Op)
    ensures SpliceAll(line, ops + [op]) == Splice(SpliceAll(line, ops), op)
    decreases |ops|
  {
    if ops == [] {
      assert [] + [op] == [op] && [op][1..] == [];
    } else {
      assert (ops + [op])[0] == ops[0] && (ops + [op])[1..] == ops[1..] + [op];
      SpliceAllSnoc(Splice(line, ops[0]), ops[1..], op);
    }
  }

  /** Right of an interval everything is done already; left of it the line is still the original. */
  lemma SpliceStep(line: string, op: Op, tail: string)
    requires op.start <= op.end <= |line|
    ensures Splice(line[..op.end] + tail, op) == line[..op.start] + Replacement(line[..op.start], op.name) + tail
  {
    var done := line[..op.end] + tail;
    assert done[..op.start] == line[..op.start];
    assert done[op.end..] == tail;
  }

  lemma Assemble(prefix: string, gap: string, text: string, tail: string)
    ensures (prefix + gap) + text + tail == prefix + (gap + text + tail)
  {
  }

  lemma {:induction false} SplicesSubstitute(line: string, from: nat, ops: seq<Op>)
    requires from <= |line| && Apart(ops, from, |line|)
    ensures SpliceAll(line, Reversed(ops)) == line[..from] + Substituted(line, from, ops)
    decreases |ops|
  {
    if ops == [] {
      assert line[..from] + line[from..] == line;
    } else {
      var op := ops[0];
      var tail, text := Substituted(line, op.end, ops[1..]), Replacement(line[..op.start], op.name);
      calc {
        SpliceAll(line, Reversed(ops));
        { SpliceAllSnoc(line, Reversed(ops[1..]), op); }
        Splice(SpliceAll(line, Reversed(ops[1..])), op);
        { SplicesSubstitute(line, op.end, ops[1..]); }
        Splice(line[..op.end] + tail, op);
        { SpliceStep(line, op, tail); }
        line[..op.start] + text + tail;
        { assert line[..op.start] == line[..from] + line[from..op.start]; }
        (line[..from] + line[from..op.start]) + text + tail;
        { Assemble(line[..from], line[from..op.start], text, tail); }
        line[..from] + (line[from..op.start] + text + tail);
        line[..from] + Substituted(line, from, ops);
      }
    }
  }

  // ---------------------------------------------------- ops given in any order

  predicate Disjoint(a: Op, b: Op) {
    a.end <= b.start || b.end <= a.start
  }

  /** Non-empty intervals within the line, no two of which overlap. */
  predicate PairwiseDisjoint(ops: seq<Op>, to: nat) {
    && (forall i :: 0 <= i < |ops| ==> ops[i].start < ops[i].end <= to)
    && (forall i, j :: 0 <= i < j < |ops| ==> Disjoint(ops[i], ops[j]))
  }

  predicate Ascending(ops: seq<Op>) {
    forall i, j :: 0 <= i < j < |ops| ==> ops[i].start <= ops[j].start
  }

  lemma {:induction false} ReversedAt(ops: seq<Op>, i: nat)
    requires i < |ops|
    ensures |Reversed(ops)| == |ops| && Reversed(ops)[i] == ops[|ops| - 1 - i]
  {
    if |ops| > 1 {
      ReversedAt(ops[1..], if i < |ops| - 1 then i else 0);
    } else {
      assert ops[1..] == [];
    }
  }

  lemma {:induction false} ReversedTwice(ops: seq<Op>)
    ensures Reversed(Reversed(ops)) == ops
  {
    if ops != [] {
      ReversedTwice(ops[1..]);
      ReversedSnoc(Reversed(ops[1..]), ops[0]);
    }
  }

  lemma {:induction false} ReversedSnoc(ops: seq<Op>, op: Op)
    ensures Reversed(ops + [op]) == [op] + Reversed(ops)
  {
    if ops == [] {
      assert [] + [op] == [op] && [op][1..] == [];
    } else {
      assert (ops + [op])[1..] == ops[1..] + [op];
      ReversedSnoc(ops[1..], op);
    }
  }

  lemma {:induction false} AscendingApart(ops: seq<Op>, from: nat, to: nat)
    requires PairwiseDisjoint(ops, to) && Ascending(ops) && from <= to
    requires ops != [] ==> from <= ops[0].start
    ensures Apart(ops, from, to)
  {
    if |ops| > 1 {
      assert Disjoint(ops[0], ops[1]) && ops[0].start <= ops[1].start;
    }
    if ops != [] {
      AscendingApart(ops[1..], ops[0].end, to);
    }
  }

  lemma TwiceCounted(b: seq<Op>, i: nat, j: nat)
    requires i < j < |b| && b[i] == b[j]
    ensures multiset(b)[b[i]] >= 2
  {
    assert b == b[..i] + [b[i]] + b[i + 1..j] + [b[j]] + b[j + 1..];
  }

  lemma DisjointPermutes(a: seq<Op>, b: seq<Op>, to: nat)
    requires multiset(a) == multiset(b) && PairwiseDisjoint(a, to)
    ensures PairwiseDisjoint(b, to)
  {
    forall i | 0 <= i < |b| ensures b[i].start < b[i].end <= to {
      assert b[i] in multiset(a);
    }
    forall i, j | 0 <= i < j < |b| ensures Disjoint(b[i], b[j]) {
      if b[i] == b[j] {
        TwiceCounted(b, i, j);
        NoRepeats(a, to, b[i]);
      } else {
        assert b[i] in multiset(a) && b[j] in multiset(a);
        var m :| 0 <= m < |a| && a[m] == b[i];
        var n :| 0 <= n < |a| && a[n] == b[j];
      }
    }
  }

  lemma FirstOnce(ops: seq<Op>, to: nat)
    requires PairwiseDisjoint(ops, to) && ops != []
    ensures ops[0] !in ops[1..]
  {
    forall k | 0 <= k < |ops[1..]| ensures ops[1..][k] != ops[0] {
      assert Disjoint(ops[0], ops[k + 1]);
    }
  }

  lemma {:induction false} NoRepeats(ops: seq<Op>, to: nat, op: Op)
    requires PairwiseDisjoint(ops, to)
    ensures multiset(ops)[op] <= 1
  {
    if ops != [] {
      NoRepeats(ops[1..], to, op);
      FirstOnce(ops, to);
      assert ops == [ops[0]] + ops[1..];
    }
  }

  /** The splices in the order in which the rewriter performs them. */
  function Plan(ops: seq<Op>): seq<Op> {
    SortDown(ops)
  }

  lemma {:induction false} ReversedSame(ops: seq<Op>)
    ensures multiset(Reversed(ops)) == multiset(ops) && |Reversed(ops)| == |ops|
  {
    if ops != [] {
      ReversedSame(ops[1..]);
      assert ops == [ops[0]] + ops[1..];
    }
  }

  lemma ReversedAscends(ops: seq<Op>)
    requires Descending(ops)
    ensures Ascending(Reversed(ops))
  {
    var up := Reversed(ops);
    ReversedSame(ops);
    forall i, j | 0 <= i < j < |up| ensures up[i].start <= up[j].start {
      ReversedAt(ops, i);
      ReversedAt(ops, j);
    }
  }

  lemma PlanApart(ops: seq<Op>, to: nat)
    requires PairwiseDisjoint(ops, to)
    ensures Apart(Reversed(Plan(ops)), 0, to) && multiset(Plan(ops)) == multiset(ops)
  {
    var up := Reversed(Plan(ops));
    SortDownSorts(ops);
    ReversedAscends(Plan(ops));
    ReversedSame(Plan(ops));
    DisjointPermutes(ops, up, to);
    AscendingApart(up, 0, to);
  }

  /**
   For occurrences in any order that do not overlap, splicing from right to left is the simultaneous
   substitution: text outside is unchanged, and braces depend on the original line only.
   */
  lemma RewriteIsSubstitution(line: string, ops: seq<Op>)
    requires PairwiseDisjoint(ops, |line|)
    ensures Apart(Reversed(Plan(ops)), 0, |line|) && multiset(Plan(ops)) == multiset(ops)
    ensures SpliceAll(line, Plan(ops)) == Substituted(line, 0, Reversed(Plan(ops)))
  {
    PlanApart(ops, |line|);
    ReversedTwice(Plan(ops));
    SplicesSubstitute(line, 0, Reversed(Plan(ops)));
    var whole := Substituted(line, 0, Reversed(Plan(ops)));
    assert line[..0] + whole == whole;
  }

  /**
   Two occurrences: when the left one reaches into the right one, the right replacement and what
   follows lose exactly as many characters as the two share.
   */
  lemma OverlapEatsReplacement(line: string, a: Op, b: Op)
    requires a.start <= b.start < b.end <= |line| && a.start < a.end <= |line|
    ensures var after := Replacement(line[..b.start], b.name) + line[b.end..];
            var left := line[..a.start] + Replacement(line[..a.start], a.name);
            SpliceAll(line, [b, a])
              == if a.end <= b.start then left + (line[a.end..b.start] + after) else left + Drop(after, a.end - b.start)
  {
    var text := Replacement(line[..b.start], b.name);
    calc {
      SpliceAll(line, [b, a]);
      { TwoSplices(line, a, b); }
      Splice(Splice(line, b), a);
      { OneSplice(line, b); }
      Splice(line[..b.start] + (text + line[b.end..]), a);
      { SpliceShared(line, b.start, text + line[b.end..], a); }
      line[..a.start] + Replacement(line[..a.start], a.name) +
        if a.end <= b.start then line[a.end..b.start] + (text + line[b.end..])
        else Drop(text + line[b.end..], a.end - b.start);
    }
  }

  lemma TwoSplices(line: string, a: Op, b: Op)
    ensures SpliceAll(line, [b, a]) == Splice(Splice(line, b), a)
  {
    var once := Splice(line, b);
    assert [b, a][1..] == [a] && [a][1..] == [];
    assert SpliceAll(line, [b, a]) == SpliceAll(once, [a]);
    assert SpliceAll(once, [a]) == SpliceAll(Splice(once, a), []);
  }

  lemma OneSplice(line: string, b: Op)
    requires b.start < b.end <= |line|
    ensures Splice(line, b) == line[..b.start] + (Replacement(line[..b.start], b.name) + line[b.end..])
  {
  }

  lemma SpliceShared(line: string, at: nat, after: string, a: Op)
    requires a.start <= at <= |line| && a.start < a.end
    ensures Splice(line[..at] + after, a) == line[..a.start] + Replacement(line[..a.start], a.name) +
              if a.end <= at then line[a.end..at] + after else Drop(after, a.end - at)
  {
    var once := line[..at] + after;
    assert once[..a.start] == line[..a.start];
    if a.end <= at {
      assert once[a.end..] == line[a.end..at] + after;
    } else if a.end <= |once| {
      assert once[a.end..] == after[a.end - at..];
    }
  }

  // ------------------------------------------------------------ occurrences

  predicate IsQuote(c: char) {
    c == '\'' || c == '"' || c == '`'
  }

  /** `line[start..end]` is a text between two equal quotes. */
  predicate Quoted(line: string, op: Op) {
    && op.start + 2 <= op.end <= |line|
    && IsQuote(line[op.start]) && line[op.end - 1] == line[op.start]
  }

  predicate QuoteFree(s: string) {
    forall i :: 0 <= i < |s| ==> !IsQuote(s[i])
  }

  /** Two literals without inner quotes overlap only if they are the same or share one quote. */
  lemma OverlapSharesQuote(line: string, a: Op, b: Op)
    requires Quoted(line, a) && Quoted(line, b) && a.start <= b.start
    requires QuoteFree(line[a.start + 1..a.end - 1]) && QuoteFree(line[b.start + 1..b.end - 1])
    ensures Disjoint(a, b) <==> !(a.start == b.start && a.end == b.end) && a.end - 1 != b.start
  {
    InsideIsNoQuote(line, a);
    InsideIsNoQuote(line, b);
  }

  lemma InsideIsNoQuote(line: string, a: Op)
    requires Quoted(line, a) && QuoteFree(line[a.start + 1..a.end - 1])
    ensures forall p :: a.start < p < a.end - 1 ==> !IsQuote(line[p])
  {
    forall p | a.start < p < a.end - 1 ensures !IsQuote(line[p]) {
      assert line[a.start + 1..a.end - 1][p - a.start - 1] == line[p];
    }
  }

  /** The needle stands at a position of the line. */
  predicate At(line: string, needle: string, p: nat) {
    p + |needle| <= |line| && line[p..p + |needle|] == needle
  }

  /** Scanning from a position for hits of length `n`; after a hit the scan goes on behind it. */
  function Scan(hit: nat -> bool, n: nat, length: nat, from: nat): seq<nat>
    requires n > 0
    decreases length - from
  {
    if from + n > length then []
    else if hit(from) then [from] + Scan(hit, n, length, from + n)
    else Scan(hit, n, length, from + 1)
  }

  function Occurrences(line: string, needle: string): seq<nat>
    requires needle != ""
  {
    Scan((p: nat) => At(line, needle, p), |needle|, |line|, 0)
  }

  predicate Overlapped(found: seq<nat>, n: nat, p: nat) {
    exists i :: 0 <= i < |found| && found[i] <= p < found[i] + n
  }

  /** Matches of length `n` from a position on: genuine, apart, and overlapped by all that are left out. */
  ghost predicate Covers(hit: nat -> bool, n: nat, from: nat, found: seq<nat>) {
    && (forall i :: 0 <= i < |found| ==> from <= found[i] && hit(found[i]))
    && Spaced(found, n)
    && (forall p: nat :: from <= p && hit(p) ==> Overlapped(found, n, p))
  }

  lemma OverlappedCons(from: nat, rest: seq<nat>, n: nat, p: nat)
    requires from <= p < from + n || Overlapped(rest, n, p)
    ensures Overlapped([from] + rest, n, p)
  {
    var found := [from] + rest;
    if from <= p < from + n {
      assert found[0] <= p;
    } else {
      var i :| 0 <= i < |rest| && rest[i] <= p < rest[i] + n;
      assert found[i + 1] == rest[i];
    }
  }

  ghost predicate Spaced(found: seq<nat>, n: nat) {
    forall i, j :: 0 <= i < j < |found| ==> found[i] + n <= found[j]
  }

  lemma SpacedCons(from: nat, rest: seq<nat>, n: nat)
    requires Spaced(rest, n) && forall i :: 0 <= i < |rest| ==> from + n <= rest[i]
    ensures Spaced([from] + rest, n)
  {
  }

  lemma CoversHit(hit: nat -> bool, n: nat, from: nat, rest: seq<nat>)
    requires n > 0 && hit(from) && Covers(hit, n, from + n, rest)
    ensures Covers(hit, n, from, [from] + rest)
  {
    SpacedCons(from, rest, n);
    forall p: nat | from <= p && hit(p) ensures Overlapped([from] + rest, n, p) {
      OverlappedCons(from, rest, n, p);
    }
  }

  lemma CoversMiss(hit: nat -> bool, n: nat, from: nat, found: seq<nat>)
    requires !hit(from) && Covers(hit, n, from + 1, found)
    ensures Covers(hit, n, from, found)
  {
  }

  lemma {:induction false} ScanCovers(hit: nat -> bool, n: nat, length: nat, from: nat)
    requires n > 0 && forall p: nat :: hit(p) ==> p + n <= length
    ensures Covers(hit, n, from, Scan(hit, n, length, from))
    decreases length - from
  {
    if from + n <= length {
      if hit(from) {
        ScanCovers(hit, n, length, from + n);
        CoversHit(hit, n, from, Scan(hit, n, length, from + n));
      } else {
        ScanCovers(hit, n, length, from + 1);
        CoversMiss(hit, n, from, Scan(hit, n, length, from + 1));
      }
    }
  }

  /** Every occurrence found is genuine and apart from the others, and none is left that overlaps none of them. */
  lemma FindsAll(line: string, needle: string)
    requires needle != ""
    ensures var found := Occurrences(line, needle);
            && (forall i :: 0 <= i < |found| ==> At(line, needle, found[i]))
            && Spaced(found, |needle|)
            && (forall p: nat :: At(line, needle, p) ==> Overlapped(found, |needle|, p))
  {
    var hit := (p: nat) => At(line, needle, p);
    ScanCovers(hit, |needle|, |line|, 0);
    assert forall p: nat :: hit(p) == At(line, needle, p);
  }

  /** The literals `'a'` and `', '` in one line: what stands between two literals passes for the second one. */
  lemma SharedQuoteCorrupts(first: string, second: string)
    requires second != ""
    ensures var line, a, b := "['a', 'b']", Op(1, 4, first), Op(3, 7, second);
            && At(line, "'a'", a.start) && At(line, "', '", b.start) && Quoted(line, a) && Quoted(line, b)
            && !Disjoint(a, b)
            && SpliceAll(line, [b, a]) == "[" + first + (second[1..] + "b']")
  {
    var line, a, b := "['a', 'b']", Op(1, 4, first), Op(3, 7, second);
    SharedPlaces(first, second);
    PlainPlaces(first, second);
    OverlapEatsReplacement(line, a, b);
    DropFirst(second, line[7..]);
  }

  lemma SharedPlaces(first: string, second: string)
    ensures var line, a, b := "['a', 'b']", Op(1, 4, first), Op(3, 7, second);
            At(line, "'a'", 1) && At(line, "', '", 3) && Quoted(line, a) && Quoted(line, b)
  {
    var line := "['a', 'b']";
    assert line[1..4] == "'a'" && line[3..7] == "', '";
  }

  lemma PlainPlaces(first: string, second: string)
    ensures var line := "['a', 'b']";
            && line[..1] == "[" && line[7..] == "b']"
            && Replacement(line[..1], first) == first && Replacement(line[..3], second) == second
  {
    var line := "['a', 'b']";
    assert line[..1] == "[" && line[..3] == "['a";
  }

  lemma DropFirst(a: string, b: string)
    requires a != ""
    ensures Drop(a + b, 1) == a[1..] + b
  {
  }

  /** The value of a declaration gets braces too, which makes it an object. */
  lemma DeclarationGetsBraces(name: string)
    ensures Replacement("const x = ", name) == "{" + name + "}"
  {
    assert "const x = "[..9] == "const x =";
    assert StripRight("const x = ") == StripRight("const x =") == "const x =";
  }

  // ------------------------------------------------------------ unique names

  /** The k-th candidate for a base: the base itself, then `base_2`, `base_3`, ... */
  function Candidate(base: string, k: nat): string {
    if k <= 1 then base else base + "_" + Decimal(k)
  }

  lemma CandidatesDiffer(base: string, j: nat, k: nat)
    requires 1 <= j < k
    ensures Candidate(base, j) != Candidate(base, k)
  {
    if j == 1 {
      assert |Candidate(base, k)| > |base|;
    } else {
      NumberedNamesDiffer(base + "_", j, k);
    }
  }

  /** Candidates 1..n are n different names. */
  lemma {:induction false} CandidatesCount(base: string, n: nat)
    ensures |set k | 1 <= k <= n :: Candidate(base, k)| == n
  {
    var names := set k | 1 <= k <= n :: Candidate(base, k);
    if n == 0 {
      assert names == {};
    } else {
      var fewer := set k | 1 <= k <= n - 1 :: Candidate(base, k);
      CandidatesCount(base, n - 1);
      assert names == fewer + {Candidate(base, n)};
      forall k | 1 <= k <= n - 1 ensures Candidate(base, k) != Candidate(base, n) {
        CandidatesDiffer(base, k, n);
      }
    }
  }

  /** The pigeonhole: if the first n candidates are taken, there are at least n names. */
  lemma TakenCandidates(base: string, n: nat, existing: set<string>)
    requires forall k :: 1 <= k <= n ==> Candidate(base, k) in existing
    ensures n <= |existing|
  {
    var names := set k | 1 <= k <= n :: Candidate(base, k);
    CandidatesCount(base, n);
    assert names <= existing;
    SubsetSize(names, existing);
  }

  lemma {:induction false} SubsetSize(a: set<string>, b: set<string>)
    requires a <= b
    ensures |a| <= |b|
  {
    if a != {} {
      var x :| x in a;
      SubsetSize(a - {x}, b - {x});
    }
  }

  /** The first free candidate; it is among the first |existing| + 1. */
  method FreshName(base: string, existing: set<string>) returns (name: string, counter: nat)
    ensures name !in existing && name == Candidate(base, counter)
    ensures 1 <= counter <= |existing| + 1
    ensures forall k :: 1 <= k < counter ==> Candidate(base, k) in existing
  {
    name, counter := base, 1;
    while name in existing
      invariant counter >= 1 && name == Candidate(base, counter)
      invariant forall k :: 1 <= k < counter ==> Candidate(base, k) in existing
      decreases |existing| + 1 - counter
    {
      TakenCandidates(base, counter, existing);
      counter := counter + 1;
      name := base + "_" + Decimal(counter);
    }
    TakenCandidates(base, counter - 1, existing);
  }

  /** One of the first n candidates. */
  ghost predicate NamedFrom(base: string, name: string, n: nat) {
    exists k :: 1 <= k <= n && name == Candidate(base, k)
  }

  /** Names for all literals; a base may depend on how many names there are already. */
  method AssignNames(values: seq<string>, base: (string, nat) -> string) returns (names: seq<string>)
    ensures |names| == |values|
    ensures forall i, j :: 0 <= i < j < |names| ==> names[i] != names[j]
    ensures forall i :: 0 <= i < |names| ==> NamedFrom(base(values[i], i), names[i], i + 1)
  {
    names := [];
    var existing: set<string> := {};
    for i := 0 to |values|
      invariant |names| == i == |existing|
      invariant forall n :: n in names ==> n in existing
      invariant forall m, n :: 0 <= m < n < |names| ==> names[m] != names[n]
      invariant forall m :: 0 <= m < |names| ==> NamedFrom(base(values[m], m), names[m], m + 1)
    {
      var name, counter := FreshName(base(values[i], |existing|), existing);
      assert NamedFrom(base(values[i], i), name, i + 1);
      forall m | 0 <= m < i ensures names[m] != name {
        assert names[m] in names;
      }
      names := names + [name];
      existing := existing + {name};
    }
  }

  // -------------------------------------------------------------- definitions

  function Escape(s: string): string {
    if s == "" then ""
    else (if s[0] == '\\' then "\\\\" else if s[0] == '\'' then "\\'" else [s[0]]) + Escape(s[1..])
  }

  /**
   How JavaScript reads what follows a backslash: the text meant and the number of characters read.
   All that matters is that an escape is longer than what it means, and these two escapes.
   */
  ghost predicate Lawful(escape: string -> (string, nat)) {
    forall s :: s != "" ==>
      && 1 <= escape(s).1 <= |s| && |escape(s).0| <= escape(s).1
      && (s[0] == '\\' ==> escape(s) == ("\\", 1))
      && (s[0] == '\'' ==> escape(s) == ("'", 1))
  }

  /** The value of the text between the quotes of a string literal. */
  ghost function Meaning(escape: string -> (string, nat), source: string): string
    requires Lawful(escape)
    decreases |source|
  {
    if source == "" then ""
    else if source[0] != '\\' || |source| == 1 then [source[0]] + Meaning(escape, source[1..])
    else
      var (text, n) := escape(source[1..]);
      text + Meaning(escape, source[1 + n..])
  }

  lemma MeaningPlain(escape: string -> (string, nat), c: char, rest: string)
    requires Lawful(escape) && c != '\\'
    ensures Meaning(escape, [c] + rest) == [c] + Meaning(escape, rest)
  {
    assert ([c] + rest)[1..] == rest;
  }

  lemma MeaningEscaped(escape: string -> (string, nat), c: char, rest: string)
    requires Lawful(escape) && (c == '\\' || c == '\'')
    ensures Meaning(escape, ['\\', c] + rest) == [c] + Meaning(escape, rest)
  {
    var source := ['\\', c] + rest;
    EscapedParts(c, rest);
    TwoEscapes(escape, c, source[1..]);
    MeaningStep(escape, source);
  }

  lemma EscapedParts(c: char, rest: string)
    ensures var source := ['\\', c] + rest; source[1..] == [c] + rest && source[2..] == rest && |source| >= 2
  {
  }

  lemma TwoEscapes(escape: string -> (string, nat), c: char, s: string)
    requires Lawful(escape) && (c == '\\' || c == '\'') && s != "" && s[0] == c
    ensures escape(s) == ([c], 1)
  {
  }

  lemma MeaningStep(escape: string -> (string, nat), source: string)
    requires Lawful(escape) && |source| >= 2 && source[0] == '\\'
    ensures var (text, n) := escape(source[1..]); n < |source| && Meaning(escape, source) == text + Meaning(escape, source[1 + n..])
  {
  }

  /** A constant's definition means the literal's source text... */
  lemma {:induction false} DefinitionMeans(escape: string -> (string, nat), s: string)
    requires Lawful(escape)
    ensures Meaning(escape, Escape(s)) == s
  {
    if s != "" {
      DefinitionMeans(escape, s[1..]);
      if s[0] == '\\' || s[0] == '\'' {
        MeaningEscaped(escape, s[0], Escape(s[1..]));
      } else {
        MeaningPlain(escape, s[0], Escape(s[1..]));
      }
      assert s == [s[0]] + s[1..];
    }
  }

  lemma {:induction false} MeaningShort(escape: string -> (string, nat), s: string)
    requires Lawful(escape)
    ensures |Meaning(escape, s)| <= |s|
    decreases |s|
  {
    if s != "" {
      if s[0] != '\\' || |s| == 1 {
        MeaningShort(escape, s[1..]);
      } else {
        MeaningShort(escape, s[1 + escape(s[1..]).1..]);
      }
    }
  }

  /** An escape makes the value shorter than the text; a last, lone backslash is not one. */
  lemma {:induction false} MeaningShrinks(escape: string -> (string, nat), s: string, k: nat)
    requires Lawful(escape) && k < |s| - 1 && s[k] == '\\'
    ensures |Meaning(escape, s)| < |s|
    decreases |s|
  {
    if s[0] != '\\' {
      MeaningShrinks(escape, s[1..], k - 1);
    } else {
      MeaningShort(escape, s[1 + escape(s[1..]).1..]);
    }
  }

  lemma {:induction false} MeaningUnescaped(escape: string -> (string, nat), s: string)
    requires Lawful(escape) && '\\' !in s
    ensures Meaning(escape, s) == s
  {
    if s != "" {
      MeaningUnescaped(escape, s[1..]);
      MeaningPlain(escape, s[0], s[1..]);
      assert s == [s[0]] + s[1..];
    }
  }

  /**
   ...which is the literal's own value exactly when the literal has no escapes. (A text whose only
   backslash is its last character is no literal: its closing quote would be escaped.)
   */
  lemma ConstantEqualsLiteral(escape: string -> (string, nat), source: string)
    requires Lawful(escape) && ('\\' in source ==> '\\' in source[..|source| - 1])
    ensures Meaning(escape, Escape(source)) == Meaning(escape, source) <==> '\\' !in source
  {
    DefinitionMeans(escape, source);
    if '\\' in source {
      BackslashBeforeEnd(source);
      var k :| 0 <= k < |source| - 1 && source[k] == '\\';
      MeaningShrinks(escape, source, k);
    } else {
      MeaningUnescaped(escape, source);
    }
  }

  /** A line break written as an escape: the constant holds a backslash and a letter instead. */
  lemma EscapeDiffers(escape: string -> (string, nat))
    requires Lawful(escape)
    ensures Meaning(escape, Escape("\\n")) != Meaning(escape, "\\n")
  {
    assert "\\n"[..1] == "\\" && "\\"[0] == '\\';
    ConstantEqualsLiteral(escape, "\\n");
  }

  lemma BackslashBeforeEnd(source: string)
    requires source != "" && '\\' in source[..|source| - 1]
    ensures exists k :: 0 <= k < |source| - 1 && source[k] == '\\'
  {
    var k :| 0 <= k < |source| - 1 && source[..|source| - 1][k] == '\\';
    assert source[k] == '\\';
  }

  // ------------------------------------------------------------------- loops

  method ReplaceAt(line: string, op: Op) returns (replaced: string)
    ensures replaced == Splice(line, op)
  {
    var before, after := Take(line, op.start), Drop(line, op.end);
    var text := StripRight(before);
    if text != "" && text[|text| - 1] == '=' {
      replaced := before + ("{" + op.name + "}") + after;
    } else {
      replaced := before + op.name + after;
    }
  }

  lemma {:induction false} SortDownLength(ops: seq<Op>)
    ensures |SortDown(ops)| == |ops|
  {
    if ops != [] {
      SortDownLength(ops[1..]);
      InsertLength(ops[0], SortDown(ops[1..]));
    }
  }

  lemma {:induction false} InsertLength(op: Op, sorted: seq<Op>)
    ensures |Insert(op, sorted)| == |sorted| + 1
  {
    if sorted != [] && op.start < sorted[0].start {
      InsertLength(op, sorted[1..]);
    }
  }

  method RewriteLine(line: string, ops: seq<Op>) returns (rewritten: string, changes: nat)
    ensures rewritten == SpliceAll(line, Plan(ops)) && changes == |ops|
  {
    var sorted := SortDown(ops);
    SortDownLength(ops);
    rewritten, changes := line, 0;
    for i := 0 to |sorted|
      invariant changes == i
      invariant SpliceAll(line, sorted) == SpliceAll(rewritten, sorted[i..])
    {
      assert sorted[i..][0] == sorted[i] && sorted[i..][1..] == sorted[i + 1..];
      rewritten := ReplaceAt(rewritten, sorted[i]);
      changes := changes + 1;
    }
  }
}
