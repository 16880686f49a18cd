/** The pieces of Go's `strings` package the service leans on, over ASCII text:
    lower-casing, splitting at one character, substring search, and the byte
    order in which the key-value store sorts its keys. */
module Text {

  function LowerChar(c: char): char {
    if 'A' <= c <= 'Z' then (c as int + 32) as char else c
  }

  /** strings.ToLower on ASCII text. */
  function Lower(s: string): (r: string)
    ensures |r| == |s|
    ensures forall i :: 0 <= i < |s| ==> r[i] == LowerChar(s[i])
  {
    seq(|s|, i requires 0 <= i < |s| => LowerChar(s[i]))
  }

  function LowerAll(ss: seq<string>): (r: seq<string>)
    ensures |r| == |ss|
    ensures forall i :: 0 <= i < |ss| ==> r[i] == Lower(ss[i])
  {
    seq(|ss|, i requires 0 <= i < |ss| => Lower(ss[i]))
  }

  lemma LowerIdempotent(s: string)
    ensures Lower(Lower(s)) == Lower(s)
  {
  }

  /** Lower-casing neither makes nor removes a character that is not a letter. */
  lemma LowerKeepsPunctuation(s: string, c: char)
    requires !('A' <= c <= 'Z') && !('a' <= c <= 'z')
    ensures c in Lower(s) <==> c in s
  {
    if c in s {
      var i :| 0 <= i < |s| && s[i] == c;
      assert Lower(s)[i] == c;
    }
    if c in Lower(s) {
      var i :| 0 <= i < |s| && Lower(s)[i] == c;
      assert s[i] == c;
    }
  }

  // ---------- splitting and joining at one character ----------

  /** strings.Split with a one-character separator. */
  function Split(s: string, c: char): (parts: seq<string>)
    ensures |parts| >= 1
  {
    if s == "" then [""]
    else if s[0] == c then [""] + Split(s[1..], c)
    else var rest := Split(s[1..], c); [[s[0]] + rest[0]] + rest[1..]
  }

  function Join(parts: seq<string>, c: char): string
    requires |parts| >= 1
  {
    if |parts| == 1 then parts[0] else parts[0] + [c] + Join(parts[1..], c)
  }

  lemma {:induction false} JoinSplit(s: string, c: char)
    ensures Join(Split(s, c), c) == s
  {
    if s == "" {
    } else {
      JoinSplit(s[1..], c);
      var rest := Split(s[1..], c);
      if s[0] == c {
        assert ([""] + rest)[1..] == rest;
      } else {
        assert ([[s[0]] + rest[0]] + rest[1..])[1..] == rest[1..];
        assert s == [s[0]] + s[1..];
      }
    }
  }

  /** There is one piece more than there are separators, and no piece has one: with JoinSplit, this is
      all there is to know about a split. */
  lemma {:induction false} SplitCounts(s: string, c: char)
    ensures |Split(s, c)| == multiset(s)[c] + 1
    ensures forall p :: p in Split(s, c) ==> c !in p
  {
    if s != "" {
      SplitCounts(s[1..], c);
      var rest := Split(s[1..], c);
      assert s == [s[0]] + s[1..];
      assert rest[0] in rest && forall p :: p in rest[1..] ==> p in rest;
    }
  }

  lemma LowerFirst(c: char, s: string, first: string, rest: seq<string>)
    ensures Lower([c] + s) == [LowerChar(c)] + Lower(s)
    ensures LowerAll([first] + rest) == [Lower(first)] + LowerAll(rest)
  {
  }

  /** Lower-casing a text lower-cases its pieces. */
  lemma {:induction false} SplitLower(s: string, c: char)
    requires !('A' <= c <= 'Z') && !('a' <= c <= 'z')
    ensures Split(Lower(s), c) == LowerAll(Split(s, c))
  {
    if s != "" {
      SplitLower(s[1..], c);
      var rest := Split(s[1..], c);
      assert s == [s[0]] + s[1..];
      LowerFirst(s[0], s[1..], "", rest);
      assert Lower(s)[1..] == Lower(s[1..]);
      if s[0] != c {
        SplitLowerPiece(s, c, rest);
      }
    }
  }

  lemma SplitLowerPiece(s: string, c: char, rest: seq<string>)
    requires s != "" && s[0] != c && LowerChar(s[0]) != c && rest == Split(s[1..], c)
    requires Lower(s) == [LowerChar(s[0])] + Lower(s[1..]) && Split(Lower(s[1..]), c) == LowerAll(rest)
    ensures Split(Lower(s), c) == LowerAll(Split(s, c))
  {
    var low := Lower(s);
    assert low[1..] == Lower(s[1..]);
    LowerFirst(s[0], rest[0], [s[0]] + rest[0], rest[1..]);
    assert LowerAll(rest)[1..] == LowerAll(rest[1..]);
    assert Split(low, c) == [[low[0]] + LowerAll(rest)[0]] + LowerAll(rest)[1..];
  }

  lemma {:induction false} SplitFree(s: string, c: char)
    requires c !in s
    ensures Split(s, c) == [s]
  {
    if s != "" {
      SplitFree(s[1..], c);
      assert [s[0]] + s[1..] == s;
    }
  }

  lemma {:induction false} SplitAtDelimiter(a: string, c: char, b: string)
    requires c !in a
    ensures Split(a + [c] + b, c) == [a] + Split(b, c)
  {
    var s := a + [c] + b;
    if a == "" {
      assert s[1..] == b;
    } else {
      assert s[1..] == a[1..] + [c] + b;
      SplitAtDelimiter(a[1..], c, b);
      assert [a[0]] + a[1..] == a;
    }
  }

  /** Splitting at a separator in the middle splits both sides. */
  lemma {:induction false} SplitConcat(a: string, c: char, b: string)
    ensures Split(a + [c] + b, c) == Split(a, c) + Split(b, c)
  {
    var s := a + [c] + b;
    if a == "" {
      assert s[1..] == b;
    } else {
      assert s[1..] == a[1..] + [c] + b;
      SplitConcat(a[1..], c, b);
    }
  }

  /** Joining separator-free parts and splitting again gives the parts back. */
  lemma {:induction false} SplitJoin(parts: seq<string>, c: char)
    requires |parts| >= 1
    requires forall p :: p in parts ==> c !in p
    ensures Split(Join(parts, c), c) == parts
  {
    assert parts[0] in parts;
    if |parts| == 1 {
      SplitFree(parts[0], c);
    } else {
      SplitJoin(parts[1..], c);
      SplitAtDelimiter(parts[0], c, Join(parts[1..], c));
      assert parts == [parts[0]] + parts[1..];
    }
  }

  lemma {:induction false} JoinAppend(parts: seq<string>, p: string, c: char)
    requires |parts| >= 1
    ensures Join(parts + [p], c) == Join(parts, c) + [c] + p
  {
    if |parts| == 1 {
      assert (parts + [p])[1..] == [p];
    } else {
      assert (parts + [p])[1..] == parts[1..] + [p];
      JoinAppend(parts[1..], p, c);
      assert (parts + [p])[0] == parts[0];
    }
  }

  /** The first piece of a split is everything before the first separator,
      whatever follows it. */
  lemma {:induction false} FirstPieceIgnoresTail(a: string, c: char, b: string)
    ensures Split(a + [c] + b, c)[0] == Split(a, c)[0]
  {
    if a == "" {
      assert ("" + [c] + b)[0] == c;
    } else {
      assert (a + [c] + b)[1..] == a[1..] + [c] + b;
      FirstPieceIgnoresTail(a[1..], c, b);
    }
  }

  // ---------- substring search ----------

  predicate OccursAt(s: string, sub: string, i: int) {
    0 <= i <= |s| - |sub| && s[i..i + |sub|] == sub
  }

  lemma OccursLaterAt(s: string, sub: string, i: int)
    requires s != ""
    ensures i > 0 ==> (OccursAt(s, sub, i) <==> OccursAt(s[1..], sub, i - 1))
  {
    if 0 < i <= |s| - |sub| {
      assert s[1..][i - 1..i - 1 + |sub|] == s[i..i + |sub|];
    }
  }

  /** A text that does not begin with `sub` has it only where the rest has it. */
  lemma OccursLater(s: string, sub: string)
    requires s != "" && !OccursAt(s, sub, 0)
    ensures forall i :: OccursAt(s, sub, i) ==> i > 0 && OccursAt(s[1..], sub, i - 1)
  {
    forall i | OccursAt(s, sub, i) ensures i > 0 && OccursAt(s[1..], sub, i - 1) {
      if i > 0 {
        OccursLaterAt(s, sub, i);
      }
    }
  }

  /** strings.Index: the first occurrence, or -1. */
  function Index(s: string, sub: string): (r: int)
    ensures -1 <= r <= |s| - |sub| || r == -1
    ensures r >= 0 ==> OccursAt(s, sub, r)
    ensures forall i :: OccursAt(s, sub, i) ==> 0 <= r <= i
  {
    if |sub| > |s| then -1
    else if s[..|sub|] == sub then 0
    else if s == "" then -1
    else
      var r := Index(s[1..], sub);
      OccursLater(s, sub);
      OccursLaterAt(s, sub, r + 1);
      if r == -1 then -1 else r + 1
  }

  /** strings.Contains. */
  predicate Contains(s: string, sub: string) {
    exists i :: 0 <= i <= |s| - |sub| && OccursAt(s, sub, i)
  }

  lemma OccurrenceCovers(s: string, sub: string, i: int, j: int)
    requires OccursAt(s, sub, i) && i <= j < i + |sub|
    ensures s[j] in sub
  {
    assert s[i..i + |sub|][j - i] == s[j];
  }

  lemma OccursChar(s: string, sub: string, i: int, k: int)
    requires OccursAt(s, sub, i) && 0 <= k < |sub|
    ensures s[i + k] == sub[k]
  {
    assert s[i..i + |sub|][k] == s[i + k];
  }

  lemma OccursInFront(a: string, b: string, sub: string, i: int)
    requires i + |sub| <= |a|
    ensures OccursAt(a + b, sub, i) <==> OccursAt(a, sub, i)
  {
    if 0 <= i {
      assert (a + b)[i..i + |sub|] == a[i..i + |sub|];
    }
  }

  lemma OccursBehind(a: string, b: string, sub: string, i: int)
    requires 0 <= i
    ensures OccursAt(a + b, sub, |a| + i) <==> OccursAt(b, sub, i)
  {
    if i + |sub| <= |b| {
      assert (a + b)[|a| + i..|a| + i + |sub|] == b[i..i + |sub|];
    }
  }

  /** An occurrence of a separator-free text never straddles a separator. */
  lemma OccursAroundDelimiter(a: string, c: char, b: string, sub: string, i: int)
    requires sub != "" && c !in sub
    ensures OccursAt(a + [c] + b, sub, i) <==> OccursAt(a, sub, i) || OccursAt(b, sub, i - |a| - 1)
  {
    var s := a + [c] + b;
    if OccursAt(s, sub, i) {
      if i <= |a| < i + |sub| {
        OccurrenceCovers(s, sub, i, |a|);
        assert false;
      } else if i + |sub| <= |a| {
        assert s[i..i + |sub|] == a[i..i + |sub|];
      } else {
        assert s[i..i + |sub|] == b[i - |a| - 1..i - |a| - 1 + |sub|];
      }
    }
    if OccursAt(a, sub, i) {
      assert s[i..i + |sub|] == a[i..i + |sub|];
    }
    if OccursAt(b, sub, i - |a| - 1) {
      assert s[i..i + |sub|] == b[i - |a| - 1..i - |a| - 1 + |sub|];
    }
  }

  lemma ContainsAroundDelimiter(a: string, c: char, b: string, sub: string)
    requires sub != "" && c !in sub
    ensures Contains(a + [c] + b, sub) <==> Contains(a, sub) || Contains(b, sub)
  {
    if Contains(a + [c] + b, sub) {
      var i :| OccursAt(a + [c] + b, sub, i);
      OccursAroundDelimiter(a, c, b, sub, i);
    }
    if Contains(a, sub) {
      var i :| OccursAt(a, sub, i);
      OccursAroundDelimiter(a, c, b, sub, i);
    }
    if Contains(b, sub) {
      var i :| OccursAt(b, sub, i);
      OccursAroundDelimiter(a, c, b, sub, i + |a| + 1);
    }
  }

  predicate AnyContains(parts: seq<string>, sub: string) {
    parts != [] && (Contains(parts[0], sub) || AnyContains(parts[1..], sub))
  }

  lemma {:induction false} AnyContainsMeans(parts: seq<string>, sub: string)
    ensures AnyContains(parts, sub) <==> exists i :: 0 <= i < |parts| && Contains(parts[i], sub)
  {
    if parts != [] {
      AnyContainsMeans(parts[1..], sub);
      if AnyContains(parts[1..], sub) {
        var i :| 0 <= i < |parts[1..]| && Contains(parts[1..][i], sub);
        assert Contains(parts[i + 1], sub);
      }
      if i :| 0 <= i < |parts| && Contains(parts[i], sub) {
        assert i > 0 ==> parts[1..][i - 1] == parts[i];
      }
    }
  }

  lemma {:induction false} AnyContainsAppend(a: seq<string>, b: seq<string>, sub: string)
    ensures AnyContains(a + b, sub) <==> AnyContains(a, sub) || AnyContains(b, sub)
  {
    if a == [] {
      assert a + b == b;
    } else {
      assert (a + b)[1..] == a[1..] + b;
      AnyContainsAppend(a[1..], b, sub);
    }
  }

  /** A separator-free text is in a joined text exactly if it is in one part. */
  lemma {:induction false} ContainsJoin(parts: seq<string>, c: char, sub: string)
    requires |parts| >= 1 && sub != "" && c !in sub
    ensures Contains(Join(parts, c), sub) <==> AnyContains(parts, sub)
  {
    if |parts| > 1 {
      ContainsAroundDelimiter(parts[0], c, Join(parts[1..], c), sub);
      ContainsJoin(parts[1..], c, sub);
    }
  }

  /** A text without some letter of `sub` cannot contain `sub`. */
  lemma MissingLetter(s: string, sub: string, c: char)
    requires c in sub && c !in s
    ensures !Contains(s, sub)
  {
    if Contains(s, sub) {
      assert false;
    }
  }

  // ---------- key order ----------

  /** Byte-wise lexicographic order, strict. */
  predicate Less(a: string, b: string) {
    if b == "" then false
    else if a == "" then true
    else if a[0] != b[0] then a[0] < b[0]
    else Less(a[1..], b[1..])
  }

  lemma {:induction false} LessIrreflexive(a: string)
    ensures !Less(a, a)
  {
    if a != "" {
      LessIrreflexive(a[1..]);
    }
  }

  lemma {:induction false} LessTotal(a: string, b: string)
    ensures a == b || Less(a, b) || Less(b, a)
  {
    if a != "" && b != "" && a[0] == b[0] {
      LessTotal(a[1..], b[1..]);
      assert a == [a[0]] + a[1..];
      assert b == [b[0]] + b[1..];
    }
  }

  lemma {:induction false} LessTransitive(a: string, b: string, c: string)
    requires Less(a, b) && Less(b, c)
    ensures Less(a, c)
  {
    if a != "" && a[0] == b[0] == c[0] {
      LessTransitive(a[1..], b[1..], c[1..]);
    }
  }

  lemma {:induction false} LessAfterPrefix(p: string, a: string, b: string)
    ensures Less(p + a, p + b) <==> Less(a, b)
  {
    if p == "" {
      assert p + a == a && p + b == b;
    } else {
      assert (p + a)[1..] == p[1..] + a;
      assert (p + b)[1..] == p[1..] + b;
      LessAfterPrefix(p[1..], a, b);
    }
  }

  /** The half-open range of a key-value range read. */
  predicate InRange(lo: string, hi: string, k: string) {
    !Less(k, lo) && Less(k, hi)
  }

  /** Both ends of a range share a prefix: every key in the range has it too. */
  lemma {:induction false} RangeSharesPrefix(p: string, lo: string, hi: string, k: string)
    requires InRange(p + lo, p + hi, k)
    ensures p <= k
  {
    if p != "" {
      assert (p + lo)[1..] == p[1..] + lo;
      assert (p + hi)[1..] == p[1..] + hi;
      assert k != "" && k[0] == p[0];
      RangeSharesPrefix(p[1..], lo, hi, k[1..]);
      assert p == [p[0]] + p[1..];
    }
  }
}
