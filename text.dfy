/** The .NET string operations the evaluator relies on: `char.IsWhiteSpace`,
    `string.IsNullOrWhiteSpace`, `Trim`, ordinal `StartsWith` and `Contains`,
    `OrdinalIgnoreCase` containment (ASCII case folding), `Split(char)` and
    `string.Join`. Strings are sequences of characters. */
module Text {
  import opened Wrappers

  /** `char.IsWhiteSpace`: the Unicode space separators, the line and paragraph
      separators, U+0009..U+000D, U+0085 and U+00A0. */
  predicate IsWhiteSpace(c: char) {
    || c == ' '
    || '\t' <= c <= '\r'
    || c == '\U{0085}'
    || c == '\U{00A0}'
    || c == '\U{1680}'
    || '\U{2000}' <= c <= '\U{200A}'
    || c == '\U{2028}'
    || c == '\U{2029}'
    || c == '\U{202F}'
    || c == '\U{205F}'
    || c == '\U{3000}'
  }

  predicate IsBlank(s: string) {
    forall i :: 0 <= i < |s| ==> IsWhiteSpace(s[i])
  }

  /** `string.IsNullOrWhiteSpace`. */
  predicate IsNullOrWhiteSpace(s: Option<string>) {
    s.None? || IsBlank(s.value)
  }

  // ---------------------------------------------------------------------------
  // Trimming

  function TrimStartWhere(s: string, white: char -> bool): (r: string)
    ensures |r| <= |s| && r == s[|s| - |r|..]
    ensures r != [] ==> !white(r[0])
    ensures forall i :: 0 <= i < |s| - |r| ==> white(s[i])
  {
    if s != [] && white(s[0]) then TrimStartWhere(s[1..], white) else s
  }

  function TrimEndWhere(s: string, white: char -> bool): (r: string)
    ensures |r| <= |s| && r == s[..|r|]
    ensures r != [] ==> !white(r[|r| - 1])
    ensures forall i :: |r| <= i < |s| ==> white(s[i])
  {
    if s != [] && white(s[|s| - 1]) then TrimEndWhere(s[..|s| - 1], white) else s
  }

  /** Removes every leading and trailing character that `white` accepts. */
  function TrimWhere(s: string, white: char -> bool): (r: string)
    ensures r != [] ==> !white(r[0]) && !white(r[|r| - 1])
    ensures r == [] <==> forall i :: 0 <= i < |s| ==> white(s[i])
    ensures s == [] || (!white(s[0]) && !white(s[|s| - 1])) ==> r == s
  {
    var front := TrimStartWhere(s, white);
    var r := TrimEndWhere(front, white);
    TrimWhereSlice(s, white, front, r);
    r
  }

  lemma TrimWhereSlice(s: string, white: char -> bool, front: string, r: string)
    requires front == TrimStartWhere(s, white) && r == TrimEndWhere(front, white)
    ensures r == [] ==> forall i :: 0 <= i < |s| ==> white(s[i])
  {
    if r == [] {
      forall i | 0 <= i < |s| ensures white(s[i]) {
        if i >= |s| - |front| {
          assert s[i] == front[i - (|s| - |front|)];
        }
      }
    }
  }

  /** `string.Trim()`. */
  function Trim(s: string): string {
    TrimWhere(s, IsWhiteSpace)
  }

  lemma TrimUnchanged(s: string)
    requires s != [] && !IsWhiteSpace(s[0]) && !IsWhiteSpace(s[|s| - 1])
    ensures Trim(s) == s
  {
  }

  /** Trimming twice is trimming once, and a string trims to nothing exactly
      when it is blank. */
  lemma TrimProperties(s: string)
    ensures Trim(Trim(s)) == Trim(s)
    ensures Trim(s) == [] <==> IsBlank(s)
    ensures IsBlank(Trim(s)) <==> IsBlank(s)
  {
  }

  // ---------------------------------------------------------------------------
  // Prefixes and containment

  /** Ordinal `StartsWith`. */
  predicate StartsWith(s: string, prefix: string) {
    |prefix| <= |s| && s[..|prefix|] == prefix
  }

  /** Ordinal `Contains`: `sub` occurs in `s` as a contiguous block. */
  predicate Contains(s: string, sub: string)
    decreases |s|
  {
    StartsWith(s, sub) || (s != [] && Contains(s[1..], sub))
  }

  /** `sub` occurs in `s` starting at offset `i`. */
  predicate OccursAt(s: string, sub: string, i: int) {
    0 <= i <= |s| - |sub| && s[i..i + |sub|] == sub
  }

  /** `Contains` finds exactly the occurrences of `sub` at some offset of `s`. */
  lemma {:induction false} ContainsIffOccurs(s: string, sub: string)
    ensures Contains(s, sub) <==> exists i :: OccursAt(s, sub, i)
    decreases |s|
  {
    if s == [] {
      if Contains(s, sub) {
        assert OccursAt(s, sub, 0);
      }
      if exists i :: OccursAt(s, sub, i) {
        var i :| OccursAt(s, sub, i);
        assert StartsWith(s, sub);
      }
    } else {
      ContainsIffOccurs(s[1..], sub);
      if Contains(s, sub) {
        if StartsWith(s, sub) {
          assert OccursAt(s, sub, 0);
        } else {
          var i :| OccursAt(s[1..], sub, i);
          assert s[1..][i..i + |sub|] == s[i + 1..i + 1 + |sub|];
          assert OccursAt(s, sub, i + 1);
        }
      }
      if exists i :: OccursAt(s, sub, i) {
        var i :| OccursAt(s, sub, i);
        if i == 0 {
          assert StartsWith(s, sub);
        } else {
          assert s[1..][i - 1..i - 1 + |sub|] == s[i..i + |sub|];
          assert OccursAt(s[1..], sub, i - 1);
        }
      }
    }
  }

  /** A string contains every piece it is built from. */
  lemma ContainsInfix(a: string, m: string, b: string)
    ensures Contains(a + m + b, m)
  {
    var s := a + m + b;
    assert s[|a|..|a| + |m|] == m;
    assert OccursAt(s, m, |a|);
    ContainsIffOccurs(s, m);
  }

  /** Whatever a piece contains, a string built around it contains too. */
  lemma ContainsWithin(a: string, m: string, b: string, sub: string)
    requires Contains(m, sub)
    ensures Contains(a + m + b, sub)
  {
    ContainsIffOccurs(m, sub);
    var i :| OccursAt(m, sub, i);
    var s := a + m + b;
    assert s[|a| + i..|a| + i + |sub|] == m[i..i + |sub|];
    assert OccursAt(s, sub, |a| + i);
    ContainsIffOccurs(s, sub);
  }

  // ---------------------------------------------------------------------------
  // Case-insensitive containment

  function ToLowerAscii(c: char): char {
    if 'A' <= c <= 'Z' then (c as int + 32) as char else c
  }

  function ToLower(s: string): (r: string)
    ensures |r| == |s| && forall i :: 0 <= i < |s| ==> r[i] == ToLowerAscii(s[i])
  {
    seq(|s|, i requires 0 <= i < |s| => ToLowerAscii(s[i]))
  }

  /** `Contains(sub, StringComparison.OrdinalIgnoreCase)` with ASCII case folding. */
  predicate ContainsIgnoreCase(s: string, sub: string) {
    Contains(ToLower(s), ToLower(sub))
  }

  /** A string contains, ignoring case, every piece it is built from and
      whatever folds to the same lower case. */
  lemma ContainsIgnoreCaseInfix(a: string, m: string, b: string, p: string)
    requires ToLower(m) == ToLower(p)
    ensures ContainsIgnoreCase(a + m + b, p)
  {
    var s := a + m + b;
    var lower := ToLower(s);
    forall k | 0 <= k < |m| ensures lower[|a| + k] == ToLower(m)[k] {
      assert s[|a| + k] == m[k];
    }
    assert lower[|a|..|a| + |m|] == ToLower(p);
    assert OccursAt(lower, ToLower(p), |a|);
    ContainsIffOccurs(lower, ToLower(p));
  }

  // ---------------------------------------------------------------------------
  // Splitting and joining

  /** Position of the first `c` in `s`, or `|s|` when there is none. */
  function IndexOf(s: string, c: char): (i: nat)
    ensures i <= |s|
    ensures i < |s| ==> s[i] == c
    ensures forall j :: 0 <= j < i ==> s[j] != c
  {
    if s == [] then 0 else if s[0] == c then 0 else 1 + IndexOf(s[1..], c)
  }

  function CountChar(s: string, c: char): nat {
    if s == [] then 0 else (if s[0] == c then 1 else 0) + CountChar(s[1..], c)
  }

  /** `s.Split(c)`: the pieces between the occurrences of `c`, empty pieces kept. */
  function Split(s: string, c: char): (parts: seq<string>)
    ensures |parts| >= 1
    ensures forall k :: 0 <= k < |parts| ==> c !in parts[k]
    decreases |s|
  {
    var i := IndexOf(s, c);
    if i == |s| then [s] else [s[..i]] + Split(s[i + 1..], c)
  }

  /** `string.Join(sep, parts)`. */
  function Join(parts: seq<string>, sep: string): string {
    if |parts| == 0 then "" else if |parts| == 1 then parts[0] else parts[0] + sep + Join(parts[1..], sep)
  }

  function Min(a: nat, b: nat): nat {
    if a <= b then a else b
  }

  /** LINQ `Take(n)`. */
  function Take(parts: seq<string>, n: nat): seq<string> {
    parts[..Min(n, |parts|)]
  }

  lemma {:induction false} CountCharAppend(a: string, b: string, c: char)
    ensures CountChar(a + b, c) == CountChar(a, c) + CountChar(b, c)
  {
    if a != [] {
      assert (a + b)[0] == a[0];
      assert (a + b)[1..] == a[1..] + b;
      CountCharAppend(a[1..], b, c);
    } else {
      assert a + b == b;
    }
  }

  lemma {:induction false} CountCharAbsent(s: string, c: char)
    requires c !in s
    ensures CountChar(s, c) == 0
  {
    if s != [] {
      assert c !in s[1..];
      CountCharAbsent(s[1..], c);
    }
  }

  /** Splitting on `c` gives one more piece than there are `c`s. */
  lemma {:induction false} SplitCount(s: string, c: char)
    ensures |Split(s, c)| == CountChar(s, c) + 1
    decreases |s|
  {
    var i := IndexOf(s, c);
    if i == |s| {
      CountCharAbsent(s, c);
    } else {
      SplitCount(s[i + 1..], c);
      assert s == s[..i] + [c] + s[i + 1..];
      CountCharAppend(s[..i] + [c], s[i + 1..], c);
      CountCharAppend(s[..i], [c], c);
      CountCharAbsent(s[..i], c);
    }
  }

  /** Joining the pieces of a split with the separator gives back the string. */
  lemma {:induction false} JoinSplit(s: string, c: char)
    ensures Join(Split(s, c), [c]) == s
    decreases |s|
  {
    var i := IndexOf(s, c);
    if i < |s| {
      var rest := Split(s[i + 1..], c);
      JoinSplit(s[i + 1..], c);
      assert Split(s, c) == [s[..i]] + rest;
      assert ([s[..i]] + rest)[1..] == rest;
      assert s == s[..i] + [c] + s[i + 1..];
    }
  }

  /** Splitting a join of pieces free of the separator gives back the pieces. */
  lemma {:induction false} SplitJoin(parts: seq<string>, c: char)
    requires |parts| >= 1
    requires forall k :: 0 <= k < |parts| ==> c !in parts[k]
    ensures Split(Join(parts, [c]), c) == parts
    decreases |parts|
  {
    var s := Join(parts, [c]);
    var p := parts[0];
    if |parts| == 1 {
      assert IndexOf(p, c) == |p|;
    } else {
      var tail := Join(parts[1..], [c]);
      assert s == p + [c] + tail;
      assert s[|p|] == c;
      assert forall j :: 0 <= j < |p| ==> s[j] == p[j];
      assert IndexOf(s, c) == |p|;
      assert s[..|p|] == p;
      assert s[|p| + 1..] == tail;
      SplitJoin(parts[1..], c);
      assert [p] + parts[1..] == parts;
    }
  }

  lemma JoinCons(x: string, ys: seq<string>, sep: string)
    requires |ys| >= 1
    ensures Join([x] + ys, sep) == x + sep + Join(ys, sep)
  {
    assert ([x] + ys)[1..] == ys;
  }

  /** `p` is a prefix of `s` that ends at the end of `s` or just before a `c`. */
  predicate PrefixBefore(s: string, p: string, c: char) {
    StartsWith(s, p) && (p == s || s[|p|] == c)
  }

  lemma PrefixBeforeExtend(head: string, c: char, tail: string, q: string)
    requires PrefixBefore(tail, q, c)
    ensures PrefixBefore(head + [c] + tail, head + [c] + q, c)
  {
    var s, p := head + [c] + tail, head + [c] + q;
    assert s[..|p|] == p;
    if p != s {
      assert q != tail;
      assert s[|p|] == tail[|q|];
    }
  }

  /** The first `n` pieces of a split, joined back, are a prefix of the string
      that stops either at its end or just before an occurrence of `c`, and
      hold `min(n, pieces) - 1` occurrences of `c`. */
  lemma {:induction false} TakeSplitPrefix(s: string, c: char, n: nat)
    requires n >= 1
    ensures PrefixBefore(s, Join(Take(Split(s, c), n), [c]), c)
    ensures CountChar(Join(Take(Split(s, c), n), [c]), c) == Min(n, |Split(s, c)|) - 1
    decreases |s|, 1
  {
    var parts := Split(s, c);
    var i := IndexOf(s, c);
    if i == |s| {
      assert Take(parts, n) == [s];
      CountCharAbsent(s, c);
    } else if n == 1 {
      var head := s[..i];
      assert parts == [head] + Split(s[i + 1..], c);
      assert Take(parts, n) == [head];
      assert c !in head;
      CountCharAbsent(head, c);
    } else {
      TakeSplitPrefixStep(s, c, n);
    }
  }

  lemma {:induction false} TakeSplitPrefixStep(s: string, c: char, n: nat)
    requires n >= 2 && IndexOf(s, c) < |s|
    ensures PrefixBefore(s, Join(Take(Split(s, c), n), [c]), c)
    ensures CountChar(Join(Take(Split(s, c), n), [c]), c) == Min(n, |Split(s, c)|) - 1
    decreases |s|, 0
  {
    var i := IndexOf(s, c);
    var head, tail := s[..i], s[i + 1..];
    var rest := Split(tail, c);
    var q := Join(Take(rest, n - 1), [c]);
    TakeSplitPrefix(tail, c, n - 1);
    SplitUnfold(s, c);
    TakeCons(head, rest, n);
    JoinCons(head, Take(rest, n - 1), [c]);
    PrefixBeforeExtend(head, c, tail, q);
    CountCharAbsent(head, c);
    CountCharAppend(head + [c], q, c);
    CountCharAppend(head, [c], c);
  }

  lemma SplitUnfold(s: string, c: char)
    requires IndexOf(s, c) < |s|
    ensures var i := IndexOf(s, c);
      && Split(s, c) == [s[..i]] + Split(s[i + 1..], c)
      && s == s[..i] + [c] + s[i + 1..]
      && c !in s[..i]
  {
    var i := IndexOf(s, c);
    assert s[..i] + [c] + s[i + 1..] == s;
    assert forall j :: 0 <= j < i ==> s[..i][j] != c;
  }

  lemma TakeCons(x: string, ys: seq<string>, n: nat)
    requires n >= 1
    ensures Take([x] + ys, n) == [x] + Take(ys, n - 1)
    ensures Min(n, |[x] + ys|) - 1 == Min(n - 1, |ys|)
  {
  }
}
