/**
 * The string and path primitives the agent uses from Go's `strings` and
 * `path` packages and from Rust's `str`: prefix and suffix tests, substring
 * search, splitting, character replacement, trimming and the last path
 * element. Strings are sequences of characters.
 */
module Strs {
  import opened Wrappers

  predicate StartsWith(s: string, prefix: string) {
    |prefix| <= |s| && s[..|prefix|] == prefix
  }

  predicate EndsWith(s: string, suffix: string) {
    |suffix| <= |s| && s[|s| - |suffix|..] == suffix
  }

  /** `sub` occurs in `s` starting at index `i`. */
  predicate OccursAt(s: string, sub: string, i: int) {
    0 <= i && i + |sub| <= |s| && s[i..i + |sub|] == sub
  }

  /** Go's `strings.Contains` and Rust's `str::contains`. */
  predicate Contains(s: string, sub: string) {
    exists i | 0 <= i <= |s| - |sub| :: OccursAt(s, sub, i)
  }

  lemma OccursShift(s: string, sub: string, j: int)
    requires |s| > 0 && j >= 0
    ensures OccursAt(s[1..], sub, j) <==> OccursAt(s, sub, j + 1)
  {
    if 0 <= j && j + |sub| <= |s| - 1 {
      assert s[1..][j..j + |sub|] == s[j + 1..j + 1 + |sub|];
    }
  }

  /** The index of the first occurrence of `sep` in `s`, as Go's `strings.Index`. */
  function IndexOf(s: string, sep: string): (r: Option<nat>)
    ensures r.Some? ==> OccursAt(s, sep, r.value)
    ensures r.Some? ==> forall j :: 0 <= j < r.value ==> !OccursAt(s, sep, j)
    ensures r.None? ==> forall j :: !OccursAt(s, sep, j)
    decreases |s|
  {
    if |s| < |sep| then None
    else if s[..|sep|] == sep then Some(0)
    else
      var r' := IndexOf(s[1..], sep);
      assert forall j | j >= 0 :: OccursAt(s[1..], sep, j) <==> OccursAt(s, sep, j + 1) by {
        forall j | j >= 0 ensures OccursAt(s[1..], sep, j) <==> OccursAt(s, sep, j + 1) {
          OccursShift(s, sep, j);
        }
      }
      assert !OccursAt(s, sep, 0);
      assert forall j :: OccursAt(s, sep, j) ==> j >= 1 && OccursAt(s[1..], sep, j - 1);
      match r'
      case None => None
      case Some(i) => Some(i + 1)
  }

  /** Go's `strings.Split` for a non-empty separator: the pieces between the occurrences of `sep`. */
  function Split(s: string, sep: string): (parts: seq<string>)
    requires |sep| > 0
    ensures |parts| >= 1
    decreases |s|
  {
    match IndexOf(s, sep)
    case None => [s]
    case Some(i) => [s[..i]] + Split(s[i + |sep|..], sep)
  }

  function Last<T>(s: seq<T>): T
    requires |s| > 0
  {
    s[|s| - 1]
  }

  /** The first occurrence of a one-character separator is the first index holding it. */
  lemma IndexOfChar(s: string, c: char)
    ensures IndexOf(s, [c]).None? <==> c !in s
    ensures IndexOf(s, [c]).Some? ==>
      var i := IndexOf(s, [c]).value;
      i < |s| && s[i] == c && c !in s[..i]
  {
    forall j | 0 <= j < |s| ensures OccursAt(s, [c], j) <==> s[j] == c {
      assert s[j..j + 1] == [s[j]];
    }
    match IndexOf(s, [c])
    case None =>
    case Some(i) =>
      assert s[i..i + 1] == [s[i]];
  }

  lemma SplitWithoutSeparator(s: string, c: char)
    requires c !in s
    ensures Split(s, [c]) == [s]
  {
    IndexOfChar(s, c);
  }

  /** The first separator of `s` counts once towards the separators of `s`. */
  lemma CountPastFirst(s: string, c: char, i: nat)
    requires i < |s| && s[i] == c
    ensures multiset(s)[c] == multiset(s[..i])[c] + 1 + multiset(s[i + 1..])[c]
  {
    assert s == s[..i] + [c] + s[i + 1..];
  }

  /** Splitting on one character: one piece more than separators, and no piece holds the separator. */
  lemma {:induction false} SplitCharCount(s: string, c: char)
    ensures |Split(s, [c])| == multiset(s)[c] + 1
    ensures forall k :: 0 <= k < |Split(s, [c])| ==> c !in Split(s, [c])[k]
    decreases |s|
  {
    IndexOfChar(s, c);
    match IndexOf(s, [c])
    case None =>
      assert multiset(s)[c] == 0;
    case Some(i) =>
      var rest := s[i + 1..];
      CountPastFirst(s, c, i);
      assert multiset(s[..i])[c] == 0;
      SplitCharCount(rest, c);
      var parts := Split(s, [c]);
      assert parts == [s[..i]] + Split(rest, [c]);
      forall k | 0 <= k < |parts| ensures c !in parts[k] {
        if k > 0 {
          assert parts[k] == Split(rest, [c])[k - 1];
        }
      }
  }

  /** When the first separator lies inside `a`, what follows it is the rest of `a` then `[c] + b`. */
  lemma RestAfter(a: string, c: char, b: string, i: nat)
    requires i < |a|
    ensures (a + [c] + b)[i + 1..] == a[i + 1..] + [c] + b
  {
  }

  /** The last piece of a split is what follows the last separator. */
  lemma {:induction false} SplitCharLast(a: string, c: char, b: string)
    requires c !in b
    ensures Last(Split(a + [c] + b, [c])) == b
    decreases |a|
  {
    var s := a + [c] + b;
    IndexOfChar(s, c);
    var i := IndexOf(s, [c]).value;
    forall j | 0 <= j < i ensures s[j] != c {
      assert s[..i][j] == s[j];
    }
    assert s[|a|] == c;
    var rest := s[i + 1..];
    assert Split(s, [c]) == [s[..i]] + Split(rest, [c]);
    if i == |a| {
      assert rest == b;
      SplitWithoutSeparator(b, c);
    } else {
      RestAfter(a, c, b, i);
      SplitCharLast(a[i + 1..], c, b);
    }
  }

  /** Every occurrence of `from` replaced by `to`, as `strings.Replace(s, from, to, -1)`. */
  function ReplaceChar(s: string, from: char, to: char): (r: string)
    ensures |r| == |s|
  {
    seq(|s|, i requires 0 <= i < |s| => if s[i] == from then to else s[i])
  }

  lemma ReplaceCharRemoves(s: string, from: char, to: char)
    requires from != to
    ensures from !in ReplaceChar(s, from, to)
  {
  }

  lemma ReplaceCharAppend(a: string, b: string, from: char, to: char)
    ensures ReplaceChar(a + b, from, to) == ReplaceChar(a, from, to) + ReplaceChar(b, from, to)
  {
  }

  /** `s` with `suffix` removed once when it ends with it, as `strings.TrimSuffix`. */
  function TrimSuffix(s: string, suffix: string): (r: string)
    ensures EndsWith(s, suffix) ==> r + suffix == s
    ensures !EndsWith(s, suffix) ==> r == s
  {
    if EndsWith(s, suffix) then s[..|s| - |suffix|] else s
  }

  /** `s` with `prefix` removed once when it starts with it, as `strings.TrimPrefix` and `str::strip_prefix(..).unwrap_or(s)`. */
  function TrimPrefix(s: string, prefix: string): (r: string)
    ensures StartsWith(s, prefix) ==> prefix + r == s
    ensures !StartsWith(s, prefix) ==> r == s
  {
    if StartsWith(s, prefix) then s[|prefix|..] else s
  }

  /** `strings.Trim(s, cutset)` for a one-character cutset. */
  function TrimChar(s: string, c: char): string {
    TrimRightChar(TrimLeftChar(s, c), c)
  }

  function TrimLeftChar(s: string, c: char): string {
    if |s| > 0 && s[0] == c then TrimLeftChar(s[1..], c) else s
  }

  function TrimRightChar(s: string, c: char): string {
    if |s| > 0 && s[|s| - 1] == c then TrimRightChar(s[..|s| - 1], c) else s
  }

  /** The characters with the Unicode White_Space property, which Rust's `str::trim` removes. */
  predicate IsWhitespace(c: char) {
    ('\t' <= c <= '\r') || c == ' ' || c == '\U{0085}' || c == '\U{00A0}' || c == '\U{1680}'
    || ('\U{2000}' <= c <= '\U{200A}') || c == '\U{2028}' || c == '\U{2029}'
    || c == '\U{202F}' || c == '\U{205F}' || c == '\U{3000}'
  }

  function TrimStartWhitespace(s: string): string {
    if |s| > 0 && IsWhitespace(s[0]) then TrimStartWhitespace(s[1..]) else s
  }

  function TrimEndWhitespace(s: string): string {
    if |s| > 0 && IsWhitespace(s[|s| - 1]) then TrimEndWhitespace(s[..|s| - 1]) else s
  }

  /** Rust's `str::trim`. */
  function TrimWhitespace(s: string): string {
    TrimEndWhitespace(TrimStartWhitespace(s))
  }

  function StripTrailingSlashes(s: string): string {
    if |s| > 0 && s[|s| - 1] == '/' then StripTrailingSlashes(s[..|s| - 1]) else s
  }

  function AfterLastSlash(s: string): string {
    if |s| == 0 then s
    else if s[|s| - 1] == '/' then []
    else AfterLastSlash(s[..|s| - 1]) + [s[|s| - 1]]
  }

  /** Go's `path.Base` (and `filepath.Base` on Linux): the last element of a slash-separated path. */
  function Base(p: string): string {
    if p == "" then "."
    else
      var t := StripTrailingSlashes(p);
      if t == "" then "/" else AfterLastSlash(t)
  }

  lemma {:induction false} AfterLastSlashOf(a: string, b: string)
    requires '/' !in b
    ensures AfterLastSlash(a + "/" + b) == b
    decreases |b|
  {
    var s := a + "/" + b;
    if |b| > 0 {
      var b' := b[..|b| - 1];
      assert s[..|s| - 1] == a + "/" + b';
      AfterLastSlashOf(a, b');
      assert b == b' + [b[|b| - 1]];
    }
  }

  /** The base of a path whose last element `b` is non-empty is `b`. */
  lemma BaseOf(a: string, b: string)
    requires b != "" && '/' !in b
    ensures Base(a + "/" + b) == b
  {
    var s := a + "/" + b;
    assert s[|s| - 1] == b[|b| - 1];
    AfterLastSlashOf(a, b);
  }

  /** A lexicographic order on strings by character code, the order of Rust's `String` for UTF-8 text. */
  predicate LessThan(a: string, b: string)
    decreases |a|
  {
    if |a| == 0 then |b| > 0
    else if |b| == 0 then false
    else if a[0] != b[0] then a[0] < b[0]
    else LessThan(a[1..], b[1..])
  }

  lemma {:induction false} LessThanIrreflexive(a: string)
    ensures !LessThan(a, a)
    decreases |a|
  {
    if |a| > 0 { LessThanIrreflexive(a[1..]); }
  }

  lemma {:induction false} LessThanTransitive(a: string, b: string, c: string)
    requires LessThan(a, b) && LessThan(b, c)
    ensures LessThan(a, c)
    decreases |a|
  {
    if |a| > 0 && |b| > 0 && |c| > 0 && a[0] == b[0] && b[0] == c[0] {
      LessThanTransitive(a[1..], b[1..], c[1..]);
    }
  }

  lemma {:induction false} LessThanTotal(a: string, b: string)
    requires a != b
    ensures LessThan(a, b) || LessThan(b, a)
    decreases |a|
  {
    if |a| > 0 && |b| > 0 && a[0] == b[0] {
      assert a == [a[0]] + a[1..] && b == [b[0]] + b[1..];
      LessThanTotal(a[1..], b[1..]);
    }
  }
}
