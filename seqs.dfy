/**
 * Order-preserving filtering of a sequence, the shape of every Go loop in
 * the agent that appends the elements passing a test to a fresh slice.
 */
module Seqs {

  /** The elements of `s` that satisfy `keep`, in their order. */
  function Filter<T>(keep: T -> bool, s: seq<T>): (r: seq<T>)
    ensures |r| <= |s|
  {
    if |s| == 0 then []
    else
      var last := s[|s| - 1];
      Filter(keep, s[..|s| - 1]) + (if keep(last) then [last] else [])
  }

  /** Extending the input by one element extends the output by it exactly when it is kept. */
  lemma FilterSnoc<T>(keep: T -> bool, s: seq<T>, x: T)
    ensures Filter(keep, s + [x]) == Filter(keep, s) + (if keep(x) then [x] else [])
  {
    assert (s + [x])[..|s + [x]| - 1] == s;
  }

  /** Filtering distributes over concatenation: kept elements stay in their relative order. */
  lemma {:induction false} FilterAppend<T>(keep: T -> bool, a: seq<T>, b: seq<T>)
    ensures Filter(keep, a + b) == Filter(keep, a) + Filter(keep, b)
    decreases |b|
  {
    if |b| == 0 {
      assert a + b == a;
    } else {
      var b' := b[..|b| - 1];
      assert a + b == (a + b') + [b[|b| - 1]];
      assert b == b' + [b[|b| - 1]];
      FilterSnoc(keep, a + b', b[|b| - 1]);
      FilterSnoc(keep, b', b[|b| - 1]);
      FilterAppend(keep, a, b');
    }
  }

  /** An element is in the output exactly when it is in the input and kept. */
  lemma {:induction false} FilterMembers<T>(keep: T -> bool, s: seq<T>)
    ensures forall x :: x in Filter(keep, s) <==> x in s && keep(x)
    decreases |s|
  {
    if |s| > 0 {
      var init := s[..|s| - 1];
      FilterMembers(keep, init);
      assert s == init + [s[|s| - 1]];
    }
  }

  /** Every kept element in the output satisfies the test. */
  lemma {:induction false} FilterKeeps<T>(keep: T -> bool, s: seq<T>)
    ensures forall i :: 0 <= i < |Filter(keep, s)| ==> keep(Filter(keep, s)[i])
    decreases |s|
  {
    if |s| > 0 {
      var init := s[..|s| - 1];
      var last := s[|s| - 1];
      FilterKeeps(keep, init);
      var r := Filter(keep, s);
      assert r == Filter(keep, init) + (if keep(last) then [last] else []);
      forall i | 0 <= i < |r| ensures keep(r[i]) {
        if i < |Filter(keep, init)| {
          assert r[i] == Filter(keep, init)[i];
        }
      }
    }
  }

  /** A sequence whose every element is kept passes unchanged. */
  lemma {:induction false} FilterAllKept<T>(keep: T -> bool, s: seq<T>)
    requires forall i :: 0 <= i < |s| ==> keep(s[i])
    ensures Filter(keep, s) == s
    decreases |s|
  {
    if |s| > 0 {
      var init := s[..|s| - 1];
      FilterAllKept(keep, init);
      assert s == init + [s[|s| - 1]];
    }
  }

  /** Nothing passes when no element is kept. */
  lemma {:induction false} FilterNoneKept<T>(keep: T -> bool, s: seq<T>)
    requires forall x | x in s :: !keep(x)
    ensures Filter(keep, s) == []
    decreases |s|
  {
    if |s| > 0 {
      var init := s[..|s| - 1];
      assert forall x | x in init :: x in s;
      FilterNoneKept(keep, init);
    }
  }

  /** Filtering twice by the same test is filtering once. */
  lemma FilterIdempotent<T>(keep: T -> bool, s: seq<T>)
    ensures Filter(keep, Filter(keep, s)) == Filter(keep, s)
  {
    FilterKeeps(keep, s);
    FilterAllKept(keep, Filter(keep, s));
  }
}
