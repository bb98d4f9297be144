/**
 * The `distinctUntilChanged()` flow operator, on finite sequences: an upstream
 * value is passed on unless it equals the value passed on just before it.
 */
module Distinct {
  import opened Options

  predicate NoAdjacentDuplicates<T(==)>(s: seq<T>) {
    forall i :: 0 < i < |s| ==> s[i - 1] != s[i]
  }

  /** `a` is `b` with zero or more elements removed, order kept. */
  ghost predicate IsSubsequence<T>(a: seq<T>, b: seq<T>)
    decreases |b|
  {
    if |a| == 0 then true
    else if |b| == 0 then false
    else (a[0] == b[0] && IsSubsequence(a[1..], b[1..])) || IsSubsequence(a, b[1..])
  }

  /** The most recent value of `s`, or `previous` when `s` is empty. */
  function Latest<T>(previous: Option<T>, s: seq<T>): Option<T> {
    if |s| == 0 then previous else Some(s[|s| - 1])
  }

  /**
   * The operator's collector: `previous` is the last value it passed on
   * (None before the first); each upstream value that differs from it is
   * passed on and becomes the new `previous`.
   */
  function DistinctFrom<T(==)>(previous: Option<T>, s: seq<T>): (r: seq<T>)
    ensures |r| <= |s|
    ensures NoAdjacentDuplicates(r)
    ensures previous.Some? && |r| > 0 ==> r[0] != previous.value
    ensures |s| > 0 && previous != Some(s[0]) ==> |r| > 0 && r[0] == s[0]
    decreases |s|
  {
    if |s| == 0 then []
    else if previous == Some(s[0]) then DistinctFrom(previous, s[1..])
    else [s[0]] + DistinctFrom(Some(s[0]), s[1..])
  }

  /** The operator applied to a whole upstream sequence. */
  function DistinctUntilChanged<T(==)>(s: seq<T>): (r: seq<T>)
    ensures NoAdjacentDuplicates(r)
    ensures |s| > 0 ==> |r| > 0 && r[0] == s[0]
    ensures |r| <= |s|
  {
    DistinctFrom(None, s)
  }

  /**
   * Reference definition, built from the back: element i is kept exactly
   * when it is the first or differs from element i - 1.
   */
  function KeepChanges<T(==)>(s: seq<T>): seq<T>
    decreases |s|
  {
    if |s| == 0 then []
    else
      KeepChanges(s[..|s| - 1])
      + (if |s| > 1 && s[|s| - 2] == s[|s| - 1] then [] else [s[|s| - 1]])
  }

  /**
   * One more upstream value: it is emitted exactly when it differs from the
   * latest upstream value (or the collector's starting value).
   */
  lemma {:induction false} DistinctSnoc<T>(previous: Option<T>, s: seq<T>, x: T)
    ensures DistinctFrom(previous, s + [x])
         == DistinctFrom(previous, s) + (if Latest(previous, s) == Some(x) then [] else [x])
    decreases |s|
  {
    if |s| == 0 {
      assert s + [x] == [x];
      assert [x][1..] == [];
    } else {
      assert (s + [x])[0] == s[0];
      assert (s + [x])[1..] == s[1..] + [x];
      DistinctSnoc(if previous == Some(s[0]) then previous else Some(s[0]), s[1..], x);
    }
  }

  lemma KeepChangesSnoc<T>(s: seq<T>, x: T)
    ensures KeepChanges(s + [x]) == KeepChanges(s) + (if Latest(None, s) == Some(x) then [] else [x])
  {
    assert (s + [x])[..|s|] == s;
  }

  /** The collector and the reference definition agree on every input. */
  lemma {:induction false} DistinctMatchesKeepChanges<T>(s: seq<T>)
    ensures DistinctUntilChanged(s) == KeepChanges(s)
    decreases |s|
  {
    if |s| > 0 {
      var init, x := s[..|s| - 1], s[|s| - 1];
      assert init + [x] == s;
      DistinctMatchesKeepChanges(init);
      DistinctSnoc(None, init, x);
      KeepChangesSnoc(init, x);
    }
  }

  /** The last value passed on is the last value received. */
  lemma {:induction false} DistinctKeepsLatest<T>(previous: Option<T>, s: seq<T>)
    ensures Latest(previous, DistinctFrom(previous, s)) == Latest(previous, s)
    decreases |s|
  {
    if |s| > 0 {
      if previous == Some(s[0]) {
        DistinctKeepsLatest(previous, s[1..]);
      } else {
        DistinctKeepsLatest(Some(s[0]), s[1..]);
      }
    }
  }

  /** The output keeps the input's last element, so a late reader of the latest value sees the latest upstream value. */
  lemma KeepsLast<T>(s: seq<T>)
    requires |s| > 0
    ensures |DistinctUntilChanged(s)| > 0
    ensures DistinctUntilChanged(s)[|DistinctUntilChanged(s)| - 1] == s[|s| - 1]
  {
    DistinctKeepsLatest(None, s);
  }

  lemma {:induction false} DistinctFromIsSubsequence<T>(previous: Option<T>, s: seq<T>)
    ensures IsSubsequence(DistinctFrom(previous, s), s)
    decreases |s|
  {
    if |s| > 0 {
      if previous == Some(s[0]) {
        DistinctFromIsSubsequence(previous, s[1..]);
      } else {
        var rest := DistinctFrom(Some(s[0]), s[1..]);
        DistinctFromIsSubsequence(Some(s[0]), s[1..]);
        assert ([s[0]] + rest)[1..] == rest;
      }
    }
  }

  /** The output is the input with some elements dropped, order kept. */
  lemma IsSubsequenceOfInput<T>(s: seq<T>)
    ensures IsSubsequence(DistinctUntilChanged(s), s)
  {
    DistinctFromIsSubsequence(None, s);
  }

  lemma {:induction false} DistinctFromElements<T>(previous: Option<T>, s: seq<T>)
    ensures forall x :: x in DistinctFrom(previous, s) ==> x in s
    ensures forall x :: x in s ==> x in DistinctFrom(previous, s) || previous == Some(x)
    decreases |s|
  {
    if |s| > 0 {
      if previous == Some(s[0]) {
        DistinctFromElements(previous, s[1..]);
      } else {
        DistinctFromElements(Some(s[0]), s[1..]);
      }
      assert s == [s[0]] + s[1..];
    }
  }

  /** No value is lost and none is invented: the output holds the same values as the input. */
  lemma SameValues<T>(s: seq<T>)
    ensures forall x :: x in DistinctUntilChanged(s) <==> x in s
  {
    DistinctFromElements(None, s);
  }

  lemma {:induction false} DistinctFromFixesDistinct<T>(previous: Option<T>, s: seq<T>)
    requires NoAdjacentDuplicates(s)
    requires |s| > 0 ==> previous != Some(s[0])
    ensures DistinctFrom(previous, s) == s
    decreases |s|
  {
    if |s| > 0 {
      assert NoAdjacentDuplicates(s[1..]) by {
        forall i | 0 < i < |s[1..]|
          ensures s[1..][i - 1] != s[1..][i]
        {
          assert s[i] != s[i + 1];
        }
      }
      if |s| > 1 {
        assert s[0] != s[1];
      }
      DistinctFromFixesDistinct(Some(s[0]), s[1..]);
      assert s == [s[0]] + s[1..];
    }
  }

  /** The operator leaves a sequence unchanged exactly when it has no adjacent duplicates. */
  lemma FixedPoints<T>(s: seq<T>)
    ensures DistinctUntilChanged(s) == s <==> NoAdjacentDuplicates(s)
  {
    if NoAdjacentDuplicates(s) {
      DistinctFromFixesDistinct(None, s);
    }
  }

  /** Applying the operator twice is the same as applying it once. */
  lemma Idempotent<T>(s: seq<T>)
    ensures DistinctUntilChanged(DistinctUntilChanged(s)) == DistinctUntilChanged(s)
  {
    FixedPoints(DistinctUntilChanged(s));
  }
}
