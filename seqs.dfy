/** Sequence and dictionary idioms of the Python source, stated once:
    `filter`, `dict.fromkeys` (first-occurrence de-duplication), a dict
    built row by row where a later key overwrites an earlier one, and
    `collections.Counter`. */
module Seqs {

  /** The elements of `s` that satisfy `keep`, in their original order
      (Python's `list(filter(keep, s))`). */
  function Filter<T(!new)>(s: seq<T>, keep: T -> bool): (r: seq<T>)
    ensures |r| <= |s|
    ensures forall x :: x in r <==> x in s && keep(x)
  {
    if s == [] then []
    else if keep(s[0]) then [s[0]] + Filter(s[1..], keep)
    else Filter(s[1..], keep)
  }

  lemma {:induction false} FilterAppend<T(!new)>(a: seq<T>, b: seq<T>, keep: T -> bool)
    ensures Filter(a + b, keep) == Filter(a, keep) + Filter(b, keep)
  {
    if a == [] {
      assert a + b == b;
    } else {
      assert (a + b)[1..] == a[1..] + b;
      FilterAppend(a[1..], b, keep);
    }
  }

  /** Filtering keeps every copy of a kept value and no copy of a dropped one. */
  lemma {:induction false} FilterMultiset<T(!new)>(s: seq<T>, keep: T -> bool)
    ensures forall x :: multiset(Filter(s, keep))[x] == if keep(x) then multiset(s)[x] else 0
  {
    if s != [] {
      FilterMultiset(s[1..], keep);
      assert s == [s[0]] + s[1..];
    }
  }

  /** A sequence whose every element is kept passes through unchanged. */
  lemma {:induction false} FilterKeepsAll<T(!new)>(s: seq<T>, keep: T -> bool)
    requires forall x :: x in s ==> keep(x)
    ensures Filter(s, keep) == s
  {
    if s != [] {
      FilterKeepsAll(s[1..], keep);
    }
  }

  /** A sequence with no element to keep filters down to nothing. */
  lemma {:induction false} FilterDropsAll<T(!new)>(s: seq<T>, keep: T -> bool)
    requires forall x :: x in s ==> !keep(x)
    ensures Filter(s, keep) == []
  {
    if s != [] {
      FilterDropsAll(s[1..], keep);
    }
  }

  lemma {:induction false} FilterIdempotent<T(!new)>(s: seq<T>, keep: T -> bool)
    ensures Filter(Filter(s, keep), keep) == Filter(s, keep)
  {
    FilterKeepsAll(Filter(s, keep), keep);
  }

  /** `idx` lists, in increasing order, the positions of `s` that make up `r`. */
  ghost predicate Embeds<T(!new)>(idx: seq<nat>, r: seq<T>, s: seq<T>) {
    && |idx| == |r|
    && (forall i, j :: 0 <= i < j < |idx| ==> idx[i] < idx[j])
    && (forall i :: 0 <= i < |idx| ==> idx[i] < |s| && s[idx[i]] == r[i])
  }

  /** `r` is `s` with some elements deleted and the rest kept in order. */
  ghost predicate IsSubsequence<T(!new)>(r: seq<T>, s: seq<T>) {
    exists idx :: Embeds(idx, r, s)
  }

  lemma {:induction false} FilterEmbedding<T(!new)>(s: seq<T>, keep: T -> bool) returns (idx: seq<nat>)
    ensures Embeds(idx, Filter(s, keep), s)
  {
    if s == [] {
      idx := [];
    } else {
      var tail := Filter(s[1..], keep);
      var rest := FilterEmbedding(s[1..], keep);
      var shifted := seq(|rest|, i requires 0 <= i < |rest| => rest[i] + 1);
      assert forall i :: 0 <= i < |rest| ==> shifted[i] < |s| && s[shifted[i]] == tail[i];
      if keep(s[0]) {
        idx := [0] + shifted;
        assert Filter(s, keep) == [s[0]] + tail;
      } else {
        idx := shifted;
      }
    }
  }

  lemma {:induction false} FilterIsSubsequence<T(!new)>(s: seq<T>, keep: T -> bool)
    ensures IsSubsequence(Filter(s, keep), s)
  {
    var idx := FilterEmbedding(s, keep);
  }

  /** `[f(x) for x in s]`. */
  function Map<A, B>(s: seq<A>, f: A -> B): (r: seq<B>)
    ensures |r| == |s|
    ensures forall i :: 0 <= i < |s| ==> r[i] == f(s[i])
  {
    seq(|s|, i requires 0 <= i < |s| => f(s[i]))
  }

  predicate Distinct<T(==,!new)>(s: seq<T>) {
    forall i, j :: 0 <= i < j < |s| ==> s[i] != s[j]
  }

  /** The distinct elements of `s` in order of first occurrence
      (the keys of Python's `dict.fromkeys(s)`). */
  function Dedup<T(==,!new)>(s: seq<T>): (r: seq<T>)
    ensures forall x :: x in r <==> x in s
    ensures Distinct(r)
  {
    if s == [] then []
    else
      var d := Dedup(s[..|s| - 1]);
      assert s == s[..|s| - 1] + [s[|s| - 1]];
      if s[|s| - 1] in d then d else d + [s[|s| - 1]]
  }

  /** The elements keep the order of their first occurrences: wherever a
      later element occurs in `s`, an earlier element has already occurred
      before it. */
  lemma {:induction false} DedupFirstOccurrence<T(!new)>(s: seq<T>)
    ensures var d := Dedup(s);
      forall i, j, b :: 0 <= i < j < |d| && 0 <= b < |s| && s[b] == d[j] ==>
        exists a :: 0 <= a < b && s[a] == d[i]
  {
    var d := Dedup(s);
    forall i, j, b | 0 <= i < j < |d| && 0 <= b < |s| && s[b] == d[j]
      ensures exists a :: 0 <= a < b && s[a] == d[i]
    {
      var a := DedupEarlier(s, i, j, b);
    }
  }

  /** One instance of `DedupFirstOccurrence`, with the earlier position as
      its witness. */
  lemma {:induction false} DedupEarlier<T(!new)>(s: seq<T>, i: nat, j: nat, b: nat) returns (a: nat)
    requires i < j < |Dedup(s)| && b < |s| && s[b] == Dedup(s)[j]
    ensures a < b && s[a] == Dedup(s)[i]
    decreases |s|
  {
    var init, x := s[..|s| - 1], s[|s| - 1];
    var d', d := Dedup(init), Dedup(s);
    assert d == if x in d' then d' else d' + [x];
    if j < |d'| {
      assert d[i] == d'[i] && d[j] == d'[j];
      var b' := b;
      if b == |init| {
        assert d'[j] in init;
        b' :| 0 <= b' < |init| && init[b'] == d'[j];
      } else {
        assert init[b] == s[b];
      }
      a := DedupEarlier(init, i, j, b');
      assert s[a] == init[a];
    } else {
      assert x !in d' && d[j] == x && d[i] == d'[i];
      assert forall k :: 0 <= k < |init| ==> init[k] == s[k];
      assert b == |init|;
      assert d'[i] in init;
      a :| 0 <= a < |init| && init[a] == d'[i];
      assert s[a] == init[a];
    }
  }

  /** The dictionary `{k: v for (k, v) in pairs}`: a later pair overwrites
      an earlier pair with the same key. */
  function LastWins<K(!new), V>(pairs: seq<(K, V)>): (m: map<K, V>)
    ensures forall k :: k in m <==> exists i :: 0 <= i < |pairs| && pairs[i].0 == k
  {
    if pairs == [] then map[]
    else
      var init := pairs[..|pairs| - 1];
      var last := pairs[|pairs| - 1];
      assert forall i :: 0 <= i < |init| ==> init[i] == pairs[i];
      LastWins(init)[last.0 := last.1]
  }

  /** A key's value is the one of the last pair that carries that key. */
  lemma {:induction false} LastWinsAt<K(!new), V>(pairs: seq<(K, V)>, i: nat)
    requires i < |pairs|
    requires forall j :: i < j < |pairs| ==> pairs[j].0 != pairs[i].0
    ensures pairs[i].0 in LastWins(pairs) && LastWins(pairs)[pairs[i].0] == pairs[i].1
  {
    if i < |pairs| - 1 {
      LastWinsAt(pairs[..|pairs| - 1], i);
    }
  }

  /** Every value of the dictionary comes from one of its pairs. */
  lemma {:induction false} LastWinsValue<K(!new), V>(pairs: seq<(K, V)>, k: K)
    requires k in LastWins(pairs)
    ensures exists i :: 0 <= i < |pairs| && pairs[i].0 == k && pairs[i].1 == LastWins(pairs)[k]
  {
    var init := pairs[..|pairs| - 1];
    var last := pairs[|pairs| - 1];
    if last.0 != k {
      LastWinsValue(init, k);
      var i :| 0 <= i < |init| && init[i].0 == k && init[i].1 == LastWins(init)[k];
      assert pairs[i] == init[i];
    }
  }

  /** Position `i` holds the last occurrence of its key. */
  ghost predicate LastOccurrence<K, V>(pairs: seq<(K, V)>, i: int)
    requires 0 <= i < |pairs|
  {
    forall j :: i < j < |pairs| ==> pairs[j].0 != pairs[i].0
  }

  /** Every key holds the value of its last occurrence. */
  lemma {:induction false} LastWinsSpec<K(!new), V>(pairs: seq<(K, V)>)
    ensures forall i :: 0 <= i < |pairs| && LastOccurrence(pairs, i) ==>
              pairs[i].0 in LastWins(pairs) && LastWins(pairs)[pairs[i].0] == pairs[i].1
  {
    forall i | 0 <= i < |pairs| && LastOccurrence(pairs, i)
      ensures pairs[i].0 in LastWins(pairs) && LastWins(pairs)[pairs[i].0] == pairs[i].1
    {
      LastWinsAt(pairs, i);
    }
  }

  /** Counting one more occurrence of `x` in a counter kept as
      (value, count) pairs in first-occurrence order. */
  function CounterAdd<T(==,!new)>(t: seq<(T, nat)>, x: T): seq<(T, nat)> {
    if t == [] then [(x, 1)]
    else if t[0].0 == x then [(x, t[0].1 + 1)] + t[1..]
    else [t[0]] + CounterAdd(t[1..], x)
  }

  /** Python's `collections.Counter(s).items()`. */
  function Counter<T(==,!new)>(s: seq<T>): seq<(T, nat)> {
    if s == [] then [] else CounterAdd(Counter(s[..|s| - 1]), s[|s| - 1])
  }

  function Keys<T(!new)>(t: seq<(T, nat)>): (r: seq<T>)
    ensures |r| == |t| && forall i :: 0 <= i < |t| ==> r[i] == t[i].0
  {
    seq(|t|, i requires 0 <= i < |t| => t[i].0)
  }

  function SumCounts<T(!new)>(t: seq<(T, nat)>): nat {
    if t == [] then 0 else t[0].1 + SumCounts(t[1..])
  }

  lemma {:induction false} CounterAddSum<T(!new)>(t: seq<(T, nat)>, x: T)
    ensures SumCounts(CounterAdd(t, x)) == SumCounts(t) + 1
  {
    if t != [] && t[0].0 != x {
      CounterAddSum(t[1..], x);
    }
  }

  lemma {:induction false} KeysCons<T(!new)>(p: (T, nat), t: seq<(T, nat)>)
    ensures Keys([p] + t) == [p.0] + Keys(t)
  {
    assert forall i :: 0 < i <= |t| ==> ([p] + t)[i] == t[i - 1];
  }

  lemma {:induction false} CounterAddKeys<T(!new)>(t: seq<(T, nat)>, x: T)
    ensures Keys(CounterAdd(t, x)) == if x in Keys(t) then Keys(t) else Keys(t) + [x]
  {
    if t != [] {
      assert t == [t[0]] + t[1..];
      KeysCons(t[0], t[1..]);
      if t[0].0 != x {
        var rest := CounterAdd(t[1..], x);
        assert CounterAdd(t, x) == [t[0]] + rest;
        CounterAddKeys(t[1..], x);
        KeysCons(t[0], rest);
        assert x in Keys(t) <==> x in Keys(t[1..]);
      } else {
        KeysCons((x, t[0].1 + 1), t[1..]);
        assert x in Keys(t);
      }
    }
  }

  /** Counting `x` adds one to the count of `x`'s entry and leaves every
      other entry as it was. */
  lemma {:induction false} CounterAddAt<T(!new)>(t: seq<(T, nat)>, x: T, i: nat)
    requires Distinct(Keys(t)) && i < |t|
    ensures i < |CounterAdd(t, x)|
    ensures CounterAdd(t, x)[i] == (t[i].0, t[i].1 + if t[i].0 == x then 1 else 0)
    decreases i
  {
    KeysCons(t[0], t[1..]);
    assert t == [t[0]] + t[1..];
    if i > 0 {
      if t[0].0 != x {
        var rest := CounterAdd(t[1..], x);
        assert CounterAdd(t, x) == [t[0]] + rest;
        assert Distinct(Keys(t[1..])) by {
          forall k, l | 0 <= k < l < |t[1..]| ensures Keys(t[1..])[k] != Keys(t[1..])[l] {
            assert Keys(t[1..])[k] == Keys(t)[k + 1] && Keys(t[1..])[l] == Keys(t)[l + 1];
          }
        }
        CounterAddAt(t[1..], x, i - 1);
        assert t[1..][i - 1] == t[i];
      } else {
        assert Keys(t)[0] == x && Keys(t)[i] == t[i].0;
      }
    }
  }

  /** A value not yet counted is appended with count one. */
  lemma {:induction false} CounterAddNew<T(!new)>(t: seq<(T, nat)>, x: T)
    requires x !in Keys(t)
    ensures |CounterAdd(t, x)| == |t| + 1 && CounterAdd(t, x)[|t|] == (x, 1)
  {
    if t != [] {
      KeysCons(t[0], t[1..]);
      assert t == [t[0]] + t[1..];
      CounterAddNew(t[1..], x);
    }
  }

  lemma {:induction false} CounterAddCounts<T(!new)>(t: seq<(T, nat)>, x: T)
    requires Distinct(Keys(t))
    ensures |CounterAdd(t, x)| == if x in Keys(t) then |t| else |t| + 1
    ensures forall i :: 0 <= i < |t| ==>
      CounterAdd(t, x)[i] == (t[i].0, t[i].1 + if t[i].0 == x then 1 else 0)
    ensures x !in Keys(t) ==> CounterAdd(t, x)[|t|] == (x, 1)
  {
    CounterAddKeys(t, x);
    forall i | 0 <= i < |t|
      ensures CounterAdd(t, x)[i] == (t[i].0, t[i].1 + if t[i].0 == x then 1 else 0)
    {
      CounterAddAt(t, x, i);
    }
    if x !in Keys(t) {
      CounterAddNew(t, x);
    }
  }

  /** The counter's values are its input's distinct elements, in order of first occurrence. */
  lemma {:induction false} CounterKeys<T(!new)>(s: seq<T>)
    ensures Keys(Counter(s)) == Dedup(s)
  {
    if s != [] {
      CounterKeys(s[..|s| - 1]);
      CounterAddKeys(Counter(s[..|s| - 1]), s[|s| - 1]);
    }
  }

  /** Each count is the number of occurrences of its value in the input. */
  lemma {:induction false} CounterCounts<T(!new)>(s: seq<T>)
    ensures forall i :: 0 <= i < |Counter(s)| ==> Counter(s)[i].1 == multiset(s)[Counter(s)[i].0]
  {
    if s != [] {
      var init, x := s[..|s| - 1], s[|s| - 1];
      assert s == init + [x];
      CounterCounts(init);
      CounterKeys(init);
      CounterAddCounts(Counter(init), x);
    }
  }

  /** The counts add up to the length of the input. */
  lemma {:induction false} CounterSum<T(!new)>(s: seq<T>)
    ensures SumCounts(Counter(s)) == |s|
  {
    if s != [] {
      CounterSum(s[..|s| - 1]);
      CounterAddSum(Counter(s[..|s| - 1]), s[|s| - 1]);
    }
  }
}
