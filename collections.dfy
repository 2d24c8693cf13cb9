/*
 * Collection idioms that recur across the scrapers, each defined once:
 *  - order-preserving de-duplication with a seen set,
 *  - Python's insertion-ordered dict, with the dict-comprehension
 *    dedup that keeps the last element per key, and counter dicts
 *    that add to a key's count, zero when absent,
 *  - Python's stable sort by a key,
 *  - sums, counts and filters.
 */
module Collections {

  // ---------------------------------------------------------------------
  // Sums, counts, filters

  function Sum(xs: seq<int>): int
    decreases |xs|
  {
    if |xs| == 0 then 0 else Sum(xs[..|xs| - 1]) + xs[|xs| - 1]
  }

  lemma {:induction false} SumConcat(a: seq<int>, b: seq<int>)
    ensures Sum(a + b) == Sum(a) + Sum(b)
    decreases |b|
  {
    if |b| > 0 {
      assert (a + b)[..|a + b| - 1] == a + b[..|b| - 1];
      assert (a + b)[|a + b| - 1] == b[|b| - 1];
      SumConcat(a, b[..|b| - 1]);
      assert Sum(a + b) == Sum(a + b[..|b| - 1]) + b[|b| - 1];
    } else {
      assert a + b == a;
    }
  }

  lemma {:induction false} SumNonNegative(xs: seq<int>)
    requires forall i :: 0 <= i < |xs| ==> xs[i] >= 0
    ensures Sum(xs) >= 0
    decreases |xs|
  {
    if |xs| > 0 { SumNonNegative(xs[..|xs| - 1]); }
  }

  function MapSeq<T, U>(xs: seq<T>, f: T -> U): (r: seq<U>)
    ensures |r| == |xs| && forall i :: 0 <= i < |xs| ==> r[i] == f(xs[i])
  {
    seq(|xs|, i requires 0 <= i < |xs| => f(xs[i]))
  }

  lemma MapSeqSnoc<T, U>(xs: seq<T>, x: T, f: T -> U)
    ensures MapSeq(xs + [x], f) == MapSeq(xs, f) + [f(x)]
  {
  }

  lemma AppendAssoc<T>(a: seq<T>, b: seq<T>, c: seq<T>)
    ensures a + b + c == a + (b + c)
  {
  }

  /** The lists `f(x)` of the elements, concatenated in order. */
  function FlatMap<T, U>(xs: seq<T>, f: T -> seq<U>): seq<U>
    decreases |xs|
  {
    if |xs| == 0 then [] else FlatMap(xs[..|xs| - 1], f) + f(xs[|xs| - 1])
  }

  lemma {:induction false} FlatMapConcat<T, U>(a: seq<T>, b: seq<T>, f: T -> seq<U>)
    ensures FlatMap(a + b, f) == FlatMap(a, f) + FlatMap(b, f)
    decreases |b|
  {
    if |b| == 0 {
      assert a + b == a;
    } else {
      assert (a + b)[..|a + b| - 1] == a + b[..|b| - 1];
      assert (a + b)[|a + b| - 1] == b[|b| - 1];
      FlatMapConcat(a, b[..|b| - 1], f);
    }
  }

  lemma FlatMapOne<T, U>(x: T, f: T -> seq<U>)
    ensures FlatMap([x], f) == f(x)
  {
    assert [x][..0] == [];
  }

  /** The elements satisfying `p`, in order. */
  function Filter<T>(xs: seq<T>, p: T -> bool): (r: seq<T>)
    ensures |r| <= |xs|
    ensures forall i :: 0 <= i < |r| ==> p(r[i])
    decreases |xs|
  {
    if |xs| == 0 then []
    else if p(xs[|xs| - 1]) then Filter(xs[..|xs| - 1], p) + [xs[|xs| - 1]]
    else Filter(xs[..|xs| - 1], p)
  }

  lemma {:induction false} FilterMember<T>(xs: seq<T>, p: T -> bool, x: T)
    ensures x in Filter(xs, p) <==> x in xs && p(x)
    decreases |xs|
  {
    if |xs| > 0 {
      FilterMember(xs[..|xs| - 1], p, x);
      assert xs == xs[..|xs| - 1] + [xs[|xs| - 1]];
    }
  }

  /** Filtering one more element appends it when it satisfies `p`. */
  lemma FilterAppendOne<T>(xs: seq<T>, x: T, p: T -> bool)
    ensures Filter(xs + [x], p) == Filter(xs, p) + (if p(x) then [x] else [])
  {
    assert (xs + [x])[..|xs|] == xs;
  }

  lemma {:induction false} FilterConcat<T>(a: seq<T>, b: seq<T>, p: T -> bool)
    ensures Filter(a + b, p) == Filter(a, p) + Filter(b, p)
    decreases |b|
  {
    if |b| > 0 {
      assert (a + b)[..|a + b| - 1] == a + b[..|b| - 1];
      assert (a + b)[|a + b| - 1] == b[|b| - 1];
      FilterConcat(a, b[..|b| - 1], p);
      assert Filter(a + b, p) == Filter(a + b[..|b| - 1], p) + (if p(b[|b| - 1]) then [b[|b| - 1]] else []);
    } else {
      assert a + b == a;
    }
  }

  /** Filters by predicates that agree on the elements are equal. */
  lemma {:induction false} FilterAgree<T>(xs: seq<T>, p: T -> bool, q: T -> bool)
    requires forall i :: 0 <= i < |xs| ==> p(xs[i]) == q(xs[i])
    ensures Filter(xs, p) == Filter(xs, q)
    decreases |xs|
  {
    if |xs| > 0 {
      FilterAgree(xs[..|xs| - 1], p, q);
    }
  }

  /** The elements that pass and those that fail a predicate number |xs| together. */
  lemma {:induction false} FilterSplit<T>(xs: seq<T>, p: T -> bool, q: T -> bool)
    requires forall i :: 0 <= i < |xs| ==> q(xs[i]) == !p(xs[i])
    ensures |Filter(xs, p)| + |Filter(xs, q)| == |xs|
    decreases |xs|
  {
    if |xs| > 0 {
      FilterSplit(xs[..|xs| - 1], p, q);
    }
  }

  /** A filter by a predicate every element meets keeps the whole sequence. */
  lemma {:induction false} FilterAll<T>(xs: seq<T>, p: T -> bool)
    requires forall i :: 0 <= i < |xs| ==> p(xs[i])
    ensures Filter(xs, p) == xs
    decreases |xs|
  {
    if |xs| > 0 {
      FilterAll(xs[..|xs| - 1], p);
    }
  }

  /** Keeping the elements of a predicate no element satisfies keeps nothing. */
  lemma {:induction false} FilterNone<T>(xs: seq<T>, p: T -> bool)
    requires forall i :: 0 <= i < |xs| ==> !p(xs[i])
    ensures Filter(xs, p) == []
    decreases |xs|
  {
    if |xs| > 0 {
      FilterNone(xs[..|xs| - 1], p);
    }
  }

  /**
   * When `r` holds exactly where one of two exclusive predicates does, the
   * filter by `r` holds, as a multiset, the two filters together.
   */
  lemma {:induction false} FilterDisjointUnion<T>(xs: seq<T>, p: T -> bool, q: T -> bool, r: T -> bool)
    requires forall i :: 0 <= i < |xs| ==> r(xs[i]) == (p(xs[i]) || q(xs[i])) && !(p(xs[i]) && q(xs[i]))
    ensures multiset(Filter(xs, r)) == multiset(Filter(xs, p)) + multiset(Filter(xs, q))
    decreases |xs|
  {
    if |xs| > 0 {
      FilterDisjointUnion(xs[..|xs| - 1], p, q, r);
    }
  }

  /** The number of elements satisfying `p`. */
  function CountWhere<T>(xs: seq<T>, p: T -> bool): (n: nat)
    ensures n == |Filter(xs, p)|
    decreases |xs|
  {
    if |xs| == 0 then 0
    else CountWhere(xs[..|xs| - 1], p) + (if p(xs[|xs| - 1]) then 1 else 0)
  }

  /** Counting over one more element adds one when it satisfies `p`. */
  lemma CountWhereSnoc<T>(xs: seq<T>, x: T, p: T -> bool)
    ensures CountWhere(xs + [x], p) == CountWhere(xs, p) + (if p(x) then 1 else 0)
  {
    assert (xs + [x])[..|xs|] == xs;
  }

  /** A predicate implied by another counts at least as many elements. */
  lemma {:induction false} CountWhereImplies<T>(xs: seq<T>, p: T -> bool, q: T -> bool)
    requires forall i :: 0 <= i < |xs| ==> p(xs[i]) ==> q(xs[i])
    ensures CountWhere(xs, p) <= CountWhere(xs, q)
    decreases |xs|
  {
    if |xs| > 0 {
      CountWhereImplies(xs[..|xs| - 1], p, q);
    }
  }

  // ---------------------------------------------------------------------
  // Seen-set de-duplication

  /** The set of keys of the elements of `xs`. */
  function KeySet<T, K(==)>(xs: seq<T>, key: T -> K): (ks: set<K>)
    ensures forall i :: 0 <= i < |xs| ==> key(xs[i]) in ks
    decreases |xs|
  {
    if |xs| == 0 then {} else KeySet(xs[..|xs| - 1], key) + {key(xs[|xs| - 1])}
  }

  lemma {:induction false} KeySetWitness<T, K>(xs: seq<T>, key: T -> K, k: K) returns (i: nat)
    requires k in KeySet(xs, key)
    ensures i < |xs| && key(xs[i]) == k
    decreases |xs|
  {
    if key(xs[|xs| - 1]) == k {
      i := |xs| - 1;
    } else {
      i := KeySetWitness(xs[..|xs| - 1], key, k);
    }
  }

  /**
   * The seen-set loop
   *   for x in xs: if key(x) not in seen: out.append(x); seen.add(key(x))
   * stated one step at a time: an element is kept when no earlier element
   * had its key.
   */
  function Dedup<T, K(==)>(xs: seq<T>, key: T -> K): seq<T>
    decreases |xs|
  {
    if |xs| == 0 then []
    else
      var init := xs[..|xs| - 1];
      if key(xs[|xs| - 1]) in KeySet(init, key) then Dedup(init, key)
      else Dedup(init, key) + [xs[|xs| - 1]]
  }

  predicate DistinctKeys<T, K(==)>(xs: seq<T>, key: T -> K) {
    forall a, b :: 0 <= a < b < |xs| ==> key(xs[a]) != key(xs[b])
  }

  /** The index of the first element of `xs` whose key is `k`. */
  function FirstIndex<T, K(==)>(xs: seq<T>, key: T -> K, k: K): (j: nat)
    requires k in KeySet(xs, key)
    ensures j < |xs| && key(xs[j]) == k
    ensures k !in KeySet(xs[..j], key)
    decreases |xs|
  {
    var init := xs[..|xs| - 1];
    if k in KeySet(init, key) then
      var j := FirstIndex(init, key, k);
      assert xs[..j] == init[..j];
      j
    else |xs| - 1
  }

  /** No key is lost and none is repeated. */
  lemma {:induction false} DedupKeys<T, K>(xs: seq<T>, key: T -> K)
    ensures KeySet(Dedup(xs, key), key) == KeySet(xs, key)
    ensures DistinctKeys(Dedup(xs, key), key)
    ensures |Dedup(xs, key)| <= |xs|
    decreases |xs|
  {
    if |xs| > 0 {
      var init := xs[..|xs| - 1];
      var d := Dedup(init, key);
      DedupKeys(init, key);
      if key(xs[|xs| - 1]) !in KeySet(init, key) {
        assert (d + [xs[|xs| - 1]])[..|d|] == d;
      }
    }
  }

  /**
   * Every kept element is the first element of `xs` with its key, and kept
   * elements appear in the order of those first occurrences.
   */
  lemma {:induction false} DedupFirstOccurrences<T, K>(xs: seq<T>, key: T -> K)
    ensures forall a :: 0 <= a < |Dedup(xs, key)| ==>
      key(Dedup(xs, key)[a]) in KeySet(xs, key) &&
      Dedup(xs, key)[a] == xs[FirstIndex(xs, key, key(Dedup(xs, key)[a]))]
    ensures forall a, b :: 0 <= a < b < |Dedup(xs, key)| ==>
      FirstIndex(xs, key, key(Dedup(xs, key)[a])) < FirstIndex(xs, key, key(Dedup(xs, key)[b]))
    decreases |xs|
  {
    if |xs| > 0 {
      var init := xs[..|xs| - 1];
      var last := xs[|xs| - 1];
      var d := Dedup(init, key);
      DedupFirstOccurrences(init, key);
      forall a | 0 <= a < |d|
        ensures key(d[a]) in KeySet(xs, key) && FirstIndex(xs, key, key(d[a])) == FirstIndex(init, key, key(d[a]))
      {
        FirstIndexInit(xs, key, key(d[a]));
      }
      if key(last) !in KeySet(init, key) {
        var r := d + [last];
        assert Dedup(xs, key) == r;
        FirstIndexLast(xs, key);
        forall a | 0 <= a < |r|
          ensures key(r[a]) in KeySet(xs, key) && r[a] == xs[FirstIndex(xs, key, key(r[a]))]
        {
          if a < |d| { assert r[a] == d[a]; }
        }
        forall a, b | 0 <= a < b < |r|
          ensures FirstIndex(xs, key, key(r[a])) < FirstIndex(xs, key, key(r[b]))
        {
          assert r[a] == d[a];
          if b < |d| { assert r[b] == d[b]; }
        }
      }
    }
  }

  lemma FirstIndexInit<T, K>(xs: seq<T>, key: T -> K, k: K)
    requires |xs| > 0 && k in KeySet(xs[..|xs| - 1], key)
    ensures k in KeySet(xs, key) && FirstIndex(xs, key, k) == FirstIndex(xs[..|xs| - 1], key, k)
  {
  }

  lemma FirstIndexLast<T, K>(xs: seq<T>, key: T -> K)
    requires |xs| > 0 && key(xs[|xs| - 1]) !in KeySet(xs[..|xs| - 1], key)
    ensures FirstIndex(xs, key, key(xs[|xs| - 1])) == |xs| - 1
  {
  }

  lemma {:induction false} KeyAbsent<T, K>(xs: seq<T>, key: T -> K, k: K)
    requires forall i :: 0 <= i < |xs| ==> key(xs[i]) != k
    ensures k !in KeySet(xs, key)
    decreases |xs|
  {
    if |xs| > 0 { KeyAbsent(xs[..|xs| - 1], key, k); }
  }

  /** A sequence with distinct keys is its own de-duplication. */
  lemma {:induction false} DedupDistinct<T, K>(xs: seq<T>, key: T -> K)
    requires DistinctKeys(xs, key)
    ensures Dedup(xs, key) == xs
    decreases |xs|
  {
    if |xs| > 0 {
      var init := xs[..|xs| - 1];
      DedupDistinct(init, key);
      KeyAbsent(init, key, key(xs[|xs| - 1]));
    }
  }

  /** De-duplicating twice is the same as once. */
  lemma DedupIdempotent<T, K>(xs: seq<T>, key: T -> K)
    ensures Dedup(Dedup(xs, key), key) == Dedup(xs, key)
  {
    DedupKeys(xs, key);
    DedupDistinct(Dedup(xs, key), key);
  }

  /** The seen-set loop itself. */
  method DedupByKey<T, K(==)>(xs: seq<T>, key: T -> K) returns (out: seq<T>)
    ensures out == Dedup(xs, key)
  {
    out := [];
    var seen: set<K> := {};
    var i := 0;
    while i < |xs|
      invariant 0 <= i <= |xs|
      invariant out == Dedup(xs[..i], key)
      invariant seen == KeySet(xs[..i], key)
    {
      assert xs[..i + 1][..i] == xs[..i];
      if key(xs[i]) !in seen {
        out := out + [xs[i]];
        seen := seen + {key(xs[i])};
      }
      i := i + 1;
    }
    assert xs[..|xs|] == xs;
  }

  // ---------------------------------------------------------------------
  // Python's insertion-ordered dict

  /** A dict: its keys in insertion order, and the mapping. */
  datatype Dict<K, V> = Dict(order: seq<K>, m: map<K, V>)

  /** The set of the elements of a sequence. */
  ghost function Elements<K>(o: seq<K>): (e: set<K>)
    ensures forall i :: 0 <= i < |o| ==> o[i] in e
    decreases |o|
  {
    if |o| == 0 then {} else Elements(o[..|o| - 1]) + {o[|o| - 1]}
  }

  /** The order lists each key of the mapping exactly once. */
  ghost predicate WellFormed<K, V>(d: Dict<K, V>) {
    (forall a, b :: 0 <= a < b < |d.order| ==> d.order[a] != d.order[b]) &&
    d.m.Keys == Elements(d.order)
  }

  function EmptyDict<K(==), V>(): (d: Dict<K, V>)
    ensures WellFormed(d)
  {
    Dict([], map[])
  }

  /** Setting a key: a new key goes last, an existing key keeps its place. */
  function Put<K(==), V>(d: Dict<K, V>, k: K, v: V): (r: Dict<K, V>)
    requires WellFormed(d)
    ensures WellFormed(r)
    ensures r.m == d.m[k := v]
    ensures r.order == if k in d.m then d.order else d.order + [k]
  {
    if k in d.m then
      assert d.m[k := v].Keys == d.m.Keys;
      Dict(d.order, d.m[k := v])
    else
      AppendWellFormed(d, k, v);
      Dict(d.order + [k], d.m[k := v])
  }

  /** Appending a key that is not yet present keeps a dict well formed. */
  lemma AppendWellFormed<K, V>(d: Dict<K, V>, k: K, v: V)
    requires WellFormed(d) && k !in d.m
    ensures WellFormed(Dict(d.order + [k], d.m[k := v]))
  {
    var o := d.order + [k];
    assert o[..|d.order|] == d.order;
    assert Elements(o) == Elements(d.order) + {k};
    forall a, b | 0 <= a < b < |o|
      ensures o[a] != o[b]
    {
      assert o[a] == d.order[a];
      if b < |d.order| {
        assert o[b] == d.order[b];
      } else {
        assert d.order[a] in Elements(d.order);
      }
    }
    assert d.m[k := v].Keys == d.m.Keys + {k};
  }

  /** The values, in key order. */
  function Values<K(==), V>(d: Dict<K, V>): (r: seq<V>)
    requires WellFormed(d)
    ensures |r| == |d.order|
  {
    seq(|d.order|, i requires 0 <= i < |d.order| => d.m[d.order[i]])
  }

  /** The dict from each element's key to the last element with that key, keys in first-seen order. */
  function Comprehension<T, K(==)>(xs: seq<T>, key: T -> K): (d: Dict<K, T>)
    ensures WellFormed(d)
    decreases |xs|
  {
    if |xs| == 0 then EmptyDict()
    else Put(Comprehension(xs[..|xs| - 1], key), key(xs[|xs| - 1]), xs[|xs| - 1])
  }

  /** The last element per key, in the order the keys first appear. */
  function LastWins<T, K(==)>(xs: seq<T>, key: T -> K): seq<T>
  {
    Values(Comprehension(xs, key))
  }

  /** The index of the last element of `xs` whose key is `k`. */
  function LastIndex<T, K(==)>(xs: seq<T>, key: T -> K, k: K): (j: nat)
    requires k in KeySet(xs, key)
    ensures j < |xs| && key(xs[j]) == k
    ensures forall i :: j < i < |xs| ==> key(xs[i]) != k
    decreases |xs|
  {
    if key(xs[|xs| - 1]) == k then |xs| - 1 else LastIndex(xs[..|xs| - 1], key, k)
  }

  lemma {:induction false} ComprehensionKeys<T, K>(xs: seq<T>, key: T -> K)
    ensures Comprehension(xs, key).m.Keys == KeySet(xs, key)
    decreases |xs|
  {
    if |xs| > 0 {
      ComprehensionKeys(xs[..|xs| - 1], key);
    }
  }

  lemma {:induction false} ComprehensionOrder<T, K>(xs: seq<T>, key: T -> K)
    ensures Comprehension(xs, key).order == MapSeq(Dedup(xs, key), key)
    decreases |xs|
  {
    if |xs| > 0 {
      var init := xs[..|xs| - 1];
      var x := xs[|xs| - 1];
      ComprehensionOrder(init, key);
      ComprehensionKeys(init, key);
      if key(x) !in KeySet(init, key) {
        MapSeqSnoc(Dedup(init, key), x, key);
      }
    }
  }

  lemma {:induction false} ComprehensionValues<T, K>(xs: seq<T>, key: T -> K, k: K)
    requires k in KeySet(xs, key)
    ensures k in Comprehension(xs, key).m
    ensures Comprehension(xs, key).m[k] == xs[LastIndex(xs, key, k)]
    decreases |xs|
  {
    ComprehensionKeys(xs, key);
    var init := xs[..|xs| - 1];
    if key(xs[|xs| - 1]) != k {
      ComprehensionValues(init, key, k);
    }
  }

  /**
   * The dict-comprehension dedup keeps one element per distinct key, in
   * the order in which keys first occur, and each kept element is the LAST
   * one seen with its key.
   */
  lemma LastWinsSpec<T, K>(xs: seq<T>, key: T -> K)
    ensures |LastWins(xs, key)| == |Dedup(xs, key)|
    ensures forall a :: 0 <= a < |LastWins(xs, key)| ==>
      key(LastWins(xs, key)[a]) == key(Dedup(xs, key)[a]) &&
      key(Dedup(xs, key)[a]) in KeySet(xs, key) &&
      LastWins(xs, key)[a] == xs[LastIndex(xs, key, key(Dedup(xs, key)[a]))]
  {
    ComprehensionOrder(xs, key);
    DedupKeys(xs, key);
    var d := Comprehension(xs, key);
    var dd := Dedup(xs, key);
    forall a | 0 <= a < |d.order|
      ensures key(d.m[d.order[a]]) == key(dd[a])
      ensures key(dd[a]) in KeySet(xs, key)
      ensures d.m[d.order[a]] == xs[LastIndex(xs, key, key(dd[a]))]
    {
      assert key(dd[a]) in KeySet(dd, key);
      ComprehensionValues(xs, key, key(dd[a]));
    }
  }

  /** Sequences whose keys agree position by position have the same key set. */
  lemma {:induction false} KeySetPointwise<T, K>(a: seq<T>, b: seq<T>, key: T -> K)
    requires |a| == |b| && forall i :: 0 <= i < |a| ==> key(a[i]) == key(b[i])
    ensures KeySet(a, key) == KeySet(b, key)
    decreases |a|
  {
    if |a| > 0 {
      KeySetPointwise(a[..|a| - 1], b[..|b| - 1], key);
    }
  }

  /**
   * The dict-comprehension dedup, stated without `Dedup`: no key is lost,
   * none is repeated, each kept element is the last with its key, and the
   * keys keep the order of their first occurrences.
   */
  lemma LastWinsFacts<T, K>(xs: seq<T>, key: T -> K)
    ensures KeySet(LastWins(xs, key), key) == KeySet(xs, key)
    ensures DistinctKeys(LastWins(xs, key), key)
    ensures forall a :: 0 <= a < |LastWins(xs, key)| ==>
      key(LastWins(xs, key)[a]) in KeySet(xs, key) &&
      LastWins(xs, key)[a] == xs[LastIndex(xs, key, key(LastWins(xs, key)[a]))]
    ensures forall a, b :: 0 <= a < b < |LastWins(xs, key)| ==>
      key(LastWins(xs, key)[a]) in KeySet(xs, key) && key(LastWins(xs, key)[b]) in KeySet(xs, key) &&
      FirstIndex(xs, key, key(LastWins(xs, key)[a])) < FirstIndex(xs, key, key(LastWins(xs, key)[b]))
  {
    var lw := LastWins(xs, key);
    var dd := Dedup(xs, key);
    LastWinsSpec(xs, key);
    DedupKeys(xs, key);
    DedupFirstOccurrences(xs, key);
    KeySetPointwise(lw, dd, key);
  }

  // ---------------------------------------------------------------------
  // Counter dicts

  /** Adding `n` to the count under `k`, which starts at 0 when absent. */
  function AddTo<K(==)>(d: Dict<K, int>, k: K, n: int): (r: Dict<K, int>)
    requires WellFormed(d)
    ensures WellFormed(r)
  {
    Put(d, k, (if k in d.m then d.m[k] else 0) + n)
  }

  /** The counter dict built by adding each amount under its key, in order. */
  function Tally<K(==)>(entries: seq<(K, int)>): (d: Dict<K, int>)
    ensures WellFormed(d)
    decreases |entries|
  {
    if |entries| == 0 then EmptyDict()
    else
      var e := entries[|entries| - 1];
      AddTo(Tally(entries[..|entries| - 1]), e.0, e.1)
  }

  /** The keys mentioned by the entries. */
  ghost function EntryKeys<K>(entries: seq<(K, int)>): (ks: set<K>)
    ensures forall i :: 0 <= i < |entries| ==> entries[i].0 in ks
    decreases |entries|
  {
    if |entries| == 0 then {} else EntryKeys(entries[..|entries| - 1]) + {entries[|entries| - 1].0}
  }

  /** The total amount recorded under key `k`. */
  ghost function AmountFor<K>(entries: seq<(K, int)>, k: K): int
    decreases |entries|
  {
    if |entries| == 0 then 0
    else
      var e := entries[|entries| - 1];
      AmountFor(entries[..|entries| - 1], k) + (if e.0 == k then e.1 else 0)
  }

  lemma SumUpdate(xs: seq<int>, i: nat, v: int)
    requires i < |xs|
    ensures Sum(xs[i := v]) == Sum(xs) - xs[i] + v
  {
    assert xs == xs[..i] + [xs[i]] + xs[i + 1..];
    assert xs[i := v] == xs[..i] + [v] + xs[i + 1..];
    SumConcat(xs[..i] + [xs[i]], xs[i + 1..]);
    SumConcat(xs[..i], [xs[i]]);
    SumConcat(xs[..i] + [v], xs[i + 1..]);
    SumConcat(xs[..i], [v]);
  }

  lemma {:induction false} ElementsWitness<K>(o: seq<K>, k: K) returns (i: nat)
    requires k in Elements(o)
    ensures i < |o| && o[i] == k
    decreases |o|
  {
    if o[|o| - 1] == k { i := |o| - 1; } else { i := ElementsWitness(o[..|o| - 1], k); }
  }

  lemma AddToTotal<K>(d: Dict<K, int>, k: K, n: int)
    requires WellFormed(d)
    ensures Sum(Values(AddTo(d, k, n))) == Sum(Values(d)) + n
  {
    var r := AddTo(d, k, n);
    if k in d.m {
      var i := ElementsWitness(d.order, k);
      assert Values(r) == Values(d)[i := d.m[k] + n];
      SumUpdate(Values(d), i, d.m[k] + n);
    } else {
      assert Values(r) == Values(d) + [n];
      SumConcat(Values(d), [n]);
    }
  }

  /** Putting a new key appends its value; overwriting a key replaces its value in place. */
  lemma ValuesPut<K, V>(d: Dict<K, V>, k: K, v: V) returns (i: nat)
    requires WellFormed(d)
    ensures k in d.m ==> i < |d.order| && Values(d)[i] == d.m[k] && Values(Put(d, k, v)) == Values(d)[i := v]
    ensures k !in d.m ==> Values(Put(d, k, v)) == Values(d) + [v]
  {
    if k in d.m {
      i := ElementsWitness(d.order, k);
      assert Values(Put(d, k, v)) == Values(d)[i := v];
    } else {
      i := 0;
      assert Values(Put(d, k, v)) == Values(d) + [v];
    }
  }

  /** A sum over a projection of the values changes by the difference of the replaced and the new value. */
  lemma SumMapPut<K, V>(d: Dict<K, V>, k: K, v: V, f: V -> int)
    requires WellFormed(d)
    ensures Sum(MapSeq(Values(Put(d, k, v)), f)) == Sum(MapSeq(Values(d), f)) - (if k in d.m then f(d.m[k]) else 0) + f(v)
  {
    var i := ValuesPut(d, k, v);
    if k in d.m {
      assert MapSeq(Values(Put(d, k, v)), f) == MapSeq(Values(d), f)[i := f(v)];
      SumUpdate(MapSeq(Values(d), f), i, f(v));
    } else {
      MapSeqSnoc(Values(d), v, f);
      SumConcat(MapSeq(Values(d), f), [f(v)]);
    }
  }

  /** The sum of all amounts. */
  function TotalAmount<K>(entries: seq<(K, int)>): int
    decreases |entries|
  {
    if |entries| == 0 then 0 else TotalAmount(entries[..|entries| - 1]) + entries[|entries| - 1].1
  }

  /** The counters add up to the total of all amounts. */
  lemma {:induction false} TallyTotal<K>(entries: seq<(K, int)>)
    ensures Sum(Values(Tally(entries))) == TotalAmount(entries)
    decreases |entries|
  {
    if |entries| > 0 {
      var init := entries[..|entries| - 1];
      var e := entries[|entries| - 1];
      TallyTotal(init);
      AddToTotal(Tally(init), e.0, e.1);
    }
  }

  /** A key is present exactly when some entry has it, and holds that key's total. */
  lemma {:induction false} TallyAt<K>(entries: seq<(K, int)>, k: K)
    ensures Tally(entries).m.Keys == EntryKeys(entries)
    ensures k in Tally(entries).m ==> Tally(entries).m[k] == AmountFor(entries, k)
    ensures k !in Tally(entries).m ==> AmountFor(entries, k) == 0
    decreases |entries|
  {
    if |entries| > 0 {
      TallyAt(entries[..|entries| - 1], k);
    }
  }

  /** Counting: each key counted once per occurrence. */
  function CountEntries<K>(keys: seq<K>): (r: seq<(K, int)>)
    ensures |r| == |keys| && forall i :: 0 <= i < |r| ==> r[i] == (keys[i], 1)
  {
    seq(|keys|, i requires 0 <= i < |keys| => (keys[i], 1))
  }

  lemma {:induction false} CountTotal<K>(keys: seq<K>)
    ensures TotalAmount(CountEntries(keys)) == |keys|
    decreases |keys|
  {
    if |keys| > 0 {
      assert CountEntries(keys)[..|keys| - 1] == CountEntries(keys[..|keys| - 1]);
      CountTotal(keys[..|keys| - 1]);
    }
  }

  /** The counts of a counter dict add up to the number of things counted. */
  lemma TallyCount<K>(keys: seq<K>)
    ensures Sum(Values(Tally(CountEntries(keys)))) == |keys|
  {
    TallyTotal(CountEntries(keys));
    CountTotal(keys);
  }

  /** Counting one more key adds one under it. */
  lemma TallyCountStep<K>(keys: seq<K>, k: K)
    ensures Tally(CountEntries(keys + [k])) == AddTo(Tally(CountEntries(keys)), k, 1)
  {
    var e := CountEntries(keys + [k]);
    assert e[..|keys|] == CountEntries(keys);
    assert e[|keys|] == (k, 1);
    assert Tally(e) == AddTo(Tally(e[..|keys|]), k, 1);
  }

  // ---------------------------------------------------------------------
  // sorted(xs, key=key)

  predicate SortedBy<T>(s: seq<T>, key: T -> int) {
    forall i, j :: 0 <= i < j < |s| ==> key(s[i]) <= key(s[j])
  }

  /** Puts `x` before the first element whose key is at least key(x). */
  function Insert<T>(x: T, s: seq<T>, key: T -> int): (r: seq<T>)
    ensures |r| == |s| + 1
    decreases |s|
  {
    if |s| == 0 || key(x) <= key(s[0]) then [x] + s
    else [s[0]] + Insert(x, s[1..], key)
  }

  /** A stable sort by an integer key. */
  function SortByKey<T>(xs: seq<T>, key: T -> int): (r: seq<T>)
    ensures |r| == |xs|
    decreases |xs|
  {
    if |xs| == 0 then [] else Insert(xs[0], SortByKey(xs[1..], key), key)
  }

  /** The elements whose key is `q`, in order. */
  function WithKey<T>(s: seq<T>, key: T -> int, q: int): seq<T>
    decreases |s|
  {
    if |s| == 0 then []
    else (if key(s[0]) == q then [s[0]] else []) + WithKey(s[1..], key, q)
  }

  lemma {:induction false} InsertSorted<T>(x: T, s: seq<T>, key: T -> int)
    requires SortedBy(s, key)
    ensures SortedBy(Insert(x, s, key), key)
    ensures forall i :: 0 <= i < |Insert(x, s, key)| ==>
      key(Insert(x, s, key)[i]) == key(x) || exists j :: 0 <= j < |s| && key(s[j]) == key(Insert(x, s, key)[i])
    decreases |s|
  {
    if |s| > 0 && key(x) > key(s[0]) {
      InsertSorted(x, s[1..], key);
      var r := Insert(x, s, key);
      forall i | 0 <= i < |r|
        ensures key(r[i]) == key(x) || exists j :: 0 <= j < |s| && key(s[j]) == key(r[i])
      {
        if i == 0 {
          assert key(s[0]) == key(r[0]);
        } else if key(r[i]) != key(x) {
          var j :| 0 <= j < |s[1..]| && key(s[1..][j]) == key(r[i]);
          assert key(s[j + 1]) == key(r[i]);
        }
      }
      forall i, j | 0 <= i < j < |r| ensures key(r[i]) <= key(r[j]) {
        if i == 0 {
          if key(r[j]) == key(x) {
          } else {
            var k :| 0 <= k < |s[1..]| && key(s[1..][k]) == key(r[j]);
            assert key(s[0]) <= key(s[k + 1]);
          }
        }
      }
    }
  }

  lemma {:induction false} InsertWithKey<T>(x: T, s: seq<T>, key: T -> int, q: int)
    requires SortedBy(s, key)
    ensures WithKey(Insert(x, s, key), key, q) ==
      (if key(x) == q then [x] else []) + WithKey(s, key, q)
    decreases |s|
  {
    if |s| > 0 && key(x) > key(s[0]) {
      InsertWithKey(x, s[1..], key, q);
      if key(x) == q {
        // s[0] sorts strictly before x, so it does not carry key q
        assert key(s[0]) != q;
      }
    }
  }

  /** The sorted output is ordered by key. */
  lemma {:induction false} SortSorted<T>(xs: seq<T>, key: T -> int)
    ensures SortedBy(SortByKey(xs, key), key)
    decreases |xs|
  {
    if |xs| > 0 {
      SortSorted(xs[1..], key);
      InsertSorted(xs[0], SortByKey(xs[1..], key), key);
    }
  }

  /**
   * Stability: for every key, the elements carrying it appear in the output
   * exactly as, and in the same order as, in the input. With equal lengths
   * this also makes the output a permutation of the input.
   */
  lemma {:induction false} SortStable<T>(xs: seq<T>, key: T -> int, q: int)
    ensures WithKey(SortByKey(xs, key), key, q) == WithKey(xs, key, q)
    decreases |xs|
  {
    if |xs| > 0 {
      SortStable(xs[1..], key, q);
      SortSorted(xs[1..], key);
      InsertWithKey(xs[0], SortByKey(xs[1..], key), key, q);
    }
  }

  lemma {:induction false} InsertPermutation<T>(x: T, s: seq<T>, key: T -> int)
    ensures multiset(Insert(x, s, key)) == multiset(s) + multiset{x}
    decreases |s|
  {
    if |s| > 0 && key(x) > key(s[0]) {
      InsertPermutation(x, s[1..], key);
      assert s == [s[0]] + s[1..];
    }
  }

  /** The sorted output is a permutation of the input. */
  lemma {:induction false} SortPermutation<T>(xs: seq<T>, key: T -> int)
    ensures multiset(SortByKey(xs, key)) == multiset(xs)
    decreases |xs|
  {
    if |xs| > 0 {
      SortPermutation(xs[1..], key);
      InsertPermutation(xs[0], SortByKey(xs[1..], key), key);
      assert xs == [xs[0]] + xs[1..];
    }
  }
}
