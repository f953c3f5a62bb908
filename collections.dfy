/** Generic collection helpers shared by the crawler and by the offline analysis:
    the insertion-ordered dictionaries of counts that the program builds with
    `collections.defaultdict(int)`, the stable descending ranking that
    `sorted(d, key=d.get, reverse=True)` produces, and a few sequence folds. */
module Collections {

  /** `d.get(k, 0)` on a dictionary of counts. */
  function Get<K>(m: map<K, int>, k: K): int
  {
    if k in m then m[k] else 0
  }

  ghost predicate Distinct<T>(s: seq<T>)
  {
    forall i, j :: 0 <= i < j < |s| ==> s[i] != s[j]
  }

  /** The first `k` elements, as the slice `s[0:k]` gives them (no error when `k > |s|`). */
  function Take<T>(s: seq<T>, k: nat): (r: seq<T>)
    ensures |r| == (if k <= |s| then k else |s|)
    ensures forall i :: 0 <= i < |r| ==> r[i] == s[i]
  {
    if k <= |s| then s[..k] else s
  }

  /** The set of the elements of `s`. */
  function Elems<T>(s: seq<T>): set<T>
  {
    set x | x in s
  }

  lemma ElemsSnoc<T>(s: seq<T>, x: T)
    ensures Elems(s + [x]) == Elems(s) + {x}
  {
  }

  lemma PrefixAll<T>(s: seq<T>)
    ensures s[..|s|] == s
  {
  }

  lemma PrefixSnoc<T>(s: seq<T>, i: nat)
    requires i < |s|
    ensures s[..i + 1] == s[..i] + [s[i]]
  {
  }

  /** The concatenation of a sequence of sequences. */
  function Flatten<T>(ss: seq<seq<T>>): seq<T>
  {
    if ss == [] then [] else Flatten(ss[..|ss| - 1]) + ss[|ss| - 1]
  }

  lemma {:induction false} FlattenAppend<T>(ss: seq<seq<T>>, tt: seq<seq<T>>)
    ensures Flatten(ss + tt) == Flatten(ss) + Flatten(tt)
    decreases |tt|
  {
    if tt == [] {
      assert ss + tt == ss;
    } else {
      var init, last := tt[..|tt| - 1], tt[|tt| - 1];
      assert (ss + tt)[..|ss + tt| - 1] == ss + init;
      assert (ss + tt)[|ss + tt| - 1] == last;
      FlattenAppend(ss, init);
      calc {
        Flatten(ss + tt);
        Flatten(ss + init) + last;
        (Flatten(ss) + Flatten(init)) + last;
        Flatten(ss) + (Flatten(init) + last);
        Flatten(ss) + Flatten(tt);
      }
    }
  }

  /** Flattening one more sequence appends it. */
  lemma FlattenSnoc<T>(ss: seq<seq<T>>, s: seq<T>)
    ensures Flatten(ss + [s]) == Flatten(ss) + s
  {
    assert (ss + [s])[..|ss|] == ss;
  }

  /** Inserting or overwriting key/value pairs in order, as successive `d[k] = v` do. */
  function Upsert<K, V>(m: map<K, V>, ps: seq<(K, V)>): (r: map<K, V>)
    ensures m.Keys <= r.Keys
  {
    if ps == [] then m
    else
      var r0 := Upsert(m, ps[..|ps| - 1]);
      r0[ps[|ps| - 1].0 := ps[|ps| - 1].1]
  }

  /** Adding one more pair overwrites (or inserts) that pair's key last. */
  lemma UpsertSnoc<K, V>(m: map<K, V>, ps: seq<(K, V)>, p: (K, V))
    ensures Upsert(m, ps + [p]) == Upsert(m, ps)[p.0 := p.1]
  {
    assert (ps + [p])[..|ps|] == ps;
  }

  /** `[f(x) for x in s]`. */
  function MapSeq<A, B>(s: seq<A>, f: A -> B): (r: seq<B>)
    ensures |r| == |s|
    ensures forall i :: 0 <= i < |s| ==> r[i] == f(s[i])
  {
    if s == [] then [] else MapSeq(s[..|s| - 1], f) + [f(s[|s| - 1])]
  }

  /** One more element of `s` maps to one more element of the result. */
  lemma MapSeqPrefix<A, B>(s: seq<A>, i: nat, f: A -> B)
    requires i < |s|
    ensures MapSeq(s[..i + 1], f) == MapSeq(s[..i], f) + [f(s[i])]
  {
    assert s[..i + 1][..i] == s[..i];
  }

  /** A dictionary of counts whose keys remember the order in which they were
      first inserted, as Python dictionaries do. */
  datatype Tally<K> = Tally(keys: seq<K>, counts: map<K, int>)
  {
    ghost predicate Valid()
    {
      && Distinct(keys)
      && (forall k :: k in counts ==> k in keys)
      && (forall i :: 0 <= i < |keys| ==> keys[i] in counts)
    }

    function Count(k: K): int
    {
      Get(counts, k)
    }

    /** `d[k] += n` on a `defaultdict(int)`: a key seen for the first time goes last. */
    function Add(k: K, n: int): (t: Tally<K>)
      requires Valid()
      ensures t.Valid()
      ensures t.Count(k) == Count(k) + n
      ensures forall j :: j in t.counts && j != k ==> t.Count(j) == Count(j)
      ensures counts.Keys <= t.counts.Keys && t.counts.Keys <= counts.Keys + {k}
      ensures |keys| <= |t.keys| && t.keys[..|keys|] == keys
    {
      if k in counts then Tally(keys, counts[k := counts[k] + n])
      else
        var t := Tally(keys + [k], counts[k := n]);
        assert forall i :: 0 <= i < |keys| ==> t.keys[i] == keys[i] && t.keys[i] in counts;
        t
    }
  }

  function EmptyTally<K>(): (t: Tally<K>)
    ensures t.Valid() && |t.counts| == 0
  {
    Tally([], map[])
  }

  /** One `d[k] += 1` per element of `ks`, in order. */
  function AddEach<K>(t: Tally<K>, ks: seq<K>): (r: Tally<K>)
    requires t.Valid()
    ensures r.Valid()
  {
    if ks == [] then t else AddEach(t, ks[..|ks| - 1]).Add(ks[|ks| - 1], 1)
  }

  lemma AddEachSnoc<K>(t: Tally<K>, ks: seq<K>, k: K)
    requires t.Valid()
    ensures AddEach(t, ks + [k]) == AddEach(t, ks).Add(k, 1)
  {
    assert (ks + [k])[..|ks|] == ks;
  }

  /** `for k in ks: d[k] += 1`, as a loop. */
  method CountEach<K>(t: Tally<K>, ks: seq<K>) returns (r: Tally<K>)
    requires t.Valid()
    ensures r == AddEach(t, ks)
  {
    r := t;
    for i := 0 to |ks|
      invariant r == AddEach(t, ks[..i])
    {
      PrefixSnoc(ks, i);
      AddEachSnoc(t, ks[..i], ks[i]);
      r := r.Add(ks[i], 1);
    }
    assert ks[..|ks|] == ks;
  }

  /** Counting `a` and then `b` is counting `a + b`. */
  lemma {:induction false} AddEachAppend<K>(t: Tally<K>, a: seq<K>, b: seq<K>)
    requires t.Valid()
    ensures AddEach(AddEach(t, a), b) == AddEach(t, a + b)
    decreases |b|
  {
    if b != [] {
      var init, last := b[..|b| - 1], b[|b| - 1];
      assert b == init + [last];
      assert a + b == (a + init) + [last];
      calc {
        AddEach(AddEach(t, a), b);
        { AddEachSnoc(AddEach(t, a), init, last); }
        AddEach(AddEach(t, a), init).Add(last, 1);
        { AddEachAppend(t, a, init); }
        AddEach(t, a + init).Add(last, 1);
        { AddEachSnoc(t, a + init, last); }
        AddEach(t, a + b);
      }
    } else {
      assert a + b == a;
    }
  }

  /** Each key's count grows by exactly the number of its occurrences in `ks`. */
  lemma {:induction false} AddEachCount<K>(t: Tally<K>, ks: seq<K>, k: K)
    requires t.Valid()
    ensures AddEach(t, ks).Count(k) == t.Count(k) + multiset(ks)[k]
    decreases |ks|
  {
    if ks != [] {
      var init := ks[..|ks| - 1];
      assert ks == init + [ks[|ks| - 1]];
      AddEachCount(t, init, k);
    }
  }

  /** Counting from an empty tally gives no negative count. */
  lemma {:induction false} AddEachNonNegative<K>(ks: seq<K>, k: K)
    ensures AddEach(EmptyTally(), ks).Count(k) >= 0
  {
    AddEachCount(EmptyTally(), ks, k);
  }

  /** The keys afterwards are the old keys and the elements of `ks`. */
  lemma {:induction false} AddEachKeys<K>(t: Tally<K>, ks: seq<K>, k: K)
    requires t.Valid()
    ensures k in AddEach(t, ks).counts <==> k in t.counts || k in ks
    decreases |ks|
  {
    if ks != [] {
      var init := ks[..|ks| - 1];
      assert ks == init + [ks[|ks| - 1]];
      AddEachKeys(t, init, k);
    }
  }

  /** `for k in ks: d[k] += m[k]`. */
  function AddCounts<K>(t: Tally<K>, ks: seq<K>, m: map<K, int>): (r: Tally<K>)
    requires t.Valid()
    ensures r.Valid()
  {
    if ks == [] then t else AddCounts(t, ks[..|ks| - 1], m).Add(ks[|ks| - 1], Get(m, ks[|ks| - 1]))
  }

  lemma {:induction false} AddCountsCount<K>(t: Tally<K>, ks: seq<K>, m: map<K, int>, k: K)
    requires t.Valid() && Distinct(ks)
    ensures AddCounts(t, ks, m).Count(k) == t.Count(k) + (if k in ks then Get(m, k) else 0)
    ensures k in AddCounts(t, ks, m).counts <==> k in t.counts || k in ks
    decreases |ks|
  {
    if ks != [] {
      var init := ks[..|ks| - 1];
      assert ks == init + [ks[|ks| - 1]];
      assert Distinct(init);
      AddCountsCount(t, init, m, k);
    }
  }

  lemma AddCountsSnoc<K>(t: Tally<K>, ks: seq<K>, k: K, m: map<K, int>)
    requires t.Valid()
    ensures AddCounts(t, ks + [k], m) == AddCounts(t, ks, m).Add(k, Get(m, k))
  {
    assert (ks + [k])[..|ks|] == ks;
  }

  /** Adding every count of `u` into `t`, key by key in `u`'s order. */
  function Merge<K>(t: Tally<K>, u: Tally<K>): (r: Tally<K>)
    requires t.Valid() && u.Valid()
    ensures r.Valid()
  {
    AddCounts(t, u.keys, u.counts)
  }

  /** Merging adds exactly the other tally's counts, key by key. */
  lemma MergeCount<K>(t: Tally<K>, u: Tally<K>, k: K)
    requires t.Valid() && u.Valid()
    ensures Merge(t, u).Count(k) == t.Count(k) + u.Count(k)
    ensures k in Merge(t, u).counts <==> k in t.counts || k in u.counts
  {
    AddCountsCount(t, u.keys, u.counts, k);
  }

  // ---------------------------------------------------------------------------
  // Stable ranking by descending weight.

  ghost predicate Descending<K>(s: seq<K>, w: map<K, int>)
  {
    forall i, j :: 0 <= i < j < |s| ==> Get(w, s[i]) >= Get(w, s[j])
  }

  /** Places `x` after every element of `s` whose weight is at least its own. */
  function Insert<K>(x: K, s: seq<K>, w: map<K, int>): seq<K>
  {
    if s == [] then [x]
    else if Get(w, s[0]) >= Get(w, x) then [s[0]] + Insert(x, s[1..], w)
    else [x] + s
  }

  /** `sorted(ks, key=w.get, reverse=True)`: an insertion sort that keeps ties in input order. */
  function SortDesc<K>(ks: seq<K>, w: map<K, int>): seq<K>
  {
    if ks == [] then [] else Insert(ks[|ks| - 1], SortDesc(ks[..|ks| - 1], w), w)
  }

  /** The elements of `s` whose weight is `c`, in their order in `s`. */
  function WithWeight<K>(s: seq<K>, w: map<K, int>, c: int): seq<K>
  {
    if s == [] then [] else (if Get(w, s[0]) == c then [s[0]] else []) + WithWeight(s[1..], w, c)
  }

  lemma {:induction false} WithWeightAppend<K>(a: seq<K>, b: seq<K>, w: map<K, int>, c: int)
    ensures WithWeight(a + b, w, c) == WithWeight(a, w, c) + WithWeight(b, w, c)
  {
    if a == [] {
      assert a + b == b;
    } else {
      assert (a + b)[1..] == a[1..] + b;
      WithWeightAppend(a[1..], b, w, c);
    }
  }

  lemma {:induction false} WithWeightNone<K>(s: seq<K>, w: map<K, int>, c: int)
    requires forall i :: 0 <= i < |s| ==> Get(w, s[i]) < c
    ensures WithWeight(s, w, c) == []
  {
    if s != [] {
      WithWeightNone(s[1..], w, c);
    }
  }

  lemma {:induction false} InsertPerm<K>(x: K, s: seq<K>, w: map<K, int>)
    ensures multiset(Insert(x, s, w)) == multiset(s) + multiset{x}
  {
    if s != [] && Get(w, s[0]) >= Get(w, x) {
      InsertPerm(x, s[1..], w);
      assert s == [s[0]] + s[1..];
    }
  }

  lemma {:induction false} InsertSorted<K>(x: K, s: seq<K>, w: map<K, int>)
    requires Descending(s, w)
    ensures Descending(Insert(x, s, w), w)
  {
    if s != [] {
      DescendingTail(s, w);
      if Get(w, s[0]) >= Get(w, x) {
        var rest := Insert(x, s[1..], w);
        InsertSorted(x, s[1..], w);
        InsertBounded(x, s[1..], w, Get(w, s[0]));
        DescendingCons(s[0], rest, w);
      } else {
        DescendingCons(x, s, w);
      }
    }
  }

  /** Inserting below a bound keeps every weight below it. */
  lemma {:induction false} InsertBounded<K>(x: K, s: seq<K>, w: map<K, int>, b: int)
    requires forall i :: 0 <= i < |s| ==> Get(w, s[i]) <= b
    requires Get(w, x) <= b
    ensures forall i :: 0 <= i < |Insert(x, s, w)| ==> Get(w, Insert(x, s, w)[i]) <= b
  {
    if s != [] && Get(w, s[0]) >= Get(w, x) {
      var rest := Insert(x, s[1..], w);
      InsertBounded(x, s[1..], w, b);
      forall i | 0 <= i < |[s[0]] + rest| ensures Get(w, ([s[0]] + rest)[i]) <= b {
        if i > 0 {
          assert ([s[0]] + rest)[i] == rest[i - 1];
        }
      }
    }
  }

  /** An element at least as heavy as a descending sequence can go in front of it. */
  lemma DescendingCons<K>(a: K, t: seq<K>, w: map<K, int>)
    requires Descending(t, w)
    requires forall i :: 0 <= i < |t| ==> Get(w, t[i]) <= Get(w, a)
    ensures Descending([a] + t, w)
  {
    var s := [a] + t;
    forall i, j | 0 <= i < j < |s| ensures Get(w, s[i]) >= Get(w, s[j]) {
      assert s[j] == t[j - 1];
      if i > 0 {
        assert s[i] == t[i - 1];
      }
    }
  }

  lemma {:induction false} InsertStable<K>(x: K, s: seq<K>, w: map<K, int>, c: int)
    requires Descending(s, w)
    ensures WithWeight(Insert(x, s, w), w, c) == WithWeight(s, w, c) + (if Get(w, x) == c then [x] else [])
  {
    var mine := if Get(w, x) == c then [x] else [];
    if s == [] {
    } else if Get(w, s[0]) >= Get(w, x) {
      var rest := Insert(x, s[1..], w);
      var head := if Get(w, s[0]) == c then [s[0]] else [];
      DescendingTail(s, w);
      calc {
        WithWeight(Insert(x, s, w), w, c);
        { assert Insert(x, s, w) == [s[0]] + rest; }
        WithWeight([s[0]] + rest, w, c);
        { WithWeightCons(s[0], rest, w, c); }
        head + WithWeight(rest, w, c);
        { InsertStable(x, s[1..], w, c); }
        head + (WithWeight(s[1..], w, c) + mine);
        (head + WithWeight(s[1..], w, c)) + mine;
        { WithWeightCons(s[0], s[1..], w, c); assert s == [s[0]] + s[1..]; }
        WithWeight(s, w, c) + mine;
      }
    } else {
      calc {
        WithWeight(Insert(x, s, w), w, c);
        { assert Insert(x, s, w) == [x] + s; }
        WithWeight([x] + s, w, c);
        { WithWeightCons(x, s, w, c); }
        mine + WithWeight(s, w, c);
      }
      if Get(w, x) == c {
        DescendingTail(s, w);
        WithWeightNone(s, w, c);
      }
    }
  }

  lemma WithWeightCons<K>(a: K, t: seq<K>, w: map<K, int>, c: int)
    ensures WithWeight([a] + t, w, c) == (if Get(w, a) == c then [a] else []) + WithWeight(t, w, c)
  {
    assert ([a] + t)[1..] == t;
  }

  /** A descending sequence starts with its heaviest element and goes on descending. */
  lemma DescendingTail<K>(s: seq<K>, w: map<K, int>)
    requires Descending(s, w) && s != []
    ensures Descending(s[1..], w)
    ensures forall i :: 0 <= i < |s| ==> Get(w, s[i]) <= Get(w, s[0])
  {
    forall i, j | 0 <= i < j < |s[1..]| ensures Get(w, s[1..][i]) >= Get(w, s[1..][j]) {
      assert s[1..][i] == s[i + 1] && s[1..][j] == s[j + 1];
    }
  }

  /** The ranking is a permutation of the keys sorted by descending weight, and
      keys of equal weight keep their input order (the sort is stable). */
  lemma {:induction false} SortDescFacts<K>(ks: seq<K>, w: map<K, int>)
    ensures multiset(SortDesc(ks, w)) == multiset(ks)
    ensures Descending(SortDesc(ks, w), w)
    ensures forall c :: WithWeight(SortDesc(ks, w), w, c) == WithWeight(ks, w, c)
    decreases |ks|
  {
    if ks != [] {
      var init, last := ks[..|ks| - 1], ks[|ks| - 1];
      assert ks == init + [last];
      SortDescFacts(init, w);
      InsertPerm(last, SortDesc(init, w), w);
      InsertSorted(last, SortDesc(init, w), w);
      forall c ensures WithWeight(SortDesc(ks, w), w, c) == WithWeight(ks, w, c) {
        InsertStable(last, SortDesc(init, w), w, c);
        WithWeightAppend(init, [last], w, c);
      }
    }
  }

  lemma {:induction false} DistinctCount<T>(s: seq<T>, x: T)
    requires Distinct(s)
    ensures multiset(s)[x] <= 1
  {
    if s != [] {
      assert s == [s[0]] + s[1..];
      assert Distinct(s[1..]);
      DistinctCount(s[1..], x);
      if s[0] == x {
        assert x !in s[1..];
      }
    }
  }

  /** A permutation of a sequence without repetitions has none either. */
  lemma PermutationDistinct<T>(a: seq<T>, b: seq<T>)
    requires multiset(a) == multiset(b) && Distinct(a)
    ensures Distinct(b)
  {
    forall i, j | 0 <= i < j < |b| ensures b[i] != b[j] {
      if b[i] == b[j] {
        var x := b[i];
        assert b == b[..j] + [x] + b[j + 1..];
        assert x in b[..j];
        assert multiset(b)[x] >= 2;
        DistinctCount(a, x);
        assert false;
      }
    }
  }
}
