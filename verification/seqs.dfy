/**
 * The LINQ operators the repository uses (Sum, Where, FindIndex / FirstOrDefault,
 * Count, OrderBy, Take, GroupBy + Sum), as functions over sequences.
 * Folds are defined on the last element, the order in which LINQ enumerates.
 */
module Seqs {
  import opened Wrappers

  /** `s.Sum(f)`. */
  function Sum<T>(s: seq<T>, f: T -> real): real
  {
    if |s| == 0 then 0.0 else Sum(s[..|s| - 1], f) + f(s[|s| - 1])
  }

  lemma {:induction false} SumAppend<T>(a: seq<T>, b: seq<T>, f: T -> real)
    ensures Sum(a + b, f) == Sum(a, f) + Sum(b, f)
  {
    if |b| == 0 {
      assert a + b == a;
    } else {
      var b' := b[..|b| - 1];
      assert (a + b)[..|a + b| - 1] == a + b';
      SumAppend(a, b', f);
    }
  }

  lemma {:induction false} SumNonNegative<T>(s: seq<T>, f: T -> real)
    requires forall i :: 0 <= i < |s| ==> f(s[i]) >= 0.0
    ensures Sum(s, f) >= 0.0
  {
    if |s| > 0 {
      SumNonNegative(s[..|s| - 1], f);
    }
  }

  /** The difference of two sums is the sum of the differences. */
  lemma {:induction false} SumDifference<T>(s: seq<T>, f: T -> real, g: T -> real, h: T -> real)
    requires forall x :: h(x) == f(x) - g(x)
    ensures Sum(s, f) - Sum(s, g) == Sum(s, h)
  {
    if |s| > 0 {
      SumDifference(s[..|s| - 1], f, g, h);
    }
  }

  /** Two sums over sequences of equal length, term by term no larger, compare the same way. */
  lemma {:induction false} SumLessEqual<T, U>(s: seq<T>, f: T -> real, t: seq<U>, g: U -> real)
    requires |s| == |t|
    requires forall i :: 0 <= i < |s| ==> f(s[i]) <= g(t[i])
    ensures Sum(s, f) <= Sum(t, g)
  {
    if |s| > 0 {
      SumLessEqual(s[..|s| - 1], f, t[..|t| - 1], g);
    }
  }

  /** `s.Where(p)`: the elements satisfying `p`, in their original order. */
  function Filter<T>(s: seq<T>, p: T -> bool): (r: seq<T>)
    ensures |r| <= |s|
    ensures forall i :: 0 <= i < |r| ==> r[i] in s && p(r[i])
    ensures forall i :: 0 <= i < |s| && p(s[i]) ==> s[i] in r
  {
    if |s| == 0 then []
    else
      assert s == s[..|s| - 1] + [s[|s| - 1]];
      Filter(s[..|s| - 1], p) + (if p(s[|s| - 1]) then [s[|s| - 1]] else [])
  }

  lemma {:induction false} FilterAppend<T>(a: seq<T>, b: seq<T>, p: T -> bool)
    ensures Filter(a + b, p) == Filter(a, p) + Filter(b, p)
  {
    if |b| == 0 {
      assert a + b == a;
    } else {
      var b' := b[..|b| - 1];
      assert (a + b)[..|a + b| - 1] == a + b';
      FilterAppend(a, b', p);
    }
  }

  /** Splitting by a test and its negation splits the sum. */
  lemma {:induction false} SumSplit<T>(s: seq<T>, p: T -> bool, q: T -> bool, f: T -> real)
    requires forall x :: q(x) == !p(x)
    ensures Sum(Filter(s, p), f) + Sum(Filter(s, q), f) == Sum(s, f)
  {
    if |s| > 0 {
      var s', x := s[..|s| - 1], s[|s| - 1];
      SumSplit(s', p, q, f);
      SumAppend(Filter(s', p), if p(x) then [x] else [], f);
      SumAppend(Filter(s', q), if q(x) then [x] else [], f);
      assert [x][..0] == [];
    }
  }

  /** Where every element passes, nothing is dropped. */
  lemma {:induction false} FilterKeepsAll<T>(s: seq<T>, p: T -> bool)
    requires forall i :: 0 <= i < |s| ==> p(s[i])
    ensures Filter(s, p) == s
  {
    if |s| > 0 {
      FilterKeepsAll(s[..|s| - 1], p);
      assert s == s[..|s| - 1] + [s[|s| - 1]];
    }
  }

  lemma {:induction false} FilterKeepsNone<T>(s: seq<T>, p: T -> bool)
    requires forall i :: 0 <= i < |s| ==> !p(s[i])
    ensures Filter(s, p) == []
  {
    if |s| > 0 {
      FilterKeepsNone(s[..|s| - 1], p);
    }
  }

  /** `Count(p)`: the number of elements satisfying `p`. */
  function Count<T>(s: seq<T>, p: T -> bool): (n: nat)
    ensures n <= |s|
    ensures n == |Filter(s, p)|
  {
    if |s| == 0 then 0 else Count(s[..|s| - 1], p) + (if p(s[|s| - 1]) then 1 else 0)
  }

  /** Elements passing one of two exclusive tests that both imply a third are no more than those passing the third. */
  lemma {:induction false} CountDisjoint<T>(s: seq<T>, p: T -> bool, q: T -> bool, r: T -> bool)
    requires forall x :: (p(x) ==> r(x)) && (q(x) ==> r(x)) && !(p(x) && q(x))
    ensures Count(s, p) + Count(s, q) <= Count(s, r)
  {
    if |s| > 0 {
      CountDisjoint(s[..|s| - 1], p, q, r);
    }
  }

  /** `FindIndex(p)` (and the position `FirstOrDefault(p)` reaches): the first element satisfying `p`. */
  function FindIndex<T>(s: seq<T>, p: T -> bool): (r: Option<nat>)
    ensures r.Some? ==> r.value < |s| && p(s[r.value])
    ensures r.Some? ==> forall j :: 0 <= j < r.value ==> !p(s[j])
    ensures r.None? <==> forall j :: 0 <= j < |s| ==> !p(s[j])
  {
    if |s| == 0 then None
    else if p(s[0]) then Some(0)
    else match FindIndex(s[1..], p)
      case None => None
      case Some(k) => Some(k + 1)
  }

  /** The positions of the elements satisfying `p`, ascending: what indexing into `Where(p).ToList()` reaches. */
  function Positions<T>(s: seq<T>, p: T -> bool): (r: seq<nat>)
    ensures forall k :: 0 <= k < |r| ==> r[k] < |s| && p(s[r[k]])
    ensures forall k, l :: 0 <= k < l < |r| ==> r[k] < r[l]
  {
    if |s| == 0 then []
    else Positions(s[..|s| - 1], p) + (if p(s[|s| - 1]) then [|s| - 1] else [])
  }

  /** The `k`-th element of `Where(p)` sits at the `k`-th position. */
  lemma {:induction false} PositionsFilter<T>(s: seq<T>, p: T -> bool)
    ensures |Positions(s, p)| == |Filter(s, p)|
    ensures forall k :: 0 <= k < |Filter(s, p)| ==> Filter(s, p)[k] == s[Positions(s, p)[k]]
  {
    if |s| > 0 {
      var s', x := s[..|s| - 1], s[|s| - 1];
      var P', F' := Positions(s', p), Filter(s', p);
      var P, F := Positions(s, p), Filter(s, p);
      assert P == P' + (if p(x) then [|s| - 1] else []);
      assert F == F' + (if p(x) then [x] else []);
      PositionsFilter(s', p);
      forall k | 0 <= k < |F| ensures F[k] == s[P[k]] {
        if k < |F'| {
          assert F[k] == F'[k] && P[k] == P'[k];
          assert s[P'[k]] == s'[P'[k]];
        }
      }
    }
  }

  /**
   * The element a numbered menu of the elements satisfying `p` selects:
   * entry `choice` of that menu, or none when no element qualifies.
   */
  function Pick<T>(s: seq<T>, p: T -> bool, choice: nat): (r: Option<nat>)
    requires |Positions(s, p)| > 0 ==> choice < |Positions(s, p)|
    ensures r.Some? ==> r.value < |s| && p(s[r.value])
    ensures r.Some? ==> choice < |Positions(s, p)| && r.value == Positions(s, p)[choice]
    ensures r.None? <==> forall j :: 0 <= j < |s| ==> !p(s[j])
  {
    var ps := Positions(s, p);
    if |ps| == 0 then
      assert forall j :: 0 <= j < |s| ==> !p(s[j]) by {
        forall j | 0 <= j < |s| ensures !p(s[j]) {
          if p(s[j]) {
            PositionsComplete(s, p, j);
          }
        }
      }
      None
    else Some(ps[choice])
  }

  /** Every match has its position. */
  lemma {:induction false} PositionsComplete<T>(s: seq<T>, p: T -> bool, j: nat)
    requires j < |s| && p(s[j])
    ensures j in Positions(s, p)
  {
    var s' := s[..|s| - 1];
    if j < |s| - 1 {
      assert s'[j] == s[j];
      PositionsComplete(s', p, j);
    }
  }

  /** `RemoveAt(i)`: the sequence without its `i`-th element, the rest in order. */
  function RemoveAt<T>(s: seq<T>, i: nat): (r: seq<T>)
    requires i < |s|
    ensures |r| == |s| - 1
    ensures forall j :: 0 <= j < i ==> r[j] == s[j]
    ensures forall j :: i <= j < |r| ==> r[j] == s[j + 1]
    ensures multiset(r) + multiset{s[i]} == multiset(s)
  {
    assert s == s[..i] + [s[i]] + s[i + 1..];
    s[..i] + s[i + 1..]
  }

  /** `Take(n)`. */
  function Take<T>(s: seq<T>, n: nat): (r: seq<T>)
    ensures |r| == if n < |s| then n else |s|
    ensures forall i :: 0 <= i < |r| ==> r[i] == s[i]
  {
    if n < |s| then s[..n] else s
  }

  /** An element of `s` not among its first `n` lies after them. */
  lemma OutsidePrefix<T>(s: seq<T>, n: nat, x: T)
    requires n <= |s| && x in multiset(s) - multiset(s[..n])
    ensures exists k :: n <= k < |s| && s[k] == x
  {
    var rest := s[n..];
    assert s == s[..n] + rest;
    assert multiset(s) == multiset(s[..n]) + multiset(rest);
    assert x in multiset(rest);
    var k :| 0 <= k < |rest| && rest[k] == x;
    assert s[n + k] == x;
  }

  /** `le` is total and transitive: what `OrderBy` needs of its key comparison. */
  ghost predicate TotalPreorder<T(!new)>(le: (T, T) -> bool)
  {
    && (forall a, b :: le(a, b) || le(b, a))
    && (forall a, b, c :: le(a, b) && le(b, c) ==> le(a, c))
  }

  ghost predicate SortedBy<T>(s: seq<T>, le: (T, T) -> bool)
  {
    forall i, j :: 0 <= i < j < |s| ==> le(s[i], s[j])
  }

  /** Inserts `x` after every element of `r` that is not after it, so equal keys keep their order. */
  function Insert<T>(r: seq<T>, x: T, le: (T, T) -> bool): (r': seq<T>)
    ensures |r'| == |r| + 1
    ensures multiset(r') == multiset(r) + multiset{x}
  {
    if |r| == 0 then [x]
    else
      assert r == [r[0]] + r[1..];
      if le(r[0], x) then [r[0]] + Insert(r[1..], x, le) else [x] + r
  }

  lemma {:induction false} InsertSorted<T(!new)>(r: seq<T>, x: T, le: (T, T) -> bool)
    requires TotalPreorder(le)
    requires SortedBy(r, le)
    ensures SortedBy(Insert(r, x, le), le)
  {
    if |r| > 0 {
      var r' := Insert(r, x, le);
      if le(r[0], x) {
        var tail := Insert(r[1..], x, le);
        InsertSorted(r[1..], x, le);
        assert r' == [r[0]] + tail;
        forall j | 0 <= j < |tail| ensures le(r[0], tail[j]) {
          assert tail[j] in multiset(r[1..]) + multiset{x} by {
            assert tail[j] in multiset(tail);
          }
          if tail[j] != x {
            assert tail[j] in r[1..];
            var k :| 0 <= k < |r[1..]| && r[1..][k] == tail[j];
            assert le(r[0], r[k + 1]);
          }
        }
      } else {
        assert le(x, r[0]);
        forall j | 0 <= j < |r| ensures le(x, r[j]) {
          if j > 0 {
            assert le(r[0], r[j]);
          }
        }
      }
    }
  }

  /** `OrderBy`: a stable insertion sort under `le`. */
  function Sort<T(!new)>(s: seq<T>, le: (T, T) -> bool): (r: seq<T>)
    requires TotalPreorder(le)
    ensures |r| == |s|
    ensures multiset(r) == multiset(s)
    ensures SortedBy(r, le)
  {
    if |s| == 0 then []
    else
      assert s == s[..|s| - 1] + [s[|s| - 1]];
      var sorted := Sort(s[..|s| - 1], le);
      InsertSorted(sorted, s[|s| - 1], le);
      Insert(sorted, s[|s| - 1], le)
  }

  /** Groups with distinct keys hold each group at most once. */
  lemma {:induction false} DistinctOnce<K>(g: seq<Group<K>>, x: Group<K>)
    requires DistinctKeys(g)
    ensures multiset(g)[x] <= 1
  {
    if |g| > 0 {
      var g', y := g[..|g| - 1], g[|g| - 1];
      assert g == g' + [y];
      DistinctOnce(g', x);
      assert forall k :: 0 <= k < |g'| ==> g'[k] != y by {
        forall k | 0 <= k < |g'| ensures g'[k] != y {
          assert g[k].key != g[|g| - 1].key;
        }
      }
      assert y !in multiset(g');
    }
  }

  lemma SplitAt<T>(t: seq<T>, i: nat)
    requires i < |t|
    ensures t == t[..i] + [t[i]] + t[i + 1..] && RemoveAt(t, i) == t[..i] + t[i + 1..]
  {
    assert t[i..] == [t[i]] + t[i + 1..];
    assert t == t[..i] + t[i..];
  }

  /** Removing one element removes it from the filtered elements, if it passed. */
  lemma FilterRemoveAt<T>(t: seq<T>, i: nat, p: T -> bool)
    requires i < |t|
    ensures multiset(Filter(t, p)) == multiset(Filter(RemoveAt(t, i), p)) + (if p(t[i]) then multiset{t[i]} else multiset{})
  {
    var a, x, b := t[..i], t[i], t[i + 1..];
    SplitAt(t, i);
    var fa, fx, fb := Filter(a, p), Filter([x], p), Filter(b, p);
    calc {
      multiset(Filter(t, p));
      { FilterAppend(a + [x], b, p); FilterAppend(a, [x], p); }
      multiset(fa + fx + fb);
      { MultisetMiddle(fa, fx, fb); }
      multiset(fa + fb) + multiset(fx);
      { FilterAppend(a, b, p); }
      multiset(Filter(RemoveAt(t, i), p)) + multiset(fx);
    }
    FilterSingle(x, p);
  }

  lemma FilterSingle<T>(x: T, p: T -> bool)
    ensures Filter([x], p) == if p(x) then [x] else []
  {
    assert [x][..0] == [];
  }

  lemma MultisetMiddle<T>(a: seq<T>, m: seq<T>, b: seq<T>)
    ensures multiset(a + m + b) == multiset(a + b) + multiset(m)
  {
  }

  /** Filtering two reorderings of the same elements gives reorderings of the same elements. */
  lemma {:induction false} FilterPermutation<T>(s: seq<T>, t: seq<T>, p: T -> bool)
    requires multiset(s) == multiset(t)
    ensures multiset(Filter(s, p)) == multiset(Filter(t, p))
    decreases |s|
  {
    assert |s| == |multiset(s)| == |t|;
    if |s| > 0 {
      var s', x := s[..|s| - 1], s[|s| - 1];
      assert s == s' + [x];
      assert x in multiset(t);
      var i :| 0 <= i < |t| && t[i] == x;
      var t' := RemoveAt(t, i);
      assert multiset(s) == multiset(s') + multiset{x};
      assert multiset(t) == multiset(t') + multiset{x};
      assert multiset(s') == multiset(s) - multiset{x} == multiset(t');
      FilterPermutation(s', t', p);
      FilterRemoveAt(t, i, p);
    }
  }

  /** A reordering of groups with distinct keys still has distinct keys. */
  lemma DistinctPermutation<K>(g: seq<Group<K>>, h: seq<Group<K>>)
    requires multiset(g) == multiset(h) && DistinctKeys(g)
    ensures DistinctKeys(h)
  {
    forall i, j | 0 <= i < j < |h| ensures h[i].key != h[j].key {
      DistinctOnce(g, h[i]);
      assert h[i] != h[j] by {
        assert h == h[..j] + [h[j]] + h[j + 1..];
        assert h[i] in multiset(h[..j]);
      }
      assert h[i] in multiset(g) && h[j] in multiset(g);
      var a :| 0 <= a < |g| && g[a] == h[i];
      var b :| 0 <= b < |g| && g[b] == h[j];
      assert a != b;
    }
  }

  /** Removing one element takes exactly its term out of a sum. */
  lemma SumRemoveAt<T>(t: seq<T>, i: nat, f: T -> real)
    requires i < |t|
    ensures Sum(t, f) == Sum(RemoveAt(t, i), f) + f(t[i])
  {
    var a, x, b := t[..i], t[i], t[i + 1..];
    SplitAt(t, i);
    SumAppend(a + [x], b, f);
    SumAppend(a, [x], f);
    assert [x][..0] == [];
    SumAppend(a, b, f);
  }

  /** Reordering does not change a sum. */
  lemma {:induction false} SumPermutation<T>(s: seq<T>, t: seq<T>, f: T -> real)
    requires multiset(s) == multiset(t)
    ensures Sum(s, f) == Sum(t, f)
    decreases |s|
  {
    assert |s| == |multiset(s)| == |t|;
    if |s| > 0 {
      var s', x := s[..|s| - 1], s[|s| - 1];
      assert s == s' + [x];
      assert x in multiset(t);
      var i :| 0 <= i < |t| && t[i] == x;
      var t' := RemoveAt(t, i);
      assert multiset(s) == multiset(s') + multiset{x};
      assert multiset(t) == multiset(t') + multiset{x};
      assert multiset(s') == multiset(s) - multiset{x} == multiset(t');
      SumPermutation(s', t', f);
      SumRemoveAt(t, i, f);
    }
  }

  /** One `GroupBy` group after `Select(g => new { g.Key, Sum })`. */
  datatype Group<K> = Group(key: K, total: real)

  /** The sum of `amount` over the elements whose key is `k`. */
  function SumByKey<T, K(==)>(s: seq<T>, key: T -> K, k: K, amount: T -> real): real
  {
    if |s| == 0 then 0.0
    else SumByKey(s[..|s| - 1], key, k, amount) + (if key(s[|s| - 1]) == k then amount(s[|s| - 1]) else 0.0)
  }

  lemma {:induction false} SumByKeyAbsent<T, K>(s: seq<T>, key: T -> K, k: K, amount: T -> real)
    requires forall j :: 0 <= j < |s| ==> key(s[j]) != k
    ensures SumByKey(s, key, k, amount) == 0.0
  {
    if |s| > 0 {
      SumByKeyAbsent(s[..|s| - 1], key, k, amount);
    }
  }

  ghost predicate DistinctKeys<K>(g: seq<Group<K>>)
  {
    forall i, j :: 0 <= i < j < |g| ==> g[i].key != g[j].key
  }

  /** Adds `a` to the group of key `k`, opening a new group at the end when there is none. */
  function AddTo<K(==)>(g: seq<Group<K>>, k: K, a: real): (g': seq<Group<K>>)
    requires DistinctKeys(g)
    ensures |g'| >= |g|
    ensures forall i :: 0 <= i < |g| ==> g'[i].key == g[i].key
    ensures forall i :: 0 <= i < |g| ==> g'[i].total == g[i].total + (if g[i].key == k then a else 0.0)
    ensures DistinctKeys(g')
    ensures (exists i :: 0 <= i < |g| && g[i].key == k) ==> |g'| == |g|
    ensures (forall i :: 0 <= i < |g| ==> g[i].key != k) ==> g' == g + [Group(k, a)]
  {
    match FindIndex(g, (x: Group<K>) => x.key == k)
    case None => g + [Group(k, a)]
    case Some(i) => g[i := g[i].(total := g[i].total + a)]
  }

  /**
   * `GroupBy(key).Select(g => (g.Key, g.Sum(amount)))`: one group per distinct key,
   * in order of first appearance, each carrying the sum over its elements.
   */
  function GroupSums<T, K(==)>(s: seq<T>, key: T -> K, amount: T -> real): (g: seq<Group<K>>)
    ensures |g| <= |s|
    ensures DistinctKeys(g)
  {
    if |s| == 0 then [] else AddTo(GroupSums(s[..|s| - 1], key, amount), key(s[|s| - 1]), amount(s[|s| - 1]))
  }

  /** Some element of `s` carries key `k`. */
  ghost predicate KeyOccurs<T, K>(s: seq<T>, key: T -> K, k: K)
  {
    exists j :: 0 <= j < |s| && key(s[j]) == k
  }

  /** `g` has a group of key `k`. */
  ghost predicate HasGroup<K>(g: seq<Group<K>>, k: K)
  {
    exists i :: 0 <= i < |g| && g[i].key == k
  }

  /** Every group's key occurs in the input. */
  lemma {:induction false} GroupKeyOccurs<T, K>(s: seq<T>, key: T -> K, amount: T -> real, i: nat)
    requires i < |GroupSums(s, key, amount)|
    ensures KeyOccurs(s, key, GroupSums(s, key, amount)[i].key)
  {
    var s' := s[..|s| - 1];
    var g' := GroupSums(s', key, amount);
    var g := GroupSums(s, key, amount);
    assert g == AddTo(g', key(s[|s| - 1]), amount(s[|s| - 1]));
    if i < |g'| {
      GroupKeyOccurs(s', key, amount, i);
      var j :| 0 <= j < |s'| && key(s'[j]) == g'[i].key;
      assert s[j] == s'[j];
    } else {
      assert key(s[|s| - 1]) == g[i].key;
    }
  }

  /** Every key that occurs has a group. */
  lemma {:induction false} KeysGrouped<T, K>(s: seq<T>, key: T -> K, amount: T -> real)
    ensures var g := GroupSums(s, key, amount);
      forall j :: 0 <= j < |s| ==> HasGroup(g, key(s[j]))
  {
    if |s| > 0 {
      var s', x := s[..|s| - 1], s[|s| - 1];
      var g' := GroupSums(s', key, amount);
      var g := GroupSums(s, key, amount);
      assert g == AddTo(g', key(x), amount(x));
      KeysGrouped(s', key, amount);
      forall j | 0 <= j < |s| ensures HasGroup(g, key(s[j])) {
        if j < |s'| {
          assert s[j] == s'[j];
          assert HasGroup(g', key(s'[j]));
          var i :| 0 <= i < |g'| && g'[i].key == key(s'[j]);
          assert g[i].key == key(s[j]);
        } else if HasGroup(g', key(x)) {
          var i :| 0 <= i < |g'| && g'[i].key == key(x);
          assert g[i].key == key(s[j]);
        } else {
          assert g[|g'|].key == key(s[j]);
        }
      }
    }
  }

  /** Each group's total is the sum of the amounts carrying its key. */
  lemma {:induction false} GroupTotals<T, K>(s: seq<T>, key: T -> K, amount: T -> real)
    ensures var g := GroupSums(s, key, amount);
      forall i :: 0 <= i < |g| ==> g[i].total == SumByKey(s, key, g[i].key, amount)
  {
    if |s| > 0 {
      var s', x := s[..|s| - 1], s[|s| - 1];
      var g' := GroupSums(s', key, amount);
      var g := GroupSums(s, key, amount);
      assert g == AddTo(g', key(x), amount(x));
      GroupTotals(s', key, amount);
      if |g| > |g'| {
        KeysGrouped(s', key, amount);
        assert forall j :: 0 <= j < |s'| ==> key(s'[j]) != key(x) by {
          forall j | 0 <= j < |s'| ensures key(s'[j]) != key(x) {
            assert HasGroup(g', key(s'[j]));
            var i' :| 0 <= i' < |g'| && g'[i'].key == key(s'[j]);
          }
        }
        SumByKeyAbsent(s', key, key(x), amount);
      }
    }
  }

  /** One group, read off: its key occurs in the input and its total is that key's sum. */
  lemma GroupAt<T, K>(s: seq<T>, key: T -> K, amount: T -> real, i: nat)
    requires i < |GroupSums(s, key, amount)|
    ensures var g := GroupSums(s, key, amount);
      g[i].total == SumByKey(s, key, g[i].key, amount) && KeyOccurs(s, key, g[i].key)
  {
    GroupTotals(s, key, amount);
    GroupKeyOccurs(s, key, amount, i);
  }

  /** A key that occurs has a group, carrying that key's total. */
  lemma GroupOf<T, K>(s: seq<T>, key: T -> K, amount: T -> real, k: K)
    requires KeyOccurs(s, key, k)
    ensures Group(k, SumByKey(s, key, k, amount)) in GroupSums(s, key, amount)
  {
    var g := GroupSums(s, key, amount);
    KeysGrouped(s, key, amount);
    var j :| 0 <= j < |s| && key(s[j]) == k;
    assert HasGroup(g, key(s[j]));
    var a :| 0 <= a < |g| && g[a].key == k;
    GroupTotals(s, key, amount);
    assert g[a] == Group(k, SumByKey(s, key, k, amount));
  }

  /** The total a group carries. */
  function GroupTotal<K>(g: Group<K>): real { g.total }

  /** Replacing one element changes the sum by the difference. */
  lemma {:induction false} SumUpdate<T>(s: seq<T>, i: nat, v: T, f: T -> real)
    requires i < |s|
    ensures Sum(s[i := v], f) == Sum(s, f) - f(s[i]) + f(v)
  {
    var n := |s| - 1;
    var s' := s[i := v];
    if i == n {
      assert s'[..n] == s[..n];
    } else {
      assert s'[..n] == s[..n][i := v];
      SumUpdate(s[..n], i, v, f);
    }
  }

  /** Grouping loses no amount: the group totals add up to the sum over the input. */
  lemma {:induction false} GroupSumsTotal<T, K>(s: seq<T>, key: T -> K, amount: T -> real)
    ensures Sum(GroupSums(s, key, amount), GroupTotal) == Sum(s, amount)
  {
    if |s| > 0 {
      var s', x := s[..|s| - 1], s[|s| - 1];
      var g' := GroupSums(s', key, amount);
      var g := GroupSums(s, key, amount);
      var k, a := key(x), amount(x);
      assert g == AddTo(g', k, a);
      GroupSumsTotal(s', key, amount);
      if |g| == |g'| {
        var i :| 0 <= i < |g'| && g'[i].key == k;
        assert g == g'[i := Group(k, g'[i].total + a)] by {
          forall j | 0 <= j < |g| ensures g[j] == g'[i := Group(k, g'[i].total + a)][j] {
            assert j != i ==> g'[j].key != k;
          }
        }
        SumUpdate(g', i, Group(k, g'[i].total + a), GroupTotal);
      } else {
        assert forall i :: 0 <= i < |g'| ==> g'[i].key != k;
        assert g == g' + [Group(k, a)];
        assert g[..|g'|] == g';
      }
    }
  }
}
