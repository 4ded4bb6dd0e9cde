/** Sequence vocabulary shared by the models: what JavaScript's `filter`, `map`, stable `sort`
    and insertion-ordered `Map` do, with the facts that pin each of them down.

    The folds peel the last element, so a loop that has processed `xs[..i]` holds `F(xs[..i])`. */
module Collections {

  datatype Option<+T> = None | Some(value: T)

  // ----- filter and map -----

  function Select<T>(xs: seq<T>, keep: T -> bool): (r: seq<T>)
    ensures |r| <= |xs|
  {
    if xs == [] then []
    else
      var rest := Select(xs[..|xs| - 1], keep);
      if keep(xs[|xs| - 1]) then rest + [xs[|xs| - 1]] else rest
  }

  function MapSeq<T, U>(f: T -> U, xs: seq<T>): (r: seq<U>)
    ensures |r| == |xs| && forall i :: 0 <= i < |xs| ==> r[i] == f(xs[i])
  {
    seq(|xs|, i requires 0 <= i < |xs| => f(xs[i]))
  }

  lemma SelectStep<T>(xs: seq<T>, x: T, keep: T -> bool)
    ensures Select(xs + [x], keep) == Select(xs, keep) + if keep(x) then [x] else []
  {
    assert (xs + [x])[..|xs|] == xs;
  }

  lemma {:induction false} SelectAppend<T>(xs: seq<T>, ys: seq<T>, keep: T -> bool)
    ensures Select(xs + ys, keep) == Select(xs, keep) + Select(ys, keep)
  {
    if ys == [] {
      assert xs + ys == xs;
    } else {
      var n := |ys| - 1;
      assert (xs + ys)[..|xs + ys| - 1] == xs + ys[..n];
      SelectAppend(xs, ys[..n], keep);
    }
  }

  lemma {:induction false} SelectMembers<T>(xs: seq<T>, keep: T -> bool)
    ensures forall x :: x in Select(xs, keep) <==> x in xs && keep(x)
  {
    if xs != [] {
      var n := |xs| - 1;
      SelectMembers(xs[..n], keep);
      assert xs == xs[..n] + [xs[n]];
    }
  }

  lemma {:induction false} SelectAll<T>(xs: seq<T>, keep: T -> bool)
    requires forall x :: x in xs ==> keep(x)
    ensures Select(xs, keep) == xs
  {
    if xs != [] {
      SelectAll(xs[..|xs| - 1], keep);
      assert xs == xs[..|xs| - 1] + [xs[|xs| - 1]];
    }
  }

  lemma {:induction false} SelectTwice<T>(xs: seq<T>, p: T -> bool, q: T -> bool, both: T -> bool)
    requires forall x :: x in xs ==> (both(x) <==> p(x) && q(x))
    ensures Select(Select(xs, p), q) == Select(xs, both)
  {
    if xs != [] {
      var n := |xs| - 1;
      SelectTwice(xs[..n], p, q, both);
      SelectStep(Select(xs[..n], p), xs[n], q);
    }
  }

  /** `sub` can be obtained from `xs` by deleting elements. */
  predicate Subsequence<T(==)>(sub: seq<T>, xs: seq<T>) {
    if sub == [] then true
    else if xs == [] then false
    else
      (sub[|sub| - 1] == xs[|xs| - 1] && Subsequence(sub[..|sub| - 1], xs[..|xs| - 1]))
      || Subsequence(sub, xs[..|xs| - 1])
  }

  lemma {:induction false} SelectIsSubsequence<T>(xs: seq<T>, keep: T -> bool)
    ensures Subsequence(Select(xs, keep), xs)
  {
    if xs != [] {
      var n := |xs| - 1;
      SelectIsSubsequence(xs[..n], keep);
      var r := Select(xs, keep);
      if keep(xs[n]) {
        assert r[..|r| - 1] == Select(xs[..n], keep);
      }
    }
  }

  ghost predicate Distinct<T>(xs: seq<T>) {
    forall i, j :: 0 <= i < j < |xs| ==> xs[i] != xs[j]
  }

  // ----- stable sort -----

  /** Put `x`, which stood in front of all of `ys`, in its place: before the first key not below its own. */
  function Insert<T>(x: T, ys: seq<T>, key: T -> real): seq<T> {
    if ys == [] || key(x) <= key(ys[0]) then [x] + ys else [ys[0]] + Insert(x, ys[1..], key)
  }

  /** The stable ascending sort JavaScript's `Array.prototype.sort` is specified to be. */
  function StableSort<T>(xs: seq<T>, key: T -> real): seq<T> {
    if xs == [] then [] else Insert(xs[0], StableSort(xs[1..], key), key)
  }

  ghost predicate Ascending<T>(xs: seq<T>, key: T -> real) {
    forall i, j :: 0 <= i < j < |xs| ==> key(xs[i]) <= key(xs[j])
  }

  ghost predicate StrictlyAscending<T>(xs: seq<T>, key: T -> real) {
    forall i, j :: 0 <= i < j < |xs| ==> key(xs[i]) < key(xs[j])
  }

  lemma {:induction false} InsertMultiset<T>(x: T, ys: seq<T>, key: T -> real)
    ensures multiset(Insert(x, ys, key)) == multiset([x]) + multiset(ys)
  {
    if ys != [] {
      assert ys == [ys[0]] + ys[1..];
      InsertMultiset(x, ys[1..], key);
    }
  }

  lemma {:induction false} InsertAscending<T>(x: T, ys: seq<T>, key: T -> real)
    requires Ascending(ys, key)
    ensures Ascending(Insert(x, ys, key), key)
  {
    if ys != [] && key(x) > key(ys[0]) {
      InsertAscending(x, ys[1..], key);
      InsertMultiset(x, ys[1..], key);
      var r := Insert(x, ys[1..], key);
      forall i | 0 <= i < |r| ensures key(ys[0]) <= key(r[i]) {
        assert r[i] in multiset(r);
        assert r[i] == x || r[i] in ys[1..];
      }
    }
  }

  lemma {:induction false} SortFacts<T>(xs: seq<T>, key: T -> real)
    ensures Ascending(StableSort(xs, key), key)
    ensures multiset(StableSort(xs, key)) == multiset(xs)
    ensures |StableSort(xs, key)| == |xs|
  {
    if xs != [] {
      SortFacts(xs[1..], key);
      InsertMultiset(xs[0], StableSort(xs[1..], key), key);
      InsertAscending(xs[0], StableSort(xs[1..], key), key);
      assert xs == [xs[0]] + xs[1..];
    }
    assert |multiset(StableSort(xs, key))| == |multiset(xs)|;
  }

  /** The values of `tag` along `xs` are pairwise different. */
  ghost predicate DistinctBy<T, K>(xs: seq<T>, tag: T -> K) {
    forall i, j :: 0 <= i < j < |xs| ==> tag(xs[i]) != tag(xs[j])
  }

  lemma DistinctAppend<T, K>(xs: seq<T>, x: T, tag: T -> K)
    ensures DistinctBy(xs + [x], tag) <==> DistinctBy(xs, tag) && forall y :: y in xs ==> tag(y) != tag(x)
  {
    var all := xs + [x];
    assert forall i :: 0 <= i < |xs| ==> all[i] == xs[i] && xs[i] in xs;
    if DistinctBy(all, tag) {
      forall y | y in xs ensures tag(y) != tag(x) {
        var i :| 0 <= i < |xs| && xs[i] == y;
        assert tag(all[i]) != tag(all[|xs|]);
      }
      forall i, j | 0 <= i < j < |xs| ensures tag(xs[i]) != tag(xs[j]) {
        assert tag(all[i]) != tag(all[j]);
      }
    }
  }

  lemma OnePerTag<T, K>(xs: seq<T>, tag: T -> K, a: T, b: T)
    requires DistinctBy(xs, tag) && a in xs && b in xs && tag(a) == tag(b)
    ensures a == b
  {
    var i :| 0 <= i < |xs| && xs[i] == a;
    var j :| 0 <= j < |xs| && xs[j] == b;
    assert tag(xs[i]) == tag(xs[j]);
  }

  /** The first element with the tag `k`. */
  function FindBy<T, K(==)>(xs: seq<T>, tag: T -> K, k: K): Option<T> {
    if xs == [] then None
    else if tag(xs[0]) == k then Some(xs[0])
    else FindBy(xs[1..], tag, k)
  }

  lemma {:induction false} FindByFacts<T, K>(xs: seq<T>, tag: T -> K, k: K)
    ensures FindBy(xs, tag, k).Some? ==> FindBy(xs, tag, k).value in xs && tag(FindBy(xs, tag, k).value) == k
    ensures FindBy(xs, tag, k).None? <==> forall x :: x in xs ==> tag(x) != k
  {
    if xs != [] {
      FindByFacts(xs[1..], tag, k);
      assert xs == [xs[0]] + xs[1..];
    }
  }

  /** `x` is the first element for which this holds. */
  ghost predicate FirstWith<T>(xs: seq<T>, holds: T -> bool, x: T) {
    exists i :: 0 <= i < |xs| && xs[i] == x && holds(x) && forall j :: 0 <= j < i ==> !holds(xs[j])
  }

  lemma FirstLater<T>(xs: seq<T>, holds: T -> bool)
    requires xs != [] && !holds(xs[0])
    ensures forall x :: FirstWith(xs, holds, x) <==> FirstWith(xs[1..], holds, x)
  {
    forall x ensures FirstWith(xs, holds, x) <==> FirstWith(xs[1..], holds, x) {
      if FirstWith(xs, holds, x) {
        var i :| 0 <= i < |xs| && xs[i] == x && holds(x) && forall j :: 0 <= j < i ==> !holds(xs[j]);
        assert xs[1..][i - 1] == x && forall j :: 0 <= j < i - 1 ==> !holds(xs[1..][j]);
      }
      if FirstWith(xs[1..], holds, x) {
        var i :| 0 <= i < |xs[1..]| && xs[1..][i] == x && forall j :: 0 <= j < i ==> !holds(xs[1..][j]);
        assert xs[i + 1] == x;
        forall j | 0 <= j < i + 1 ensures !holds(xs[j]) {
          if j > 0 { assert xs[1..][j - 1] == xs[j]; }
        }
      }
    }
  }

  lemma {:induction false} FindByFirst<T, K>(xs: seq<T>, tag: T -> K, k: K, holds: T -> bool)
    requires forall x :: holds(x) <==> tag(x) == k
    ensures FindBy(xs, tag, k).Some? ==> FirstWith(xs, holds, FindBy(xs, tag, k).value)
    ensures forall x :: FirstWith(xs, holds, x) ==> FindBy(xs, tag, k) == Some(x)
  {
    if xs != [] && tag(xs[0]) != k {
      FindByFirst(xs[1..], tag, k, holds);
      FirstLater(xs, holds);
    }
  }

  lemma DistinctCons<T, K>(x: T, ys: seq<T>, tag: T -> K)
    ensures DistinctBy([x] + ys, tag) <==> DistinctBy(ys, tag) && forall y :: y in ys ==> tag(y) != tag(x)
  {
    var xs := [x] + ys;
    assert forall i :: 0 <= i < |ys| ==> xs[i + 1] == ys[i];
    if DistinctBy(xs, tag) {
      forall i, j | 0 <= i < j < |ys| ensures tag(ys[i]) != tag(ys[j]) {
        assert tag(xs[i + 1]) != tag(xs[j + 1]);
      }
      forall y | y in ys ensures tag(y) != tag(x) {
        var i :| 0 <= i < |ys| && ys[i] == y;
        assert tag(xs[0]) != tag(xs[i + 1]);
      }
    }
  }

  lemma {:induction false} InsertDistinct<T, K>(x: T, ys: seq<T>, key: T -> real, tag: T -> K)
    requires DistinctBy(ys, tag)
    requires forall y :: y in ys ==> tag(y) != tag(x)
    ensures DistinctBy(Insert(x, ys, key), tag)
  {
    DistinctCons(x, ys, tag);
    if ys != [] && key(x) > key(ys[0]) {
      assert ys == [ys[0]] + ys[1..];
      DistinctCons(ys[0], ys[1..], tag);
      InsertDistinct(x, ys[1..], key, tag);
      var rest := Insert(x, ys[1..], key);
      InsertMultiset(x, ys[1..], key);
      forall y | y in rest ensures tag(y) != tag(ys[0]) {
        assert y in multiset(rest);
        assert y == x || y in ys[1..];
        assert ys[0] in ys;
      }
      DistinctCons(ys[0], rest, tag);
    }
  }

  lemma {:induction false} SortDistinct<T, K>(xs: seq<T>, key: T -> real, tag: T -> K)
    requires DistinctBy(xs, tag)
    ensures DistinctBy(StableSort(xs, key), tag)
  {
    if xs != [] {
      assert xs == [xs[0]] + xs[1..];
      DistinctCons(xs[0], xs[1..], tag);
      SortDistinct(xs[1..], key, tag);
      var rest := StableSort(xs[1..], key);
      SortFacts(xs[1..], key);
      forall y | y in rest ensures tag(y) != tag(xs[0]) {
        assert y in multiset(rest);
        assert y in xs[1..];
      }
      InsertDistinct(xs[0], rest, key, tag);
    }
  }

  /** Elements with pairwise different keys sort into a strictly ascending list. */
  lemma SortStrict<T>(xs: seq<T>, key: T -> real)
    requires DistinctBy(xs, key)
    ensures StrictlyAscending(StableSort(xs, key), key)
  {
    SortFacts(xs, key);
    SortDistinct(xs, key, key);
  }

  /** The elements with one key, in order: what a stable sort may not disturb. */
  function WithKey<T>(xs: seq<T>, key: T -> real, k: real): seq<T> {
    if xs == [] then []
    else (if key(xs[0]) == k then [xs[0]] else []) + WithKey(xs[1..], key, k)
  }

  lemma WithKeyCons<T>(x: T, ys: seq<T>, key: T -> real, k: real)
    ensures WithKey([x] + ys, key, k) == (if key(x) == k then [x] else []) + WithKey(ys, key, k)
  {
    assert ([x] + ys)[1..] == ys;
  }

  lemma {:induction false} InsertStable<T>(x: T, ys: seq<T>, key: T -> real, k: real)
    ensures WithKey(Insert(x, ys, key), key, k) == (if key(x) == k then [x] else []) + WithKey(ys, key, k)
  {
    if ys == [] || key(x) <= key(ys[0]) {
      WithKeyCons(x, ys, key, k);
    } else {
      InsertStable(x, ys[1..], key, k);
      WithKeyCons(ys[0], Insert(x, ys[1..], key), key, k);
    }
  }

  lemma {:induction false} SortStable<T>(xs: seq<T>, key: T -> real, k: real)
    ensures WithKey(StableSort(xs, key), key, k) == WithKey(xs, key, k)
  {
    if xs != [] {
      SortStable(xs[1..], key, k);
      InsertStable(xs[0], StableSort(xs[1..], key), key, k);
    }
  }

  lemma {:induction false} WithKeyMembers<T>(xs: seq<T>, key: T -> real, k: real)
    ensures forall x :: x in WithKey(xs, key, k) <==> x in xs && key(x) == k
  {
    if xs != [] {
      WithKeyMembers(xs[1..], key, k);
      assert xs == [xs[0]] + xs[1..];
    }
  }

  /** `b` holds, for every key, the same elements as `a` in the same order. */
  ghost predicate SameByKey<T>(a: seq<T>, b: seq<T>, key: T -> real) {
    forall k: real :: WithKey(a, key, k) == WithKey(b, key, k)
  }

  /** Ordered and stable leaves no freedom: any correct stable sort returns `StableSort`'s answer. */
  lemma {:induction false} StableSortUnique<T>(xs: seq<T>, ys: seq<T>, key: T -> real)
    requires Ascending(ys, key)
    requires SameByKey(ys, xs, key)
    ensures ys == StableSort(xs, key)
  {
    SortFacts(xs, key);
    forall k: real ensures WithKey(ys, key, k) == WithKey(StableSort(xs, key), key, k) {
      SortStable(xs, key, k);
    }
    AscendingUnique(ys, StableSort(xs, key), key);
  }

  lemma HeadShared<T>(a: seq<T>, b: seq<T>, key: T -> real)
    requires a != [] && SameByKey(a, b, key)
    ensures a[0] in b
    ensures WithKey(b, key, key(a[0]))[..1] == [a[0]]
  {
    WithKeyMembers(b, key, key(a[0]));
    assert WithKey(a, key, key(a[0])) == WithKey(b, key, key(a[0]));
  }

  lemma TailsShared<T>(a: seq<T>, b: seq<T>, key: T -> real)
    requires a != [] && b != [] && a[0] == b[0] && SameByKey(a, b, key)
    ensures SameByKey(a[1..], b[1..], key)
  {
    forall k: real ensures WithKey(a[1..], key, k) == WithKey(b[1..], key, k) {
      var skip := if key(a[0]) == k then 1 else 0;
      assert WithKey(a, key, k)[skip..] == WithKey(a[1..], key, k);
      assert WithKey(b, key, k)[skip..] == WithKey(b[1..], key, k);
    }
  }

  lemma {:induction false} AscendingUnique<T>(a: seq<T>, b: seq<T>, key: T -> real)
    requires Ascending(a, key) && Ascending(b, key) && SameByKey(a, b, key)
    ensures a == b
  {
    if b != [] { HeadShared(b, a, key); }
    if a != [] {
      HeadShared(a, b, key);
      assert key(a[0]) == key(b[0]);
      assert a[0] == WithKey(b, key, key(b[0]))[..1][0] == b[0];
      TailsShared(a, b, key);
      AscendingUnique(a[1..], b[1..], key);
      assert a == [a[0]] + a[1..] && b == [b[0]] + b[1..];
    }
  }

  /** Strictly ascending lists are determined by their members. */
  lemma {:induction false} StrictlyAscendingUnique<T>(a: seq<T>, b: seq<T>, key: T -> real)
    requires StrictlyAscending(a, key) && StrictlyAscending(b, key)
    requires forall x :: x in a <==> x in b
    ensures a == b
  {
    assert b != [] ==> b[0] in a;
    if a != [] {
      assert a[0] in b;
      assert a[0] == b[0];
      forall x ensures x in a[1..] <==> x in b[1..] {
        assert x in a[1..] ==> x in a && key(x) > key(a[0]);
        assert x in b[1..] ==> x in b && key(x) > key(b[0]);
      }
      StrictlyAscendingUnique(a[1..], b[1..], key);
    }
  }

  // ----- insertion-ordered Map of groups -----

  datatype Group<K, V> = Group(key: K, items: seq<V>)

  predicate HasKey<K(==), V>(groups: seq<Group<K, V>>, k: K) {
    exists i :: 0 <= i < |groups| && groups[i].key == k
  }

  function Pushed<K(==), V>(k: K, v: V): Group<K, V> -> Group<K, V> {
    (g: Group<K, V>) => if g.key == k then g.(items := g.items + [v]) else g
  }

  /** `map.get(k) ?? []`, push, `map.set(k, ...)`: an existing key keeps its place, a new one goes last. */
  function AddTo<K(==), V>(groups: seq<Group<K, V>>, k: K, v: V): seq<Group<K, V>> {
    if HasKey(groups, k) then MapSeq(Pushed(k, v), groups) else groups + [Group(k, [v])]
  }

  function GroupBy<K(==), V>(xs: seq<V>, key: V -> K): seq<Group<K, V>> {
    if xs == [] then []
    else AddTo(GroupBy(xs[..|xs| - 1], key), key(xs[|xs| - 1]), xs[|xs| - 1])
  }

  ghost predicate DistinctKeys<K, V>(groups: seq<Group<K, V>>) {
    forall i, j :: 0 <= i < j < |groups| ==> groups[i].key != groups[j].key
  }

  /** The elements of `xs` with key `k`, in order. */
  function Having<K(==), V>(xs: seq<V>, key: V -> K, k: K): seq<V> {
    if xs == [] then []
    else Having(xs[..|xs| - 1], key, k) + if key(xs[|xs| - 1]) == k then [xs[|xs| - 1]] else []
  }

  lemma {:induction false} HavingMembers<K, V>(xs: seq<V>, key: V -> K, k: K)
    ensures forall x :: x in Having(xs, key, k) <==> x in xs && key(x) == k
  {
    if xs != [] {
      var n := |xs| - 1;
      HavingMembers(xs[..n], key, k);
      assert xs == xs[..n] + [xs[n]];
    }
  }

  lemma {:induction false} HavingNone<K, V>(xs: seq<V>, key: V -> K, k: K)
    requires forall x :: x in xs ==> key(x) != k
    ensures Having(xs, key, k) == []
  {
    if xs != [] { HavingNone(xs[..|xs| - 1], key, k); }
  }

  /** Every group holds exactly the elements with its key, in order. */
  ghost predicate Holds<K, V>(groups: seq<Group<K, V>>, xs: seq<V>, key: V -> K) {
    forall i :: 0 <= i < |groups| ==> groups[i].items == Having(xs, key, groups[i].key) && groups[i].items != []
  }

  /** What grouping means: one group per key that occurs, holding exactly the elements with that key, in order. */
  ghost predicate IsGrouping<K, V>(groups: seq<Group<K, V>>, xs: seq<V>, key: V -> K) {
    && DistinctKeys(groups)
    && Holds(groups, xs, key)
    && (forall x :: x in xs ==> HasKey(groups, key(x)))
  }

  lemma AddToKeys<K, V>(groups: seq<Group<K, V>>, k: K, v: V)
    requires DistinctKeys(groups)
    ensures DistinctKeys(AddTo(groups, k, v))
    ensures forall j :: HasKey(AddTo(groups, k, v), j) <==> HasKey(groups, j) || j == k
  {
    var after := AddTo(groups, k, v);
    assert forall i :: 0 <= i < |groups| ==> after[i].key == groups[i].key;
    forall j ensures HasKey(after, j) <==> HasKey(groups, j) || j == k {
      if HasKey(groups, j) {
        var i :| 0 <= i < |groups| && groups[i].key == j;
        assert after[i].key == j;
      } else if j == k {
        assert after[|groups|].key == j;
      }
    }
  }

  lemma HavingStep<K, V>(xs: seq<V>, x: V, key: V -> K, k: K)
    ensures Having(xs + [x], key, k) == Having(xs, key, k) + if key(x) == k then [x] else []
  {
    assert (xs + [x])[..|xs|] == xs;
  }

  lemma AddToHolds<K, V>(groups: seq<Group<K, V>>, xs: seq<V>, x: V, key: V -> K)
    requires Holds(groups, xs, key)
    requires forall y :: y in xs ==> HasKey(groups, key(y))
    ensures Holds(AddTo(groups, key(x), x), xs + [x], key)
  {
    var after := AddTo(groups, key(x), x);
    if !HasKey(groups, key(x)) { HavingNone(xs, key, key(x)); }
    forall i | 0 <= i < |after|
      ensures after[i].items == Having(xs + [x], key, after[i].key) && after[i].items != []
    {
      HavingStep(xs, x, key, after[i].key);
      if i < |groups| { assert after[i].key == groups[i].key; }
    }
  }

  lemma {:induction false} GroupByIsGrouping<K, V>(xs: seq<V>, key: V -> K)
    ensures IsGrouping(GroupBy(xs, key), xs, key)
  {
    if xs != [] {
      var before, x := xs[..|xs| - 1], xs[|xs| - 1];
      assert xs == before + [x];
      GroupByIsGrouping(before, key);
      AddToKeys(GroupBy(before, key), key(x), x);
      AddToHolds(GroupBy(before, key), before, x, key);
      assert forall y :: y in xs ==> y in before || y == x;
      assert GroupBy(xs, key) == AddTo(GroupBy(before, key), key(x), x);
    }
  }

  /** All the elements, group after group. */
  function Flatten<K, V>(groups: seq<Group<K, V>>): seq<V> {
    if groups == [] then [] else Flatten(groups[..|groups| - 1]) + groups[|groups| - 1].items
  }

  lemma {:induction false} FlattenUntouched<K, V>(groups: seq<Group<K, V>>, k: K, v: V)
    requires !HasKey(groups, k)
    ensures MapSeq(Pushed(k, v), groups) == groups
  {}

  lemma {:induction false} FlattenPushed<K, V>(groups: seq<Group<K, V>>, k: K, v: V)
    requires DistinctKeys(groups) && HasKey(groups, k)
    ensures multiset(Flatten(MapSeq(Pushed(k, v), groups))) == multiset(Flatten(groups)) + multiset{v}
  {
    var n := |groups| - 1;
    var pushed := MapSeq(Pushed(k, v), groups);
    assert pushed[..n] == MapSeq(Pushed(k, v), groups[..n]);
    if groups[n].key == k {
      FlattenUntouched(groups[..n], k, v);
    } else {
      FlattenPushed(groups[..n], k, v);
    }
  }

  /** The groups hold the elements of `xs`, each as often as it occurs. */
  ghost predicate Partitions<K, V>(groups: seq<Group<K, V>>, xs: seq<V>) {
    multiset(Flatten(groups)) == multiset(xs)
  }

  lemma PartitionGrows<K, V>(groups: seq<Group<K, V>>, xs: seq<V>, k: K, v: V)
    requires DistinctKeys(groups) && Partitions(groups, xs)
    ensures Partitions(AddTo(groups, k, v), xs + [v])
  {
    if HasKey(groups, k) {
      FlattenPushed(groups, k, v);
    } else {
      var last := Group(k, [v]);
      assert (groups + [last])[..|groups|] == groups;
      assert Flatten(groups + [last]) == Flatten(groups) + [v];
    }
  }

  /** Grouping loses and repeats nothing. */
  lemma {:induction false} GroupByPartitions<K, V>(xs: seq<V>, key: V -> K)
    ensures Partitions(GroupBy(xs, key), xs)
  {
    if xs != [] {
      var before, x := xs[..|xs| - 1], xs[|xs| - 1];
      assert xs == before + [x];
      GroupByPartitions(before, key);
      GroupByIsGrouping(before, key);
      PartitionGrows(GroupBy(before, key), before, key(x), x);
      assert GroupBy(xs, key) == AddTo(GroupBy(before, key), key(x), x);
    }
  }

  lemma GroupByKeysDiffer<K, V>(xs: seq<V>, key: V -> K)
    ensures DistinctKeys(GroupBy(xs, key))
  {
    GroupByIsGrouping(xs, key);
  }

  lemma GroupByStep<K, V>(xs: seq<V>, x: V, key: V -> K)
    ensures GroupBy(xs + [x], key) == AddTo(GroupBy(xs, key), key(x), x)
  {
    assert (xs + [x])[..|xs|] == xs;
  }

  lemma {:induction false} HavingCounts<K, V>(xs: seq<V>, key: V -> K, k: K, x: V)
    ensures multiset(Having(xs, key, k))[x] == if key(x) == k then multiset(xs)[x] else 0
  {
    if xs != [] {
      var n := |xs| - 1;
      HavingCounts(xs[..n], key, k, x);
      assert xs == xs[..n] + [xs[n]];
    }
  }

  lemma HasKeyStep<K, V>(groups: seq<Group<K, V>>, last: Group<K, V>, k: K)
    ensures HasKey(groups + [last], k) <==> HasKey(groups, k) || last.key == k
  {
    var all := groups + [last];
    if HasKey(groups, k) {
      var i :| 0 <= i < |groups| && groups[i].key == k;
      assert all[i].key == k;
    } else if last.key == k {
      assert all[|groups|].key == k;
    }
  }

  lemma FlattenStep<K, V>(groups: seq<Group<K, V>>, last: Group<K, V>)
    ensures multiset(Flatten(groups + [last])) == multiset(Flatten(groups)) + multiset(last.items)
  {
    assert (groups + [last])[..|groups|] == groups;
  }

  lemma LastDiffers<K, V>(groups: seq<Group<K, V>>, last: Group<K, V>)
    requires DistinctKeys(groups + [last])
    ensures DistinctKeys(groups) && !HasKey(groups, last.key)
  {
    var all := groups + [last];
    forall i | 0 <= i < |groups| ensures groups[i].key != last.key {
      assert all[i].key != all[|groups|].key;
    }
    forall i, j | 0 <= i < j < |groups| ensures groups[i].key != groups[j].key {
      assert all[i].key != all[j].key;
    }
  }

  /** Groups that hold what they should hold everything with their keys, once, and nothing else. */
  lemma {:induction false} FlattenCounts<K, V>(groups: seq<Group<K, V>>, xs: seq<V>, key: V -> K, x: V)
    requires DistinctKeys(groups) && Holds(groups, xs, key)
    ensures multiset(Flatten(groups))[x] == if HasKey(groups, key(x)) then multiset(xs)[x] else 0
  {
    if groups != [] {
      var before, last := groups[..|groups| - 1], groups[|groups| - 1];
      assert groups == before + [last];
      LastDiffers(before, last);
      FlattenCounts(before, xs, key, x);
      FlattenStep(before, last);
      HavingCounts(xs, key, last.key, x);
      HasKeyStep(before, last, key(x));
    }
  }
}
