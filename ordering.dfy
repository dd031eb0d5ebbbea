/**
 * Python's sorted(xs, key=...) on tuple keys, and the grouping of a list
 * into a defaultdict(list) whose items come out in first-insertion order.
 */
module Ordering {

  /** One component of a sort key: an int or a str. */
  datatype KeyPart = Num(n: int) | Str(s: string)

  /** Python's a <= b on str: code-point order, a proper prefix first. */
  predicate StrLe(a: string, b: string)
    decreases |a|
  {
    a == [] || (b != [] && (a[0] < b[0] || (a[0] == b[0] && StrLe(a[1..], b[1..]))))
  }

  /** a <= b on one key component (inside the keys used here, ints meet ints and strs meet strs). */
  predicate PartLe(a: KeyPart, b: KeyPart) {
    if a.Num? && b.Num? then a.n <= b.n
    else if a.Str? && b.Str? then StrLe(a.s, b.s)
    else a.Num?
  }

  /** Python's tuple a <= b: decided at the first component where the two differ. */
  predicate KeyLe(a: seq<KeyPart>, b: seq<KeyPart>)
    decreases |a|
  {
    a == [] || (b != [] && (if a[0] == b[0] then KeyLe(a[1..], b[1..]) else PartLe(a[0], b[0])))
  }

  lemma {:induction false} StrLeReflexive(a: string)
    ensures StrLe(a, a)
    decreases |a|
  {
    if a != [] {
      StrLeReflexive(a[1..]);
    }
  }

  lemma {:induction false} StrLeTotal(a: string, b: string)
    ensures StrLe(a, b) || StrLe(b, a)
    decreases |a|
  {
    if a != [] && b != [] && a[0] == b[0] {
      StrLeTotal(a[1..], b[1..]);
    }
  }

  lemma {:induction false} StrLeAntisymmetric(a: string, b: string)
    requires StrLe(a, b) && StrLe(b, a)
    ensures a == b
    decreases |a|
  {
    if a != [] {
      StrLeAntisymmetric(a[1..], b[1..]);
      assert a == [a[0]] + a[1..] && b == [b[0]] + b[1..];
    }
  }

  lemma {:induction false} StrLeTransitive(a: string, b: string, c: string)
    requires StrLe(a, b) && StrLe(b, c)
    ensures StrLe(a, c)
    decreases |a|
  {
    if a != [] && a[0] == b[0] && b[0] == c[0] {
      StrLeTransitive(a[1..], b[1..], c[1..]);
    }
  }

  lemma {:induction false} PartLeTotal(a: KeyPart, b: KeyPart)
    ensures PartLe(a, b) || PartLe(b, a)
  {
    if a.Str? && b.Str? {
      StrLeTotal(a.s, b.s);
    }
  }

  lemma {:induction false} PartLeAntisymmetric(a: KeyPart, b: KeyPart)
    requires PartLe(a, b) && PartLe(b, a)
    ensures a == b
  {
    if a.Str? && b.Str? {
      StrLeAntisymmetric(a.s, b.s);
    }
  }

  lemma {:induction false} PartLeTransitive(a: KeyPart, b: KeyPart, c: KeyPart)
    requires PartLe(a, b) && PartLe(b, c)
    ensures PartLe(a, c)
  {
    if a.Str? && b.Str? && c.Str? {
      StrLeTransitive(a.s, b.s, c.s);
    }
  }

  lemma {:induction false} KeyLeReflexive(a: seq<KeyPart>)
    ensures KeyLe(a, a)
    decreases |a|
  {
    if a != [] {
      KeyLeReflexive(a[1..]);
    }
  }

  lemma {:induction false} KeyLeTotal(a: seq<KeyPart>, b: seq<KeyPart>)
    ensures KeyLe(a, b) || KeyLe(b, a)
    decreases |a|
  {
    if a != [] && b != [] {
      if a[0] == b[0] {
        KeyLeTotal(a[1..], b[1..]);
      } else {
        PartLeTotal(a[0], b[0]);
      }
    }
  }

  lemma {:induction false} KeyLeTransitive(a: seq<KeyPart>, b: seq<KeyPart>, c: seq<KeyPart>)
    requires KeyLe(a, b) && KeyLe(b, c)
    ensures KeyLe(a, c)
    decreases |a|
  {
    if a != [] {
      if a[0] == b[0] && b[0] == c[0] {
        KeyLeTransitive(a[1..], b[1..], c[1..]);
      } else if a[0] == b[0] {
        assert PartLe(b[0], c[0]);
      } else if b[0] == c[0] {
        assert PartLe(a[0], b[0]);
      } else {
        PartLeTransitive(a[0], b[0], c[0]);
        if a[0] == c[0] {
          PartLeAntisymmetric(a[0], b[0]);
        }
      }
    }
  }

  // ---------------- Stable sorting ----------------

  ghost predicate SortedBy<T>(xs: seq<T>, key: T -> seq<KeyPart>) {
    forall i, j :: 0 <= i < j < |xs| ==> KeyLe(key(xs[i]), key(xs[j]))
  }

  /** Places x before the first element whose key is not below x's. */
  function Insert<T>(x: T, ys: seq<T>, key: T -> seq<KeyPart>): seq<T> {
    if ys == [] then [x]
    else if KeyLe(key(x), key(ys[0])) then [x] + ys
    else
      assert ys == [ys[0]] + ys[1..];
      [ys[0]] + Insert(x, ys[1..], key)
  }

  /**
   * sorted(xs, key=key): a stable insertion sort. An element moves in front
   * of a later one only when its key is strictly smaller.
   */
  function SortBy<T>(xs: seq<T>, key: T -> seq<KeyPart>): seq<T> {
    if xs == [] then [] else Insert(xs[0], SortBy(xs[1..], key), key)
  }

  lemma {:induction false} InsertPermutes<T>(x: T, ys: seq<T>, key: T -> seq<KeyPart>)
    ensures multiset(Insert(x, ys, key)) == multiset(ys) + multiset{x}
  {
    if ys != [] && !KeyLe(key(x), key(ys[0])) {
      InsertPermutes(x, ys[1..], key);
      assert ys == [ys[0]] + ys[1..];
    }
  }

  /** The output of sorted() holds the input's elements, each as often. */
  lemma {:induction false} SortByPermutes<T>(xs: seq<T>, key: T -> seq<KeyPart>)
    ensures multiset(SortBy(xs, key)) == multiset(xs)
  {
    if xs != [] {
      SortByPermutes(xs[1..], key);
      InsertPermutes(xs[0], SortBy(xs[1..], key), key);
      assert xs == [xs[0]] + xs[1..];
    }
  }

  /** A sorted sequence stays sorted under a head whose key is at most every key in it. */
  lemma {:induction false} SortedCons<T>(h: T, t: seq<T>, key: T -> seq<KeyPart>)
    requires SortedBy(t, key)
    requires forall z | z in t :: KeyLe(key(h), key(z))
    ensures SortedBy([h] + t, key)
  {
    var r := [h] + t;
    forall i, j | 0 <= i < j < |r|
      ensures KeyLe(key(r[i]), key(r[j]))
    {
      if i == 0 {
        assert r[j] == t[j - 1];
        assert r[j] in t;
      } else {
        assert r[i] == t[i - 1] && r[j] == t[j - 1];
      }
    }
  }

  /** Inserting past the head of a sorted sequence keeps every key at least the head's. */
  lemma {:induction false} InsertAboveHead<T>(x: T, ys: seq<T>, key: T -> seq<KeyPart>)
    requires ys != [] && SortedBy(ys, key) && KeyLe(key(ys[0]), key(x))
    ensures forall z | z in Insert(x, ys[1..], key) :: KeyLe(key(ys[0]), key(z))
  {
    var tail := Insert(x, ys[1..], key);
    InsertPermutes(x, ys[1..], key);
    forall z | z in tail
      ensures KeyLe(key(ys[0]), key(z))
    {
      assert z in multiset(tail);
      if z != x {
        assert z in multiset(ys[1..]);
        var j :| 0 <= j < |ys[1..]| && ys[1..][j] == z;
        assert ys[j + 1] == z;
      }
    }
  }

  lemma {:induction false} InsertSorted<T>(x: T, ys: seq<T>, key: T -> seq<KeyPart>)
    requires SortedBy(ys, key)
    ensures SortedBy(Insert(x, ys, key), key)
  {
    if ys == [] {
    } else if KeyLe(key(x), key(ys[0])) {
      forall j | 0 <= j < |ys|
        ensures KeyLe(key(x), key(ys[j]))
      {
        if j > 0 {
          KeyLeTransitive(key(x), key(ys[0]), key(ys[j]));
        }
      }
    } else {
      InsertSorted(x, ys[1..], key);
      KeyLeTotal(key(x), key(ys[0]));
      InsertAboveHead(x, ys, key);
      SortedCons(ys[0], Insert(x, ys[1..], key), key);
    }
  }

  /** The output of sorted() is nondecreasing in the key. */
  lemma {:induction false} SortBySorted<T>(xs: seq<T>, key: T -> seq<KeyPart>)
    ensures SortedBy(SortBy(xs, key), key)
  {
    if xs != [] {
      SortBySorted(xs[1..], key);
      InsertSorted(xs[0], SortBy(xs[1..], key), key);
    }
  }

  // ---------------- Filtering and grouping ----------------

  /** [x for x in xs if key(x) == k]: the elements with key k, in input order. */
  function FilterKey<T, K(==)>(xs: seq<T>, key: T -> K, k: K): (r: seq<T>)
    ensures |r| <= |xs|
    ensures forall i :: 0 <= i < |r| ==> key(r[i]) == k
  {
    if xs == [] then [] else (if key(xs[0]) == k then [xs[0]] else []) + FilterKey(xs[1..], key, k)
  }

  lemma {:induction false} FilterKeyCons<T, K>(x: T, xs: seq<T>, key: T -> K, k: K)
    ensures FilterKey([x] + xs, key, k) == (if key(x) == k then [x] else []) + FilterKey(xs, key, k)
  {
    assert ([x] + xs)[1..] == xs;
  }

  /** A group holds only elements of the input, each at most as often as there. */
  lemma {:induction false} FilterKeySubMultiset<T, K>(xs: seq<T>, key: T -> K, k: K)
    ensures multiset(FilterKey(xs, key, k)) <= multiset(xs)
  {
    if xs != [] {
      FilterKeySubMultiset(xs[1..], key, k);
      assert xs == [xs[0]] + xs[1..];
    }
  }

  /** An element whose key is k keeps in the group exactly as many occurrences as in the input. */
  lemma {:induction false} FilterKeyCount<T, K>(xs: seq<T>, key: T -> K, x: T)
    ensures multiset(FilterKey(xs, key, key(x)))[x] == multiset(xs)[x]
  {
    if xs != [] {
      FilterKeyCount(xs[1..], key, x);
      MultisetCons(xs[0], xs[1..]);
      assert xs == [xs[0]] + xs[1..];
    }
  }

  lemma {:induction false} FilterKeyNone<T, K>(xs: seq<T>, key: T -> K, k: K)
    requires forall i :: 0 <= i < |xs| ==> key(xs[i]) != k
    ensures FilterKey(xs, key, k) == []
  {
    if xs != [] {
      FilterKeyNone(xs[1..], key, k);
    }
  }

  /** An element with key k is in the group of k. */
  lemma {:induction false} FilterKeyHas<T, K>(xs: seq<T>, key: T -> K, n: nat)
    requires n < |xs|
    ensures xs[n] in FilterKey(xs, key, key(xs[n]))
  {
    if n > 0 {
      FilterKeyHas(xs[1..], key, n - 1);
      FilterKeyCons(xs[0], xs[1..], key, key(xs[n]));
      assert xs == [xs[0]] + xs[1..];
    }
  }

  lemma {:induction false} FilterKeyAppend<T, K>(xs: seq<T>, x: T, key: T -> K, k: K)
    ensures FilterKey(xs + [x], key, k) == FilterKey(xs, key, k) + (if key(x) == k then [x] else [])
  {
    if xs == [] {
      assert [] + [x] == [x] + [];
      FilterKeyCons(x, [], key, k);
    } else {
      assert xs + [x] == [xs[0]] + (xs[1..] + [x]);
      FilterKeyCons(xs[0], xs[1..] + [x], key, k);
      FilterKeyAppend(xs[1..], x, key, k);
      assert xs == [xs[0]] + xs[1..];
      FilterKeyCons(xs[0], xs[1..], key, k);
    }
  }

  lemma {:induction false} FilterKeyConcat<T, K>(a: seq<T>, b: seq<T>, key: T -> K, k: K)
    ensures FilterKey(a + b, key, k) == FilterKey(a, key, k) + FilterKey(b, key, k)
  {
    if a == [] {
      assert a + b == b;
    } else {
      assert a + b == [a[0]] + (a[1..] + b);
      FilterKeyCons(a[0], a[1..] + b, key, k);
      FilterKeyConcat(a[1..], b, key, k);
      assert a == [a[0]] + a[1..];
      FilterKeyCons(a[0], a[1..], key, k);
    }
  }

  lemma {:induction false} InsertFilter<T>(x: T, ys: seq<T>, key: T -> seq<KeyPart>, k: seq<KeyPart>)
    ensures FilterKey(Insert(x, ys, key), key, k)
         == (if key(x) == k then [x] else []) + FilterKey(ys, key, k)
  {
    if ys == [] {
      FilterKeyCons(x, ys, key, k);
    } else if KeyLe(key(x), key(ys[0])) {
      FilterKeyCons(x, ys, key, k);
    } else {
      var y, tail := ys[0], ys[1..];
      KeyLeReflexive(key(x));
      assert key(y) != key(x);
      var itail := Insert(x, tail, key);
      assert Insert(x, ys, key) == [y] + itail;
      FilterKeyCons(y, itail, key, k);
      InsertFilter(x, tail, key, k);
      assert ys == [y] + tail;
      FilterKeyCons(y, tail, key, k);
      if key(x) == k {
        assert FilterKey(ys, key, k) == FilterKey(tail, key, k);
        assert FilterKey(Insert(x, ys, key), key, k) == FilterKey(itail, key, k);
      } else {
        assert FilterKey(itail, key, k) == FilterKey(tail, key, k);
      }
    }
  }

  /**
   * sorted() is stable: the elements with any one key come out in the order
   * they came in.
   */
  lemma {:induction false} SortByStable<T>(xs: seq<T>, key: T -> seq<KeyPart>, k: seq<KeyPart>)
    ensures FilterKey(SortBy(xs, key), key, k) == FilterKey(xs, key, k)
  {
    if xs != [] {
      SortByStable(xs[1..], key, k);
      InsertFilter(xs[0], SortBy(xs[1..], key), key, k);
    }
  }

  /** The position of the first element with key k, or |xs| when there is none. */
  function IndexOfKey<T, K(==)>(xs: seq<T>, key: T -> K, k: K): (n: nat)
    ensures n <= |xs|
    ensures n < |xs| ==> key(xs[n]) == k
    ensures forall i :: 0 <= i < n ==> key(xs[i]) != k
  {
    if xs == [] then 0
    else if key(xs[0]) == k then 0
    else 1 + IndexOfKey(xs[1..], key, k)
  }

  /**
   * The keys of a defaultdict filled from xs in order: each distinct key
   * once, in the order of its first appearance.
   */
  function FirstAppearance<T, K(==)>(xs: seq<T>, key: T -> K): (ks: seq<K>)
    ensures forall k :: k in ks ==> exists i :: 0 <= i < |xs| && key(xs[i]) == k
  {
    if xs == [] then []
    else
      var init := xs[..|xs| - 1];
      var last := xs[|xs| - 1];
      var ks := FirstAppearance(init, key);
      assert forall i :: 0 <= i < |init| ==> xs[i] == init[i];
      if key(last) in ks then ks else ks + [key(last)]
  }

  /** Each key of xs appears in FirstAppearance(xs, key), and exactly once. */
  lemma {:induction false} FirstAppearanceKeys<T, K>(xs: seq<T>, key: T -> K)
    ensures var ks := FirstAppearance(xs, key);
      && (forall i, j :: 0 <= i < j < |ks| ==> ks[i] != ks[j])
      && (forall i :: 0 <= i < |xs| ==> key(xs[i]) in ks)
  {
    if xs != [] {
      var init := xs[..|xs| - 1];
      FirstAppearanceKeys(init, key);
      assert forall i :: 0 <= i < |init| ==> xs[i] == init[i];
    }
  }

  ghost predicate InFirstAppearanceOrder<T, K>(xs: seq<T>, key: T -> K, ks: seq<K>) {
    forall i, j :: 0 <= i < j < |ks| ==> IndexOfKey(xs, key, ks[i]) < IndexOfKey(xs, key, ks[j])
  }

  /** The keys come in the order in which each first appears in the input. */
  lemma {:induction false} FirstAppearanceOrdered<T, K>(xs: seq<T>, key: T -> K)
    ensures InFirstAppearanceOrder(xs, key, FirstAppearance(xs, key))
  {
    if xs != [] {
      var init := xs[..|xs| - 1];
      var last := xs[|xs| - 1];
      assert xs == init + [last];
      FirstAppearanceOrdered(init, key);
      FirstAppearanceOrderedStep(init, last, key);
    }
  }

  lemma {:induction false} FirstAppearanceOrderedStep<T, K>(init: seq<T>, last: T, key: T -> K)
    requires InFirstAppearanceOrder(init, key, FirstAppearance(init, key))
    ensures InFirstAppearanceOrder(init + [last], key, FirstAppearance(init + [last], key))
  {
    var xs := init + [last];
    var ks0 := FirstAppearance(init, key);
    var ks := FirstAppearance(xs, key);
    assert xs[..|xs| - 1] == init;
    forall j | 0 <= j < |ks0|
      ensures IndexOfKey(xs, key, ks0[j]) == IndexOfKey(init, key, ks0[j]) < |init|
    {
      KeptKeyIndex(init, last, key, ks0[j]);
    }
    if key(last) !in ks0 {
      FirstAppearanceKeys(init, key);
      forall i | 0 <= i < |init|
        ensures key(xs[i]) != key(last)
      {
        assert xs[i] == init[i];
        assert key(init[i]) in ks0;
      }
      assert IndexOfKey(xs, key, key(last)) == |init|;
      assert ks == ks0 + [key(last)];
    } else {
      assert ks == ks0;
    }
  }

  /** A key already present keeps its first position when an element is appended. */
  lemma {:induction false} KeptKeyIndex<T, K>(init: seq<T>, last: T, key: T -> K, k: K)
    requires k in FirstAppearance(init, key)
    ensures IndexOfKey(init + [last], key, k) == IndexOfKey(init, key, k) < |init|
  {
    var w :| 0 <= w < |init| && key(init[w]) == k;
    IndexOfKeyAtMost(init, key, k, w);
    assert (init + [last])[..|init|] == init;
    IndexOfKeyPrefix(init + [last], |init|, key, k);
  }

  lemma {:induction false} IndexOfKeyAtMost<T, K>(xs: seq<T>, key: T -> K, k: K, w: nat)
    requires w < |xs| && key(xs[w]) == k
    ensures IndexOfKey(xs, key, k) <= w
  {
  }

  /** A key found in a prefix is found at the same place in the whole sequence. */
  lemma {:induction false} IndexOfKeyPrefix<T, K>(xs: seq<T>, n: nat, key: T -> K, k: K)
    requires n <= |xs|
    requires IndexOfKey(xs[..n], key, k) < n
    ensures IndexOfKey(xs, key, k) == IndexOfKey(xs[..n], key, k)
  {
    var p := IndexOfKey(xs[..n], key, k);
    var q := IndexOfKey(xs, key, k);
    assert xs[..n][p] == xs[p];
    assert forall i :: 0 <= i < p ==> xs[..n][i] == xs[i];
  }

  /** The groups of a defaultdict for the keys ks: group j holds the elements with key ks[j]. */
  function GroupsOf<T, K(==)>(xs: seq<T>, key: T -> K, ks: seq<K>): (gs: seq<seq<T>>)
    ensures |gs| == |ks|
    ensures forall j :: 0 <= j < |ks| ==> gs[j] == FilterKey(xs, key, ks[j])
  {
    if ks == [] then [] else [FilterKey(xs, key, ks[0])] + GroupsOf(xs, key, ks[1..])
  }

  function Concat<T>(gs: seq<seq<T>>): seq<T> {
    if gs == [] then [] else gs[0] + Concat(gs[1..])
  }

  /** Removing the first element from xs removes it from the group of its key, if that key is in ks. */
  lemma {:induction false} ConcatGroupsHead<T, K>(xs: seq<T>, key: T -> K, ks: seq<K>)
    requires xs != []
    requires forall i, j :: 0 <= i < j < |ks| ==> ks[i] != ks[j]
    ensures multiset(Concat(GroupsOf(xs, key, ks)))
         == multiset(Concat(GroupsOf(xs[1..], key, ks))) + (if key(xs[0]) in ks then multiset{xs[0]} else multiset{})
  {
    if ks != [] {
      ConcatGroupsHead(xs, key, ks[1..]);
      assert key(xs[0]) == ks[0] ==> key(xs[0]) !in ks[1..];
      assert key(xs[0]) in ks <==> key(xs[0]) == ks[0] || key(xs[0]) in ks[1..];
    }
  }

  /**
   * Grouping partitions: the groups for the distinct keys of xs, put end to
   * end, hold every element of xs exactly once.
   */
  lemma {:induction false} ConcatGroupsIsPermutation<T, K>(xs: seq<T>, key: T -> K, ks: seq<K>)
    requires forall i, j :: 0 <= i < j < |ks| ==> ks[i] != ks[j]
    requires forall i :: 0 <= i < |xs| ==> key(xs[i]) in ks
    ensures multiset(Concat(GroupsOf(xs, key, ks))) == multiset(xs)
  {
    if xs == [] {
      EmptyGroupsConcat<T, K>(GroupsOf(xs, key, ks));
    } else {
      TailKeysIn(xs, key, ks);
      ConcatGroupsIsPermutation(xs[1..], key, ks);
      assert key(xs[0]) in ks;
      ConcatGroupsStep(xs, key, ks);
    }
  }

  /** The step of the induction: the head's group regains the head. */
  lemma {:induction false} ConcatGroupsStep<T, K>(xs: seq<T>, key: T -> K, ks: seq<K>)
    requires xs != [] && key(xs[0]) in ks
    requires forall i, j :: 0 <= i < j < |ks| ==> ks[i] != ks[j]
    requires multiset(Concat(GroupsOf(xs[1..], key, ks))) == multiset(xs[1..])
    ensures multiset(Concat(GroupsOf(xs, key, ks))) == multiset(xs)
  {
    ConcatGroupsHead(xs, key, ks);
    MultisetCons(xs[0], xs[1..]);
    assert xs == [xs[0]] + xs[1..];
  }

  lemma {:induction false} TailKeysIn<T, K>(xs: seq<T>, key: T -> K, ks: seq<K>)
    requires xs != [] && forall i :: 0 <= i < |xs| ==> key(xs[i]) in ks
    ensures forall i :: 0 <= i < |xs[1..]| ==> key(xs[1..][i]) in ks
  {
    forall i | 0 <= i < |xs[1..]| ensures key(xs[1..][i]) in ks {
      assert xs[1..][i] == xs[i + 1];
    }
  }

  lemma {:induction false} MultisetCons<T>(x: T, xs: seq<T>)
    ensures multiset([x] + xs) == multiset(xs) + multiset{x}
  {
  }

  /** Concatenating groups with the same contents, group by group, gives the same contents. */
  lemma {:induction false} ConcatSameMultisets<T>(gs: seq<seq<T>>, hs: seq<seq<T>>)
    requires |gs| == |hs|
    requires forall j :: 0 <= j < |gs| ==> multiset(gs[j]) == multiset(hs[j])
    ensures multiset(Concat(gs)) == multiset(Concat(hs))
  {
    if gs != [] {
      ConcatSameMultisets(gs[1..], hs[1..]);
      assert multiset(gs[0]) == multiset(hs[0]);
    }
  }

  lemma {:induction false} EmptyGroupsConcat<T, K>(gs: seq<seq<T>>)
    requires forall j :: 0 <= j < |gs| ==> gs[j] == []
    ensures Concat(gs) == []
  {
    if gs != [] {
      EmptyGroupsConcat<T, K>(gs[1..]);
    }
  }

  /** The dictionary of groups after inserting the elements of xs one by one. */
  function GroupMap<T, K(==)>(xs: seq<T>, key: T -> K): map<K, seq<T>> {
    if xs == [] then map[]
    else
      var g := GroupMap(xs[..|xs| - 1], key);
      var x := xs[|xs| - 1];
      g[key(x) := (if key(x) in g then g[key(x)] else []) + [x]]
  }

  lemma {:induction false} FirstAppearanceSnoc<T, K>(done: seq<T>, x: T, key: T -> K)
    ensures FirstAppearance(done + [x], key) ==
      var ks := FirstAppearance(done, key); if key(x) in ks then ks else ks + [key(x)]
  {
    assert (done + [x])[..|done|] == done;
  }

  /** The dictionary has a group exactly for the keys that occur. */
  lemma {:induction false} GroupMapDomain<T, K>(xs: seq<T>, key: T -> K, k: K)
    ensures k in GroupMap(xs, key) <==> k in FirstAppearance(xs, key)
  {
    if xs != [] {
      var n := |xs| - 1;
      GroupMapDomain(xs[..n], key, k);
      assert xs == xs[..n] + [xs[n]];
      FirstAppearanceSnoc(xs[..n], xs[n], key);
    }
  }

  /** Each group holds the elements with its key, in input order. */
  lemma {:induction false} GroupMapValue<T, K>(xs: seq<T>, key: T -> K, k: K)
    requires k in GroupMap(xs, key)
    ensures GroupMap(xs, key)[k] == FilterKey(xs, key, k)
  {
    var n := |xs| - 1;
    var init, x := xs[..n], xs[n];
    assert xs == init + [x];
    FilterKeyAppend(init, x, key, k);
    if k in GroupMap(init, key) {
      GroupMapValue(init, key, k);
    } else {
      assert key(x) == k;
      GroupMapDomain(init, key, k);
      FilterKeyUnseen(init, key, k);
    }
  }

  lemma {:induction false} FilterKeyUnseen<T, K>(done: seq<T>, key: T -> K, k: K)
    requires k !in FirstAppearance(done, key)
    ensures FilterKey(done, key, k) == []
  {
    FirstAppearanceKeys(done, key);
    forall j | 0 <= j < |done|
      ensures key(done[j]) != k
    {
      assert key(done[j]) in FirstAppearance(done, key);
    }
    FilterKeyNone(done, key, k);
  }

  lemma {:induction false} GroupMapSnoc<T, K>(done: seq<T>, x: T, key: T -> K)
    ensures GroupMap(done + [x], key) ==
      var g := GroupMap(done, key); g[key(x) := (if key(x) in g then g[key(x)] else []) + [x]]
  {
    assert (done + [x])[..|done|] == done;
  }

  /** Each key that occurs has its group in the dictionary, holding the elements with that key. */
  lemma {:induction false} GroupMapGroups<T, K>(xs: seq<T>, key: T -> K)
    ensures forall k :: k in FirstAppearance(xs, key) ==>
      k in GroupMap(xs, key) && GroupMap(xs, key)[k] == FilterKey(xs, key, k)
  {
    forall k | k in FirstAppearance(xs, key)
      ensures k in GroupMap(xs, key) && GroupMap(xs, key)[k] == FilterKey(xs, key, k)
    {
      GroupMapDomain(xs, key, k);
      GroupMapValue(xs, key, k);
    }
  }

  /**
   * for x in xs: grouped[key(x)].append(x), then grouped.items(): the keys in
   * first-appearance order, paired with their groups.
   */
  method GroupBy<T, K(==)>(xs: seq<T>, key: T -> K) returns (keys: seq<K>, groups: seq<seq<T>>)
    ensures keys == FirstAppearance(xs, key)
    ensures InFirstAppearanceOrder(xs, key, keys)
    ensures |groups| == |keys|
    ensures forall j :: 0 <= j < |keys| ==> groups[j] == FilterKey(xs, key, keys[j])
  {
    var order: seq<K> := [];
    var grouped: map<K, seq<T>> := map[];
    for i := 0 to |xs|
      invariant order == FirstAppearance(xs[..i], key)
      invariant grouped == GroupMap(xs[..i], key)
    {
      var x := xs[i];
      var k := key(x);
      assert xs[..i + 1] == xs[..i] + [x];
      FirstAppearanceSnoc(xs[..i], x, key);
      GroupMapSnoc(xs[..i], x, key);
      GroupMapDomain(xs[..i], key, k);
      if k in grouped {
        grouped := grouped[k := grouped[k] + [x]];
      } else {
        assert [] + [x] == [x];
        order := order + [k];
        grouped := grouped[k := [x]];
      }
    }
    assert xs[..|xs|] == xs;
    GroupMapGroups(xs, key);
    FirstAppearanceOrdered(xs, key);
    keys := order;
    groups := seq(|order|, j requires 0 <= j < |order| => grouped[order[j]]);
  }
}
