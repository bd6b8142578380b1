/**
 * The java.util collection idioms the generator uses: an ArrayList grown
 * behind a `contains` check (first-seen deduplication), a HashMap filled by
 * successive `put`s (the last value for a key wins), and `addAll`.
 */
module Collections {

  predicate NoDuplicates<T(==)>(xs: seq<T>) {
    forall i, j :: 0 <= i < j < |xs| ==> xs[i] != xs[j]
  }

  /** `if (!list.contains(x)) list.add(x);` */
  function AddIfAbsent<T(==)>(acc: seq<T>, x: T): seq<T> {
    if x in acc then acc else acc + [x]
  }

  /** AddIfAbsent of every element of `xs`, in order. */
  function AddAll<T(==)>(acc: seq<T>, xs: seq<T>): seq<T> {
    if xs == [] then acc else AddIfAbsent(AddAll(acc, xs[..|xs| - 1]), xs[|xs| - 1])
  }

  /**
   * AddAll only appends, never introduces a duplicate, keeps only elements of
   * `acc + xs`, and keeps every element of `xs`.
   */
  lemma {:induction false} AddAllProps<T>(acc: seq<T>, xs: seq<T>)
    ensures NoDuplicates(acc) ==> NoDuplicates(AddAll(acc, xs))
    ensures acc <= AddAll(acc, xs)
    ensures forall i :: 0 <= i < |AddAll(acc, xs)| ==> AddAll(acc, xs)[i] in acc + xs
    ensures forall x :: x in xs ==> x in AddAll(acc, xs)
  {
    if xs != [] {
      var init, x := xs[..|xs| - 1], xs[|xs| - 1];
      AddAllProps(acc, init);
      var r0 := AddAll(acc, init);
      assert xs == init + [x];
      forall i | 0 <= i < |r0|
        ensures r0[i] in acc + xs
      {
        assert r0[i] in acc + init;
      }
    }
  }

  /** The index of the first occurrence of `x`. */
  function FirstIndex<T(==)>(xs: seq<T>, x: T): (r: nat)
    requires x in xs
    ensures r < |xs| && xs[r] == x
    ensures forall j :: 0 <= j < r ==> xs[j] != x
  {
    if xs[0] == x then 0 else 1 + FirstIndex(xs[1..], x)
  }

  lemma FirstIndexSnoc<T>(xs: seq<T>, x: T, y: T)
    requires y in xs
    ensures FirstIndex(xs + [x], y) == FirstIndex(xs, y)
  {
    var k := FirstIndex(xs, y);
    assert (xs + [x])[k] == y;
    FirstIndexIs(xs + [x], y, k);
  }

  lemma FirstIndexIs<T>(xs: seq<T>, y: T, k: nat)
    requires k < |xs| && xs[k] == y
    requires forall j :: 0 <= j < k ==> xs[j] != y
    ensures FirstIndex(xs, y) == k
  {
  }

  /** The elements of `r` come from `all`, in the order in which each first occurs there. */
  predicate FirstSeenOrder<T(==)>(r: seq<T>, all: seq<T>) {
    forall i, j :: 0 <= i < j < |r| ==> r[i] in all && r[j] in all && FirstIndex(all, r[i]) < FirstIndex(all, r[j])
  }

  /**
   * AddAll keeps first-seen order: the survivors appear in the order in which
   * each first occurs in `acc + xs`.
   */
  lemma {:induction false} AddAllFirstSeen<T>(acc: seq<T>, xs: seq<T>)
    requires NoDuplicates(acc)
    ensures FirstSeenOrder(AddAll(acc, xs), acc + xs)
  {
    AddAllProps(acc, xs);
    if xs == [] {
      assert acc + xs == acc;
      NoDuplicatesFirstIndex(acc);
    } else {
      var init, x := xs[..|xs| - 1], xs[|xs| - 1];
      AddAllFirstSeen(acc, init);
      AddAllMembers(acc, init, x);
      assert acc + xs == (acc + init) + [x];
      assert AddAll(acc, xs) == AddIfAbsent(AddAll(acc, init), x);
      SnocKeepsOrder(acc + init, x, AddAll(acc, init));
    }
  }

  lemma NoDuplicatesFirstIndex<T>(xs: seq<T>)
    requires NoDuplicates(xs)
    ensures forall i :: 0 <= i < |xs| ==> FirstIndex(xs, xs[i]) == i
  {
    forall i | 0 <= i < |xs|
      ensures FirstIndex(xs, xs[i]) == i
    {
      FirstIndexIs(xs, xs[i], i);
    }
  }

  /** The survivors of AddAll are drawn from `acc + xs`, and every element of it survives. */
  lemma AddAllMembers<T>(acc: seq<T>, xs: seq<T>, x: T)
    ensures forall i :: 0 <= i < |AddAll(acc, xs)| ==> AddAll(acc, xs)[i] in acc + xs
    ensures x in AddAll(acc, xs) <==> x in acc + xs
  {
    AddAllProps(acc, xs);
    var r := AddAll(acc, xs);
    if x in acc + xs && x !in xs {
      var k :| 0 <= k < |acc + xs| && (acc + xs)[k] == x;
      assert k < |acc| && r[k] == x;
    }
  }

  /** Adding `x` at the end keeps first-seen order for a list ordered by `zs`. */
  lemma SnocKeepsOrder<T>(zs: seq<T>, x: T, r0: seq<T>)
    requires forall i :: 0 <= i < |r0| ==> r0[i] in zs
    requires x in r0 <==> x in zs
    requires forall i, j :: 0 <= i < j < |r0| ==> FirstIndex(zs, r0[i]) < FirstIndex(zs, r0[j])
    ensures var r := AddIfAbsent(r0, x);
      forall i, j :: 0 <= i < j < |r| ==> FirstIndex(zs + [x], r[i]) < FirstIndex(zs + [x], r[j])
  {
    var r := AddIfAbsent(r0, x);
    forall i | 0 <= i < |r0|
      ensures FirstIndex(zs + [x], r0[i]) == FirstIndex(zs, r0[i])
    {
      FirstIndexSnoc(zs, x, r0[i]);
    }
    if x !in r0 {
      FirstIndexIs(zs + [x], x, |zs|);
      forall i, j | 0 <= i < j < |r|
        ensures FirstIndex(zs + [x], r[i]) < FirstIndex(zs + [x], r[j])
      {
        assert r[i] == r0[i];
        if j < |r0| {
          assert r[j] == r0[j];
        }
      }
    }
  }

  /** Adding two lists in turn is adding their concatenation. */
  lemma {:induction false} AddAllAppend<T>(acc: seq<T>, xs: seq<T>, ys: seq<T>)
    ensures AddAll(acc, xs + ys) == AddAll(AddAll(acc, xs), ys)
    decreases |ys|
  {
    if ys == [] {
      assert xs + ys == xs;
    } else {
      var init := ys[..|ys| - 1];
      assert (xs + ys)[..|xs + ys| - 1] == xs + init;
      AddAllAppend(acc, xs, init);
    }
  }

  /** `addAll` of every list, in order. */
  function Flatten<T>(xss: seq<seq<T>>): seq<T> {
    if xss == [] then [] else Flatten(xss[..|xss| - 1]) + xss[|xss| - 1]
  }

  /** `f` of every element, in order. */
  function MapSeq<A, B>(xs: seq<A>, f: A -> B): seq<B> {
    if xs == [] then [] else MapSeq(xs[..|xs| - 1], f) + [f(xs[|xs| - 1])]
  }

  /** Whatever one list holds, the flattened list holds. */
  lemma {:induction false} FlattenMember<T>(xss: seq<seq<T>>, i: nat, x: T)
    requires i < |xss| && x in xss[i]
    ensures x in Flatten(xss)
  {
    var init := xss[..|xss| - 1];
    if i < |xss| - 1 {
      assert init[i] == xss[i];
      FlattenMember(init, i, x);
    }
  }

  /** Whatever the flattened list holds, one of the lists holds. */
  lemma {:induction false} FlattenFrom<T>(xss: seq<seq<T>>, x: T)
    requires x in Flatten(xss)
    ensures exists i :: 0 <= i < |xss| && x in xss[i]
  {
    var init := xss[..|xss| - 1];
    if x !in xss[|xss| - 1] {
      FlattenFrom(init, x);
      var i :| 0 <= i < |init| && x in init[i];
      assert xss[i] == init[i];
    }
  }

  /** The HashMap left by `put(k, v)` for every pair, in order. */
  function ToMap<K(==), V>(ps: seq<(K, V)>): map<K, V> {
    if ps == [] then map[] else ToMap(ps[..|ps| - 1])[ps[|ps| - 1].0 := ps[|ps| - 1].1]
  }

  /** A put after a merge is a put into the right-hand map. */
  lemma MergePut<K, V>(m1: map<K, V>, m2: map<K, V>, k: K, v: V)
    ensures (m1 + m2)[k := v] == m1 + m2[k := v]
  {
  }

  /** One more put. */
  lemma ToMapSnoc<K, V>(ps: seq<(K, V)>, p: (K, V))
    ensures ToMap(ps + [p]) == ToMap(ps)[p.0 := p.1]
  {
    assert (ps + [p])[..|ps|] == ps;
  }

  /** The keys of ToMap are exactly the keys put. */
  lemma {:induction false} ToMapKeys<K, V>(ps: seq<(K, V)>, k: K)
    ensures k in ToMap(ps) <==> exists i :: 0 <= i < |ps| && ps[i].0 == k
  {
    if ps != [] {
      var init := ps[..|ps| - 1];
      ToMapKeys(init, k);
      if k != ps[|ps| - 1].0 {
        if k in ToMap(ps) {
          var i :| 0 <= i < |init| && init[i].0 == k;
          assert ps[i] == init[i];
        }
      }
    }
  }

  /** Every entry of ToMap comes from a pair that was put. */
  lemma {:induction false} ToMapValue<K, V>(ps: seq<(K, V)>, k: K)
    requires k in ToMap(ps)
    ensures exists i :: 0 <= i < |ps| && ps[i] == (k, ToMap(ps)[k])
  {
    var init := ps[..|ps| - 1];
    if k != ps[|ps| - 1].0 {
      ToMapValue(init, k);
      var i :| 0 <= i < |init| && init[i] == (k, ToMap(init)[k]);
      assert ps[i] == init[i];
    } else {
      assert ps[|ps| - 1] == (k, ToMap(ps)[k]);
    }
  }

  /** Each key holds the value of the last pair that put it. */
  lemma {:induction false} ToMapLastWins<K, V>(ps: seq<(K, V)>, i: nat)
    requires i < |ps|
    requires forall j :: i < j < |ps| ==> ps[j].0 != ps[i].0
    ensures ps[i].0 in ToMap(ps) && ToMap(ps)[ps[i].0] == ps[i].1
  {
    var init := ps[..|ps| - 1];
    if i < |ps| - 1 {
      assert ps[i] == init[i];
      forall j | i < j < |init|
        ensures init[j].0 != init[i].0
      {
        assert init[j] == ps[j];
      }
      ToMapLastWins(init, i);
    }
  }
}
