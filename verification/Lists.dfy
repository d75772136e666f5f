/** Strictly increasing lists of numbers, and how sums of lists regroup. */
module Lists {
  /** A strictly increasing list of numbers below the bound. */
  predicate Rising(ids: seq<nat>, bound: nat) {
    ids == [] || (ids[|ids| - 1] < bound && Rising(ids[..|ids| - 1], ids[|ids| - 1]))
  }

  /** The list 0, 1, 2, ... */
  predicate Counting(ids: seq<nat>) {
    forall k | 0 <= k < |ids| :: ids[k] == k
  }

  function Without<T>(s: seq<T>, i: nat): seq<T>
    requires i < |s|
  {
    s[..i] + s[i + 1..]
  }

  lemma RisingSnoc(ids: seq<nat>, x: nat)
    requires Rising(ids, x)
    ensures Rising(ids + [x], x + 1)
  {
    assert (ids + [x])[..|ids|] == ids;
  }

  lemma RisingWeakens(ids: seq<nat>, low: nat, high: nat)
    requires Rising(ids, low) && low <= high
    ensures Rising(ids, high)
  {
  }

  lemma {:induction false} RisingPrefix(a: seq<nat>, b: seq<nat>, bound: nat)
    requires Rising(a + b, bound)
    ensures Rising(a, bound)
  {
    if b == [] {
      assert a + b == a;
    } else {
      var front, last := b[..|b| - 1], b[|b| - 1];
      assert (a + b)[..|a + b| - 1] == a + front;
      RisingPrefix(a, front, last);
      RisingWeakens(a, last, bound);
    }
  }

  lemma {:induction false} RisingBounds(ids: seq<nat>, bound: nat)
    requires Rising(ids, bound)
    ensures forall k | k in ids :: k < bound
  {
    if ids == [] {
    } else {
      RisingBounds(ids[..|ids| - 1], ids[|ids| - 1]);
      assert ids == ids[..|ids| - 1] + [ids[|ids| - 1]];
    }
  }

  /** A bound that is not in the list can be lowered by one. */
  lemma RisingBelow(ids: seq<nat>, bound: nat)
    requires Rising(ids, bound + 1) && bound !in ids
    ensures Rising(ids, bound)
  {
    assert ids != [] ==> ids[|ids| - 1] in ids;
  }

  /** The next number can be put at the end. */
  lemma RisingPut(ids: seq<nat>, x: nat)
    requires Rising(ids, x + 1) && x !in ids
    ensures Rising(ids + [x], x + 1)
  {
    RisingBelow(ids, x);
    RisingSnoc(ids, x);
  }

  /** A bound is not in the list, and can be raised. */
  lemma RisingRoom(ids: seq<nat>, bound: nat)
    requires Rising(ids, bound)
    ensures bound !in ids && Rising(ids, bound + 1)
  {
    RisingBounds(ids, bound);
    RisingWeakens(ids, bound, bound + 1);
  }

  /** An increasing list still is one without one of its elements. */
  lemma {:induction false} RisingDrop(p: seq<nat>, x: nat, q: seq<nat>, bound: nat)
    requires Rising(p + [x] + q, bound)
    ensures Rising(p + q, bound)
  {
    var whole := p + [x] + q;
    if q == [] {
      assert whole[..|whole| - 1] == p && p + q == p;
      RisingWeakens(p, x, bound);
    } else {
      var front, last := q[..|q| - 1], q[|q| - 1];
      assert whole[..|whole| - 1] == p + [x] + front;
      RisingDrop(p, x, front, last);
      assert (p + q)[..|p + q| - 1] == p + front;
    }
  }

  lemma Around<T>(s: seq<T>, i: nat)
    requires i < |s|
    ensures s == s[..i] + [s[i]] + s[i + 1..]
  {
  }

  lemma Assoc(a: seq<nat>, b: seq<nat>, c: seq<nat>)
    ensures a + (b + c) == (a + b) + c
  {
  }

  lemma Nested(c: seq<nat>, d: seq<nat>, l: seq<nat>, g: seq<nat>)
    ensures c + (d + (l + g)) == (c + (d + l)) + g
  {
  }

  lemma RegroupRight(a: seq<nat>, x: nat, b: seq<nat>, u: seq<nat>)
    ensures (a + [x] + b) + u == a + [x] + (b + u)
    ensures (a + b) + u == a + (b + u)
  {
  }

  lemma Regroup(c: seq<nat>, p: seq<nat>, x: nat, q: seq<nat>)
    ensures c + (p + [x] + q) == (c + p) + [x] + q
    ensures c + (p + q) == (c + p) + q
  {
  }

  lemma {:induction false} RisingAt(ids: seq<nat>, bound: nat, i: nat, j: nat)
    requires Rising(ids, bound) && i <= j < |ids|
    ensures j <= ids[j] && ids[i] + (j - i) <= ids[j] < bound
    decreases |ids|
  {
    if j < |ids| - 1 {
      RisingAt(ids[..|ids| - 1], ids[|ids| - 1], i, j);
    } else if j > 0 {
      RisingAt(ids[..j], ids[j], if i < j then i else j - 1, j - 1);
    }
  }

  /** A list that increases below its own length is 0, 1, 2, ... */
  lemma {:induction false} FullListCounts(ids: seq<nat>)
    requires Rising(ids, |ids|)
    ensures Counting(ids)
  {
    forall k | 0 <= k < |ids|
      ensures ids[k] == k
    {
      RisingAt(ids, |ids|, k, k);
      RisingAt(ids, |ids|, k, |ids| - 1);
    }
  }

  /** An element at the joint of two lists can count to either. */
  lemma Shift(a: seq<nat>, x: nat, b: seq<nat>)
    ensures (a + [x]) + b == a + ([x] + b)
  {
  }
}
