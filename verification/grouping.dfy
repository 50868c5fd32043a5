/**
 * The `reduce` both chart components use to group points by a string key
 * into a dictionary of arrays: a key's array is created on its first point
 * and every point is pushed onto its key's array. The dictionary's key
 * order is insertion order, so it is modelled as a sequence of groups.
 */
module Grouping {
  import opened Common

  datatype Group<P> = Group(key: string, items: seq<P>)

  /** The index of the group with key `k`, if there is one. */
  function FindKey<P>(gs: seq<Group<P>>, k: string): (r: Option<nat>)
    ensures r.Some? ==> r.value < |gs| && gs[r.value].key == k
    ensures r.None? <==> forall j :: 0 <= j < |gs| ==> gs[j].key != k
  {
    if gs == [] then None
    else if gs[|gs| - 1].key == k then Some(|gs| - 1)
    else FindKey(gs[..|gs| - 1], k)
  }

  /** `if (!acc[key]) acc[key] = []; acc[key].push(point)`. */
  function AddPoint<P>(gs: seq<Group<P>>, k: string, p: P): (r: seq<Group<P>>)
  {
    match FindKey(gs, k)
    case Some(j) => gs[j := Group(k, gs[j].items + [p])]
    case None => gs + [Group(k, [p])]
  }

  /** The dictionary after the whole `reduce`. */
  function GroupsOf<P>(points: seq<P>, key: P -> string): seq<Group<P>> {
    if points == [] then []
    else AddPoint(GroupsOf(points[..|points| - 1], key), key(points[|points| - 1]), points[|points| - 1])
  }

  /** The points with key `k`, in input order (see SelectOne and SelectConcat). */
  function Select<P>(points: seq<P>, key: P -> string, k: string): (r: seq<P>)
    ensures |r| <= |points|
  {
    if points == [] then []
    else Select(points[..|points| - 1], key, k) + if key(points[|points| - 1]) == k then [points[|points| - 1]] else []
  }

  /** Every selected point has the key. */
  lemma {:induction false} SelectHasKey<P>(points: seq<P>, key: P -> string, k: string)
    ensures forall i :: 0 <= i < |Select(points, key, k)| ==> key(Select(points, key, k)[i]) == k
  {
    if points != [] {
      SelectHasKey(points[..|points| - 1], key, k);
    }
  }

  /** A single point is kept exactly when it has the key. */
  lemma SelectOne<P>(x: P, key: P -> string, k: string)
    ensures Select([x], key, k) == if key(x) == k then [x] else []
  {
    assert [x][..0] == [];
  }

  /** Selection distributes over concatenation, so it keeps the input order. */
  lemma {:induction false} SelectConcat<P>(a: seq<P>, b: seq<P>, key: P -> string, k: string)
    ensures Select(a + b, key, k) == Select(a, key, k) + Select(b, key, k)
    decreases |b|
  {
    if b != [] {
      var b' := b[..|b| - 1];
      assert (a + b)[..|a + b| - 1] == a + b';
      SelectConcat(a, b', key, k);
    } else {
      assert a + b == a;
    }
  }

  /** Group keys are distinct. */
  predicate KeysDistinct<P>(gs: seq<Group<P>>) {
    forall i, j :: 0 <= i < j < |gs| ==> gs[i].key != gs[j].key
  }

  /**
   * The grouping is exact: the keys are distinct, every key of a point has
   * a group, every group's key is the key of some point, and each group
   * holds exactly the points with its key, in input order (so every point
   * is in exactly one group).
   */
  ghost predicate GroupedExactly<P>(gs: seq<Group<P>>, points: seq<P>, key: P -> string) {
    && KeysDistinct(gs)
    && (forall i :: 0 <= i < |points| ==> FindKey(gs, key(points[i])).Some?)
    && (forall j :: 0 <= j < |gs| ==> gs[j].items == Select(points, key, gs[j].key) && gs[j].items != [])
  }

  lemma {:induction false} GroupsOfExact<P>(points: seq<P>, key: P -> string)
    ensures GroupedExactly(GroupsOf(points, key), points, key)
  {
    if points != [] {
      GroupsOfExact(points[..|points| - 1], key);
      AddPointExact(GroupsOf(points[..|points| - 1], key), points, key);
    }
  }

  /** Adding a point to an exact grouping gives an exact grouping of the longer input. */
  lemma AddPointExact<P>(gs: seq<Group<P>>, points: seq<P>, key: P -> string)
    requires points != [] && GroupedExactly(gs, points[..|points| - 1], key)
    ensures GroupedExactly(AddPoint(gs, key(points[|points| - 1]), points[|points| - 1]), points, key)
  {
    var init := points[..|points| - 1];
    var p := points[|points| - 1];
    var r := AddPoint(gs, key(p), p);
    AddPointKeys(gs, key(p), p);
    forall i | 0 <= i < |points| ensures FindKey(r, key(points[i])).Some? {
      if i < |init| {
        assert points[i] == init[i];
        FoundKeyStays(gs, key(p), p, key(init[i]));
      } else {
        FoundKeyStays(gs, key(p), p, key(p));
      }
    }
    AddPointItems(gs, points, key);
  }

  /** Adding a point keeps the keys distinct. */
  lemma AddPointKeys<P>(gs: seq<Group<P>>, k: string, p: P)
    requires KeysDistinct(gs)
    ensures KeysDistinct(AddPoint(gs, k, p))
    ensures |AddPoint(gs, k, p)| >= |gs|
    ensures forall m :: 0 <= m < |gs| ==> AddPoint(gs, k, p)[m].key == gs[m].key
  {
  }

  /** After a point is added, every group holds exactly the points with its key. */
  lemma AddPointItems<P>(gs: seq<Group<P>>, points: seq<P>, key: P -> string)
    requires points != [] && GroupedExactly(gs, points[..|points| - 1], key)
    ensures var r := AddPoint(gs, key(points[|points| - 1]), points[|points| - 1]);
      forall m :: 0 <= m < |r| ==> r[m].items == Select(points, key, r[m].key) && r[m].items != []
  {
    var init := points[..|points| - 1];
    var p := points[|points| - 1];
    var k := key(p);
    var r := AddPoint(gs, k, p);
    match FindKey(gs, k)
    case Some(j) =>
      forall m | 0 <= m < |r| ensures r[m].items == Select(points, key, r[m].key) && r[m].items != [] {
        if m != j {
          assert r[m] == gs[m];
        }
      }
    case None =>
      SelectEmpty(init, key, k, gs);
      forall m | 0 <= m < |r| ensures r[m].items == Select(points, key, r[m].key) && r[m].items != [] {
        if m < |gs| {
          assert r[m] == gs[m];
        }
      }
  }

  /** A key that has a group still has one after a point is added, and so does the added point's key. */
  lemma FoundKeyStays<P>(gs: seq<Group<P>>, k: string, p: P, x: string)
    requires x == k || FindKey(gs, x).Some?
    ensures FindKey(AddPoint(gs, k, p), x).Some?
  {
    var r := AddPoint(gs, k, p);
    match FindKey(gs, k)
    case Some(j) =>
      if x == k {
        assert r[j].key == x;
      } else {
        assert r[FindKey(gs, x).value].key == x;
      }
    case None =>
      if x == k {
        assert r[|gs|].key == x;
      } else {
        assert r[FindKey(gs, x).value].key == x;
      }
  }

  /** A key without a group has no point. */
  lemma {:induction false} SelectEmpty<P>(points: seq<P>, key: P -> string, k: string, gs: seq<Group<P>>)
    requires forall i :: 0 <= i < |points| ==> FindKey(gs, key(points[i])).Some?
    requires FindKey(gs, k).None?
    ensures Select(points, key, k) == []
  {
    if points != [] {
      var init := points[..|points| - 1];
      forall i | 0 <= i < |init| ensures FindKey(gs, key(init[i])).Some? {
        assert init[i] == points[i];
      }
      SelectEmpty(init, key, k, gs);
      var m := FindKey(gs, key(points[|points| - 1])).value;
      assert gs[m].key == key(points[|points| - 1]);
    }
  }

  /** The `reduce` itself: one pass over the points, pushing each onto its key's group. */
  method GroupBy<P>(points: seq<P>, key: P -> string) returns (groups: seq<Group<P>>)
    ensures groups == GroupsOf(points, key)
    ensures GroupedExactly(groups, points, key)
  {
    groups := [];
    for i := 0 to |points|
      invariant groups == GroupsOf(points[..i], key)
    {
      assert points[..i + 1][..i] == points[..i];
      groups := AddPoint(groups, key(points[i]), points[i]);
    }
    assert points[..|points|] == points;
    GroupsOfExact(points, key);
  }

  /** `colors[index % colors.length]`: the palette cycles, so every series gets a colour. */
  function SeriesColour(palette: seq<string>, index: nat): (c: string)
    requires palette != []
    ensures c in palette
    ensures index < |palette| ==> c == palette[index]
  {
    palette[index % |palette|]
  }

  /** The colour repeats with the palette's period, so together with the identity below the palette length it is fixed at every index. */
  lemma SeriesColourCycles(palette: seq<string>, index: nat)
    requires palette != []
    ensures SeriesColour(palette, index + |palette|) == SeriesColour(palette, index)
  {
    var n := |palette|;
    var q, r := index / n, index % n;
    assert index + n == n * (q + 1) + r by {
      assert n * (q + 1) == n * q + n;
    }
    DivModUnique(index + n, n, q + 1, r);
  }

  /** Euclidean division is unique: `x == n * q + r` with `0 <= r < n` gives quotient `q` and remainder `r`. */
  lemma DivModUnique(x: int, n: int, q: int, r: int)
    requires n > 0 && 0 <= r < n && x == n * q + r
    ensures x / n == q && x % n == r
  {
    var q', r' := x / n, x % n;
    assert n * (q' - q) == r - r' by {
      assert n * (q' - q) == n * q' - n * q;
    }
    SmallMultipleIsZero(n, q' - q);
  }

  /** A multiple of `n` strictly between `-n` and `n` is zero. */
  lemma SmallMultipleIsZero(n: int, k: int)
    requires n > 0 && -n < n * k < n
    ensures k == 0
  {
    MultipleBounds(n, k);
  }

  /** A non-zero multiple of a positive `n` is at least `n` away from zero. */
  lemma {:induction false} MultipleBounds(n: int, k: int)
    requires n > 0
    ensures k >= 1 ==> n * k >= n
    ensures k <= -1 ==> n * k <= -n
    decreases if k < 0 then -k else k
  {
    if k > 1 {
      MultipleBounds(n, k - 1);
      assert n * k == n * (k - 1) + n;
    } else if k < -1 {
      MultipleBounds(n, k + 1);
      assert n * k == n * (k + 1) - n;
    }
  }
}
