/** Sums of money over finite maps: the reference meaning of every running total in the cost gate. */
module Sums {

  /** The sum of all values of `m`. */
  ghost function Total<K(!new)>(m: map<K, real>): real
    decreases |m|
  {
    if m.Keys == {} then 0.0
    else
      var k :| k in m.Keys;
      m[k] + Total(m - {k})
  }

  lemma {:induction false} TotalPick<K(!new)>(m: map<K, real>, k: K)
    requires k in m
    ensures Total(m) == m[k] + Total(m - {k})
    decreases |m|
  {
    var j :| j in m.Keys && Total(m) == m[j] + Total(m - {j});
    if j != k {
      TotalPick(m - {j}, k);
      TotalPick(m - {k}, j);
      assert m - {j} - {k} == m - {k} - {j};
    }
  }

  /** Writing one entry moves the sum by the difference. */
  lemma TotalSet<K(!new)>(m: map<K, real>, k: K, v: real)
    ensures Total(m[k := v]) == Total(m) + v - (if k in m then m[k] else 0.0)
  {
    TotalPick(m[k := v], k);
    assert m[k := v] - {k} == m - {k};
    if k in m {
      TotalPick(m, k);
    } else {
      assert m - {k} == m;
    }
  }

  lemma {:induction false} TotalZero<K(!new)>(m: map<K, real>)
    requires forall k :: k in m ==> m[k] == 0.0
    ensures Total(m) == 0.0
    decreases |m|
  {
    if m.Keys != {} {
      var k :| k in m.Keys && Total(m) == m[k] + Total(m - {k});
      TotalZero(m - {k});
    }
  }

  lemma {:induction false} TotalNonNegative<K(!new)>(m: map<K, real>)
    requires forall k :: k in m ==> 0.0 <= m[k]
    ensures 0.0 <= Total(m)
    decreases |m|
  {
    if m.Keys != {} {
      var k :| k in m.Keys && Total(m) == m[k] + Total(m - {k});
      TotalNonNegative(m - {k});
    }
  }

  /** Sums add up entry by entry. */
  lemma {:induction false} TotalAdd<K(!new)>(a: map<K, real>, b: map<K, real>, c: map<K, real>)
    requires a.Keys == b.Keys == c.Keys
    requires forall k :: k in a ==> c[k] == a[k] + b[k]
    ensures Total(c) == Total(a) + Total(b)
    decreases |a|
  {
    if a.Keys != {} {
      var k :| k in a.Keys;
      TotalPick(a, k);
      TotalPick(b, k);
      TotalPick(c, k);
      TotalAdd(a - {k}, b - {k}, c - {k});
    }
  }

  ghost function Images<K(!new), L(!new)>(keys: set<K>, image: map<K, L>): set<L> {
    set k | k in keys && k in image :: image[k]
  }

  lemma ImagesWithout<K(!new), L(!new)>(keys: set<K>, image: map<K, L>, k: K, big: map<L, real>)
    requires k in keys && k in image
    ensures big - {image[k]} - Images(keys - {k}, image) == big - Images(keys, image)
  {
    assert Images(keys, image) == {image[k]} + Images(keys - {k}, image);
  }

  /**
   * If every entry of `small` is matched, one to one, by an equal entry of `big`, then `big` sums to what `small` does
   * and what its unmatched entries do.
   */
  lemma {:induction false} TotalSplits<K(!new), L(!new)>(small: map<K, real>, big: map<L, real>, image: map<K, L>)
    requires small.Keys <= image.Keys
    requires forall k :: k in small ==> image[k] in big && small[k] == big[image[k]]
    requires forall j, k :: j in small && k in small && image[j] == image[k] ==> j == k
    ensures Total(big) == Total(small) + Total(big - Images(small.Keys, image))
    decreases |small|
  {
    if small.Keys == {} {
      assert big - Images(small.Keys, image) == big;
    } else {
      var k :| k in small.Keys;
      assert small.Keys - {k} == (small - {k}).Keys;
      TotalPick(small, k);
      TotalPick(big, image[k]);
      TotalSplits(small - {k}, big - {image[k]}, image);
      ImagesWithout(small.Keys, image, k, big);
    }
  }

  /** The entries of `m` that `group` puts under `g`; all other entries count zero. */
  ghost function Share<K(!new), G(!new)>(m: map<K, real>, group: map<K, G>, g: G): map<K, real>
    requires m.Keys <= group.Keys
  {
    map k | k in m :: if group[k] == g then m[k] else 0.0
  }

  /** What each group adds up to. */
  ghost function Parts<K(!new), G(!new)>(m: map<K, real>, group: map<K, G>, groups: set<G>): map<G, real>
    requires m.Keys <= group.Keys
  {
    map g | g in groups :: Total(Share(m, group, g))
  }

  lemma ShareWithout<K(!new), G(!new)>(m: map<K, real>, group: map<K, G>, g: G, k: K)
    requires m.Keys <= group.Keys && k in m
    ensures Total(Share(m, group, g)) == Total(Share(m - {k}, group, g)) + (if g == group[k] then m[k] else 0.0)
  {
    TotalPick(Share(m, group, g), k);
    assert Share(m, group, g) - {k} == Share(m - {k}, group, g);
  }

  lemma PartsWithout<K(!new), G(!new)>(m: map<K, real>, group: map<K, G>, groups: set<G>, k: K)
    requires m.Keys <= group.Keys && k in m && group[k] in groups
    ensures Total(Parts(m, group, groups)) == Total(Parts(m - {k}, group, groups)) + m[k]
  {
    var parts, rest := Parts(m, group, groups), Parts(m - {k}, group, groups);
    forall g | g in groups
      ensures parts[g] == rest[g] + (if g == group[k] then m[k] else 0.0)
    {
      ShareWithout(m, group, g, k);
    }
    assert parts == rest[group[k] := rest[group[k]] + m[k]];
    TotalSet(rest, group[k], rest[group[k]] + m[k]);
  }

  lemma PartsOfNothing<K(!new), G(!new)>(m: map<K, real>, group: map<K, G>, groups: set<G>)
    requires m == map[]
    ensures Total(Parts(m, group, groups)) == 0.0
  {
    forall g | g in groups
      ensures Parts(m, group, groups)[g] == 0.0
    {
      TotalZero(Share(m, group, g));
    }
    TotalZero(Parts(m, group, groups));
  }

  /** Conservation: splitting a sum by any grouping and adding the parts gives the whole. */
  lemma {:induction false} TotalByGroup<K(!new), G(!new)>(m: map<K, real>, group: map<K, G>, groups: set<G>)
    requires m.Keys <= group.Keys
    requires forall k :: k in m ==> group[k] in groups
    ensures Total(Parts(m, group, groups)) == Total(m)
    decreases |m|
  {
    hide Total, Parts;
    if m == map[] {
      PartsOfNothing(m, group, groups);
      TotalZero(m);
    } else {
      var k :| k in m.Keys;
      PartsWithout(m, group, groups, k);
      TotalByGroup(m - {k}, group, groups);
      TotalPick(m, k);
    }
  }

  /** The same, for parts given by any map that holds them. */
  lemma TotalOfShares<K(!new), G(!new)>(m: map<K, real>, group: map<K, G>, parts: map<G, real>)
    requires m.Keys <= group.Keys
    requires forall k :: k in m ==> group[k] in parts
    requires forall g :: g in parts ==> parts[g] == Total(Share(m, group, g))
    ensures Total(parts) == Total(m)
  {
    assert parts == Parts(m, group, parts.Keys);
    TotalByGroup(m, group, parts.Keys);
  }
}
