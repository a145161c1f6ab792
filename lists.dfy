/** The two list shapes the planner builds with `append` in a loop: a
    one-for-one map and an order-preserving filter. Both are defined from the
    back, so that "the result after `i` steps" is the function applied to the
    first `i` inputs. */
module Lists {

  function Map<A, B>(f: A -> B, xs: seq<A>): (r: seq<B>)
    ensures |r| == |xs|
    ensures forall i :: 0 <= i < |xs| ==> r[i] == f(xs[i])
    decreases |xs|
  {
    if xs == [] then [] else Map(f, xs[..|xs| - 1]) + [f(xs[|xs| - 1])]
  }

  function Filter<A>(p: A -> bool, xs: seq<A>): (r: seq<A>)
    ensures |r| <= |xs|
    decreases |xs|
  {
    if xs == [] then []
    else Filter(p, xs[..|xs| - 1]) + (if p(xs[|xs| - 1]) then [xs[|xs| - 1]] else [])
  }

  /** Everything the filter keeps satisfies the predicate. */
  lemma {:induction false} FilterSatisfies<A>(p: A -> bool, xs: seq<A>)
    ensures forall i :: 0 <= i < |Filter(p, xs)| ==> p(Filter(p, xs)[i])
    decreases |xs|
  {
    if xs != [] {
      FilterSatisfies(p, xs[..|xs| - 1]);
    }
  }

  /** A filter and a map fused into one pass, the shape of a loop that
      appends `f(x)` for each `x` that passes `p`. */
  function FilterMap<A, B>(p: A -> bool, f: A -> B, xs: seq<A>): (r: seq<B>)
    ensures |r| <= |xs|
    decreases |xs|
  {
    if xs == [] then []
    else FilterMap(p, f, xs[..|xs| - 1]) + (if p(xs[|xs| - 1]) then [f(xs[|xs| - 1])] else [])
  }

  /** Extending a prefix by one element extends the filtered image by that
      element's image exactly when it passes. */
  lemma FilterMapStep<A, B>(p: A -> bool, f: A -> B, xs: seq<A>, i: nat)
    requires i < |xs|
    ensures FilterMap(p, f, xs[..i + 1]) == FilterMap(p, f, xs[..i]) + (if p(xs[i]) then [f(xs[i])] else [])
  {
    assert xs[..i + 1][..i] == xs[..i];
  }

  lemma {:induction false} FilterMapIsMapOfFilter<A, B>(p: A -> bool, f: A -> B, xs: seq<A>)
    ensures FilterMap(p, f, xs) == Map(f, Filter(p, xs))
    decreases |xs|
  {
    if xs != [] {
      var init, x := xs[..|xs| - 1], xs[|xs| - 1];
      FilterMapIsMapOfFilter(p, f, init);
      assert xs == init + [x];
      FilterSnoc(p, init, x);
      MapSnoc(f, Filter(p, init), x);
    }
  }

  /** One more input adds at most one output, at the end. */
  lemma FilterSnoc<A>(p: A -> bool, xs: seq<A>, x: A)
    ensures Filter(p, xs + [x]) == Filter(p, xs) + (if p(x) then [x] else [])
  {
    assert (xs + [x])[..|xs|] == xs;
  }

  lemma MapSnoc<A, B>(f: A -> B, xs: seq<A>, x: A)
    ensures Map(f, xs + [x]) == Map(f, xs) + [f(x)]
  {
    assert (xs + [x])[..|xs|] == xs;
  }

  /** Extending a prefix by one element extends the mapped filter by that
      element's image exactly when it passes. */
  lemma MapFilterStep<A, B>(f: A -> B, p: A -> bool, xs: seq<A>, i: nat)
    requires i < |xs|
    ensures Map(f, Filter(p, xs[..i + 1])) == Map(f, Filter(p, xs[..i])) + (if p(xs[i]) then [f(xs[i])] else [])
  {
    assert xs[..i + 1] == xs[..i] + [xs[i]];
    FilterSnoc(p, xs[..i], xs[i]);
    if p(xs[i]) {
      MapSnoc(f, Filter(p, xs[..i]), xs[i]);
    }
  }

  /** A property of every element survives any reordering. */
  lemma PermutationKeepsAll<A>(xs: seq<A>, ys: seq<A>, p: A -> bool)
    requires multiset(xs) == multiset(ys)
    requires forall i :: 0 <= i < |xs| ==> p(xs[i])
    ensures forall i :: 0 <= i < |ys| ==> p(ys[i])
  {
    forall i | 0 <= i < |ys| ensures p(ys[i]) {
      assert ys[i] in multiset(xs);
      var k :| 0 <= k < |xs| && xs[k] == ys[i];
    }
  }

  /** Mapping a concatenation maps each part. */
  lemma MapConcat<A, B>(f: A -> B, xs: seq<A>, ys: seq<A>)
    ensures Map(f, xs + ys) == Map(f, xs) + Map(f, ys)
  {
  }

  /** An element survives the filter exactly when it was in the input and
      satisfies the predicate. */
  lemma {:induction false} FilterMembership<A>(p: A -> bool, xs: seq<A>, x: A)
    ensures x in Filter(p, xs) <==> x in xs && p(x)
    decreases |xs|
  {
    if xs != [] {
      FilterMembership(p, xs[..|xs| - 1], x);
      assert xs == xs[..|xs| - 1] + [xs[|xs| - 1]];
    }
  }

  /** Filtering a concatenation filters each part and keeps their order. */
  lemma {:induction false} FilterConcat<A>(p: A -> bool, xs: seq<A>, ys: seq<A>)
    ensures Filter(p, xs + ys) == Filter(p, xs) + Filter(p, ys)
    decreases |ys|
  {
    if ys == [] {
      assert xs + ys == xs;
    } else {
      var init := ys[..|ys| - 1];
      assert (xs + ys)[..|xs + ys| - 1] == xs + init;
      FilterConcat(p, xs, init);
    }
  }

  /** Splitting by a predicate and its complement loses and invents
      nothing. */
  lemma {:induction false} FilterSplit<A>(p: A -> bool, q: A -> bool, xs: seq<A>)
    requires forall x :: q(x) == !p(x)
    ensures multiset(Filter(p, xs) + Filter(q, xs)) == multiset(xs)
    decreases |xs|
  {
    if xs != [] {
      var init := xs[..|xs| - 1];
      FilterSplit(p, q, init);
      assert xs == init + [xs[|xs| - 1]];
    }
  }

  /** A filter that no element passes leaves nothing. */
  lemma {:induction false} FilterDropsAll<A>(p: A -> bool, xs: seq<A>)
    requires forall i :: 0 <= i < |xs| ==> !p(xs[i])
    ensures Filter(p, xs) == []
    decreases |xs|
  {
    if xs != [] {
      FilterDropsAll(p, xs[..|xs| - 1]);
    }
  }

  /** Filtering a slice one element longer adds that element if it passes. */
  lemma FilterSliceStep<A>(p: A -> bool, xs: seq<A>, a: nat, b: nat)
    requires a < b <= |xs|
    ensures Filter(p, xs[a..b]) == Filter(p, xs[a..b - 1]) + (if p(xs[b - 1]) then [xs[b - 1]] else [])
  {
    assert xs[a..b][..b - a - 1] == xs[a..b - 1];
  }

  /** When nothing before `a` passes, the filter of `xs[a..b]` is that of
      `xs[0..b]`. */
  lemma {:induction false} FilterFramedFrom<A>(p: A -> bool, xs: seq<A>, a: nat, b: nat)
    requires a <= b <= |xs|
    requires forall i :: 0 <= i < a ==> !p(xs[i])
    ensures Filter(p, xs[a..b]) == Filter(p, xs[0..b])
    decreases b
  {
    if b == a {
      var pre := xs[0..a];
      assert forall i :: 0 <= i < |pre| ==> !p(pre[i]);
      FilterDropsAll(p, pre);
      assert xs[a..b] == [];
    } else {
      FilterFramedFrom(p, xs, a, b - 1);
      FilterSliceStep(p, xs, a, b);
      FilterSliceStep(p, xs, 0, b);
    }
  }

  /** When nothing from `b` on passes, the filter of `xs[0..b]` is that of
      `xs`. */
  lemma {:induction false} FilterFramedTo<A>(p: A -> bool, xs: seq<A>, b: nat)
    requires b <= |xs|
    requires forall i :: b <= i < |xs| ==> !p(xs[i])
    ensures Filter(p, xs[0..b]) == Filter(p, xs)
    decreases |xs| - b
  {
    if b < |xs| {
      FilterFramedTo(p, xs, b + 1);
      FilterSliceStep(p, xs, 0, b + 1);
    } else {
      assert xs[0..b] == xs;
    }
  }

  /** When nothing outside the slice `xs[a..b]` passes the filter, filtering
      the slice is filtering the whole. */
  lemma FilterOfFramedSlice<A>(p: A -> bool, xs: seq<A>, a: nat, b: nat)
    requires a <= b <= |xs|
    requires forall i :: 0 <= i < a ==> !p(xs[i])
    requires forall i :: b <= i < |xs| ==> !p(xs[i])
    ensures Filter(p, xs[a..b]) == Filter(p, xs)
  {
    FilterFramedFrom(p, xs, a, b);
    FilterFramedTo(p, xs, b);
  }

  /** Filtering by a weaker predicate first does not change a filter by a
      stronger one. */
  lemma {:induction false} FilterAfterWeaker<A>(p: A -> bool, q: A -> bool, xs: seq<A>)
    requires forall x :: p(x) ==> q(x)
    ensures Filter(p, Filter(q, xs)) == Filter(p, xs)
    decreases |xs|
  {
    if xs != [] {
      var init, last := xs[..|xs| - 1], xs[|xs| - 1];
      FilterAfterWeaker(p, q, init);
      FilterConcat(p, Filter(q, init), if q(last) then [last] else []);
    }
  }

  /** A filter that every element passes changes nothing. */
  lemma {:induction false} FilterKeepsAll<A>(p: A -> bool, xs: seq<A>)
    requires forall i :: 0 <= i < |xs| ==> p(xs[i])
    ensures Filter(p, xs) == xs
    decreases |xs|
  {
    if xs != [] {
      FilterKeepsAll(p, xs[..|xs| - 1]);
    }
  }

  /** The pieces laid end to end, the shape of a loop that appends a
      block per step. */
  function Flatten<A>(xss: seq<seq<A>>): seq<A>
    decreases |xss|
  {
    if xss == [] then [] else Flatten(xss[..|xss| - 1]) + xss[|xss| - 1]
  }

  /** `[f(0), …, f(k - 1)]`. */
  function Tabulate<A>(f: nat -> A, k: nat): (r: seq<A>)
    ensures |r| == k
  {
    if k == 0 then [] else Tabulate(f, k - 1) + [f(k - 1)]
  }

  lemma {:induction false} TabulateAt<A>(f: nat -> A, k: nat)
    ensures forall i :: 0 <= i < k ==> Tabulate(f, k)[i] == f(i)
  {
    if k > 0 {
      TabulateAt(f, k - 1);
    }
  }

  /** Regrouping a concatenation of three. */
  lemma AppendAssoc<A>(a: seq<A>, b: seq<A>, c: seq<A>)
    ensures a + (b + c) == a + b + c
  {
  }

  lemma FlattenSnoc<A>(xss: seq<seq<A>>, xs: seq<A>)
    ensures Flatten(xss + [xs]) == Flatten(xss) + xs
  {
    assert (xss + [xs])[..|xss|] == xss;
  }

  /** One more step of a loop over the pieces. */
  lemma FlattenStep<A>(xss: seq<seq<A>>, k: nat)
    requires k < |xss|
    ensures Flatten(xss[..k + 1]) == Flatten(xss[..k]) + xss[k]
  {
    assert xss[..k + 1] == xss[..k] + [xss[k]];
    FlattenSnoc(xss[..k], xss[k]);
  }

  /** The step of a loop that appends piece `k` to what it has built on
      top of `base`. */
  lemma FlattenAppendStep<A>(base: seq<A>, xss: seq<seq<A>>, k: nat)
    requires k < |xss|
    ensures base + Flatten(xss[..k]) + xss[k] == base + Flatten(xss[..k + 1])
  {
    FlattenStep(xss, k);
    AppendAssoc(base, Flatten(xss[..k]), xss[k]);
  }

  lemma FlattenWhole<A>(xss: seq<seq<A>>)
    ensures Flatten(xss[..|xss|]) == Flatten(xss)
  {
    assert xss[..|xss|] == xss;
  }

  /** Pieces that are all empty lay out to nothing. */
  lemma {:induction false} FlattenAllEmpty<A>(xss: seq<seq<A>>)
    requires forall i :: 0 <= i < |xss| ==> xss[i] == []
    ensures Flatten(xss) == []
    decreases |xss|
  {
    if xss != [] {
      FlattenAllEmpty(xss[..|xss| - 1]);
    }
  }

  /** Pieces of one element each lay out to those elements, in order. */
  lemma {:induction false} FlattenSingletons<A>(xss: seq<seq<A>>)
    requires forall i :: 0 <= i < |xss| ==> |xss[i]| == 1
    ensures |Flatten(xss)| == |xss|
    ensures forall i :: 0 <= i < |xss| ==> Flatten(xss)[i] == xss[i][0]
    decreases |xss|
  {
    if xss != [] {
      FlattenSingletons(xss[..|xss| - 1]);
    }
  }

  /** Only one non-empty piece: the layout is that piece. */
  lemma {:induction false} FlattenOnlyOne<A>(xss: seq<seq<A>>, j: nat)
    requires j < |xss|
    requires forall i :: 0 <= i < |xss| && i != j ==> xss[i] == []
    ensures Flatten(xss) == xss[j]
    decreases |xss|
  {
    var init := xss[..|xss| - 1];
    if j == |xss| - 1 {
      FlattenAllEmpty(init);
    } else {
      FlattenOnlyOne(init, j);
    }
  }

  /** Every element of the layout comes from some piece. */
  lemma {:induction false} FlattenMembers<A>(xss: seq<seq<A>>, p: A -> bool)
    requires forall i, k :: 0 <= i < |xss| && 0 <= k < |xss[i]| ==> p(xss[i][k])
    ensures forall k :: 0 <= k < |Flatten(xss)| ==> p(Flatten(xss)[k])
    decreases |xss|
  {
    if xss != [] {
      FlattenMembers(xss[..|xss| - 1], p);
    }
  }

  /** A dictionary built from `keys` in order, each key mapped to its
      position counted from 1; a later occurrence overwrites an earlier one. */
  function LastPositions<K>(keys: seq<K>): map<K, nat>
  {
    if keys == [] then map[] else LastPositions(keys[..|keys| - 1])[keys[|keys| - 1] := |keys|]
  }

  /** The keys of the dictionary are exactly the elements of `keys`. */
  lemma {:induction false} LastPositionsKeys<K>(keys: seq<K>, a: K)
    ensures a in LastPositions(keys) <==> a in keys
  {
    if keys != [] {
      var init := keys[..|keys| - 1];
      LastPositionsKeys(init, a);
      assert keys == init + [keys[|keys| - 1]];
    }
  }

  /** A key maps to the position of its last occurrence. */
  lemma {:induction false} LastPositionsValue<K>(keys: seq<K>, a: K)
    requires a in LastPositions(keys)
    ensures 1 <= LastPositions(keys)[a] <= |keys|
    ensures keys[LastPositions(keys)[a] - 1] == a
    ensures forall j :: LastPositions(keys)[a] <= j < |keys| ==> keys[j] != a
  {
    var n := |keys|;
    var init := keys[..n - 1];
    if a != keys[n - 1] {
      LastPositionsValue(init, a);
      var i := LastPositions(init)[a];
      assert init[i - 1] == keys[i - 1];
      forall j | i <= j < n ensures keys[j] != a {
        if j < n - 1 {
          assert init[j] == keys[j];
        }
      }
    }
  }
}
