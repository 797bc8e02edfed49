/** The field resolver, `all_hints`: the annotations of every class of a class's method
    resolution order folded into one ordered mapping. */
module FieldResolver {
  import opened Seqs
  import opened OrderedDicts

  /** `reduce(lambda x, y: {**annotations(y), **x}, mro, {})`, where `mro[i]` is
      `getattr(c, '__annotations__', {})` of the i-th class of `cls.__mro__`
      (the class itself first, its most-base ancestor last). Before Python 3.10 a class without
      annotations of its own supplies the dict of its nearest annotated base. */
  function AllHints<K(!new), V>(mro: seq<Dict<K, V>>): Dict<K, V>
  {
    if |mro| == 0 then Empty() else Merge(mro[|mro| - 1], AllHints(mro[..|mro| - 1]))
  }

  ghost predicate AllValid<K, V>(mro: seq<Dict<K, V>>) {
    forall i :: 0 <= i < |mro| ==> Valid(mro[i])
  }

  /** Some class of the MRO supplies a dict that has `k`. */
  ghost predicate Declared<K, V>(mro: seq<Dict<K, V>>, k: K) {
    exists i :: 0 <= i < |mro| && k in mro[i].items
  }

  function FirstFrom<K, V>(mro: seq<Dict<K, V>>, k: K, i: nat): (r: nat)
    requires exists j :: i <= j < |mro| && k in mro[j].items
    ensures i <= r < |mro| && k in mro[r].items
    ensures forall j :: i <= j < r ==> k !in mro[j].items
    decreases |mro| - i
  {
    if k in mro[i].items then i else FirstFrom(mro, k, i + 1)
  }

  function LastBelow<K, V>(mro: seq<Dict<K, V>>, k: K, n: nat): (r: nat)
    requires n <= |mro|
    requires exists j :: 0 <= j < n && k in mro[j].items
    ensures r < n && k in mro[r].items
    ensures forall j :: r < j < n ==> k !in mro[j].items
  {
    if k in mro[n - 1].items then n - 1 else LastBelow(mro, k, n - 1)
  }

  /** The most-derived class whose supplied dict has `k`. */
  function FirstDecl<K, V>(mro: seq<Dict<K, V>>, k: K): nat
    requires Declared(mro, k)
  {
    FirstFrom(mro, k, 0)
  }

  /** The most-base class whose supplied dict has `k`: the one that introduces it. */
  function LastDecl<K, V>(mro: seq<Dict<K, V>>, k: K): nat
    requires Declared(mro, k)
  {
    LastBelow(mro, k, |mro|)
  }

  /** `a` comes before `b` among the fields: it is introduced by a more-base class, or by the
      same class and earlier in that class's own annotations. */
  ghost predicate Before<K(!new), V>(mro: seq<Dict<K, V>>, a: K, b: K) {
    && AllValid(mro) && Declared(mro, a) && Declared(mro, b)
    && var la, lb := LastDecl(mro, a), LastDecl(mro, b);
       assert Valid(mro[la]);
       la > lb || (la == lb && IndexOf(mro[la].keys, a) < IndexOf(mro[la].keys, b))
  }

  /** The field list `dataklass` uses: the keys of the merged annotations. */
  function Fields<K(!new), V>(mro: seq<Dict<K, V>>): seq<K>
  {
    AllHints(mro).keys
  }

  lemma {:induction false} AllHintsValid<K(!new), V>(mro: seq<Dict<K, V>>)
    requires AllValid(mro)
    ensures Valid(AllHints(mro))
  {
    if |mro| > 0 {
      var pre := mro[..|mro| - 1];
      assert AllValid(pre) by {
        forall i | 0 <= i < |pre| ensures Valid(pre[i]) {
          assert pre[i] == mro[i];
        }
      }
      AllHintsValid(pre);
      MergeValid(mro[|mro| - 1], AllHints(pre));
    }
  }

  /** The merged keys are exactly the keys some supplied dict has. */
  lemma {:induction false} AllHintsKeys<K(!new), V>(mro: seq<Dict<K, V>>)
    ensures forall k :: k in AllHints(mro).items <==> Declared(mro, k)
  {
    if |mro| > 0 {
      var pre, y := mro[..|mro| - 1], mro[|mro| - 1];
      AllHintsKeys(pre);
      forall k ensures k in AllHints(mro).items <==> Declared(mro, k) {
        if Declared(pre, k) {
          var i :| 0 <= i < |pre| && k in pre[i].items;
          assert mro[i] == pre[i];
        }
        if Declared(mro, k) && k !in y.items {
          var i :| 0 <= i < |mro| && k in mro[i].items;
          assert pre[i] == mro[i];
        }
      }
    }
  }

  lemma FirstDeclOfOlder<K, V>(pre: seq<Dict<K, V>>, y: Dict<K, V>, k: K)
    requires Declared(pre, k)
    ensures Declared(pre + [y], k) && FirstDecl(pre + [y], k) == FirstDecl(pre, k)
  {
    var mro := pre + [y];
    var g := FirstDecl(pre, k);
    assert mro[g] == pre[g];
    var f := FirstDecl(mro, k);
    assert mro[f] == pre[f];
  }

  lemma FirstDeclOfNewest<K, V>(pre: seq<Dict<K, V>>, y: Dict<K, V>, k: K)
    requires !Declared(pre, k) && k in y.items
    ensures Declared(pre + [y], k) && FirstDecl(pre + [y], k) == |pre|
  {
    var mro := pre + [y];
    assert mro[|pre|] == y;
  }

  /** Each field's annotation is the one in the most-derived supplied dict that has it. */
  lemma {:induction false} AllHintsValues<K(!new), V>(mro: seq<Dict<K, V>>)
    ensures forall k :: k in AllHints(mro).items ==>
      Declared(mro, k) && AllHints(mro).items[k] == mro[FirstDecl(mro, k)].items[k]
  {
    AllHintsKeys(mro);
    if |mro| > 0 {
      var pre, y := mro[..|mro| - 1], mro[|mro| - 1];
      assert mro == pre + [y];
      AllHintsKeys(pre);
      AllHintsValues(pre);
      var acc := AllHints(pre);
      forall k | k in AllHints(mro).items
        ensures AllHints(mro).items[k] == mro[FirstDecl(mro, k)].items[k]
      {
        if k in acc.items {
          FirstDeclOfOlder(pre, y, k);
        } else {
          FirstDeclOfNewest(pre, y, k);
        }
      }
    }
  }

  lemma LastDeclOfNewest<K, V>(pre: seq<Dict<K, V>>, y: Dict<K, V>, k: K)
    requires k in y.items
    ensures Declared(pre + [y], k) && LastDecl(pre + [y], k) == |pre|
  {
    assert (pre + [y])[|pre|] == y;
  }

  lemma LastDeclOfOlder<K, V>(pre: seq<Dict<K, V>>, y: Dict<K, V>, k: K)
    requires k !in y.items && Declared(pre, k)
    ensures Declared(pre + [y], k) && LastDecl(pre + [y], k) == LastDecl(pre, k)
  {
    var mro := pre + [y];
    var l := LastDecl(pre, k);
    assert mro[l] == pre[l];
    var m := LastDecl(mro, k);
    assert m < |pre| by {
      assert mro[|pre|] == y;
    }
    assert mro[m] == pre[m];
  }

  lemma BeforeWithinNewest<K(!new), V>(pre: seq<Dict<K, V>>, y: Dict<K, V>, i: nat, j: nat)
    requires AllValid(pre + [y]) && i < j < |y.keys|
    ensures Before(pre + [y], y.keys[i], y.keys[j])
  {
    assert Valid((pre + [y])[|pre|]);
    LastDeclOfNewest(pre, y, y.keys[i]);
    LastDeclOfNewest(pre, y, y.keys[j]);
    IndexOfUnique(y.keys, i);
    IndexOfUnique(y.keys, j);
  }

  lemma BeforeNewestOlder<K(!new), V>(pre: seq<Dict<K, V>>, y: Dict<K, V>, a: K, b: K)
    requires AllValid(pre + [y]) && a in y.items && b !in y.items && Declared(pre, b)
    ensures Before(pre + [y], a, b)
  {
    LastDeclOfNewest(pre, y, a);
    LastDeclOfOlder(pre, y, b);
  }

  lemma BeforeAmongOlder<K(!new), V>(pre: seq<Dict<K, V>>, y: Dict<K, V>, a: K, b: K)
    requires AllValid(pre + [y]) && a !in y.items && b !in y.items && Before(pre, a, b)
    ensures Before(pre + [y], a, b)
  {
    LastDeclOfOlder(pre, y, a);
    LastDeclOfOlder(pre, y, b);
    var la := LastDecl(pre, a);
    assert (pre + [y])[la] == pre[la];
  }

  /** One step of the fold keeps the order: `y`'s keys first, then the older keys `y` lacks. */
  lemma MergedOrderAt<K(!new), V>(pre: seq<Dict<K, V>>, y: Dict<K, V>, w: seq<K>, i: nat, j: nat)
    requires AllValid(pre + [y])
    requires forall x :: x in w ==> x !in y.items && Declared(pre, x)
    requires forall p, q :: 0 <= p < q < |w| ==> Before(pre, w[p], w[q])
    requires i < j < |y.keys + w|
    ensures Before(pre + [y], (y.keys + w)[i], (y.keys + w)[j])
  {
    var ks := y.keys + w;
    assert Valid((pre + [y])[|pre|]);
    if j < |y.keys| {
      BeforeWithinNewest(pre, y, i, j);
    } else if i < |y.keys| {
      assert ks[j] == w[j - |y.keys|];
      BeforeNewestOlder(pre, y, ks[i], ks[j]);
    } else {
      assert ks[i] == w[i - |y.keys|] && ks[j] == w[j - |y.keys|];
      BeforeAmongOlder(pre, y, ks[i], ks[j]);
    }
  }

  /** The older keys that survive a merge keep their order. */
  lemma SurvivorsOrdered<K(!new), V>(pre: seq<Dict<K, V>>, keys: seq<K>, y: Dict<K, V>)
    requires forall p, q :: 0 <= p < q < |keys| ==> Before(pre, keys[p], keys[q])
    ensures forall p, q :: 0 <= p < q < |Without(keys, y.items)| ==>
      Before(pre, Without(keys, y.items)[p], Without(keys, y.items)[q])
  {
    var before := (a, b) => Before(pre, a, b);
    assert forall p, q :: 0 <= p < q < |keys| ==> before(keys[p], keys[q]);
    WithoutKeepsOrder(keys, y.items, before);
  }

  /** One step of the fold: if the older classes' merged keys are in order, so are the keys
      after merging in the next more-derived class. */
  lemma MergedOrder<K(!new), V>(pre: seq<Dict<K, V>>, y: Dict<K, V>)
    requires AllValid(pre + [y]) && AllValid(pre)
    requires forall i, j :: 0 <= i < j < |AllHints(pre).keys| ==>
      Before(pre, AllHints(pre).keys[i], AllHints(pre).keys[j])
    ensures forall i, j :: 0 <= i < j < |Merge(y, AllHints(pre)).keys| ==>
      Before(pre + [y], Merge(y, AllHints(pre)).keys[i], Merge(y, AllHints(pre)).keys[j])
  {
    var acc := AllHints(pre);
    AllHintsKeys(pre);
    AllHintsValid(pre);
    var w := Without(acc.keys, y.items);
    SurvivorsOrdered(pre, acc.keys, y);
    assert forall x :: x in w ==> x !in y.items && Declared(pre, x);
    assert Merge(y, acc).keys == y.keys + w;
    forall i, j | 0 <= i < j < |y.keys + w| ensures Before(pre + [y], (y.keys + w)[i], (y.keys + w)[j]) {
      MergedOrderAt(pre, y, w, i, j);
    }
  }

  /** The merged keys are ordered by the class that introduced them, most-base first, and
      keys introduced by the same class keep that class's own order. */
  lemma {:induction false} AllHintsOrder<K(!new), V>(mro: seq<Dict<K, V>>)
    requires AllValid(mro)
    ensures forall i, j :: 0 <= i < j < |AllHints(mro).keys| ==>
      Before(mro, AllHints(mro).keys[i], AllHints(mro).keys[j])
  {
    if |mro| > 0 {
      var pre, y := mro[..|mro| - 1], mro[|mro| - 1];
      assert mro == pre + [y];
      assert AllValid(pre) by {
        forall i | 0 <= i < |pre| ensures Valid(pre[i]) {
          assert pre[i] == mro[i];
        }
      }
      AllHintsOrder(pre);
      MergedOrder(pre, y);
    }
  }
}
