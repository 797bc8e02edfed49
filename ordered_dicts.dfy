/** Python's insertion-ordered `dict`: the key order as a sequence and the entries as a map. */
module OrderedDicts {
  import opened Seqs

  datatype Dict<K, V> = Dict(keys: seq<K>, items: map<K, V>)

  /** Every key once in the order, and the order and the entries hold the same keys. */
  ghost predicate Valid<K, V>(d: Dict<K, V>) {
    && NoDuplicates(d.keys)
    && (forall k :: k in d.items ==> k in d.keys)
    && (forall i :: 0 <= i < |d.keys| ==> d.keys[i] in d.items)
  }

  function Empty<K, V>(): (d: Dict<K, V>)
    ensures Valid(d) && d.keys == []
  {
    Dict([], map[])
  }

  /** The keys of `s` that `m` does not hold, in the order of `s`. */
  function Without<K(!new), V>(s: seq<K>, m: map<K, V>): (r: seq<K>)
    ensures forall x :: x in r <==> x in s && x !in m
    ensures NoDuplicates(s) ==> NoDuplicates(r)
  {
    if |s| == 0 then []
    else if s[0] in m then Without(s[1..], m)
    else [s[0]] + Without(s[1..], m)
  }

  /** Taking keys out of a sequence keeps the relative order of the ones that stay. */
  lemma {:induction false} WithoutKeepsOrder<K(!new), V>(s: seq<K>, m: map<K, V>, before: (K, K) -> bool)
    requires forall i, j :: 0 <= i < j < |s| ==> before(s[i], s[j])
    ensures forall i, j :: 0 <= i < j < |Without(s, m)| ==> before(Without(s, m)[i], Without(s, m)[j])
  {
    if |s| > 0 {
      var tail := s[1..];
      forall i, j | 0 <= i < j < |tail| ensures before(tail[i], tail[j]) {
        assert tail[i] == s[i + 1] && tail[j] == s[j + 1];
      }
      WithoutKeepsOrder(tail, m, before);
      var rest := Without(s[1..], m);
      if s[0] !in m {
        var r := [s[0]] + rest;
        forall i, j | 0 <= i < j < |r| ensures before(r[i], r[j]) {
          if i == 0 {
            assert rest[j - 1] in rest;
            var k := IndexOf(s[1..], rest[j - 1]);
            assert s[0] == r[0] && s[1 + k] == r[j];
            assert before(s[0], s[1 + k]);
          } else {
            assert r[i] == rest[i - 1] && r[j] == rest[j - 1];
            assert before(rest[i - 1], rest[j - 1]);
          }
        }
        assert Without(s, m) == r;
      } else {
        assert Without(s, m) == rest;
      }
    }
  }

  /** `{**a, **b}`: the keys of `a` in their order, then the keys only `b` has in theirs;
      where both hold a key, `b`'s value wins and `a`'s position stays. */
  function Merge<K(!new), V>(a: Dict<K, V>, b: Dict<K, V>): (r: Dict<K, V>)
    ensures forall k :: k in r.items <==> k in a.items || k in b.items
    ensures forall k :: k in r.items ==> r.items[k] == if k in b.items then b.items[k] else a.items[k]
    ensures |a.keys| <= |r.keys| && r.keys[..|a.keys|] == a.keys
  {
    Dict(a.keys + Without(b.keys, a.items), a.items + b.items)
  }

  /** Merging two dicts yields a dict. */
  lemma MergeValid<K(!new), V>(a: Dict<K, V>, b: Dict<K, V>)
    requires Valid(a) && Valid(b)
    ensures Valid(Merge(a, b))
  {
    MergeKeysDistinct(a, b);
    MergeKeysCover(a, b);
  }

  lemma MergeKeysDistinct<K(!new), V>(a: Dict<K, V>, b: Dict<K, V>)
    requires Valid(a) && Valid(b)
    ensures NoDuplicates(Merge(a, b).keys)
  {
    var w := Without(b.keys, a.items);
    var keys := a.keys + w;
    forall i, j | 0 <= i < j < |keys| ensures keys[i] != keys[j] {
      if j >= |a.keys| && i < |a.keys| {
        assert keys[j] in w;
      }
    }
  }

  lemma MergeKeysCover<K(!new), V>(a: Dict<K, V>, b: Dict<K, V>)
    requires Valid(a) && Valid(b)
    ensures forall k :: k in Merge(a, b).items ==> k in Merge(a, b).keys
    ensures forall i :: 0 <= i < |Merge(a, b).keys| ==> Merge(a, b).keys[i] in Merge(a, b).items
  {
    var w := Without(b.keys, a.items);
    var r := Merge(a, b);
    assert r.keys == a.keys + w;
    forall k | k in r.items ensures k in r.keys {
      if k !in a.items {
        assert k in w;
      }
    }
  }
}
