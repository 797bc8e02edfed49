/** The positional placeholder names `_0, _1, …` that a generic template uses for "the i-th
    field", and the renaming of placeholders to real field names that specialization performs. */
module PlaceholderNames {
  import opened Seqs
  import opened Text

  /** `f'_{i}'`. */
  function Placeholder(i: nat): (p: string)
    ensures |p| >= 2 && p[0] == '_' && IsDigit(p[1])
  {
    "_" + Decimal(i)
  }

  /** Placeholders are valid Python identifiers. */
  lemma PlaceholderIsIdentifier(i: nat)
    ensures IsIdentifier(Placeholder(i))
  {
    var p := Placeholder(i);
    forall k | 0 <= k < |p| ensures IsIdentifierChar(p[k]) {
      if k > 0 {
        assert p[k] == Decimal(i)[k - 1];
      }
    }
  }

  /** `[f'_{n}' for n in range(count)]`. */
  function Placeholders(count: nat): (names: seq<string>)
    ensures |names| == count
    ensures forall i :: 0 <= i < count ==> names[i] == Placeholder(i)
  {
    if count == 0 then [] else Placeholders(count - 1) + [Placeholder(count - 1)]
  }

  lemma PlaceholderInjective(i: nat, j: nat)
    ensures Placeholder(i) == Placeholder(j) ==> i == j
  {
    if Placeholder(i) == Placeholder(j) {
      assert Decimal(i) == Placeholder(i)[1..];
      assert Decimal(j) == Placeholder(j)[1..];
      DecimalInjective(i, j);
    }
  }

  /** The placeholder names handed to a generator are pairwise distinct. */
  lemma PlaceholdersDistinct(count: nat)
    ensures NoDuplicates(Placeholders(count))
  {
    var names := Placeholders(count);
    forall i, j | 0 <= i < j < count ensures names[i] != names[j] {
      PlaceholderInjective(i, j);
    }
  }

  /** A name that does not look like a placeholder: it does not start with `_` and a digit. */
  predicate NotPlaceholderLike(s: string) {
    !(|s| >= 2 && s[0] == '_' && IsDigit(s[1]))
  }

  /** Which of the first `count` placeholders `s` is, if any. */
  function PlaceholderIndex(s: string, count: nat): (r: Option<nat>)
    ensures r.Some? ==> r.value < count && Placeholder(r.value) == s
    ensures r.None? ==> forall i :: 0 <= i < count ==> Placeholder(i) != s
  {
    if count == 0 then None
    else if Placeholder(count - 1) == s then Some(count - 1)
    else PlaceholderIndex(s, count - 1)
  }

  /** The name `s` becomes when placeholder `_i` stands for `fields[i]`: a placeholder is
      replaced by its field, every other name stays. */
  function Rename(fields: seq<string>, s: string): string
  {
    match PlaceholderIndex(s, |fields|)
    case Some(i) => fields[i]
    case None => s
  }

  function RenameAll(fields: seq<string>, names: seq<string>): (r: seq<string>)
    ensures |r| == |names|
  {
    seq(|names|, i requires 0 <= i < |names| => Rename(fields, names[i]))
  }

  lemma RenamePlaceholder(fields: seq<string>, i: nat)
    requires i < |fields|
    ensures Rename(fields, Placeholder(i)) == fields[i]
  {
    var r := PlaceholderIndex(Placeholder(i), |fields|);
    if r.Some? {
      PlaceholderInjective(r.value, i);
    }
  }

  lemma RenameOther(fields: seq<string>, s: string)
    requires NotPlaceholderLike(s)
    ensures Rename(fields, s) == s
  {
  }

  /** Renaming a template's name table `prefix + _0.._{n-1} + suffix`, where neither the
      prefix nor the suffix holds a placeholder, yields `prefix + fields + suffix`. */
  lemma {:induction false} RenameLayout(prefix: seq<string>, fields: seq<string>, suffix: seq<string>)
    requires forall i :: 0 <= i < |prefix| ==> NotPlaceholderLike(prefix[i])
    requires forall i :: 0 <= i < |suffix| ==> NotPlaceholderLike(suffix[i])
    ensures RenameAll(fields, prefix + Placeholders(|fields|) + suffix) == prefix + fields + suffix
  {
    var names := prefix + Placeholders(|fields|) + suffix;
    var r := RenameAll(fields, names);
    forall k | 0 <= k < |names| ensures r[k] == (prefix + fields + suffix)[k] {
      if k < |prefix| {
        RenameOther(fields, prefix[k]);
      } else if k < |prefix| + |fields| {
        RenamePlaceholder(fields, k - |prefix|);
      } else {
        RenameOther(fields, suffix[k - |prefix| - |fields|]);
      }
    }
  }

  /** Renaming the placeholders `_0.._{n-1}` themselves gives back the fields. */
  lemma RenamePlaceholders(fields: seq<string>)
    ensures RenameAll(fields, Placeholders(|fields|)) == fields
  {
    var names := Placeholders(|fields|);
    forall k | 0 <= k < |fields| ensures RenameAll(fields, names)[k] == fields[k] {
      RenamePlaceholder(fields, k);
    }
  }

  lemma RenameCons(fields: seq<string>, s: string, names: seq<string>)
    ensures RenameAll(fields, [s] + names) == [Rename(fields, s)] + RenameAll(fields, names)
  {
    var a, b := RenameAll(fields, [s] + names), [Rename(fields, s)] + RenameAll(fields, names);
    forall k | 0 <= k < |a| ensures a[k] == b[k] {
      if k > 0 {
        assert ([s] + names)[k] == names[k - 1];
      }
    }
  }

  /** The parameter list `self, _0.._{n-1}` renames to `self` and the fields. */
  lemma RenameSelfThenPlaceholders(fields: seq<string>)
    ensures RenameAll(fields, ["self"] + Placeholders(|fields|)) == ["self"] + fields
  {
    RenameCons(fields, "self", Placeholders(|fields|));
    RenamePlaceholders(fields);
    RenameOther(fields, "self");
  }
}
