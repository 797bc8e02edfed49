/** The specializer: `patch_attributes` and `patch_args_and_attributes`, which turn a generic
    template into a method for one record type by rewriting the names its compiled code
    refers to, leaving the instructions and the constant pool as they are. */
module Specializer {
  import opened OrderedDicts
  import opened PlaceholderNames
  import opened CodeObjects

  function Min(a: nat, b: nat): nat {
    if a <= b then a else b
  }

  /** `(*names[:start], *fields)`: Python's slice stops at the end of a shorter tuple. */
  function KeptPrefixThen(names: seq<string>, start: nat, fields: seq<string>): seq<string>
  {
    names[..Min(start, |names|)] + fields
  }

  /** `patch_attributes(func, fields, start)`: the same function with `co_names` replaced by
      its first `start` entries followed by the field names. */
  function PatchAttributes(order: seq<string>, func: Func, fields: seq<string>, start: nat): (r: Func)
    requires IsCodeObject(order, func.code)
    ensures IsCodeObject(order, r.code)
    ensures Names(r.code) == KeptPrefixThen(Names(func.code), start, fields)
    ensures forall name :: name in func.code.attrs && name != "co_names" ==>
      r.code.attrs[name] == func.code.attrs[name]
    ensures r.globals == func.globals
  {
    var names := KeptPrefixThen(Names(func.code), start, fields);
    var kwargs := Dict(["co_names"], map["co_names" := NamesAttr(names)]);
    Func(Replaced(order, func.code, kwargs).value, func.globals)
  }

  /** `patch_args_and_attributes(func, fields, start)`: as `patch_attributes`, and
      `co_varnames` becomes `('self', *fields)`. */
  function PatchArgsAndAttributes(order: seq<string>, func: Func, fields: seq<string>, start: nat): (r: Func)
    requires IsCodeObject(order, func.code)
    ensures IsCodeObject(order, r.code)
    ensures Names(r.code) == KeptPrefixThen(Names(func.code), start, fields)
    ensures Varnames(r.code) == ["self"] + fields
    ensures forall name :: name in func.code.attrs && name != "co_names" && name != "co_varnames" ==>
      r.code.attrs[name] == func.code.attrs[name]
    ensures r.globals == func.globals
  {
    var names := KeptPrefixThen(Names(func.code), start, fields);
    var kwargs := Dict(["co_names", "co_varnames"],
                       map["co_names" := NamesAttr(names), "co_varnames" := NamesAttr(["self"] + fields)]);
    Func(Replaced(order, func.code, kwargs).value, func.globals)
  }

  /** The code of `func` with every placeholder in both name tables replaced by its field. */
  ghost predicate IsRenamingOf(order: seq<string>, r: Func, func: Func, fields: seq<string>)
    requires IsCodeObject(order, func.code) && IsCodeObject(order, r.code)
  {
    && Names(r.code) == RenameAll(fields, Names(func.code))
    && Varnames(r.code) == RenameAll(fields, Varnames(func.code))
    && (forall name :: name in func.code.attrs && name != "co_names" && name != "co_varnames" ==>
         r.code.attrs[name] == func.code.attrs[name])
    && r.globals == func.globals
  }

  /** On a template whose names are a placeholder-free prefix of length `start` followed by
      `_0.._{n-1}` (the `__repr__` template, with prefix `type, __name__`), patching renames each
      placeholder `_i` to the field `fields[i]` and changes nothing else. */
  lemma PatchAttributesRenames(order: seq<string>, func: Func, fields: seq<string>, prefix: seq<string>)
    requires IsCodeObject(order, func.code)
    requires Names(func.code) == prefix + Placeholders(|fields|)
    requires forall i :: 0 <= i < |prefix| ==> NotPlaceholderLike(prefix[i])
    requires forall i :: 0 <= i < |Varnames(func.code)| ==> NotPlaceholderLike(Varnames(func.code)[i])
    ensures IsRenamingOf(order, PatchAttributes(order, func, fields, |prefix|), func, fields)
  {
    var names := Names(func.code);
    assert KeptPrefixThen(names, |prefix|, fields) == prefix + fields by {
      assert names[..|prefix|] == prefix;
    }
    assert RenameAll(fields, names) == prefix + fields by {
      RenameLayout(prefix, fields, []);
      assert prefix + Placeholders(|fields|) + [] == names;
      assert prefix + fields + [] == prefix + fields;
    }
    RenameNothing(fields, Varnames(func.code));
  }

  lemma RenameNothing(fields: seq<string>, names: seq<string>)
    requires forall i :: 0 <= i < |names| ==> NotPlaceholderLike(names[i])
    ensures RenameAll(fields, names) == names
  {
    forall i | 0 <= i < |names| ensures RenameAll(fields, names)[i] == names[i] {
      RenameOther(fields, names[i]);
    }
  }

  /** On the `__init__` template, whose attribute names are `_0.._{n-1}` and whose parameters
      are `self, _0.._{n-1}`, patching renames each placeholder to its field in both tables. */
  lemma PatchArgsAndAttributesRenames(order: seq<string>, func: Func, fields: seq<string>)
    requires IsCodeObject(order, func.code)
    requires Names(func.code) == Placeholders(|fields|)
    requires Varnames(func.code) == ["self"] + Placeholders(|fields|)
    ensures IsRenamingOf(order, PatchArgsAndAttributes(order, func, fields, 0), func, fields)
  {
    RenamePlaceholders(fields);
    RenameSelfThenPlaceholders(fields);
  }

  /** As written, patching the `__eq__` template, whose names are `__class__`, the
      placeholders and then `NotImplemented`, with `start = 1` drops the last entry: the name
      table becomes one shorter, so the index the `NotImplemented` lookup uses is out of range,
      and the result is not the renaming of the template. */
  lemma EqPatchDropsNotImplemented(order: seq<string>, func: Func, fields: seq<string>)
    requires IsCodeObject(order, func.code)
    requires Names(func.code) == ["__class__"] + Placeholders(|fields|) + ["NotImplemented"]
    ensures |Names(PatchAttributes(order, func, fields, 1).code)| == |fields| + 1
    ensures |Names(func.code)| == |fields| + 2 && Names(func.code)[|fields| + 1] == "NotImplemented"
    ensures Names(PatchAttributes(order, func, fields, 1).code) != RenameAll(fields, Names(func.code))
  {
  }

  /** The corrected patch: the first `start` names, then the fields in place of the
      placeholders, then whatever names the template has after them. */
  function KeptAroundFields(names: seq<string>, start: nat, fields: seq<string>): seq<string>
  {
    names[..Min(start, |names|)] + fields + names[Min(start + |fields|, |names|)..]
  }

  /** `patch_attributes` as evidently intended: like `PatchAttributes`, but the names after the
      placeholders stay. */
  function PatchAttributesKeepingSuffix(order: seq<string>, func: Func, fields: seq<string>, start: nat): (r: Func)
    requires IsCodeObject(order, func.code)
    ensures IsCodeObject(order, r.code)
    ensures Names(r.code) == KeptAroundFields(Names(func.code), start, fields)
    ensures start + |fields| <= |Names(func.code)| ==> |Names(r.code)| == |Names(func.code)|
    ensures forall name :: name in func.code.attrs && name != "co_names" ==>
      r.code.attrs[name] == func.code.attrs[name]
    ensures r.globals == func.globals
  {
    var names := KeptAroundFields(Names(func.code), start, fields);
    var kwargs := Dict(["co_names"], map["co_names" := NamesAttr(names)]);
    Func(Replaced(order, func.code, kwargs).value, func.globals)
  }

  /** On any template laid out as placeholder-free prefix, placeholders, placeholder-free
      suffix (the `__eq__` template among them), the corrected patch is exactly the renaming. */
  lemma PatchKeepingSuffixRenames(order: seq<string>, func: Func, fields: seq<string>,
                                  prefix: seq<string>, suffix: seq<string>)
    requires IsCodeObject(order, func.code)
    requires Names(func.code) == prefix + Placeholders(|fields|) + suffix
    requires forall i :: 0 <= i < |prefix| ==> NotPlaceholderLike(prefix[i])
    requires forall i :: 0 <= i < |suffix| ==> NotPlaceholderLike(suffix[i])
    requires forall i :: 0 <= i < |Varnames(func.code)| ==> NotPlaceholderLike(Varnames(func.code)[i])
    ensures IsRenamingOf(order, PatchAttributesKeepingSuffix(order, func, fields, |prefix|), func, fields)
  {
    RenameLayout(prefix, fields, suffix);
    KeptAroundLayout(prefix, Placeholders(|fields|), suffix, fields);
    RenameNothing(fields, Varnames(func.code));
  }

  lemma KeptAroundLayout(prefix: seq<string>, middle: seq<string>, suffix: seq<string>, fields: seq<string>)
    requires |middle| == |fields|
    ensures KeptAroundFields(prefix + middle + suffix, |prefix|, fields) == prefix + fields + suffix
  {
    var names := prefix + middle + suffix;
    assert names[..|prefix|] == prefix;
    assert names[|prefix| + |fields|..] == suffix;
  }

  /** Where a template has no names after its placeholders the two patches agree. */
  lemma PatchesAgreeWithoutSuffix(order: seq<string>, func: Func, fields: seq<string>, start: nat)
    requires IsCodeObject(order, func.code)
    requires |Names(func.code)| <= start + |fields|
    ensures PatchAttributesKeepingSuffix(order, func, fields, start) == PatchAttributes(order, func, fields, start)
  {
    var a, b := PatchAttributesKeepingSuffix(order, func, fields, start), PatchAttributes(order, func, fields, start);
    assert KeptAroundFields(Names(func.code), start, fields) == KeptPrefixThen(Names(func.code), start, fields);
    assert a.code.attrs == b.code.attrs;
  }
}
