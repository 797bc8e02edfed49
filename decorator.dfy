/** `dataklass(cls)`: collect the fields from the annotations along the method resolution
    order, then give the class an `__init__`, a `__repr__` and an `__eq__` specialized from the
    cached templates, except where the class defines one itself, and set `__match_args__`. */
module Decorator {
  import opened Seqs
  import opened OrderedDicts
  import opened FieldResolver
  import opened Generators
  import opened PlaceholderNames
  import opened CodeObjects
  import opened Specializer
  import opened Codegen

  /** A value in a class namespace: a function, the tuple of field names, or anything else. */
  datatype Member = FunctionMember(fn: Func) | TupleMember(items: seq<string>) | OtherMember(id: nat)

  /** The namespace key of each family's method. */
  function MethodName(family: Family): string
  {
    match family
    case Init => "__init__"
    case Repr => "__repr__"
    case Eq => "__eq__"
    case Iter => "__iter__"
    case Hash => "__hash__"
  }

  /** The keys `dataklass` sets are four different names. */
  lemma KeysDistinct()
    ensures "__init__" != "__repr__" && "__init__" != "__eq__" && "__repr__" != "__eq__"
    ensures "__match_args__" != "__init__" && "__match_args__" != "__repr__" && "__match_args__" != "__eq__"
  {
    assert "__init__"[2] == 'i' && "__repr__"[2] == 'r';
    assert |"__eq__"| == 6 && |"__init__"| == 8 && |"__repr__"| == 8 && |"__match_args__"| == 14;
  }

  /** The families `dataklass` attaches; `__iter__` and `__hash__` are generated by the
      module but not attached. */
  predicate Attached(family: Family) {
    family == Init || family == Repr || family == Eq
  }

  /** A compiled template whose code the specializer can patch. */
  ghost predicate WellFormed(order: seq<string>, c: Compiled) {
    c.Compiled? ==> IsCodeObject(order, c.fn.code)
  }

  /** Which patch `dataklass` applies to the `__eq__` template: `patch_attributes(…, 1)` as
      the module calls it, which drops the names after the placeholders, or the corrected
      patch that keeps them. */
  datatype EqPatch = AsWritten | Corrected

  /** The method `dataklass` derives from a family's template: `__init__` gets its name
      tables from `patch_args_and_attributes`, `__repr__` keeps `type, __name__` ahead of the
      fields, and `__eq__` keeps `__class__` ahead of them (and, corrected, its trailing names
      after them). */
  function Specialize(order: seq<string>, patch: EqPatch, family: Family, f: Func, fields: seq<string>): Func
    requires IsCodeObject(order, f.code) && Attached(family)
  {
    match family
    case Init => PatchArgsAndAttributes(order, f, fields, 0)
    case Repr => PatchAttributes(order, f, fields, 2)
    case Eq =>
      match patch
      case AsWritten => PatchAttributes(order, f, fields, 1)
      case Corrected => PatchAttributesKeepingSuffix(order, f, fields, 1)
  }

  /** What a family's cached template gives `dataklass`: the specialized method, or nothing
      when executing the template's text raised `SyntaxError`. */
  function Specialized(order: seq<string>, patch: EqPatch, family: Family, template: Compiled,
                       fields: seq<string>): (r: Option<Func>)
    requires WellFormed(order, template) && Attached(family)
    ensures r.Some? <==> template.Compiled?
  {
    match template
    case SyntaxError => None
    case Compiled(f) => Some(Specialize(order, patch, family, f, fields))
  }

  /** The class namespace after decorating and, when a template's text raised `SyntaxError`,
      the family whose generation raised. */
  datatype Decoration = Decoration(dict: map<string, Member>, failure: Option<Family>)

  /** One `if not name in clsdict: cls.name = patch(make(nfields), fields, …)` line, given
      what the patched template is (`None` when generating it raised). */
  function Attach(d: map<string, Member>, family: Family, patched: Option<Func>): (r: Decoration)
    ensures r.failure.Some? <==> MethodName(family) !in d && patched.None?
    ensures r.failure.Some? ==> r.failure.value == family && r.dict == d
  {
    if MethodName(family) in d then Decoration(d, None)
    else match patched
      case None => Decoration(d, Some(family))
      case Some(f) => Decoration(d[MethodName(family) := FunctionMember(f)], None)
  }

  /** The body of `dataklass` on the namespace `d`, given the specialized methods for
      `fields`. */
  function Decorate(d: map<string, Member>, fields: seq<string>,
                    init: Option<Func>, repr: Option<Func>, eq: Option<Func>): Decoration
  {
    var a := Attach(d, Init, init);
    if a.failure.Some? then a
    else
      var b := Attach(a.dict, Repr, repr);
      if b.failure.Some? then b
      else
        var c := Attach(b.dict, Eq, eq);
        if c.failure.Some? then c
        else Decoration(c.dict["__match_args__" := TupleMember(fields)], None)
  }

  /** A method the class defines stays, nothing but the three methods and `__match_args__`
      is added, and `__match_args__` is the only entry that is overwritten. */
  lemma DecorateFrame(d: map<string, Member>, fields: seq<string>,
                      init: Option<Func>, repr: Option<Func>, eq: Option<Func>)
    ensures forall k :: k in d ==> k in Decorate(d, fields, init, repr, eq).dict
    ensures forall k :: k in d && k != "__match_args__" ==> Decorate(d, fields, init, repr, eq).dict[k] == d[k]
    ensures forall k :: k in Decorate(d, fields, init, repr, eq).dict ==>
      k in d || k == "__init__" || k == "__repr__" || k == "__eq__" || k == "__match_args__"
  {
    var a := Attach(d, Init, init);
    AttachFrame(d, Init, init);
    if a.failure.None? {
      var b := Attach(a.dict, Repr, repr);
      AttachFrame(a.dict, Repr, repr);
      if b.failure.None? {
        AttachFrame(b.dict, Eq, eq);
      }
    }
  }

  /** One attaching line keeps every entry and adds at most its own method. */
  lemma AttachFrame(d: map<string, Member>, family: Family, patched: Option<Func>)
    ensures forall k :: k in d ==> k in Attach(d, family, patched).dict && Attach(d, family, patched).dict[k] == d[k]
    ensures forall k :: k in Attach(d, family, patched).dict ==> k in d || k == MethodName(family)
  {
  }

  /** The method a family contributes to a successful decoration: the class's own when it
      defines one, otherwise the specialized template. */
  function Contributed(d: map<string, Member>, family: Family, patched: Option<Func>): Member
    requires MethodName(family) in d || patched.Some?
  {
    if MethodName(family) in d then d[MethodName(family)] else FunctionMember(patched.value)
  }

  /** Decorating succeeds exactly when every template it needs compiled, and then the class
      has all three methods, each its own or the specialized template, and `__match_args__`
      is the tuple of the fields. */
  lemma DecorateSucceeds(d: map<string, Member>, fields: seq<string>,
                         init: Option<Func>, repr: Option<Func>, eq: Option<Func>)
    ensures Decorate(d, fields, init, repr, eq).failure.None? <==>
      ("__init__" in d || init.Some?) && ("__repr__" in d || repr.Some?) && ("__eq__" in d || eq.Some?)
    ensures Decorate(d, fields, init, repr, eq).failure.None? ==>
      && Decorate(d, fields, init, repr, eq).dict.Keys == d.Keys + {"__init__", "__repr__", "__eq__", "__match_args__"}
      && "__init__" in Decorate(d, fields, init, repr, eq).dict
      && "__repr__" in Decorate(d, fields, init, repr, eq).dict
      && "__eq__" in Decorate(d, fields, init, repr, eq).dict
      && "__match_args__" in Decorate(d, fields, init, repr, eq).dict
      && Decorate(d, fields, init, repr, eq).dict["__init__"] == Contributed(d, Init, init)
      && Decorate(d, fields, init, repr, eq).dict["__repr__"] == Contributed(d, Repr, repr)
      && Decorate(d, fields, init, repr, eq).dict["__eq__"] == Contributed(d, Eq, eq)
      && Decorate(d, fields, init, repr, eq).dict["__match_args__"] == TupleMember(fields)
  {
    KeysDistinct();
    var a := Attach(d, Init, init);
    if a.failure.None? {
      var b := Attach(a.dict, Repr, repr);
      if b.failure.None? {
        var c := Attach(b.dict, Eq, eq);
        if c.failure.None? {
          assert c.dict.Keys == d.Keys + {"__init__", "__repr__", "__eq__"};
        }
      }
    }
  }

  /** The first template that raised decides the failure: generation goes `__init__`, then
      `__repr__`, then `__eq__`, and stops at the first error. A failed decoration does not
      set `__match_args__`, but keeps the methods attached before the error. */
  lemma DecorateFails(d: map<string, Member>, fields: seq<string>,
                      init: Option<Func>, repr: Option<Func>, eq: Option<Func>)
    ensures Decorate(d, fields, init, repr, eq).failure == Some(Init) <==>
      "__init__" !in d && init.None?
    ensures Decorate(d, fields, init, repr, eq).failure == Some(Repr) <==>
      ("__init__" in d || init.Some?) && "__repr__" !in d && repr.None?
    ensures Decorate(d, fields, init, repr, eq).failure == Some(Eq) <==>
      ("__init__" in d || init.Some?) && ("__repr__" in d || repr.Some?) && "__eq__" !in d && eq.None?
    ensures Decorate(d, fields, init, repr, eq).failure.Some? ==>
      && ("__match_args__" in Decorate(d, fields, init, repr, eq).dict <==> "__match_args__" in d)
      && ("__match_args__" in d ==> Decorate(d, fields, init, repr, eq).dict["__match_args__"] == d["__match_args__"])
    ensures Decorate(d, fields, init, repr, eq).failure == Some(Eq) ==>
      && "__init__" in Decorate(d, fields, init, repr, eq).dict
      && Decorate(d, fields, init, repr, eq).dict["__init__"] == Contributed(d, Init, init)
      && "__repr__" in Decorate(d, fields, init, repr, eq).dict
      && Decorate(d, fields, init, repr, eq).dict["__repr__"] == Contributed(d, Repr, repr)
  {
    KeysDistinct();
  }

  /** Decorating an already decorated class changes nothing: it now defines all three
      methods, and `__match_args__` is set to the same tuple again. */
  lemma DecorateIdempotent(d: map<string, Member>, fields: seq<string>,
                           init: Option<Func>, repr: Option<Func>, eq: Option<Func>,
                           init': Option<Func>, repr': Option<Func>, eq': Option<Func>)
    requires Decorate(d, fields, init, repr, eq).failure.None?
    ensures Decorate(Decorate(d, fields, init, repr, eq).dict, fields, init', repr', eq')
      == Decorate(d, fields, init, repr, eq)
  {
    var r := Decorate(d, fields, init, repr, eq);
    DecorateSucceeds(d, fields, init, repr, eq);
    assert r.dict["__match_args__" := TupleMember(fields)] == r.dict;
  }

  // What the compiled templates look like. These are facts about the interpreter's compiler
  // (the order in which it lists the names a function body mentions), taken as hypotheses.

  /** `def __init__(self, _0, …): self._0 = _0 …` lists the placeholders as attribute names
      and `self` and the placeholders as parameters. */
  ghost predicate InitLayout(order: seq<string>, c: Compiled, count: nat) {
    c.Compiled? ==>
      && IsCodeObject(order, c.fn.code)
      && Names(c.fn.code) == Placeholders(count)
      && Varnames(c.fn.code) == ["self"] + Placeholders(count)
  }

  /** The `__repr__` template mentions `type` and `__name__` before the placeholders. */
  ghost predicate ReprLayout(order: seq<string>, c: Compiled, count: nat) {
    c.Compiled? ==>
      && IsCodeObject(order, c.fn.code)
      && Names(c.fn.code) == ["type", "__name__"] + Placeholders(count)
      && Varnames(c.fn.code) == ["self"]
  }

  /** The `__eq__` template mentions `__class__`, the placeholders, then `NotImplemented`. */
  ghost predicate EqLayout(order: seq<string>, c: Compiled, count: nat) {
    c.Compiled? ==>
      && IsCodeObject(order, c.fn.code)
      && Names(c.fn.code) == ["__class__"] + Placeholders(count) + ["NotImplemented"]
      && Varnames(c.fn.code) == ["self", "other"]
  }

  /** `m` is the function `template` compiled to, with every placeholder renamed to its field. */
  ghost predicate RenamesTemplate(order: seq<string>, m: Member, template: Compiled, fields: seq<string>) {
    && m.FunctionMember? && template.Compiled?
    && IsCodeObject(order, template.fn.code) && IsCodeObject(order, m.fn.code)
    && IsRenamingOf(order, m.fn, template.fn, fields)
  }

  lemma SpecializeInit(order: seq<string>, patch: EqPatch, init: Compiled, fields: seq<string>)
    requires InitLayout(order, init, |fields|) && init.Compiled?
    ensures RenamesTemplate(order, FunctionMember(Specialize(order, patch, Init, init.fn, fields)), init, fields)
  {
    PatchArgsAndAttributesRenames(order, init.fn, fields);
  }

  lemma SpecializeRepr(order: seq<string>, patch: EqPatch, repr: Compiled, fields: seq<string>)
    requires ReprLayout(order, repr, |fields|) && repr.Compiled?
    ensures RenamesTemplate(order, FunctionMember(Specialize(order, patch, Repr, repr.fn, fields)), repr, fields)
  {
    var prefix := ["type", "__name__"];
    assert NotPlaceholderLike(prefix[0]) && NotPlaceholderLike(prefix[1]);
    assert NotPlaceholderLike(Varnames(repr.fn.code)[0]);
    PatchAttributesRenames(order, repr.fn, fields, prefix);
  }

  /** With the corrected patch, the attached `__eq__` is the renaming of its template. */
  lemma SpecializeEq(order: seq<string>, eq: Compiled, fields: seq<string>)
    requires EqLayout(order, eq, |fields|) && eq.Compiled?
    ensures RenamesTemplate(order, FunctionMember(Specialize(order, Corrected, Eq, eq.fn, fields)), eq, fields)
  {
    var prefix, suffix := ["__class__"], ["NotImplemented"];
    assert NotPlaceholderLike(prefix[0]) && NotPlaceholderLike(suffix[0]);
    assert NotPlaceholderLike(Varnames(eq.fn.code)[0]) && NotPlaceholderLike(Varnames(eq.fn.code)[1]);
    PatchKeepingSuffixRenames(order, eq.fn, fields, prefix, suffix);
  }

  /** With the patch as written, the attached `__eq__` has lost `NotImplemented`: its name
      table is one entry shorter than its template's, so it is not the renaming. */
  lemma SpecializeEqAsWritten(order: seq<string>, eq: Compiled, fields: seq<string>)
    requires EqLayout(order, eq, |fields|) && eq.Compiled?
    ensures var m := Specialize(order, AsWritten, Eq, eq.fn, fields);
      && IsCodeObject(order, m.code)
      && |Names(m.code)| == |Names(eq.fn.code)| - 1
      && "NotImplemented" in Names(eq.fn.code)
      && !RenamesTemplate(order, FunctionMember(m), eq, fields)
  {
    EqPatchDropsNotImplemented(order, eq.fn, fields);
    assert Names(eq.fn.code)[|fields| + 1] == "NotImplemented";
  }

  /** Every method a successful decoration attaches from a template is that template with
      each placeholder renamed to its field: `__init__` takes the fields as parameters and
      assigns them to the attributes of the same names, `__repr__` reads those attributes, and
      all other names (`self`, `type`, `__name__`, …) stay as they are. The same holds for
      `__eq__` with the corrected patch only. */
  lemma DecorateRenames(order: seq<string>, patch: EqPatch, d: map<string, Member>, fields: seq<string>,
                        init: Compiled, repr: Compiled, eq: Compiled)
    requires InitLayout(order, init, |fields|)
    requires ReprLayout(order, repr, |fields|)
    requires EqLayout(order, eq, |fields|)
    ensures var r := Decorate(d, fields, Specialized(order, patch, Init, init, fields),
                              Specialized(order, patch, Repr, repr, fields), Specialized(order, patch, Eq, eq, fields));
      && (r.failure.None? && "__init__" !in d ==>
           "__init__" in r.dict && RenamesTemplate(order, r.dict["__init__"], init, fields))
      && (r.failure.None? && "__repr__" !in d ==>
           "__repr__" in r.dict && RenamesTemplate(order, r.dict["__repr__"], repr, fields))
      && (r.failure.None? && "__eq__" !in d ==>
           && "__eq__" in r.dict
           && (patch == Corrected ==> RenamesTemplate(order, r.dict["__eq__"], eq, fields))
           && (patch == AsWritten ==> !RenamesTemplate(order, r.dict["__eq__"], eq, fields)))
  {
    var i, p, e := Specialized(order, patch, Init, init, fields), Specialized(order, patch, Repr, repr, fields),
      Specialized(order, patch, Eq, eq, fields);
    DecorateSucceeds(d, fields, i, p, e);
    if Decorate(d, fields, i, p, e).failure.None? {
      if "__init__" !in d {
        SpecializeInit(order, patch, init, fields);
      }
      if "__repr__" !in d {
        SpecializeRepr(order, patch, repr, fields);
      }
      if "__eq__" !in d {
        if patch == Corrected {
          SpecializeEq(order, eq, fields);
        } else {
          SpecializeEqAsWritten(order, eq, fields);
        }
      }
    }
  }

  /** A class being decorated: the dict `getattr(c, '__annotations__', {})` gives for each
      class `c` of its `__mro__`, itself first, and its own namespace `vars(cls)`, which
      decorating updates. */
  class ClassObject {
    const mro: seq<Dict<string, string>>
    var dict: map<string, Member>

    constructor(mro: seq<Dict<string, string>>, dict: map<string, Member>)
      ensures this.mro == mro && this.dict == dict
    {
      this.mro := mro;
      this.dict := dict;
    }
  }

  /** One line `if not name in clsdict: cls.name = patch(make(nfields), fields, start)`: the
      cache is consulted, once, only when the class lacks the method; `ok` is false when
      executing the template's text raised. */
  method AttachMethod(order: seq<string>, patch: EqPatch, cls: ClassObject, cache: TemplateCache,
                      family: Family, fields: seq<string>) returns (ok: bool)
    requires cache.Valid() && Attached(family)
    requires WellFormed(order, Template(cache.generate, cache.compile, |fields|))
    modifies cls, cache
    ensures cache.Valid()
    ensures cls.dict == Attach(old(cls.dict), family,
      Specialized(order, patch, family, Template(cache.generate, cache.compile, |fields|), fields)).dict
    ensures ok <== Attach(old(cls.dict), family,
      Specialized(order, patch, family, Template(cache.generate, cache.compile, |fields|), fields)).failure.None?
    ensures ok ==> Attach(old(cls.dict), family,
      Specialized(order, patch, family, Template(cache.generate, cache.compile, |fields|), fields)).failure.None?
    ensures MethodName(family) in old(cls.dict) ==> unchanged(cache)
    ensures MethodName(family) !in old(cls.dict) ==>
      GetStep(cache.generate, cache.compile, old(cache.memo), old(cache.recency), old(cache.compiles),
              cache.memo, cache.recency, cache.compiles, |fields|)
  {
    ok := true;
    if MethodName(family) !in cls.dict {
      var t := cache.Get(|fields|);
      var m := Specialized(order, patch, family, t, fields);
      if m.None? {
        return false;
      }
      cls.dict := cls.dict[MethodName(family) := FunctionMember(m.value)];
    }
  }

  /** Once `__init__` is attached, the rest of `Decorate` is `Decorate` on the new namespace:
      the other keys are as they were, and the `__init__` step there keeps what is present. */
  lemma InitAttachedFirst(d: map<string, Member>, fields: seq<string>,
                          init: Option<Func>, repr: Option<Func>, eq: Option<Func>)
    requires Attach(d, Init, init).failure.None?
    ensures "__init__" in Attach(d, Init, init).dict
    ensures "__repr__" in Attach(d, Init, init).dict <==> "__repr__" in d
    ensures "__eq__" in Attach(d, Init, init).dict <==> "__eq__" in d
    ensures Decorate(Attach(d, Init, init).dict, fields, None, repr, eq) == Decorate(d, fields, init, repr, eq)
  {
    KeysDistinct();
  }

  /** Lines 157-158, on a namespace that already holds `__init__` (so whatever the `__init__`
      template is, `Decorate` keeps that one): the `__repr__` and `__eq__` steps. */
  method AttachReprAndEq(order: seq<string>, patch: EqPatch, cls: ClassObject,
                         reprs: TemplateCache, eqs: TemplateCache)
    returns (failure: Option<Family>)
    requires "__init__" in cls.dict
    requires reprs.Valid() && eqs.Valid() && reprs != eqs
    requires WellFormed(order, Template(reprs.generate, reprs.compile, |Fields(cls.mro)|))
    requires WellFormed(order, Template(eqs.generate, eqs.compile, |Fields(cls.mro)|))
    modifies cls, reprs, eqs
    ensures reprs.Valid() && eqs.Valid()
    ensures failure == None || failure == Some(Repr) || failure == Some(Eq)
    ensures failure.Some? ==> (Decoration(cls.dict, failure)
      == Decorate(old(cls.dict), Fields(cls.mro), None,
           Specialized(order, patch, Repr, Template(reprs.generate, reprs.compile, |Fields(cls.mro)|), Fields(cls.mro)),
           Specialized(order, patch, Eq, Template(eqs.generate, eqs.compile, |Fields(cls.mro)|), Fields(cls.mro))))
    ensures failure.None? ==> (Decoration(cls.dict["__match_args__" := TupleMember(Fields(cls.mro))], None)
      == Decorate(old(cls.dict), Fields(cls.mro), None,
           Specialized(order, patch, Repr, Template(reprs.generate, reprs.compile, |Fields(cls.mro)|), Fields(cls.mro)),
           Specialized(order, patch, Eq, Template(eqs.generate, eqs.compile, |Fields(cls.mro)|), Fields(cls.mro))))
    ensures "__repr__" in old(cls.dict) ==> unchanged(reprs)
    ensures "__repr__" !in old(cls.dict) ==>
      GetStep(reprs.generate, reprs.compile, old(reprs.memo), old(reprs.recency), old(reprs.compiles),
              reprs.memo, reprs.recency, reprs.compiles, |Fields(cls.mro)|)
    ensures "__eq__" in old(cls.dict) || failure == Some(Repr) ==> unchanged(eqs)
    ensures "__eq__" !in old(cls.dict) && failure != Some(Repr) ==>
      GetStep(eqs.generate, eqs.compile, old(eqs.memo), old(eqs.recency), old(eqs.compiles),
              eqs.memo, eqs.recency, eqs.compiles, |Fields(cls.mro)|)
  {
    var fields := Fields(cls.mro);
    var ok := AttachMethod(order, patch, cls, reprs, Repr, fields);
    if !ok {
      return Some(Repr);
    }
    ok := AttachMethod(order, patch, cls, eqs, Eq, fields);
    if !ok {
      return Some(Eq);
    }
    failure := None;
  }

  /** Lines 156-158: the three `if not name in clsdict` steps, run against three distinct
      template caches. `failure` is the family whose template text raised, if any; the
      decorator adds `__match_args__` only when there is none. A cache is consulted, once,
      exactly when the class lacks that method and no earlier template raised. */
  method AttachMethods(order: seq<string>, patch: EqPatch, cls: ClassObject,
                       inits: TemplateCache, reprs: TemplateCache, eqs: TemplateCache)
    returns (failure: Option<Family>)
    requires inits.Valid() && reprs.Valid() && eqs.Valid()
    requires inits != reprs && inits != eqs && reprs != eqs
    requires WellFormed(order, Template(inits.generate, inits.compile, |Fields(cls.mro)|))
    requires WellFormed(order, Template(reprs.generate, reprs.compile, |Fields(cls.mro)|))
    requires WellFormed(order, Template(eqs.generate, eqs.compile, |Fields(cls.mro)|))
    modifies cls, inits, reprs, eqs
    ensures inits.Valid() && reprs.Valid() && eqs.Valid()
    ensures failure == None || failure == Some(Init) || failure == Some(Repr) || failure == Some(Eq)
    ensures failure.Some? ==> (Decoration(cls.dict, failure)
      == Decorate(old(cls.dict), Fields(cls.mro),
           Specialized(order, patch, Init, Template(inits.generate, inits.compile, |Fields(cls.mro)|), Fields(cls.mro)),
           Specialized(order, patch, Repr, Template(reprs.generate, reprs.compile, |Fields(cls.mro)|), Fields(cls.mro)),
           Specialized(order, patch, Eq, Template(eqs.generate, eqs.compile, |Fields(cls.mro)|), Fields(cls.mro))))
    ensures failure.None? ==> (Decoration(cls.dict["__match_args__" := TupleMember(Fields(cls.mro))], None)
      == Decorate(old(cls.dict), Fields(cls.mro),
           Specialized(order, patch, Init, Template(inits.generate, inits.compile, |Fields(cls.mro)|), Fields(cls.mro)),
           Specialized(order, patch, Repr, Template(reprs.generate, reprs.compile, |Fields(cls.mro)|), Fields(cls.mro)),
           Specialized(order, patch, Eq, Template(eqs.generate, eqs.compile, |Fields(cls.mro)|), Fields(cls.mro))))
    ensures "__init__" in old(cls.dict) ==> unchanged(inits)
    ensures "__init__" !in old(cls.dict) ==>
      GetStep(inits.generate, inits.compile, old(inits.memo), old(inits.recency), old(inits.compiles),
              inits.memo, inits.recency, inits.compiles, |Fields(cls.mro)|)
    ensures failure == Some(Init) ==> unchanged(reprs) && unchanged(eqs)
    ensures "__repr__" in old(cls.dict) ==> unchanged(reprs)
    ensures "__repr__" !in old(cls.dict) && failure != Some(Init) ==>
      GetStep(reprs.generate, reprs.compile, old(reprs.memo), old(reprs.recency), old(reprs.compiles),
              reprs.memo, reprs.recency, reprs.compiles, |Fields(cls.mro)|)
    ensures "__eq__" in old(cls.dict) || failure == Some(Repr) ==> unchanged(eqs)
    ensures "__eq__" !in old(cls.dict) && failure != Some(Init) && failure != Some(Repr) ==>
      GetStep(eqs.generate, eqs.compile, old(eqs.memo), old(eqs.recency), old(eqs.compiles),
              eqs.memo, eqs.recency, eqs.compiles, |Fields(cls.mro)|)
  {
    var fields := Fields(cls.mro);
    ghost var d := cls.dict;
    ghost var init := Specialized(order, patch, Init, Template(inits.generate, inits.compile, |fields|), fields);
    ghost var repr := Specialized(order, patch, Repr, Template(reprs.generate, reprs.compile, |fields|), fields);
    ghost var eq := Specialized(order, patch, Eq, Template(eqs.generate, eqs.compile, |fields|), fields);
    var ok := AttachMethod(order, patch, cls, inits, Init, fields);
    if !ok {
      return Some(Init);
    }
    InitAttachedFirst(d, fields, init, repr, eq);
    failure := AttachReprAndEq(order, patch, cls, reprs, eqs);
  }

  /** The family a decorator call reports as raised, if any. */
  function Raised(r: Result<ClassObject, Family>): Option<Family> {
    if r.Ok? then None else Some(r.error)
  }

  /** `dataklass(cls)` on the interpreter `v`, run against three distinct template caches
      (the module's are the ones `LoadGenerators` builds around `make__init__`, `make__repr__`
      and `make__eq__`); `patch` is `AsWritten` for the module as it stands. The class ends up
      as `Decorate` describes for the fields `all_hints` collects; on success the decorator
      returns the class itself, otherwise the family whose template text raised. A cache is
      consulted, once, exactly when the class lacks that method and no earlier template
      raised; the others are left untouched. */
  method Dataklass(v: Version, order: seq<string>, patch: EqPatch, cls: ClassObject,
                   inits: TemplateCache, reprs: TemplateCache, eqs: TemplateCache)
    returns (r: Result<ClassObject, Family>)
    requires order == CodeFieldOrder(v)
    requires inits.Valid() && reprs.Valid() && eqs.Valid()
    requires inits != reprs && inits != eqs && reprs != eqs
    requires WellFormed(order, Template(inits.generate, inits.compile, |Fields(cls.mro)|))
    requires WellFormed(order, Template(reprs.generate, reprs.compile, |Fields(cls.mro)|))
    requires WellFormed(order, Template(eqs.generate, eqs.compile, |Fields(cls.mro)|))
    modifies cls, inits, reprs, eqs
    ensures inits.Valid() && reprs.Valid() && eqs.Valid()
    ensures Decoration(cls.dict, Raised(r))
      == Decorate(old(cls.dict), Fields(cls.mro),
           Specialized(order, patch, Init, Template(inits.generate, inits.compile, |Fields(cls.mro)|), Fields(cls.mro)),
           Specialized(order, patch, Repr, Template(reprs.generate, reprs.compile, |Fields(cls.mro)|), Fields(cls.mro)),
           Specialized(order, patch, Eq, Template(eqs.generate, eqs.compile, |Fields(cls.mro)|), Fields(cls.mro)))
    ensures r.Ok? ==> r.value == cls
    ensures "__init__" in old(cls.dict) ==> unchanged(inits)
    ensures "__init__" !in old(cls.dict) ==>
      GetStep(inits.generate, inits.compile, old(inits.memo), old(inits.recency), old(inits.compiles),
              inits.memo, inits.recency, inits.compiles, |Fields(cls.mro)|)
    ensures "__repr__" in old(cls.dict) || Raised(r) == Some(Init) ==> unchanged(reprs)
    ensures "__repr__" !in old(cls.dict) && Raised(r) != Some(Init) ==>
      GetStep(reprs.generate, reprs.compile, old(reprs.memo), old(reprs.recency), old(reprs.compiles),
              reprs.memo, reprs.recency, reprs.compiles, |Fields(cls.mro)|)
    ensures "__eq__" in old(cls.dict) || Raised(r) == Some(Init) || Raised(r) == Some(Repr) ==> unchanged(eqs)
    ensures "__eq__" !in old(cls.dict) && Raised(r) != Some(Init) && Raised(r) != Some(Repr) ==>
      GetStep(eqs.generate, eqs.compile, old(eqs.memo), old(eqs.recency), old(eqs.compiles),
              eqs.memo, eqs.recency, eqs.compiles, |Fields(cls.mro)|)
  {
    var failure := AttachMethods(order, patch, cls, inits, reprs, eqs);
    if failure.Some? {
      return Err(failure.value);
    }
    cls.dict := cls.dict["__match_args__" := TupleMember(Fields(cls.mro))];
    r := Ok(cls);
  }
}
