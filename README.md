# dataklasses, modelled in Dafny

`dataklasses` is a single-module Python library. It gives a class its methods by code
generation instead of `dataclasses`' approach.

`@dataklass` works in three steps:

1. It collects the class's fields from the `__annotations__` of every class in its
   method resolution order.
2. It takes a generic, cached function for each method family. These are compiled once per
   field count, with placeholder names `_0, _1, …`.
3. It specializes each one to the record type by rewriting the name tables of its code
   object. The instructions are not touched.

It attaches `__init__`, `__repr__` and `__eq__` unless the class defines them itself.
Finally it sets `__match_args__` to the tuple of the fields.

The model has one Dafny module per concern:

| file | module | models |
|---|---|---|
| `seqs.dfy` | `Seqs` | `Option`, `Result`, `list.index`, duplicate-freedom, removal from a list |
| `text.dfy` | `Text` | `str.join`, `str.split`, `f'{n}'` decimal rendering, identifiers |
| `ordered_dicts.dfy` | `OrderedDicts` | Python's insertion-ordered `dict` and `{**a, **b}` |
| `field_resolver.dfy` | `FieldResolver` | `all_hints`: the fold over the MRO |
| `placeholders.dfy` | `PlaceholderNames` | the names `_i` and renaming placeholders to fields |
| `generators.dfy` | `Generators` | the text `make__init__`, `make__repr__`, `make__eq__`, `make__iter__` and `make__hash__` produce, and what that text says when read back |
| `code_objects.dfy` | `CodeObjects` | `_CODE_FIELD_ORDER` by interpreter version, code objects, and `code_replace` as an imperative method proved against its specification `Replaced` |
| `specializer.dfy` | `Specializer` | `patch_attributes` and `patch_args_and_attributes`, plus a corrected patch for `__eq__` (see Findings) |
| `template_cache.dfy` | `Codegen` | `codegen` / `make_func_code`: a class whose `Get` method is the `lru_cache`, LRU eviction at 128 entries included |
| `decorator.dfy` | `Decorator` | `dataklass` as a method on a class object with a mutable namespace, and the function `Decorate` that specifies it |

`Decorator` takes a parameter `patch: EqPatch` for the `__eq__` line. `AsWritten` is the
module as it stands, with `patch_attributes(…, 1)` on line 158. `Corrected` is the same
decorator with the corrected patch. Every lemma about decoration is stated for both, and says
where they differ.

Executing generated text (`exec` followed by `d.popitem()[1]`) is the parameter
`compile: string -> Compiled` of the template caches. It yields either a compiled function
or `SyntaxError`. The interpreter's version is a parameter of `CodeFieldOrder`.

Some facts belong to the CPython compiler rather than to this library: the order in which
it lists the names that each compiled template mentions. These are stated as the
predicates `InitLayout`, `ReprLayout` and `EqLayout`. They are hypotheses of the lemmas that
need them, never assumed globally.

## Model

| member | source | states |
|---|---|---|
| Text.Join | dataklasses.py:102 | `str.join`: the parts in order with the separator between neighbours; what it yields is stated by `Text.SplitJoin` (the parts read back) and `Text.JoinAvoids` (no new characters) |
| Text.SplitJoin | dataklasses.py:102 | `','.join` of parts that do not contain the separator can be split back into exactly those parts |
| Text.JoinAvoids | dataklasses.py:110 | a character that is in neither the separator nor any part is not in the joined text |
| Text.ParseDecimalOfDecimal | dataklasses.py:24 | the decimal text `f'{n}'` reads back as `n` |
| Text.DecimalInjective | dataklasses.py:24 | different counts render to different decimal texts |
| PlaceholderNames.Placeholders | dataklasses.py:24 | `[f'_{n}' for n in range(numfields)]` has `numfields` entries, and entry `i` is `_i` |
| PlaceholderNames.PlaceholderIsIdentifier | dataklasses.py:24 | every placeholder is a valid Python identifier |
| PlaceholderNames.PlaceholdersDistinct | dataklasses.py:24 | the placeholder names handed to a generator are pairwise distinct |
| PlaceholderNames.PlaceholderIndex | dataklasses.py:24 | finds which placeholder `_i` (with `i < count`) a name is, or reports that it is none of them |
| PlaceholderNames.RenameLayout | dataklasses.py:79 | renaming the name table `prefix + _0.._{n-1} + suffix`, where prefix and suffix hold no placeholder, gives `prefix + fields + suffix` |
| PlaceholderNames.RenameSelfThenPlaceholders | dataklasses.py:80 | renaming the parameter list `self, _0.._{n-1}` gives `('self', *fields)` |
| Seqs.IndexOf | dataklasses.py:71 | `list.index` returns the first position that holds the element |
| Seqs.IndexOfUnique | dataklasses.py:71 | in a list without duplicates, `list.index` of the element at `i` is `i` |
| OrderedDicts.Merge | dataklasses.py:97 | `{**a, **b}` keeps `a`'s keys in order, then adds the keys only `b` has; on a shared key `b`'s value wins |
| OrderedDicts.MergeValid | dataklasses.py:97 | merging two dicts yields a dict: no key twice, and the key order and the entries agree |
| OrderedDicts.WithoutKeepsOrder | dataklasses.py:97 | dropping keys that the other dict already has keeps the remaining keys in their relative order |
| FieldResolver.AllHints | dataklasses.py:96-97 | `all_hints`: the fold `{**annotations(y), **x}` over `cls.__mro__` from `{}`, where each class supplies the dict `getattr(y, '__annotations__', {})` returns for it; its keys, values and order are stated by the four lemmas below |
| FieldResolver.AllHintsValid | dataklasses.py:96-97 | the folded annotations are a well-formed dict |
| FieldResolver.AllHintsKeys | dataklasses.py:96-97 | a name is a field exactly when some class in the MRO annotates it |
| FieldResolver.AllHintsValues | dataklasses.py:96-97 | each field's annotation is the one in the most-derived supplied dict that has the field |
| FieldResolver.AllHintsOrder | dataklasses.py:96-97 | fields are ordered by the class that introduced them, most-base first, and within one class in that class's annotation order |
| CodeObjects.CodeFieldOrder | dataklasses.py:35-54 | the field order never lists a field twice, and it contains `co_names` and `co_varnames` |
| CodeObjects.CodeFieldOrderByVersion | dataklasses.py:52-54 | there are 16 fields from Python 3.8 on and 15 before; `co_posonlyargcount` is a field exactly from 3.8 on |
| CodeObjects.FirstUnknown | dataklasses.py:70-71 | the position of the first keyword that is not a code field; every keyword before it is a field |
| CodeObjects.Replaced | dataklasses.py:57-72 | `code_replace` fails with `ValueError` exactly when some keyword names no field, and names that keyword; otherwise the result has the same attributes, with the keyword ones overwritten and all others kept |
| CodeObjects.CodeReplace | dataklasses.py:69-72 | the unpack / overwrite / rebuild loop returns exactly `Replaced` |
| CodeObjects.RebuiltIsReplaced | dataklasses.py:72 | rebuilding positionally from the overwritten unpacked list gives `Replaced` |
| Specializer.PatchAttributes | dataklasses.py:86-93 | `co_names` becomes its first `start` entries followed by the fields; every other attribute and the globals stay |
| Specializer.PatchArgsAndAttributes | dataklasses.py:75-83 | as `patch_attributes`, and in addition `co_varnames` becomes `('self', *fields)` |
| Specializer.PatchAttributesRenames | dataklasses.py:86-93 | on a template whose names are a placeholder-free prefix followed by the placeholders (the `__repr__` template), patching is exactly renaming each `_i` to `fields[i]` |
| Specializer.PatchArgsAndAttributesRenames | dataklasses.py:75-83 | on the `__init__` template, patching is exactly the renaming, in both name tables |
| Specializer.EqPatchDropsNotImplemented | dataklasses.py:158 | as written, patching the `__eq__` template with `start = 1` shortens `co_names` by one, so it loses `NotImplemented` and is not the renaming |
| Specializer.PatchAttributesKeepingSuffix | dataklasses.py:86-93 | the corrected patch keeps the names after the placeholders, so `co_names` keeps its length |
| Specializer.PatchKeepingSuffixRenames | dataklasses.py:158 | on a prefix, placeholders, suffix layout (the `__eq__` template), the corrected patch is exactly the renaming |
| Specializer.PatchesAgreeWithoutSuffix | dataklasses.py:157 | on a template with no names after its placeholders, the two patches are equal |
| Generators.MakeInit | dataklasses.py:100-103 | `make__init__`'s text: the `def` line with `','.join(fields)` and one assignment line per field; what it says is stated by `Generators.InitTakesNamesInOrder` and `Generators.InitAssignsInOrder` |
| Generators.MakeRepr | dataklasses.py:106-110 | `make__repr__`'s text, an f-string of `{self.n!r}` values joined by `, `; stated by `Generators.ReprValuesInOrder` |
| Generators.MakeEq | dataklasses.py:113-122 | `make__eq__`'s text: the class check, the comparison of the two field tuples, and `return NotImplemented` otherwise; stated by `Generators.EqComparesFieldTuples` |
| Generators.MakeIter | dataklasses.py:125-127 | `make__iter__`'s text, one `yield` line per field; stated by `Generators.IterYieldsInOrder` |
| Generators.MakeHash | dataklasses.py:130-134 | `make__hash__`'s text, `hash` of the tuple of the fields; stated by `Generators.HashOfFieldTuple` |
| Generators.InitTakesNamesInOrder | dataklasses.py:101-102 | the generated `__init__` takes exactly the given names, in order, as its parameters after `self` |
| Generators.InitAssignsInOrder | dataklasses.py:103 | the `__init__` body holds `self.n = n` for each name in order, each assignment followed by an empty line |
| Generators.ReprValuesInOrder | dataklasses.py:107-110 | the representation lists `{self.n!r}` for each field in order, separated by `, `, with no `n=` labels |
| Generators.EqComparesFieldTuples | dataklasses.py:114-122 | `__eq__` compares the tuple of `self`'s fields with the tuple of `other`'s, both in field order |
| Generators.IterYieldsInOrder | dataklasses.py:126-127 | `__iter__` has one `yield self.n` line per field, in order |
| Generators.HashOfFieldTuple | dataklasses.py:131-134 | `__hash__` hashes the tuple of `self`'s fields, in order |
| Codegen.Template | dataklasses.py:23-27 | the uncached answer for `n`: execute the generator's text for the placeholders `_0.._{n-1}`; `Codegen.TemplateCache.Get` always returns it |
| Codegen.DropOldest | dataklasses.py:22 | evicting the least recently used count removes it from both the map and the recency list, and they stay in step |
| Codegen.TouchKeepsInvariant | dataklasses.py:22 | on a hit, making the count the most recent one keeps the cache consistent |
| Codegen.EvictKeepsInvariant | dataklasses.py:22 | making room in a full cache keeps it consistent and leaves fewer than 128 entries, all of them already cached before |
| Codegen.InsertKeepsInvariant | dataklasses.py:22-27 | caching a freshly compiled function in a cache with room keeps it consistent |
| Codegen.AfterGet | dataklasses.py:22-27 | the cache's entries after one `make_func_code(n)` call: still consistent; after a successful compile `n` is cached and is the most recent count; after a `SyntaxError` nothing changed |
| Codegen.SecondGetHits | dataklasses.py:22 | once `n`'s text has compiled, a second call for `n` is a hit that answers with the cached function and keeps the cached functions as they are |
| Codegen.TemplateCache.constructor | dataklasses.py:21-29 | `codegen(func)` is an empty cache around the generator |
| Codegen.TemplateCache.Get | dataklasses.py:22-27 | `make_func_code(n)` always returns what an uncached compile of the `n`-placeholder text gives. A hit executes nothing and makes `n` most recent; a miss executes once, caches only on success, and evicts the least recent count from a full cache. The new state is `GetStep`: `AfterGet` of the old entries, and the text executed exactly on a miss |
| Codegen.LoadGenerators | dataklasses.py:100-134 | the five `@codegen` decorations give empty, consistent caches around the five generators, all sharing one interpreter |
| Decorator.Specialize | dataklasses.py:156-158 | the patch each line applies: `patch_args_and_attributes(f, fields)` for `__init__`, `patch_attributes(f, fields, 2)` for `__repr__`, and for `__eq__` `patch_attributes(f, fields, 1)` as written or the corrected patch; what they give is stated by `Decorator.SpecializeInit`, `SpecializeRepr`, `SpecializeEq` and `SpecializeEqAsWritten` |
| Decorator.Specialized | dataklasses.py:156-158 | a family's method is available exactly when its template compiled |
| Decorator.Attach | dataklasses.py:156-158 | one `if not name in clsdict` line fails exactly when the class lacks the method and its template raised; a failure leaves the namespace as it was |
| Decorator.Decorate | dataklasses.py:153-162 | the body of `dataklass` on a namespace: the three `if not name in clsdict` lines in order, then `__match_args__`; stated by `DecorateFrame`, `DecorateSucceeds`, `DecorateFails`, `DecorateIdempotent` and `DecorateRenames` |
| Decorator.DecorateFrame | dataklasses.py:155-161 | entries the class already has stay, only `__match_args__` can be overwritten, and nothing is added except the three methods and `__match_args__` |
| Decorator.DecorateSucceeds | dataklasses.py:153-162 | decorating succeeds exactly when every needed template compiled; the class then has each of the three methods (its own, or the specialized template) and `__match_args__ == tuple(fields)` |
| Decorator.DecorateFails | dataklasses.py:156-161 | the first template that raises decides the failure, in the order `__init__`, `__repr__`, `__eq__`; a failure does not set `__match_args__` but keeps the methods attached before it |
| Decorator.DecorateIdempotent | dataklasses.py:153-162 | decorating an already decorated class changes nothing |
| Decorator.SpecializeInit | dataklasses.py:156 | the attached `__init__` is its template with every placeholder renamed to its field |
| Decorator.SpecializeRepr | dataklasses.py:157 | the attached `__repr__` is its template with every placeholder renamed to its field |
| Decorator.SpecializeEq | dataklasses.py:158 | with the corrected patch, the attached `__eq__` is its template with every placeholder renamed to its field |
| Decorator.SpecializeEqAsWritten | dataklasses.py:158 | as written, the attached `__eq__` has one name fewer than its template, the template's `NotImplemented` is among the names it loses, and it is not the renaming |
| Decorator.DecorateRenames | dataklasses.py:153-161 | on a successful decoration the attached `__init__` and `__repr__` are their templates with each placeholder renamed to its field and every other name unchanged; the attached `__eq__` is the renaming with the corrected patch and is not the renaming as written |
| Decorator.AttachMethod | dataklasses.py:156-158 | one `if not name in clsdict` line updates the namespace as `Attach` says; when the class has the method the cache is untouched, otherwise the cache takes exactly one `GetStep` for the field count |
| Decorator.InitAttachedFirst | dataklasses.py:156-158 | once `__init__` is attached, the rest of the decoration is `Decorate` on the new namespace, and whether `__repr__` and `__eq__` are present has not changed |
| Decorator.AttachReprAndEq | dataklasses.py:157-158 | on a namespace that has `__init__`, the `__repr__` and `__eq__` lines do what `Decorate` says; each cache takes one `GetStep` exactly when its method is missing and no earlier template raised, and is untouched otherwise |
| Decorator.AttachMethods | dataklasses.py:156-158 | the three lines do what `Decorate` says; each cache takes one `GetStep` exactly when its method is missing and no earlier template raised, and is untouched otherwise |
| Decorator.Dataklass | dataklasses.py:137-162 | for the interpreter's `_CODE_FIELD_ORDER`, the class's namespace ends up as `Decorate` describes for the fields `all_hints` collects; it returns the class on success, and otherwise the family whose template raised; each cache takes one `GetStep` exactly when its method is missing and no earlier template raised, and is untouched otherwise |

## Left out

- Executing generated text and the bytecode semantics of the resulting functions are not
  modelled. `exec` is the function parameter `compile`. What the compiled code does is stated
  through its name tables: the specialized methods rename the placeholders, while the
  generators' text shows what those names are used for.
- The order in which CPython's compiler lists a function's names (`co_names`, `co_varnames`)
  is stated as hypotheses (`InitLayout`, `ReprLayout`, `EqLayout`), not derived.
- `sys.version_info` is the parameter `Version` of `CodeFieldOrder`.
- The code object constructor's own validation of its arguments is not modelled. A code
  object is a map from field name to value, and the instruction stream and constants are
  opaque values that are only carried over.
- CodeObjects.CodeReplace: models the code-object constructor of Python 3.9 and earlier. Its
  positional parameters are `_CODE_FIELD_ORDER`. On 3.10 the parameter at `co_lnotab`'s
  position is `linetable`, so line 72 passes the old-format line table there; the model does
  not distinguish the two. From 3.11 on, the constructor takes `qualname` after `name` and
  `exceptiontable` after `linetable`. Line 72 then passes the integer `co_firstlineno` where a
  string is required, and the call raises `TypeError`. The model does not capture this
  `TypeError`.
- Decorator.Dataklass: for a version `v` at or after 3.11, the success it states is not what
  the module does. There every class without its own `__init__` makes line 156 raise
  `TypeError` inside `code_replace`. The `Version` parameter is not restricted to the
  interpreters the model describes (3.10 and earlier).
- `lru_cache`'s thread safety is not modelled; the cache is used sequentially.
- `lru_cache`'s cache keys are not modelled: the key is the field count, an integer.
- Codegen.TemplateCache.Get: does not model lru_cache's statistics (`cache_info`) or
  `cache_clear`, because the module never calls them.
- `make__iter__` and `make__hash__` are generated, and `LoadGenerators` wraps them in caches
  that nothing consults, because the lines of `dataklass` that would attach them are
  commented out.
- `getattr(y, '__annotations__', {})` is the input: the MRO is given as the sequence of dicts
  that this expression returns, one per class, and `FieldResolver.AllHintsValues` speaks of
  those supplied dicts. Which dict is returned depends on the interpreter. Before Python 3.10,
  a class without annotations of its own returns the annotations dict found first along that
  class's own MRO, so a dict can be supplied more than once. From 3.10 on, such a class
  returns an empty dict, and reading it creates that empty `__annotations__` entry in the
  class's namespace. For the decorated class itself, line 153 therefore adds
  `__annotations__` to `vars(cls)`. `Decorator.Dataklass` and `Decorator.DecorateFrame` do not
  model this side effect: they say the namespace gains only the three methods and
  `__match_args__`.
- Decorator.Dataklass: is stated for any three distinct valid caches; that they wrap
  `make__init__`, `make__repr__` and `make__eq__` is what `Codegen.LoadGenerators` ensures.
  The interpreter's version `v` is a parameter, and the field order it runs with is
  `CodeFieldOrder(v)`.
- Decorator.Decorate: on a failure, the methods attached before the raising template stay on
  the class, and `__match_args__` is not set. The code behaves this way.
- The `__repr__` text shows the values only (`Coordinates(2, 3)`), with no `x=` labels.
  The code renders it this way, and `Generators.ReprValuesInOrder` states it.
- The doctest harness under `if __name__ == '__main__'` is not part of this model.

## Findings

| source | as written | input that shows it | evidently intended | confidence | as-written member | corrected member |
|---|---|---|---|---|---|---|
| dataklasses.py:158 | `patch_attributes(make__eq__(nfields), fields, 1)` replaces `co_names` with `(co_names[0], *fields)`. The `__eq__` template's names are `__class__, _0.._{n-1}, NotImplemented`, so the trailing `NotImplemented` entry is dropped. The `LOAD_GLOBAL` for it then indexes past the end of the name table | any class with `n >= 1` fields, e.g. `x: int`: `co_names` goes from `(__class__, _0, NotImplemented)` to `(__class__, x)` | the names after the placeholders stay: `(__class__, x, NotImplemented)` | not executed | Specializer.EqPatchDropsNotImplemented | Specializer.PatchAttributesKeepingSuffix |

`Decorator.Specialize` with `AsWritten` applies line 158 as written. Through it,
`Decorator.SpecializeEqAsWritten` and `Decorator.DecorateRenames` show that the attached
`__eq__` is not the renaming of its template. With `Corrected`, it applies
`Specializer.PatchAttributesKeepingSuffix` instead; `Specializer.PatchKeepingSuffixRenames`
and `Decorator.SpecializeEq` prove that this is exactly the renaming. `__repr__` keeps the
patch as written in both variants. Its template has no names after the placeholders, and
there `Specializer.PatchesAgreeWithoutSuffix` proves that the two patches agree.
