/** Code objects as the specializer sees them, and `code_replace`, the backport of
    `CodeType.replace` that rebuilds a code object with some attributes overwritten. */
module CodeObjects {
  import opened Seqs
  import opened OrderedDicts

  /** `sys.version_info`, which decides the field order of a code object. */
  datatype Version = Version(major: nat, minor: nat, micro: nat)

  predicate HasPositionalOnlyArgs(v: Version) {
    v.major > 3 || (v.major == 3 && v.minor >= 8)
  }

  /** `_CODE_FIELD_ORDER` before 3.8. */
  const LegacyFieldOrder: seq<string> := [
    "co_argcount", "co_kwonlyargcount", "co_nlocals", "co_stacksize", "co_flags",
    "co_code", "co_consts", "co_names", "co_varnames", "co_filename", "co_name",
    "co_firstlineno", "co_lnotab", "co_freevars", "co_cellvars"
  ]

  /** Length and two characters tell the field names apart. */
  function Signature(name: string): (int, char, char)
    requires |name| >= 5
  {
    (|name|, name[3], name[4])
  }

  lemma DistinctBySignature(names: seq<string>, signatures: seq<(int, char, char)>)
    requires forall i :: 0 <= i < |names| ==> |names[i]| >= 5
    requires |signatures| == |names|
    requires forall i :: 0 <= i < |names| ==> signatures[i] == Signature(names[i])
    requires NoDuplicates(signatures)
    ensures NoDuplicates(names)
  {
    forall i, j | 0 <= i < j < |names| ensures names[i] != names[j] {
      assert signatures[i] != signatures[j];
    }
  }

  const LegacySignatures: seq<(int, char, char)> := [
    (11, 'a', 'r'), (17, 'k', 'w'), (10, 'n', 'l'), (12, 's', 't'), (8, 'f', 'l'),
    (7, 'c', 'o'), (9, 'c', 'o'), (8, 'n', 'a'), (11, 'v', 'a'), (11, 'f', 'i'), (7, 'n', 'a'),
    (14, 'f', 'i'), (9, 'l', 'n'), (11, 'f', 'r'), (11, 'c', 'e')]

  lemma LegacyFieldNamesDistinct()
    ensures NoDuplicates(LegacyFieldOrder)
  {
    DistinctBySignature(LegacyFieldOrder, LegacySignatures);
  }

  lemma InsertDistinct(s: seq<string>, at: nat, x: string)
    requires NoDuplicates(s) && x !in s && at <= |s|
    ensures NoDuplicates(s[..at] + [x] + s[at..])
  {
    var t := s[..at] + [x] + s[at..];
    forall i, j | 0 <= i < j < |t| ensures t[i] != t[j] {
      if i < at && j > at {
        assert t[i] == s[i] && t[j] == s[j - 1];
      } else if i > at {
        assert t[i] == s[i - 1] && t[j] == s[j - 1];
      }
    }
  }

  lemma CurrentFieldNamesDistinct()
    ensures NoDuplicates(LegacyFieldOrder[..1] + ["co_posonlyargcount"] + LegacyFieldOrder[1..])
  {
    LegacyFieldNamesDistinct();
    forall i | 0 <= i < |LegacyFieldOrder| ensures LegacyFieldOrder[i] != "co_posonlyargcount" {
      assert Signature(LegacyFieldOrder[i]) == LegacySignatures[i];
    }
    InsertDistinct(LegacyFieldOrder, 1, "co_posonlyargcount");
  }

  /** `_CODE_FIELD_ORDER`: the code-object attributes in the order in which the constructor
      of Python 3.9 and earlier takes them positionally; from 3.8 on `co_posonlyargcount`
      (PEP 570) comes second. Later constructors take other parameters at some of these
      positions. */
  function CodeFieldOrder(v: Version): (order: seq<string>)
    ensures NoDuplicates(order)
    ensures "co_names" in order && "co_varnames" in order
  {
    LegacyFieldNamesDistinct();
    CurrentFieldNamesDistinct();
    if HasPositionalOnlyArgs(v)
    then LegacyFieldOrder[..1] + ["co_posonlyargcount"] + LegacyFieldOrder[1..]
    else LegacyFieldOrder
  }

  /** What the specializer relies on of a field order: no field twice, and both name tables
      among the fields. */
  ghost predicate IsFieldOrder(order: seq<string>) {
    NoDuplicates(order) && "co_names" in order && "co_varnames" in order
  }

  /** The interpreter's version decides only whether `co_posonlyargcount` is a field. */
  lemma CodeFieldOrderByVersion(v: Version)
    ensures |CodeFieldOrder(v)| == if HasPositionalOnlyArgs(v) then 16 else 15
    ensures HasPositionalOnlyArgs(v) <==> "co_posonlyargcount" in CodeFieldOrder(v)
    ensures "co_code" in CodeFieldOrder(v) && "co_consts" in CodeFieldOrder(v)
  {
  }

  /** The value of one code-object attribute. The instruction stream and the constant pool
      are opaque: the specializer only carries them over. */
  datatype Attr =
    | IntAttr(n: int)
    | StrAttr(s: string)
    | NamesAttr(names: seq<string>)
    | BytesAttr(bytes: seq<bv8>)
    | ObjectAttr(id: nat)

  /** A code object, by attribute name. */
  datatype Code = Code(attrs: map<string, Attr>)

  /** A function object: its code and the identity of its `__globals__`. */
  datatype Func = Func(code: Code, globals: nat)

  /** A code object of this interpreter: exactly the attributes of `_CODE_FIELD_ORDER`, with
      the two name tables being tuples of names. */
  ghost predicate IsCodeObject(order: seq<string>, c: Code) {
    && IsFieldOrder(order)
    && (forall name :: name in c.attrs <==> name in order)
    && c.attrs["co_names"].NamesAttr?
    && c.attrs["co_varnames"].NamesAttr?
  }

  /** `co_names`: the attribute and global names the instructions refer to by index. */
  function Names(c: Code): seq<string>
    requires "co_names" in c.attrs && c.attrs["co_names"].NamesAttr?
  {
    c.attrs["co_names"].names
  }

  /** `co_varnames`: the parameter and local names. */
  function Varnames(c: Code): seq<string>
    requires "co_varnames" in c.attrs && c.attrs["co_varnames"].NamesAttr?
  {
    c.attrs["co_varnames"].names
  }

  /** `list.index` raising `ValueError` for a keyword that names no code field. */
  datatype ReplaceError = NotACodeField(keyword: string)

  /** The position of the first keyword that is not a code field (`|keys|` when all are). */
  function FirstUnknown(keys: seq<string>, order: seq<string>): (i: nat)
    ensures i <= |keys|
    ensures forall j :: 0 <= j < i ==> keys[j] in order
    ensures i < |keys| ==> keys[i] !in order
  {
    if |keys| == 0 || keys[0] !in order then 0 else 1 + FirstUnknown(keys[1..], order)
  }

  /** What `code_replace(code, **kwargs)` returns: a code object whose attributes named in
      `kwargs` hold the supplied values and whose other attributes are the original's, or the
      `ValueError` for the first keyword that names no attribute. */
  function Replaced(order: seq<string>, code: Code, kwargs: Dict<string, Attr>): (r: Result<Code, ReplaceError>)
    requires IsCodeObject(order, code) && Valid(kwargs)
    ensures r.Ok? <==> forall k :: k in kwargs.items ==> k in order
    ensures r.Err? ==> r.error.keyword in kwargs.items && r.error.keyword !in order
    ensures r.Ok? ==> forall name :: name in r.value.attrs <==> name in code.attrs
    ensures r.Ok? ==> forall name :: name in code.attrs ==>
      r.value.attrs[name] == if name in kwargs.items then kwargs.items[name] else code.attrs[name]
  {
    var i := FirstUnknown(kwargs.keys, order);
    if i < |kwargs.keys| then Err(NotACodeField(kwargs.keys[i]))
    else Ok(Code(map name | name in code.attrs :: if name in kwargs.items then kwargs.items[name] else code.attrs[name]))
  }

  /** `type(code)(*unpacked)`: each attribute taken from its position in `order`, as the
      constructor of Python 3.9 and earlier reads them. */
  function FromPositional(order: seq<string>, unpacked: seq<Attr>): Code
    requires |unpacked| == |order|
  {
    Code(map name | name in order :: unpacked[IndexOf(order, name)])
  }

  /** `unpacked` after the first `j` keywords have been written into it. */
  ghost predicate OverwrittenUpTo(order: seq<string>, code: Code, kwargs: Dict<string, Attr>,
                                  unpacked: seq<Attr>, j: nat)
    requires IsCodeObject(order, code) && Valid(kwargs) && j <= |kwargs.keys|
  {
    && |unpacked| == |order|
    && (forall x :: 0 <= x < j ==> kwargs.keys[x] in order)
    && (forall i :: 0 <= i < |order| ==>
          unpacked[i] == if order[i] in kwargs.keys[..j] then kwargs.items[order[i]] else code.attrs[order[i]])
  }

  /** Writing the next keyword's value at its field's position. */
  lemma OverwriteNext(order: seq<string>, code: Code, kwargs: Dict<string, Attr>, unpacked: seq<Attr>, j: nat)
    requires IsCodeObject(order, code) && Valid(kwargs) && j < |kwargs.keys|
    requires OverwrittenUpTo(order, code, kwargs, unpacked, j) && kwargs.keys[j] in order
    ensures OverwrittenUpTo(order, code, kwargs,
      unpacked[IndexOf(order, kwargs.keys[j]) := kwargs.items[kwargs.keys[j]]], j + 1)
  {
    var k := kwargs.keys[j];
    var at := IndexOf(order, k);
    forall i | 0 <= i < |order| && i != at ensures order[i] != k {
    }
    assert kwargs.keys[..j + 1] == kwargs.keys[..j] + [k];
  }

  /** `code_replace`: unpack the attributes in field order, overwrite the position of each
      keyword in turn, and rebuild. `order` is the interpreter's `CodeFieldOrder`. */
  method CodeReplace(order: seq<string>, code: Code, kwargs: Dict<string, Attr>) returns (r: Result<Code, ReplaceError>)
    requires IsCodeObject(order, code) && Valid(kwargs)
    ensures r == Replaced(order, code, kwargs)
  {
    var unpacked := seq(|order|, i requires 0 <= i < |order| => code.attrs[order[i]]);
    for j := 0 to |kwargs.keys|
      invariant OverwrittenUpTo(order, code, kwargs, unpacked, j)
    {
      var k := kwargs.keys[j];
      if k !in order {
        assert FirstUnknown(kwargs.keys, order) == j;
        return Err(NotACodeField(k));
      }
      OverwriteNext(order, code, kwargs, unpacked, j);
      unpacked := unpacked[IndexOf(order, k) := kwargs.items[k]];
    }
    assert kwargs.keys[..|kwargs.keys|] == kwargs.keys;
    assert FirstUnknown(kwargs.keys, order) == |kwargs.keys|;
    RebuiltIsReplaced(order, code, kwargs, unpacked);
    r := Ok(FromPositional(order, unpacked));
  }

  lemma RebuiltIsReplaced(order: seq<string>, code: Code, kwargs: Dict<string, Attr>, unpacked: seq<Attr>)
    requires IsCodeObject(order, code) && Valid(kwargs)
    requires forall k :: k in kwargs.items ==> k in order
    requires |unpacked| == |order|
    requires forall i :: 0 <= i < |order| ==>
      unpacked[i] == if order[i] in kwargs.keys then kwargs.items[order[i]] else code.attrs[order[i]]
    ensures Replaced(order, code, kwargs) == Ok(FromPositional(order, unpacked))
  {
    var m := FromPositional(order, unpacked).attrs;
    var expected := map name | name in code.attrs :: if name in kwargs.items then kwargs.items[name] else code.attrs[name];
    assert m.Keys == expected.Keys;
    forall name | name in m ensures m[name] == expected[name] {
      var at := IndexOf(order, name);
    }
    assert m == expected;
  }
}
