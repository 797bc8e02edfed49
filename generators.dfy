/** The template generators `make__init__`, `make__repr__`, `make__eq__`, `make__iter__` and
    `make__hash__`: the source text of each method family for a list of field names. */
module Generators {
  import opened Text

  datatype Family = Init | Repr | Eq | Iter | Hash

  /** The statement `self.{name} = {name}`, indented by one space. */
  function Assignment(name: string): string
  {
    " self." + name + " = " + name
  }

  /** `' self.{name} = {name}\n'` for each name. */
  function InitAssignments(names: seq<string>): (r: seq<string>)
    ensures |r| == |names|
  {
    seq(|names|, i requires 0 <= i < |names| => Assignment(names[i]) + "\n")
  }

  function MakeInit(names: seq<string>): string
  {
    "def __init__(self, " + Join(",", names) + "):\n" + Join("\n", InitAssignments(names))
  }

  /** `'{self.' + name + '!r}'` for each name. */
  function ReprValues(names: seq<string>): (r: seq<string>)
    ensures |r| == |names|
  {
    seq(|names|, i requires 0 <= i < |names| => "{self." + names[i] + "!r}")
  }

  function MakeRepr(names: seq<string>): string
  {
    "def __repr__(self):\n return f\"{type(self).__name__}(" + Join(", ", ReprValues(names)) + ")\"\n"
  }

  /** `f'{obj}.{name}'` for each name. */
  function Attributes(obj: string, names: seq<string>): (r: seq<string>)
    ensures |r| == |names|
  {
    seq(|names|, i requires 0 <= i < |names| => obj + "." + names[i])
  }

  /** The text of `__eq__` around the two comma-joined attribute lists. */
  function EqText(selfValues: string, otherValues: string): string
  {
    "def __eq__(self, other):\n"
    + "    if self.__class__ is other.__class__:\n"
    + "        return (" + selfValues + ",) == (" + otherValues + ",)\n"
    + "    else:\n"
    + "        return NotImplemented\n"
    + "    "
  }

  function MakeEq(names: seq<string>): string
  {
    EqText(Join(",", Attributes("self", names)), Join(",", Attributes("other", names)))
  }

  /** `f'   yield self.{name}'` for each name. */
  function IterYields(names: seq<string>): (r: seq<string>)
    ensures |r| == |names|
  {
    seq(|names|, i requires 0 <= i < |names| => "   yield self." + names[i])
  }

  function MakeIter(names: seq<string>): string
  {
    "def __iter__(self):\n" + Join("\n", IterYields(names))
  }

  /** The text of `__hash__` around the comma-joined attribute list. */
  function HashText(values: string): string
  {
    "def __hash__(self):\n" + "    return hash(" + "(" + values + ",)" + ")\n"
  }

  function MakeHash(names: seq<string>): string
  {
    HashText(Join(",", Attributes("self", names)))
  }

  // Reading the generated text back.

  ghost predicate AllIdentifiers(names: seq<string>) {
    forall i :: 0 <= i < |names| ==> IsIdentifier(names[i])
  }

  lemma IdentifierAvoids(s: string)
    requires IsIdentifier(s)
    ensures ',' !in s && ')' !in s && '\n' !in s && '=' !in s
  {
    forall i | 0 <= i < |s| ensures s[i] != ',' && s[i] != ')' && s[i] != '\n' && s[i] != '=' {
      assert IsIdentifierChar(s[i]);
    }
  }

  /** The text of `s` up to the first `c` (all of `s` when there is none). */
  function TakeUntil(s: string, c: char): string
  {
    if |s| == 0 || s[0] == c then "" else [s[0]] + TakeUntil(s[1..], c)
  }

  lemma {:induction false} TakeUntilPrefix(p: string, c: char, t: string)
    requires c !in p
    ensures TakeUntil(p + [c] + t, c) == p
  {
    if |p| > 0 {
      assert (p + [c] + t)[1..] == p[1..] + [c] + t;
      TakeUntilPrefix(p[1..], c, t);
      assert [p[0]] + p[1..] == p;
    }
  }

  /** The positional parameters after `self` that a `def __init__(self, …):` line declares. */
  function InitParameters(src: string): seq<string>
  {
    var header := "def __init__(self, ";
    if |src| >= |header| && src[..|header|] == header
    then Split(',', TakeUntil(src[|header|..], ')'))
    else []
  }

  /** The generated constructor takes exactly the given names as its positional parameters,
      in order. */
  lemma InitTakesNamesInOrder(names: seq<string>)
    requires |names| >= 1 && AllIdentifiers(names)
    ensures InitParameters(MakeInit(names)) == names
  {
    var header := "def __init__(self, ";
    var params := Join(",", names);
    var src := MakeInit(names);
    forall i | 0 <= i < |names| ensures ',' !in names[i] && ')' !in names[i] {
      IdentifierAvoids(names[i]);
    }
    JoinAvoids(')', ",", names);
    assert src[|header|..] == params + [')'] + (":\n" + Join("\n", InitAssignments(names)));
    TakeUntilPrefix(params, ')', ":\n" + Join("\n", InitAssignments(names)));
    SplitJoin(',', names);
  }

  /** `lines` holds `self.n = n` for each name in order, each followed by an empty line. */
  ghost predicate AssignmentLines(lines: seq<string>, names: seq<string>) {
    && |lines| == 2 * |names|
    && (forall i :: 0 <= i < |names| ==> lines[2 * i] == Assignment(names[i]))
    && (forall i :: 0 <= i < |names| ==> lines[2 * i + 1] == "")
  }

  lemma AssignmentLinesCons(lines: seq<string>, names: seq<string>)
    requires |names| >= 1 && AssignmentLines(lines, names[1..])
    ensures AssignmentLines([Assignment(names[0]), ""] + lines, names)
  {
    var all := [Assignment(names[0]), ""] + lines;
    forall i | 1 <= i < |names|
      ensures all[2 * i] == Assignment(names[i]) && all[2 * i + 1] == ""
    {
      assert all[2 * i] == lines[2 * (i - 1)] && all[2 * i + 1] == lines[2 * (i - 1) + 1];
      assert names[1..][i - 1] == names[i];
    }
  }

  lemma AssignmentAvoidsNewline(name: string)
    requires '\n' !in name
    ensures '\n' !in Assignment(name)
  {
  }

  /** A line ending in a newline, then the joining newline, splits into the line and an
      empty one. */
  lemma SplitTerminatedLine(line: string, rest: string)
    requires '\n' !in line
    ensures Split('\n', (line + "\n") + "\n" + rest) == [line, ""] + Split('\n', rest)
  {
    assert (line + "\n") + "\n" + rest == line + ['\n'] + ("" + ['\n'] + rest);
    SplitAtFirst('\n', line, "" + ['\n'] + rest);
    SplitAtFirst('\n', "", rest);
  }

  /** The constructor body, read line by line: `self.n = n` for each name in order, each
      followed by an empty line (every assignment ends in a newline and the assignments are
      joined with another one). */
  lemma {:induction false} InitAssignsInOrder(names: seq<string>)
    requires |names| >= 1
    requires forall i :: 0 <= i < |names| ==> '\n' !in names[i]
    ensures AssignmentLines(Split('\n', Join("\n", InitAssignments(names))), names)
  {
    var a := Assignment(names[0]);
    var assignments := InitAssignments(names);
    AssignmentAvoidsNewline(names[0]);
    assert assignments[0] == a + "\n";
    if |names| == 1 {
      assert Join("\n", assignments) == a + ['\n'] + "";
      SplitAtFirst('\n', a, "");
    } else {
      var rest := Join("\n", InitAssignments(names[1..]));
      assert assignments[1..] == InitAssignments(names[1..]);
      assert Join("\n", assignments) == (a + "\n") + "\n" + rest;
      SplitTerminatedLine(a, rest);
      InitAssignsInOrder(names[1..]);
      AssignmentLinesCons(Split('\n', rest), names);
    }
  }

  /** The representation lists `{self.n!r}` for each field, in order, separated by `, `;
      the values carry no `n=` labels. */
  lemma ReprValuesInOrder(names: seq<string>)
    requires |names| >= 1 && AllIdentifiers(names)
    ensures var parts := Split(',', Join(", ", ReprValues(names)));
      && |parts| == |names|
      && parts[0] == "{self." + names[0] + "!r}"
      && (forall i :: 1 <= i < |names| ==> parts[i] == " {self." + names[i] + "!r}")
    ensures '=' !in Join(", ", ReprValues(names))
  {
    var values := ReprValues(names);
    forall i | 0 <= i < |names| ensures ',' !in values[i] && '=' !in values[i] {
      IdentifierAvoids(names[i]);
    }
    assert ", " == [','] + " ";
    SplitJoinPadded(',', " ", values);
    JoinAvoids('=', ", ", values);
  }

  lemma {:induction false} SplitJoinPadded(c: char, pad: string, parts: seq<string>)
    requires |parts| >= 1 && c !in pad
    requires forall i :: 0 <= i < |parts| ==> c !in parts[i]
    ensures var r := Split(c, Join([c] + pad, parts));
      && |r| == |parts| && r[0] == parts[0]
      && (forall i :: 1 <= i < |parts| ==> r[i] == pad + parts[i])
  {
    if |parts| == 1 {
      SplitWithout(c, parts[0]);
    } else {
      var rest := Join([c] + pad, parts[1..]);
      assert Join([c] + pad, parts) == parts[0] + [c] + (pad + rest);
      SplitAtFirst(c, parts[0], pad + rest);
      SplitJoinPadded(c, pad, parts[1..]);
      var tail := Split(c, rest);
      PadFirst(c, pad, rest);
      var r := Split(c, Join([c] + pad, parts));
      forall i | 1 <= i < |parts| ensures r[i] == pad + parts[i] {
        if i > 1 {
          assert r[i] == tail[i - 1] && parts[1..][i - 1] == parts[i];
        }
      }
    }
  }

  /** A prefix without the separator joins the first piece of a split. */
  lemma {:induction false} PadFirst(c: char, pad: string, s: string)
    requires c !in pad
    ensures Split(c, pad + s) == [pad + Split(c, s)[0]] + Split(c, s)[1..]
  {
    if |pad| > 0 {
      assert (pad + s)[1..] == pad[1..] + s;
      PadFirst(c, pad[1..], s);
      assert [pad[0]] + (pad[1..] + Split(c, s)[0]) == pad + Split(c, s)[0];
    } else {
      assert pad + s == s;
      assert pad + Split(c, s)[0] == Split(c, s)[0];
      assert Split(c, s) == [Split(c, s)[0]] + Split(c, s)[1..];
    }
  }

  /** `__eq__` compares the tuple of `self`'s fields with the tuple of `other`'s, both naming
      the fields in order, and only when both objects are of the same class; otherwise it
      returns `NotImplemented`. */
  lemma EqComparesFieldTuples(names: seq<string>)
    requires |names| >= 1 && AllIdentifiers(names)
    ensures exists s, o ::
      (&& MakeEq(names) == EqText(s, o)
       && Split(',', s) == Attributes("self", names)
       && Split(',', o) == Attributes("other", names))
  {
    var s, o := Join(",", Attributes("self", names)), Join(",", Attributes("other", names));
    forall i | 0 <= i < |names| ensures ',' !in Attributes("self", names)[i] && ',' !in Attributes("other", names)[i] {
      IdentifierAvoids(names[i]);
    }
    SplitJoin(',', Attributes("self", names));
    SplitJoin(',', Attributes("other", names));
  }

  /** `__iter__` yields `self.n` for each field, one line each, in order. */
  lemma IterYieldsInOrder(names: seq<string>)
    requires |names| >= 1 && AllIdentifiers(names)
    ensures Split('\n', Join("\n", IterYields(names))) == IterYields(names)
    ensures forall i :: 0 <= i < |names| ==> IterYields(names)[i] == "   yield self." + names[i]
  {
    forall i | 0 <= i < |names| ensures '\n' !in IterYields(names)[i] {
      IdentifierAvoids(names[i]);
    }
    SplitJoin('\n', IterYields(names));
  }

  /** `__hash__` hashes the tuple of `self`'s fields, in order. */
  lemma HashOfFieldTuple(names: seq<string>)
    requires |names| >= 1 && AllIdentifiers(names)
    ensures exists t ::
      (&& MakeHash(names) == HashText(t)
       && Split(',', t) == Attributes("self", names))
  {
    var t := Join(",", Attributes("self", names));
    forall i | 0 <= i < |names| ensures ',' !in Attributes("self", names)[i] {
      IdentifierAvoids(names[i]);
    }
    SplitJoin(',', Attributes("self", names));
  }
}
