/** Python string building as used by the template generators: `str.join`, decimal
    rendering of integers in f-strings, and the inverses used to state what a text holds. */
module Text {

  /** `sep.join(parts)`. */
  function Join(sep: string, parts: seq<string>): string
  {
    if |parts| == 0 then ""
    else if |parts| == 1 then parts[0]
    else parts[0] + sep + Join(sep, parts[1..])
  }

  /** `s.split(c)` for a one-character separator (an empty text splits to `[""]`). */
  function Split(c: char, s: string): (r: seq<string>)
    ensures |r| >= 1
  {
    if |s| == 0 then [""]
    else
      var rest := Split(c, s[1..]);
      if s[0] == c then [""] + rest else [[s[0]] + rest[0]] + rest[1..]
  }

  lemma {:induction false} SplitWithout(c: char, p: string)
    requires c !in p
    ensures Split(c, p) == [p]
  {
    if |p| > 0 {
      SplitWithout(c, p[1..]);
      assert [p[0]] + p[1..] == p;
    }
  }

  lemma {:induction false} SplitAtFirst(c: char, p: string, t: string)
    requires c !in p
    ensures Split(c, p + [c] + t) == [p] + Split(c, t)
  {
    var s := p + [c] + t;
    if |p| == 0 {
      assert s[1..] == t;
    } else {
      assert s[1..] == p[1..] + [c] + t;
      SplitAtFirst(c, p[1..], t);
      assert [p[0]] + p[1..] == p;
    }
  }

  /** What `sep.join` glued together, `split` takes apart again, provided no part holds the separator. */
  lemma {:induction false} SplitJoin(c: char, parts: seq<string>)
    requires |parts| >= 1
    requires forall i :: 0 <= i < |parts| ==> c !in parts[i]
    ensures Split(c, Join([c], parts)) == parts
  {
    if |parts| == 1 {
      SplitWithout(c, parts[0]);
    } else {
      SplitJoin(c, parts[1..]);
      SplitAtFirst(c, parts[0], Join([c], parts[1..]));
      assert parts == [parts[0]] + parts[1..];
    }
  }

  /** A character that occurs neither in the separator nor in any part does not occur in the join. */
  lemma {:induction false} JoinAvoids(ch: char, sep: string, parts: seq<string>)
    requires ch !in sep
    requires forall i :: 0 <= i < |parts| ==> ch !in parts[i]
    ensures ch !in Join(sep, parts)
  {
    if |parts| > 1 {
      JoinAvoids(ch, sep, parts[1..]);
    }
  }

  predicate IsDigit(ch: char) {
    '0' <= ch <= '9'
  }

  function DigitChar(d: nat): (ch: char)
    requires d < 10
    ensures IsDigit(ch)
  {
    ('0' as int + d) as char
  }

  function DigitValue(ch: char): (d: nat)
    requires IsDigit(ch)
    ensures d < 10
  {
    ch as int - '0' as int
  }

  /** The decimal text of a non-negative integer, as `f'{n}'` renders it. */
  function Decimal(n: nat): (r: string)
    ensures |r| >= 1
    ensures forall i :: 0 <= i < |r| ==> IsDigit(r[i])
  {
    if n < 10 then [DigitChar(n)] else Decimal(n / 10) + [DigitChar(n % 10)]
  }

  /** Reading decimal digits back into a number (the partner of `Decimal`). */
  function ParseDecimal(s: string): nat
    requires |s| >= 1
    requires forall i :: 0 <= i < |s| ==> IsDigit(s[i])
  {
    if |s| == 1 then DigitValue(s[0])
    else 10 * ParseDecimal(s[..|s| - 1]) + DigitValue(s[|s| - 1])
  }

  lemma {:induction false} ParseDecimalOfDecimal(n: nat)
    ensures ParseDecimal(Decimal(n)) == n
  {
    if n >= 10 {
      var s := Decimal(n);
      assert s[..|s| - 1] == Decimal(n / 10);
      ParseDecimalOfDecimal(n / 10);
    }
  }

  /** Distinct numbers have distinct decimal texts. */
  lemma DecimalInjective(a: nat, b: nat)
    ensures Decimal(a) == Decimal(b) ==> a == b
  {
    ParseDecimalOfDecimal(a);
    ParseDecimalOfDecimal(b);
  }

  predicate IsIdentifierChar(ch: char) {
    ('a' <= ch <= 'z') || ('A' <= ch <= 'Z') || IsDigit(ch) || ch == '_'
  }

  /** An ASCII Python identifier, such as a placeholder name `_0`, `_1`, …; field names are
      not required to be one. */
  predicate IsIdentifier(s: string) {
    |s| >= 1 && !IsDigit(s[0]) && forall i :: 0 <= i < |s| ==> IsIdentifierChar(s[i])
  }
}
