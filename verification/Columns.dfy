/** Spreadsheet cell references (table-export.ts): column letters count in
    bijective base 26, so every cell gets its own reference. */
module Columns {
  predicate Upper(c: char) { 'A' <= c <= 'Z' }

  predicate Letters(s: string) { forall i :: 0 <= i < |s| ==> Upper(s[i]) }

  function Letter(d: nat): char
    requires d < 26
  {
    'A' + d as char
  }

  /** The number a column name stands for, as spreadsheets read it: A is 1, Z 26, AA 27. */
  function ColumnNumber(s: string): nat
    requires Letters(s)
  {
    if s == "" then 0
    else ColumnNumber(s[..|s| - 1]) * 26 + (s[|s| - 1] as int - 'A' as int + 1)
  }

  lemma {:induction false} ColumnNumberOfCons(c: char, s: string)
    requires Upper(c) && Letters(s)
    ensures ColumnNumber([c] + s) == (c as int - 'A' as int + 1) * Power26(|s|) + ColumnNumber(s)
    decreases |s|
  {
    var t := [c] + s;
    if s == "" {
      assert t[..|t| - 1] == "";
    } else {
      assert t[..|t| - 1] == [c] + s[..|s| - 1];
      ColumnNumberOfCons(c, s[..|s| - 1]);
      Regroup(c as int - 'A' as int + 1, Power26(|s| - 1), ColumnNumber(s[..|s| - 1]));
    }
  }

  lemma Regroup(a: int, p: int, b: int)
    ensures (a * p + b) * 26 == a * (26 * p) + b * 26
  {
  }

  function Power26(k: nat): nat {
    if k == 0 then 1 else 26 * Power26(k - 1)
  }

  /** The letters of column index n (0-based) name column n + 1. */
  method ColLetter(n: nat) returns (s: string)
    ensures Letters(s) && s != ""
    ensures ColumnNumber(s) == n + 1
  {
    s := "";
    var m: nat := n + 1;
    while m > 0
      invariant Letters(s) && (s == "" ==> m == n + 1)
      invariant m * Power26(|s|) + ColumnNumber(s) == n + 1
    {
      var r := (m - 1) % 26;
      var q := (m - 1) / 26;
      ColumnNumberOfCons(Letter(r), s);
      Carry(q, r, Power26(|s|));
      s := [Letter(r)] + s;
      m := q;
    }
    assert 0 * Power26(|s|) == 0;
  }

  lemma Carry(q: int, r: int, p: int)
    ensures (q * 26 + r + 1) * p == q * (26 * p) + (r + 1) * p
  {
  }

  /** A column number has one name only, so equal letters mean equal columns and back. */
  lemma {:induction false} ColumnNumberInjective(s: string, t: string)
    requires Letters(s) && Letters(t)
    requires ColumnNumber(s) == ColumnNumber(t)
    ensures s == t
    decreases |s|
  {
    if s != "" && t != "" {
      var (s', t') := (s[..|s| - 1], t[..|t| - 1]);
      var (a, b) := (s[|s| - 1], t[|t| - 1]);
      LastDigit(ColumnNumber(s'), a as int - 'A' as int, ColumnNumber(t'), b as int - 'A' as int);
      ColumnNumberInjective(s', t');
      assert s == s' + [a] && t == t' + [b];
    }
  }

  lemma LastDigit(x: nat, a: nat, y: nat, b: nat)
    requires a < 26 && b < 26
    requires x * 26 + (a + 1) == y * 26 + (b + 1)
    ensures x == y && a == b
  {
  }

  // ---- Decimal numerals, as template strings write them ----

  predicate Digits(s: string) { forall i :: 0 <= i < |s| ==> '0' <= s[i] <= '9' }

  function Decimal(n: nat): (s: string)
    ensures Digits(s) && s != ""
  {
    if n < 10 then ['0' + n as char] else Decimal(n / 10) + ['0' + (n % 10) as char]
  }

  function Value(s: string): nat
    requires Digits(s)
  {
    if s == "" then 0 else Value(s[..|s| - 1]) * 10 + (s[|s| - 1] as int - '0' as int)
  }

  lemma {:induction false} ValueOfDecimal(n: nat)
    ensures Value(Decimal(n)) == n
  {
    var s := Decimal(n);
    if n < 10 {
      assert s[..|s| - 1] == "";
    } else {
      ValueOfDecimal(n / 10);
      assert s[..|s| - 1] == Decimal(n / 10);
    }
  }

  lemma DecimalInjective(m: nat, n: nat)
    requires Decimal(m) == Decimal(n)
    ensures m == n
  {
    ValueOfDecimal(m);
    ValueOfDecimal(n);
  }

  // ---- Cell references: table-export.ts:48 ----

  /** s is the reference of the cell in 0-based column c and row r. */
  ghost predicate IsCellRef(s: string, c: nat, r: nat) {
    exists letters :: Letters(letters) && ColumnNumber(letters) == c + 1 && s == letters + Decimal(r + 1)
  }

  method CellRef(c: nat, r: nat) returns (s: string)
    ensures IsCellRef(s, c, r)
  {
    var letters := ColLetter(c);
    s := letters + Decimal(r + 1);
  }

  lemma {:induction false} SplitLettersDigits(a: string, d: string, b: string, e: string)
    requires Letters(a) && Letters(b) && Digits(d) && Digits(e)
    requires a + d == b + e
    ensures a == b && d == e
  {
    var s := a + d;
    assert |a| < |s| ==> s[|a|] == d[0];
    assert |b| < |s| ==> s[|b|] == e[0];
    assert |a| < |b| ==> Upper((b + e)[|a|]);
    assert |b| < |a| ==> Upper((a + d)[|b|]);
    assert a == s[..|a|] && b == s[..|b|];
    assert d == s[|a|..] && e == s[|b|..];
  }

  /** Each cell has exactly one reference, and different cells have different ones. */
  lemma CellRefsDistinct(s: string, t: string, c: nat, r: nat, c': nat, r': nat)
    requires IsCellRef(s, c, r) && IsCellRef(t, c', r')
    ensures s == t <==> c == c' && r == r'
  {
    var a :| Letters(a) && ColumnNumber(a) == c + 1 && s == a + Decimal(r + 1);
    var b :| Letters(b) && ColumnNumber(b) == c' + 1 && t == b + Decimal(r' + 1);
    if s == t {
      SplitLettersDigits(a, Decimal(r + 1), b, Decimal(r' + 1));
      DecimalInjective(r + 1, r' + 1);
    }
    if c == c' {
      ColumnNumberInjective(a, b);
    }
  }
}
