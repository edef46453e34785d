/** Strings in code-point order: what Python's `sorted` and `str` give the planner. */
module Text {

  /** `a < b` on strings: the first difference decides, a proper prefix comes first. */
  predicate Before(a: string, b: string) {
    if |b| == 0 then false
    else if |a| == 0 then true
    else if a[0] == b[0] then Before(a[1..], b[1..])
    else a[0] < b[0]
  }

  lemma {:induction false} BeforeIsTotal(a: string, b: string)
    ensures a == b || Before(a, b) || Before(b, a)
    ensures !(Before(a, b) && Before(b, a))
    ensures Before(a, b) ==> a != b
  {
    if |a| > 0 && |b| > 0 {
      BeforeIsTotal(a[1..], b[1..]);
      if a[0] == b[0] && a[1..] == b[1..] {
        assert a == [a[0]] + a[1..] && b == [b[0]] + b[1..];
      }
    }
  }

  lemma {:induction false} BeforeIsTransitive(a: string, b: string, c: string)
    requires Before(a, b) && Before(b, c)
    ensures Before(a, c)
  {
    if |a| > 0 && |b| > 0 && |c| > 0 && a[0] == b[0] == c[0] {
      BeforeIsTransitive(a[1..], b[1..], c[1..]);
    }
  }

  predicate IsFirst(m: string, names: set<string>) {
    m in names && forall n :: n in names && n != m ==> Before(m, n)
  }

  lemma FirstExists(names: set<string>)
    requires names != {}
    ensures exists m :: IsFirst(m, names)
  {
    var x :| x in names;
    if names == {x} {
      assert IsFirst(x, names);
    } else {
      FirstExists(names - {x});
      var m :| IsFirst(m, names - {x});
      BeforeIsTotal(x, m);
      if Before(x, m) {
        forall n | n in names && n != x
          ensures Before(x, n)
        {
          if n != m { BeforeIsTransitive(x, m, n); }
        }
        assert IsFirst(x, names);
      } else {
        assert IsFirst(m, names);
      }
    }
  }

  lemma FirstIsUnique(names: set<string>)
    ensures forall m, n :: IsFirst(m, names) && IsFirst(n, names) ==> m == n
  {
    forall m, n | IsFirst(m, names) && IsFirst(n, names)
      ensures m == n
    {
      BeforeIsTotal(m, n);
    }
  }

  function First(names: set<string>): (m: string)
    requires names != {}
    ensures IsFirst(m, names)
  {
    FirstExists(names);
    FirstIsUnique(names);
    var m :| IsFirst(m, names);
    m
  }

  ghost predicate Ascending(names: seq<string>) {
    forall i, j :: 0 <= i < j < |names| ==> Before(names[i], names[j])
  }

  /** `sorted(names)` for a set of strings. */
  function Sorted(names: set<string>): (r: seq<string>)
    ensures Ascending(r)
    ensures forall n :: n in r <==> n in names
  {
    if names == {} then []
    else
      var m := First(names);
      [m] + Sorted(names - {m})
  }

  /** `str(n)` for an integer. */
  function Decimal(n: int): string
    decreases if n < 0 then 1 - n else n
  {
    if n < 0 then "-" + Decimal(-n)
    else if n < 10 then [Digit(n)]
    else Decimal(n / 10) + [Digit(n % 10)]
  }

  function Digit(d: int): char
    requires 0 <= d < 10
  {
    '0' + d as char
  }

  lemma {:induction false} DecimalStarts(n: int)
    ensures |Decimal(n)| > 0 && forall i :: 0 <= i < |Decimal(n)| ==>
                                  Decimal(n)[i] == '-' || '0' <= Decimal(n)[i] <= '9'
    ensures Decimal(n)[0] == '-' <==> n < 0
    decreases if n < 0 then 1 - n else n
  {
    if n < 0 {
      DecimalStarts(-n);
    } else if n >= 10 {
      DecimalStarts(n / 10);
    }
  }

  lemma LastDigit(n: nat)
    ensures |Decimal(n)| == 1 <==> n < 10
    ensures Decimal(n) != [] && Decimal(n)[|Decimal(n)| - 1] == '0' + (n % 10) as char
    ensures n >= 10 ==> Decimal(n)[..|Decimal(n)| - 1] == Decimal(n / 10)
  {
    if n >= 10 { DecimalStarts(n / 10); }
  }

  lemma DigitTellsApart(x: nat, y: nat)
    requires x < 10 && y < 10 && '0' + x as char == '0' + y as char
    ensures x == y
  {
  }

  lemma {:induction false} NaturalsTellApart(a: nat, b: nat)
    requires Decimal(a) == Decimal(b)
    ensures a == b
    decreases a
  {
    LastDigit(a);
    LastDigit(b);
    DigitTellsApart(a % 10, b % 10);
    hide Decimal;
    if a >= 10 { NaturalsTellApart(a / 10, b / 10); }
  }

  /** No two integers print the same. */
  lemma DecimalTellsApart(a: int, b: int)
    requires Decimal(a) == Decimal(b)
    ensures a == b
  {
    DecimalStarts(a);
    DecimalStarts(b);
    if a < 0 {
      assert Decimal(a)[1..] == Decimal(-a) && Decimal(b)[1..] == Decimal(-b);
      NaturalsTellApart(-a, -b);
    } else {
      NaturalsTellApart(a, b);
    }
  }
}
