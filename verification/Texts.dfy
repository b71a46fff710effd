/**
  The text operations the services rely on: Go's string order and sorting, joining with a
  separator, and decimal formatting. Each comes with the law that lets a reader undo it.
 */
module Texts {
  import opened Wrappers

  // Go's order on strings: the first difference decides, and a prefix comes first.
  predicate Leq(a: string, b: string) {
    a == "" || (b != "" && (a[0] < b[0] || (a[0] == b[0] && Leq(a[1..], b[1..]))))
  }

  lemma DiffersLater(a: string, b: string)
    requires a != "" && b != ""
    ensures (exists n :: DiffersAt(a, b, n) && n > 0) ==> a[0] == b[0]
  {
    if n :| DiffersAt(a, b, n) && n > 0 { assert a[..n][0] == a[0] && b[..n][0] == b[0]; }
  }

  lemma {:induction false} LeqIsLexicographic(a: string, b: string)
    ensures Leq(a, b) <==> a <= b || exists n :: DiffersAt(a, b, n) && a[n] < b[n]
  {
    if a != "" && b != "" && a[0] == b[0] {
      LeqIsLexicographic(a[1..], b[1..]);
      assert a == [a[0]] + a[1..] && b == [b[0]] + b[1..];
      forall n | DiffersAt(a[1..], b[1..], n) ensures DiffersAt(a, b, n + 1) {
        assert a[..n + 1] == [a[0]] + a[1..][..n] && b[..n + 1] == [b[0]] + b[1..][..n];
      }
      forall n | DiffersAt(a, b, n) ensures n > 0 && DiffersAt(a[1..], b[1..], n - 1) {
        assert a[1..][..n - 1] == a[..n][1..] && b[1..][..n - 1] == b[..n][1..];
      }
    } else if a != "" && b != "" {
      assert DiffersAt(a, b, 0);
      DiffersLater(a, b);
    }
  }

  // The first place where two texts differ.
  predicate DiffersAt(a: string, b: string, n: int) {
    0 <= n < |a| && n < |b| && a[..n] == b[..n] && a[n] != b[n]
  }

  lemma {:induction false} LeqTotal(a: string, b: string)
    ensures Leq(a, b) || Leq(b, a)
  {
    if a != "" && b != "" && a[0] == b[0] {
      LeqTotal(a[1..], b[1..]);
    }
  }

  lemma {:induction false} LeqAntisymmetric(a: string, b: string)
    requires Leq(a, b) && Leq(b, a)
    ensures a == b
  {
    if a != "" && b != "" {
      LeqAntisymmetric(a[1..], b[1..]);
      assert a == [a[0]] + a[1..] && b == [b[0]] + b[1..];
    }
  }

  lemma {:induction false} LeqTransitive(a: string, b: string, c: string)
    requires Leq(a, b) && Leq(b, c)
    ensures Leq(a, c)
  {
    if a != "" && a[0] == b[0] == c[0] {
      LeqTransitive(a[1..], b[1..], c[1..]);
    }
  }

  predicate Sorted(s: seq<string>) {
    forall i, j :: 0 <= i < j < |s| ==> Leq(s[i], s[j])
  }

  lemma {:induction false} SortedFirst(x: string, s: seq<string>)
    requires Sorted(s) && s != [] && Leq(x, s[0])
    ensures Sorted([x] + s)
  {
    forall j | 0 <= j < |s| ensures Leq(x, s[j]) {
      if j > 0 { LeqTransitive(x, s[0], s[j]); }
    }
  }

  lemma {:induction false} SortedRest(x: string, s: seq<string>, t: seq<string>)
    requires Sorted(s) && s != [] && !Leq(x, s[0]) && Sorted(t) && multiset(t) == multiset(s[1..]) + multiset{x}
    ensures Sorted([s[0]] + t)
  {
    LeqTotal(x, s[0]);
    forall j | 0 <= j < |t| ensures Leq(s[0], t[j]) {
      assert t[j] in multiset(t);
      assert t[j] == x || t[j] in s[1..];
    }
  }

  function Insert(x: string, s: seq<string>): (r: seq<string>)
    requires Sorted(s)
    ensures Sorted(r) && multiset(r) == multiset(s) + multiset{x} && |r| == |s| + 1
  {
    if s == [] then [x]
    else if Leq(x, s[0]) then
      SortedFirst(x, s);
      [x] + s
    else
      assert s == [s[0]] + s[1..];
      var t := Insert(x, s[1..]);
      SortedRest(x, s, t);
      [s[0]] + t
  }

  // sort.Strings, as the value it leaves in the slice.
  function Sort(s: seq<string>): (r: seq<string>)
    ensures Sorted(r) && multiset(r) == multiset(s) && |r| == |s|
  {
    if s == [] then []
    else
      assert s == s[..|s| - 1] + [s[|s| - 1]];
      Insert(s[|s| - 1], Sort(s[..|s| - 1]))
  }

  // A multiset of strings has one sorted listing, so sorting forgets exactly the order.
  lemma {:induction false} SortedUnique(a: seq<string>, b: seq<string>)
    requires Sorted(a) && Sorted(b) && multiset(a) == multiset(b)
    ensures a == b
  {
    assert |a| == |multiset(a)| == |multiset(b)| == |b|;
    if a != [] {
      assert a[0] in multiset(b) by { assert a[0] in multiset(a); }
      assert b[0] in multiset(a) by { assert b[0] in multiset(b); }
      LeqAntisymmetricHeads(a, b);
      assert a == [a[0]] + a[1..] && b == [b[0]] + b[1..];
      assert multiset(a[1..]) == multiset(a) - multiset{a[0]};
      assert multiset(b[1..]) == multiset(b) - multiset{b[0]};
      SortedUnique(a[1..], b[1..]);
    }
  }

  lemma LeqAntisymmetricHeads(a: seq<string>, b: seq<string>)
    requires Sorted(a) && Sorted(b) && a != [] && b != [] && a[0] in b && b[0] in a
    ensures a[0] == b[0]
  {
    var i :| 0 <= i < |b| && b[i] == a[0];
    var j :| 0 <= j < |a| && a[j] == b[0];
    if i > 0 && j > 0 { LeqAntisymmetric(a[0], b[0]); }
  }

  lemma {:induction false} SortForgetsOrder(a: seq<string>, b: seq<string>)
    ensures Sort(a) == Sort(b) <==> multiset(a) == multiset(b)
  {
    if multiset(a) == multiset(b) {
      SortedUnique(Sort(a), Sort(b));
    }
  }

  // strings.Join with a one-character separator.
  function Join(parts: seq<string>, sep: char): string {
    if parts == [] then ""
    else if |parts| == 1 then parts[0]
    else parts[0] + [sep] + Join(parts[1..], sep)
  }

  lemma FirstSeparator(p: string, x: string, sep: char, i: nat)
    requires sep !in p && i < |p + [sep] + x| && (p + [sep] + x)[i] == sep
    ensures |p| <= i
  {
  }

  // Cutting at the first separator undoes gluing a separator-free text in front.
  lemma {:induction false} CutUnique(p: string, x: string, q: string, y: string, sep: char)
    requires sep !in p && sep !in q && p + [sep] + x == q + [sep] + y
    ensures p == q && x == y
  {
    var s := p + [sep] + x;
    FirstSeparator(p, x, sep, |q|);
    FirstSeparator(q, y, sep, |p|);
    assert s[|p|] == sep && (q + [sep] + y)[|q|] == sep;
    assert p == s[..|p|] == q;
    assert x == s[|p| + 1..] == y;
  }

  predicate CleanParts(parts: seq<string>, sep: char) {
    forall i :: 0 <= i < |parts| ==> parts[i] != "" && sep !in parts[i]
  }

  lemma SortOne(a: string)
    ensures Sort([a]) == [a]
  {
    SortedUnique(Sort([a]), [a]);
  }

  lemma {:induction false} SortTwo(a: string, b: string, sep: char)
    requires Leq(a, b)
    ensures Sort([a, b]) == [a, b] && Join([a, b], sep) == a + [sep] + b
  {
    var s := [a, b];
    SortedUnique(Sort(s), s);
    assert s[1..] == [b] && Join([b], sep) == b;
  }

  lemma {:induction false} SortKeepsMembers(s: seq<string>, i: nat)
    requires i < |s|
    ensures Sort(s)[i] in s
  {
    assert Sort(s)[i] in multiset(Sort(s));
  }

  lemma {:induction false} SortKeepsClean(s: seq<string>, sep: char)
    requires CleanParts(s, sep)
    ensures CleanParts(Sort(s), sep)
  {
    forall i | 0 <= i < |s| ensures Sort(s)[i] != "" && sep !in Sort(s)[i] {
      SortKeepsMembers(s, i);
    }
  }

  // The separator shows exactly when there is more than one part.
  lemma {:induction false} JoinSeparator(parts: seq<string>, sep: char)
    requires CleanParts(parts, sep)
    ensures Join(parts, sep) == "" <==> parts == []
    ensures sep in Join(parts, sep) <==> |parts| > 1
  {
    if |parts| > 1 { assert Join(parts, sep)[|parts[0]|] == sep; }
  }

  // Joining non-empty separator-free parts loses nothing.
  lemma {:induction false} JoinUnique(a: seq<string>, b: seq<string>, sep: char)
    requires CleanParts(a, sep) && CleanParts(b, sep) && Join(a, sep) == Join(b, sep)
    ensures a == b
  {
    JoinSeparator(a, sep);
    JoinSeparator(b, sep);
    if |a| > 1 {
      CutUnique(a[0], Join(a[1..], sep), b[0], Join(b[1..], sep), sep);
      JoinUnique(a[1..], b[1..], sep);
      assert a == [a[0]] + a[1..] && b == [b[0]] + b[1..];
    }
  }

  lemma {:induction false} JoinAvoids(parts: seq<string>, sep: char, c: char)
    requires c != sep && forall i :: 0 <= i < |parts| ==> c !in parts[i]
    ensures c !in Join(parts, sep)
  {
    if |parts| > 1 { JoinAvoids(parts[1..], sep, c); }
  }

  const DIGITS: string := "0123456789"

  predicate IsDigit(c: char) { '0' <= c <= '9' }

  function Digits(n: nat): (s: string)
    ensures s != "" && forall i :: 0 <= i < |s| ==> IsDigit(s[i])
  {
    if n < 10 then [DIGITS[n]] else Digits(n / 10) + [DIGITS[n % 10]]
  }

  // fmt's %d and strconv.FormatInt in base ten.
  function Decimal(n: int): (s: string)
    ensures s != "" && forall i :: 0 <= i < |s| ==> IsDigit(s[i]) || s[i] == '-'
  {
    if n < 0 then "-" + Digits(-n) else Digits(n)
  }

  function DigitValue(c: char): nat
    requires IsDigit(c)
  {
    (c as int) - ('0' as int)
  }

  function ParseDigits(s: string): Option<nat> {
    if s == "" || !IsDigit(s[|s| - 1]) then None
    else if |s| == 1 then Some(DigitValue(s[0]))
    else match ParseDigits(s[..|s| - 1])
      case None => None
      case Some(v) => Some(10 * v + DigitValue(s[|s| - 1]))
  }

  lemma {:induction false} ParseDigitsAccepts(s: string)
    ensures ParseDigits(s).Some? <==> s != "" && forall i :: 0 <= i < |s| ==> IsDigit(s[i])
  {
    if |s| > 1 {
      ParseDigitsAccepts(s[..|s| - 1]);
      assert s == s[..|s| - 1] + [s[|s| - 1]];
    }
  }

  // What Atoi reads: an optional sign, then digits only and at least one.
  lemma {:induction false} AtoiAccepts(s: string)
    ensures Atoi(s).Some? <==>
      var digits := if s != "" && (s[0] == '-' || s[0] == '+') then s[1..] else s;
      digits != "" && forall i :: 0 <= i < |digits| ==> IsDigit(digits[i])
  {
    ParseDigitsAccepts(if s != "" && (s[0] == '-' || s[0] == '+') then s[1..] else s);
  }

  // strconv.Atoi: an optional sign and at least one digit.
  function Atoi(s: string): Option<int> {
    if s != "" && (s[0] == '-' || s[0] == '+') then
      match ParseDigits(s[1..])
      case None => None
      case Some(v) => if s[0] == '-' then Some(-(v as int)) else Some(v)
    else
      match ParseDigits(s)
      case None => None
      case Some(v) => Some(v)
  }

  lemma {:induction false} DigitsParse(n: nat)
    ensures ParseDigits(Digits(n)) == Some(n)
  {
    var s := Digits(n);
    if n >= 10 {
      DigitsParse(n / 10);
      assert s[..|s| - 1] == Digits(n / 10);
    }
  }

  lemma {:induction false} AtoiPlain(s: string, v: nat)
    requires s != "" && IsDigit(s[0]) && ParseDigits(s) == Some(v)
    ensures Atoi(s) == Some(v)
  {
  }

  lemma {:induction false} AtoiNegative(s: string, v: nat)
    requires ParseDigits(s) == Some(v)
    ensures Atoi("-" + s) == Some(-(v as int))
  {
    assert ("-" + s)[1..] == s;
  }

  // What FormatInt prints, Atoi reads back.
  lemma {:induction false} DecimalRoundTrip(n: int)
    ensures Atoi(Decimal(n)) == Some(n)
  {
    if n < 0 {
      DigitsParse(-n);
      AtoiNegative(Digits(-n), -n);
    } else {
      DigitsParse(n);
      AtoiPlain(Digits(n), n);
    }
  }
}
