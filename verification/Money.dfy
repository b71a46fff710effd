/** Cents in Go's int64: every addition and product wraps around two's complement. */
module Money {
  const TWO_TO_63: int := 0x8000_0000_0000_0000
  const TWO_TO_64: int := 0x1_0000_0000_0000_0000

  predicate InInt64(x: int) { -TWO_TO_63 <= x < TWO_TO_63 }

  type int64 = x: int | InInt64(x)
  type int32 = x: int | -0x8000_0000 <= x < 0x8000_0000

  function Wrap(x: int): (r: int64)
    ensures InInt64(x) <==> r == x
    ensures exists k: int :: r == x + k * TWO_TO_64
  {
    var r := (x + TWO_TO_63) % TWO_TO_64 - TWO_TO_63;
    assert r == x + (-((x + TWO_TO_63) / TWO_TO_64)) * TWO_TO_64;
    r
  }

  lemma WrapUnique(x: int, r: int64, k: int)
    requires r == x + k * TWO_TO_64
    ensures r == Wrap(x)
  {
    var j: int :| Wrap(x) == x + j * TWO_TO_64;
    assert r - Wrap(x) == (k - j) * TWO_TO_64;
    assert InInt64(r) && InInt64(Wrap(x));
    assert k - j == 0;
  }

  // Wrapping early or late makes no difference to a sum.
  lemma WrapAbsorbs(x: int, y: int)
    ensures Wrap(Wrap(x) + y) == Wrap(x + y)
  {
    var j: int :| Wrap(x) == x + j * TWO_TO_64;
    var k: int :| Wrap(Wrap(x) + y) == Wrap(x) + y + k * TWO_TO_64;
    WrapUnique(x + y, Wrap(Wrap(x) + y), j + k);
  }

  // A price times a quantity, as the services compute it everywhere.
  function LineTotal(unitPrice: int64, quantity: int32): int64 {
    Wrap(unitPrice * quantity)
  }

  function Sum(s: seq<int>): int {
    if s == [] then 0 else Sum(s[..|s| - 1]) + s[|s| - 1]
  }

  lemma SumExtend(s: seq<int>, i: nat)
    requires i < |s|
    ensures Sum(s[..i + 1]) == Sum(s[..i]) + s[i]
  {
    assert s[..i + 1][..i] == s[..i];
  }

  // One step of a wrapping loop total.
  lemma WrapStep(s: seq<int>, i: nat)
    requires i < |s|
    ensures Wrap(Wrap(Sum(s[..i])) + s[i]) == Wrap(Sum(s[..i + 1]))
  {
    SumExtend(s, i);
    WrapAbsorbs(Sum(s[..i]), s[i]);
  }

  lemma {:induction false} SumWraps(s: seq<int>)
    ensures Wrap(Sum(seq(|s|, i requires 0 <= i < |s| => Wrap(s[i])))) == Wrap(Sum(s))
  {
    if s != [] {
      var n := |s| - 1;
      var w := seq(|s|, i requires 0 <= i < |s| => Wrap(s[i]));
      SumWraps(s[..n]);
      assert w[..n] == seq(n, i requires 0 <= i < n => Wrap(s[..n][i]));
      WrapAbsorbs(Sum(w[..n]), w[n]);
      WrapAbsorbs(Sum(s[..n]), w[n]);
      WrapAbsorbs(s[n], Sum(s[..n]));
    }
  }

  lemma {:induction false} SumPositive(s: seq<int>)
    requires forall i :: 0 <= i < |s| ==> s[i] > 0
    ensures Sum(s) >= |s|
  {
    if s != [] { SumPositive(s[..|s| - 1]); }
  }
}
