/** Big-endian digit sequences: the arithmetic under the text forms of identifiers,
    checksums and cursors. */
module Digits {

  function Value(ds: seq<nat>, b: nat): nat
  {
    if ds == [] then 0 else Value(ds[..|ds| - 1], b) * b + ds[|ds| - 1]
  }

  function Digits(x: nat, n: nat, b: nat): (ds: seq<nat>)
    requires b >= 2
    ensures |ds| == n
  {
    if n == 0 then [] else Digits(x / b, n - 1, b) + [x % b]
  }

  function Pow(b: nat, n: nat): nat
  {
    if n == 0 then 1 else Pow(b, n - 1) * b
  }

  predicate Below(ds: seq<nat>, b: nat)
  {
    forall i :: 0 <= i < |ds| ==> ds[i] < b
  }

  lemma MulMono(x: nat, y: nat, b: nat)
    requires x <= y
    ensures x * b <= y * b
  {
  }

  lemma DivModUnique(q: nat, r: nat, x: nat, d: nat, b: nat)
    requires q * b + r == x * b + d && r < b && d < b
    ensures q == x && r == d
  {
    assert (q + 1) * b == q * b + b;
    assert (x + 1) * b == x * b + b;
    if q < x { MulMono(q + 1, x, b); }
    if x < q { MulMono(x + 1, q, b); }
  }

  lemma DivModSum(x: nat, b: nat)
    requires b >= 1
    ensures x == (x / b) * b + x % b
  {
  }

  lemma PushDigit(x: nat, d: nat, b: nat)
    requires d < b
    ensures (x * b + d) / b == x && (x * b + d) % b == d
  {
    var n := x * b + d;
    DivModSum(n, b);
    DivModUnique(n / b, n % b, x, d, b);
  }

  lemma {:induction false} DigitsBelow(x: nat, n: nat, b: nat)
    requires b >= 2
    ensures Below(Digits(x, n, b), b)
  {
    if n > 0 { DigitsBelow(x / b, n - 1, b); }
  }

  lemma DivBelow(x: nat, p: nat, b: nat)
    requires b >= 2 && x < p * b
    ensures x / b < p
  {
  }

  /** Digits then Value. */
  lemma {:induction false} ValueOfDigits(x: nat, n: nat, b: nat)
    requires b >= 2 && x < Pow(b, n)
    ensures Value(Digits(x, n, b), b) == x
  {
    if n > 0 {
      DivBelow(x, Pow(b, n - 1), b);
      ValueOfDigits(x / b, n - 1, b);
      DivModSum(x, b);
      var ds := Digits(x, n, b);
      assert ds[..n - 1] == Digits(x / b, n - 1, b);
    }
  }

  lemma {:induction false} ValueBelow(ds: seq<nat>, b: nat)
    requires b >= 1 && Below(ds, b)
    ensures Value(ds, b) < Pow(b, |ds|)
  {
    if ds != [] {
      var init := ds[..|ds| - 1];
      ValueBelow(init, b);
      MulMono(Value(init, b) + 1, Pow(b, |init|), b);
    }
  }

  /** Value then Digits. */
  lemma {:induction false} DigitsOfValue(ds: seq<nat>, b: nat)
    requires b >= 2 && Below(ds, b)
    ensures Digits(Value(ds, b), |ds|, b) == ds
  {
    if ds != [] {
      var init, d := ds[..|ds| - 1], ds[|ds| - 1];
      DigitsOfValue(init, b);
      PushDigit(Value(init, b), d, b);
      assert ds == init + [d];
    }
  }

  lemma Shift(v: nat, p: nat, w: nat, b: nat)
    ensures (v * p + w) * b == v * (p * b) + w * b
  {
  }

  lemma {:induction false} ValueConcat(a: seq<nat>, c: seq<nat>, b: nat)
    ensures Value(a + c, b) == Value(a, b) * Pow(b, |c|) + Value(c, b)
  {
    if c == [] {
      assert a + c == a;
    } else {
      var init, d := c[..|c| - 1], c[|c| - 1];
      ValueConcat(a, init, b);
      assert (a + c)[..|a + c| - 1] == a + init;
      Shift(Value(a, b), Pow(b, |init|), Value(init, b), b);
    }
  }

  // ---- Order ----

  /** Lexicographic order on sequences of numbers, as strings are compared. */
  predicate LexLess(a: seq<nat>, c: seq<nat>)
  {
    if c == [] then false
    else if a == [] then true
    else a[0] < c[0] || (a[0] == c[0] && LexLess(a[1..], c[1..]))
  }

  lemma HeadOrder(h: nat, k: nat, x: nat, y: nat, p: nat)
    requires h < k && x < p && y < p
    ensures h * p + x < k * p + y
  {
    assert (h + 1) * p <= k * p by { MulMono(h + 1, k, p); }
  }

  /** Equal-length digit sequences compare like their values. */
  lemma {:induction false} LexOrderIsValueOrder(a: seq<nat>, c: seq<nat>, b: nat)
    requires b >= 1 && |a| == |c| && Below(a, b) && Below(c, b)
    ensures LexLess(a, c) <==> Value(a, b) < Value(c, b)
  {
    if a != [] {
      var p := Pow(b, |a| - 1);
      ValueConcat([a[0]], a[1..], b);
      ValueConcat([c[0]], c[1..], b);
      assert [a[0]] + a[1..] == a && [c[0]] + c[1..] == c;
      assert Value([a[0]], b) == a[0] && Value([c[0]], b) == c[0];
      ValueBelow(a[1..], b);
      ValueBelow(c[1..], b);
      if a[0] < c[0] {
        HeadOrder(a[0], c[0], Value(a[1..], b), Value(c[1..], b), p);
      } else if c[0] < a[0] {
        HeadOrder(c[0], a[0], Value(c[1..], b), Value(a[1..], b), p);
      } else {
        LexOrderIsValueOrder(a[1..], c[1..], b);
      }
    }
  }
}
