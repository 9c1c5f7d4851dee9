/**
 Positional numerals over an ascending alphabet: the common ground of the hex clock stamps
 and the base-32 identifiers.

 Products, powers and quotients by the base are defined by recursion, so that their laws are inductions
 over the digits.
 */
module Radix {
  import opened Basics
  import opened Order

  /** `v * b`, unfolded one addend at a time so that the proofs below stay linear. */
  function Mul(v: nat, b: nat): nat {
    if v == 0 then 0 else Mul(v - 1, b) + b
  }

  lemma {:induction false} MulIsProduct(v: nat, b: nat)
    ensures Mul(v, b) == v * b
  {
    if v > 0 {
      MulIsProduct(v - 1, b);
    }
  }

  lemma {:induction false} MulMonotone(v: nat, w: nat, b: nat)
    requires v < w
    ensures Mul(v, b) + b <= Mul(w, b)
  {
    if v + 1 < w {
      MulMonotone(v, w - 1, b);
    }
  }

  function Pow(b: nat, e: nat): nat {
    if e == 0 then 1 else Mul(Pow(b, e - 1), b)
  }

  lemma {:induction false} PowPositive(b: nat, e: nat)
    requires b > 0
    ensures Pow(b, e) > 0
  {
    if e > 0 {
      PowPositive(b, e - 1);
    }
  }

  /** Integer quotient and remainder of `n` by `b`. */
  function Quot(n: nat, b: nat): nat
    requires b > 0
  {
    if n < b then 0 else 1 + Quot(n - b, b)
  }

  function Rem(n: nat, b: nat): (r: nat)
    requires b > 0
    ensures r < b
  {
    if n < b then n else Rem(n - b, b)
  }

  lemma {:induction false} Division(n: nat, b: nat)
    requires b > 0
    ensures n == Mul(Quot(n, b), b) + Rem(n, b)
  {
    if n >= b {
      Division(n - b, b);
    }
  }

  predicate Alphabet(alpha: string) {
    |alpha| > 1 && forall i, j :: 0 <= i < j < |alpha| ==> alpha[i] < alpha[j]
  }

  /** The index of `c` in `alpha`, or `|alpha|` when it is absent. */
  function IndexOf(alpha: string, c: char): (i: nat)
    ensures i <= |alpha|
    ensures i < |alpha| ==> alpha[i] == c
    ensures forall k :: 0 <= k < i ==> alpha[k] != c
  {
    if alpha == [] then 0
    else if alpha[0] == c then 0
    else
      var r := IndexOf(alpha[1..], c);
      assert forall k :: 1 <= k < r + 1 ==> alpha[k] == alpha[1..][k - 1];
      1 + r
  }

  lemma {:induction false} IndexOfDigit(alpha: string, d: nat)
    requires Alphabet(alpha) && d < |alpha|
    ensures IndexOf(alpha, alpha[d]) == d
  {
    var i := IndexOf(alpha, alpha[d]);
    assert i <= d;
  }

  predicate Numeral(alpha: string, s: string) {
    forall i :: 0 <= i < |s| ==> s[i] in alpha
  }

  /** The number that the numeral `s` denotes. */
  function ValueOf(alpha: string, s: string): nat {
    if s == [] then 0
    else Mul(ValueOf(alpha, s[..|s| - 1]), |alpha|) + IndexOf(alpha, s[|s| - 1])
  }

  /** The lowest `width` digits of `n`. */
  function Fixed(alpha: string, n: nat, width: nat): (s: string)
    requires |alpha| > 0
    ensures |s| == width
    decreases width, n
  {
    if width == 0 then [] else Fixed(alpha, Quot(n, |alpha|), width - 1) + [alpha[Rem(n, |alpha|)]]
  }

  lemma {:induction false} FixedIsNumeral(alpha: string, n: nat, width: nat)
    requires |alpha| > 0
    ensures Numeral(alpha, Fixed(alpha, n, width))
    decreases width
  {
    if width > 0 {
      FixedIsNumeral(alpha, Quot(n, |alpha|), width - 1);
    }
  }

  lemma {:induction false} QuotientBound(n: nat, b: nat, p: nat)
    requires b > 0
    ensures Quot(n, b) < p <==> n < Mul(p, b)
  {
    var q := Quot(n, b);
    Division(n, b);
    if q < p {
      MulMonotone(q, p, b);
    } else if p < q {
      MulMonotone(p, q, b);
    }
  }

  lemma ReadBackStep(v: nat, q: nat, r: nat, p: nat, b: nat)
    requires v < p && (v == q <==> q < p) && r < b
    ensures Mul(v, b) + r == Mul(q, b) + r <==> q < p
    ensures Mul(v, b) + r < Mul(p, b)
  {
    MulMonotone(v, p, b);
    DigitsDecide(v, q, r, r, b);
    DigitsDecide(q, v, r, r, b);
    DigitsDecide(v, p, r, 0, b);
  }

  /** Reading back a fixed-width numeral gives the number exactly when the width was enough. */
  lemma {:induction false} FixedRoundTrip(alpha: string, n: nat, width: nat)
    requires Alphabet(alpha)
    ensures ValueOf(alpha, Fixed(alpha, n, width)) == n <==> n < Pow(|alpha|, width)
    ensures ValueOf(alpha, Fixed(alpha, n, width)) < Pow(|alpha|, width)
    decreases width
  {
    var b := |alpha|;
    if width > 0 {
      var q, r, p := Quot(n, b), Rem(n, b), Pow(b, width - 1);
      var high := Fixed(alpha, q, width - 1);
      var v := ValueOf(alpha, high);
      FixedRoundTrip(alpha, q, width - 1);
      assert v < p && (v == q <==> q < p);
      IndexOfDigit(alpha, r);
      assert Fixed(alpha, n, width)[..width - 1] == high;
      Division(n, b);
      QuotientBound(n, b, p);
      ReadBackStep(v, q, r, p, b);
    }
  }

  lemma {:induction false} LessSnoc(a: string, c: char, b: string, d: char)
    requires |a| == |b|
    ensures Less(a + [c], b + [d]) <==> Less(a, b) || (a == b && c < d)
  {
    if a == b {
      CommonPrefix(a, [c], [d]);
      Irreflexive(a);
    } else {
      HeadsDecide(a, b, [c], [d]);
    }
  }

  lemma {:induction false} DigitsDecide(v: nat, w: nat, c: nat, d: nat, b: nat)
    requires c < b && d < b
    ensures Mul(v, b) + c < Mul(w, b) + d <==> v < w || (v == w && c < d)
  {
    if v < w {
      MulMonotone(v, w, b);
    } else if w < v {
      MulMonotone(w, v, b);
    }
  }

  lemma {:induction false} OrderWithLastDigit(alpha: string, p: string, c: char, q: string, d: char)
    requires Alphabet(alpha) && |p| == |q| && c in alpha && d in alpha
    requires Less(p, q) <==> ValueOf(alpha, p) < ValueOf(alpha, q)
    requires p == q <==> ValueOf(alpha, p) == ValueOf(alpha, q)
    ensures Less(p + [c], q + [d]) <==> ValueOf(alpha, p + [c]) < ValueOf(alpha, q + [d])
  {
    LessSnoc(p, c, q, d);
    DigitsDecide(ValueOf(alpha, p), ValueOf(alpha, q), IndexOf(alpha, c), IndexOf(alpha, d), |alpha|);
    assert (p + [c])[..|p|] == p && (q + [d])[..|q|] == q;
  }

  lemma OrderWithLastDigits(alpha: string, p: string, c: char, q: string, d: char)
    requires Alphabet(alpha) && |p| == |q| && c in alpha && d in alpha
    requires Less(p, q) <==> ValueOf(alpha, p) < ValueOf(alpha, q)
    requires Less(q, p) <==> ValueOf(alpha, q) < ValueOf(alpha, p)
    requires p == q <==> ValueOf(alpha, p) == ValueOf(alpha, q)
    ensures Less(p + [c], q + [d]) <==> ValueOf(alpha, p + [c]) < ValueOf(alpha, q + [d])
    ensures Less(q + [d], p + [c]) <==> ValueOf(alpha, q + [d]) < ValueOf(alpha, p + [c])
    ensures p + [c] == q + [d] <==> ValueOf(alpha, p + [c]) == ValueOf(alpha, q + [d])
  {
    OrderWithLastDigit(alpha, p, c, q, d);
    OrderWithLastDigit(alpha, q, d, p, c);
    Total(p + [c], q + [d]);
    Irreflexive(p + [c]);
  }

  /** Equally long numerals are ordered as the numbers they denote. */
  lemma {:induction false} OrderOfNumerals(alpha: string, s: string, t: string)
    requires Alphabet(alpha) && Numeral(alpha, s) && Numeral(alpha, t) && |s| == |t|
    ensures Less(s, t) <==> ValueOf(alpha, s) < ValueOf(alpha, t)
    ensures Less(t, s) <==> ValueOf(alpha, t) < ValueOf(alpha, s)
    ensures s == t <==> ValueOf(alpha, s) == ValueOf(alpha, t)
  {
    if s != [] {
      var n := |s| - 1;
      var p, q, c, d := s[..n], t[..n], s[n], t[n];
      assert c in alpha && d in alpha;
      OrderOfNumerals(alpha, p, q);
      assert s == p + [c] && t == q + [d];
      OrderWithLastDigits(alpha, p, c, q, d);
    }
  }

  lemma {:induction false} QuotientShrinks(n: nat, b: nat)
    requires 1 < b <= n
    ensures 0 < Quot(n, b) < n
  {
    if n - b >= b {
      QuotientShrinks(n - b, b);
    }
  }

  /** The shortest numeral of `n`, as `Number.prototype.toString(radix)` writes it. */
  function Shortest(alpha: string, n: nat): (s: string)
    requires |alpha| > 1
    ensures s != []
    decreases n
  {
    if n < |alpha| then [alpha[n]]
    else
      QuotientShrinks(n, |alpha|);
      Shortest(alpha, Quot(n, |alpha|)) + [alpha[Rem(n, |alpha|)]]
  }

  function Repeat(c: char, n: nat): (s: string)
    ensures |s| == n
  {
    if n == 0 then [] else [c] + Repeat(c, n - 1)
  }

  /** `String.prototype.padStart`: never truncates. */
  function PadStart(s: string, width: nat, c: char): string {
    if |s| >= width then s else Repeat(c, width - |s|) + s
  }

  lemma {:induction false} RepeatSnoc(c: char, n: nat)
    ensures Repeat(c, n + 1) == Repeat(c, n) + [c]
  {
    if n > 0 {
      RepeatSnoc(c, n - 1);
    }
  }

  lemma {:induction false} ZeroFixed(alpha: string, width: nat)
    requires |alpha| > 1
    ensures Fixed(alpha, 0, width) == Repeat(alpha[0], width)
  {
    if width > 0 {
      ZeroFixed(alpha, width - 1);
      RepeatSnoc(alpha[0], width - 1);
    }
  }

  /** Padding reaches exactly the fixed width when the number fits, and overshoots it when it does not. */
  lemma {:induction false} PaddedNumeral(alpha: string, n: nat, width: nat)
    requires |alpha| > 1 && width > 0
    ensures n < Pow(|alpha|, width) ==> PadStart(Shortest(alpha, n), width, alpha[0]) == Fixed(alpha, n, width)
    ensures n >= Pow(|alpha|, width) ==> |Shortest(alpha, n)| > width
    decreases width
  {
    var b := |alpha|;
    QuotientBound(n, b, Pow(b, width - 1));
    if n < b {
      PowPositive(b, width - 1);
      MulMonotone(0, Pow(b, width - 1), b);
      ZeroFixed(alpha, width - 1);
    } else {
      QuotientShrinks(n, b);
      if width > 1 {
        PaddedNumeral(alpha, Quot(n, b), width - 1);
      }
    }
  }

  /** `d * b^w`. */
  function Shift(d: nat, b: nat, w: nat): nat {
    if w == 0 then d else Mul(Shift(d, b, w - 1), b)
  }

  lemma {:induction false} PowIsShift(b: nat, w: nat)
    ensures Pow(b, w) == Shift(1, b, w)
  {
    if w > 0 {
      PowIsShift(b, w - 1);
    }
  }

  lemma {:induction false} DivideProduct(v: nat, b: nat)
    requires b > 0
    ensures Quot(Mul(v, b), b) == v && Rem(Mul(v, b), b) == 0
  {
    if v > 0 {
      DivideProduct(v - 1, b);
    }
  }

  /** A leading digit followed by `w` zeros. */
  lemma {:induction false} ShortestOfShift(alpha: string, d: nat, w: nat)
    requires 0 < d < |alpha| && |alpha| > 1
    ensures Shortest(alpha, Shift(d, |alpha|, w)) == [alpha[d]] + Repeat(alpha[0], w)
    ensures Shift(d, |alpha|, w) > 0
  {
    var b := |alpha|;
    if w > 0 {
      ShortestOfShift(alpha, d, w - 1);
      var v := Shift(d, b, w - 1);
      DivideProduct(v, b);
      MulMonotone(0, v, b);
      RepeatSnoc(alpha[0], w - 1);
    }
  }

  // ---------- Zero-padded fields ----------

  /** `n` written out and padded to at least `width` characters. */
  function Field(alpha: string, n: nat, width: nat): string
    requires |alpha| > 1
  {
    PadStart(Shortest(alpha, n), width, alpha[0])
  }

  /** A field has its nominal width exactly when the number is below the limit, and then denotes the number. */
  lemma {:induction false} FieldFits(alpha: string, n: nat, width: nat, limit: nat)
    requires Alphabet(alpha) && width > 0 && limit == Pow(|alpha|, width)
    ensures |Field(alpha, n, width)| == width <==> n < limit
    ensures |Field(alpha, n, width)| >= width
    ensures n < limit ==> Numeral(alpha, Field(alpha, n, width)) && ValueOf(alpha, Field(alpha, n, width)) == n
  {
    PaddedNumeral(alpha, n, width);
    FixedIsNumeral(alpha, n, width);
    FixedRoundTrip(alpha, n, width);
  }

  lemma {:induction false} FieldOrder(alpha: string, m: nat, n: nat, width: nat, limit: nat)
    requires Alphabet(alpha) && width > 0 && limit == Pow(|alpha|, width) && m < limit && n < limit
    ensures Less(Field(alpha, m, width), Field(alpha, n, width)) <==> m < n
    ensures Field(alpha, m, width) == Field(alpha, n, width) <==> m == n
  {
    FieldFits(alpha, m, width, limit);
    FieldFits(alpha, n, width, limit);
    OrderOfNumerals(alpha, Field(alpha, m, width), Field(alpha, n, width));
  }

  lemma {:induction false} ValueBound(alpha: string, s: string)
    requires Alphabet(alpha) && Numeral(alpha, s)
    ensures ValueOf(alpha, s) < Pow(|alpha|, |s|)
  {
    if s != [] {
      var n := |s| - 1;
      assert s[n] in alpha;
      assert Numeral(alpha, s[..n]);
      ValueBound(alpha, s[..n]);
      MulMonotone(ValueOf(alpha, s[..n]), Pow(|alpha|, n), |alpha|);
    }
  }

  /** Every numeral is the field of the number it denotes. */
  lemma {:induction false} NumeralIsField(alpha: string, s: string, limit: nat)
    requires Alphabet(alpha) && Numeral(alpha, s) && s != [] && limit == Pow(|alpha|, |s|)
    ensures ValueOf(alpha, s) < limit && Field(alpha, ValueOf(alpha, s), |s|) == s
  {
    ValueBound(alpha, s);
    FieldFits(alpha, ValueOf(alpha, s), |s|, limit);
    OrderOfNumerals(alpha, s, Field(alpha, ValueOf(alpha, s), |s|));
  }

  // ---------- Digit buffers ----------

  predicate Digits(ds: seq<nat>, b: nat) {
    forall i :: 0 <= i < |ds| ==> ds[i] < b
  }

  /** The text of a digit buffer. */
  function TextOf(alpha: string, ds: seq<nat>): (s: string)
    requires Digits(ds, |alpha|)
    ensures |s| == |ds|
  {
    if ds == [] then [] else TextOf(alpha, ds[..|ds| - 1]) + [alpha[ds[|ds| - 1]]]
  }

  /** Adding one to a digit buffer; `None` when every digit is already the largest. */
  function Increment(ds: seq<nat>, b: nat): (r: Option<seq<nat>>)
    requires b > 0 && Digits(ds, b)
    ensures r.Some? ==> |r.value| == |ds| && Digits(r.value, b)
  {
    if ds == [] then None
    else
      var high, low := ds[..|ds| - 1], ds[|ds| - 1];
      if low < b - 1 then Some(high + [low + 1])
      else
        var r := Increment(high, b);
        if r.None? then None else Some(r.value + [0])
  }

  lemma {:induction false} TextIsNumeral(alpha: string, ds: seq<nat>)
    requires Digits(ds, |alpha|)
    ensures Numeral(alpha, TextOf(alpha, ds))
  {
    if ds != [] {
      TextIsNumeral(alpha, ds[..|ds| - 1]);
    }
  }

  lemma {:induction false} TextSnoc(alpha: string, high: seq<nat>, low: nat)
    requires Alphabet(alpha) && Digits(high, |alpha|) && low < |alpha|
    ensures Digits(high + [low], |alpha|)
    ensures ValueOf(alpha, TextOf(alpha, high + [low])) == Mul(ValueOf(alpha, TextOf(alpha, high)), |alpha|) + low
  {
    assert (high + [low])[..|high|] == high;
    var s := TextOf(alpha, high + [low]);
    assert s[..|s| - 1] == TextOf(alpha, high);
    IndexOfDigit(alpha, low);
  }

  lemma {:induction false} IncrementLast(alpha: string, high: seq<nat>, low: nat, r: Option<seq<nat>>)
    requires Alphabet(alpha) && Digits(high, |alpha|) && low < |alpha|
    requires Digits(high + [low], |alpha|) && r == Increment(high, |alpha|)
    ensures Increment(high + [low], |alpha|) ==
            if low < |alpha| - 1 then Some(high + [low + 1]) else if r.None? then None else Some(r.value + [0])
  {
    assert (high + [low])[..|high|] == high;
  }

  /** Incrementing adds exactly one. */
  lemma {:induction false} IncrementAddsOne(alpha: string, ds: seq<nat>)
    requires Alphabet(alpha) && Digits(ds, |alpha|) && Increment(ds, |alpha|).Some?
    ensures ValueOf(alpha, TextOf(alpha, Increment(ds, |alpha|).value)) == ValueOf(alpha, TextOf(alpha, ds)) + 1
  {
    var high, low := ds[..|ds| - 1], ds[|ds| - 1];
    assert ds == high + [low];
    var r := Increment(high, |alpha|);
    IncrementLast(alpha, high, low, r);
    TextSnoc(alpha, high, low);
    if low < |alpha| - 1 {
      TextSnoc(alpha, high, low + 1);
    } else {
      IncrementAddsOne(alpha, high);
      TextSnoc(alpha, r.value, 0);
    }
  }

  /** Incrementing is impossible exactly when every digit is the largest. */
  lemma {:induction false} IncrementOverflows(ds: seq<nat>, b: nat)
    requires b > 0 && Digits(ds, b)
    ensures Increment(ds, b).None? <==> forall i :: 0 <= i < |ds| ==> ds[i] == b - 1
  {
    if ds != [] {
      IncrementOverflows(ds[..|ds| - 1], b);
    }
  }
}
