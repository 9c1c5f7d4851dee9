/**
 Hybrid logical clock stamps (src/id/hlc.ts): a wall-clock millisecond `l`, a counter `c`,
 and the string form `<12 hex>-<4 hex>` in which events carry them.
 */
module Hlc {
  import opened Basics
  import opened Order
  import opened Radix

  const HEX := "0123456789abcdef"

  datatype Stamp = Stamp(l: nat, c: nat)

  /** Negative, zero or positive as `a` is earlier than, equal to or later than `b`. */
  function Compare(a: Stamp, b: Stamp): int {
    if a.l != b.l then a.l - b.l else a.c - b.c
  }

  predicate Before(a: Stamp, b: Stamp) {
    Compare(a, b) < 0
  }

  /** What a stamp must exceed: the clock's last stamp, a received stamp if there is one, and the wall clock. */
  predicate Acceptable(s: Stamp, last: Stamp, remote: Option<Stamp>, physical: nat) {
    && Before(last, s)
    && (remote.Some? ==> Before(remote.value, s))
    && physical <= s.l
  }

  function NowStep(last: Stamp, physical: nat): Stamp {
    if physical > last.l then Stamp(physical, 0) else Stamp(last.l, last.c + 1)
  }

  function RecvStep(last: Stamp, remote: Stamp, physical: nat): Stamp {
    var l := Max(Max(last.l, remote.l), physical);
    if l == last.l && l == remote.l then Stamp(l, Max(last.c, remote.c) + 1)
    else if l == last.l then Stamp(l, last.c + 1)
    else if l == remote.l then Stamp(l, remote.c + 1)
    else Stamp(l, 0)
  }

  function Max(a: nat, b: nat): nat {
    if a < b then b else a
  }

  /** A local tick issues the least acceptable stamp, and only that one. */
  lemma NowIsLeast(last: Stamp, physical: nat, s: Stamp)
    ensures Acceptable(NowStep(last, physical), last, None, physical)
    ensures Acceptable(s, last, None, physical) ==> !Before(s, NowStep(last, physical))
    ensures Acceptable(s, last, None, physical) && !Before(NowStep(last, physical), s) ==> s == NowStep(last, physical)
  {
  }

  /** Receiving a stamp moves the clock to the least acceptable stamp, and only to that one. */
  lemma RecvIsLeast(last: Stamp, remote: Stamp, physical: nat, s: Stamp)
    ensures Acceptable(RecvStep(last, remote, physical), last, Some(remote), physical)
    ensures Acceptable(s, last, Some(remote), physical) ==> !Before(s, RecvStep(last, remote, physical))
    ensures Acceptable(s, last, Some(remote), physical) && !Before(RecvStep(last, remote, physical), s) ==>
              s == RecvStep(last, remote, physical)
  {
  }

  /** The clock object: `l` and `c` are updated in place by `Now` and `Recv`. */
  class Clock {
    var l: nat
    var c: nat

    constructor ()
      ensures Last() == Stamp(0, 0)
    {
      l, c := 0, 0;
    }

    function Last(): Stamp
      reads this
    {
      Stamp(l, c)
    }

    method Now(physical: nat) returns (s: Stamp)
      modifies this
      ensures s == Last() == NowStep(old(Last()), physical)
      ensures Acceptable(s, old(Last()), None, physical)
      ensures forall t: Stamp :: Acceptable(t, old(Last()), None, physical) ==> !Before(t, s)
    {
      if physical > l {
        l := physical;
        c := 0;
      } else {
        c := c + 1;
      }
      s := Stamp(l, c);
    }

    method Recv(remote: Stamp, physical: nat) returns (s: Stamp)
      modifies this
      ensures s == Last() == RecvStep(old(Last()), remote, physical)
      ensures Acceptable(s, old(Last()), Some(remote), physical)
      ensures forall t: Stamp :: Acceptable(t, old(Last()), Some(remote), physical) ==> !Before(t, s)
    {
      var lOld := l;
      l := Max(Max(lOld, remote.l), physical);
      if l == lOld && l == remote.l {
        c := Max(c, remote.c) + 1;
      } else if l == lOld {
        c := c + 1;
      } else if l == remote.l {
        c := remote.c + 1;
      } else {
        c := 0;
      }
      s := Stamp(l, c);
    }
  }

  // ---------- String form ----------

  function Encode(s: Stamp): string {
    Field(HEX, s.l, 12) + "-" + Field(HEX, s.c, 4)
  }

  function Decode(s: string): Result<Stamp, string> {
    if |s| == 17 && Numeral(HEX, s[..12]) && s[12] == '-' && Numeral(HEX, s[13..])
    then Ok(Stamp(ValueOf(HEX, s[..12]), ValueOf(HEX, s[13..])))
    else Err("hlc: invalid stamp")
  }

  const L_LIMIT := 0x1_0000_0000_0000
  const C_LIMIT := 0x1_0000

  /** 48 bits of milliseconds and 16 bits of counter. */
  predicate InBounds(s: Stamp) {
    s.l < L_LIMIT && s.c < C_LIMIT
  }

  lemma {:induction false} Limits(lWidth: nat, cWidth: nat)
    requires lWidth == 12 && cWidth == 4
    ensures Pow(16, cWidth) == C_LIMIT
    ensures Pow(16, lWidth) == L_LIMIT
  {
    MulIsProduct(1, 16);
    MulIsProduct(16, 16);
    MulIsProduct(0x100, 16);
    MulIsProduct(0x1000, 16);
    assert Pow(16, 1) == 16 && Pow(16, 2) == 0x100 && Pow(16, 3) == 0x1000 && Pow(16, 4) == 0x1_0000;
    MulIsProduct(0x1_0000, 16);
    MulIsProduct(0x10_0000, 16);
    MulIsProduct(0x100_0000, 16);
    MulIsProduct(0x1000_0000, 16);
    assert Pow(16, 5) == 0x10_0000 && Pow(16, 6) == 0x100_0000 && Pow(16, 7) == 0x1000_0000 && Pow(16, 8) == 0x1_0000_0000;
    MulIsProduct(0x1_0000_0000, 16);
    MulIsProduct(0x10_0000_0000, 16);
    MulIsProduct(0x100_0000_0000, 16);
    MulIsProduct(0x1000_0000_0000, 16);
    assert Pow(16, 9) == 0x10_0000_0000 && Pow(16, 10) == 0x100_0000_0000 && Pow(16, 11) == 0x1000_0000_0000;
  }

  lemma HexIsAlphabet()
    ensures Alphabet(HEX) && |HEX| == 16
  {
  }

  /** The two fields of an encoded stamp, each as wide as nominal exactly when its number is in bounds. */
  lemma Fields(s: Stamp)
    ensures |Field(HEX, s.l, 12)| == 12 <==> s.l < L_LIMIT
    ensures |Field(HEX, s.c, 4)| == 4 <==> s.c < C_LIMIT
    ensures |Field(HEX, s.l, 12)| >= 12 && |Field(HEX, s.c, 4)| >= 4
    ensures s.l < L_LIMIT ==> Numeral(HEX, Field(HEX, s.l, 12)) && ValueOf(HEX, Field(HEX, s.l, 12)) == s.l
    ensures s.c < C_LIMIT ==> Numeral(HEX, Field(HEX, s.c, 4)) && ValueOf(HEX, Field(HEX, s.c, 4)) == s.c
  {
    HexIsAlphabet();
    Limits(12, 4);
    FieldFits(HEX, s.l, 12, L_LIMIT);
    FieldFits(HEX, s.c, 4, C_LIMIT);
  }

  /**
   Decoding inverts encoding exactly on the 48/16-bit stamps: beyond them the padded form is too long and is rejected.
   */
  lemma DecodeInvertsEncode(s: Stamp)
    ensures InBounds(s) <==> |Encode(s)| == 17
    ensures InBounds(s) ==> Decode(Encode(s)) == Ok(s)
    ensures !InBounds(s) ==> Decode(Encode(s)).Err?
  {
    Fields(s);
    if InBounds(s) {
      var t := Encode(s);
      assert t[..12] == Field(HEX, s.l, 12) && t[13..] == Field(HEX, s.c, 4);
    }
  }

  /** Whatever decodes, decodes to a stamp within the bounds, and its text is that stamp's encoding. */
  lemma EncodeInvertsDecode(t: string)
    requires Decode(t).Ok?
    ensures InBounds(Decode(t).value) && Encode(Decode(t).value) == t
  {
    var high, low := t[..12], t[13..];
    assert t == high + "-" + low;
    NumeralPair(high, low);
  }

  lemma {:induction false} NumeralPair(high: string, low: string)
    requires |high| == 12 && |low| == 4 && Numeral(HEX, high) && Numeral(HEX, low)
    ensures InBounds(Stamp(ValueOf(HEX, high), ValueOf(HEX, low)))
    ensures Field(HEX, ValueOf(HEX, high), 12) == high && Field(HEX, ValueOf(HEX, low), 4) == low
  {
    HexIsAlphabet();
    Limits(12, 4);
    NumeralIsField(HEX, high, L_LIMIT);
    NumeralIsField(HEX, low, C_LIMIT);
  }

  /** Within the bounds, string order is clock order. */
  lemma EncodePreservesOrder(a: Stamp, b: Stamp)
    requires InBounds(a) && InBounds(b)
    ensures Less(Encode(a), Encode(b)) <==> Before(a, b)
    ensures Encode(a) == Encode(b) <==> a == b
  {
    HexIsAlphabet();
    Limits(12, 4);
    FieldOrder(HEX, a.l, b.l, 12, L_LIMIT);
    FieldOrder(HEX, a.c, b.c, 4, C_LIMIT);
    Fields(a);
    Fields(b);
    FieldsDecide(Field(HEX, a.l, 12), Field(HEX, a.c, 4), Field(HEX, b.l, 12), Field(HEX, b.c, 4));
  }

  lemma {:induction false} FieldsDecide(ah: string, al: string, bh: string, bl: string)
    requires |ah| == |bh|
    ensures Less(ah + "-" + al, bh + "-" + bl) <==> Less(ah, bh) || (ah == bh && Less(al, bl))
    ensures ah + "-" + al == bh + "-" + bl <==> ah == bh && al == bl
  {
    var a, b := "-" + al, "-" + bl;
    assert ah + "-" + al == ah + a && bh + "-" + bl == bh + b;
    if ah == bh {
      CommonPrefix(ah, a, b);
      CommonPrefix("-", al, bl);
      Irreflexive(ah);
      assert ah + a == bh + b ==> (ah + a)[|ah| + 1..] == (bh + b)[|ah| + 1..];
      assert (ah + a)[|ah| + 1..] == al && (bh + b)[|ah| + 1..] == bl;
    } else {
      HeadsDecide(ah, bh, a, b);
      assert (ah + a)[..|ah|] == ah && (bh + b)[..|ah|] == bh;
    }
  }

  /**
   At the bound the order breaks: the first counter of more than 16 bits sorts before an earlier one of the same
   millisecond.
   */
  lemma OrderFailsBeyondCounter(l: nat) returns (early: Stamp, late: Stamp)
    ensures early.l == late.l == l && early.c < late.c == C_LIMIT
    ensures Before(early, late) && Less(Encode(late), Encode(early))
  {
    Limits(12, 4);
    var c, d := Overflow(4);
    early, late := Stamp(l, c), Stamp(l, d);
    FieldsDecide(Field(HEX, l, 12), Field(HEX, d, 4), Field(HEX, l, 12), Field(HEX, c, 4));
  }

  /** The first millisecond past 48 bits sorts before an earlier one. */
  lemma OrderFailsBeyondMillis(c: nat) returns (early: Stamp, late: Stamp)
    ensures early.c == late.c == c && early.l < late.l == L_LIMIT
    ensures Before(early, late) && Less(Encode(late), Encode(early))
  {
    Limits(12, 4);
    var m, n := Overflow(12);
    early, late := Stamp(m, c), Stamp(n, c);
    assert Encode(late)[0] == Field(HEX, n, 12)[0];
    assert Encode(early)[0] == Field(HEX, m, 12)[0];
  }

  /** One followed by `w` zeros is a later number and an earlier string than two followed by one zero fewer. */
  lemma Overflow(w: nat) returns (low: nat, high: nat)
    requires w > 0
    ensures low < Pow(16, w) == high
    ensures Field(HEX, high, w) != [] && Field(HEX, high, w)[0] == '1'
    ensures Field(HEX, low, w) != [] && Field(HEX, low, w)[0] == '2'
  {
    low, high := Shift(2, 16, w - 1), Shift(1, 16, w);
    PowIsShift(16, w);
    ShiftLess(w - 1);
    ShortestOfShift(HEX, 1, w);
    ShortestOfShift(HEX, 2, w - 1);
  }

  lemma {:induction false} ShiftLess(w: nat)
    ensures Shift(2, 16, w) < Shift(1, 16, w + 1)
  {
    if w == 0 {
      MulIsProduct(1, 16);
      assert Shift(1, 16, 1) == Mul(Shift(1, 16, 0), 16);
    } else {
      ShiftLess(w - 1);
      MulMonotone(Shift(2, 16, w - 1), Shift(1, 16, w), 16);
    }
  }

  /** The counters below `n` sort as they should within a millisecond, exactly if `n` is no more than 2^16. */
  lemma CountersSortIff(l: nat, n: nat)
    ensures (forall c: nat, d: nat :: c < d < n ==> Less(Encode(Stamp(l, c)), Encode(Stamp(l, d)))) <==> n <= C_LIMIT
  {
    if n <= C_LIMIT {
      forall c: nat, d: nat | c < d < n ensures Less(Encode(Stamp(l, c)), Encode(Stamp(l, d))) {
        HexIsAlphabet();
        Limits(12, 4);
        FieldOrder(HEX, c, d, 4, C_LIMIT);
        FieldsDecide(Field(HEX, l, 12), Field(HEX, c, 4), Field(HEX, l, 12), Field(HEX, d, 4));
      }
    } else {
      var early, late := OrderFailsBeyondCounter(l);
      Asymmetric(Encode(late), Encode(early));
      assert !Less(Encode(Stamp(l, early.c)), Encode(Stamp(l, late.c)));
    }
  }

  /** The milliseconds below `n` sort as they should under one counter, exactly if `n` is no more than 2^48. */
  lemma MillisSortIff(c: nat, n: nat)
    ensures (forall l: nat, m: nat :: l < m < n ==> Less(Encode(Stamp(l, c)), Encode(Stamp(m, c)))) <==> n <= L_LIMIT
  {
    if n <= L_LIMIT {
      forall l: nat, m: nat | l < m < n ensures Less(Encode(Stamp(l, c)), Encode(Stamp(m, c))) {
        HexIsAlphabet();
        Limits(12, 4);
        FieldOrder(HEX, l, m, 12, L_LIMIT);
        Fields(Stamp(l, c));
        Fields(Stamp(m, c));
        FieldsDecide(Field(HEX, l, 12), Field(HEX, c, 4), Field(HEX, m, 12), Field(HEX, c, 4));
      }
    } else {
      var early, late := OrderFailsBeyondMillis(c);
      Asymmetric(Encode(late), Encode(early));
      assert !Less(Encode(Stamp(early.l, c)), Encode(Stamp(late.l, c)));
    }
  }
}
