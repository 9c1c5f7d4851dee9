/**
 Monotonic ULIDs (src/id/ulid.ts): ten base-32 digits of milliseconds followed by sixteen random digits,
 which are incremented instead of redrawn while the millisecond stays the same.
 */
module Ulid {
  import opened Basics
  import opened Order
  import opened Radix

  /** Thirty-two ascending characters; everything below holds of any such alphabet, Crockford's in particular. */
  type Encoding = s: string | |s| == 32 && Alphabet(s) witness "0123456789ABCDEFGHJKMNPQRSTVWXYZ"
  const TIME_LEN := 10
  const RANDOM_LEN := 16
  /** The first millisecond that ten base-32 digits cannot hold. */
  const TIME_LIMIT := 0x4_0000_0000_0000

  datatype Error = InvalidTime | RandomOverflow | InvalidLength | InvalidCharacter

  lemma {:induction false} TimeLimit(width: nat)
    requires width == TIME_LEN
    ensures Pow(32, width) == TIME_LIMIT
  {
    MulIsProduct(1, 32);
    MulIsProduct(32, 32);
    MulIsProduct(0x400, 32);
    MulIsProduct(0x8000, 32);
    MulIsProduct(0x10_0000, 32);
    assert Pow(32, 1) == 32 && Pow(32, 2) == 0x400 && Pow(32, 3) == 0x8000 && Pow(32, 4) == 0x10_0000
        && Pow(32, 5) == 0x200_0000;
    MulIsProduct(0x200_0000, 32);
    MulIsProduct(0x4000_0000, 32);
    MulIsProduct(0x8_0000_0000, 32);
    MulIsProduct(0x100_0000_0000, 32);
    MulIsProduct(0x2000_0000_0000, 32);
    assert Pow(32, 6) == 0x4000_0000 && Pow(32, 7) == 0x8_0000_0000 && Pow(32, 8) == 0x100_0000_0000
        && Pow(32, 9) == 0x2000_0000_0000;
  }

  lemma {:induction false} DivisionBy32(n: nat)
    ensures Quot(n, 32) == n / 32 && Rem(n, 32) == n % 32
  {
    Division(n, 32);
    MulIsProduct(Quot(n, 32), 32);
  }

  method EncodeTime(enc: Encoding, time: int) returns (r: Result<string, Error>)
    ensures r == if time < 0 then Err(InvalidTime) else Ok(Fixed(enc, time, TIME_LEN))
  {
    if time < 0 {
      return Err(InvalidTime);
    }
    var out, rest := "", time;
    var i := TIME_LEN;
    while i > 0
      invariant 0 <= i <= TIME_LEN && rest >= 0
      invariant Fixed(enc, time, TIME_LEN) == Fixed(enc, rest, i) + out
    {
      DivisionBy32(rest);
      var mod := rest % 32;
      out := [enc[mod]] + out;
      rest := (rest - mod) / 32;
      i := i - 1;
    }
    assert Fixed(enc, rest, 0) + out == out;
    return Ok(out);
  }

  method EncodeRandom(enc: Encoding, bytes: seq<nat>) returns (out: string)
    requires Digits(bytes, 32)
    ensures out == TextOf(enc, bytes)
  {
    out := "";
    for i := 0 to |bytes|
      invariant out == TextOf(enc, bytes[..i])
    {
      assert bytes[..i + 1][..i] == bytes[..i];
      out := out + [enc[bytes[i] % 32]];
    }
    assert bytes[..|bytes|] == bytes;
  }

  /** The in-place carry: false (the source throws) leaves every digit at zero. */
  method IncrementRandom(buf: array<nat>) returns (ok: bool)
    requires Digits(buf[..], 32)
    modifies buf
    ensures ok <==> Increment(old(buf[..]), 32).Some?
    ensures ok ==> buf[..] == Increment(old(buf[..]), 32).value
  {
    ghost var was := buf[..];
    ghost var carried: seq<nat> := [];
    var i := buf.Length;
    assert was[..i] == was;
    assert Increment(was, 32).Some? ==> Increment(was, 32).value + [] == Increment(was, 32).value;
    while i > 0
      invariant 0 <= i <= buf.Length
      invariant buf[..i] == was[..i] && buf[i..] == carried
      invariant Increment(was, 32) ==
                (if Increment(was[..i], 32).None? then None else Some(Increment(was[..i], 32).value + carried))
    {
      i := i - 1;
      assert was[..i + 1][..i] == was[..i];
      var v := buf[i];
      assert v == was[..i + 1][i];
      if v < 31 {
        buf[i] := v + 1;
        assert buf[..] == was[..i] + [v + 1] + carried;
        return true;
      }
      buf[i] := 0;
      if Increment(was[..i], 32).Some? {
        assert Increment(was[..i], 32).value + [0] + carried == Increment(was[..i], 32).value + ([0] + carried);
      }
      carried := [0] + carried;
    }
    return false;
  }

  // ---------- The generator ----------

  datatype State = State(lastTime: int, lastRandom: seq<nat>)

  predicate Valid(s: State) {
    |s.lastRandom| == RANDOM_LEN && Digits(s.lastRandom, 32)
  }

  const INITIAL := State(-1, seq(RANDOM_LEN, i => 0))

  /** One call at time `now`; `drawn` is what the random source would supply. */
  function Step(enc: Encoding, s: State, now: int, drawn: seq<nat>): (r: (State, Result<string, Error>))
    requires Valid(s) && Valid(State(now, drawn))
    ensures Valid(r.0)
  {
    var random := if now == s.lastTime then Increment(s.lastRandom, 32) else Some(drawn);
    if random.None? then (s, Err(RandomOverflow))
    else if now < 0 then (State(now, random.value), Err(InvalidTime))
    else (State(now, random.value), Ok(Fixed(enc, now, TIME_LEN) + TextOf(enc, random.value)))
  }

  /** The module-level state of the source: the last time and the last random digits. */
  class Generator {
    const enc: Encoding
    var lastTime: int
    var lastRandom: array<nat>

    constructor (enc: Encoding)
      ensures this.enc == enc && Now() == INITIAL && fresh(lastRandom)
    {
      this.enc := enc;
      lastTime := -1;
      lastRandom := new nat[RANDOM_LEN](i => 0);
      new;
      assert lastRandom[..] == INITIAL.lastRandom;
    }

    ghost function Now(): State
      reads this, lastRandom
    {
      State(lastTime, lastRandom[..])
    }

    method Ulid(now: int, drawn: seq<nat>) returns (r: Result<string, Error>)
      requires Valid(Now()) && Valid(State(now, drawn))
      modifies this
      ensures Valid(Now())
      ensures (Now(), r) == Step(enc, old(Now()), now, drawn)
      ensures lastRandom == old(lastRandom) || fresh(lastRandom)
    {
      ghost var before := Now();
      ghost var digits := if now == lastTime then Increment(lastRandom[..], 32) else Some(drawn);
      var random := new nat[RANDOM_LEN];
      if now == lastTime {
        forall i | 0 <= i < RANDOM_LEN {
          random[i] := lastRandom[i];
        }
        ghost var copied := random[..];
        assert copied == before.lastRandom;
        var ok := IncrementRandom(random);
        assert ok ==> random[..] == Increment(copied, 32).value;
        if !ok {
          return Err(RandomOverflow);
        }
        assert digits == Some(random[..]);
      } else {
        forall i | 0 <= i < RANDOM_LEN {
          random[i] := drawn[i];
        }
        assert random[..] == drawn;
        assert digits == Some(random[..]);
      }
      lastTime, lastRandom := now, random;
      assert digits == Some(random[..]);
      var time := EncodeTime(enc, now);
      if time.Err? {
        assert Step(enc, before, now, drawn) == (State(now, digits.value), Err(InvalidTime));
        return Err(time.error);
      }
      var text := EncodeRandom(enc, random[..]);
      return Ok(time.value + text);
    }
  }

  function TimestampOf(enc: Encoding, id: string): Result<nat, Error> {
    if |id| != TIME_LEN + RANDOM_LEN then Err(InvalidLength)
    else if !Numeral(enc, id[..TIME_LEN]) then Err(InvalidCharacter)
    else Ok(ValueOf(enc, id[..TIME_LEN]))
  }

  method ReadTimestamp(enc: Encoding, id: string) returns (r: Result<nat, Error>)
    ensures r == TimestampOf(enc, id)
  {
    if |id| != TIME_LEN + RANDOM_LEN {
      return Err(InvalidLength);
    }
    var time: nat := 0;
    for i := 0 to TIME_LEN
      invariant Numeral(enc, id[..i]) && time == ValueOf(enc, id[..i])
    {
      var idx := IndexOf(enc, id[i]);
      if idx == |enc| {
        assert id[..TIME_LEN][i] !in enc;
        return Err(InvalidCharacter);
      }
      assert id[..i + 1][..i] == id[..i];
      MulIsProduct(time, 32);
      time := time * 32 + idx;
    }
    return Ok(time);
  }

  lemma StepStartsWithTime(enc: Encoding, s: State, now: nat, drawn: seq<nat>)
    requires Valid(s) && Valid(State(now, drawn)) && Step(enc, s, now, drawn).1.Ok?
    ensures var text := Step(enc, s, now, drawn).1.value;
            |text| == TIME_LEN + RANDOM_LEN && text[..TIME_LEN] == Fixed(enc, now, TIME_LEN)
  {
  }

  /** The time of an identifier can be read back exactly when it fits in ten digits. */
  lemma TimestampRoundTrip(enc: Encoding, s: State, now: nat, drawn: seq<nat>)
    requires Valid(s) && Valid(State(now, drawn)) && Step(enc, s, now, drawn).1.Ok?
    ensures TimestampOf(enc, Step(enc, s, now, drawn).1.value).Ok?
    ensures TimestampOf(enc, Step(enc, s, now, drawn).1.value) == Ok(now) <==> now < TIME_LIMIT
  {
    TimeLimit(TIME_LEN);
    var time := Fixed(enc, now, TIME_LEN);
    FixedIsNumeral(enc, now, TIME_LEN);
    FixedRoundTrip(enc, now, TIME_LEN);
    StepStartsWithTime(enc, s, now, drawn);
  }

  lemma {:induction false} TimeTextOrder(enc: Encoding, a: nat, b: nat)
    requires a < TIME_LIMIT && b < TIME_LIMIT
    ensures Less(Fixed(enc, a, TIME_LEN), Fixed(enc, b, TIME_LEN)) <==> a < b
    ensures Fixed(enc, a, TIME_LEN) == Fixed(enc, b, TIME_LEN) <==> a == b
  {
    TimeLimit(TIME_LEN);
    FixedIsNumeral(enc, a, TIME_LEN);
    FixedIsNumeral(enc, b, TIME_LEN);
    FixedRoundTrip(enc, a, TIME_LEN);
    FixedRoundTrip(enc, b, TIME_LEN);
    OrderOfNumerals(enc, Fixed(enc, a, TIME_LEN), Fixed(enc, b, TIME_LEN));
  }

  /** Two calls in a row give ascending identifiers exactly when the time did not go back. */
  lemma SuccessiveAscend(enc: Encoding, s: State, t: nat, drawn: seq<nat>, u: nat, redrawn: seq<nat>)
    requires Valid(s) && Valid(State(t, drawn)) && Valid(State(u, redrawn))
    requires t < TIME_LIMIT && u < TIME_LIMIT
    requires Step(enc, s, t, drawn).1.Ok? && Step(enc, Step(enc, s, t, drawn).0, u, redrawn).1.Ok?
    ensures Less(Step(enc, s, t, drawn).1.value, Step(enc, Step(enc, s, t, drawn).0, u, redrawn).1.value) <==> t <= u
  {
    var (mid, first) := Step(enc, s, t, drawn);
    var (last, second) := Step(enc, mid, u, redrawn);
    var p, q := Fixed(enc, t, TIME_LEN), Fixed(enc, u, TIME_LEN);
    var a, b := TextOf(enc, mid.lastRandom), TextOf(enc, last.lastRandom);
    TimeTextOrder(enc, t, u);
    if t == u {
      IncrementAddsOne(enc, mid.lastRandom);
      TextIsNumeral(enc, mid.lastRandom);
      TextIsNumeral(enc, last.lastRandom);
      OrderOfNumerals(enc, a, b);
      CommonPrefix(p, a, b);
    } else {
      HeadsDecide(p, q, a, b);
    }
  }

  // ---------- Runs ----------

  datatype Call = Call(now: nat, drawn: seq<nat>)

  predicate CallsValid(calls: seq<Call>) {
    forall i :: 0 <= i < |calls| ==> Valid(State(calls[i].now, calls[i].drawn)) && calls[i].now < TIME_LIMIT
  }

  /** The identifiers issued by a sequence of calls, up to the first error. */
  function Issue(enc: Encoding, s: State, calls: seq<Call>): (ids: seq<string>)
    requires Valid(s) && CallsValid(calls)
    ensures |ids| <= |calls|
    decreases |calls|
  {
    if calls == [] then []
    else
      var (next, r) := Step(enc, s, calls[0].now, calls[0].drawn);
      if r.Err? then [] else [r.value] + Issue(enc, next, calls[1..])
  }

  /**
   While the clock does not go back, every identifier is above all those issued before it, until the overflow error.
   */
  lemma {:induction false} IssuedAscending(enc: Encoding, s: State, calls: seq<Call>, i: nat, j: nat)
    requires Valid(s) && CallsValid(calls)
    requires forall k :: 0 < k < |calls| ==> calls[k - 1].now <= calls[k].now
    requires i < j < |Issue(enc, s, calls)|
    ensures Less(Issue(enc, s, calls)[i], Issue(enc, s, calls)[j])
    decreases |calls|
  {
    var (next, r) := Step(enc, s, calls[0].now, calls[0].drawn);
    var rest := calls[1..];
    assert Issue(enc, s, calls)[1..] == Issue(enc, next, rest);
    if i > 0 {
      IssuedAscending(enc, next, rest, i - 1, j - 1);
    } else {
      SuccessiveAscend(enc, s, calls[0].now, calls[0].drawn, rest[0].now, rest[0].drawn);
      if j > 1 {
        IssuedAscending(enc, next, rest, 0, j - 1);
        Transitive(Issue(enc, s, calls)[0], Issue(enc, next, rest)[0], Issue(enc, next, rest)[j - 1]);
      }
    }
  }

  /** The one error of a run whose times are non-negative: the digits ran out within a millisecond. */
  lemma IssueStopsAtOverflow(enc: Encoding, s: State, now: nat, drawn: seq<nat>)
    requires Valid(s) && Valid(State(now, drawn))
    ensures Step(enc, s, now, drawn).1.Err? <==>
              now == s.lastTime && forall i :: 0 <= i < RANDOM_LEN ==> s.lastRandom[i] == 31
  {
    IncrementOverflows(s.lastRandom, 32);
  }

  lemma {:induction false} LettersAt(alpha: string, ds: seq<nat>, k: nat)
    requires Digits(ds, |alpha|) && k < |ds|
    ensures TextOf(alpha, ds)[k] == alpha[ds[k]]
  {
    var last := |ds| - 1;
    if k < last {
      LettersAt(alpha, ds[..last], k);
    }
  }

  /** `id` spells the time and then the drawn digits. */
  predicate Draws(enc: Encoding, id: string, now: nat, drawn: seq<nat>)
    requires |drawn| == RANDOM_LEN && Digits(drawn, 32)
  {
    && |id| == TIME_LEN + RANDOM_LEN && ValueOf(enc, id[..TIME_LEN]) == now
    && forall k :: 0 <= k < RANDOM_LEN ==> id[TIME_LEN + k] == enc[drawn[k]]
  }

  /** `id` spells the time and then the number after the one that `previous` ends with. */
  predicate Counts(enc: Encoding, id: string, now: nat, previous: string) {
    && |id| == |previous| == TIME_LEN + RANDOM_LEN && ValueOf(enc, id[..TIME_LEN]) == now
    && ValueOf(enc, id[TIME_LEN..]) == ValueOf(enc, previous[TIME_LEN..]) + 1
  }

  lemma SpellsTime(enc: Encoding, now: nat, text: string)
    requires now < TIME_LIMIT
    ensures var id := Fixed(enc, now, TIME_LEN) + text;
            ValueOf(enc, id[..TIME_LEN]) == now && id[TIME_LEN..] == text
  {
    var time := Fixed(enc, now, TIME_LEN);
    TimeLimit(TIME_LEN);
    FixedRoundTrip(enc, now, TIME_LEN);
    assert (time + text)[..TIME_LEN] == time && (time + text)[TIME_LEN..] == text;
  }

  lemma SpellsDrawn(enc: Encoding, now: nat, drawn: seq<nat>)
    requires Valid(State(now, drawn)) && now < TIME_LIMIT
    ensures Draws(enc, Fixed(enc, now, TIME_LEN) + TextOf(enc, drawn), now, drawn)
  {
    SpellsTime(enc, now, TextOf(enc, drawn));
    var id := Fixed(enc, now, TIME_LEN) + TextOf(enc, drawn);
    forall k | 0 <= k < RANDOM_LEN ensures id[TIME_LEN + k] == enc[drawn[k]] {
      LettersAt(enc, drawn, k);
      assert id[TIME_LEN..][k] == id[TIME_LEN + k];
    }
  }

  lemma SpellsNext(enc: Encoding, now: nat, last: seq<nat>, next: seq<nat>)
    requires |last| == RANDOM_LEN && Digits(last, 32) && Increment(last, 32) == Some(next) && now < TIME_LIMIT
    ensures Counts(enc, Fixed(enc, now, TIME_LEN) + TextOf(enc, next), now,
                   Fixed(enc, now, TIME_LEN) + TextOf(enc, last))
  {
    SpellsTime(enc, now, TextOf(enc, next));
    SpellsTime(enc, now, TextOf(enc, last));
    IncrementAddsOne(enc, last);
  }

  lemma StepSpells(enc: Encoding, s: State, now: nat, drawn: seq<nat>)
    requires Valid(s) && Valid(State(now, drawn)) && now < TIME_LIMIT && Step(enc, s, now, drawn).1.Ok?
    ensures var (next, r) := Step(enc, s, now, drawn);
            && next.lastTime == now && r.value == Fixed(enc, now, TIME_LEN) + TextOf(enc, next.lastRandom)
            && (now != s.lastTime ==> Draws(enc, r.value, now, drawn))
            && (now == s.lastTime ==> Counts(enc, r.value, now, Fixed(enc, now, TIME_LEN) + TextOf(enc, s.lastRandom)))
  {
    if now == s.lastTime {
      SpellsNext(enc, now, s.lastRandom, Step(enc, s, now, drawn).0.lastRandom);
    } else {
      SpellsDrawn(enc, now, drawn);
    }
  }

  /**
   Every identifier spells its time, and then what the random source supplied for it, or one more than the identifier
   before if that was of the same millisecond.
   */
  lemma {:induction false} IssuedExactly(enc: Encoding, s: State, calls: seq<Call>, i: nat)
    requires Valid(s) && CallsValid(calls) && i < |Issue(enc, s, calls)|
    ensures calls[i].now != (if i == 0 then s.lastTime else calls[i - 1].now) ==>
              Draws(enc, Issue(enc, s, calls)[i], calls[i].now, calls[i].drawn)
    ensures i > 0 && calls[i].now == calls[i - 1].now ==>
              Counts(enc, Issue(enc, s, calls)[i], calls[i].now, Issue(enc, s, calls)[i - 1])
    decreases |calls|
  {
    var (next, r) := Step(enc, s, calls[0].now, calls[0].drawn);
    StepSpells(enc, s, calls[0].now, calls[0].drawn);
    if i > 0 {
      var rest := calls[1..];
      assert Issue(enc, s, calls)[1..] == Issue(enc, next, rest);
      IssuedExactly(enc, next, rest, i - 1);
      if i == 1 {
        StepSpells(enc, next, rest[0].now, rest[0].drawn);
      }
    }
  }
}
