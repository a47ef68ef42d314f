/** Identifiers: 'c', the time and a counter in base 36, a fingerprint and a random part (utils/cuid.go). */
module Cuid {

  const ID_LENGTH: nat := 25

  // ---------- Base 36 ----------

  predicate IsDigit(c: char) {
    '0' <= c <= '9' || 'a' <= c <= 'z'
  }

  /** The v-th of the characters 0, ..., 9, a, ..., z. */
  function DigitChar(v: nat): (c: char)
    requires v < 36
    ensures IsDigit(c) && DigitValue(c) == v
  {
    if v < 10 then '0' + v as char else 'a' + (v - 10) as char
  }

  function DigitValue(c: char): (v: nat)
    requires IsDigit(c)
    ensures v < 36
  {
    if c <= '9' then c as int - '0' as int else c as int - 'a' as int + 10
  }

  /** The digits come in the order of their values: first 0 to 9, and then a to z. */
  lemma {:induction false} DigitsInOrder(v: nat, w: nat)
    requires v < 36 && w < 36
    ensures DigitChar(0) == '0' && DigitChar(9) == '9' && DigitChar(10) == 'a' && DigitChar(35) == 'z'
    ensures v < w <==> DigitChar(v) < DigitChar(w)
    ensures v + 1 < 36 && v != 9 ==> DigitChar(v + 1) == DigitChar(v) + 1 as char
  {
  }

  predicate AllDigits(s: string) {
    forall i :: 0 <= i < |s| ==> IsDigit(s[i])
  }

  /** The number that s denotes. */
  function Value(s: string): nat
    requires AllDigits(s)
  {
    if s == "" then 0 else Value(s[..|s| - 1]) * 36 + DigitValue(s[|s| - 1])
  }

  /** The digits of n, without a leading zero. */
  function Digits(n: nat): (s: string)
    ensures AllDigits(s)
  {
    if n == 0 then "" else Digits(n / 36) + [DigitChar(n % 36)]
  }

  function Base36(n: nat): (s: string)
    ensures AllDigits(s) && s != ""
  {
    if n == 0 then "0" else Digits(n)
  }

  method Base36Encode(n: nat) returns (result: string)
    ensures result == Base36(n)
  {
    if n == 0 {
      return "0";
    }
    result := "";
    var rest := n;
    while rest > 0
      invariant Digits(n) == Digits(rest) + result
    {
      assert Digits(rest) + result == Digits(rest / 36) + ([DigitChar(rest % 36)] + result);
      result := [DigitChar(rest % 36)] + result;
      rest := rest / 36;
    }
  }

  lemma {:induction false} DigitsDecode(n: nat)
    ensures Value(Digits(n)) == n
  {
    if n > 0 {
      DigitsDecode(n / 36);
    }
  }

  /** Decoding undoes encoding, for every number. */
  lemma {:induction false} DecodeEncode(n: nat)
    ensures Value(Base36(n)) == n
  {
    DigitsDecode(n);
    if n == 0 {
      assert Value("0") == Value("") * 36 + DigitValue('0');
    }
  }

  function Power(k: nat): (p: nat)
    ensures p > 0
  {
    if k == 0 then 1 else 36 * Power(k - 1)
  }

  lemma {:induction false} ValueBelow(s: string)
    requires AllDigits(s)
    ensures Value(s) < Power(|s|)
  {
    if s != "" {
      ValueBelow(s[..|s| - 1]);
    }
  }

  /** Exactly the numbers below 36^k have at most k digits. */
  lemma {:induction false} DigitCount(n: nat, k: nat)
    ensures |Digits(n)| <= k <==> n < Power(k)
  {
    if k == 0 || n == 0 {
    } else {
      DigitCount(n / 36, k - 1);
    }
  }

  lemma {:induction false} Shift(a: nat, p: nat, b: nat, d: nat)
    ensures (a * p + b) * 36 + d == a * (36 * p) + (b * 36 + d)
  {
  }

  lemma {:induction false} ValueConcat(a: string, b: string)
    requires AllDigits(a) && AllDigits(b)
    ensures AllDigits(a + b) && Value(a + b) == Value(a) * Power(|b|) + Value(b)
  {
    if b == "" {
      assert a + b == a;
    } else {
      var n := |b| - 1;
      ValueConcat(a, b[..n]);
      assert (a + b)[..|a| + n] == a + b[..n];
      Shift(Value(a), Power(n), Value(b[..n]), DigitValue(b[n]));
    }
  }

  // ---------- The identifier ----------

  newtype byte = x: int | 0 <= x < 256

  /** The counter as exactly four digits: padded, or cut to the last four. */
  function FourDigits(counter: nat): (s: string)
    ensures |s| == 4 && AllDigits(s)
  {
    var s := Base36(counter);
    if |s| < 4 then Zeros(4 - |s|) + s else s[|s| - 4..]
  }

  function Zeros(k: nat): (s: string)
    ensures |s| == k && forall i :: 0 <= i < k ==> s[i] == '0'
  {
    seq(k, _ => '0')
  }

  function TwoChars(fingerprint: string): (s: string)
    ensures |s| <= 2 && (fingerprint != "" ==> |s| == 2)
  {
    if |fingerprint| < 2 then fingerprint + "0" else fingerprint[..2]
  }

  /** What comes before the random part. */
  function Stem(timestamp: nat, counter: nat, fingerprint: string): string {
    "c" + Base36(timestamp) + FourDigits(counter) + TwoChars(fingerprint)
  }

  predicate StemOf(id: string, timestamp: nat, counter: nat, fingerprint: string) {
    Stem(timestamp, counter, fingerprint) <= id
  }

  function RandomChars(raw: seq<byte>, n: nat): (s: string)
    requires n <= |raw|
    ensures |s| == n
  {
    seq(n, i requires 0 <= i < n => DigitChar(raw[i] as int % 36))
  }

  /** How many random characters an identifier asks for: what the time leaves of the 18 places it shares with them. */
  function RandomLength(timestamp: nat): nat {
    if |Base36(timestamp)| > 18 then 0 else 18 - |Base36(timestamp)|
  }

  class Generator {
    var counter: nat
    const fingerprint: string

    constructor (fingerprint: string)
      ensures counter == 0 && this.fingerprint == fingerprint
    {
      counter, this.fingerprint := 0, fingerprint;
    }

    /** Turns random bytes into characters, in place. */
    method GenerateRandomString(length: nat, raw: seq<byte>) returns (s: string)
      requires length <= |raw|
      ensures s == RandomChars(raw, length)
    {
      var bytes := new byte[length](i requires 0 <= i < length => raw[i]);
      for i := 0 to length
        invariant forall k :: 0 <= k < i ==> bytes[k] as int == DigitChar(raw[k] as int % 36) as int
        invariant forall k :: i <= k < length ==> bytes[k] == raw[k]
      {
        bytes[i] := DigitChar(bytes[i] as int % 36) as byte;
      }
      s := seq(length, i requires 0 <= i < length reads bytes => bytes[i] as char);
    }

    /** raw and pad are the random bytes that the two calls for random characters get. */
    method GenerateCUID(timestamp: nat, raw: seq<byte>, pad: seq<byte>) returns (id: string)
      requires |raw| >= ID_LENGTH && |pad| >= ID_LENGTH
      modifies this
      ensures counter == old(counter) + 1
      ensures |id| == ID_LENGTH
      ensures |Base36(timestamp)| <= 18 ==> StemOf(id, timestamp, counter, fingerprint)
      ensures id == (Stem(timestamp, counter, fingerprint) + RandomChars(raw, RandomLength(timestamp)) +
                     RandomChars(pad, ID_LENGTH))[..25]
    {
      counter := counter + 1;
      var timestampBase36 := Base36Encode(timestamp);
      var counterBase36 := Base36Encode(counter);
      if |counterBase36| < 4 {
        counterBase36 := Zeros(4 - |counterBase36|) + counterBase36;
      }
      if |counterBase36| > 4 {
        counterBase36 := counterBase36[|counterBase36| - 4..];
      }
      var fp := fingerprint;
      if |fp| < 2 {
        fp := fp + "0";
      }
      if |fp| > 2 {
        fp := fp[..2];
      }
      var usedLength := 1 + |timestampBase36| + 4 + 2;
      var randomLength := if 25 < usedLength then 0 else 25 - usedLength;
      var randomPart := GenerateRandomString(randomLength, raw);
      assert counterBase36 == FourDigits(counter) && fp == TwoChars(fingerprint);
      id := Complete("c" + timestampBase36 + counterBase36 + fp, randomPart, pad);
    }

    /** The identifier with its random part, cut or padded to its length. */
    method Complete(stem: string, randomPart: string, pad: seq<byte>) returns (id: string)
      requires |pad| >= ID_LENGTH
      ensures |id| == ID_LENGTH
      ensures |stem| <= ID_LENGTH ==> stem <= id
      ensures id == (stem + randomPart + RandomChars(pad, ID_LENGTH))[..25]
    {
      id := stem + randomPart;
      if |id| > 25 {
        id := id[..25];
      } else if |id| < 25 {
        var more := GenerateRandomString(25 - |id|, pad);
        id := id + more;
      }
    }
  }

  // ---------- What an identifier tells ----------

  lemma {:induction false} ZerosValue(k: nat, s: string)
    requires AllDigits(s)
    ensures AllDigits(Zeros(k) + s) && Value(Zeros(k) + s) == Value(s)
  {
    ValueConcat(Zeros(k), s);
    NoValue(k);
  }

  lemma {:induction false} NoValue(k: nat)
    ensures Value(Zeros(k)) == 0
  {
    if k > 0 {
      NoValue(k - 1);
      assert Zeros(k)[..k - 1] == Zeros(k - 1);
    }
  }

  /** 36^4. */
  const COUNTERS: nat := 1679616

  lemma {:induction false} Remainder(n: nat, q: nat, r: nat)
    requires n == q * COUNTERS + r && r < COUNTERS
    ensures n % COUNTERS == r
  {
  }

  lemma {:induction false} RemaindersDiffer(a: nat, b: nat)
    requires a < b < a + COUNTERS
    ensures a % COUNTERS != b % COUNTERS
  {
  }

  /** The four digits denote the counter modulo 36^4. */
  lemma {:induction false} FourDigitsValue(counter: nat)
    ensures Value(FourDigits(counter)) == counter % COUNTERS
  {
    var s := Base36(counter);
    DecodeEncode(counter);
    PowerOfFour();
    ValueBelow(FourDigits(counter));
    if |s| < 4 {
      ZerosValue(4 - |s|, s);
      Remainder(counter, 0, counter);
    } else {
      var high, low := s[..|s| - 4], s[|s| - 4..];
      assert s == high + low;
      ValueConcat(high, low);
      Remainder(counter, Value(high), Value(low));
    }
  }

  lemma {:induction false} PowerOfFour()
    ensures Power(4) == COUNTERS
  {
  }

  /** Milliseconds that fit 64 bits have at most 13 digits. */
  lemma {:induction false} TimestampFits(timestamp: nat)
    requires timestamp < 0x1_0000_0000_0000_0000
    ensures |Base36(timestamp)| <= 13
  {
    PowerOfFour();
    assert Power(5) == 36 * Power(4) && Power(6) == 36 * Power(5) && Power(7) == 36 * Power(6);
    assert Power(8) == 36 * Power(7) && Power(9) == 36 * Power(8) && Power(10) == 36 * Power(9);
    assert Power(11) == 36 * Power(10) && Power(12) == 36 * Power(11) && Power(13) == 36 * Power(12);
    DigitCount(timestamp, 13);
  }

  /** The time and the counter modulo 36^4 can be read off an identifier. */
  lemma {:induction false} StemIsReadable(id: string, timestamp: nat, counter: nat, fingerprint: string)
    requires StemOf(id, timestamp, counter, fingerprint)
    ensures var n := |Base36(timestamp)|;
      && |id| >= n + 5
      && AllDigits(id[1..1 + n]) && Value(id[1..1 + n]) == timestamp
      && AllDigits(id[1 + n..5 + n]) && Value(id[1 + n..5 + n]) == counter % COUNTERS
  {
    var t, c := Base36(timestamp), FourDigits(counter);
    DecodeEncode(timestamp);
    FourDigitsValue(counter);
    StemParts(id, t, c, TwoChars(fingerprint));
  }

  lemma {:induction false} StemParts(id: string, t: string, c: string, f: string)
    requires "c" + t + c + f <= id
    ensures |id| >= 1 + |t| + |c| && id[1..1 + |t|] == t && id[1 + |t|..1 + |t| + |c|] == c
  {
  }

  /** What follows the fingerprint are the remainders of the random bytes, in order, up to the end. */
  lemma {:induction false} RestIsRandom(timestamp: nat, counter: nat, fingerprint: string, raw: seq<byte>,
                                        pad: string, k: nat)
    requires |raw| >= ID_LENGTH && |Base36(timestamp)| <= 18 && fingerprint != "" && 7 + |Base36(timestamp)| + k < 25
    ensures var at := 7 + |Base36(timestamp)| + k;
      var id := (Stem(timestamp, counter, fingerprint) + RandomChars(raw, RandomLength(timestamp)) + pad)[..25];
      |id| == 25 && IsDigit(id[at]) && DigitValue(id[at]) == raw[k] as int % 36
  {
    StemLength(timestamp, counter, fingerprint);
    Middle(Stem(timestamp, counter, fingerprint), RandomChars(raw, RandomLength(timestamp)), pad, k);
  }

  lemma {:induction false} StemLength(timestamp: nat, counter: nat, fingerprint: string)
    requires fingerprint != ""
    ensures |Stem(timestamp, counter, fingerprint)| == 7 + |Base36(timestamp)|
  {
  }

  lemma {:induction false} Middle(a: string, b: string, c: string, k: nat)
    requires |a| + |b| == 25 && k < |b|
    ensures |(a + b + c)[..25]| == 25 && (a + b + c)[..25][|a| + k] == b[k]
  {
  }

  /**
   * Two identifiers whose times have the same number of digits are the same only if time and counter modulo 36^4
   * are, whatever their random parts.
   */
  lemma {:induction false} EqualIdsAgree(id: string, t1: nat, c1: nat, f1: string, t2: nat, c2: nat, f2: string)
    requires StemOf(id, t1, c1, f1) && StemOf(id, t2, c2, f2) && |Base36(t1)| == |Base36(t2)|
    ensures t1 == t2 && c1 % COUNTERS == c2 % COUNTERS
  {
    StemIsReadable(id, t1, c1, f1);
    StemIsReadable(id, t2, c2, f2);
  }

  /** Counters that are less than 36^4 apart give different identifiers. */
  lemma {:induction false} CountersTellApart(id1: string, t1: nat, c1: nat, id2: string, t2: nat, c2: nat, f: string)
    requires StemOf(id1, t1, c1, f) && StemOf(id2, t2, c2, f) && |Base36(t1)| == |Base36(t2)|
    requires c1 < c2 < c1 + COUNTERS
    ensures id1 != id2
  {
    RemaindersDiffer(c1, c2);
    if id1 == id2 {
      EqualIdsAgree(id1, t1, c1, f, t2, c2, f);
    }
  }
}
