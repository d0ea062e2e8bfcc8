/**
 src/k8s/workflow-runner-postmortem.ts: the tail of a Pod log that is kept.
 UTF-8 as in section 3 of RFC 3629; strings are UTF-16 code units, which the
 encoder reads as scalar values, replacing a lone surrogate by U+FFFD.
 */
module Utf8Tail {
  import opened Basics

  newtype Unit = n: int | 0 <= n < 0x1_0000
  newtype Byte = n: int | 0 <= n < 0x100
  type Scalar = n: int | 0 <= n < 0x11_0000 && !(0xD800 <= n < 0xE000)

  /** The log bytes one run keeps. */
  const LOG_TAIL_BYTES: nat := 16_384

  // ---------------------------------------------------------------------
  // Encoding and decoding

  /** The scalar values of a string. */
  function Scalars(body: seq<Unit>): seq<Scalar> {
    if body == [] then []
    else
      var u := body[0] as int;
      if !(0xD800 <= u < 0xE000) then [u] + Scalars(body[1..])
      else if u < 0xDC00 && |body| > 1 && 0xDC00 <= body[1] as int < 0xE000 then
        [0x1_0000 + (u - 0xD800) * 0x400 + (body[1] as int - 0xDC00)] + Scalars(body[2..])
      else [0xFFFD] + Scalars(body[1..])
  }

  function Continuation(low: int): Byte
  {
    (0x80 + low % 64) as Byte
  }

  function EncodeOne(c: Scalar): (bs: seq<Byte>)
    ensures 1 <= |bs| <= 4
    ensures !IsContinuation(bs[0]) && forall k | 1 <= k < |bs| :: IsContinuation(bs[k])
  {
    if c < 0x80 then [c as Byte]
    else if c < 0x800 then [(0xC0 + c / 64) as Byte, Continuation(c)]
    else if c < 0x1_0000 then [(0xE0 + c / 4096) as Byte, Continuation(c / 64), Continuation(c)]
    else [(0xF0 + c / 262144) as Byte, Continuation(c / 4096), Continuation(c / 64), Continuation(c)]
  }

  function Encode(cs: seq<Scalar>): seq<Byte> {
    if cs == [] then [] else EncodeOne(cs[0]) + Encode(cs[1..])
  }

  /** `0b10xxxxxx`: the top two bits, which is what masking with 0xc0 keeps. */
  predicate IsContinuation(b: Byte) {
    b / 64 == 2
  }

  function Low(b: Byte): nat {
    b as int % 64
  }

  /** The character at the front of a well-formed text, and its length. */
  function DecodeOne(bs: seq<Byte>): (r: Option<(Scalar, nat)>)
    requires bs != []
    ensures r.Some? ==> 0 < r.value.1 <= |bs|
  {
    var b := bs[0] as int;
    if b < 0x80 then Some((b, 1))
    else if 0xC0 <= b < 0xE0 && |bs| >= 2 && IsContinuation(bs[1]) then
      Checked((b - 0xC0) * 64 + Low(bs[1]), 0x80, 2)
    else if 0xE0 <= b < 0xF0 && |bs| >= 3 && IsContinuation(bs[1]) && IsContinuation(bs[2]) then
      Checked((b - 0xE0) * 4096 + Low(bs[1]) * 64 + Low(bs[2]), 0x800, 3)
    else if 0xF0 <= b < 0xF8 && |bs| >= 4 && IsContinuation(bs[1]) && IsContinuation(bs[2]) && IsContinuation(bs[3]) then
      Checked((b - 0xF0) * 262144 + Low(bs[1]) * 4096 + Low(bs[2]) * 64 + Low(bs[3]), 0x1_0000, 4)
    else None
  }

  /** No overlong form, no surrogate, nothing past U+10FFFF. */
  function Checked(v: nat, least: nat, length: nat): (r: Option<(Scalar, nat)>)
    ensures r.Some? ==> r.value == (v, length)
  {
    if least <= v < 0x11_0000 && !(0xD800 <= v < 0xE000) then Some((v, length)) else None
  }

  /** `None` where the decoder would have to substitute U+FFFD. */
  function Decode(bs: seq<Byte>): Option<seq<Scalar>> {
    if bs == [] then Some([])
    else
      match DecodeOne(bs)
      case None => None
      case Some((c, n)) =>
        match Decode(bs[n..])
        case None => None
        case Some(cs) => Some([c] + cs)
  }

  lemma Digits64(n: nat)
    ensures n == n / 64 * 64 + n % 64
    ensures n / 64 == n / 4096 * 64 + n / 64 % 64
    ensures n / 4096 == n / 262144 * 64 + n / 4096 % 64
  {
  }

  lemma ContinuationByte(low: int)
    ensures IsContinuation(Continuation(low)) && Low(Continuation(low)) == low % 64
  {
  }

  lemma DecodeOneEncoded(c: Scalar, rest: seq<Byte>)
    ensures DecodeOne(EncodeOne(c) + rest) == Some((c, |EncodeOne(c)|))
  {
    hide IsContinuation, Continuation, Low;
    Digits64(c);
    ContinuationByte(c);
    ContinuationByte(c / 64);
    ContinuationByte(c / 4096);
    var bs := EncodeOne(c) + rest;
    if c >= 0x80 {
      assert bs[1] == EncodeOne(c)[1];
      assert c >= 0x800 ==> bs[2] == EncodeOne(c)[2];
      assert c >= 0x1_0000 ==> bs[3] == EncodeOne(c)[3];
    }
  }

  lemma {:induction false} DecodeEncoded(cs: seq<Scalar>)
    ensures Decode(Encode(cs)) == Some(cs)
  {
    if cs != [] {
      hide EncodeOne;
      var bs, one := Encode(cs), EncodeOne(cs[0]);
      DecodeOneEncoded(cs[0], Encode(cs[1..]));
      assert bs[|one|..] == Encode(cs[1..]);
      DecodeEncoded(cs[1..]);
      assert [cs[0]] + cs[1..] == cs;
    }
  }

  // ---------------------------------------------------------------------
  // Strings are UTF-16

  /** Section 2.1 of RFC 2781. */
  function UnitsOf(c: Scalar): (us: seq<Unit>) {
    if c < 0x1_0000 then [c as Unit]
    else [(0xD800 + (c - 0x1_0000) / 0x400) as Unit, (0xDC00 + (c - 0x1_0000) % 0x400) as Unit]
  }

  function Units(cs: seq<Scalar>): seq<Unit> {
    if cs == [] then [] else UnitsOf(cs[0]) + Units(cs[1..])
  }

  lemma {:induction false} ScalarsOfUnits(cs: seq<Scalar>)
    ensures Scalars(Units(cs)) == cs
  {
    if cs != [] {
      var us, one := Units(cs), UnitsOf(cs[0]);
      ScalarsOfUnits(cs[1..]);
      assert us[|one|..] == Units(cs[1..]);
      assert [cs[0]] + cs[1..] == cs;
    }
  }

  /** A surrogate without its partner beside it. */
  predicate Lone(body: seq<Unit>, i: nat)
    requires i < |body|
  {
    || (0xD800 <= body[i] < 0xDC00 && !(i + 1 < |body| && 0xDC00 <= body[i + 1] < 0xE000))
    || (0xDC00 <= body[i] < 0xE000 && !(i > 0 && 0xD800 <= body[i - 1] < 0xDC00))
  }

  /** The string with each lone surrogate replaced. */
  function Repaired(body: seq<Unit>): seq<Unit> {
    seq(|body|, i requires 0 <= i < |body| => if Lone(body, i) then 0xFFFD else body[i])
  }

  lemma RepairedFrom(body: seq<Unit>, n: nat)
    requires 0 < n <= |body| && !(n < |body| && 0xD800 <= body[n - 1] < 0xDC00 && 0xDC00 <= body[n] < 0xE000)
    ensures Repaired(body) == Repaired(body)[..n] + Repaired(body[n..])
  {
    forall i: nat | n <= i < |body| ensures Lone(body, i) <==> Lone(body[n..], i - n) {
    }
  }

  /** What the encoder reads are the characters of the string with each lone
      surrogate replaced by U+FFFD, and nothing else changed. */
  lemma {:induction false} ScalarsRepair(body: seq<Unit>)
    ensures Units(Scalars(body)) == Repaired(body)
    decreases |body|
  {
    if body != [] {
      var u := body[0] as int;
      var n := if 0xD800 <= u < 0xDC00 && |body| > 1 && 0xDC00 <= body[1] < 0xE000 then 2 else 1;
      var cs := Scalars(body);
      ScalarsRepair(body[n..]);
      RepairedFrom(body, n);
      assert cs[1..] == Scalars(body[n..]);
      assert UnitsOf(cs[0]) == Repaired(body)[..n];
    }
  }

  // ---------------------------------------------------------------------
  // The tail

  ghost function From(cs: seq<Scalar>, k: nat): (p: int)
    requires k <= |cs|
  {
    |Encode(cs)| - |Encode(cs[k..])|
  }

  /** `tail` is the longest run of final characters that fits. */
  ghost predicate IsLongestTail(tail: seq<Scalar>, cs: seq<Scalar>, budget: nat) {
    && |Encode(tail)| <= budget
    && exists k: nat :: k <= |cs| && tail == cs[k..] && (k > 0 ==> |Encode(cs[k - 1..])| > budget)
  }

  /** The first character that begins at byte `p` or later. */
  ghost function CharFrom(cs: seq<Scalar>, p: nat): (k: nat)
    requires p <= |Encode(cs)|
    ensures k <= |cs|
  {
    if p == 0 then 0
    else if p <= |EncodeOne(cs[0])| then 1
    else 1 + CharFrom(cs[1..], p - |EncodeOne(cs[0])|)
  }

  /** From `p` to where that character begins there are at most three bytes, all
      continuation bytes, and the character before it begins before `p`. */
  lemma {:induction false} NextCharacter(cs: seq<Scalar>, p: nat)
    requires p <= |Encode(cs)|
    ensures var k := CharFrom(cs, p); var q := From(cs, k);
            && p <= q <= p + 3 && q <= |Encode(cs)|
            && (forall j | p <= j < q :: IsContinuation(Encode(cs)[j]))
            && (q < |Encode(cs)| ==> !IsContinuation(Encode(cs)[q]))
            && Encode(cs)[q..] == Encode(cs[k..])
            && (k > 0 ==> From(cs, k - 1) < p)
  {
    hide EncodeOne, IsContinuation;
    var bs := Encode(cs);
    if p == 0 {
      assert cs[0..] == cs && bs[0..] == bs;
    } else {
      var one, rest := EncodeOne(cs[0]), Encode(cs[1..]);
      assert bs == one + rest;
      if p <= |one| {
        assert bs[|one|..] == rest;
        assert cs[0..] == cs;
        assert rest != [] ==> bs[|one|] == rest[0] == EncodeOne(cs[1])[0];
      } else {
        var k := CharFrom(cs[1..], p - |one|);
        NextCharacter(cs[1..], p - |one|);
        assert cs[1..][k..] == cs[k + 1..];
        assert k > 0 ==> cs[1..][k - 1..] == cs[k..];
        var q := From(cs[1..], k);
        assert bs[q + |one|..] == rest[q..];
        assert cs[0..] == cs;
      }
    }
  }

  /** boundedTail */
  method BoundedTail(body: seq<Unit>) returns (tail: seq<Scalar>)
    ensures IsLongestTail(tail, Scalars(body), 16_384)
    ensures |Encode(Scalars(body))| <= 16_384 ==> tail == Scalars(body)
    ensures |Encode(Scalars(body))| > 16_384 ==> |Encode(tail)| >= 16_381
  {
    hide Encode, Decode, Scalars, IsContinuation;
    ghost var cs := Scalars(body);
    var bytes := Encode(Scalars(body));
    if |bytes| <= LOG_TAIL_BYTES {
      DecodeEncoded(cs);
      assert cs[0..] == cs;
      return Decode(bytes).value;
    }
    ghost var cut := |bytes| - LOG_TAIL_BYTES;
    ghost var k := CharFrom(cs, cut);
    NextCharacter(cs, cut);
    var start := |bytes| - LOG_TAIL_BYTES;
    while start < |bytes| && IsContinuation(bytes[start])
      invariant cut <= start <= From(cs, k)
    {
      start := start + 1;
    }
    assert start == From(cs, k);
    DecodeEncoded(cs[k..]);
    tail := Decode(bytes[start..]).value;
  }
}
