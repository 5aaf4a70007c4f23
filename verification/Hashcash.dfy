// The proof of work a challenge asks for (consumer_client.py).  SHA-256 of the
// seed and a nonce is a parameter; a byte is a bv8.
module Hashcash {
  import opened Prelude

  const MAX_DIFFICULTY := 22
  const MAX_NONCE := 0x200_0000

  type Digest = d: seq<bv8> | |d| == 32 witness seq(32, _ => 0)

  // The bit of a byte worth 128, 64, ..., 1.
  function Place(k: nat): bv8
    requires k < 8
  {
    if k == 0 then 0x80 else if k == 1 then 0x40 else if k == 2 then 0x20 else if k == 3 then 0x10
    else if k == 4 then 0x08 else if k == 5 then 0x04 else if k == 6 then 0x02 else 0x01
  }

  predicate BitOf(b: bv8, k: nat)
    requires k < 8
  {
    b & Place(k) != 0
  }

  // Bit `i` of a digest, most significant first.
  predicate Bit(digest: Digest, i: nat)
    requires i < 256
  {
    BitOf(digest[i / 8], i % 8)
  }

  ghost predicate LeadingZeros(digest: Digest, n: nat)
    requires n <= 256
  {
    forall i :: 0 <= i < n ==> !Bit(digest, i)
  }

  function Mask(rem: nat): bv8
    requires rem < 8
  {
    if rem == 0 then 0 else 0xFF << (8 - rem)
  }

  lemma MaskValue(rem: nat)
    requires 0 < rem < 8
    ensures Mask(rem) == if rem == 1 then 0x80 else if rem == 2 then 0xC0 else if rem == 3 then 0xE0 else if rem == 4 then 0xF0
                         else if rem == 5 then 0xF8 else if rem == 6 then 0xFC else 0xFE
  {
    if rem == 1 { assert Mask(1) == 0x80; }
    else if rem == 2 { assert Mask(2) == 0xC0; }
    else if rem == 3 { assert Mask(3) == 0xE0; }
    else if rem == 4 { assert Mask(4) == 0xF0; }
    else if rem == 5 { assert Mask(5) == 0xF8; }
    else if rem == 6 { assert Mask(6) == 0xFC; }
    else { assert Mask(7) == 0xFE; }
  }

  lemma ZeroByte(b: bv8)
    ensures b == 0 <==> forall k :: 0 <= k < 8 ==> !BitOf(b, k)
  {
    if forall k :: 0 <= k < 8 ==> !BitOf(b, k) {
      assert !BitOf(b, 0) && !BitOf(b, 1) && !BitOf(b, 2) && !BitOf(b, 3);
      assert !BitOf(b, 4) && !BitOf(b, 5) && !BitOf(b, 6) && !BitOf(b, 7);
    }
  }

  lemma MaskedByte(b: bv8, rem: nat)
    requires 0 < rem < 8
    ensures b & Mask(rem) == 0 <==> forall k :: 0 <= k < rem ==> !BitOf(b, k)
  {
    MaskValue(rem);
    if forall k :: 0 <= k < rem ==> !BitOf(b, k) {
      assert forall k :: 0 <= k < 8 ==> (k < rem ==> !BitOf(b, k));
      assert !BitOf(b, 0);
      assert rem > 1 ==> !BitOf(b, 1);
      assert rem > 2 ==> !BitOf(b, 2);
      assert rem > 3 ==> !BitOf(b, 3);
      assert rem > 4 ==> !BitOf(b, 4);
      assert rem > 5 ==> !BitOf(b, 5);
      assert rem > 6 ==> !BitOf(b, 6);
    }
  }

  // Whole zero bytes, then a mask.
  predicate Passes(digest: Digest, full: nat, mask: bv8, rem: nat)
    requires full < 32 && rem < 8
  {
    (forall i :: 0 <= i < full ==> digest[i] == 0) && (rem == 0 || digest[full] & mask == 0)
  }

  // The bits of the first `full` bytes and of `rem` more, byte by byte.
  ghost predicate ZeroByByte(digest: Digest, full: nat, rem: nat)
    requires full < 32 && rem < 8
  {
    && (forall i, k :: 0 <= i < full && 0 <= k < 8 ==> !BitOf(digest[i], k))
    && (forall k :: 0 <= k < rem ==> !BitOf(digest[full], k))
  }

  lemma PassesByByte(digest: Digest, full: nat, rem: nat)
    requires full < 32 && rem < 8
    ensures Passes(digest, full, Mask(rem), rem) <==> ZeroByByte(digest, full, rem)
  {
    forall i | 0 <= i < full
      ensures digest[i] == 0 <==> forall k :: 0 <= k < 8 ==> !BitOf(digest[i], k)
    {
      ZeroByte(digest[i]);
    }
    if rem > 0 {
      MaskedByte(digest[full], rem);
    }
  }

  lemma LeadingZerosByByte(digest: Digest, full: nat, rem: nat)
    requires full < 32 && rem < 8
    ensures LeadingZeros(digest, 8 * full + rem) <==> ZeroByByte(digest, full, rem)
  {
    if ZeroByByte(digest, full, rem) {
      forall i | 0 <= i < 8 * full + rem ensures !Bit(digest, i) {
        assert i / 8 < full || (i / 8 == full && i % 8 < rem);
      }
    }
    if LeadingZeros(digest, 8 * full + rem) {
      forall i, k | 0 <= i < full && 0 <= k < 8 ensures !BitOf(digest[i], k) {
        BitAt(digest, i, k);
      }
      forall k | 0 <= k < rem ensures !BitOf(digest[full], k) {
        BitAt(digest, full, k);
      }
    }
  }

  // The test on bytes and a mask means exactly that the first bits are zero.
  lemma PassesMeansLeadingZeros(digest: Digest, difficulty: nat)
    requires difficulty <= 255
    ensures Passes(digest, difficulty / 8, Mask(difficulty % 8), difficulty % 8) <==> LeadingZeros(digest, difficulty)
  {
    PassesByByte(digest, difficulty / 8, difficulty % 8);
    LeadingZerosByByte(digest, difficulty / 8, difficulty % 8);
  }

  lemma BitAt(digest: Digest, i: nat, k: nat)
    requires i < 32 && k < 8
    ensures Bit(digest, 8 * i + k) == BitOf(digest[i], k)
  {
    assert (8 * i + k) / 8 == i && (8 * i + k) % 8 == k;
  }

  // Everything after the last colon is the difficulty.
  function LastColon(parameter: string): (at: int)
    ensures -1 <= at < |parameter|
    ensures at >= 0 ==> parameter[at] == ':'
    ensures forall i :: at < i < |parameter| ==> parameter[i] != ':'
  {
    if parameter == [] then -1
    else if parameter[|parameter| - 1] == ':' then |parameter| - 1
    else LastColon(parameter[..|parameter| - 1])
  }

  ghost predicate Solves(digest: (string, nat) -> Digest, seed: string, difficulty: nat, nonce: nat)
    requires difficulty <= MAX_DIFFICULTY
  {
    nonce < MAX_NONCE && LeadingZeros(digest(seed, nonce), difficulty)
  }

  // A parameter the search can start from.
  predicate WellFormed(parameter: string, parse: string -> Option<int>) {
    var at := LastColon(parameter);
    at >= 0 && parse(parameter[at + 1..]).Some? && 0 <= parse(parameter[at + 1..]).value <= MAX_DIFFICULTY
  }

  // The smallest nonce that solves the challenge, or nothing exactly when the
  // parameter is unusable or no nonce below the limit does.
  method SolveHashcash(parameter: string, parse: string -> Option<int>, digest: (string, nat) -> Digest) returns (found: Option<nat>)
    ensures !WellFormed(parameter, parse) ==> found.None?
    ensures WellFormed(parameter, parse) ==>
      var at := LastColon(parameter);
      var seed, difficulty := parameter[..at], parse(parameter[at + 1..]).value;
      match found
      case Some(nonce) => Solves(digest, seed, difficulty, nonce) && forall m :: 0 <= m < nonce ==> !Solves(digest, seed, difficulty, m)
      case None => forall m :: !Solves(digest, seed, difficulty, m)
  {
    var at := LastColon(parameter);
    if at < 0 { return None; }
    var seed, parsed := parameter[..at], parse(parameter[at + 1..]);
    if parsed.None? { return None; }
    var difficulty := parsed.value;
    if !(0 <= difficulty <= MAX_DIFFICULTY) { return None; }
    var full, rem := difficulty / 8, difficulty % 8;
    var mask := Mask(rem);
    var nonce := 0;
    while nonce < MAX_NONCE
      invariant 0 <= nonce <= MAX_NONCE
      invariant forall m :: 0 <= m < nonce ==> !Solves(digest, seed, difficulty, m)
    {
      PassesMeansLeadingZeros(digest(seed, nonce), difficulty);
      if Passes(digest(seed, nonce), full, mask, rem) {
        return Some(nonce);
      }
      nonce := nonce + 1;
    }
    return None;
  }
}
