/** The hash pre-image of an event key: RLP of the pair [block number, event index]. */
module Rlp {
  import opened Options
  import opened Batches
  import opened Reconcile

  /** Big-endian digits base 256, none for zero. */
  function BigEndian(n: nat): (r: seq<nat>)
    ensures forall i :: 0 <= i < |r| ==> r[i] < 256
    ensures n > 0 ==> r != [] && r[0] > 0
  {
    if n == 0 then [] else BigEndian(n / 256) + [n % 256]
  }

  /** The number a byte string spells; the empty string is zero. */
  function RlpNumber(bytes: seq<nat>): nat {
    if bytes == [] then 0 else 256 * RlpNumber(bytes[..|bytes| - 1]) + bytes[|bytes| - 1]
  }

  lemma {:induction false} NumberOfDigits(n: nat)
    ensures RlpNumber(BigEndian(n)) == n
  {
    if n > 0 {
      NumberOfDigits(n / 256);
      assert BigEndian(n)[..|BigEndian(n)| - 1] == BigEndian(n / 256);
    }
  }

  /** Anything not above zero encodes like zero; a single small byte is its own encoding. */
  function Encode(n: int): seq<nat> {
    if n <= 0 then [0x80]
    else
      var bytes := BigEndian(n);
      if |bytes| == 1 && bytes[0] < 0x80 then bytes else [0x80 + |bytes|] + bytes
  }

  lemma MoveDigit(v: nat, bytes: seq<nat>)
    requires v > 0
    ensures BigEndian(v) + bytes == BigEndian(v / 256) + ([v % 256] + bytes)
  {
  }

  method RlpUint(n: int) returns (encoded: seq<nat>)
    ensures encoded == Encode(n)
  {
    if n == 0 { return [0x80]; }
    var bytes: seq<nat> := Digits(n);
    if |bytes| == 1 && bytes[0] < 0x80 { return bytes; }
    return [0x80 + |bytes|] + bytes;
  }

  method Digits(n: int) returns (bytes: seq<nat>)
    ensures bytes == if n > 0 then BigEndian(n) else []
  {
    hide BigEndian;
    bytes := [];
    var v := n;
    while v > 0
      invariant n > 0 ==> v >= 0 && BigEndian(v) + bytes == BigEndian(n)
      invariant n <= 0 ==> bytes == [] && v == n
    {
      MoveDigit(v, bytes);
      bytes := [v % 256] + bytes;
      v := v / 256;
    }
    NoDigits();
  }

  lemma NoDigits()
    ensures BigEndian(0) == []
  {
  }

  /** A short list of the two encodings; longer payloads are refused. */
  function Preimage(blockNumber: int, eventIndex: int): Option<seq<nat>> {
    var payload := Encode(blockNumber) + Encode(eventIndex);
    if |payload| > 55 then None else Some([0xc0 + |payload|] + payload)
  }

  // ----- decoding, by Appendix B of the Ethereum Yellow Paper

  predicate Octets(s: seq<nat>) { forall i :: 0 <= i < |s| ==> s[i] < 256 }

  /** The first short string of an RLP payload and what follows it; a small byte may not hide behind a length. */
  function DecodeString(s: seq<nat>): Option<(seq<nat>, seq<nat>)> {
    if s == [] then None
    else if s[0] < 0x80 then Some((s[..1], s[1..]))
    else if s[0] > 0xb7 || |s| <= s[0] - 0x80 || (s[0] == 0x81 && s[1] < 0x80) then None
    else Some((s[1..s[0] - 0x7f], s[s[0] - 0x7f..]))
  }

  /** A number is written without leading zeros. */
  predicate Scalar(bytes: seq<nat>) { bytes != [] ==> bytes[0] != 0 }

  /** A short list of exactly two short strings, read as numbers. */
  function DecodePair(s: seq<nat>): Option<(nat, nat)> {
    if s == [] || !(0xc0 <= s[0] <= 0xf7) || |s| != 1 + s[0] - 0xc0 then None
    else
      var first := DecodeString(s[1..]);
      if first.None? then None
      else
        var second := DecodeString(first.value.1);
        if second.None? || second.value.1 != [] || !Scalar(first.value.0) || !Scalar(second.value.0) then None
        else Some((RlpNumber(first.value.0), RlpNumber(second.value.0)))
  }

  function NonNegative(n: int): nat { if n < 0 then 0 else n }

  lemma NothingIsZero()
    ensures RlpNumber([]) == 0
  {
  }

  lemma DecodeEncoded(n: int, rest: seq<nat>)
    requires |Encode(n)| <= 55
    ensures var d := DecodeString(Encode(n) + rest);
      d.Some? && RlpNumber(d.value.0) == NonNegative(n) && Scalar(d.value.0) && d.value.1 == rest
  {
    hide BigEndian, RlpNumber;
    var s := Encode(n) + rest;
    NothingIsZero();
    if n > 0 {
      NumberOfDigits(n);
      var bytes := BigEndian(n);
      if |bytes| == 1 && bytes[0] < 0x80 {
        assert s[..1] == bytes && s[1..] == rest;
      } else {
        assert s[1..s[0] - 0x7f] == bytes && s[s[0] - 0x7f..] == rest;
      }
    } else {
      assert s[1..1] == [] && s[1..] == rest;
    }
  }

  /** Every accepted pre-image decodes to its pair, numbers below zero read as zero. */
  lemma PreimageDecodes(blockNumber: int, eventIndex: int)
    requires Preimage(blockNumber, eventIndex).Some?
    ensures DecodePair(Preimage(blockNumber, eventIndex).value) ==
      Some((NonNegative(blockNumber), NonNegative(eventIndex)))
  {
    var s := Preimage(blockNumber, eventIndex).value;
    assert s[1..] == Encode(blockNumber) + Encode(eventIndex);
    DecodeEncoded(blockNumber, Encode(eventIndex));
    DecodeEncoded(eventIndex, []);
    assert Encode(eventIndex) + [] == Encode(eventIndex);
  }

  lemma {:induction false} DigitsOfNumber(bytes: seq<nat>)
    requires Octets(bytes) && Scalar(bytes)
    ensures BigEndian(RlpNumber(bytes)) == bytes && (bytes != [] ==> RlpNumber(bytes) > 0)
  {
    if bytes != [] {
      var front := bytes[..|bytes| - 1];
      DigitsOfNumber(front);
      assert RlpNumber(bytes) / 256 == RlpNumber(front) && RlpNumber(bytes) % 256 == bytes[|bytes| - 1];
      assert bytes == front + [bytes[|bytes| - 1]];
    }
  }

  /** What the decoder reads is the number's own encoding: there is no other. */
  lemma DecodedIsEncoded(s: seq<nat>)
    requires Octets(s) && DecodeString(s).Some? && Scalar(DecodeString(s).value.0)
    ensures var d := DecodeString(s).value; s == Encode(RlpNumber(d.0)) + d.1
  {
    hide BigEndian, RlpNumber;
    var d := DecodeString(s).value;
    DigitsOfNumber(d.0);
    NothingIsZero();
    if s[0] < 0x80 {
      assert s == [s[0]] + s[1..];
    } else {
      assert s == [s[0]] + d.0 + d.1;
      if d.0 != [] { assert |d.0| == s[0] - 0x80 && d.0[0] == s[1]; }
    }
  }

  /** Every strictly decodable string of bytes is the pre-image of the pair it decodes to, and of no other. */
  lemma PreimageIff(s: seq<nat>, blockNumber: nat, eventIndex: nat)
    requires Octets(s)
    ensures Preimage(blockNumber, eventIndex) == Some(s) <==> DecodePair(s) == Some((blockNumber, eventIndex))
  {
    if Preimage(blockNumber, eventIndex) == Some(s) {
      PreimageDecodes(blockNumber, eventIndex);
    }
    if DecodePair(s) == Some((blockNumber, eventIndex)) {
      DecodedPreimage(s);
    }
  }

  lemma DecodedPreimage(s: seq<nat>)
    requires Octets(s) && DecodePair(s).Some?
    ensures Preimage(DecodePair(s).value.0, DecodePair(s).value.1) == Some(s)
  {
    hide DecodeString, Encode, RlpNumber;
    var tail := s[1..];
    var first := DecodeString(tail).value;
    DecodedIsEncoded(tail);
    RestOctets(tail);
    DecodedIsEncoded(first.1);
    assert tail == Encode(RlpNumber(first.0)) + Encode(RlpNumber(DecodeString(first.1).value.0));
    assert s == [s[0]] + tail;
  }

  lemma RestOctets(s: seq<nat>)
    requires Octets(s) && DecodeString(s).Some?
    ensures Octets(DecodeString(s).value.1)
  {
  }

  /** Two accepted pairs share a pre-image exactly when they agree up to negative numbers. */
  lemma PreimageInjective(b0: int, i0: int, b1: int, i1: int)
    requires Preimage(b0, i0).Some? && Preimage(b1, i1).Some?
    ensures Preimage(b0, i0) == Preimage(b1, i1) <==>
      NonNegative(b0) == NonNegative(b1) && NonNegative(i0) == NonNegative(i1)
  {
    hide DecodePair, BigEndian;
    PreimageDecodes(b0, i0);
    PreimageDecodes(b1, i1);
  }

  function Pow256(k: nat): nat { if k == 0 then 1 else 256 * Pow256(k - 1) }

  lemma {:induction false} DigitCount(n: nat, k: nat)
    requires n < Pow256(k)
    ensures |BigEndian(n)| <= k
  {
    if n > 0 {
      DigitCount(n / 256, k - 1);
    }
  }

  /** Numbers a script can hold exactly are never refused. */
  lemma SafeIntegersAccepted(blockNumber: int, eventIndex: int)
    requires blockNumber < Pow256(26) && eventIndex < Pow256(26)
    ensures Preimage(blockNumber, eventIndex).Some?
  {
    if blockNumber > 0 { DigitCount(blockNumber, 26); }
    if eventIndex > 0 { DigitCount(eventIndex, 26); }
  }

  function KeyPreimage(k: Key): Option<seq<nat>> { Preimage(k.blockNumber, k.eventIndex) }

  /** The contract tells reserved events apart by pre-image, exactly when the withdrawals fit below the seed offset. */
  lemma ReservedPreimagesApart(snap: Snapshot)
    requires snap.block < Pow256(26)
    requires snap.indexBase + SEED_INDEX_OFFSET + |snap.withdrawUsers| + |snap.seedUsers| < Pow256(26)
    ensures KeysFit(snap) <==>
      forall i, j :: 0 <= i < |snap.withdrawUsers| && 0 <= j < |snap.seedUsers| ==>
        KeyPreimage(WithdrawKey(snap, i)) != KeyPreimage(SeedKey(snap, j))
  {
    ReservedDisjointIffFit(snap);
    forall i, j | 0 <= i < |snap.withdrawUsers| && 0 <= j < |snap.seedUsers|
      ensures KeyPreimage(WithdrawKey(snap, i)) == KeyPreimage(SeedKey(snap, j)) <==>
        WithdrawKey(snap, i) == SeedKey(snap, j)
    {
      var w, s := WithdrawKey(snap, i), SeedKey(snap, j);
      SafeIntegersAccepted(w.blockNumber, w.eventIndex);
      SafeIntegersAccepted(s.blockNumber, s.eventIndex);
      PreimageInjective(w.blockNumber, w.eventIndex, s.blockNumber, s.eventIndex);
    }
  }
}
