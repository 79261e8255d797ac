/** Names of artifacts (src/airgap_sync/common/transport.py, chunk_filename of chunk_writer.py). */
module Transport {
  import opened Digest
  import opened RowCodec

  // At least six digits.
  function Padded(digits: Bytes): (r: Bytes)
    decreases 6 - |digits|
  {
    if |digits| < 6 then Padded([ZERO] + digits) else digits
  }

  function ChunkFileName(sequence: nat): Bytes {
    Ascii("chunk-") + Padded(NatText(sequence)) + Ascii(".jsonl.zst")
  }

  // chunk-, exactly six digits, .jsonl.zst
  predicate IsChunkName(name: Bytes) {
    && |name| == 22
    && name[..6] == Ascii("chunk-") && name[12..] == Ascii(".jsonl.zst")
    && forall i :: 6 <= i < 12 ==> IsDigit(name[i])
  }

  function SequenceOf(name: Bytes): nat
    requires IsChunkName(name)
  {
    NatValue(name[6..12])
  }

  lemma {:induction false} DigitsOf(n: nat, size: nat)
    requires 0 < size
    ensures |NatText(n)| <= size <==> n < Power10(size)
  {
    assert Power10(size) == 10 * Power10(size - 1);
    if n >= 10 && size > 1 {
      DigitsOf(n / 10, size - 1);
    }
  }

  function Power10(n: nat): (r: nat)
    ensures 0 < r
  {
    if n == 0 then 1 else 10 * Power10(n - 1)
  }

  lemma {:induction false} PaddedKeepsValue(digits: Bytes)
    requires forall i :: 0 <= i < |digits| ==> IsDigit(digits[i])
    ensures |Padded(digits)| == if |digits| < 6 then 6 else |digits|
    ensures forall i :: 0 <= i < |Padded(digits)| ==> IsDigit(Padded(digits)[i])
    ensures NatValue(Padded(digits)) == NatValue(digits)
    decreases 6 - |digits|
  {
    if |digits| < 6 {
      LeadingZero(digits);
      PaddedKeepsValue([ZERO] + digits);
    }
  }

  lemma {:induction false} LeadingZero(digits: Bytes)
    requires forall i :: 0 <= i < |digits| ==> IsDigit(digits[i])
    ensures forall i :: 0 <= i < |digits| + 1 ==> IsDigit(([ZERO] + digits)[i])
    ensures NatValue([ZERO] + digits) == NatValue(digits)
  {
    if digits == [] {
      assert ([ZERO] + digits)[..0] == [];
    } else {
      var n := |digits| - 1;
      LeadingZero(digits[..n]);
      assert ([ZERO] + digits)[..n + 1] == [ZERO] + digits[..n];
    }
  }

  // The names of the first 999999 chunks are accepted and give back the number; later ones are not.
  lemma NamesParseBack(sequence: nat)
    ensures IsChunkName(ChunkFileName(sequence)) <==> sequence <= 999999
    ensures sequence <= 999999 ==> SequenceOf(ChunkFileName(sequence)) == sequence
  {
    var name, digits := ChunkFileName(sequence), Padded(NatText(sequence));
    PaddedKeepsValue(NatText(sequence));
    NatRoundTrip(sequence);
    DigitsOf(sequence, 6);
    assert Power10(6) == 1000000;
    if sequence <= 999999 {
      assert |digits| == 6;
      assert name[..6] == Ascii("chunk-") && name[6..12] == digits && name[12..] == Ascii(".jsonl.zst");
    }
  }
}
