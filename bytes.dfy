/**
 * Bytes and the integer readings of byte strings that the instruction
 * classifiers use (`u64::from_be_bytes`, `u32::from_le_bytes`), and the
 * shape of a classifier's answer.
 */
module Bytes {

  type byte = b: int | 0 <= b < 256

  /**
   * What a `from_data` classifier gives: a recognised function, `None`, or a
   * panic (an out-of-range slice or index on the decoded bytes).
   */
  datatype Classified<T> = Recognised(kind: T) | Unrecognised | Panic

  function Pow256(n: nat): (p: nat)
    ensures p >= 1
  {
    if n == 0 then 1 else 256 * Pow256(n - 1)
  }

  /** The unsigned integer whose big-endian bytes are `bs` (most significant first). */
  function BigEndian(bs: seq<byte>): (v: nat)
    ensures v < Pow256(|bs|)
  {
    if bs == [] then 0
    else
      var high := BigEndian(bs[..|bs| - 1]);
      assert high <= Pow256(|bs| - 1) - 1;
      assert high * 256 <= (Pow256(|bs| - 1) - 1) * 256;
      high * 256 + bs[|bs| - 1]
  }

  /** The unsigned integer whose little-endian bytes are `bs` (least significant first). */
  function LittleEndian(bs: seq<byte>): (v: nat)
  {
    if bs == [] then 0 else bs[0] + 256 * LittleEndian(bs[1..])
  }

  /** The `width` big-endian bytes of `n`. */
  function ToBigEndian(n: nat, width: nat): (bs: seq<byte>)
    requires n < Pow256(width)
    ensures |bs| == width
  {
    if width == 0 then [] else ToBigEndian(n / 256, width - 1) + [n % 256]
  }

  /** Encoding a number in big-endian bytes and reading them back gives the number. */
  lemma {:induction false} BigEndianToBigEndian(n: nat, width: nat)
    requires n < Pow256(width)
    ensures BigEndian(ToBigEndian(n, width)) == n
  {
    if width > 0 {
      var bs := ToBigEndian(n, width);
      BigEndianToBigEndian(n / 256, width - 1);
      assert bs[..width - 1] == ToBigEndian(n / 256, width - 1);
    }
  }

  /** Two byte strings of one length with the same big-endian value are equal. */
  lemma {:induction false} BigEndianInjective(a: seq<byte>, b: seq<byte>)
    requires |a| == |b| && BigEndian(a) == BigEndian(b)
    ensures a == b
  {
    if a != [] {
      var n := |a|;
      var ha, hb := BigEndian(a[..n - 1]), BigEndian(b[..n - 1]);
      assert ha * 256 + a[n - 1] == hb * 256 + b[n - 1];
      assert a[n - 1] == (ha * 256 + a[n - 1]) % 256;
      assert b[n - 1] == (hb * 256 + b[n - 1]) % 256;
      assert ha == hb;
      BigEndianInjective(a[..n - 1], b[..n - 1]);
      assert a == a[..n - 1] + [a[n - 1]];
      assert b == b[..n - 1] + [b[n - 1]];
    }
  }

  /** A little-endian value is zero exactly when every byte is zero. */
  lemma {:induction false} LittleEndianZero(bs: seq<byte>)
    ensures LittleEndian(bs) == 0 <==> forall i :: 0 <= i < |bs| ==> bs[i] == 0
  {
    if bs != [] {
      LittleEndianZero(bs[1..]);
      if LittleEndian(bs) == 0 {
        assert bs[0] == 0 && LittleEndian(bs[1..]) == 0;
        forall i | 0 <= i < |bs| ensures bs[i] == 0 {
          if i > 0 { assert bs[i] == bs[1..][i - 1]; }
        }
      } else if forall i :: 0 <= i < |bs| ==> bs[i] == 0 {
        forall i | 0 <= i < |bs| - 1 ensures bs[1..][i] == 0 {
          assert bs[1..][i] == bs[i + 1];
        }
        assert false;
      }
    }
  }
}
