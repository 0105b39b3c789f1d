/**
 * The pump.fun program: its address and the classifier that reads the
 * function from an instruction's data, a big-endian u64 in bytes 0..8.
 */
module PumpFunProgram {
  import opened Options
  import opened Bytes

  const ProgramAddress := "6EF8rrecthR5Dkzon8Nwu78hRvfCKubJ14M5uBEwF6P"

  datatype PumpFunFunction = Creation | Buy | Sell

  /** The u64 discriminator of each function. */
  function Discriminator(f: PumpFunFunction): (d: nat)
    ensures d < Pow256(8)
  {
    match f
    case Creation => 0x181ec828051c0777
    case Buy => 0x66063d1201daebea
    case Sell => 0x33e685a4017f83ad
  }

  /**
   * `from_data`: `data` is the base58 text of the instruction data and
   * `decoded` the result of decoding it (`None` when decoding fails). The
   * length check is on the text, so text of 8 or more characters that
   * decodes to fewer than 8 bytes makes the slice panic.
   */
  function FromData(data: string, decoded: Option<seq<byte>>): (r: Classified<PumpFunFunction>)
    ensures r.Panic? <==> decoded.Some? && |data| >= 8 && |decoded.value| < 8
    ensures r.Recognised? ==>
              decoded.Some? && |data| >= 8 && |decoded.value| >= 8
              && BigEndian(decoded.value[..8]) == Discriminator(r.kind)
    ensures decoded.Some? && |data| >= 8 && |decoded.value| >= 8 ==>
              (r == Unrecognised <==> forall f :: BigEndian(decoded.value[..8]) != Discriminator(f))
  {
    match decoded
    case None => Unrecognised
    case Some(bytes) =>
      if |data| < 8 then Unrecognised
      else if |bytes| < 8 then Panic
      else
        var discriminator := BigEndian(bytes[..8]);
        if discriminator == Discriminator(Creation) then Recognised(Creation)
        else if discriminator == Discriminator(Buy) then Recognised(Buy)
        else if discriminator == Discriminator(Sell) then Recognised(Sell)
        else Unrecognised
  }

  /** Data that starts with a function's discriminator is classified as that function, whatever follows. */
  lemma FromDataOfDiscriminator(f: PumpFunFunction, data: string, rest: seq<byte>)
    requires |data| >= 8
    ensures FromData(data, Some(ToBigEndian(Discriminator(f), 8) + rest)) == Recognised(f)
  {
    var bytes := ToBigEndian(Discriminator(f), 8) + rest;
    assert bytes[..8] == ToBigEndian(Discriminator(f), 8);
    BigEndianToBigEndian(Discriminator(f), 8);
  }

  /** A recognised function's data starts with exactly that function's discriminator bytes. */
  lemma RecognisedHasDiscriminator(data: string, bytes: seq<byte>, f: PumpFunFunction)
    requires FromData(data, Some(bytes)) == Recognised(f)
    ensures |bytes| >= 8 && bytes[..8] == ToBigEndian(Discriminator(f), 8)
  {
    BigEndianToBigEndian(Discriminator(f), 8);
    BigEndianInjective(bytes[..8], ToBigEndian(Discriminator(f), 8));
  }

  /** Bytes from index 8 on never change the answer. */
  lemma TrailingBytesIgnored(data: string, a: seq<byte>, b: seq<byte>)
    requires |a| >= 8 && |b| >= 8 && a[..8] == b[..8]
    ensures FromData(data, Some(a)) == FromData(data, Some(b))
  {
  }
}
