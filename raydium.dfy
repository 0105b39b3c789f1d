/**
 * The Raydium AMM program: its address and the classifier that reads the
 * function from the first byte of an instruction's data.
 */
module RaydiumProgram {
  import opened Options
  import opened Bytes

  const ProgramAddress := "675kPX9MHTjS2zt1qfr1NYHuzeLXfQM9H24wFSUt1Mp8"

  datatype RaydiumFunction = Initialize | Initialize2

  function Discriminator(f: RaydiumFunction): byte
  {
    match f
    case Initialize => 0x00
    case Initialize2 => 0x01
  }

  /**
   * `from_data`: `decoded` is the base58 decoding of `data` (`None` when it
   * fails). Empty text gives `None`; reading byte 0 of an empty decoding of
   * non-empty text panics.
   */
  function FromData(data: string, decoded: Option<seq<byte>>): (r: Classified<RaydiumFunction>)
    ensures r.Panic? <==> decoded.Some? && |data| >= 1 && |decoded.value| == 0
    ensures r.Recognised? <==> decoded.Some? && |data| >= 1 && |decoded.value| >= 1 && decoded.value[0] <= 1
    ensures r.Recognised? ==> decoded.value[0] == Discriminator(r.kind)
  {
    match decoded
    case None => Unrecognised
    case Some(bytes) =>
      if |data| < 1 then Unrecognised
      else if |bytes| == 0 then Panic
      else if bytes[0] == Discriminator(Initialize) then Recognised(Initialize)
      else if bytes[0] == Discriminator(Initialize2) then Recognised(Initialize2)
      else Unrecognised
  }

  /** Only byte 0 is read: bytes after it never change the answer. */
  lemma OnlyFirstByteRead(data: string, b: byte, rest1: seq<byte>, rest2: seq<byte>)
    ensures FromData(data, Some([b] + rest1)) == FromData(data, Some([b] + rest2))
  {
  }
}
