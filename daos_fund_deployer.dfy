/**
 * The Daos fund deployer program: its address and the classifier that reads
 * the function from an instruction's data, a big-endian u64 in bytes 0..8.
 */
module DaosFundDeployerProgram {
  import opened Options
  import opened Bytes

  /** The address exactly as the program defines it, two trailing spaces included. */
  const ProgramAddress := "4FqThZWv3QKWkSyXCDmATpWkpEiCHq5yhkdGWpSEDAZM  "

  datatype DaosFundDeployerFunction = InitializeCurve

  const InitializeCurveDiscriminator: nat := 0x265d01d63bb94c59

  /**
   * `from_data`: `decoded` is the base58 decoding of `data` (`None` when it
   * fails). The length check is on the text, so text of 8 or more
   * characters that decodes to fewer than 8 bytes makes the slice panic.
   */
  function FromData(data: string, decoded: Option<seq<byte>>): (r: Classified<DaosFundDeployerFunction>)
    ensures r.Panic? <==> decoded.Some? && |data| >= 8 && |decoded.value| < 8
    ensures r == Recognised(InitializeCurve) <==>
              decoded.Some? && |data| >= 8 && |decoded.value| >= 8
              && BigEndian(decoded.value[..8]) == InitializeCurveDiscriminator
  {
    match decoded
    case None => Unrecognised
    case Some(bytes) =>
      if |data| < 8 then Unrecognised
      else if |bytes| < 8 then Panic
      else if BigEndian(bytes[..8]) == InitializeCurveDiscriminator then Recognised(InitializeCurve)
      else Unrecognised
  }

  /** Recognised data starts with exactly the discriminator bytes, and every such data is recognised. */
  lemma RecognisedIffDiscriminatorBytes(data: string, bytes: seq<byte>)
    requires |data| >= 8 && |bytes| >= 8
    ensures (FromData(data, Some(bytes)) == Recognised(InitializeCurve))
              == (bytes[..8] == ToBigEndian(InitializeCurveDiscriminator, 8))
  {
    BigEndianToBigEndian(InitializeCurveDiscriminator, 8);
    if BigEndian(bytes[..8]) == InitializeCurveDiscriminator {
      BigEndianInjective(bytes[..8], ToBigEndian(InitializeCurveDiscriminator, 8));
    }
  }
}
