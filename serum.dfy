/**
 * The Serum DEX program: its address and the classifier that skips a
 * version byte and reads a little-endian u32 from bytes 1..5.
 */
module SerumProgram {
  import opened Options
  import opened Bytes

  const ProgramAddress := "srmqPvymJeFKQ4zGQed1GFppgkRHL9kaELCbyksJtPX"

  datatype SerumFunction = InitializeMarket

  const InitializeMarketDiscriminator: nat := 0

  /**
   * `from_data`: `decoded` is the base58 decoding of `data` (`None` when it
   * fails). The length check is on the text; reading byte 0 or slicing
   * bytes 1..5 of a shorter decoding panics. Converting a 4-byte slice to
   * `[u8; 4]` cannot fail, so it has no case of its own.
   */
  function FromData(data: string, decoded: Option<seq<byte>>): (r: Classified<SerumFunction>)
    ensures r.Panic? <==> decoded.Some? && |data| >= 5 && |decoded.value| < 5
    ensures r == Recognised(InitializeMarket) <==>
              decoded.Some? && |data| >= 5 && |decoded.value| >= 5
              && LittleEndian(decoded.value[1..5]) == InitializeMarketDiscriminator
  {
    match decoded
    case None => Unrecognised
    case Some(bytes) =>
      if |data| < 5 then Unrecognised
      else if |bytes| == 0 then Panic       // bytes[0]
      else if |bytes| < 5 then Panic        // bytes[1..5]
      else if LittleEndian(bytes[1..5]) == InitializeMarketDiscriminator then Recognised(InitializeMarket)
      else Unrecognised
  }

  /** `InitializeMarket` is recognised exactly when bytes 1 to 4 are all zero. */
  lemma RecognisedIffZeroBytes(data: string, bytes: seq<byte>)
    requires |data| >= 5 && |bytes| >= 5
    ensures (FromData(data, Some(bytes)) == Recognised(InitializeMarket))
              == (bytes[1] == 0 && bytes[2] == 0 && bytes[3] == 0 && bytes[4] == 0)
  {
    var d := bytes[1..5];
    LittleEndianZero(d);
    assert d[0] == bytes[1] && d[1] == bytes[2] && d[2] == bytes[3] && d[3] == bytes[4];
  }

  /** The version byte never changes the answer. */
  lemma VersionByteIgnored(data: string, v: byte, w: byte, rest: seq<byte>)
    ensures FromData(data, Some([v] + rest)) == FromData(data, Some([w] + rest))
  {
    if |rest| >= 4 {
      assert ([v] + rest)[1..5] == rest[..4] == ([w] + rest)[1..5];
    }
  }
}
