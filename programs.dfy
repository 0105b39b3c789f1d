/**
 * `ProgramId::from_str`: which of the four watched programs an on-chain
 * program address names.
 */
module Programs {
  import opened Options
  import PumpFunProgram
  import DaosFundDeployerProgram
  import RaydiumProgram
  import SerumProgram

  datatype ProgramId = DaosFundDeployer | PumpFun | Raydium | Serum

  /** The address constant each program is matched against. */
  function Address(p: ProgramId): string
  {
    match p
    case DaosFundDeployer => DaosFundDeployerProgram.ProgramAddress
    case PumpFun => PumpFunProgram.ProgramAddress
    case Raydium => RaydiumProgram.ProgramAddress
    case Serum => SerumProgram.ProgramAddress
  }

  /** The guards, in the order they are tried: exact string equality, no trimming. */
  function FromStr(programId: string): (r: Option<ProgramId>)
    ensures r.Some? ==> programId == Address(r.value)
    ensures r.None? <==> forall p :: programId != Address(p)
  {
    if programId == Address(DaosFundDeployer) then Some(DaosFundDeployer)
    else if programId == Address(PumpFun) then Some(PumpFun)
    else if programId == Address(Raydium) then Some(Raydium)
    else if programId == Address(Serum) then Some(Serum)
    else None
  }

  /** The four addresses are pairwise distinct, so at most one guard matches and their order does not matter. */
  lemma AddressesDistinct(p: ProgramId, q: ProgramId)
    requires Address(p) == Address(q)
    ensures p == q
  {
    assert |Address(DaosFundDeployer)| == 46;
    assert |Address(PumpFun)| == 43 && |Address(Serum)| == 43;
    assert |Address(Raydium)| == 44;
    assert Address(PumpFun)[0] != Address(Serum)[0];
  }

  /** An address is recognised as `p` exactly when it is `p`'s address. */
  lemma FromStrIff(programId: string, p: ProgramId)
    ensures FromStr(programId) == Some(p) <==> programId == Address(p)
  {
    if programId == Address(p) {
      AddressesDistinct(FromStr(programId).value, p);
    }
  }

  /** Each program's own address is recognised as that program. */
  lemma FromStrAddress(p: ProgramId)
    ensures FromStr(Address(p)) == Some(p)
  {
    AddressesDistinct(FromStr(Address(p)).value, p);
  }

  /** The Daos fund deployer's 44-character address without the constant's two trailing spaces is not recognised. */
  lemma UnpaddedDaosAddressUnrecognised()
    ensures FromStr("4FqThZWv3QKWkSyXCDmATpWkpEiCHq5yhkdGWpSEDAZM") == None
  {
    var s := "4FqThZWv3QKWkSyXCDmATpWkpEiCHq5yhkdGWpSEDAZM";
    assert |s| == 44;
    assert s != Address(Raydium) by { assert s[0] != Address(Raydium)[0]; }
  }
}
