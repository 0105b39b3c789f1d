/**
 * The reserve computation of the pump.fun trade handler: for a tracked
 * token, the bonding curve's lamports and token balance after the
 * transaction become the real and virtual reserves of a bonding-curve
 * update. Whether the token is tracked is an input (it is a set lookup in
 * the key-value store).
 */
module PumpFunTrade {
  import opened Options
  import opened TokenBalances

  const InitialLamportReserves: nat := 30_000_000_000
  const InitialVirtualTokenReserves: nat := 1_073_000_000_000_000
  const InitialRealTokenReserves: nat := 793_100_000_000_000
  const InitialTokenTotalSupply: nat := 1_000_000_000_000_000

  datatype BondingCurveUpdate = BondingCurveUpdate(
    tokenAddress: string,
    bondingCurve: string,
    realLamportReserves: nat,
    realTokenReserves: nat,
    virtualLamportReserves: nat,
    virtualTokenReserves: nat)

  /** The handler sends an update, returns without one, or panics (an `unwrap` on nothing, or u64 arithmetic out of range). */
  datatype TradeOutcome = Update(msg: BondingCurveUpdate) | NotTracked | Panic

  /** `Iterator::position`: the index of the first key equal to `k`. */
  function Position(keys: seq<string>, k: string): (r: Option<nat>)
    ensures r.None? <==> k !in keys
    ensures r.Some? ==> r.value < |keys| && keys[r.value] == k && k !in keys[..r.value]
  {
    if keys == [] then None
    else if keys[0] == k then Some(0)
    else
      match Position(keys[1..], k)
      case None => None
      case Some(i) =>
        assert keys[..i + 1] == [keys[0]] + keys[1..][..i];
        Some(i + 1)
  }

  /** The bonding curve's token amount: that of the first balance it owns, 0 when there is none or it is not a u64. */
  function CurveTokenBalance(postTokenBalances: seq<TokenBalance>, bondingCurve: string): nat
  {
    match FindTokenBalanceByAddress(postTokenBalances, bondingCurve)
    case Some(tokenBalance) => AmountOrZero(tokenBalance.amount)
    case None => 0
  }

  predicate InU64(n: int) { 0 <= n <= U64Max }

  /**
   * `trade_handler`. `instructionAccounts` are the instruction's accounts,
   * `accountKeys` the transaction's account keys (in the order of
   * `postBalances`), `postTokenBalances` the optional token balances of the
   * transaction's meta. Arithmetic is checked as in a debug build.
   */
  function TradeHandler(instructionAccounts: seq<string>, isTracked: bool, accountKeys: seq<string>,
                        postBalances: seq<nat>, postTokenBalances: Option<seq<TokenBalance>>): (r: TradeOutcome)
    requires forall i :: 0 <= i < |postBalances| ==> InU64(postBalances[i])
    ensures |instructionAccounts| < 3 ==> r.Panic?
    ensures r.NotTracked? <==> |instructionAccounts| >= 3 && !isTracked
    ensures r.Update? ==>
              && |instructionAccounts| >= 4 && isTracked
              && r.msg.tokenAddress == instructionAccounts[2]
              && r.msg.bondingCurve == instructionAccounts[3]
              && Position(accountKeys, instructionAccounts[3]).Some?
              && Position(accountKeys, instructionAccounts[3]).value < |postBalances|
              && r.msg.realLamportReserves == postBalances[Position(accountKeys, instructionAccounts[3]).value]
              && postTokenBalances.Some?
              && r.msg.virtualLamportReserves == r.msg.realLamportReserves + 30_000_000_000
              && r.msg.virtualTokenReserves == CurveTokenBalance(postTokenBalances.value, instructionAccounts[3]) + 73_000_000_000_000
              && r.msg.realTokenReserves == CurveTokenBalance(postTokenBalances.value, instructionAccounts[3]) - 206_900_000_000_000
              && InU64(r.msg.virtualLamportReserves) && InU64(r.msg.virtualTokenReserves)
  {
    if |instructionAccounts| < 3 then Panic
    else
      var tokenAddress := instructionAccounts[2];
      if !isTracked then NotTracked
      else if |instructionAccounts| < 4 then Panic
      else
        var bondingCurve := instructionAccounts[3];
        match Position(accountKeys, bondingCurve)
        case None => Panic
        case Some(bondingCurveIndex) =>
          if postTokenBalances.None? then Panic
          else if bondingCurveIndex >= |postBalances| then Panic
          else
            var realLamportReserves := postBalances[bondingCurveIndex];
            var balance := CurveTokenBalance(postTokenBalances.value, bondingCurve);
            var virtualLamportReserves := realLamportReserves + InitialLamportReserves;
            if !InU64(virtualLamportReserves) then Panic
            else
              var virtualTokenReserves := balance + (InitialVirtualTokenReserves - InitialTokenTotalSupply);
              if !InU64(virtualTokenReserves) then Panic
              else
                var realTokenReserves := balance - (InitialTokenTotalSupply - InitialRealTokenReserves);
                if !InU64(realTokenReserves) then Panic
                else
                  Update(BondingCurveUpdate(tokenAddress, bondingCurve, realLamportReserves,
                                            realTokenReserves, virtualLamportReserves, virtualTokenReserves))
  }

  /** Every update the handler sends keeps virtual token reserves 279.9 million tokens (in base units) above the real ones. */
  lemma VirtualRealTokenGap(instructionAccounts: seq<string>, isTracked: bool, accountKeys: seq<string>,
                            postBalances: seq<nat>, postTokenBalances: Option<seq<TokenBalance>>)
    requires forall i :: 0 <= i < |postBalances| ==> InU64(postBalances[i])
    requires TradeHandler(instructionAccounts, isTracked, accountKeys, postBalances, postTokenBalances).Update?
    ensures var m := TradeHandler(instructionAccounts, isTracked, accountKeys, postBalances, postTokenBalances).msg;
            m.virtualTokenReserves - m.realTokenReserves == 279_900_000_000_000
  {
  }

  /**
   * Once the accounts, the bonding curve's key, its lamports and the token
   * balances are all present, the handler sends an update exactly when the
   * curve's token balance is at least 206.9 million tokens (in base units),
   * so that the real token reserves do not go below zero, and the sums stay
   * within u64.
   */
  lemma {:induction false} UpdateIffBalanceCoversReserve(instructionAccounts: seq<string>, accountKeys: seq<string>,
                                                         postBalances: seq<nat>, postTokenBalances: seq<TokenBalance>)
    requires forall i :: 0 <= i < |postBalances| ==> InU64(postBalances[i])
    requires |instructionAccounts| >= 4
    requires instructionAccounts[3] in accountKeys
    requires Position(accountKeys, instructionAccounts[3]).value < |postBalances|
    ensures var balance := CurveTokenBalance(postTokenBalances, instructionAccounts[3]);
            var lamports := postBalances[Position(accountKeys, instructionAccounts[3]).value];
            TradeHandler(instructionAccounts, true, accountKeys, postBalances, Some(postTokenBalances)).Update?
              == (balance >= 206_900_000_000_000
                  && lamports + 30_000_000_000 <= U64Max
                  && balance + 73_000_000_000_000 <= U64Max)
  {
  }

  /** A bonding curve without a token balance of its own, or whose first one has an unparseable amount, reads as 0 and makes the handler panic. */
  lemma {:induction false} MissingCurveBalancePanics(instructionAccounts: seq<string>, accountKeys: seq<string>,
                                                     postBalances: seq<nat>, postTokenBalances: seq<TokenBalance>)
    requires forall i :: 0 <= i < |postBalances| ==> InU64(postBalances[i])
    requires |instructionAccounts| >= 4
    requires match FindTokenBalanceByAddress(postTokenBalances, instructionAccounts[3])
             case None => true
             case Some(b) => ParseU64(b.amount).None?
    ensures TradeHandler(instructionAccounts, true, accountKeys, postBalances, Some(postTokenBalances)).Panic?
  {
    assert CurveTokenBalance(postTokenBalances, instructionAccounts[3]) == 0;
  }
}
