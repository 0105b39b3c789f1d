/**
 * Helpers over a transaction's token balances: the first balance owned by an
 * address, and the per-(owner, mint) map of balances before and after the
 * transaction.
 */
module TokenBalances {
  import opened Options
  import opened Bytes
  import opened Text

  /** A token balance entry of a transaction's metadata; `amount` is the raw integer amount as text. */
  datatype TokenBalance = TokenBalance(owner: Option<string>, mint: string, amount: string, decimals: byte)

  datatype OwnerMintKey = OwnerMintKey(owner: string, mint: string)

  datatype BalanceUpdate = BalanceUpdate(pre: nat, post: nat, decimals: byte)

  const U64Max: nat := 0xFFFF_FFFF_FFFF_FFFF

  predicate AllDigits(s: string)
  {
    forall i :: 0 <= i < |s| ==> IsDigit(s[i])
  }

  /**
   * `str::parse::<u64>`: an optional '+' followed by at least one decimal
   * digit, with a value that fits in 64 bits; `None` for anything else.
   */
  function ParseU64(s: string): (r: Option<nat>)
    ensures r.Some? ==> r.value <= U64Max
    ensures s == [] ==> r.None?
  {
    var digits := if |s| >= 2 && s[0] == '+' then s[1..] else s;
    if digits != [] && AllDigits(digits) && DecimalValue(digits) <= U64Max then Some(DecimalValue(digits))
    else None
  }

  /** `parse::<u64>().unwrap_or(0)`. */
  function AmountOrZero(s: string): nat
  {
    match ParseU64(s)
    case Some(v) => v
    case None => 0
  }

  /** Every amount that fits in 64 bits, written in decimal, parses back to itself. */
  lemma ParseU64ShowNat(n: nat)
    requires n <= U64Max
    ensures ParseU64(ShowNat(n)) == Some(n)
  {
    DecimalValueShowNat(n);
  }

  /**
   * A character that is not a digit makes the amount unparseable, so it
   * counts as 0; the only exception is a leading '+' with more after it.
   */
  lemma ParseU64NonDigit(s: string, i: nat)
    requires i < |s| && !IsDigit(s[i])
    requires !(i == 0 && s[0] == '+' && |s| >= 2)
    ensures ParseU64(s).None? && AmountOrZero(s) == 0
  {
    if |s| >= 2 && s[0] == '+' {
      assert s[1..][i - 1] == s[i];
    }
  }

  /** A '+' in front of a u64 written in decimal is accepted and ignored. */
  lemma ParseU64Plus(n: nat)
    requires n <= U64Max
    ensures ParseU64("+" + ShowNat(n)) == Some(n)
  {
    assert ("+" + ShowNat(n))[1..] == ShowNat(n);
    DecimalValueShowNat(n);
  }

  /** Leading zeros do not change the amount read. */
  lemma ParseU64LeadingZero(d: string)
    requires d != [] && AllDigits(d)
    ensures ParseU64("0" + d) == ParseU64(d)
  {
    var s := "0" + d;
    assert AllDigits(s) by {
      forall i | 0 <= i < |s| ensures IsDigit(s[i]) {
        if i > 0 { assert s[i] == d[i - 1]; }
      }
    }
    DecimalValueLeadingZero(d);
  }

  /** An amount above 2^64 - 1 is not a u64, so it counts as 0. */
  lemma OverflowingAmountIsZero(n: nat)
    requires n > U64Max
    ensures AmountOrZero(ShowNat(n)) == 0
  {
    DecimalValueShowNat(n);
  }

  // ---------------------------------------------------------------------------
  // find_token_balance_by_address

  /** The first balance whose owner is present and equal to `target`. */
  function FindTokenBalanceByAddress(objects: seq<TokenBalance>, target: string): (r: Option<TokenBalance>)
    ensures r.None? <==> forall i :: 0 <= i < |objects| ==> objects[i].owner != Some(target)
    ensures r.Some? ==>
              exists i :: 0 <= i < |objects| && objects[i] == r.value && objects[i].owner == Some(target)
                          && forall j :: 0 <= j < i ==> objects[j].owner != Some(target)
  {
    if objects == [] then None
    else if objects[0].owner == Some(target) then Some(objects[0])
    else
      var r := FindTokenBalanceByAddress(objects[1..], target);
      assert forall j :: 1 <= j < |objects| ==> objects[j] == objects[1..][j - 1];
      r
  }

  // ---------------------------------------------------------------------------
  // compile_balance_updates

  /** The map key of a balance; balances without an owner have none. */
  function KeyOf(b: TokenBalance): Option<OwnerMintKey>
  {
    if b.owner.Some? then Some(OwnerMintKey(b.owner.value, b.mint)) else None
  }

  /** The keys of all balances that have an owner. */
  function Keys(bs: seq<TokenBalance>): set<OwnerMintKey>
  {
    if bs == [] then {}
    else Keys(bs[..|bs| - 1]) + (if KeyOf(bs[|bs| - 1]).Some? then {KeyOf(bs[|bs| - 1]).value} else {})
  }

  /** The last balance with key `k`, the one whose write survives. */
  function LastWithKey(bs: seq<TokenBalance>, k: OwnerMintKey): Option<TokenBalance>
  {
    if bs == [] then None
    else if KeyOf(bs[|bs| - 1]) == Some(k) then Some(bs[|bs| - 1])
    else LastWithKey(bs[..|bs| - 1], k)
  }

  function AmountOf(b: Option<TokenBalance>): nat
  {
    if b.Some? then AmountOrZero(b.value.amount) else 0
  }

  /**
   * The entry for key `k`: the amounts of the last pre and last post balance
   * with that key (0 where there is none), and the decimals of the last post
   * balance, or of the last pre balance when no post balance has the key.
   */
  function Expected(pre: seq<TokenBalance>, post: seq<TokenBalance>, k: OwnerMintKey): BalanceUpdate
  {
    var lp := LastWithKey(pre, k);
    var lq := LastWithKey(post, k);
    BalanceUpdate(AmountOf(lp), AmountOf(lq),
      if lq.Some? then lq.value.decimals else if lp.Some? then lp.value.decimals else 0)
  }

  /** A key occurs among the balances exactly when some balance with that key is last. */
  lemma {:induction false} KeysLastWithKey(bs: seq<TokenBalance>, k: OwnerMintKey)
    ensures k in Keys(bs) <==> LastWithKey(bs, k).Some?
  {
    if bs != [] {
      KeysLastWithKey(bs[..|bs| - 1], k);
    }
  }

  /** The last balance with key `k` is an entry of `bs` with that key, and no later entry has it. */
  lemma {:induction false} LastWithKeyIsLast(bs: seq<TokenBalance>, k: OwnerMintKey)
    requires LastWithKey(bs, k).Some?
    ensures exists i :: 0 <= i < |bs| && bs[i] == LastWithKey(bs, k).value && KeyOf(bs[i]) == Some(k)
                        && forall j :: i < j < |bs| ==> KeyOf(bs[j]) != Some(k)
  {
    var n := |bs|;
    if KeyOf(bs[n - 1]) == Some(k) {
      assert bs[n - 1] == LastWithKey(bs, k).value;
    } else {
      var init := bs[..n - 1];
      LastWithKeyIsLast(init, k);
      var i :| 0 <= i < n - 1 && init[i] == LastWithKey(init, k).value
                && KeyOf(init[i]) == Some(k)
                && forall j :: i < j < n - 1 ==> KeyOf(init[j]) != Some(k);
      assert bs[i] == LastWithKey(bs, k).value;
      assert forall j :: i < j < n - 1 ==> bs[j] == init[j];
    }
  }

  /** Balances without an owner contribute no key. */
  lemma {:induction false} OwnerlessAddNothing(bs: seq<TokenBalance>, b: TokenBalance)
    requires b.owner.None?
    ensures Keys(bs + [b]) == Keys(bs)
  {
    assert (bs + [b])[..|bs|] == bs;
  }

  /** One more balance: it becomes the last one for its key, and adds its key. */
  lemma StepLast(s: seq<TokenBalance>, i: nat)
    requires i < |s|
    ensures forall k :: LastWithKey(s[..i + 1], k) == if KeyOf(s[i]) == Some(k) then Some(s[i]) else LastWithKey(s[..i], k)
    ensures Keys(s[..i + 1]) == Keys(s[..i]) + (if KeyOf(s[i]).Some? then {KeyOf(s[i]).value} else {})
  {
    assert s[..i + 1][..i] == s[..i];
  }

  /** The map holds, for every key of `pre` and `post`, the entry those balances give it. */
  ghost predicate Compiled(m: map<OwnerMintKey, BalanceUpdate>, pre: seq<TokenBalance>, post: seq<TokenBalance>)
  {
    && m.Keys == Keys(pre) + Keys(post)
    && forall k :: k in m ==> m[k] == Expected(pre, post, k)
  }

  /** The update the pre loop makes for `b` keeps the map compiled over one more pre balance. */
  lemma PreStep(m: map<OwnerMintKey, BalanceUpdate>, pre: seq<TokenBalance>, i: nat, m': map<OwnerMintKey, BalanceUpdate>)
    requires i < |pre| && Compiled(m, pre[..i], [])
    requires var b := pre[i];
             (b.owner.None? ==> m' == m)
             && (b.owner.Some? ==>
                   var key := OwnerMintKey(b.owner.value, b.mint);
                   m' == if key in m then m[key := m[key].(pre := AmountOrZero(b.amount), decimals := b.decimals)]
                         else m[key := BalanceUpdate(AmountOrZero(b.amount), 0, b.decimals)])
    ensures Compiled(m', pre[..i + 1], [])
  {
    StepLast(pre, i);
  }

  /** The update the post loop makes for `b` keeps the map compiled over one more post balance. */
  lemma PostStep(m: map<OwnerMintKey, BalanceUpdate>, pre: seq<TokenBalance>, post: seq<TokenBalance>, j: nat,
                 m': map<OwnerMintKey, BalanceUpdate>)
    requires j < |post| && Compiled(m, pre, post[..j])
    requires var b := post[j];
             (b.owner.None? ==> m' == m)
             && (b.owner.Some? ==>
                   var key := OwnerMintKey(b.owner.value, b.mint);
                   m' == if key in m then m[key := m[key].(post := AmountOrZero(b.amount), decimals := b.decimals)]
                         else m[key := BalanceUpdate(0, AmountOrZero(b.amount), b.decimals)])
    ensures Compiled(m', pre, post[..j + 1])
  {
    StepLast(post, j);
    if post[j].owner.Some? {
      var key := OwnerMintKey(post[j].owner.value, post[j].mint);
      KeysLastWithKey(pre, key);
      KeysLastWithKey(post[..j], key);
    }
  }

  /**
   * `compile_balance_updates`: one pass over the pre balances, then one over
   * the post balances, each updating the entry for the balance's key in place
   * (`entry().and_modify().or_insert()`).
   */
  method CompileBalanceUpdates(pre: seq<TokenBalance>, post: seq<TokenBalance>)
    returns (balanceMap: map<OwnerMintKey, BalanceUpdate>)
    ensures balanceMap.Keys == Keys(pre) + Keys(post)
    ensures forall k :: k in balanceMap ==> balanceMap[k] == Expected(pre, post, k)
  {
    balanceMap := map[];
    var i := 0;
    while i < |pre|
      invariant 0 <= i <= |pre|
      invariant Compiled(balanceMap, pre[..i], [])
    {
      ghost var before := balanceMap;
      var preBalance := pre[i];
      if preBalance.owner.Some? {
        var key := OwnerMintKey(preBalance.owner.value, preBalance.mint);
        var preAmount := AmountOrZero(preBalance.amount);
        var decimals := preBalance.decimals;
        if key in balanceMap {
          balanceMap := balanceMap[key := balanceMap[key].(pre := preAmount, decimals := decimals)];
        } else {
          balanceMap := balanceMap[key := BalanceUpdate(preAmount, 0, decimals)];
        }
      }
      PreStep(before, pre, i, balanceMap);
      i := i + 1;
    }
    assert pre[..i] == pre;

    var j := 0;
    while j < |post|
      invariant 0 <= j <= |post|
      invariant Compiled(balanceMap, pre, post[..j])
    {
      ghost var before := balanceMap;
      var postBalance := post[j];
      if postBalance.owner.Some? {
        var key := OwnerMintKey(postBalance.owner.value, postBalance.mint);
        var postAmount := AmountOrZero(postBalance.amount);
        var decimals := postBalance.decimals;
        if key in balanceMap {
          balanceMap := balanceMap[key := balanceMap[key].(post := postAmount, decimals := decimals)];
        } else {
          balanceMap := balanceMap[key := BalanceUpdate(0, postAmount, decimals)];
        }
      }
      PostStep(before, pre, post, j, balanceMap);
      j := j + 1;
    }
    assert post[..j] == post;
  }
}
