/** The NFT test double with NEP-199 payouts
    (integration-tests/stubs/nft_with_payout/src/lib.rs): the contract keeps
    a twentieth of every sale price, rounded down, and the token owner gets
    the rest. */
module PayoutStub {
  import opened Near

  /** `Payout.payout`: account -> share of the price. */
  type Payout = map<AccountId, U128>

  /** `nft_payout` on the owner table: an unknown token panics; otherwise a
      map built from the pair (contract, treasury share) followed by the pair
      (owner, owner share), so that when the owner is the contract itself the
      second pair replaces the first. */
  function NftPayout(ownerById: map<TokenId, AccountId>, currentAccountId: AccountId, tokenId: TokenId, balance: U128)
    : (r: Result<Payout>)
    ensures tokenId !in ownerById <==> r == Panic(UNWRAP_NONE)
    ensures r.Ok? ==> r.value.Keys == {currentAccountId, ownerById[tokenId]}
    ensures r.Ok? ==> r.value[ownerById[tokenId]] == balance - balance / 20
  {
    var treasurySplit := balance / 20;
    var ownerSplit := balance - treasurySplit;
    if tokenId !in ownerById then Panic(UNWRAP_NONE)
    else Ok(map[currentAccountId := treasurySplit][ownerById[tokenId] := ownerSplit])
  }

  /** When the owner is not the contract, the contract gets `balance / 20`,
      the owner the rest, and the shares add up to `balance`. */
  lemma PayoutSplitsBalance(ownerById: map<TokenId, AccountId>, currentAccountId: AccountId, tokenId: TokenId, balance: U128)
    requires tokenId in ownerById && ownerById[tokenId] != currentAccountId
    ensures var p := NftPayout(ownerById, currentAccountId, tokenId, balance).value;
            && p[currentAccountId] == balance / 20
            && p[currentAccountId] <= p[ownerById[tokenId]]
            && p[currentAccountId] as int + p[ownerById[tokenId]] == balance
  {
  }

  /** When the contract owns the token itself, the payout names it once,
      with the owner's share only: the treasury share is not paid out. */
  lemma PayoutToContractItself(ownerById: map<TokenId, AccountId>, currentAccountId: AccountId, tokenId: TokenId, balance: U128)
    requires tokenId in ownerById && ownerById[tokenId] == currentAccountId
    ensures NftPayout(ownerById, currentAccountId, tokenId, balance) == Ok(map[currentAccountId := balance - balance / 20])
  {
    var shares := map[currentAccountId := balance / 20][currentAccountId := balance - balance / 20];
    assert shares == map[currentAccountId := balance - balance / 20];
  }

  /** The split the integration tests expect for a price of 10000. */
  lemma PayoutOfTenThousand(ownerById: map<TokenId, AccountId>, currentAccountId: AccountId, tokenId: TokenId)
    requires tokenId in ownerById && ownerById[tokenId] != currentAccountId
    ensures NftPayout(ownerById, currentAccountId, tokenId, 10000)
            == Ok(map[currentAccountId := 500, ownerById[tokenId] := 9500])
  {
  }

  class Contract {
    /** `tokens.owner_by_id`. */
    var ownerById: map<TokenId, AccountId>

    /** `Contract::new`: no token yet. */
    constructor ()
      ensures ownerById == map[]
    {
      ownerById := map[];
    }

    /** `nft_transfer_payout`: the payout for `balance` is computed from the
        owner before the transfer, then the token passes to `receiverId`. */
    method NftTransferPayout(env: Env, receiverId: AccountId, tokenId: TokenId, approvalId: U64, balance: U128,
                             maxLenPayout: U32) returns (r: Result<Payout>)
      modifies this
      ensures r == old(NftPayout(ownerById, env.currentAccountId, tokenId, balance))
      ensures ownerById == if r.Ok? then old(ownerById)[tokenId := receiverId] else old(ownerById)
    {
      r := NftPayout(ownerById, env.currentAccountId, tokenId, balance);
      if r.Ok? {
        ownerById := ownerById[tokenId := receiverId];
      }
    }
  }
}
