/** The rental contract's records (contract/src/lib.rs) and the pure parts of
    its lease-ownership token (contract/src/nft/core.rs): the lease record, the
    messages it is built from, the outgoing requests, the token view, the
    lease-id <-> token-id naming scheme and the receiver's verdict on a
    `nft_transfer_call`. */
module Lease {
  import opened Near

  type LeaseId = string

  datatype LeaseState = Pending | Active | Expired

  /** `LeaseCondition`. The lender is `owner_id` in lib.rs and `lender_id` in
      nft/core.rs; both name this one field. */
  datatype LeaseCondition = LeaseCondition(
    contractAddr: AccountId,
    tokenId: TokenId,
    ownerId: AccountId,
    borrower: AccountId,
    approvalId: U64,
    expiration: U64,
    amountNear: U128,
    state: LeaseState)

  /** `LeaseJson`, the message of the rental contract's `nft_on_approve`. */
  datatype LeaseJson = LeaseJson(
    contractAddr: AccountId,
    tokenId: TokenId,
    borrower: AccountId,
    expiration: U64,
    amountNear: string)

  /** `NftOnTransferJson`, the message of `nft_on_transfer`. */
  datatype NftOnTransferJson = NftOnTransferJson(leaseId: LeaseId)

  /** A promise the contract schedules; its execution is not modelled. */
  datatype Request =
    | NftTransferCall(nftContract: AccountId, receiverId: AccountId, tokenId: TokenId,
                      approvalId: Option<U64>, memo: Option<string>, msg: string, deposit: U128)
    | NftTransfer(nftContract: AccountId, receiverId: AccountId, tokenId: TokenId,
                  approvalId: Option<U64>, memo: Option<string>, deposit: U128)
    | NearTransfer(to: AccountId, amount: U128)
    | FunctionCall(contract: AccountId, methodName: string, args: string, deposit: U128)

  /** `TokenMetadata`; every field this contract leaves `None` is omitted. */
  datatype TokenMetadata = TokenMetadata(title: Option<string>, description: Option<string>)

  /** `Token` as nft/core.rs and nft/mint.rs build it (`approved_account_ids`
      is always `None` there and is omitted). */
  datatype Token = Token(tokenId: TokenId, ownerId: AccountId, metadata: Option<TokenMetadata>)

  const LEASE_ID_MSG_HEAD := "{\"lease_id\":\""

  /** The message `lending_accept` attaches: `{"lease_id":"<id>"}`. */
  function LeaseIdMsg(leaseId: LeaseId): (m: string)
    ensures |m| == |LEASE_ID_MSG_HEAD| + |leaseId| + 2
    ensures m[..|LEASE_ID_MSG_HEAD|] == LEASE_ID_MSG_HEAD
    ensures m[|LEASE_ID_MSG_HEAD|..|m| - 2] == leaseId
    ensures m[|m| - 2..] == "\"}"
  {
    var m := LEASE_ID_MSG_HEAD + leaseId + "\"}";
    assert m[|LEASE_ID_MSG_HEAD|..|m| - 2] == leaseId;
    m
  }

  /** Distinct leases are announced with distinct messages. */
  lemma LeaseIdMsgInjective(a: LeaseId, b: LeaseId)
    requires LeaseIdMsg(a) == LeaseIdMsg(b)
    ensures a == b
  {
    var m := LeaseIdMsg(a);
    assert a == m[|LEASE_ID_MSG_HEAD|..|m| - 2];
  }

  // ---------------------------------------------------------------------
  // Lease-ownership token ids.

  const LEASE_TOKEN_SUFFIX := "_lender"

  predicate HasLeaseTokenSuffix(t: TokenId)
  {
    |t| >= |LEASE_TOKEN_SUFFIX| && t[|t| - |LEASE_TOKEN_SUFFIX|..] == LEASE_TOKEN_SUFFIX
  }

  /** `lease_id_to_lease_token_id`. */
  function LeaseIdToLeaseTokenId(leaseId: LeaseId): (t: TokenId)
    ensures HasLeaseTokenSuffix(t)
    ensures LeaseTokenIdToLeaseId(t) == leaseId
  {
    var t := leaseId + LEASE_TOKEN_SUFFIX;
    assert t[..|leaseId|] == leaseId;
    assert t[|t| - |LEASE_TOKEN_SUFFIX|..] == LEASE_TOKEN_SUFFIX;
    t
  }

  /** `lease_token_id_to_lease_id`: strips the suffix; an id without it is
      taken to be a lease id already. */
  function LeaseTokenIdToLeaseId(t: TokenId): (leaseId: LeaseId)
    ensures HasLeaseTokenSuffix(t) ==> leaseId + LEASE_TOKEN_SUFFIX == t
    ensures !HasLeaseTokenSuffix(t) ==> leaseId == t
  {
    if HasLeaseTokenSuffix(t) then
      var leaseId := t[..|t| - |LEASE_TOKEN_SUFFIX|];
      assert leaseId + t[|t| - |LEASE_TOKEN_SUFFIX|..] == t;
      leaseId
    else t
  }

  /** Distinct leases get distinct ownership tokens. */
  lemma LeaseTokenIdInjective(a: LeaseId, b: LeaseId)
    requires LeaseIdToLeaseTokenId(a) == LeaseIdToLeaseTokenId(b)
    ensures a == b
  {
    assert LeaseTokenIdToLeaseId(LeaseIdToLeaseTokenId(a)) == a;
  }

  /** The metadata `nft_token` assembles on the fly for an active lease. */
  function LeaseTokenMetadata(tokenId: TokenId, leaseId: LeaseId, lease: LeaseCondition): (m: TokenMetadata)
    ensures m.title.Some? && m.description.Some?
    ensures |m.title.value| >= |tokenId| && m.title.value[|m.title.value| - |tokenId|..] == tokenId
  {
    var title := "NiftyRent Lease Ownership Token: " + tokenId;
    assert title[|title| - |tokenId|..] == tokenId;
    TokenMetadata(
      Some(title),
      Some("\n" + DESCRIPTION_INDENT
           + "This is a token representing the ownership the NFT under the NiFTyRent lease: " + leaseId
           + "\n\n" + DESCRIPTION_INDENT
           + "The under-leased NFT: " + lease.tokenId + " at " + lease.contractAddr))
  }

  /** The source indentation the multi-line format string of the
      description carries into its text. */
  const DESCRIPTION_INDENT := "                    "

  // ---------------------------------------------------------------------
  // nft_resolve_transfer's reading of the receiver's answer.

  /** Whether the transfer must be reverted, from `nft_on_transfer`'s result:
      a failed call or an answer that is not a JSON bool means revert, a bool
      is taken as it is; a result that is not ready aborts. */
  function ShouldRevert(result: PromiseResult<bool>): (r: Result<bool>)
    ensures result.NotReady? <==> r.Panic?
    ensures result.Failed? ==> r == Ok(true)
    ensures result.Successful? && result.parsed.None? ==> r == Ok(true)
    ensures result.Successful? && result.parsed.Some? ==> r == Ok(result.parsed.value)
  {
    match result
    case NotReady => Panic("env::abort")
    case Successful(parsed) => if parsed.Some? then Ok(parsed.value) else Ok(true)
    case Failed => Ok(true)
  }
}
