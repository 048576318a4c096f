/** The rental contract (contract/src/lib.rs) together with the lease-ownership
    token methods Rust spreads over contract/src/nft/core.rs and
    contract/src/nft/mint.rs: all of them are methods of one `Contract` state.

    A panic aborts the whole receipt, so a method that returns `Panic` leaves
    every field as it was. Cross-contract promises are returned as `Request`
    values and are not executed. */
module Rental {
  import opened Near
  import opened Lease

  const BAD_LEASE_MSG := "Not valid lease data"
  const TOKEN_ID_MISMATCH := "assertion failed: `(left == right)`"
  const BAD_AMOUNT := "called `Result::unwrap()` on an `Err` value"
  const BORROWER_MISMATCH := "Borrower is not the same one!"
  const DEPOSIT_TOO_LOW := "Deposit is less than the agreed rent!"
  const SENDER_NOT_SELF := "sender_id does NOT match current contract id!"
  const BAD_TRANSFER_MSG := "Not valid msg for nft_on_transfer"
  const NOT_EXPIRED := "Lease has not expired yet!"
  const NOT_ACTIVE := "Queried Lease is no longer active!"
  const NOT_LENDER := "Only original lender or service owner can claim back!"
  const METHOD_NOT_ACCESSIBLE := "Calling method is not accessiable!"
  const TOKEN_EXISTS := "Token already exists"

  // ---------------------------------------------------------------------
  // Pure specifications of the contract's steps.

  /** The lease `nft_on_approve` builds from its arguments and message, or the
      panic that stops it: a message that does not parse, a token id that
      differs from the approved one, an amount that is not a u128. */
  function LeaseFromApproval(tokenId: TokenId, ownerId: AccountId, approvalId: U64, msg: Option<LeaseJson>)
    : (r: Result<LeaseCondition>)
    ensures msg.None? ==> r == Panic(BAD_LEASE_MSG)
    ensures msg.Some? && msg.value.tokenId != tokenId ==> r == Panic(TOKEN_ID_MISMATCH)
    ensures msg.Some? && msg.value.tokenId == tokenId && ParseU128(msg.value.amountNear).None? ==> r == Panic(BAD_AMOUNT)
    ensures r.Ok? <==> msg.Some? && msg.value.tokenId == tokenId && ParseU128(msg.value.amountNear).Some?
    ensures r.Ok? ==>
      && r.value.state == Pending
      && r.value.ownerId == ownerId && r.value.approvalId == approvalId
      && r.value.contractAddr == msg.value.contractAddr && r.value.tokenId == msg.value.tokenId
      && r.value.borrower == msg.value.borrower && r.value.expiration == msg.value.expiration
      && r.value.amountNear == ParseU128(msg.value.amountNear).value
  {
    if msg.None? then Panic(BAD_LEASE_MSG)
    else
      var json := msg.value;
      if tokenId != json.tokenId then Panic(TOKEN_ID_MISMATCH)
      else
        match ParseU128(json.amountNear)
        case None => Panic(BAD_AMOUNT)
        case Some(amount) =>
          Ok(LeaseCondition(json.contractAddr, json.tokenId, ownerId, json.borrower,
                            approvalId, json.expiration, amount, Pending))
  }

  /** Inserting under a key that is not yet used adds exactly one lease and
      keeps every other one. */
  lemma InsertFreshLease(leases: map<LeaseId, LeaseCondition>, key: LeaseId, lease: LeaseCondition)
    requires key !in leases
    ensures |leases[key := lease]| == |leases| + 1
    ensures leases[key := lease].Keys == leases.Keys + {key}
    ensures forall k :: k in leases ==> leases[key := lease][k] == leases[k]
  {
    assert leases[key := lease].Keys == leases.Keys + {key};
  }

  /** The lease after `nft_on_transfer`: only its state changes, to Active. */
  function Activate(lease: LeaseCondition): (a: LeaseCondition)
    ensures a.state == Active
    ensures a.(state := lease.state) == lease
  {
    lease.(state := Active)
  }

  /** Activating twice gives the same record as activating once: nothing in
      `nft_on_transfer` rejects a lease that is already Active. */
  lemma ActivateIdempotent(leases: map<LeaseId, LeaseCondition>, id: LeaseId)
    requires id in leases
    ensures var once := leases[id := Activate(leases[id])];
            once[id := Activate(once[id])] == once
  {
  }

  /** The guards of `claim_back`, in the order they run; on success the lease
      being claimed. */
  function CheckClaimBack(leases: map<LeaseId, LeaseCondition>, serviceOwner: AccountId, env: Env, leaseId: LeaseId)
    : (r: Result<LeaseCondition>)
    ensures leaseId !in leases ==> r == Panic(UNWRAP_NONE)
    ensures leaseId in leases && leases[leaseId].expiration >= env.blockTimestamp ==> r == Panic(NOT_EXPIRED)
    ensures leaseId in leases && leases[leaseId].expiration < env.blockTimestamp && leases[leaseId].state != Active
            ==> r == Panic(NOT_ACTIVE)
    ensures leaseId in leases && leases[leaseId].expiration < env.blockTimestamp && leases[leaseId].state == Active
            && env.predecessorAccountId != leases[leaseId].ownerId && env.predecessorAccountId != serviceOwner
            ==> r == Panic(NOT_LENDER)
    ensures r.Ok? <==> leaseId in leases && leases[leaseId].expiration < env.blockTimestamp
                       && leases[leaseId].state == Active
                       && env.predecessorAccountId in {leases[leaseId].ownerId, serviceOwner}
    ensures r.Ok? ==> r.value == leases[leaseId]
  {
    if leaseId !in leases then Panic(UNWRAP_NONE)
    else
      var lease := leases[leaseId];
      if !(lease.expiration < env.blockTimestamp) then Panic(NOT_EXPIRED)
      else if lease.state != Active then Panic(NOT_ACTIVE)
      else if !(lease.ownerId == env.predecessorAccountId || serviceOwner == env.predecessorAccountId) then Panic(NOT_LENDER)
      else Ok(lease)
  }

  /** Once a claim-back has deleted its lease, claiming it again panics. */
  lemma ClaimBackOnce(leases: map<LeaseId, LeaseCondition>, serviceOwner: AccountId, env: Env, env': Env, leaseId: LeaseId)
    requires CheckClaimBack(leases, serviceOwner, env, leaseId).Ok?
    ensures leaseId in leases
    ensures CheckClaimBack(leases - {leaseId}, serviceOwner, env', leaseId) == Panic(UNWRAP_NONE)
  {
  }

  /** The party a query filters on. */
  datatype Party = Lender | Borrower

  function PartyOf(lease: LeaseCondition, party: Party): AccountId
  {
    if party == Lender then lease.ownerId else lease.borrower
  }

  /** The entries of `leases`, visited in the order `keys`, whose `party` is
      `account`: what `leases_by_owner` and `leases_by_borrower` collect. */
  function Select(keys: seq<LeaseId>, leases: map<LeaseId, LeaseCondition>, party: Party, account: AccountId)
    : (r: seq<(LeaseId, LeaseCondition)>)
    requires forall k :: k in keys ==> k in leases
    ensures |r| <= |keys|
    ensures forall e :: e in r ==> e.0 in keys && e.1 == leases[e.0] && PartyOf(e.1, party) == account
    decreases |keys|
  {
    if keys == [] then []
    else
      var last := keys[|keys| - 1];
      var rest := Select(keys[..|keys| - 1], leases, party, account);
      if PartyOf(leases[last], party) == account then rest + [(last, leases[last])] else rest
  }

  /** A selected entry is a lease of `account` exactly as stored, and every
      lease of `account` is selected. */
  lemma {:induction false} SelectExactly(keys: seq<LeaseId>, leases: map<LeaseId, LeaseCondition>, party: Party, account: AccountId)
    requires forall k :: k in keys ==> k in leases
    ensures forall e :: e in Select(keys, leases, party, account) ==>
              e.0 in keys && e.1 == leases[e.0] && PartyOf(e.1, party) == account
    ensures forall k :: k in keys && PartyOf(leases[k], party) == account ==>
              (k, leases[k]) in Select(keys, leases, party, account)
    decreases |keys|
  {
    if keys != [] {
      var init := keys[..|keys| - 1];
      SelectExactly(init, leases, party, account);
      assert forall k :: k in keys ==> k in init || k == keys[|keys| - 1];
    }
  }

  /** The lease map after `internal_update_active_lease_lender` moved the
      lease `leaseId` to lender `to`. */
  function UpdateActiveLeaseLender(leases: map<LeaseId, LeaseCondition>, leaseId: LeaseId, to: AccountId)
    : (m: map<LeaseId, LeaseCondition>)
    requires leaseId in leases
    ensures m.Keys == leases.Keys
    ensures m[leaseId].ownerId == to && m[leaseId].(ownerId := leases[leaseId].ownerId) == leases[leaseId]
    ensures forall k :: k in leases && k != leaseId ==> m[k] == leases[k]
  {
    leases[leaseId := leases[leaseId].(ownerId := to)]
  }

  /** `nft_resolve_transfer` on the lease map, looking the lease up under
      `leaseKey`: the value returned and the new map. */
  function ResolveTransfer(leases: map<LeaseId, LeaseCondition>, leaseKey: LeaseId,
                           previousOwnerId: AccountId, receiverId: AccountId, result: PromiseResult<bool>)
    : (r: Result<(bool, map<LeaseId, LeaseCondition>)>)
    ensures r.Panic? <==> result.NotReady?
    ensures r.Ok? && r.value.0 ==> r.value.1 == leases
    ensures r.Ok? ==> (!r.value.0 <==> ShouldRevert(result) == Ok(true) && leaseKey in leases
                                        && leases[leaseKey].ownerId == receiverId)
    ensures r.Ok? && !r.value.0 ==> leaseKey in leases && r.value.1 == UpdateActiveLeaseLender(leases, leaseKey, previousOwnerId)
  {
    match ShouldRevert(result)
    case Panic(reason) => Panic(reason)
    case Ok(shouldRevert) =>
      if !shouldRevert then Ok((true, leases))
      else if leaseKey !in leases then Ok((true, leases))
      else if leases[leaseKey].ownerId != receiverId then Ok((true, leases))
      else Ok((false, UpdateActiveLeaseLender(leases, leaseKey, previousOwnerId)))
  }

  /** A rollback returns the lease to the lender it had before a transfer to
      `receiverId`: after a forward move to the receiver, a revert request
      restores the original record. */
  lemma ResolveRestoresLender(leases: map<LeaseId, LeaseCondition>, leaseId: LeaseId, receiverId: AccountId, result: PromiseResult<bool>)
    requires leaseId in leases
    requires ShouldRevert(result) == Ok(true)
    ensures var moved := UpdateActiveLeaseLender(leases, leaseId, receiverId);
            ResolveTransfer(moved, leaseId, leases[leaseId].ownerId, receiverId, result) == Ok((false, leases))
  {
    var moved := UpdateActiveLeaseLender(leases, leaseId, receiverId);
    var back := UpdateActiveLeaseLender(moved, leaseId, leases[leaseId].ownerId);
    assert back == leases;
  }

  /** The ownership token of lease `leaseId` is named with a suffix, so the
      lease map (keyed by lease ids) has no entry under the token id whenever
      no lease id ends in that suffix: looking the lease up by the token id,
      as `nft_resolve_transfer` does, reports a revert request as "nothing to
      revert", while looking it up by the lease id rolls the lender back. */
  lemma ResolveByTokenIdMissesLease(leaseId: LeaseId, lease: LeaseCondition, previousOwnerId: AccountId)
    ensures var leases := map[leaseId := lease];
            var tokenId := LeaseIdToLeaseTokenId(leaseId);
            && ResolveTransfer(leases, tokenId, previousOwnerId, lease.ownerId, Failed) == Ok((true, leases))
            && ResolveTransfer(leases, LeaseTokenIdToLeaseId(tokenId), previousOwnerId, lease.ownerId, Failed)
               == Ok((false, map[leaseId := lease.(ownerId := previousOwnerId)]))
  {
    var tokenId := LeaseIdToLeaseTokenId(leaseId);
    assert |tokenId| == |leaseId| + |LEASE_TOKEN_SUFFIX|;
    assert tokenId != leaseId;
    var leases := map[leaseId := lease];
    assert LeaseTokenIdToLeaseId(tokenId) == leaseId;
    assert UpdateActiveLeaseLender(leases, leaseId, previousOwnerId) == map[leaseId := lease.(ownerId := previousOwnerId)];
  }

  // ---------------------------------------------------------------------
  // The contract state and its methods.

  class Contract {
    /** The service owner. */
    var owner: AccountId
    /** `lease_map`, an `UnorderedMap`: the records ... */
    var leaseMap: map<LeaseId, LeaseCondition>
    /** ... and the order its iterator visits them in. */
    var leaseKeys: seq<LeaseId>
    /** `active_lease_ids`, read by `nft_token`. */
    var activeLeaseIds: set<LeaseId>
    /** `tokens_by_id` and `token_metadata_by_id`, written by `nft_mint`. */
    var tokensById: map<TokenId, Token>
    var tokenMetadataById: map<TokenId, TokenMetadata>

    /** The iteration order lists every key of `lease_map` exactly once. */
    ghost predicate Valid()
      reads this
    {
      && (forall i, j :: 0 <= i < j < |leaseKeys| ==> leaseKeys[i] != leaseKeys[j])
      && (forall k :: k in leaseMap <==> k in leaseKeys)
    }

    /** `Contract::new`. */
    constructor (ownerId: AccountId)
      ensures Valid()
      ensures owner == ownerId && leaseMap == map[] && leaseKeys == []
      ensures activeLeaseIds == {} && tokensById == map[] && tokenMetadataById == map[]
    {
      owner := ownerId;
      leaseMap := map[];
      leaseKeys := [];
      activeLeaseIds := {};
      tokensById := map[];
      tokenMetadataById := map[];
    }

    /** `UnorderedMap::insert`: a new key goes to the end of the iteration
        order, an existing key keeps its place. */
    method InsertLease(key: LeaseId, lease: LeaseCondition)
      requires Valid()
      modifies this
      ensures Valid()
      ensures leaseMap == old(leaseMap)[key := lease]
      ensures leaseKeys == if key in old(leaseMap) then old(leaseKeys) else old(leaseKeys) + [key]
      ensures owner == old(owner) && activeLeaseIds == old(activeLeaseIds)
      ensures tokensById == old(tokensById) && tokenMetadataById == old(tokenMetadataById)
    {
      if key !in leaseMap {
        leaseKeys := leaseKeys + [key];
      }
      leaseMap := leaseMap[key := lease];
    }

    /** `UnorderedMap::remove`: the last key of the iteration order takes the
        place of the removed one. */
    method RemoveLease(key: LeaseId)
      requires Valid() && key in leaseMap
      modifies this
      ensures Valid()
      ensures leaseMap == old(leaseMap) - {key}
      ensures leaseKeys == SwapRemove(old(leaseKeys), IndexOf(old(leaseKeys), key))
      ensures owner == old(owner) && activeLeaseIds == old(activeLeaseIds)
      ensures tokensById == old(tokensById) && tokenMetadataById == old(tokenMetadataById)
    {
      var i := IndexOf(leaseKeys, key);
      var keys := SwapRemove(leaseKeys, i);
      forall k ensures k in keys <==> k in leaseKeys && k != key {
        SwapRemoveContents(leaseKeys, i, k);
      }
      leaseKeys := keys;
      leaseMap := leaseMap - {key};
    }

    /** `lending_accept`: the borrower accepts a pending lease by asking the
        NFT contract to transfer the token to this contract, with the lease
        id in the message. The lease map is not touched. */
    method LendingAccept(env: Env, leaseId: LeaseId) returns (r: Result<seq<Request>>)
      requires Valid()
      ensures leaseId !in leaseMap ==> r == Panic(UNWRAP_NONE)
      ensures leaseId in leaseMap && leaseMap[leaseId].borrower != env.predecessorAccountId
              ==> r == Panic(BORROWER_MISMATCH)
      ensures (leaseId in leaseMap && leaseMap[leaseId].borrower == env.predecessorAccountId
               && env.attachedDeposit < leaseMap[leaseId].amountNear) ==> r == Panic(DEPOSIT_TOO_LOW)
      ensures r.Ok? <==> leaseId in leaseMap && leaseMap[leaseId].borrower == env.predecessorAccountId
                         && env.attachedDeposit >= leaseMap[leaseId].amountNear
      ensures r.Ok? ==> r.value == [Request.NftTransferCall(leaseMap[leaseId].contractAddr, env.currentAccountId,
                                                    leaseMap[leaseId].tokenId, None, None, LeaseIdMsg(leaseId), 1)]
    {
      if leaseId !in leaseMap {
        return Panic(UNWRAP_NONE);
      }
      var lease := leaseMap[leaseId];
      if lease.borrower != env.predecessorAccountId {
        return Panic(BORROWER_MISMATCH);
      }
      if env.attachedDeposit < lease.amountNear {
        return Panic(DEPOSIT_TOO_LOW);
      }
      r := Ok([Request.NftTransferCall(lease.contractAddr, env.currentAccountId, lease.tokenId, None, None, LeaseIdMsg(leaseId), 1)]);
    }

    /** The loop shared by `leases_by_owner` and `leases_by_borrower`. */
    method CollectLeases(party: Party, accountId: AccountId) returns (results: seq<(LeaseId, LeaseCondition)>)
      requires Valid()
      ensures results == Select(leaseKeys, leaseMap, party, accountId)
    {
      results := [];
      for i := 0 to |leaseKeys|
        invariant results == Select(leaseKeys[..i], leaseMap, party, accountId)
      {
        var key := leaseKeys[i];
        assert leaseKeys[..i + 1][..i] == leaseKeys[..i];
        var lease := leaseMap[key];
        if PartyOf(lease, party) == accountId {
          results := results + [(key, lease)];
        }
      }
      assert leaseKeys[..|leaseKeys|] == leaseKeys;
    }

    /** `leases_by_owner`: the leases lent by `accountId`, in iteration order. */
    method LeasesByOwner(accountId: AccountId) returns (results: seq<(LeaseId, LeaseCondition)>)
      requires Valid()
      ensures results == Select(leaseKeys, leaseMap, Lender, accountId)
      ensures forall e :: e in results ==> e.0 in leaseMap && e.1 == leaseMap[e.0] && e.1.ownerId == accountId
      ensures forall k :: k in leaseMap && leaseMap[k].ownerId == accountId ==> (k, leaseMap[k]) in results
    {
      results := CollectLeases(Lender, accountId);
      SelectExactly(leaseKeys, leaseMap, Lender, accountId);
    }

    /** `leases_by_borrower`: the leases borrowed by `accountId`, in iteration order. */
    method LeasesByBorrower(accountId: AccountId) returns (results: seq<(LeaseId, LeaseCondition)>)
      requires Valid()
      ensures results == Select(leaseKeys, leaseMap, Borrower, accountId)
      ensures forall e :: e in results ==> e.0 in leaseMap && e.1 == leaseMap[e.0] && e.1.borrower == accountId
      ensures forall k :: k in leaseMap && leaseMap[k].borrower == accountId ==> (k, leaseMap[k]) in results
    {
      results := CollectLeases(Borrower, accountId);
      SelectExactly(leaseKeys, leaseMap, Borrower, accountId);
    }

    /** `claim_back`: after expiry the lender or the service owner takes the
        NFT and the rent back; the lease record is deleted. */
    method ClaimBack(env: Env, leaseId: LeaseId) returns (r: Result<seq<Request>>)
      requires Valid()
      modifies this
      ensures Valid()
      ensures r.Ok? <==> CheckClaimBack(old(leaseMap), owner, env, leaseId).Ok?
      ensures r.Panic? ==> r.reason == CheckClaimBack(old(leaseMap), owner, env, leaseId).reason
      ensures r.Panic? ==> leaseMap == old(leaseMap) && leaseKeys == old(leaseKeys)
      ensures r.Ok? ==> var lease := old(leaseMap)[leaseId];
                        && r.value == [NearTransfer(lease.ownerId, lease.amountNear),
                                       Request.NftTransfer(lease.contractAddr, lease.ownerId, lease.tokenId, None, None, 1)]
                        && leaseMap == old(leaseMap) - {leaseId}
                        && leaseKeys == SwapRemove(old(leaseKeys), IndexOf(old(leaseKeys), leaseId))
      ensures owner == old(owner) && activeLeaseIds == old(activeLeaseIds)
      ensures tokensById == old(tokensById) && tokenMetadataById == old(tokenMetadataById)
    {
      var check := CheckClaimBack(leaseMap, owner, env, leaseId);
      if check.Panic? {
        return Panic(check.reason);
      }
      var lease := check.value;
      var requests := [NearTransfer(lease.ownerId, lease.amountNear),
                       Request.NftTransfer(lease.contractAddr, lease.ownerId, lease.tokenId, None, None, 1)];
      RemoveLease(leaseId);
      r := Ok(requests);
    }

    /** `get_borrower`: the borrower of the first lease, in iteration order,
        of NFT `tokenId` on `contractId`. */
    method GetBorrower(contractId: AccountId, tokenId: TokenId) returns (r: Option<AccountId>)
      requires Valid()
      ensures r.None? <==> forall k :: k in leaseMap ==> !(leaseMap[k].contractAddr == contractId && leaseMap[k].tokenId == tokenId)
      ensures r.Some? ==> exists i :: (0 <= i < |leaseKeys|
                && leaseMap[leaseKeys[i]].contractAddr == contractId && leaseMap[leaseKeys[i]].tokenId == tokenId
                && leaseMap[leaseKeys[i]].borrower == r.value
                && forall j :: 0 <= j < i ==> !(leaseMap[leaseKeys[j]].contractAddr == contractId && leaseMap[leaseKeys[j]].tokenId == tokenId))
    {
      for i := 0 to |leaseKeys|
        invariant forall j :: 0 <= j < i ==> !(leaseMap[leaseKeys[j]].contractAddr == contractId && leaseMap[leaseKeys[j]].tokenId == tokenId)
      {
        var lease := leaseMap[leaseKeys[i]];
        if lease.contractAddr == contractId && lease.tokenId == tokenId {
          return Some(lease.borrower);
        }
      }
      forall k | k in leaseMap ensures !(leaseMap[k].contractAddr == contractId && leaseMap[k].tokenId == tokenId) {
        var j := IndexOf(leaseKeys, k);
      }
      r := None;
    }

    /** `proxy_func_calls`: forwards a call to the leased NFT's contract,
        except the two methods that would move the NFT or its approvals. */
    method ProxyFuncCalls(env: Env, contractId: AccountId, methodName: string, args: string) returns (r: Result<seq<Request>>)
      ensures r.Panic? <==> methodName == "nft_transfer" || methodName == "nft_approve"
      ensures r.Panic? ==> r.reason == METHOD_NOT_ACCESSIBLE
      ensures r.Ok? ==> r.value == [FunctionCall(contractId, methodName, args, env.attachedDeposit)]
    {
      if methodName == "nft_transfer" || methodName == "nft_approve" {
        return Panic(METHOD_NOT_ACCESSIBLE);
      }
      r := Ok([FunctionCall(contractId, methodName, args, env.attachedDeposit)]);
    }

    /** `nft_on_transfer`: the NFT contract reports that the token of lease
        `msg.lease_id` arrived, after a transfer this contract started. The
        lease becomes Active and the transfer is kept (false). */
    method NftOnTransfer(env: Env, senderId: AccountId, previousOwnerId: AccountId, tokenId: TokenId,
                         msg: Option<NftOnTransferJson>) returns (r: Result<bool>)
      requires Valid()
      modifies this
      ensures Valid()
      ensures senderId != env.currentAccountId ==> r == Panic(SENDER_NOT_SELF)
      ensures senderId == env.currentAccountId && msg.None? ==> r == Panic(BAD_TRANSFER_MSG)
      ensures senderId == env.currentAccountId && msg.Some? && msg.value.leaseId !in old(leaseMap) ==> r == Panic(UNWRAP_NONE)
      ensures r.Ok? <==> senderId == env.currentAccountId && msg.Some? && msg.value.leaseId in old(leaseMap)
      ensures r.Ok? ==> r.value == false
                        && leaseMap == old(leaseMap)[msg.value.leaseId := Activate(old(leaseMap)[msg.value.leaseId])]
      ensures r.Panic? ==> leaseMap == old(leaseMap)
      ensures leaseKeys == old(leaseKeys) && owner == old(owner) && activeLeaseIds == old(activeLeaseIds)
      ensures tokensById == old(tokensById) && tokenMetadataById == old(tokenMetadataById)
    {
      if senderId != env.currentAccountId {
        return Panic(SENDER_NOT_SELF);
      }
      if msg.None? {
        return Panic(BAD_TRANSFER_MSG);
      }
      var leaseId := msg.value.leaseId;
      if leaseId !in leaseMap {
        return Panic(UNWRAP_NONE);
      }
      InsertLease(leaseId, Activate(leaseMap[leaseId]));
      r := Ok(false);
    }

    /** `nft_on_approve` of the rental contract: the owner approved this
        contract for an NFT, and the message describes the lease. `key` is
        the bs58 text of the block's random seed. */
    method NftOnApprove(tokenId: TokenId, ownerId: AccountId, approvalId: U64, msg: Option<LeaseJson>, key: LeaseId)
      returns (r: Result<()>)
      requires Valid()
      modifies this
      ensures Valid()
      ensures r.Ok? <==> LeaseFromApproval(tokenId, ownerId, approvalId, msg).Ok?
      ensures r.Panic? ==> r.reason == LeaseFromApproval(tokenId, ownerId, approvalId, msg).reason
                           && leaseMap == old(leaseMap) && leaseKeys == old(leaseKeys)
      ensures r.Ok? ==> leaseMap == old(leaseMap)[key := LeaseFromApproval(tokenId, ownerId, approvalId, msg).value]
      ensures r.Ok? && key !in old(leaseMap) ==> leaseKeys == old(leaseKeys) + [key]
      ensures r.Ok? && key in old(leaseMap) ==> leaseKeys == old(leaseKeys)
      ensures owner == old(owner) && activeLeaseIds == old(activeLeaseIds)
      ensures tokensById == old(tokensById) && tokenMetadataById == old(tokenMetadataById)
    {
      var built := LeaseFromApproval(tokenId, ownerId, approvalId, msg);
      if built.Panic? {
        return Panic(built.reason);
      }
      InsertLease(key, built.value);
      r := Ok(());
    }

    // -------------------------------------------------------------------
    // Lease-ownership token (contract/src/nft/core.rs, contract/src/nft/mint.rs).

    /** `nft_transfer`: one yoctoNEAR must be attached; the transfer itself,
        `internal_transfer`, is `todo!()` and panics. */
    method NftTransfer(env: Env, receiverId: AccountId, tokenId: TokenId, approvalId: Option<U64>, memo: Option<string>)
      returns (r: Result<()>)
      ensures r.Panic?
      ensures env.attachedDeposit != 1 ==> r.reason == ONE_YOCTO_REQUIRED
      ensures env.attachedDeposit == 1 ==> r.reason == NOT_IMPLEMENTED
    {
      var guard := AssertOneYocto(env);
      if guard.Panic? {
        return Panic(guard.reason);
      }
      r := Panic(NOT_IMPLEMENTED);
    }

    /** `nft_transfer_call`: the same guard, then the same unimplemented
        `internal_transfer`; the receiver call it would schedule is never reached. */
    method NftTransferCall(env: Env, receiverId: AccountId, tokenId: TokenId, approvalId: Option<U64>,
                           memo: Option<string>, msg: string) returns (r: Result<seq<Request>>)
      ensures r.Panic?
      ensures env.attachedDeposit != 1 ==> r.reason == ONE_YOCTO_REQUIRED
      ensures env.attachedDeposit == 1 ==> r.reason == NOT_IMPLEMENTED
    {
      var guard := AssertOneYocto(env);
      if guard.Panic? {
        return Panic(guard.reason);
      }
      r := Panic(NOT_IMPLEMENTED);
    }

    /** `nft_token`: the ownership token of an active lease, assembled from
        the lease record. */
    function NftToken(tokenId: TokenId): (r: Result<Option<Token>>)
      reads this
      ensures r == Ok(None) <==> LeaseTokenIdToLeaseId(tokenId) !in activeLeaseIds
      ensures r.Panic? <==> LeaseTokenIdToLeaseId(tokenId) in activeLeaseIds && LeaseTokenIdToLeaseId(tokenId) !in leaseMap
      ensures r.Ok? && r.value.Some? ==>
        var leaseId := LeaseTokenIdToLeaseId(tokenId);
        && leaseId in leaseMap
        && r.value.value.tokenId == tokenId
        && r.value.value.ownerId == leaseMap[leaseId].ownerId
        && r.value.value.metadata.Some?
        && r.value.value.metadata.value.title.Some?
        && r.value.value.metadata.value.description.Some?
    {
      var leaseId := LeaseTokenIdToLeaseId(tokenId);
      if leaseId in activeLeaseIds then
        if leaseId in leaseMap then
          var lease := leaseMap[leaseId];
          Ok(Some(Token(tokenId, lease.ownerId, Some(LeaseTokenMetadata(tokenId, leaseId, lease)))))
        else Panic(UNWRAP_NONE)
      else Ok(None)
    }

    /** The ownership token of an active lease, asked for by its derived id,
        names the lease's lender as owner. */
    lemma NftTokenOfActiveLease(leaseId: LeaseId)
      requires leaseId in activeLeaseIds && leaseId in leaseMap
      ensures var r := NftToken(LeaseIdToLeaseTokenId(leaseId));
              r.Ok? && r.value.Some? && r.value.value.tokenId == LeaseIdToLeaseTokenId(leaseId)
              && r.value.value.ownerId == leaseMap[leaseId].ownerId
    {
    }

    /** `nft_resolve_transfer` with the lease looked up by the lease id the
        token id is derived from. The method is not `#[payable]`: any deposit
        is refused before its body runs. */
    method NftResolveTransfer(env: Env, previousOwnerId: AccountId, receiverId: AccountId, tokenId: TokenId,
                              result: PromiseResult<bool>) returns (r: Result<bool>)
      requires Valid()
      modifies this
      ensures Valid()
      ensures env.attachedDeposit != 0 ==> r == Panic(NotPayableMessage("nft_resolve_transfer")) && leaseMap == old(leaseMap)
      ensures env.attachedDeposit == 0 ==>
              var expected := ResolveTransfer(old(leaseMap), LeaseTokenIdToLeaseId(tokenId), previousOwnerId, receiverId, result);
              && (r.Panic? <==> expected.Panic?)
              && (r.Ok? ==> r.value == expected.value.0 && leaseMap == expected.value.1)
              && (r.Panic? ==> leaseMap == old(leaseMap))
      ensures leaseKeys == old(leaseKeys) && owner == old(owner) && activeLeaseIds == old(activeLeaseIds)
      ensures tokensById == old(tokensById) && tokenMetadataById == old(tokenMetadataById)
    {
      var guard := AssertNotPayable(env, "nft_resolve_transfer");
      if guard.Panic? {
        return Panic(guard.reason);
      }
      r := ApplyResolve(LeaseTokenIdToLeaseId(tokenId), previousOwnerId, receiverId, result);
    }

    /** `nft_resolve_transfer` as written: the same deposit check, then the
        lease map is looked up under the token id itself. */
    method NftResolveTransferAsWritten(env: Env, previousOwnerId: AccountId, receiverId: AccountId, tokenId: TokenId,
                                       result: PromiseResult<bool>) returns (r: Result<bool>)
      requires Valid()
      modifies this
      ensures Valid()
      ensures env.attachedDeposit != 0 ==> r == Panic(NotPayableMessage("nft_resolve_transfer")) && leaseMap == old(leaseMap)
      ensures env.attachedDeposit == 0 ==>
              var expected := ResolveTransfer(old(leaseMap), tokenId, previousOwnerId, receiverId, result);
              && (r.Panic? <==> expected.Panic?)
              && (r.Ok? ==> r.value == expected.value.0 && leaseMap == expected.value.1)
              && (r.Panic? ==> leaseMap == old(leaseMap))
      ensures leaseKeys == old(leaseKeys) && owner == old(owner) && activeLeaseIds == old(activeLeaseIds)
      ensures tokensById == old(tokensById) && tokenMetadataById == old(tokenMetadataById)
    {
      var guard := AssertNotPayable(env, "nft_resolve_transfer");
      if guard.Panic? {
        return Panic(guard.reason);
      }
      r := ApplyResolve(tokenId, previousOwnerId, receiverId, result);
    }

    /** Carries out `ResolveTransfer` on the lease map. */
    method ApplyResolve(leaseKey: LeaseId, previousOwnerId: AccountId, receiverId: AccountId,
                        result: PromiseResult<bool>) returns (r: Result<bool>)
      requires Valid()
      modifies this
      ensures Valid()
      ensures var expected := ResolveTransfer(old(leaseMap), leaseKey, previousOwnerId, receiverId, result);
              && (r.Panic? <==> expected.Panic?)
              && (r.Ok? ==> r.value == expected.value.0 && leaseMap == expected.value.1)
              && (r.Panic? ==> leaseMap == old(leaseMap))
      ensures leaseKeys == old(leaseKeys) && owner == old(owner) && activeLeaseIds == old(activeLeaseIds)
      ensures tokensById == old(tokensById) && tokenMetadataById == old(tokenMetadataById)
    {
      var outcome := ResolveTransfer(leaseMap, leaseKey, previousOwnerId, receiverId, result);
      if outcome.Panic? {
        return Panic(outcome.reason);
      }
      if !outcome.value.0 {
        InsertLease(leaseKey, outcome.value.1[leaseKey]);
        assert leaseMap == outcome.value.1;
      }
      r := Ok(outcome.value.0);
    }

    /** `nft_mint`: records a new token and its metadata; an id already in
        `tokens_by_id` panics. No lease record changes. */
    method NftMint(tokenId: TokenId, metadata: TokenMetadata, receiverId: AccountId) returns (r: Result<()>)
      modifies this
      ensures r.Panic? <==> tokenId in old(tokensById)
      ensures r.Panic? ==> r.reason == TOKEN_EXISTS
                           && tokensById == old(tokensById) && tokenMetadataById == old(tokenMetadataById)
      ensures r.Ok? ==> tokensById == old(tokensById)[tokenId := Token(tokenId, receiverId, None)]
                        && tokenMetadataById == old(tokenMetadataById)[tokenId := metadata]
      ensures leaseMap == old(leaseMap) && leaseKeys == old(leaseKeys)
      ensures owner == old(owner) && activeLeaseIds == old(activeLeaseIds)
    {
      if tokenId in tokensById {
        return Panic(TOKEN_EXISTS);
      }
      tokensById := tokensById[tokenId := Token(tokenId, receiverId, None)];
      tokenMetadataById := tokenMetadataById[tokenId := metadata];
      r := Ok(());
    }
  }

  // ---------------------------------------------------------------------
  // UnorderedMap's key vector.

  /** The position of `k` in `keys`. */
  function IndexOf(keys: seq<LeaseId>, k: LeaseId): (i: nat)
    requires k in keys
    ensures i < |keys| && keys[i] == k
    ensures forall j :: 0 <= j < i ==> keys[j] != k
  {
    if keys[0] == k then 0 else 1 + IndexOf(keys[1..], k)
  }

  /** `Vector::swap_remove`: the last element moves into position `i`. */
  function SwapRemove(keys: seq<LeaseId>, i: nat): (r: seq<LeaseId>)
    requires i < |keys|
    ensures |r| == |keys| - 1
    ensures forall j :: 0 <= j < |r| ==> r[j] == if j == i then keys[|keys| - 1] else keys[j]
  {
    keys[i := keys[|keys| - 1]][..|keys| - 1]
  }

  /** Removing position `i` from a list without repetitions removes exactly
      the element there and keeps the list free of repetitions. */
  lemma SwapRemoveContents(keys: seq<LeaseId>, i: nat, k: LeaseId)
    requires i < |keys|
    requires forall a, b :: 0 <= a < b < |keys| ==> keys[a] != keys[b]
    ensures k in SwapRemove(keys, i) <==> k in keys && k != keys[i]
    ensures forall a, b :: 0 <= a < b < |SwapRemove(keys, i)| ==> SwapRemove(keys, i)[a] != SwapRemove(keys, i)[b]
  {
    var r := SwapRemove(keys, i);
    if k in keys && k != keys[i] {
      var j :| 0 <= j < |keys| && keys[j] == k;
      if j == |keys| - 1 {
        assert r[i] == k;
      } else {
        assert r[j] == k;
      }
    }
  }
}
