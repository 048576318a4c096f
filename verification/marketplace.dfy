/** The marketplace contract (marketplace/src/lib.rs, nft_callbacks.rs,
    ft_callbacks.rs): listings of NFTs offered for lease, keyed by the NFT
    they offer, with an index by owner and an index by NFT contract, and the
    allow-lists of NFT and FT contracts an admin maintains.

    A panic aborts the whole receipt, so a method that returns `Panic` leaves
    every field as it was. */
module Marketplace {
  import opened Near

  /** `ListingId`: the NFT contract and the token on it. */
  type ListingId = (AccountId, TokenId)

  datatype Listing = Listing(
    ownerId: AccountId,
    approvalId: U64,
    nftContractId: AccountId,
    nftTokenId: TokenId,
    ftContractId: AccountId,
    price: U128,
    leaseStartTime: U64,
    leaseEndTime: U64)

  /** `ListingJson`, the message of `nft_on_approve`. */
  datatype ListingJson = ListingJson(ftContractId: AccountId, price: U128, leaseStartTsNano: U64, leaseEndTsNano: U64)

  /** `LeaseAcceptanceJson`, the message of `ft_on_transfer`. */
  datatype LeaseAcceptanceJson = LeaseAcceptanceJson(nftContractId: AccountId, nftTokenId: TokenId)

  const NOT_OWNER := "Owner must be predecessor"
  const NOT_VIA_XCC := "nft_on_approve should only be called via XCC"
  const OWNER_NOT_SIGNER := "owner_id should be signer_id"
  const NFT_NOT_ALLOWED := "nft_contract_id is not allowed!"
  const BAD_LISTING_JSON := "Invalid Listing Json!"
  const FT_NOT_ALLOWED := "ft_contract_id is not allowed!"
  const BAD_ACCEPTANCE_JSON := "Invalid lease listing"
  const WRONG_FT := "Wrong FT contract id!"
  const WRONG_AMOUNT := "Transferred amount doesn't match the asked rent!"

  /** The accounts named in a list. */
  function Elems(accounts: seq<AccountId>): set<AccountId>
  {
    set a | a in accounts
  }

  /** `insert_accounts`: adds every id of the list to the set. */
  method InsertAccounts(accounts: seq<AccountId>, s: set<AccountId>) returns (t: set<AccountId>)
    ensures forall a :: a in t <==> a in s || a in accounts
    ensures Elems(accounts) <= s ==> t == s
  {
    t := s;
    for i := 0 to |accounts|
      invariant t == s + set j | 0 <= j < i :: accounts[j]
    {
      t := t + {accounts[i]};
    }
  }

  /** `remove_accounts`: takes every id of the list out of the set. */
  method RemoveAccounts(accounts: seq<AccountId>, s: set<AccountId>) returns (t: set<AccountId>)
    ensures forall a :: a in t <==> a in s && a !in accounts
  {
    t := s;
    for i := 0 to |accounts|
      invariant t == s - set j | 0 <= j < i :: accounts[j]
    {
      t := t - {accounts[i]};
    }
  }

  /** One step of an index `LookupMap<AccountId, UnorderedSet<ListingId>>`:
      fetch the set of `account` (a new empty set when absent), add `id`,
      store the set back. */
  function IndexInsert(index: map<AccountId, set<ListingId>>, account: AccountId, id: ListingId)
    : (r: map<AccountId, set<ListingId>>)
    ensures r.Keys == index.Keys + {account}
    ensures account in index ==> r[account] == index[account] + {id}
    ensures account !in index ==> r[account] == {id}
    ensures forall a :: a in index && a != account ==> r[a] == index[a]
  {
    var current := if account in index then index[account] else {};
    index[account := current + {id}]
  }

  /** The admin guards of `set_treasury`: the `#[near_bindgen]` deposit check
      when the method is not `#[payable]`, then `assert_one_yocto`, then
      `assert_owner`. */
  function TreasuryGuards(env: Env, owner: AccountId, payable: bool): (r: Result<()>)
    ensures r.Ok? <==> (payable || env.attachedDeposit == 0) && env.attachedDeposit == 1
                       && env.predecessorAccountId == owner
  {
    if !payable && env.attachedDeposit != 0 then AssertNotPayable(env, "set_treasury")
    else if AssertOneYocto(env).Panic? then AssertOneYocto(env)
    else if env.predecessorAccountId != owner then Panic(NOT_OWNER)
    else Ok(())
  }

  /** `set_treasury` as declared is not `#[payable]`, so any deposit is
      refused before its body runs, and its body refuses any deposit other
      than one yoctoNEAR: no call gets through. */
  lemma SetTreasuryAlwaysPanics(env: Env, owner: AccountId)
    ensures TreasuryGuards(env, owner, false).Panic?
    ensures env.attachedDeposit == 0 ==> TreasuryGuards(env, owner, false) == Panic(ONE_YOCTO_REQUIRED)
    ensures env.attachedDeposit != 0 ==> TreasuryGuards(env, owner, false) == Panic(NotPayableMessage("set_treasury"))
  {
  }

  /** The marketplace's storage invariant: every listing is stored under its
      own NFT, and both indices lead to it. */
  ghost predicate Indexed(listings: map<ListingId, Listing>, byOwner: map<AccountId, set<ListingId>>,
                          byNftContract: map<AccountId, set<ListingId>>)
  {
    && (forall id :: id in listings ==> listings[id].nftContractId == id.0 && listings[id].nftTokenId == id.1)
    && (forall id :: id in listings ==> listings[id].ownerId in byOwner && id in byOwner[listings[id].ownerId])
    && (forall id :: id in listings ==> id.0 in byNftContract && id in byNftContract[id.0])
  }

  /** Storing a listing under its own NFT and indexing it keeps the invariant. */
  lemma InsertKeepsIndexed(listings: map<ListingId, Listing>, byOwner: map<AccountId, set<ListingId>>,
                           byNftContract: map<AccountId, set<ListingId>>, listing: Listing)
    requires Indexed(listings, byOwner, byNftContract)
    ensures var id := (listing.nftContractId, listing.nftTokenId);
            Indexed(listings[id := listing], IndexInsert(byOwner, listing.ownerId, id),
                    IndexInsert(byNftContract, listing.nftContractId, id))
  {
    var id := (listing.nftContractId, listing.nftTokenId);
    var l2, o2, n2 := listings[id := listing], IndexInsert(byOwner, listing.ownerId, id),
                      IndexInsert(byNftContract, listing.nftContractId, id);
    forall k | k in l2
      ensures l2[k].ownerId in o2 && k in o2[l2[k].ownerId]
      ensures k.0 in n2 && k in n2[k.0]
    {
      if k != id {
        assert l2[k] == listings[k];
      }
    }
  }

  class Contract {
    /** The admin account. */
    var ownerId: AccountId
    /** The account that will receive marketplace fees. */
    var treasuryId: AccountId
    var rentalContractId: AccountId
    var listings: map<ListingId, Listing>
    var allowedFtContractIds: set<AccountId>
    var allowedNftContractIds: set<AccountId>
    var listingsByOwnerId: map<AccountId, set<ListingId>>
    var listingsByNftContractId: map<AccountId, set<ListingId>>

    /** Every listing is stored under its own NFT, and both indices lead to it. */
    ghost predicate Valid()
      reads this
    {
      Indexed(listings, listingsByOwnerId, listingsByNftContractId)
    }

    /** `Contract::new`. */
    constructor (ownerId: AccountId, treasuryId: AccountId, rentalContractId: AccountId)
      ensures Valid()
      ensures this.ownerId == ownerId && this.treasuryId == treasuryId && this.rentalContractId == rentalContractId
      ensures listings == map[] && allowedFtContractIds == {} && allowedNftContractIds == {}
      ensures listingsByOwnerId == map[] && listingsByNftContractId == map[]
    {
      this.ownerId := ownerId;
      this.treasuryId := treasuryId;
      this.rentalContractId := rentalContractId;
      listings := map[];
      allowedFtContractIds := {};
      allowedNftContractIds := {};
      listingsByOwnerId := map[];
      listingsByNftContractId := map[];
    }

    /** Two listings of the same NFT are one listing. */
    lemma OneListingPerNft(a: ListingId, b: ListingId)
      requires Valid() && a in listings && b in listings
      requires listings[a].nftContractId == listings[b].nftContractId
      requires listings[a].nftTokenId == listings[b].nftTokenId
      ensures a == b
    {
    }

    /** `set_treasury`, with the method `#[payable]` so that its one-yocto
        confirmation can be attached: only `treasury_id` changes. */
    method SetTreasury(env: Env, treasuryId: AccountId) returns (r: Result<()>)
      requires Valid()
      modifies this
      ensures Valid()
      ensures r == TreasuryGuards(env, old(ownerId), true)
      ensures this.treasuryId == if r.Ok? then treasuryId else old(this.treasuryId)
      ensures ownerId == old(ownerId) && rentalContractId == old(rentalContractId) && listings == old(listings)
      ensures allowedFtContractIds == old(allowedFtContractIds) && allowedNftContractIds == old(allowedNftContractIds)
      ensures listingsByOwnerId == old(listingsByOwnerId) && listingsByNftContractId == old(listingsByNftContractId)
    {
      r := TreasuryGuards(env, ownerId, true);
      if r.Ok? {
        this.treasuryId := treasuryId;
      }
    }

    /** `add_approved_nft_contract_ids` (which updates `allowed_nft_contract_ids`): owner only. */
    method AddAllowedNftContractIds(env: Env, nftContractIds: seq<AccountId>) returns (r: Result<()>)
      requires Valid()
      modifies this
      ensures Valid()
      ensures r.Ok? <==> env.predecessorAccountId == ownerId
      ensures r.Panic? ==> r.reason == NOT_OWNER
      ensures allowedNftContractIds == if r.Ok? then old(allowedNftContractIds) + Elems(nftContractIds)
                                      else old(allowedNftContractIds)
      ensures ownerId == old(ownerId) && treasuryId == old(treasuryId) && rentalContractId == old(rentalContractId)
      ensures listings == old(listings) && allowedFtContractIds == old(allowedFtContractIds)
      ensures listingsByOwnerId == old(listingsByOwnerId) && listingsByNftContractId == old(listingsByNftContractId)
    {
      if env.predecessorAccountId != ownerId {
        return Panic(NOT_OWNER);
      }
      allowedNftContractIds := InsertAccounts(nftContractIds, allowedNftContractIds);
      r := Ok(());
    }

    /** `remove_approved_nft_contract_ids` (which updates `allowed_nft_contract_ids`): owner only. */
    method RemoveAllowedNftContractIds(env: Env, nftContractIds: seq<AccountId>) returns (r: Result<()>)
      requires Valid()
      modifies this
      ensures Valid()
      ensures r.Ok? <==> env.predecessorAccountId == ownerId
      ensures r.Panic? ==> r.reason == NOT_OWNER
      ensures allowedNftContractIds == if r.Ok? then old(allowedNftContractIds) - Elems(nftContractIds)
                                      else old(allowedNftContractIds)
      ensures ownerId == old(ownerId) && treasuryId == old(treasuryId) && rentalContractId == old(rentalContractId)
      ensures listings == old(listings) && allowedFtContractIds == old(allowedFtContractIds)
      ensures listingsByOwnerId == old(listingsByOwnerId) && listingsByNftContractId == old(listingsByNftContractId)
    {
      if env.predecessorAccountId != ownerId {
        return Panic(NOT_OWNER);
      }
      allowedNftContractIds := RemoveAccounts(nftContractIds, allowedNftContractIds);
      r := Ok(());
    }

    /** `add_approved_ft_contract_ids` (which updates `allowed_ft_contract_ids`): owner only. */
    method AddAllowedFtContractIds(env: Env, ftContractIds: seq<AccountId>) returns (r: Result<()>)
      requires Valid()
      modifies this
      ensures Valid()
      ensures r.Ok? <==> env.predecessorAccountId == ownerId
      ensures r.Panic? ==> r.reason == NOT_OWNER
      ensures allowedFtContractIds == if r.Ok? then old(allowedFtContractIds) + Elems(ftContractIds)
                                     else old(allowedFtContractIds)
      ensures ownerId == old(ownerId) && treasuryId == old(treasuryId) && rentalContractId == old(rentalContractId)
      ensures listings == old(listings) && allowedNftContractIds == old(allowedNftContractIds)
      ensures listingsByOwnerId == old(listingsByOwnerId) && listingsByNftContractId == old(listingsByNftContractId)
    {
      if env.predecessorAccountId != ownerId {
        return Panic(NOT_OWNER);
      }
      allowedFtContractIds := InsertAccounts(ftContractIds, allowedFtContractIds);
      r := Ok(());
    }

    /** `internal_insert_listing`: stores the listing under its NFT,
        replacing any listing of that NFT, and adds its id to the owner's and
        the NFT contract's index sets, creating them when absent. */
    method InternalInsertListing(ownerId: AccountId, approvalId: U64, nftContractId: AccountId, nftTokenId: TokenId,
                                 ftContractId: AccountId, price: U128, leaseStartTime: U64, leaseEndTime: U64)
      requires Valid()
      modifies this
      ensures Valid()
      ensures listings == old(listings)[(nftContractId, nftTokenId) :=
                Listing(ownerId, approvalId, nftContractId, nftTokenId, ftContractId, price, leaseStartTime, leaseEndTime)]
      ensures listingsByOwnerId == IndexInsert(old(listingsByOwnerId), ownerId, (nftContractId, nftTokenId))
      ensures listingsByNftContractId == IndexInsert(old(listingsByNftContractId), nftContractId, (nftContractId, nftTokenId))
      ensures this.ownerId == old(this.ownerId) && treasuryId == old(treasuryId) && rentalContractId == old(rentalContractId)
      ensures allowedFtContractIds == old(allowedFtContractIds) && allowedNftContractIds == old(allowedNftContractIds)
    {
      var listingId := (nftContractId, nftTokenId);
      listings := listings[listingId :=
        Listing(ownerId, approvalId, nftContractId, nftTokenId, ftContractId, price, leaseStartTime, leaseEndTime)];
      listingsByOwnerId := IndexInsert(listingsByOwnerId, ownerId, listingId);
      listingsByNftContractId := IndexInsert(listingsByNftContractId, nftContractId, listingId);
      InsertKeepsIndexed(old(listings), old(listingsByOwnerId), old(listingsByNftContractId), listings[listingId]);
    }

    /** The guard chain of `nft_on_approve`, in the order it runs; on success
        the parsed message. */
    function CheckApproval(env: Env, ownerId: AccountId, msg: Option<ListingJson>): (r: Result<ListingJson>)
      reads this
      ensures r.Ok? <==> && env.attachedDeposit == 0
                         && env.predecessorAccountId != env.currentAccountId
                         && ownerId == env.signerAccountId
                         && env.predecessorAccountId in allowedNftContractIds
                         && msg.Some?
                         && msg.value.ftContractId in allowedFtContractIds
      ensures r.Ok? ==> r.value == msg.value
      ensures env.attachedDeposit != 0 ==> r == Panic(NotPayableMessage("nft_on_approve"))
      ensures env.attachedDeposit == 0 && env.predecessorAccountId == env.currentAccountId ==> r == Panic(NOT_VIA_XCC)
      ensures (env.attachedDeposit == 0 && env.predecessorAccountId != env.currentAccountId
               && ownerId != env.signerAccountId) ==> r == Panic(OWNER_NOT_SIGNER)
      ensures (env.attachedDeposit == 0 && env.predecessorAccountId != env.currentAccountId
               && ownerId == env.signerAccountId && env.predecessorAccountId !in allowedNftContractIds)
              ==> r == Panic(NFT_NOT_ALLOWED)
      ensures (env.attachedDeposit == 0 && env.predecessorAccountId != env.currentAccountId
               && ownerId == env.signerAccountId && env.predecessorAccountId in allowedNftContractIds && msg.None?)
              ==> r == Panic(BAD_LISTING_JSON)
      ensures (env.attachedDeposit == 0 && env.predecessorAccountId != env.currentAccountId
               && ownerId == env.signerAccountId && env.predecessorAccountId in allowedNftContractIds && msg.Some?
               && msg.value.ftContractId !in allowedFtContractIds) ==> r == Panic(FT_NOT_ALLOWED)
    {
      if env.attachedDeposit != 0 then Panic(NotPayableMessage("nft_on_approve"))
      else if env.currentAccountId == env.predecessorAccountId then Panic(NOT_VIA_XCC)
      else if ownerId != env.signerAccountId then Panic(OWNER_NOT_SIGNER)
      else if env.predecessorAccountId !in allowedNftContractIds then Panic(NFT_NOT_ALLOWED)
      else if msg.None? then Panic(BAD_LISTING_JSON)
      else if msg.value.ftContractId !in allowedFtContractIds then Panic(FT_NOT_ALLOWED)
      else Ok(msg.value)
    }

    /** `nft_on_approve`: an NFT contract reports that `ownerId` approved this
        marketplace for `tokenId`; after every guard passes, the listing of
        that NFT is recorded with the terms of the message. */
    method NftOnApprove(env: Env, tokenId: TokenId, ownerId: AccountId, approvalId: U64, msg: Option<ListingJson>)
      returns (r: Result<()>)
      requires Valid()
      modifies this
      ensures Valid()
      ensures r.Ok? <==> old(CheckApproval(env, ownerId, msg)).Ok?
      ensures r.Panic? ==> r.reason == old(CheckApproval(env, ownerId, msg)).reason
      ensures r.Panic? ==> listings == old(listings) && listingsByOwnerId == old(listingsByOwnerId)
                           && listingsByNftContractId == old(listingsByNftContractId)
      ensures r.Ok? ==>
        var terms := msg.value;
        var listingId := (env.predecessorAccountId, tokenId);
        && listings == old(listings)[listingId := Listing(ownerId, approvalId, env.predecessorAccountId, tokenId,
                                                          terms.ftContractId, terms.price,
                                                          terms.leaseStartTsNano, terms.leaseEndTsNano)]
        && listingsByOwnerId == IndexInsert(old(listingsByOwnerId), ownerId, listingId)
        && listingsByNftContractId == IndexInsert(old(listingsByNftContractId), env.predecessorAccountId, listingId)
      ensures this.ownerId == old(this.ownerId) && treasuryId == old(treasuryId) && rentalContractId == old(rentalContractId)
      ensures allowedFtContractIds == old(allowedFtContractIds) && allowedNftContractIds == old(allowedNftContractIds)
    {
      var check := CheckApproval(env, ownerId, msg);
      if check.Panic? {
        return Panic(check.reason);
      }
      var terms := check.value;
      InternalInsertListing(ownerId, approvalId, env.predecessorAccountId, tokenId, terms.ftContractId,
                            terms.price, terms.leaseStartTsNano, terms.leaseEndTsNano);
      r := Ok(());
    }

    /** The checks `ft_on_transfer` makes of a rent payment, in order; on
        success the listing being paid for. */
    function CheckPayment(env: Env, amount: U128, msg: Option<LeaseAcceptanceJson>): (r: Result<Listing>)
      reads this
      ensures msg.None? ==> r == Panic(BAD_ACCEPTANCE_JSON)
      ensures msg.Some? && (msg.value.nftContractId, msg.value.nftTokenId) !in listings ==> r == Panic(UNWRAP_NONE)
      ensures r.Ok? <==> && msg.Some?
                         && (msg.value.nftContractId, msg.value.nftTokenId) in listings
                         && listings[(msg.value.nftContractId, msg.value.nftTokenId)].ftContractId == env.predecessorAccountId
                         && listings[(msg.value.nftContractId, msg.value.nftTokenId)].price == amount
      ensures r.Ok? ==> r.value == listings[(msg.value.nftContractId, msg.value.nftTokenId)]
      ensures (msg.Some? && (msg.value.nftContractId, msg.value.nftTokenId) in listings
               && listings[(msg.value.nftContractId, msg.value.nftTokenId)].ftContractId != env.predecessorAccountId)
              ==> r == Panic(WRONG_FT)
      ensures (msg.Some? && (msg.value.nftContractId, msg.value.nftTokenId) in listings
               && listings[(msg.value.nftContractId, msg.value.nftTokenId)].ftContractId == env.predecessorAccountId
               && listings[(msg.value.nftContractId, msg.value.nftTokenId)].price != amount)
              ==> r == Panic(WRONG_AMOUNT)
    {
      if msg.None? then Panic(BAD_ACCEPTANCE_JSON)
      else
        var listingId := (msg.value.nftContractId, msg.value.nftTokenId);
        if listingId !in listings then Panic(UNWRAP_NONE)
        else
          var listing := listings[listingId];
          if listing.ftContractId != env.predecessorAccountId then Panic(WRONG_FT)
          else if amount != listing.price then Panic(WRONG_AMOUNT)
          else Ok(listing)
    }

    /** `ft_on_transfer`: the payment checks, then the unimplemented rest
        (`todo!()`), so every call panics and no state is written. */
    function FtOnTransfer(env: Env, senderId: AccountId, amount: U128, msg: Option<LeaseAcceptanceJson>): (r: Result<U128>)
      reads this
      ensures r.Panic?
      ensures CheckPayment(env, amount, msg).Panic? ==> r.reason == CheckPayment(env, amount, msg).reason
      ensures CheckPayment(env, amount, msg).Ok? ==> r.reason == NOT_IMPLEMENTED
    {
      match CheckPayment(env, amount, msg)
      case Panic(reason) => Panic(reason)
      case Ok(_) => Panic(NOT_IMPLEMENTED)
    }
  }
}
