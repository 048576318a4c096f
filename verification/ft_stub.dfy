/** The fungible-token test double (integration-tests/stubs/ft/src/lib.rs): a
    NEP-141 ledger of balances with `ft_transfer`, `ft_transfer_call` and the
    refund step `ft_resolve_transfer`. The refund is stated for a run of this
    ledger's own `ft_resolve_transfer`; which account `ft_transfer_call` sends
    that callback to is recorded in its request list.

    The balance arithmetic is stated on values first (`Withdraw`, `Deposit`,
    `Transfer`, `ResolveTransfer`) and the contract's methods are proved
    against those functions. */
module FtStub {
  import opened Near

  type Balances = map<AccountId, U128>

  /** The calls `ft_transfer_call` schedules: the receiver hook, then the
      resolver it chains behind it. */
  datatype FtRequest =
    | FtOnTransferCall(contract: AccountId, senderId: AccountId, amount: U128, msg: string)
    | FtResolveTransferCall(contract: AccountId, senderId: AccountId, receiverId: AccountId, amount: U128)

  const UNREACHABLE := "internal error: entered unreachable code"
  const ADD_OVERFLOW := "attempt to add with overflow"

  /** `ft_balance_of`'s reading of a ledger: 0 for an unknown account. */
  function BalanceOf(accounts: Balances, accountId: AccountId): (b: U128)
    ensures accountId !in accounts ==> b == 0
    ensures accountId in accounts ==> b == accounts[accountId]
  {
    if accountId in accounts then accounts[accountId] else 0
  }

  /** `internal_withdraw`: the account must be registered and hold at least
      `amount`; both failures are an `unwrap` of `None`. */
  function Withdraw(accounts: Balances, accountId: AccountId, amount: U128): (r: Result<Balances>)
    ensures r.Ok? <==> accountId in accounts && amount <= accounts[accountId]
    ensures r.Panic? ==> r.reason == UNWRAP_NONE
    ensures r.Ok? ==> r.value.Keys == accounts.Keys && r.value[accountId] + amount == accounts[accountId]
    ensures r.Ok? ==> forall a :: a in accounts && a != accountId ==> r.value[a] == accounts[a]
  {
    if accountId !in accounts then Panic(UNWRAP_NONE)
    else match CheckedSub(accounts[accountId], amount)
      case None => Panic(UNWRAP_NONE)
      case Some(b) => Ok(accounts[accountId := b])
  }

  /** `internal_deposit`: the account must be registered and the new balance
      must fit in a u128. */
  function Deposit(accounts: Balances, accountId: AccountId, amount: U128): (r: Result<Balances>)
    ensures r.Ok? <==> accountId in accounts && accounts[accountId] + amount <= U128_MAX
    ensures r.Panic? ==> r.reason == UNWRAP_NONE
    ensures r.Ok? ==> r.value.Keys == accounts.Keys && r.value[accountId] == accounts[accountId] + amount
    ensures r.Ok? ==> forall a :: a in accounts && a != accountId ==> r.value[a] == accounts[a]
  {
    if accountId !in accounts then Panic(UNWRAP_NONE)
    else match CheckedAdd(accounts[accountId], amount)
      case None => Panic(UNWRAP_NONE)
      case Some(b) => Ok(accounts[accountId := b])
  }

  /** `internal_transfer`: withdraw from the sender, then deposit to the
      receiver; a failure of either aborts the whole call. */
  function Transfer(accounts: Balances, senderId: AccountId, receiverId: AccountId, amount: U128): (r: Result<Balances>)
    ensures r.Ok? ==> r.value.Keys == accounts.Keys
    ensures r.Ok? ==> forall a :: a in accounts && a != senderId && a != receiverId ==> r.value[a] == accounts[a]
  {
    match Withdraw(accounts, senderId, amount)
    case Panic(reason) => Panic(reason)
    case Ok(afterWithdraw) => Deposit(afterWithdraw, receiverId, amount)
  }

  /** Between two distinct registered accounts a transfer succeeds exactly
      when the sender holds the amount and the receiver's balance does not
      overflow; it moves `amount` and conserves the pair's sum. */
  lemma TransferMovesAmount(accounts: Balances, senderId: AccountId, receiverId: AccountId, amount: U128)
    requires senderId != receiverId
    ensures Transfer(accounts, senderId, receiverId, amount).Ok? <==>
              && senderId in accounts && receiverId in accounts
              && amount <= accounts[senderId] && accounts[receiverId] + amount <= U128_MAX
    ensures var r := Transfer(accounts, senderId, receiverId, amount);
            r.Ok? ==> && r.value[senderId] == accounts[senderId] - amount
                      && r.value[receiverId] == accounts[receiverId] + amount
                      && r.value[senderId] as int + r.value[receiverId] == accounts[senderId] as int + accounts[receiverId]
  {
    var w := Withdraw(accounts, senderId, amount);
    if w.Ok? {
      assert receiverId in w.value <==> receiverId in accounts;
      if receiverId in accounts {
        assert w.value[receiverId] == accounts[receiverId];
      }
    }
  }

  /** A transfer to oneself succeeds exactly when the account is registered
      and holds the amount, and then changes nothing. */
  lemma TransferToSelf(accounts: Balances, accountId: AccountId, amount: U128)
    ensures Transfer(accounts, accountId, accountId, amount).Ok? <==>
              accountId in accounts && amount <= accounts[accountId]
    ensures Transfer(accounts, accountId, accountId, amount).Ok? ==>
              Transfer(accounts, accountId, accountId, amount).value == accounts
  {
    var w := Withdraw(accounts, accountId, amount);
    if w.Ok? {
      var d := Deposit(w.value, accountId, amount);
      assert d.Ok?;
      assert d.value == accounts;
    }
  }

  /** The part of `amount` the receiver did not use, from the answer of
      `ft_on_transfer`: a parsed amount is capped at `amount`; a failed call
      or an answer that does not parse leaves all of it unused. */
  function UnusedAmount(amount: U128, result: PromiseResult<U128>): (r: Result<U128>)
    ensures result.NotReady? <==> r.Panic?
    ensures r.Ok? ==> r.value <= amount
    ensures result.Successful? && result.parsed.Some? ==> r == Ok(Min(amount, result.parsed.value))
    ensures result.Failed? || (result.Successful? && result.parsed.None?) ==> r == Ok(amount)
  {
    match result
    case NotReady => Panic(UNREACHABLE)
    case Successful(parsed) => if parsed.Some? then Ok(Min(amount, parsed.value)) else Ok(amount)
    case Failed => Ok(amount)
  }

  /** `ft_resolve_transfer` on values: the amount it reports as used and the
      new ledger. When something is unused and the receiver holds a positive
      balance, `min(receiver balance, unused)` is taken from the receiver;
      it is credited to the sender only when the sender is registered. */
  function ResolveTransfer(accounts: Balances, senderId: AccountId, receiverId: AccountId, amount: U128,
                           result: PromiseResult<U128>): (r: Result<(U128, Balances)>)
    ensures result.NotReady? <==> r.Panic? && r.reason == UNREACHABLE
    ensures r.Panic? && !result.NotReady? ==> r.reason == ADD_OVERFLOW
    ensures r.Ok? ==> r.value.0 <= amount
  {
    match UnusedAmount(amount, result)
    case Panic(reason) => Panic(reason)
    case Ok(unused) =>
      var receiverBalance := BalanceOf(accounts, receiverId);
      if unused > 0 && receiverBalance > 0 then
        var refund := Min(receiverBalance, unused);
        var debited := accounts[receiverId := receiverBalance - refund];
        if senderId in debited then
          if debited[senderId] + refund > U128_MAX then Panic(ADD_OVERFLOW)
          else Ok((amount - refund, debited[senderId := debited[senderId] + refund]))
        else Ok((amount, debited))
      else Ok((amount, accounts))
  }

  /** The refund path: with something unused, a receiver holding a positive
      balance and a registered sender different from the receiver, the
      refund `min(receiver balance, unused)` moves from the receiver to the
      sender, the call reports `amount - refund`, and the pair's sum is
      conserved. */
  lemma ResolveRefunds(accounts: Balances, senderId: AccountId, receiverId: AccountId, amount: U128,
                       result: PromiseResult<U128>)
    requires senderId != receiverId && senderId in accounts
    requires UnusedAmount(amount, result).Ok? && UnusedAmount(amount, result).value > 0
    requires BalanceOf(accounts, receiverId) > 0
    requires accounts[senderId] + Min(accounts[receiverId], UnusedAmount(amount, result).value) <= U128_MAX
    ensures var refund := Min(accounts[receiverId], UnusedAmount(amount, result).value);
            var r := ResolveTransfer(accounts, senderId, receiverId, amount, result);
            && r.Ok?
            && r.value.0 == amount - refund
            && r.value.1 == accounts[receiverId := accounts[receiverId] - refund][senderId := accounts[senderId] + refund]
            && r.value.1[senderId] as int + r.value.1[receiverId] == accounts[senderId] as int + accounts[receiverId]
  {
    var refund := Min(accounts[receiverId], UnusedAmount(amount, result).value);
    var debited := accounts[receiverId := accounts[receiverId] - refund];
    assert debited[senderId] == accounts[senderId];
  }

  /** Every path other than the refund reports the whole `amount` as used;
      when nothing is unused or the receiver holds nothing, the ledger is
      unchanged. */
  lemma ResolveWithoutRefund(accounts: Balances, senderId: AccountId, receiverId: AccountId, amount: U128,
                             result: PromiseResult<U128>)
    requires UnusedAmount(amount, result).Ok?
    requires UnusedAmount(amount, result).value == 0 || BalanceOf(accounts, receiverId) == 0
    ensures ResolveTransfer(accounts, senderId, receiverId, amount, result) == Ok((amount, accounts))
  {
  }

  /** A sender that is its own receiver: the refund is taken from and given
      back to the same balance, which cannot overflow, so the ledger is
      unchanged and the call reports `amount - refund`. */
  lemma ResolveToSelf(accounts: Balances, accountId: AccountId, amount: U128, result: PromiseResult<U128>)
    requires UnusedAmount(amount, result).Ok? && UnusedAmount(amount, result).value > 0
    requires BalanceOf(accounts, accountId) > 0
    ensures ResolveTransfer(accounts, accountId, accountId, amount, result)
            == Ok((amount - Min(accounts[accountId], UnusedAmount(amount, result).value), accounts))
  {
    var refund := Min(accounts[accountId], UnusedAmount(amount, result).value);
    var debited := accounts[accountId := accounts[accountId] - refund];
    assert debited[accountId := debited[accountId] + refund] == accounts;
  }

  /** An unregistered sender: the receiver is still debited by the refund,
      nobody is credited with it, and the call reports the whole `amount` as
      used. The refund leaves the ledger. */
  lemma ResolveUnregisteredSenderBurns(accounts: Balances, senderId: AccountId, receiverId: AccountId, amount: U128,
                                       result: PromiseResult<U128>)
    requires senderId !in accounts && senderId != receiverId
    requires UnusedAmount(amount, result).Ok? && UnusedAmount(amount, result).value > 0
    requires BalanceOf(accounts, receiverId) > 0
    ensures var refund := Min(accounts[receiverId], UnusedAmount(amount, result).value);
            var r := ResolveTransfer(accounts, senderId, receiverId, amount, result);
            && r == Ok((amount, accounts[receiverId := accounts[receiverId] - refund]))
            && refund > 0
            && senderId !in r.value.1
  {
  }

  /** A transfer whose receiver hook failed is undone in full when this
      ledger's own resolver runs on it: after the transfer and that
      resolution the ledger is what it was and the call reports nothing
      used. */
  lemma {:induction false} FailedCallIsRefunded(accounts: Balances, senderId: AccountId, receiverId: AccountId, amount: U128)
    requires senderId != receiverId && 0 < amount
    requires Transfer(accounts, senderId, receiverId, amount).Ok?
    ensures var moved := Transfer(accounts, senderId, receiverId, amount).value;
            ResolveTransfer(moved, senderId, receiverId, amount, Failed) == Ok((0, accounts))
  {
    TransferMovesAmount(accounts, senderId, receiverId, amount);
    var moved := Transfer(accounts, senderId, receiverId, amount).value;
    ResolveRefunds(moved, senderId, receiverId, amount, Failed);
    assert Min(moved[receiverId], amount) == amount;
    var back := moved[receiverId := moved[receiverId] - amount][senderId := moved[senderId] + amount];
    assert back == accounts by {
      assert back.Keys == accounts.Keys;
      forall a | a in accounts
        ensures back[a] == accounts[a]
      {
      }
    }
  }

  class Contract {
    /** The account `ft_transfer_call` sends its `ft_on_transfer` call to. */
    var contractAddr: AccountId
    var accounts: Balances
    var totalSupply: U128

    /** `ft_balance_of`. */
    function FtBalanceOf(accountId: AccountId): (b: U128)
      reads this
      ensures accountId !in accounts ==> b == 0
      ensures accountId in accounts ==> b == accounts[accountId]
    {
      BalanceOf(accounts, accountId)
    }

    /** `internal_withdraw`. */
    method InternalWithdraw(accountId: AccountId, amount: U128) returns (r: Result<()>)
      modifies this
      ensures r.Ok? <==> old(Withdraw(accounts, accountId, amount)).Ok?
      ensures accounts == if r.Ok? then old(Withdraw(accounts, accountId, amount)).value else old(accounts)
      ensures contractAddr == old(contractAddr) && totalSupply == old(totalSupply)
    {
      if accountId !in accounts {
        return Panic(UNWRAP_NONE);
      }
      var newBalance := CheckedSub(accounts[accountId], amount);
      if newBalance.None? {
        return Panic(UNWRAP_NONE);
      }
      accounts := accounts[accountId := newBalance.value];
      r := Ok(());
    }

    /** `internal_deposit`. */
    method InternalDeposit(accountId: AccountId, amount: U128) returns (r: Result<()>)
      modifies this
      ensures r.Ok? <==> old(Deposit(accounts, accountId, amount)).Ok?
      ensures accounts == if r.Ok? then old(Deposit(accounts, accountId, amount)).value else old(accounts)
      ensures contractAddr == old(contractAddr) && totalSupply == old(totalSupply)
    {
      if accountId !in accounts {
        return Panic(UNWRAP_NONE);
      }
      var newBalance := CheckedAdd(accounts[accountId], amount);
      if newBalance.None? {
        return Panic(UNWRAP_NONE);
      }
      accounts := accounts[accountId := newBalance.value];
      r := Ok(());
    }

    /** `internal_transfer`. A failed deposit aborts the receipt, which
        undoes the withdrawal already made. */
    method InternalTransfer(senderId: AccountId, receiverId: AccountId, amount: U128) returns (r: Result<()>)
      modifies this
      ensures r.Ok? <==> old(Transfer(accounts, senderId, receiverId, amount)).Ok?
      ensures accounts == if r.Ok? then old(Transfer(accounts, senderId, receiverId, amount)).value else old(accounts)
      ensures contractAddr == old(contractAddr) && totalSupply == old(totalSupply)
    {
      var before := accounts;
      r := InternalWithdraw(senderId, amount);
      if r.Panic? {
        return;
      }
      r := InternalDeposit(receiverId, amount);
      if r.Panic? {
        accounts := before;
      }
    }

    /** `ft_transfer`: one yoctoNEAR, then a transfer from the caller. */
    method FtTransfer(env: Env, receiverId: AccountId, amount: U128, memo: Option<string>) returns (r: Result<()>)
      modifies this
      ensures env.attachedDeposit != 1 ==> r == Panic(ONE_YOCTO_REQUIRED)
      ensures r.Ok? <==> env.attachedDeposit == 1 && old(Transfer(accounts, env.predecessorAccountId, receiverId, amount)).Ok?
      ensures accounts == if r.Ok? then old(Transfer(accounts, env.predecessorAccountId, receiverId, amount)).value
                          else old(accounts)
      ensures contractAddr == old(contractAddr) && totalSupply == old(totalSupply)
    {
      if env.attachedDeposit != 1 {
        return Panic(ONE_YOCTO_REQUIRED);
      }
      r := InternalTransfer(env.predecessorAccountId, receiverId, amount);
    }

    /** `ft_transfer_call`: one yoctoNEAR and a transfer, then the receiver
        hook, sent to `contract_addr`, with the resolver chained behind it,
        sent to `receiver_id`. */
    method FtTransferCall(env: Env, receiverId: AccountId, amount: U128, msg: string, memo: Option<string>)
      returns (r: Result<seq<FtRequest>>)
      modifies this
      ensures env.attachedDeposit != 1 ==> r == Panic(ONE_YOCTO_REQUIRED)
      ensures r.Ok? <==> env.attachedDeposit == 1 && old(Transfer(accounts, env.predecessorAccountId, receiverId, amount)).Ok?
      ensures accounts == if r.Ok? then old(Transfer(accounts, env.predecessorAccountId, receiverId, amount)).value
                          else old(accounts)
      ensures r.Ok? ==> r.value == [FtOnTransferCall(old(contractAddr), env.predecessorAccountId, amount, msg),
                                    FtResolveTransferCall(receiverId, env.predecessorAccountId, receiverId, amount)]
      ensures contractAddr == old(contractAddr) && totalSupply == old(totalSupply)
    {
      if env.attachedDeposit != 1 {
        return Panic(ONE_YOCTO_REQUIRED);
      }
      var sent := InternalTransfer(env.predecessorAccountId, receiverId, amount);
      if sent.Panic? {
        return Panic(sent.reason);
      }
      r := Ok([FtOnTransferCall(contractAddr, env.predecessorAccountId, amount, msg),
               FtResolveTransferCall(receiverId, env.predecessorAccountId, receiverId, amount)]);
    }

    /** `ft_resolve_transfer`: returns the amount the transfer used. The
        method is not `#[payable]`: any deposit is refused before its body
        runs. */
    method FtResolveTransfer(env: Env, senderId: AccountId, receiverId: AccountId, amount: U128,
                             result: PromiseResult<U128>) returns (r: Result<U128>)
      modifies this
      ensures env.attachedDeposit != 0 ==> r == Panic(NotPayableMessage("ft_resolve_transfer")) && accounts == old(accounts)
      ensures env.attachedDeposit == 0 ==>
              var expected := old(ResolveTransfer(accounts, senderId, receiverId, amount, result));
              && (r.Ok? <==> expected.Ok?)
              && (r.Panic? ==> r.reason == expected.reason && accounts == old(accounts))
              && (r.Ok? ==> r.value == expected.value.0 && accounts == expected.value.1)
      ensures contractAddr == old(contractAddr) && totalSupply == old(totalSupply)
    {
      var guard := AssertNotPayable(env, "ft_resolve_transfer");
      if guard.Panic? {
        return Panic(guard.reason);
      }
      var unused := UnusedAmount(amount, result);
      if unused.Panic? {
        return Panic(unused.reason);
      }
      if unused.value > 0 {
        var receiverBalance := if receiverId in accounts then accounts[receiverId] else 0;
        if receiverBalance > 0 {
          var refund := Min(receiverBalance, unused.value);
          var before := accounts;
          accounts := accounts[receiverId := receiverBalance - refund];
          if senderId in accounts {
            var senderBalance := accounts[senderId];
            if senderBalance + refund > U128_MAX {
              accounts := before;
              return Panic(ADD_OVERFLOW);
            }
            accounts := accounts[senderId := senderBalance + refund];
            return Ok(amount - refund);
          }
        }
      }
      r := Ok(amount);
    }
  }
}
