/** Vocabulary of the NEAR runtime shared by the rental contract, the marketplace
    and the test-double contracts: account ids, fixed-width integers, the call
    environment, promise results, panics, and the u128 decimal parser the
    contracts use for amounts carried as strings. */
module Near {

  type AccountId = string
  type TokenId = string

  /** Rust's u32, u64 and u128 (Balance). */
  type U32 = x: nat | x < 0x1_0000_0000
  type U64 = x: nat | x < 0x1_0000_0000_0000_0000
  type U128 = x: nat | x < 0x1_0000_0000_0000_0000_0000_0000_0000_0000

  const U128_MAX: nat := 0xffff_ffff_ffff_ffff_ffff_ffff_ffff_ffff

  datatype Option<T> = None | Some(value: T)

  /** The outcome of a contract call: a value, or a panic with its reason.
      A panic aborts the receipt, so none of the call's writes persist. */
  datatype Result<T> = Ok(value: T) | Panic(reason: string)

  /** What `near_sdk::env` reports to a call. */
  datatype Env = Env(
    currentAccountId: AccountId,
    predecessorAccountId: AccountId,
    signerAccountId: AccountId,
    attachedDeposit: U128,
    blockTimestamp: U64)

  /** `env::promise_result(0)` as seen by a callback; a successful result
      carries the JSON-decoded value, or None when it does not decode. */
  datatype PromiseResult<T> = NotReady | Successful(parsed: Option<T>) | Failed

  const ONE_YOCTO_REQUIRED := "Requires attached deposit of exactly 1 yoctoNEAR"
  const UNWRAP_NONE := "called `Option::unwrap()` on a `None` value"
  /** The panic of `todo!()`. */
  const NOT_IMPLEMENTED := "not yet implemented"

  /** The panic text of the deposit check `#[near_bindgen]` generates, which
      names the method. */
  function NotPayableMessage(methodName: string): string
  {
    "Method " + methodName + " doesn't accept deposit"
  }

  /** `near_sdk::assert_one_yocto`. */
  function AssertOneYocto(env: Env): (r: Result<()>)
    ensures r.Ok? <==> env.attachedDeposit == 1
    ensures r.Panic? ==> r.reason == ONE_YOCTO_REQUIRED
  {
    if env.attachedDeposit == 1 then Ok(()) else Panic(ONE_YOCTO_REQUIRED)
  }

  /** The check `#[near_bindgen]` puts in front of every state-changing method
      that is not marked `#[payable]`. */
  function AssertNotPayable(env: Env, methodName: string): (r: Result<()>)
    ensures r.Ok? <==> env.attachedDeposit == 0
    ensures r.Panic? ==> r.reason == NotPayableMessage(methodName)
  {
    if env.attachedDeposit == 0 then Ok(()) else Panic(NotPayableMessage(methodName))
  }

  function Min(a: nat, b: nat): (m: nat)
    ensures m <= a && m <= b && (m == a || m == b)
  {
    if a <= b then a else b
  }

  /** `u128::checked_add`. */
  function CheckedAdd(a: U128, b: U128): (r: Option<U128>)
    ensures r.Some? <==> a + b <= U128_MAX
    ensures r.Some? ==> r.value == a + b
  {
    if a + b <= U128_MAX then Some(a + b) else None
  }

  /** `u128::checked_sub`. */
  function CheckedSub(a: U128, b: U128): (r: Option<U128>)
    ensures r.Some? <==> b <= a
    ensures r.Some? ==> r.value + b == a
  {
    if b <= a then Some(a - b) else None
  }

  // ---------------------------------------------------------------------
  // Decimal strings: `str::parse::<u128>` and its inverse, `u128::to_string`.

  predicate IsDigit(c: char) { '0' <= c <= '9' }

  predicate AllDigits(s: seq<char>) { forall i :: 0 <= i < |s| ==> IsDigit(s[i]) }

  function DigitValue(c: char): nat
    requires IsDigit(c)
  {
    (c as int - '0' as int) as nat
  }

  function DigitChar(d: nat): (c: char)
    requires d < 10
    ensures IsDigit(c) && DigitValue(c) == d
  {
    ('0' as int + d) as char
  }

  /** The number a string of decimal digits denotes (most significant first). */
  function DigitsValue(s: seq<char>): nat
    requires AllDigits(s)
    decreases |s|
  {
    if s == [] then 0 else DigitsValue(s[..|s| - 1]) * 10 + DigitValue(s[|s| - 1])
  }

  /** `u128::to_string`: the shortest decimal representation. */
  function ToDecimal(n: nat): (s: seq<char>)
    ensures |s| > 0 && AllDigits(s)
    decreases n
  {
    if n < 10 then [DigitChar(n)] else ToDecimal(n / 10) + [DigitChar(n % 10)]
  }

  /** `str::parse::<u128>` (Rust's `u128::from_str`): an optional leading '+',
      then at least one decimal digit and nothing else, and a value that fits
      in 128 bits. A leading '-' is an invalid digit for an unsigned type. */
  function ParseU128(s: seq<char>): (r: Option<U128>)
    ensures r.Some? ==> exists d :: (s == d || s == ['+'] + d) && |d| > 0 && AllDigits(d) && DigitsValue(d) == r.value
    ensures r.None? ==> forall d :: (s == d || s == ['+'] + d) && |d| > 0 && AllDigits(d) ==> DigitsValue(d) > U128_MAX
  {
    var digits := if |s| > 0 && s[0] == '+' then s[1..] else s;
    if |digits| == 0 || !AllDigits(digits) then None
    else if DigitsValue(digits) > U128_MAX then None
    else
      assert s == digits || s == ['+'] + digits;
      Some(DigitsValue(digits))
  }

  lemma {:induction false} DigitsValueOfDecimal(n: nat)
    ensures DigitsValue(ToDecimal(n)) == n
    decreases n
  {
    var s := ToDecimal(n);
    if n >= 10 {
      DigitsValueOfDecimal(n / 10);
      assert s[..|s| - 1] == ToDecimal(n / 10);
    }
  }

  /** Parsing what `to_string` printed gives the number back: the amount a
      client serialises with `amount.to_string()` is the amount the contract
      stores. */
  lemma ParseToDecimal(n: U128)
    ensures ParseU128(ToDecimal(n)) == Some(n)
  {
    DigitsValueOfDecimal(n);
    assert ToDecimal(n)[0] != '+';
  }
}
