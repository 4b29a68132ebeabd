/** Checked machine arithmetic. The contracts are built with overflow checks on, so an
    overflow, an underflow or a division by zero aborts the message like any other error. */
module Arith {
  const U64_MAX: nat := 0xFFFF_FFFF_FFFF_FFFF
  const I64_MAX: nat := 0x7FFF_FFFF_FFFF_FFFF
  const U128_MAX: nat := 0xFFFF_FFFF_FFFF_FFFF_FFFF_FFFF_FFFF_FFFF

  datatype Option<+T> = None | Some(value: T) {
    function GetOr(other: T): T {
      if Some? then value else other
    }
  }

  datatype Error =
    | Overflow | Underflow | DivideByZero | NotFound
    | Unauthorized | StatusNotAllow | PoolIsPaused | LessThanMinimalStake
    | LsdTokenAmountZero | UnstakeTimesLimitReached | BurnLsdTokenAmountIsZero | ZeroWithdrawAmount
    | EmptyUnstakeList | UnstakerNotMatch | UnstakeStatusNotMatch | UnstakeNotWithdrawable
    | AlreadyLatestEra | DelegationSubmissionHeight | WithdrawAddrBalanceSubmissionHeight
    | ValidatorForUnbondNotEnough | ValidatorsEmpty | ValidatorNotSupport
    | PendingShareNotEmpty | DelegationsNotExist | RateChangeOverLimit
    | LessThanMinimalEraSeconds | ExceedMaxEraSeconds | RateIsZero | RateNotMatch
    | ValidatorAddressesListSize | ValidatorAlreadyExit | OldValidatorNotExist | NewValidatorAlreadyExist
    | LsmStakeNotSupport | LsmPendingStakeOverLimit | EraProcessNotEnd | PoolIcqNotUpdated
    | TokensLenNotMatch | ShareTokenNotExist | DuplicateToken
    | TokenAmountZero | UnsupportedMessage | CallBackErrErrorMsg
    | InsufficientFunds | CannotExceedCap | CannotSetOwnAccount | InvalidExpiration | Expired | NoAllowance
    | DuplicateInitialBalanceAddresses
    | NoFunds | NoSuchChannel | NotOnAllowList | AmountOverflow | CannotLowerGas
    | NoForeignTokens | FromOtherPort | FromOtherChannel | InvalidPacket

  datatype Result<+T> = Ok(value: T) | Err(error: Error) {
    predicate IsFailure() { Err? }

    function PropagateFailure<U>(): Result<U>
      requires Err?
    {
      Err(error)
    }

    function Extract(): T
      requires Ok?
    {
      value
    }
  }

  function Add64(a: nat, b: nat): Result<nat> {
    if a + b <= U64_MAX then Ok(a + b) else Err(Overflow)
  }

  function Mul64(a: nat, b: nat): Result<nat> {
    if a * b <= U64_MAX then Ok(a * b) else Err(Overflow)
  }

  function Add(a: nat, b: nat): Result<nat> {
    if a + b <= U128_MAX then Ok(a + b) else Err(Overflow)
  }

  function Sub(a: nat, b: nat): Result<nat> {
    if b <= a then Ok(a - b) else Err(Underflow)
  }

  function Div(a: nat, b: nat): Result<nat> {
    if b == 0 then Err(DivideByZero) else Ok(a / b)
  }

  /** `a.mul(b).div(c)` on 128-bit amounts, rounding towards zero. */
  function MulDiv(a: nat, b: nat, c: nat): (r: Result<nat>)
    ensures r.Ok? ==> r.value * c <= a * b < r.value * c + c
  {
    if a * b > U128_MAX then Err(Overflow)
    else if c == 0 then Err(DivideByZero)
    else FloorBounds(a * b, c); Ok(a * b / c)
  }

  lemma FloorBounds(n: nat, d: nat)
    requires d > 0
    ensures n / d * d <= n < n / d * d + d
  {
  }

  lemma MulLe(a: nat, b: nat, c: nat)
    requires a <= b
    ensures a * c <= b * c
  {
  }

  /** A quotient is at least q as soon as q times the divisor fits in the dividend. */
  lemma QuotientAtLeast(q: nat, n: nat, d: nat)
    requires d > 0 && q * d <= n
    ensures q <= n / d
  {
    FloorBounds(n, d);
    if n / d < q {
      MulLe(n / d + 1, q, d);
    }
  }

  /** Two quotients by the same divisor differ by no more than the dividends do. */
  lemma QuotientLipschitz(m: nat, n: nat, d: nat)
    requires d > 0 && m <= n
    ensures m / d <= n / d <= m / d + (n - m)
  {
    FloorBounds(m, d);
    FloorBounds(n, d);
    QuotientAtLeast(m / d, n, d);
    if n / d > m / d + (n - m) {
      MulLe(m / d + (n - m) + 1, n / d, d);
      assert (m / d + (n - m) + 1) * d == m / d * d + (n - m) * d + d;
      MulLe(1, d, n - m);
    }
  }
}
