/** Shared vocabulary of the model: failure-compatible results, the error names of the
    contracts, and the fixed-width arithmetic of the host. */
module Common {
  // Identities are only ever compared for equality.
  type Address = nat

  datatype Option<+T> = None | Some(value: T)

  datatype Error =
      // creditline
    | NotAdmin | InsufficientGuarantee | VendorNotActive | InsufficientReputation | InsufficientLiquidity
    | LoanNotFound | LoanNotActive | InvalidAmount | Overflow | Underflow | LoanNotOverdue
    | InvalidRepaymentAmount | UnauthorizedRepayer | ExposureLimitExceeded | LoanNotCancellable
    | LoanInGracePeriod | InvalidInstallmentIndex | InstallmentAlreadyPaid | InvalidLoanStatus
    | InvalidDueDate | InsufficientRefundBalance | ReputationCallFailed
      // liquidity pool and token
    | InsufficientShares | OutflowCapExceeded | MerchantExposureCapExceeded | InvalidCap
    | InsufficientBalance | OutOfBounds
      // governance
    | InvalidParameters | MultisigAlreadyConfigured | MultisigNotConfigured | NotSigner | InvalidThreshold
    | DuplicateSigner | ProposalNotFound | ProposalExpired | ProposalAlreadyExecuted | DuplicateSignature
    | ThresholdNotMet | ProposalInvalidated | ApproverNotEligible
      // vouching
    | MentorNotVerified | VouchAlreadyActive | VouchNotFound | VouchNotActive | VouchNotExpired | InvalidBoost
      // host: an account that did not sign, or a clock that would run backwards
    | NotAuthorized | ClockReversed

  /** What a contract call yields. The host discards every write of a call that yields `Err`. */
  datatype Result<+T> = Ok(value: T) | Err(error: Error) {
    predicate IsFailure() {
      Err?
    }

    function PropagateFailure<U>(): Result<U>
      requires Err?
    {
      Err(error)
    }

    function Extract(): T
      requires Ok?
    {
      value
    }
  }

  function Need(condition: bool, error: Error): Result<()> {
    if condition then Ok(()) else Err(error)
  }

  const I128_MAX: int := 0x7FFF_FFFF_FFFF_FFFF_FFFF_FFFF_FFFF_FFFF
  const U64_MAX: int := 0xFFFF_FFFF_FFFF_FFFF
  const U32_MAX: int := 0xFFFF_FFFF

  predicate FitsI128(x: int) {
    -I128_MAX - 1 <= x <= I128_MAX
  }

  function AddI128(a: int, b: int): Result<int> {
    if FitsI128(a + b) then Ok(a + b) else Err(Overflow)
  }

  function SubI128(a: int, b: int): Result<int> {
    if FitsI128(a - b) then Ok(a - b) else Err(Underflow)
  }

  function MulI128(a: int, b: int): Result<int> {
    if FitsI128(a * b) then Ok(a * b) else Err(Overflow)
  }

  function AddU64(a: nat, b: nat): Result<nat> {
    if a + b <= U64_MAX then Ok(a + b) else Err(Overflow)
  }

  /** Rust's integer division: the quotient is truncated toward zero. */
  function TruncDiv(a: int, b: int): int
    requires b != 0
    decreases b < 0
  {
    if b < 0 then TruncDiv(-a, -b) else if a >= 0 then a / b else -(-a / b)
  }

  function Min(a: int, b: int): int {
    if a <= b then a else b
  }

  function Max(a: int, b: int): int {
    if a >= b then a else b
  }

  /** Storage reads with a default for a missing key. */
  function GetOr<K, V>(m: map<K, V>, key: K, default: V): V {
    if key in m then m[key] else default
  }

  /** No address occurs twice. */
  predicate Distinct(s: seq<Address>) {
    forall i, j :: 0 <= i < j < |s| ==> s[i] != s[j]
  }

  function SumSeq(s: seq<int>): int {
    if s == [] then 0 else SumSeq(s[..|s| - 1]) + s[|s| - 1]
  }
}
