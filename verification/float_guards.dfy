/** The account's guards read as IEEE 754 comparisons on `double`. Every
    ordered comparison with NaN is false, so a guard written as "reject when
    out of range" (`value < 0 || value > 0.10`, `amount <= 0`,
    `amount > Balance`, `initialBalance < 0`) lets NaN through and the
    entity invariant breaks. This module models each guard as written and as
    corrected ("accept only when in range"). It shows that the two agree with
    the exact-real model on every number and differ only on NaN. Infinities
    and rounding are not modelled. */
module FloatGuards {
  import opened Results
  import BankAccounts

  /** A double, reduced to what the guards can tell apart: a number or NaN. */
  datatype Double = Num(v: real) | NaN

  /** IEEE `<`: false as soon as either side is NaN. */
  predicate Less(a: Double, b: Double) {
    a.Num? && b.Num? && a.v < b.v
  }

  /** IEEE `<=`: false as soon as either side is NaN. */
  predicate AtMost(a: Double, b: Double) {
    a.Num? && b.Num? && a.v <= b.v
  }

  /** IEEE `+` and `-` without rounding: NaN is absorbing. */
  function Plus(a: Double, b: Double): Double {
    if a.Num? && b.Num? then Num(a.v + b.v) else NaN
  }

  function Minus(a: Double, b: Double): Double {
    if a.Num? && b.Num? then Num(a.v - b.v) else NaN
  }

  const Zero: Double := Num(0.0)
  const MaxRate: Double := Num(BankAccounts.MaxInterestRate)
  const DefaultRate: Double := Num(BankAccounts.DefaultInterestRate)

  datatype DAccount = DAccount(number: int, balance: Double, interestRate: Double)

  /** The entity invariant, on doubles: NaN satisfies none of its comparisons. */
  predicate Valid(acc: DAccount) {
    acc.number >= 1 && AtMost(Zero, acc.balance)
    && AtMost(Zero, acc.interestRate) && AtMost(acc.interestRate, MaxRate)
  }

  function Lift(acc: BankAccounts.Account): DAccount {
    DAccount(acc.number, Num(acc.balance), Num(acc.interestRate))
  }

  function LiftResult(r: Result<BankAccounts.Account, BankAccounts.AccountError>)
    : Result<DAccount, BankAccounts.AccountError>
  {
    match r
    case Ok(acc) => Ok(Lift(acc))
    case Err(e) => Err(e)
  }

  // ---------------------------------------------------------------------
  // The guards as written.

  function SetInterestRateAsWritten(acc: DAccount, value: Double)
    : (r: Result<DAccount, BankAccounts.AccountError>)
    ensures value.Num? ==> r == SetInterestRateChecked(acc, value)
  {
    if Less(value, Zero) || Less(MaxRate, value) then
      Err(BankAccounts.InvalidInterestRate)
    else
      Ok(acc.(interestRate := value))
  }

  function CreateAsWritten(accountNumber: int, initialBalance: Double)
    : (r: Result<DAccount, BankAccounts.AccountError>)
    ensures initialBalance.Num? ==> r == CreateChecked(accountNumber, initialBalance)
  {
    if accountNumber <= 0 then
      Err(BankAccounts.InvalidAccountNumber)
    else if Less(initialBalance, Zero) then
      Err(BankAccounts.InvalidInitialBalance)
    else
      SetInterestRateAsWritten(DAccount(accountNumber, initialBalance, Zero), DefaultRate)
  }

  function DepositAsWritten(acc: DAccount, amount: Double)
    : (r: Result<DAccount, BankAccounts.AccountError>)
    ensures amount.Num? ==> r == DepositChecked(acc, amount)
  {
    if AtMost(amount, Zero) then
      Err(BankAccounts.NonPositiveAmount)
    else
      Ok(acc.(balance := Plus(acc.balance, amount)))
  }

  function WithdrawAsWritten(acc: DAccount, amount: Double)
    : (r: Result<DAccount, BankAccounts.AccountError>)
    ensures amount.Num? && acc.balance.Num? ==> r == WithdrawChecked(acc, amount)
  {
    if AtMost(amount, Zero) then
      Err(BankAccounts.NonPositiveAmount)
    else if Less(acc.balance, amount) then
      Err(BankAccounts.InsufficientFunds)
    else
      Ok(acc.(balance := Minus(acc.balance, amount)))
  }

  /** Each as-written guard accepts NaN and stores it, so from any valid
      account the result breaks the invariant. */
  lemma NaNPassesEveryGuard(acc: DAccount, accountNumber: int)
    requires Valid(acc) && accountNumber >= 1
    ensures CreateAsWritten(accountNumber, NaN) == Ok(DAccount(accountNumber, NaN, DefaultRate))
    ensures SetInterestRateAsWritten(acc, NaN) == Ok(acc.(interestRate := NaN))
    ensures DepositAsWritten(acc, NaN) == Ok(acc.(balance := NaN))
    ensures WithdrawAsWritten(acc, NaN) == Ok(acc.(balance := NaN))
    ensures !Valid(CreateAsWritten(accountNumber, NaN).value)
    ensures !Valid(SetInterestRateAsWritten(acc, NaN).value)
    ensures !Valid(DepositAsWritten(acc, NaN).value)
    ensures !Valid(WithdrawAsWritten(acc, NaN).value)
  {
  }

  // ---------------------------------------------------------------------
  // The guards as intended: accept only what is in range.

  function SetInterestRateChecked(acc: DAccount, value: Double)
    : (r: Result<DAccount, BankAccounts.AccountError>)
    ensures r.Ok? <==> AtMost(Zero, value) && AtMost(value, MaxRate)
    ensures r.Err? ==> r.error == BankAccounts.InvalidInterestRate
    ensures Valid(acc) && r.Ok? ==> Valid(r.value)
  {
    if !(AtMost(Zero, value) && AtMost(value, MaxRate)) then
      Err(BankAccounts.InvalidInterestRate)
    else
      Ok(acc.(interestRate := value))
  }

  function CreateChecked(accountNumber: int, initialBalance: Double)
    : (r: Result<DAccount, BankAccounts.AccountError>)
    ensures r.Ok? <==> accountNumber >= 1 && AtMost(Zero, initialBalance)
    ensures r.Ok? ==> Valid(r.value)
  {
    if accountNumber <= 0 then
      Err(BankAccounts.InvalidAccountNumber)
    else if !AtMost(Zero, initialBalance) then
      Err(BankAccounts.InvalidInitialBalance)
    else
      SetInterestRateChecked(DAccount(accountNumber, initialBalance, Zero), DefaultRate)
  }

  function DepositChecked(acc: DAccount, amount: Double)
    : (r: Result<DAccount, BankAccounts.AccountError>)
    ensures r.Ok? <==> Less(Zero, amount)
    ensures Valid(acc) && r.Ok? ==> Valid(r.value)
  {
    if !Less(Zero, amount) then
      Err(BankAccounts.NonPositiveAmount)
    else
      Ok(acc.(balance := Plus(acc.balance, amount)))
  }

  function WithdrawChecked(acc: DAccount, amount: Double)
    : (r: Result<DAccount, BankAccounts.AccountError>)
    ensures r.Ok? <==> Less(Zero, amount) && AtMost(amount, acc.balance)
    ensures Valid(acc) && r.Ok? ==> Valid(r.value)
  {
    if !Less(Zero, amount) then
      Err(BankAccounts.NonPositiveAmount)
    else if !AtMost(amount, acc.balance) then
      Err(BankAccounts.InsufficientFunds)
    else
      Ok(acc.(balance := Minus(acc.balance, amount)))
  }

  /** On numbers the corrected guards are exactly the exact-real model, so
      that model is the corrected behaviour; by the `AsWritten` contracts it is
      also the code as written on every input but NaN. */
  lemma CheckedAgreesWithModel(acc: BankAccounts.Account, x: real, accountNumber: int)
    ensures SetInterestRateChecked(Lift(acc), Num(x)) == LiftResult(BankAccounts.SetInterestRate(acc, x))
    ensures CreateChecked(accountNumber, Num(x)) == LiftResult(BankAccounts.Create(accountNumber, x))
    ensures DepositChecked(Lift(acc), Num(x)) == LiftResult(BankAccounts.Deposit(acc, x))
    ensures WithdrawChecked(Lift(acc), Num(x)) == LiftResult(BankAccounts.Withdraw(acc, x))
  {
  }
}
