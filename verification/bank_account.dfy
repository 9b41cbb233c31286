/** The `BankAccount` entity: an account number fixed at construction, a
    balance and a bounded interest rate, changed only through three validated
    mutators. Each mutator checks its input first; on failure it reports one
    error kind and changes nothing, on success it applies one update. Amounts
    and rates are exact reals. */
module BankAccounts {
  import opened Results

  /** The rate every new account starts with. */
  const DefaultInterestRate: real := 0.01

  /** The upper end of the closed range of admissible interest rates. */
  const MaxInterestRate: real := 0.10

  /** One kind per literal message the account can throw. */
  datatype AccountError =
    | InvalidAccountNumber
    | InvalidInitialBalance
    | InvalidInterestRate
    | NonPositiveAmount
    | InsufficientFunds

  /** The exception text each error kind is reported with. A caller that
      only sees the text recovers the kind from it. */
  function Message(e: AccountError): (r: string)
    ensures r != ""
    ensures ErrorOf(r) == Some(e)
  {
    match e
    case InvalidAccountNumber => "Invalid Account Number"
    case InvalidInitialBalance => "Invalid Initial Balance"
    case InvalidInterestRate => "Invalid Interest Rate"
    case NonPositiveAmount => "Amount must be greater than zero"
    case InsufficientFunds => "Amount to withdraw exceeds the balance"
  }

  /** The error kind an exception text names, if any. */
  function ErrorOf(text: string): Option<AccountError> {
    if text == "Invalid Account Number" then Some(InvalidAccountNumber)
    else if text == "Invalid Initial Balance" then Some(InvalidInitialBalance)
    else if text == "Invalid Interest Rate" then Some(InvalidInterestRate)
    else if text == "Amount must be greater than zero" then Some(NonPositiveAmount)
    else if text == "Amount to withdraw exceeds the balance" then Some(InsufficientFunds)
    else None
  }

  datatype Account = Account(number: int, balance: real, interestRate: real)

  predicate RateInRange(rate: real) {
    0.0 <= rate <= MaxInterestRate
  }

  /** The entity invariant every constructed account keeps. */
  predicate Valid(acc: Account) {
    acc.number >= 1 && acc.balance >= 0.0 && RateInRange(acc.interestRate)
  }

  /** The `InterestRate` setter: it accepts exactly the closed range
      [0, 0.10] and then the getter returns the new value; anything else is
      rejected. Only the rate can change. */
  function SetInterestRate(acc: Account, value: real): (r: Result<Account, AccountError>)
    ensures r.Ok? <==> RateInRange(value)
    ensures r.Err? ==> r.error == InvalidInterestRate
    ensures r.Ok? ==> r.value.interestRate == value
                      && r.value.number == acc.number && r.value.balance == acc.balance
    ensures Valid(acc) && r.Ok? ==> Valid(r.value)
  {
    if value < 0.0 || value > MaxInterestRate then
      Err(InvalidInterestRate)
    else
      Ok(acc.(interestRate := value))
  }

  /** The two-argument constructor. The account number is checked before the
      balance; the default rate is then assigned through the validated setter,
      starting from the rate field's zero value, and its error (which never
      arises) would propagate. */
  function Create(accountNumber: int, initialBalance: real): (r: Result<Account, AccountError>)
    ensures r.Ok? <==> accountNumber >= 1 && initialBalance >= 0.0
    ensures accountNumber <= 0 ==> r == Err(InvalidAccountNumber)
    ensures accountNumber >= 1 && initialBalance < 0.0 ==> r == Err(InvalidInitialBalance)
    ensures r.Ok? ==> r.value == Account(accountNumber, initialBalance, DefaultInterestRate)
    ensures r.Ok? ==> Valid(r.value)
  {
    if accountNumber <= 0 then
      Err(InvalidAccountNumber)
    else if initialBalance < 0.0 then
      Err(InvalidInitialBalance)
    else
      SetInterestRate(Account(accountNumber, initialBalance, 0.0), DefaultInterestRate)
  }

  /** The one-argument constructor: an opening balance of zero. */
  function CreateEmpty(accountNumber: int): (r: Result<Account, AccountError>)
    ensures r.Ok? <==> accountNumber >= 1
    ensures r.Err? ==> r.error == InvalidAccountNumber
    ensures r.Ok? ==> r.value.number == accountNumber && r.value.balance == 0.0
                      && r.value.interestRate == DefaultInterestRate
  {
    Create(accountNumber, 0.0)
  }

  /** `Deposit`: a positive amount is added to the balance; zero and
      negative amounts are rejected. The number and the rate never change. */
  function Deposit(acc: Account, amount: real): (r: Result<Account, AccountError>)
    ensures r.Ok? <==> amount > 0.0
    ensures r.Err? ==> r.error == NonPositiveAmount
    ensures r.Ok? ==> r.value.balance == acc.balance + amount && r.value.balance > acc.balance
    ensures r.Ok? ==> r.value.number == acc.number && r.value.interestRate == acc.interestRate
    ensures Valid(acc) && r.Ok? ==> Valid(r.value)
  {
    if amount <= 0.0 then
      Err(NonPositiveAmount)
    else
      Ok(acc.(balance := acc.balance + amount))
  }

  /** `Withdraw`: the amount is checked for positivity first and against the
      balance second. The comparison with the balance is strict, so a positive
      balance can be withdrawn in full, leaving zero. */
  function Withdraw(acc: Account, amount: real): (r: Result<Account, AccountError>)
    ensures r.Ok? <==> 0.0 < amount <= acc.balance
    ensures amount <= 0.0 ==> r == Err(NonPositiveAmount)
    ensures 0.0 < amount && acc.balance < amount ==> r == Err(InsufficientFunds)
    ensures r.Ok? ==> r.value.balance == acc.balance - amount && 0.0 <= r.value.balance < acc.balance
    ensures r.Ok? ==> r.value.number == acc.number && r.value.interestRate == acc.interestRate
    ensures Valid(acc) && r.Ok? ==> Valid(r.value)
  {
    if amount <= 0.0 then
      Err(NonPositiveAmount)
    else if amount > acc.balance then
      Err(InsufficientFunds)
    else
      Ok(acc.(balance := acc.balance - amount))
  }

  /** The five literal messages differ, so the message alone tells a caller
      which check failed. */
  lemma MessageDeterminesError(e1: AccountError, e2: AccountError)
    ensures Message(e1) == Message(e2) <==> e1 == e2
  {
  }

  /** Withdrawing the whole of a positive balance succeeds and leaves exactly
      zero. (A zero balance cannot be withdrawn: the amount 0 fails the
      positivity check first.) */
  lemma WithdrawWholeBalance(acc: Account)
    requires acc.balance > 0.0
    ensures Withdraw(acc, acc.balance) == Ok(acc.(balance := 0.0))
  {
  }

  /** A withdrawal undoes a deposit of the same amount. */
  lemma DepositThenWithdrawRestores(acc: Account, amount: real)
    requires acc.balance >= 0.0 && amount > 0.0
    ensures Deposit(acc, amount).Ok?
    ensures Withdraw(Deposit(acc, amount).value, amount) == Ok(acc)
  {
  }

  /** A deposit undoes a successful withdrawal of the same amount. */
  lemma WithdrawThenDepositRestores(acc: Account, amount: real)
    requires Withdraw(acc, amount).Ok?
    ensures Deposit(Withdraw(acc, amount).value, amount) == Ok(acc)
  {
  }

  /** Setting a rate and then setting the previous rate back restores the
      account, and setting the same rate twice is the same as setting it once. */
  lemma SetInterestRateUndoable(acc: Account, value: real)
    requires Valid(acc) && RateInRange(value)
    ensures SetInterestRate(SetInterestRate(acc, value).value, acc.interestRate) == Ok(acc)
    ensures SetInterestRate(SetInterestRate(acc, value).value, value) == SetInterestRate(acc, value)
  {
  }
}
