/** Sequences of calls on one account, as made by a caller that catches each
    rejection and carries on with the account it had. Every call either
    applies fully or leaves the account exactly as it was, so the entity
    invariant holds of every account reachable from a successful
    construction. */
module AccountHistory {
  import opened Results
  import opened BankAccounts

  /** One call of a mutator, with its argument. */
  datatype Call =
    | SetRate(rate: real)
    | DepositCall(amount: real)
    | WithdrawCall(amount: real)

  function Apply(acc: Account, c: Call): Result<Account, AccountError> {
    match c
    case SetRate(rate) => SetInterestRate(acc, rate)
    case DepositCall(amount) => Deposit(acc, amount)
    case WithdrawCall(amount) => Withdraw(acc, amount)
  }

  /** The account after one call: a rejected call changes nothing. */
  function Step(acc: Account, c: Call): Account {
    match Apply(acc, c)
    case Ok(next) => next
    case Err(_) => acc
  }

  /** The account after a whole sequence of calls, in order. */
  function Run(acc: Account, calls: seq<Call>): Account
    decreases |calls|
  {
    if calls == [] then acc else Run(Step(acc, calls[0]), calls[1..])
  }

  /** The calls of a sequence that were accepted, in order. */
  function Accepted(acc: Account, calls: seq<Call>): seq<Call>
    decreases |calls|
  {
    if calls == [] then []
    else if Apply(acc, calls[0]).Ok? then [calls[0]] + Accepted(Step(acc, calls[0]), calls[1..])
    else Accepted(acc, calls[1..])
  }

  /** Money moved by a sequence of calls: deposits in, withdrawals out. */
  function NetFlow(calls: seq<Call>): real
    decreases |calls|
  {
    if calls == [] then 0.0
    else
      var flow := match calls[0]
        case SetRate(_) => 0.0
        case DepositCall(amount) => amount
        case WithdrawCall(amount) => -amount;
      flow + NetFlow(calls[1..])
  }

  /** One call, accepted or rejected, keeps the invariant and the number. */
  lemma StepPreservesValid(acc: Account, c: Call)
    requires Valid(acc)
    ensures Valid(Step(acc, c)) && Step(acc, c).number == acc.number
  {
  }

  /** Every sequence of calls keeps the invariant. */
  lemma {:induction false} RunPreservesValid(acc: Account, calls: seq<Call>)
    requires Valid(acc)
    ensures Valid(Run(acc, calls))
    decreases |calls|
  {
    if calls != [] {
      StepPreservesValid(acc, calls[0]);
      RunPreservesValid(Step(acc, calls[0]), calls[1..]);
    }
  }

  /** No call changes the account number. */
  lemma {:induction false} RunKeepsNumber(acc: Account, calls: seq<Call>)
    ensures Run(acc, calls).number == acc.number
    decreases |calls|
  {
    if calls != [] {
      RunKeepsNumber(Step(acc, calls[0]), calls[1..]);
    }
  }

  /** The final balance is the opening balance plus the net flow of the
      accepted calls: rejected calls move no money. */
  lemma {:induction false} RunBalance(acc: Account, calls: seq<Call>)
    ensures Run(acc, calls).balance == acc.balance + NetFlow(Accepted(acc, calls))
    decreases |calls|
  {
    if calls != [] {
      var c, rest := calls[0], calls[1..];
      RunBalance(Step(acc, c), rest);
      if Apply(acc, c).Ok? {
        var acc' := Step(acc, c);
        assert ([c] + Accepted(acc', rest))[1..] == Accepted(acc', rest);
      }
    }
  }

  /** Rejected calls are no-ops: replaying only the accepted calls leads to
      the same account. */
  lemma {:induction false} RejectedCallsChangeNothing(acc: Account, calls: seq<Call>)
    ensures Run(acc, Accepted(acc, calls)) == Run(acc, calls)
    decreases |calls|
  {
    if calls != [] {
      var c, rest := calls[0], calls[1..];
      RejectedCallsChangeNothing(Step(acc, c), rest);
      if Apply(acc, c).Ok? {
        var acc' := Step(acc, c);
        assert ([c] + Accepted(acc', rest))[1..] == Accepted(acc', rest);
      }
    }
  }

  /** Every account reachable from a successful construction satisfies the
      invariant and still carries the number it was created with. */
  lemma CreatedAccountsStayValid(accountNumber: int, initialBalance: real, calls: seq<Call>)
    requires Create(accountNumber, initialBalance).Ok?
    ensures Valid(Run(Create(accountNumber, initialBalance).value, calls))
    ensures Run(Create(accountNumber, initialBalance).value, calls).number == accountNumber
  {
    var acc := Create(accountNumber, initialBalance).value;
    RunPreservesValid(acc, calls);
    RunKeepsNumber(acc, calls);
  }
}
