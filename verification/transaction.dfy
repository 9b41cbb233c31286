/** The `Transaction` value object: an immutable record with an id, a
    timestamp, a message and an amount, validated once at construction. */
module Transactions {
  import opened Results

  /** A point in time. `Transaction.cs` reads the wall clock (`DateTime.Now`);
      here the caller supplies the instant. */
  type Instant = int

  /** One kind per literal message the constructor can throw. */
  datatype TransactionError = InvalidTransactionId | MissingMessage

  /** The exception text each error kind is reported with. A caller that
      only sees the text recovers the kind from it. */
  function Message(e: TransactionError): (r: string)
    ensures r != ""
    ensures ErrorOf(r) == Some(e)
  {
    match e
    case InvalidTransactionId => "Invalid Transaction Id"
    case MissingMessage => "Transaction Message is missing or empty"
  }

  /** The error kind an exception text names, if any. */
  function ErrorOf(text: string): Option<TransactionError> {
    if text == "Invalid Transaction Id" then Some(InvalidTransactionId)
    else if text == "Transaction Message is missing or empty" then Some(MissingMessage)
    else None
  }

  /** A built transaction. Its fields are get-only in the C# class, which a
      datatype value gives for free: nothing can change them afterwards. */
  datatype Transaction = Transaction(id: int, time: Instant, message: string, amount: real)

  /** What every successfully constructed transaction satisfies. */
  predicate WellFormed(t: Transaction) {
    t.id >= 1 && |t.message| > 0
  }

  /** The validating constructor. The id is checked before the message, so
      an input that is wrong in both ways reports the id. The amount is not
      checked at all. */
  function NewTransaction(id: int, message: Option<string>, amount: real, now: Instant)
    : (r: Result<Transaction, TransactionError>)
    ensures r.Ok? <==> id >= 1 && message.Some? && message.value != ""
    ensures id <= 0 ==> r == Err(InvalidTransactionId)
    ensures id >= 1 && (message.None? || message.value == "") ==> r == Err(MissingMessage)
    ensures r.Ok? ==> r.value.id == id && Some(r.value.message) == message
                      && r.value.amount == amount && r.value.time == now
    ensures r.Ok? ==> WellFormed(r.value)
  {
    if id <= 0 then
      Err(InvalidTransactionId)
    else if message.None? || message.value == "" then
      Err(MissingMessage)
    else
      Ok(Transaction(id, now, message.value, amount))
  }

  /** Every well-formed transaction is exactly what the constructor builds from
      its own fields: the constructor loses nothing and admits everything
      that satisfies the invariant. */
  lemma ConstructorRoundTrip(t: Transaction)
    requires WellFormed(t)
    ensures NewTransaction(t.id, Some(t.message), t.amount, t.time) == Ok(t)
  {
  }

  /** Conversely, every successful construction is well formed; together
      with the round trip, the constructor's image is exactly `WellFormed`. */
  lemma ConstructedIffWellFormed(t: Transaction)
    ensures WellFormed(t) <==> exists m :: NewTransaction(t.id, m, t.amount, t.time) == Ok(t)
  {
    if WellFormed(t) {
      ConstructorRoundTrip(t);
    }
  }

  /** The amount plays no part in validation: any two amounts, zero and
      negatives included, are accepted or rejected alike and with the same
      error. */
  lemma AmountUnconstrained(id: int, message: Option<string>, a: real, b: real, now: Instant)
    ensures NewTransaction(id, message, a, now).Ok? <==> NewTransaction(id, message, b, now).Ok?
    ensures NewTransaction(id, message, a, now).Err? ==>
              NewTransaction(id, message, a, now) == NewTransaction(id, message, b, now)
  {
  }

  /** The two literal messages differ, so the message alone tells a caller
      which check failed. */
  lemma MessageDeterminesError(e1: TransactionError, e2: TransactionError)
    ensures Message(e1) == Message(e2) <==> e1 == e2
  {
  }
}
