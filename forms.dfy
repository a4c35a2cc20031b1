/** The vocabulary the add-forms and the log-in forms share: a handler either
    shows an alert and returns early, or goes on with what it read from the
    form. Each rejection stands for the alert the source shows. */
module Forms {
  import opened Text
  import opened Seqs
  import opened Amounts

  datatype Rejection =
    | MissingFields      // "fill in all fields"
    | InvalidAmount      // "the amount must be a number greater than 0"
    | InvalidDate        // "invalid date"
    | NotInFuture        // "the deadline must be in the future"
    | InvalidEmail       // "enter a valid e-mail"
    | PasswordMismatch   // "the passwords do not match"
    | PasswordTooShort   // "the password needs at least 6 characters"

  datatype Outcome<+T> = Accepted(value: T) | Rejected(reason: Rejection)

  /** A JavaScript string is truthy exactly when it is not empty. */
  predicate Filled(s: string) {
    s != ""
  }

  /** `const x = parseFloat(text); if (isNaN(x) || x <= 0) alert`: the amount
      check every add-form runs. */
  function ReadAmount(text: string): (r: Outcome<real>)
    ensures r.Accepted? <==> IsPositiveAmount(ParseFloat(text))
    ensures r.Accepted? ==> r.value > 0.0 && ParseFloat(text) == Some(r.value)
    ensures r.Rejected? ==> r.reason == InvalidAmount
  {
    match ParseFloat(text)
    case None => Rejected(InvalidAmount)
    case Some(x) => if x <= 0.0 then Rejected(InvalidAmount) else Accepted(x)
  }

  /** An empty field never passes the amount check (`parseFloat('')` is `NaN`). */
  lemma EmptyAmountRejected()
    ensures ReadAmount("") == Rejected(InvalidAmount)
  {
    NoDigitsIsNaN("");
  }

  /** A positive decimal numeral passes the amount check with its own value. */
  lemma DecimalAmountAccepted(n: nat)
    requires n > 0
    ensures ReadAmount(Decimal(n)) == Accepted(n as real)
  {
    ParseDecimal(n);
  }
}
