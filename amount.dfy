/** The money value object of the transaction-processing domain: an integer
    number of cents in one currency, changed in place by `add` and `subtract`.

    The module has two halves. `Op`, `Step` and `Replay` describe, on plain
    integers, what a sequence of calls does to the stored value; the class
    `Amount` is the object itself, whose methods are proved against `Step`.
 */
module Amounts {

  /** The message of the `DomainException` that `subtract` throws. */
  const ExceedsBalance: string := "Amount exceeds current balance."

  /** How a call on an `Amount` ends: it returns normally, or it throws a
      `DomainException` carrying `message`. */
  datatype Outcome = Pass | Fail(message: string)

  /** One call of an in-place operation, with its argument in cents. */
  datatype Op = Add(amount: int) | Subtract(amount: int)

  /** How the call `op` ends on an object that holds `value`: `add` always
      returns, `subtract` throws exactly when its argument exceeds the value. */
  function OutcomeOf(value: int, op: Op): (r: Outcome)
    ensures r.Fail? <==> op.Subtract? && value < op.amount
    ensures r.Fail? ==> r.message == ExceedsBalance
  {
    match op
    case Add(_) => Pass
    case Subtract(amount) => if value < amount then Fail(ExceedsBalance) else Pass
  }

  /** The value the object holds after the call `op`, whether the call returned
      or threw (a throwing `subtract` writes nothing). */
  function Step(value: int, op: Op): (r: int)
    ensures OutcomeOf(value, op).Fail? ==> r == value
    ensures op.Subtract? && OutcomeOf(value, op).Pass? ==> r >= 0 && r + op.amount == value
  {
    match op
    case Add(amount) => value + amount
    case Subtract(amount) => if value < amount then value else value - amount
  }

  /** The value after the calls `ops`, one after the other, by a caller that
      catches each `DomainException` and carries on. */
  function Replay(value: int, ops: seq<Op>): (r: int)
    decreases |ops|
  {
    if ops == [] then value else Replay(Step(value, ops[0]), ops[1..])
  }

  /** An `Amount`: `value` in cents and a `currency` code. Both fields are
      public in the PHP class; only `value` is written by its methods. */
  class Amount {
    var value: int
    var currency: string

    /** Stores both arguments verbatim; a negative value is accepted. */
    constructor (value: int, currency: string)
      ensures this.value == value && this.currency == currency
    {
      this.value := value;
      this.currency := currency;
    }

    method GetValue() returns (v: int)
      ensures v == value
    {
      v := value;
    }

    method GetCurrency() returns (c: string)
      ensures c == currency
    {
      c := currency;
    }

    /** Adds `amount` (of any sign) to the value; never fails. */
    method Add(amount: int)
      modifies this`value
      ensures value == old(value) + amount
      ensures value == Step(old(value), Op.Add(amount))
      ensures currency == old(currency)
    {
      value := value + amount;
    }

    /** Subtracts `amount` unless it exceeds the value, in which case the call
        fails and the value is left as it was. */
    method Subtract(amount: int) returns (outcome: Outcome)
      modifies this`value
      ensures outcome.Fail? <==> old(value) < amount
      ensures outcome.Fail? ==> outcome.message == ExceedsBalance && value == old(value)
      ensures outcome.Pass? ==> value == old(value) - amount && value >= 0
      ensures outcome == OutcomeOf(old(value), Op.Subtract(amount))
      ensures value == Step(old(value), Op.Subtract(amount))
      ensures currency == old(currency)
    {
      if value < amount {
        return Fail(ExceedsBalance);
      }
      value := value - amount;
      outcome := Pass;
    }
  }
}
