# Amount: the money value object of TransactionProcessing

This project models `Amount`, the money value object of the
`TransactionProcessing` domain. An `Amount` holds an integer `value` in cents
and a `currency` code. It changes in place through two operations. `add` adds
its argument with no check. `subtract` throws a `DomainException` ("Amount
exceeds current balance.") when the value is less than its argument, and
otherwise subtracts it. `Account` holds an account number and one `Amount` as
its balance, and is modelled as that holder.

Layout:

- `amount.dfy`, module `Amounts`, has the class `Amount` and its methods.
  Beside the class it defines, on plain integers, what one call does
  (`Step`, `OutcomeOf`) and what a sequence of calls does (`Replay`). The
  methods are proved against `Step` and `OutcomeOf`: each method's contract
  says that the new value is `Step` of the old value, and `Subtract`'s that
  its outcome is `OutcomeOf` of it. The laws about `Step` and `Replay`
  therefore hold of the calls on the object.
- `amount_laws.dfy`, module `AmountLaws`, has lemmas about combinations of
  calls. They cover the round-trips, the merging of adds, and a balance that
  stays non-negative across any run of credits and subtracts.
- `account.dfy`, module `Accounts`, has the class `Account`.

The thrown `DomainException` becomes the `Outcome` value `Fail(message)`
returned by `Subtract`. `Replay` treats a caller that catches each exception
and carries on: a failed `subtract` leaves the value unchanged.

Neither method checks the sign of its argument: `add` takes any integer, and
`subtract` with a negative argument succeeds whenever the value is at least
that argument. A subtract that succeeds still always leaves `value >= 0`.

## Model

| member | source | states |
|---|---|---|
| Amounts.OutcomeOf | src/TransactionProcessing/Domain/Model/Amount.php:26-37 | how a call ends: `Fail` with the exception message `Amount exceeds current balance.` exactly when the call is a subtract whose argument exceeds the value; `add` always returns |
| Amounts.Step | src/TransactionProcessing/Domain/Model/Amount.php:26-37 | a failed call leaves the value unchanged; after a successful subtract of `a` the value is non-negative and adding `a` back gives the old value |
| Amounts.Amount.constructor | src/TransactionProcessing/Domain/Model/Amount.php:10-14 | value and currency are stored verbatim, negative values included |
| Amounts.Amount.GetValue | src/TransactionProcessing/Domain/Model/Amount.php:16-19 | returns the stored value and changes nothing |
| Amounts.Amount.GetCurrency | src/TransactionProcessing/Domain/Model/Amount.php:21-24 | returns the stored currency and changes nothing |
| Amounts.Amount.Add | src/TransactionProcessing/Domain/Model/Amount.php:26-29 | never fails; the new value is the old value plus the argument, of any sign; only `value` is written, and currency is unchanged; the new value is `Step` of the old |
| Amounts.Amount.Subtract | src/TransactionProcessing/Domain/Model/Amount.php:31-37 | fails, with the exception message `Amount exceeds current balance.`, exactly when the old value is below the argument, leaving the value unchanged; otherwise the new value is old minus the argument and is non-negative; currency is unchanged; outcome and new value are `OutcomeOf` and `Step` of the old value |
| AmountLaws.AddThenSubtract | src/TransactionProcessing/Domain/Model/Amount.php:26-37 | `add(a)` then `subtract(a)` succeeds exactly when the starting value is non-negative, and then restores it; from a negative start the subtract fails and the value stays at value + a |
| AmountLaws.SubtractThenAdd | src/TransactionProcessing/Domain/Model/Amount.php:26-37 | a successful `subtract(a)` followed by `add(a)` restores the original value |
| AmountLaws.AddAdd | src/TransactionProcessing/Domain/Model/Amount.php:26-29 | `add(a)` then `add(b)` equals `add(a + b)` |
| AmountLaws.ReplayAdds | src/TransactionProcessing/Domain/Model/Amount.php:26-29 | any run of adds leaves the value plus the total of the arguments |
| AmountLaws.ReplayAppend | src/TransactionProcessing/Domain/Model/Amount.php:26-37 | running two runs of calls one after the other is running their concatenation |
| AmountLaws.ReplayKeepsNonNegative | src/TransactionProcessing/Domain/Model/Amount.php:26-37 | from a non-negative value, any run of non-negative adds and arbitrary subtracts (failed ones included) ends non-negative |
| AmountLaws.EndsWithSuccessfulSubtract | src/TransactionProcessing/Domain/Model/Amount.php:31-37 | whatever calls came before, a run ending in a successful subtract leaves a non-negative value |
| Accounts.Account.constructor | src/TransactionProcessing/Domain/Model/Account.php:7-10 | stores the number and the balance object itself, without touching the balance |

## Left out

- `PayByCardCommandHandler::handle` (src/TransactionProcessing/UseCase/PayByCardCommandHandler.php:18-21): its body is empty, so there is no transfer logic to model.
- The behaviour expected by tests/TransactionProcessing/UseCase/PayByCardCommandHandlerTest.php is left out: `Account` defines no `debit`/`credit`, and the handler that would call them is empty.
- `TransactionLog`, `PayByCardCommand`: plain records with getters or public fields and no behaviour; `TransactionLog` also holds a library date type.
- `TransactionDisplay`: console output and date formatting, which is I/O.
- `InsufficientFundsException`: only builds a message string, and `subtract` throws `DomainException`, not this class.
- `AccountRegistry`, `TransactionRepository`, `AccountingEntry` and `AccountDoesNotExistException` are not part of this model.
- Amounts.Amount.Add: does not model PHP integer overflow. `value` is a typed `int` property, so a `+=` whose result leaves the 64-bit range throws `TypeError` and leaves the value unchanged; the model's unbounded `value` never fails.
- Amounts.Amount.Subtract: does not model PHP integer overflow either. A `-=` whose result leaves the 64-bit range (for example `subtract(-1)` on the largest int, which passes the guard) throws `TypeError` and leaves the value unchanged; the model returns `Pass`.
- Aliasing between owners: two `Account` objects may share one `Amount` in PHP too; the model keeps the reference but proves nothing about sharing.
