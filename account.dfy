/** An account: a number and the one `Amount` that is its balance. */
module Accounts {
  import opened Amounts

  class Account {
    var number: string
    var balance: Amount

    /** Stores the number and the balance object itself (not a copy). */
    constructor (number: string, balance: Amount)
      ensures this.number == number && this.balance == balance
      ensures balance.value == old(balance.value) && balance.currency == old(balance.currency)
    {
      this.number := number;
      this.balance := balance;
    }
  }
}
