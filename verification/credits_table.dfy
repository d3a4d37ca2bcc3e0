/** The per-user balance store of `src/lib/credits.ts`: the `credits`
    table keyed by `user_id`, whose `amount` may be null. Each operation
    takes the failures of the remote calls it makes as parameters; the
    store reports no error to `setCredits`, so a failed write is lost. */
module Credits {

  import opened Common

  class CreditsTable {

    /** `user_id` to `amount`; a missing key is a missing row. */
    var amounts: map<string, Option<int>>

    constructor(initial: map<string, Option<int>>)
      ensures amounts == initial
    {
      amounts := initial;
    }

    /** What a successful read yields: the stored amount, or 0 for a missing
        row or a null amount. */
    function Balance(userId: string): int
      reads this
    {
      if userId in amounts && amounts[userId].Some? then amounts[userId].value else 0
    }

    /** No stored amount is negative. */
    predicate NonNegative()
      reads this
    {
      forall u :: u in amounts && amounts[u].Some? ==> amounts[u].value >= 0
    }

    /** `getCredits`: a failed lookup reads as 0, like a missing row. */
    method GetCredits(userId: string, readFails: bool) returns (amount: int)
      ensures amount == (if readFails then 0 else Balance(userId))
      ensures !readFails && userId !in amounts ==> amount == 0
      ensures !readFails && userId in amounts && amounts[userId].Some? ==> amount == amounts[userId].value
    {
      if readFails || userId !in amounts {
        return 0;
      }
      match amounts[userId]
      case None => amount := 0;
      case Some(a) => amount := a;
    }

    /** `setCredits`: an upsert of the user's row; no other row changes. */
    method SetCredits(userId: string, amount: int, writeFails: bool)
      modifies this
      ensures writeFails ==> amounts == old(amounts)
      ensures !writeFails ==> amounts == old(amounts)[userId := Some(amount)]
      ensures !writeFails ==> Balance(userId) == amount
    {
      if !writeFails {
        amounts := amounts[userId := Some(amount)];
      }
    }

    /** `addCredits`: read, then write the sum. A failed read counts as 0,
        so the write replaces the stored balance with `amount`. */
    method AddCredits(userId: string, amount: int, readFails: bool, writeFails: bool)
      modifies this
      ensures writeFails ==> amounts == old(amounts)
      ensures !writeFails ==> amounts == old(amounts)[userId := Some((if readFails then 0 else old(Balance(userId))) + amount)]
      ensures !writeFails && !readFails ==> Balance(userId) == old(Balance(userId)) + amount
    {
      var current := GetCredits(userId, readFails);
      SetCredits(userId, current + amount, writeFails);
    }

    /** `deductCredits`: refused, with nothing written, when the balance read
        is below `amount`; otherwise the balance read minus `amount` is written. */
    method DeductCredits(userId: string, amount: int, readFails: bool, writeFails: bool) returns (ok: bool)
      modifies this
      ensures var current := if readFails then 0 else old(Balance(userId));
        && (ok <==> Deduct(current, amount).Some?)
        && (!ok || writeFails ==> amounts == old(amounts))
        && (ok && !writeFails ==> amounts == old(amounts)[userId := Deduct(current, amount)])
      ensures ok && !writeFails ==> Balance(userId) >= 0
      ensures old(NonNegative()) ==> NonNegative()
    {
      var current := GetCredits(userId, readFails);
      if current < amount {
        return false;
      }
      SetCredits(userId, current - amount, writeFails);
      ok := true;
    }
  }

  /** The balance a deduction leaves, if it goes through. */
  function Deduct(current: int, amount: int): (r: Option<int>)
    ensures r.Some? <==> amount <= current
    ensures r.Some? ==> r.value >= 0 && r.value + amount == current
  {
    if current < amount then None else Some(current - amount)
  }

  /** Spending exactly the balance leaves 0; spending one more is refused. */
  lemma SpendExactBalance(current: int)
    ensures Deduct(current, current) == Some(0)
    ensures Deduct(current, current + 1) == None
  {
  }

  /** Composing the store's methods: a successful deduction followed by
      adding the amount back leaves the user's balance as it was, and no
      other user's row changes. */
  method DeductThenAdd(table: CreditsTable, userId: string, amount: int) returns (ok: bool)
    modifies table
    ensures ok <==> old(table.Balance(userId)) >= amount
    ensures ok ==> table.Balance(userId) == old(table.Balance(userId))
    ensures forall u :: u != userId ==> (u in table.amounts <==> u in old(table.amounts))
    ensures forall u :: u != userId && u in table.amounts ==> table.amounts[u] == old(table.amounts)[u]
  {
    ok := table.DeductCredits(userId, amount, false, false);
    if ok {
      table.AddCredits(userId, amount, false, false);
    }
  }
}
