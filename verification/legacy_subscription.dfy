/** The older subscription actions (`src/lib/actions/subscription.ts`):
    the daily renewal check over a separate `credits` table, the soft
    cancellation and the status read-out.

    Dates of this module are day numbers (day 0 is 1970-01-01): the source
    compares `YYYY-MM-DD` strings, which order as the days they name.
    Remote failures are parameters: the select, the payment lookup of a
    given subscription id, and the two updates made for a subscription id. */
module LegacySubscription {

  import opened Common
  import opened Types
  import opened Calendar

  /** `PLAN_VALUES`, in centavos. */
  function PlanValue(p: Plan): nat {
    match p
    case Free => 0
    case Premium => 2990
    case Business => 9990
  }

  /** `PLAN_CREDITS`. */
  function PlanCredits(p: Plan): nat {
    match p
    case Free => 10
    case Premium => 100
    case Business => 500
  }

  /** This file's tables disagree with the catalog of `src/lib/types.ts`:
      fewer credits for every plan, and a dearer business plan. */
  lemma LegacyTablesDisagreeWithCatalog(p: Plan)
    ensures PlanCredits(p) < Plans(p).credits
    ensures p != Business ==> PlanValue(p) == Plans(p).priceCents
    ensures PlanValue(Business) > Plans(Business).priceCents
  {
  }

  datatype LegacyStatus = Ativo | Cancelado | Expirado

  /** A row of this module's `subscriptions` table. */
  datatype Row = Row(id: string, userId: string, plan: Plan, status: LegacyStatus,
                     nextBillingDate: Option<int>, updatedAt: nat)

  /** A `credits` row. */
  datatype CreditsRow = CreditsRow(userId: string, total: int, used: int, available: int, updatedAt: nat)

  /** A `payments` row as this module reads it. */
  datatype LegacyPayment = LegacyPayment(id: string, userId: string, subscriptionId: string, paymentDate: int)

  /** `new Date().toISOString().split("T")[0]`, as a day number. */
  function Today(now: nat): nat { now / MsPerDay }

  // ---------------------------------------------------------------------
  // Row lookups

  /** The rows `.eq("user_id", userId)` matches, in table order. */
  function UserRows(subscriptions: seq<Row>, userId: string): (rows: seq<Row>)
    ensures forall r :: r in rows <==> r in subscriptions && r.userId == userId
    ensures |rows| <= |subscriptions|
  {
    if subscriptions == [] then []
    else
      var rest := UserRows(subscriptions[1..], userId);
      if subscriptions[0].userId == userId then [subscriptions[0]] + rest else rest
  }

  function UserCredits(credits: seq<CreditsRow>, userId: string): (rows: seq<CreditsRow>)
    ensures forall c :: c in rows <==> c in credits && c.userId == userId
    ensures |rows| <= |credits|
  {
    if credits == [] then []
    else
      var rest := UserCredits(credits[1..], userId);
      if credits[0].userId == userId then [credits[0]] + rest else rest
  }

  // ---------------------------------------------------------------------
  // checkSubscriptionRenewal

  /** The select: a paid plan, status `ativo`, billing date on or before today. */
  predicate Selected(s: Row, today: int) {
    (s.plan == Premium || s.plan == Business) && s.status == Ativo
    && s.nextBillingDate.Some? && s.nextBillingDate.value <= today
  }

  /** The payments the lookup matches: this user, this subscription, dated today or later. */
  function MatchingPayments(payments: seq<LegacyPayment>, s: Row, today: int): (found: seq<LegacyPayment>)
    ensures forall p :: p in found <==> p in payments && p.userId == s.userId && p.subscriptionId == s.id && p.paymentDate >= today
    ensures |found| <= |payments|
  {
    if payments == [] then []
    else
      var p := payments[0];
      var rest := MatchingPayments(payments[1..], s, today);
      if p.userId == s.userId && p.subscriptionId == s.id && p.paymentDate >= today then [p] + rest else rest
  }

  /** Which remote calls fail, by subscription id. */
  datatype LegacyFaults = LegacyFaults(fetchFails: bool, lookupFails: set<string>,
                                       subscriptionWriteFails: set<string>, creditsWriteFails: set<string>)

  /** `payment && !paymentError` after `.single()`: exactly one matching row
      and no lookup error. */
  predicate PaymentFound(s: Row, payments: seq<LegacyPayment>, today: int, faults: LegacyFaults) {
    s.id !in faults.lookupFails && |MatchingPayments(payments, s, today)| == 1
  }

  /** `.single()` reports an error for two matching payments as for none: a
      subscription paid twice expires. */
  lemma DuplicatePaymentExpires(s: Row, payments: seq<LegacyPayment>, today: int, faults: LegacyFaults)
    requires |MatchingPayments(payments, s, today)| != 1
    ensures !PaymentFound(s, payments, today, faults)
  {
  }

  function Renewed(s: Row, now: nat): Row {
    s.(nextBillingDate := Some(Today(now) + 30), updatedAt := now)
  }

  function Expired(s: Row, now: nat): Row {
    s.(status := Expirado, plan := Free, nextBillingDate := None, updatedAt := now)
  }

  /** A subscription row after the check: the update is lost when it fails. */
  function RowAfter(s: Row, payments: seq<LegacyPayment>, now: nat, faults: LegacyFaults): Row {
    if !Selected(s, Today(now)) || s.id in faults.subscriptionWriteFails then s
    else if PaymentFound(s, payments, Today(now), faults) then Renewed(s, now)
    else Expired(s, now)
  }

  /** The two updates of the `credits` rows of a user. */
  datatype CreditsUpdate = ResetTo(planCredits: nat) | FreeTier

  function ApplyCredits(c: CreditsRow, u: CreditsUpdate, now: nat): CreditsRow {
    match u
    case ResetTo(n) => c.(total := n, used := 0, available := n, updatedAt := now)
    case FreeTier => c.(total := PlanCredits(Free), available := PlanCredits(Free), updatedAt := now)
  }

  /** A renewal restores `available == total - used`; an expiry keeps the
      used credits, so a user who had spent any is left with more available
      credits than `total - used`. */
  lemma CreditsBalanceAfterUpdate(c: CreditsRow, n: nat, now: nat)
    ensures var r := ApplyCredits(c, ResetTo(n), now); r.available == r.total - r.used == n
    ensures var e := ApplyCredits(c, FreeTier, now);
      e.used == c.used && (c.used > 0 <==> e.available > e.total - e.used)
  {
  }

  /** `.update(...).eq("user_id", userId)` on the credits table. */
  function UpdateUserCredits(credits: seq<CreditsRow>, userId: string, u: CreditsUpdate, now: nat): (r: seq<CreditsRow>)
    ensures |r| == |credits|
    ensures forall i :: 0 <= i < |credits| ==>
      r[i] == (if credits[i].userId == userId then ApplyCredits(credits[i], u, now) else credits[i])
  {
    seq(|credits|, i requires 0 <= i < |credits| =>
      if credits[i].userId == userId then ApplyCredits(credits[i], u, now) else credits[i])
  }

  /** The credits table after handling one subscription. */
  function CreditsStep(credits: seq<CreditsRow>, s: Row, payments: seq<LegacyPayment>, now: nat, faults: LegacyFaults): seq<CreditsRow> {
    if !Selected(s, Today(now)) || s.id in faults.creditsWriteFails then credits
    else if PaymentFound(s, payments, Today(now), faults) then UpdateUserCredits(credits, s.userId, ResetTo(PlanCredits(s.plan)), now)
    else UpdateUserCredits(credits, s.userId, FreeTier, now)
  }

  /** The credits table after handling `rows` in order. */
  function CreditsAfter(rows: seq<Row>, credits: seq<CreditsRow>, payments: seq<LegacyPayment>, now: nat, faults: LegacyFaults): seq<CreditsRow>
    decreases |rows|
  {
    if rows == [] then credits
    else CreditsStep(CreditsAfter(rows[..|rows| - 1], credits, payments, now, faults), rows[|rows| - 1], payments, now, faults)
  }

  function SweptRows(rows: seq<Row>, payments: seq<LegacyPayment>, now: nat, faults: LegacyFaults): seq<Row> {
    seq(|rows|, i requires 0 <= i < |rows| => RowAfter(rows[i], payments, now, faults))
  }

  datatype Counts = Counts(renewed: nat, expired: nat)

  /** `renewedCount` and `expiredCount` after handling `rows`: write failures
      are never inspected, so every selected row is counted. */
  function CountsOf(rows: seq<Row>, payments: seq<LegacyPayment>, now: nat, faults: LegacyFaults): Counts
    decreases |rows|
  {
    if rows == [] then Counts(0, 0)
    else
      var c := CountsOf(rows[..|rows| - 1], payments, now, faults);
      var s := rows[|rows| - 1];
      if !Selected(s, Today(now)) then c
      else if PaymentFound(s, payments, Today(now), faults) then c.(renewed := c.renewed + 1)
      else c.(expired := c.expired + 1)
  }

  function SelectedCount(rows: seq<Row>, today: int): nat
    decreases |rows|
  {
    if rows == [] then 0
    else SelectedCount(rows[..|rows| - 1], today) + (if Selected(rows[|rows| - 1], today) then 1 else 0)
  }

  datatype RenewalResult = RenewalResult(success: bool, renewed: nat, expired: nat)

  /** `checkSubscriptionRenewal`. */
  method CheckSubscriptionRenewal(now: nat, subscriptions: seq<Row>, credits: seq<CreditsRow>,
                                  payments: seq<LegacyPayment>, faults: LegacyFaults)
    returns (result: RenewalResult, subscriptions': seq<Row>, credits': seq<CreditsRow>)
    ensures faults.fetchFails ==>
      result == RenewalResult(false, 0, 0) && subscriptions' == subscriptions && credits' == credits
    ensures !faults.fetchFails ==>
      var c := CountsOf(subscriptions, payments, now, faults);
      && result == RenewalResult(true, c.renewed, c.expired)
      && subscriptions' == SweptRows(subscriptions, payments, now, faults)
      && credits' == CreditsAfter(subscriptions, credits, payments, now, faults)
  {
    var today := Today(now);
    if faults.fetchFails {
      return RenewalResult(false, 0, 0), subscriptions, credits;
    }
    if SelectedCount(subscriptions, today) == 0 {
      NothingSelectedIsQuiet(subscriptions, credits, payments, now, faults);
      return RenewalResult(true, 0, 0), subscriptions, credits;
    }
    var renewedCount, expiredCount := 0, 0;
    subscriptions', credits' := subscriptions, credits;
    var i := 0;
    while i < |subscriptions|
      invariant 0 <= i <= |subscriptions| && |subscriptions'| == |subscriptions|
      invariant forall k :: 0 <= k < i ==> subscriptions'[k] == RowAfter(subscriptions[k], payments, now, faults)
      invariant forall k :: i <= k < |subscriptions| ==> subscriptions'[k] == subscriptions[k]
      invariant credits' == CreditsAfter(subscriptions[..i], credits, payments, now, faults)
      invariant Counts(renewedCount, expiredCount) == CountsOf(subscriptions[..i], payments, now, faults)
    {
      var subscription := subscriptions[i];
      assert subscriptions[..i + 1][..i] == subscriptions[..i];
      if Selected(subscription, today) {
        var payment := MatchingPayments(payments, subscription, today);
        if subscription.id !in faults.lookupFails && |payment| == 1 {
          if subscription.id !in faults.subscriptionWriteFails {
            subscriptions' := subscriptions'[i := Renewed(subscription, now)];
          }
          if subscription.id !in faults.creditsWriteFails {
            credits' := UpdateUserCredits(credits', subscription.userId, ResetTo(PlanCredits(subscription.plan)), now);
          }
          renewedCount := renewedCount + 1;
        } else {
          if subscription.id !in faults.subscriptionWriteFails {
            subscriptions' := subscriptions'[i := Expired(subscription, now)];
          }
          if subscription.id !in faults.creditsWriteFails {
            credits' := UpdateUserCredits(credits', subscription.userId, FreeTier, now);
          }
          expiredCount := expiredCount + 1;
        }
      }
      i := i + 1;
    }
    assert subscriptions[..i] == subscriptions;
    result := RenewalResult(true, renewedCount, expiredCount);
  }

  // ---------------------------------------------------------------------
  // Properties of the renewal check

  /** Every selected subscription is either renewed or expired. */
  lemma {:induction false} RenewedPlusExpired(rows: seq<Row>, payments: seq<LegacyPayment>, now: nat, faults: LegacyFaults)
    ensures var c := CountsOf(rows, payments, now, faults); c.renewed + c.expired == SelectedCount(rows, Today(now))
    decreases |rows|
  {
    if rows != [] {
      RenewedPlusExpired(rows[..|rows| - 1], payments, now, faults);
    }
  }

  /** With no row selected, the check changes nothing and counts nothing. */
  lemma {:induction false} NothingSelectedIsQuiet(rows: seq<Row>, credits: seq<CreditsRow>, payments: seq<LegacyPayment>,
                                                  now: nat, faults: LegacyFaults)
    requires SelectedCount(rows, Today(now)) == 0
    ensures forall k :: 0 <= k < |rows| ==> !Selected(rows[k], Today(now))
    ensures SweptRows(rows, payments, now, faults) == rows
    ensures CreditsAfter(rows, credits, payments, now, faults) == credits
    ensures CountsOf(rows, payments, now, faults) == Counts(0, 0)
    decreases |rows|
  {
    if rows != [] {
      var init := rows[..|rows| - 1];
      NothingSelectedIsQuiet(init, credits, payments, now, faults);
      forall k | 0 <= k < |rows|
        ensures !Selected(rows[k], Today(now))
      {
        if k < |rows| - 1 {
          assert rows[k] == init[k];
        }
      }
    }
  }

  /** No row of the table is selected. */
  lemma {:induction false} UnselectedRowsCountZero(rows: seq<Row>, today: int)
    requires forall k :: 0 <= k < |rows| ==> !Selected(rows[k], today)
    ensures SelectedCount(rows, today) == 0
    decreases |rows|
  {
    if rows != [] {
      var init := rows[..|rows| - 1];
      forall k | 0 <= k < |init|
        ensures !Selected(init[k], today)
      {
        assert init[k] == rows[k];
      }
      UnselectedRowsCountZero(init, today);
    }
  }

  /** After a check whose subscription updates all went through, a re-run
      on the same day selects nothing, so it renews and expires nothing and
      leaves both tables as they are: renewed rows are billed 30 days on,
      expired rows are no longer `ativo`. */
  lemma SameDayRerunIsNoOp(rows: seq<Row>, payments: seq<LegacyPayment>, now: nat, faults: LegacyFaults,
                                    credits2: seq<CreditsRow>, payments2: seq<LegacyPayment>, now2: nat, faults2: LegacyFaults)
    requires forall k :: 0 <= k < |rows| && Selected(rows[k], Today(now)) ==> rows[k].id !in faults.subscriptionWriteFails
    requires Today(now2) == Today(now)
    ensures var swept := SweptRows(rows, payments, now, faults);
      && SelectedCount(swept, Today(now2)) == 0
      && SweptRows(swept, payments2, now2, faults2) == swept
      && CreditsAfter(swept, credits2, payments2, now2, faults2) == credits2
      && CountsOf(swept, payments2, now2, faults2) == Counts(0, 0)
  {
    var swept := SweptRows(rows, payments, now, faults);
    forall k | 0 <= k < |swept|
      ensures !Selected(swept[k], Today(now2))
    {
      assert swept[k] == RowAfter(rows[k], payments, now, faults);
      if Selected(rows[k], Today(now)) {
        if PaymentFound(rows[k], payments, Today(now), faults) {
          assert swept[k].nextBillingDate == Some(Today(now) + 30);
        } else {
          assert swept[k].status == Expirado;
        }
      }
    }
    UnselectedRowsCountZero(swept, Today(now2));
    NothingSelectedIsQuiet(swept, credits2, payments2, now2, faults2);
  }

  /** The subscription row of a renewal keeps its plan and status and is
      billed 30 days after today; an expired row is free and unbilled. */
  lemma RowTransitions(s: Row, payments: seq<LegacyPayment>, now: nat, faults: LegacyFaults)
    requires Selected(s, Today(now)) && s.id !in faults.subscriptionWriteFails
    ensures var r := RowAfter(s, payments, now, faults);
      && (PaymentFound(s, payments, Today(now), faults) ==>
            r.nextBillingDate == Some(Today(now) + 30) && r.plan == s.plan && r.status == Ativo)
      && (!PaymentFound(s, payments, Today(now), faults) ==>
            r.status == Expirado && r.plan == Free && r.nextBillingDate == None)
      && r.id == s.id && r.userId == s.userId
  {
  }

  // ---------------------------------------------------------------------
  // cancelSubscription (soft)

  const NotFoundMessage := "Assinatura não encontrada"
  const AlreadyCancelledMessage := "Assinatura já está cancelada"
  const CancelFailedMessage := "Erro ao cancelar assinatura"
  const CancelledMessage := "Assinatura cancelada com sucesso. Você terá acesso até o fim do período atual."

  datatype ActionResult = ActionResult(success: bool, message: string)

  /** `.update({status: "cancelado", updated_at}).eq("user_id", userId)`. */
  function CancelledRows(subscriptions: seq<Row>, userId: string, now: nat): (r: seq<Row>)
    ensures |r| == |subscriptions|
    ensures forall i :: 0 <= i < |r| ==>
      r[i] == (if subscriptions[i].userId == userId then subscriptions[i].(status := Cancelado, updatedAt := now) else subscriptions[i])
  {
    if subscriptions == [] then []
    else
      var s := subscriptions[0];
      [if s.userId == userId then s.(status := Cancelado, updatedAt := now) else s] + CancelledRows(subscriptions[1..], userId, now)
  }

  /** `cancelSubscription`: `.single()` finds the user's one row, a row
      already `cancelado` is refused, any other status (including
      `expirado`) is cancelled. */
  method CancelSubscription(userId: string, now: nat, subscriptions: seq<Row>, fetchFails: bool, updateFails: bool)
    returns (result: ActionResult, subscriptions': seq<Row>)
    ensures fetchFails || |UserRows(subscriptions, userId)| != 1 ==>
      result == ActionResult(false, NotFoundMessage) && subscriptions' == subscriptions
    ensures !fetchFails && |UserRows(subscriptions, userId)| == 1 && UserRows(subscriptions, userId)[0].status == Cancelado ==>
      result == ActionResult(false, AlreadyCancelledMessage) && subscriptions' == subscriptions
    ensures !fetchFails && |UserRows(subscriptions, userId)| == 1 && UserRows(subscriptions, userId)[0].status != Cancelado ==>
      if updateFails then result == ActionResult(false, CancelFailedMessage) && subscriptions' == subscriptions
      else result == ActionResult(true, CancelledMessage) && subscriptions' == CancelledRows(subscriptions, userId, now)
  {
    var found := UserRows(subscriptions, userId);
    if fetchFails || |found| != 1 {
      return ActionResult(false, NotFoundMessage), subscriptions;
    }
    if found[0].status == Cancelado {
      return ActionResult(false, AlreadyCancelledMessage), subscriptions;
    }
    if updateFails {
      return ActionResult(false, CancelFailedMessage), subscriptions;
    }
    return ActionResult(true, CancelledMessage), CancelledRows(subscriptions, userId, now);
  }

  /** The soft cancel changes only the status and `updated_at` of the user's
      rows: plan, billing date and every other user's row are untouched. */
  lemma SoftCancelKeepsPlan(subscriptions: seq<Row>, userId: string, now: nat)
    ensures var r := CancelledRows(subscriptions, userId, now);
      forall i :: 0 <= i < |r| ==>
        && r[i].id == subscriptions[i].id && r[i].plan == subscriptions[i].plan
        && r[i].nextBillingDate == subscriptions[i].nextBillingDate
        && (subscriptions[i].userId == userId ==> r[i].status == Cancelado)
        && (subscriptions[i].userId != userId ==> r[i] == subscriptions[i])
  {
  }

  /** The user's rows are the same rows, cancelled. */
  lemma {:induction false} UserRowsOfCancelled(subscriptions: seq<Row>, userId: string, now: nat)
    ensures var before, after := UserRows(subscriptions, userId), UserRows(CancelledRows(subscriptions, userId, now), userId);
      && |after| == |before|
      && forall i :: 0 <= i < |after| ==> after[i] == before[i].(status := Cancelado, updatedAt := now)
    decreases |subscriptions|
  {
    if subscriptions != [] {
      var cancelled := CancelledRows(subscriptions, userId, now);
      assert cancelled[1..] == CancelledRows(subscriptions[1..], userId, now);
      UserRowsOfCancelled(subscriptions[1..], userId, now);
    }
  }

  /** A second soft cancel of the same user is refused as already cancelled. */
  method CancelTwice(userId: string, now: nat, now2: nat, subscriptions: seq<Row>)
    returns (first: ActionResult, second: ActionResult)
    ensures first.success ==> second == ActionResult(false, AlreadyCancelledMessage)
    ensures first.success <==> |UserRows(subscriptions, userId)| == 1 && UserRows(subscriptions, userId)[0].status != Cancelado
  {
    var after;
    first, after := CancelSubscription(userId, now, subscriptions, false, false);
    UserRowsOfCancelled(subscriptions, userId, now);
    var after2;
    second, after2 := CancelSubscription(userId, now2, after, false, false);
  }

  // ---------------------------------------------------------------------
  // getSubscriptionStatus

  /** `SubscriptionStatusData`; `valor` in centavos. */
  datatype StatusData = StatusData(planoAtual: Plan, valor: nat, proximaCobranca: Option<int>, status: LegacyStatus,
                                   creditosTotais: int, creditosUsados: int, creditosDisponiveis: int)

  /** `getSubscriptionStatus`: null unless both `.single()` lookups find
      exactly one row; otherwise the two rows' fields, one to one. */
  function GetSubscriptionStatus(userId: string, subscriptions: seq<Row>, credits: seq<CreditsRow>,
                                 subscriptionFails: bool, creditsFails: bool): (r: Option<StatusData>)
    ensures r.Some? <==> !subscriptionFails && !creditsFails
                         && |UserRows(subscriptions, userId)| == 1 && |UserCredits(credits, userId)| == 1
    ensures r.Some? ==>
      (exists s, c :: s in subscriptions && s.userId == userId && c in credits && c.userId == userId
        && r.value == StatusData(s.plan, PlanValue(s.plan), s.nextBillingDate, s.status, c.total, c.used, c.available))
  {
    var subs := UserRows(subscriptions, userId);
    var cs := UserCredits(credits, userId);
    if subscriptionFails || |subs| != 1 then None
    else if creditsFails || |cs| != 1 then None
    else
      var s, c := subs[0], cs[0];
      assert s in subs && c in cs;
      Some(StatusData(s.plan, PlanValue(s.plan), s.nextBillingDate, s.status, c.total, c.used, c.available))
  }
}
