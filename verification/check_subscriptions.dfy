/** The monthly renewal sweep behind `GET /api/check-subscriptions`
    (`src/app/api/check-subscriptions/route.ts`).

    The `subscriptions` table is a sequence of rows; the sweep walks it in
    order and handles the rows the select returns (status `active`; every
    plan value of the model is one of `free`, `premium`, `business`). Since
    `id` is the primary key, the update `.eq("id", subscription.id)` writes
    exactly the row being handled. Remote failures are given as `Faults`:
    which subscription's payment lookup fails and which one's update fails. */
module CheckSubscriptions {

  import opened Common
  import opened Types
  import opened Calendar
  import opened Schema

  // ---------------------------------------------------------------------
  // Credits granted on renewal

  /** `CREDITS_CONFIG`. */
  const CreditsConfig: map<string, nat> := map[
    "free" := 30,
    "premium_monthly" := 300,
    "premium_annual" := 1000,
    "business_monthly" := 1000,
    "business_annual" := 3000]

  /** `${subscription.plan}_${subscription.type}`. */
  function PlanKey(plan: Plan, billing: BillingType): string {
    PlanName(plan) + "_" + BillingName(billing)
  }

  /** `CREDITS_CONFIG[planKey] || CREDITS_CONFIG.free`. */
  function CreditsToAdd(plan: Plan, billing: BillingType): nat {
    var key := PlanKey(plan, billing);
    if key in CreditsConfig && CreditsConfig[key] != 0 then CreditsConfig[key] else CreditsConfig["free"]
  }

  /** The credits a renewal grants, per plan and billing type; the free plan
      has no `free_<type>` key and falls back to the `free` entry. */
  lemma CreditsToAddByPlan(plan: Plan, billing: BillingType)
    ensures plan == Free ==> CreditsToAdd(plan, billing) == 30
    ensures plan == Premium ==> CreditsToAdd(plan, billing) == (if billing == Monthly then 300 else 1000)
    ensures plan == Business ==> CreditsToAdd(plan, billing) == (if billing == Monthly then 1000 else 3000)
  {
    var key := PlanKey(plan, billing);
    match (plan, billing)
    case (Free, Monthly) =>
      assert key == "free_monthly";
    case (Free, Annual) =>
      assert key == "free_annual";
    case (Premium, Monthly) =>
      assert key == "premium_monthly";
    case (Premium, Annual) =>
      assert key == "premium_annual";
    case (Business, Monthly) =>
      assert key == "business_monthly";
    case (Business, Annual) =>
      assert key == "business_annual";
  }

  // ---------------------------------------------------------------------
  // Authorization

  /** `Bearer ${process.env.CRON_SECRET}`: an unset secret prints as `undefined`. */
  function ExpectedAuthorization(cronSecret: Option<string>): string {
    "Bearer " + (if cronSecret.Some? then cronSecret.value else "undefined")
  }

  predicate Authorized(authHeader: Option<string>, cronSecret: Option<string>) {
    authHeader == Some(ExpectedAuthorization(cronSecret))
  }

  /** With `CRON_SECRET` unset, the literal header `Bearer undefined` passes the guard. */
  lemma UnsetSecretAcceptsUndefined()
    ensures Authorized(Some("Bearer undefined"), None)
    ensures !Authorized(None, None)
  {
    assert ExpectedAuthorization(None) == "Bearer " + "undefined" == "Bearer undefined";
  }

  // ---------------------------------------------------------------------
  // The payment window

  /** `new Date(now.getFullYear(), now.getMonth(), 1)`. */
  function StartOfMonth(now: nat): int {
    MakeDate(FullYear(now), Month(now), 1)
  }

  /** `new Date(now.getFullYear(), now.getMonth() + 1, 0)`: day 0 of the next
      month, that is the last day of this month at 00:00. */
  function EndOfMonth(now: nat): int {
    MakeDate(FullYear(now), Month(now) + 1, 0)
  }

  /** A payment the query matches for this user: `approved`, and created
      within [StartOfMonth, EndOfMonth], both ends included. */
  predicate InWindow(p: Payment, userId: string, now: nat) {
    p.userId == userId && p.status == "approved" && StartOfMonth(now) <= p.createdAt <= EndOfMonth(now)
  }

  /** The rows the payment query can return (before its `limit(1)`). */
  function ApprovedThisMonth(payments: seq<Payment>, userId: string, now: nat): (found: seq<Payment>)
    ensures forall p :: p in found <==> p in payments && InWindow(p, userId, now)
  {
    if payments == [] then []
    else
      var rest := ApprovedThisMonth(payments[1..], userId, now);
      if InWindow(payments[0], userId, now) then [payments[0]] + rest else rest
  }

  /** `hasPayment`: the limited query returns a row exactly when some approved
      payment of the user lies in the window. */
  predicate HasPayment(payments: seq<Payment>, userId: string, now: nat) {
    |ApprovedThisMonth(payments, userId, now)| > 0
  }

  lemma HasPaymentIff(payments: seq<Payment>, userId: string, now: nat)
    ensures HasPayment(payments, userId, now) <==> exists p :: p in payments && InWindow(p, userId, now)
  {
    var found := ApprovedThisMonth(payments, userId, now);
    if found != [] {
      assert found[0] in found;
    }
  }

  /** The window starts on day 1 of the current month at 00:00, no later than `now`. */
  lemma WindowStart(now: nat)
    ensures 0 <= StartOfMonth(now) <= now
    ensures FullYear(StartOfMonth(now)) == FullYear(now)
    ensures Month(StartOfMonth(now)) == Month(now) && Date(StartOfMonth(now)) == 1
  {
    var d := now / MsPerDay;
    MakeDayOfCivil(d);
    assert MakeDay(FullYear(now), Month(now), 1) <= d;
    MidnightNotAfter(MakeDay(FullYear(now), Month(now), 1), now);
    CivilOfMidnight(FullYear(now), Month(now), 1);
  }

  /** The window ends on the last day of the current month at 00:00 sharp. */
  lemma WindowEnd(now: nat)
    ensures EndOfMonth(now) == MakeDate(FullYear(now), Month(now), DaysInMonth(FullYear(now), Month(now)))
    ensures EndOfMonth(now) >= 0 && EndOfMonth(now) % MsPerDay == 0
    ensures FullYear(EndOfMonth(now)) == FullYear(now) && Month(EndOfMonth(now)) == Month(now)
    ensures Date(EndOfMonth(now)) == DaysInMonth(FullYear(now), Month(now))
  {
    var y, m := FullYear(now), Month(now);
    var last := DaysInMonth(y, m);
    MakeDayOverflow(y, m, last);
    assert EndOfMonth(now) == MakeDate(y, m, last);
    CivilOfMidnight(y, m, last);
    WholeDays(MakeDay(y, m, last));
  }

  /** A payment made one millisecond after the window's end is still on the
      last day of the current month, yet outside the window. */
  lemma LastDayAfterMidnightMissed(now: nat, p: Payment)
    requires p.createdAt == EndOfMonth(now) + 1
    ensures FullYear(p.createdAt) == FullYear(now) && Month(p.createdAt) == Month(now)
    ensures !InWindow(p, p.userId, now)
  {
    var y, m := FullYear(now), Month(now);
    WindowEnd(now);
    CivilOfMakeDate(y, m, DaysInMonth(y, m), 1);
  }

  // ---------------------------------------------------------------------
  // One subscription

  /** `new Date(subscription.renew_at)`: a null `renew_at` is the epoch. */
  function RenewInstant(s: Subscription): nat {
    match s.renewAt
    case None => 0
    case Some(t) => t
  }

  /** The first day of the month after `now`'s month comes after `now`, and
      so does every later day of that month. */
  lemma NextMonthAfter(now: nat, date: int)
    requires date >= 1
    ensures MakeDate(FullYear(now), Month(now) + 1, date) > now
  {
    var d := now / MsPerDay;
    NextMonthStartsLater(d);
    assert MakeDay(FullYear(now), Month(now) + 1, date) >= d + 1;
  }

  /** `new Date(now.getFullYear(), now.getMonth() + 1, renewAt.getDate())`. */
  function NextRenewAt(now: nat, renewInstant: nat): (t: nat)
    ensures t > now
  {
    NextMonthAfter(now, Date(renewInstant));
    MakeDate(FullYear(now), Month(now) + 1, Date(renewInstant)) as nat
  }

  /** The year and month after `now`'s month. */
  function NextYear(now: nat): int { FullYear(now) + (Month(now) + 1) / 12 }
  function NextMonth(now: nat): nat { (Month(now) + 1) % 12 }

  /** The new renewal date is `new Date` of the next year and month, on the
      old day of month. */
  lemma NextRenewAtNormal(now: nat, renewInstant: nat)
    ensures NextRenewAt(now, renewInstant) == MakeDate(NextYear(now), NextMonth(now), Date(renewInstant))
  {
    var date := Date(renewInstant);
    MakeDayNormal(FullYear(now), Month(now) + 1, date);
    assert MakeDay(FullYear(now), Month(now) + 1, date) == MakeDay(NextYear(now), NextMonth(now), date);
  }

  /** The renewal date keeps the day of month of the old one, in the month
      after `now`'s month. */
  lemma RenewalKeepsDayOfMonth(now: nat, renewInstant: nat)
    requires Date(renewInstant) <= DaysInMonth(NextYear(now), NextMonth(now))
    ensures FullYear(NextRenewAt(now, renewInstant)) == NextYear(now)
    ensures Month(NextRenewAt(now, renewInstant)) == NextMonth(now)
    ensures Date(NextRenewAt(now, renewInstant)) == Date(renewInstant)
  {
    NextRenewAtNormal(now, renewInstant);
    CivilOfMidnight(NextYear(now), NextMonth(now), Date(renewInstant));
  }

  /** A day of month that the next month lacks rolls over into the month
      after it, as `new Date` does: a subscription renewing on the 31st and
      renewed in January falls due on March 2nd or 3rd. */
  lemma RenewalRollsOver(now: nat, renewInstant: nat)
    requires Date(renewInstant) > DaysInMonth(NextYear(now), NextMonth(now))
    ensures var y, m := NextYear(now), NextMonth(now);
      && FullYear(NextRenewAt(now, renewInstant)) == y + (m + 1) / 12
      && Month(NextRenewAt(now, renewInstant)) == (m + 1) % 12
      && Date(NextRenewAt(now, renewInstant)) == Date(renewInstant) - DaysInMonth(y, m)
  {
    NextRenewAtNormal(now, renewInstant);
    CivilOfOverflow(NextYear(now), NextMonth(now), Date(renewInstant));
  }

  /** `subscription.credits_remaining + creditsToAdd`: JavaScript's `+`
      reads a null balance as 0. */
  function AddToBalance(balance: Option<int>, amount: nat): int {
    if balance.Some? then balance.value + amount else amount
  }

  /** The row after a successful renewal. */
  function Renewed(s: Subscription, now: nat): Subscription {
    s.(renewAt := Some(NextRenewAt(now, RenewInstant(s))),
       creditsRemaining := Some(AddToBalance(s.creditsRemaining, CreditsToAdd(s.plan, s.billing))),
       updatedAt := now)
  }

  /** The row after a successful downgrade. */
  function Downgraded(s: Subscription, now: nat): Subscription {
    s.(plan := Free, status := Inactive, billing := Monthly,
       creditsRemaining := Some(CreditsConfig["free"]), renewAt := None, updatedAt := now)
  }

  datatype SweepError =
    | PaymentLookupFailed(userId: string)
    | RenewFailed(subscriptionId: string)
    | DowngradeFailed(subscriptionId: string)

  /** Which remote calls fail: the payment lookup of the subscriptions in
      `lookupFails`, the update of those in `writeFails`, or the select itself. */
  datatype Faults = Faults(fetchFails: bool, lookupFails: set<string>, writeFails: set<string>)

  /** What the sweep does with one row. */
  datatype Outcome = NotFetched | NotDue | Failed(error: SweepError) | RenewedOk | DowngradedOk

  function OutcomeOf(s: Subscription, payments: seq<Payment>, now: nat, faults: Faults): Outcome {
    if s.status != Active then NotFetched
    else if RenewInstant(s) > now then NotDue
    else if s.id in faults.lookupFails then Failed(PaymentLookupFailed(s.userId))
    else if HasPayment(payments, s.userId, now) then
      (if s.id in faults.writeFails then Failed(RenewFailed(s.id)) else RenewedOk)
    else if s.id in faults.writeFails then Failed(DowngradeFailed(s.id))
    else DowngradedOk
  }

  function RowAfter(s: Subscription, payments: seq<Payment>, now: nat, faults: Faults): Subscription {
    match OutcomeOf(s, payments, now, faults)
    case RenewedOk => Renewed(s, now)
    case DowngradedOk => Downgraded(s, now)
    case _ => s
  }

  /** What the sweep does to one subscription: a row it does not fetch, one not
      yet due and one whose lookup or update fails are left as they were; a
      due row with a payment this month is renewed, one without is downgraded. */
  lemma RowTransitions(s: Subscription, payments: seq<Payment>, now: nat, faults: Faults)
    ensures var o, r := OutcomeOf(s, payments, now, faults), RowAfter(s, payments, now, faults);
      && (s.status != Active <==> o == NotFetched)
      && (s.status == Active && RenewInstant(s) > now <==> o == NotDue)
      && (s.renewAt.None? && s.status == Active ==> o != NotDue)
      && (o.Failed? || o == NotDue || o == NotFetched <==> r == s)
      && (o == RenewedOk <==> s.status == Active && RenewInstant(s) <= now && s.id !in faults.lookupFails
                              && HasPayment(payments, s.userId, now) && s.id !in faults.writeFails)
      && (o == RenewedOk ==>
            && r.renewAt.Some? && r.renewAt.value > now
            && (s.creditsRemaining.Some? ==>
                  r.creditsRemaining == Some(s.creditsRemaining.value + CreditsToAdd(s.plan, s.billing)))
            && (s.creditsRemaining.None? ==> r.creditsRemaining == Some(CreditsToAdd(s.plan, s.billing)))
            && r.plan == s.plan && r.status == Active && r.billing == s.billing)
      && (o == DowngradedOk <==> s.status == Active && RenewInstant(s) <= now && s.id !in faults.lookupFails
                                 && !HasPayment(payments, s.userId, now) && s.id !in faults.writeFails)
      && (o == DowngradedOk ==>
            r.plan == Free && r.status == Inactive && r.billing == Monthly
            && r.creditsRemaining == Some(30) && r.renewAt == None)
  {
    var o := OutcomeOf(s, payments, now, faults);
    if o == RenewedOk {
      assert Renewed(s, now) != s by {
        assert Renewed(s, now).renewAt.value > now >= RenewInstant(s);
      }
    } else if o == DowngradedOk {
      assert Downgraded(s, now).status != s.status;
    }
  }

  // ---------------------------------------------------------------------
  // The whole sweep

  datatype Results = Results(checked: nat, renewed: nat, downgraded: nat, errors: seq<SweepError>)

  /** The counters after one more row. */
  function Record(r: Results, o: Outcome): Results {
    match o
    case NotFetched => r
    case NotDue => r.(checked := r.checked + 1)
    case Failed(e) => r.(checked := r.checked + 1, errors := r.errors + [e])
    case RenewedOk => r.(checked := r.checked + 1, renewed := r.renewed + 1)
    case DowngradedOk => r.(checked := r.checked + 1, downgraded := r.downgraded + 1)
  }

  /** The `results` object after the loop has handled `rows`. */
  function Tally(rows: seq<Subscription>, payments: seq<Payment>, now: nat, faults: Faults): Results
    decreases |rows|
  {
    if rows == [] then Results(0, 0, 0, [])
    else Record(Tally(rows[..|rows| - 1], payments, now, faults), OutcomeOf(rows[|rows| - 1], payments, now, faults))
  }

  /** The table after the loop: each row is handled on its own. */
  function SweptTable(rows: seq<Subscription>, payments: seq<Payment>, now: nat, faults: Faults): seq<Subscription> {
    seq(|rows|, i requires 0 <= i < |rows| => RowAfter(rows[i], payments, now, faults))
  }

  /** The body of the loop of `GET` for one fetched subscription: the row
      it leaves and the counters after it. */
  method HandleSubscription(subscription: Subscription, payments: seq<Payment>, now: nat, faults: Faults, results: Results)
    returns (row: Subscription, results': Results)
    ensures row == RowAfter(subscription, payments, now, faults)
    ensures results' == Record(results, OutcomeOf(subscription, payments, now, faults))
  {
    row, results' := subscription, results;
    if subscription.status != Active {
      return;
    }
    results' := results'.(checked := results'.checked + 1);
    if RenewInstant(subscription) > now {
      return;
    }
    if subscription.id in faults.lookupFails {
      results' := results'.(errors := results'.errors + [PaymentLookupFailed(subscription.userId)]);
      return;
    }
    var payment := ApprovedThisMonth(payments, subscription.userId, now);
    if |payment| > 0 {
      if subscription.id in faults.writeFails {
        results' := results'.(errors := results'.errors + [RenewFailed(subscription.id)]);
      } else {
        row := Renewed(subscription, now);
        results' := results'.(renewed := results'.renewed + 1);
      }
    } else {
      if subscription.id in faults.writeFails {
        results' := results'.(errors := results'.errors + [DowngradeFailed(subscription.id)]);
      } else {
        row := Downgraded(subscription, now);
        results' := results'.(downgraded := results'.downgraded + 1);
      }
    }
  }

  /** The loop of `GET`: one pass over the fetched subscriptions. */
  method Sweep(subscriptions: seq<Subscription>, payments: seq<Payment>, now: nat, faults: Faults)
    returns (table: seq<Subscription>, results: Results)
    ensures table == SweptTable(subscriptions, payments, now, faults)
    ensures results == Tally(subscriptions, payments, now, faults)
  {
    table := subscriptions;
    results := Results(0, 0, 0, []);
    var i := 0;
    while i < |subscriptions|
      invariant 0 <= i <= |subscriptions| && |table| == |subscriptions|
      invariant forall k :: 0 <= k < i ==> table[k] == RowAfter(subscriptions[k], payments, now, faults)
      invariant forall k :: i <= k < |table| ==> table[k] == subscriptions[k]
      invariant results == Tally(subscriptions[..i], payments, now, faults)
    {
      assert subscriptions[..i + 1][..i] == subscriptions[..i];
      var row;
      row, results := HandleSubscription(subscriptions[i], payments, now, faults, results);
      table := table[i := row];
      i := i + 1;
    }
    assert subscriptions[..i] == subscriptions;
  }

  datatype Response = Unauthorized | FetchFailed | Swept(results: Results)

  function StatusCode(r: Response): nat {
    match r
    case Unauthorized => 401
    case FetchFailed => 500
    case Swept(_) => 200
  }

  /** `GET`: the bearer check, the select of active subscriptions, then the sweep. */
  method Get(authHeader: Option<string>, cronSecret: Option<string>, now: nat,
             subscriptions: seq<Subscription>, payments: seq<Payment>, faults: Faults)
    returns (response: Response, table: seq<Subscription>)
    ensures !Authorized(authHeader, cronSecret) ==> response == Unauthorized && table == subscriptions
    ensures Authorized(authHeader, cronSecret) && faults.fetchFails ==> response == FetchFailed && table == subscriptions
    ensures Authorized(authHeader, cronSecret) && !faults.fetchFails ==>
      response == Swept(Tally(subscriptions, payments, now, faults))
      && table == SweptTable(subscriptions, payments, now, faults)
    ensures StatusCode(response) == 200 <==> Authorized(authHeader, cronSecret) && !faults.fetchFails
  {
    if authHeader != Some(ExpectedAuthorization(cronSecret)) {
      return Unauthorized, subscriptions;
    }
    if faults.fetchFails {
      return FetchFailed, subscriptions;
    }
    var results;
    table, results := Sweep(subscriptions, payments, now, faults);
    response := Swept(results);
  }

  // ---------------------------------------------------------------------
  // Properties of the sweep

  /** Subscriptions the select returns. */
  function ActiveCount(rows: seq<Subscription>): nat
    decreases |rows|
  {
    if rows == [] then 0
    else ActiveCount(rows[..|rows| - 1]) + (if rows[|rows| - 1].status == Active then 1 else 0)
  }

  /** Fetched subscriptions that are not yet due. */
  function NotDueCount(rows: seq<Subscription>, now: nat): nat
    decreases |rows|
  {
    if rows == [] then 0
    else
      var s := rows[|rows| - 1];
      NotDueCount(rows[..|rows| - 1], now) + (if s.status == Active && RenewInstant(s) > now then 1 else 0)
  }

  /** Every fetched subscription is checked, and each checked one is exactly
      one of: skipped as not due, renewed, downgraded, or reported in `errors`. */
  lemma {:induction false} TallyAccounts(rows: seq<Subscription>, payments: seq<Payment>, now: nat, faults: Faults)
    ensures var r := Tally(rows, payments, now, faults);
      && r.checked == ActiveCount(rows)
      && r.checked == NotDueCount(rows, now) + r.renewed + r.downgraded + |r.errors|
    decreases |rows|
  {
    if rows != [] {
      TallyAccounts(rows[..|rows| - 1], payments, now, faults);
    }
  }

  /** A row the sweep settled (renewed, downgraded, skipped or not fetched) is
      left alone by another sweep at the same instant, whatever the payments
      and failures of that second sweep. */
  lemma SettledRowIsQuiet(s: Subscription, payments: seq<Payment>, now: nat, faults: Faults,
                          payments2: seq<Payment>, faults2: Faults)
    requires !OutcomeOf(s, payments, now, faults).Failed?
    ensures var o2 := OutcomeOf(RowAfter(s, payments, now, faults), payments2, now, faults2);
      o2 == NotFetched || o2 == NotDue
  {
    RowTransitions(s, payments, now, faults);
  }

  /** A sweep that reports no error had no failing row. */
  lemma {:induction false} NoErrorsNoFailures(rows: seq<Subscription>, payments: seq<Payment>, now: nat, faults: Faults)
    requires Tally(rows, payments, now, faults).errors == []
    ensures forall i :: 0 <= i < |rows| ==> !OutcomeOf(rows[i], payments, now, faults).Failed?
    decreases |rows|
  {
    if rows != [] {
      var init := rows[..|rows| - 1];
      var prev := Tally(init, payments, now, faults);
      assert prev.errors <= Tally(rows, payments, now, faults).errors;
      NoErrorsNoFailures(init, payments, now, faults);
      forall i | 0 <= i < |rows|
        ensures !OutcomeOf(rows[i], payments, now, faults).Failed?
      {
        if i < |rows| - 1 {
          assert rows[i] == init[i];
        }
      }
    }
  }

  /** A sweep over rows that are all quiet changes no row and counts nothing
      but skips. */
  lemma {:induction false} QuietSweep(rows: seq<Subscription>, payments: seq<Payment>, now: nat, faults: Faults)
    requires forall i :: 0 <= i < |rows| ==>
      OutcomeOf(rows[i], payments, now, faults) == NotFetched || OutcomeOf(rows[i], payments, now, faults) == NotDue
    ensures SweptTable(rows, payments, now, faults) == rows
    ensures var r := Tally(rows, payments, now, faults); r.renewed == 0 && r.downgraded == 0 && r.errors == []
    decreases |rows|
  {
    if rows != [] {
      var init := rows[..|rows| - 1];
      forall i | 0 <= i < |init|
        ensures OutcomeOf(init[i], payments, now, faults) == NotFetched || OutcomeOf(init[i], payments, now, faults) == NotDue
      {
        assert init[i] == rows[i];
      }
      QuietSweep(init, payments, now, faults);
    }
  }

  /** Running the sweep a second time at the same instant, after a sweep that
      reported no error, renews nothing, downgrades nothing and changes no row:
      renewed rows now fall due after `now`, downgraded rows are no longer
      `active`. */
  lemma SecondSweepIsNoOp(rows: seq<Subscription>, payments: seq<Payment>, now: nat, faults: Faults,
                          payments2: seq<Payment>, faults2: Faults)
    requires Tally(rows, payments, now, faults).errors == []
    ensures var t1 := SweptTable(rows, payments, now, faults);
      && SweptTable(t1, payments2, now, faults2) == t1
      && Tally(t1, payments2, now, faults2).renewed == 0
      && Tally(t1, payments2, now, faults2).downgraded == 0
      && Tally(t1, payments2, now, faults2).errors == []
  {
    NoErrorsNoFailures(rows, payments, now, faults);
    var t1 := SweptTable(rows, payments, now, faults);
    forall i | 0 <= i < |t1|
      ensures OutcomeOf(t1[i], payments2, now, faults2) == NotFetched || OutcomeOf(t1[i], payments2, now, faults2) == NotDue
    {
      SettledRowIsQuiet(rows[i], payments, now, faults, payments2, faults2);
    }
    QuietSweep(t1, payments2, now, faults2);
  }

  /** A failing update of one subscription changes nothing about the others:
      every other row ends as it would have. */
  lemma FailureIsIsolated(rows: seq<Subscription>, payments: seq<Payment>, now: nat, faults: Faults, id: string)
    ensures var faults2 := faults.(writeFails := faults.writeFails + {id});
      forall i :: 0 <= i < |rows| && rows[i].id != id ==>
        SweptTable(rows, payments, now, faults2)[i] == SweptTable(rows, payments, now, faults)[i]
  {
    var faults2 := faults.(writeFails := faults.writeFails + {id});
    forall i | 0 <= i < |rows| && rows[i].id != id
      ensures RowAfter(rows[i], payments, now, faults2) == RowAfter(rows[i], payments, now, faults)
    {
      assert OutcomeOf(rows[i], payments, now, faults2) == OutcomeOf(rows[i], payments, now, faults);
    }
  }

  /** Failures only move rows between the counters: `checked` is the number of
      fetched subscriptions whatever fails. */
  lemma CheckedIgnoresFaults(rows: seq<Subscription>, payments: seq<Payment>, now: nat, faults: Faults,
                             payments2: seq<Payment>, faults2: Faults)
    ensures Tally(rows, payments2, now, faults2).checked == Tally(rows, payments, now, faults).checked
  {
    TallyAccounts(rows, payments, now, faults);
    TallyAccounts(rows, payments2, now, faults2);
  }
}
