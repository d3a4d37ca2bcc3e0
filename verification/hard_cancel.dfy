/** The hard cancellation (`src/lib/actions/cancel-subscription.ts`): one
    unconditional update that puts every subscription row of the user back
    on the free plan, with no prior read. */
module HardCancel {

  import opened Common
  import opened Types
  import opened Schema
  import CheckSubscriptions

  /** A user's row after the update; only `updated_at` depends on when. */
  function FreeRow(s: Subscription, now: nat): Subscription {
    s.(status := Inactive, plan := Free, billing := Monthly, renewAt := None, creditsRemaining := Some(30), updatedAt := now)
  }

  /** `.update({...}).eq("user_id", userId)`. */
  function CancelledTable(subscriptions: seq<Subscription>, userId: string, now: nat): (r: seq<Subscription>)
    ensures |r| == |subscriptions|
    ensures forall i :: 0 <= i < |r| ==>
      r[i] == (if subscriptions[i].userId == userId then FreeRow(subscriptions[i], now) else subscriptions[i])
  {
    seq(|subscriptions|, i requires 0 <= i < |subscriptions| =>
      if subscriptions[i].userId == userId then FreeRow(subscriptions[i], now) else subscriptions[i])
  }

  datatype CancelResult = Cancelled(message: string) | CancelFailed(error: string)

  const CancelledMessage := "Assinatura cancelada com sucesso"
  const CancelFailedMessage := "Erro ao cancelar assinatura"

  /** `cancelSubscription`; `updateFails` is the store's error. */
  method CancelSubscription(userId: string, now: nat, subscriptions: seq<Subscription>, updateFails: bool)
    returns (result: CancelResult, subscriptions': seq<Subscription>)
    ensures updateFails ==> result == CancelFailed(CancelFailedMessage) && subscriptions' == subscriptions
    ensures !updateFails ==> result == Cancelled(CancelledMessage) && subscriptions' == CancelledTable(subscriptions, userId, now)
  {
    if updateFails {
      return CancelFailed(CancelFailedMessage), subscriptions;
    }
    return Cancelled(CancelledMessage), CancelledTable(subscriptions, userId, now);
  }

  /** Every row of the user is on the free plan, inactive, monthly, with no
      renewal date and 30 credits; every other user's row is untouched. */
  lemma CancelledRowsAreFree(subscriptions: seq<Subscription>, userId: string, now: nat)
    ensures var r := CancelledTable(subscriptions, userId, now);
      forall i :: 0 <= i < |r| ==>
        && (subscriptions[i].userId == userId ==>
              r[i].plan == Free && r[i].status == Inactive && r[i].billing == Monthly
              && r[i].renewAt == None && r[i].creditsRemaining == Some(30)
              && r[i].id == subscriptions[i].id && r[i].userId == userId)
        && (subscriptions[i].userId != userId ==> r[i] == subscriptions[i])
  {
  }

  /** Cancelling twice leaves the table as cancelling once, at the later time. */
  lemma CancelIsIdempotent(subscriptions: seq<Subscription>, userId: string, now: nat, now2: nat)
    ensures CancelledTable(CancelledTable(subscriptions, userId, now), userId, now2)
         == CancelledTable(subscriptions, userId, now2)
  {
    var once := CancelledTable(subscriptions, userId, now);
    var twice := CancelledTable(once, userId, now2);
    var direct := CancelledTable(subscriptions, userId, now2);
    assert forall i :: 0 <= i < |twice| ==> twice[i] == direct[i];
  }

  /** A hard-cancelled subscription is no longer fetched by the renewal sweep. */
  lemma CancelledRowsLeaveTheSweep(subscriptions: seq<Subscription>, userId: string, now: nat,
                                   payments: seq<Payment>, sweepTime: nat, faults: CheckSubscriptions.Faults)
    ensures var r := CancelledTable(subscriptions, userId, now);
      forall i :: 0 <= i < |r| && subscriptions[i].userId == userId ==>
        CheckSubscriptions.OutcomeOf(r[i], payments, sweepTime, faults) == CheckSubscriptions.NotFetched
  {
  }
}
