/** PIX checkout (`src/app/planos/actions.ts`): reuse of a pending charge,
    creation of a new one at the Asaas gateway, and the `payments` row that
    records it; and the status read-back.

    The signed-in user, the gateway's replies, the environment settings
    and the store's failures are parameters. Each call returns the gateway
    requests it made. A `pix_code` that is null is the empty string here:
    both are falsy to the code. */
module PixCheckout {

  import opened Common
  import opened Schema

  datatype CheckoutUser = CheckoutUser(id: string, email: Option<string>)

  /** `CreatePixPaymentParams`; `amount` is passed through unchanged. */
  datatype PixParams = PixParams(planName: string, planType: BillingType, amount: int)

  /** `${params.planName} - ${params.planType}`. */
  function PlanKey(params: PixParams): string {
    params.planName + " - " + BillingName(params.planType)
  }

  /** What the gateway answers to the charge request: a rejection with the
      first error's description, or a charge whose `id` may be missing. */
  datatype ChargeReply = ChargeRejected(description: Option<string>) | ChargeCreated(chargeId: Option<string>)

  /** What the gateway answers to the QR request. */
  datatype QrReply = QrFailed | QrOk(encodedImage: Option<string>, payload: Option<string>)

  /** A request sent to the gateway. */
  datatype GatewayCall =
    | CreateCharge(customer: string, value: int, externalReference: string)
    | FetchQrCode(chargeId: string)

  datatype PixResult = PixCharge(chargeId: string, pixQrCode: string, pixCopyPaste: string) | PixFailed(error: string)

  const NotAuthenticated := "Usuário não autenticado"
  const ConfigMissing := "Configuração da API Asaas não encontrada"
  const InsertFailed := "Erro ao salvar pagamento no banco de dados"

  /** `Erro ao criar cobrança: ${errors[0].description || "Erro desconhecido"}`. */
  function RejectedMessage(description: Option<string>): string {
    "Erro ao criar cobrança: " + (if Truthy(description) then description.value else "Erro desconhecido")
  }

  /** The payments the pending lookup matches, in table order. */
  function PendingFor(payments: seq<Payment>, userId: string, key: string): (found: seq<Payment>)
    ensures forall p :: p in found <==> p in payments && p.userId == userId && p.plan == key && p.status == "pending"
    decreases |payments|
  {
    if payments == [] then []
    else
      var p := payments[|payments| - 1];
      PendingFor(payments[..|payments| - 1], userId, key)
        + (if p.userId == userId && p.plan == key && p.status == "pending" then [p] else [])
  }

  /** The pending payment is reused when `.single()` finds exactly one and
      its `pix_code` is not empty. */
  predicate Reusable(payments: seq<Payment>, userId: string, key: string, lookupFails: bool) {
    !lookupFails && |PendingFor(payments, userId, key)| == 1 && PendingFor(payments, userId, key)[0].pixCode != ""
  }

  /** `pixQrCode` and `pixCopyPaste` after step 4: empty unless the charge has
      an id and the QR request succeeds. */
  function QrImage(charge: ChargeReply, qr: QrReply): string {
    if charge.ChargeCreated? && Truthy(charge.chargeId) && qr.QrOk? && Truthy(qr.encodedImage) then qr.encodedImage.value else ""
  }

  function CopyPaste(charge: ChargeReply, qr: QrReply): string {
    if charge.ChargeCreated? && Truthy(charge.chargeId) && qr.QrOk? && Truthy(qr.payload) then qr.payload.value else ""
  }

  /** The row step 5 inserts. */
  function NewPayment(id: string, userId: string, params: PixParams, pixCode: string, now: nat): Payment {
    Payment(id, userId, PlanKey(params), params.amount, "pending", pixCode, now)
  }

  /** `createPixPayment`. */
  method CreatePixPayment(params: PixParams, user: Option<CheckoutUser>, payments: seq<Payment>, lookupFails: bool,
                          apiKey: Option<string>, baseUrl: Option<string>, charge: ChargeReply, qr: QrReply,
                          now: nat, newId: string, insertFails: bool)
    returns (result: PixResult, calls: seq<GatewayCall>, payments': seq<Payment>)
    ensures user.None? ==> result == PixFailed(NotAuthenticated) && calls == [] && payments' == payments
    ensures user.Some? && Reusable(payments, user.value.id, PlanKey(params), lookupFails) ==>
      var p := PendingFor(payments, user.value.id, PlanKey(params))[0];
      result == PixCharge(p.id, p.pixCode, p.pixCode) && calls == [] && payments' == payments
    ensures user.Some? && !Reusable(payments, user.value.id, PlanKey(params), lookupFails) && !(Truthy(apiKey) && Truthy(baseUrl)) ==>
      result == PixFailed(ConfigMissing) && calls == [] && payments' == payments
    ensures user.Some? && !Reusable(payments, user.value.id, PlanKey(params), lookupFails) && Truthy(apiKey) && Truthy(baseUrl) ==>
      var u := user.value;
      var request := CreateCharge(if Truthy(u.email) then u.email.value else "", params.amount, u.id);
      && (charge.ChargeRejected? ==>
            result == PixFailed(RejectedMessage(charge.description)) && calls == [request] && payments' == payments)
      && (charge.ChargeCreated? ==>
            && calls == [request] + (if Truthy(charge.chargeId) then [FetchQrCode(charge.chargeId.value)] else [])
            && (insertFails ==> result == PixFailed(InsertFailed) && payments' == payments)
            && (!insertFails ==>
                  var code := OrElse(CopyPaste(charge, qr), QrImage(charge, qr));
                  payments' == payments + [NewPayment(newId, u.id, params, code, now)]
                  && result == PixCharge(newId, QrImage(charge, qr), CopyPaste(charge, qr))))
  {
    if user.None? {
      return PixFailed(NotAuthenticated), [], payments;
    }
    var u := user.value;
    var key := PlanKey(params);
    var existing := PendingFor(payments, u.id, key);
    if !lookupFails && |existing| == 1 && existing[0].pixCode != "" {
      return PixCharge(existing[0].id, existing[0].pixCode, existing[0].pixCode), [], payments;
    }
    if !Truthy(apiKey) || !Truthy(baseUrl) {
      return PixFailed(ConfigMissing), [], payments;
    }
    var customerEmail := if Truthy(u.email) then u.email.value else "";
    calls := [CreateCharge(customerEmail, params.amount, u.id)];
    if charge.ChargeRejected? {
      return PixFailed(RejectedMessage(charge.description)), calls, payments;
    }
    var pixQrCode, pixCopyPaste := "", "";
    if Truthy(charge.chargeId) {
      calls := calls + [FetchQrCode(charge.chargeId.value)];
      if qr.QrOk? {
        pixQrCode := if Truthy(qr.encodedImage) then qr.encodedImage.value else "";
        pixCopyPaste := if Truthy(qr.payload) then qr.payload.value else "";
      }
    }
    if insertFails {
      return PixFailed(InsertFailed), calls, payments;
    }
    payments' := payments + [NewPayment(newId, u.id, params, OrElse(pixCopyPaste, pixQrCode), now)];
    result := PixCharge(newId, pixQrCode, pixCopyPaste);
  }

  /** Appending a row adds it to the pending rows exactly when it matches. */
  lemma PendingForAppend(payments: seq<Payment>, p: Payment, userId: string, key: string)
    ensures PendingFor(payments + [p], userId, key)
         == PendingFor(payments, userId, key) + (if p.userId == userId && p.plan == key && p.status == "pending" then [p] else [])
  {
    assert (payments + [p])[..|payments|] == payments;
  }

  /** Every recorded charge is a pending payment of the caller for the
      composed plan key, so it joins the rows the next lookup matches; with
      two or more of them `.single()` fails, no charge is ever reused again,
      and each further checkout records yet another one. */
  lemma RecordedChargeIsPending(payments: seq<Payment>, newId: string, userId: string, params: PixParams, code: string, now: nat)
    ensures var after := payments + [NewPayment(newId, userId, params, code, now)];
      |PendingFor(after, userId, PlanKey(params))| == |PendingFor(payments, userId, PlanKey(params))| + 1
    ensures |PendingFor(payments, userId, PlanKey(params))| >= 1 ==>
      !Reusable(payments + [NewPayment(newId, userId, params, code, now)], userId, PlanKey(params), false)
  {
    PendingForAppend(payments, NewPayment(newId, userId, params, code, now), userId, PlanKey(params));
  }

  /** The recorded `pix_code` is the copy-paste payload when the gateway gave
      one and the QR image otherwise; it is empty only when both are. */
  lemma RecordedPixCode(charge: ChargeReply, qr: QrReply)
    ensures var code := OrElse(CopyPaste(charge, qr), QrImage(charge, qr));
      && (CopyPaste(charge, qr) != "" ==> code == CopyPaste(charge, qr))
      && (code == "" <==> CopyPaste(charge, qr) == "" && QrImage(charge, qr) == "")
  {
  }

  // ---------------------------------------------------------------------
  // checkPaymentStatus

  function PaymentsWithId(payments: seq<Payment>, id: string): (found: seq<Payment>)
    ensures forall p :: p in found <==> p in payments && p.id == id
  {
    if payments == [] then []
    else (if payments[0].id == id then [payments[0]] else []) + PaymentsWithId(payments[1..], id)
  }

  datatype StatusReply = StatusReply(status: string, error: Option<string>)

  /** `checkPaymentStatus`: the stored status of the one row with that id,
      or `"error"` with 'Pagamento não encontrado'. */
  function CheckPaymentStatus(payments: seq<Payment>, chargeId: string, lookupFails: bool): (r: StatusReply)
    ensures r.error.None? <==> !lookupFails && |PaymentsWithId(payments, chargeId)| == 1
    ensures r.error.None? ==> exists p :: p in payments && p.id == chargeId && r.status == p.status
    ensures r.error.Some? ==> r == StatusReply("error", Some("Pagamento não encontrado"))
  {
    var found := PaymentsWithId(payments, chargeId);
    if lookupFails || |found| != 1 then StatusReply("error", Some("Pagamento não encontrado"))
    else
      assert found[0] in found;
      StatusReply(found[0].status, None)
  }
}
