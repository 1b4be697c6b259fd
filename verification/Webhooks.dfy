/** The Razorpay webhook: which events reach the fees service, and for which tenant. */
module Webhooks {
  import opened Wrappers
  import opened FeeCalc
  import opened CaptureProtocol
  import opened CaptureInvariants
  import opened CaptureSerial
  import opened FeesService

  /** `body.payload.payment.entity`; `amount` is in paisa. */
  datatype Entity = Entity(orderId: Option<string>, id: Option<string>, amount: int, signature: Option<string>)

  datatype Event = Event(name: string, entity: Option<Entity>)

  /** The guards of the handler. `verified` is the gateway's verdict on the signature. */
  predicate Accepts(verified: bool, body: Event) {
    && verified
    && body.name == "payment.captured"
    && body.entity.Some? && Truthy(body.entity.value.orderId) && Truthy(body.entity.value.id)
  }

  function DeliveryFor(e: Entity, paidAt: int, now: int, receipt: Option<string>): Delivery
    requires Truthy(e.orderId) && Truthy(e.id)
  {
    Delivery(e.orderId.value, e.id.value, e.amount, e.signature, paidAt, now, receipt)
  }

  /** No row carries the payment id yet, and some row of the order is still CREATED. */
  ghost predicate Recordable(s: Store, orderId: string, payId: string) {
    && (forall p :: p in s.payments ==> s.payments[p].gatewayPaymentId != Some(payId))
    && (exists p :: p in s.payments && s.payments[p].gatewayOrderId == orderId && s.payments[p].status == Created)
  }

  /** Row p, CREATED for the order, becomes CAPTURED with the payment id, and no other row of
      either collection changes but its invoice, which gains the payment up to its balance. */
  ghost predicate Recorded(s: Store, t: Store, p: Id, orderId: string, payId: string, amount: nat,
                           signature: Option<string>, paidAt: int, now: int, receipt: Option<string>) {
    && p in s.payments && s.payments[p].invoiceId in s.invoices
    && var row, i := s.payments[p], s.payments[p].invoiceId;
    && var inv := s.invoices[i];
    && var paid := inv.amountPaid + Min(inv.amountDue - inv.amountPaid, amount);
    && row.gatewayOrderId == orderId && row.status == Created && inv.tenantId == row.tenantId
    && t.payments == s.payments[p := row.(
         gatewayPaymentId := Some(payId), gatewaySignature := signature, status := Captured,
         paidAt := Some(paidAt), receiptUrl := if receipt.Some? then receipt else row.receiptUrl)]
    && t.invoices == s.invoices[i := inv.(
         amountPaid := paid, status := ComputeInvoiceStatus(inv.amountDue, paid, inv.dueDate, now),
         receiptUrl := if receipt.Some? then receipt else inv.receiptUrl)]
  }

  /** What a negative amount leaves: the row captured, the invoice as it was. */
  ghost predicate Uncredited(s: Store, t: Store, p: Id, orderId: string, payId: string,
                             signature: Option<string>, paidAt: int) {
    && p in s.payments && s.payments[p].gatewayOrderId == orderId && s.payments[p].status == Created
    && t.invoices == s.invoices
    && t.payments == s.payments[p := s.payments[p].(
         gatewayPaymentId := Some(payId), gatewaySignature := signature, status := Captured, paidAt := Some(paidAt))]
  }

  /** The answer the handler gives to how its capture ended. */
  function ResponseTo(out: Pc): Result<bool> {
    if out.Done? then Ok(out.applied) else Err(NegativePayment)
  }

  /** Whether the payment can be recorded and the sign of its amount decide the answer and the
      whole effect of a delivery. */
  lemma DeliveryDecided(s: Store, d: Delivery, c: Choice, t: Store, out: Pc)
    requires StoreInv(s) && Runs(s, Flow(Capture(d), Fresh), c, t, out)
    ensures StoreInv(t)
    ensures ResponseTo(out) == if !Recordable(s, d.orderId, d.payId) then Ok(false)
                               else if d.amount < 0 then Err(NegativePayment) else Ok(true)
    ensures ResponseTo(out) == Ok(false) ==> t == s
    ensures ResponseTo(out) == Ok(true) ==>
              d.amount >= 0 && c.pending.Some?
              && Recorded(s, t, c.pending.value, d.orderId, d.payId, d.amount, d.signature, d.paidAt, d.now, d.receipt)
    ensures ResponseTo(out).Err? ==>
              c.pending.Some? && Uncredited(s, t, c.pending.value, d.orderId, d.payId, d.signature, d.paidAt)
  {
    CaptureAlone(s, d, c);
    AloneKeeps(s, Flow(Capture(d), Fresh), c);
    assert PayIdUsed(s, d.payId) || !HasOpenRow(s, d.orderId) <==> !Recordable(s, d.orderId, d.payId) by {
      RecordableIff(s, d.orderId, d.payId);
    }
    if Recordable(s, d.orderId, d.payId) {
      EffectRecords(s, d, c.pending.value);
    }
  }

  lemma RecordableIff(s: Store, orderId: string, payId: string)
    ensures Recordable(s, orderId, payId) <==> !PayIdUsed(s, payId) && HasOpenRow(s, orderId)
  {
    if p :| p in s.payments && s.payments[p].gatewayOrderId == orderId && s.payments[p].status == Created {
      assert HasOrder(s.payments[p], orderId);
    }
  }

  lemma EffectRecords(s: Store, d: Delivery, p: Id)
    requires StoreInv(s) && p in s.payments && HasOrder(s.payments[p], d.orderId) && s.payments[p].status == Created
    requires s.payments[p].invoiceId in s.invoices
    ensures if d.amount < 0 then Uncredited(s, CaptureEffect(s, d, p), p, d.orderId, d.payId, d.signature, d.paidAt)
            else Recorded(s, CaptureEffect(s, d, p), p, d.orderId, d.payId, d.amount,
                          d.signature, d.paidAt, d.now, d.receipt)
  {
    assert PaymentOk(s, s.payments[p]);
  }

  class WebhooksController {
    const fees: FeesService

    constructor (fees: FeesService)
      ensures this.fees == fees
    {
      this.fees := fees;
    }

    /** The part of `razorpay` after its guards: find the tenant that owns the order, and apply
        the payment in its context. */
    method Deliver(d: Delivery) returns (r: Result<bool>, ghost c: Choice, ghost out: Pc)
      modifies fees`payments, fees`invoices
      ensures Runs(old(fees.View()), Flow(Capture(d), Fresh), c, fees.View(), out) && r == ResponseTo(out)
    {
      ghost var s0 := fees.View();
      if p :| p in fees.payments && HasOrder(fees.payments[p], d.orderId) {
        var tenantId := fees.payments[p].tenantId;
        ghost var owner := fees.payments[p];
        var result;
        result, c := fees.ApplyCapturedPayment(tenantId, d, p, owner);
        out := OutcomeOf(result);
        r := if result.Ok? then Ok(result.value.applied) else Err(result.error);
        RunsBack(s0, Flow(Capture(d), Fresh), c, s0, Resolved(p, owner), fees.View(), out);
      } else {
        c, out := Choice(None, None, None, None, 0), Done(false, None);
        r := Ok(false);
        RunsLast(s0, Flow(Capture(d), Fresh), c, s0, out);
      }
    }

    /** `razorpay`. Ok(b) is the answer `{ received: true, applied: b }`. */
    method Razorpay(verified: bool, body: Event, paidAt: int, now: int, receipt: Option<string>)
      returns (r: Result<bool>, ghost c: Choice, ghost out: Pc)
      modifies fees`payments, fees`invoices
      // An event that is not verified, of another name, or without an order and a payment id
      // changes nothing.
      ensures !Accepts(verified, body) ==> r == Ok(false) && fees.View() == old(fees.View())
      // Any other event runs its delivery to completion.
      ensures Accepts(verified, body) ==>
                && Runs(old(fees.View()), Flow(Capture(DeliveryFor(body.entity.value, paidAt, now, receipt)), Fresh),
                        c, fees.View(), out)
                && r == ResponseTo(out)
      // In a reachable store its order id, payment id and amount decide the answer and the effect.
      ensures StoreInv(old(fees.View())) ==> StoreInv(fees.View())
      ensures StoreInv(old(fees.View())) && verified && body.name == "payment.captured" && body.entity.Some? ==>
                var e := body.entity.value;
                (e.orderId !in {None, Some("")} && e.id !in {None, Some("")} ==>
                   r == if !Recordable(old(fees.View()), e.orderId.value, e.id.value) then Ok(false)
                        else if e.amount < 0 then Err(NegativePayment) else Ok(true))
      ensures StoreInv(old(fees.View())) && r == Ok(false) ==> fees.View() == old(fees.View())
      ensures StoreInv(old(fees.View())) && r != Ok(false) ==>
                && verified && body.name == "payment.captured" && body.entity.Some? && c.pending.Some?
                && var e := body.entity.value;
                && e.orderId !in {None, Some("")} && e.id !in {None, Some("")}
                && (r == Ok(true) ==>
                      e.amount >= 0
                      && Recorded(old(fees.View()), fees.View(), c.pending.value, e.orderId.value, e.id.value,
                                  e.amount, e.signature, paidAt, now, receipt))
                && (r == Err(NegativePayment) ==>
                      Uncredited(old(fees.View()), fees.View(), c.pending.value, e.orderId.value, e.id.value,
                                 e.signature, paidAt))
    {
      c, out := Choice(None, None, None, None, 0), Done(false, None);
      if !verified {
        return Ok(false), c, out;
      }
      if body.name != "payment.captured" {
        return Ok(false), c, out;
      }
      if body.entity.None? || !Truthy(body.entity.value.orderId) || !Truthy(body.entity.value.id) {
        return Ok(false), c, out;
      }
      var d := DeliveryFor(body.entity.value, paidAt, now, receipt);
      r, c, out := Deliver(d);
      if StoreInv(old(fees.View())) {
        DeliveryDecided(old(fees.View()), d, c, fees.View(), out);
      }
    }
  }
}
