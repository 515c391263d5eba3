/**
 * `processWebhookEvent`: the switch from event-type strings to handlers.
 * Event types without a case, and type values that are not one of the
 * closed set, get the inert default result.
 */
module EventRouter {
  import opened Wrappers
  import opened JsText
  import opened JsonValue
  import opened Entities
  import opened Handlers

  datatype Handler =
    | OnCustomerCreated | OnCustomerUpdated | OnCustomerDeleted | OnCustomerStateChanged
    | OnSubscriptionCreated | OnSubscriptionUpdated | OnSubscriptionActive | OnSubscriptionCanceled
    | OnSubscriptionUncanceled | OnSubscriptionRevoked | OnSubscriptionPastDue
    | OnOrderCreated | OnOrderUpdated | OnOrderPaid | OnOrderRefunded
    | OnRefundCreated | OnRefundUpdated
    | OnProduct | OnBenefit
    | OnBenefitGrantCreated | OnBenefitGrantCycled | OnBenefitGrantUpdated | OnBenefitGrantRevoked
    | OnOrganizationUpdated | OnCheckout
    | Unhandled

  const NotProcessed := "Event received but not processed"

  /** The customer-seat events: members of the enum that the switch has no case for. */
  predicate IsSeatEvent(t: EventType) {
    t in {CustomerSeatAssigned, CustomerSeatClaimed, CustomerSeatRevoked}
  }

  /** The seat events are exactly the types whose wire name starts with `customer_seat.`. */
  lemma SeatEventsByName(t: EventType)
    ensures IsSeatEvent(t) <==> "customer_seat." <= ToWire(t)
  {
    if IsSeatEvent(t) {
      SeatNamesHavePrefix(t);
    } else {
      OtherNamesLackSeatPrefix(t);
    }
  }

  lemma SeatNamesHavePrefix(t: EventType)
    requires IsSeatEvent(t)
    ensures "customer_seat." <= ToWire(t)
  {
  }

  lemma OtherNamesLackSeatPrefix(t: EventType)
    requires !IsSeatEvent(t)
    ensures !("customer_seat." <= ToWire(t))
  {
    var w := ToWire(t);
    var p := "customer_seat.";
    var k := if w[0] != 'c' then 0 else if w[1] != 'u' then 1 else 8;
    assert |w| > k && w[k] != p[k];
  }

  /** The subscription lifecycle events. */
  predicate IsSubscriptionEvent(t: EventType) {
    t in {SubscriptionCreated, SubscriptionUpdated, SubscriptionActive, SubscriptionCanceled,
          SubscriptionUncanceled, SubscriptionRevoked, SubscriptionPastDue}
  }

  /** The subscription events are exactly the types whose wire name starts with `subscription.`. */
  lemma SubscriptionEventsByName(t: EventType)
    ensures IsSubscriptionEvent(t) <==> "subscription." <= ToWire(t)
  {
    var w := ToWire(t);
    var p := "subscription.";
    if !IsSubscriptionEvent(t) {
      assert |w| > 0 && w[0] != p[0];
    }
  }

  /** The switch of `processWebhookEvent`. */
  function Route(t: EventType): (h: Handler)
    ensures h == Unhandled <==> IsSeatEvent(t)
  {
    match t
    case CheckoutCreated => OnCheckout
    case CheckoutUpdated => OnCheckout
    case CustomerCreated => OnCustomerCreated
    case CustomerUpdated => OnCustomerUpdated
    case CustomerDeleted => OnCustomerDeleted
    case CustomerStateChanged => OnCustomerStateChanged
    case CustomerSeatAssigned => Unhandled
    case CustomerSeatClaimed => Unhandled
    case CustomerSeatRevoked => Unhandled
    case OrderCreated => OnOrderCreated
    case OrderUpdated => OnOrderUpdated
    case OrderPaid => OnOrderPaid
    case OrderRefunded => OnOrderRefunded
    case SubscriptionCreated => OnSubscriptionCreated
    case SubscriptionUpdated => OnSubscriptionUpdated
    case SubscriptionActive => OnSubscriptionActive
    case SubscriptionCanceled => OnSubscriptionCanceled
    case SubscriptionUncanceled => OnSubscriptionUncanceled
    case SubscriptionRevoked => OnSubscriptionRevoked
    case SubscriptionPastDue => OnSubscriptionPastDue
    case RefundCreated => OnRefundCreated
    case RefundUpdated => OnRefundUpdated
    case ProductCreated => OnProduct
    case ProductUpdated => OnProduct
    case BenefitCreated => OnBenefit
    case BenefitUpdated => OnBenefit
    case BenefitGrantCreated => OnBenefitGrantCreated
    case BenefitGrantCycled => OnBenefitGrantCycled
    case BenefitGrantUpdated => OnBenefitGrantUpdated
    case BenefitGrantRevoked => OnBenefitGrantRevoked
    case OrganizationUpdated => OnOrganizationUpdated
  }

  /** `switch (type)` compares with `===`: only a string naming a member of the set selects a case. */
  function RouteType(eventType: Option<Json>): (h: Handler)
    ensures (eventType.None? || !eventType.value.JStr?) ==> h == Unhandled
    ensures eventType.Some? && eventType.value.JStr? && FromWire(eventType.value.s).None? ==> h == Unhandled
    ensures eventType.Some? && eventType.value.JStr? && FromWire(eventType.value.s).Some? ==>
              h == Route(FromWire(eventType.value.s).value)
  {
    if eventType.Some? && eventType.value.JStr? then
      match FromWire(eventType.value.s)
      case Some(t) => Route(t)
      case None => Unhandled
    else Unhandled
  }

  /** The handlers that write to the store. */
  predicate Writes(h: Handler) {
    h in {OnCustomerCreated, OnCustomerUpdated, OnOrderCreated, OnOrderUpdated, OnOrderPaid, OnOrderRefunded, OnRefundCreated}
  }

  /** The TypeError a handler raises when its first statement reads `data.id` off a missing or null payload. */
  function NullishDataError(data: Option<Json>): string {
    "Cannot read properties of " + (if data.None? then "undefined" else "null") + " (reading 'id')"
  }

  /** Runs the handler `h` on the payload's `data`. */
  function Dispatch(h: Handler, s: Store, data: Option<Json>): (o: Outcome)
    ensures h == Unhandled ==> o == Done(s, Obj1("message", Text(NotProcessed)))
    ensures h != Unhandled && (data.None? || data == Some(JNull)) ==> o == Threw(NullishDataError(data))
  {
    if h == Unhandled then Done(s, Obj1("message", Text(NotProcessed)))
    else if data.None? || data.value.JNull? then Threw(NullishDataError(data))
    else
      var d := data.value;
      match h
      case OnCustomerCreated => HandleCustomerCreated(s, d)
      case OnCustomerUpdated => HandleCustomerUpdated(s, d)
      case OnCustomerDeleted => HandleCustomerDeleted(s, d)
      case OnCustomerStateChanged => HandleCustomerStateChanged(s, d)
      case OnSubscriptionCreated => SubscriptionAck(s, d, "message", JStr(SubscriptionRecorded))
      case OnSubscriptionUpdated => SubscriptionAck(s, d, "updated", JBool(true))
      case OnSubscriptionActive => SubscriptionAck(s, d, "status", JStr("active"))
      case OnSubscriptionCanceled => SubscriptionAck(s, d, "status", JStr("canceled"))
      case OnSubscriptionUncanceled => SubscriptionAck(s, d, "status", JStr("uncanceled"))
      case OnSubscriptionRevoked => SubscriptionAck(s, d, "status", JStr("revoked"))
      case OnSubscriptionPastDue => SubscriptionAck(s, d, "status", JStr("past_due"))
      case OnOrderCreated => HandleOrderCreated(s, d)
      case OnOrderUpdated => HandleOrderUpdated(s, d)
      case OnOrderPaid => HandleOrderPaid(s, d)
      case OnOrderRefunded => HandleOrderRefunded(s, d)
      case OnRefundCreated => HandleRefundCreated(s, d)
      case OnRefundUpdated => Done(s, Obj1("refundId", Get(d, "id")))
      case OnProduct => Done(s, Obj1("productId", Get(d, "id")))
      case OnBenefit => Done(s, Obj1("benefitId", Get(d, "id")))
      case OnBenefitGrantCreated => Done(s, Obj2("grantId", Get(d, "id"), "customerId", Get(d, "customer_id")))
      case OnBenefitGrantCycled => Done(s, Obj1("grantId", Get(d, "id")))
      case OnBenefitGrantUpdated => Done(s, Obj1("grantId", Get(d, "id")))
      case OnBenefitGrantRevoked => Done(s, Obj1("grantId", Get(d, "id")))
      case OnOrganizationUpdated => Done(s, Obj1("organizationId", Get(d, "id")))
      case OnCheckout => Done(s, Obj1("checkoutId", Get(d, "id")))
  }

  /**
   * `processWebhookEvent(eventDto)`: route on `type`, run on `data`. The wire
   * name of a member selects that member's case; any other `type` takes the
   * default case.
   */
  function ProcessWebhookEvent(s: Store, eventType: Option<Json>, data: Option<Json>): (o: Outcome)
    ensures forall t :: eventType == Some(JStr(ToWire(t))) ==> o == Dispatch(Route(t), s, data)
    ensures (forall t :: eventType != Some(JStr(ToWire(t)))) ==> o == Done(s, Obj1("message", Text(NotProcessed)))
  {
    WireNamesDecode();
    Dispatch(RouteType(eventType), s, data)
  }

  /** Every member's wire name decodes to that member. */
  lemma WireNamesDecode()
    ensures forall t :: FromWire(ToWire(t)) == Some(t)
  {
    forall t ensures FromWire(ToWire(t)) == Some(t) {
      FromWireToWire(t);
    }
  }

  /**
   * An event whose type has no case — a customer-seat event or a string
   * outside the set — is answered with the default message, writes nothing
   * and never throws.
   */
  lemma UnroutedIsInert(s: Store, eventType: Option<Json>, data: Option<Json>)
    requires eventType.Some? ==> !eventType.value.JStr? || FromWire(eventType.value.s).None? ||
                                 IsSeatEvent(FromWire(eventType.value.s).value)
    ensures ProcessWebhookEvent(s, eventType, data) == Done(s, Obj1("message", Text(NotProcessed)))
  {
  }

  /** The handlers that do not write return their result and leave the store as it was. */
  lemma {:induction false} NonWritingHandlersLeaveStore(h: Handler, s: Store, data: Option<Json>)
    requires !Writes(h)
    ensures Dispatch(h, s, data).Threw? <==> h != Unhandled && (data.None? || data == Some(JNull))
    ensures Dispatch(h, s, data).Done? ==> Dispatch(h, s, data).store == s
  {
  }

  /** Every subscription lifecycle event is acknowledged with its id and touches neither orders nor customers. */
  lemma SubscriptionEventsAreInert(t: EventType, s: Store, data: Json)
    requires IsSubscriptionEvent(t) && data != JNull
    ensures var o := Dispatch(Route(t), s, Some(data));
            o.Done? && o.store == s &&
            ("subscriptionId" in o.result <==> Get(data, "id").Some?) &&
            (Get(data, "id").Some? ==> o.result["subscriptionId"] == Get(data, "id").value)
  {
  }

  /** Every handler keeps the store's integrity: ids, customer references, unique emails. */
  lemma {:induction false} DispatchPreservesWellFormed(h: Handler, s: Store, data: Option<Json>)
    requires WellFormed(s)
    ensures Dispatch(h, s, data).Done? ==> WellFormed(Dispatch(h, s, data).store)
  {
    if h != Unhandled && data.Some? && !data.value.JNull? {
      var d := data.value;
      match h
      case OnCustomerCreated => CustomerCreatedPreserves(s, d);
      case OnCustomerUpdated => CustomerUpdatedPreserves(s, d);
      case OnOrderCreated => OrderCreatedPreserves(s, d);
      case OnOrderUpdated =>
      case OnOrderPaid =>
      case OnOrderRefunded =>
      case OnRefundCreated =>
      case _ =>
    }
  }

  lemma CustomerCreatedPreserves(s: Store, d: Json)
    requires WellFormed(s)
    ensures HandleCustomerCreated(s, d).Done? ==> WellFormed(HandleCustomerCreated(s, d).store)
  {
    var o := HandleCustomerCreated(s, d);
    if o.Done? && CustomerByEmail(s.customers, Get(d, "email")).None? {
      var cs := o.store.customers;
      var n := |s.customers|;
      assert cs[n].email == Get(d, "email");
      assert forall i :: 0 <= i < n ==> cs[i] == s.customers[i];
      assert forall i :: 0 <= i < n ==> s.customers[i].email != Get(d, "email");
    }
  }

  lemma CustomerUpdatedPreserves(s: Store, d: Json)
    requires WellFormed(s)
    ensures HandleCustomerUpdated(s, d).Done? ==> WellFormed(HandleCustomerUpdated(s, d).store)
  {
  }

  lemma OrderCreatedPreserves(s: Store, d: Json)
    requires WellFormed(s)
    ensures HandleOrderCreated(s, d).Done? ==> WellFormed(HandleOrderCreated(s, d).store)
  {
    var key := Get(d, "customer_id");
    var r := FindOrCreateCustomer(s, key);
    if r.Ok? && CustomerByPolarId(s.customers, key).None? {
      var s1 := r.value.0;
      var n := |s.customers|;
      assert forall i :: 0 <= i < n ==> s1.customers[i] == s.customers[i];
      assert !EmailTaken(s.customers, JStr(PlaceholderEmail(key)));
    }
  }
}
