/**
 * The records the service persists — the webhook ledger entry, Order and
 * Customer — and the closed set of provider event names. Record ids are the
 * record's position in its table, standing in for generated UUIDs.
 */
module Entities {
  import opened Wrappers
  import opened JsonValue

  /** The provider's event names, one constructor per member of the event-type enum. */
  datatype EventType =
    | CheckoutCreated
    | CheckoutUpdated
    | CustomerCreated
    | CustomerUpdated
    | CustomerDeleted
    | CustomerStateChanged
    | CustomerSeatAssigned
    | CustomerSeatClaimed
    | CustomerSeatRevoked
    | OrderCreated
    | OrderUpdated
    | OrderPaid
    | OrderRefunded
    | SubscriptionCreated
    | SubscriptionUpdated
    | SubscriptionActive
    | SubscriptionCanceled
    | SubscriptionUncanceled
    | SubscriptionRevoked
    | SubscriptionPastDue
    | RefundCreated
    | RefundUpdated
    | ProductCreated
    | ProductUpdated
    | BenefitCreated
    | BenefitUpdated
    | BenefitGrantCreated
    | BenefitGrantCycled
    | BenefitGrantUpdated
    | BenefitGrantRevoked
    | OrganizationUpdated

  /** The wire name of an event type. */
  function ToWire(t: EventType): string {
    match t
    case CheckoutCreated => "checkout.created"
    case CheckoutUpdated => "checkout.updated"
    case CustomerCreated => "customer.created"
    case CustomerUpdated => "customer.updated"
    case CustomerDeleted => "customer.deleted"
    case CustomerStateChanged => "customer.state_changed"
    case CustomerSeatAssigned => "customer_seat.assigned"
    case CustomerSeatClaimed => "customer_seat.claimed"
    case CustomerSeatRevoked => "customer_seat.revoked"
    case OrderCreated => "order.created"
    case OrderUpdated => "order.updated"
    case OrderPaid => "order.paid"
    case OrderRefunded => "order.refunded"
    case SubscriptionCreated => "subscription.created"
    case SubscriptionUpdated => "subscription.updated"
    case SubscriptionActive => "subscription.active"
    case SubscriptionCanceled => "subscription.canceled"
    case SubscriptionUncanceled => "subscription.uncanceled"
    case SubscriptionRevoked => "subscription.revoked"
    case SubscriptionPastDue => "subscription.past_due"
    case RefundCreated => "refund.created"
    case RefundUpdated => "refund.updated"
    case ProductCreated => "product.created"
    case ProductUpdated => "product.updated"
    case BenefitCreated => "benefit.created"
    case BenefitUpdated => "benefit.updated"
    case BenefitGrantCreated => "benefit_grant.created"
    case BenefitGrantCycled => "benefit_grant.cycled"
    case BenefitGrantUpdated => "benefit_grant.updated"
    case BenefitGrantRevoked => "benefit_grant.revoked"
    case OrganizationUpdated => "organization.updated"
  }

  /** Every event type, in the enum's order. */
  const AllEventTypes: seq<EventType> := [
      CheckoutCreated, CheckoutUpdated, CustomerCreated, CustomerUpdated,
      CustomerDeleted, CustomerStateChanged, CustomerSeatAssigned, CustomerSeatClaimed,
      CustomerSeatRevoked, OrderCreated, OrderUpdated, OrderPaid,
      OrderRefunded, SubscriptionCreated, SubscriptionUpdated, SubscriptionActive,
      SubscriptionCanceled, SubscriptionUncanceled, SubscriptionRevoked, SubscriptionPastDue,
      RefundCreated, RefundUpdated, ProductCreated, ProductUpdated,
      BenefitCreated, BenefitUpdated, BenefitGrantCreated, BenefitGrantCycled,
      BenefitGrantUpdated, BenefitGrantRevoked, OrganizationUpdated]

  lemma AllEventTypesListed(t: EventType)
    ensures t in AllEventTypes
  {
  }

  /** The first event type of `ts` whose wire name is `s`. */
  function FindWire(s: string, ts: seq<EventType>): (r: Option<EventType>)
    ensures r.Some? ==> ToWire(r.value) == s && r.value in ts
    ensures r.None? ==> forall i :: 0 <= i < |ts| ==> ToWire(ts[i]) != s
    decreases |ts|
  {
    if |ts| == 0 then None
    else if ToWire(ts[0]) == s then Some(ts[0])
    else FindWire(s, ts[1..])
  }

  /** The event type a wire name denotes, if it is one of the closed set. */
  function FromWire(s: string): (r: Option<EventType>)
    ensures r.Some? ==> ToWire(r.value) == s
    ensures r.None? ==> forall t: EventType :: ToWire(t) != s
  {
    var r := FindWire(s, AllEventTypes);
    assert r.None? ==> forall t: EventType :: ToWire(t) != s by {
      if r.None? {
        forall t: EventType ensures ToWire(t) != s {
          AllEventTypesListed(t);
        }
      }
    }
    r
  }

  /**
   * Tells the wire names apart by their length, second character and fifth
   * character from the end, which together differ between any two names.
   */
  function Recognize(n: nat, c1: char, c5: char): Option<EventType> {
    if c1 == 'h' then
      if n == 16 then
        if c5 == 'e' then Some(CheckoutCreated)
        else if c5 == 'd' then Some(CheckoutUpdated)
        else None
      else None
    else if c1 == 'u' then
      if n == 16 then
        if c5 == 'e' then Some(CustomerCreated)
        else if c5 == 'd' then Some(CustomerUpdated)
        else if c5 == 'l' then Some(CustomerDeleted)
        else None
      else if n == 22 then
        if c5 == 'a' then Some(CustomerStateChanged)
        else if c5 == 'i' then Some(CustomerSeatAssigned)
        else None
      else if n == 21 then
        if c5 == 'a' then Some(CustomerSeatClaimed)
        else if c5 == 'v' then Some(CustomerSeatRevoked)
        else if c5 == 'c' then Some(SubscriptionCanceled)
        else if c5 == 't' then Some(SubscriptionPastDue)
        else None
      else if n == 20 then
        if c5 == 'e' then Some(SubscriptionCreated)
        else if c5 == 'd' then Some(SubscriptionUpdated)
        else if c5 == 'v' then Some(SubscriptionRevoked)
        else None
      else if n == 19 then
        if c5 == 'c' then Some(SubscriptionActive)
        else None
      else if n == 23 then
        if c5 == 'c' then Some(SubscriptionUncanceled)
        else None
      else None
    else if c1 == 'r' then
      if n == 13 then
        if c5 == 'e' then Some(OrderCreated)
        else if c5 == 'd' then Some(OrderUpdated)
        else None
      else if n == 10 then
        if c5 == '.' then Some(OrderPaid)
        else None
      else if n == 14 then
        if c5 == 'u' then Some(OrderRefunded)
        else None
      else if n == 15 then
        if c5 == 'e' then Some(ProductCreated)
        else if c5 == 'd' then Some(ProductUpdated)
        else None
      else if n == 20 then
        if c5 == 'd' then Some(OrganizationUpdated)
        else None
      else None
    else if c1 == 'e' then
      if n == 14 then
        if c5 == 'e' then Some(RefundCreated)
        else if c5 == 'd' then Some(RefundUpdated)
        else None
      else if n == 15 then
        if c5 == 'e' then Some(BenefitCreated)
        else if c5 == 'd' then Some(BenefitUpdated)
        else None
      else if n == 21 then
        if c5 == 'e' then Some(BenefitGrantCreated)
        else if c5 == 'd' then Some(BenefitGrantUpdated)
        else if c5 == 'v' then Some(BenefitGrantRevoked)
        else None
      else if n == 20 then
        if c5 == 'y' then Some(BenefitGrantCycled)
        else None
      else None
    else None
  }

  /** The event type `Recognize` reads off a name, if the name is long enough to probe. */
  function Probe(w: string): Option<EventType> {
    if |w| >= 10 then Recognize(|w|, w[1], w[|w| - 5]) else None
  }

  /** The probes `Recognize` reads off a wire name. */
  predicate Recognized(t: EventType) {
    Probe(ToWire(t)) == Some(t)
  }

  lemma RecognizeCheckoutCustomer(t: EventType)
    requires t in {CheckoutCreated, CheckoutUpdated, CustomerCreated, CustomerUpdated, CustomerDeleted, CustomerStateChanged, CustomerSeatAssigned, CustomerSeatClaimed, CustomerSeatRevoked}
    ensures Recognized(t)
  {
    match t
    case CheckoutCreated =>
    case CheckoutUpdated =>
    case CustomerCreated =>
    case CustomerUpdated =>
    case CustomerDeleted =>
    case CustomerStateChanged =>
    case CustomerSeatAssigned =>
    case CustomerSeatClaimed =>
    case CustomerSeatRevoked =>
    case _ =>
  }

  lemma RecognizeOrderSubscription(t: EventType)
    requires t in {OrderCreated, OrderUpdated, OrderPaid, OrderRefunded, SubscriptionCreated, SubscriptionUpdated, SubscriptionActive, SubscriptionCanceled, SubscriptionUncanceled, SubscriptionRevoked, SubscriptionPastDue}
    ensures Recognized(t)
  {
    match t
    case OrderCreated =>
    case OrderUpdated =>
    case OrderPaid =>
    case OrderRefunded =>
    case SubscriptionCreated =>
    case SubscriptionUpdated =>
    case SubscriptionActive =>
    case SubscriptionCanceled =>
    case SubscriptionUncanceled =>
    case SubscriptionRevoked =>
    case SubscriptionPastDue =>
    case _ =>
  }

  lemma RecognizeOthers(t: EventType)
    requires t in {RefundCreated, RefundUpdated, ProductCreated, ProductUpdated, BenefitCreated, BenefitUpdated, BenefitGrantCreated, BenefitGrantCycled, BenefitGrantUpdated, BenefitGrantRevoked, OrganizationUpdated}
    ensures Recognized(t)
  {
    match t
    case RefundCreated =>
    case RefundUpdated =>
    case ProductCreated =>
    case ProductUpdated =>
    case BenefitCreated =>
    case BenefitUpdated =>
    case BenefitGrantCreated =>
    case BenefitGrantCycled =>
    case BenefitGrantUpdated =>
    case BenefitGrantRevoked =>
    case OrganizationUpdated =>
    case _ =>
  }

  /** Every wire name is long enough to probe, and its probes recognise its event type. */
  lemma RecognizeToWire(t: EventType)
    ensures Recognized(t)
  {
    if t in {CheckoutCreated, CheckoutUpdated, CustomerCreated, CustomerUpdated, CustomerDeleted, CustomerStateChanged, CustomerSeatAssigned, CustomerSeatClaimed, CustomerSeatRevoked} {
      RecognizeCheckoutCustomer(t);
    } else if t in {OrderCreated, OrderUpdated, OrderPaid, OrderRefunded, SubscriptionCreated, SubscriptionUpdated, SubscriptionActive, SubscriptionCanceled, SubscriptionUncanceled, SubscriptionRevoked, SubscriptionPastDue} {
      RecognizeOrderSubscription(t);
    } else {
      RecognizeOthers(t);
    }
  }

  /** Distinct event types have distinct wire names. */
  lemma WireNamesDistinct(t: EventType, u: EventType)
    ensures ToWire(t) == ToWire(u) ==> t == u
  {
    if ToWire(t) == ToWire(u) {
      RecognizeToWire(t);
      RecognizeToWire(u);
      assert Some(t) == Probe(ToWire(t)) == Probe(ToWire(u)) == Some(u);
    }
  }

  /** Every wire name reads back as the event type it names. */
  lemma FromWireToWire(t: EventType)
    ensures FromWire(ToWire(t)) == Some(t)
  {
    var r := FromWire(ToWire(t));
    WireNamesDistinct(r.value, t);
  }

  datatype WebhookStatus = Pending | Processed | Failed

  datatype OrderStatus = OrderPending | Processing | Completed | OrderFailed | Refunded | Canceled

  /**
   * An order. Column values that the payload supplies are kept as the JSON
   * value the payload gave; `None` is SQL NULL.
   */
  datatype Order = Order(
    id: nat,
    customerId: nat,
    status: OrderStatus,
    polarProductId: Option<Json>,
    polarCheckoutId: Option<Json>,
    polarSubscriptionId: Option<Json>,
    amount: Option<Json>,
    currency: Option<Json>,
    metadata: map<string, Json>,
    notes: Option<string>)

  /** A customer; `email` is unique among customers that have one. */
  datatype Customer = Customer(
    id: nat,
    firstName: string,
    lastName: string,
    email: Option<Json>,
    businessName: Json,
    metadata: map<string, Json>)

  /** The Order and Customer tables. */
  datatype Store = Store(orders: seq<Order>, customers: seq<Customer>)

  /**
   * The store's integrity: ids are positions, every order's customer exists,
   * and no two customers share an email (the column's unique constraint).
   */
  ghost predicate WellFormed(s: Store) {
    && (forall i :: 0 <= i < |s.orders| ==> s.orders[i].id == i && s.orders[i].customerId < |s.customers|)
    && (forall i :: 0 <= i < |s.customers| ==> s.customers[i].id == i)
    && (forall i, j :: 0 <= i < j < |s.customers| && s.customers[i].email.Some? ==>
          s.customers[i].email != s.customers[j].email)
  }
}
