/**
 * The webhook handlers of the ingestion service as pure transitions
 * `Store × payload → Store × result`. A handler either returns the object it
 * hands back to the ledger, together with the store after its writes, or
 * throws; a throwing handler has written nothing.
 *
 * Persistence follows what the ORM stores: assigning `undefined` to a column
 * leaves it unchanged on update, an `undefined` column on insert takes the
 * column default, and a JSON column drops `undefined` members (`SetField`).
 */
module Handlers {
  import opened Wrappers
  import opened JsText
  import opened JsonValue
  import opened Entities

  /** The handler's returned object and the store after its writes, or the message it threw. */
  datatype Outcome = Done(store: Store, result: map<string, Json>) | Threw(message: string)

  // ------------------------------------------------------------------ lookups

  /** `findOne({ where })`: the position of the first record satisfying `p`, in table order. */
  function FirstIndex<T>(xs: seq<T>, p: T -> bool): (r: Option<nat>)
    ensures r.Some? ==> r.value < |xs| && p(xs[r.value])
    ensures r.Some? ==> forall j :: 0 <= j < r.value ==> !p(xs[j])
    ensures r.None? ==> forall j :: 0 <= j < |xs| ==> !p(xs[j])
    decreases |xs|
  {
    if |xs| == 0 then None
    else if p(xs[0]) then Some(0)
    else match FirstIndex(xs[1..], p)
      case None => None
      case Some(i) => Some(i + 1)
  }

  /** The first order whose checkout id equals `key`. */
  function OrderByCheckout(orders: seq<Order>, key: Option<Json>): Option<nat> {
    FirstIndex(orders, (o: Order) => o.polarCheckoutId == key)
  }

  /** The first customer with email `email`. */
  function CustomerByEmail(customers: seq<Customer>, email: Option<Json>): Option<nat> {
    FirstIndex(customers, (c: Customer) => c.email == email)
  }

  /**
   * Whether `:id` binds a SQL value: a missing or `null` id binds SQL NULL,
   * and `x = NULL` is never true.
   */
  predicate BindsValue(key: Option<Json>) {
    key.Some? && !key.value.JNull?
  }

  /**
   * The evident meaning of the metadata predicate `metadata->>'polar_customer_id' = :id`:
   * the id binds a value and the document's `polar_customer_id` member
   * equals it. (MySQL itself rejects that path; see
   * `FindOrCreateCustomerAsWritten`.)
   */
  predicate HasPolarId(c: Customer, key: Option<Json>) {
    BindsValue(key) && "polar_customer_id" in c.metadata && c.metadata["polar_customer_id"] == key.value
  }

  function CustomerByPolarId(customers: seq<Customer>, key: Option<Json>): Option<nat> {
    FirstIndex(customers, (c: Customer) => HasPolarId(c, key))
  }

  /** Whether some customer already holds `email` (the unique constraint's test). */
  predicate EmailTaken(customers: seq<Customer>, email: Json) {
    exists i :: 0 <= i < |customers| && customers[i].email == Some(email)
  }

  // ---------------------------------------------------------- result objects

  /** JSON member `k` of `m` holds `v`, and is absent when `v` is `undefined`. */
  predicate KeyHolds(m: map<string, Json>, k: string, v: Option<Json>) {
    (k in m <==> v.Some?) && (v.Some? ==> m[k] == v.value)
  }

  function Obj1(k1: string, v1: Option<Json>): map<string, Json> {
    SetField(map[], k1, v1)
  }

  function Obj2(k1: string, v1: Option<Json>, k2: string, v2: Option<Json>): map<string, Json> {
    SetField(Obj1(k1, v1), k2, v2)
  }

  function Obj3(k1: string, v1: Option<Json>, k2: string, v2: Option<Json>, k3: string, v3: Option<Json>): map<string, Json> {
    SetField(Obj2(k1, v1, k2, v2), k3, v3)
  }

  function Id(n: nat): Option<Json> { Some(JNum(n)) }

  function Text(s: string): Option<Json> { Some(JStr(s)) }

  /** `order.x = v` followed by `save`: an `undefined` value leaves the column as it was. */
  function Assign(prior: Option<Json>, v: Option<Json>): (r: Option<Json>)
    ensures v.Some? ==> r == v
    ensures v.None? ==> r == prior
  {
    if v.Some? then v else prior
  }

  // -------------------------------------------------------- customer lookup

  const Placeholder := "polar.temp"

  /** The synthetic email of a placeholder customer: `customer_<id>@polar.temp`. */
  function PlaceholderEmail(polarCustomerId: Option<Json>): string {
    "customer_" + Interp(polarCustomerId) + "@" + Placeholder
  }

  /** The placeholder row `findOrCreateCustomer` inserts under id `id`. */
  function PlaceholderCustomer(id: nat, polarCustomerId: Option<Json>): (c: Customer)
    ensures c.id == id && c.firstName == "Polar" && c.lastName == "Customer"
    ensures c.email == Text(PlaceholderEmail(polarCustomerId)) && c.businessName == JStr("")
    ensures BindsValue(polarCustomerId) ==> HasPolarId(c, polarCustomerId)
  {
    Customer(id, "Polar", "Customer", Text(PlaceholderEmail(polarCustomerId)), JStr(""),
             SetField(map[], "polar_customer_id", polarCustomerId))
  }

  /** The store with the placeholder appended, and the placeholder's id. */
  function AppendPlaceholder(s: Store, polarCustomerId: Option<Json>): (r: (Store, nat))
    ensures var (s', id) := r;
            && id == |s.customers|
            && s'.orders == s.orders
            && |s'.customers| == id + 1
            && s'.customers[..id] == s.customers
            && s'.customers[id] == PlaceholderCustomer(id, polarCustomerId)
  {
    var id := |s.customers|;
    assert (s.customers + [PlaceholderCustomer(id, polarCustomerId)])[..id] == s.customers;
    (Store(s.orders, s.customers + [PlaceholderCustomer(id, polarCustomerId)]), id)
  }

  /** The unique index's rejection of an email already held by another customer. */
  function DuplicateEmail(email: string): string {
    "Duplicate entry '" + email + "' for key 'email'"
  }

  /**
   * `findOrCreateCustomer`: the first customer whose metadata carries the
   * provider's customer id, or else a new placeholder customer appended to
   * the table; inserting the placeholder fails when its synthetic email is
   * already taken.
   */
  function FindOrCreateCustomer(s: Store, polarCustomerId: Option<Json>): (r: Result<(Store, nat), string>)
    ensures CustomerByPolarId(s.customers, polarCustomerId).Some? ==>
              r == Ok((s, CustomerByPolarId(s.customers, polarCustomerId).value))
    ensures CustomerByPolarId(s.customers, polarCustomerId).None? ==>
              (r.Err? <==> EmailTaken(s.customers, JStr(PlaceholderEmail(polarCustomerId))))
    ensures r.Ok? && CustomerByPolarId(s.customers, polarCustomerId).None? ==>
              var (s', id) := r.value;
              && id == |s.customers|
              && s'.orders == s.orders
              && |s'.customers| == |s.customers| + 1
              && s'.customers[..|s.customers|] == s.customers
              && s'.customers[id].firstName == "Polar"
              && s'.customers[id].lastName == "Customer"
              && s'.customers[id].email == Text(PlaceholderEmail(polarCustomerId))
              && s'.customers[id].businessName == JStr("")
              && (BindsValue(polarCustomerId) ==> HasPolarId(s'.customers[id], polarCustomerId))
  {
    match CustomerByPolarId(s.customers, polarCustomerId)
    case Some(i) => Ok((s, i))
    case None =>
      var email := PlaceholderEmail(polarCustomerId);
      if EmailTaken(s.customers, JStr(email)) then
        Err(DuplicateEmail(email))
      else
        Ok(AppendPlaceholder(s, polarCustomerId))
  }

  /** MySQL's error for a JSON path that does not start with `$`. */
  const InvalidJsonPath := "Invalid JSON path expression. The error is around character position 0."

  /**
   * `findOrCreateCustomer` as its query is written. MySQL takes the right
   * operand of `->>` as a JSON path, and `'polar_customer_id'` lacks the
   * leading `$`, so the query fails on the first row with a metadata
   * document; every customer row of this model holds one. Only on an empty
   * table does the lookup get through to the placeholder insert.
   */
  function FindOrCreateCustomerAsWritten(s: Store, polarCustomerId: Option<Json>): (r: Result<(Store, nat), string>)
    ensures |s.customers| > 0 <==> r == Err(InvalidJsonPath)
  {
    if |s.customers| > 0 then Err(InvalidJsonPath)
    else
      var email := PlaceholderEmail(polarCustomerId);
      var c := Customer(0, "Polar", "Customer", Text(email), JStr(""),
                        SetField(map[], "polar_customer_id", polarCustomerId));
      Ok((Store(s.orders, [c]), 0))
  }

  /**
   * As written, a customer can only ever be looked up once: the placeholder
   * the first lookup inserts makes the second lookup, for the same id, fail.
   */
  lemma {:induction false} AsWrittenSecondLookupFails(orders: seq<Order>, polarCustomerId: Option<Json>)
    ensures var first := FindOrCreateCustomerAsWritten(Store(orders, []), polarCustomerId);
            first.Ok? && FindOrCreateCustomerAsWritten(first.value.0, polarCustomerId) == Err(InvalidJsonPath)
  {
  }

  /**
   * With the intended lookup, looking up the same id again finds the
   * customer the first lookup returned. A missing or `null` id matches
   * nothing, so the second lookup tries the same placeholder insert again
   * and fails on the unique email.
   */
  lemma {:induction false} FindOrCreateCustomerIsStable(s: Store, polarCustomerId: Option<Json>)
    ensures var first := FindOrCreateCustomer(s, polarCustomerId);
            first.Ok? && BindsValue(polarCustomerId) ==> FindOrCreateCustomer(first.value.0, polarCustomerId) == first
    ensures var first := FindOrCreateCustomer(s, polarCustomerId);
            first.Ok? && !BindsValue(polarCustomerId) ==>
              FindOrCreateCustomer(first.value.0, polarCustomerId) == Err(DuplicateEmail(PlaceholderEmail(polarCustomerId)))
  {
    var first := FindOrCreateCustomer(s, polarCustomerId);
    if first.Ok? && CustomerByPolarId(s.customers, polarCustomerId).None? {
      var (s1, id) := first.value;
      var n := |s.customers|;
      if BindsValue(polarCustomerId) {
        assert HasPolarId(s1.customers[n], polarCustomerId);
        assert forall j :: 0 <= j < n ==> s1.customers[j] == s.customers[j];
      } else {
        UnboundIdMatchesNothing(s1.customers, polarCustomerId);
        assert s1.customers[n].email == Some(JStr(PlaceholderEmail(polarCustomerId)));
      }
    }
  }

  /** A missing or `null` id finds no customer. */
  lemma {:induction false} UnboundIdMatchesNothing(customers: seq<Customer>, key: Option<Json>)
    requires !BindsValue(key)
    ensures CustomerByPolarId(customers, key).None?
    decreases |customers|
  {
    if |customers| > 0 {
      UnboundIdMatchesNothing(customers[1..], key);
    }
  }

  // ------------------------------------------------------- customer handlers

  const NameIsNotAString := "data.name?.split is not a function"

  /**
   * `data.name?.split(' ')`: for a string name, its first word and the rest
   * of the words joined back with spaces; nothing for a missing or null name;
   * a TypeError for any other value.
   */
  function NamePieces(name: Option<Json>): (r: Result<Option<(string, string)>, string>)
    ensures r.Err? <==> name.Some? && !name.value.JNull? && !name.value.JStr?
    ensures r.Err? ==> r.error == NameIsNotAString
    ensures name.Some? && name.value.JStr? ==> r.Ok? && r.value.Some?
    ensures r.Ok? && r.value.Some? ==> name.Some? && name.value.JStr?
    ensures r.Ok? && r.value.Some? ==>
              var (head, rest) := r.value.value;
              && ' ' !in head
              && (' ' in name.value.s ==> head + " " + rest == name.value.s)
              && (' ' !in name.value.s ==> head == name.value.s && rest == "")
  {
    match name
    case None => Ok(None)
    case Some(JNull) => Ok(None)
    case Some(JStr(t)) =>
      var words := Split(t, ' ');
      var rest := Join(words[1..], ' ');
      SplitSingleton(t, ' ');
      JoinRest(words, ' ');
      Ok(Some((words[0], rest)))
    case Some(_) => Err(NameIsNotAString)
  }

  /** Rejoining the first word with the rest gives back the joined list. */
  lemma JoinRest(words: seq<string>, sep: char)
    requires |words| >= 1
    ensures var rest := Join(words[1..], sep);
            (if |words| == 1 then words[0] else words[0] + [sep] + rest) == Join(words, sep)
  {
  }

  /** The text of a string name, for `|| data.name` once the name is known to be a string. */
  function NameText(name: Option<Json>): string {
    if name.Some? && name.value.JStr? then name.value.s else ""
  }

  function CustomerRef(customerId: Option<Json>, data: Json): map<string, Json> {
    Obj2("customerId", customerId, "polarCustomerId", Get(data, "id"))
  }

  /**
   * `handleCustomerCreated`: a customer with the payload's email is left as
   * it is; otherwise a customer is appended, named from `data.name`, with the
   * billing organisation as business name and the provider id in metadata.
   */
  function HandleCustomerCreated(s: Store, data: Json): (o: Outcome)
    ensures CustomerByEmail(s.customers, Get(data, "email")).Some? ==>
              o == Done(s, CustomerRef(Id(CustomerByEmail(s.customers, Get(data, "email")).value), data))
    ensures CustomerByEmail(s.customers, Get(data, "email")).None? ==>
              (o.Threw? <==> NamePieces(Get(data, "name")).Err?)
    ensures o.Done? && CustomerByEmail(s.customers, Get(data, "email")).None? ==>
              && o.store.orders == s.orders
              && |o.store.customers| == |s.customers| + 1
              && o.store.customers[..|s.customers|] == s.customers
              && o.store.customers[|s.customers|].email == Get(data, "email")
              && o.store.customers[|s.customers|].metadata == SetField(map[], "polar_customer_id", Get(data, "id"))
              && o.result == CustomerRef(Id(|s.customers|), data)
    ensures o.Done? && CustomerByEmail(s.customers, Get(data, "email")).None? ==>
              var c := o.store.customers[|s.customers|];
              var name := Get(data, "name");
              var org := GetOpt(Get(data, "billing_address"), "organization");
              && c.id == |s.customers|
              && (!Truthy(name) ==> c.firstName == "" && c.lastName == "")
              && (Truthy(name) ==>
                    var (head, rest) := NamePieces(name).value.value;
                    && c.firstName == head
                    && c.lastName == (if rest != "" then rest else name.value.s))
              && (Truthy(org) ==> c.businessName == org.value)
              && (!Truthy(org) ==> c.businessName == JStr(""))
  {
    var email := Get(data, "email");
    match CustomerByEmail(s.customers, email)
    case Some(i) => Done(s, CustomerRef(Id(i), data))
    case None =>
      var name := Get(data, "name");
      match NamePieces(name)
      case Err(e) => Threw(e)
      case Ok(pieces) =>
        var first := if pieces.Some? && pieces.value.0 != "" then pieces.value.0 else "";
        var last := if pieces.Some? && pieces.value.1 != "" then pieces.value.1
                    else if Truthy(name) then NameText(name) else "";
        var business := Or(GetOpt(Get(data, "billing_address"), "organization"), Text(""));
        var id := |s.customers|;
        var c := Customer(id, first, last, email, business.value,
                          SetField(map[], "polar_customer_id", Get(data, "id")));
        assert (s.customers + [c])[..id] == s.customers;
        Done(Store(s.orders, s.customers + [c]), CustomerRef(Id(id), data))
  }

  /**
   * `handleCustomerUpdated`: the customer with the payload's email, if any,
   * takes the new name words and billing organisation where they are
   * non-empty and keeps its own values otherwise.
   */
  function HandleCustomerUpdated(s: Store, data: Json): (o: Outcome)
    ensures CustomerByEmail(s.customers, Get(data, "email")).None? ==> o == Done(s, CustomerRef(None, data))
    ensures o.Done? ==> o.store.orders == s.orders && |o.store.customers| == |s.customers|
    ensures o.Done? ==> forall j :: 0 <= j < |s.customers| && Some(j) != CustomerByEmail(s.customers, Get(data, "email")) ==>
              o.store.customers[j] == s.customers[j]
    ensures CustomerByEmail(s.customers, Get(data, "email")).Some? ==>
              (o.Threw? <==> NamePieces(Get(data, "name")).Err?)
    ensures o.Threw? ==> o.message == NameIsNotAString
    ensures o.Done? && CustomerByEmail(s.customers, Get(data, "email")).Some? ==>
              var i := CustomerByEmail(s.customers, Get(data, "email")).value;
              var before := s.customers[i];
              var after := o.store.customers[i];
              var name := Get(data, "name");
              var org := GetOpt(Get(data, "billing_address"), "organization");
              && o.result == CustomerRef(Id(i), data)
              && after == before.(firstName := after.firstName, lastName := after.lastName, businessName := after.businessName)
              && (!Truthy(name) ==> after.firstName == before.firstName && after.lastName == before.lastName)
              && (Truthy(name) ==>
                    var (head, rest) := NamePieces(name).value.value;
                    && after.firstName == (if head != "" then head else before.firstName)
                    && after.lastName == (if rest != "" then rest else name.value.s))
              && (Truthy(org) ==> after.businessName == org.value)
              && (!Truthy(org) ==> after.businessName == before.businessName)
  {
    var email := Get(data, "email");
    match CustomerByEmail(s.customers, email)
    case None => Done(s, CustomerRef(None, data))
    case Some(i) =>
      var c := s.customers[i];
      var name := Get(data, "name");
      match NamePieces(name)
      case Err(e) => Threw(e)
      case Ok(pieces) =>
        var first := if pieces.Some? && pieces.value.0 != "" then pieces.value.0 else c.firstName;
        var last := if pieces.Some? && pieces.value.1 != "" then pieces.value.1
                    else if Truthy(name) then NameText(name) else c.lastName;
        var business := Or(GetOpt(Get(data, "billing_address"), "organization"), Some(c.businessName));
        var c' := c.(firstName := first, lastName := last, businessName := business.value);
        Done(s.(customers := s.customers[i := c']), CustomerRef(Id(i), data))
  }

  function HandleCustomerDeleted(s: Store, data: Json): (o: Outcome)
    ensures o.Done? && o.store == s
    ensures o.result == Obj2("polarCustomerId", Get(data, "id"), "action", Text("deleted"))
  {
    Done(s, Obj2("polarCustomerId", Get(data, "id"), "action", Text("deleted")))
  }

  function HandleCustomerStateChanged(s: Store, data: Json): (o: Outcome)
    ensures o.Done? && o.store == s
    ensures o.result == Obj2("polarCustomerId", Get(data, "id"), "state", Get(data, "state"))
  {
    Done(s, Obj2("polarCustomerId", Get(data, "id"), "state", Get(data, "state")))
  }

  // --------------------------------------------------- subscription handlers

  /** The inert subscription handlers: `{ subscriptionId: data.id, <key>: <value> }`, no writes. */
  function SubscriptionAck(s: Store, data: Json, key: string, value: Json): (o: Outcome)
    requires key != "subscriptionId"
    ensures o.Done? && o.store == s
    ensures "subscriptionId" in o.result <==> Get(data, "id").Some?
    ensures Get(data, "id").Some? ==> o.result["subscriptionId"] == Get(data, "id").value
    ensures key in o.result && o.result[key] == value
  {
    Done(s, Obj2("subscriptionId", Get(data, "id"), key, Some(value)))
  }

  const SubscriptionRecorded := "Subscription recorded, order will be created by order.created webhook"

  // ---------------------------------------------------------- order handlers

  /** The order `handleOrderCreated` inserts under id `id` for customer `customerId`. */
  function NewOrder(id: nat, customerId: nat, data: Json): Order {
    var sub := Get(data, "subscription_id");
    Order(
      id, customerId, OrderPending,
      Get(data, "product_id"),
      Get(data, "id"),
      if Truthy(sub) then sub else None,
      Get(data, "amount"),
      if Get(data, "currency").Some? then Get(data, "currency") else Text("USD"),
      SetField(SetField(SetField(Spread(Get(data, "metadata")),
        "checkout_id", Get(data, "checkout_id")),
        "subscription_id", sub),
        "custom_field_data", Get(data, "custom_field_data")),
      None)
  }

  /**
   * `handleOrderCreated`: resolve the customer by the provider's customer
   * id, then append exactly one pending order keyed by the payload's id.
   */
  function HandleOrderCreated(s: Store, data: Json): (o: Outcome)
    ensures o.Threw? <==> FindOrCreateCustomer(s, Get(data, "customer_id")).Err?
    ensures o.Done? ==>
              var (s1, cid) := FindOrCreateCustomer(s, Get(data, "customer_id")).value;
              var n := |s.orders|;
              && o.store.customers == s1.customers
              && |o.store.orders| == n + 1
              && o.store.orders[..n] == s.orders
              && o.store.orders[n].id == n
              && o.store.orders[n].customerId == cid
              && o.store.orders[n].status == OrderPending
              && o.store.orders[n].polarCheckoutId == Get(data, "id")
              && (Truthy(Get(data, "subscription_id")) ==> o.store.orders[n].polarSubscriptionId == Get(data, "subscription_id"))
              && (!Truthy(Get(data, "subscription_id")) ==> o.store.orders[n].polarSubscriptionId.None?)
              && o.result == Obj2("orderId", Id(n), "polarOrderId", Get(data, "id"))
    ensures o.Done? ==>
              var order := o.store.orders[|s.orders|];
              var meta := Spread(Get(data, "metadata"));
              && order.polarProductId == Get(data, "product_id")
              && order.amount == Get(data, "amount")
              && (Get(data, "currency").Some? ==> order.currency == Get(data, "currency"))
              && (Get(data, "currency").None? ==> order.currency == Text("USD"))
              && order.notes.None?
              && (forall k :: k !in {"checkout_id", "subscription_id", "custom_field_data"} ==>
                    (k in order.metadata <==> k in meta) && (k in meta ==> order.metadata[k] == meta[k]))
              && KeyHolds(order.metadata, "checkout_id", Get(data, "checkout_id"))
              && KeyHolds(order.metadata, "subscription_id", Get(data, "subscription_id"))
              && KeyHolds(order.metadata, "custom_field_data", Get(data, "custom_field_data"))
  {
    match FindOrCreateCustomer(s, Get(data, "customer_id"))
    case Err(e) => Threw(e)
    case Ok((s1, cid)) =>
      var n := |s1.orders|;
      var order := NewOrder(n, cid, data);
      assert (s1.orders + [order])[..n] == s1.orders;
      Done(s1.(orders := s1.orders + [order]), Obj2("orderId", Id(n), "polarOrderId", Get(data, "id")))
  }

  function OrderRef(index: Option<nat>, data: Json): Option<Json> {
    if index.Some? then Id(index.value) else None
  }

  /**
   * `handleOrderUpdated`: the order with checkout id `data.id`, if any, has
   * the payload's metadata merged over its own and `subscription_id` set.
   */
  function HandleOrderUpdated(s: Store, data: Json): (o: Outcome)
    ensures o.Done? && o.store.customers == s.customers && |o.store.orders| == |s.orders|
    ensures OrderByCheckout(s.orders, Get(data, "id")).None? ==> o.store == s
    ensures OrderByCheckout(s.orders, Get(data, "id")).Some? ==>
              var i := OrderByCheckout(s.orders, Get(data, "id")).value;
              var m := o.store.orders[i].metadata;
              && o.store.orders[i] == s.orders[i].(metadata := m)
              && (forall k :: k in s.orders[i].metadata && k !in Spread(Get(data, "metadata")) && k != "subscription_id" ==>
                    k in m && m[k] == s.orders[i].metadata[k])
              && (forall k :: k in Spread(Get(data, "metadata")) && k != "subscription_id" ==>
                    k in m && m[k] == Spread(Get(data, "metadata"))[k])
              && ("subscription_id" in m <==> Get(data, "subscription_id").Some?)
              && (Get(data, "subscription_id").Some? ==> m["subscription_id"] == Get(data, "subscription_id").value)
              && (forall k :: k in m ==> k in s.orders[i].metadata || k in Spread(Get(data, "metadata")) || k == "subscription_id")
              && (forall j :: 0 <= j < |s.orders| && j != i ==> o.store.orders[j] == s.orders[j])
    ensures o.result == Obj2("orderId", OrderRef(OrderByCheckout(s.orders, Get(data, "id")), data), "polarOrderId", Get(data, "id"))
  {
    var found := OrderByCheckout(s.orders, Get(data, "id"));
    var result := Obj2("orderId", OrderRef(found, data), "polarOrderId", Get(data, "id"));
    match found
    case None => Done(s, result)
    case Some(i) =>
      var order := s.orders[i];
      var merged := SetField(order.metadata + Spread(Get(data, "metadata")), "subscription_id", Get(data, "subscription_id"));
      Done(s.(orders := s.orders[i := order.(metadata := merged)]), result)
  }

  /**
   * `handleOrderPaid`: the order with checkout id `data.id`, if any, becomes
   * completed with the payload's amount and currency, and takes the
   * subscription id only when it had none; with no such order nothing changes.
   */
  function HandleOrderPaid(s: Store, data: Json): (o: Outcome)
    ensures o.Done? && o.store.customers == s.customers && |o.store.orders| == |s.orders|
    ensures OrderByCheckout(s.orders, Get(data, "id")).None? ==> o.store == s && "orderId" !in o.result
    ensures "status" in o.result && o.result["status"] == JStr("paid")
    ensures o.result == Obj3("orderId", OrderRef(OrderByCheckout(s.orders, Get(data, "id")), data),
                             "polarOrderId", Get(data, "id"), "status", Text("paid"))
    ensures OrderByCheckout(s.orders, Get(data, "id")).Some? ==>
              var i := OrderByCheckout(s.orders, Get(data, "id")).value;
              var before := s.orders[i];
              var after := o.store.orders[i];
              var sub := Get(data, "subscription_id");
              var adopts := Truthy(sub) && !Truthy(before.polarSubscriptionId);
              && after == before.(status := Completed, amount := after.amount, currency := after.currency,
                                  polarSubscriptionId := after.polarSubscriptionId, metadata := after.metadata)
              && after.amount == Assign(before.amount, Get(data, "amount"))
              && after.currency == Assign(before.currency, Get(data, "currency"))
              && (!adopts ==> after.polarSubscriptionId == before.polarSubscriptionId && after.metadata == before.metadata)
              && (adopts ==> after.polarSubscriptionId == sub)
              && (adopts ==> "subscription_id" in after.metadata && after.metadata["subscription_id"] == sub.value)
              && (adopts ==> forall k :: k != "subscription_id" ==>
                    (k in after.metadata <==> k in before.metadata) &&
                    (k in before.metadata ==> after.metadata[k] == before.metadata[k]))
              && (forall j :: 0 <= j < |s.orders| && j != i ==> o.store.orders[j] == s.orders[j])
              && "orderId" in o.result && o.result["orderId"] == JNum(i)
  {
    var found := OrderByCheckout(s.orders, Get(data, "id"));
    var result := Obj3("orderId", OrderRef(found, data), "polarOrderId", Get(data, "id"), "status", Text("paid"));
    match found
    case None => Done(s, result)
    case Some(i) =>
      var order := s.orders[i];
      var sub := Get(data, "subscription_id");
      var paid := order.(status := Completed,
                         amount := Assign(order.amount, Get(data, "amount")),
                         currency := Assign(order.currency, Get(data, "currency")));
      var paid' := if Truthy(sub) && !Truthy(order.polarSubscriptionId)
                   then paid.(polarSubscriptionId := sub, metadata := SetField(order.metadata, "subscription_id", sub))
                   else paid;
      Done(s.(orders := s.orders[i := paid']), result)
  }

  /** `handleOrderRefunded`: the order with checkout id `data.id`, if any, becomes refunded with a fixed note. */
  function HandleOrderRefunded(s: Store, data: Json): (o: Outcome)
    ensures o.Done? && o.store.customers == s.customers && |o.store.orders| == |s.orders|
    ensures OrderByCheckout(s.orders, Get(data, "id")).None? ==> o.store == s
    ensures OrderByCheckout(s.orders, Get(data, "id")).Some? ==>
              var i := OrderByCheckout(s.orders, Get(data, "id")).value;
              && o.store.orders == s.orders[i := s.orders[i].(status := Refunded, notes := Some("Order refunded"))]
    ensures "status" in o.result && o.result["status"] == JStr("refunded")
    ensures o.result == Obj3("orderId", OrderRef(OrderByCheckout(s.orders, Get(data, "id")), data),
                             "polarOrderId", Get(data, "id"), "status", Text("refunded"))
  {
    var found := OrderByCheckout(s.orders, Get(data, "id"));
    var result := Obj3("orderId", OrderRef(found, data), "polarOrderId", Get(data, "id"), "status", Text("refunded"));
    match found
    case None => Done(s, result)
    case Some(i) =>
      Done(s.(orders := s.orders[i := s.orders[i].(status := Refunded, notes := Some("Order refunded"))]), result)
  }

  // --------------------------------------------------------- refund handlers

  /** The metadata a refund adds: `refund_id`, `refund_amount`, `refund_reason`. */
  function RefundMetadata(m: map<string, Json>, data: Json): map<string, Json> {
    SetField(SetField(SetField(m, "refund_id", Get(data, "id")),
      "refund_amount", Get(data, "amount")),
      "refund_reason", Get(data, "reason"))
  }

  /**
   * `handleRefundCreated`: the order whose checkout id is the refund's
   * `order_id` becomes refunded, is noted `Refunded: <reason>`, and gains the
   * refund's id, amount and reason in metadata, keeping its other keys.
   */
  function HandleRefundCreated(s: Store, data: Json): (o: Outcome)
    ensures o.Done? && o.store.customers == s.customers && |o.store.orders| == |s.orders|
    ensures OrderByCheckout(s.orders, Get(data, "order_id")).None? ==> o.store == s
    ensures OrderByCheckout(s.orders, Get(data, "order_id")).Some? ==>
              var i := OrderByCheckout(s.orders, Get(data, "order_id")).value;
              var before := s.orders[i];
              var after := o.store.orders[i];
              && after == before.(status := Refunded, notes := after.notes, metadata := after.metadata)
              && after.notes == Some("Refunded: " + Interp(Get(data, "reason")))
              && (forall k :: k !in {"refund_id", "refund_amount", "refund_reason"} ==>
                    (k in after.metadata <==> k in before.metadata) &&
                    (k in before.metadata ==> after.metadata[k] == before.metadata[k]))
              && KeyHolds(after.metadata, "refund_id", Get(data, "id"))
              && KeyHolds(after.metadata, "refund_amount", Get(data, "amount"))
              && KeyHolds(after.metadata, "refund_reason", Get(data, "reason"))
              && (forall j :: 0 <= j < |s.orders| && j != i ==> o.store.orders[j] == s.orders[j])
    ensures o.result == Obj2("orderId", OrderRef(OrderByCheckout(s.orders, Get(data, "order_id")), data), "refundId", Get(data, "id"))
  {
    var found := OrderByCheckout(s.orders, Get(data, "order_id"));
    var result := Obj2("orderId", OrderRef(found, data), "refundId", Get(data, "id"));
    match found
    case None => Done(s, result)
    case Some(i) =>
      var order := s.orders[i];
      var refunded := order.(status := Refunded,
                             notes := Some("Refunded: " + Interp(Get(data, "reason"))),
                             metadata := RefundMetadata(order.metadata, data));
      Done(s.(orders := s.orders[i := refunded]), result)
  }
}
