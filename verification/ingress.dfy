/**
 * `POST /webhooks/polar`: the controller in front of the ledger. It decodes
 * a body that arrives as text, gives an event without an id one built from
 * its type, timestamp and data id, hands the event on, and acknowledges
 * with `received: true` whether or not the event's handler succeeded.
 */
module Ingress {
  import opened Wrappers
  import opened JsonValue
  import opened Handlers
  import opened Ledger

  /** The JSON body of the reply. */
  datatype Reply = Reply(received: bool, eventId: Json)

  /** The HTTP answer: the reply, or an exception that escapes the controller. */
  datatype Response = Replied(reply: Reply) | Crashed(message: string)

  /** The state after a request and the response sent. */
  datatype Receipt = Receipt(state: State, response: Response)

  /** The id assigned to an event that carries none: `${type}_${timestamp}_${data?.id || 'unknown'}`. */
  function FallbackId(event: map<string, Json>): (r: string) {
    var dataId := Or(GetOpt(Member(event, "data"), "id"), Text("unknown"));
    Interp(Member(event, "type")) + "_" + Interp(Member(event, "timestamp")) + "_" + Interp(dataId)
  }

  /** The event as it leaves the controller: its own id if truthy, the fallback id otherwise. */
  function WithIdentity(event: map<string, Json>): (e: map<string, Json>)
    ensures "id" in e && Truthy(Member(e, "id"))
    ensures Truthy(Member(event, "id")) ==> e == event
    ensures !Truthy(Member(event, "id")) ==> e == event["id" := JStr(FallbackId(event))]
  {
    if Truthy(Member(event, "id")) then event
    else
      var id := FallbackId(event);
      assert id[|Interp(Member(event, "type"))|] == '_';
      event["id" := JStr(id)]
  }

  /** JavaScript's `typeof` for the primitive values. */
  function TypeName(v: Json): string {
    match v
    case JNull => "object"
    case JBool(_) => "boolean"
    case JNum(_) => "number"
    case JStr(_) => "string"
    case JObj(_) => "object"
  }

  /**
   * The TypeError the controller raises, outside its `try`, on a decoded body
   * that is not an object: reading `id` off `null`, or (in strict mode)
   * creating `id` on a primitive.
   */
  function NotAnObjectError(v: Json): string {
    if v.JNull? then "Cannot read properties of null (reading 'id')"
    else "Cannot create property 'id' on " + TypeName(v) + " '" + Interp(Some(v)) + "'"
  }

  /** The TypeError `Object.keys(body)` raises, while logging, on a `null` body. */
  const NullBodyError := "Cannot convert undefined or null to object"

  /**
   * `receivePolarWebhook(body, headers)`. `parse` stands for `JSON.parse`
   * (`None` when it throws); `signature` is the `x-polar-signature` header.
   */
  function Receive(st: State, body: Json, signature: Option<string>, parse: string -> Option<Json>, now: int): (r: Receipt)
    ensures body == JNull ==> r == Receipt(st, Crashed(NullBodyError))
    ensures body.JStr? && parse(body.s).None? ==> r == Receipt(st, Replied(Reply(false, JStr("unknown"))))
    ensures var decoded := if body.JStr? then parse(body.s) else Some(body);
            body != JNull && decoded.Some? && !decoded.value.JObj? ==> r == Receipt(st, Crashed(NotAnObjectError(decoded.value)))
    ensures var decoded := if body.JStr? then parse(body.s) else Some(body);
            decoded.Some? && decoded.value.JObj? ==>
              var event := WithIdentity(decoded.value.fields);
              r.state == ProcessWebhook(st, event, signature, now).state &&
              r.response == Replied(Reply(true, event["id"]))
  {
    var decoded := if body.JStr? then parse(body.s) else Some(body);
    if body.JNull? then Receipt(st, Crashed(NullBodyError))
    else match decoded
    case None => Receipt(st, Replied(Reply(false, JStr("unknown"))))
    case Some(v) =>
      if !v.JObj? then Receipt(st, Crashed(NotAnObjectError(v)))
      else
        var event := WithIdentity(v.fields);
        var run := ProcessWebhook(st, event, signature, now);
        Receipt(run.state, Replied(Reply(true, Or(Member(event, "id"), Text("unknown")).value)))
  }

  /** Handler failures are not reported to the sender: every decoded event object is acknowledged. */
  lemma AcknowledgedEvenWhenHandlerFails(st: State, event: map<string, Json>, signature: Option<string>, parse: string -> Option<Json>, now: int)
    ensures var r := Receive(st, JObj(event), signature, parse, now);
            r.response.Replied? && r.response.reply.received &&
            (ProcessWebhook(st, WithIdentity(event), signature, now).delivery.Rethrown? ==>
               r.state.ledger[|r.state.ledger| - 1].status == Entities.Failed)
  {
  }

  /** Delivering the same body twice leaves the state as the first delivery left it, even when the event has no id. */
  lemma {:induction false} RedeliveryIsDeduplicated(st: State, body: Json, sig1: Option<string>, sig2: Option<string>,
                                                    parse: string -> Option<Json>, t1: int, t2: int)
    ensures var first := Receive(st, body, sig1, parse, t1);
            var second := Receive(first.state, body, sig2, parse, t2);
            second.state == first.state && second.response == first.response
  {
    var decoded := if body.JStr? then parse(body.s) else Some(body);
    if decoded.Some? && decoded.value.JObj? {
      RedeliveryIsIdempotent(st, WithIdentity(decoded.value.fields), sig1, sig2, t1, t2);
    }
  }

  /**
   * Two id-less events that agree on type, timestamp and `data.id` get the
   * same ledger id, so the second is skipped whatever else it carries.
   */
  lemma {:induction false} FallbackIdsCollide(st: State, e1: map<string, Json>, e2: map<string, Json>,
                                             sig1: Option<string>, sig2: Option<string>,
                                             parse: string -> Option<Json>, t1: int, t2: int)
    requires !Truthy(Member(e1, "id")) && !Truthy(Member(e2, "id"))
    requires Member(e1, "type") == Member(e2, "type") && Member(e1, "timestamp") == Member(e2, "timestamp")
    requires GetOpt(Member(e1, "data"), "id") == GetOpt(Member(e2, "data"), "id")
    ensures var first := Receive(st, JObj(e1), sig1, parse, t1);
            Receive(first.state, JObj(e2), sig2, parse, t2).state == first.state
  {
    var first := ProcessWebhook(st, WithIdentity(e1), sig1, t1);
    ProcessRecordsEventId(st, WithIdentity(e1), sig1, t1);
    assert Member(WithIdentity(e2), "id") == Member(WithIdentity(e1), "id");
  }
}
