/**
 * `processWebhook`: the webhook ledger. Every event is looked up by its id;
 * a known id is answered with the stored record and nothing runs again. A
 * new id is logged as pending, routed, and its record finished as
 * processed (with the handler's result and the time) or failed (with the
 * error message, which is then rethrown to the caller).
 */
module Ledger {
  import opened Wrappers
  import opened JsonValue
  import opened Entities
  import opened Handlers
  import opened EventRouter

  /** A row of the `webhooks` table. `payload` is the whole event object. */
  datatype Webhook = Webhook(
    eventId: Option<Json>,
    eventType: Option<Json>,
    status: WebhookStatus,
    payload: map<string, Json>,
    processedData: Option<map<string, Json>>,
    errorMessage: Option<string>,
    processedAt: Option<int>,
    signature: Option<string>)

  /** The database: the business tables and the webhook ledger. */
  datatype State = State(store: Store, ledger: seq<Webhook>)

  /** What `processWebhook` hands back: a record, or the handler's error rethrown. */
  datatype Delivery = Returned(record: Webhook) | Rethrown(message: string)

  /**
   * One call: the state afterwards, the successive saves of the webhook row
   * (the pending insert, then the final update), and the delivery.
   */
  datatype Run = Run(state: State, writes: seq<Webhook>, delivery: Delivery)

  /** An event's member `k`; `undefined` when absent. */
  function Member(event: map<string, Json>, k: string): (r: Option<Json>)
    ensures r.Some? <==> k in event
    ensures r.Some? ==> r.value == event[k]
  {
    if k in event then Some(event[k]) else None
  }

  /** `findOne({ where: { eventId } })`: the first row carrying that id. */
  function FindByEventId(ledger: seq<Webhook>, eventId: Option<Json>): Option<nat> {
    FirstIndex(ledger, (w: Webhook) => w.eventId == eventId)
  }

  /** The row `create(...)` builds before anything runs. */
  function PendingRecord(event: map<string, Json>, signature: Option<string>): (w: Webhook)
    ensures w.status == Pending && w.payload == event
    ensures w.eventId == Member(event, "id") && w.eventType == Member(event, "type")
    ensures w.processedData.None? && w.errorMessage.None? && w.processedAt.None?
  {
    Webhook(Member(event, "id"), Member(event, "type"), Pending, event, None, None, None, signature)
  }

  /** `processWebhook(eventDto, signature)` at time `now`. */
  function ProcessWebhook(st: State, event: map<string, Json>, signature: Option<string>, now: int): (r: Run)
    ensures FindByEventId(st.ledger, Member(event, "id")).Some? ==>
              r == Run(st, [], Returned(st.ledger[FindByEventId(st.ledger, Member(event, "id")).value]))
    ensures FindByEventId(st.ledger, Member(event, "id")).None? ==>
              && |r.writes| == 2 && r.writes[0] == PendingRecord(event, signature)
              && r.state.ledger == st.ledger + [r.writes[1]]
              && r.writes[1].eventId == Member(event, "id")
              && r.writes[1].payload == event
              && r.writes[1].status != Pending
              && (r.writes[1].status == Processed <==> r.delivery.Returned?)
              && (r.delivery.Returned? ==> r.delivery.record == r.writes[1])
              && (r.delivery.Rethrown? ==> r.state.store == st.store &&
                                           r.writes[1].errorMessage == Some(r.delivery.message))
    ensures FindByEventId(st.ledger, Member(event, "id")).None? ==>
              var o := ProcessWebhookEvent(st.store, Member(event, "type"), Member(event, "data"));
              && r.writes[1] == r.writes[0].(status := r.writes[1].status, processedData := r.writes[1].processedData,
                                             errorMessage := r.writes[1].errorMessage, processedAt := r.writes[1].processedAt)
              && (o.Done? ==> && r.state.store == o.store && r.delivery == Returned(r.writes[1])
                              && r.writes[1].status == Processed
                              && r.writes[1].processedData == Some(o.result)
                              && r.writes[1].processedAt == Some(now)
                              && r.writes[1].errorMessage.None?)
              && (o.Threw? ==> && r.delivery == Rethrown(o.message)
                               && r.writes[1].status == Failed
                               && r.writes[1].processedData.None?
                               && r.writes[1].processedAt.None?)
  {
    var found := FindByEventId(st.ledger, Member(event, "id"));
    if found.Some? then Run(st, [], Returned(st.ledger[found.value]))
    else
      var pending := PendingRecord(event, signature);
      match ProcessWebhookEvent(st.store, Member(event, "type"), Member(event, "data"))
      case Done(store, result) =>
        var final := pending.(status := Processed, processedData := Some(result), processedAt := Some(now));
        Run(State(store, st.ledger + [final]), [pending, final], Returned(final))
      case Threw(message) =>
        var final := pending.(status := Failed, errorMessage := Some(message));
        Run(State(st.store, st.ledger + [final]), [pending, final], Rethrown(message))
  }

  /** No two rows of the ledger carry the same event id. */
  predicate UniqueEventIds(ledger: seq<Webhook>) {
    forall i, j :: 0 <= i < j < |ledger| ==> ledger[i].eventId != ledger[j].eventId
  }

  /** Every row has finished: none is left pending. */
  predicate AllSettled(ledger: seq<Webhook>) {
    forall i :: 0 <= i < |ledger| ==> ledger[i].status != Pending
  }

  /** A redelivered event runs no handler: the state stays as the first delivery left it and the stored record comes back. */
  lemma {:induction false} RedeliveryIsIdempotent(st: State, event: map<string, Json>, sig1: Option<string>, sig2: Option<string>, t1: int, t2: int)
    ensures var first := ProcessWebhook(st, event, sig1, t1);
            var second := ProcessWebhook(first.state, event, sig2, t2);
            second.state == first.state && second.writes == [] && second.delivery.Returned? &&
            (first.writes != [] ==> second.delivery.record == first.writes[1]) &&
            (first.writes == [] ==> second.delivery == first.delivery)
  {
    var id := Member(event, "id");
    var first := ProcessWebhook(st, event, sig1, t1);
    if FindByEventId(st.ledger, id).None? {
      var n := |st.ledger|;
      assert first.state.ledger[n].eventId == id;
      var k := FindByEventId(first.state.ledger, id);
      assert k.Some?;
      assert forall j :: 0 <= j < n ==> first.state.ledger[j] == st.ledger[j];
      assert k.value == n;
    }
  }

  /** After a call, whatever its outcome, the ledger holds a row for the event's id. */
  lemma {:induction false} ProcessRecordsEventId(st: State, event: map<string, Json>, signature: Option<string>, now: int)
    ensures FindByEventId(ProcessWebhook(st, event, signature, now).state.ledger, Member(event, "id")).Some?
  {
    var id := Member(event, "id");
    var l := ProcessWebhook(st, event, signature, now).state.ledger;
    if FindByEventId(st.ledger, id).None? {
      assert l[|st.ledger|].eventId == id;
    }
  }

  /** The ledger keeps one row per event id. */
  lemma {:induction false} ProcessKeepsIdsUnique(st: State, event: map<string, Json>, signature: Option<string>, now: int)
    requires UniqueEventIds(st.ledger)
    ensures UniqueEventIds(ProcessWebhook(st, event, signature, now).state.ledger)
  {
    var r := ProcessWebhook(st, event, signature, now);
    if FindByEventId(st.ledger, Member(event, "id")).None? {
      var l := r.state.ledger;
      var n := |st.ledger|;
      forall i, j | 0 <= i < j < |l| ensures l[i].eventId != l[j].eventId {
        if j == n {
          assert l[i] == st.ledger[i];
        } else {
          assert l[i] == st.ledger[i] && l[j] == st.ledger[j];
        }
      }
    }
  }

  /** Once a call returns or throws, no row it wrote is still pending. */
  lemma {:induction false} ProcessLeavesNothingPending(st: State, event: map<string, Json>, signature: Option<string>, now: int)
    requires AllSettled(st.ledger)
    ensures AllSettled(ProcessWebhook(st, event, signature, now).state.ledger)
  {
    var r := ProcessWebhook(st, event, signature, now);
    if FindByEventId(st.ledger, Member(event, "id")).None? {
      var l := r.state.ledger;
      var n := |st.ledger|;
      forall i | 0 <= i < |l| ensures l[i].status != Pending {
        if i < n {
          assert l[i] == st.ledger[i];
        }
      }
    }
  }

  /** Processing an event keeps the business tables consistent. */
  lemma {:induction false} ProcessPreservesStore(st: State, event: map<string, Json>, signature: Option<string>, now: int)
    requires WellFormed(st.store)
    ensures WellFormed(ProcessWebhook(st, event, signature, now).state.store)
  {
    var id := Member(event, "id");
    if FindByEventId(st.ledger, id).None? {
      DispatchPreservesWellFormed(RouteType(Member(event, "type")), st.store, Member(event, "data"));
    }
  }

  /** An event whose type has no handler is logged as processed with the default message and changes no business row. */
  lemma {:induction false} UnroutedEventIsLoggedOnly(st: State, event: map<string, Json>, signature: Option<string>, now: int)
    requires FindByEventId(st.ledger, Member(event, "id")).None?
    requires RouteType(Member(event, "type")) == Unhandled
    ensures var r := ProcessWebhook(st, event, signature, now);
            r.state.store == st.store && r.delivery.Returned? &&
            r.delivery.record.status == Processed &&
            r.delivery.record.processedData == Some(Obj1("message", Text(NotProcessed))) &&
            r.delivery.record.processedAt == Some(now)
  {
  }
}
