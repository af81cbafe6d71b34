/** The in-memory handling event repository: per tracking id, the events in
    the order they were stored. */
module HandlingEventRepository {
  import opened Shipping
  import opened HandlingEvents

  type Repo = map<TrackingId, seq<HandlingEvent>>

  /** `NewHandlingEventRepository`. */
  const NewRepo: Repo := map[]

  /** The stored events of one cargo; an id never stored has none. */
  function QueryHandlingHistory(r: Repo, id: TrackingId): (h: HandlingHistory)
    ensures id !in r ==> h == []
    ensures forall e :: e in h ==> id in r && e in r[id]
  {
    if id in r then r[id] else []
  }

  /** Appends `e` to the history of its own tracking id and touches no other
      history. */
  function Store(r: Repo, e: HandlingEvent): (r': Repo)
    ensures QueryHandlingHistory(r', e.trackingId) == QueryHandlingHistory(r, e.trackingId) + [e]
    ensures forall id :: id != e.trackingId ==> QueryHandlingHistory(r', id) == QueryHandlingHistory(r, id)
  {
    var existing := if e.trackingId in r then r[e.trackingId] else [];
    r[e.trackingId := existing + [e]]
  }

  /** Stores the events one after another, first to last. */
  function StoreAll(r: Repo, es: seq<HandlingEvent>): Repo
    decreases |es|
  {
    if |es| == 0 then r else StoreAll(Store(r, es[0]), es[1..])
  }

  /** The events of `es` that belong to `id`, in their order in `es`. */
  function EventsOf(es: seq<HandlingEvent>, id: TrackingId): seq<HandlingEvent>
    decreases |es|
  {
    if |es| == 0 then []
    else (if es[0].trackingId == id then [es[0]] else []) + EventsOf(es[1..], id)
  }

  /** After storing a sequence of events, each cargo's history grows by
      exactly its own events, in insertion order. */
  lemma {:induction false} HistoryIsInsertionOrder(r: Repo, es: seq<HandlingEvent>, id: TrackingId)
    ensures QueryHandlingHistory(StoreAll(r, es), id) == QueryHandlingHistory(r, id) + EventsOf(es, id)
    decreases |es|
  {
    if |es| > 0 {
      HistoryIsInsertionOrder(Store(r, es[0]), es[1..], id);
    }
  }

  /** Starting from the empty repository, a history holds exactly the events
      stored for that id, oldest first. */
  lemma HistoryFromEmpty(es: seq<HandlingEvent>, id: TrackingId)
    ensures QueryHandlingHistory(StoreAll(NewRepo, es), id) == EventsOf(es, id)
  {
    HistoryIsInsertionOrder(NewRepo, es, id);
  }
}
