/**
 Runs of the server: any interleaving of requests and cache-timer firings,
 and the invariants that hold along every such run.
 */
module Events {
  import opened Json
  import opened Arrays
  import opened Server

  /** One thing the event loop can process: a request, or a cache timer. */
  datatype Event =
    | Post(body: Record)
    | GetAll
    | Put(id: string, patch: Record)
    | Remove(id: string)
    | TimerFired

  /** The state after processing one event. */
  function Handle(st: State, ev: Event): (st': State)
    ensures Aliased(st) ==> Aliased(st')
  {
    match ev
    case Post(body) => Create(st, body).next
    case GetAll => Get(st).next
    case Put(id, patch) => Update(st, id, patch).next
    case Remove(id) => Delete(st, id).next
    case TimerFired => Expire(st)
  }

  /** The state after processing `evs` in order. */
  function Run(st: State, evs: seq<Event>): State
    decreases |evs|
  {
    if |evs| == 0 then st else Run(Handle(st, evs[0]), evs[1..])
  }

  /** Every run keeps the cache slot pointing at the store's own array. */
  lemma {:induction false} RunKeepsAliased(st: State, evs: seq<Event>)
    requires Aliased(st)
    ensures Aliased(Run(st, evs))
    decreases |evs|
  {
    if |evs| > 0 {
      RunKeepsAliased(Handle(st, evs[0]), evs[1..]);
    }
  }

  /** After any run from start-up, a GET answers with the current store,
      whether it is served from the cache or not. */
  lemma GetAnswersStore(evs: seq<Event>)
    ensures Get(Run(Init, evs)).response == Response(StatusOk, Resources(Store(Run(Init, evs))))
  {
    RunKeepsAliased(Init, evs);
  }

  /** A PUT body that cannot move a record onto another record's `id`. */
  predicate KeepsId(ev: Event)
  {
    ev.Put? ==> IdField !in ev.patch || ev.patch[IdField] == Str(ev.id)
  }

  /** Distinct ids stay distinct along every run whose PUT bodies carry no
      foreign `id`. */
  lemma {:induction false} RunKeepsDistinct(st: State, evs: seq<Event>)
    requires DistinctIds(Store(st))
    requires forall k :: 0 <= k < |evs| ==> KeepsId(evs[k])
    ensures DistinctIds(Store(Run(st, evs)))
    decreases |evs|
  {
    if |evs| > 0 {
      var next := Handle(st, evs[0]);
      assert KeepsId(evs[0]);
      assert DistinctIds(Store(next));
      assert forall k :: 0 <= k < |evs[1..]| ==> evs[1..][k] == evs[k + 1];
      RunKeepsDistinct(next, evs[1..]);
    }
  }
}
