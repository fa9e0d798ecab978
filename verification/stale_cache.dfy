/**
 The DELETE route exactly as the program has it, and what it does to the
 cache.

 The program assigns the filtered copy to `resources` before it compares
 lengths, so a DELETE that removes nothing still rebinds `resources` to a
 new array, and its 404 path returns before the cache slot is emptied. If
 the cache was filled, it now holds the previous array. The contents still
 agree at that moment, but the next POST pushes onto the new array only,
 and from then on GET serves a list without the new record until a
 successful PUT or DELETE, or a cache timer, empties the slot.

 `Server.Delete` is the corrected route: it leaves `resources` bound to the
 same array when nothing is removed, and the rest of the model uses it.
 */
module StaleCache {
  import opened Json
  import opened Arrays
  import opened Server
  import opened Events

  /** DELETE /resources/:id as written: always rebind `resources` to the
      filtered copy, and empty the cache slot only on success. */
  function DeleteAsWritten(st: State, id: string): (r: Step)
    ensures r.response == Delete(st, id).response
    ensures Store(r.next) == Store(Delete(st, id).next)
    ensures Cached(r.next) == Cached(Delete(st, id).next)
    ensures r.next.resources != st.resources
  {
    var initialLength := |Store(st)|;
    var filtered := Without(Store(st), PathKey(id));
    var rebound := Heap(st.arrays + [filtered], |st.arrays|, st.cache);
    if |filtered| == initialLength then
      Step(Response(StatusNotFound, Error(DeleteMissMessage(id))), rebound)
    else
      Step(Response(StatusOk, Text(DeletedMessage(id))), rebound.(cache := None))
  }

  /** The route as written leaves the same store contents as the corrected
      one, so it keeps distinct ids distinct too. */
  lemma DeleteAsWrittenKeepsDistinct(st: State, id: string)
    requires DistinctIds(Store(st))
    ensures DistinctIds(Store(DeleteAsWritten(st, id).next))
  {
  }

  /** From any state with a filled, aliased cache, a DELETE that finds
      nothing leaves the cache pointing at an array the store no longer
      uses, and a POST that then succeeds makes GET answer a list that
      lacks the new record. */
  lemma MissedDeleteThenCreateIsStale(st: State, id: string, body: Record)
    requires st.cache.Some? && Aliased(st)
    requires !Contains(Store(st), PathKey(id))
    requires !Contains(Store(st), IdOf(body))
    ensures !Aliased(DeleteAsWritten(st, id).next)
    ensures var after := Create(DeleteAsWritten(st, id).next, body).next;
            && Store(after) == Store(st) + [body]
            && Get(after).response.body == Resources(Store(st))
            && Get(after).response.body != Resources(Store(after))
  {
  }

  /** The concrete request sequence GET, DELETE /resources/x, POST
      {"id": "1"}, GET: the program as written answers the last GET with
      the empty list although the store holds the new record. */
  lemma StaleGetAfterMissedDelete()
    ensures var rec: Record := map[IdField := Str("1")];
            var s1 := Get(Init).next;
            var s2 := DeleteAsWritten(s1, "x").next;
            var s3 := Create(s2, rec).next;
            && Store(s3) == [rec]
            && Get(s3).response == Response(StatusOk, Resources([]))
  {
  }

  /** The same sequence with the corrected DELETE: the last GET answers the
      store. */
  lemma FreshGetAfterMissedDelete()
    ensures var rec: Record := map[IdField := Str("1")];
            var evs := [GetAll, Remove("x"), Post(rec)];
            && Store(Run(Init, evs)) == [rec]
            && Get(Run(Init, evs)).response == Response(StatusOk, Resources([rec]))
  {
    var rec: Record := map[IdField := Str("1")];
    var evs := [GetAll, Remove("x"), Post(rec)];
    var s1 := Handle(Init, GetAll);
    var s2 := Handle(s1, Remove("x"));
    var s3 := Handle(s2, Post(rec));
    assert Run(Init, evs) == s3 by {
      assert evs[1..] == [Remove("x"), Post(rec)];
      assert [Remove("x"), Post(rec)][1..] == [Post(rec)];
      assert [Post(rec)][1..] == [];
      assert Run(s2, [Post(rec)]) == Run(s3, []) == s3;
      assert Run(s1, [Remove("x"), Post(rec)]) == Run(s2, [Post(rec)]);
    }
    assert Store(s2) == [];
    assert Store(s3) == [rec];
    GetAnswersStore(evs);
  }
}
