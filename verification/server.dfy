/**
 The four resource routes of the REST server as pure transitions.

 The handlers share two pieces of process state: the variable `resources`,
 which is bound to an array of records, and the cache slot
 `cache['allResources']`, which holds a reference to an array. A GET that
 misses the cache stores the very array `resources` is bound to, so later
 in-place mutations of that array (the `push` of a POST, the index
 assignment of a PUT) are seen through the cache as well. To make that
 sharing explicit, the state keeps every array that was ever bound to
 `resources` in `arrays`, and both `resources` and the cache slot are
 references (positions) into it.
 */
module Server {
  import opened Json
  import opened Arrays

  /** A reference to one of the arrays the program has allocated. */
  type Ref = nat

  datatype Heap = Heap(arrays: seq<seq<Record>>, resources: Ref, cache: Option<Ref>)

  /** A heap whose references all point at allocated arrays. */
  type State = h: Heap | h.resources < |h.arrays| && (h.cache.Some? ==> h.cache.value < |h.arrays|)
    witness Heap([[]], 0, None)

  /** The state at start-up: `resources` bound to an empty array, empty cache. */
  const Init: State := Heap([[]], 0, None)

  /** The current contents of the array `resources` is bound to. */
  function Store(st: State): seq<Record>
  {
    st.arrays[st.resources]
  }

  /** The contents of the array the cache slot holds, if it holds one. */
  function Cached(st: State): Option<seq<Record>>
  {
    match st.cache
    case None => None
    case Some(c) => Some(st.arrays[c])
  }

  /** The cache slot, when filled, holds the very array `resources` is bound to. */
  predicate Aliased(st: State)
  {
    st.cache.Some? ==> st.cache.value == st.resources
  }

  /** The cache, when filled, has the same contents as the store. */
  predicate Coherent(st: State)
  {
    Cached(st).Some? ==> Cached(st).value == Store(st)
  }

  lemma AliasedIsCoherent(st: State)
    requires Aliased(st)
    ensures Coherent(st)
  {
  }

  /** The body of an HTTP response. */
  datatype Body =
    | Resource(rec: Record)           // a JSON object
    | Resources(list: seq<Record>)    // a JSON array
    | Error(message: string)          // the JSON object `{ error: message }`
    | Text(text: string)              // a plain-text body

  datatype Response = Response(status: int, body: Body)

  /** What a handler produces: its response and the state it leaves. */
  datatype Step = Step(response: Response, next: State)

  const StatusOk := 200
  const StatusCreated := 201
  const StatusBadRequest := 400
  const StatusNotFound := 404

  const DuplicateMessage := "Resource with this ID already exists"
  const UpdateMissMessage := "Resource not found"

  function DeleteMissMessage(id: string): string
  {
    "Resource with id " + id + " not found"
  }

  function DeletedMessage(id: string): string
  {
    "Resource with id " + id + " deleted"
  }

  /** The key a route parameter `:id` is compared with: always a string. */
  function PathKey(id: string): Option<Value>
  {
    Some(Str(id))
  }

  /** Replace the contents of the array `resources` is bound to, in place. */
  function MutateStore(st: State, contents: seq<Record>): (st': State)
    ensures Store(st') == contents
    ensures st'.resources == st.resources && st'.cache == st.cache
    ensures |st'.arrays| == |st.arrays|
    ensures forall r :: 0 <= r < |st.arrays| && r != st.resources ==> st'.arrays[r] == st.arrays[r]
  {
    st.(arrays := st.arrays[st.resources := contents])
  }

  /** POST /resources: reject a body whose `id` some stored record already
      has; otherwise push the body onto the store's array and echo it. The
      cache slot is left alone. */
  function Create(st: State, body: Record): (r: Step)
    ensures Contains(Store(st), IdOf(body)) ==>
              r.response == Response(StatusBadRequest, Error(DuplicateMessage)) && r.next == st
    ensures !Contains(Store(st), IdOf(body)) ==>
              && r.response == Response(StatusCreated, Resource(body))
              && Store(r.next) == Store(st) + [body]
              && r.next.cache == st.cache
    ensures DistinctIds(Store(st)) ==> DistinctIds(Store(r.next))
    ensures Aliased(st) ==> Aliased(r.next) && Cached(r.next) == if st.cache.Some? then Some(Store(r.next)) else None
  {
    if Find(Store(st), IdOf(body)).Some? then
      Step(Response(StatusBadRequest, Error(DuplicateMessage)), st)
    else
      var next := MutateStore(st, Store(st) + [body]);
      assert forall i :: 0 <= i < |Store(st)| ==> IdOf(Store(st)[i]) != IdOf(body);
      Step(Response(StatusCreated, Resource(body)), next)
  }

  /** GET /resources: on a hit, answer with the array in the cache slot;
      on a miss, answer with the store and put the store's array itself
      (not a copy) in the cache slot. */
  function Get(st: State): (r: Step)
    ensures r.response.status == StatusOk
    ensures st.cache.Some? ==> r.next == st && r.response.body == Resources(Cached(st).value)
    ensures st.cache.None? ==>
              && r.response.body == Resources(Store(st))
              && Store(r.next) == Store(st)
              && Cached(r.next) == Some(Store(st))
              && Aliased(r.next)
    ensures Aliased(st) ==> Aliased(r.next) && r.response.body == Resources(Store(st))
  {
    match st.cache
    case Some(c) => Step(Response(StatusOk, Resources(st.arrays[c])), st)
    case None => Step(Response(StatusOk, Resources(Store(st))), st.(cache := Some(st.resources)))
  }

  /** PUT /resources/:id: find the first record whose `id` is the path
      parameter, replace it in place by its spread with the body, answer
      with the merged record and empty the cache slot. */
  function Update(st: State, id: string, patch: Record): (r: Step)
    ensures !Contains(Store(st), PathKey(id)) ==>
              r.response == Response(StatusNotFound, Error(UpdateMissMessage)) && r.next == st
    ensures forall i :: IsFirstMatch(Store(st), PathKey(id), i) ==>
              && |Store(r.next)| == |Store(st)|
              && Store(r.next)[i] == Spread(Store(st)[i], patch)
              && (forall j :: 0 <= j < |Store(st)| && j != i ==> Store(r.next)[j] == Store(st)[j])
              && r.response == Response(StatusOk, Resource(Store(r.next)[i]))
              && r.next.cache.None?
    ensures Aliased(st) ==> Aliased(r.next)
    ensures DistinctIds(Store(st)) && (IdField !in patch || patch[IdField] == Str(id)) ==>
              DistinctIds(Store(r.next))
  {
    var s := Store(st);
    var i := FindIndex(s, PathKey(id));
    if i == -1 then
      Step(Response(StatusNotFound, Error(UpdateMissMessage)), st)
    else
      var merged := Spread(s[i], patch);
      var next := MutateStore(st, s[i := merged]);
      assert IdField !in patch || patch[IdField] == Str(id) ==> IdOf(merged) == IdOf(s[i]);
      Step(Response(StatusOk, Resource(merged)), next.(cache := None))
  }

  /** DELETE /resources/:id: keep the records whose `id` is not the path
      parameter. When that removes nothing, answer 404 and leave the state
      as it was; otherwise bind `resources` to the freshly allocated
      filtered array, answer with a confirmation and empty the cache slot.
      (The program as written rebinds `resources` on the 404 path too; see
      module StaleCache.) */
  function Delete(st: State, id: string): (r: Step)
    ensures r.response.status == StatusNotFound <==> !Contains(Store(st), PathKey(id))
    ensures !Contains(Store(st), PathKey(id)) ==>
              r.response == Response(StatusNotFound, Error(DeleteMissMessage(id))) && r.next == st
    ensures Contains(Store(st), PathKey(id)) ==>
              && r.response == Response(StatusOk, Text(DeletedMessage(id)))
              && Store(r.next) == Without(Store(st), PathKey(id))
              && |Store(r.next)| < |Store(st)|
              && !Contains(Store(r.next), PathKey(id))
              && r.next.cache.None?
    ensures Aliased(st) ==> Aliased(r.next)
    ensures DistinctIds(Store(st)) ==> DistinctIds(Store(r.next))
  {
    var initialLength := |Store(st)|;
    var filtered := Without(Store(st), PathKey(id));
    if |filtered| == initialLength then
      Step(Response(StatusNotFound, Error(DeleteMissMessage(id))), st)
    else
      assert DistinctIds(Store(st)) ==> DistinctIds(filtered) by {
        if DistinctIds(Store(st)) {
          WithoutKeepsDistinct(Store(st), PathKey(id));
        }
      }
      assert !Contains(filtered, PathKey(id)) by {
        forall j | 0 <= j < |filtered|
          ensures !Matches(filtered[j], PathKey(id))
        {
          assert filtered[j] in filtered;
        }
      }
      var next := Heap(st.arrays + [filtered], |st.arrays|, None);
      Step(Response(StatusOk, Text(DeletedMessage(id))), next)
  }

  /** A cache timer fires: `delete cache['allResources']`. Timers from
      earlier misses may still be pending, so this can happen at any time. */
  function Expire(st: State): (st': State)
    ensures Store(st') == Store(st)
    ensures Cached(st') == None
    ensures Aliased(st')
  {
    st.(cache := None)
  }
}
