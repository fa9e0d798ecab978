/**
 Laws relating several calls of the resource routes.
 */
module Laws {
  import opened Json
  import opened Arrays
  import opened Server

  /** Two GETs with nothing in between answer the same list, and the second
      changes nothing. */
  lemma GetTwice(st: State)
    ensures Get(Get(st).next).response == Get(st).response
    ensures Get(Get(st).next).next == Get(st).next
  {
  }

  /** A second DELETE of the same id, straight after the first, finds
      nothing. */
  lemma DeleteTwice(st: State, id: string)
    ensures Delete(Delete(st, id).next, id).response
            == Response(StatusNotFound, Error(DeleteMissMessage(id)))
  {
  }

  /** While ids are distinct, a successful DELETE removes exactly one record. */
  lemma DeleteRemovesOne(st: State, id: string)
    requires DistinctIds(Store(st))
    requires Contains(Store(st), PathKey(id))
    ensures |Store(Delete(st, id).next)| == |Store(st)| - 1
  {
    WithoutRemovesOne(Store(st), PathKey(id));
  }

  /** Repeating a PUT whose body does not change the `id` has no further
      effect: same response, same state. */
  lemma UpdateIdempotent(st: State, id: string, patch: Record)
    requires IdField !in patch || patch[IdField] == Str(id)
    ensures Update(Update(st, id, patch).next, id, patch) == Update(st, id, patch)
  {
    var key := PathKey(id);
    var s := Store(st);
    var i := FindIndex(s, key);
    if i != -1 {
      var u := Update(st, id, patch);
      var s1 := Store(u.next);
      assert IsFirstMatch(s1, key, i) by {
        assert s1[i] == Spread(s[i], patch);
        assert forall j :: 0 <= j < i ==> s1[j] == s[j];
      }
      SpreadIdempotent(s[i], patch);
      var v := Update(u.next, id, patch);
      assert Store(v.next) == s1;
      assert v.next.arrays == u.next.arrays;
    }
  }

  /** A PUT body may carry an `id` of its own, which wins the spread; it can
      therefore give two stored records the same `id`. */
  lemma UpdateCanDuplicateId()
    ensures var a: Record := map[IdField := Str("a")];
            var b: Record := map[IdField := Str("b")];
            var st := Create(Create(Init, a).next, b).next;
            && DistinctIds(Store(st))
            && Update(st, "a", b).response == Response(StatusOk, Resource(b))
            && !DistinctIds(Store(Update(st, "a", b).next))
  {
    var a: Record := map[IdField := Str("a")];
    var b: Record := map[IdField := Str("b")];
    assert IdOf(a) != IdOf(b);
    var st1 := Create(Init, a).next;
    assert Store(st1) == [a];
    assert !Contains(Store(st1), IdOf(b));
    var st := Create(st1, b).next;
    assert Store(st) == [a, b];
    assert IsFirstMatch(Store(st), PathKey("a"), 0);
    assert Spread(a, b) == b;
    var s' := Store(Update(st, "a", b).next);
    assert s'[0] == b && s'[1] == b;
  }
}
