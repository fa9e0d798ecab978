/**
 The request sequence of the repository's unit tests, followed from
 start-up through the model.
 */
module Scenario {
  import opened Json
  import opened Arrays
  import opened Server

  /** POST {id: "1", name: "Resource 1"} is created; GET lists it; PUT
      /resources/1 {name: "Updated Resource 1"} answers the renamed record;
      DELETE /resources/1 confirms; a final GET answers the empty list. */
  lemma UnitTestSequence()
    ensures var rec: Record := map[IdField := Str("1"), "name" := Str("Resource 1")];
            var patch: Record := map["name" := Str("Updated Resource 1")];
            var updated: Record := map[IdField := Str("1"), "name" := Str("Updated Resource 1")];
            var post := Create(Init, rec);
            var get := Get(post.next);
            var put := Update(get.next, "1", patch);
            var del := Delete(put.next, "1");
            && post.response == Response(StatusCreated, Resource(rec))
            && get.response == Response(StatusOk, Resources([rec]))
            && put.response == Response(StatusOk, Resource(updated))
            && del.response == Response(StatusOk, Text("Resource with id 1 deleted"))
            && Get(del.next).response == Response(StatusOk, Resources([]))
  {
    var rec: Record := map[IdField := Str("1"), "name" := Str("Resource 1")];
    var patch: Record := map["name" := Str("Updated Resource 1")];
    var updated: Record := map[IdField := Str("1"), "name" := Str("Updated Resource 1")];
    var post := Create(Init, rec);
    assert Store(post.next) == [rec];
    var get := Get(post.next);
    assert IsFirstMatch(Store(get.next), PathKey("1"), 0);
    assert Spread(rec, patch) == updated;
    var put := Update(get.next, "1", patch);
    assert Store(put.next) == [updated];
    var del := Delete(put.next, "1");
    assert Matches(updated, PathKey("1"));
    assert Store(del.next) == [];
    assert DeletedMessage("1") == "Resource with id 1 deleted";
  }
}
