/** `AIModelRepo`: the lookups, inserts and deletes of the `aimodel` table
    that the services call. */
module AIModelRepo {
  import opened Base
  import opened Enums
  import opened Schemas
  import opened Store

  const AIModelNotFound: Error := Raise("aimodel-not-found", Some(404))

  /** `AIModel.get_or_none(id=id)`: the first model with that id, whatever its type. */
  function GetOrNone(aimodels: seq<AIModel>, id: int): (r: Option<AIModel>)
    ensures r.Some? ==> r.value in aimodels && r.value.id == Some(id)
    ensures r.None? <==> forall m :: m in aimodels ==> m.id != Some(id)
  {
    if aimodels == [] then None
    else if aimodels[0].id == Some(id) then Some(aimodels[0])
    else GetOrNone(aimodels[1..], id)
  }

  /** `get_one`: the model with that id, or "aimodel-not-found" (404). */
  function GetOne(aimodels: seq<AIModel>, id: int): (r: Result<AIModel>)
    ensures r.Err? <==> forall m :: m in aimodels ==> m.id != Some(id)
    ensures r.Err? ==> r.error == AIModelNotFound
    ensures r.Ok? ==> r.value in aimodels && r.value.id == Some(id)
  {
    match GetOrNone(aimodels, id)
    case None => Err(AIModelNotFound)
    case Some(m) => Ok(m)
  }

  /** With unique ids, a stored model is what `get_one` finds by its id. */
  lemma {:induction false} GetOneFinds(aimodels: seq<AIModel>, m: AIModel)
    requires UniqueModelIds(aimodels) && m in aimodels && m.id.Some?
    ensures GetOne(aimodels, m.id.value) == Ok(m)
  {
    var k :| 0 <= k < |aimodels| && aimodels[k] == m;
    if aimodels[0].id != m.id {
      assert UniqueModelIds(aimodels[1..]) by {
        forall i, j | 0 <= i < j < |aimodels[1..]| ensures aimodels[1..][i].id != aimodels[1..][j].id {
          assert aimodels[1..][i] == aimodels[i + 1] && aimodels[1..][j] == aimodels[j + 1];
        }
      }
      assert aimodels[1..][k - 1] == m;
      GetOneFinds(aimodels[1..], m);
    } else {
      assert k == 0;
    }
  }

  /** `is_used_by_engine`: some link row refers to the model. */
  predicate IsUsedByEngine(links: seq<LinkRow>, id: int)
  {
    exists l :: l in links && l.aimodelId == id
  }

  /** `create`: stores the model under the next key and returns it with that id. */
  method Create(db: Database, m: AIModel) returns (r: AIModel)
    requires db.Valid()
    modifies db
    ensures db.Valid()
    ensures r == m.(id := Some(old(db.nextId)))
    ensures db.aimodels == old(db.aimodels) + [r] && db.nextId == old(db.nextId) + 1
    ensures db.engines == old(db.engines) && db.links == old(db.links) && db.generators == old(db.generators)
    ensures db.jobs == old(db.jobs) && db.images == old(db.images) && db.controlImages == old(db.controlImages)
  {
    r := m.(id := Some(db.nextId));
    db.aimodels := db.aimodels + [r];
    db.nextId := db.nextId + 1;
  }

  /** `delete`: "aimodel-not-found" (404) for an absent id, otherwise the
      model's row goes and nothing else changes. */
  method Delete(db: Database, id: int) returns (err: Option<Error>)
    requires db.Valid()
    modifies db
    ensures db.Valid()
    ensures GetOrNone(old(db.aimodels), id).None? ==> err == Some(AIModelNotFound) && db.aimodels == old(db.aimodels)
    ensures GetOrNone(old(db.aimodels), id).Some? ==>
      err.None? && db.aimodels == Filter(old(db.aimodels), (m: AIModel) => m.id != Some(id))
    ensures db.engines == old(db.engines) && db.links == old(db.links) && db.generators == old(db.generators)
    ensures db.jobs == old(db.jobs) && db.images == old(db.images) && db.controlImages == old(db.controlImages)
    ensures db.nextId == old(db.nextId)
  {
    var obj := GetOrNone(db.aimodels, id);
    if obj.None? {
      return Some(AIModelNotFound);
    }
    var keep := (m: AIModel) => m.id != Some(id);
    var idOf := (m: AIModel) => if m.id.Some? then m.id.value else 0;
    assert UniqueIds(db.aimodels, idOf) && IdsBelow(db.aimodels, idOf, db.nextId);
    FilterKeepsIds(db.aimodels, idOf, keep, db.nextId);
    var rest := Filter(db.aimodels, keep);
    FilterMembers(db.aimodels, keep);
    assert forall i :: 0 <= i < |rest| ==> rest[i] in db.aimodels;
    db.aimodels := rest;
    err := None;
  }
}
