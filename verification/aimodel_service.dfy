/** `AIModelService`: registers a model, READY, from a request, and deletes
    a model unless an engine uses it. */
module AIModelService {
  import opened Base
  import opened Enums
  import opened Schemas
  import opened Store
  import AIModelRepo
  import Pose

  /** The request to register a model. */
  datatype AIModelUserInput = AIModelUserInput(
    name: string,
    path: string,
    pathType: PathType,
    variant: Variant,
    modelType: AIModelType,
    modelBase: AIModelBase,
    controlNetType: Option<ControlNetType>,
    tags: string,
    triggerPosWords: string,
    triggerNegWords: string)

  const EngineIsUsingAIModel: Error := Raise("engine-is-using-aimodel", Some(400))

  /** The schema `create` builds as written: the control-net type of the
      request is not passed on, so the stored model has none. */
  function SchemaAsWritten(input: AIModelUserInput): (m: AIModel)
    ensures m.controlNetType.None? && m.status == AIModelStatus.Ready
    ensures m == Schema(input).(controlNetType := None)
  {
    AIModel(None, input.name, AIModelStatus.Ready, input.path, input.pathType, input.variant, input.modelType,
      input.modelBase, input.tags, None, Some(input.triggerPosWords), Some(input.triggerNegWords), None)
  }

  /** The schema `create` builds: status READY whatever the request, and
      the request's fields copied unchanged, its control-net type included. */
  function Schema(input: AIModelUserInput): (m: AIModel)
    ensures m.status == AIModelStatus.Ready && m.id.None? && m.error.None?
    ensures m.name == input.name && m.path == input.path && m.pathType == input.pathType
    ensures m.variant == input.variant && m.modelType == input.modelType && m.modelBase == input.modelBase
    ensures m.tags == input.tags && m.controlNetType == input.controlNetType
    ensures m.triggerPosWords == Some(input.triggerPosWords) && m.triggerNegWords == Some(input.triggerNegWords)
  {
    AIModel(None, input.name, AIModelStatus.Ready, input.path, input.pathType, input.variant, input.modelType,
      input.modelBase, input.tags, input.controlNetType, Some(input.triggerPosWords), Some(input.triggerNegWords), None)
  }

  /** `create`: the schema is stored and returned with its new id. */
  method Create(db: Database, input: AIModelUserInput) returns (r: AIModel)
    requires db.Valid()
    modifies db
    ensures db.Valid()
    ensures r == Schema(input).(id := Some(old(db.nextId)))
    ensures db.aimodels == old(db.aimodels) + [r] && db.nextId == old(db.nextId) + 1
    ensures db.engines == old(db.engines) && db.links == old(db.links) && db.generators == old(db.generators)
    ensures db.jobs == old(db.jobs) && db.images == old(db.images) && db.controlImages == old(db.controlImages)
  {
    r := AIModelRepo.Create(db, Schema(input));
  }

  /** A model just registered under a fresh key is what `get_one` finds
      by that key, READY and with the requested fields. */
  lemma CreatedReadsBack(aimodels: seq<AIModel>, input: AIModelUserInput, id: int)
    requires UniqueModelIds(aimodels)
    requires forall k :: 0 <= k < |aimodels| ==> aimodels[k].id.Some? && aimodels[k].id.value < id
    ensures AIModelRepo.GetOne(aimodels + [Schema(input).(id := Some(id))], id) == Ok(Schema(input).(id := Some(id)))
  {
    var m := Schema(input).(id := Some(id));
    var all := aimodels + [m];
    assert all[|aimodels|] == m;
    AIModelRepo.GetOneFinds(all, m);
  }

  /** As written a control-net model registered with its type is stored
      without one, and an engine using it fails every reference detection
      with "no-contron-net-type-in-model", which the intended schema
      avoids. */
  lemma ControlNetTypeLostAsWritten(input: AIModelUserInput, id: int, ci: ControlNetImage)
    requires input.controlNetType.Some?
    ensures SchemaAsWritten(input).controlNetType.None?
    ensures Pose.Detect(SchemaAsWritten(input).(id := Some(id)), ci) == Err(Raise(Pose.NoControlNetType, None))
    ensures Pose.Detect(Schema(input).(id := Some(id)), ci) != Err(Raise(Pose.NoControlNetType, None))
  {
  }

  /** `delete`: "engine-is-using-aimodel" (400) while a link row refers to
      the model, with nothing deleted; otherwise the repository delete,
      once, which fails with "aimodel-not-found" for an absent id and
      else removes the model's row. */
  method Delete(db: Database, id: int) returns (err: Option<Error>)
    requires db.Valid()
    modifies db
    ensures db.Valid()
    ensures AIModelRepo.IsUsedByEngine(old(db.links), id) ==> err == Some(EngineIsUsingAIModel) && unchanged(db)
    ensures !AIModelRepo.IsUsedByEngine(old(db.links), id) && AIModelRepo.GetOrNone(old(db.aimodels), id).None? ==>
      err == Some(AIModelRepo.AIModelNotFound) && db.aimodels == old(db.aimodels)
    ensures !AIModelRepo.IsUsedByEngine(old(db.links), id) && AIModelRepo.GetOrNone(old(db.aimodels), id).Some? ==>
      err.None? && db.aimodels == Filter(old(db.aimodels), (m: AIModel) => m.id != Some(id))
    ensures db.engines == old(db.engines) && db.links == old(db.links) && db.generators == old(db.generators)
    ensures db.jobs == old(db.jobs) && db.images == old(db.images) && db.controlImages == old(db.controlImages)
    ensures db.nextId == old(db.nextId)
  {
    var used := exists l :: l in db.links && l.aimodelId == id;
    if used {
      return Some(EngineIsUsingAIModel);
    }
    err := AIModelRepo.Delete(db, id);
  }

  /** After a successful delete no model has the id any more. */
  lemma DeletedIsGone(aimodels: seq<AIModel>, id: int)
    ensures AIModelRepo.GetOrNone(Filter(aimodels, (m: AIModel) => m.id != Some(id)), id).None?
  {
    var rest := Filter(aimodels, (m: AIModel) => m.id != Some(id));
    FilterMembers(aimodels, (m: AIModel) => m.id != Some(id));
    forall m | m in rest ensures m.id != Some(id) {
      var k :| 0 <= k < |rest| && rest[k] == m;
    }
  }
}
