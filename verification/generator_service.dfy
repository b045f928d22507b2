/** `GeneratorService`: creates a generator for a stored engine, stopped,
    and requests starting and stopping by writing the generator's status.
    The service is a guard followed by one repository call, so it is
    modelled on the table values: each operation takes the rows it reads
    and returns the rows it leaves. */
module GeneratorService {
  import opened Base
  import opened Enums
  import opened Schemas
  import opened Store
  import EngineRepo

  /** The request to create a generator. */
  datatype GeneratorUserInput = GeneratorUserInput(name: string, engineId: int, gpuId: int)

  /** A generator stored: the schema returned and the generator rows after the insert. */
  datatype Stored = Stored(generator: Generator, generators: seq<GeneratorRow>)

  /** The tags `WRONG_INPUT` and `GENERATOR_NOT_FOUND_ERROR`. */
  const WrongInput := "wrong-input"
  const GeneratorNotFoundError: Error := Raise("generator-not-found-error", None)
  /** The error Tortoise raises when a filter gets a positional argument
      that is not a `Q` expression. */
  const ExpectedQObjects: Error := Raise("TypeError", None)

  /** `engine_repo.exists(id=id)`. */
  predicate EngineExists(engines: seq<EngineRow>, id: int)
  {
    exists k :: 0 <= k < |engines| && engines[k].id == id
  }

  /** `generator_repo.exists(id=id)`. */
  predicate GeneratorExists(generators: seq<GeneratorRow>, id: int)
  {
    exists k :: 0 <= k < |generators| && generators[k].id == id
  }

  /** `_validate`: one "engine_id" error exactly when the engine is not
      stored, and none otherwise. */
  function Validate(engines: seq<EngineRow>, input: GeneratorUserInput): (r: seq<FieldError>)
    ensures r == [] <==> EngineExists(engines, input.engineId)
    ensures r != [] ==> r == [FieldError(EngineId, "the ID " + IntToString(input.engineId) + " doesn't exit in aimodels")]
  {
    if EngineExists(engines, input.engineId) then []
    else [FieldError(EngineId, "the ID " + IntToString(input.engineId) + " doesn't exit in aimodels")]
  }

  /** `engine_repo.get_one(id)` on the table values. */
  function GetEngine(aimodels: seq<AIModel>, engines: seq<EngineRow>, links: seq<LinkRow>, id: int): (r: Result<Engine>)
    ensures r.Ok? ==> r.value.id == Some(id)
  {
    match EngineRepo.FindEngine(engines, id)
    case None => Err(EngineRepo.EngineNotFound)
    case Some(row) => EngineRepo.Serialize(aimodels, links, row)
  }

  /** `GeneratorRepo.create(gs)`: the row is stored under the next key and
      the schema gets that key. */
  function Insert(generators: seq<GeneratorRow>, nextId: int, gs: Generator): (r: Stored)
    requires gs.engine.id.Some?
    ensures r.generator == gs.(id := Some(nextId))
    ensures r.generators == generators + [GeneratorRow(nextId, gs.name, gs.engine.id.value, gs.gpuId, gs.status)]
  {
    Stored(gs.(id := Some(nextId)), generators + [GeneratorRow(nextId, gs.name, gs.engine.id.value, gs.gpuId, gs.status)])
  }

  /** `create` as written: the schema is built without the requested GPU,
      so every generator gets the default GPU 0. */
  function CreateAsWritten(aimodels: seq<AIModel>, engines: seq<EngineRow>, links: seq<LinkRow>,
                           generators: seq<GeneratorRow>, nextId: int, input: GeneratorUserInput): (r: Result<Stored>)
    ensures r.Err? <==> Create(aimodels, engines, links, generators, nextId, input).Err?
    ensures r.Ok? ==> r.value.generator.gpuId == 0 && |r.value.generators| == |generators| + 1
                      && r.value.generators[|generators|].gpuId == 0
  {
    var errs := Validate(engines, input);
    if errs != [] then Err(Error.Error(WrongInput, None, errs))
    else match GetEngine(aimodels, engines, links, input.engineId)
      case Err(e) => Err(e)
      case Ok(engine) => Ok(Insert(generators, nextId, Generator(None, input.name, 0, engine, Stopped)))
  }

  /** `create`: WRONG_INPUT carrying the validation errors when the engine
      is not stored; otherwise the engine read back (which fails when its
      checkpoint does not resolve) and a STOPPED generator stored with it
      under the next key. */
  function Create(aimodels: seq<AIModel>, engines: seq<EngineRow>, links: seq<LinkRow>,
                  generators: seq<GeneratorRow>, nextId: int, input: GeneratorUserInput): (r: Result<Stored>)
    ensures !EngineExists(engines, input.engineId) <==> r.Err? && r.error.tag == WrongInput
    ensures !EngineExists(engines, input.engineId) ==> r.error == Error.Error(WrongInput, None, Validate(engines, input))
    ensures EngineExists(engines, input.engineId) ==>
      var e := EngineRepo.Serialize(aimodels, links, EngineRepo.FindEngine(engines, input.engineId).value);
      (e.Err? ==> r == Err(e.error))
      && (e.Ok? ==>
            r.Ok?
            && r.value.generator == Generator(Some(nextId), input.name, input.gpuId, e.value, Stopped)
            && r.value.generators == generators + [GeneratorRow(nextId, input.name, input.engineId, input.gpuId, Stopped)])
  {
    var errs := Validate(engines, input);
    if errs != [] then Err(Error.Error(WrongInput, None, errs))
    else match GetEngine(aimodels, engines, links, input.engineId)
      case Err(e) => Err(e)
      case Ok(engine) => Ok(Insert(generators, nextId, Generator(None, input.name, input.gpuId, engine, Stopped)))
  }

  /** The rows with the status of those keyed `id` set to `status`. */
  function SetStatus(generators: seq<GeneratorRow>, id: int, status: GeneratorStatus): (r: seq<GeneratorRow>)
    ensures |r| == |generators|
  {
    seq(|generators|, k requires 0 <= k < |generators| =>
      if generators[k].id == id then generators[k].(status := status) else generators[k])
  }

  /** `update_status(id, status)` after the existence check: only the
      status of the generator keyed `id` changes. */
  lemma SetStatusOnly(generators: seq<GeneratorRow>, id: int, status: GeneratorStatus)
    requires GeneratorExists(generators, id)
    ensures var r := SetStatus(generators, id, status);
      (exists k :: 0 <= k < |r| && r[k].id == id && r[k].status == status)
      && forall k :: 0 <= k < |r| ==>
        r[k].(status := generators[k].status) == generators[k] && (r[k].id != id ==> r[k] == generators[k])
  {
    var k :| 0 <= k < |generators| && generators[k].id == id;
    assert SetStatus(generators, id, status)[k].status == status;
  }

  /** The status write of `start` or `stop`: GENERATOR_NOT_FOUND_ERROR for
      an unknown id, otherwise the generator's status set to `status`. */
  function Request(generators: seq<GeneratorRow>, id: int, status: GeneratorStatus): (r: Result<seq<GeneratorRow>>)
    ensures r.Err? <==> !GeneratorExists(generators, id)
    ensures r.Err? ==> r.error == GeneratorNotFoundError
    ensures r.Ok? ==> r.value == SetStatus(generators, id, status)
  {
    if !GeneratorExists(generators, id) then Err(GeneratorNotFoundError)
    else Ok(SetStatus(generators, id, status))
  }

  /** `start`: an unknown id raises GENERATOR_NOT_FOUND_ERROR; otherwise
      the generator's status becomes STARTING and nothing else changes. */
  function Start(generators: seq<GeneratorRow>, id: int): (r: Result<seq<GeneratorRow>>)
    ensures r.Err? <==> !GeneratorExists(generators, id)
    ensures r.Err? ==> r.error == GeneratorNotFoundError
    ensures r.Ok? ==> r.value == SetStatus(generators, id, Starting)
  {
    Request(generators, id, Starting)
  }

  /** `stop`: an unknown id raises GENERATOR_NOT_FOUND_ERROR; otherwise
      the generator's status becomes STOPPING and nothing else changes. */
  function Stop(generators: seq<GeneratorRow>, id: int): (r: Result<seq<GeneratorRow>>)
    ensures r.Err? <==> !GeneratorExists(generators, id)
    ensures r.Err? ==> r.error == GeneratorNotFoundError
    ensures r.Ok? ==> r.value == SetStatus(generators, id, Stopping)
  {
    Request(generators, id, Stopping)
  }

  /** `start` as written: `exists(id)` passes the id positionally, which
      Tortoise refuses before querying, so the call always raises. */
  function StartAsWritten(generators: seq<GeneratorRow>, id: int): (r: Result<seq<GeneratorRow>>)
    ensures r.Err? && r.error != GeneratorNotFoundError
  {
    Err(ExpectedQObjects)
  }

  /** `stop` as written, with the same positional `exists(id)`. */
  function StopAsWritten(generators: seq<GeneratorRow>, id: int): (r: Result<seq<GeneratorRow>>)
    ensures r.Err? && r.error != GeneratorNotFoundError
  {
    Err(ExpectedQObjects)
  }

  /** As written a stored generator can never be started or stopped,
      where the intended service writes STARTING or STOPPING. */
  lemma StartStopFailAsWritten(generators: seq<GeneratorRow>, id: int)
    requires GeneratorExists(generators, id)
    ensures StartAsWritten(generators, id).Err? && Start(generators, id).Ok?
    ensures StopAsWritten(generators, id).Err? && Stop(generators, id).Ok?
  {
  }

  /** As written a request for another GPU is stored with GPU 0. */
  lemma GpuLostAsWritten(aimodels: seq<AIModel>, engines: seq<EngineRow>, links: seq<LinkRow>,
                         generators: seq<GeneratorRow>, nextId: int, input: GeneratorUserInput)
    requires input.gpuId != 0
    requires Create(aimodels, engines, links, generators, nextId, input).Ok?
    ensures CreateAsWritten(aimodels, engines, links, generators, nextId, input).Ok?
    ensures CreateAsWritten(aimodels, engines, links, generators, nextId, input).value.generator.gpuId == 0
    ensures Create(aimodels, engines, links, generators, nextId, input).value.generator.gpuId == input.gpuId
  {
  }

  /** A generator just created can be started: `start` on its key
      succeeds and makes the new row STARTING, leaving the earlier rows. */
  lemma CreatedCanStart(aimodels: seq<AIModel>, engines: seq<EngineRow>, links: seq<LinkRow>,
                        generators: seq<GeneratorRow>, nextId: int, input: GeneratorUserInput)
    requires forall k :: 0 <= k < |generators| ==> generators[k].id < nextId
    requires Create(aimodels, engines, links, generators, nextId, input).Ok?
    ensures var rows := Create(aimodels, engines, links, generators, nextId, input).value.generators;
      Start(rows, nextId).Ok?
      && Start(rows, nextId).value == generators + [GeneratorRow(nextId, input.name, input.engineId, input.gpuId, Starting)]
  {
    var rows := Create(aimodels, engines, links, generators, nextId, input).value.generators;
    assert rows[|generators|].id == nextId;
    var started := SetStatus(rows, nextId, Starting);
    assert started == generators + [GeneratorRow(nextId, input.name, input.engineId, input.gpuId, Starting)];
  }
}
