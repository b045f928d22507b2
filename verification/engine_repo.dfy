/** `EngineRepo` and `serialize_engine`: an engine is one `engine` row plus
    one `ai_model_for_engine` link row per model it uses, tagged with the
    model's role; reading an engine back groups its link rows by role. */
module EngineRepo {
  import opened Base
  import opened Enums
  import opened Schemas
  import opened Store

  const EngineNotFound: Error := Raise("engine-not-found", Some(404))
  const CheckpointNotFound: Error := Raise("checkpoint-not-found", None)

  /** `AIModel.get_or_none(id=id, model_type=kind)`: the first stored model
      with this id and this type. */
  function FindModel(aimodels: seq<AIModel>, id: int, kind: AIModelType): (r: Option<AIModel>)
    ensures r.Some? ==> r.value in aimodels && r.value.id == Some(id) && r.value.modelType == kind
    ensures r.None? ==> forall m :: m in aimodels ==> !(m.id == Some(id) && m.modelType == kind)
  {
    if aimodels == [] then None
    else if aimodels[0].id == Some(id) && aimodels[0].modelType == kind then Some(aimodels[0])
    else FindModel(aimodels[1..], id, kind)
  }

  /** `Engine.get_or_none(id=id)`. */
  function FindEngine(engines: seq<EngineRow>, id: int): (r: Option<EngineRow>)
    ensures r.Some? ==> r.value in engines && r.value.id == id
    ensures r.None? ==> forall e :: e in engines ==> e.id != id
  {
    if engines == [] then None
    else if engines[0].id == id then Some(engines[0])
    else FindEngine(engines[1..], id)
  }

  /** Every model of the engine has a database id, as the ones the service
      fetches do; the link table's `aimodel_id` column cannot be null. */
  predicate ModelIdsSet(e: Engine)
  {
    e.checkpoint.id.Some? && (e.vae.Some? ==> e.vae.value.id.Some?)
    && (forall k :: 0 <= k < |e.embeddings| ==> e.embeddings[k].id.Some?)
    && (forall k :: 0 <= k < |e.loras| ==> e.loras[k].aimodel.id.Some?)
    && (forall k :: 0 <= k < |e.controlNets| ==> e.controlNets[k].id.Some?)
  }

  /** The link rows for the models `ms`, all in role `kind`, numbered from `first`. */
  function RowsOf(ms: seq<AIModel>, kind: AIModelType, engineId: int, first: int): (r: seq<LinkRow>)
    requires forall k :: 0 <= k < |ms| ==> ms[k].id.Some?
    ensures |r| == |ms|
  {
    seq(|ms|, k requires 0 <= k < |ms| => LinkRow(first + k, engineId, ms[k].id.value, None, kind))
  }

  /** The LORA link rows, each with its weight, numbered from `first`. */
  function LoraRows(ls: seq<LoraAndWeight>, engineId: int, first: int): (r: seq<LinkRow>)
    requires forall k :: 0 <= k < |ls| ==> ls[k].aimodel.id.Some?
    ensures |r| == |ls|
  {
    seq(|ls|, k requires 0 <= k < |ls| => LinkRow(first + k, engineId, ls[k].aimodel.id.value, ls[k].weight, Lora))
  }

  function VaeRows(e: Engine, engineId: int, first: int): (r: seq<LinkRow>)
    requires ModelIdsSet(e)
    ensures |r| == if e.vae.Some? then 1 else 0
  {
    if e.vae.Some? then [LinkRow(first, engineId, e.vae.value.id.value, None, Vae)] else []
  }

  /** The link rows `create` writes for engine `engineId`, in write order:
      the checkpoint, the VAE when there is one, the embeddings, the LORAs
      and the control nets; their own ids follow from `first`. */
  function LinkRows(e: Engine, engineId: int, first: int): (r: seq<LinkRow>)
    requires ModelIdsSet(e)
  {
    var v := first + 1;
    var em := v + |VaeRows(e, engineId, v)|;
    var lo := em + |e.embeddings|;
    var cn := lo + |e.loras|;
    [LinkRow(first, engineId, e.checkpoint.id.value, None, Checkpoint)] + VaeRows(e, engineId, v)
    + RowsOf(e.embeddings, Embedding, engineId, em) + LoraRows(e.loras, engineId, lo)
    + RowsOf(e.controlNets, ControlNet, engineId, cn)
  }

  /** One link row for the checkpoint, one for the VAE when there is one,
      and one per embedding, LORA and control net. */
  lemma LinkRowsLength(e: Engine, engineId: int, first: int)
    requires ModelIdsSet(e)
    ensures |LinkRows(e, engineId, first)| == 1 + (if e.vae.Some? then 1 else 0) + |e.embeddings| + |e.loras| + |e.controlNets|
  {
  }

  /** Every row of `rows` belongs to engine `engineId`. */
  predicate AllOfEngine(rows: seq<LinkRow>, engineId: int)
  {
    forall k :: 0 <= k < |rows| ==> rows[k].engineId == engineId
  }

  lemma AllOfEngineAppend(a: seq<LinkRow>, b: seq<LinkRow>, engineId: int)
    requires AllOfEngine(a, engineId) && AllOfEngine(b, engineId)
    ensures AllOfEngine(a + b, engineId)
  {
    forall k | 0 <= k < |a + b| ensures (a + b)[k].engineId == engineId {
      if k >= |a| {
        assert (a + b)[k] == b[k - |a|];
      }
    }
  }

  /** Every link row creation writes names the new engine. */
  lemma LinkRowsOwned(e: Engine, engineId: int, first: int)
    requires ModelIdsSet(e)
    ensures AllOfEngine(LinkRows(e, engineId, first), engineId)
  {
    var v := first + 1;
    var em := v + |VaeRows(e, engineId, v)|;
    var lo := em + |e.embeddings|;
    var cn := lo + |e.loras|;
    var ck := [LinkRow(first, engineId, e.checkpoint.id.value, None, Checkpoint)];
    var va := VaeRows(e, engineId, v);
    var es := RowsOf(e.embeddings, Embedding, engineId, em);
    var ls := LoraRows(e.loras, engineId, lo);
    var cs := RowsOf(e.controlNets, ControlNet, engineId, cn);
    assert AllOfEngine(ck, engineId);
    assert AllOfEngine(va, engineId);
    assert AllOfEngine(es, engineId);
    assert AllOfEngine(ls, engineId);
    assert AllOfEngine(cs, engineId);
    AllOfEngineAppend(ck, va, engineId);
    AllOfEngineAppend(ck + va, es, engineId);
    AllOfEngineAppend(ck + va + es, ls, engineId);
    AllOfEngineAppend(ck + va + es + ls, cs, engineId);
  }

  /** The `engine` row `create` stores: every setting of the input. */
  function EngineRowOf(e: Engine, id: int): (r: EngineRow)
    ensures r.id == id && r.name == e.name && r.settings == e.settings
  {
    EngineRow(id, e.name, e.settings)
  }

  /** The `engine` row the code as written stores: it passes the flag under
      the keyword `scaling_factor_enable`, which is not a column of the
      table, so `scaling_factor_enabled` keeps its default of null. */
  function EngineRowAsWritten(e: Engine, id: int): (r: EngineRow)
    ensures r.id == id && r.name == e.name && r.settings.scalingFactorEnabled.None?
    ensures r.settings == e.settings.(scalingFactorEnabled := None)
  {
    EngineRow(id, e.name, e.settings.(scalingFactorEnabled := None))
  }

  /** `AIModelForEngine.create(...)`: one link row under the next id. */
  method AddLink(db: Database, engineId: int, aimodelId: int, weight: Option<real>, kind: AIModelType)
    requires db.Valid()
    modifies db
    ensures db.Valid()
    ensures db.links == old(db.links) + [LinkRow(old(db.nextId), engineId, aimodelId, weight, kind)]
    ensures db.nextId == old(db.nextId) + 1
    ensures db.aimodels == old(db.aimodels) && db.engines == old(db.engines)
    ensures db.generators == old(db.generators) && db.jobs == old(db.jobs)
    ensures db.images == old(db.images) && db.controlImages == old(db.controlImages)
  {
    db.links := db.links + [LinkRow(db.nextId, engineId, aimodelId, weight, kind)];
    db.nextId := db.nextId + 1;
  }

  /** One link row per model of `ms`, all in role `kind`, in order. */
  method AddModelLinks(db: Database, engineId: int, ms: seq<AIModel>, kind: AIModelType)
    requires db.Valid() && forall k :: 0 <= k < |ms| ==> ms[k].id.Some?
    modifies db
    ensures db.Valid()
    ensures db.links == old(db.links) + RowsOf(ms, kind, engineId, old(db.nextId))
    ensures db.nextId == old(db.nextId) + |ms|
    ensures db.aimodels == old(db.aimodels) && db.engines == old(db.engines)
    ensures db.generators == old(db.generators) && db.jobs == old(db.jobs)
    ensures db.images == old(db.images) && db.controlImages == old(db.controlImages)
  {
    var first := db.nextId;
    for i := 0 to |ms|
      invariant db.Valid() && db.nextId == first + i
      invariant db.links == old(db.links) + RowsOf(ms[..i], kind, engineId, first)
      invariant db.aimodels == old(db.aimodels) && db.engines == old(db.engines)
      invariant db.generators == old(db.generators) && db.jobs == old(db.jobs)
      invariant db.images == old(db.images) && db.controlImages == old(db.controlImages)
    {
      AddLink(db, engineId, ms[i].id.value, None, kind);
      assert RowsOf(ms[..i + 1], kind, engineId, first)
        == RowsOf(ms[..i], kind, engineId, first) + [LinkRow(first + i, engineId, ms[i].id.value, None, kind)];
    }
    assert ms[..|ms|] == ms;
  }

  /** One LORA link row per entry of `ls`, with its weight, in order. */
  method AddLoraLinks(db: Database, engineId: int, ls: seq<LoraAndWeight>)
    requires db.Valid() && forall k :: 0 <= k < |ls| ==> ls[k].aimodel.id.Some?
    modifies db
    ensures db.Valid()
    ensures db.links == old(db.links) + LoraRows(ls, engineId, old(db.nextId))
    ensures db.nextId == old(db.nextId) + |ls|
    ensures db.aimodels == old(db.aimodels) && db.engines == old(db.engines)
    ensures db.generators == old(db.generators) && db.jobs == old(db.jobs)
    ensures db.images == old(db.images) && db.controlImages == old(db.controlImages)
  {
    var first := db.nextId;
    for i := 0 to |ls|
      invariant db.Valid() && db.nextId == first + i
      invariant db.links == old(db.links) + LoraRows(ls[..i], engineId, first)
      invariant db.aimodels == old(db.aimodels) && db.engines == old(db.engines)
      invariant db.generators == old(db.generators) && db.jobs == old(db.jobs)
      invariant db.images == old(db.images) && db.controlImages == old(db.controlImages)
    {
      AddLink(db, engineId, ls[i].aimodel.id.value, ls[i].weight, Lora);
      assert LoraRows(ls[..i + 1], engineId, first)
        == LoraRows(ls[..i], engineId, first) + [LinkRow(first + i, engineId, ls[i].aimodel.id.value, ls[i].weight, Lora)];
    }
    assert ls[..|ls|] == ls;
  }

  /** `Engine.create(...)`: the engine row under the next id. */
  method AddEngine(db: Database, e: Engine) returns (id: int)
    requires db.Valid()
    modifies db
    ensures db.Valid()
    ensures id == old(db.nextId) && db.nextId == id + 1
    ensures db.engines == old(db.engines) + [EngineRowOf(e, id)]
    ensures db.aimodels == old(db.aimodels) && db.links == old(db.links)
    ensures db.generators == old(db.generators) && db.jobs == old(db.jobs)
    ensures db.images == old(db.images) && db.controlImages == old(db.controlImages)
  {
    id := db.nextId;
    db.engines := db.engines + [EngineRowOf(e, id)];
    db.nextId := db.nextId + 1;
  }

  /** The link rows of the embeddings, LORAs and control nets of `e`, in
      that order, numbered from the counter. */
  method AddListLinks(db: Database, id: int, e: Engine)
    requires db.Valid() && ModelIdsSet(e)
    modifies db
    ensures db.Valid()
    ensures db.links == old(db.links) + (RowsOf(e.embeddings, Embedding, id, old(db.nextId))
      + LoraRows(e.loras, id, old(db.nextId) + |e.embeddings|)
      + RowsOf(e.controlNets, ControlNet, id, old(db.nextId) + |e.embeddings| + |e.loras|))
    ensures db.nextId == old(db.nextId) + |e.embeddings| + |e.loras| + |e.controlNets|
    ensures db.aimodels == old(db.aimodels) && db.engines == old(db.engines)
    ensures db.generators == old(db.generators) && db.jobs == old(db.jobs)
    ensures db.images == old(db.images) && db.controlImages == old(db.controlImages)
  {
    ghost var links0 := db.links;
    ghost var written := RowsOf(e.embeddings, Embedding, id, db.nextId);
    AddModelLinks(db, id, e.embeddings, Embedding);
    ghost var piece := LoraRows(e.loras, id, db.nextId);
    AddLoraLinks(db, id, e.loras);
    AppendAssoc(links0, written, piece);
    written := written + piece;
    piece := RowsOf(e.controlNets, ControlNet, id, db.nextId);
    AddModelLinks(db, id, e.controlNets, ControlNet);
    AppendAssoc(links0, written, piece);
  }

  /** `create`: stores the engine row under a fresh id, then its link
      rows, and returns the input with that id. */
  method Create(db: Database, e: Engine) returns (r: Engine)
    requires db.Valid() && ModelIdsSet(e)
    modifies db
    ensures db.Valid()
    ensures r == e.(id := Some(old(db.nextId)))
    ensures db.engines == old(db.engines) + [EngineRowOf(e, old(db.nextId))]
    ensures db.links == old(db.links) + LinkRows(e, old(db.nextId), old(db.nextId) + 1)
    ensures db.nextId == old(db.nextId) + 1 + |LinkRows(e, old(db.nextId), old(db.nextId) + 1)|
    ensures db.aimodels == old(db.aimodels) && db.generators == old(db.generators)
    ensures db.jobs == old(db.jobs) && db.images == old(db.images) && db.controlImages == old(db.controlImages)
  {
    var id := AddEngine(db, e);
    r := e.(id := Some(id));
    ghost var links0 := db.links;
    AddLink(db, id, e.checkpoint.id.value, None, Checkpoint);
    if e.vae.Some? {
      AddLink(db, id, e.vae.value.id.value, None, Vae);
    }
    ghost var written := [LinkRow(id + 1, id, e.checkpoint.id.value, None, Checkpoint)] + VaeRows(e, id, id + 2);
    assert db.links == links0 + written;
    ghost var rest := RowsOf(e.embeddings, Embedding, id, db.nextId)
      + LoraRows(e.loras, id, db.nextId + |e.embeddings|)
      + RowsOf(e.controlNets, ControlNet, id, db.nextId + |e.embeddings| + |e.loras|);
    AddListLinks(db, id, e);
    AppendAssoc(links0, written, rest);
    assert written + rest == LinkRows(e, id, id + 1);
  }

  /** What `serialize_engine` has gathered so far. */
  datatype Grouped = Grouped(
    checkpoint: Option<AIModel>,
    vae: Option<AIModel>,
    loras: seq<LoraAndWeight>,
    embeddings: seq<AIModel>,
    controlNets: seq<AIModel>)

  const NothingGrouped := Grouped(None, None, [], [], [])

  /** One link row: the model it names is looked up under the row's role;
      a row whose model is missing or has another type is skipped. A
      checkpoint or VAE replaces the one found before; the others append. */
  function GroupStep(aimodels: seq<AIModel>, g: Grouped, row: LinkRow): Grouped
  {
    match FindModel(aimodels, row.aimodelId, row.modelType)
    case None => g
    case Some(m) =>
      match row.modelType
      case Checkpoint => g.(checkpoint := Some(m))
      case Embedding => g.(embeddings := g.embeddings + [m])
      case Vae => g.(vae := Some(m))
      case Lora => g.(loras := g.loras + [LoraAndWeight(m, row.weight)])
      case ControlNet => g.(controlNets := g.controlNets + [m])
  }

  /** The grouping of `rows`, in order. */
  function Group(aimodels: seq<AIModel>, rows: seq<LinkRow>): Grouped
    decreases |rows|
  {
    if rows == [] then NothingGrouped
    else GroupStep(aimodels, Group(aimodels, rows[..|rows| - 1]), rows[|rows| - 1])
  }

  /** `AIModelForEngine.filter(engine_id=id)`. */
  function LinksOf(links: seq<LinkRow>, engineId: int): (r: seq<LinkRow>)
  {
    Filter(links, (l: LinkRow) => l.engineId == engineId)
  }

  /** `serialize_engine(row)`: its link rows grouped by role, failing when
      no checkpoint resolves. */
  function Serialize(aimodels: seq<AIModel>, links: seq<LinkRow>, row: EngineRow): (r: Result<Engine>)
    ensures r.Err? ==> r.error == CheckpointNotFound
    ensures r.Ok? ==> r.value.id == Some(row.id) && r.value.name == row.name && r.value.settings == row.settings
  {
    var g := Group(aimodels, LinksOf(links, row.id));
    if g.checkpoint.None? then Err(CheckpointNotFound)
    else Ok(Engine(Some(row.id), row.name, g.checkpoint.value, g.vae, g.loras, g.embeddings, g.controlNets, row.settings))
  }

  /** The loop of `serialize_engine`. */
  method SerializeEngine(db: Database, row: EngineRow) returns (r: Result<Engine>)
    ensures r == Serialize(db.aimodels, db.links, row)
  {
    var aoes := LinksOf(db.links, row.id);
    var checkpointModel: Option<AIModel> := None;
    var vaeModel: Option<AIModel> := None;
    var loraModels: seq<LoraAndWeight> := [];
    var embeddingModels: seq<AIModel> := [];
    var controlnetModels: seq<AIModel> := [];
    for i := 0 to |aoes|
      invariant Grouped(checkpointModel, vaeModel, loraModels, embeddingModels, controlnetModels)
        == Group(db.aimodels, aoes[..i])
    {
      var v := aoes[i];
      assert aoes[..i + 1][..i] == aoes[..i];
      var found := FindModel(db.aimodels, v.aimodelId, v.modelType);
      match v.modelType {
        case Checkpoint =>
          if found.Some? {
            checkpointModel := found;
          }
        case Embedding =>
          if found.Some? {
            embeddingModels := embeddingModels + [found.value];
          }
        case Vae =>
          if found.Some? {
            vaeModel := found;
          }
        case Lora =>
          if found.Some? {
            loraModels := loraModels + [LoraAndWeight(found.value, v.weight)];
          }
        case ControlNet =>
          if found.Some? {
            controlnetModels := controlnetModels + [found.value];
          }
      }
    }
    assert aoes[..|aoes|] == aoes;
    if checkpointModel.None? {
      return Err(CheckpointNotFound);
    }
    return Ok(Engine(Some(row.id), row.name, checkpointModel.value, vaeModel, loraModels,
                     embeddingModels, controlnetModels, row.settings));
  }

  /** `get_one`. */
  method GetOne(db: Database, id: int) returns (r: Result<Engine>)
    ensures FindEngine(db.engines, id).None? ==> r == Err(EngineNotFound)
    ensures FindEngine(db.engines, id).Some? ==> r == Serialize(db.aimodels, db.links, FindEngine(db.engines, id).value)
  {
    var e := FindEngine(db.engines, id);
    if e.None? {
      return Err(EngineNotFound);
    }
    r := SerializeEngine(db, e.value);
  }

  /** What one link row contributes to role `kind`: its model with the
      row's weight, when the row has that role and the model is found. */
  function Hit(aimodels: seq<AIModel>, row: LinkRow, kind: AIModelType): seq<LoraAndWeight>
  {
    if row.modelType != kind then []
    else match FindModel(aimodels, row.aimodelId, kind)
      case None => []
      case Some(m) => [LoraAndWeight(m, row.weight)]
  }

  /** The models the rows of role `kind` resolve to, in row order. */
  function Resolved(aimodels: seq<AIModel>, rows: seq<LinkRow>, kind: AIModelType): (r: seq<LoraAndWeight>)
    ensures |r| <= |rows|
  {
    if rows == [] then [] else Hit(aimodels, rows[0], kind) + Resolved(aimodels, rows[1..], kind)
  }

  function Models(s: seq<LoraAndWeight>): (r: seq<AIModel>)
    ensures |r| == |s| && forall k :: 0 <= k < |s| ==> r[k] == s[k].aimodel
  {
    seq(|s|, k requires 0 <= k < |s| => s[k].aimodel)
  }

  /** The last model of `s`, if any. */
  function LastModel(s: seq<LoraAndWeight>): (r: Option<AIModel>)
    ensures r.None? <==> s == []
    ensures r.Some? ==> r.value == s[|s| - 1].aimodel
  {
    if s == [] then None else Some(s[|s| - 1].aimodel)
  }

  lemma {:induction false} ResolvedAppend(aimodels: seq<AIModel>, xs: seq<LinkRow>, ys: seq<LinkRow>, kind: AIModelType)
    ensures Resolved(aimodels, xs + ys, kind) == Resolved(aimodels, xs, kind) + Resolved(aimodels, ys, kind)
  {
    if xs == [] {
      assert xs + ys == ys;
    } else {
      assert (xs + ys)[1..] == xs[1..] + ys;
      ResolvedAppend(aimodels, xs[1..], ys, kind);
    }
  }

  lemma ResolvedSnoc(aimodels: seq<AIModel>, rows: seq<LinkRow>, row: LinkRow, kind: AIModelType)
    ensures Resolved(aimodels, rows + [row], kind) == Resolved(aimodels, rows, kind) + Hit(aimodels, row, kind)
  {
    ResolvedAppend(aimodels, rows, [row], kind);
    assert Resolved(aimodels, [row], kind) == Hit(aimodels, row, kind) + Resolved(aimodels, [], kind);
  }

  /** The last model of `xs + ys` is the last of `ys`, or of `xs` when `ys` is empty. */
  lemma LastModelAppend(xs: seq<LoraAndWeight>, ys: seq<LoraAndWeight>)
    ensures LastModel(xs + ys) == if ys == [] then LastModel(xs) else LastModel(ys)
  {
    if ys == [] {
      assert xs + ys == xs;
    }
  }

  lemma ModelsAppend(xs: seq<LoraAndWeight>, ys: seq<LoraAndWeight>)
    ensures Models(xs + ys) == Models(xs) + Models(ys)
  {
    assert forall k :: 0 <= k < |xs| ==> (xs + ys)[k] == xs[k];
  }

  /** One grouping step, role by role: the row's hit is appended to the
      lists and replaces the checkpoint or the VAE. */
  lemma StepByRole(aimodels: seq<AIModel>, g: Grouped, row: LinkRow)
    ensures GroupStep(aimodels, g, row) == Grouped(
      if Hit(aimodels, row, Checkpoint) == [] then g.checkpoint else LastModel(Hit(aimodels, row, Checkpoint)),
      if Hit(aimodels, row, Vae) == [] then g.vae else LastModel(Hit(aimodels, row, Vae)),
      g.loras + Hit(aimodels, row, Lora), g.embeddings + Models(Hit(aimodels, row, Embedding)),
      g.controlNets + Models(Hit(aimodels, row, ControlNet)))
  {
    assert forall kind :: kind != row.modelType ==> Hit(aimodels, row, kind) == [];
  }

  /** The grouping by role, role by role: each list holds the found models
      of its role in link order, and the checkpoint and the VAE are the
      last ones found. */
  function ByRole(aimodels: seq<AIModel>, rows: seq<LinkRow>): Grouped
  {
    Grouped(
      LastModel(Resolved(aimodels, rows, Checkpoint)), LastModel(Resolved(aimodels, rows, Vae)),
      Resolved(aimodels, rows, Lora), Models(Resolved(aimodels, rows, Embedding)),
      Models(Resolved(aimodels, rows, ControlNet)))
  }

  /** One more row replaces the last model of role `kind` when it resolves. */
  lemma LastSnoc(aimodels: seq<AIModel>, rows: seq<LinkRow>, row: LinkRow, kind: AIModelType)
    ensures LastModel(Resolved(aimodels, rows + [row], kind))
      == if Hit(aimodels, row, kind) == [] then LastModel(Resolved(aimodels, rows, kind))
         else LastModel(Hit(aimodels, row, kind))
  {
    ResolvedSnoc(aimodels, rows, row, kind);
    LastModelAppend(Resolved(aimodels, rows, kind), Hit(aimodels, row, kind));
  }

  /** One more row appends its model to the models of role `kind`. */
  lemma ModelsSnoc(aimodels: seq<AIModel>, rows: seq<LinkRow>, row: LinkRow, kind: AIModelType)
    ensures Models(Resolved(aimodels, rows + [row], kind))
      == Models(Resolved(aimodels, rows, kind)) + Models(Hit(aimodels, row, kind))
  {
    ResolvedSnoc(aimodels, rows, row, kind);
    ModelsAppend(Resolved(aimodels, rows, kind), Hit(aimodels, row, kind));
  }

  /** The grouping by role of one more row is one grouping step on it. */
  lemma ByRoleSnoc(aimodels: seq<AIModel>, rows: seq<LinkRow>, row: LinkRow)
    ensures GroupStep(aimodels, ByRole(aimodels, rows), row) == ByRole(aimodels, rows + [row])
  {
    StepByRole(aimodels, ByRole(aimodels, rows), row);
    LastSnoc(aimodels, rows, row, Checkpoint);
    LastSnoc(aimodels, rows, row, Vae);
    ResolvedSnoc(aimodels, rows, row, Lora);
    ModelsSnoc(aimodels, rows, row, Embedding);
    ModelsSnoc(aimodels, rows, row, ControlNet);
  }

  /** Grouping by role: each list holds the found models of its role in
      link order, and the checkpoint and the VAE are the last ones found. */
  lemma {:induction false} GroupByRole(aimodels: seq<AIModel>, rows: seq<LinkRow>)
    ensures Group(aimodels, rows) == Grouped(
      LastModel(Resolved(aimodels, rows, Checkpoint)), LastModel(Resolved(aimodels, rows, Vae)),
      Resolved(aimodels, rows, Lora), Models(Resolved(aimodels, rows, Embedding)),
      Models(Resolved(aimodels, rows, ControlNet)))
  {
    GroupIsByRole(aimodels, rows);
  }

  lemma {:induction false} GroupIsByRole(aimodels: seq<AIModel>, rows: seq<LinkRow>)
    ensures Group(aimodels, rows) == ByRole(aimodels, rows)
    decreases |rows|
  {
    if rows != [] {
      var init, last := rows[..|rows| - 1], rows[|rows| - 1];
      GroupIsByRole(aimodels, init);
      assert Group(aimodels, rows) == GroupStep(aimodels, Group(aimodels, init), last);
      assert init + [last] == rows;
      ByRoleSnoc(aimodels, init, last);
    }
  }

  /** Rows of other roles contribute nothing to role `kind`. */
  lemma {:induction false} OtherRoles(aimodels: seq<AIModel>, rows: seq<LinkRow>, kind: AIModelType)
    requires forall k :: 0 <= k < |rows| ==> rows[k].modelType != kind
    ensures Resolved(aimodels, rows, kind) == []
  {
    if rows != [] {
      OtherRoles(aimodels, rows[1..], kind);
    }
  }

  /** Rows that each resolve to one entry resolve to those entries, in order. */
  lemma {:induction false} EachHits(aimodels: seq<AIModel>, rows: seq<LinkRow>, kind: AIModelType, ws: seq<LoraAndWeight>)
    requires |ws| == |rows| && forall k :: 0 <= k < |rows| ==> Hit(aimodels, rows[k], kind) == [ws[k]]
    ensures Resolved(aimodels, rows, kind) == ws
  {
    if rows != [] {
      EachHits(aimodels, rows[1..], kind, ws[1..]);
      assert [ws[0]] + ws[1..] == ws;
    }
  }

  /** A stored model of type `kind` is what looking up its id under `kind` finds. */
  lemma {:induction false} FindStored(aimodels: seq<AIModel>, m: AIModel, kind: AIModelType)
    requires UniqueModelIds(aimodels) && m in aimodels && m.modelType == kind && m.id.Some?
    ensures FindModel(aimodels, m.id.value, kind) == Some(m)
  {
    if aimodels[0] != m {
      assert m in aimodels[1..];
      assert UniqueModelIds(aimodels[1..]) by {
        forall i, j | 0 <= i < j < |aimodels[1..]| ensures aimodels[1..][i].id != aimodels[1..][j].id {
          assert aimodels[1..][i] == aimodels[i + 1] && aimodels[1..][j] == aimodels[j + 1];
        }
      }
      FindStored(aimodels[1..], m, kind);
      var k :| 0 <= k < |aimodels[1..]| && aimodels[1..][k] == m;
      assert aimodels[0].id != aimodels[k + 1].id;
    }
  }

  /** The models `ms` are stored, each with type `kind`. */
  predicate StoredAs(aimodels: seq<AIModel>, ms: seq<AIModel>, kind: AIModelType)
  {
    forall k :: 0 <= k < |ms| ==> ms[k] in aimodels && ms[k].modelType == kind && ms[k].id.Some?
  }

  lemma RowsOfResolve(aimodels: seq<AIModel>, ms: seq<AIModel>, kind: AIModelType, engineId: int, first: int)
    requires UniqueModelIds(aimodels) && StoredAs(aimodels, ms, kind)
    ensures Models(Resolved(aimodels, RowsOf(ms, kind, engineId, first), kind)) == ms
  {
    var rows := RowsOf(ms, kind, engineId, first);
    var ws := seq(|ms|, k requires 0 <= k < |ms| => LoraAndWeight(ms[k], None));
    forall k | 0 <= k < |rows| ensures Hit(aimodels, rows[k], kind) == [ws[k]] {
      FindStored(aimodels, ms[k], kind);
    }
    EachHits(aimodels, rows, kind, ws);
  }

  lemma LoraRowsResolve(aimodels: seq<AIModel>, ls: seq<LoraAndWeight>, engineId: int, first: int)
    requires UniqueModelIds(aimodels) && StoredAs(aimodels, Models(ls), Lora)
    ensures Resolved(aimodels, LoraRows(ls, engineId, first), Lora) == ls
  {
    var rows := LoraRows(ls, engineId, first);
    forall k | 0 <= k < |rows| ensures Hit(aimodels, rows[k], Lora) == [ls[k]] {
      FindStored(aimodels, Models(ls)[k], Lora);
    }
    EachHits(aimodels, rows, Lora, ls);
  }

  /** The models `create` is given are stored, each with the type of its role. */
  predicate StoredEngine(aimodels: seq<AIModel>, e: Engine)
  {
    ModelIdsSet(e)
    && e.checkpoint in aimodels && e.checkpoint.modelType == Checkpoint
    && (e.vae.Some? ==> e.vae.value in aimodels && e.vae.value.modelType == Vae)
    && StoredAs(aimodels, e.embeddings, Embedding) && StoredAs(aimodels, Models(e.loras), Lora)
    && StoredAs(aimodels, e.controlNets, ControlNet)
  }

  /** The link rows of role `kind` among those `create` writes. */
  function RolePart(e: Engine, engineId: int, first: int, kind: AIModelType): (r: seq<LinkRow>)
    requires ModelIdsSet(e)
    ensures forall k :: 0 <= k < |r| ==> r[k].modelType == kind
  {
    var v := first + 1;
    var em := v + |VaeRows(e, engineId, v)|;
    var lo := em + |e.embeddings|;
    var cn := lo + |e.loras|;
    match kind
    case Checkpoint => [LinkRow(first, engineId, e.checkpoint.id.value, None, Checkpoint)]
    case Vae => VaeRows(e, engineId, v)
    case Embedding => RowsOf(e.embeddings, Embedding, engineId, em)
    case Lora => LoraRows(e.loras, engineId, lo)
    case ControlNet => RowsOf(e.controlNets, ControlNet, engineId, cn)
  }

  /** The link rows `create` writes are its role parts, in role order. */
  lemma LinkRowsParts(e: Engine, engineId: int, first: int)
    requires ModelIdsSet(e)
    ensures LinkRows(e, engineId, first)
      == RolePart(e, engineId, first, Checkpoint) + RolePart(e, engineId, first, Vae)
       + RolePart(e, engineId, first, Embedding) + RolePart(e, engineId, first, Lora)
       + RolePart(e, engineId, first, ControlNet)
  {
  }

  lemma ResolvedFive(aimodels: seq<AIModel>, p1: seq<LinkRow>, p2: seq<LinkRow>, p3: seq<LinkRow>,
                     p4: seq<LinkRow>, p5: seq<LinkRow>, kind: AIModelType)
    ensures Resolved(aimodels, p1 + p2 + p3 + p4 + p5, kind)
      == Resolved(aimodels, p1, kind) + Resolved(aimodels, p2, kind) + Resolved(aimodels, p3, kind)
       + Resolved(aimodels, p4, kind) + Resolved(aimodels, p5, kind)
  {
    ResolvedAppend(aimodels, p1 + p2 + p3 + p4, p5, kind);
    ResolvedAppend(aimodels, p1 + p2 + p3, p4, kind);
    ResolvedAppend(aimodels, p1 + p2, p3, kind);
    ResolvedAppend(aimodels, p1, p2, kind);
  }

  /** Only the part of its own role resolves under a role. */
  lemma OwnPartOnly(aimodels: seq<AIModel>, e: Engine, engineId: int, first: int, kind: AIModelType)
    requires ModelIdsSet(e)
    ensures Resolved(aimodels, LinkRows(e, engineId, first), kind) == Resolved(aimodels, RolePart(e, engineId, first, kind), kind)
  {
    LinkRowsParts(e, engineId, first);
    ResolvedFive(aimodels, RolePart(e, engineId, first, Checkpoint), RolePart(e, engineId, first, Vae),
      RolePart(e, engineId, first, Embedding), RolePart(e, engineId, first, Lora),
      RolePart(e, engineId, first, ControlNet), kind);
    OtherPartsEmpty(aimodels, e, engineId, first, kind);
  }

  lemma OtherPartsEmpty(aimodels: seq<AIModel>, e: Engine, engineId: int, first: int, kind: AIModelType)
    requires ModelIdsSet(e)
    ensures forall other :: other != kind ==> Resolved(aimodels, RolePart(e, engineId, first, other), kind) == []
  {
    forall other: AIModelType | other != kind
      ensures Resolved(aimodels, RolePart(e, engineId, first, other), kind) == []
    {
      OtherRoles(aimodels, RolePart(e, engineId, first, other), kind);
    }
  }

  lemma CheckpointOfLinkRows(aimodels: seq<AIModel>, e: Engine, engineId: int, first: int)
    requires UniqueModelIds(aimodels) && StoredEngine(aimodels, e)
    ensures LastModel(Resolved(aimodels, LinkRows(e, engineId, first), Checkpoint)) == Some(e.checkpoint)
  {
    OwnPartOnly(aimodels, e, engineId, first, Checkpoint);
    FindStored(aimodels, e.checkpoint, Checkpoint);
    assert Resolved(aimodels, RolePart(e, engineId, first, Checkpoint), Checkpoint) == [LoraAndWeight(e.checkpoint, None)];
  }

  lemma VaeOfLinkRows(aimodels: seq<AIModel>, e: Engine, engineId: int, first: int)
    requires UniqueModelIds(aimodels) && StoredEngine(aimodels, e)
    ensures LastModel(Resolved(aimodels, LinkRows(e, engineId, first), Vae)) == e.vae
  {
    OwnPartOnly(aimodels, e, engineId, first, Vae);
    if e.vae.Some? {
      FindStored(aimodels, e.vae.value, Vae);
      assert Resolved(aimodels, RolePart(e, engineId, first, Vae), Vae) == [LoraAndWeight(e.vae.value, None)];
    }
  }

  lemma LorasOfLinkRows(aimodels: seq<AIModel>, e: Engine, engineId: int, first: int)
    requires UniqueModelIds(aimodels) && StoredEngine(aimodels, e)
    ensures Resolved(aimodels, LinkRows(e, engineId, first), Lora) == e.loras
  {
    OwnPartOnly(aimodels, e, engineId, first, Lora);
    var lo := first + 1 + |VaeRows(e, engineId, first + 1)| + |e.embeddings|;
    assert RolePart(e, engineId, first, Lora) == LoraRows(e.loras, engineId, lo);
    LoraRowsResolve(aimodels, e.loras, engineId, lo);
  }

  lemma EmbeddingsOfLinkRows(aimodels: seq<AIModel>, e: Engine, engineId: int, first: int)
    requires UniqueModelIds(aimodels) && StoredEngine(aimodels, e)
    ensures Models(Resolved(aimodels, LinkRows(e, engineId, first), Embedding)) == e.embeddings
  {
    OwnPartOnly(aimodels, e, engineId, first, Embedding);
    var em := first + 1 + |VaeRows(e, engineId, first + 1)|;
    assert RolePart(e, engineId, first, Embedding) == RowsOf(e.embeddings, Embedding, engineId, em);
    RowsOfResolve(aimodels, e.embeddings, Embedding, engineId, em);
  }

  lemma ControlNetsOfLinkRows(aimodels: seq<AIModel>, e: Engine, engineId: int, first: int)
    requires UniqueModelIds(aimodels) && StoredEngine(aimodels, e)
    ensures Models(Resolved(aimodels, LinkRows(e, engineId, first), ControlNet)) == e.controlNets
  {
    OwnPartOnly(aimodels, e, engineId, first, ControlNet);
    var cn := first + 1 + |VaeRows(e, engineId, first + 1)| + |e.embeddings| + |e.loras|;
    assert RolePart(e, engineId, first, ControlNet) == RowsOf(e.controlNets, ControlNet, engineId, cn);
    RowsOfResolve(aimodels, e.controlNets, ControlNet, engineId, cn);
  }

  /** Grouping the link rows `create` writes gives back the engine's models. */
  lemma GroupLinkRows(aimodels: seq<AIModel>, e: Engine, engineId: int, first: int)
    requires UniqueModelIds(aimodels) && StoredEngine(aimodels, e)
    ensures Group(aimodels, LinkRows(e, engineId, first))
      == Grouped(Some(e.checkpoint), e.vae, e.loras, e.embeddings, e.controlNets)
  {
    GroupByRole(aimodels, LinkRows(e, engineId, first));
    CheckpointOfLinkRows(aimodels, e, engineId, first);
    VaeOfLinkRows(aimodels, e, engineId, first);
    LorasOfLinkRows(aimodels, e, engineId, first);
    EmbeddingsOfLinkRows(aimodels, e, engineId, first);
    ControlNetsOfLinkRows(aimodels, e, engineId, first);
  }

  /** Round trip: reading back an engine `create` stored under `id` gives
      the engine it was given, with that id. */
  lemma CreateThenSerialize(aimodels: seq<AIModel>, links: seq<LinkRow>, e: Engine, id: int)
    requires UniqueModelIds(aimodels) && StoredEngine(aimodels, e)
    requires forall k :: 0 <= k < |links| ==> links[k].engineId != id
    ensures Serialize(aimodels, links + LinkRows(e, id, id + 1), EngineRowOf(e, id)) == Ok(e.(id := Some(id)))
  {
    var rows := LinkRows(e, id, id + 1);
    assert LinksOf(links + rows, id) == rows by {
      var p := (l: LinkRow) => l.engineId == id;
      FilterAppend(links, rows, p);
      FilterNone(links, p);
      LinkRowsOwned(e, id, id + 1);
      FilterAll(rows, p);
    }
    GroupLinkRows(aimodels, e, id, id + 1);
    assert Group(aimodels, LinksOf(links + rows, id)) == Grouped(Some(e.checkpoint), e.vae, e.loras, e.embeddings, e.controlNets);
  }
  /** As written the round trip fails for an engine created with the
      scaling flag set: reading it back gives the flag as null. */
  lemma ScalingFlagLostAsWritten(aimodels: seq<AIModel>, links: seq<LinkRow>, e: Engine, id: int)
    requires e.settings.scalingFactorEnabled == Some(true)
    ensures Serialize(aimodels, links, EngineRowAsWritten(e, id)) != Ok(e.(id := Some(id)))
    ensures Serialize(aimodels, links, EngineRowAsWritten(e, id)).Ok? ==>
      Serialize(aimodels, links, EngineRowAsWritten(e, id)).value.settings.scalingFactorEnabled.None?
  {
  }

  /** `is_used_by_generator`: some generator row runs this engine. */
  predicate IsUsedByGenerator(generators: seq<GeneratorRow>, id: int)
  {
    exists g :: g in generators && g.engineId == id
  }

  /** `delete`: fails with a 404 for an unknown engine; otherwise removes
      the engine row and then every link row of that engine. */
  method Delete(db: Database, id: int) returns (err: Option<Error>)
    requires db.Valid()
    modifies db
    ensures db.Valid()
    ensures FindEngine(old(db.engines), id).None? ==>
      err == Some(EngineNotFound) && db.engines == old(db.engines) && db.links == old(db.links)
    ensures FindEngine(old(db.engines), id).Some? ==>
      err.None? && db.engines == Filter(old(db.engines), (r: EngineRow) => r.id != id)
      && db.links == Filter(old(db.links), (l: LinkRow) => l.engineId != id)
    ensures db.aimodels == old(db.aimodels) && db.generators == old(db.generators) && db.nextId == old(db.nextId)
    ensures db.jobs == old(db.jobs) && db.images == old(db.images) && db.controlImages == old(db.controlImages)
  {
    var obj := FindEngine(db.engines, id);
    if obj.None? {
      return Some(EngineNotFound);
    }
    FilterKeepsIds(db.engines, (r: EngineRow) => r.id, (r: EngineRow) => r.id != id, db.nextId);
    db.engines := Filter(db.engines, (r: EngineRow) => r.id != id);
    var objs := LinksOf(db.links, id);
    DeleteGroupIsFilter(db.links, (l: LinkRow) => l.id, (l: LinkRow) => l.engineId == id, (l: LinkRow) => l.engineId != id);
    var links := DeleteEach(db.links, (l: LinkRow) => l.id, objs);
    FilterKeepsIds(db.links, (l: LinkRow) => l.id, (l: LinkRow) => l.engineId != id, db.nextId);
    db.links := links;
    return None;
  }
}
