/** `EngineService`: validates an engine request against the stored models,
    collecting `{field, error}` pairs in a fixed order, then fetches the
    models and stores the engine; deletion is refused while a generator
    uses the engine. */
module EngineService {
  import opened Base
  import opened Enums
  import opened Schemas
  import opened Store
  import EngineRepo
  import AIModelRepo

  /** One requested LORA: a model id and an integer weight. */
  datatype LoraInput = LoraInput(loraModelId: int, weight: int)

  /** The request to create an engine; `settings` holds the scalar fields,
      which the service copies into the engine unchanged. */
  datatype EngineUserInput = EngineUserInput(
    name: string,
    checkpointModelId: int,
    loraModelIds: seq<LoraInput>,
    controlNetModelIds: seq<int>,
    embeddingModelIds: seq<int>,
    vaeModelId: Option<int>,
    settings: EngineSettings)

  const IncorrectInput := "incorrect-input"
  const EmptyName := FieldError(Name, "name can't be empty")
  const ScaleMissing := FieldError(ControlnetConditioningScale, "control net scale can't be empty when control_net_model_ids is not")
  const StartMissing := FieldError(ControlGuidanceStart, "control guidance start can't be empty when control_net_model_ids is not")
  const EndMissing := FieldError(ControlGuidanceEnd, "control guidance end can't be empty when control_net_model_ids is not")
  const GeneratorIsUsingEngine: Error := Raise("generator-is-using-engine", Some(400))

  /** `aimodel_repo.exists(id=id, model_type=kind)`. */
  predicate Exists(aimodels: seq<AIModel>, id: int, kind: AIModelType)
  {
    EngineRepo.FindModel(aimodels, id, kind).Some?
  }

  function LoraIds(ls: seq<LoraInput>): (r: seq<int>)
    ensures |r| == |ls| && forall k :: 0 <= k < |ls| ==> r[k] == ls[k].loraModelId
  {
    seq(|ls|, k requires 0 <= k < |ls| => ls[k].loraModelId)
  }

  /** The error reported for a missing model: "<noun> model with id <id> doesn't exist". */
  function Missing(field: Field, noun: string, id: int): (e: FieldError)
    ensures e.field == field
  {
    FieldError(field, noun + " model with id " + IntToString(id) + " doesn't exist")
  }

  /** The errors for the ids of `ids` that do not exist as `kind`, in order. */
  function MissingIds(aimodels: seq<AIModel>, ids: seq<int>, kind: AIModelType, field: Field, noun: string): (r: seq<FieldError>)
    ensures |r| <= |ids|
    ensures forall k :: 0 <= k < |r| ==> r[k].field == field
    decreases |ids|
  {
    if ids == [] then []
    else
      var rest := MissingIds(aimodels, ids[..|ids| - 1], kind, field, noun);
      var id := ids[|ids| - 1];
      if Exists(aimodels, id, kind) then rest else rest + [Missing(field, noun, id)]
  }

  /** The name must not be empty. */
  function NameErrors(input: EngineUserInput): seq<FieldError>
  {
    if input.name == "" then [EmptyName] else []
  }

  /** The checkpoint must be stored as a checkpoint. */
  function CheckpointIdErrors(aimodels: seq<AIModel>, input: EngineUserInput): seq<FieldError>
  {
    if Exists(aimodels, input.checkpointModelId, Checkpoint) then []
    else [Missing(CheckpointModelId, "checkpoint", input.checkpointModelId)]
  }

  /** A truthy VAE id must be stored as a VAE. */
  function VaeErrors(aimodels: seq<AIModel>, input: EngineUserInput): seq<FieldError>
  {
    if TruthyInt(input.vaeModelId) && !Exists(aimodels, input.vaeModelId.value, Vae)
    then [Missing(VaeModelId, "VAE", input.vaeModelId.value)]
    else []
  }

  function LoraErrors(aimodels: seq<AIModel>, input: EngineUserInput): seq<FieldError>
  {
    MissingIds(aimodels, LoraIds(input.loraModelIds), Lora, LoraModelIds, "LORA")
  }

  function ControlNetErrors(aimodels: seq<AIModel>, input: EngineUserInput): seq<FieldError>
  {
    MissingIds(aimodels, input.controlNetModelIds, ControlNet, ConrolNetModelIds, "control net")
  }

  function EmbeddingErrors(aimodels: seq<AIModel>, input: EngineUserInput): seq<FieldError>
  {
    MissingIds(aimodels, input.embeddingModelIds, Embedding, EmbeddingModelIds, "embedding")
  }

  /** The control-net parameters must be given when control nets are requested. */
  function ScaleErrors(input: EngineUserInput): seq<FieldError>
  {
    if input.controlNetModelIds != [] && input.settings.controlnetConditioningScale.None? then [ScaleMissing] else []
  }

  function StartErrors(input: EngineUserInput): seq<FieldError>
  {
    if input.controlNetModelIds != [] && input.settings.controlGuidanceStart.None? then [StartMissing] else []
  }

  function EndErrors(input: EngineUserInput): seq<FieldError>
  {
    if input.controlNetModelIds != [] && input.settings.controlGuidanceEnd.None? then [EndMissing] else []
  }

  /** The check `_validate` makes for field `f`; every error it reports is
      on `f`. */
  function Check(aimodels: seq<AIModel>, input: EngineUserInput, f: Field): (r: seq<FieldError>)
    ensures forall k :: 0 <= k < |r| ==> r[k].field == f
  {
    match f
    case Name => NameErrors(input)
    case CheckpointModelId => CheckpointIdErrors(aimodels, input)
    case VaeModelId => VaeErrors(aimodels, input)
    case LoraModelIds => LoraErrors(aimodels, input)
    case ConrolNetModelIds => ControlNetErrors(aimodels, input)
    case ControlnetConditioningScale => ScaleErrors(input)
    case ControlGuidanceStart => StartErrors(input)
    case ControlGuidanceEnd => EndErrors(input)
    case EmbeddingModelIds => EmbeddingErrors(aimodels, input)
    case EngineId | GeneratorId => []
  }

  /** The number of fields `_validate` checks. */
  const FieldsChecked := 9

  /** The field `_validate` checks in position `i`; its inverse is `FieldRank`. */
  function CheckedField(i: nat): (f: Field)
    requires i < FieldsChecked
    ensures FieldRank(f) == i
  {
    if i == 0 then Name
    else if i == 1 then CheckpointModelId
    else if i == 2 then VaeModelId
    else if i == 3 then LoraModelIds
    else if i == 4 then ConrolNetModelIds
    else if i == 5 then ControlnetConditioningScale
    else if i == 6 then ControlGuidanceStart
    else if i == 7 then ControlGuidanceEnd
    else EmbeddingModelIds
  }

  /** The check of each field, as one function of the field. */
  function CheckOf(aimodels: seq<AIModel>, input: EngineUserInput): (checks: Field -> seq<FieldError>)
    ensures forall f :: checks(f) == Check(aimodels, input, f)
  {
    (f: Field) => Check(aimodels, input, f)
  }

  /** Every error each check reports is on the field it checks. */
  predicate OnOwnFields(checks: Field -> seq<FieldError>)
  {
    forall f, k :: 0 <= k < |checks(f)| ==> checks(f)[k].field == f
  }

  /** The errors of the first `n` of `checks`, run in field order. */
  function Concat(checks: Field -> seq<FieldError>, n: nat): seq<FieldError>
    requires n <= FieldsChecked
  {
    if n == 0 then [] else Concat(checks, n - 1) + checks(CheckedField(n - 1))
  }

  /** The errors of the first `n` checks of `_validate`, run in order. */
  function Checks(aimodels: seq<AIModel>, input: EngineUserInput, n: nat): seq<FieldError>
    requires n <= FieldsChecked
  {
    if n == 0 then []
    else Checks(aimodels, input, n - 1) + Check(aimodels, input, CheckedField(n - 1))
  }

  /** The checks of `_validate` are those of `CheckOf`, and each reports
      only on its own field. */
  lemma {:induction false} ChecksAreConcat(aimodels: seq<AIModel>, input: EngineUserInput, n: nat)
    requires n <= FieldsChecked
    ensures Checks(aimodels, input, n) == Concat(CheckOf(aimodels, input), n)
  {
    if n > 0 {
      var last := CheckedField(n - 1);
      ChecksAreConcat(aimodels, input, n - 1);
      assert Checks(aimodels, input, n) == Checks(aimodels, input, n - 1) + Check(aimodels, input, last);
      assert Concat(CheckOf(aimodels, input), n) == Concat(CheckOf(aimodels, input), n - 1) + CheckOf(aimodels, input)(last);
    }
  }

  /** Each check of `_validate` reports only on its own field. */
  lemma ChecksOnOwnFields(aimodels: seq<AIModel>, input: EngineUserInput)
    ensures OnOwnFields(CheckOf(aimodels, input))
  {
    var checks := CheckOf(aimodels, input);
    forall f, k | 0 <= k < |checks(f)|
      ensures checks(f)[k].field == f
    {
      assert checks(f) == Check(aimodels, input, f);
    }
  }

  /** Everything `_validate` reports. */
  function ValidationErrors(aimodels: seq<AIModel>, input: EngineUserInput): seq<FieldError>
  {
    Checks(aimodels, input, FieldsChecked)
  }

  /** The errors on one field. */
  function OnField(errs: seq<FieldError>, field: Field): (r: seq<FieldError>)
    ensures |r| <= |errs|
  {
    Filter(errs, (e: FieldError) => e.field == field)
  }

  /** Every check `_validate` makes passes. */
  predicate Acceptable(aimodels: seq<AIModel>, input: EngineUserInput)
  {
    input.name != ""
    && Exists(aimodels, input.checkpointModelId, Checkpoint)
    && (TruthyInt(input.vaeModelId) ==> Exists(aimodels, input.vaeModelId.value, Vae))
    && (forall k :: 0 <= k < |input.loraModelIds| ==> Exists(aimodels, input.loraModelIds[k].loraModelId, Lora))
    && (forall k :: 0 <= k < |input.controlNetModelIds| ==> Exists(aimodels, input.controlNetModelIds[k], ControlNet))
    && (input.controlNetModelIds != [] ==>
          input.settings.controlnetConditioningScale.Some? && input.settings.controlGuidanceStart.Some?
          && input.settings.controlGuidanceEnd.Some?)
    && (forall k :: 0 <= k < |input.embeddingModelIds| ==> Exists(aimodels, input.embeddingModelIds[k], Embedding))
  }

  /** The ids `ids` checked one by one, as the loops of `_validate` do. */
  method CheckIds(aimodels: seq<AIModel>, ids: seq<int>, kind: AIModelType, field: Field, noun: string)
    returns (errs: seq<FieldError>)
    ensures errs == MissingIds(aimodels, ids, kind, field, noun)
  {
    errs := [];
    for i := 0 to |ids|
      invariant errs == MissingIds(aimodels, ids[..i], kind, field, noun)
    {
      assert ids[..i + 1][..i] == ids[..i];
      var ok := EngineRepo.FindModel(aimodels, ids[i], kind).Some?;
      if !ok {
        errs := errs + [Missing(field, noun, ids[i])];
      }
    }
    assert ids[..|ids|] == ids;
  }

  /** One more check is the errors so far and that check's. */
  lemma ChecksNext(aimodels: seq<AIModel>, input: EngineUserInput, n: nat)
    requires 0 < n <= FieldsChecked
    ensures Checks(aimodels, input, n) == Checks(aimodels, input, n - 1) + Check(aimodels, input, CheckedField(n - 1))
  {
  }

  /** `_validate`: the checks in field order, each appending its errors. */
  method Validate(aimodels: seq<AIModel>, input: EngineUserInput) returns (res: seq<FieldError>)
    ensures res == ValidationErrors(aimodels, input)
  {
    res := [];
    if input.name == "" {
      res := res + [EmptyName];
    }
    assert res == Checks(aimodels, input, 1);
    var ok := EngineRepo.FindModel(aimodels, input.checkpointModelId, Checkpoint).Some?;
    if !ok {
      res := res + [Missing(CheckpointModelId, "checkpoint", input.checkpointModelId)];
    }
    ChecksNext(aimodels, input, 2);
    assert res == Checks(aimodels, input, 2);
    if TruthyInt(input.vaeModelId) {
      ok := EngineRepo.FindModel(aimodels, input.vaeModelId.value, Vae).Some?;
      if !ok {
        res := res + [Missing(VaeModelId, "VAE", input.vaeModelId.value)];
      }
    }
    ChecksNext(aimodels, input, 3);
    assert res == Checks(aimodels, input, 3);
    var errs := CheckIds(aimodels, LoraIds(input.loraModelIds), Lora, LoraModelIds, "LORA");
    res := res + errs;
    ChecksNext(aimodels, input, 4);
    assert res == Checks(aimodels, input, 4);
    errs := CheckIds(aimodels, input.controlNetModelIds, ControlNet, ConrolNetModelIds, "control net");
    res := res + errs;
    ChecksNext(aimodels, input, 5);
    assert res == Checks(aimodels, input, 5);
    var nets := |input.controlNetModelIds| > 0;
    if nets && input.settings.controlnetConditioningScale.None? {
      res := res + [ScaleMissing];
    }
    ChecksNext(aimodels, input, 6);
    assert res == Checks(aimodels, input, 6);
    if nets && input.settings.controlGuidanceStart.None? {
      res := res + [StartMissing];
    }
    ChecksNext(aimodels, input, 7);
    assert res == Checks(aimodels, input, 7);
    if nets && input.settings.controlGuidanceEnd.None? {
      res := res + [EndMissing];
    }
    ChecksNext(aimodels, input, 8);
    assert res == Checks(aimodels, input, 8);
    errs := CheckIds(aimodels, input.embeddingModelIds, Embedding, EmbeddingModelIds, "embedding");
    res := res + errs;
    ChecksNext(aimodels, input, 9);
    assert res == Checks(aimodels, input, 9);
  }

  /** The errors naming the ids `ids`, one each, in order. */
  function Messages(ids: seq<int>, field: Field, noun: string): (r: seq<FieldError>)
    ensures |r| == |ids|
  {
    seq(|ids|, k requires 0 <= k < |ids| => Missing(field, noun, ids[k]))
  }

  /** Whether an id is not stored as a model of type `kind`. */
  function NotStoredAs(aimodels: seq<AIModel>, kind: AIModelType): (p: int -> bool)
    ensures forall id :: p(id) <==> !Exists(aimodels, id, kind)
  {
    (id: int) => !Exists(aimodels, id, kind)
  }

  /** The id errors are exactly one per id that does not exist as `kind`,
      in input order. */
  lemma {:induction false} MissingIdsAreTheMissing(aimodels: seq<AIModel>, ids: seq<int>, kind: AIModelType, field: Field, noun: string)
    ensures MissingIds(aimodels, ids, kind, field, noun)
      == Messages(Filter(ids, NotStoredAs(aimodels, kind)), field, noun)
    decreases |ids|
  {
    if ids != [] {
      MissingIdsAreTheMissing(aimodels, ids[..|ids| - 1], kind, field, noun);
      MissingIdsSnoc(aimodels, ids, kind, field, noun);
    }
  }

  /** One more id keeps the id errors equal to the messages of the ids not
      stored as `kind`. */
  lemma MissingIdsSnoc(aimodels: seq<AIModel>, ids: seq<int>, kind: AIModelType, field: Field, noun: string)
    requires ids != []
    requires MissingIds(aimodels, ids[..|ids| - 1], kind, field, noun)
      == Messages(Filter(ids[..|ids| - 1], NotStoredAs(aimodels, kind)), field, noun)
    ensures MissingIds(aimodels, ids, kind, field, noun)
      == Messages(Filter(ids, NotStoredAs(aimodels, kind)), field, noun)
  {
    var init, last := ids[..|ids| - 1], ids[|ids| - 1];
    var p := NotStoredAs(aimodels, kind);
    var front, back := Filter(init, p), Filter([last], p);
    assert Filter(ids, p) == front + back by {
      FilterSnoc(ids, p);
    }
    assert Messages(Filter(ids, p), field, noun) == Messages(front, field, noun) + Messages(back, field, noun) by {
      MessagesAppend(front, back, field, noun);
    }
    LastMessage(aimodels, last, kind, field, noun);
    if Exists(aimodels, last, kind) {
      assert Messages(back, field, noun) == [];
      assert MissingIds(aimodels, ids, kind, field, noun) == MissingIds(aimodels, init, kind, field, noun);
    } else {
      assert MissingIds(aimodels, ids, kind, field, noun)
        == MissingIds(aimodels, init, kind, field, noun) + [Missing(field, noun, last)];
    }
  }

  /** The message for one id: none when it is stored as `kind`. */
  lemma LastMessage(aimodels: seq<AIModel>, id: int, kind: AIModelType, field: Field, noun: string)
    ensures Messages(Filter([id], NotStoredAs(aimodels, kind)), field, noun)
      == if Exists(aimodels, id, kind) then [] else [Missing(field, noun, id)]
  {
    assert [id][1..] == [];
  }

  lemma MessagesAppend(a: seq<int>, b: seq<int>, field: Field, noun: string)
    ensures Messages(a + b, field, noun) == Messages(a, field, noun) + Messages(b, field, noun)
  {
    var joined, parts := Messages(a + b, field, noun), Messages(a, field, noun) + Messages(b, field, noun);
    forall k | 0 <= k < |joined|
      ensures joined[k] == parts[k]
    {
      if k < |a| {
        assert (a + b)[k] == a[k];
      } else {
        assert (a + b)[k] == b[k - |a|];
      }
    }
  }

  /** No id error exactly when every id exists as `kind`. */
  lemma {:induction false} NoMissingIds(aimodels: seq<AIModel>, ids: seq<int>, kind: AIModelType, field: Field, noun: string)
    ensures MissingIds(aimodels, ids, kind, field, noun) == [] <==> forall k :: 0 <= k < |ids| ==> Exists(aimodels, ids[k], kind)
    decreases |ids|
  {
    if ids != [] {
      var init := ids[..|ids| - 1];
      NoMissingIds(aimodels, init, kind, field, noun);
      assert forall k :: 0 <= k < |init| ==> init[k] == ids[k];
    }
  }

  /** Filtering errors that are all on field `g` by field `f`. */
  lemma OneFieldOnly(errs: seq<FieldError>, g: Field, f: Field)
    requires forall k :: 0 <= k < |errs| ==> errs[k].field == g
    ensures OnField(errs, f) == if f == g then errs else []
  {
    if f == g {
      FilterAll(errs, (e: FieldError) => e.field == f);
    } else {
      FilterNone(errs, (e: FieldError) => e.field == f);
    }
  }

  /** A field ranked below `FieldsChecked` is the field checked at its rank. */
  lemma RankedField(f: Field)
    requires FieldRank(f) < FieldsChecked
    ensures CheckedField(FieldRank(f)) == f
  {
  }

  /** Appending errors that are all on `last` adds to the errors on `f`
      exactly those errors when `f` is `last`, and nothing otherwise. */
  lemma OnFieldStep(prev: seq<FieldError>, own: seq<FieldError>, last: Field, f: Field)
    requires forall k :: 0 <= k < |own| ==> own[k].field == last
    ensures OnField(prev + own, f) == OnField(prev, f) + if f == last then own else []
  {
    FilterAppend(prev, own, (e: FieldError) => e.field == f);
    OneFieldOnly(own, last, f);
  }

  /** Each field is checked once: among the first `n` checks, the errors on
      `f` are those of its own check if it is among them, else none. */
  lemma {:induction false} OnFieldOfChecks(checks: Field -> seq<FieldError>, n: nat, f: Field)
    requires n <= FieldsChecked && OnOwnFields(checks)
    ensures OnField(Concat(checks, n), f) == if FieldRank(f) < n then checks(f) else []
  {
    if n > 0 {
      var last := CheckedField(n - 1);
      OnFieldOfChecks(checks, n - 1, f);
      RankStep(Concat(checks, n - 1), checks(last), last, f, n, checks(f));
    }
  }

  /** The step of `OnFieldOfChecks` on values: appending the errors of the
      check ranked `n - 1` adds them to the errors on `f` only when `f` is
      that field. */
  lemma RankStep(prev: seq<FieldError>, own: seq<FieldError>, last: Field, f: Field, n: nat, errs: seq<FieldError>)
    requires 0 < n <= FieldsChecked && FieldRank(last) == n - 1
    requires forall k :: 0 <= k < |own| ==> own[k].field == last
    requires OnField(prev, f) == if FieldRank(f) < n - 1 then errs else []
    requires f == last ==> own == errs
    ensures OnField(prev + own, f) == if FieldRank(f) < n then errs else []
  {
    OnFieldStep(prev, own, last, f);
    if f == last {
      assert OnField(prev + own, f) == [] + errs;
    } else if FieldRank(f) == n - 1 {
      RankedField(f);
      RankedField(last);
      assert false;
    }
  }

  /** The errors `_validate` reports on field `f` are those of its check. */
  lemma OnFieldOfValidation(aimodels: seq<AIModel>, input: EngineUserInput, f: Field)
    ensures OnField(ValidationErrors(aimodels, input), f) == Check(aimodels, input, f)
  {
    ChecksAreConcat(aimodels, input, FieldsChecked);
    ChecksOnOwnFields(aimodels, input);
    OnFieldOfChecks(CheckOf(aimodels, input), FieldsChecked, f);
  }

  /** An empty name gives exactly one error on the name; any other name none. */
  lemma NameError(aimodels: seq<AIModel>, input: EngineUserInput)
    ensures OnField(ValidationErrors(aimodels, input), Name)
      == if input.name == "" then [FieldError(Name, "name can't be empty")] else []
  {
    OnFieldOfValidation(aimodels, input, Name);
  }

  /** A checkpoint id not stored as a checkpoint gives exactly one error,
      naming the id; a stored one none. */
  lemma CheckpointIdError(aimodels: seq<AIModel>, input: EngineUserInput)
    ensures OnField(ValidationErrors(aimodels, input), CheckpointModelId)
      == if Exists(aimodels, input.checkpointModelId, Checkpoint) then []
         else [Missing(CheckpointModelId, "checkpoint", input.checkpointModelId)]
  {
    OnFieldOfValidation(aimodels, input, CheckpointModelId);
  }

  /** The VAE is checked only when its id is truthy: a missing or zero id
      gives no error whatever is stored. */
  lemma VaeError(aimodels: seq<AIModel>, input: EngineUserInput)
    ensures OnField(ValidationErrors(aimodels, input), VaeModelId) != []
      <==> TruthyInt(input.vaeModelId) && !Exists(aimodels, input.vaeModelId.value, Vae)
    ensures TruthyInt(input.vaeModelId) && !Exists(aimodels, input.vaeModelId.value, Vae) ==>
      OnField(ValidationErrors(aimodels, input), VaeModelId)
        == [Missing(VaeModelId, "VAE", input.vaeModelId.value)]
  {
    OnFieldOfValidation(aimodels, input, VaeModelId);
  }

  /** One error per LORA, control-net and embedding id that is not stored
      with that type, in input order. */
  lemma IdErrors(aimodels: seq<AIModel>, input: EngineUserInput)
    ensures OnField(ValidationErrors(aimodels, input), LoraModelIds)
      == Messages(Filter(LoraIds(input.loraModelIds), NotStoredAs(aimodels, Lora)), LoraModelIds, "LORA")
    ensures OnField(ValidationErrors(aimodels, input), ConrolNetModelIds)
      == Messages(Filter(input.controlNetModelIds, NotStoredAs(aimodels, ControlNet)), ConrolNetModelIds, "control net")
    ensures OnField(ValidationErrors(aimodels, input), EmbeddingModelIds)
      == Messages(Filter(input.embeddingModelIds, NotStoredAs(aimodels, Embedding)), EmbeddingModelIds, "embedding")
  {
    assert Check(aimodels, input, LoraModelIds) == LoraErrors(aimodels, input);
    assert Check(aimodels, input, ConrolNetModelIds) == ControlNetErrors(aimodels, input);
    assert Check(aimodels, input, EmbeddingModelIds) == EmbeddingErrors(aimodels, input);
    FieldIdErrors(aimodels, input, LoraIds(input.loraModelIds), Lora, LoraModelIds, "LORA");
    FieldIdErrors(aimodels, input, input.controlNetModelIds, ControlNet, ConrolNetModelIds, "control net");
    FieldIdErrors(aimodels, input, input.embeddingModelIds, Embedding, EmbeddingModelIds, "embedding");
  }

  /** The errors on a field whose check is the id loop over `ids`. */
  lemma FieldIdErrors(aimodels: seq<AIModel>, input: EngineUserInput, ids: seq<int>, kind: AIModelType, field: Field, noun: string)
    requires Check(aimodels, input, field) == MissingIds(aimodels, ids, kind, field, noun)
    ensures OnField(ValidationErrors(aimodels, input), field)
      == Messages(Filter(ids, NotStoredAs(aimodels, kind)), field, noun)
  {
    OnFieldOfValidation(aimodels, input, field);
    MissingIdsAreTheMissing(aimodels, ids, kind, field, noun);
  }

  /** With control nets requested, each missing parameter gives its own
      error; with none requested, none of these errors occur. */
  lemma ParamError(aimodels: seq<AIModel>, input: EngineUserInput)
    ensures OnField(ValidationErrors(aimodels, input), ControlnetConditioningScale)
      == if input.controlNetModelIds != [] && input.settings.controlnetConditioningScale.None? then [ScaleMissing] else []
    ensures OnField(ValidationErrors(aimodels, input), ControlGuidanceStart)
      == if input.controlNetModelIds != [] && input.settings.controlGuidanceStart.None? then [StartMissing] else []
    ensures OnField(ValidationErrors(aimodels, input), ControlGuidanceEnd)
      == if input.controlNetModelIds != [] && input.settings.controlGuidanceEnd.None? then [EndMissing] else []
  {
    OnFieldOfValidation(aimodels, input, ControlnetConditioningScale);
    OnFieldOfValidation(aimodels, input, ControlGuidanceStart);
    OnFieldOfValidation(aimodels, input, ControlGuidanceEnd);
  }

  /** The position of a field in the order `_validate` checks them. */
  function FieldRank(field: Field): nat
  {
    match field
    case Name => 0
    case CheckpointModelId => 1
    case VaeModelId => 2
    case LoraModelIds => 3
    case ConrolNetModelIds => 4
    case ControlnetConditioningScale => 5
    case ControlGuidanceStart => 6
    case ControlGuidanceEnd => 7
    case EmbeddingModelIds => 8
    case EngineId | GeneratorId => 9
  }

  predicate InFieldOrder(errs: seq<FieldError>)
  {
    forall i, j :: 0 <= i < j < |errs| ==> FieldRank(errs[i].field) <= FieldRank(errs[j].field)
  }

  /** The first `n` checks report in field order, on fields ranked below `n`. */
  lemma {:induction false} PrefixInFieldOrder(checks: Field -> seq<FieldError>, n: nat)
    requires n <= FieldsChecked && OnOwnFields(checks)
    ensures InFieldOrder(Concat(checks, n))
    ensures forall k :: 0 <= k < |Concat(checks, n)| ==> FieldRank(Concat(checks, n)[k].field) < n
  {
    if n > 0 {
      PrefixInFieldOrder(checks, n - 1);
      OrderedAppend(Concat(checks, n - 1), checks(CheckedField(n - 1)), CheckedField(n - 1), n - 1);
    }
  }

  /** Errors in field order on fields ranked below `rank`, followed by
      errors on the field ranked `rank`, are in field order. */
  lemma OrderedAppend(prev: seq<FieldError>, own: seq<FieldError>, last: Field, rank: nat)
    requires InFieldOrder(prev) && forall k :: 0 <= k < |prev| ==> FieldRank(prev[k].field) < rank
    requires FieldRank(last) == rank && forall k :: 0 <= k < |own| ==> own[k].field == last
    ensures InFieldOrder(prev + own)
    ensures forall k :: 0 <= k < |prev + own| ==> FieldRank((prev + own)[k].field) <= rank
  {
  }

  /** Errors come in the fixed field order: name, checkpoint, VAE, LORAs,
      control nets, control-net parameters, embeddings. */
  lemma ErrorsInFieldOrder(aimodels: seq<AIModel>, input: EngineUserInput)
    ensures InFieldOrder(ValidationErrors(aimodels, input))
  {
    ChecksAreConcat(aimodels, input, FieldsChecked);
    ChecksOnOwnFields(aimodels, input);
    PrefixInFieldOrder(CheckOf(aimodels, input), FieldsChecked);
  }

  /** The first `n` checks report nothing exactly when each of them passes. */
  lemma {:induction false} NoErrorsInChecks(checks: Field -> seq<FieldError>, n: nat)
    requires n <= FieldsChecked
    ensures Concat(checks, n) == [] <==> forall i :: 0 <= i < n ==> checks(CheckedField(i)) == []
  {
    if n > 0 {
      NoErrorsInChecks(checks, n - 1);
    }
  }

  /** `Acceptable` is each field's check passing. */
  lemma AcceptableIsEachCheck(aimodels: seq<AIModel>, input: EngineUserInput)
    ensures Acceptable(aimodels, input) <==>
      NameErrors(input) == [] && CheckpointIdErrors(aimodels, input) == [] && VaeErrors(aimodels, input) == []
      && LoraErrors(aimodels, input) == [] && ControlNetErrors(aimodels, input) == []
      && ScaleErrors(input) == [] && StartErrors(input) == [] && EndErrors(input) == []
      && EmbeddingErrors(aimodels, input) == []
  {
    IdChecksPass(aimodels, input);
  }

  /** Each id loop reports nothing exactly when every id it checks is
      stored with its type. */
  lemma IdChecksPass(aimodels: seq<AIModel>, input: EngineUserInput)
    ensures LoraErrors(aimodels, input) == []
      <==> forall k :: 0 <= k < |input.loraModelIds| ==> Exists(aimodels, input.loraModelIds[k].loraModelId, Lora)
    ensures ControlNetErrors(aimodels, input) == []
      <==> forall k :: 0 <= k < |input.controlNetModelIds| ==> Exists(aimodels, input.controlNetModelIds[k], ControlNet)
    ensures EmbeddingErrors(aimodels, input) == []
      <==> forall k :: 0 <= k < |input.embeddingModelIds| ==> Exists(aimodels, input.embeddingModelIds[k], Embedding)
  {
    var ls := LoraIds(input.loraModelIds);
    NoMissingIds(aimodels, ls, Lora, LoraModelIds, "LORA");
    NoMissingIds(aimodels, input.controlNetModelIds, ControlNet, ConrolNetModelIds, "control net");
    NoMissingIds(aimodels, input.embeddingModelIds, Embedding, EmbeddingModelIds, "embedding");
    assert (forall k :: 0 <= k < |ls| ==> Exists(aimodels, ls[k], Lora))
      <==> forall k :: 0 <= k < |input.loraModelIds| ==> Exists(aimodels, input.loraModelIds[k].loraModelId, Lora);
  }

  /** Validation reports nothing exactly when every check passes. */
  lemma ValidWhenNoErrors(aimodels: seq<AIModel>, input: EngineUserInput)
    ensures ValidationErrors(aimodels, input) == [] <==> Acceptable(aimodels, input)
  {
    ChecksAreConcat(aimodels, input, FieldsChecked);
    NoErrorsInChecks(CheckOf(aimodels, input), FieldsChecked);
    AcceptableIsEachCheck(aimodels, input);
    var passes := (i: nat) => i < FieldsChecked ==> Check(aimodels, input, CheckedField(i)) == [];
    if ValidationErrors(aimodels, input) == [] {
      assert passes(0) && passes(1) && passes(2) && passes(3) && passes(4);
      assert passes(5) && passes(6) && passes(7) && passes(8);
    }
    if Acceptable(aimodels, input) {
      forall i | 0 <= i < FieldsChecked ensures Check(aimodels, input, CheckedField(i)) == [] {
        assert passes(i) by {
          if i == 0 {} else if i == 1 {} else if i == 2 {} else if i == 3 {} else if i == 4 {}
          else if i == 5 {} else if i == 6 {} else if i == 7 {} else {}
        }
      }
    }
  }

  /** The models `get_one` fetches for `ids`, in order; "aimodel-not-found"
      when one of them is not stored. */
  function FetchAll(aimodels: seq<AIModel>, ids: seq<int>): (r: Result<seq<AIModel>>)
    ensures r.Ok? <==> forall k :: 0 <= k < |ids| ==> AIModelRepo.GetOne(aimodels, ids[k]).Ok?
    ensures r.Err? ==> r.error == AIModelRepo.AIModelNotFound
    ensures r.Ok? ==> |r.value| == |ids| && forall k :: 0 <= k < |ids| ==> r.value[k] in aimodels && r.value[k].id == Some(ids[k])
  {
    if forall k :: 0 <= k < |ids| ==> AIModelRepo.GetOne(aimodels, ids[k]).Ok? then
      Ok(seq(|ids|, k requires 0 <= k < |ids| => AIModelRepo.GetOne(aimodels, ids[k]).value))
    else Err(AIModelRepo.AIModelNotFound)
  }

  /** The LORAs `create` fetches: each model with its weight from the request. */
  function FetchLoras(aimodels: seq<AIModel>, ls: seq<LoraInput>): (r: Result<seq<LoraAndWeight>>)
    ensures r.Ok? <==> FetchAll(aimodels, LoraIds(ls)).Ok?
    ensures r.Err? ==> r.error == AIModelRepo.AIModelNotFound
    ensures r.Ok? ==> EngineRepo.Models(r.value) == FetchAll(aimodels, LoraIds(ls)).value
    ensures r.Ok? ==> forall k :: 0 <= k < |ls| ==> r.value[k].weight == Some(ls[k].weight as real)
  {
    match FetchAll(aimodels, LoraIds(ls))
    case Err(e) => Err(e)
    case Ok(ms) =>
      var r := seq(|ls|, k requires 0 <= k < |ls| => LoraAndWeight(ms[k], Some(ls[k].weight as real)));
      assert EngineRepo.Models(r) == ms;
      Ok(r)
  }

  /** The engine `create` assembles after validation: the fetched models,
      the request's name and settings, and no id yet; "aimodel-not-found"
      when a fetch fails. */
  function Assemble(aimodels: seq<AIModel>, input: EngineUserInput): (r: Result<Engine>)
    ensures r.Ok? ==> EngineRepo.ModelIdsSet(r.value) && r.value.id.None?
    ensures r.Ok? ==> r.value.name == input.name && r.value.settings == input.settings
    ensures r.Ok? ==> r.value.checkpoint.id == Some(input.checkpointModelId)
    ensures r.Ok? ==> (r.value.vae.Some? <==> TruthyInt(input.vaeModelId))
    ensures r.Err? ==> r.error == AIModelRepo.AIModelNotFound
  {
    var ckpt := AIModelRepo.GetOne(aimodels, input.checkpointModelId);
    var vae := if TruthyInt(input.vaeModelId) then Some(AIModelRepo.GetOne(aimodels, input.vaeModelId.value)) else None;
    var cns := FetchAll(aimodels, input.controlNetModelIds);
    var ems := FetchAll(aimodels, input.embeddingModelIds);
    var ls := FetchLoras(aimodels, input.loraModelIds);
    if ckpt.Err? || (vae.Some? && vae.value.Err?) || cns.Err? || ems.Err? || ls.Err? then
      Err(AIModelRepo.AIModelNotFound)
    else
      var e := Engine(None, input.name, ckpt.value, if vae.Some? then Some(vae.value.value) else None,
        ls.value, ems.value, cns.value, input.settings);
      assert forall k :: 0 <= k < |e.loras| ==> e.loras[k].aimodel == EngineRepo.Models(e.loras)[k];
      Ok(e)
  }

  /** The ids of `ids` all exist as `kind`, so they are fetched as models of that type. */
  lemma FetchedAs(aimodels: seq<AIModel>, ids: seq<int>, kind: AIModelType)
    requires UniqueModelIds(aimodels)
    requires forall k :: 0 <= k < |ids| ==> Exists(aimodels, ids[k], kind)
    ensures FetchAll(aimodels, ids).Ok? && EngineRepo.StoredAs(aimodels, FetchAll(aimodels, ids).value, kind)
  {
    forall k | 0 <= k < |ids|
      ensures AIModelRepo.GetOne(aimodels, ids[k]) == Ok(EngineRepo.FindModel(aimodels, ids[k], kind).value)
    {
      AIModelRepo.GetOneFinds(aimodels, EngineRepo.FindModel(aimodels, ids[k], kind).value);
    }
  }

  /** A model that exists as `kind` is fetched as that model. */
  lemma FetchedOneAs(aimodels: seq<AIModel>, id: int, kind: AIModelType)
    requires UniqueModelIds(aimodels) && Exists(aimodels, id, kind)
    ensures AIModelRepo.GetOne(aimodels, id).Ok? && AIModelRepo.GetOne(aimodels, id).value.modelType == kind
  {
    AIModelRepo.GetOneFinds(aimodels, EngineRepo.FindModel(aimodels, id, kind).value);
  }

  /** After a validation without errors every fetch succeeds and each
      fetched model is stored with the type its field asks for, so the
      engine `create` stores is one `serialize_engine` reads back. */
  lemma ValidatedAssembles(aimodels: seq<AIModel>, input: EngineUserInput)
    requires UniqueModelIds(aimodels) && ValidationErrors(aimodels, input) == []
    ensures Assemble(aimodels, input).Ok?
    ensures EngineRepo.StoredEngine(aimodels, Assemble(aimodels, input).value)
  {
    ValidWhenNoErrors(aimodels, input);
    FetchedOneAs(aimodels, input.checkpointModelId, Checkpoint);
    if TruthyInt(input.vaeModelId) {
      FetchedOneAs(aimodels, input.vaeModelId.value, Vae);
    }
    FetchedAs(aimodels, input.controlNetModelIds, ControlNet);
    FetchedAs(aimodels, input.embeddingModelIds, Embedding);
    var ls := LoraIds(input.loraModelIds);
    assert forall k :: 0 <= k < |ls| ==> Exists(aimodels, ls[k], Lora) by {
      assert forall k :: 0 <= k < |ls| ==> ls[k] == input.loraModelIds[k].loraModelId;
    }
    FetchedAs(aimodels, ls, Lora);
  }

  /** After a validation without errors the fetches of `create` succeed. */
  lemma ValidatedFetches(aimodels: seq<AIModel>, input: EngineUserInput)
    requires UniqueModelIds(aimodels) && ValidationErrors(aimodels, input) == []
    ensures Assemble(aimodels, input).Ok?
  {
    ValidatedAssembles(aimodels, input);
  }

  /** Creating an engine from a valid request and reading it back gives
      the assembled engine under its new id. */
  lemma CreatedEngineReadsBack(aimodels: seq<AIModel>, links: seq<LinkRow>, input: EngineUserInput, id: int)
    requires UniqueModelIds(aimodels) && ValidationErrors(aimodels, input) == []
    requires forall k :: 0 <= k < |links| ==> links[k].engineId != id
    ensures Assemble(aimodels, input).Ok?
    ensures var e := Assemble(aimodels, input).value;
      EngineRepo.Serialize(aimodels, links + EngineRepo.LinkRows(e, id, id + 1), EngineRepo.EngineRowOf(e, id))
        == Ok(e.(id := Some(id)))
  {
    ValidatedAssembles(aimodels, input);
    EngineRepo.CreateThenSerialize(aimodels, links, Assemble(aimodels, input).value, id);
  }

  /** The `get_one` loops of `create` over control-net and embedding ids. */
  method FetchModels(aimodels: seq<AIModel>, ids: seq<int>) returns (r: Result<seq<AIModel>>)
    ensures r == FetchAll(aimodels, ids)
  {
    var ms: seq<AIModel> := [];
    for i := 0 to |ids|
      invariant |ms| == i
      invariant forall k :: 0 <= k < i ==> AIModelRepo.GetOne(aimodels, ids[k]).Ok?
      invariant forall k :: 0 <= k < i ==> ms[k] == AIModelRepo.GetOne(aimodels, ids[k]).value
    {
      var m := AIModelRepo.GetOne(aimodels, ids[i]);
      if m.Err? {
        return Err(m.error);
      }
      ms := ms + [m.value];
    }
    assert FetchAll(aimodels, ids).Ok?;
    assert ms == FetchAll(aimodels, ids).value;
    return Ok(ms);
  }

  /** The `get_one` loop of `create` over the requested LORAs. */
  method FetchLoraModels(aimodels: seq<AIModel>, ls: seq<LoraInput>) returns (r: Result<seq<LoraAndWeight>>)
    ensures r == FetchLoras(aimodels, ls)
  {
    var res: seq<LoraAndWeight> := [];
    ghost var ids := LoraIds(ls);
    for i := 0 to |ls|
      invariant |res| == i
      invariant forall k :: 0 <= k < i ==> AIModelRepo.GetOne(aimodels, ids[k]).Ok?
      invariant forall k :: 0 <= k < i ==>
        res[k] == LoraAndWeight(AIModelRepo.GetOne(aimodels, ids[k]).value, Some(ls[k].weight as real))
    {
      var m := AIModelRepo.GetOne(aimodels, ls[i].loraModelId);
      if m.Err? {
        return Err(m.error);
      }
      res := res + [LoraAndWeight(m.value, Some(ls[i].weight as real))];
    }
    assert FetchAll(aimodels, ids).Ok?;
    assert FetchLoras(aimodels, ls).Ok?;
    assert res == FetchLoras(aimodels, ls).value;
    return Ok(res);
  }

  /** The fetches of `create`, in its order: checkpoint, VAE when its id is
      truthy, control nets, embeddings, LORAs; the first that fails ends it. */
  method FetchEngine(aimodels: seq<AIModel>, input: EngineUserInput) returns (r: Result<Engine>)
    ensures r == Assemble(aimodels, input)
  {
    var ckpt := AIModelRepo.GetOne(aimodels, input.checkpointModelId);
    if ckpt.Err? {
      return Err(ckpt.error);
    }
    var vae: Option<AIModel> := None;
    if TruthyInt(input.vaeModelId) {
      var v := AIModelRepo.GetOne(aimodels, input.vaeModelId.value);
      if v.Err? {
        return Err(v.error);
      }
      vae := Some(v.value);
    }
    var cns := FetchModels(aimodels, input.controlNetModelIds);
    if cns.Err? {
      return Err(cns.error);
    }
    var ems := FetchModels(aimodels, input.embeddingModelIds);
    if ems.Err? {
      return Err(ems.error);
    }
    var ls := FetchLoraModels(aimodels, input.loraModelIds);
    if ls.Err? {
      return Err(ls.error);
    }
    return Ok(Engine(None, input.name, ckpt.value, vae, ls.value, ems.value, cns.value, input.settings));
  }

  const IncorrectInputStatus := 400

  /** `create`: a request with validation errors raises "incorrect-input"
      (400) carrying them and writes nothing; otherwise the assembled engine
      is stored and returned with its new id. */
  method Create(db: Database, input: EngineUserInput) returns (r: Result<Engine>)
    requires db.Valid()
    modifies db
    ensures db.Valid()
    ensures ValidationErrors(old(db.aimodels), input) != [] ==>
      r == Err(Error.Error(IncorrectInput, Some(IncorrectInputStatus), ValidationErrors(old(db.aimodels), input)))
      && unchanged(db)
    ensures ValidationErrors(old(db.aimodels), input) == [] ==>
      Assemble(old(db.aimodels), input).Ok?
      && r == Ok(Assemble(old(db.aimodels), input).value.(id := Some(old(db.nextId))))
      && db.engines == old(db.engines) + [EngineRepo.EngineRowOf(Assemble(old(db.aimodels), input).value, old(db.nextId))]
      && db.links == old(db.links) + EngineRepo.LinkRows(Assemble(old(db.aimodels), input).value, old(db.nextId), old(db.nextId) + 1)
    ensures db.aimodels == old(db.aimodels) && db.generators == old(db.generators)
    ensures db.jobs == old(db.jobs) && db.images == old(db.images) && db.controlImages == old(db.controlImages)
  {
    var errs := Validate(db.aimodels, input);
    if |errs| > 0 {
      return Err(Error.Error(IncorrectInput, Some(IncorrectInputStatus), errs));
    }
    assert db.aimodels == old(db.aimodels) && db.engines == old(db.engines) && db.links == old(db.links);
    assert db.nextId == old(db.nextId);
    ValidatedFetches(db.aimodels, input);
    ghost var links := EngineRepo.LinkRows(Assemble(old(db.aimodels), input).value, old(db.nextId), old(db.nextId) + 1);
    var created := StoreAssembled(db, input);
    assert db.links == old(db.links) + links;
    r := Ok(created);
  }

  /** The part of `create` after a validation without errors: the models
      are fetched and the assembled engine is stored with its links and
      returned with its new id. */
  method StoreAssembled(db: Database, input: EngineUserInput) returns (r: Engine)
    requires db.Valid() && Assemble(db.aimodels, input).Ok?
    modifies db
    ensures db.Valid()
    ensures r == Assemble(old(db.aimodels), input).value.(id := Some(old(db.nextId)))
    ensures db.engines == old(db.engines) + [EngineRepo.EngineRowOf(Assemble(old(db.aimodels), input).value, old(db.nextId))]
    ensures db.links == old(db.links) + EngineRepo.LinkRows(Assemble(old(db.aimodels), input).value, old(db.nextId), old(db.nextId) + 1)
    ensures db.aimodels == old(db.aimodels) && db.generators == old(db.generators)
    ensures db.jobs == old(db.jobs) && db.images == old(db.images) && db.controlImages == old(db.controlImages)
  {
    var fetched := FetchEngine(db.aimodels, input);
    r := EngineRepo.Create(db, fetched.value);
  }

  /** `delete`: refused with "generator-is-using-engine" (400) while a
      generator uses the engine, with nothing deleted; otherwise the
      repository delete, which fails with "engine-not-found" for an absent
      id and else removes the engine and its link rows. */
  method Delete(db: Database, id: int) returns (err: Option<Error>)
    requires db.Valid()
    modifies db
    ensures db.Valid()
    ensures EngineRepo.IsUsedByGenerator(old(db.generators), id) ==> err == Some(GeneratorIsUsingEngine) && unchanged(db)
    ensures !EngineRepo.IsUsedByGenerator(old(db.generators), id) && EngineRepo.FindEngine(old(db.engines), id).None? ==>
      err == Some(EngineRepo.EngineNotFound) && db.engines == old(db.engines) && db.links == old(db.links)
    ensures !EngineRepo.IsUsedByGenerator(old(db.generators), id) && EngineRepo.FindEngine(old(db.engines), id).Some? ==>
      err.None? && db.engines == Filter(old(db.engines), (r: EngineRow) => r.id != id)
      && db.links == Filter(old(db.links), (l: LinkRow) => l.engineId != id)
    ensures db.aimodels == old(db.aimodels) && db.generators == old(db.generators) && db.nextId == old(db.nextId)
    ensures db.jobs == old(db.jobs) && db.images == old(db.images) && db.controlImages == old(db.controlImages)
  {
    var used := exists g :: g in db.generators && g.engineId == id;
    if used {
      return Some(GeneratorIsUsingEngine);
    }
    err := EngineRepo.Delete(db, id);
  }
}
