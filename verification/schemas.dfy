/** The records the core passes around (the pydantic schemas), as values. */
module Schemas {
  import opened Base
  import opened Enums

  datatype AIModel = AIModel(
    id: Option<int>,
    name: string,
    status: AIModelStatus,
    path: string,
    pathType: PathType,
    variant: Variant,
    modelType: AIModelType,
    modelBase: AIModelBase,
    tags: string,
    controlNetType: Option<ControlNetType>,
    triggerPosWords: Option<string>,
    triggerNegWords: Option<string>,
    error: Option<string>)

  datatype LoraAndWeight = LoraAndWeight(aimodel: AIModel, weight: Option<real>)

  /** The engine's own columns: everything except its name and its models. */
  datatype EngineSettings = EngineSettings(
    scheduler: string,
    guidanceScale: real,
    steps: int,
    seed: int,
    width: int,
    height: int,
    pipeType: PipeType,
    longPromptTechnique: Option<LongPromptTechnique>,
    scalingFactorEnabled: Option<bool>,
    schedulerConfig: Option<string>,
    controlnetConditioningScale: Option<real>,
    controlGuidanceStart: Option<real>,
    controlGuidanceEnd: Option<real>,
    clipSkip: Option<int>)

  datatype Engine = Engine(
    id: Option<int>,
    name: string,
    checkpoint: AIModel,
    vae: Option<AIModel>,
    loras: seq<LoraAndWeight>,
    embeddings: seq<AIModel>,
    controlNets: seq<AIModel>,
    settings: EngineSettings)

  datatype ControlNetImage = ControlNetImage(
    aimodel: Option<AIModel>,
    imageFilePath: string,
    controlnetConditioningScale: Option<real>,
    cannyLowThreshold: Option<int>,
    cannyHighThreshold: Option<int>)

  datatype Image = Image(
    id: Option<int>,
    jobId: int,
    generatorId: int,
    prompt: string,
    negativePrompt: string,
    ready: bool,
    filePath: string,
    name: Option<string>,
    seed: Option<int>,
    guidanceScale: Option<real>,
    width: Option<int>,
    height: Option<int>,
    steps: Option<int>,
    controlImages: seq<ControlNetImage>,
    fileType: FileImageType,
    controlGuidanceStart: Option<real>,
    controlGuidanceEnd: Option<real>)

  /** A job; `ipAdapterConfig` stands for the JSON configuration dictionary. */
  datatype Job = Job(
    id: Option<int>,
    generatorId: int,
    images: seq<Image>,
    status: JobStatus,
    ipAdapterConfig: Option<string>)

  datatype Generator = Generator(
    id: Option<int>,
    name: string,
    gpuId: int,
    engine: Engine,
    status: GeneratorStatus)
}
