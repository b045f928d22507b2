/** The decision and assembly logic of the diffusion pipeline helpers
    (`process/pipe.py`). Loading models and running inference are foreign
    calls: a load is recorded as the arguments it is made with, the
    tokenizer is a function from text to its token count, and the encoder
    is recorded as the list of texts it is called on. */
module Pipe {
  import opened Base
  import opened Enums
  import opened Schemas
  import opened Text
  import opened Pose

  /** The diffusers pipeline classes `create_pipe` chooses from. */
  datatype Pipeline =
    | SdPipeline | SdControlNetPipeline | SdImg2ImgPipeline
    | SdxlPipeline | SdxlControlNetPipeline | SdxlImg2ImgPipeline

  /** The model family a pipeline class is for. */
  function PipelineBase(p: Pipeline): AIModelBase
  {
    match p
    case SdPipeline | SdControlNetPipeline | SdImg2ImgPipeline => SD
    case SdxlPipeline | SdxlControlNetPipeline | SdxlImg2ImgPipeline => SDXL
  }

  predicate UsesControlNet(p: Pipeline)
  {
    p == SdControlNetPipeline || p == SdxlControlNetPipeline
  }

  predicate IsImg2Img(p: Pipeline)
  {
    p == SdImg2ImgPipeline || p == SdxlImg2ImgPipeline
  }

  /** The selection table of `create_pipe`: nothing is chosen for a
      checkpoint of base ALL; otherwise the class is of the checkpoint's
      family, image-to-image exactly for IMG2IMG, and the ControlNet
      variant exactly for TXT2IMG with at least one control net. */
  function SelectPipeline(pipeType: PipeType, base: AIModelBase, controlNets: nat): (r: Option<Pipeline>)
    ensures r.Some? <==> base != All
    ensures r.Some? ==> PipelineBase(r.value) == base
    ensures r.Some? ==> (IsImg2Img(r.value) <==> pipeType == Img2Img)
    ensures r.Some? ==> (UsesControlNet(r.value) <==> pipeType == Txt2Img && controlNets > 0)
  {
    match (pipeType, base)
    case (Txt2Img, SD) => Some(if controlNets == 0 then SdPipeline else SdControlNetPipeline)
    case (Txt2Img, SDXL) => Some(if controlNets == 0 then SdxlPipeline else SdxlControlNetPipeline)
    case (Img2Img, SD) => Some(SdImg2ImgPipeline)
    case (Img2Img, SDXL) => Some(SdxlImg2ImgPipeline)
    case (_, All) => None
  }

  /** The torch dtype a model is loaded with. */
  datatype Dtype = Float16 | Float32

  function DtypeOf(v: Variant): (d: Dtype)
    ensures d == Float32 <==> v == FP32
  {
    if v == FP32 then Float32 else Float16
  }

  /** `from_single_file` for a FILE path, `from_pretrained` for a Hugging Face one. */
  datatype Loader = FromSingleFile | FromPretrained

  function LoaderOf(t: PathType): (l: Loader)
    ensures l == FromSingleFile <==> t == File
  {
    match t
    case File => FromSingleFile
    case HuggingFace => FromPretrained
  }

  /** An argument that is passed as a scalar when the list has one element
      and as the list otherwise. */
  datatype OneOrMany<T> = One(item: T) | Many(items: seq<T>)

  /** The elements an argument stands for. */
  function Elements<T>(o: OneOrMany<T>): seq<T>
  {
    match o
    case One(x) => [x]
    case Many(xs) => xs
  }

  function Shape<T>(xs: seq<T>): (r: OneOrMany<T>)
    ensures r.One? <==> |xs| == 1
    ensures Elements(r) == xs
  {
    if |xs| == 1 then One(xs[0]) else Many(xs)
  }

  /** The arguments `create_vae` loads the VAE with. */
  datatype VaeLoad = VaeLoad(loader: Loader, path: string, dtype: Dtype, variant: Option<string>)

  /** `create_vae`: a Hugging Face repository whose path already names the
      variant is loaded without one. */
  function CreateVae(vae: AIModel): (r: VaeLoad)
    ensures r.loader == LoaderOf(vae.pathType) && r.path == vae.path && r.dtype == DtypeOf(vae.variant)
    ensures r.variant.None? <==> vae.pathType == HuggingFace && exists i :: OccursAt(vae.path, VariantValue(vae.variant), i)
    ensures r.variant.Some? ==> r.variant.value == VariantValue(vae.variant)
  {
    var variant := VariantValue(vae.variant);
    match vae.pathType
    case File => VaeLoad(FromSingleFile, vae.path, DtypeOf(vae.variant), Some(variant))
    case HuggingFace =>
      VaeLoad(FromPretrained, vae.path, DtypeOf(vae.variant),
              if Contains(vae.path, variant) then None else Some(variant))
  }

  /** The call `create_pipe` makes: the pipeline class, how it is loaded
      and its keyword arguments. A control net is stood for by the AI
      model it was loaded from. */
  datatype PipeLoad = PipeLoad(
    pipeline: Pipeline,
    loader: Loader,
    path: string,
    dtype: Dtype,
    useSafetensors: bool,
    variant: string,
    vae: Option<VaeLoad>,
    controlnet: Option<OneOrMany<AIModel>>)

  /** `create_pipe`. */
  function CreatePipe(engine: Engine, vae: Option<VaeLoad>, cnets: seq<AIModel>): (r: Result<PipeLoad>)
    ensures r.Err? <==> engine.checkpoint.modelBase == All
    ensures r.Err? ==> r.error == AssertionFailed
    ensures r.Ok? ==>
      var c := engine.checkpoint;
      r.value.pipeline == SelectPipeline(engine.settings.pipeType, c.modelBase, |cnets|).value
      && r.value.loader == LoaderOf(c.pathType) && r.value.path == c.path
      && r.value.dtype == DtypeOf(c.variant) && r.value.variant == VariantValue(c.variant)
      && r.value.useSafetensors && r.value.vae == vae
    ensures r.Ok? ==> (r.value.controlnet.None? <==> cnets == [])
    ensures r.Ok? && r.value.controlnet.Some? ==>
      Elements(r.value.controlnet.value) == cnets && (r.value.controlnet.value.One? <==> |cnets| == 1)
  {
    var c := engine.checkpoint;
    match SelectPipeline(engine.settings.pipeType, c.modelBase, |cnets|)
    case None => Err(AssertionFailed)
    case Some(pipeline) =>
      Ok(PipeLoad(pipeline, LoaderOf(c.pathType), c.path, DtypeOf(c.variant), true,
                  VariantValue(c.variant), vae, if |cnets| > 0 then Some(Shape(cnets)) else None))
  }

  /** How an embedding is loaded into the pipeline. */
  datatype EmbeddingLoad =
    | SdxlEmbedding(path: string, token: string)    // `load_sdxl_embedding`
    | TextualInversion(path: string, token: string) // `pipe.load_textual_inversion`

  /** The trigger token of an embedding: its negative trigger words, then
      its positive ones, each followed by a space. */
  function Trigger(e: AIModel): (t: string)
    ensures t == [] <==> e.triggerNegWords.None? && e.triggerPosWords.None?
    ensures e.triggerNegWords.Some? ==> StartsWith(t, e.triggerNegWords.value + " ")
    ensures e.triggerPosWords.Some? ==>
      |e.triggerPosWords.value| + 1 <= |t| && t[|t| - |e.triggerPosWords.value| - 1..] == e.triggerPosWords.value + " "
    ensures |t| == (if e.triggerNegWords.Some? then |e.triggerNegWords.value| + 1 else 0)
                 + (if e.triggerPosWords.Some? then |e.triggerPosWords.value| + 1 else 0)
  {
    (if e.triggerNegWords.Some? then e.triggerNegWords.value + " " else "")
    + (if e.triggerPosWords.Some? then e.triggerPosWords.value + " " else "")
  }

  /** The load call for one embedding: SDXL embeddings go through the
      two-encoder loader, every other base through textual inversion. */
  function EmbeddingLoadOf(e: AIModel): (l: EmbeddingLoad)
    ensures l.SdxlEmbedding? <==> e.modelBase == SDXL
    ensures l.path == e.path && l.token == Trigger(e)
  {
    if e.modelBase == SDXL then SdxlEmbedding(e.path, Trigger(e)) else TextualInversion(e.path, Trigger(e))
  }

  /** The `trigger` string `load_embeddings` builds for one embedding with `+=`. */
  method BuildTrigger(embed: AIModel) returns (trigger: string)
    ensures trigger == Trigger(embed)
  {
    trigger := "";
    if embed.triggerNegWords.Some? {
      trigger := trigger + embed.triggerNegWords.value + " ";
    }
    ghost var neg := trigger;
    if embed.triggerPosWords.Some? {
      trigger := trigger + embed.triggerPosWords.value + " ";
      assert trigger == neg + (embed.triggerPosWords.value + " ");
    }
  }

  /** `load_embeddings`: one load per embedding, in order. */
  method LoadEmbeddings(embeddings: seq<AIModel>) returns (loads: seq<EmbeddingLoad>)
    ensures |loads| == |embeddings|
    ensures forall k :: 0 <= k < |embeddings| ==> loads[k] == EmbeddingLoadOf(embeddings[k])
  {
    loads := [];
    for i := 0 to |embeddings|
      invariant |loads| == i
      invariant forall k :: 0 <= k < i ==> loads[k] == EmbeddingLoadOf(embeddings[k])
    {
      var embed := embeddings[i];
      var trigger := BuildTrigger(embed);
      var load := if embed.modelBase == SDXL then SdxlEmbedding(embed.path, trigger) else TextualInversion(embed.path, trigger);
      assert load == EmbeddingLoadOf(embed);
      loads := loads + [load];
    }
  }

  // ---------------------------------------------------------------------
  // Long prompts

  /** The `max_tokens` default of `build_long_prompt_embeds_for_sdxl`. */
  const DefaultMaxTokens: int := 75

  /** The summed token counts of some parts. */
  function SumTokens(count: string -> nat, parts: seq<string>): nat
    decreases |parts|
  {
    if parts == [] then 0 else SumTokens(count, parts[..|parts| - 1]) + count(parts[|parts| - 1])
  }

  lemma SumTokensAppend(count: string -> nat, parts: seq<string>, part: string)
    ensures SumTokens(count, parts + [part]) == SumTokens(count, parts) + count(part)
  {
    assert (parts + [part])[..|parts|] == parts;
  }

  /** A prefix never has more tokens than the whole. */
  lemma {:induction false} SumTokensPrefix(count: string -> nat, parts: seq<string>, n: nat)
    requires n <= |parts|
    ensures SumTokens(count, parts[..n]) <= SumTokens(count, parts)
  {
    if n < |parts| {
      assert parts[..|parts| - 1][..n] == parts[..n];
      SumTokensPrefix(count, parts[..|parts| - 1], n);
    } else {
      assert parts[..n] == parts;
    }
  }

  /** The concatenation of some chunks' parts. */
  function Flatten(groups: seq<seq<string>>): seq<string>
    decreases |groups|
  {
    if groups == [] then [] else Flatten(groups[..|groups| - 1]) + groups[|groups| - 1]
  }

  /** The loop state of the chunking: the chunks closed so far, the current
      chunk and its token count. */
  datatype Chunking = Chunking(done: seq<seq<string>>, current: seq<string>, tokens: int)

  /** One iteration: the part closes the current chunk and starts a new one
      when adding it to a non-empty chunk would go over `maxTokens`;
      otherwise it joins the current chunk. */
  function ChunkStep(s: Chunking, part: string, maxTokens: int, count: string -> nat): Chunking
  {
    if s.tokens + count(part) > maxTokens && s.current != [] then
      Chunking(s.done + [s.current], [part], count(part))
    else
      Chunking(s.done, s.current + [part], s.tokens + count(part))
  }

  /** The loop state after the first `n` parts. */
  function ChunkFold(parts: seq<string>, n: nat, maxTokens: int, count: string -> nat): Chunking
    requires n <= |parts|
  {
    if n == 0 then Chunking([], [], 0)
    else ChunkStep(ChunkFold(parts, n - 1, maxTokens, count), parts[n - 1], maxTokens, count)
  }

  /** The chunks, as lists of parts, that the chunking loop produces. */
  function Chunks(parts: seq<string>, maxTokens: int, count: string -> nat): seq<seq<string>>
  {
    var s := ChunkFold(parts, |parts|, maxTokens, count);
    if s.current != [] then s.done + [s.current] else s.done
  }

  /** A chunk holding two or more parts fits in `maxTokens`. */
  predicate Fits(g: seq<string>, maxTokens: int, count: string -> nat)
  {
    |g| >= 2 ==> SumTokens(count, g) <= maxTokens
  }

  /** Chunk `a` was closed because the first part of `b` did not fit in it. */
  predicate Overflows(a: seq<string>, b: seq<string>, maxTokens: int, count: string -> nat)
  {
    b != [] && SumTokens(count, a) + count(b[0]) > maxTokens
  }

  /** Chunk `k + 1` of `groups` starts with a part that did not fit in chunk `k`. */
  predicate OverflowsAt(groups: seq<seq<string>>, k: int, maxTokens: int, count: string -> nat)
    requires 0 <= k < |groups| - 1
  {
    Overflows(groups[k], groups[k + 1], maxTokens, count)
  }

  /** What the chunking loop keeps true after the first `n` parts. */
  predicate ChunkInvariant(s: Chunking, parts: seq<string>, n: nat, maxTokens: int, count: string -> nat)
    requires n <= |parts|
  {
    Flatten(s.done) + s.current == parts[..n]
    && (s.current == [] <==> n == 0)
    && s.tokens == SumTokens(count, s.current)
    && (forall k :: 0 <= k < |s.done| ==> s.done[k] != [] && Fits(s.done[k], maxTokens, count))
    && Fits(s.current, maxTokens, count)
    && (forall k :: 0 <= k < |s.done| - 1 ==> OverflowsAt(s.done, k, maxTokens, count))
    && (s.done != [] ==> Overflows(s.done[|s.done| - 1], s.current, maxTokens, count))
  }

  lemma FlattenAppend(groups: seq<seq<string>>, g: seq<string>)
    ensures Flatten(groups + [g]) == Flatten(groups) + g
  {
    assert (groups + [g])[..|groups|] == groups;
  }

  /** Closing the current chunk keeps the invariant. */
  lemma ChunkStepClose(s: Chunking, parts: seq<string>, n: nat, maxTokens: int, count: string -> nat)
    requires n < |parts| && ChunkInvariant(s, parts, n, maxTokens, count)
    requires s.tokens + count(parts[n]) > maxTokens && s.current != []
    ensures ChunkInvariant(Chunking(s.done + [s.current], [parts[n]], count(parts[n])), parts, n + 1, maxTokens, count)
  {
    var part := parts[n];
    var t := Chunking(s.done + [s.current], [part], count(part));
    assert parts[..n + 1] == parts[..n] + [part];
    FlattenAppend(s.done, s.current);
    assert SumTokens(count, [part]) == count(part) by {
      assert [part][..0] == [];
    }
    assert Overflows(s.current, [part], maxTokens, count);
    forall k | 0 <= k < |t.done| - 1
      ensures OverflowsAt(t.done, k, maxTokens, count)
    {
      if k < |s.done| - 1 {
        assert OverflowsAt(s.done, k, maxTokens, count);
      }
    }
  }

  /** Adding the part to the current chunk keeps the invariant. */
  lemma ChunkStepExtend(s: Chunking, parts: seq<string>, n: nat, maxTokens: int, count: string -> nat)
    requires n < |parts| && ChunkInvariant(s, parts, n, maxTokens, count)
    requires !(s.tokens + count(parts[n]) > maxTokens && s.current != [])
    ensures ChunkInvariant(Chunking(s.done, s.current + [parts[n]], s.tokens + count(parts[n])), parts, n + 1, maxTokens, count)
  {
    var part := parts[n];
    assert parts[..n + 1] == parts[..n] + [part];
    SumTokensAppend(count, s.current, part);
    if s.current != [] && s.done != [] {
      assert (s.current + [part])[0] == s.current[0];
    }
  }

  /** One iteration of the chunking loop keeps its invariant. */
  lemma ChunkStepKeeps(s: Chunking, parts: seq<string>, n: nat, maxTokens: int, count: string -> nat)
    requires n < |parts| && ChunkInvariant(s, parts, n, maxTokens, count)
    ensures ChunkInvariant(ChunkStep(s, parts[n], maxTokens, count), parts, n + 1, maxTokens, count)
  {
    if s.tokens + count(parts[n]) > maxTokens && s.current != [] {
      ChunkStepClose(s, parts, n, maxTokens, count);
    } else {
      ChunkStepExtend(s, parts, n, maxTokens, count);
    }
  }

  lemma {:induction false} ChunkFoldInvariant(parts: seq<string>, n: nat, maxTokens: int, count: string -> nat)
    requires n <= |parts|
    ensures ChunkInvariant(ChunkFold(parts, n, maxTokens, count), parts, n, maxTokens, count)
  {
    if n > 0 {
      ChunkFoldInvariant(parts, n - 1, maxTokens, count);
      ChunkStepKeeps(ChunkFold(parts, n - 1, maxTokens, count), parts, n - 1, maxTokens, count);
    }
  }

  /** What the chunks of `parts` satisfy once the loop is over. */
  predicate ChunksValid(groups: seq<seq<string>>, parts: seq<string>, maxTokens: int, count: string -> nat)
  {
    Flatten(groups) == parts
    && (groups == [] <==> parts == [])
    && (forall k :: 0 <= k < |groups| ==> groups[k] != [] && Fits(groups[k], maxTokens, count))
    && (forall k :: 0 <= k < |groups| - 1 ==> OverflowsAt(groups, k, maxTokens, count))
  }

  /** The chunk still open after the last part is appended to the closed ones. */
  lemma CloseFinalChunk(s: Chunking, parts: seq<string>, maxTokens: int, count: string -> nat)
    requires ChunkInvariant(s, parts, |parts|, maxTokens, count) && s.current != []
    ensures ChunksValid(s.done + [s.current], parts, maxTokens, count)
  {
    FlattenAppend(s.done, s.current);
    var groups := s.done + [s.current];
    forall k | 0 <= k < |groups| - 1
      ensures OverflowsAt(groups, k, maxTokens, count)
    {
      if k < |s.done| - 1 {
        assert OverflowsAt(s.done, k, maxTokens, count);
      }
    }
  }

  lemma ChunksAreValid(parts: seq<string>, maxTokens: int, count: string -> nat)
    ensures ChunksValid(Chunks(parts, maxTokens, count), parts, maxTokens, count)
  {
    ChunkFoldInvariant(parts, |parts|, maxTokens, count);
    var s := ChunkFold(parts, |parts|, maxTokens, count);
    if s.current != [] {
      CloseFinalChunk(s, parts, maxTokens, count);
    }
  }

  /** The chunks partition the parts: concatenated in order they give back
      exactly the parts, and none is empty. */
  lemma ChunksPartition(parts: seq<string>, maxTokens: int, count: string -> nat)
    ensures Flatten(Chunks(parts, maxTokens, count)) == parts
    ensures forall k :: 0 <= k < |Chunks(parts, maxTokens, count)| ==> Chunks(parts, maxTokens, count)[k] != []
    ensures Chunks(parts, maxTokens, count) == [] <==> parts == []
  {
    ChunksAreValid(parts, maxTokens, count);
  }

  /** A chunk goes over `maxTokens` only when it holds a single part. */
  lemma OversizedChunksAreSingletons(parts: seq<string>, maxTokens: int, count: string -> nat)
    ensures forall k :: 0 <= k < |Chunks(parts, maxTokens, count)| ==>
      SumTokens(count, Chunks(parts, maxTokens, count)[k]) > maxTokens ==> |Chunks(parts, maxTokens, count)[k]| == 1
  {
    ChunksAreValid(parts, maxTokens, count);
  }

  /** In a chunk that fits, every part fitted when it was added. */
  lemma FitsAtEveryPart(g: seq<string>, j: nat, maxTokens: int, count: string -> nat)
    requires Fits(g, maxTokens, count) && 1 <= j < |g|
    ensures SumTokens(count, g[..j]) + count(g[j]) <= maxTokens
  {
    SumTokensAppend(count, g[..j], g[j]);
    assert g[..j] + [g[j]] == g[..j + 1];
    SumTokensPrefix(count, g, j + 1);
  }

  /** The chunking is greedy: inside a chunk every part fitted when it was
      added, and every chunk after the first starts with a part that would
      have taken the previous chunk over `maxTokens`. */
  lemma ChunksGreedy(parts: seq<string>, maxTokens: int, count: string -> nat)
    ensures var groups := Chunks(parts, maxTokens, count);
      forall k, j :: 0 <= k < |groups| && 1 <= j < |groups[k]| ==>
        SumTokens(count, groups[k][..j]) + count(groups[k][j]) <= maxTokens
    ensures var groups := Chunks(parts, maxTokens, count);
      forall k :: 0 <= k < |groups| - 1 ==> OverflowsAt(groups, k, maxTokens, count)
  {
    ChunksAreValid(parts, maxTokens, count);
    var groups := Chunks(parts, maxTokens, count);
    forall k, j | 0 <= k < |groups| && 1 <= j < |groups[k]|
      ensures SumTokens(count, groups[k][..j]) + count(groups[k][j]) <= maxTokens
    {
      FitsAtEveryPart(groups[k], j, maxTokens, count);
    }
  }

  /** `", ".join` of each chunk. */
  function JoinChunks(groups: seq<seq<string>>): (r: seq<string>)
    ensures |r| == |groups|
    ensures forall k :: 0 <= k < |groups| ==> r[k] == Join(groups[k], ", ")
  {
    if groups == [] then [] else JoinChunks(groups[..|groups| - 1]) + [Join(groups[|groups| - 1], ", ")]
  }

  /** The chunking loop of `build_long_prompt_embeds_for_sdxl`. */
  method ChunkParts(parts: seq<string>, maxTokens: int, count: string -> nat) returns (chunks: seq<string>)
    ensures chunks == JoinChunks(Chunks(parts, maxTokens, count))
  {
    chunks := [];
    ghost var done: seq<seq<string>> := [];
    var currentChunk: seq<string> := [];
    var currentTokens := 0;
    for i := 0 to |parts|
      invariant ChunkFold(parts, i, maxTokens, count) == Chunking(done, currentChunk, currentTokens)
      invariant chunks == JoinChunks(done)
    {
      var part := parts[i];
      var partTokens := count(part);
      if currentTokens + partTokens > maxTokens && currentChunk != [] {
        chunks := chunks + [Join(currentChunk, ", ")];
        done := done + [currentChunk];
        currentChunk := [part];
        currentTokens := partTokens;
      } else {
        currentChunk := currentChunk + [part];
        currentTokens := currentTokens + partTokens;
      }
    }
    if currentChunk != [] {
      chunks := chunks + [Join(currentChunk, ", ")];
      done := done + [currentChunk];
    }
  }

  /** `[p.strip() for p in prompt.split(",")]`. */
  function PromptParts(prompt: string): (parts: seq<string>)
    ensures |parts| == |Split(prompt, ',')| >= 1
    ensures forall k :: 0 <= k < |parts| ==> parts[k] == Strip(Split(prompt, ',')[k])
  {
    StripAll(Split(prompt, ','))
  }

  function StripAll(ps: seq<string>): (r: seq<string>)
    ensures |r| == |ps|
    ensures forall k :: 0 <= k < |ps| ==> r[k] == Strip(ps[k])
  {
    if ps == [] then [] else StripAll(ps[..|ps| - 1]) + [Strip(ps[|ps| - 1])]
  }

  /** What the prompt is encoded as: the encoder is called once per text
      in `encoded`, in order; the conditioning is their outputs
      concatenated, and the pooled embedding is that of `pooledFrom`. */
  datatype PromptEncoding = PromptEncoding(encoded: seq<string>, pooledFrom: string)

  /** `build_long_prompt_embeds_for_sdxl`: a prompt within `maxTokens`
      is encoded whole, in one encoder call; a longer one is cut at its
      commas into greedy chunks, and the pooled embedding is the last
      chunk's. */
  method BuildLongPromptEmbeds(prompt: string, maxTokens: int, count: string -> nat) returns (r: PromptEncoding)
    ensures count(prompt) <= maxTokens ==> r == PromptEncoding([prompt], prompt)
    ensures count(prompt) > maxTokens ==> r.encoded == JoinChunks(Chunks(PromptParts(prompt), maxTokens, count))
    ensures |r.encoded| >= 1 && r.pooledFrom == r.encoded[|r.encoded| - 1]
  {
    var tokenCount := count(prompt);
    if tokenCount <= maxTokens {
      return PromptEncoding([prompt], prompt);
    }
    var parts := PromptParts(prompt);
    var chunks := ChunkParts(parts, maxTokens, count);
    ChunksPartition(parts, maxTokens, count);
    return PromptEncoding(chunks, chunks[|chunks| - 1]);
  }

  // ---------------------------------------------------------------------
  // run_pipe

  /** An embedding tensor, named by what it encodes. */
  datatype Tensor = Tensor(source: string)

  /** The `PromptEmbeds` record that `enable_long_prompt` returns. */
  datatype PromptEmbeds = PromptEmbeds(
    promptEmbeds: Option<Tensor>,
    promptNegEmbeds: Option<Tensor>,
    pooledPromptEmbeds: Option<Tensor>,
    negativePooledPromptEmbeds: Option<Tensor>)

  /** The keyword names `run_pipe` passes to the pipeline. */
  datatype Key =
    ImageKey
    | ConditioningScaleKey
    | GuidanceStartKey
    | GuidanceEndKey
    | PromptEmbedsKey
    | PromptNegEmbedsKey
    | PooledPromptEmbedsKey
    | NegativePooledPromptEmbedsKey
    | PromptKey
    | NegativePromptKey
    | GeneratorKey
    | HeightKey
    | WidthKey
    | GuidanceScaleKey
    | StepsKey

  /** The keyword as spelled in the call. */
  function KeyName(k: Key): string
  {
    match k
    case ImageKey => "image"
    case ConditioningScaleKey => "controlnet_conditioning_scale"
    case GuidanceStartKey => "control_guidance_start"
    case GuidanceEndKey => "control_guidance_end"
    case PromptEmbedsKey => "prompt_embeds"
    case PromptNegEmbedsKey => "prompt_neg_embeds"
    case PooledPromptEmbedsKey => "pooled_prompt_embeds"
    case NegativePooledPromptEmbedsKey => "negative_pooled_prompt_embeds"
    case PromptKey => "prompt"
    case NegativePromptKey => "negative_prompt"
    case GeneratorKey => "generator"
    case HeightKey => "height"
    case WidthKey => "width"
    case GuidanceScaleKey => "guidance_scale"
    case StepsKey => "num_inference_steps"
  }

  /** A keyword argument of the pipeline call. */
  datatype Kwarg =
    | IntArg(i: int)
    | RealArg(x: real)
    | OptRealArg(o: Option<real>)
    | TextArg(s: string)
    | ImagesArg(images: OneOrMany<CondImage>)
    | ScalesArg(scales: OneOrMany<Option<real>>)
    | TensorArg(t: Option<Tensor>)
    | SeededGenerator(seed: int)   // `torch.Generator(...).manual_seed(seed)`

  /** `kw` with the ControlNet arguments added: images and scales each a
      scalar when there is one and the list otherwise, and the control
      guidance window. */
  function WithControl(kw: map<Key, Kwarg>, p: Poses, start: Option<real>, end: Option<real>): map<Key, Kwarg>
  {
    kw[ImageKey := ImagesArg(Shape(p.images))]
      [ConditioningScaleKey := ScalesArg(Shape(p.scales))]
      [GuidanceStartKey := OptRealArg(start)]
      [GuidanceEndKey := OptRealArg(end)]
  }

  /** `kw` with the prompt arguments added: the embeddings when the engine
      has a long-prompt technique (the pooled ones only when present), the
      prompt strings otherwise. */
  function WithPrompts(kw: map<Key, Kwarg>, long: bool, img: Image, embeds: PromptEmbeds): map<Key, Kwarg>
  {
    if long then
      var kw := kw[PromptEmbedsKey := TensorArg(embeds.promptEmbeds)]
        [PromptNegEmbedsKey := TensorArg(embeds.promptNegEmbeds)];
      var kw := if embeds.pooledPromptEmbeds.Some?
        then kw[PooledPromptEmbedsKey := TensorArg(embeds.pooledPromptEmbeds)] else kw;
      if embeds.negativePooledPromptEmbeds.Some?
      then kw[NegativePooledPromptEmbedsKey := TensorArg(embeds.negativePooledPromptEmbeds)] else kw
    else
      kw[PromptKey := TextArg(img.prompt)][NegativePromptKey := TextArg(img.negativePrompt)]
  }

  /** `kw` with the arguments every call has, each the image's value when
      truthy and the engine's otherwise. */
  function WithCommon(kw: map<Key, Kwarg>, st: EngineSettings, img: Image): map<Key, Kwarg>
  {
    kw[GeneratorKey := SeededGenerator(OrInt(img.seed, st.seed))]
      [HeightKey := IntArg(OrInt(img.height, st.height))]
      [WidthKey := IntArg(OrInt(img.width, st.width))]
      [GuidanceScaleKey := RealArg(OrReal(img.guidanceScale, st.guidanceScale))]
      [StepsKey := IntArg(OrInt(img.steps, st.steps))]
  }

  /** The keyword arguments of the pipeline call, given the outcome of the
      control-image assembly (consulted only when the image has control
      images). */
  function PipeKwargs(engine: Engine, img: Image, embeds: PromptEmbeds, prepared: Result<Poses>): (r: Result<map<Key, Kwarg>>)
    ensures r.Err? <==> img.controlImages != [] && prepared.Err?
    ensures r.Err? ==> r.error == prepared.error
  {
    var st := engine.settings;
    if img.controlImages != [] && prepared.Err? then Err(prepared.error)
    else
      var control := if img.controlImages != [] then
        WithControl(map[], prepared.value, OrOptReal(img.controlGuidanceStart, st.controlGuidanceStart),
                    OrOptReal(img.controlGuidanceEnd, st.controlGuidanceEnd))
      else map[];
      Ok(WithCommon(WithPrompts(control, st.longPromptTechnique.Some?, img, embeds), st, img))
  }

  /** `run_pipe` up to the pipeline call: the keyword arguments it passes.
      `embeds` is what `enable_long_prompt` returns for this image and
      engine; it is used only when the engine has a long-prompt technique. */
  method RunPipe(engine: Engine, img: Image, embeds: PromptEmbeds) returns (r: Result<map<Key, Kwarg>>)
    ensures r == PipeKwargs(engine, img, embeds, PrepareAll(engine, img.controlImages))
  {
    var st := engine.settings;
    var seed := OrInt(img.seed, st.seed);
    var guidanceScale := OrReal(img.guidanceScale, st.guidanceScale);
    var numInferenceSteps := OrInt(img.steps, st.steps);
    var controlGuidanceStart := OrOptReal(img.controlGuidanceStart, st.controlGuidanceStart);
    var controlGuidanceEnd := OrOptReal(img.controlGuidanceEnd, st.controlGuidanceEnd);
    var height := OrInt(img.height, st.height);
    var width := OrInt(img.width, st.width);
    var kwargs: map<Key, Kwarg> := map[];

    if |img.controlImages| > 0 {
      var prepared := PreparePoseImages(engine, img);
      if prepared.Err? {
        return Err(prepared.error);
      }
      var images := prepared.value.images;
      var scales := prepared.value.scales;
      if |images| == 1 {
        kwargs := kwargs[ImageKey := ImagesArg(One(images[0]))];
      } else {
        kwargs := kwargs[ImageKey := ImagesArg(Many(images))];
      }
      if |scales| == 1 {
        kwargs := kwargs[ConditioningScaleKey := ScalesArg(One(scales[0]))];
      } else {
        kwargs := kwargs[ConditioningScaleKey := ScalesArg(Many(scales))];
      }
      kwargs := kwargs[GuidanceStartKey := OptRealArg(controlGuidanceStart)];
      kwargs := kwargs[GuidanceEndKey := OptRealArg(controlGuidanceEnd)];
      assert kwargs == WithControl(map[], prepared.value, controlGuidanceStart, controlGuidanceEnd);
    }
    ghost var control := kwargs;

    if st.longPromptTechnique.Some? {
      kwargs := kwargs[PromptEmbedsKey := TensorArg(embeds.promptEmbeds)];
      kwargs := kwargs[PromptNegEmbedsKey := TensorArg(embeds.promptNegEmbeds)];
      if embeds.pooledPromptEmbeds.Some? {
        kwargs := kwargs[PooledPromptEmbedsKey := TensorArg(embeds.pooledPromptEmbeds)];
      }
      if embeds.negativePooledPromptEmbeds.Some? {
        kwargs := kwargs[NegativePooledPromptEmbedsKey := TensorArg(embeds.negativePooledPromptEmbeds)];
      }
    } else {
      kwargs := kwargs[PromptKey := TextArg(img.prompt)];
      kwargs := kwargs[NegativePromptKey := TextArg(img.negativePrompt)];
    }
    assert kwargs == WithPrompts(control, st.longPromptTechnique.Some?, img, embeds);

    kwargs := kwargs[GeneratorKey := SeededGenerator(seed)];
    kwargs := kwargs[HeightKey := IntArg(height)];
    kwargs := kwargs[WidthKey := IntArg(width)];
    kwargs := kwargs[GuidanceScaleKey := RealArg(guidanceScale)];
    kwargs := kwargs[StepsKey := IntArg(numInferenceSteps)];
    return Ok(kwargs);
  }

  /** The keys `run_pipe` always passes. */
  const CommonKeys: set<Key> := {GeneratorKey, HeightKey, WidthKey, GuidanceScaleKey, StepsKey}

  /** The call fails only when the control-image assembly does, and then
      with its error. Seed, height, width, guidance scale and step count are
      always passed, each the image's value when truthy (so 0 or None falls
      back) and the engine's otherwise. */
  lemma RunPipeFallbacks(engine: Engine, img: Image, embeds: PromptEmbeds, prepared: Result<Poses>)
    ensures PipeKwargs(engine, img, embeds, prepared).Err? <==> img.controlImages != [] && prepared.Err?
    ensures PipeKwargs(engine, img, embeds, prepared).Err? ==> PipeKwargs(engine, img, embeds, prepared).error == prepared.error
    ensures PipeKwargs(engine, img, embeds, prepared).Ok? ==>
      var kw := PipeKwargs(engine, img, embeds, prepared).value;
      var st := engine.settings;
      CommonKeys <= kw.Keys
      && kw[GeneratorKey] == SeededGenerator(if TruthyInt(img.seed) then img.seed.value else st.seed)
      && kw[HeightKey] == IntArg(if TruthyInt(img.height) then img.height.value else st.height)
      && kw[WidthKey] == IntArg(if TruthyInt(img.width) then img.width.value else st.width)
      && kw[GuidanceScaleKey] == RealArg(if TruthyReal(img.guidanceScale) then img.guidanceScale.value else st.guidanceScale)
      && kw[StepsKey] == IntArg(if TruthyInt(img.steps) then img.steps.value else st.steps)
  {
  }

  /** The ControlNet arguments are passed exactly when the image has control
      images. */
  lemma RunPipeControlKeys(engine: Engine, img: Image, embeds: PromptEmbeds, prepared: Result<Poses>)
    ensures PipeKwargs(engine, img, embeds, prepared).Ok? ==>
      var kw := PipeKwargs(engine, img, embeds, prepared).value;
      var control := img.controlImages != [];
      (ImageKey in kw <==> control) && (ConditioningScaleKey in kw <==> control)
      && (GuidanceStartKey in kw <==> control) && (GuidanceEndKey in kw <==> control)
  {
  }

  /** With control images, the images and the scales are each passed as a
      scalar when there is one and as the list otherwise, and the guidance
      window falls back to the engine's like the other settings. */
  lemma RunPipeControlArgs(engine: Engine, img: Image, embeds: PromptEmbeds, prepared: Result<Poses>)
    requires img.controlImages != [] && prepared.Ok?
    ensures
      var kw := PipeKwargs(engine, img, embeds, prepared).value;
      var p := prepared.value;
      kw[ImageKey].ImagesArg? && Elements(kw[ImageKey].images) == p.images
      && (kw[ImageKey].images.One? <==> |p.images| == 1)
      && kw[ConditioningScaleKey].ScalesArg?
      && Elements(kw[ConditioningScaleKey].scales) == p.scales
      && (kw[ConditioningScaleKey].scales.One? <==> |p.scales| == 1)
      && kw[GuidanceStartKey]
         == OptRealArg(if TruthyReal(img.controlGuidanceStart) then img.controlGuidanceStart
                       else engine.settings.controlGuidanceStart)
      && kw[GuidanceEndKey]
         == OptRealArg(if TruthyReal(img.controlGuidanceEnd) then img.controlGuidanceEnd
                       else engine.settings.controlGuidanceEnd)
  {
  }

  /** Either the prompt strings or the prompt embeddings are passed, never
      both: the embeddings exactly when the engine has a long-prompt
      technique, the pooled ones only when they are not None. */
  lemma RunPipePromptArgs(engine: Engine, img: Image, embeds: PromptEmbeds, prepared: Result<Poses>)
    ensures PipeKwargs(engine, img, embeds, prepared).Ok? ==>
      var kw := PipeKwargs(engine, img, embeds, prepared).value;
      var long := engine.settings.longPromptTechnique.Some?;
      (PromptKey in kw <==> !long) && (NegativePromptKey in kw <==> !long)
      && (PromptEmbedsKey in kw <==> long) && (PromptNegEmbedsKey in kw <==> long)
      && (PooledPromptEmbedsKey in kw <==> long && embeds.pooledPromptEmbeds.Some?)
      && (NegativePooledPromptEmbedsKey in kw <==> long && embeds.negativePooledPromptEmbeds.Some?)
      && (!long ==> kw[PromptKey] == TextArg(img.prompt) && kw[NegativePromptKey] == TextArg(img.negativePrompt))
      && (long ==> kw[PromptEmbedsKey] == TensorArg(embeds.promptEmbeds)
                   && kw[PromptNegEmbedsKey] == TensorArg(embeds.promptNegEmbeds))
  {
  }
}
