/** `JobRepo`: stores a job with its images and control images, writes the
    control-image files, updates a job's status and deletes jobs with
    their rows. Fresh file names (uuid4) come in as `Names`. */
module JobRepo {
  import opened Base
  import opened Enums
  import opened Schemas
  import opened Store
  import AIModelRepo

  /** One requested control image; `data` stands for its base64 payload. */
  datatype ControlImageInput = ControlImageInput(
    aimodelId: Option<int>,
    data: string,
    controlnetConditioningScale: Option<real>,
    cannyLowThreshold: Option<int>,
    cannyHighThreshold: Option<int>)

  /** One requested image. */
  datatype ImageInput = ImageInput(
    prompt: string,
    negativePrompt: string,
    name: Option<string>,
    seed: Option<int>,
    guidanceScale: Option<real>,
    width: Option<int>,
    height: Option<int>,
    steps: Option<int>,
    controlImages: seq<ControlImageInput>,
    fileType: FileImageType,
    controlGuidanceStart: Option<real>,
    controlGuidanceEnd: Option<real>)

  /** The request to create a job; `ipAdapterConfig` stands for its JSON dictionary. */
  datatype JobInput = JobInput(generatorId: int, images: seq<ImageInput>, ipAdapterConfig: Option<string>)

  /** The uuid4 strings `create` draws: one per image (by image position)
      and one per control image (by image and control-image position). */
  datatype Names = Names(image: nat -> string, pose: (nat, nat) -> string)

  const JobIsNotFound: Error := Raise("job-is-not-found", Some(404))
  const JobNotFound: Error := Raise("job-not-found", Some(404))

  /** `os.path.join(folder, name)` on POSIX: an absolute `name` replaces
      the folder; otherwise a separator is added unless the folder is
      empty or already ends with one. */
  function PathJoin(folder: string, name: string): (p: string)
  {
    if |name| > 0 && name[0] == '/' then name
    else if folder == [] || folder[|folder| - 1] == '/' then folder + name
    else folder + "/" + name
  }

  /** Whatever the folder, the name ends the joined path, and an absolute
      name is the whole of it. */
  lemma PathJoinEndsWithName(folder: string, name: string)
    ensures |name| > 0 && name[0] == '/' ==> PathJoin(folder, name) == name
    ensures var p := PathJoin(folder, name); |p| >= |name| && p[|p| - |name|..] == name
  {
    var p := PathJoin(folder, name);
    if !(|name| > 0 && name[0] == '/') {
      if folder == [] || folder[|folder| - 1] == '/' {
        assert p == folder + name;
      } else {
        assert p == (folder + "/") + name;
      }
    }
  }

  /** A relative name ends the joined path, and the folder begins it. */
  lemma PathJoinParts(folder: string, name: string)
    requires |name| > 0 && name[0] != '/'
    ensures |PathJoin(folder, name)| >= |folder| + |name|
    ensures PathJoin(folder, name)[..|folder|] == folder
    ensures PathJoin(folder, name)[|PathJoin(folder, name)| - |name|..] == name
  {
    var p := PathJoin(folder, name);
    if folder == [] || folder[|folder| - 1] == '/' {
      assert p == folder + name;
    } else {
      assert p == folder + "/" + name;
      assert p[|p| - |name|..] == name;
    }
  }

  /** An optional integer column written only when the input value is truthy. */
  function IfTruthyInt(x: Option<int>): (r: Option<int>)
    ensures r.Some? <==> TruthyInt(x)
    ensures r.Some? ==> r == x
  {
    if TruthyInt(x) then x else None
  }

  /** An optional float column written only when the input value is truthy. */
  function IfTruthyReal(x: Option<real>): (r: Option<real>)
    ensures r.Some? <==> TruthyReal(x)
    ensures r.Some? ==> r == x
  {
    if TruthyReal(x) then x else None
  }

  /** The `job` row `create` should store: the generator, the default
      status and the IP-adapter configuration of the request. */
  function JobRowOf(input: JobInput, id: int): JobRow
  {
    JobRow(id, input.generatorId, Waiting, input.ipAdapterConfig)
  }

  /** The `job` row the code as written stores: `Job.create` is given only
      the generator, so the IP-adapter configuration is not kept. */
  function JobRowAsWritten(input: JobInput, id: int): JobRow
  {
    JobRow(id, input.generatorId, Waiting, None)
  }

  /** A request with an IP-adapter configuration loses it as written. */
  lemma IpAdapterConfigLostAsWritten(input: JobInput, id: int)
    requires input.ipAdapterConfig.Some?
    ensures JobRowAsWritten(input, id).ipAdapterConfig.None?
    ensures JobRowAsWritten(input, id) != JobRowOf(input, id)
  {
  }

  /** The `image` row for one requested image: its file is named by the
      uuid and the file type; the optional columns hold the truthy values. */
  function ImageRowOf(folder: string, generatorId: int, jobId: int, id: int, uuid: string, img: ImageInput): ImageRow
  {
    ImageRow(id, generatorId, jobId, PathJoin(folder, uuid + "." + FileTypeValue(img.fileType)),
      img.prompt, img.negativePrompt, img.fileType,
      IfTruthyInt(img.seed), IfTruthyReal(img.guidanceScale), IfTruthyInt(img.width), IfTruthyInt(img.height),
      IfTruthyInt(img.steps), IfTruthyReal(img.controlGuidanceStart), IfTruthyReal(img.controlGuidanceEnd), false)
  }

  /** The stored image file is named by the uuid and the file type, and
      the image is not ready yet. */
  lemma ImageRowFile(folder: string, generatorId: int, jobId: int, id: int, uuid: string, img: ImageInput)
    ensures var r := ImageRowOf(folder, generatorId, jobId, id, uuid, img);
      var file := uuid + "." + FileTypeValue(img.fileType);
      |r.filePath| >= |file| && r.filePath[|r.filePath| - |file|..] == file && !r.ready
  {
    PathJoinEndsWithName(folder, uuid + "." + FileTypeValue(img.fileType));
  }

  /** The `control_net_image` row for one requested control image. */
  function ControlRowOf(folder: string, imageId: int, jobId: int, id: int, uuid: string, ci: ControlImageInput): (c: ControlImageRow)
    ensures c.id == id && c.imageId == imageId && c.jobId == jobId
  {
    ControlImageRow(id, imageId, jobId, ci.aimodelId, ci.controlnetConditioningScale,
      PathJoin(folder, "pose-" + uuid), ci.cannyLowThreshold, ci.cannyHighThreshold)
  }

  /** The control rows of image `k`, numbered from `first`. */
  function ControlRows(folder: string, imageId: int, jobId: int, first: int, k: nat, cis: seq<ControlImageInput>, names: Names)
    : (r: seq<ControlImageRow>)
    ensures |r| == |cis|
  {
    seq(|cis|, j requires 0 <= j < |cis| => ControlRowOf(folder, imageId, jobId, first + j, names.pose(k, j), cis[j]))
  }

  /** The control rows of an image are keyed consecutively from `first`
      and refer to the image and the job. */
  lemma ControlRowsKeys(folder: string, imageId: int, jobId: int, first: int, k: nat, cis: seq<ControlImageInput>, names: Names, j: nat)
    requires j < |cis|
    ensures var c := ControlRows(folder, imageId, jobId, first, k, cis, names)[j];
      c.id == first + j && c.imageId == imageId && c.jobId == jobId
  {
    var r := ControlRows(folder, imageId, jobId, first, k, cis, names);
    assert r[j] == ControlRowOf(folder, imageId, jobId, first + j, names.pose(k, j), cis[j]);
  }

  /** The control rows of one more control image end with its row. */
  lemma ControlRowsSnoc(folder: string, imageId: int, jobId: int, first: int, k: nat, cis: seq<ControlImageInput>, names: Names, j: nat)
    requires j < |cis|
    ensures ControlRows(folder, imageId, jobId, first, k, cis[..j + 1], names)
      == ControlRows(folder, imageId, jobId, first, k, cis[..j], names)
         + [ControlRowOf(folder, imageId, jobId, first + j, names.pose(k, j), cis[j])]
  {
    var a := ControlRows(folder, imageId, jobId, first, k, cis[..j + 1], names);
    var b := ControlRows(folder, imageId, jobId, first, k, cis[..j], names);
    var c := b + [ControlRowOf(folder, imageId, jobId, first + j, names.pose(k, j), cis[j])];
    forall i | 0 <= i < |a|
      ensures a[i] == c[i]
    {
      assert cis[..j + 1][i] == cis[i];
      if i < j {
        assert cis[..j][i] == cis[i];
        assert c[i] == b[i];
      }
    }
  }

  function FilePaths(cs: seq<ControlImageRow>): (r: seq<string>)
    ensures |r| == |cs|
  {
    seq(|cs|, j requires 0 <= j < |cs| => cs[j].filePath)
  }

  /** The paths of a sequence, as a set. */
  function PathSet(ps: seq<string>): (r: set<string>)
    ensures forall p :: p in r <==> p in ps
  {
    set p | p in ps
  }

  /** The set of the paths in `a + b`. */
  lemma PathSetAppend(a: seq<string>, b: seq<string>)
    ensures PathSet(a + b) == PathSet(a) + PathSet(b)
  {
  }

  /** The paths of `a + b` are those of `a`, then those of `b`. */
  lemma FilePathsAppend(a: seq<ControlImageRow>, b: seq<ControlImageRow>)
    ensures FilePaths(a + b) == FilePaths(a) + FilePaths(b)
  {
    assert forall j :: 0 <= j < |a| ==> (a + b)[j] == a[j];
    assert forall j :: |a| <= j < |a| + |b| ==> (a + b)[j] == b[j - |a|];
  }

  /** `serialize_image` for one control row: the model it names, looked up
      when the id is truthy, its file, its scale and its thresholds. */
  function SerializeControl(aimodels: seq<AIModel>, c: ControlImageRow): ControlNetImage
  {
    ControlNetImage(
      if TruthyInt(c.aimodelId) then AIModelRepo.GetOrNone(aimodels, c.aimodelId.value) else None,
      c.filePath, c.controlnetConditioningScale, c.cannyLowThreshold, c.cannyHighThreshold)
  }

  /** `serialize_image` for one control row as written: the schema is
      built without the canny thresholds, so they are always None. */
  function SerializeControlAsWritten(aimodels: seq<AIModel>, c: ControlImageRow): ControlNetImage
  {
    ControlNetImage(
      if TruthyInt(c.aimodelId) then AIModelRepo.GetOrNone(aimodels, c.aimodelId.value) else None,
      c.filePath, c.controlnetConditioningScale, None, None)
  }

  /** As written a stored canny threshold never reaches the schema the
      worker reads. */
  lemma CannyThresholdsLostAsWritten(aimodels: seq<AIModel>, c: ControlImageRow)
    requires c.cannyLowThreshold.Some?
    ensures SerializeControlAsWritten(aimodels, c).cannyLowThreshold.None?
    ensures SerializeControlAsWritten(aimodels, c) != SerializeControl(aimodels, c)
  {
  }

  /** `serialize_image`: the image row's columns and its control rows, in order. */
  function SerializeImage(aimodels: seq<AIModel>, row: ImageRow, cs: seq<ControlImageRow>): (r: Image)
    ensures r.id == Some(row.id) && r.filePath == row.filePath
    ensures |r.controlImages| == |cs|
    ensures forall j :: 0 <= j < |cs| ==> r.controlImages[j].imageFilePath == cs[j].filePath
  {
    Image(Some(row.id), row.jobId, row.generatorId, row.prompt, row.negativePrompt, row.ready, row.filePath, None,
      row.seed, row.guidanceScale, row.width, row.height, row.steps,
      seq(|cs|, j requires 0 <= j < |cs| => SerializeControl(aimodels, cs[j])),
      row.fileType, row.controlGuidanceStart, row.controlGuidanceEnd)
  }

  /** The rows one requested image leads to. */
  datatype Made = Made(row: ImageRow, controls: seq<ControlImageRow>)

  /** Image `k` of the request stored under `id`, its control rows after it. */
  function MakeImage(folder: string, input: JobInput, jobId: int, k: nat, names: Names, id: int): (m: Made)
    requires k < |input.images|
    ensures |m.controls| == |input.images[k].controlImages|
  {
    var img := input.images[k];
    Made(ImageRowOf(folder, input.generatorId, jobId, id, names.image(k), img),
      ControlRows(folder, id, jobId, id + 1, k, img.controlImages, names))
  }

  /** The key image `k` of the request gets when the job's key is `jobId`:
      the keys are drawn in turn, by the job, then by each image followed
      by its control images. */
  function Offset(input: JobInput, jobId: int, k: nat): (r: int)
    requires k <= |input.images|
    ensures r > jobId
  {
    if k == 0 then jobId + 1
    else Offset(input, jobId, k - 1) + 1 + |input.images[k - 1].controlImages|
  }

  /** The rows image `k` of the request leads to. */
  function MadeAt(folder: string, input: JobInput, jobId: int, k: nat, names: Names): (m: Made)
    requires k < |input.images|
  {
    MakeImage(folder, input, jobId, k, names, Offset(input, jobId, k))
  }

  /** The image rows of the first `n` requested images, in request order. */
  function ImageRows(folder: string, input: JobInput, jobId: int, n: nat, names: Names): (r: seq<ImageRow>)
    requires n <= |input.images|
    ensures |r| == n
  {
    seq(n, k requires 0 <= k < n => MadeAt(folder, input, jobId, k, names).row)
  }

  /** The schemas `create` returns for the first `n` requested images. */
  function ImageSchemas(aimodels: seq<AIModel>, folder: string, input: JobInput, jobId: int, n: nat, names: Names)
    : (r: seq<Image>)
    requires n <= |input.images|
    ensures |r| == n
  {
    seq(n, k requires 0 <= k < n =>
      var m := MadeAt(folder, input, jobId, k, names); SerializeImage(aimodels, m.row, m.controls))
  }

  /** The control rows of the first `n` requested images, in order. */
  function ControlRowsUpTo(folder: string, input: JobInput, jobId: int, n: nat, names: Names): seq<ControlImageRow>
    requires n <= |input.images|
  {
    if n == 0 then []
    else ControlRowsUpTo(folder, input, jobId, n - 1, names) + MadeAt(folder, input, jobId, n - 1, names).controls
  }

  /** Later images get larger keys, above all keys of an earlier image's control rows. */
  lemma {:induction false} OffsetGrows(input: JobInput, jobId: int, k: nat, l: nat)
    requires k < l <= |input.images|
    ensures Offset(input, jobId, k) + 1 + |input.images[k].controlImages| <= Offset(input, jobId, l)
  {
    if k < l - 1 {
      OffsetGrows(input, jobId, k, l - 1);
    }
  }

  /** A control row of image `k` stored under `id` is tied to that image
      and the job, with a key after the image's and before the next one. */
  lemma ControlOfImage(folder: string, input: JobInput, jobId: int, k: nat, names: Names, id: int, c: ControlImageRow)
    requires k < |input.images|
    requires c in MakeImage(folder, input, jobId, k, names, id).controls
    ensures c.imageId == id && c.jobId == jobId
    ensures id < c.id < id + 1 + |input.images[k].controlImages|
  {
    var cs := ControlRows(folder, id, jobId, id + 1, k, input.images[k].controlImages, names);
    assert cs == MakeImage(folder, input, jobId, k, names, id).controls;
    var j :| 0 <= j < |cs| && cs[j] == c;
    ControlRowsKeys(folder, id, jobId, id + 1, k, input.images[k].controlImages, names, j);
  }

  /** `create` keys the images after the job, each above the previous
      one, all below the counter it leaves; each image row is that of the
      request at its position, for the new job and the request's generator. */
  lemma ImageKeys(folder: string, input: JobInput, jobId: int, names: Names)
    ensures var n := |input.images|; var rows := ImageRows(folder, input, jobId, n, names);
      (forall k :: 0 <= k < n ==> rows[k].id == Offset(input, jobId, k) && jobId < rows[k].id < Offset(input, jobId, n))
      && (forall k, l :: 0 <= k < l < n ==> rows[k].id < rows[l].id)
      && (forall k :: 0 <= k < n ==> rows[k].jobId == jobId && rows[k].generatorId == input.generatorId)
  {
    var n := |input.images|;
    forall k, l | 0 <= k < l <= n
      ensures Offset(input, jobId, k) + 1 + |input.images[k].controlImages| <= Offset(input, jobId, l)
    {
      OffsetGrows(input, jobId, k, l);
    }
  }

  /** Every control row `create` stores belongs to the new job and to one
      of its new images, under a key between the job's and the counter it
      leaves. */
  /** A control row of the job `jobId` keyed before the counter after `n`
      images and tied to one of those images. */
  predicate KeyedControl(input: JobInput, jobId: int, n: nat, c: ControlImageRow)
    requires n <= |input.images|
  {
    c.jobId == jobId && jobId < c.id < Offset(input, jobId, n)
    && exists k :: 0 <= k < n && c.imageId == Offset(input, jobId, k)
  }

  lemma {:induction false} ControlKeys(folder: string, input: JobInput, jobId: int, n: nat, names: Names)
    requires n <= |input.images|
    ensures forall c :: c in ControlRowsUpTo(folder, input, jobId, n, names) ==> KeyedControl(input, jobId, n, c)
  {
    if n > 0 {
      ControlKeys(folder, input, jobId, n - 1, names);
      var prev := ControlRowsUpTo(folder, input, jobId, n - 1, names);
      var m := MadeAt(folder, input, jobId, n - 1, names);
      assert ControlRowsUpTo(folder, input, jobId, n, names) == prev + m.controls;
      forall c | c in ControlRowsUpTo(folder, input, jobId, n, names)
        ensures KeyedControl(input, jobId, n, c)
      {
        assert c in prev + m.controls;
        if c in m.controls {
          ControlOfImage(folder, input, jobId, n - 1, names, Offset(input, jobId, n - 1), c);
          assert Offset(input, jobId, n) == Offset(input, jobId, n - 1) + 1 + |input.images[n - 1].controlImages|;
          assert 0 <= n - 1 < n && c.imageId == Offset(input, jobId, n - 1);
        } else {
          assert c in prev && KeyedControl(input, jobId, n - 1, c);
          OffsetGrows(input, jobId, n - 1, n);
          var k :| 0 <= k < n - 1 && c.imageId == Offset(input, jobId, k);
          assert 0 <= k < n;
        }
      }
    }
  }

  /** Adding the next image extends the image rows by its own. */
  lemma ImageRowsNext(folder: string, input: JobInput, jobId: int, i: nat, names: Names)
    requires i < |input.images|
    ensures ImageRows(folder, input, jobId, i + 1, names)
      == ImageRows(folder, input, jobId, i, names) + [MadeAt(folder, input, jobId, i, names).row]
  {
    var rows, rows' := ImageRows(folder, input, jobId, i, names), ImageRows(folder, input, jobId, i + 1, names);
    assert forall k :: 0 <= k < i ==> rows'[k] == rows[k];
  }

  /** Adding the next image extends the schemas by its own. */
  lemma ImageSchemasNext(aimodels: seq<AIModel>, folder: string, input: JobInput, jobId: int, i: nat, names: Names)
    requires i < |input.images|
    ensures var m := MadeAt(folder, input, jobId, i, names);
      ImageSchemas(aimodels, folder, input, jobId, i + 1, names)
      == ImageSchemas(aimodels, folder, input, jobId, i, names) + [SerializeImage(aimodels, m.row, m.controls)]
  {
    var ss, ss' := ImageSchemas(aimodels, folder, input, jobId, i, names), ImageSchemas(aimodels, folder, input, jobId, i + 1, names);
    assert forall k :: 0 <= k < i ==> ss'[k] == ss[k];
  }

  /** Adding the next image extends the rows, the schemas and the written
      paths by its own. */
  lemma UpToNext(aimodels: seq<AIModel>, folder: string, input: JobInput, jobId: int, i: nat, names: Names)
    requires i < |input.images|
    ensures var m := MadeAt(folder, input, jobId, i, names);
      ImageRows(folder, input, jobId, i + 1, names) == ImageRows(folder, input, jobId, i, names) + [m.row]
      && ImageSchemas(aimodels, folder, input, jobId, i + 1, names)
         == ImageSchemas(aimodels, folder, input, jobId, i, names) + [SerializeImage(aimodels, m.row, m.controls)]
      && ControlRowsUpTo(folder, input, jobId, i + 1, names) == ControlRowsUpTo(folder, input, jobId, i, names) + m.controls
      && FilePaths(ControlRowsUpTo(folder, input, jobId, i + 1, names))
         == FilePaths(ControlRowsUpTo(folder, input, jobId, i, names)) + FilePaths(m.controls)
  {
    ImageRowsNext(folder, input, jobId, i, names);
    ImageSchemasNext(aimodels, folder, input, jobId, i, names);
    FilePathsAppend(ControlRowsUpTo(folder, input, jobId, i, names), MadeAt(folder, input, jobId, i, names).controls);
  }

  /** What `create` returns for an image is what was asked: the prompts,
      the truthy optional values, the file type and, per control image in
      order, its scale, its thresholds and the file written for it. */
  lemma ReturnedImage(aimodels: seq<AIModel>, folder: string, input: JobInput, jobId: int, k: nat, names: Names, id: int)
    requires k < |input.images|
    ensures var m := MakeImage(folder, input, jobId, k, names, id);
      var s := SerializeImage(aimodels, m.row, m.controls);
      var img := input.images[k];
      s.id == Some(id) && s.jobId == jobId && s.generatorId == input.generatorId
      && s.prompt == img.prompt && s.negativePrompt == img.negativePrompt && s.fileType == img.fileType
      && s.seed == IfTruthyInt(img.seed) && s.guidanceScale == IfTruthyReal(img.guidanceScale)
      && s.width == IfTruthyInt(img.width) && s.height == IfTruthyInt(img.height) && s.steps == IfTruthyInt(img.steps)
      && s.controlGuidanceStart == IfTruthyReal(img.controlGuidanceStart)
      && s.controlGuidanceEnd == IfTruthyReal(img.controlGuidanceEnd)
      && |s.controlImages| == |img.controlImages|
      && forall j :: 0 <= j < |img.controlImages| ==>
           s.controlImages[j].controlnetConditioningScale == img.controlImages[j].controlnetConditioningScale
           && s.controlImages[j].cannyLowThreshold == img.controlImages[j].cannyLowThreshold
           && s.controlImages[j].cannyHighThreshold == img.controlImages[j].cannyHighThreshold
           && s.controlImages[j].imageFilePath == PathJoin(folder, "pose-" + names.pose(k, j))
  {
    var m := MakeImage(folder, input, jobId, k, names, id);
    var s := SerializeImage(aimodels, m.row, m.controls);
    forall j | 0 <= j < |input.images[k].controlImages|
      ensures s.controlImages[j] == SerializeControl(aimodels, m.controls[j])
      ensures m.controls[j] == ControlRowOf(folder, id, jobId, id + 1 + j, names.pose(k, j), input.images[k].controlImages[j])
    {
    }
  }

  /** `Job.create(...)`: the job row under the next key. */
  method InsertJob(db: Database, row: JobRow)
    requires db.Valid() && row.id == db.nextId
    modifies db
    ensures db.Valid()
    ensures db.jobs == old(db.jobs) + [row] && db.nextId == old(db.nextId) + 1
    ensures db.aimodels == old(db.aimodels) && db.engines == old(db.engines) && db.links == old(db.links)
    ensures db.generators == old(db.generators) && db.images == old(db.images) && db.controlImages == old(db.controlImages)
  {
    AppendFresh(db.jobs, (r: JobRow) => r.id, row, db.nextId);
    db.jobs := db.jobs + [row];
    db.nextId := db.nextId + 1;
  }

  /** `Image.create(**kwargs)`: the image row under the next key. */
  method InsertImage(db: Database, row: ImageRow)
    requires db.Valid() && row.id == db.nextId && row.jobId < db.nextId
    modifies db
    ensures db.Valid()
    ensures db.images == old(db.images) + [row] && db.nextId == old(db.nextId) + 1
    ensures db.aimodels == old(db.aimodels) && db.engines == old(db.engines) && db.links == old(db.links)
    ensures db.generators == old(db.generators) && db.jobs == old(db.jobs) && db.controlImages == old(db.controlImages)
  {
    AppendFresh(db.images, (r: ImageRow) => r.id, row, db.nextId);
    db.images := db.images + [row];
    db.nextId := db.nextId + 1;
  }

  /** `ControlNetImage.create(...)`: the control row under the next key. */
  method InsertControlImage(db: Database, row: ControlImageRow)
    requires db.Valid() && row.id == db.nextId && row.imageId < db.nextId
    modifies db
    ensures db.Valid()
    ensures db.controlImages == old(db.controlImages) + [row] && db.nextId == old(db.nextId) + 1
    ensures db.aimodels == old(db.aimodels) && db.engines == old(db.engines) && db.links == old(db.links)
    ensures db.generators == old(db.generators) && db.jobs == old(db.jobs) && db.images == old(db.images)
  {
    AppendFresh(db.controlImages, (r: ControlImageRow) => r.id, row, db.nextId);
    db.controlImages := db.controlImages + [row];
    db.nextId := db.nextId + 1;
  }

  /** The control images of image `k`: each one's file is written, then
      its row is stored. */
  method CreateControls(db: Database, fs: FileSystem, folder: string, imageId: int, jobId: int, k: nat,
                        cis: seq<ControlImageInput>, names: Names) returns (rows: seq<ControlImageRow>)
    requires db.Valid() && imageId < db.nextId
    modifies db, fs
    ensures db.Valid()
    ensures rows == ControlRows(folder, imageId, jobId, old(db.nextId), k, cis, names)
    ensures db.controlImages == old(db.controlImages) + rows && db.nextId == old(db.nextId) + |cis|
    ensures fs.files == old(fs.files) + PathSet(FilePaths(rows))
    ensures db.aimodels == old(db.aimodels) && db.engines == old(db.engines) && db.links == old(db.links)
    ensures db.generators == old(db.generators) && db.jobs == old(db.jobs) && db.images == old(db.images)
  {
    var first := db.nextId;
    rows := [];
    for j := 0 to |cis|
      invariant db.Valid()
      invariant ControlsUpTo(db.nextId, db.controlImages, fs.files, old(db.controlImages), old(fs.files), rows,
                             folder, imageId, jobId, first, k, cis, names, j)
      invariant db.aimodels == old(db.aimodels) && db.engines == old(db.engines) && db.links == old(db.links)
      invariant db.generators == old(db.generators) && db.jobs == old(db.jobs) && db.images == old(db.images)
    {
      ghost var nextId, controls, files := db.nextId, db.controlImages, fs.files;
      var row := CreateControl(db, fs, folder, imageId, jobId, names.pose(k, j), cis[j]);
      ControlsNext(nextId, controls, files, old(db.controlImages), old(fs.files), rows,
                   folder, imageId, jobId, first, k, cis, names, j, row);
      rows := rows + [row];
    }
    assert cis[..|cis|] == cis;
  }

  /** After the first `j` control images of an image: `rows` are their
      rows, stored after `controls`, their files are added to `files`, and
      the counter is past their keys. */
  predicate ControlsUpTo(nextId: int, dbControls: seq<ControlImageRow>, dbFiles: set<string>,
                         controls: seq<ControlImageRow>, files: set<string>, rows: seq<ControlImageRow>,
                         folder: string, imageId: int, jobId: int, first: int, k: nat, cis: seq<ControlImageInput>,
                         names: Names, j: nat)
  {
    j <= |cis| && nextId == first + j
    && rows == ControlRows(folder, imageId, jobId, first, k, cis[..j], names)
    && dbControls == controls + rows
    && dbFiles == files + PathSet(FilePaths(rows))
  }

  /** Storing control image `j` under the next key moves the state past it. */
  lemma ControlsNext(nextId: int, dbControls: seq<ControlImageRow>, dbFiles: set<string>,
                     controls: seq<ControlImageRow>, files: set<string>, rows: seq<ControlImageRow>,
                     folder: string, imageId: int, jobId: int, first: int, k: nat, cis: seq<ControlImageInput>,
                     names: Names, j: nat, row: ControlImageRow)
    requires j < |cis|
    requires ControlsUpTo(nextId, dbControls, dbFiles, controls, files, rows, folder, imageId, jobId, first, k, cis, names, j)
    requires row == ControlRowOf(folder, imageId, jobId, nextId, names.pose(k, j), cis[j])
    ensures ControlsUpTo(nextId + 1, dbControls + [row], dbFiles + {row.filePath}, controls, files, rows + [row],
                         folder, imageId, jobId, first, k, cis, names, j + 1)
  {
    ControlRowsSnoc(folder, imageId, jobId, first, k, cis, names, j);
    FilePathsAppend(rows, [row]);
    assert FilePaths([row]) == [row.filePath];
    PathSetAppend(FilePaths(rows), [row.filePath]);
  }

  /** One control image: its file is written under "pose-" and the uuid,
      then its row is stored under the next key. */
  method CreateControl(db: Database, fs: FileSystem, folder: string, imageId: int, jobId: int, uuid: string,
                       ci: ControlImageInput) returns (row: ControlImageRow)
    requires db.Valid() && imageId < db.nextId
    modifies db, fs
    ensures db.Valid()
    ensures row == ControlRowOf(folder, imageId, jobId, old(db.nextId), uuid, ci)
    ensures db.controlImages == old(db.controlImages) + [row] && db.nextId == old(db.nextId) + 1
    ensures fs.files == old(fs.files) + {row.filePath}
    ensures db.aimodels == old(db.aimodels) && db.engines == old(db.engines) && db.links == old(db.links)
    ensures db.generators == old(db.generators) && db.jobs == old(db.jobs) && db.images == old(db.images)
  {
    var path := PathJoin(folder, "pose-" + uuid);
    fs.Write(path);
    row := ControlImageRow(db.nextId, imageId, jobId, ci.aimodelId, ci.controlnetConditioningScale,
      path, ci.cannyLowThreshold, ci.cannyHighThreshold);
    InsertControlImage(db, row);
  }

  /** One requested image: its row with the truthy optional columns, then
      its control images, then the schema read back from them. */
  method CreateImage(db: Database, fs: FileSystem, folder: string, input: JobInput, jobId: int, k: nat, names: Names)
    returns (m: Made, s: Image)
    requires db.Valid() && k < |input.images| && jobId < db.nextId
    modifies db, fs
    ensures db.Valid()
    ensures m == MakeImage(folder, input, jobId, k, names, old(db.nextId))
    ensures s == SerializeImage(db.aimodels, m.row, m.controls)
    ensures db.images == old(db.images) + [m.row] && db.controlImages == old(db.controlImages) + m.controls
    ensures db.nextId == old(db.nextId) + 1 + |m.controls|
    ensures fs.files == old(fs.files) + PathSet(FilePaths(m.controls))
    ensures db.aimodels == old(db.aimodels) && db.engines == old(db.engines) && db.links == old(db.links)
    ensures db.generators == old(db.generators) && db.jobs == old(db.jobs)
  {
    var img := input.images[k];
    var row := ImageRowOf(folder, input.generatorId, jobId, db.nextId, names.image(k), img);
    InsertImage(db, row);
    var cs := CreateControls(db, fs, folder, row.id, jobId, k, img.controlImages, names);
    m := Made(row, cs);
    s := SerializeImage(db.aimodels, row, cs);
  }

  /** After the first `i` requested images: the image rows, control rows
      and files are `images`, `controls` and `files` followed by theirs,
      and the counter is past their keys. */
  predicate StoredUpTo(nextId: int, dbImages: seq<ImageRow>, dbControls: seq<ControlImageRow>, dbFiles: set<string>,
                       folder: string, input: JobInput, jobId: int, names: Names,
                       images: seq<ImageRow>, controls: seq<ControlImageRow>, files: set<string>, i: nat)
    requires i <= |input.images|
  {
    nextId == Offset(input, jobId, i)
    && dbImages == images + ImageRows(folder, input, jobId, i, names)
    && dbControls == controls + ControlRowsUpTo(folder, input, jobId, i, names)
    && dbFiles == files + PathSet(FilePaths(ControlRowsUpTo(folder, input, jobId, i, names)))
  }

  /** Storing image `i` under the next key moves the state past it. */
  lemma StoredNext(nextId: int, dbImages: seq<ImageRow>, dbControls: seq<ControlImageRow>, dbFiles: set<string>,
                   folder: string, input: JobInput, jobId: int, names: Names,
                   images: seq<ImageRow>, controls: seq<ControlImageRow>, files: set<string>, i: nat, m: Made)
    requires i < |input.images|
    requires StoredUpTo(nextId, dbImages, dbControls, dbFiles, folder, input, jobId, names, images, controls, files, i)
    requires m == MakeImage(folder, input, jobId, i, names, nextId)
    ensures m == MadeAt(folder, input, jobId, i, names)
    ensures StoredUpTo(nextId + 1 + |m.controls|, dbImages + [m.row], dbControls + m.controls,
                       dbFiles + PathSet(FilePaths(m.controls)), folder, input, jobId, names, images, controls, files, i + 1)
  {
    var rows, cs := ImageRows(folder, input, jobId, i, names), ControlRowsUpTo(folder, input, jobId, i, names);
    ImageRowsNext(folder, input, jobId, i, names);
    assert images + rows + [m.row] == images + (rows + [m.row]);
    assert controls + cs + m.controls == controls + (cs + m.controls);
    FilePathsAppend(cs, m.controls);
    PathSetAppend(FilePaths(cs), FilePaths(m.controls));
  }

  /** The images of the job `jobId`, in request order, each with its
      control images; returns the schemas read back. */
  method CreateImages(db: Database, fs: FileSystem, folder: string, input: JobInput, jobId: int, names: Names)
    returns (schemas: seq<Image>)
    requires db.Valid() && db.nextId == jobId + 1
    modifies db, fs
    ensures db.Valid()
    ensures var n := |input.images|;
      db.images == old(db.images) + ImageRows(folder, input, jobId, n, names)
      && db.controlImages == old(db.controlImages) + ControlRowsUpTo(folder, input, jobId, n, names)
      && db.nextId == Offset(input, jobId, n)
      && fs.files == old(fs.files) + PathSet(FilePaths(ControlRowsUpTo(folder, input, jobId, n, names)))
      && schemas == ImageSchemas(old(db.aimodels), folder, input, jobId, n, names)
    ensures db.aimodels == old(db.aimodels) && db.engines == old(db.engines) && db.links == old(db.links)
    ensures db.generators == old(db.generators) && db.jobs == old(db.jobs)
  {
    ghost var images0, controls0, files0 := db.images, db.controlImages, fs.files;
    schemas := [];
    for i := 0 to |input.images|
      invariant db.Valid()
      invariant StoredUpTo(db.nextId, db.images, db.controlImages, fs.files, folder, input, jobId, names,
                           images0, controls0, files0, i)
      invariant schemas == ImageSchemas(old(db.aimodels), folder, input, jobId, i, names)
      invariant db.aimodels == old(db.aimodels) && db.engines == old(db.engines) && db.links == old(db.links)
      invariant db.generators == old(db.generators) && db.jobs == old(db.jobs)
    {
      ghost var nextId, images, controls, files := db.nextId, db.images, db.controlImages, fs.files;
      var m, s := CreateImage(db, fs, folder, input, jobId, i, names);
      StoredNext(nextId, images, controls, files, folder, input, jobId, names, images0, controls0, files0, i, m);
      ImageSchemasNext(db.aimodels, folder, input, jobId, i, names);
      schemas := schemas + [s];
    }
  }

  /** `create`: the job row, then each image in order with its control
      images; returns the job with the images read back. */
  method Create(db: Database, fs: FileSystem, folder: string, input: JobInput, names: Names) returns (r: Job)
    requires db.Valid()
    modifies db, fs
    ensures db.Valid()
    ensures var n, jobId := |input.images|, old(db.nextId);
      db.jobs == old(db.jobs) + [JobRowOf(input, jobId)]
      && db.images == old(db.images) + ImageRows(folder, input, jobId, n, names)
      && db.controlImages == old(db.controlImages) + ControlRowsUpTo(folder, input, jobId, n, names)
      && db.nextId == Offset(input, jobId, n)
      && fs.files == old(fs.files) + PathSet(FilePaths(ControlRowsUpTo(folder, input, jobId, n, names)))
      && r == Job.Job(Some(jobId), input.generatorId, ImageSchemas(old(db.aimodels), folder, input, jobId, n, names),
                      Waiting, input.ipAdapterConfig)
    ensures ReadJob(db.aimodels, db.jobs, db.images, db.controlImages, old(db.nextId)) == Some(r)
    ensures db.aimodels == old(db.aimodels) && db.engines == old(db.engines) && db.links == old(db.links)
    ensures db.generators == old(db.generators)
  {
    var jobId := db.nextId;
    CreateReadsBack(db.aimodels, db.jobs, db.images, db.controlImages, folder, input, jobId, names);
    InsertJob(db, JobRowOf(input, jobId));
    var schemas := CreateImages(db, fs, folder, input, jobId, names);
    r := Job.Job(Some(jobId), input.generatorId, schemas, Waiting, input.ipAdapterConfig);
  }

  /** `Image.filter(job_id=jobId)`: the job's image rows in table order. */
  function ImagesOf(images: seq<ImageRow>, jobId: int): seq<ImageRow>
  {
    Filter(images, (r: ImageRow) => r.jobId == jobId)
  }

  /** `ControlNetImage.filter(image_id=imageId)`: the image's control rows in table order. */
  function ControlsOf(controls: seq<ControlImageRow>, imageId: int): seq<ControlImageRow>
  {
    Filter(controls, (c: ControlImageRow) => c.imageId == imageId)
  }

  /** The schemas of a job's images read back: each image row of the job,
      in table order, serialized with its control rows. */
  function JobImages(aimodels: seq<AIModel>, images: seq<ImageRow>, controls: seq<ControlImageRow>, jobId: int)
    : (r: seq<Image>)
    ensures |r| == |ImagesOf(images, jobId)|
  {
    var imgs := ImagesOf(images, jobId);
    seq(|imgs|, k requires 0 <= k < |imgs| => SerializeImage(aimodels, imgs[k], ControlsOf(controls, imgs[k].id)))
  }

  /** `Job.get_or_none(id=id)`: the first job row with that id. */
  function FindJob(jobs: seq<JobRow>, id: int): (r: Option<JobRow>)
    ensures r.Some? ==> r.value in jobs && r.value.id == id
    ensures r.None? <==> forall j :: j in jobs ==> j.id != id
  {
    if jobs == [] then None
    else if jobs[0].id == id then Some(jobs[0])
    else FindJob(jobs[1..], id)
  }

  /** The schema of a stored job: its columns, the IP-adapter
      configuration included, and its images read back. */
  function JobSchemaOf(row: JobRow, images: seq<Image>): (r: Job)
  {
    Job.Job(Some(row.id), row.generatorId, images, row.status, row.ipAdapterConfig)
  }

  /** The schema of a stored job as written: `JobSchema` is built without
      the IP-adapter configuration, so it is always None. */
  function JobSchemaAsWritten(row: JobRow, images: seq<Image>): (r: Job)
  {
    Job.Job(Some(row.id), row.generatorId, images, row.status, None)
  }

  /** As written no job schema carries an IP-adapter configuration, so the
      worker's IP-adapter branch (taken only when it is not None) is never
      reached, whatever the request asked for. */
  lemma IpAdapterNeverReadAsWritten(input: JobInput, id: int, images: seq<Image>)
    requires input.ipAdapterConfig.Some?
    ensures JobSchemaAsWritten(JobRowAsWritten(input, id), images).ipAdapterConfig.None?
    ensures JobSchemaAsWritten(JobRowOf(input, id), images).ipAdapterConfig.None?
    ensures JobSchemaOf(JobRowOf(input, id), images).ipAdapterConfig == input.ipAdapterConfig
  {
  }

  /** `get_or_none`: None when no job has that id, otherwise the job read back. */
  function ReadJob(aimodels: seq<AIModel>, jobs: seq<JobRow>, images: seq<ImageRow>, controls: seq<ControlImageRow>, id: int)
    : (r: Option<Job>)
    ensures r.None? <==> forall j :: j in jobs ==> j.id != id
    ensures r.Some? ==> r.value.id == Some(id) && r.value.images == JobImages(aimodels, images, controls, id)
  {
    match FindJob(jobs, id)
    case None => None
    case Some(row) => Some(JobSchemaOf(row, JobImages(aimodels, images, controls, id)))
  }

  /** A row appended under a fresh id is what a lookup by that id finds. */
  lemma {:induction false} FindAppended(jobs: seq<JobRow>, row: JobRow)
    requires forall j :: j in jobs ==> j.id != row.id
    ensures FindJob(jobs + [row], row.id) == Some(row)
  {
    if jobs != [] {
      assert (jobs + [row])[1..] == jobs[1..] + [row];
      FindAppended(jobs[1..], row);
    }
  }

  /** Splitting the table splits the image rows found for a job. */
  lemma ImagesOfAppend(a: seq<ImageRow>, b: seq<ImageRow>, jobId: int)
    ensures ImagesOf(a + b, jobId) == ImagesOf(a, jobId) + ImagesOf(b, jobId)
  {
    FilterAppend(a, b, (r: ImageRow) => r.jobId == jobId);
  }

  /** Splitting the table splits the control rows found for an image. */
  lemma ControlsOfAppend(c: seq<ControlImageRow>, d: seq<ControlImageRow>, imageId: int)
    ensures ControlsOf(c + d, imageId) == ControlsOf(c, imageId) + ControlsOf(d, imageId)
  {
    FilterAppend(c, d, (x: ControlImageRow) => x.imageId == imageId);
  }

  /** The control rows found for image `id` among rows that all belong to
      image `own`: all of them when the ids agree, none otherwise. */
  lemma FilterByImage(cs: seq<ControlImageRow>, own: int, id: int)
    requires forall j :: 0 <= j < |cs| ==> cs[j].imageId == own
    ensures ControlsOf(cs, id) == if id == own then cs else []
  {
    if id == own {
      FilterAll(cs, (x: ControlImageRow) => x.imageId == id);
    } else {
      FilterNone(cs, (x: ControlImageRow) => x.imageId == id);
    }
  }

  /** Every control row made for image `k` refers to that image. */
  lemma MadeControlsOfImage(folder: string, input: JobInput, jobId: int, k: nat, names: Names)
    requires k < |input.images|
    ensures forall j :: 0 <= j < |MadeAt(folder, input, jobId, k, names).controls| ==>
      MadeAt(folder, input, jobId, k, names).controls[j].imageId == Offset(input, jobId, k)
  {
    var id := Offset(input, jobId, k);
    var cis := input.images[k].controlImages;
    var cs := ControlRows(folder, id, jobId, id + 1, k, cis, names);
    assert MadeAt(folder, input, jobId, k, names).controls == cs;
    forall j | 0 <= j < |cs| ensures cs[j].imageId == id {
      assert cs[j] == ControlRowOf(folder, id, jobId, id + 1 + j, names.pose(k, j), cis[j]);
    }
  }

  /** Among the control rows `create` stores, those of image `k` are
      exactly the ones made for it, in order. */
  lemma {:induction false} ControlsOfCreated(folder: string, input: JobInput, jobId: int, n: nat, names: Names, k: nat)
    requires n <= |input.images| && k < |input.images|
    ensures ControlsOf(ControlRowsUpTo(folder, input, jobId, n, names), Offset(input, jobId, k))
      == if k < n then MadeAt(folder, input, jobId, k, names).controls else []
  {
    if n > 0 {
      var prev := ControlRowsUpTo(folder, input, jobId, n - 1, names);
      var cs := MadeAt(folder, input, jobId, n - 1, names).controls;
      var id := Offset(input, jobId, k);
      assert ControlRowsUpTo(folder, input, jobId, n, names) == prev + cs;
      ControlsOfAppend(prev, cs, id);
      MadeControlsOfImage(folder, input, jobId, n - 1, names);
      FilterByImage(cs, Offset(input, jobId, n - 1), id);
      ControlsOfCreated(folder, input, jobId, n - 1, names, k);
      if k < n - 1 {
        OffsetGrows(input, jobId, k, n - 1);
        assert ControlsOf(cs, id) == [];
      } else if k > n - 1 {
        OffsetGrows(input, jobId, n - 1, k);
        assert ControlsOf(cs, id) == [];
      } else {
        assert ControlsOf(prev, id) == [];
      }
    }
  }

  /** Right after `create`, the control rows found for a new image are
      exactly those made for it, when earlier control rows refer only to
      keys drawn before the job's. */
  lemma ControlsOfNewImage(controls: seq<ControlImageRow>, folder: string, input: JobInput, jobId: int, names: Names, k: nat)
    requires forall i :: 0 <= i < |controls| ==> controls[i].imageId <= jobId
    requires k < |input.images|
    ensures ControlsOf(controls + ControlRowsUpTo(folder, input, jobId, |input.images|, names), Offset(input, jobId, k))
      == MadeAt(folder, input, jobId, k, names).controls
  {
    var id := Offset(input, jobId, k);
    ControlsOfAppend(controls, ControlRowsUpTo(folder, input, jobId, |input.images|, names), id);
    FilterNone(controls, (x: ControlImageRow) => x.imageId == id);
    ControlsOfCreated(folder, input, jobId, |input.images|, names, k);
  }

  /** Round trip: right after `create`, `get_or_none` of the new job's id
      reads back exactly the job `create` returned, the IP-adapter
      configuration included. It needs the earlier rows to refer only to
      keys drawn before the job's. */
  lemma CreateReadsBack(aimodels: seq<AIModel>, jobs: seq<JobRow>, images: seq<ImageRow>, controls: seq<ControlImageRow>,
                        folder: string, input: JobInput, jobId: int, names: Names)
    requires forall i :: 0 <= i < |jobs| ==> jobs[i].id < jobId
    requires forall i :: 0 <= i < |images| ==> images[i].jobId < jobId
    requires forall i :: 0 <= i < |controls| ==> controls[i].imageId <= jobId
    ensures ReadJob(aimodels, jobs + [JobRowOf(input, jobId)],
              images + ImageRows(folder, input, jobId, |input.images|, names),
              controls + ControlRowsUpTo(folder, input, jobId, |input.images|, names), jobId)
      == Some(Job.Job(Some(jobId), input.generatorId, ImageSchemas(aimodels, folder, input, jobId, |input.images|, names),
                      Waiting, input.ipAdapterConfig))
  {
    var n := |input.images|;
    var rows := ImageRows(folder, input, jobId, n, names);
    var created := ControlRowsUpTo(folder, input, jobId, n, names);
    FindAppended(jobs, JobRowOf(input, jobId));
    assert ImagesOf(images + rows, jobId) == rows by {
      ImageKeys(folder, input, jobId, names);
      ImagesOfAppend(images, rows, jobId);
      FilterNone(images, (r: ImageRow) => r.jobId == jobId);
      FilterAll(rows, (r: ImageRow) => r.jobId == jobId);
    }
    var read := JobImages(aimodels, images + rows, controls + created, jobId);
    var schemas := ImageSchemas(aimodels, folder, input, jobId, n, names);
    forall k | 0 <= k < n ensures read[k] == schemas[k] {
      assert rows[k].id == Offset(input, jobId, k);
      ControlsOfNewImage(controls, folder, input, jobId, names, k);
    }
    assert read == schemas;
  }

  /** The image schemas of job `jobId`: each of its image rows in table
      order, with the control rows of that image. */
  method SerializeJobImages(db: Database, jobId: int) returns (r: seq<Image>)
    ensures r == JobImages(db.aimodels, db.images, db.controlImages, jobId)
  {
    var imgs := ImagesOf(db.images, jobId);
    r := [];
    for k := 0 to |imgs|
      invariant |r| == k
      invariant forall i :: 0 <= i < k ==> r[i] == SerializeImage(db.aimodels, imgs[i], ControlsOf(db.controlImages, imgs[i].id))
    {
      var cnis := ControlsOf(db.controlImages, imgs[k].id);
      r := r + [SerializeImage(db.aimodels, imgs[k], cnis)];
    }
  }

  /** `get_or_none`: None for an absent id, otherwise the stored job with
      its images read back. */
  method GetOrNone(db: Database, id: int) returns (r: Option<Job>)
    ensures r == ReadJob(db.aimodels, db.jobs, db.images, db.controlImages, id)
  {
    var job := FindJob(db.jobs, id);
    if job.None? {
      return None;
    }
    var images := SerializeJobImages(db, job.value.id);
    return Some(JobSchemaOf(job.value, images));
  }

  /** `get_one`: "job-is-not-found" (404) exactly when no job has the id,
      otherwise the job read back. */
  method GetOne(db: Database, id: int) returns (r: Result<Job>)
    ensures r.Err? <==> forall j :: j in db.jobs ==> j.id != id
    ensures r.Err? ==> r.error == JobIsNotFound
    ensures r.Ok? ==> Some(r.value) == ReadJob(db.aimodels, db.jobs, db.images, db.controlImages, id)
  {
    var job := GetOrNone(db, id);
    if job.None? {
      return Err(JobIsNotFound);
    }
    return Ok(job.value);
  }

  /** The job rows with the status of those keyed `id` set to `status`. */
  function SetStatus(jobs: seq<JobRow>, id: int, status: JobStatus): (r: seq<JobRow>)
    ensures |r| == |jobs|
  {
    seq(|jobs|, k requires 0 <= k < |jobs| => if jobs[k].id == id then jobs[k].(status := status) else jobs[k])
  }

  /** Setting a job's status is seen by a lookup of that job, with every
      other column unchanged, and by no lookup of another job. */
  lemma {:induction false} FindAfterSetStatus(jobs: seq<JobRow>, id: int, status: JobStatus, x: int)
    ensures FindJob(SetStatus(jobs, id, status), x)
      == if x == id && FindJob(jobs, x).Some? then Some(FindJob(jobs, x).value.(status := status)) else FindJob(jobs, x)
  {
    if jobs != [] {
      assert SetStatus(jobs, id, status)[1..] == SetStatus(jobs[1..], id, status);
      FindAfterSetStatus(jobs[1..], id, status, x);
    }
  }

  /** `update_status` changes only the status: the job read back afterwards
      is the one read before with the new status, and every other job reads
      back as before. */
  lemma UpdateSetsOnlyStatus(aimodels: seq<AIModel>, jobs: seq<JobRow>, images: seq<ImageRow>, controls: seq<ControlImageRow>,
                             id: int, status: JobStatus, x: int)
    requires ReadJob(aimodels, jobs, images, controls, id).Some?
    ensures ReadJob(aimodels, SetStatus(jobs, id, status), images, controls, id)
      == Some(ReadJob(aimodels, jobs, images, controls, id).value.(status := status))
    ensures x != id ==> ReadJob(aimodels, SetStatus(jobs, id, status), images, controls, x) == ReadJob(aimodels, jobs, images, controls, x)
  {
    FindAfterSetStatus(jobs, id, status, id);
    FindAfterSetStatus(jobs, id, status, x);
  }

  /** `update_status`: "job-is-not-found" (404) for an absent id and no
      write; otherwise the job's status is set and the job read back. */
  method UpdateStatus(db: Database, id: int, status: JobStatus) returns (r: Result<Job>)
    requires db.Valid()
    modifies db
    ensures db.Valid()
    ensures FindJob(old(db.jobs), id).None? ==> r == Err(JobIsNotFound) && db.jobs == old(db.jobs)
    ensures FindJob(old(db.jobs), id).Some? ==>
      db.jobs == SetStatus(old(db.jobs), id, status)
      && r.Ok? && Some(r.value) == ReadJob(db.aimodels, db.jobs, db.images, db.controlImages, id)
      && r.value.status == status
    ensures db.aimodels == old(db.aimodels) && db.engines == old(db.engines) && db.links == old(db.links)
    ensures db.generators == old(db.generators) && db.images == old(db.images) && db.controlImages == old(db.controlImages)
    ensures db.nextId == old(db.nextId)
  {
    var job := FindJob(db.jobs, id);
    if job.None? {
      return Err(JobIsNotFound);
    }
    FindAfterSetStatus(db.jobs, id, status, id);
    db.jobs := SetStatus(db.jobs, id, status);
    var images := SerializeJobImages(db, id);
    r := Ok(JobSchemaOf(job.value.(status := status), images));
  }

  /** `job.delete()` followed by deleting the job's control images and
      images: the rows keyed `jobId` or belonging to that job go. */
  method DeleteJobRows(db: Database, jobId: int)
    requires db.Valid()
    modifies db
    ensures db.Valid()
    ensures db.jobs == WithoutIds(old(db.jobs), (j: JobRow) => j.id, {jobId})
    ensures db.images == WithoutIds(old(db.images), (r: ImageRow) => r.jobId, {jobId})
    ensures db.controlImages == WithoutIds(old(db.controlImages), (c: ControlImageRow) => c.jobId, {jobId})
    ensures db.aimodels == old(db.aimodels) && db.engines == old(db.engines) && db.links == old(db.links)
    ensures db.generators == old(db.generators) && db.nextId == old(db.nextId)
  {
    var jobs := DeleteWhere(db.jobs, (j: JobRow) => j.id, (j: JobRow) => j.id, jobId, db.nextId);
    var controls := DeleteWhere(db.controlImages, (c: ControlImageRow) => c.id, (c: ControlImageRow) => c.jobId, jobId, db.nextId);
    WithoutKeepsBelow(db.controlImages, (c: ControlImageRow) => c.jobId, {jobId}, (c: ControlImageRow) => c.imageId, db.nextId);
    var images := DeleteWhere(db.images, (r: ImageRow) => r.id, (r: ImageRow) => r.jobId, jobId, db.nextId);
    WithoutKeepsBelow(db.images, (r: ImageRow) => r.jobId, {jobId}, (r: ImageRow) => r.jobId, db.nextId);
    db.jobs, db.controlImages, db.images := jobs, controls, images;
  }

  /** `delete`: "job-not-found" (404) for an absent id and no write;
      otherwise the job goes with every image and control image of it. */
  method Delete(db: Database, id: int) returns (err: Option<Error>)
    requires db.Valid()
    modifies db
    ensures db.Valid()
    ensures FindJob(old(db.jobs), id).None? ==> err == Some(JobNotFound) && unchanged(db)
    ensures FindJob(old(db.jobs), id).Some? ==>
      err.None? && db.jobs == WithoutIds(old(db.jobs), (j: JobRow) => j.id, {id})
      && db.images == WithoutIds(old(db.images), (r: ImageRow) => r.jobId, {id})
      && db.controlImages == WithoutIds(old(db.controlImages), (c: ControlImageRow) => c.jobId, {id})
    ensures db.aimodels == old(db.aimodels) && db.engines == old(db.engines) && db.links == old(db.links)
    ensures db.generators == old(db.generators) && db.nextId == old(db.nextId)
  {
    var job := FindJob(db.jobs, id);
    if job.None? {
      return Some(JobNotFound);
    }
    DeleteJobRows(db, id);
    err := None;
  }

  /** After `delete` the job no longer reads back. */
  lemma DeletedIsGone(aimodels: seq<AIModel>, jobs: seq<JobRow>, images: seq<ImageRow>, controls: seq<ControlImageRow>, id: int)
    ensures ReadJob(aimodels, WithoutIds(jobs, (j: JobRow) => j.id, {id}),
                    WithoutIds(images, (r: ImageRow) => r.jobId, {id}), controls, id).None?
  {
    var rest := WithoutIds(jobs, (j: JobRow) => j.id, {id});
    WithoutIdsMembers(jobs, (j: JobRow) => j.id, {id});
    forall j | j in rest ensures j.id != id {
      var k :| 0 <= k < |rest| && rest[k] == j;
    }
  }

  /** The ids of the jobs of generator `generatorId`. */
  function JobIdsOf(jobs: seq<JobRow>, generatorId: int): (r: set<int>)
  {
    IdSet(Filter(jobs, (j: JobRow) => j.generatorId == generatorId), (j: JobRow) => j.id)
  }

  /** An id is among a generator's job ids exactly when a job row of that
      generator has it. */
  lemma JobIdsOfMeans(jobs: seq<JobRow>, generatorId: int, x: int)
    ensures x in JobIdsOf(jobs, generatorId) <==> exists j :: j in jobs && j.generatorId == generatorId && j.id == x
  {
    var group := Filter(jobs, (j: JobRow) => j.generatorId == generatorId);
    FilterMembers(jobs, (j: JobRow) => j.generatorId == generatorId);
    if x in JobIdsOf(jobs, generatorId) {
      var k :| 0 <= k < |group| && group[k].id == x;
      assert group[k] in jobs;
    }
    if exists j :: j in jobs && j.generatorId == generatorId && j.id == x {
      var j :| j in jobs && j.generatorId == generatorId && j.id == x;
      var i :| 0 <= i < |jobs| && jobs[i] == j;
      assert j in group;
      var k :| 0 <= k < |group| && group[k] == j;
    }
  }

  /** The job tables of `db` are `jobs`, `images` and `controls` without
      the rows of the jobs `ids`. */
  predicate JobRowsWithout(db: Database, jobs: seq<JobRow>, images: seq<ImageRow>, controls: seq<ControlImageRow>, ids: set<int>)
    reads db
  {
    db.jobs == WithoutIds(jobs, (j: JobRow) => j.id, ids)
    && db.images == WithoutIds(images, (r: ImageRow) => r.jobId, ids)
    && db.controlImages == WithoutIds(controls, (c: ControlImageRow) => c.jobId, ids)
  }

  /** One turn of the `delete_by_generator` loop: the rows of job `x` go
      as well. */
  method DeleteNextJob(db: Database, ghost jobs: seq<JobRow>, ghost images: seq<ImageRow>,
                       ghost controls: seq<ControlImageRow>, ghost done: set<int>, x: int)
    requires db.Valid() && JobRowsWithout(db, jobs, images, controls, done)
    modifies db
    ensures db.Valid() && JobRowsWithout(db, jobs, images, controls, done + {x})
    ensures db.aimodels == old(db.aimodels) && db.engines == old(db.engines) && db.links == old(db.links)
    ensures db.generators == old(db.generators) && db.nextId == old(db.nextId)
  {
    DeleteJobRows(db, x);
    WithoutIdsStep(jobs, (j: JobRow) => j.id, done, x);
    WithoutIdsStep(images, (r: ImageRow) => r.jobId, done, x);
    WithoutIdsStep(controls, (c: ControlImageRow) => c.jobId, done, x);
  }

  /** The ids of the first `i + 1` jobs are those of the first `i` and the next one's. */
  lemma IdSetNext(group: seq<JobRow>, i: nat)
    requires i < |group|
    ensures IdSet(group[..i + 1], (j: JobRow) => j.id) == IdSet(group[..i], (j: JobRow) => j.id) + {group[i].id}
  {
    assert forall k :: 0 <= k < i ==> group[..i + 1][k] == group[..i][k];
    assert group[..i + 1][i] == group[i];
  }

  /** `delete_by_generator`: every job of the generator goes, one after
      the other, each with its images and control images; the other jobs
      and their rows stay. */
  method DeleteByGenerator(db: Database, generatorId: int)
    requires db.Valid()
    modifies db
    ensures db.Valid()
    ensures db.jobs == Filter(old(db.jobs), (j: JobRow) => j.generatorId != generatorId)
    ensures db.images == WithoutIds(old(db.images), (r: ImageRow) => r.jobId, JobIdsOf(old(db.jobs), generatorId))
    ensures db.controlImages
      == WithoutIds(old(db.controlImages), (c: ControlImageRow) => c.jobId, JobIdsOf(old(db.jobs), generatorId))
    ensures db.aimodels == old(db.aimodels) && db.engines == old(db.engines) && db.links == old(db.links)
    ensures db.generators == old(db.generators) && db.nextId == old(db.nextId)
  {
    ghost var jobs0, images0, controls0 := db.jobs, db.images, db.controlImages;
    var group := Filter(db.jobs, (j: JobRow) => j.generatorId == generatorId);
    WithoutNoIds(jobs0, (j: JobRow) => j.id);
    WithoutNoIds(images0, (r: ImageRow) => r.jobId);
    WithoutNoIds(controls0, (c: ControlImageRow) => c.jobId);
    assert IdSet(group[..0], (j: JobRow) => j.id) == {};
    for i := 0 to |group|
      invariant db.Valid()
      invariant JobRowsWithout(db, jobs0, images0, controls0, IdSet(group[..i], (j: JobRow) => j.id))
      invariant db.aimodels == old(db.aimodels) && db.engines == old(db.engines) && db.links == old(db.links)
      invariant db.generators == old(db.generators) && db.nextId == old(db.nextId)
    {
      DeleteNextJob(db, jobs0, images0, controls0, IdSet(group[..i], (j: JobRow) => j.id), group[i].id);
      IdSetNext(group, i);
    }
    assert group[..|group|] == group;
    DeleteGroupIsFilter(jobs0, (j: JobRow) => j.id, (j: JobRow) => j.generatorId == generatorId,
      (j: JobRow) => j.generatorId != generatorId);
  }
}
