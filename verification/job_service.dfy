/** `JobService`: validates the generator of a job request, stores a job
    and signals the generator manager, and deletes a job with its files
    unless the job is being processed. */
module JobService {
  import opened Base
  import opened Enums
  import opened Schemas
  import opened Store
  import JobRepo

  const JobNotFound: Error := Raise("job-not-found", Some(400))
  const JobGetsProcessed: Error := Raise("job-gets-processed", Some(400))

  /** `generator_repo.exists(id=id)`. */
  predicate GeneratorExists(generators: seq<GeneratorRow>, id: int)
  {
    exists k :: 0 <= k < |generators| && generators[k].id == id
  }

  /** The message `_validate` reports for a missing generator. */
  function MissingGenerator(id: int): (e: FieldError)
    ensures e.field == GeneratorId
  {
    FieldError(GeneratorId, "generator with id " + IntToString(id) + " doesn't exist")
  }

  /** `_validate`: one "generator_id" error exactly when the request's
      generator is not stored, and none otherwise. */
  function Validate(generators: seq<GeneratorRow>, input: JobRepo.JobInput): (r: seq<FieldError>)
    ensures r == [] <==> GeneratorExists(generators, input.generatorId)
    ensures r != [] ==> r == [MissingGenerator(input.generatorId)]
  {
    if GeneratorExists(generators, input.generatorId) then [] else [MissingGenerator(input.generatorId)]
  }

  /** The new-job signals the manager has been sent, in order. */
  class NewJobSignals {
    var sent: seq<int>

    constructor ()
      ensures sent == []
    {
      sent := [];
    }

    /** `send_signal_new_job(job_id)`. */
    method Send(jobId: int)
      modifies this
      ensures sent == old(sent) + [jobId]
    {
      sent := sent + [jobId];
    }
  }

  /** `create_job`: stores the job (without validating it) and then sends
      exactly one new-job signal, carrying the stored job's id. */
  method CreateJob(db: Database, fs: FileSystem, signals: NewJobSignals, folder: string,
                   input: JobRepo.JobInput, names: JobRepo.Names) returns (r: Job)
    requires db.Valid()
    modifies db, fs, signals
    ensures db.Valid()
    ensures r.id == Some(old(db.nextId))
    ensures signals.sent == old(signals.sent) + [old(db.nextId)]
    ensures JobRepo.ReadJob(db.aimodels, db.jobs, db.images, db.controlImages, old(db.nextId)) == Some(r)
    ensures var n, jobId := |input.images|, old(db.nextId);
      db.jobs == old(db.jobs) + [JobRepo.JobRowOf(input, jobId)]
      && db.images == old(db.images) + JobRepo.ImageRows(folder, input, jobId, n, names)
      && db.controlImages == old(db.controlImages) + JobRepo.ControlRowsUpTo(folder, input, jobId, n, names)
      && db.nextId == JobRepo.Offset(input, jobId, n)
      && fs.files == old(fs.files) + JobRepo.PathSet(JobRepo.FilePaths(JobRepo.ControlRowsUpTo(folder, input, jobId, n, names)))
    ensures db.aimodels == old(db.aimodels) && db.engines == old(db.engines) && db.links == old(db.links)
    ensures db.generators == old(db.generators)
  {
    var job := JobRepo.Create(db, fs, folder, input, names);
    signals.Send(job.id.value);
    r := job;
  }

  /** The files of one image `delete_job` removes: those of its control
      images, in order, then its own. */
  function ImageFiles(img: Image): (r: seq<string>)
    ensures |r| == |img.controlImages| + 1 && r[|img.controlImages|] == img.filePath
    ensures forall j :: 0 <= j < |img.controlImages| ==> r[j] == img.controlImages[j].imageFilePath
  {
    seq(|img.controlImages|, j requires 0 <= j < |img.controlImages| => img.controlImages[j].imageFilePath)
      + [img.filePath]
  }

  /** The files of a job's images, image by image. */
  function JobFiles(images: seq<Image>): seq<string>
  {
    if images == [] then [] else JobFiles(images[..|images| - 1]) + ImageFiles(images[|images| - 1])
  }

  /** `p` is the file of `img` or of one of its control images. */
  predicate IsFileOf(img: Image, p: string)
  {
    p == img.filePath || exists j :: 0 <= j < |img.controlImages| && p == img.controlImages[j].imageFilePath
  }

  /** A path is one of the job's files exactly when it is the file of one
      of its images or of one of their control images. */
  lemma {:induction false} JobFilesMembers(images: seq<Image>, p: string)
    ensures p in JobFiles(images) <==> exists k :: 0 <= k < |images| && IsFileOf(images[k], p)
  {
    if images != [] {
      var last := |images| - 1;
      var front := images[..last];
      JobFilesMembers(front, p);
      assert JobFiles(images) == JobFiles(front) + ImageFiles(images[last]);
      if p in ImageFiles(images[last]) {
        var i :| 0 <= i < |ImageFiles(images[last])| && ImageFiles(images[last])[i] == p;
        if i < |images[last].controlImages| {
          assert p == images[last].controlImages[i].imageFilePath;
        }
        assert IsFileOf(images[last], p);
      }
      if exists k :: 0 <= k < |images| && IsFileOf(images[k], p) {
        var k :| 0 <= k < |images| && IsFileOf(images[k], p);
        if k == last {
          if p != images[k].filePath {
            var j :| 0 <= j < |images[k].controlImages| && p == images[k].controlImages[j].imageFilePath;
            assert ImageFiles(images[last])[j] == p;
          } else {
            assert ImageFiles(images[last])[|images[last].controlImages|] == p;
          }
        } else {
          assert front[k] == images[k];
        }
      }
    }
  }

  /** The file loops of `delete_job`: for each image, each control
      image's file that exists is removed, then the image's own file. */
  method RemoveJobFiles(fs: FileSystem, imgs: seq<Image>)
    modifies fs
    ensures fs.files == old(fs.files) - JobRepo.PathSet(JobFiles(imgs))
  {
    for i := 0 to |imgs|
      invariant fs.files == old(fs.files) - JobRepo.PathSet(JobFiles(imgs[..i]))
    {
      var img := imgs[i];
      ghost var before := fs.files;
      ghost var files := ImageFiles(img);
      for j := 0 to |img.controlImages|
        invariant fs.files == before - JobRepo.PathSet(files[..j])
      {
        fs.RemoveIfExists(img.controlImages[j].imageFilePath);
        assert files[..j + 1] == files[..j] + [img.controlImages[j].imageFilePath];
        JobRepo.PathSetAppend(files[..j], [img.controlImages[j].imageFilePath]);
      }
      fs.RemoveIfExists(img.filePath);
      assert files == files[..|img.controlImages|] + [img.filePath];
      JobRepo.PathSetAppend(files[..|img.controlImages|], [img.filePath]);
      assert imgs[..i + 1][..i] == imgs[..i];
      assert JobFiles(imgs[..i + 1]) == JobFiles(imgs[..i]) + files;
      JobRepo.PathSetAppend(JobFiles(imgs[..i]), files);
    }
    assert imgs[..|imgs|] == imgs;
  }

  /** `delete_job`: "job-not-found" (400) for an absent job and
      "job-gets-processed" (400) for a job being processed, with no file
      or row removed in either case; otherwise every file of the job's
      images and control images is removed and the job is deleted with
      its rows. */
  method DeleteJob(db: Database, fs: FileSystem, id: int) returns (err: Option<Error>)
    requires db.Valid()
    modifies db, fs
    ensures db.Valid()
    ensures JobRepo.ReadJob(old(db.aimodels), old(db.jobs), old(db.images), old(db.controlImages), id).None? ==>
      err == Some(JobNotFound) && unchanged(db) && unchanged(fs)
    ensures var job := JobRepo.ReadJob(old(db.aimodels), old(db.jobs), old(db.images), old(db.controlImages), id);
      job.Some? && job.value.status == Processing ==>
      err == Some(JobGetsProcessed) && unchanged(db) && unchanged(fs)
    ensures var job := JobRepo.ReadJob(old(db.aimodels), old(db.jobs), old(db.images), old(db.controlImages), id);
      job.Some? && job.value.status != Processing ==>
      err.None?
      && fs.files == old(fs.files) - JobRepo.PathSet(JobFiles(job.value.images))
      && db.jobs == WithoutIds(old(db.jobs), (j: JobRow) => j.id, {id})
      && db.images == WithoutIds(old(db.images), (r: ImageRow) => r.jobId, {id})
      && db.controlImages == WithoutIds(old(db.controlImages), (c: ControlImageRow) => c.jobId, {id})
    ensures db.aimodels == old(db.aimodels) && db.engines == old(db.engines) && db.links == old(db.links)
    ensures db.generators == old(db.generators) && db.nextId == old(db.nextId)
  {
    var job := JobRepo.GetOrNone(db, id);
    if job.None? {
      return Some(JobNotFound);
    }
    if job.value.status == Processing {
      return Some(JobGetsProcessed);
    }
    var imgs := JobRepo.SerializeJobImages(db, job.value.id.value);
    RemoveJobFiles(fs, imgs);
    err := JobRepo.Delete(db, id);
  }

  /** Every control-image file `create` writes is one of the files
      `delete_job` removes for the job it returns. */
  lemma {:induction false} CreatedFilesRemoved(aimodels: seq<AIModel>, folder: string, input: JobRepo.JobInput,
                                               jobId: int, n: nat, names: JobRepo.Names)
    requires n <= |input.images|
    ensures JobRepo.PathSet(JobRepo.FilePaths(JobRepo.ControlRowsUpTo(folder, input, jobId, n, names)))
      <= JobRepo.PathSet(JobFiles(JobRepo.ImageSchemas(aimodels, folder, input, jobId, n, names)))
  {
    if n > 0 {
      CreatedFilesRemoved(aimodels, folder, input, jobId, n - 1, names);
      JobRepo.UpToNext(aimodels, folder, input, jobId, n - 1, names);
      var m := JobRepo.MadeAt(folder, input, jobId, n - 1, names);
      var schemas := JobRepo.ImageSchemas(aimodels, folder, input, jobId, n, names);
      var img := JobRepo.SerializeImage(aimodels, m.row, m.controls);
      assert schemas[..n - 1] == JobRepo.ImageSchemas(aimodels, folder, input, jobId, n - 1, names);
      assert JobFiles(schemas) == JobFiles(schemas[..n - 1]) + ImageFiles(img);
      JobRepo.PathSetAppend(JobFiles(schemas[..n - 1]), ImageFiles(img));
      JobRepo.PathSetAppend(JobRepo.FilePaths(JobRepo.ControlRowsUpTo(folder, input, jobId, n - 1, names)),
                    JobRepo.FilePaths(m.controls));
      forall j | 0 <= j < |m.controls|
        ensures JobRepo.FilePaths(m.controls)[j] in ImageFiles(img)
      {
        assert ImageFiles(img)[j] == img.controlImages[j].imageFilePath == m.controls[j].filePath;
      }
    }
  }
}
