/** The worker process: it builds its pipeline, announces READY, then reads
    commands one at a time, rendering each job's images and reporting them,
    until a CLOSE command ends the loop and CLOSED is announced.
    Rendering and the IP-adapter calls are opaque steps recorded in the
    worker's activity log together with the events it emits. */
module Worker {
  import opened Base
  import opened Enums
  import opened Schemas
  import opened EventCodec

  /** One observable step of the worker, in the order it happens. */
  datatype Activity =
    | BuildPipe                                              // _create_pipe
    | LoadIpAdapter(jobId: int)                              // load_ip_adapter
    | SetIpAdapterScale(jobId: int)                          // set_ip_adapter_scale
    | RunPipe(imageId: int, ipAdapterImage: Option<string>)  // run_pipe; the adapter image named by the file it was opened from
    | UnloadIpAdapter(jobId: int)                            // unload_ip_adapter
    | Emit(event: Event)                                     // a put on the event queue

  /** How the command loop ended: a CLOSE command, a failed assertion on a
      missing id, or an exhausted queue (the real process blocks in `get`). */
  datatype Outcome = ClosedByCommand | Crashed | Blocked

  /** The per-job locals `prv_img_path`, `ip_adapter_image`, `ip_adapter_loaded`. */
  datatype JobState = JobState(prvImgPath: Option<string>, ipAdapterImage: Option<string>, ipAdapterLoaded: bool)

  const FreshJobState: JobState := JobState(None, None, false)

  datatype ImagesRun = ImagesRun(acts: seq<Activity>, st: JobState, crashed: bool)

  datatype JobRun = JobRun(acts: seq<Activity>, crashed: bool)

  datatype CommandsRun = CommandsRun(acts: seq<Activity>, outcome: Outcome, rest: seq<Command>)

  datatype ListenRun = ListenRun(acts: seq<Activity>, outcome: Outcome, rest: seq<Command>)

  const CommandValueWasNone: Payload :=
    Failure("command-value-was-none", "Command value was None on JOB command type")

  function ReadyEvent(name: string, gid: int): Event { Event(name, gid, GeneratorEventType.Ready, None) }

  function ClosedEvent(name: string, gid: int): Event { Event(name, gid, GeneratorEventType.Closed, None) }

  function ErrorEvent(name: string, gid: int): Event
  {
    Event(name, gid, GeneratorEventType.Error, Some(CommandValueWasNone))
  }

  function ImageFinishedEvent(name: string, gid: int, jobId: int, imageId: int): Event
  {
    Event(name, gid, GeneratorEventType.ImageFinished, Some(Payload.ImageFinished(jobId, imageId)))
  }

  function JobFinishedEvent(name: string, gid: int, jobId: int): Event
  {
    Event(name, gid, GeneratorEventType.JobFinished, Some(Payload.JobFinished(jobId)))
  }

  /** Whether the adapter is loaded before rendering the next image. */
  predicate LoadsAdapter(st: JobState, config: Option<string>)
  {
    st.prvImgPath.Some? && !st.ipAdapterLoaded && config.Some?
  }

  /** The state with which an image is rendered (after a possible load). */
  function StateForRender(st: JobState, config: Option<string>): JobState
  {
    if LoadsAdapter(st, config) then JobState(st.prvImgPath, st.prvImgPath, true) else st
  }

  /** One iteration of the images loop for an image whose id is set. */
  function ImageActs(name: string, gid: int, jobId: int, config: Option<string>, img: Image, st: JobState): seq<Activity>
    requires img.id.Some?
  {
    (if LoadsAdapter(st, config) then [LoadIpAdapter(jobId), SetIpAdapterScale(jobId)] else [])
    + [RunPipe(img.id.value, StateForRender(st, config).ipAdapterImage),
       Emit(ImageFinishedEvent(name, gid, jobId, img.id.value))]
  }

  function StateAfterImage(config: Option<string>, img: Image, st: JobState): JobState
  {
    StateForRender(st, config).(prvImgPath := Some(img.filePath))
  }

  /** The images loop from a given state; an image without an id fails the assertion. */
  function RunImages(name: string, gid: int, jobId: int, config: Option<string>, imgs: seq<Image>, st: JobState): (r: ImagesRun)
    ensures r.crashed <==> !AllImagesHaveIds(imgs)
  {
    if imgs == [] then ImagesRun([], st, false)
    else if imgs[0].id.None? then ImagesRun([], st, true)
    else
      Prepend(ImageActs(name, gid, jobId, config, imgs[0], st),
              RunImages(name, gid, jobId, config, imgs[1..], StateAfterImage(config, imgs[0], st)))
  }

  /** A run of the images loop preceded by some activity. */
  function Prepend(acts: seq<Activity>, r: ImagesRun): ImagesRun
  {
    ImagesRun(acts + r.acts, r.st, r.crashed)
  }

  lemma RunImagesAt(name: string, gid: int, jobId: int, config: Option<string>, imgs: seq<Image>, i: nat, st: JobState)
    requires i < |imgs| && imgs[i].id.Some?
    ensures RunImages(name, gid, jobId, config, imgs[i..], st)
      == Prepend(ImageActs(name, gid, jobId, config, imgs[i], st),
                 RunImages(name, gid, jobId, config, imgs[i + 1..], StateAfterImage(config, imgs[i], st)))
  {
    assert imgs[i..][0] == imgs[i];
    assert imgs[i..][1..] == imgs[i + 1..];
  }

  lemma PrependTwice(a: seq<Activity>, b: seq<Activity>, r: ImagesRun)
    ensures Prepend(a, Prepend(b, r)) == Prepend(a + b, r)
  {
    assert a + (b + r.acts) == (a + b) + r.acts;
  }

  /** A job command with a payload: the images, the unload, JOB_FINISHED. */
  function RunJob(name: string, gid: int, job: Job): (r: JobRun)
    ensures r.crashed <==> job.id.None? || !AllImagesHaveIds(job.images)
    ensures !r.crashed ==> |r.acts| >= 1 && r.acts[|r.acts| - 1] == Emit(JobFinishedEvent(name, gid, job.id.value))
  {
    if job.id.None? then JobRun([], true)
    else
      var r := RunImages(name, gid, job.id.value, job.ipAdapterConfig, job.images, FreshJobState);
      if r.crashed then JobRun(r.acts, true)
      else JobRun(r.acts + (if r.st.ipAdapterLoaded then [UnloadIpAdapter(job.id.value)] else [])
                  + [Emit(JobFinishedEvent(name, gid, job.id.value))], false)
  }

  /** The command loop over a queue's contents. */
  /** What one command causes, and whether the loop stops after it. */
  datatype Turn = Turn(acts: seq<Activity>, stop: Option<Outcome>)

  /** One turn of the command loop: CLOSE stops it, a JOB without payload
      reports an ERROR, a JOB with a payload is processed (and a failed
      assertion in it ends the process). */
  function CommandTurn(name: string, gid: int, cmd: Command): (t: Turn)
    ensures t.stop == Some(ClosedByCommand) <==> cmd.command == GeneratorCommandType.Close
    ensures t.stop != Some(Blocked)
    ensures cmd.command == GeneratorCommandType.Job && cmd.value.None? ==> t.stop.None?
  {
    match cmd.command
    case Close => Turn([], Some(ClosedByCommand))
    case Job =>
      if cmd.value.None? then Turn([Emit(ErrorEvent(name, gid))], None)
      else
        var j := RunJob(name, gid, cmd.value.value);
        Turn(j.acts, if j.crashed then Some(Crashed) else None)
  }

  /** The command loop over a queue's contents. */
  function RunCommands(name: string, gid: int, cmds: seq<Command>): CommandsRun
  {
    if cmds == [] then CommandsRun([], Blocked, [])
    else
      var t := CommandTurn(name, gid, cmds[0]);
      if t.stop.Some? then CommandsRun(t.acts, t.stop.value, cmds[1..])
      else Continue(t.acts, RunCommands(name, gid, cmds[1..]))
  }

  /** A run preceded by some activity. */
  function Continue(acts: seq<Activity>, r: CommandsRun): CommandsRun
  {
    CommandsRun(acts + r.acts, r.outcome, r.rest)
  }

  /** One turn of the command loop, by whether it stops the loop. */
  lemma RunCommandsStep(name: string, gid: int, q: seq<Command>)
    requires q != []
    ensures var t := CommandTurn(name, gid, q[0]); var r := RunCommands(name, gid, q);
      var next := RunCommands(name, gid, q[1..]);
      (t.stop.Some? ==> r == CommandsRun(t.acts, t.stop.value, q[1..]))
      && (t.stop.None? ==> r == Continue(t.acts, next))
  {
  }

  /** A run still owed after the activity `done`, advanced by one command. */
  lemma RunAfter(name: string, gid: int, total: CommandsRun, done: seq<Activity>, q: seq<Command>)
    requires q != [] && total == Continue(done, RunCommands(name, gid, q))
    ensures var t := CommandTurn(name, gid, q[0]);
      (t.stop.None? ==> total == Continue(done + t.acts, RunCommands(name, gid, q[1..])))
      && (t.stop.Some? ==> total == CommandsRun(done + t.acts, t.stop.value, q[1..]))
  {
    var t := CommandTurn(name, gid, q[0]);
    RunCommandsStep(name, gid, q);
    AppendAssoc(done, t.acts, RunCommands(name, gid, q[1..]).acts);
  }

  /** `listening`: build, READY, the command loop, and CLOSED after a CLOSE. */
  function Listen(name: string, gid: int, cmds: seq<Command>): ListenRun
  {
    var r := RunCommands(name, gid, cmds);
    ListenRun([BuildPipe, Emit(ReadyEvent(name, gid))] + r.acts
              + (if r.outcome == ClosedByCommand then [Emit(ClosedEvent(name, gid))] else []),
              r.outcome, r.rest)
  }

  /** The events among the activities, in order. */
  function Events(acts: seq<Activity>): (evs: seq<Event>)
    ensures |evs| <= |acts|
  {
    if acts == [] then []
    else if acts[0].Emit? then [acts[0].event] + Events(acts[1..])
    else Events(acts[1..])
  }

  lemma {:induction false} EventsAppend(a: seq<Activity>, b: seq<Activity>)
    ensures Events(a + b) == Events(a) + Events(b)
  {
    if a == [] {
      assert a + b == b;
    } else {
      assert (a + b)[1..] == a[1..] + b;
      EventsAppend(a[1..], b);
    }
  }

  function CountKind(evs: seq<Event>, kind: GeneratorEventType): nat
  {
    if evs == [] then 0 else (if evs[0].event == kind then 1 else 0) + CountKind(evs[1..], kind)
  }

  lemma {:induction false} CountKindAppend(a: seq<Event>, b: seq<Event>, kind: GeneratorEventType)
    ensures CountKind(a + b, kind) == CountKind(a, kind) + CountKind(b, kind)
  {
    if a == [] {
      assert a + b == b;
    } else {
      assert (a + b)[1..] == a[1..] + b;
      CountKindAppend(a[1..], b, kind);
    }
  }

  /** Every event emitted by the command loop names this worker, and none
      of them is READY or CLOSED. */
  predicate LoopEvent(name: string, gid: int, e: Event)
  {
    e.generatorName == name && e.generatorId == gid
    && e.event != GeneratorEventType.Ready && e.event != GeneratorEventType.Closed
  }

  lemma {:induction false} ImagesEvents(name: string, gid: int, jobId: int, config: Option<string>, imgs: seq<Image>, st: JobState)
    ensures forall a :: a in RunImages(name, gid, jobId, config, imgs, st).acts && a.Emit? ==> LoopEvent(name, gid, a.event)
    decreases |imgs|
  {
    if imgs != [] && imgs[0].id.Some? {
      ImagesEvents(name, gid, jobId, config, imgs[1..], StateAfterImage(config, imgs[0], st));
    }
  }

  lemma {:induction false} LoopEvents(name: string, gid: int, cmds: seq<Command>)
    ensures forall a :: a in RunCommands(name, gid, cmds).acts && a.Emit? ==> LoopEvent(name, gid, a.event)
    ensures RunCommands(name, gid, cmds).outcome != Blocked ==> |RunCommands(name, gid, cmds).rest| < |cmds|
    ensures RunCommands(name, gid, cmds).outcome == Blocked ==> RunCommands(name, gid, cmds).rest == []
    decreases |cmds|
  {
    if cmds != [] && cmds[0].command == GeneratorCommandType.Job {
      if cmds[0].value.Some? {
        var job := cmds[0].value.value;
        if job.id.Some? {
          ImagesEvents(name, gid, job.id.value, job.ipAdapterConfig, job.images, FreshJobState);
        }
      }
      LoopEvents(name, gid, cmds[1..]);
    }
  }

  lemma {:induction false} LoopEventsCount(name: string, gid: int, acts: seq<Activity>, kind: GeneratorEventType)
    requires forall a :: a in acts && a.Emit? ==> LoopEvent(name, gid, a.event)
    requires kind == GeneratorEventType.Ready || kind == GeneratorEventType.Closed
    ensures CountKind(Events(acts), kind) == 0
    ensures forall e :: e in Events(acts) ==> LoopEvent(name, gid, e)
  {
    if acts != [] {
      LoopEventsCount(name, gid, acts[1..], kind);
    }
  }

  /** READY is announced exactly once: right after the pipeline is built and
      before anything a command causes. */
  lemma ReadyExactlyOnceFirst(name: string, gid: int, cmds: seq<Command>)
    ensures var acts := Listen(name, gid, cmds).acts;
      |acts| >= 2 && acts[0] == BuildPipe && acts[1] == Emit(ReadyEvent(name, gid))
      && CountKind(Events(acts), GeneratorEventType.Ready) == 1
  {
    var r := RunCommands(name, gid, cmds);
    var tail := if r.outcome == ClosedByCommand then [Emit(ClosedEvent(name, gid))] else [];
    LoopEvents(name, gid, cmds);
    LoopEventsCount(name, gid, r.acts, GeneratorEventType.Ready);
    EventsAppend([BuildPipe, Emit(ReadyEvent(name, gid))], r.acts);
    EventsAppend([BuildPipe, Emit(ReadyEvent(name, gid))] + r.acts, tail);
    assert Events([BuildPipe, Emit(ReadyEvent(name, gid))]) == [ReadyEvent(name, gid)] by {
      assert [BuildPipe, Emit(ReadyEvent(name, gid))][1..] == [Emit(ReadyEvent(name, gid))];
      assert [Emit(ReadyEvent(name, gid))][1..] == [];
    }
    CountKindAppend([ReadyEvent(name, gid)], Events(r.acts), GeneratorEventType.Ready);
    CountKindAppend([ReadyEvent(name, gid)] + Events(r.acts), Events(tail), GeneratorEventType.Ready);
    if tail != [] {
      assert Events(tail) == [ClosedEvent(name, gid)] by { assert tail[1..] == []; }
    }
  }

  /** CLOSED appears exactly once and last when the loop was ended by a CLOSE
      command, and not at all otherwise; every event names this worker. */
  lemma ClosedIsLast(name: string, gid: int, cmds: seq<Command>)
    ensures var l := Listen(name, gid, cmds); var evs := Events(l.acts);
      (l.outcome == ClosedByCommand ==>
         |evs| >= 1 && evs[|evs| - 1] == ClosedEvent(name, gid) && CountKind(evs, GeneratorEventType.Closed) == 1)
      && (l.outcome != ClosedByCommand ==> CountKind(evs, GeneratorEventType.Closed) == 0)
      && (forall e :: e in evs ==> e.generatorName == name && e.generatorId == gid)
  {
    var r := RunCommands(name, gid, cmds);
    var head := [BuildPipe, Emit(ReadyEvent(name, gid))];
    var tail := if r.outcome == ClosedByCommand then [Emit(ClosedEvent(name, gid))] else [];
    LoopEvents(name, gid, cmds);
    LoopEventsCount(name, gid, r.acts, GeneratorEventType.Closed);
    EventsAppend(head, r.acts);
    EventsAppend(head + r.acts, tail);
    assert Events(head) == [ReadyEvent(name, gid)] by {
      assert head[1..] == [Emit(ReadyEvent(name, gid))];
      assert [Emit(ReadyEvent(name, gid))][1..] == [];
    }
    assert Events(tail) == if tail == [] then [] else [ClosedEvent(name, gid)] by {
      if tail != [] { assert tail[1..] == []; }
    }
    CountKindAppend([ReadyEvent(name, gid)], Events(r.acts), GeneratorEventType.Closed);
    CountKindAppend([ReadyEvent(name, gid)] + Events(r.acts), Events(tail), GeneratorEventType.Closed);
  }

  /** A JOB command without a payload emits one ERROR event and the loop
      goes on with the next command. */
  lemma MissingPayloadReportsError(name: string, gid: int, rest: seq<Command>)
    ensures RunCommands(name, gid, [Command(GeneratorCommandType.Job, None)] + rest)
         == var r := RunCommands(name, gid, rest);
            CommandsRun([Emit(ErrorEvent(name, gid))] + r.acts, r.outcome, r.rest)
  {
    assert ([Command(GeneratorCommandType.Job, None)] + rest)[1..] == rest;
  }

  /** A CLOSE command ends the loop: the commands behind it are not read. */
  lemma CloseStopsReading(name: string, gid: int, rest: seq<Command>, v: Option<Job>)
    ensures RunCommands(name, gid, [Command(GeneratorCommandType.Close, v)] + rest)
         == CommandsRun([], ClosedByCommand, rest)
  {
    assert ([Command(GeneratorCommandType.Close, v)] + rest)[1..] == rest;
  }

  // ---------------------------------------------------------------------
  // A reference description of one job, image by image.

  predicate AllImagesHaveIds(imgs: seq<Image>)
  {
    forall k :: 0 <= k < |imgs| ==> imgs[k].id.Some?
  }

  /** The adapter image image `k` is rendered with: none for the first image
      or without adapter configuration, otherwise the first image's file. */
  function AdapterImageFor(job: Job, k: nat): Option<string>
    requires k < |job.images|
  {
    if k >= 1 && job.ipAdapterConfig.Some? then Some(job.images[0].filePath) else None
  }

  /** What image `k` of a job causes. The adapter is loaded just before the
      second image, and only when the job has adapter configuration. */
  function ExpectedImageBlock(name: string, gid: int, job: Job, k: nat): seq<Activity>
    requires job.id.Some? && k < |job.images| && AllImagesHaveIds(job.images)
  {
    var j := job.id.value;
    (if k == 1 && job.ipAdapterConfig.Some? then [LoadIpAdapter(j), SetIpAdapterScale(j)] else [])
    + [RunPipe(job.images[k].id.value, AdapterImageFor(job, k)),
       Emit(ImageFinishedEvent(name, gid, j, job.images[k].id.value))]
  }

  function ExpectedImageBlocks(name: string, gid: int, job: Job, k: nat): seq<Activity>
    requires job.id.Some? && k <= |job.images| && AllImagesHaveIds(job.images)
    decreases |job.images| - k
  {
    if k == |job.images| then []
    else ExpectedImageBlock(name, gid, job, k) + ExpectedImageBlocks(name, gid, job, k + 1)
  }

  /** Whether the job loads (and so unloads) the adapter. */
  predicate UsesAdapter(job: Job)
  {
    |job.images| >= 2 && job.ipAdapterConfig.Some?
  }

  /** The reference description of a job whose ids are all set. */
  function ExpectedJobActs(name: string, gid: int, job: Job): seq<Activity>
    requires job.id.Some? && AllImagesHaveIds(job.images)
  {
    ExpectedImageBlocks(name, gid, job, 0)
    + (if UsesAdapter(job) then [UnloadIpAdapter(job.id.value)] else [])
    + [Emit(JobFinishedEvent(name, gid, job.id.value))]
  }

  /** The per-job state before image `k`. */
  function StateBefore(job: Job, k: nat): JobState
    requires 0 < k <= |job.images|
  {
    var loaded := k >= 2 && job.ipAdapterConfig.Some?;
    JobState(Some(job.images[k - 1].filePath),
             if loaded then Some(job.images[0].filePath) else None,
             loaded)
  }

  lemma {:induction false} RunImagesFrom(name: string, gid: int, job: Job, k: nat)
    requires job.id.Some? && k <= |job.images| && AllImagesHaveIds(job.images)
    ensures var st := if k == 0 then FreshJobState else StateBefore(job, k);
      var r := RunImages(name, gid, job.id.value, job.ipAdapterConfig, job.images[k..], st);
      r.acts == ExpectedImageBlocks(name, gid, job, k) && !r.crashed
      && r.st == (if |job.images| == 0 then FreshJobState else StateBefore(job, |job.images|))
    decreases |job.images| - k
  {
    var st := if k == 0 then FreshJobState else StateBefore(job, k);
    if k < |job.images| {
      var img := job.images[k];
      assert job.images[k..][0] == img;
      assert job.images[k..][1..] == job.images[k + 1..];
      var config := job.ipAdapterConfig;
      assert StateAfterImage(config, img, st) == StateBefore(job, k + 1);
      assert ImageActs(name, gid, job.id.value, config, img, st) == ExpectedImageBlock(name, gid, job, k);
      RunImagesFrom(name, gid, job, k + 1);
    }
  }

  /** The worker's handling of a job whose ids are all set is exactly the
      reference description: image by image, then the unload when the
      adapter was loaded, then JOB_FINISHED. */
  lemma JobMatchesReference(name: string, gid: int, job: Job)
    requires job.id.Some? && AllImagesHaveIds(job.images)
    ensures RunJob(name, gid, job) == JobRun(ExpectedJobActs(name, gid, job), false)
  {
    RunImagesFrom(name, gid, job, 0);
    assert job.images[0..] == job.images;
  }

  /** The ids of a job's images, as IMAGE_FINISHED events. */
  function ImageFinishedEvents(name: string, gid: int, job: Job, k: nat): seq<Event>
    requires job.id.Some? && k <= |job.images| && AllImagesHaveIds(job.images)
    decreases |job.images| - k
  {
    if k == |job.images| then []
    else [ImageFinishedEvent(name, gid, job.id.value, job.images[k].id.value)]
         + ImageFinishedEvents(name, gid, job, k + 1)
  }

  lemma {:induction false} BlocksEvents(name: string, gid: int, job: Job, k: nat)
    requires job.id.Some? && k <= |job.images| && AllImagesHaveIds(job.images)
    ensures Events(ExpectedImageBlocks(name, gid, job, k)) == ImageFinishedEvents(name, gid, job, k)
    decreases |job.images| - k
  {
    if k < |job.images| {
      var b := ExpectedImageBlock(name, gid, job, k);
      var j := job.id.value;
      var pre := if k == 1 && job.ipAdapterConfig.Some? then [LoadIpAdapter(j), SetIpAdapterScale(j)] else [];
      var run := [RunPipe(job.images[k].id.value, AdapterImageFor(job, k)),
                  Emit(ImageFinishedEvent(name, gid, j, job.images[k].id.value))];
      assert b == pre + run;
      EventsAppend(pre, run);
      assert Events(pre) == [] by {
        if pre != [] { assert pre[1..] == [SetIpAdapterScale(j)]; assert pre[1..][1..] == []; }
      }
      assert Events(run) == [ImageFinishedEvent(name, gid, j, job.images[k].id.value)] by {
        assert run[1..][1..] == [];
      }
      EventsAppend(b, ExpectedImageBlocks(name, gid, job, k + 1));
      BlocksEvents(name, gid, job, k + 1);
    }
  }

  /** A job with n images emits n IMAGE_FINISHED events carrying the job id
      and each image id, in image order, then one JOB_FINISHED. */
  lemma JobEvents(name: string, gid: int, job: Job)
    requires job.id.Some? && AllImagesHaveIds(job.images)
    ensures Events(RunJob(name, gid, job).acts)
         == ImageFinishedEvents(name, gid, job, 0) + [JobFinishedEvent(name, gid, job.id.value)]
  {
    JobMatchesReference(name, gid, job);
    var blocks := ExpectedImageBlocks(name, gid, job, 0);
    var unload: seq<Activity> := if UsesAdapter(job) then [UnloadIpAdapter(job.id.value)] else [];
    var fin := [Emit(JobFinishedEvent(name, gid, job.id.value))];
    EventsAppend(blocks, unload);
    EventsAppend(blocks + unload, fin);
    BlocksEvents(name, gid, job, 0);
    assert Events(unload) == [] by { if unload != [] { assert unload[1..] == []; } }
    assert Events(fin) == [JobFinishedEvent(name, gid, job.id.value)] by { assert fin[1..] == []; }
  }

  function CountLoads(acts: seq<Activity>): nat
  {
    if acts == [] then 0 else (if acts[0].LoadIpAdapter? then 1 else 0) + CountLoads(acts[1..])
  }

  lemma {:induction false} CountLoadsAppend(a: seq<Activity>, b: seq<Activity>)
    ensures CountLoads(a + b) == CountLoads(a) + CountLoads(b)
  {
    if a == [] {
      assert a + b == b;
    } else {
      assert (a + b)[1..] == a[1..] + b;
      CountLoadsAppend(a[1..], b);
    }
  }

  lemma {:induction false} BlocksLoads(name: string, gid: int, job: Job, k: nat)
    requires job.id.Some? && k <= |job.images| && AllImagesHaveIds(job.images)
    ensures CountLoads(ExpectedImageBlocks(name, gid, job, k))
         == if k <= 1 && UsesAdapter(job) then 1 else 0
    decreases |job.images| - k
  {
    if k < |job.images| {
      var b := ExpectedImageBlock(name, gid, job, k);
      var j := job.id.value;
      var pre := if k == 1 && job.ipAdapterConfig.Some? then [LoadIpAdapter(j), SetIpAdapterScale(j)] else [];
      var run := [RunPipe(job.images[k].id.value, AdapterImageFor(job, k)),
                  Emit(ImageFinishedEvent(name, gid, j, job.images[k].id.value))];
      assert b == pre + run;
      CountLoadsAppend(pre, run);
      assert CountLoads(pre) == if pre == [] then 0 else 1 by {
        if pre != [] { assert pre[1..] == [SetIpAdapterScale(j)]; assert pre[1..][1..] == []; }
      }
      assert CountLoads(run) == 0 by { assert run[1..][1..] == []; }
      CountLoadsAppend(b, ExpectedImageBlocks(name, gid, job, k + 1));
      BlocksLoads(name, gid, job, k + 1);
    }
  }

  /** The adapter is loaded at most once per job: once when the job has
      adapter configuration and at least two images, never otherwise. Each
      image is rendered with the first image's file as adapter image exactly
      when it is not the first image and the job has adapter configuration.
      The unload comes right before JOB_FINISHED exactly when the adapter
      was loaded. */
  lemma IpAdapterDiscipline(name: string, gid: int, job: Job)
    requires job.id.Some? && AllImagesHaveIds(job.images)
    ensures var acts := RunJob(name, gid, job).acts;
      CountLoads(acts) == (if UsesAdapter(job) then 1 else 0)
      && (forall k :: 0 <= k < |job.images| ==>
            RunPipe(job.images[k].id.value, AdapterImageFor(job, k)) in acts)
      && (UsesAdapter(job) <==> |acts| >= 2 && acts[|acts| - 2] == UnloadIpAdapter(job.id.value))
  {
    JobMatchesReference(name, gid, job);
    var blocks := ExpectedImageBlocks(name, gid, job, 0);
    var unload: seq<Activity> := if UsesAdapter(job) then [UnloadIpAdapter(job.id.value)] else [];
    var fin := [Emit(JobFinishedEvent(name, gid, job.id.value))];
    var acts := blocks + unload + fin;
    assert RunJob(name, gid, job).acts == acts;
    BlocksLoads(name, gid, job, 0);
    CountLoadsAppend(blocks, unload);
    CountLoadsAppend(blocks + unload, fin);
    assert CountLoads(unload) == 0 by { if unload != [] { assert unload[1..] == []; } }
    assert CountLoads(fin) == 0 by { assert fin[1..] == []; }
    forall k | 0 <= k < |job.images|
      ensures RunPipe(job.images[k].id.value, AdapterImageFor(job, k)) in acts
    {
      BlockInBlocks(name, gid, job, 0, k);
    }
    if !UsesAdapter(job) {
      if |job.images| > 0 {
        BlocksEndWithImageFinished(name, gid, job, 0);
      }
    }
  }

  lemma {:induction false} BlockInBlocks(name: string, gid: int, job: Job, from: nat, k: nat)
    requires job.id.Some? && from <= k < |job.images| && AllImagesHaveIds(job.images)
    ensures RunPipe(job.images[k].id.value, AdapterImageFor(job, k)) in ExpectedImageBlocks(name, gid, job, from)
    decreases k - from
  {
    var b := ExpectedImageBlock(name, gid, job, from);
    if from == k {
      assert RunPipe(job.images[k].id.value, AdapterImageFor(job, k)) in b;
    } else {
      BlockInBlocks(name, gid, job, from + 1, k);
    }
  }

  lemma {:induction false} BlocksEndWithImageFinished(name: string, gid: int, job: Job, k: nat)
    requires job.id.Some? && k < |job.images| && AllImagesHaveIds(job.images)
    ensures var bs := ExpectedImageBlocks(name, gid, job, k);
      |bs| >= 1 && bs[|bs| - 1].Emit?
    decreases |job.images| - k
  {
    if k + 1 < |job.images| {
      BlocksEndWithImageFinished(name, gid, job, k + 1);
    }
  }

  // ---------------------------------------------------------------------
  // The process itself.

  class GeneratorProcess {
    const name: string
    const generatorId: int
    const gpuId: int
    const engine: Engine
    var commandQueue: seq<Command>
    var activity: seq<Activity>

    constructor (name: string, generatorId: int, gpuId: int, engine: Engine, commands: seq<Command>)
      ensures this.name == name && this.generatorId == generatorId
      ensures this.gpuId == gpuId && this.engine == engine
      ensures commandQueue == commands && activity == []
    {
      this.name := name;
      this.generatorId := generatorId;
      this.gpuId := gpuId;
      this.engine := engine;
      commandQueue := commands;
      activity := [];
    }

    /** The events put on the event queue so far. */
    function EventQueue(): seq<Event>
      reads this
    {
      Events(activity)
    }

    /** One iteration of the images loop: load the adapter with the previous
        image if it is configured and not yet loaded, render, report. */
    method RenderImage(jobId: int, config: Option<string>, img: Image,
                       prvImgPath: Option<string>, ipAdapterImage: Option<string>, ipAdapterLoaded: bool)
      returns (prv': Option<string>, ipAdapterImage': Option<string>, ipAdapterLoaded': bool)
      requires img.id.Some?
      modifies this`activity
      ensures var st := JobState(prvImgPath, ipAdapterImage, ipAdapterLoaded);
        activity == old(activity) + ImageActs(name, generatorId, jobId, config, img, st)
        && JobState(prv', ipAdapterImage', ipAdapterLoaded') == StateAfterImage(config, img, st)
    {
      ipAdapterImage', ipAdapterLoaded' := ipAdapterImage, ipAdapterLoaded;
      if prvImgPath.Some? && !ipAdapterLoaded && config.Some? {
        activity := activity + [LoadIpAdapter(jobId)];
        activity := activity + [SetIpAdapterScale(jobId)];
        ipAdapterLoaded' := true;
        ipAdapterImage' := prvImgPath;
      }
      activity := activity + [RunPipe(img.id.value, ipAdapterImage')];
      prv' := Some(img.filePath);
      activity := activity + [Emit(ImageFinishedEvent(name, generatorId, jobId, img.id.value))];
    }

    /** The images loop of one job, from the fresh per-job state. */
    method RenderImages(jobId: int, config: Option<string>, images: seq<Image>)
      returns (prvImgPath: Option<string>, ipAdapterImage: Option<string>, ipAdapterLoaded: bool, crashed: bool)
      modifies this`activity
      ensures var r := RunImages(name, generatorId, jobId, config, images, FreshJobState);
        activity == old(activity) + r.acts
        && JobState(prvImgPath, ipAdapterImage, ipAdapterLoaded) == r.st && crashed == r.crashed
    {
      prvImgPath, ipAdapterImage, ipAdapterLoaded := None, None, false;
      crashed := false;
      ghost var full := RunImages(name, generatorId, jobId, config, images, FreshJobState);
      ghost var start := activity;
      ghost var done: seq<Activity> := [];
      var i := 0;
      while i < |images| && !crashed
        invariant 0 <= i <= |images|
        invariant !crashed ==>
          full == Prepend(done, RunImages(name, generatorId, jobId, config, images[i..],
                                          JobState(prvImgPath, ipAdapterImage, ipAdapterLoaded)))
        invariant crashed ==> full == ImagesRun(done, JobState(prvImgPath, ipAdapterImage, ipAdapterLoaded), true)
        invariant activity == start + done
        decreases |images| - i, if crashed then 0 else 1
      {
        var img := images[i];
        if img.id.None? {
          assert images[i..][0] == img;
          crashed := true;
        } else {
          ghost var st := JobState(prvImgPath, ipAdapterImage, ipAdapterLoaded);
          ghost var acts := ImageActs(name, generatorId, jobId, config, img, st);
          ghost var next := RunImages(name, generatorId, jobId, config, images[i + 1..], StateAfterImage(config, img, st));
          assert full == Prepend(done + acts, next) by {
            RunImagesAt(name, generatorId, jobId, config, images, i, st);
            PrependTwice(done, acts, next);
          }
          prvImgPath, ipAdapterImage, ipAdapterLoaded :=
            RenderImage(jobId, config, img, prvImgPath, ipAdapterImage, ipAdapterLoaded);
          done := done + acts;
          i := i + 1;
        }
      }
      if !crashed {
        assert images[i..] == [];
      }
    }

    /** The body of `listening` for a JOB command that carries a job: the
        images loop, the unload and JOB_FINISHED. */
    method ProcessJob(job: Job) returns (crashed: bool)
      modifies this`activity
      ensures activity == old(activity) + RunJob(name, generatorId, job).acts
      ensures crashed == RunJob(name, generatorId, job).crashed
    {
      if job.id.None? {
        return true;
      }
      var jobId := job.id.value;
      var prvImgPath, ipAdapterImage, ipAdapterLoaded;
      prvImgPath, ipAdapterImage, ipAdapterLoaded, crashed := RenderImages(jobId, job.ipAdapterConfig, job.images);
      if crashed {
        return;
      }
      if ipAdapterLoaded {
        activity := activity + [UnloadIpAdapter(jobId)];
      }
      activity := activity + [Emit(JobFinishedEvent(name, generatorId, jobId))];
    }

    /** The body of the command loop for one command taken off the queue. */
    method HandleCommand(cmd: Command) returns (stop: Option<Outcome>)
      modifies this`activity
      ensures activity == old(activity) + CommandTurn(name, generatorId, cmd).acts
      ensures stop == CommandTurn(name, generatorId, cmd).stop
    {
      if cmd.command == GeneratorCommandType.Close {
        return Some(ClosedByCommand);
      }
      if cmd.value.None? {
        activity := activity + [Emit(ErrorEvent(name, generatorId))];
        return None;
      }
      var crashed := ProcessJob(cmd.value.value);
      stop := if crashed then Some(Crashed) else None;
    }

    /** `listening`: the worker's whole life on the commands queued for it. */
    method Listening() returns (outcome: Outcome)
      modifies this
      ensures var l := Listen(name, generatorId, old(commandQueue));
        activity == old(activity) + l.acts && outcome == l.outcome && commandQueue == l.rest
    {
      activity := activity + [BuildPipe];
      activity := activity + [Emit(ReadyEvent(name, generatorId))];
      outcome := CommandLoop();
      if outcome == ClosedByCommand {
        activity := activity + [Emit(ClosedEvent(name, generatorId))];
      }
    }

    /** The `while True` loop of `listening`: take a command, handle it, and
        stop on CLOSE or on a failed assertion. */
    method CommandLoop() returns (outcome: Outcome)
      modifies this
      ensures var r := RunCommands(name, generatorId, old(commandQueue));
        activity == old(activity) + r.acts && outcome == r.outcome && commandQueue == r.rest
    {
      ghost var total := RunCommands(name, generatorId, commandQueue);
      ghost var start := activity;
      ghost var done: seq<Activity> := [];
      var stop: Option<Outcome> := None;
      while commandQueue != [] && stop.None?
        invariant stop.None? ==> total == Continue(done, RunCommands(name, generatorId, commandQueue))
        invariant stop.Some? ==> total == CommandsRun(done, stop.value, commandQueue)
        invariant activity == start + done
        decreases |commandQueue|
      {
        var cmd := commandQueue[0];
        RunAfter(name, generatorId, total, done, commandQueue);
        commandQueue := commandQueue[1..];
        ghost var acts := CommandTurn(name, generatorId, cmd).acts;
        stop := HandleCommand(cmd);
        done := done + acts;
      }
      outcome := if stop.Some? then stop.value else Blocked;
    }
  }

  /** `start_generator`: create the process object and run its loop. */
  method StartGenerator(name: string, generatorId: int, gpuId: int, engine: Engine, commands: seq<Command>)
    returns (p: GeneratorProcess, outcome: Outcome)
    ensures fresh(p) && p.name == name && p.generatorId == generatorId
    ensures var l := Listen(name, generatorId, commands);
      p.activity == l.acts && outcome == l.outcome && p.commandQueue == l.rest
  {
    p := new GeneratorProcess(name, generatorId, gpuId, engine, commands);
    outcome := p.Listening();
  }
}
