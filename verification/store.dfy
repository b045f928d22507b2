/** The persistent state the repositories work on: the database tables as
    sequences of rows in insertion order, and the set of files on disk. */
module Store {
  import opened Base
  import opened Enums
  import opened Schemas

  /** An `ai_model_for_engine` row: one model an engine uses, with its role. */
  datatype LinkRow = LinkRow(id: int, engineId: int, aimodelId: int, weight: Option<real>, modelType: AIModelType)

  /** An `engine` row: the engine's own columns. */
  datatype EngineRow = EngineRow(id: int, name: string, settings: EngineSettings)

  datatype GeneratorRow = GeneratorRow(id: int, name: string, engineId: int, gpuId: int, status: GeneratorStatus)

  /** A `job` row; `ipAdapterConfig` stands for its JSON column. */
  datatype JobRow = JobRow(id: int, generatorId: int, status: JobStatus, ipAdapterConfig: Option<string>)

  /** An `image` row; the optional columns are null unless written. */
  datatype ImageRow = ImageRow(
    id: int,
    generatorId: int,
    jobId: int,
    filePath: string,
    prompt: string,
    negativePrompt: string,
    fileType: FileImageType,
    seed: Option<int>,
    guidanceScale: Option<real>,
    width: Option<int>,
    height: Option<int>,
    steps: Option<int>,
    controlGuidanceStart: Option<real>,
    controlGuidanceEnd: Option<real>,
    ready: bool)

  /** A `control_net_image` row. */
  datatype ControlImageRow = ControlImageRow(
    id: int,
    imageId: int,
    jobId: int,
    aimodelId: Option<int>,
    controlnetConditioningScale: Option<real>,
    filePath: string,
    cannyLowThreshold: Option<int>,
    cannyHighThreshold: Option<int>)

  /** No two rows of `rows` have the same id. */
  predicate UniqueIds<R>(rows: seq<R>, idOf: R -> int)
  {
    forall i, j :: 0 <= i < j < |rows| ==> idOf(rows[i]) != idOf(rows[j])
  }

  /** Every row of `rows` has an id below `bound`. */
  predicate IdsBelow<R>(rows: seq<R>, idOf: R -> int, bound: int)
  {
    forall i :: 0 <= i < |rows| ==> idOf(rows[i]) < bound
  }

  /** `rows` without the rows whose id is in `ids`. */
  function WithoutIds<R>(rows: seq<R>, idOf: R -> int, ids: set<int>): (r: seq<R>)
    ensures |r| <= |rows|
  {
    Filter(rows, (x: R) => idOf(x) !in ids)
  }

  /** The ids of `rows`. */
  function IdSet<R>(rows: seq<R>, idOf: R -> int): set<int>
  {
    set k | 0 <= k < |rows| :: idOf(rows[k])
  }

  /** Deleting rows by id keeps exactly the rows `keep` accepts when the
      ids deleted are those of the rows it rejects. */
  lemma {:induction false} DeleteByIdsIsFilter<R>(rows: seq<R>, idOf: R -> int, keep: R -> bool, ids: set<int>)
    requires forall i :: 0 <= i < |rows| ==> (idOf(rows[i]) in ids <==> !keep(rows[i]))
    ensures WithoutIds(rows, idOf, ids) == Filter(rows, keep)
  {
    if rows != [] {
      DeleteByIdsIsFilter(rows[1..], idOf, keep, ids);
      assert forall i :: 0 <= i < |rows[1..]| ==> rows[1..][i] == rows[i + 1];
    }
  }

  /** With unique ids, deleting one by one the rows `keep` rejects leaves
      exactly the rows it accepts. */
  lemma DeleteGroupIsFilter<R>(rows: seq<R>, idOf: R -> int, inGroup: R -> bool, keep: R -> bool)
    requires UniqueIds(rows, idOf)
    requires forall i :: 0 <= i < |rows| ==> (keep(rows[i]) <==> !inGroup(rows[i]))
    ensures WithoutIds(rows, idOf, IdSet(Filter(rows, inGroup), idOf)) == Filter(rows, keep)
  {
    var group := Filter(rows, inGroup);
    var ids := IdSet(group, idOf);
    FilterMembers(rows, inGroup);
    forall i | 0 <= i < |rows|
      ensures idOf(rows[i]) in ids <==> !keep(rows[i])
    {
      if !keep(rows[i]) {
        assert rows[i] in group;
        var k :| 0 <= k < |group| && group[k] == rows[i];
      }
      if idOf(rows[i]) in ids {
        var k :| 0 <= k < |group| && idOf(group[k]) == idOf(rows[i]);
        assert group[k] in rows;
        var j :| 0 <= j < |rows| && rows[j] == group[k];
        assert j == i;
      }
    }
    DeleteByIdsIsFilter(rows, idOf, keep, ids);
  }

  /** Deleting no ids changes nothing. */
  lemma {:induction false} WithoutNoIds<R>(rows: seq<R>, idOf: R -> int)
    ensures WithoutIds(rows, idOf, {}) == rows
  {
    if rows != [] {
      WithoutNoIds(rows[1..], idOf);
      assert [rows[0]] + rows[1..] == rows;
    }
  }

  /** Deleting the rows with ids `ids` and then those with id `x` is
      deleting the rows with ids `ids + {x}`. */
  lemma {:induction false} WithoutIdsStep<R>(rows: seq<R>, idOf: R -> int, ids: set<int>, x: int)
    ensures WithoutIds(WithoutIds(rows, idOf, ids), idOf, {x}) == WithoutIds(rows, idOf, ids + {x})
  {
    if rows != [] {
      WithoutIdsStep(rows[1..], idOf, ids, x);
      if idOf(rows[0]) !in ids {
        assert WithoutIds(rows, idOf, ids) == [rows[0]] + WithoutIds(rows[1..], idOf, ids);
      }
    }
  }

  /** Deletes the rows `group` from `rows` one at a time, by id. */
  method DeleteEach<R>(rows: seq<R>, idOf: R -> int, group: seq<R>) returns (r: seq<R>)
    ensures r == WithoutIds(rows, idOf, IdSet(group, idOf))
  {
    r := rows;
    WithoutNoIds(rows, idOf);
    assert IdSet(group[..0], idOf) == {};
    for i := 0 to |group|
      invariant r == WithoutIds(rows, idOf, IdSet(group[..i], idOf))
    {
      WithoutIdsStep(rows, idOf, IdSet(group[..i], idOf), idOf(group[i]));
      r := WithoutIds(r, idOf, {idOf(group[i])});
      assert IdSet(group[..i + 1], idOf) == IdSet(group[..i], idOf) + {idOf(group[i])} by {
        assert forall k :: 0 <= k < i ==> group[..i + 1][k] == group[..i][k];
      }
    }
    assert group[..|group|] == group;
  }

  /** `Model.filter(key=value)` and then deleting each row found: the rows
      whose key is `key` go, the rest stay in order. */
  method DeleteWhere<R>(rows: seq<R>, idOf: R -> int, keyOf: R -> int, key: int, ghost bound: int) returns (r: seq<R>)
    requires UniqueIds(rows, idOf) && IdsBelow(rows, idOf, bound)
    ensures r == WithoutIds(rows, keyOf, {key})
    ensures UniqueIds(r, idOf) && IdsBelow(r, idOf, bound)
  {
    var group := Filter(rows, (x: R) => keyOf(x) == key);
    DeleteGroupIsFilter(rows, idOf, (x: R) => keyOf(x) == key, (x: R) => keyOf(x) != key);
    DeleteByIdsIsFilter(rows, keyOf, (x: R) => keyOf(x) != key, {key});
    r := DeleteEach(rows, idOf, group);
    FilterKeepsIds(rows, idOf, (x: R) => keyOf(x) != key, bound);
  }

  /** A row keyed with the counter keeps the keys unique and below the
      advanced counter. */
  lemma AppendFresh<R>(rows: seq<R>, idOf: R -> int, row: R, bound: int)
    requires UniqueIds(rows, idOf) && IdsBelow(rows, idOf, bound) && idOf(row) == bound
    ensures UniqueIds(rows + [row], idOf) && IdsBelow(rows + [row], idOf, bound + 1)
  {
    assert forall i :: 0 <= i < |rows| ==> (rows + [row])[i] == rows[i];
  }

  /** Removing rows keeps the keys unique and below the counter. */
  lemma {:induction false} FilterKeepsIds<R>(rows: seq<R>, idOf: R -> int, keep: R -> bool, bound: int)
    requires UniqueIds(rows, idOf) && IdsBelow(rows, idOf, bound)
    ensures UniqueIds(Filter(rows, keep), idOf) && IdsBelow(Filter(rows, keep), idOf, bound)
  {
    if rows != [] {
      var rest := Filter(rows[1..], keep);
      assert UniqueIds(rows[1..], idOf) by {
        forall i, j | 0 <= i < j < |rows[1..]| ensures idOf(rows[1..][i]) != idOf(rows[1..][j]) {
          assert rows[1..][i] == rows[i + 1] && rows[1..][j] == rows[j + 1];
        }
      }
      FilterKeepsIds(rows[1..], idOf, keep, bound);
      FilterMembers(rows[1..], keep);
      if keep(rows[0]) {
        forall j | 0 <= j < |rest| ensures idOf(rows[0]) != idOf(rest[j]) {
          var k :| 0 <= k < |rows[1..]| && rows[1..][k] == rest[j];
          assert rows[k + 1] == rest[j];
        }
        assert Filter(rows, keep) == [rows[0]] + rest;
      }
    }
  }

  /** Removing rows keeps every key below the counter. */
  lemma {:induction false} FilterKeepsBelow<R>(rows: seq<R>, keyOf: R -> int, keep: R -> bool, bound: int)
    requires IdsBelow(rows, keyOf, bound)
    ensures IdsBelow(Filter(rows, keep), keyOf, bound)
  {
    if rows != [] {
      FilterKeepsBelow(rows[1..], keyOf, keep, bound);
    }
  }

  /** Deleting rows by id keeps every key below the counter. */
  lemma WithoutKeepsBelow<R>(rows: seq<R>, idOf: R -> int, ids: set<int>, keyOf: R -> int, bound: int)
    requires IdsBelow(rows, keyOf, bound)
    ensures IdsBelow(WithoutIds(rows, idOf, ids), keyOf, bound)
  {
    FilterKeepsBelow(rows, keyOf, (x: R) => idOf(x) !in ids, bound);
  }

  /** The rows left after deleting by id are rows of the table whose id
      was not deleted. */
  lemma WithoutIdsMembers<R>(rows: seq<R>, idOf: R -> int, ids: set<int>)
    ensures forall i :: 0 <= i < |WithoutIds(rows, idOf, ids)| ==>
      WithoutIds(rows, idOf, ids)[i] in rows && idOf(WithoutIds(rows, idOf, ids)[i]) !in ids
  {
    FilterMembers(rows, (x: R) => idOf(x) !in ids);
  }

  /** No two stored models share an id. */
  predicate UniqueModelIds(aimodels: seq<AIModel>)
  {
    forall i, j :: 0 <= i < j < |aimodels| ==> aimodels[i].id != aimodels[j].id
  }

  /** The database: one sequence of rows per table and the id counter.
      Every insert takes `nextId` as the new row's primary key; one
      counter serves all tables, which keeps keys fresh in each. */
  class Database {
    var aimodels: seq<AIModel>
    var engines: seq<EngineRow>
    var links: seq<LinkRow>
    var generators: seq<GeneratorRow>
    var jobs: seq<JobRow>
    var images: seq<ImageRow>
    var controlImages: seq<ControlImageRow>
    var nextId: int

    /** Primary keys are unique and below the counter in every table, and
        an image or control image refers only to keys already drawn. */
    predicate Valid()
      reads this
    {
      (forall i :: 0 <= i < |aimodels| ==> aimodels[i].id.Some? && aimodels[i].id.value < nextId)
      && UniqueModelIds(aimodels)
      && UniqueIds(engines, (r: EngineRow) => r.id) && IdsBelow(engines, (r: EngineRow) => r.id, nextId)
      && UniqueIds(links, (r: LinkRow) => r.id) && IdsBelow(links, (r: LinkRow) => r.id, nextId)
      && UniqueIds(generators, (r: GeneratorRow) => r.id) && IdsBelow(generators, (r: GeneratorRow) => r.id, nextId)
      && UniqueIds(jobs, (r: JobRow) => r.id) && IdsBelow(jobs, (r: JobRow) => r.id, nextId)
      && UniqueIds(images, (r: ImageRow) => r.id) && IdsBelow(images, (r: ImageRow) => r.id, nextId)
      && UniqueIds(controlImages, (r: ControlImageRow) => r.id)
      && IdsBelow(controlImages, (r: ControlImageRow) => r.id, nextId)
      && IdsBelow(images, (r: ImageRow) => r.jobId, nextId)
      && IdsBelow(controlImages, (r: ControlImageRow) => r.imageId, nextId)
    }

    constructor ()
      ensures Valid()
      ensures aimodels == [] && engines == [] && links == [] && generators == []
      ensures jobs == [] && images == [] && controlImages == []
    {
      aimodels, engines, links, generators := [], [], [], [];
      jobs, images, controlImages := [], [], [];
      nextId := 1;
    }
  }

  /** The files on disk, by path. */
  class FileSystem {
    var files: set<string>

    constructor (files: set<string>)
      ensures this.files == files
    {
      this.files := files;
    }

    /** `open(path, "wb").write(...)`: the file exists afterwards. */
    method Write(path: string)
      modifies this
      ensures files == old(files) + {path}
    {
      files := files + {path};
    }

    /** `if os.path.exists(path): os.remove(path)`. */
    method RemoveIfExists(path: string)
      modifies this
      ensures files == old(files) - {path}
    {
      if path in files {
        files := files - {path};
      }
    }
  }
}
