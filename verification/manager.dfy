/** The supervisor of the worker processes: a registry from generator id to
    the generator and its command queue, the persisted status of each
    generator, and the dispatch of worker results to status writes.
    Spawning a process is recorded in a log instead of started; the thread,
    the lock and the inter-process queues become sequential state. */
module Manager {
  import opened Base
  import opened Enums
  import opened Schemas
  import opened EventCodec

  /** A registry entry: the generator and the commands queued for it. */
  datatype ProcEntry = ProcEntry(generator: Generator, commands: seq<Command>)

  /** A started worker: the arguments `start_generator` is given. */
  datatype Spawn = Spawn(name: string, generatorId: int, engine: Engine)

  /** A status write made through the generator repository. */
  datatype StatusWrite = StatusWrite(id: int, status: GeneratorStatus)

  const GeneratorIdIsNone: Error := Raise("generator-id-is-none", None)

  const GeneratorIsNotFound: Error := Raise("generator-is-not-found", Some(404))

  const CloseCommand: Command := Command(GeneratorCommandType.Close, None)

  /** Every generator CLOSED: the statuses after start-up reconciliation. */
  function AllClosed(statuses: map<int, GeneratorStatus>): (r: map<int, GeneratorStatus>)
    ensures r.Keys == statuses.Keys
    ensures forall id :: id in r ==> r[id] == GeneratorStatus.Closed
  {
    map id | id in statuses :: GeneratorStatus.Closed
  }

  /** The writes of start-up reconciliation: one CLOSED write for each
      generator that was not CLOSED, and none for the others. */
  ghost predicate ReconcileWrites(before: map<int, GeneratorStatus>, w: seq<StatusWrite>)
  {
    (forall i :: 0 <= i < |w| ==>
       w[i].status == GeneratorStatus.Closed && w[i].id in before && before[w[i].id] != GeneratorStatus.Closed)
    && (forall id :: id in before && before[id] != GeneratorStatus.Closed ==> StatusWrite(id, GeneratorStatus.Closed) in w)
    && (forall i, j :: 0 <= i < j < |w| ==> w[i].id != w[j].id)
  }

  /** Reconciling an already reconciled repository writes nothing. */
  lemma ReconcileIsIdempotent(statuses: map<int, GeneratorStatus>, w: seq<StatusWrite>)
    ensures ReconcileWrites(AllClosed(statuses), w) <==> w == []
  {
    if w != [] {
      var first := w[0];
      assert first.id !in AllClosed(statuses) || AllClosed(statuses)[first.id] == GeneratorStatus.Closed;
    }
  }

  /** The status a worker result is persisted as: READY and CLOSED are
      written, every other kind is ignored. */
  function StatusFor(kind: GeneratorEventType): (s: Option<GeneratorStatus>)
    ensures kind == GeneratorEventType.Ready <==> s == Some(GeneratorStatus.Ready)
    ensures kind == GeneratorEventType.Closed <==> s == Some(GeneratorStatus.Closed)
    ensures s.Some? <==> kind in {GeneratorEventType.Ready, GeneratorEventType.Closed}
  {
    match kind
    case Ready => Some(GeneratorStatus.Ready)
    case Closed => Some(GeneratorStatus.Closed)
    case _ => None
  }

  /** What the event loop leaves behind after a sequence of results: the
      statuses, the writes, and the error that ended the thread if any. */
  datatype LoopResult = LoopResult(statuses: map<int, GeneratorStatus>, writes: seq<StatusWrite>, error: Option<Error>)

  /** The dispatch loop of `_infinite_loop` over the results it receives.
      A write to an unknown generator raises, which ends the thread. */
  function DispatchAll(statuses: map<int, GeneratorStatus>, results: seq<Event>): LoopResult
  {
    if results == [] then LoopResult(statuses, [], None)
    else
      var res := results[0];
      var s := StatusFor(res.event);
      if s.None? then DispatchAll(statuses, results[1..])
      else if res.generatorId !in statuses then LoopResult(statuses, [], Some(GeneratorIsNotFound))
      else
        var rest := DispatchAll(statuses[res.generatorId := s.value], results[1..]);
        LoopResult(rest.statuses, [StatusWrite(res.generatorId, s.value)] + rest.writes, rest.error)
  }

  /** The loop neither adds nor removes generators, writes only to known
      ones, and its one failure is an unknown generator. */
  lemma {:induction false} DispatchAllKeepsIds(statuses: map<int, GeneratorStatus>, results: seq<Event>)
    ensures var r := DispatchAll(statuses, results);
      r.statuses.Keys == statuses.Keys
      && (r.error.Some? ==> r.error == Some(GeneratorIsNotFound))
      && (forall k :: 0 <= k < |r.writes| ==> r.writes[k].id in statuses)
  {
    if results != [] {
      var res := results[0];
      var s := StatusFor(res.event);
      if s.None? {
        DispatchAllKeepsIds(statuses, results[1..]);
      } else if res.generatorId in statuses {
        DispatchAllKeepsIds(statuses[res.generatorId := s.value], results[1..]);
      }
    }
  }

  /** The status the last READY or CLOSED result for `id` asks for, if any. */
  function LastStatus(results: seq<Event>, id: int): Option<GeneratorStatus>
  {
    if results == [] then None
    else
      var later := LastStatus(results[1..], id);
      if later.Some? then later
      else if results[0].generatorId == id then StatusFor(results[0].event)
      else None
  }

  /** When the loop does not fail, the set of generators is unchanged, each
      generator's status is the one its last READY or CLOSED result asks for
      (or its old status when it got none), and every write is a READY or
      CLOSED write. */
  lemma {:induction false} DispatchLastWins(statuses: map<int, GeneratorStatus>, results: seq<Event>)
    ensures var r := DispatchAll(statuses, results);
      r.statuses.Keys == statuses.Keys
      && (forall i :: 0 <= i < |r.writes| ==>
            r.writes[i].status in {GeneratorStatus.Ready, GeneratorStatus.Closed})
      && (r.error.None? ==> forall id :: id in statuses ==>
            r.statuses[id] == (if LastStatus(results, id).Some? then LastStatus(results, id).value else statuses[id]))
  {
    if results != [] {
      var res := results[0];
      var s := StatusFor(res.event);
      if s.None? {
        DispatchLastWins(statuses, results[1..]);
        forall id | id in statuses
          ensures LastStatus(results, id) == LastStatus(results[1..], id)
        {
        }
      } else if res.generatorId in statuses {
        DispatchLastWins(statuses[res.generatorId := s.value], results[1..]);
      }
    }
  }

  /** A loop that fails stops at the first READY or CLOSED result for a
      generator the repository does not know. */
  lemma {:induction false} DispatchFailsOnUnknown(statuses: map<int, GeneratorStatus>, results: seq<Event>)
    ensures DispatchAll(statuses, results).error.Some? <==>
      exists i :: 0 <= i < |results| && StatusFor(results[i].event).Some? && results[i].generatorId !in statuses
  {
    if results != [] {
      var res := results[0];
      var s := StatusFor(res.event);
      if s.None? {
        DispatchFailsOnUnknown(statuses, results[1..]);
        if exists i :: 0 <= i < |results| && StatusFor(results[i].event).Some? && results[i].generatorId !in statuses {
          var i :| 0 <= i < |results| && StatusFor(results[i].event).Some? && results[i].generatorId !in statuses;
          assert results[1..][i - 1] == results[i];
        }
      } else if res.generatorId in statuses {
        var st' := statuses[res.generatorId := s.value];
        DispatchFailsOnUnknown(st', results[1..]);
        assert st'.Keys == statuses.Keys;
        if exists i :: 0 <= i < |results| && StatusFor(results[i].event).Some? && results[i].generatorId !in statuses {
          var i :| 0 <= i < |results| && StatusFor(results[i].event).Some? && results[i].generatorId !in statuses;
          assert i != 0;
          assert results[1..][i - 1] == results[i];
        }
      }
    }
  }

  /** One result of the dispatch loop, then the rest. */
  lemma DispatchStep(statuses: map<int, GeneratorStatus>, results: seq<Event>)
    requires results != []
    ensures var one := DispatchAll(statuses, [results[0]]); var all := DispatchAll(statuses, results);
      (one.error.Some? ==> all.error == one.error && all.statuses == one.statuses && all.writes == one.writes)
      && (one.error.None? ==> all.statuses == DispatchAll(one.statuses, results[1..]).statuses
                              && all.error == DispatchAll(one.statuses, results[1..]).error
                              && all.writes == one.writes + DispatchAll(one.statuses, results[1..]).writes)
  {
    assert [results[0]][1..] == [];
  }

  /** `order` lists every generator of the repository exactly once. */
  predicate ListsAll(order: seq<int>, statuses: map<int, GeneratorStatus>)
  {
    (forall k :: 0 <= k < |order| ==> order[k] in statuses)
    && (forall id :: id in statuses ==> exists k :: 0 <= k < |order| && order[k] == id)
    && (forall k, k' :: 0 <= k < k' < |order| ==> order[k] != order[k'])
  }

  /** Start-up reconciliation after the first `i` generators of `order`:
      those are CLOSED, the rest untouched, and `written` holds one CLOSED
      write for each of the first `i` that was not CLOSED before. */
  ghost predicate ClosedUpTo(gens: map<int, GeneratorStatus>, order: seq<int>, i: int,
                             statuses: map<int, GeneratorStatus>, written: seq<StatusWrite>)
  {
    ListsAll(order, gens) && 0 <= i <= |order| && statuses.Keys == gens.Keys
    && (forall k :: i <= k < |order| ==> order[k] in statuses && statuses[order[k]] == gens[order[k]])
    && (forall k :: 0 <= k < i ==> order[k] in statuses && statuses[order[k]] == GeneratorStatus.Closed)
    && (forall j :: 0 <= j < |written| ==>
          written[j].status == GeneratorStatus.Closed && written[j].id in gens
          && gens[written[j].id] != GeneratorStatus.Closed && written[j].id in order[..i])
    && (forall k :: 0 <= k < i && gens[order[k]] != GeneratorStatus.Closed ==>
          StatusWrite(order[k], GeneratorStatus.Closed) in written)
    && (forall j, j' :: 0 <= j < j' < |written| ==> written[j].id != written[j'].id)
  }

  /** One more generator: a CLOSED one is skipped, any other is set to
      CLOSED with one write. */
  lemma ClosedNext(gens: map<int, GeneratorStatus>, order: seq<int>, i: int,
                   statuses: map<int, GeneratorStatus>, written: seq<StatusWrite>)
    requires ClosedUpTo(gens, order, i, statuses, written) && i < |order|
    ensures gens[order[i]] == GeneratorStatus.Closed ==> ClosedUpTo(gens, order, i + 1, statuses, written)
    ensures gens[order[i]] != GeneratorStatus.Closed ==>
      ClosedUpTo(gens, order, i + 1, statuses[order[i] := GeneratorStatus.Closed],
                 written + [StatusWrite(order[i], GeneratorStatus.Closed)])
  {
    var id := order[i];
    assert order[..i + 1] == order[..i] + [id];
    assert id !in order[..i];
  }

  /** After every generator of `order`: all are CLOSED and the writes are
      those of start-up reconciliation. */
  lemma ClosedDone(gens: map<int, GeneratorStatus>, order: seq<int>,
                   statuses: map<int, GeneratorStatus>, written: seq<StatusWrite>)
    requires ClosedUpTo(gens, order, |order|, statuses, written)
    ensures statuses == AllClosed(gens)
    ensures ReconcileWrites(gens, written)
  {
    forall id | id in gens && gens[id] != GeneratorStatus.Closed
      ensures StatusWrite(id, GeneratorStatus.Closed) in written
    {
      var k :| 0 <= k < |order| && order[k] == id;
    }
    assert statuses.Keys == AllClosed(gens).Keys;
    forall id | id in statuses
      ensures statuses[id] == AllClosed(gens)[id]
    {
      var k :| 0 <= k < |order| && order[k] == id;
    }
  }

  class ProcessManager {
    /** `_procs`: the registry. */
    var procs: map<int, ProcEntry>
    /** The generator repository's status column. */
    var statuses: map<int, GeneratorStatus>
    /** Every `update_status` write, in order. */
    var statusWrites: seq<StatusWrite>
    /** Every process started, in order. */
    var spawned: seq<Spawn>

    constructor (statuses: map<int, GeneratorStatus>)
      ensures this.statuses == statuses
      ensures procs == map[] && statusWrites == [] && spawned == []
    {
      this.statuses := statuses;
      procs := map[];
      statusWrites := [];
      spawned := [];
    }

    /** `GeneratorRepo.update_status`, as far as the status column goes. */
    method UpdateStatus(id: int, status: GeneratorStatus) returns (err: Option<Error>)
      modifies this`statuses, this`statusWrites
      ensures id !in old(statuses) ==>
        err == Some(GeneratorIsNotFound) && statuses == old(statuses) && statusWrites == old(statusWrites)
      ensures id in old(statuses) ==>
        err.None? && statuses == old(statuses)[id := status] && statusWrites == old(statusWrites) + [StatusWrite(id, status)]
    {
      if id !in statuses {
        return Some(GeneratorIsNotFound);
      }
      statuses := statuses[id := status];
      statusWrites := statusWrites + [StatusWrite(id, status)];
      return None;
    }

    /** `_on_process_manager_init`: every generator not CLOSED is set to
        CLOSED, one write each, and the CLOSED ones are not written.
        `order` is the order in which `get_all` returns the generators. */
    method OnProcessManagerInit(order: seq<int>)
      requires ListsAll(order, statuses)
      modifies this`statuses, this`statusWrites
      ensures statuses == AllClosed(old(statuses))
      ensures |old(statusWrites)| <= |statusWrites| && statusWrites[..|old(statusWrites)|] == old(statusWrites)
      ensures ReconcileWrites(old(statuses), statusWrites[|old(statusWrites)|..])
    {
      var gens := statuses;
      ghost var written: seq<StatusWrite> := [];
      var i := 0;
      while i < |order|
        invariant ClosedUpTo(gens, order, i, statuses, written)
        invariant statusWrites == old(statusWrites) + written
      {
        var id := order[i];
        ClosedNext(gens, order, i, statuses, written);
        if gens[id] != GeneratorStatus.Closed {
          var _ := UpdateStatus(id, GeneratorStatus.Closed);
          written := written + [StatusWrite(id, GeneratorStatus.Closed)];
        }
        i := i + 1;
      }
      ClosedDone(gens, order, statuses, written);
      assert statusWrites[|old(statusWrites)|..] == written;
    }

    /** `start_generator`: nothing happens for an id already registered; a
        generator without id is refused; otherwise one process is started
        and one entry with an empty command queue is registered. */
    method StartGenerator(gen: Generator) returns (err: Option<Error>)
      modifies this`procs, this`spawned
      ensures gen.id.Some? && gen.id.value in old(procs) ==>
        err.None? && procs == old(procs) && spawned == old(spawned)
      ensures gen.id.None? ==> err == Some(GeneratorIdIsNone) && procs == old(procs) && spawned == old(spawned)
      ensures gen.id.Some? && gen.id.value !in old(procs) ==>
        err.None? && procs == old(procs)[gen.id.value := ProcEntry(gen, [])]
        && spawned == old(spawned) + [Spawn(gen.name, gen.id.value, gen.engine)]
    {
      if gen.id.Some? && gen.id.value in procs {
        return None;
      }
      if gen.id.None? {
        return Some(GeneratorIdIsNone);
      }
      spawned := spawned + [Spawn(gen.name, gen.id.value, gen.engine)];
      procs := procs[gen.id.value := ProcEntry(gen, [])];
      return None;
    }

    /** `stop_generator`: nothing for an unknown id, otherwise one CLOSE
        command is queued for that generator. */
    method StopGenerator(id: int)
      modifies this`procs
      ensures id !in old(procs) ==> procs == old(procs)
      ensures id in old(procs) ==> procs == old(procs)[id := old(procs)[id].(commands := old(procs)[id].commands + [CloseCommand])]
    {
      if id !in procs {
        return;
      }
      procs := procs[id := procs[id].(commands := procs[id].commands + [CloseCommand])];
    }

    /** One turn of `_infinite_loop`: READY is persisted as READY through
        `on_ready`, CLOSED as CLOSED through `on_closed`; the registry is
        left as it is. */
    method Dispatch(res: Event) returns (err: Option<Error>)
      modifies this`statuses, this`statusWrites
      ensures var r := DispatchAll(old(statuses), [res]);
        statuses == r.statuses && statusWrites == old(statusWrites) + r.writes && err == r.error
    {
      assert [res][1..] == [];
      match res.event {
        case Ready =>
          err := UpdateStatus(res.generatorId, GeneratorStatus.Ready);
        case Closed =>
          err := UpdateStatus(res.generatorId, GeneratorStatus.Closed);
        case _ =>
          err := None;
      }
    }

    /** `_infinite_loop` on the results received: reconciliation, then each
        result in turn until one raises. */
    method InfiniteLoop(order: seq<int>, results: seq<Event>) returns (err: Option<Error>)
      requires ListsAll(order, statuses)
      modifies this`statuses, this`statusWrites
      ensures var r := DispatchAll(AllClosed(old(statuses)), results);
        statuses == r.statuses && err == r.error
      ensures exists w ::
                ReconcileWrites(old(statuses), w)
                && statusWrites == old(statusWrites) + w + DispatchAll(AllClosed(old(statuses)), results).writes
    {
      OnProcessManagerInit(order);
      ghost var w := statusWrites[|old(statusWrites)|..];
      ghost var mid := statusWrites;
      assert mid == old(statusWrites) + w;
      ghost var start := statuses;
      ghost var total := DispatchAll(start, results);
      var i := 0;
      err := None;
      while i < |results|
        invariant 0 <= i <= |results|
        invariant DispatchAll(statuses, results[i..]).statuses == total.statuses
        invariant DispatchAll(statuses, results[i..]).error == total.error
        invariant statusWrites + DispatchAll(statuses, results[i..]).writes == mid + total.writes
        invariant err.None?
        decreases |results| - i
      {
        assert results[i..][0] == results[i] && results[i..][1..] == results[i + 1..];
        DispatchStep(statuses, results[i..]);
        ghost var before := statusWrites;
        ghost var one := DispatchAll(statuses, [results[i]]);
        ghost var rest := DispatchAll(one.statuses, results[i + 1..]);
        err := Dispatch(results[i]);
        AppendAssoc(before, one.writes, rest.writes);
        if err.Some? {
          return;
        }
        i := i + 1;
      }
      assert results[i..] == [];
    }
  }

  /** After a worker reports CLOSED, its registry entry is still there, so
      starting the same generator again neither spawns nor registers. */
  method ClosedThenStartAgain(m: ProcessManager, gen: Generator) returns (err: Option<Error>)
    requires gen.id.Some? && gen.id.value in m.procs && gen.id.value in m.statuses
    modifies m
    ensures err.None? && m.procs == old(m.procs) && m.spawned == old(m.spawned)
    ensures m.statuses == old(m.statuses)[gen.id.value := GeneratorStatus.Closed]
  {
    var e := m.Dispatch(Event(gen.name, gen.id.value, GeneratorEventType.Closed, None));
    err := m.StartGenerator(gen);
  }
}
