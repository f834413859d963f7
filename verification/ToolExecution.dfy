/** State-changing tools, each run under one durable operation that survives restarts. */
module ToolExecution {
  import opened Records
  import opened Steps
  import opened Invariant
  import opened StepLemmas
  import opened Storage
  import opened MotifSteps
  import opened MotifInvariant
  import opened MotifLemmas
  import opened MotifLedger

  /** A call of a state-changing tool. `arguments` is their canonical form, which the fingerprint hashes. */
  datatype ToolCall =
    | RecordMotifs(items: seq<RawItem>, arguments: string)
    | ProposePersona(arguments: string)
    | WriteFile(path: string, content: string, arguments: string)

  function NameOf(call: ToolCall): string {
    match call
    case RecordMotifs(_, _) => "record_motif_observations"
    case ProposePersona(_) => "propose_persona_update"
    case WriteFile(_, _, _) => "write_project_file"
  }

  /** Two calls are the same work exactly if they are of one tool with the same arguments. */
  lemma SameToolWork(x: ToolCall, y: ToolCall)
    ensures ToolWork(NameOf(x), x.arguments) == ToolWork(NameOf(y), y.arguments) <==>
              && (x.RecordMotifs? <==> y.RecordMotifs?) && (x.ProposePersona? <==> y.ProposePersona?)
              && x.arguments == y.arguments
  {
    assert forall call ::
        NameOf(call)[0] == if call.RecordMotifs? then 'r' else if call.ProposePersona? then 'p' else 'w';
  }

  /** What the world outside answers: the turn's user message, the persona store's answer, and whether
      the file may be written. */
  datatype Surroundings = Surroundings(user: Option<string>, personaAnswer: string, permitted: bool)

  lemma ToolRowKeepsInv(db: Tables, next: Tables, key: OpKey, limit: nat)
    requires Inv(db, limit) && OnlyRow(db, next, key) && key.kind.Tool? && key.turn in db.turns
    ensures Inv(next, limit)
  {
    forall t, a, beat: nat ensures BeatOk(next, t, a, beat, limit) {
      assert BeatOk(db, t, a, beat, limit);
      BeatFrame(db, next, t, a, beat, limit);
    }
    assert forall t, a, n :: IsCompleted(next, AgentKey(t, a, n)) == IsCompleted(db, AgentKey(t, a, n));
    RowsKept(db, next);
  }

  lemma ToolBegun(db: Tables, key: OpKey, project: ProjectId, work: Work, limit: nat)
    requires Inv(db, limit) && key.kind.Tool? && BeginOperation(db, key, project, work).Ok?
    ensures Inv(BeginOperation(db, key, project, work).value.db, limit)
  {
    if key !in db.operations {
      ToolRowKeepsInv(db, BeginOperation(db, key, project, work).value.db, key, limit);
    }
  }

  lemma ToolCompleted(db: Tables, key: OpKey, result: OpResult, limit: nat)
    requires Inv(db, limit) && key.kind.Tool? && CompleteOperation(db, key, result).Ok?
    ensures Inv(CompleteOperation(db, key, result).value, limit)
  {
    if db.operations[key].state.Started? {
      ToolRowKeepsInv(db, CompleteOperation(db, key, result).value, key, limit);
    }
  }

  predicate NoKeyTwice(keys: seq<OpKey>) {
    forall i, j :: 0 <= i < j < |keys| ==> keys[i] != keys[j]
  }

  predicate AnswersAreToolAnswers(db: Tables) {
    forall k :: k in db.operations && k.kind.Tool? && IsCompleted(db, k) ==> db.operations[k].state.result.ToolResult?
  }

  /** What recording a batch during the operation's own beat comes to. */
  function RecordUnder(tables: MotifTables, key: OpKey, project: ProjectId, user: Option<string>, items: seq<RawItem>)
    : (MotifTables, Result<BatchResult>)
  {
    RecordBatch(tables, key, Beat(project, key.agent, key.turn, key.beat), user, items)
  }

  /** The effect of an interrupted call can be found: its batch is recorded, or its file has the content. */
  predicate Found(call: ToolCall, key: OpKey, files: map<string, string>, tables: MotifTables) {
    match call
    case RecordMotifs(_, _) => key in tables.batches
    case WriteFile(path, content, _) => path in files && files[path] == content
    case ProposePersona(_) => false
  }

  /** The answer of a call that has none stored yet. `begun` says that an earlier attempt claimed it. */
  function Due(call: ToolCall, key: OpKey, project: ProjectId, around: Surroundings, begun: bool,
               files: map<string, string>, tables: MotifTables): ToolAnswer
  {
    match call
    case ProposePersona(_) => if begun then NeedsReview else PersonaAnswered(around.personaAnswer)
    case RecordMotifs(items, _) =>
      if begun && key in tables.batches then MotifsRecorded(tables.batches[key].result)
      else
        (match RecordUnder(tables, key, project, around.user, items).1
         case Ok(batch) => MotifsRecorded(batch)
         case Err(error) => ToolRefused(error))
    case WriteFile(path, content, _) =>
      if begun && path in files && files[path] == content then FileWritten(path, true, true)
      else if around.permitted then FileWritten(path, path in files, false)
      else ToolRefused(Invalid)
  }

  /** A batch recorded by an attempt that died before answering is answered as it would have been. */
  lemma RecoveredBatchAnswers(call: ToolCall, key: OpKey, project: ProjectId, around: Surroundings,
                              files: map<string, string>, tables: MotifTables)
    requires call.RecordMotifs? && key !in tables.batches
    ensures var after := RecordUnder(tables, key, project, around.user, call.items).0;
            Found(call, key, files, after) ==>
              Due(call, key, project, around, true, files, after)
              == Due(call, key, project, around, false, files, tables)
  {
    hide BatchAccepted, RecordAll, Occupied;
  }

  /** A file written by an attempt that died before answering is answered as recovered; and whether it took
      the place of another is told truly exactly if it did. */
  lemma RecoveredWriteClaimsOverwrite(call: ToolCall, key: OpKey, project: ProjectId, around: Surroundings,
                                      files: map<string, string>, tables: MotifTables)
    requires call.WriteFile? && around.permitted
    ensures var after := files[call.path := call.content];
            var first := Due(call, key, project, around, false, files, tables);
            var second := Due(call, key, project, around, true, after, tables);
            && first.FileWritten? && second.FileWritten? && second.recovered
            && (second == first.(recovered := true) <==> call.path in files)
  {
  }

  class ToolExecutor {
    const storage: Storage
    const motifs: MotifStore
    const limit: nat
    var files: map<string, string>
    ghost var personaCalls: seq<OpKey>     // the operations under which the persona store was asked

    constructor (storage: Storage, motifs: MotifStore, limit: nat)
      requires Inv(storage.tables, limit) && motifs.Valid() && AnswersAreToolAnswers(storage.tables)
      ensures Valid() && this.storage == storage && this.motifs == motifs && this.limit == limit
      ensures files == map[] && personaCalls == []
    {
      this.storage, this.motifs, this.limit := storage, motifs, limit;
      files := map[];
      personaCalls := [];
    }

    /** No operation has asked the persona store twice, and each that asked has its row. */
    ghost predicate Valid()
      reads this, storage, motifs
    {
      && Inv(storage.tables, limit) && motifs.Valid()
      && AnswersAreToolAnswers(storage.tables)
      && NoKeyTwice(personaCalls)
      && (forall k :: k in personaCalls ==> k in storage.tables.operations)
    }

    /** Nothing but operation rows changed. */
    twostate predicate EffectsUnchanged()
      reads this, motifs
    {
      motifs.tables == old(motifs.tables) && files == old(files) && personaCalls == old(personaCalls)
    }

    /** Run a tool under its operation: a completed one answers from its row, one that a restart
        interrupted is recovered if its effect can be found, and otherwise the tool runs. */
    method Execute(call: ToolCall, key: OpKey, project: ProjectId, attempt: Attempt, around: Surroundings)
      returns (r: Outcome<ToolAnswer>)
      requires Valid() && key.kind.Tool?
      modifies this, storage`tables, motifs, attempt`callsLeft
      ensures Valid()
      ensures r.Done? ==>
                IsCompleted(storage.tables, key) && storage.tables.operations[key].state.result == ToolResult(r.value)
      ensures IsCompleted(old(storage.tables), key) ==> EffectsUnchanged() && storage.tables == old(storage.tables)
      ensures key in old(storage.tables).operations && call.ProposePersona? ==> EffectsUnchanged()
      ensures key in old(storage.tables).operations && key in old(motifs.tables).batches ==>
                motifs.tables == old(motifs.tables)
      ensures motifs.tables == old(motifs.tables)
              || (call.RecordMotifs?
                  && motifs.tables
                     == RecordUnder(old(motifs.tables), key, project, around.user, call.items).0)
      ensures files == old(files)
              || (call.WriteFile? && around.permitted && files == old(files)[call.path := call.content])
      ensures personaCalls == old(personaCalls)
              || (call.ProposePersona? && personaCalls == old(personaCalls) + [key])
      ensures r.Done? && !IsCompleted(old(storage.tables), key) ==>
                var begun := key in old(storage.tables).operations;
                && r.value == Due(call, key, project, around, begun, old(files), old(motifs.tables))
                && motifs.tables
                   == (if call.RecordMotifs? && !(begun && key in old(motifs.tables).batches)
                       then RecordUnder(old(motifs.tables), key, project, around.user, call.items).0
                       else old(motifs.tables))
                && files == (if r.value.FileWritten? then old(files)[call.path := call.content] else old(files))
                && personaCalls == old(personaCalls) + if call.ProposePersona? && !begun then [key] else []
      ensures forall k :: k != key ==>
                (k in storage.tables.operations <==> k in old(storage.tables).operations)
                && (k in old(storage.tables).operations ==>
                      storage.tables.operations[k] == old(storage.tables).operations[k])
    {
      hide Inv, LedgerOk, RecordBatch, NoKeyTwice, AnswersAreToolAnswers;
      var existedBefore := call.WriteFile? && call.path in files;
      var begun :- Begin(call, key, project, attempt);
      var (row, created) := begun;
      if row.state.Completed? {
        return Done(row.state.result.answer);
      }
      if !created {
        var recovered := Recover(call, key, existedBefore);
        if recovered.Some? {
          r := Complete(key, recovered.value);
          return;
        }
      }
      var answer :- ExecuteOnce(call, key, project, attempt, around, existedBefore);
      var _ :- attempt.Step();
      r := Complete(key, answer);
    }

    method Begin(call: ToolCall, key: OpKey, project: ProjectId, attempt: Attempt) returns (r: Outcome<(OpRow, bool)>)
      requires Valid() && key.kind.Tool?
      modifies storage`tables, attempt`callsLeft
      ensures Valid()
      ensures r.Done? ==>
                && key in storage.tables.operations && r.value.0 == storage.tables.operations[key]
                && r.value.1 == (key !in old(storage.tables).operations)
                && (r.value.0.state.Completed? ==> r.value.0.state.result.ToolResult?)
      ensures key in old(storage.tables).operations || r.Stopped? ==> storage.tables == old(storage.tables)
      ensures key !in old(storage.tables).operations && r.Done? ==>
                r.value.0.state.Started?
                && storage.tables
                   == old(storage.tables).(operations := old(storage.tables).operations[key := r.value.0])
    {
      hide Inv, LedgerOk;
      var _ :- attempt.Step();
      var work := ToolWork(NameOf(call), call.arguments);
      if BeginOperation(storage.tables, key, project, work).Ok? {
        ToolBegun(storage.tables, key, project, work, limit);
      }
      var begun := storage.BeginTurnOperation(key, project, work);
      if begun.Err? {
        return Stopped(Refused(begun.error));
      }
      return Done(begun.value);
    }

    method Complete(key: OpKey, answer: ToolAnswer) returns (r: Outcome<ToolAnswer>)
      requires Valid() && key.kind.Tool? && key in storage.tables.operations
      requires storage.tables.operations[key].state.Started?
      modifies storage`tables
      ensures Valid() && r == Done(answer)
      ensures CompleteOperation(old(storage.tables), key, ToolResult(answer)) == Ok(storage.tables)
    {
      hide Inv, LedgerOk;
      ToolCompleted(storage.tables, key, ToolResult(answer), limit);
      var completed := storage.CompleteTurnOperation(key, ToolResult(answer));
      return Done(answer);
    }

    /** Find out whether an interrupted tool had its effect. */
    method Recover(call: ToolCall, key: OpKey, existedBefore: bool) returns (r: Option<ToolAnswer>)
      ensures call.ProposePersona? ==> r == Some(NeedsReview)
      ensures call.RecordMotifs? ==>
                r == if key in motifs.tables.batches then Some(MotifsRecorded(motifs.tables.batches[key].result))
                     else None
      ensures call.WriteFile? ==>
                r == if call.path in files && files[call.path] == call.content
                     then Some(FileWritten(call.path, existedBefore, true)) else None
    {
      match call
      case ProposePersona(_) => return Some(NeedsReview);
      case RecordMotifs(_, _) =>
        if key in motifs.tables.batches {
          return Some(MotifsRecorded(motifs.tables.batches[key].result));
        }
        return None;
      case WriteFile(path, content, _) =>
        if path !in files || files[path] != content {
          return None;
        }
        return Some(FileWritten(path, existedBefore, true));
    }

    /** The effect itself, unless the attempt ends before it. */
    method ExecuteOnce(call: ToolCall, key: OpKey, project: ProjectId, attempt: Attempt, around: Surroundings,
                       existedBefore: bool)
      returns (r: Outcome<ToolAnswer>)
      requires Valid() && key in storage.tables.operations
      requires call.ProposePersona? ==> key !in personaCalls
      modifies this, motifs, attempt`callsLeft
      ensures Valid()
      ensures r.Stopped? ==> EffectsUnchanged()
      ensures r.Done? ==>
                match call
                case ProposePersona(_) => r.value == PersonaAnswered(around.personaAnswer)
                case WriteFile(path, _, _) =>
                  r.value == if around.permitted then FileWritten(path, existedBefore, false) else ToolRefused(Invalid)
                case RecordMotifs(items, _) =>
                  match RecordUnder(old(motifs.tables), key, project, around.user, items).1
                  case Ok(batch) => r.value == MotifsRecorded(batch)
                  case Err(error) => r.value == ToolRefused(error)
      ensures if call.RecordMotifs? && r.Done?
              then motifs.tables
                   == RecordUnder(old(motifs.tables), key, project, around.user, call.items).0
              else motifs.tables == old(motifs.tables)
      ensures if call.WriteFile? && around.permitted && r.Done?
              then files == old(files)[call.path := call.content]
              else files == old(files)
      ensures personaCalls == if call.ProposePersona? && r.Done? then old(personaCalls) + [key] else old(personaCalls)
    {
      hide Inv, LedgerOk;
      var _ :- attempt.Step();
      match call
      case ProposePersona(_) =>
        personaCalls := personaCalls + [key];
        return Done(PersonaAnswered(around.personaAnswer));
      case RecordMotifs(items, _) =>
        var recorded := motifs.RecordMotifObservations(key, Beat(project, key.agent, key.turn, key.beat), around.user,
                                                       items);
        match recorded {
          case Ok(batch) => return Done(MotifsRecorded(batch));
          case Err(error) => return Done(ToolRefused(error));
        }
      case WriteFile(path, content, _) =>
        if !around.permitted {
          return Done(ToolRefused(Invalid));
        }
        files := files[path := content];
        return Done(FileWritten(path, existedBefore, false));
    }
  }
}
