/** Changing rows of the turn table, and pruning, keep the invariant; ended turns stay as they are. */
module TurnLemmas {
  import opened Records
  import opened Steps
  import opened Invariant
  import opened StepLemmas
  import opened Journal

  /** How one turn's row may change from one durable state to any later one. */
  predicate TurnStep(x: TurnRow, y: TurnRow) {
    && y.project == x.project && y.fingerprint == x.fingerprint
    && y.request == x.request && y.runtime == x.runtime
    && (Ended(x) ==>
          y.status == x.status && y.result == x.result && y.accepted == x.accepted && y.failure == x.failure)
    && (x.accepted ==> y.accepted)
    && (y.accepted && !x.accepted ==> y.status == Failed || y.status == Interrupted)
  }

  ghost predicate TurnsStep(x: Tables, y: Tables) {
    forall t :: t in x.turns ==> t in y.turns && TurnStep(x.turns[t], y.turns[t])
  }

  lemma TurnsStepTransitive(x: Tables, y: Tables, z: Tables)
    requires TurnsStep(x, y) && TurnsStep(y, z)
    ensures TurnsStep(x, z)
  {
  }

  // -- rows change, nothing else -------------------------------------------------------------

  /** `y` has the turns of `x`, and maybe new ones, each stepped; no ended turn lives again. */
  ghost predicate TurnsOnly(x: Tables, y: Tables) {
    && y == x.(turns := y.turns)
    && TurnsStep(x, y)
  }

  lemma TurnsOnlyRows(x: Tables, y: Tables)
    requires OperationsOk(x) && MessagesOk(x) && MemoriesOk(x) && GlobalsOk(x) && TurnsOnly(x, y)
    ensures OperationsOk(y) && MessagesOk(y) && MemoriesOk(y) && GlobalsOk(y)
  {
    assert forall t, id :: IsUserMessage(y, t, id) == IsUserMessage(x, t, id);
    forall k | k in y.messageOf ensures k.kind == MessageCommitted && IsMessage(y, k, y.messageOf[k]) {
      assert IsMessage(x, k, x.messageOf[k]);
    }
    forall k | k in y.memoryOf ensures k.kind == MemoryCommitted && IsMemory(y, k, y.memoryOf[k]) {
      assert IsMemory(x, k, x.memoryOf[k]);
    }
  }

  lemma TurnsOnlyBeat(x: Tables, y: Tables, t: TurnId, a: AgentId, beat: nat, limit: nat)
    requires BeatOk(x, t, a, beat, limit) && y == x.(turns := y.turns)
    requires IsLive(y, t) ==>
               IsLive(x, t) || (MessageKey(t, a, beat) !in x.messageOf && MemoryKey(t, a, beat) !in x.memoryOf)
    ensures BeatOk(y, t, a, beat, limit)
  {
    assert MessageStageOk(y, t, a, beat);
    assert MemoryStageOk(y, t, a, beat);
    assert FinishStageOk(y, t, a, beat, limit);
  }

  lemma TurnsOnlyBeats(x: Tables, y: Tables, limit: nat)
    requires MessagesOk(x) && MemoriesOk(x) && BeatsOk(x, limit) && TurnsOnly(x, y)
    ensures BeatsOk(y, limit)
  {
    forall t, a, beat: nat ensures BeatOk(y, t, a, beat, limit) {
      assert BeatOk(x, t, a, beat, limit);
      var msg, mem := MessageKey(t, a, beat), MemoryKey(t, a, beat);
      assert msg in x.messageOf ==> IsMessage(x, msg, x.messageOf[msg]);
      assert mem in x.memoryOf ==> IsMemory(x, mem, x.memoryOf[mem]);
      TurnsOnlyBeat(x, y, t, a, beat, limit);
    }
  }

  lemma TurnsOnlyKeepsInv(x: Tables, y: Tables, limit: nat)
    requires Inv(x, limit) && TurnsOnly(x, y) && TurnsOk(y) && FingerprintsOk(y)
    ensures Inv(y, limit)
  {
    TurnsOnlyRows(x, y);
    TurnsOnlyBeats(x, y, limit);
    assert forall t, a, n :: IsCompleted(y, AgentKey(t, a, n)) == IsCompleted(x, AgentKey(t, a, n));
  }

  lemma TurnsOnlyKeepsJournal(x: Tables, y: Tables, journal: seq<Event>, limit: nat)
    requires JournalOk(journal, x, limit) && TurnsOnly(x, y)
    ensures JournalOk(journal, y, limit)
  {
    FinishesStay(journal, x, y, limit);
  }

  // -- the steps of the turn table -----------------------------------------------------------

  /** A turn may be finished once it is running: completed with a result, or failed. */
  predicate MayEnd(db: Tables, turn: TurnId, status: Status, result: Option<RoomResult>) {
    && IsLive(db, turn)
    && (status == CompletedTurn ==> result.Some?)
    && status != Running
  }

  lemma NewTurnRow(db: Tables, request: Request, runtime: Runtime, next: Tables)
    requires request.turn !in db.turns && BeginTurn(db, request.turn, request, runtime).Ok?
    requires next == BeginTurn(db, request.turn, request, runtime).value.db
    ensures request.project in db.projects && next == db.(turns := next.turns)
    ensures forall t :: t in next.turns <==> t in db.turns || t == request.turn
    ensures forall t :: t in db.turns ==> next.turns[t] == db.turns[t]
    ensures var row := next.turns[request.turn];
            && row.project == request.project && row.request == Some(request) && row.runtime == Some(runtime)
            && row.status == Running && !row.accepted && row.trace == [] && row.result == None
            && OwnFingerprint(row)
  {
  }

  lemma BeginTurnSteps(db: Tables, request: Request, runtime: Runtime, limit: nat)
    requires Inv(db, limit) && BeginTurn(db, request.turn, request, runtime).Ok?
    ensures var next := BeginTurn(db, request.turn, request, runtime).value.db;
            TurnsOnly(db, next) && TurnsOk(next) && FingerprintsOk(next)
  {
    hide OperationsOk, MessagesOk, MemoriesOk, GlobalsOk, SequencesOk, BeatsOk, FinishesOk;
    var next := BeginTurn(db, request.turn, request, runtime).value.db;
    if request.turn in db.turns {
      assert next == db;
    } else {
      NewTurnRow(db, request, runtime, next);
      hide BeginTurn, OwnFingerprint;
    }
  }

  /** A turn's identifier stands for one request: it finds its row again for that request, and for no other. */
  lemma KnownTurnConflicts(db: Tables, request: Request, runtime: Runtime, limit: nat)
    requires Inv(db, limit) && request.turn in db.turns
    ensures match BeginTurn(db, request.turn, request, runtime)
            case Ok(begun) =>
              && begun == TurnBegun(db, db.turns[request.turn], false)
              && db.turns[request.turn].request == Some(request) && request.project in db.projects
            case Err(error) =>
              if request.project !in db.projects then error == NotFound
              else error == Conflict && db.turns[request.turn].request != Some(request)
  {
  }

  lemma FinishTurnSteps(db: Tables, turn: TurnId, status: Status, result: Option<RoomResult>,
                        trace: seq<TraceEvent>, failure: Option<string>, limit: nat)
    requires Inv(db, limit) && MayEnd(db, turn, status, result)
    ensures FinishTurn(db, turn, status, result, trace, failure).Ok?
    ensures var next := FinishTurn(db, turn, status, result, trace, failure).value;
            TurnsOnly(db, next) && TurnsOk(next) && FingerprintsOk(next)
  {
    hide OperationsOk, MessagesOk, MemoriesOk, GlobalsOk, SequencesOk, BeatsOk, FinishesOk;
  }

  lemma ResumeTurnSteps(db: Tables, turn: TurnId, limit: nat)
    requires Inv(db, limit)
    ensures ResumeTurn(db, turn).Ok? <==>
              IsLive(db, turn) && db.turns[turn].status != Running
    ensures ResumeTurn(db, turn).Ok? ==>
              var next := ResumeTurn(db, turn).value;
              && TurnsOnly(db, next) && TurnsOk(next) && FingerprintsOk(next)
              && next.turns[turn].status == Running && IsLive(next, turn)
  {
    hide OperationsOk, MessagesOk, MemoriesOk, GlobalsOk, SequencesOk, BeatsOk, FinishesOk;
  }

  lemma ResolveTurnSteps(db: Tables, turn: TurnId, limit: nat)
    requires Inv(db, limit)
    ensures ResolveTurn(db, turn).Ok? <==> IsLive(db, turn) && db.turns[turn].status != Running
    ensures ResolveTurn(db, turn).Ok? ==>
              var next := ResolveTurn(db, turn).value;
              TurnsOnly(db, next) && TurnsOk(next) && FingerprintsOk(next) && Ended(next.turns[turn])
  {
    hide OperationsOk, MessagesOk, MemoriesOk, GlobalsOk, SequencesOk, BeatsOk, FinishesOk;
  }

  lemma SweptIs(x: Tables, y: Tables)
    requires y == x.(turns := y.turns) && y.turns.Keys == x.turns.Keys
    requires forall t :: t in y.turns ==>
               && y.turns[t] == x.turns[t].(status := y.turns[t].status)
               && y.turns[t].status == (if x.turns[t].status == Running then Interrupted else x.turns[t].status)
    ensures y == SweepRunning(x)
  {
    assert y.turns == SweepRunning(x).turns;
  }

  lemma SweepSteps(db: Tables, limit: nat)
    requires Inv(db, limit)
    ensures TurnsOnly(db, SweepRunning(db)) && TurnsOk(SweepRunning(db)) && FingerprintsOk(SweepRunning(db))
    ensures forall t :: t in SweepRunning(db).turns ==> SweepRunning(db).turns[t].status != Running
  {
    hide OperationsOk, MessagesOk, MemoriesOk, GlobalsOk, SequencesOk, BeatsOk, FinishesOk;
  }

  // -- pruning -------------------------------------------------------------------------------

  lemma PrunedBeat(db: Tables, stale: set<TurnId>, t: TurnId, a: AgentId, beat: nat, limit: nat)
    requires BeatOk(db, t, a, beat, limit)
    ensures BeatOk(PruneTraces(db, stale), t, a, beat, limit)
  {
    var next := PruneTraces(db, stale);
    assert IsLive(next, t) <==> IsLive(db, t);
    if t in db.turns && t in stale && Ended(db.turns[t]) {
      assert forall k :: k in next.operations ==> k.turn != t;
    } else {
      assert forall k: OpKey :: k.turn == t ==> (k in next.operations <==> k in db.operations);
      assert forall k: OpKey :: k.turn == t && k in db.operations ==> next.operations[k] == db.operations[k];
      BeatFrame(db, next, t, a, beat, limit);
    }
  }

  lemma PruneTurns(db: Tables, stale: set<TurnId>)
    requires TurnsOk(db) && OperationsOk(db)
    ensures TurnsOk(PruneTraces(db, stale)) && OperationsOk(PruneTraces(db, stale))
    ensures FingerprintsOk(db) ==> FingerprintsOk(PruneTraces(db, stale))
    ensures TurnsStep(db, PruneTraces(db, stale))
  {
  }

  lemma PruneMessages(db: Tables, stale: set<TurnId>)
    requires MessagesOk(db)
    ensures MessagesOk(PruneTraces(db, stale))
  {
    var next := PruneTraces(db, stale);
    assert forall t, id :: IsUserMessage(next, t, id) == IsUserMessage(db, t, id);
    forall k | k in next.messageOf ensures k.kind == MessageCommitted && IsMessage(next, k, next.messageOf[k]) {
      assert IsMessage(db, k, db.messageOf[k]);
    }
  }

  lemma PruneMemories(db: Tables, stale: set<TurnId>)
    requires MemoriesOk(db) && GlobalsOk(db)
    ensures MemoriesOk(PruneTraces(db, stale)) && GlobalsOk(PruneTraces(db, stale))
  {
  }

  lemma PruneBeats(db: Tables, stale: set<TurnId>, limit: nat)
    requires BeatsOk(db, limit) && FinishesOk(db)
    ensures BeatsOk(PruneTraces(db, stale), limit) && FinishesOk(PruneTraces(db, stale))
  {
    var next := PruneTraces(db, stale);
    forall t, a, beat: nat ensures BeatOk(next, t, a, beat, limit) {
      assert BeatOk(db, t, a, beat, limit);
      PrunedBeat(db, stale, t, a, beat, limit);
    }
    forall t, a, m: nat, n: nat | IsCompleted(next, AgentKey(t, a, m)) && IsCompleted(next, AgentKey(t, a, n))
      ensures m == n
    {
      assert IsCompleted(db, AgentKey(t, a, m)) && IsCompleted(db, AgentKey(t, a, n));
    }
  }

  /** Pruning removes no operation of a turn that can still be resumed, and keeps the invariant. */
  lemma PruneKeepsInv(db: Tables, stale: set<TurnId>, limit: nat)
    requires Inv(db, limit)
    ensures var next := PruneTraces(db, stale);
            && Inv(next, limit)
            && TurnsStep(db, next)
            && next == db.(turns := next.turns, operations := next.operations)
            && (forall k :: k in db.operations && !Ended(db.turns[k.turn]) ==>
                  k in next.operations && next.operations[k] == db.operations[k])
  {
    PruneTurns(db, stale);
    PruneMessages(db, stale);
    PruneMemories(db, stale);
    PruneBeats(db, stale, limit);
  }

  lemma PruneKeepsJournal(db: Tables, stale: set<TurnId>, journal: seq<Event>, limit: nat)
    requires JournalOk(journal, db, limit)
    ensures JournalOk(journal, PruneTraces(db, stale), limit)
  {
    var next := PruneTraces(db, stale);
    assert Journal.Recorded(journal, next);
    forall t, a, n: nat | IsCompleted(next, AgentKey(t, a, n))
      ensures IsCompleted(db, AgentKey(t, a, n))
      ensures forall dropped :: Ending(next, t, a, n, dropped, limit) == Ending(db, t, a, n, dropped, limit)
    {
      assert forall kind :: IsCompleted(next, OpKey(t, a, n, kind)) == IsCompleted(db, OpKey(t, a, n, kind));
    }
  }
}
