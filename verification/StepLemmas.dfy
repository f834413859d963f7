/** Every storage call the executor makes keeps the invariant, and none of them is refused. */
module StepLemmas {
  import opened Records
  import opened Steps
  import opened Invariant

  /** Agent `a` of turn `t` may work: the turn is being run and the agent has not finished. */
  ghost predicate Working(db: Tables, t: TurnId, a: AgentId) {
    IsLive(db, t) && db.turns[t].runtime.Some? && !AgentIsFinished(db, t, a)
  }

  /** What must already be durable before a stage is begun. */
  predicate MayBegin(db: Tables, key: OpKey, limit: nat) {
    var t, a, beat := key.turn, key.agent, key.beat;
    match key.kind
    case ProviderCompletion => Requested(db, t, a, beat, limit)
    case MessageCommitted => HasCompletion(db, CompletionKey(t, a, beat))
    case MemoryCommitted => CompletionKey(t, a, beat) in db.operations
    case BeatFinished => IsCompleted(db, MemoryKey(t, a, beat))
    case AgentFinished => IsCompleted(db, BeatKey(t, a, beat)) || Uncited(db, t, a, beat)
    case Tool(_, _, _) => false
  }

  /** What must already be durable before a stage is completed with `result`. */
  predicate MayComplete(db: Tables, key: OpKey, result: OpResult, limit: nat) {
    var t, a, beat := key.turn, key.agent, key.beat;
    key in db.operations &&
    match key.kind
    case ProviderCompletion => !IsCompleted(db, key) && result.CompletionResult?
    case MessageCommitted => key in db.messageOf && result == MessageResult(db.messageOf[key])
    case MemoryCommitted =>
      && key in db.memoryOf && result == MemoryResult(db.memoryOf[key])
      && (RecordedSuccess(db, key) ==> db.memoryOf[key] in db.globalOf)
    case BeatFinished => result == FinishedResult
    case AgentFinished =>
      && result == AgentResult(beat)
      && (Uncited(db, t, a, beat) || Over(db, t, a, beat, limit))
    case Tool(_, _, _) => false
  }

  /** `next` differs from `db` in the operation row of `key` alone. */
  ghost predicate OnlyRow(db: Tables, next: Tables, key: OpKey) {
    && next == db.(operations := next.operations)
    && key in next.operations
    && (forall k :: k != key ==> (k in next.operations <==> k in db.operations))
    && (forall k :: k != key && k in db.operations ==> next.operations[k] == db.operations[k])
    && (IsCompleted(db, key) ==> next.operations[key] == db.operations[key])
  }

  predicate NearBeat(key: OpKey, t: TurnId, a: AgentId, beat: nat) {
    key.turn == t && key.agent == a && (key.beat == beat || key.beat + 1 == beat) && !key.kind.Tool?
  }

  /** A beat's soundness depends on its own operations and its predecessor's. */
  lemma BeatFrame(db: Tables, next: Tables, t: TurnId, a: AgentId, beat: nat, limit: nat)
    requires BeatOk(db, t, a, beat, limit) && IsLive(next, t) == IsLive(db, t)
    requires next == db.(turns := next.turns, operations := next.operations)
    requires forall k :: NearBeat(k, t, a, beat) ==> (k in next.operations <==> k in db.operations)
    requires forall k :: NearBeat(k, t, a, beat) && k in db.operations ==> next.operations[k] == db.operations[k]
    ensures BeatOk(next, t, a, beat, limit)
  {
  }

  lemma OtherBeatsKept(db: Tables, next: Tables, key: OpKey, t: TurnId, a: AgentId, beat: nat, limit: nat)
    requires BeatOk(db, t, a, beat, limit) && OnlyRow(db, next, key)
    requires t != key.turn || a != key.agent || (beat != key.beat && beat != key.beat + 1)
    ensures BeatOk(next, t, a, beat, limit)
  {
    BeatFrame(db, next, t, a, beat, limit);
  }

  lemma NextStagesKept(db: Tables, next: Tables, key: OpKey, limit: nat)
    requires BeatOk(db, key.turn, key.agent, key.beat + 1, limit) && OnlyRow(db, next, key)
    ensures MessageStageOk(next, key.turn, key.agent, key.beat + 1)
    ensures MemoryStageOk(next, key.turn, key.agent, key.beat + 1)
    ensures FinishStageOk(next, key.turn, key.agent, key.beat + 1, limit)
  {
    hide Requested;
  }

  lemma NextBeatKept(db: Tables, next: Tables, key: OpKey, limit: nat)
    requires BeatOk(db, key.turn, key.agent, key.beat + 1, limit) && OnlyRow(db, next, key)
    ensures BeatOk(next, key.turn, key.agent, key.beat + 1, limit)
  {
    var t, a, beat := key.turn, key.agent, key.beat;
    NextStagesKept(db, next, key, limit);
    hide MessageStageOk, MemoryStageOk, FinishStageOk;
    assert AnyStage(next, t, a, beat + 1) == AnyStage(db, t, a, beat + 1);
    if AnyStage(db, t, a, beat + 1) && beat + 1 > 1 {
      assert AllStages(db, t, a, beat) && AllStages(next, t, a, beat);
      assert CompletionOf(next, CompletionKey(t, a, beat)) == CompletionOf(db, CompletionKey(t, a, beat));
    }
  }

  /** `next` begins the stage `key` of a beat that was well formed. */
  ghost predicate Begins(db: Tables, next: Tables, key: OpKey, limit: nat) {
    && BeatOk(db, key.turn, key.agent, key.beat, limit) && MayBegin(db, key, limit)
    && IsLive(db, key.turn)
    && OnlyRow(db, next, key) && key !in db.operations && next.operations[key].state.Started?
  }

  lemma BegunMessageKept(db: Tables, next: Tables, key: OpKey, limit: nat)
    requires Begins(db, next, key, limit)
    ensures MessageStageOk(next, key.turn, key.agent, key.beat)
  {
  }

  lemma BegunMemoryKept(db: Tables, next: Tables, key: OpKey, limit: nat)
    requires Begins(db, next, key, limit)
    ensures MemoryStageOk(next, key.turn, key.agent, key.beat)
  {
  }

  lemma BegunFinishKept(db: Tables, next: Tables, key: OpKey, limit: nat)
    requires Begins(db, next, key, limit)
    ensures FinishStageOk(next, key.turn, key.agent, key.beat, limit)
  {
  }

  lemma BegunBeatKept(db: Tables, next: Tables, key: OpKey, limit: nat)
    requires Begins(db, next, key, limit)
    ensures BeatOk(next, key.turn, key.agent, key.beat, limit)
  {
    hide MessageStageOk, MemoryStageOk, FinishStageOk;
    BegunMessageKept(db, next, key, limit);
    BegunMemoryKept(db, next, key, limit);
    BegunFinishKept(db, next, key, limit);
  }

  /** `next` completes the stage `key` of a beat that was well formed, with `result`. */
  ghost predicate Completes(db: Tables, next: Tables, key: OpKey, result: OpResult, limit: nat) {
    && BeatOk(db, key.turn, key.agent, key.beat, limit) && MayComplete(db, key, result, limit)
    && !IsCompleted(db, key) && !IsCompleted(db, AgentKey(key.turn, key.agent, key.beat))
    && OnlyRow(db, next, key) && next.operations[key].state == Completed(result)
  }

  lemma CompletionStageKept(db: Tables, next: Tables, key: OpKey, result: OpResult, limit: nat)
    requires Completes(db, next, key, result, limit) && key.kind == ProviderCompletion
    ensures BeatOk(next, key.turn, key.agent, key.beat, limit)
  {
  }

  lemma MessageStageKept(db: Tables, next: Tables, key: OpKey, result: OpResult, limit: nat)
    requires Completes(db, next, key, result, limit) && key.kind == MessageCommitted
    ensures BeatOk(next, key.turn, key.agent, key.beat, limit)
  {
  }

  lemma MemoryStageKept(db: Tables, next: Tables, key: OpKey, result: OpResult, limit: nat)
    requires Completes(db, next, key, result, limit) && key.kind == MemoryCommitted
    requires key in db.memoryOf ==> db.memoryOf[key] < |db.memories|
    ensures BeatOk(next, key.turn, key.agent, key.beat, limit)
  {
  }

  lemma FinishStageKept(db: Tables, next: Tables, key: OpKey, result: OpResult, limit: nat)
    requires Completes(db, next, key, result, limit) && (key.kind == BeatFinished || key.kind == AgentFinished)
    ensures BeatOk(next, key.turn, key.agent, key.beat, limit)
  {
    var t, a, beat := key.turn, key.agent, key.beat;
    assert MessageStageOk(next, t, a, beat);
    assert MemoryStageOk(next, t, a, beat);
    assert FinishStageOk(next, t, a, beat, limit);
  }

  lemma CompletedBeatKept(db: Tables, next: Tables, key: OpKey, result: OpResult, limit: nat)
    requires Completes(db, next, key, result, limit)
    requires key.kind == MemoryCommitted && key in db.memoryOf ==> db.memoryOf[key] < |db.memories|
    ensures BeatOk(next, key.turn, key.agent, key.beat, limit)
  {
    match key.kind {
      case ProviderCompletion => CompletionStageKept(db, next, key, result, limit);
      case MessageCommitted => MessageStageKept(db, next, key, result, limit);
      case MemoryCommitted => MemoryStageKept(db, next, key, result, limit);
      case BeatFinished => FinishStageKept(db, next, key, result, limit);
      case AgentFinished => FinishStageKept(db, next, key, result, limit);
    }
  }

  lemma BeatsKept(db: Tables, next: Tables, key: OpKey, limit: nat)
    requires BeatsOk(db, limit) && OnlyRow(db, next, key)
    requires BeatOk(next, key.turn, key.agent, key.beat, limit)
    ensures BeatsOk(next, limit)
  {
    forall t, a, beat: nat ensures BeatOk(next, t, a, beat, limit) {
      assert BeatOk(db, t, a, beat, limit);
      if t != key.turn || a != key.agent || (beat != key.beat && beat != key.beat + 1) {
        OtherBeatsKept(db, next, key, t, a, beat, limit);
      } else if beat == key.beat + 1 {
        NextBeatKept(db, next, key, limit);
      }
    }
  }

  lemma FinishesKept(db: Tables, next: Tables, key: OpKey)
    requires FinishesOk(db) && !AgentIsFinished(db, key.turn, key.agent) && OnlyRow(db, next, key)
    ensures FinishesOk(next)
  {
  }

  lemma RowsKept(db: Tables, next: Tables)
    requires TurnsOk(db) && MessagesOk(db) && MemoriesOk(db) && GlobalsOk(db)
    requires next == db.(operations := next.operations)
    ensures TurnsOk(next) && MessagesOk(next) && MemoriesOk(next) && GlobalsOk(next)
  {
    assert forall k, id :: IsMessage(next, k, id) == IsMessage(db, k, id);
    assert forall k, id :: IsMemory(next, k, id) == IsMemory(db, k, id);
    assert forall t, id :: IsUserMessage(next, t, id) == IsUserMessage(db, t, id);
  }

  lemma OperationsKept(db: Tables, next: Tables, key: OpKey)
    requires TurnsOk(db) && OperationsOk(db) && OnlyRow(db, next, key) && IsLive(db, key.turn)
    requires key in db.operations ==>
               next.operations[key].project == db.operations[key].project
               && next.operations[key].work == db.operations[key].work
    requires key !in db.operations ==>
               var turn := db.turns[key.turn];
               next.operations[key].project == turn.project
               && next.operations[key].work == StageWorkOf(key, turn.project, turn.runtime.value)
    ensures OperationsOk(next)
  {
  }

  lemma RowGrows(db: Tables, next: Tables, key: OpKey)
    requires OnlyRow(db, next, key)
    ensures Grows(db, next, key.turn, {key.agent})
  {
  }

  lemma RowChangeKeepsInv(db: Tables, next: Tables, key: OpKey, limit: nat)
    requires Inv(db, limit) && !AgentIsFinished(db, key.turn, key.agent) && OnlyRow(db, next, key)
    requires OperationsOk(next)
    requires BeatOk(next, key.turn, key.agent, key.beat, limit)
    ensures Inv(next, limit) && Grows(db, next, key.turn, {key.agent})
  {
    BeatsKept(db, next, key, limit);
    FinishesKept(db, next, key);
    RowsKept(db, next);
    RowGrows(db, next, key);
  }

  ghost predicate BeginWorks(db: Tables, key: OpKey, limit: nat)
    requires IsLive(db, key.turn) && db.turns[key.turn].runtime.Some?
  {
    var row := db.turns[key.turn];
    var begun := BeginOperation(db, key, row.project, StageWorkOf(key, row.project, row.runtime.value));
    && begun.Ok?
    && Inv(begun.value.db, limit)
    && Grows(db, begun.value.db, key.turn, {key.agent})
    && key in begun.value.db.operations
    && begun.value.row == begun.value.db.operations[key]
    && begun.value.db == db.(operations := begun.value.db.operations)
    && !AgentIsFinished(begun.value.db, key.turn, key.agent)
    && (forall k :: IsCompleted(begun.value.db, k) == IsCompleted(db, k))
  }

  lemma BeginSucceeds(db: Tables, key: OpKey)
    requires OperationsOk(db) && IsLive(db, key.turn) && db.turns[key.turn].runtime.Some? && !key.kind.Tool?
    ensures var turn := db.turns[key.turn];
            BeginOperation(db, key, turn.project, StageWorkOf(key, turn.project, turn.runtime.value)).Ok?
  {
  }

  lemma RowBegunLocally(db: Tables, next: Tables, key: OpKey, row: OpRow, limit: nat)
    requires BeatOk(db, key.turn, key.agent, key.beat, limit) && MayBegin(db, key, limit) && IsLive(db, key.turn)
    requires key !in db.operations && row.state.Started?
    requires next == db.(operations := db.operations[key := row])
    ensures OnlyRow(db, next, key) && BeatOk(next, key.turn, key.agent, key.beat, limit)
  {
    BegunBeatKept(db, next, key, limit);
  }

  lemma RowBegun(db: Tables, next: Tables, key: OpKey, limit: nat)
    requires Inv(db, limit) && Working(db, key.turn, key.agent) && MayBegin(db, key, limit)
    requires key !in db.operations
    requires var turn := db.turns[key.turn];
             next == db.(operations := db.operations[
               key := OpRow(turn.project, StageWorkOf(key, turn.project, turn.runtime.value), Started)])
    ensures Inv(next, limit) && Grows(db, next, key.turn, {key.agent})
  {
    assert BeatOk(db, key.turn, key.agent, key.beat, limit);
    hide BeatOk, BeatsOk, OnlyRow, MayBegin;
    RowBegunLocally(db, next, key, next.operations[key], limit);
    OperationsKept(db, next, key);
    RowChangeKeepsInv(db, next, key, limit);
  }

  lemma BeginKeepsInv(db: Tables, key: OpKey, limit: nat)
    requires Inv(db, limit) && Working(db, key.turn, key.agent) && MayBegin(db, key, limit)
    ensures BeginWorks(db, key, limit)
  {
    hide BeatsOk, MessagesOk, MemoriesOk, GlobalsOk, SequencesOk, FinishesOk, Grows;
    BeginSucceeds(db, key);
    if key !in db.operations {
      var turn := db.turns[key.turn];
      var work := StageWorkOf(key, turn.project, turn.runtime.value);
      RowBegun(db, BeginOperation(db, key, turn.project, work).value.db, key, limit);
    } else {
      NothingGrows(db, key.turn, {key.agent});
    }
  }

  lemma NothingGrows(db: Tables, t: TurnId, agents: set<AgentId>)
    ensures Grows(db, db, t, agents)
  {
  }

  ghost predicate CompleteWorks(db: Tables, key: OpKey, result: OpResult, limit: nat) {
    var next := CompleteOperation(db, key, result);
    && next.Ok?
    && Inv(next.value, limit)
    && Grows(db, next.value, key.turn, {key.agent})
    && IsCompleted(next.value, key)
    && next.value.operations[key].state.result == result
    && next.value == db.(operations := next.value.operations)
    && (key.kind != AgentFinished ==> !AgentIsFinished(next.value, key.turn, key.agent))
    && (forall k :: k != key ==> IsCompleted(next.value, k) == IsCompleted(db, k))
  }

  /** A stage completed before, on any earlier attempt, was completed with this very result. */
  lemma SameResult(db: Tables, key: OpKey, result: OpResult, limit: nat)
    requires BeatOk(db, key.turn, key.agent, key.beat, limit) && MayComplete(db, key, result, limit)
    requires IsCompleted(db, key)
    ensures db.operations[key].state.result == result
  {
  }

  lemma MemoryInRange(db: Tables, key: OpKey)
    requires MemoriesOk(db)
    ensures key in db.memoryOf ==> db.memoryOf[key] < |db.memories|
  {
  }

  lemma RowCompletedLocally(db: Tables, next: Tables, key: OpKey, result: OpResult, limit: nat)
    requires BeatOk(db, key.turn, key.agent, key.beat, limit) && MemoriesOk(db)
    requires MayComplete(db, key, result, limit) && !IsCompleted(db, key)
    requires !IsCompleted(db, AgentKey(key.turn, key.agent, key.beat))
    requires next == db.(operations := db.operations[key := db.operations[key].(state := Completed(result))])
    ensures OnlyRow(db, next, key) && BeatOk(next, key.turn, key.agent, key.beat, limit)
  {
    MemoryInRange(db, key);
    assert Completes(db, next, key, result, limit);
    CompletedBeatKept(db, next, key, result, limit);
  }

  lemma RowCompleted(db: Tables, next: Tables, key: OpKey, result: OpResult, limit: nat)
    requires Inv(db, limit) && Working(db, key.turn, key.agent) && MayComplete(db, key, result, limit)
    requires !IsCompleted(db, key)
    requires next == db.(operations := db.operations[key := db.operations[key].(state := Completed(result))])
    ensures Inv(next, limit) && Grows(db, next, key.turn, {key.agent})
  {
    assert BeatOk(db, key.turn, key.agent, key.beat, limit);
    RowCompletedLocally(db, next, key, result, limit);
    OperationsKept(db, next, key);
    RowChangeKeepsInv(db, next, key, limit);
  }

  lemma StillUnfinished(db: Tables, next: Tables, key: OpKey)
    requires !AgentIsFinished(db, key.turn, key.agent) && key.kind != AgentFinished
    requires forall k :: k != key ==> IsCompleted(next, k) == IsCompleted(db, k)
    ensures !AgentIsFinished(next, key.turn, key.agent)
  {
  }

  lemma CompletedNow(db: Tables, key: OpKey, result: OpResult, limit: nat)
    requires Inv(db, limit) && Working(db, key.turn, key.agent) && MayComplete(db, key, result, limit)
    requires !IsCompleted(db, key)
    ensures CompleteWorks(db, key, result, limit)
  {
    hide Inv, Grows;
    var next := CompleteOperation(db, key, result).value;
    RowCompleted(db, next, key, result, limit);
    if key.kind != AgentFinished {
      StillUnfinished(db, next, key);
    }
  }

  lemma CompleteKeepsInv(db: Tables, key: OpKey, result: OpResult, limit: nat)
    requires Inv(db, limit) && Working(db, key.turn, key.agent) && MayComplete(db, key, result, limit)
    ensures CompleteWorks(db, key, result, limit)
  {
    hide TurnsOk, FingerprintsOk, MessagesOk, MemoriesOk, GlobalsOk, SequencesOk, FinishesOk, Grows;
    if IsCompleted(db, key) {
      assert BeatOk(db, key.turn, key.agent, key.beat, limit);
      SameResult(db, key, result, limit);
      NothingGrows(db, key.turn, {key.agent});
    } else {
      CompletedNow(db, key, result, limit);
    }
  }
}
