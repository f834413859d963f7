/** Inserting a message, a memory event or a global event keeps the invariant; inserting one a
    second time under the same operation finds the first. */
module RowLemmas {
  import opened Records
  import opened Steps
  import opened Text
  import opened Invariant
  import opened StepLemmas

  // -- sequence numbers ----------------------------------------------------------------------

  lemma {:induction false} MaxIsCount(rows: seq<MemoryRow>, project: ProjectId, agent: AgentId)
    requires SequencesOk(rows, [])
    ensures MaxSequence(rows, project, agent) == CountMemories(rows, project, agent)
  {
    if rows != [] {
      var init := rows[..|rows| - 1];
      forall i | 0 <= i < |init|
        ensures init[i].sequence == CountMemories(init[..i], init[i].project, init[i].agent) + 1
      {
        assert init[..i] == rows[..i];
      }
      MaxIsCount(init, project, agent);
    }
  }

  lemma {:induction false} MaxGlobalIsCount(rows: seq<GlobalRow>, agent: AgentId)
    requires SequencesOk([], rows)
    ensures MaxGlobalSequence(rows, agent) == CountGlobals(rows, agent)
  {
    if rows != [] {
      var init := rows[..|rows| - 1];
      forall i | 0 <= i < |init| ensures init[i].sequence == CountGlobals(init[..i], init[i].agent) + 1 {
        assert init[..i] == rows[..i];
      }
      MaxGlobalIsCount(init, agent);
    }
  }

  lemma MemoryNumbered(rows: seq<MemoryRow>, globals: seq<GlobalRow>, row: MemoryRow)
    requires SequencesOk(rows, globals)
    requires row.sequence == MaxSequence(rows, row.project, row.agent) + 1
    ensures SequencesOk(rows + [row], globals)
  {
    MaxIsCount(rows, row.project, row.agent);
    forall i | 0 <= i < |rows + [row]|
      ensures var r := (rows + [row])[i];
              r.sequence == CountMemories((rows + [row])[..i], r.project, r.agent) + 1
    {
      assert (rows + [row])[..i] == rows[..i];
      assert rows[..|rows|] == rows;
    }
  }

  lemma GlobalNumbered(rows: seq<MemoryRow>, globals: seq<GlobalRow>, row: GlobalRow)
    requires SequencesOk(rows, globals)
    requires row.sequence == MaxGlobalSequence(globals, row.agent) + 1
    ensures SequencesOk(rows, globals + [row])
  {
    MaxGlobalIsCount(globals, row.agent);
    forall i | 0 <= i < |globals + [row]|
      ensures var r := (globals + [row])[i];
              r.sequence == CountGlobals((globals + [row])[..i], r.agent) + 1
    {
      assert (globals + [row])[..i] == globals[..i];
      assert globals[..|globals|] == globals;
    }
  }

  lemma FinishesSame(db: Tables, next: Tables)
    requires FinishesOk(db) && next.operations == db.operations
    ensures FinishesOk(next)
  {
  }

  // -- messages ------------------------------------------------------------------------------

  /** The row the executor stores for a beat: its completion, stripped. */
  function BeatMessage(db: Tables, key: OpKey, content: string): MessageRow
    requires key.turn in db.turns
  {
    MessageRow(db.turns[key.turn].project, Some(key.turn), AgentRole(key.agent), Strip(content), Some(key))
  }

  lemma MessageAppendedBeats(db: Tables, next: Tables, key: OpKey, row: MessageRow, limit: nat)
    requires MessagesOk(db) && BeatsOk(db, limit)
    requires key.kind == MessageCommitted && key in db.operations && key !in db.messageOf
    requires HasCompletion(db, CompletionKey(key.turn, key.agent, key.beat))
    requires row.content == Strip(CompletionOf(db, CompletionKey(key.turn, key.agent, key.beat)).content)
    requires next == db.(messages := db.messages + [row], messageOf := db.messageOf[key := |db.messages|])
    ensures BeatsOk(next, limit)
  {
    forall t, a, beat: nat ensures BeatOk(next, t, a, beat, limit) {
      assert BeatOk(db, t, a, beat, limit);
      var msg := MessageKey(t, a, beat);
      assert msg in db.messageOf ==> IsMessage(db, msg, db.messageOf[msg]);
      assert MessageStageOk(next, t, a, beat);
      assert MemoryStageOk(next, t, a, beat);
      assert FinishStageOk(next, t, a, beat, limit);
    }
  }

  lemma MemoriesStand(db: Tables, next: Tables)
    requires MemoriesOk(db) && db.messages <= next.messages
    requires next == db.(messages := next.messages, messageOf := next.messageOf)
    ensures MemoriesOk(next)
  {
  }

  lemma StillOneUserMessage(db: Tables, next: Tables, row: MessageRow)
    requires OneUserMessage(db) && next.messages == db.messages + [row]
    requires row.role == UserRole && row.turn.Some? ==> forall i :: !IsUserMessage(db, row.turn.value, i)
    ensures OneUserMessage(next)
  {
    forall i: nat, j: nat, t | IsUserMessage(next, t, i) && IsUserMessage(next, t, j) ensures i == j {
      assert i < |db.messages| ==> IsUserMessage(db, t, i);
      assert j < |db.messages| ==> IsUserMessage(db, t, j);
    }
  }

  lemma MessageAppendedRows(db: Tables, next: Tables, row: MessageRow)
    requires TurnsOk(db) && MessagesOk(db)
    requires row.turn.Some? && row.turn.value in db.turns && row.project == db.turns[row.turn.value].project
    requires row.operation.Some? ==>
               && row.operation.value.kind == MessageCommitted && row.operation.value !in db.messageOf
               && row.role == AgentRole(row.operation.value.agent)
               && row.turn.value == row.operation.value.turn
    requires row.operation.None? ==>
               row.role == UserRole && forall i :: !IsUserMessage(db, row.turn.value, i)
    requires next == db.(messages := db.messages + [row],
                         messageOf := if row.operation.Some?
                                      then db.messageOf[row.operation.value := |db.messages|]
                                      else db.messageOf)
    ensures TurnsOk(next) && MessagesOk(next)
  {
    StillOneUserMessage(db, next, row);
    hide OneUserMessage;
    MessagesIndexed(db, next, row);
    hide IsMessage;
    var n := |db.messages|;
    assert next.messages[n] == row && next.messages[..n] == db.messages;
    forall i | 0 <= i < n ensures next.messages[i] == db.messages[i] {
    }
    assert next.turns == db.turns;
  }

  lemma MessagesIndexed(db: Tables, next: Tables, row: MessageRow)
    requires MessagesOk(db)
    requires row.turn.Some? && row.turn.value in db.turns && row.project == db.turns[row.turn.value].project
    requires row.operation.Some? ==>
               && row.operation.value.kind == MessageCommitted && row.operation.value !in db.messageOf
               && row.role == AgentRole(row.operation.value.agent)
               && row.turn.value == row.operation.value.turn
    requires next == db.(messages := db.messages + [row],
                         messageOf := if row.operation.Some?
                                      then db.messageOf[row.operation.value := |db.messages|]
                                      else db.messageOf)
    ensures forall k :: k in next.messageOf ==> k.kind == MessageCommitted && IsMessage(next, k, next.messageOf[k])
  {
    hide OneUserMessage;
    forall k | k in next.messageOf ensures k.kind == MessageCommitted && IsMessage(next, k, next.messageOf[k]) {
      assert k in db.messageOf ==> IsMessage(db, k, db.messageOf[k]);
    }
  }

  ghost predicate MessageWorks(db: Tables, key: OpKey, content: string, limit: nat)
    requires key.turn in db.turns
  {
    var added := AddMessage(db, BeatMessage(db, key, content));
    && added.Ok?
    && Inv(added.value.db, limit)
    && Grows(db, added.value.db, key.turn, {key.agent})
    && key in added.value.db.messageOf
    && added.value.db.messageOf[key] == added.value.id
    && added.value.id < |added.value.db.messages|
    && added.value.db.messages[added.value.id] == BeatMessage(db, key, content)
    && added.value.db == db.(messages := added.value.db.messages, messageOf := added.value.db.messageOf)
  }

  lemma MessageGrows(db: Tables, next: Tables, key: OpKey, content: string)
    requires key.turn in db.turns && key !in db.messageOf
    requires next == db.(messages := db.messages + [BeatMessage(db, key, content)],
                         messageOf := db.messageOf[key := |db.messages|])
    ensures Grows(db, next, key.turn, {key.agent})
  {
  }

  lemma NewMessageKeepsInv(db: Tables, next: Tables, key: OpKey, content: string, limit: nat)
    requires Inv(db, limit) && IsLive(db, key.turn) && key.kind == MessageCommitted && key in db.operations
    requires HasCompletion(db, CompletionKey(key.turn, key.agent, key.beat))
    requires CompletionOf(db, CompletionKey(key.turn, key.agent, key.beat)).content == content
    requires key !in db.messageOf
    requires next == db.(messages := db.messages + [BeatMessage(db, key, content)],
                         messageOf := db.messageOf[key := |db.messages|])
    ensures Inv(next, limit) && Grows(db, next, key.turn, {key.agent})
  {
    MessageAppendedBeats(db, next, key, BeatMessage(db, key, content), limit);
    MessageAppendedRows(db, next, BeatMessage(db, key, content));
    MemoriesStand(db, next);
    FinishesSame(db, next);
    MessageGrows(db, next, key, content);
  }

  lemma MessageKeepsInv(db: Tables, key: OpKey, content: string, limit: nat)
    requires Inv(db, limit) && IsLive(db, key.turn) && key.kind == MessageCommitted && key in db.operations
    requires HasCompletion(db, CompletionKey(key.turn, key.agent, key.beat))
    requires CompletionOf(db, CompletionKey(key.turn, key.agent, key.beat)).content == content
    ensures MessageWorks(db, key, content, limit)
  {
    hide FingerprintsOk, MemoriesOk, GlobalsOk, SequencesOk, FinishesOk, OperationsOk, Grows;
    if key in db.messageOf {
      assert IsMessage(db, key, db.messageOf[key]);
      assert BeatOk(db, key.turn, key.agent, key.beat, limit);
      assert AddMessage(db, BeatMessage(db, key, content)) == Ok(Added(db, db.messageOf[key]));
      NothingGrows(db, key.turn, {key.agent});
    } else {
      NewMessageKeepsInv(db, AddMessage(db, BeatMessage(db, key, content)).value.db, key, content, limit);
    }
  }

  // -- the user's message --------------------------------------------------------------------

  function UserMessage(request: Request): MessageRow {
    MessageRow(request.project, Some(request.turn), UserRole, request.message, None)
  }

  lemma UserAppendedBeats(db: Tables, next: Tables, row: MessageRow, limit: nat)
    requires MessagesOk(db) && BeatsOk(db, limit)
    requires next == db.(messages := db.messages + [row])
    ensures BeatsOk(next, limit)
  {
    forall t, a, beat: nat ensures BeatOk(next, t, a, beat, limit) {
      assert BeatOk(db, t, a, beat, limit);
      var msg := MessageKey(t, a, beat);
      assert msg in db.messageOf ==> IsMessage(db, msg, db.messageOf[msg]);
      assert MessageStageOk(next, t, a, beat);
      assert MemoryStageOk(next, t, a, beat);
      assert FinishStageOk(next, t, a, beat, limit);
    }
  }

  lemma UserGrows(db: Tables, next: Tables, row: MessageRow, t: TurnId, agents: set<AgentId>)
    requires row.turn == Some(t) && row.role == UserRole
    requires next == db.(messages := db.messages + [row])
    ensures Grows(db, next, t, agents)
  {
  }

  /** The first user message of a turn may be inserted. */
  lemma UserMessageKeepsInv(db: Tables, request: Request, agents: set<AgentId>, limit: nat)
    requires Inv(db, limit) && request.turn in db.turns && db.turns[request.turn].project == request.project
    requires forall i :: !IsUserMessage(db, request.turn, i)
    ensures var added := AddMessage(db, UserMessage(request));
            && added == Ok(Added(db.(messages := db.messages + [UserMessage(request)]), |db.messages|))
            && Inv(added.value.db, limit)
            && Grows(db, added.value.db, request.turn, agents)
            && IsUserMessage(added.value.db, request.turn, |db.messages|)
  {
    var row := UserMessage(request);
    var next := db.(messages := db.messages + [row]);
    UserAppendedBeats(db, next, row, limit);
    MessageAppendedRows(db, next, row);
    MemoriesStand(db, next);
    FinishesSame(db, next);
    UserGrows(db, next, row, request.turn, agents);
  }

  // -- memory --------------------------------------------------------------------------------

  /** The row the executor asks for; the sequence is assigned on insertion. */
  function BeatMemory(db: Tables, key: OpKey, user: nat, outcome: MemoryOutcome, trigger: string,
                      text: string): MemoryRow
    requires key.turn in db.turns
  {
    MemoryRow(db.turns[key.turn].project, key.agent, user, 0, outcome, trigger, text, Some(key))
  }

  lemma MemoryAppendedBeats(db: Tables, next: Tables, key: OpKey, row: MemoryRow, limit: nat)
    requires MemoriesOk(db) && BeatsOk(db, limit)
    requires key.kind == MemoryCommitted && key in db.operations && key !in db.memoryOf
    requires Succeeded(row.outcome) ==> IsCompleted(db, MessageKey(key.turn, key.agent, key.beat))
    requires next == db.(memories := db.memories + [row], memoryOf := db.memoryOf[key := |db.memories|])
    ensures BeatsOk(next, limit)
  {
    forall t, a, beat: nat ensures BeatOk(next, t, a, beat, limit) {
      assert BeatOk(db, t, a, beat, limit);
      var mem := MemoryKey(t, a, beat);
      assert mem in db.memoryOf ==> IsMemory(db, mem, db.memoryOf[mem]);
      assert MessageStageOk(next, t, a, beat);
      assert MemoryStageOk(next, t, a, beat);
      assert FinishStageOk(next, t, a, beat, limit);
    }
  }

  lemma MessagesSame(db: Tables, next: Tables)
    requires TurnsOk(db) && MessagesOk(db)
    requires next.messages == db.messages && next.messageOf == db.messageOf
    requires next.turns == db.turns && next.projects == db.projects
    ensures TurnsOk(next) && MessagesOk(next)
  {
    assert forall t, id :: IsUserMessage(next, t, id) == IsUserMessage(db, t, id);
    assert forall k, id :: IsMessage(next, k, id) == IsMessage(db, k, id);
  }

  lemma MemoryAppended(db: Tables, next: Tables, key: OpKey, row: MemoryRow)
    requires MemoriesOk(db)
    requires key.turn in db.turns && key.kind == MemoryCommitted && key !in db.memoryOf
    requires row.operation == Some(key) && row.agent == key.agent && row.project == db.turns[key.turn].project
    requires IsUserMessage(db, key.turn, row.userMessage)
    requires next == db.(memories := db.memories + [row], memoryOf := db.memoryOf[key := |db.memories|])
    ensures MemoriesOk(next)
  {
  }

  lemma GlobalsSame(db: Tables, next: Tables)
    requires GlobalsOk(db)
    requires next.globals == db.globals && next.globalOf == db.globalOf && db.memories <= next.memories
    ensures GlobalsOk(next)
  {
  }

  lemma MemoryGrows(db: Tables, next: Tables, key: OpKey, row: MemoryRow)
    requires key !in db.memoryOf
    requires next == db.(memories := db.memories + [row], memoryOf := db.memoryOf[key := |db.memories|])
    ensures Grows(db, next, key.turn, {key.agent})
  {
  }

  ghost predicate MemoryWorks(db: Tables, key: OpKey, row: MemoryRow, limit: nat) {
    var added := AddMemoryEvent(db, row);
    && added.Ok?
    && Inv(added.value.db, limit)
    && Grows(db, added.value.db, key.turn, {key.agent})
    && key in added.value.db.memoryOf
    && added.value.db.memoryOf[key] == added.value.id
    && added.value.id < |added.value.db.memories|
    && IsMemory(added.value.db, key, added.value.id)
    && (key !in db.memoryOf ==> added.value.db.memories[added.value.id].outcome == row.outcome)
    && added.value.db == db.(memories := added.value.db.memories, memoryOf := added.value.db.memoryOf)
  }

  lemma NewMemoryKeepsInv(db: Tables, next: Tables, key: OpKey, row: MemoryRow, limit: nat)
    requires Inv(db, limit) && key.turn in db.turns && key.kind == MemoryCommitted && key in db.operations
    requires key !in db.memoryOf
    requires row.operation == Some(key) && row.agent == key.agent && row.project == db.turns[key.turn].project
    requires row.sequence == MaxSequence(db.memories, row.project, row.agent) + 1
    requires IsUserMessage(db, key.turn, row.userMessage)
    requires Succeeded(row.outcome) ==> IsCompleted(db, MessageKey(key.turn, key.agent, key.beat))
    requires next == db.(memories := db.memories + [row], memoryOf := db.memoryOf[key := |db.memories|])
    ensures Inv(next, limit) && Grows(db, next, key.turn, {key.agent})
  {
    MemoryAppendedBeats(db, next, key, row, limit);
    MessagesSame(db, next);
    MemoryAppended(db, next, key, row);
    GlobalsSame(db, next);
    MemoryNumbered(db.memories, db.globals, row);
    FinishesSame(db, next);
    MemoryGrows(db, next, key, row);
  }

  lemma MemoryKeepsInv(db: Tables, key: OpKey, user: nat, outcome: MemoryOutcome, trigger: string,
                       text: string, limit: nat)
    requires Inv(db, limit) && key.turn in db.turns && key.kind == MemoryCommitted && key in db.operations
    requires IsUserMessage(db, key.turn, user)
    requires Succeeded(outcome) ==> IsCompleted(db, MessageKey(key.turn, key.agent, key.beat))
    ensures MemoryWorks(db, key, BeatMemory(db, key, user, outcome, trigger, text), limit)
  {
    hide FingerprintsOk, GlobalsOk, SequencesOk, FinishesOk, OperationsOk, BeatsOk, Grows;
    var row := BeatMemory(db, key, user, outcome, trigger, text);
    if key in db.memoryOf {
      var id := db.memoryOf[key];
      assert IsMemory(db, key, id);
      assert db.memories[id].userMessage == user;
      assert AddMemoryEvent(db, row) == Ok(Added(db, id));
      NothingGrows(db, key.turn, {key.agent});
    } else {
      var stored := row.(sequence := MaxSequence(db.memories, row.project, row.agent) + 1,
                         triggerText := Truncated(trigger, MEMORY_TRIGGER_MAX),
                         returnText := Truncated(text, MEMORY_RETURN_MAX));
      var next := AddMemoryEvent(db, row).value.db;
      NewMemoryKeepsInv(db, next, key, stored, limit);
      assert IsMemory(next, key, next.memoryOf[key]);
    }
  }

  // -- global memory -------------------------------------------------------------------------

  function MemoryCard(db: Tables, memory: nat): GlobalRow
    requires memory < |db.memories|
  {
    var m := db.memories[memory];
    GlobalRow(m.agent, m.project, memory, 0, m.triggerText, m.returnText)
  }

  ghost predicate GlobalWorks(db: Tables, memory: nat, t: TurnId, a: AgentId, limit: nat)
    requires memory < |db.memories|
  {
    var added := AddGlobalEvent(db, MemoryCard(db, memory));
    && added.Ok?
    && Inv(added.value.db, limit)
    && Grows(db, added.value.db, t, {a})
    && memory in added.value.db.globalOf
    && added.value.db == db.(globals := added.value.db.globals, globalOf := added.value.db.globalOf)
  }

  lemma GlobalAppendedBeats(db: Tables, next: Tables, limit: nat)
    requires BeatsOk(db, limit)
    requires next == db.(globals := next.globals, globalOf := next.globalOf)
    requires forall m :: m in db.globalOf ==> m in next.globalOf
    ensures BeatsOk(next, limit)
  {
    forall t, a, beat: nat ensures BeatOk(next, t, a, beat, limit) {
      assert BeatOk(db, t, a, beat, limit);
      assert MessageStageOk(next, t, a, beat);
      assert MemoryStageOk(next, t, a, beat);
      assert FinishStageOk(next, t, a, beat, limit);
    }
  }

  lemma GlobalAppended(db: Tables, next: Tables, row: GlobalRow)
    requires GlobalsOk(db)
    requires row.source < |db.memories| && row.source !in db.globalOf
    requires Summarizes(row, db.memories[row.source])
    requires next == db.(globals := db.globals + [row], globalOf := db.globalOf[row.source := |db.globals|])
    ensures GlobalsOk(next)
  {
  }

  lemma MemoriesSame(db: Tables, next: Tables)
    requires MemoriesOk(db)
    requires next == db.(globals := next.globals, globalOf := next.globalOf)
    ensures MemoriesOk(next)
  {
  }

  lemma GlobalGrows(db: Tables, next: Tables, row: GlobalRow, t: TurnId, a: AgentId)
    requires row.source !in db.globalOf
    requires next == db.(globals := db.globals + [row], globalOf := db.globalOf[row.source := |db.globals|])
    ensures Grows(db, next, t, {a})
  {
  }

  lemma NewGlobalKeepsInv(db: Tables, next: Tables, row: GlobalRow, t: TurnId, a: AgentId, limit: nat)
    requires Inv(db, limit)
    requires row.source < |db.memories| && row.source !in db.globalOf
    requires Summarizes(row, db.memories[row.source])
    requires row.sequence == MaxGlobalSequence(db.globals, row.agent) + 1
    requires next == db.(globals := db.globals + [row], globalOf := db.globalOf[row.source := |db.globals|])
    ensures Inv(next, limit) && Grows(db, next, t, {a})
  {
    GlobalAppendedBeats(db, next, limit);
    MessagesSame(db, next);
    MemoriesSame(db, next);
    GlobalAppended(db, next, row);
    GlobalNumbered(db.memories, db.globals, row);
    FinishesSame(db, next);
    GlobalGrows(db, next, row, t, a);
  }

  lemma GlobalStep(db: Tables, memory: nat)
    requires memory < |db.memories| && memory !in db.globalOf
    ensures var card := MemoryCard(db, memory);
            AddGlobalEvent(db, card)
            == Ok(Added(db.(globals := db.globals + [StoredCard(db, card)],
                            globalOf := db.globalOf[memory := |db.globals|]),
                        |db.globals|))
  {
  }

  lemma GlobalAgain(db: Tables, memory: nat)
    requires memory < |db.memories| && memory in db.globalOf
    ensures AddGlobalEvent(db, MemoryCard(db, memory)) == Ok(Added(db, db.globalOf[memory]))
  {
  }

  lemma GlobalKeepsInv(db: Tables, memory: nat, t: TurnId, a: AgentId, limit: nat)
    requires Inv(db, limit) && memory < |db.memories|
    ensures GlobalWorks(db, memory, t, a, limit)
  {
    if memory in db.globalOf {
      GlobalAgain(db, memory);
      NothingGrows(db, t, {a});
    } else {
      var card := MemoryCard(db, memory);
      GlobalStep(db, memory);
      NewGlobalKeepsInv(db, AddGlobalEvent(db, card).value.db, StoredCard(db, card), t, a, limit);
    }
  }
}
