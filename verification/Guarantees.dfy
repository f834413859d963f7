/** What a reader may rely on in every durable state, however many attempts it took to get there. */
module Guarantees {
  import opened Records
  import opened Steps
  import opened Text
  import opened Invariant
  import opened StepLemmas
  import opened RowLemmas
  import opened Journal
  import opened Execution

  // -- exactly once --------------------------------------------------------------------------

  predicate MessageOfBeat(db: Tables, t: TurnId, a: AgentId, beat: nat, i: nat) {
    && i < |db.messages| && db.messages[i].turn == Some(t) && db.messages[i].role == AgentRole(a)
    && db.messages[i].operation == Some(MessageKey(t, a, beat))
  }

  predicate MemoryOfBeat(db: Tables, t: TurnId, a: AgentId, beat: nat, i: nat) {
    && i < |db.memories| && db.memories[i].agent == a
    && db.memories[i].operation == Some(MemoryKey(t, a, beat))
  }

  predicate CardOf(db: Tables, memory: nat, i: nat) {
    i < |db.globals| && db.globals[i].source == memory
  }

  ghost predicate OneMessage(db: Tables, t: TurnId, a: AgentId, beat: nat) {
    exists i :: MessageOfBeat(db, t, a, beat, i) && forall j :: MessageOfBeat(db, t, a, beat, j) ==> j == i
  }

  ghost predicate OneMemory(db: Tables, t: TurnId, a: AgentId, beat: nat) {
    exists i :: MemoryOfBeat(db, t, a, beat, i) && forall j :: MemoryOfBeat(db, t, a, beat, j) ==> j == i
  }

  ghost predicate OneCard(db: Tables, memory: nat) {
    exists i :: CardOf(db, memory, i) && forall j :: CardOf(db, memory, j) ==> j == i
  }

  /** No schedule leaves two messages or two memory events of one beat, or two cards of one event. */
  lemma NothingTwice(db: Tables, t: TurnId, a: AgentId, beat: nat, limit: nat)
    requires Inv(db, limit)
    ensures forall i, j :: MessageOfBeat(db, t, a, beat, i) && MessageOfBeat(db, t, a, beat, j) ==> i == j
    ensures forall i, j :: MemoryOfBeat(db, t, a, beat, i) && MemoryOfBeat(db, t, a, beat, j) ==> i == j
    ensures forall m, i, j :: CardOf(db, m, i) && CardOf(db, m, j) ==> i == j
  {
  }

  /** Every agent message belongs to one beat of its turn, and says what that beat's provider said, less the
      white space at its ends. */
  lemma MessagesSayCompletions(db: Tables, i: nat, limit: nat)
    requires Inv(db, limit) && i < |db.messages| && db.messages[i].role.AgentRole?
    ensures db.messages[i].operation.Some?
    ensures var key := db.messages[i].operation.value;
            && MessageOfBeat(db, key.turn, key.agent, key.beat, i)
            && (key in db.operations ==>
                  var pc := CompletionKey(key.turn, key.agent, key.beat);
                  HasCompletion(db, pc) && IsStripped(CompletionOf(db, pc).content, db.messages[i].content))
  {
    hide IsStripped;
    var key := db.messages[i].operation.value;
    var pc := CompletionKey(key.turn, key.agent, key.beat);
    if HasCompletion(db, pc) {
      StripKeeps(CompletionOf(db, pc).content);
    }
    assert IsMessage(db, key, db.messageOf[key]);
    assert key == MessageKey(key.turn, key.agent, key.beat);
    assert BeatOk(db, key.turn, key.agent, key.beat, limit);
  }

  lemma MessageThere(db: Tables, t: TurnId, a: AgentId, beat: nat, limit: nat)
    requires Inv(db, limit) && IsCompleted(db, MessageKey(t, a, beat))
    ensures OneMessage(db, t, a, beat)
  {
    var key := MessageKey(t, a, beat);
    assert BeatOk(db, t, a, beat, limit);
    var id := db.messageOf[key];
    assert IsMessage(db, key, id);
    NothingTwice(db, t, a, beat, limit);
    assert MessageOfBeat(db, t, a, beat, id);
  }

  lemma MemoryThere(db: Tables, t: TurnId, a: AgentId, beat: nat, limit: nat)
    requires Inv(db, limit) && IsCompleted(db, MemoryKey(t, a, beat))
    ensures OneMemory(db, t, a, beat)
  {
    var key := MemoryKey(t, a, beat);
    assert BeatOk(db, t, a, beat, limit);
    var id := db.memoryOf[key];
    assert IsMemory(db, key, id);
    NothingTwice(db, t, a, beat, limit);
    assert MemoryOfBeat(db, t, a, beat, id);
  }

  /** The history says how a finished agent ended: with its answer dropped, or with its last beat over. */
  lemma RecordedEnding(db: Tables, journal: seq<Event>, t: TurnId, a: AgentId, n: nat, limit: nat)
    requires JournalOk(journal, db, limit) && IsCompleted(db, AgentKey(t, a, n))
    ensures AgentDone(t, a, true) in journal <==> AgentDone(t, a, false) !in journal
    ensures Ending(db, t, a, n, AgentDone(t, a, true) in journal, limit)
  {
  }

  /** Once an agent is finished at beat `n` and its answer was not dropped, each of its beats 1 to `n` left
      exactly one memory event, and each that its provider answered exactly one message. An answer is
      dropped only at the first beat, and only one without citations. */
  lemma FinishedAgentLeftEverything(db: Tables, journal: seq<Event>, t: TurnId, a: AgentId, n: nat, limit: nat)
    requires Inv(db, limit) && JournalOk(journal, db, limit) && IsCompleted(db, AgentKey(t, a, n))
    ensures 1 <= n <= limit
    ensures AgentDone(t, a, true) !in journal ==>
              forall b: nat :: 1 <= b <= n ==>
                && OneMemory(db, t, a, b)
                && (HasCompletion(db, CompletionKey(t, a, b)) ==> OneMessage(db, t, a, b))
    ensures forall b: nat :: 1 <= b < n ==> HasCompletion(db, CompletionKey(t, a, b))
    ensures AgentDone(t, a, true) !in journal && HasCompletion(db, CompletionKey(t, a, n)) ==>
              !CompletionOf(db, CompletionKey(t, a, n)).continueTurn || n == limit
    ensures AgentDone(t, a, true) in journal ==>
              var key := CompletionKey(t, a, 1);
              n == 1 && HasCompletion(db, key) && NoSources(CompletionOf(db, key).sources)
  {
    hide JournalOk, OneMemory, OneMessage, MessagesOk, MemoriesOk, GlobalsOk, OperationsOk, TurnsOk;
    assert BeatOk(db, t, a, n, limit);
    RecordedEnding(db, journal, t, a, n, limit);
    UncitedMeans(db, t, a);
    forall b: nat | 1 <= b < n
      ensures OneMemory(db, t, a, b) && OneMessage(db, t, a, b) && HasCompletion(db, CompletionKey(t, a, b))
    {
      EarlierBeatsWhole(db, t, a, n, b, limit);
      MessageThere(db, t, a, b, limit);
      MemoryThere(db, t, a, b, limit);
    }
    if AgentDone(t, a, true) !in journal {
      MemoryThere(db, t, a, n, limit);
      if HasCompletion(db, CompletionKey(t, a, n)) {
        MessageThere(db, t, a, n, limit);
      }
    }
  }

  /** A live turn has a beat's message only if its provider answered: the failed beats say nothing. */
  lemma MessageMeansAnswer(db: Tables, t: TurnId, a: AgentId, beat: nat, i: nat, limit: nat)
    requires Inv(db, limit) && IsLive(db, t) && MessageOfBeat(db, t, a, beat, i)
    ensures HasCompletion(db, CompletionKey(t, a, beat))
  {
    assert db.messageOf[MessageKey(t, a, beat)] == i;
    assert BeatOk(db, t, a, beat, limit);
  }

  // -- the order of stages -------------------------------------------------------------------

  function Stages(t: TurnId, a: AgentId, beat: nat): seq<OpKey> {
    [CompletionKey(t, a, beat), MessageKey(t, a, beat), MemoryKey(t, a, beat), BeatKey(t, a, beat)]
  }

  /** Completed stages come before all others. */
  predicate CompletedFirst(db: Tables, stages: seq<OpKey>) {
    forall i, j :: 0 <= i < j < |stages| && IsCompleted(db, stages[j]) ==> IsCompleted(db, stages[i])
  }

  predicate FailureRemembered(db: Tables, t: TurnId, a: AgentId, beat: nat) {
    var mem := MemoryKey(t, a, beat);
    mem in db.memoryOf && db.memoryOf[mem] < |db.memories| && !RecordedSuccess(db, mem)
  }

  /** The completed stages of a beat are a prefix of the four exactly unless a failure was remembered
      for it and its message never became durable. */
  lemma StagesInOrder(db: Tables, t: TurnId, a: AgentId, beat: nat, limit: nat)
    requires Inv(db, limit)
    ensures CompletedFirst(db, Stages(t, a, beat))
            <==> !(IsCompleted(db, MemoryKey(t, a, beat)) && !IsCompleted(db, MessageKey(t, a, beat)))
    ensures IsCompleted(db, MemoryKey(t, a, beat)) && !IsCompleted(db, MessageKey(t, a, beat)) ==>
              FailureRemembered(db, t, a, beat)
  {
    assert BeatOk(db, t, a, beat, limit);
    var stages := Stages(t, a, beat);
    assert stages[0] == CompletionKey(t, a, beat) && stages[1] == MessageKey(t, a, beat)
           && stages[2] == MemoryKey(t, a, beat) && stages[3] == BeatKey(t, a, beat);
  }

  /** Work at a beat means all earlier ones are whole, asked to go on, and lie within the limit; and an
      agent finished at a beat works at a later one only if its answer was dropped. */
  lemma BeatsFollowEachOther(db: Tables, journal: seq<Event>, t: TurnId, a: AgentId, n: nat, limit: nat)
    requires Inv(db, limit) && JournalOk(journal, db, limit) && AnyStage(db, t, a, n)
    ensures 1 <= n <= limit
    ensures forall b :: 1 <= b < n ==>
              && AllStages(db, t, a, b) && CompletedFirst(db, Stages(t, a, b))
              && CompletionOf(db, CompletionKey(t, a, b)).continueTurn
              && (IsCompleted(db, AgentKey(t, a, b)) ==> AgentDone(t, a, true) in journal)
  {
    assert BeatOk(db, t, a, n, limit);
    forall b: nat | 1 <= b < n
      ensures AllStages(db, t, a, b) && CompletedFirst(db, Stages(t, a, b))
      ensures CompletionOf(db, CompletionKey(t, a, b)).continueTurn
      ensures IsCompleted(db, AgentKey(t, a, b)) ==> AgentDone(t, a, true) in journal
    {
      EarlierBeatsWhole(db, t, a, n, b, limit);
      StagesInOrder(db, t, a, b, limit);
    }
  }

  /** Every card says in brief what its memory event says, of the same agent and project. */
  lemma CardSaysEvent(db: Tables, i: nat, limit: nat)
    requires Inv(db, limit) && i < |db.globals|
    ensures db.globals[i].source < |db.memories|
    ensures var card, memory := db.globals[i], db.memories[db.globals[i].source];
            && card.agent == memory.agent && card.project == memory.project
            && card.triggerText == Compact(memory.triggerText, 240)
            && card.returnText == Compact(memory.returnText, 800)
  {
    hide Compact, TurnsOk, OperationsOk, MessagesOk, MemoriesOk, BeatsOk, SequencesOk, FinishesOk, FingerprintsOk;
    assert db.globalOf[db.globals[i].source] == i;
  }

  /** A successful memory event of a beat that is over has its card for other projects. */
  lemma SuccessHasCard(db: Tables, t: TurnId, a: AgentId, beat: nat, limit: nat)
    requires Inv(db, limit) && IsCompleted(db, BeatKey(t, a, beat)) && RecordedSuccess(db, MemoryKey(t, a, beat))
    ensures OneCard(db, db.memoryOf[MemoryKey(t, a, beat)])
  {
    assert BeatOk(db, t, a, beat, limit);
    var m := db.memoryOf[MemoryKey(t, a, beat)];
    NothingTwice(db, t, a, beat, limit);
    assert CardOf(db, m, db.globalOf[m]);
  }

  // -- numbering -----------------------------------------------------------------------------

  predicate RowNumbered(rows: seq<MemoryRow>, project: ProjectId, agent: AgentId, s: nat, i: nat) {
    i < |rows| && rows[i].project == project && rows[i].agent == agent && rows[i].sequence == s
  }

  ghost predicate OneRowNumbered(rows: seq<MemoryRow>, project: ProjectId, agent: AgentId, s: nat) {
    exists i :: RowNumbered(rows, project, agent, s, i)
                && forall j :: RowNumbered(rows, project, agent, s, j) ==> j == i
  }

  lemma InitNumbered(rows: seq<MemoryRow>)
    requires SequencesOk(rows, []) && rows != []
    ensures SequencesOk(rows[..|rows| - 1], [])
  {
    var init := rows[..|rows| - 1];
    forall i | 0 <= i < |init|
      ensures init[i].sequence == CountMemories(init[..i], init[i].project, init[i].agent) + 1
    {
      assert init[..i] == rows[..i];
    }
  }

  /** One agent's memory events in one project carry the numbers 1 to their count, each once. */
  lemma {:induction false} NumberedWithoutGaps(rows: seq<MemoryRow>, project: ProjectId, agent: AgentId, s: nat)
    requires SequencesOk(rows, []) && 1 <= s <= CountMemories(rows, project, agent)
    ensures OneRowNumbered(rows, project, agent, s)
  {
    var n := |rows| - 1;
    var init := rows[..n];
    InitNumbered(rows);
    if RowNumbered(rows, project, agent, s, n) {
      forall j: nat | RowNumbered(rows, project, agent, s, j) ensures j == n {
        if j < n {
          CountBounded(init, project, agent, j);
          assert false;
        }
      }
    } else {
      NumberedWithoutGaps(init, project, agent, s);
      var i :| RowNumbered(init, project, agent, s, i);
      assert RowNumbered(rows, project, agent, s, i);
      forall j: nat | RowNumbered(rows, project, agent, s, j) ensures j == i {
        assert RowNumbered(init, project, agent, s, j);
      }
    }
  }

  lemma {:induction false} CountBounded(rows: seq<MemoryRow>, project: ProjectId, agent: AgentId, j: nat)
    requires SequencesOk(rows, []) && j < |rows| && rows[j].project == project && rows[j].agent == agent
    ensures rows[j].sequence <= CountMemories(rows, project, agent)
  {
    if j < |rows| - 1 {
      InitNumbered(rows);
      CountBounded(rows[..|rows| - 1], project, agent, j);
    }
  }

  // -- replaying one storage call ------------------------------------------------------------

  /** Making the same ledger call again, at any later moment, finds the row the first call left and changes
      nothing, as long as the row was at most completed since; a completion is found as it was stored. */
  lemma CallsAreIdempotent(db: Tables, later: Tables, key: OpKey, project: ProjectId, work: Work, result: OpResult)
    requires key in later.operations && key.turn in later.turns && later.turns[key.turn].project == project
    ensures BeginOperation(db, key, project, work).Ok? ==>
              var first := BeginOperation(db, key, project, work).value;
              later.operations[key] == first.row.(state := later.operations[key].state) ==>
                BeginOperation(later, key, project, work) == Ok(Begun(later, later.operations[key], false))
    ensures CompleteOperation(db, key, result).Ok? ==>
              var first := CompleteOperation(db, key, result).value;
              later.operations[key] == first.operations[key] ==>
                CompleteOperation(later, key, result) == Ok(later)
  {
  }

  /** Inserting a row again, in any later tables that still hold the first one, finds it and changes nothing. */
  lemma InsertsAreIdempotent(db: Tables, later: Tables, message: MessageRow, memory: MemoryRow, card: GlobalRow)
    requires message.operation.Some? && memory.operation.Some? && db.projects <= later.projects
    requires db.memories <= later.memories
    ensures AddMessage(db, message).Ok? ==>
              var first := AddMessage(db, message).value;
              && first.id < |first.db.messages|
              && (HoldsMessage(later, message.operation.value, first.id, first.db.messages[first.id]) ==>
                    AddMessage(later, message) == Ok(Added(later, first.id)))
    ensures AddMemoryEvent(db, memory).Ok? ==>
              var first := AddMemoryEvent(db, memory).value;
              && first.id < |first.db.memories|
              && (HoldsMemory(later, memory.operation.value, first.id, first.db.memories[first.id]) ==>
                    AddMemoryEvent(later, memory) == Ok(Added(later, first.id)))
    ensures AddGlobalEvent(db, card).Ok? ==>
              var first := AddGlobalEvent(db, card).value;
              card.source in later.globalOf && later.globalOf[card.source] == first.id ==>
                AddGlobalEvent(later, card) == Ok(Added(later, first.id))
  {
  }

  predicate HoldsMessage(db: Tables, key: OpKey, id: nat, row: MessageRow) {
    key in db.messageOf && db.messageOf[key] == id && id < |db.messages| && db.messages[id] == row
  }

  predicate HoldsMemory(db: Tables, key: OpKey, id: nat, row: MemoryRow) {
    key in db.memoryOf && db.memoryOf[key] == id && id < |db.memories| && db.memories[id] == row
  }

  // -- the history ---------------------------------------------------------------------------

  function Occurrences(journal: seq<Event>, e: Event): nat {
    if journal == [] then 0
    else Occurrences(journal[..|journal| - 1], e) + if journal[|journal| - 1] == e then 1 else 0
  }

  lemma {:induction false} Absent(journal: seq<Event>, e: Event)
    requires e !in journal
    ensures Occurrences(journal, e) == 0
  {
    if journal != [] {
      Absent(journal[..|journal| - 1], e);
    }
  }

  /** A beat's completion becomes durable at most once over the whole run, and an agent is finished at
      most once. */
  lemma {:induction false} StoredOnce(journal: seq<Event>, e: Event)
    requires Ordered(journal) && (e.Checkpointed? || e.AgentDone?)
    ensures Occurrences(journal, e) <= 1
  {
    if journal != [] {
      var init := journal[..|journal| - 1];
      StoredOnce(init, e);
      if journal[|journal| - 1] == e {
        forall i | 0 <= i < |init| ensures init[i] != e {
          assert MayFollow(journal[i], journal[|journal| - 1]);
        }
        Absent(init, e);
      }
    }
  }

  lemma FinishedOnce(journal: seq<Event>, t: TurnId, a: AgentId)
    requires Ordered(journal)
    ensures Occurrences(journal, AgentDone(t, a, false)) + Occurrences(journal, AgentDone(t, a, true)) <= 1
  {
    var kept, dropped := AgentDone(t, a, false), AgentDone(t, a, true);
    StoredOnce(journal, kept);
    StoredOnce(journal, dropped);
    if kept !in journal {
      Absent(journal, kept);
    } else {
      assert dropped !in journal;
      Absent(journal, dropped);
    }
  }

  /** After this event no provider is asked for the beat. */
  predicate Settles(e: Event, key: OpKey) {
    e == Checkpointed(key) || e == AgentDone(key.turn, key.agent, false) || e == AgentDone(key.turn, key.agent, true)
  }

  /** What a whole run asks for and stores: every completion once, every agent's end once, and no beat is
      asked for after either. */
  ghost predicate OnceOverTheRun(journal: seq<Event>) {
    && (forall key :: Occurrences(journal, Checkpointed(key)) <= 1)
    && (forall t, a :: Occurrences(journal, AgentDone(t, a, false)) + Occurrences(journal, AgentDone(t, a, true)) <= 1)
    && (forall i, key :: 0 <= i < |journal| && Settles(journal[i], key) ==> Asked(key) !in journal[i..])
  }

  lemma OrderedMeansOnce(journal: seq<Event>)
    requires Ordered(journal)
    ensures OnceOverTheRun(journal)
  {
    forall key ensures Occurrences(journal, Checkpointed(key)) <= 1 {
      StoredOnce(journal, Checkpointed(key));
    }
    forall t, a
      ensures Occurrences(journal, AgentDone(t, a, false)) + Occurrences(journal, AgentDone(t, a, true)) <= 1
    {
      FinishedOnce(journal, t, a);
    }
  }
}
