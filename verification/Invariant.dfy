/** What every durable state reached by the turn protocol satisfies, whatever the schedule of
    crashes, failures and resumes that led to it. */
module Invariant {
  import opened Records
  import opened Steps
  import opened Text

  // -- keys of one beat ----------------------------------------------------------------------

  function CompletionKey(t: TurnId, a: AgentId, beat: nat): OpKey { OpKey(t, a, beat, ProviderCompletion) }

  function MessageKey(t: TurnId, a: AgentId, beat: nat): OpKey { OpKey(t, a, beat, MessageCommitted) }

  function MemoryKey(t: TurnId, a: AgentId, beat: nat): OpKey { OpKey(t, a, beat, MemoryCommitted) }

  function BeatKey(t: TurnId, a: AgentId, beat: nat): OpKey { OpKey(t, a, beat, BeatFinished) }

  function AgentKey(t: TurnId, a: AgentId, beat: nat): OpKey { OpKey(t, a, beat, AgentFinished) }

  /** The stored completion of a beat whose provider checkpoint is completed. */
  function CompletionOf(db: Tables, key: OpKey): StoredCompletion
    requires IsCompleted(db, key) && db.operations[key].state.result.CompletionResult?
  {
    db.operations[key].state.result.completion
  }

  predicate HasCompletion(db: Tables, key: OpKey) {
    IsCompleted(db, key) && db.operations[key].state.result.CompletionResult?
  }

  /** An annotation counts as a source only when it names a URL. */
  predicate Cited(sources: seq<string>) {
    exists i :: 0 <= i < |sources| && sources[i] != ""
  }

  // -- one beat ------------------------------------------------------------------------------

  predicate AnyStage(db: Tables, t: TurnId, a: AgentId, beat: nat) {
    || CompletionKey(t, a, beat) in db.operations
    || MessageKey(t, a, beat) in db.operations
    || MemoryKey(t, a, beat) in db.operations
    || BeatKey(t, a, beat) in db.operations
    || AgentKey(t, a, beat) in db.operations
  }

  predicate AllStages(db: Tables, t: TurnId, a: AgentId, beat: nat) {
    && HasCompletion(db, CompletionKey(t, a, beat))
    && IsCompleted(db, MessageKey(t, a, beat))
    && IsCompleted(db, MemoryKey(t, a, beat))
    && IsCompleted(db, BeatKey(t, a, beat))
  }

  /** Beat `beat` was asked for: it is the first, or its predecessor is whole and asked to go on. */
  predicate Requested(db: Tables, t: TurnId, a: AgentId, beat: nat, limit: nat) {
    && 1 <= beat <= limit
    && (beat > 1 ==>
          AllStages(db, t, a, beat - 1) && CompletionOf(db, CompletionKey(t, a, beat - 1)).continueTurn)
  }

  predicate Uncited(db: Tables, t: TurnId, a: AgentId, beat: nat) {
    var key := CompletionKey(t, a, beat);
    beat == 1 && HasCompletion(db, key) && !Cited(CompletionOf(db, key).sources)
  }

  /** No further beat can follow this one. */
  predicate Last(db: Tables, t: TurnId, a: AgentId, beat: nat, limit: nat) {
    var key := CompletionKey(t, a, beat);
    HasCompletion(db, key) ==> !CompletionOf(db, key).continueTurn || beat >= limit
  }

  /** The beat is the agent's last, and if the provider answered, the answer is in the room. */
  predicate Over(db: Tables, t: TurnId, a: AgentId, beat: nat, limit: nat) {
    && Last(db, t, a, beat, limit)
    && (HasCompletion(db, CompletionKey(t, a, beat)) ==> IsCompleted(db, MessageKey(t, a, beat)))
  }

  predicate IsLive(db: Tables, t: TurnId) {
    t in db.turns && !Ended(db.turns[t])
  }

  predicate IsMessage(db: Tables, key: OpKey, id: nat) {
    && id < |db.messages|
    && db.messages[id].operation == Some(key)
    && db.messages[id].role == AgentRole(key.agent)
    && db.messages[id].turn == Some(key.turn)
    && key.turn in db.turns
    && db.messages[id].project == db.turns[key.turn].project
  }

  predicate IsUserMessage(db: Tables, t: TurnId, id: nat) {
    id < |db.messages| && db.messages[id].role == UserRole && db.messages[id].turn == Some(t)
  }

  predicate IsMemory(db: Tables, key: OpKey, id: nat) {
    && id < |db.memories|
    && db.memories[id].operation == Some(key)
    && db.memories[id].agent == key.agent
    && key.turn in db.turns
    && db.memories[id].project == db.turns[key.turn].project
    && IsUserMessage(db, key.turn, db.memories[id].userMessage)
  }

  /** The beat's memory event exists and says the agent answered. */
  predicate RecordedSuccess(db: Tables, mem: OpKey) {
    && mem in db.memoryOf
    && db.memoryOf[mem] < |db.memories|
    && Succeeded(db.memories[db.memoryOf[mem]].outcome)
  }

  ghost predicate MessageStageOk(db: Tables, t: TurnId, a: AgentId, beat: nat) {
    var pc, msg := CompletionKey(t, a, beat), MessageKey(t, a, beat);
    && (msg in db.operations ==> HasCompletion(db, pc))
    && (msg in db.messageOf && IsLive(db, t) ==> msg in db.operations)
    && (msg in db.messageOf && msg in db.operations ==>
          && db.messageOf[msg] < |db.messages|
          && db.messages[db.messageOf[msg]].content == Strip(CompletionOf(db, pc).content))
    && (IsCompleted(db, msg) ==>
          && msg in db.messageOf
          && db.operations[msg].state.result == MessageResult(db.messageOf[msg]))
  }

  ghost predicate MemoryStageOk(db: Tables, t: TurnId, a: AgentId, beat: nat) {
    var msg, mem := MessageKey(t, a, beat), MemoryKey(t, a, beat);
    && (mem in db.memoryOf && IsLive(db, t) ==> mem in db.operations)
    && (RecordedSuccess(db, mem) && mem in db.operations ==> IsCompleted(db, msg))
    && (IsCompleted(db, mem) ==>
          && mem in db.memoryOf
          && db.memoryOf[mem] < |db.memories|
          && db.operations[mem].state.result == MemoryResult(db.memoryOf[mem])
          && (RecordedSuccess(db, mem) ==> db.memoryOf[mem] in db.globalOf))
  }

  ghost predicate FinishStageOk(db: Tables, t: TurnId, a: AgentId, beat: nat, limit: nat) {
    var mem, fin, done := MemoryKey(t, a, beat), BeatKey(t, a, beat), AgentKey(t, a, beat);
    && (fin in db.operations ==> IsCompleted(db, mem))
    && (IsCompleted(db, fin) ==> db.operations[fin].state.result == FinishedResult)
    && (done in db.operations ==> IsCompleted(db, fin) || Uncited(db, t, a, beat))
    && (IsCompleted(db, done) ==>
          && db.operations[done].state.result == AgentResult(beat)
          && (Uncited(db, t, a, beat) || Over(db, t, a, beat, limit)))
  }

  ghost predicate BeatOk(db: Tables, t: TurnId, a: AgentId, beat: nat, limit: nat) {
    && (AnyStage(db, t, a, beat) ==>
          CompletionKey(t, a, beat) in db.operations && Requested(db, t, a, beat, limit))
    && (IsCompleted(db, CompletionKey(t, a, beat)) ==> HasCompletion(db, CompletionKey(t, a, beat)))
    && MessageStageOk(db, t, a, beat)
    && MemoryStageOk(db, t, a, beat)
    && FinishStageOk(db, t, a, beat, limit)
  }

  // -- the tables ----------------------------------------------------------------------------

  ghost predicate TurnsOk(db: Tables) {
    forall t :: t in db.turns ==>
      && db.turns[t].project in db.projects
      && db.turns[t].request.Some? && db.turns[t].runtime.Some?
      && db.turns[t].request.value.turn == t
      && db.turns[t].request.value.project == db.turns[t].project
      && (db.turns[t].accepted ==> db.turns[t].status == Failed || db.turns[t].status == Interrupted)
      && (db.turns[t].status == CompletedTurn ==> db.turns[t].result.Some?)
  }

  predicate OwnFingerprint(row: TurnRow) {
    row.request.Some? ==> row.fingerprint == RequestFingerprint(row.request.value)
  }

  /** The fingerprint a turn is claimed with is that of the request it keeps. */
  ghost predicate FingerprintsOk(db: Tables) {
    forall t :: t in db.turns ==> OwnFingerprint(db.turns[t])
  }

  ghost predicate OperationsOk(db: Tables) {
    forall k :: k in db.operations ==>
      && k.turn in db.turns
      && (!k.kind.Tool? ==>
            && db.turns[k.turn].runtime.Some?
            && db.operations[k].project == db.turns[k.turn].project
            && db.operations[k].work
               == StageWorkOf(k, db.turns[k.turn].project, db.turns[k.turn].runtime.value))
  }

  /** A turn has at most one user message. */
  ghost predicate OneUserMessage(db: Tables) {
    forall i, j, t :: IsUserMessage(db, t, i) && IsUserMessage(db, t, j) ==> i == j
  }

  ghost predicate MessagesOk(db: Tables) {
    && (forall k :: k in db.messageOf ==> k.kind == MessageCommitted && IsMessage(db, k, db.messageOf[k]))
    && (forall i :: 0 <= i < |db.messages| ==>
          && (db.messages[i].operation.Some? ==>
                && db.messages[i].operation.value in db.messageOf
                && db.messageOf[db.messages[i].operation.value] == i)
          && (db.messages[i].role.AgentRole? ==> db.messages[i].operation.Some?)
          && (db.messages[i].turn.Some? ==>
                && db.messages[i].turn.value in db.turns
                && db.messages[i].project == db.turns[db.messages[i].turn.value].project))
    && OneUserMessage(db)
  }

  ghost predicate MemoriesOk(db: Tables) {
    && (forall k :: k in db.memoryOf ==> k.kind == MemoryCommitted && IsMemory(db, k, db.memoryOf[k]))
    && (forall i :: 0 <= i < |db.memories| ==>
          && db.memories[i].operation.Some?
          && db.memories[i].operation.value in db.memoryOf
          && db.memoryOf[db.memories[i].operation.value] == i)
  }

  /** A card is of the event's agent and project, and says what the event does, in brief. */
  predicate Summarizes(card: GlobalRow, memory: MemoryRow) {
    && card.agent == memory.agent && card.project == memory.project
    && card.triggerText == Compact(memory.triggerText, CARD_TRIGGER_MAX)
    && card.returnText == Compact(memory.returnText, CARD_RETURN_MAX)
  }

  ghost predicate GlobalsOk(db: Tables) {
    && (forall m :: m in db.globalOf ==>
          && m < |db.memories|
          && db.globalOf[m] < |db.globals|
          && db.globals[db.globalOf[m]].source == m)
    && (forall i :: 0 <= i < |db.globals| ==>
          && db.globals[i].source in db.globalOf
          && db.globalOf[db.globals[i].source] == i
          && Summarizes(db.globals[i], db.memories[db.globals[i].source]))
  }

  /** How many rows one agent has in one project. */
  function CountMemories(rows: seq<MemoryRow>, project: ProjectId, agent: AgentId): nat {
    if rows == [] then 0
    else
      var last := rows[|rows| - 1];
      CountMemories(rows[..|rows| - 1], project, agent)
      + if last.project == project && last.agent == agent then 1 else 0
  }

  function CountGlobals(rows: seq<GlobalRow>, agent: AgentId): nat {
    if rows == [] then 0
    else CountGlobals(rows[..|rows| - 1], agent) + if rows[|rows| - 1].agent == agent then 1 else 0
  }

  /** Memory events of one agent in one project are numbered 1, 2, 3, ... in insertion order, and
      so are the agent's global events. */
  ghost predicate SequencesOk(memories: seq<MemoryRow>, globals: seq<GlobalRow>) {
    && (forall i :: 0 <= i < |memories| ==>
          memories[i].sequence == CountMemories(memories[..i], memories[i].project, memories[i].agent) + 1)
    && (forall i :: 0 <= i < |globals| ==>
          globals[i].sequence == CountGlobals(globals[..i], globals[i].agent) + 1)
  }

  ghost predicate BeatsOk(db: Tables, limit: nat) {
    forall t, a, beat :: BeatOk(db, t, a, beat, limit)
  }

  /** An agent of a turn is finished at most once. */
  ghost predicate FinishesOk(db: Tables) {
    forall t, a, m, n :: IsCompleted(db, AgentKey(t, a, m)) && IsCompleted(db, AgentKey(t, a, n)) ==> m == n
  }

  ghost predicate Inv(db: Tables, limit: nat) {
    && TurnsOk(db) && FingerprintsOk(db)
    && OperationsOk(db)
    && MessagesOk(db)
    && MemoriesOk(db)
    && GlobalsOk(db)
    && SequencesOk(db.memories, db.globals)
    && BeatsOk(db, limit)
    && FinishesOk(db)
  }

  ghost predicate AgentIsFinished(db: Tables, t: TurnId, a: AgentId) {
    exists n :: IsCompleted(db, AgentKey(t, a, n))
  }

  // -- growth --------------------------------------------------------------------------------

  /** From `x` to `y` only work of these agents in turn `t` was added, and nothing durable was
      rewritten: completed operations and stored rows stay as they were. */
  ghost predicate Grows(x: Tables, y: Tables, t: TurnId, agents: set<AgentId>) {
    && y.projects == x.projects
    && y.turns == x.turns
    && (forall k :: k in x.operations ==> k in y.operations)
    && (forall k :: IsCompleted(x, k) ==> y.operations[k] == x.operations[k])
    && (forall k :: k in y.operations && (k.turn != t || k.agent !in agents) ==>
          k in x.operations && y.operations[k] == x.operations[k])
    && x.messages <= y.messages
    && (forall i :: |x.messages| <= i < |y.messages| ==>
          && y.messages[i].turn == Some(t)
          && (y.messages[i].role.AgentRole? ==> y.messages[i].role.agent in agents))
    && (forall k :: k in x.messageOf ==> k in y.messageOf && y.messageOf[k] == x.messageOf[k])
    && x.memories <= y.memories
    && (forall k :: k in x.memoryOf ==> k in y.memoryOf && y.memoryOf[k] == x.memoryOf[k])
    && x.globals <= y.globals
    && (forall m :: m in x.globalOf ==> m in y.globalOf && y.globalOf[m] == x.globalOf[m])
  }

  lemma GrowsTransitive(x: Tables, y: Tables, z: Tables, t: TurnId, agents: set<AgentId>)
    requires Grows(x, y, t, agents) && Grows(y, z, t, agents)
    ensures Grows(x, z, t, agents)
  {
  }

  // -- what an agent said --------------------------------------------------------------------

  /** The messages of an agent's beats 1 to `n`, in order. */
  function Spoken(db: Tables, t: TurnId, a: AgentId, n: nat): seq<nat> {
    if n == 0 then []
    else
      var msg := MessageKey(t, a, n);
      Spoken(db, t, a, n - 1) + if msg in db.messageOf then [db.messageOf[msg]] else []
  }

  ghost predicate AllSpoken(db: Tables, t: TurnId, a: AgentId, n: nat) {
    forall b :: 1 <= b <= n ==> MessageKey(t, a, b) in db.messageOf
  }

  lemma {:induction false} SpokenStable(x: Tables, y: Tables, t: TurnId, a: AgentId, n: nat,
                                        turn: TurnId, agents: set<AgentId>)
    requires Grows(x, y, turn, agents) && AllSpoken(x, t, a, n)
    ensures AllSpoken(y, t, a, n) && Spoken(y, t, a, n) == Spoken(x, t, a, n)
  {
    if n > 0 {
      SpokenStable(x, y, t, a, n - 1, turn, agents);
      assert MessageKey(t, a, n) in x.messageOf;
    }
  }

  /** Work at a beat means that every earlier beat is whole and asked to be followed. */
  lemma {:induction false} EarlierBeatsWhole(db: Tables, t: TurnId, a: AgentId, n: nat, beat: nat, limit: nat)
    requires BeatsOk(db, limit) && AnyStage(db, t, a, n) && 1 <= beat < n
    ensures AllStages(db, t, a, beat) && CompletionOf(db, CompletionKey(t, a, beat)).continueTurn
    ensures n <= limit
  {
    assert BeatOk(db, t, a, n, limit);
    if beat < n - 1 {
      EarlierBeatsWhole(db, t, a, n - 1, beat, limit);
    }
  }
}
