/** Each storage call as one atomic step on the tables: it commits a new value or leaves the old. */
module Steps {
  import opened Records
  import opened Text

  const MEMORY_TRIGGER_MAX := 4000
  const MEMORY_RETURN_MAX := 8000
  const CARD_TRIGGER_MAX := 240
  const CARD_RETURN_MAX := 800

  function Truncated(text: string, limit: nat): string {
    if |text| <= limit then text else text[..limit]
  }

  lemma TruncatedIsPrefix(text: string, limit: nat)
    ensures Truncated(text, limit) <= text
    ensures |Truncated(text, limit)| == if |text| <= limit then |text| else limit
  {
  }

  predicate IsCompleted(db: Tables, key: OpKey) {
    key in db.operations && db.operations[key].state.Completed?
  }

  function StageWorkOf(key: OpKey, project: ProjectId, runtime: Runtime): Work {
    StageWork(key, project, Lookup(runtime.providers, key.agent), Lookup(runtime.models, key.agent))
  }

  /** Two attempts claim a stage for the same work exactly if it is the same stage, under the same provider
      and model, if any, of its agent. */
  lemma SameWork(key: OpKey, other: OpKey, project: ProjectId, runtime: Runtime, later: Runtime)
    ensures StageWorkOf(key, project, runtime) == StageWorkOf(other, project, later) <==>
              && key == other
              && (key.agent in runtime.providers <==> key.agent in later.providers)
              && (key.agent in runtime.providers && key.agent in later.providers ==>
                    runtime.providers[key.agent] == later.providers[key.agent])
              && (key.agent in runtime.models <==> key.agent in later.models)
              && (key.agent in runtime.models && key.agent in later.models ==>
                    runtime.models[key.agent] == later.models[key.agent])
  {
  }

  /** What a claim is refused for: an unknown turn, or a row of other work. */
  lemma ClaimRefused(db: Tables, key: OpKey, project: ProjectId, work: Work)
    ensures BeginOperation(db, key, project, work) == Err(NotFound) <==>
              key.turn !in db.turns || db.turns[key.turn].project != project
    ensures BeginOperation(db, key, project, work) == Err(Conflict) <==>
              && key.turn in db.turns && db.turns[key.turn].project == project && key in db.operations
              && !(db.operations[key].project == project && db.operations[key].work == work)
  {
  }

  // -- operations ----------------------------------------------------------------------------

  datatype Begun = Begun(db: Tables, row: OpRow, created: bool)

  function BeginOperation(db: Tables, key: OpKey, project: ProjectId, work: Work): Result<Begun> {
    if key.turn !in db.turns || db.turns[key.turn].project != project then
      Err(NotFound)
    else if key in db.operations then
      var row := db.operations[key];
      if row.project != project || row.work != work then Err(Conflict)
      else Ok(Begun(db, row, false))
    else
      var row := OpRow(project, work, Started);
      Ok(Begun(db.(operations := db.operations[key := row]), row, true))
  }

  function CompleteOperation(db: Tables, key: OpKey, result: OpResult): Result<Tables> {
    if key !in db.operations then
      Err(NotFound)
    else if db.operations[key].state.Completed? then
      if db.operations[key].state.result != result then Err(Conflict) else Ok(db)
    else
      Ok(db.(operations := db.operations[key := db.operations[key].(state := Completed(result))]))
  }

  // -- messages ------------------------------------------------------------------------------

  datatype Added = Added(db: Tables, id: nat)

  function AddMessage(db: Tables, row: MessageRow): Result<Added> {
    if row.project !in db.projects then
      Err(NotFound)
    else if row.operation.Some? && row.operation.value in db.messageOf then
      var id := db.messageOf[row.operation.value];
      if id >= |db.messages| then Err(NotFound)
      else if db.messages[id].project != row.project || db.messages[id].role != row.role then Err(Conflict)
      else Ok(Added(db, id))
    else
      var id := |db.messages|;
      Ok(Added(
           db.(messages := db.messages + [row],
               messageOf := if row.operation.Some? then db.messageOf[row.operation.value := id]
                            else db.messageOf),
           id))
  }

  // -- memory --------------------------------------------------------------------------------

  /** COALESCE(MAX(sequence), 0) over the rows of one project and agent. */
  function MaxSequence(rows: seq<MemoryRow>, project: ProjectId, agent: AgentId): nat {
    if rows == [] then 0
    else
      var last := rows[|rows| - 1];
      var rest := MaxSequence(rows[..|rows| - 1], project, agent);
      if last.project == project && last.agent == agent && last.sequence > rest then last.sequence
      else rest
  }

  function AddMemoryEvent(db: Tables, row: MemoryRow): Result<Added> {
    if row.project !in db.projects then
      Err(NotFound)
    else if row.operation.Some? && row.operation.value in db.memoryOf then
      var id := db.memoryOf[row.operation.value];
      if id >= |db.memories| then Err(NotFound)
      else if db.memories[id].project != row.project || db.memories[id].agent != row.agent
              || db.memories[id].userMessage != row.userMessage then Err(Conflict)
      else Ok(Added(db, id))
    else
      var id := |db.memories|;
      var stored := row.(
        sequence := MaxSequence(db.memories, row.project, row.agent) + 1,
        triggerText := Truncated(row.triggerText, MEMORY_TRIGGER_MAX),
        returnText := Truncated(row.returnText, MEMORY_RETURN_MAX));
      Ok(Added(
           db.(memories := db.memories + [stored],
               memoryOf := if row.operation.Some? then db.memoryOf[row.operation.value := id]
                           else db.memoryOf),
           id))
  }

  function MaxGlobalSequence(rows: seq<GlobalRow>, agent: AgentId): nat {
    if rows == [] then 0
    else
      var last := rows[|rows| - 1];
      var rest := MaxGlobalSequence(rows[..|rows| - 1], agent);
      if last.agent == agent && last.sequence > rest then last.sequence else rest
  }

  /** A card is numbered within its agent, and holds summaries of the event's texts. */
  function StoredCard(db: Tables, row: GlobalRow): GlobalRow {
    row.(sequence := MaxGlobalSequence(db.globals, row.agent) + 1,
         triggerText := Compact(row.triggerText, CARD_TRIGGER_MAX),
         returnText := Compact(row.returnText, CARD_RETURN_MAX))
  }

  /** A memory event has at most one card, of its own agent and project. */
  function AddGlobalEvent(db: Tables, row: GlobalRow): Result<Added> {
    if row.source >= |db.memories| || db.memories[row.source].agent != row.agent
       || db.memories[row.source].project != row.project then
      Err(Invalid)
    else if row.source in db.globalOf then
      Ok(Added(db, db.globalOf[row.source]))
    else
      var id := |db.globals|;
      Ok(Added(
           db.(globals := db.globals + [StoredCard(db, row)], globalOf := db.globalOf[row.source := id]),
           id))
  }

  // -- turns ---------------------------------------------------------------------------------

  datatype TurnBegun = TurnBegun(db: Tables, row: TurnRow, created: bool)

  function RequestFingerprint(request: Request): Request {
    request.(turn := "")
  }

  function BeginTurn(db: Tables, turn: TurnId, request: Request, runtime: Runtime): Result<TurnBegun> {
    if request.project !in db.projects then
      Err(NotFound)
    else if turn in db.turns then
      var row := db.turns[turn];
      if row.project != request.project || row.fingerprint != RequestFingerprint(request) then Err(Conflict)
      else Ok(TurnBegun(db, row, false))
    else
      var row := TurnRow(request.project, RequestFingerprint(request), Running, None, [], None,
                         Some(request), Some(runtime), false);
      Ok(TurnBegun(db.(turns := db.turns[turn := row]), row, true))
  }

  function FinishTurn(db: Tables, turn: TurnId, status: Status, result: Option<RoomResult>,
                      trace: seq<TraceEvent>, failure: Option<string>): Result<Tables>
  {
    if turn !in db.turns then Err(NotFound)
    else
      Ok(db.(turns := db.turns[turn := db.turns[turn].(
               status := status, result := result, trace := trace, failure := failure)]))
  }

  function ResumeTurn(db: Tables, turn: TurnId): Result<Tables> {
    if turn !in db.turns then Err(NotFound)
    else
      var row := db.turns[turn];
      if (row.status != Failed && row.status != Interrupted) || row.accepted then Err(Conflict)
      else if row.request.None? || row.runtime.None? then Err(Conflict)
      else Ok(db.(turns := db.turns[turn := row.(status := Running, failure := None)]))
  }

  function ResolveTurn(db: Tables, turn: TurnId): Result<Tables> {
    if turn !in db.turns then Err(Conflict)
    else
      var row := db.turns[turn];
      if (row.status != Failed && row.status != Interrupted) || row.accepted then Err(Conflict)
      else Ok(db.(turns := db.turns[turn := row.(accepted := true)]))
  }

  /** The startup sweep: whatever was running when the process died is interrupted. */
  function SweepRunning(db: Tables): Tables {
    db.(turns := map t | t in db.turns ::
                   if db.turns[t].status == Running then db.turns[t].(status := Interrupted)
                   else db.turns[t])
  }

  /** Retention: `stale` are the turns not updated since the cutoff. */
  function PruneTraces(db: Tables, stale: set<TurnId>): Tables {
    var eligible := set t | t in db.turns && t in stale && Ended(db.turns[t]);
    db.(operations := map k | k in db.operations && k.turn !in eligible :: db.operations[k],
        turns := map t | t in db.turns ::
                   if t in eligible then db.turns[t].(trace := []) else db.turns[t])
  }

  function CompletedAgents(db: Tables, turn: TurnId): set<AgentId> {
    set k | k in db.operations && k.turn == turn && k.kind == AgentFinished && IsCompleted(db, k)
      :: k.agent
  }
}
