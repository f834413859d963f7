/** The rows of the durable tables that a room turn writes, and the values they hold. */
module Records {
  datatype Option<+T> = None | Some(value: T)

  datatype StorageError = NotFound | Conflict | Invalid

  datatype Result<+T> = Ok(value: T) | Err(error: StorageError)

  /** The three participants every request is filtered through. */
  datatype AgentId = AgentA | AgentB | AgentC

  const AGENT_IDS: seq<AgentId> := [AgentA, AgentB, AgentC]

  type TurnId = string
  type ProjectId = string

  datatype Kind =
    | ProviderCompletion
    | MessageCommitted
    | MemoryCommitted
    | BeatFinished
    | AgentFinished
    | Tool(round: nat, call: nat, argumentHash: string)

  /** The deterministic identity of one durable operation. */
  datatype OpKey = OpKey(turn: TurnId, agent: AgentId, beat: nat, kind: Kind)

  datatype Request = Request(
    turn: TurnId,
    project: ProjectId,
    message: string,
    participants: seq<AgentId>,
    researchMode: string)

  datatype Runtime = Runtime(providers: map<AgentId, string>, models: map<AgentId, string>)

  /** What a fingerprint is a hash of; hashing is taken to be injective. */
  datatype Work =
    | StageWork(key: OpKey, project: ProjectId, provider: Option<string>, model: Option<string>)
    | ToolWork(tool: string, arguments: string)

  datatype ToolEvent = ToolEvent(tool: string, ok: bool)

  /** A provider's answer; `sources` are the cited URLs of its annotations. */
  datatype AgentCompletion = AgentCompletion(
    content: string,
    sources: seq<string>,
    rawMessage: string,
    toolEvents: seq<ToolEvent>,
    locallyGenerated: bool,
    continueTurn: bool,
    usage: map<string, int>,
    requestUsage: seq<map<string, int>>)

  /** The part of a completion the ledger stores: every field but the raw message. */
  datatype StoredCompletion = StoredCompletion(
    content: string,
    sources: seq<string>,
    toolEvents: seq<ToolEvent>,
    locallyGenerated: bool,
    continueTurn: bool,
    usage: map<string, int>,
    requestUsage: seq<map<string, int>>)

  function WithoutRaw(c: AgentCompletion): StoredCompletion {
    StoredCompletion(c.content, c.sources, c.toolEvents, c.locallyGenerated, c.continueTurn,
                     c.usage, c.requestUsage)
  }

  function Recovered(s: StoredCompletion): AgentCompletion {
    AgentCompletion(s.content, s.sources, "", s.toolEvents, s.locallyGenerated, s.continueTurn,
                    s.usage, s.requestUsage)
  }

  /** Storing a completion and recovering it loses the raw message and nothing else. */
  lemma RecoveredIsWhole(c: AgentCompletion)
    ensures Recovered(WithoutRaw(c)) == c.(rawMessage := "")
    ensures forall s: StoredCompletion :: WithoutRaw(Recovered(s)) == s
  {
  }

  // -- what tools answer ---------------------------------------------------------------------

  datatype MotifStatus = Candidate | Supported | Active | Dormant | Rejected

  datatype Recorded = Recorded(
    motif: nat, title: string, status: MotifStatus, support: nat, distinctTurns: nat, primary: bool)

  datatype BatchResult = BatchResult(observations: seq<Recorded>, primaryMotif: Option<nat>)

  /** The answer of a state-changing tool. */
  datatype ToolAnswer =
    | MotifsRecorded(batch: BatchResult)
    | PersonaAnswered(answer: string)
    | NeedsReview
    | FileWritten(path: string, overwritten: bool, recovered: bool)
    | ToolRefused(error: StorageError)

  datatype OpResult =
    | CompletionResult(completion: StoredCompletion)
    | MessageResult(message: nat)
    | MemoryResult(memory: nat)
    | FinishedResult
    | AgentResult(finalBeat: nat)
    | ToolResult(answer: ToolAnswer)

  datatype OpState = Started | Completed(result: OpResult)

  datatype OpRow = OpRow(project: ProjectId, work: Work, state: OpState)

  datatype Role = UserRole | AgentRole(agent: AgentId)

  datatype MessageRow = MessageRow(
    project: ProjectId,
    turn: Option<TurnId>,
    role: Role,
    content: string,
    operation: Option<OpKey>)

  datatype MemoryOutcome = Response | ActionResponse | Timeout | NoResponse | ProviderFailure

  predicate Succeeded(outcome: MemoryOutcome) {
    outcome == Response || outcome == ActionResponse
  }

  datatype ProviderErrorKind = TimedOut | Silent | Errored

  function OutcomeOfError(kind: ProviderErrorKind): MemoryOutcome {
    match kind
    case TimedOut => Timeout
    case Silent => NoResponse
    case Errored => ProviderFailure
  }

  datatype MemoryRow = MemoryRow(
    project: ProjectId,
    agent: AgentId,
    userMessage: nat,
    sequence: nat,
    outcome: MemoryOutcome,
    triggerText: string,
    returnText: string,
    operation: Option<OpKey>)

  datatype GlobalRow = GlobalRow(
    agent: AgentId,
    project: ProjectId,
    source: nat,
    sequence: nat,
    triggerText: string,
    returnText: string)

  datatype Status = Running | CompletedTurn | Failed | Interrupted

  datatype TraceEvent = ModelRequest | TurnResume

  datatype AgentFailure = AgentFailure(agent: AgentId, beat: nat, outcome: MemoryOutcome)

  datatype RoomResult = RoomResult(messages: seq<nat>, failures: seq<AgentFailure>)

  /** `accepted` is the resolution column: the only resolution is accepting a partial result. */
  datatype TurnRow = TurnRow(
    project: ProjectId,
    fingerprint: Request,
    status: Status,
    result: Option<RoomResult>,
    trace: seq<TraceEvent>,
    failure: Option<string>,
    request: Option<Request>,
    runtime: Option<Runtime>,
    accepted: bool)

  predicate Ended(row: TurnRow) {
    row.status == CompletedTurn || row.accepted
  }

  /** Rows of append-only tables are identified by their position, which stands for a fresh
      identifier; the `...Of` maps are the tables' unique indexes. */
  datatype Tables = Tables(
    projects: set<ProjectId>,
    turns: map<TurnId, TurnRow>,
    operations: map<OpKey, OpRow>,
    messages: seq<MessageRow>,
    messageOf: map<OpKey, nat>,
    memories: seq<MemoryRow>,
    memoryOf: map<OpKey, nat>,
    globals: seq<GlobalRow>,
    globalOf: map<nat, nat>)

  function Lookup(m: map<AgentId, string>, agent: AgentId): Option<string> {
    if agent in m then Some(m[agent]) else None
  }
}
