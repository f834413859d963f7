/** The turn service: it begins or resumes a turn, runs the room, and records how the attempt ended. */
module Turns {
  import opened Records
  import opened Steps
  import opened Text
  import opened Invariant
  import opened RowLemmas
  import opened StepLemmas
  import opened TurnLemmas
  import opened Journal
  import opened Storage
  import opened Speakers
  import opened Execution
  import opened Orchestration

  // -- the request budget --------------------------------------------------------------------

  function Lost(lost: map<TurnId, nat>, t: TurnId): nat {
    if t in lost then lost[t] else 0
  }

  /** The requests admitted for a turn stay within the room's budget, but for those of killed attempts;
      while the turn can still run, its stored trace accounts for exactly the others. */
  ghost predicate BudgetOk(journal: seq<Event>, db: Tables, lost: map<TurnId, nat>, max: nat, t: TurnId) {
    && (t !in db.turns ==> CountAdmitted(journal, t) == 0 && t !in lost)
    && Lost(lost, t) <= CountAdmitted(journal, t) <= max + Lost(lost, t)
    && (IsLive(db, t) ==>
          && CountAdmitted(journal, t) == CountRequests(db.turns[t].trace) + Lost(lost, t)
          && CountRequests(db.turns[t].trace) <= max)
  }

  ghost predicate BudgetsOk(journal: seq<Event>, db: Tables, lost: map<TurnId, nat>, max: nat) {
    forall t :: BudgetOk(journal, db, lost, max, t)
  }

  lemma {:induction false} CountsOfOthers(x: seq<Event>, y: seq<Event>, t: TurnId, agents: set<AgentId>,
                                          searchers: set<AgentId>, other: TurnId)
    requires JournalGrows(x, y, t, agents, searchers)
    ensures CountAdmitted(y, other) >= CountAdmitted(x, other)
    ensures other != t ==> CountAdmitted(y, other) == CountAdmitted(x, other)
  {
    if |y| > |x| {
      var init := y[..|y| - 1];
      assert Concerns(y[|y| - 1], t, agents, searchers);
      assert forall i :: |x| <= i < |init| ==> Concerns(init[i], t, agents, searchers) by {
        assert forall i :: |x| <= i < |init| ==> init[i] == y[i];
      }
      CountsOfOthers(x, init, t, agents, searchers, other);
    } else {
      assert x == y;
    }
  }

  /** Turns other than the one attempted keep their accounts. */
  lemma OtherBudgetsKept(jx: seq<Event>, x: Tables, jy: seq<Event>, y: Tables,
                         lost: map<TurnId, nat>, lostNow: map<TurnId, nat>,
                         max: nat, t: TurnId, agents: set<AgentId>, searchers: set<AgentId>)
    requires BudgetsOk(jx, x, lost, max) && JournalGrows(jx, jy, t, agents, searchers)
    requires forall o :: o != t ==> (o in y.turns <==> o in x.turns) && (o in lostNow <==> o in lost)
    requires forall o :: o != t && o in x.turns ==> y.turns[o] == x.turns[o]
    requires forall o :: o != t && o in lost ==> lostNow[o] == lost[o]
    ensures forall o :: o != t ==> BudgetOk(jy, y, lostNow, max, o)
  {
    forall o | o != t ensures BudgetOk(jy, y, lostNow, max, o) {
      assert BudgetOk(jx, x, lost, max, o);
      CountsOfOthers(jx, jy, t, agents, searchers, o);
    }
  }

  lemma LiveAccount(journal: seq<Event>, db: Tables, lost: map<TurnId, nat>, max: nat, t: TurnId)
    requires BudgetsOk(journal, db, lost, max) && IsLive(db, t)
    ensures CountAdmitted(journal, t) == CountRequests(db.turns[t].trace) + Lost(lost, t)
    ensures CountRequests(db.turns[t].trace) <= max
  {
    assert BudgetOk(journal, db, lost, max, t);
  }

  lemma WithinItsBudget(journal: seq<Event>, db: Tables, lost: map<TurnId, nat>, max: nat, t: TurnId)
    requires BudgetsOk(journal, db, lost, max)
    ensures Lost(lost, t) <= CountAdmitted(journal, t) <= max + Lost(lost, t)
  {
    assert BudgetOk(journal, db, lost, max, t);
  }

  /** An attempt stays within the turn's budget; if it is killed it loses exactly the requests it was
      granted, and no other turn's are lost. */
  ghost predicate LossStated(lost: map<TurnId, nat>, lostNow: map<TurnId, nat>, jx: seq<Event>, jy: seq<Event>,
                             max: nat, t: TurnId, killed: bool)
  {
    && CountAdmitted(jy, t) <= max + Lost(lost, t)
    && (forall o :: Lost(lostNow, o)
                    == Lost(lost, o) + if killed && o == t then CountAdmitted(jy, o) - CountAdmitted(jx, o) else 0)
  }

  /** Rows that change without touching a live turn's trace keep every account. */
  lemma BudgetsKept(journal: seq<Event>, x: Tables, y: Tables, lost: map<TurnId, nat>, max: nat)
    requires BudgetsOk(journal, x, lost, max)
    requires forall t :: t in x.turns ==> t in y.turns
    requires forall t :: IsLive(y, t) && t in x.turns ==> IsLive(x, t) && y.turns[t].trace == x.turns[t].trace
    requires forall t :: t in y.turns && t !in x.turns ==> y.turns[t].trace == []
    ensures BudgetsOk(journal, y, lost, max)
  {
    forall t ensures BudgetOk(journal, y, lost, max, t) {
      assert BudgetOk(journal, x, lost, max, t);
    }
  }

  // -- messages of a turn --------------------------------------------------------------------

  predicate Belongs(row: MessageRow, project: ProjectId, turn: TurnId) {
    row.project == project && row.turn == Some(turn)
  }

  predicate Ascending(ids: seq<nat>) {
    forall i, j :: 0 <= i < j < |ids| ==> ids[i] < ids[j]
  }

  /** The agents' messages of a turn, in insertion order. */
  function AgentMessages(rows: seq<MessageRow>, project: ProjectId, turn: TurnId): (r: seq<nat>)
    ensures forall i: nat :: i in r <==> i < |rows| && Belongs(rows[i], project, turn) && rows[i].role.AgentRole?
    ensures Ascending(r)
  {
    if rows == [] then []
    else
      var n := |rows| - 1;
      var earlier := AgentMessages(rows[..n], project, turn);
      assert forall k :: 0 <= k < |earlier| ==> earlier[k] in earlier;
      if Belongs(rows[n], project, turn) && rows[n].role.AgentRole? then earlier + [n] else earlier
  }

  function FirstUserMessage(rows: seq<MessageRow>, project: ProjectId, turn: TurnId): (r: Option<nat>)
    ensures r.Some? ==> r.value < |rows| && Belongs(rows[r.value], project, turn) && rows[r.value].role == UserRole
    ensures r.None? ==> forall i :: 0 <= i < |rows| && Belongs(rows[i], project, turn) ==> rows[i].role != UserRole
  {
    if rows == [] then None
    else
      var n := |rows| - 1;
      var earlier := FirstUserMessage(rows[..n], project, turn);
      if earlier.Some? then earlier
      else if Belongs(rows[n], project, turn) && rows[n].role == UserRole then Some(n)
      else None
  }

  /** Agents an earlier attempt finished; a turn without operations falls back on its messages. */
  function FinishedBefore(db: Tables, project: ProjectId, turn: TurnId): set<AgentId> {
    if exists k :: k in db.operations && k.turn == turn then CompletedAgents(db, turn)
    else
      var ids := AgentMessages(db.messages, project, turn);
      set i | i in ids :: db.messages[i].role.agent
  }

  lemma CompletedMeansFinished(db: Tables, turn: TurnId, a: AgentId)
    ensures a in CompletedAgents(db, turn) <==> AgentIsFinished(db, turn, a)
  {
    if AgentIsFinished(db, turn, a) {
      var n :| IsCompleted(db, AgentKey(turn, a, n));
      assert AgentKey(turn, a, n).agent == a;
    }
    if a in CompletedAgents(db, turn) {
      var k :| k in db.operations && k.turn == turn && k.kind == AgentFinished && IsCompleted(db, k) && k.agent == a;
      assert k == AgentKey(turn, a, k.beat);
    }
  }

  lemma MessagesHaveOperations(db: Tables, turn: TurnId, limit: nat)
    requires Inv(db, limit) && IsLive(db, turn)
    requires AgentMessages(db.messages, db.turns[turn].project, turn) != []
    ensures exists k :: k in db.operations && k.turn == turn
  {
    var ids := AgentMessages(db.messages, db.turns[turn].project, turn);
    assert ids[0] in ids;
    var key := db.messages[ids[0]].operation.value;
    assert IsMessage(db, key, db.messageOf[key]);
    assert key == MessageKey(key.turn, key.agent, key.beat);
    assert BeatOk(db, key.turn, key.agent, key.beat, limit);
    assert key in db.operations;
  }

  /** For every turn that can be resumed the fallback agrees with the operations: either way exactly
      the finished agents are left out. */
  lemma FinishedBeforeIsFinished(db: Tables, turn: TurnId, a: AgentId, limit: nat)
    requires Inv(db, limit) && IsLive(db, turn)
    ensures a in FinishedBefore(db, db.turns[turn].project, turn) <==> AgentIsFinished(db, turn, a)
  {
    CompletedMeansFinished(db, turn, a);
    if AgentMessages(db.messages, db.turns[turn].project, turn) != [] {
      MessagesHaveOperations(db, turn, limit);
    }
  }

  // -- one attempt ---------------------------------------------------------------------------

  /** What one attempt at turn `t` may do to the durable state: rows of `t` grow for these agents, the
      turn's own row steps, and every other turn is left alone. */
  ghost predicate Attempted(x: Tables, jx: seq<Event>, y: Tables, jy: seq<Event>, t: TurnId,
                            agents: set<AgentId>, searchers: set<AgentId>)
  {
    && Grows(x, y.(turns := x.turns), t, agents)
    && JournalGrows(jx, jy, t, agents, searchers)
    && TurnsStep(x, y)
    && (forall o :: o != t && o in y.turns ==> o in x.turns && y.turns[o] == x.turns[o])
  }

  datatype TurnReply =
    | Returned(result: RoomResult)
    | Denied(error: StorageError)      // the turn's state does not allow the call
    | Died(reason: Stop)                 // the attempt was killed, cancelled, or raised

  datatype Resumption = Resumption(request: Request, runtime: Runtime, existing: Option<nat>, trace: seq<TraceEvent>)

  function StatusAfter(reason: Stop): Status {
    if reason == Cancelled then Interrupted else Failed
  }

  function DetailOf(reason: Stop): string {
    match reason
    case Raised(detail) => detail
    case OverBudget => "The room stopped before exceeding its provider-request budget."
    case Cancelled => "The streaming client disconnected before the room turn completed."
    case _ => ""
  }

  const FAILURE_MAX := 4000

  /** What is stored of the detail: its words, cut to the column's length. */
  function FailureText(reason: Stop): string {
    Truncated(Gathered(DetailOf(reason)).0, FAILURE_MAX)
  }

  lemma FailureTextIs(reason: Stop)
    ensures reason.Raised? ==>
              var words := Joined(Words(reason.detail, IsSpace));
              && FailureText(reason) <= words
              && |FailureText(reason)| == if |words| <= FAILURE_MAX then |words| else FAILURE_MAX
  {
    GatheredJoins(DetailOf(reason));
  }

  lemma {:induction false} SpokenBySame(x: Tables, y: Tables, t: TurnId, order: seq<AgentId>, speeches: seq<Speech>)
    requires |speeches| <= |order| && y.messageOf == x.messageOf
    ensures SpokenBy(y, t, order, speeches) == SpokenBy(x, t, order, speeches)
  {
    if speeches != [] {
      var n := |speeches| - 1;
      SpokenBySame(x, y, t, order, speeches[..n]);
      SpokenSame(x, y, t, order[n], speeches[n].spoken);
    }
  }

  lemma {:induction false} SpokenSame(x: Tables, y: Tables, t: TurnId, a: AgentId, n: nat)
    requires y.messageOf == x.messageOf
    ensures Spoken(y, t, a, n) == Spoken(x, t, a, n)
  {
    if n > 0 {
      SpokenSame(x, y, t, a, n - 1);
    }
  }

  /** What a run answers with: a resume reports the messages of every attempt so far. */
  ghost predicate RoomAnswer(db: Tables, request: Request, runtime: Runtime, signals: RoomSignals, resume: bool,
                             result: RoomResult, limit: nat)
  {
    var stored := AgentMessages(db.messages, request.project, request.turn);
    if request.participants == [] then result == RoomResult(stored, [])
    else
      exists heard: RoomResult ::
        && RoomDone(db, request, runtime, signals, heard, limit)
        && result == if resume then heard.(messages := stored) else heard
  }

  lemma RoomAnswerStays(x: Tables, y: Tables, request: Request, runtime: Runtime, signals: RoomSignals, resume: bool,
                        result: RoomResult, limit: nat)
    requires RoomAnswer(x, request, runtime, signals, resume, result, limit) && y == x.(turns := y.turns)
    ensures RoomAnswer(y, request, runtime, signals, resume, result, limit)
  {
    hide RoomDone, AgentMessages;
    if request.participants != [] {
      var stored := AgentMessages(x.messages, request.project, request.turn);
      var heard: RoomResult :|
        && RoomDone(x, request, runtime, signals, heard, limit)
        && result == if resume then heard.(messages := stored) else heard;
      RoomDoneStays(x, y, request, runtime, signals, heard, limit);
    }
  }

  /** Ending the turn changes nothing of what the room heard. */
  lemma RoomDoneStays(x: Tables, y: Tables, request: Request, runtime: Runtime, signals: RoomSignals,
                      result: RoomResult, limit: nat)
    requires RoomDone(x, request, runtime, signals, result, limit) && y == x.(turns := y.turns)
    ensures RoomDone(y, request, runtime, signals, result, limit)
  {
    var (order, searcher) := RunOrder(request, runtime, signals);
    if !Skipped(signals, searcher) {
      var speeches: seq<Speech> :|
        && RoomHeard(x, request.turn, order, speeches, searcher, result, limit)
        && |speeches| == if WithoutEvidence(signals.sourcesRead, speeches) then 1 else |order|;
      SpokenBySame(x, y, request.turn, order, speeches);
      forall i | 0 <= i < |speeches| ensures SpeechOk(y, request.turn, order[i], speeches[i], limit) {
        SpeechSame(x, y, request.turn, order[i], speeches[i], limit);
      }
      assert RoomHeard(y, request.turn, order, speeches, searcher, result, limit);
    }
  }

  lemma SpeechSame(x: Tables, y: Tables, t: TurnId, a: AgentId, speech: Speech, limit: nat)
    requires SpeechOk(x, t, a, speech, limit) && y == x.(turns := y.turns)
    ensures SpeechOk(y, t, a, speech, limit)
  {
    forall b | 1 <= b <= speech.spoken ensures AllStages(y, t, a, b) {
      assert AllStages(x, t, a, b);
    }
  }

  lemma AttemptedAfter(x: Tables, x1: Tables, jx: seq<Event>, y: Tables, jy: seq<Event>, t: TurnId,
                       agents: set<AgentId>, searchers: set<AgentId>)
    requires x1 == x.(turns := x1.turns) && TurnsStep(x, x1)
    requires forall o :: o != t && o in x1.turns ==> o in x.turns && x1.turns[o] == x.turns[o]
    requires Attempted(x1, jx, y, jy, t, agents, searchers)
    ensures Attempted(x, jx, y, jy, t, agents, searchers)
  {
    TurnsStepTransitive(x, x1, y);
    var u, v := y.(turns := x1.turns), y.(turns := x.turns);
    assert Grows(x1, u, t, agents);
    forall k | IsCompleted(x, k) ensures v.operations[k] == x.operations[k] {
      assert IsCompleted(x1, k);
    }
    assert Grows(x, v, t, agents);
  }

  lemma NothingAttempted(x: Tables, jx: seq<Event>, t: TurnId, agents: set<AgentId>, searchers: set<AgentId>)
    ensures Attempted(x, jx, x, jx, t, agents, searchers)
  {
  }

  /** Nothing exists of a turn that was not in the turn table. */
  lemma UnknownTurn(db: Tables, next: Tables, t: TurnId, limit: nat)
    requires Inv(db, limit) && t !in db.turns && next == db.(turns := next.turns)
    ensures forall i :: !IsUserMessage(next, t, i)
    ensures forall a :: !AgentIsFinished(next, t, a)
  {
  }

  lemma CompletedHasResult(db: Tables, t: TurnId, limit: nat)
    requires Inv(db, limit)
    ensures t in db.turns && db.turns[t].status == CompletedTurn ==> db.turns[t].result.Some?
  {
  }

  /** The turn may be resumed for this project. */
  predicate Resumable(db: Tables, project: ProjectId, turn: TurnId) {
    && IsLive(db, turn) && db.turns[turn].project == project
    && (db.turns[turn].status == Failed || db.turns[turn].status == Interrupted)
  }

  /** Whom an attempt may ask: on a resume, the stored request's participants not yet finished; for a
      new turn, the request's own; for a turn submitted before, nobody. */
  ghost function MayAsk(db: Tables, payload: Request, resume: bool): set<AgentId> {
    var t := payload.turn;
    if !resume then if t in db.turns then {} else AsSet(payload.participants)
    else if t in db.turns && db.turns[t].request.Some? then
      set a | a in db.turns[t].request.value.participants && !AgentIsFinished(db, t, a)
    else {}
  }

  /** The request an attempt runs with: a resume takes the stored one, for those it may ask. */
  ghost function AttemptRequest(db: Tables, payload: Request, resume: bool): Request {
    if resume && payload.turn in db.turns && db.turns[payload.turn].request.Some? then
      var stored := db.turns[payload.turn].request.value;
      stored.(participants := Keep(stored.participants, MayAsk(db, payload, true)))
    else payload
  }

  ghost function AttemptRuntime(db: Tables, payload: Request, runtime: Runtime, resume: bool): Runtime {
    if resume && payload.turn in db.turns && db.turns[payload.turn].runtime.Some? then
      db.turns[payload.turn].runtime.value
    else runtime
  }

  /** The agent, if any, whose answer the attempt may drop. */
  ghost function AttemptSearchers(db: Tables, payload: Request, runtime: Runtime, signals: RoomSignals,
                                  resume: bool): set<AgentId>
  {
    Searchers(RunOrder(AttemptRequest(db, payload, resume), AttemptRuntime(db, payload, runtime, resume), signals).1)
  }

  /** Everyone the turn was submitted for is finished. */
  ghost predicate Whole(db: Tables, t: TurnId) {
    t in db.turns && db.turns[t].request.Some? && AllFinished(db, t, db.turns[t].request.value.participants)
  }

  predicate IsCompletedTurn(db: Tables, t: TurnId) {
    t in db.turns && db.turns[t].status == CompletedTurn
  }

  ghost function NewlyCompleted(x: Tables, y: Tables): set<TurnId> {
    set t | t in y.turns && IsCompletedTurn(y, t) && !IsCompletedTurn(x, t)
  }

  /** An attempt that returns leaves the turn completed with what it answers, and whole, unless it ended
      short. */
  ghost predicate TurnAnswered(x: Tables, y: Tables, payload: Request, runtime: Runtime, signals: RoomSignals,
                               resume: bool, result: RoomResult, limit: nat)
  {
    var request := AttemptRequest(x, payload, resume);
    var ran := AttemptRuntime(x, payload, runtime, resume);
    && IsCompletedTurn(y, payload.turn) && y.turns[payload.turn].result == Some(result)
    && RoomAnswer(y, request, ran, signals, resume, result, limit)
    && (Whole(y, payload.turn) || (request.participants != [] && EndedShort(y, request, ran, signals)))
  }

  /** A run that asked all who were left, and answers, leaves the turn whole or ended short. */
  lemma WholeOrShort(x: Tables, jx: seq<Event>, y: Tables, jy: seq<Event>, request: Request, runtime: Runtime,
                     signals: RoomSignals, resume: bool, result: RoomResult, searchers: set<AgentId>, limit: nat)
    requires request.turn in x.turns && x.turns[request.turn].request.Some?
    requires forall a :: a in x.turns[request.turn].request.value.participants ==>
               a in request.participants || AgentIsFinished(x, request.turn, a)
    requires Attempted(x, jx, y, jy, request.turn, AsSet(request.participants), searchers)
    requires RoomAnswer(y, request, runtime, signals, resume, result, limit)
    ensures Whole(y, request.turn) || (request.participants != [] && EndedShort(y, request, runtime, signals))
  {
    hide RoomDone, EndedShort;
    forall a | AgentIsFinished(x, request.turn, a) ensures AgentIsFinished(y, request.turn, a) {
      var n :| IsCompleted(x, AgentKey(request.turn, a, n));
      assert IsCompleted(y, AgentKey(request.turn, a, n));
    }
    if request.participants != [] {
      var heard: RoomResult :| RoomDone(y, request, runtime, signals, heard, limit);
      HeardOrShort(y, request, runtime, signals, heard, limit);
    }
  }

  lemma AttemptAnswers(x: Tables, x1: Tables, jx: seq<Event>, y: Tables, jy: seq<Event>, payload: Request,
                       runtime: Runtime, request: Request, signals: RoomSignals, resume: bool, result: RoomResult,
                       searchers: set<AgentId>, limit: nat)
    requires TurnsOnly(x, x1) && payload.turn in x1.turns && x1.turns[payload.turn].request.Some?
    requires request == AttemptRequest(x, payload, resume) && request.turn == payload.turn
    requires if resume then payload.turn in x.turns && x.turns[payload.turn].runtime.Some?
             else x1.turns[payload.turn].request == Some(payload)
    requires Attempted(x1, jx, y, jy, payload.turn, AsSet(request.participants), searchers)
    requires RoomAnswer(y, request, AttemptRuntime(x, payload, runtime, resume), signals, resume, result, limit)
    requires IsCompletedTurn(y, payload.turn) && y.turns[payload.turn].result == Some(result)
    ensures TurnAnswered(x, y, payload, runtime, signals, resume, result, limit)
  {
    hide RoomAnswer, EndedShort, AllFinished, Attempted;
    var ran := AttemptRuntime(x, payload, runtime, resume);
    forall a | a in x1.turns[payload.turn].request.value.participants
      ensures a in request.participants || AgentIsFinished(x1, payload.turn, a)
    {
      assert AgentIsFinished(x, payload.turn, a) ==> AgentIsFinished(x1, payload.turn, a);
    }
    WholeOrShort(x1, jx, y, jy, request, ran, signals, resume, result, searchers, limit);
  }

  function ProjectOf(db: Tables, turn: TurnId): ProjectId {
    if turn in db.turns then db.turns[turn].project else ""
  }

  /** From one durable state to any later one: messages, memory events and cards are only ever added,
      and turns step. */
  ghost predicate DurableStep(x: Tables, y: Tables) {
    && TurnsStep(x, y)
    && x.messages <= y.messages && x.memories <= y.memories && x.globals <= y.globals
  }

  class TurnService {
    const storage: Storage
    const limit: nat
    const maxRequests: nat

    /** Every state reachable by any schedule of attempts, crashes, restarts and prunings. */
    ghost predicate Valid()
      reads this, storage
    {
      && limit >= 1
      && Inv(storage.tables, limit)
      && JournalOk(storage.journal, storage.tables, limit)
      && BudgetsOk(storage.journal, storage.tables, storage.lost, maxRequests)
    }

    constructor (projects: set<ProjectId>, limit: nat, maxRequests: nat)
      requires limit >= 1
      ensures Valid() && fresh(storage)
      ensures this.limit == limit && this.maxRequests == maxRequests
      ensures storage.tables.projects == projects && storage.tables.turns == map[]
    {
      var s := new Storage(projects);
      EmptyIsSound(projects, limit, maxRequests);
      storage := s;
      this.limit, this.maxRequests := limit, maxRequests;
    }

    /** The turn is being run, and this is its request and runtime. */
    ghost predicate Active(request: Request, runtime: Runtime)
      reads storage
    {
      && IsLive(storage.tables, request.turn)
      && storage.tables.turns[request.turn].project == request.project
      && storage.tables.turns[request.turn].runtime == Some(runtime)
    }

    ghost predicate Existing(request: Request, existing: Option<nat>)
      reads storage
    {
      match existing
      case Some(user) => IsUserMessage(storage.tables, request.turn, user)
      case None => forall i :: !IsUserMessage(storage.tables, request.turn, i)
    }

    /** The room's result: nothing is asked when every participant is already done. */
    method RunRoom(request: Request, runtime: Runtime, existing: Option<nat>, report: RoomReport, resume: bool,
                   attempt: Attempt, signals: RoomSignals, ghost unrecorded: nat)
      returns (r: Outcome<RoomResult>)
      requires Valid() && Active(request, runtime) && Existing(request, existing)
      requires !attempt.ending.Refused?
      requires report.Valid() && report.requests <= report.budget
      requires CountAdmitted(storage.journal, request.turn) == report.requests + unrecorded
      requires forall a :: a in request.participants ==> !AgentIsFinished(storage.tables, request.turn, a)
      modifies storage`tables, storage`journal, attempt, report
      ensures Inv(storage.tables, limit) && JournalOk(storage.journal, storage.tables, limit)
      ensures Active(request, runtime) && storage.tables.turns == old(storage.tables).turns
      ensures Advanced(old(storage.tables), old(storage.journal), storage.tables, storage.journal,
                       request.turn, AsSet(request.participants), Searchers(RunOrder(request, runtime, signals).1))
      ensures report.Valid() && report.requests <= report.budget
      ensures CountAdmitted(storage.journal, request.turn) == report.requests + unrecorded
      ensures request.participants == [] ==>
                storage.tables == old(storage.tables) && storage.journal == old(storage.journal) && r.Done?
      ensures r.Done? ==> RoomAnswer(storage.tables, request, runtime, signals, resume, r.value, limit)
      ensures r.Stopped? ==> r.reason == attempt.ending || r.reason == OverBudget
    {
      hide Inv, JournalOk, RoomDone;
      if request.participants == [] {
        NothingGrows(storage.tables, request.turn, AsSet(request.participants));
        return Done(RoomResult(AgentMessages(storage.tables.messages, request.project, request.turn), []));
      }
      var orchestrator := new Orchestrator(storage, attempt, report, limit);
      var result :- orchestrator.Chat(request, runtime, signals, existing, unrecorded);
      if resume {
        return Done(result.(messages := AgentMessages(storage.tables.messages, request.project, request.turn)));
      }
      return Done(result);
    }

    /** Record how the turn ended, with the trace of every attempt so far. */
    method Finish(turn: TurnId, status: Status, result: Option<RoomResult>, trace: seq<TraceEvent>,
                  failure: Option<string>, ghost x: Tables, ghost jx: seq<Event>, ghost agents: set<AgentId>,
                  ghost searchers: set<AgentId>)
      requires limit >= 1 && Inv(storage.tables, limit) && JournalOk(storage.journal, storage.tables, limit)
      requires MayEnd(storage.tables, turn, status, result)
      requires BudgetsOk(jx, x, storage.lost, maxRequests)
      requires Advanced(x, jx, storage.tables, storage.journal, turn, agents, searchers)
      requires CountRequests(trace) <= maxRequests
      requires CountAdmitted(storage.journal, turn) == CountRequests(trace) + Lost(storage.lost, turn)
      modifies storage`tables
      ensures Valid()
      ensures FinishTurn(old(storage.tables), turn, status, result, trace, failure) == Ok(storage.tables)
      ensures Attempted(x, jx, storage.tables, storage.journal, turn, agents, searchers)
    {
      hide Inv, JournalOk;
      ghost var y := storage.tables;
      FinishTurnSteps(y, turn, status, result, trace, failure, limit);
      var _ := storage.FinishChatTurn(turn, status, result, trace, failure);
      TurnsOnlyKeepsInv(y, storage.tables, limit);
      TurnsOnlyKeepsJournal(y, storage.tables, storage.journal, limit);
      OtherBudgetsKept(jx, x, storage.journal, storage.tables, storage.lost, storage.lost, maxRequests, turn, agents,
                       searchers);
    }

    /** The process is gone, and with it the trace of this attempt. */
    ghost method Lose(turn: TurnId, x: Tables, jx: seq<Event>, agents: set<AgentId>, searchers: set<AgentId>)
      requires limit >= 1 && Inv(storage.tables, limit) && JournalOk(storage.journal, storage.tables, limit)
      requires IsLive(storage.tables, turn) && BudgetsOk(jx, x, storage.lost, maxRequests)
      requires Advanced(x, jx, storage.tables, storage.journal, turn, agents, searchers)
      requires CountAdmitted(storage.journal, turn) <= maxRequests + Lost(storage.lost, turn)
      modifies storage`lost
      ensures Valid()
      ensures Attempted(x, jx, storage.tables, storage.journal, turn, agents, searchers)
      ensures LossStated(old(storage.lost), storage.lost, jx, storage.journal, maxRequests, turn, true)
    {
      hide Inv, JournalOk;
      forall o ensures CountAdmitted(storage.journal, o) >= CountAdmitted(jx, o)
                       && (o != turn ==> CountAdmitted(storage.journal, o) == CountAdmitted(jx, o))
      {
        CountsOfOthers(jx, storage.journal, turn, agents, searchers, o);
      }
      var more := CountAdmitted(storage.journal, turn) - CountAdmitted(jx, turn);
      var lostNow := storage.lost[turn := Lost(storage.lost, turn) + more];
      OtherBudgetsKept(jx, x, storage.journal, storage.tables, storage.lost, lostNow, maxRequests, turn, agents,
                       searchers);
      assert BudgetOk(jx, x, storage.lost, maxRequests, turn);
      assert BudgetOk(storage.journal, storage.tables, lostNow, maxRequests, turn);
      storage.lost := lostNow;
    }

    /** An attempt that raised or was cancelled records the turn as failed; a killed one cannot. */
    method RecordFailure(turn: TurnId, reason: Stop, report: RoomReport, attempt: Attempt,
                         ghost x: Tables, ghost jx: seq<Event>, ghost agents: set<AgentId>,
                         ghost searchers: set<AgentId>)
      returns (r: TurnReply)
      requires limit >= 1 && Inv(storage.tables, limit) && JournalOk(storage.journal, storage.tables, limit)
      requires IsLive(storage.tables, turn) && BudgetsOk(jx, x, storage.lost, maxRequests)
      requires Advanced(x, jx, storage.tables, storage.journal, turn, agents, searchers)
      requires report.Valid() && report.requests <= maxRequests
      requires CountAdmitted(storage.journal, turn) == report.requests + Lost(storage.lost, turn)
      requires !reason.Refused? && !attempt.ending.Refused?
      modifies storage`tables, storage`lost, attempt`callsLeft
      ensures Valid()
      ensures Attempted(x, jx, storage.tables, storage.journal, turn, agents, searchers)
      ensures r == Died(Killed) || r == Died(reason)
      ensures LossStated(old(storage.lost), storage.lost, jx, storage.journal, maxRequests, turn, r == Died(Killed))
      ensures r == Died(Killed) ==> storage.tables == old(storage.tables)
      ensures r != Died(Killed) ==>
                FinishTurn(old(storage.tables), turn, StatusAfter(reason), None, report.trace,
                           Some(FailureText(reason)))
                == Ok(storage.tables)
    {
      hide Inv, JournalOk, Attempted, Advanced, Grows, JournalGrows, TurnsStep, BudgetsOk, CountRequests, CountAdmitted,
           Lost, FinishTurn, FailureText;
      var killed := reason == Killed;
      if !killed {
        var alive := attempt.Step();
        killed := alive == Stopped(Killed);
      }
      if killed {
        Lose(turn, x, jx, agents, searchers);
        return Died(Killed);
      }
      Finish(turn, StatusAfter(reason), None, report.trace, Some(FailureText(reason)), x, jx, agents,
             searchers);
      return Died(reason);
    }

    /** Drive a running turn to its end, or to wherever this attempt ends. */
    method RunTurn(request: Request, runtime: Runtime, existing: Option<nat>, previous: seq<TraceEvent>,
                   resume: bool, attempt: Attempt, signals: RoomSignals)
      returns (r: TurnReply)
      requires Valid() && Active(request, runtime) && Existing(request, existing)
      requires !attempt.ending.Refused? && previous == storage.tables.turns[request.turn].trace
      requires forall a :: a in request.participants ==> !AgentIsFinished(storage.tables, request.turn, a)
      modifies storage, attempt
      ensures Valid()
      ensures Attempted(old(storage.tables), old(storage.journal), storage.tables, storage.journal,
                        request.turn, AsSet(request.participants), Searchers(RunOrder(request, runtime, signals).1))
      ensures RunEnded(request, runtime, signals, resume, r)
      ensures r == Died(Killed) ==> storage.tables.turns == old(storage.tables).turns
      ensures LossStated(old(storage.lost), storage.lost, old(storage.journal), storage.journal, maxRequests,
                         request.turn, r == Died(Killed))
      ensures request.participants == [] ==> storage.journal == old(storage.journal)
    {
      hide Inv, JournalOk, RoomAnswer, Attempted, Advanced, Grows, JournalGrows, TurnsStep, BudgetsOk, RunOrder,
           CountAdmitted, CountRequests, LossStated;
      ghost var x, jx, agents := storage.tables, storage.journal, AsSet(request.participants);
      ghost var searchers := Searchers(RunOrder(request, runtime, signals).1);
      LiveAccount(jx, x, storage.lost, maxRequests, request.turn);
      var report := new RoomReport(previous, resume, maxRequests);
      var ran := RunRoom(request, runtime, existing, report, resume, attempt, signals,
                         Lost(storage.lost, request.turn));
      if ran.Done? {
        r := CompleteTurn(request, runtime, signals, resume, ran.value, report, attempt, x, jx, agents,
                          searchers);
      } else {
        r := RecordFailure(request.turn, ran.reason, report, attempt, x, jx, agents, searchers);
      }
    }

    /** Store the room's result, unless the attempt ends here. */
    method CompleteTurn(request: Request, ghost runtime: Runtime, ghost signals: RoomSignals, ghost resume: bool,
                        result: RoomResult, report: RoomReport, attempt: Attempt,
                        ghost x: Tables, ghost jx: seq<Event>, ghost agents: set<AgentId>,
                        ghost searchers: set<AgentId>)
      returns (r: TurnReply)
      requires limit >= 1 && Inv(storage.tables, limit) && JournalOk(storage.journal, storage.tables, limit)
      requires IsLive(storage.tables, request.turn) && BudgetsOk(jx, x, storage.lost, maxRequests)
      requires Advanced(x, jx, storage.tables, storage.journal, request.turn, agents, searchers)
      requires report.Valid() && report.requests <= maxRequests
      requires CountAdmitted(storage.journal, request.turn) == report.requests + Lost(storage.lost, request.turn)
      requires !attempt.ending.Refused?
      requires RoomAnswer(storage.tables, request, runtime, signals, resume, result, limit)
      modifies storage`tables, storage`lost, attempt`callsLeft
      ensures Valid()
      ensures Attempted(x, jx, storage.tables, storage.journal, request.turn, agents, searchers)
      ensures RunEnded(request, runtime, signals, resume, r)
      ensures r == Died(Killed) ==> storage.tables.turns == old(storage.tables).turns
      ensures LossStated(old(storage.lost), storage.lost, jx, storage.journal, maxRequests, request.turn,
                         r == Died(Killed))
    {
      hide Inv, JournalOk, RoomAnswer, Attempted, Advanced, Grows, JournalGrows, TurnsStep, BudgetsOk;
      ghost var y := storage.tables;
      var alive := attempt.Step();
      if alive.Stopped? {
        r := RecordFailure(request.turn, alive.reason, report, attempt, x, jx, agents, searchers);
        return;
      }
      Finish(request.turn, CompletedTurn, Some(result), report.trace, None, x, jx, agents, searchers);
      RoomAnswerStays(y, storage.tables, request, runtime, signals, resume, result, limit);
      return Returned(result);
    }

    /** How a run of the turn left it. */
    ghost predicate RunEnded(request: Request, runtime: Runtime, signals: RoomSignals, resume: bool, r: TurnReply)
      reads storage
    {
      request.turn in storage.tables.turns &&
      var row := storage.tables.turns[request.turn];
      match r
      case Denied(_) => false
      case Returned(result) =>
        && row.status == CompletedTurn && row.result == Some(result)
        && RoomAnswer(storage.tables, request, runtime, signals, resume, result, limit)
      case Died(reason) =>
        && !reason.Refused? && IsLive(storage.tables, request.turn)
        && (reason != Killed ==>
              && row.status == (if reason.Cancelled? then Interrupted else Failed)
              && row.failure == Some(FailureText(reason)))
    }

    /** Put a failed turn back to running, and find what is left of it to do. */
    method PrepareResume(project: ProjectId, turn: TurnId) returns (r: Result<Resumption>)
      requires Valid()
      modifies storage`tables
      ensures Valid()
      ensures r.Ok? <==> Resumable(old(storage.tables), project, turn)
      ensures r.Err? ==> storage.tables == old(storage.tables)
      ensures r.Ok? ==>
                var request := r.value.request;
                && ResumeTurn(old(storage.tables), turn) == Ok(storage.tables)
                && request.turn == turn && request.project == project
                && (forall payload: Request :: payload.turn == turn ==>
                      && request == AttemptRequest(old(storage.tables), payload, true)
                      && AsSet(request.participants) == MayAsk(old(storage.tables), payload, true))
                && old(storage.tables).turns[turn].runtime == Some(r.value.runtime)
                && Active(request, r.value.runtime) && Existing(request, r.value.existing)
                && r.value.trace == storage.tables.turns[turn].trace
                && (forall a :: a in request.participants ==> !AgentIsFinished(storage.tables, turn, a))
    {
      hide OperationsOk, MessagesOk, MemoriesOk, GlobalsOk, SequencesOk, BeatsOk, FinishesOk, FingerprintsOk, JournalOk,
           BudgetsOk;
      ghost var x := storage.tables;
      if turn !in storage.tables.turns {
        return Err(NotFound);
      }
      var row := storage.tables.turns[turn];
      if row.project != project {
        return Err(Conflict);
      }
      ResumeTurnSteps(x, turn, limit);
      var resumed := storage.ResumeChatTurn(turn);
      if resumed.Err? {
        return Err(resumed.error);
      }
      TurnsOnlyKeepsInv(x, storage.tables, limit);
      TurnsOnlyKeepsJournal(x, storage.tables, storage.journal, limit);
      BudgetsKept(storage.journal, x, storage.tables, storage.lost, maxRequests);
      hide Inv, JournalOk, AttemptRequest, MayAsk;
      var finished := FinishedBefore(storage.tables, project, turn);
      SameFinished(x, storage.tables, turn, finished);
      var request := row.request.value;
      var user := FirstUserMessage(storage.tables.messages, project, turn);
      UserMessageFound(storage.tables, project, turn);
      LeftToAsk(x, turn, finished);
      return Ok(Resumption(request.(participants := Keep(request.participants, AsSet(request.participants) - finished)),
                           row.runtime.value, user, row.trace));
    }

    /** Leaving out the finished agents leaves whom a resume may ask. */
    lemma LeftToAsk(db: Tables, turn: TurnId, finished: set<AgentId>)
      requires turn in db.turns && db.turns[turn].request.Some?
      requires forall a :: a in finished <==> AgentIsFinished(db, turn, a)
      ensures var stored := db.turns[turn].request.value;
              var left := stored.(participants := Keep(stored.participants, AsSet(stored.participants) - finished));
              forall payload: Request :: payload.turn == turn ==>
                && left == AttemptRequest(db, payload, true)
                && AsSet(left.participants) == MayAsk(db, payload, true)
    {
      var stored := db.turns[turn].request.value;
      forall payload: Request | payload.turn == turn
        ensures MayAsk(db, payload, true) == AsSet(stored.participants) - finished
      {
      }
    }

    lemma SameFinished(x: Tables, y: Tables, turn: TurnId, finished: set<AgentId>)
      requires Inv(y, limit) && IsLive(y, turn) && y == x.(turns := y.turns)
      requires finished == FinishedBefore(y, y.turns[turn].project, turn)
      ensures forall a :: a in finished <==> AgentIsFinished(y, turn, a)
      ensures forall a :: AgentIsFinished(y, turn, a) == AgentIsFinished(x, turn, a)
    {
      forall a ensures a in finished <==> AgentIsFinished(y, turn, a) {
        FinishedBeforeIsFinished(y, turn, a, limit);
      }
      assert forall a, n :: IsCompleted(y, AgentKey(turn, a, n)) == IsCompleted(x, AgentKey(turn, a, n));
    }

    lemma UserMessageFound(db: Tables, project: ProjectId, turn: TurnId)
      requires Inv(db, limit) && turn in db.turns && db.turns[turn].project == project
      ensures match FirstUserMessage(db.messages, project, turn)
              case Some(user) => IsUserMessage(db, turn, user)
              case None => forall i :: !IsUserMessage(db, turn, i)
    {
    }

    /** Submit a turn, or resume one. */
    method Execute(payload: Request, runtime: Runtime, resume: bool, attempt: Attempt, signals: RoomSignals)
      returns (r: TurnReply)
      requires Valid() && !attempt.ending.Refused?
      modifies storage, attempt
      ensures Valid()
      ensures Attempted(old(storage.tables), old(storage.journal), storage.tables, storage.journal,
                        payload.turn, MayAsk(old(storage.tables), payload, resume),
                        AttemptSearchers(old(storage.tables), payload, runtime, signals, resume))
      ensures r.Denied? ==> storage.tables == old(storage.tables) && storage.journal == old(storage.journal)
      ensures LossStated(old(storage.lost), storage.lost, old(storage.journal), storage.journal, maxRequests,
                         payload.turn, r == Died(Killed))
      ensures r.Died? ==> !r.reason.Refused?
      ensures resume && r.Denied? ==> !Resumable(old(storage.tables), payload.project, payload.turn)
      ensures resume && r.Returned? ==> Resumable(old(storage.tables), payload.project, payload.turn)
      ensures !resume && payload.turn in old(storage.tables).turns ==>
                Resubmitted(old(storage.tables), payload, r) && storage.tables == old(storage.tables)
      ensures r.Returned? && (resume || payload.turn !in old(storage.tables).turns) ==>
                TurnAnswered(old(storage.tables), storage.tables, payload, runtime, signals, resume, r.result, limit)
      ensures !r.Returned? ==> payload.turn !in NewlyCompleted(old(storage.tables), storage.tables)
    {
      hide Inv, JournalOk, RoomAnswer, Attempted, Grows, JournalGrows, BudgetsOk, TurnAnswered, TurnsStep, RunOrder;
      ghost var x, jx := storage.tables, storage.journal;
      ghost var searchers := AttemptSearchers(x, payload, runtime, signals, resume);
      WithinItsBudget(jx, x, storage.lost, maxRequests, payload.turn);
      NothingAttempted(x, jx, payload.turn, MayAsk(x, payload, resume), searchers);
      var alive := attempt.Step();
      if alive.Stopped? {
        return Died(alive.reason);
      }
      if resume {
        var prepared := PrepareResume(payload.project, payload.turn);
        if prepared.Err? {
          return Denied(prepared.error);
        }
        var found := prepared.value;
        ghost var x1 := storage.tables;
        ResumeTurnSteps(x, payload.turn, limit);
        r := RunTurn(found.request, found.runtime, found.existing, found.trace, true, attempt, signals);
        if r.Returned? {
          AttemptAnswers(x, x1, jx, storage.tables, storage.journal, payload, runtime, found.request, signals, true,
                         r.result, searchers, limit);
        }
        AttemptedAfter(x, x1, jx, storage.tables, storage.journal, payload.turn, AsSet(found.request.participants),
                       searchers);
        return;
      }
      var began := Begin(payload, runtime);
      match began
      case Err(error) => return Denied(error);
      case Ok((row, created)) =>
        if !created {
          if row.status == CompletedTurn && row.result.Some? {
            return Returned(row.result.value);
          }
          return Denied(Conflict);
        }
        ghost var x1 := storage.tables;
        r := RunTurn(payload, runtime, None, [], false, attempt, signals);
        if r.Returned? {
          AttemptAnswers(x, x1, jx, storage.tables, storage.journal, payload, runtime, payload, signals, false,
                         r.result, searchers, limit);
        }
        AttemptedAfter(x, x1, jx, storage.tables, storage.journal, payload.turn, AsSet(payload.participants),
                       searchers);
    }

    /** A turn submitted again: the stored result of a completed turn goes to its own request, and to no
        other; everything else is refused. */
    ghost predicate Resubmitted(db: Tables, payload: Request, r: TurnReply)
      requires payload.turn in db.turns
    {
      var row := db.turns[payload.turn];
      match r
      case Returned(result) =>
        row.request == Some(payload) && row.status == CompletedTurn && row.result == Some(result)
      case Denied(_) =>
        row.request != Some(payload) || row.status != CompletedTurn || payload.project !in db.projects
      case Died(_) => true
    }

    method Begin(payload: Request, runtime: Runtime) returns (r: Result<(TurnRow, bool)>)
      requires Valid()
      modifies storage`tables
      ensures Valid()
      ensures match BeginTurn(old(storage.tables), payload.turn, payload, runtime)
              case Ok(begun) => storage.tables == begun.db && r == Ok((begun.row, begun.created))
              case Err(error) => storage.tables == old(storage.tables) && r == Err(error)
      ensures r.Ok? && r.value.0.status == CompletedTurn ==> r.value.0.result.Some?
      ensures payload.turn in old(storage.tables).turns ==>
                var row := old(storage.tables).turns[payload.turn];
                && storage.tables == old(storage.tables)
                && (if row.request == Some(payload) && payload.project in old(storage.tables).projects
                    then r == Ok((row, false)) else r.Err?)
      ensures r.Ok? && r.value.1 ==>
                && payload.turn !in old(storage.tables).turns
                && Active(payload, runtime) && Existing(payload, None)
                && storage.tables.turns[payload.turn].trace == []
                && storage.tables.turns[payload.turn].request == Some(payload)
                && TurnsOnly(old(storage.tables), storage.tables)
                && (forall a :: !AgentIsFinished(storage.tables, payload.turn, a))
    {
      hide Inv, JournalOk;
      ghost var x := storage.tables;
      r := storage.BeginChatTurn(payload, runtime);
      if payload.turn in x.turns {
        KnownTurnConflicts(x, payload, runtime, limit);
      }
      if r.Ok? {
        CompletedHasResult(x, payload.turn, limit);
        BeginTurnSteps(x, payload, runtime, limit);
        TurnsOnlyKeepsInv(x, storage.tables, limit);
        TurnsOnlyKeepsJournal(x, storage.tables, storage.journal, limit);
        BudgetsKept(storage.journal, x, storage.tables, storage.lost, maxRequests);
        if payload.turn !in x.turns {
          UnknownTurn(x, storage.tables, payload.turn, limit);
        }
      }
    }

    /** Accept what an unfinished turn has so far; it can never run again. */
    method Resolve(turn: TurnId) returns (r: Result<()>)
      requires Valid()
      modifies storage`tables
      ensures Valid() && DurableStep(old(storage.tables), storage.tables)
      ensures r.Ok? <==> Resumable(old(storage.tables), ProjectOf(old(storage.tables), turn), turn)
      ensures r.Ok? ==> Ended(storage.tables.turns[turn])
      ensures r.Err? ==> storage.tables == old(storage.tables)
      ensures NewlyCompleted(old(storage.tables), storage.tables) == {}
    {
      ghost var x := storage.tables;
      ResolveTurnSteps(x, turn, limit);
      r := storage.ResolveChatTurn(turn);
      if r.Ok? {
        TurnsOnlyKeepsInv(x, storage.tables, limit);
        TurnsOnlyKeepsJournal(x, storage.tables, storage.journal, limit);
        BudgetsKept(storage.journal, x, storage.tables, storage.lost, maxRequests);
      }
    }

    /** Startup: no turn is left running. */
    method Restart()
      requires Valid()
      modifies storage`tables
      ensures Valid() && DurableStep(old(storage.tables), storage.tables)
      ensures forall t :: t in storage.tables.turns ==> storage.tables.turns[t].status != Running
      ensures NewlyCompleted(old(storage.tables), storage.tables) == {}
    {
      hide Inv, JournalOk, BudgetsOk;
      ghost var x := storage.tables;
      SweepSteps(x, limit);
      storage.InterruptRunning();
      SweptIs(x, storage.tables);
      TurnsOnlyKeepsInv(x, storage.tables, limit);
      TurnsOnlyKeepsJournal(x, storage.tables, storage.journal, limit);
      BudgetsKept(storage.journal, x, storage.tables, storage.lost, maxRequests);
    }

    /** Retention drops operations and traces of stale turns, and of none that can still be resumed. */
    method Prune(stale: set<TurnId>)
      requires Valid()
      modifies storage`tables
      ensures Valid() && DurableStep(old(storage.tables), storage.tables)
      ensures forall k :: k in old(storage.tables).operations && !Ended(old(storage.tables).turns[k.turn]) ==>
                k in storage.tables.operations && storage.tables.operations[k] == old(storage.tables).operations[k]
      ensures NewlyCompleted(old(storage.tables), storage.tables) == {}
    {
      hide Inv, JournalOk;
      ghost var x := storage.tables;
      PruneKeepsInv(x, stale, limit);
      PruneKeepsJournal(x, stale, storage.journal, limit);
      storage.PruneChatTurnTraces(stale);
      assert storage.tables.turns == PruneTraces(x, stale).turns;
      assert storage.tables.operations == PruneTraces(x, stale).operations;
      BudgetsKept(storage.journal, x, storage.tables, storage.lost, maxRequests);
    }
  }

  lemma EmptyIsSound(projects: set<ProjectId>, limit: nat, max: nat)
    ensures var db := Tables(projects, map[], map[], [], map[], [], map[], [], map[]);
            Inv(db, limit) && JournalOk([], db, limit) && BudgetsOk([], db, map[], max)
  {
  }
}
