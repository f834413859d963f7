/** The history of a whole run: what was asked of providers and what became durable, in order. */
module Journal {
  import opened Records
  import opened Steps
  import opened Invariant

  datatype Event =
    | Asked(key: OpKey)                    // the provider is called for a beat
    | Checkpointed(key: OpKey)             // the beat's completion becomes durable
    | AgentDone(turn: TurnId, agent: AgentId, dropped: bool)   // finished; `dropped` without keeping its answer
    | Admitted(turn: TurnId)               // one model request passes the room budget

  function TurnOf(e: Event): TurnId {
    match e
    case Asked(key) => key.turn
    case Checkpointed(key) => key.turn
    case AgentDone(turn, _, _) => turn
    case Admitted(turn) => turn
  }

  /** `later` may follow `earlier`: nothing is asked or stored again once stored, and a finished
      agent is neither asked nor finished again. */
  predicate MayFollow(earlier: Event, later: Event) {
    match earlier
    case Checkpointed(key) => later != Asked(key) && later != Checkpointed(key)
    case AgentDone(turn, agent, _) =>
      && (later.Asked? ==> later.key.turn != turn || later.key.agent != agent)
      && (later.AgentDone? ==> later.turn != turn || later.agent != agent)
    case _ => true
  }

  ghost predicate Ordered(journal: seq<Event>) {
    forall i, j :: 0 <= i < j < |journal| ==> MayFollow(journal[i], journal[j])
  }

  /** The journal agrees with the tables about every turn that can still run. */
  ghost predicate Recorded(journal: seq<Event>, db: Tables) {
    forall i :: 0 <= i < |journal| ==>
      && TurnOf(journal[i]) in db.turns
      && (journal[i].Checkpointed? && IsLive(db, journal[i].key.turn) ==> IsCompleted(db, journal[i].key))
      && (journal[i].AgentDone? && IsLive(db, journal[i].turn) ==>
            AgentIsFinished(db, journal[i].turn, journal[i].agent))
  }

  /** How an agent may come to be finished at a beat: its uncited answer was dropped, or the beat is over
      and whatever its provider answered is in the room. */
  predicate Ending(db: Tables, t: TurnId, a: AgentId, n: nat, dropped: bool, limit: nat) {
    if dropped then Uncited(db, t, a, n)
    else IsCompleted(db, BeatKey(t, a, n)) && Over(db, t, a, n, limit)
  }

  /** The journal says of every finished agent which of the two it was. */
  ghost predicate FinishesRecorded(journal: seq<Event>, db: Tables, limit: nat) {
    forall t, a, n :: IsCompleted(db, AgentKey(t, a, n)) ==>
      || (AgentDone(t, a, false) in journal && Ending(db, t, a, n, false, limit))
      || (AgentDone(t, a, true) in journal && Ending(db, t, a, n, true, limit))
  }

  ghost predicate JournalOk(journal: seq<Event>, db: Tables, limit: nat) {
    Ordered(journal) && Recorded(journal, db) && FinishesRecorded(journal, db, limit)
  }

  predicate EndRecorded(journal: seq<Event>, t: TurnId, a: AgentId) {
    AgentDone(t, a, false) in journal || AgentDone(t, a, true) in journal
  }

  function CountAdmitted(journal: seq<Event>, turn: TurnId): nat {
    if journal == [] then 0
    else CountAdmitted(journal[..|journal| - 1], turn) + if journal[|journal| - 1] == Admitted(turn) then 1 else 0
  }

  function CountRequests(trace: seq<TraceEvent>): nat {
    if trace == [] then 0
    else CountRequests(trace[..|trace| - 1]) + if trace[|trace| - 1].ModelRequest? then 1 else 0
  }

  lemma CountExtended(journal: seq<Event>, e: Event, turn: TurnId)
    ensures CountAdmitted(journal + [e], turn)
            == CountAdmitted(journal, turn) + if e == Admitted(turn) then 1 else 0
  {
  }

  lemma RequestsExtended(trace: seq<TraceEvent>, e: TraceEvent)
    ensures CountRequests(trace + [e]) == CountRequests(trace) + if e.ModelRequest? then 1 else 0
  {
  }

  /** Events added by an attempt at turn `t` concern these agents only, and only its searchers are
      finished by dropping an answer. */
  predicate Concerns(e: Event, t: TurnId, agents: set<AgentId>, searchers: set<AgentId>) {
    && TurnOf(e) == t
    && (e.Asked? ==> e.key.agent in agents && e.key.kind == ProviderCompletion)
    && (e.Checkpointed? ==> e.key.agent in agents)
    && (e.AgentDone? ==> e.agent in agents && (e.dropped ==> e.agent in searchers))
  }

  ghost predicate JournalGrows(x: seq<Event>, y: seq<Event>, t: TurnId, agents: set<AgentId>,
                               searchers: set<AgentId>)
  {
    && x <= y
    && (forall i :: |x| <= i < |y| ==> Concerns(y[i], t, agents, searchers))
  }

  lemma JournalGrowsBy(journal: seq<Event>, e: Event, t: TurnId, agents: set<AgentId>, searchers: set<AgentId>)
    requires Concerns(e, t, agents, searchers)
    ensures JournalGrows(journal, journal + [e], t, agents, searchers)
  {
  }

  lemma RecordedGrows(journal: seq<Event>, x: Tables, y: Tables, t: TurnId, agents: set<AgentId>)
    requires Recorded(journal, x) && Grows(x, y, t, agents)
    ensures Recorded(journal, y)
  {
  }

  /** While the agents at work are not finished, finished agents stay as the journal has them. */
  lemma FinishesGrow(journal: seq<Event>, x: Tables, y: Tables, t: TurnId, agents: set<AgentId>, limit: nat)
    requires FinishesRecorded(journal, x, limit) && Grows(x, y, t, agents)
    requires forall a :: a in agents ==> !AgentIsFinished(y, t, a)
    ensures FinishesRecorded(journal, y, limit)
  {
    forall u, a, n: nat | IsCompleted(y, AgentKey(u, a, n))
      ensures (AgentDone(u, a, false) in journal && Ending(y, u, a, n, false, limit))
              || (AgentDone(u, a, true) in journal && Ending(y, u, a, n, true, limit))
    {
      EndingStays(x, y, t, agents, u, a, n, limit);
    }
  }

  /** Finished agents stay as the journal has them while no operation changes. */
  lemma FinishesStay(journal: seq<Event>, x: Tables, y: Tables, limit: nat)
    requires FinishesRecorded(journal, x, limit) && y.operations == x.operations
    ensures FinishesRecorded(journal, y, limit)
  {
    assert forall k :: IsCompleted(y, k) == IsCompleted(x, k);
    assert forall t, a, n, dropped :: Ending(y, t, a, n, dropped, limit) == Ending(x, t, a, n, dropped, limit);
  }

  lemma EndingStays(x: Tables, y: Tables, t: TurnId, agents: set<AgentId>, u: TurnId, a: AgentId, n: nat, limit: nat)
    requires Grows(x, y, t, agents) && (u != t || a !in agents)
    ensures IsCompleted(y, AgentKey(u, a, n)) ==> IsCompleted(x, AgentKey(u, a, n))
    ensures forall dropped :: Ending(y, u, a, n, dropped, limit) == Ending(x, u, a, n, dropped, limit)
  {
    assert forall kind :: IsCompleted(y, OpKey(u, a, n, kind)) == IsCompleted(x, OpKey(u, a, n, kind));
    assert forall kind :: IsCompleted(x, OpKey(u, a, n, kind)) ==>
             y.operations[OpKey(u, a, n, kind)] == x.operations[OpKey(u, a, n, kind)];
  }

  /** What lets an event be recorded now; finishing an agent is recorded by `RecordFinish`. */
  ghost predicate MayRecord(db: Tables, e: Event) {
    && IsLive(db, TurnOf(e)) && !e.AgentDone?
    && (e.Asked? ==> !IsCompleted(db, e.key) && !AgentIsFinished(db, e.key.turn, e.key.agent))
    && (e.Checkpointed? ==> IsCompleted(db, e.key))
  }

  ghost predicate NotRecorded(journal: seq<Event>, e: Event) {
    forall i :: 0 <= i < |journal| ==> journal[i] != e
  }

  lemma RecordEvent(journal: seq<Event>, db: Tables, e: Event, limit: nat)
    requires JournalOk(journal, db, limit) && MayRecord(db, e)
    requires e.Checkpointed? ==> NotRecorded(journal, e)
    ensures JournalOk(journal + [e], db, limit)
  {
  }

  lemma FirstCheckpoint(journal: seq<Event>, db: Tables, key: OpKey)
    requires Recorded(journal, db) && IsLive(db, key.turn) && !IsCompleted(db, key)
    ensures NotRecorded(journal, Checkpointed(key))
  {
  }

  /** From `x` to `y` the agent's finish at beat `n`, and nothing else, is completed. */
  ghost predicate FinishCompletes(x: Tables, y: Tables, t: TurnId, a: AgentId, n: nat) {
    && y == x.(operations := y.operations)
    && IsCompleted(y, AgentKey(t, a, n))
    && (forall k :: k != AgentKey(t, a, n) ==> IsCompleted(y, k) == IsCompleted(x, k))
    && (forall k :: IsCompleted(x, k) ==> y.operations[k] == x.operations[k])
  }

  /** Finishing an agent is recorded together with how it came about, for the first time. */
  lemma RecordFinish(journal: seq<Event>, x: Tables, y: Tables, t: TurnId, a: AgentId, n: nat, dropped: bool,
                     limit: nat)
    requires JournalOk(journal, x, limit) && Grows(x, y, t, {a}) && FinishCompletes(x, y, t, a, n)
    requires IsLive(x, t) && !AgentIsFinished(x, t, a) && Ending(x, t, a, n, dropped, limit)
    ensures JournalOk(journal + [AgentDone(t, a, dropped)], y, limit)
  {
    var e := AgentDone(t, a, dropped);
    RecordedGrows(journal, x, y, t, {a});
    assert Recorded(journal + [e], y);
    assert Ordered(journal + [e]);
    forall u, b, m: nat | IsCompleted(y, AgentKey(u, b, m))
      ensures (AgentDone(u, b, false) in journal + [e] && Ending(y, u, b, m, false, limit))
              || (AgentDone(u, b, true) in journal + [e] && Ending(y, u, b, m, true, limit))
    {
      if u == t && b == a {
        assert m == n;
        assert e in journal + [e];
      } else {
        EndingStays(x, y, t, {a}, u, b, m, limit);
      }
    }
  }
}
