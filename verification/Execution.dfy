/** The ledger and the executor of one agent's beats, run under every way an attempt can end. */
module Execution {
  import opened Records
  import opened Steps
  import opened Text
  import opened Invariant
  import opened StepLemmas
  import opened RowLemmas
  import opened Journal
  import opened Storage

  /** From one durable state and history to a later one, through agents of turn `t` only. */
  ghost predicate Advanced(x: Tables, jx: seq<Event>, y: Tables, jy: seq<Event>, t: TurnId,
                           agents: set<AgentId>, searchers: set<AgentId>)
  {
    Grows(x, y, t, agents) && JournalGrows(jx, jy, t, agents, searchers)
  }

  lemma AdvancedTransitive(x: Tables, jx: seq<Event>, y: Tables, jy: seq<Event>, z: Tables, jz: seq<Event>,
                           t: TurnId, agents: set<AgentId>, searchers: set<AgentId>)
    requires Advanced(x, jx, y, jy, t, agents, searchers) && Advanced(y, jy, z, jz, t, agents, searchers)
    ensures Advanced(x, jx, z, jz, t, agents, searchers)
  {
  }

  /** The agent, if it is the one searching. */
  function SearchersOf(agent: AgentId, searching: bool): set<AgentId> {
    if searching then {agent} else {}
  }

  /** What a room run reports: the running request count, and the trace. */
  class RoomReport {
    var requests: nat
    var trace: seq<TraceEvent>
    const budget: nat

    ghost predicate Valid()
      reads this
    {
      requests == CountRequests(trace)
    }

    constructor (previous: seq<TraceEvent>, resume: bool, budget: nat)
      ensures Valid() && this.budget == budget
      ensures trace == if resume then previous + [TurnResume] else previous
      ensures requests == CountRequests(previous)
    {
      var events := if resume then previous + [TurnResume] else previous;
      trace := events;
      this.budget := budget;
      requests := CountRequests(events);
      RequestsExtended(previous, TurnResume);
    }

    /** Admit one model request, unless the room's budget is spent. */
    method ModelRequested() returns (r: Outcome<()>)
      requires Valid()
      modifies this
      ensures Valid()
      ensures old(requests) >= budget ==>
                r == Stopped(OverBudget) && requests == old(requests) && trace == old(trace)
      ensures old(requests) < budget ==>
                r == Done(()) && requests == old(requests) + 1 && trace == old(trace) + [ModelRequest]
    {
      if requests >= budget {
        return Stopped(OverBudget);
      }
      RequestsExtended(trace, ModelRequest);
      requests := requests + 1;
      trace := trace + [ModelRequest];
      return Done(());
    }
  }

  /** Durable, idempotent checkpoints for one room turn. */
  class ExecutionLedger {
    const storage: Storage
    const attempt: Attempt
    const request: Request
    const runtime: Runtime
    const limit: nat

    // The report of this attempt, and the requests no trace of the turn holds.
    ghost const report: RoomReport
    ghost const unrecorded: nat

    // Where the current speaker started, and who it is.
    ghost var base: Tables
    ghost var baseJournal: seq<Event>
    ghost var speaker: AgentId
    ghost var searching: bool

    constructor (storage: Storage, attempt: Attempt, request: Request, runtime: Runtime, limit: nat,
                 ghost report: RoomReport, ghost unrecorded: nat)
      ensures this.storage == storage && this.attempt == attempt
      ensures this.request == request && this.runtime == runtime && this.limit == limit
      ensures this.report == report && this.unrecorded == unrecorded
    {
      this.storage, this.attempt, this.request, this.runtime := storage, attempt, request, runtime;
      this.limit := limit;
      this.report, this.unrecorded := report, unrecorded;
    }

    /** Every request the turn was ever granted is in the report, but for the unrecorded ones. */
    ghost predicate Accounted()
      reads this, storage, report
    {
      && report.Valid()
      && report.requests <= report.budget
      && CountAdmitted(storage.journal, request.turn) == report.requests + unrecorded
    }

    /** The tables and the history are sound, and the turn being run is this request's. */
    ghost predicate Sound()
      reads this, storage, attempt, report
    {
      Accounted() && Steady()
    }

    ghost predicate Steady()
      reads this, storage, attempt
    {
      && !attempt.ending.Refused?
      && Inv(storage.tables, limit)
      && JournalOk(storage.journal, storage.tables, limit)
      && IsLive(storage.tables, request.turn)
      && storage.tables.turns[request.turn].project == request.project
      && storage.tables.turns[request.turn].runtime == Some(runtime)
    }

    /** Since the speaker started, the speaker's work is all that was added. */
    ghost predicate Valid()
      reads this, storage, attempt, report
    {
      && Sound()
      && Advanced(base, baseJournal, storage.tables, storage.journal, request.turn, {speaker},
                 SearchersOf(speaker, searching))
    }

    /** The speaker may still work: no attempt has finished it. */
    ghost predicate Open()
      reads this, storage, attempt, report
    {
      Valid() && !AgentIsFinished(storage.tables, request.turn, speaker)
    }

    /** A speaker starts. */
    ghost method Focus(agent: AgentId, searching: bool)
      requires Sound() && !AgentIsFinished(storage.tables, request.turn, agent)
      modifies this
      ensures Open() && speaker == agent && this.searching == searching
      ensures base == storage.tables && baseJournal == storage.journal
    {
      base, baseJournal, speaker, this.searching := storage.tables, storage.journal, agent, searching;
      NothingGrows(base, request.turn, {agent});
    }

    function Key(agent: AgentId, beat: nat, kind: Kind): OpKey {
      OpKey(request.turn, agent, beat, kind)
    }

    lemma StillOpen(x: Tables, jx: seq<Event>)
      requires Inv(storage.tables, limit) && Inv(x, limit)
      requires JournalOk(jx, x, limit) && storage.journal == jx && Accounted()
      requires !attempt.ending.Refused?
      requires IsLive(x, request.turn) && x.turns[request.turn].project == request.project
      requires x.turns[request.turn].runtime == Some(runtime)
      requires Advanced(base, baseJournal, x, jx, request.turn, {speaker}, SearchersOf(speaker, searching))
      requires Grows(x, storage.tables, request.turn, {speaker})
      requires !AgentIsFinished(storage.tables, request.turn, speaker)
      ensures Open()
    {
      RecordedGrows(jx, x, storage.tables, request.turn, {speaker});
      FinishesGrow(jx, x, storage.tables, request.turn, {speaker}, limit);
      AdvancedTransitive(base, baseJournal, x, jx, storage.tables, storage.journal, request.turn, {speaker},
                         SearchersOf(speaker, searching));
    }

    /** Inserting rows leaves every operation, and so the speaker, as it was. */
    lemma StillWorking(x: Tables, jx: seq<Event>)
      requires Inv(storage.tables, limit) && Inv(x, limit)
      requires JournalOk(jx, x, limit) && storage.journal == jx && Accounted()
      requires !attempt.ending.Refused?
      requires IsLive(x, request.turn) && x.turns[request.turn].project == request.project
      requires x.turns[request.turn].runtime == Some(runtime)
      requires Advanced(base, baseJournal, x, jx, request.turn, {speaker}, SearchersOf(speaker, searching))
      requires Grows(x, storage.tables, request.turn, {speaker})
      requires storage.tables.operations == x.operations && !AgentIsFinished(x, request.turn, speaker)
      ensures Open()
    {
      assert forall n :: IsCompleted(storage.tables, AgentKey(request.turn, speaker, n))
                         == IsCompleted(x, AgentKey(request.turn, speaker, n));
      StillOpen(x, jx);
    }

    method Begin(agent: AgentId, beat: nat, kind: Kind) returns (r: Outcome<OpRow>)
      requires Open() && agent == speaker && MayBegin(storage.tables, Key(agent, beat, kind), limit)
      modifies storage`tables, attempt`callsLeft
      ensures Open()
      ensures Grows(old(storage.tables), storage.tables, request.turn, {agent})
      ensures storage.tables == old(storage.tables).(operations := storage.tables.operations)
      ensures r.Done? ==>
                Key(agent, beat, kind) in storage.tables.operations
                && r.value == storage.tables.operations[Key(agent, beat, kind)]
      ensures forall k :: IsCompleted(storage.tables, k) == IsCompleted(old(storage.tables), k)
      ensures r.Stopped? ==> r.reason == attempt.ending && storage.tables == old(storage.tables)
    {
      hide BeatsOk, MessagesOk, MemoriesOk, GlobalsOk, SequencesOk, FinishesOk, FingerprintsOk, JournalGrows;
      var key := Key(agent, beat, kind);
      ghost var before := storage.tables;
      NothingGrows(before, request.turn, {agent});
      var _ :- attempt.Step();
      BeginKeepsInv(before, key, limit);
      var begun := storage.BeginTurnOperation(key, request.project, StageWorkOf(key, request.project, runtime));
      StillOpen(before, storage.journal);
      match begun
      case Ok(pair) => return Done(pair.0);
      case Err(error) => assert false; return Stopped(Refused(error));
    }

    method Complete(agent: AgentId, beat: nat, kind: Kind, result: OpResult) returns (r: Outcome<()>)
      requires Open() && agent == speaker && MayComplete(storage.tables, Key(agent, beat, kind), result, limit)
      requires kind != AgentFinished
      modifies storage`tables, attempt`callsLeft
      ensures Open()
      ensures Grows(old(storage.tables), storage.tables, request.turn, {agent})
      ensures storage.tables == old(storage.tables).(operations := storage.tables.operations)
      ensures forall k :: k != Key(agent, beat, kind) ==>
                IsCompleted(storage.tables, k) == IsCompleted(old(storage.tables), k)
      ensures r.Done? ==>
                IsCompleted(storage.tables, Key(agent, beat, kind))
                && storage.tables.operations[Key(agent, beat, kind)].state.result == result
      ensures r.Stopped? ==> r.reason == attempt.ending && storage.tables == old(storage.tables)
    {
      hide BeatsOk, MessagesOk, MemoriesOk, GlobalsOk, SequencesOk, FinishesOk, FingerprintsOk, JournalGrows;
      var key := Key(agent, beat, kind);
      ghost var before := storage.tables;
      NothingGrows(before, request.turn, {agent});
      var _ :- attempt.Step();
      CompleteKeepsInv(before, key, result, limit);
      var completed := storage.CompleteTurnOperation(key, result);
      StillOpen(before, storage.journal);
      match completed
      case Ok(_) =>
        return Done(());
      case Err(error) => assert false; return Stopped(Refused(error));
    }

    /** Add an event to the history. */
    ghost method Append(e: Event)
      requires Steady() && MayRecord(storage.tables, e) && Concerns(e, request.turn, {speaker}, {})
      requires Advanced(base, baseJournal, storage.tables, storage.journal, request.turn, {speaker},
                 SearchersOf(speaker, searching))
      requires e.Checkpointed? ==> NotRecorded(storage.journal, e)
      modifies storage`journal
      ensures Steady() && storage.journal == old(storage.journal) + [e]
      ensures Advanced(base, baseJournal, storage.tables, storage.journal, request.turn, {speaker},
                 SearchersOf(speaker, searching))
    {
      RecordEvent(storage.journal, storage.tables, e, limit);
      storage.journal := storage.journal + [e];
    }

    ghost method Record(e: Event)
      requires Valid() && MayRecord(storage.tables, e) && Concerns(e, request.turn, {speaker}, {})
      requires e.Checkpointed? ==> NotRecorded(storage.journal, e)
      requires !e.Admitted?
      modifies storage`journal
      ensures Valid() && storage.journal == old(storage.journal) + [e]
      ensures old(Open()) ==> Open()
    {
      CountExtended(storage.journal, e, request.turn);
      Append(e);
    }

    /** The stored completion of a beat, every field but the raw message, if it has one. */
    method RecoverCompletion(agent: AgentId, beat: nat) returns (r: Outcome<Option<AgentCompletion>>)
      requires Open() && agent == speaker && Requested(storage.tables, request.turn, agent, beat, limit)
      modifies storage`tables, attempt`callsLeft
      ensures Open()
      ensures Grows(old(storage.tables), storage.tables, request.turn, {agent})
      ensures storage.tables == old(storage.tables).(operations := storage.tables.operations)
      ensures r.Done? ==>
                var key := CompletionKey(request.turn, agent, beat);
                && key in storage.tables.operations
                && (r.value.None? <==> !IsCompleted(storage.tables, key))
                && (r.value.Some? ==>
                      && HasCompletion(storage.tables, key)
                      && r.value.value == Recovered(CompletionOf(storage.tables, key)))
      ensures r.Stopped? ==> r.reason == attempt.ending
    {
      var row :- Begin(agent, beat, ProviderCompletion);
      assert BeatOk(storage.tables, request.turn, agent, beat, limit);
      match row.state
      case Started => return Done(None);
      case Completed(result) => return Done(Some(Recovered(result.completion)));
    }

    method CheckpointCompletion(agent: AgentId, beat: nat, completion: AgentCompletion) returns (r: Outcome<()>)
      requires Open() && agent == speaker
      requires var key := CompletionKey(request.turn, agent, beat);
               key in storage.tables.operations && !IsCompleted(storage.tables, key)
      modifies storage`tables, storage`journal, attempt`callsLeft
      ensures Open()
      ensures Grows(old(storage.tables), storage.tables, request.turn, {agent})
      ensures storage.tables == old(storage.tables).(operations := storage.tables.operations)
      ensures r.Done? ==>
                var key := CompletionKey(request.turn, agent, beat);
                && HasCompletion(storage.tables, key)
                && CompletionOf(storage.tables, key) == WithoutRaw(completion)
                && storage.journal == old(storage.journal) + [Checkpointed(key)]
      ensures r.Stopped? ==> r.reason == attempt.ending && storage.journal == old(storage.journal)
    {
      hide Inv;
      ghost var key := CompletionKey(request.turn, agent, beat);
      FirstCheckpoint(storage.journal, storage.tables, key);
      var _ :- Complete(agent, beat, ProviderCompletion, CompletionResult(WithoutRaw(completion)));
      Record(Checkpointed(key));
      return Done(());
    }

    method MarkBeatFinished(agent: AgentId, beat: nat) returns (r: Outcome<()>)
      requires Open() && agent == speaker && IsCompleted(storage.tables, MemoryKey(request.turn, agent, beat))
      modifies storage`tables, attempt`callsLeft
      ensures Open()
      ensures Grows(old(storage.tables), storage.tables, request.turn, {agent})
      ensures storage.tables == old(storage.tables).(operations := storage.tables.operations)
      ensures forall k :: k != BeatKey(request.turn, agent, beat) ==>
                IsCompleted(storage.tables, k) == IsCompleted(old(storage.tables), k)
      ensures r.Done? ==> IsCompleted(storage.tables, BeatKey(request.turn, agent, beat))
      ensures r.Stopped? ==> r.reason == attempt.ending
    {
      ghost var before := storage.tables;
      var _ :- Begin(agent, beat, BeatFinished);
      ghost var between := storage.tables;
      var done := Complete(agent, beat, BeatFinished, FinishedResult);
      GrowsTransitive(before, between, storage.tables, request.turn, {agent});
      return done;
    }

    lemma MayCompleteFinish(x: Tables, agent: AgentId, finalBeat: nat, dropped: bool)
      requires Ending(x, request.turn, agent, finalBeat, dropped, limit)
      requires AgentKey(request.turn, agent, finalBeat) in storage.tables.operations
      requires forall k :: IsCompleted(x, k) ==>
                 k in storage.tables.operations && storage.tables.operations[k] == x.operations[k]
      requires forall k :: IsCompleted(storage.tables, k) == IsCompleted(x, k)
      ensures MayComplete(storage.tables, Key(agent, finalBeat, AgentFinished), AgentResult(finalBeat), limit)
      ensures Ending(storage.tables, request.turn, agent, finalBeat, dropped, limit)
    {
    }

    lemma FinishIsRecorded(x: Tables, jx: seq<Event>, finalBeat: nat, dropped: bool)
      requires JournalOk(jx, x, limit) && FinishCompletes(x, storage.tables, request.turn, speaker, finalBeat)
      requires IsLive(x, request.turn) && !AgentIsFinished(x, request.turn, speaker)
      requires Ending(x, request.turn, speaker, finalBeat, dropped, limit) && (dropped ==> searching)
      requires Advanced(base, baseJournal, x, jx, request.turn, {speaker}, SearchersOf(speaker, searching))
      requires Grows(x, storage.tables, request.turn, {speaker})
      ensures var jy := jx + [AgentDone(request.turn, speaker, dropped)];
              && JournalOk(jy, storage.tables, limit)
              && Advanced(base, baseJournal, storage.tables, jy, request.turn, {speaker},
                          SearchersOf(speaker, searching))
              && CountAdmitted(jy, request.turn) == CountAdmitted(jx, request.turn)
    {
      hide JournalOk, FinishCompletes, IsLive, AgentIsFinished, Ending, Grows, JournalGrows, CountAdmitted;
      var e := AgentDone(request.turn, speaker, dropped);
      RecordFinish(jx, x, storage.tables, request.turn, speaker, finalBeat, dropped, limit);
      CountExtended(jx, e, request.turn);
      JournalGrowsBy(jx, e, request.turn, {speaker}, SearchersOf(speaker, searching));
      AdvancedTransitive(base, baseJournal, x, jx, storage.tables, jx + [e], request.turn, {speaker},
                         SearchersOf(speaker, searching));
    }

    /** The agent's finish becomes durable, and the history says how it came about. */
    method CompleteAgent(agent: AgentId, finalBeat: nat, ghost dropped: bool) returns (r: Outcome<()>)
      requires Open() && agent == speaker && (dropped ==> searching)
      requires MayComplete(storage.tables, Key(agent, finalBeat, AgentFinished), AgentResult(finalBeat), limit)
      requires Ending(storage.tables, request.turn, agent, finalBeat, dropped, limit)
      modifies storage`tables, storage`journal, attempt`callsLeft
      ensures Valid() && (r.Stopped? ==> Open())
      ensures Grows(old(storage.tables), storage.tables, request.turn, {agent})
      ensures storage.tables == old(storage.tables).(operations := storage.tables.operations)
      ensures forall k :: k != AgentKey(request.turn, agent, finalBeat) ==>
                IsCompleted(storage.tables, k) == IsCompleted(old(storage.tables), k)
      ensures r.Done? ==>
                && IsCompleted(storage.tables, AgentKey(request.turn, agent, finalBeat))
                && storage.journal == old(storage.journal) + [AgentDone(request.turn, agent, dropped)]
      ensures r.Stopped? ==> r.reason == attempt.ending && storage.journal == old(storage.journal)
    {
      hide Inv, JournalOk, Advanced, Ending;
      var key := Key(agent, finalBeat, AgentFinished);
      ghost var x, jx := storage.tables, storage.journal;
      NothingGrows(x, request.turn, {agent});
      var _ :- attempt.Step();
      CompleteKeepsInv(x, key, AgentResult(finalBeat), limit);
      var completed := storage.CompleteTurnOperation(key, AgentResult(finalBeat));
      FinishIsRecorded(x, jx, finalBeat, dropped);
      storage.journal := jx + [AgentDone(request.turn, agent, dropped)];
      match completed
      case Ok(_) => return Done(());
      case Err(error) => assert false; return Stopped(Refused(error));
    }

    method MarkAgentFinished(agent: AgentId, finalBeat: nat, ghost dropped: bool) returns (r: Outcome<()>)
      requires Open() && agent == speaker && (dropped ==> searching)
      requires Ending(storage.tables, request.turn, agent, finalBeat, dropped, limit)
      modifies storage`tables, storage`journal, attempt`callsLeft
      ensures Valid() && (r.Stopped? ==> Open())
      ensures Grows(old(storage.tables), storage.tables, request.turn, {agent})
      ensures storage.tables == old(storage.tables).(operations := storage.tables.operations)
      ensures forall k :: k != AgentKey(request.turn, agent, finalBeat) ==>
                IsCompleted(storage.tables, k) == IsCompleted(old(storage.tables), k)
      ensures r.Done? ==>
                && IsCompleted(storage.tables, AgentKey(request.turn, agent, finalBeat))
                && storage.journal == old(storage.journal) + [AgentDone(request.turn, agent, dropped)]
      ensures r.Stopped? ==> r.reason == attempt.ending && storage.journal == old(storage.journal)
    {
      ghost var before := storage.tables;
      var _ :- Begin(agent, finalBeat, AgentFinished);
      ghost var between := storage.tables;
      MayCompleteFinish(before, agent, finalBeat, dropped);
      var done := CompleteAgent(agent, finalBeat, dropped);
      GrowsTransitive(before, between, storage.tables, request.turn, {agent});
      return done;
    }
  }

  /** The lists an attempt's agents append to, and the room's answer is built from. */
  class RoomLog {
    var visible: seq<nat>
    var failures: seq<AgentFailure>

    constructor ()
      ensures visible == [] && failures == []
    {
      visible, failures := [], [];
    }
  }

  datatype Reply = Said(completion: AgentCompletion) | Broke(kind: ProviderErrorKind, detail: string)

  /** A beat's reply: what its checkpoint stores, or a failure that left the checkpoint open. */
  predicate Answers(db: Tables, key: OpKey, reply: Reply) {
    && key in db.operations
    && match reply
       case Said(c) => HasCompletion(db, key) && CompletionOf(db, key) == WithoutRaw(c)
       case Broke(_, _) => !IsCompleted(db, key)
  }

  datatype SpeakerStatus = SpeakerCompleted | SearchCited | SearchFailed | SearchUncited

  /** How an agent's part in the turn ended: at which beat, and how many beats left a message. */
  datatype Speech = Speech(status: SpeakerStatus, finalBeat: nat, spoken: nat)

  ghost predicate SpeechOk(db: Tables, t: TurnId, a: AgentId, speech: Speech, limit: nat) {
    && IsCompleted(db, AgentKey(t, a, speech.finalBeat))
    && AllSpoken(db, t, a, speech.spoken)
    && (forall b :: 1 <= b <= speech.spoken ==> AllStages(db, t, a, b))
    && match speech.status
       case SearchUncited => speech.finalBeat == 1 && speech.spoken == 0 && Uncited(db, t, a, 1)
       case SearchFailed => speech.finalBeat == 1 && speech.spoken == 0 && Unanswered(db, t, a, 1)
       case SearchCited => CitedFirst(db, t, a) && SpeechOver(db, t, a, speech, limit)
       case SpeakerCompleted => SpeechOver(db, t, a, speech, limit)
  }

  /** The last beat was committed and no further one may follow, or its provider did not answer. */
  predicate SpeechOver(db: Tables, t: TurnId, a: AgentId, speech: Speech, limit: nat) {
    || (speech.spoken == speech.finalBeat && Last(db, t, a, speech.finalBeat, limit))
    || (speech.spoken == speech.finalBeat - 1 && Unanswered(db, t, a, speech.finalBeat))
  }

  /** The first beat was answered with a source. */
  predicate CitedFirst(db: Tables, t: TurnId, a: AgentId) {
    var key := CompletionKey(t, a, 1);
    HasCompletion(db, key) && Cited(CompletionOf(db, key).sources)
  }

  /** A beat's memory event, if it is recorded between `x` and `y`, says this. */
  predicate Remembered(x: Tables, y: Tables, key: OpKey, outcome: MemoryOutcome, text: string) {
    key !in x.memoryOf && key in y.memoryOf ==>
      && y.memoryOf[key] < |y.memories|
      && y.memories[y.memoryOf[key]].outcome == outcome
      && y.memories[y.memoryOf[key]].returnText == Truncated(text, MEMORY_RETURN_MAX)
  }

  /** The beat's memory event has its card for other projects. */
  predicate Carded(db: Tables, key: OpKey) {
    key in db.memoryOf && db.memoryOf[key] in db.globalOf
  }

  /** The agent's part ended at a beat its provider did not answer. */
  predicate BrokeOff(speech: Speech) {
    speech.status != SearchUncited && speech.spoken != speech.finalBeat
  }

  /** One more failure is reported if the part broke off, and none otherwise. */
  predicate Noted(x: seq<AgentFailure>, y: seq<AgentFailure>, agent: AgentId, beat: nat, broke: bool) {
    if broke then
      && |y| == |x| + 1 && y[..|x|] == x
      && y[|x|].agent == agent && y[|x|].beat == beat && !Succeeded(y[|x|].outcome)
    else y == x
  }

  /** The search agent's answer is dropped exactly when it cites nothing, and then it leaves no trace in the
      room or in memory. */
  ghost predicate Searched(x: Tables, y: Tables, t: TurnId, a: AgentId, speech: Speech) {
    && (speech.status == SearchUncited <==> Uncited(y, t, a, 1))
    && (speech.status == SearchFailed <==> BrokeOff(speech) && speech.finalBeat == 1)
    && (speech.status == SearchUncited ==> y.messages == x.messages && y.memories == x.memories)
  }

  predicate NoSources(sources: seq<string>) {
    forall i :: 0 <= i < |sources| ==> sources[i] == ""
  }

  lemma UncitedMeans(db: Tables, t: TurnId, a: AgentId)
    ensures var key := CompletionKey(t, a, 1);
            Uncited(db, t, a, 1) <==> HasCompletion(db, key) && NoSources(CompletionOf(db, key).sources)
  {
  }

  /** The beat ended with a provider failure. */
  predicate Unanswered(db: Tables, t: TurnId, a: AgentId, beat: nat) {
    IsCompleted(db, BeatKey(t, a, beat)) && !IsCompleted(db, CompletionKey(t, a, beat))
  }

  /** What a beat leaves behind once its reply is committed, or its failure recorded. */
  predicate Followed(db: Tables, t: TurnId, a: AgentId, beat: nat, reply: Reply) {
    && Answers(db, CompletionKey(t, a, beat), reply)
    && match reply
       case Said(_) => AllStages(db, t, a, beat) && MessageKey(t, a, beat) in db.messageOf
       case Broke(_, _) => Unanswered(db, t, a, beat)
  }

  /** Beats 1 to `beat` are committed, the last one being `completion`, and their messages are what
      the room heard since `heard`. */
  ghost predicate Heard(db: Tables, t: TurnId, a: AgentId, beat: nat, completion: AgentCompletion,
                        heard: seq<nat>, visible: seq<nat>)
  {
    && Followed(db, t, a, beat, Said(completion))
    && AllSpoken(db, t, a, beat)
    && visible == heard + Spoken(db, t, a, beat)
  }

  /** The agent's beats are over: the last was committed and asks for no more, or it failed. */
  ghost predicate BeatsDone(db: Tables, t: TurnId, a: AgentId, beat: nat, spoken: nat,
                            heard: seq<nat>, visible: seq<nat>, limit: nat)
  {
    && 1 <= beat <= limit
    && AllSpoken(db, t, a, spoken)
    && visible == heard + Spoken(db, t, a, spoken)
    && (|| (spoken == beat && AllStages(db, t, a, beat) && Last(db, t, a, beat, limit))
        || (spoken == beat - 1 && Unanswered(db, t, a, beat)))
  }

  lemma NextRequested(db: Tables, t: TurnId, a: AgentId, beat: nat, completion: AgentCompletion, limit: nat)
    requires Followed(db, t, a, beat, Said(completion))
    requires completion.continueTurn && 1 <= beat < limit
    ensures Requested(db, t, a, beat + 1, limit)
  {
  }

  lemma HeardNext(x: Tables, y: Tables, t: TurnId, a: AgentId, beat: nat, completion: AgentCompletion,
                  reply: Reply, heard: seq<nat>, said: seq<nat>, visible: seq<nat>, limit: nat)
    requires Heard(x, t, a, beat, completion, heard, said) && Grows(x, y, t, {a})
    requires Followed(y, t, a, beat + 1, reply) && 1 <= beat < limit
    requires visible == if reply.Said? then said + [y.messageOf[MessageKey(t, a, beat + 1)]] else said
    ensures reply.Said? ==> Heard(y, t, a, beat + 1, reply.completion, heard, visible)
    ensures reply.Broke? ==> BeatsDone(y, t, a, beat + 1, beat, heard, visible, limit)
  {
    SpokenStable(x, y, t, a, beat, t, {a});
  }

  lemma HeardLast(db: Tables, t: TurnId, a: AgentId, beat: nat, completion: AgentCompletion,
                  heard: seq<nat>, visible: seq<nat>, limit: nat)
    requires Heard(db, t, a, beat, completion, heard, visible) && 1 <= beat <= limit
    requires !completion.continueTurn || beat >= limit
    ensures BeatsDone(db, t, a, beat, beat, heard, visible, limit)
  {
  }

  lemma FinishedSpeech(db: Tables, t: TurnId, a: AgentId, speech: Speech, heard: seq<nat>,
                       visible: seq<nat>, limit: nat)
    requires Inv(db, limit) && IsCompleted(db, AgentKey(t, a, speech.finalBeat))
    requires BeatsDone(db, t, a, speech.finalBeat, speech.spoken, heard, visible, limit)
    requires speech.status != SearchUncited
    requires speech.status == SearchFailed ==> speech.finalBeat == 1 && speech.spoken == 0
    requires speech.status == SearchCited ==> CitedFirst(db, t, a)
    ensures SpeechOk(db, t, a, speech, limit)
  {
    hide TurnsOk, OperationsOk, MessagesOk, MemoriesOk, GlobalsOk, SequencesOk, FinishesOk, BeatOk;
    forall b | 1 <= b <= speech.spoken ensures AllStages(db, t, a, b) {
      if b < speech.finalBeat {
        EarlierBeatsWhole(db, t, a, speech.finalBeat, b, limit);
      }
    }
  }

  lemma DroppedSpeech(x: Tables, y: Tables, t: TurnId, a: AgentId, limit: nat)
    requires Uncited(x, t, a, 1) && Grows(x, y, t, {a}) && IsCompleted(y, AgentKey(t, a, 1))
    ensures SpeechOk(y, t, a, Speech(SearchUncited, 1, 0), limit)
  {
  }

  lemma BeatsStillDone(x: Tables, y: Tables, t: TurnId, a: AgentId, beat: nat, spoken: nat,
                       heard: seq<nat>, visible: seq<nat>, limit: nat)
    requires BeatsDone(x, t, a, beat, spoken, heard, visible, limit) && Grows(x, y, t, {a})
    requires forall b :: IsCompleted(y, CompletionKey(t, a, b)) == IsCompleted(x, CompletionKey(t, a, b))
    ensures BeatsDone(y, t, a, beat, spoken, heard, visible, limit)
  {
    SpokenStable(x, y, t, a, spoken, t, {a});
  }

  lemma CitationStays(x: Tables, y: Tables, t: TurnId, a: AgentId, completion: AgentCompletion)
    requires Answers(x, CompletionKey(t, a, 1), Said(completion)) && Grows(x, y, t, {a})
    ensures Uncited(y, t, a, 1) <==> !Cited(completion.sources)
    ensures CitedFirst(y, t, a) <==> Cited(completion.sources)
  {
  }

  lemma UserMessageStays(x: Tables, y: Tables, t: TurnId, user: nat, agents: set<AgentId>)
    requires IsUserMessage(x, t, user) && Grows(x, y, t, agents)
    ensures IsUserMessage(y, t, user)
  {
  }

  lemma BeatHolds(db: Tables, t: TurnId, a: AgentId, beat: nat, limit: nat)
    requires Inv(db, limit)
    ensures BeatOk(db, t, a, beat, limit)
  {
  }

  class AgentTurnExecutor {
    const storage: Storage
    const attempt: Attempt
    const report: RoomReport
    const limit: nat

    constructor (storage: Storage, attempt: Attempt, report: RoomReport, limit: nat)
      ensures this.storage == storage && this.attempt == attempt
      ensures this.report == report && this.limit == limit
    {
      this.storage, this.attempt, this.report, this.limit := storage, attempt, report, limit;
    }

    ghost predicate Uses(ledger: ExecutionLedger) {
      && ledger.storage == storage && ledger.attempt == attempt
      && ledger.limit == limit && ledger.report == report
    }

    /** One model request passes the room's budget and is reported, or the attempt ends. */
    method ReportRequest(ledger: ExecutionLedger) returns (r: Outcome<()>)
      requires Uses(ledger) && ledger.Open()
      modifies storage`journal, report
      ensures ledger.Open()
      ensures r.Done? ==> storage.journal == old(storage.journal) + [Admitted(ledger.request.turn)]
      ensures r.Done? ==> report.requests == old(report.requests) + 1
      ensures r.Stopped? ==> r.reason == OverBudget && storage.journal == old(storage.journal)
    {
      hide Inv, JournalOk, Grows, JournalGrows, CountRequests;
      var admitted := report.ModelRequested();
      if admitted.Done? {
        CountExtended(storage.journal, Admitted(ledger.request.turn), ledger.request.turn);
        ledger.Append(Admitted(ledger.request.turn));
      }
      return admitted;
    }

    /** One provider call for a beat that has no stored completion. */
    method AskProvider(ledger: ExecutionLedger, agent: AgentId, beat: nat) returns (r: Outcome<Answer>)
      requires Uses(ledger) && ledger.Open() && agent == ledger.speaker
      requires !IsCompleted(storage.tables, CompletionKey(ledger.request.turn, agent, beat))
      modifies storage`journal, attempt`answers, report
      ensures ledger.Open()
      ensures r.Done? ==>
                && report.requests == old(report.requests) + r.value.requests
                && Asked(CompletionKey(ledger.request.turn, agent, beat)) in storage.journal
      ensures r.Stopped? ==> r.reason == attempt.ending || r.reason == OverBudget
    {
      hide Inv, JournalOk;
      var answer :- attempt.NextAnswer();
      ledger.Record(Asked(CompletionKey(ledger.request.turn, agent, beat)));
      for i := 0 to answer.requests
        invariant ledger.Open() && report.requests == old(report.requests) + i
        invariant Asked(CompletionKey(ledger.request.turn, agent, beat)) in storage.journal
      {
        var _ :- ReportRequest(ledger);
      }
      return Done(answer);
    }

    /** The stored completion of the beat, or else a provider's answer, which is stored first. */
    method CompletionForBeat(ledger: ExecutionLedger, agent: AgentId, beat: nat) returns (r: Outcome<Reply>)
      requires Uses(ledger)
      requires ledger.Open() && agent == ledger.speaker
      requires Requested(storage.tables, ledger.request.turn, agent, beat, limit)
      modifies storage`tables, storage`journal, attempt, report
      ensures ledger.Open()
      ensures Grows(old(storage.tables), storage.tables, ledger.request.turn, {agent})
      ensures storage.tables == old(storage.tables).(operations := storage.tables.operations)
      ensures r.Done? ==> Answers(storage.tables, CompletionKey(ledger.request.turn, agent, beat), r.value)
      ensures r.Stopped? ==> r.reason == attempt.ending || r.reason == OverBudget
    {
      hide Inv, JournalOk;
      ghost var before := storage.tables;
      var recovered :- ledger.RecoverCompletion(agent, beat);
      if recovered.Some? {
        return Done(Said(recovered.value));
      }
      ghost var between := storage.tables;
      var answer :- AskProvider(ledger, agent, beat);
      match answer
      case Failing(_, kind, detail) =>
        return Done(Broke(kind, detail));
      case Answered(_, completion) =>
        var stored := ledger.CheckpointCompletion(agent, beat, completion);
        GrowsTransitive(before, between, storage.tables, ledger.request.turn, {agent});
        var _ :- stored;
        return Done(Said(completion));
    }

    /** The beat's message row, inserted unless an earlier attempt did. */
    method StoreMessage(ledger: ExecutionLedger, agent: AgentId, beat: nat, content: string)
      returns (r: Outcome<nat>)
      requires Uses(ledger) && ledger.Open() && agent == ledger.speaker
      requires var pc := CompletionKey(ledger.request.turn, agent, beat);
               HasCompletion(storage.tables, pc) && CompletionOf(storage.tables, pc).content == content
      requires MessageKey(ledger.request.turn, agent, beat) in storage.tables.operations
      modifies storage`tables, attempt`callsLeft
      ensures ledger.Open()
      ensures Grows(old(storage.tables), storage.tables, ledger.request.turn, {agent})
      ensures storage.tables.operations == old(storage.tables).operations
      ensures storage.tables.memoryOf == old(storage.tables).memoryOf
      ensures r.Done? ==>
                var key := MessageKey(ledger.request.turn, agent, beat);
                key in storage.tables.messageOf && storage.tables.messageOf[key] == r.value
      ensures r.Done? ==>
                AddMessage(old(storage.tables),
                           MessageRow(ledger.request.project, Some(ledger.request.turn), AgentRole(agent),
                                      Strip(content), Some(MessageKey(ledger.request.turn, agent, beat))))
                == Ok(Added(storage.tables, r.value))
      ensures r.Stopped? ==> r.reason == attempt.ending && storage.tables == old(storage.tables)
    {
      hide Inv, JournalOk;
      ghost var before := storage.tables;
      NothingGrows(before, ledger.request.turn, {agent});
      var key := ledger.Key(agent, beat, MessageCommitted);
      var _ :- attempt.Step();
      MessageKeepsInv(before, key, content, limit);
      var stored := storage.InsertMessage(
        MessageRow(ledger.request.project, Some(ledger.request.turn), AgentRole(agent), Strip(content), Some(key)));
      ledger.StillWorking(before, storage.journal);
      match stored
      case Ok(id) => return Done(id);
      case Err(error) => assert false; return Stopped(Refused(error));
    }

    method StoreMemory(ledger: ExecutionLedger, agent: AgentId, beat: nat, user: nat,
                       outcome: MemoryOutcome, text: string) returns (r: Outcome<nat>)
      requires Uses(ledger) && ledger.Open() && agent == ledger.speaker
      requires IsUserMessage(storage.tables, ledger.request.turn, user)
      requires MemoryKey(ledger.request.turn, agent, beat) in storage.tables.operations
      requires Succeeded(outcome) ==> IsCompleted(storage.tables, MessageKey(ledger.request.turn, agent, beat))
      modifies storage`tables, attempt`callsLeft
      ensures ledger.Open()
      ensures Grows(old(storage.tables), storage.tables, ledger.request.turn, {agent})
      ensures storage.tables.operations == old(storage.tables).operations
      ensures r.Done? ==>
                var key := MemoryKey(ledger.request.turn, agent, beat);
                && key in storage.tables.memoryOf && storage.tables.memoryOf[key] == r.value
                && r.value < |storage.tables.memories|
      ensures r.Done? ==>
                AddMemoryEvent(old(storage.tables),
                               MemoryRow(ledger.request.project, agent, user, 0, outcome, ledger.request.message, text,
                                         Some(MemoryKey(ledger.request.turn, agent, beat))))
                == Ok(Added(storage.tables, r.value))
      ensures storage.tables.globals == old(storage.tables).globals
      ensures Remembered(old(storage.tables), storage.tables, MemoryKey(ledger.request.turn, agent, beat), outcome,
                         text)
      ensures r.Stopped? ==> r.reason == attempt.ending && storage.tables == old(storage.tables)
    {
      hide Inv, JournalOk;
      ghost var before := storage.tables;
      NothingGrows(before, ledger.request.turn, {agent});
      var key := ledger.Key(agent, beat, MemoryCommitted);
      var _ :- attempt.Step();
      MemoryKeepsInv(before, key, user, outcome, ledger.request.message, text, limit);
      var stored := storage.InsertMemoryEvent(
        MemoryRow(ledger.request.project, agent, user, 0, outcome, ledger.request.message, text, Some(key)));
      ledger.StillWorking(before, storage.journal);
      match stored
      case Ok(id) => return Done(id);
      case Err(error) => assert false; return Stopped(Refused(error));
    }

    method StoreGlobal(ledger: ExecutionLedger, agent: AgentId, memory: nat) returns (r: Outcome<()>)
      requires Uses(ledger) && ledger.Open() && agent == ledger.speaker
      requires memory < |storage.tables.memories|
      modifies storage`tables, attempt`callsLeft
      ensures ledger.Open()
      ensures Grows(old(storage.tables), storage.tables, ledger.request.turn, {agent})
      ensures storage.tables.operations == old(storage.tables).operations
      ensures storage.tables.memories == old(storage.tables).memories
      ensures storage.tables.memoryOf == old(storage.tables).memoryOf
      ensures r.Done? ==> memory in storage.tables.globalOf
      ensures r.Done? ==>
                exists id :: AddGlobalEvent(old(storage.tables), MemoryCard(old(storage.tables), memory))
                             == Ok(Added(storage.tables, id))
      ensures r.Stopped? ==> r.reason == attempt.ending && storage.tables == old(storage.tables)
    {
      hide Inv, JournalOk;
      ghost var before := storage.tables;
      NothingGrows(before, ledger.request.turn, {agent});
      var _ :- attempt.Step();
      GlobalKeepsInv(before, memory, ledger.request.turn, agent, limit);
      var stored := storage.InsertGlobalEvent(MemoryCard(storage.tables, memory));
      ledger.StillWorking(before, storage.journal);
      match stored
      case Ok(_) => return Done(());
      case Err(error) => assert false; return Stopped(Refused(error));
    }

    /** The beat's memory event and, when the agent answered, its card for other projects. */
    method RecordMemory(ledger: ExecutionLedger, agent: AgentId, beat: nat, user: nat,
                        outcome: MemoryOutcome, text: string) returns (r: Outcome<nat>)
      requires Uses(ledger) && ledger.Open() && agent == ledger.speaker
      requires IsUserMessage(storage.tables, ledger.request.turn, user)
      requires CompletionKey(ledger.request.turn, agent, beat) in storage.tables.operations
      requires var msg := MessageKey(ledger.request.turn, agent, beat);
               Succeeded(outcome) <==> IsCompleted(storage.tables, msg)
      modifies storage`tables, attempt`callsLeft
      ensures ledger.Open()
      ensures Grows(old(storage.tables), storage.tables, ledger.request.turn, {agent})
      ensures forall k :: IsCompleted(storage.tables, k) == IsCompleted(old(storage.tables), k)
      ensures r.Done? ==>
                MayComplete(storage.tables, MemoryKey(ledger.request.turn, agent, beat), MemoryResult(r.value), limit)
      ensures r.Done? ==>
                && MemoryKey(ledger.request.turn, agent, beat) in storage.tables.memoryOf
                && r.value == storage.tables.memoryOf[MemoryKey(ledger.request.turn, agent, beat)]
                && (Succeeded(outcome) ==> r.value in storage.tables.globalOf)
      ensures !Succeeded(outcome) ==> storage.tables.globals == old(storage.tables).globals
      ensures Remembered(old(storage.tables), storage.tables, MemoryKey(ledger.request.turn, agent, beat), outcome,
                         text)
      ensures r.Stopped? ==> r.reason == attempt.ending
    {
      hide Inv, JournalOk, Grows, JournalGrows, AddMemoryEvent, AddGlobalEvent;
      ghost var t := ledger.request.turn;
      ghost var before := storage.tables;
      var _ :- ledger.Begin(agent, beat, MemoryCommitted);
      ghost var begun := storage.tables;
      var stored := StoreMemory(ledger, agent, beat, user, outcome, text);
      GrowsTransitive(before, begun, storage.tables, t, {agent});
      var memory :- stored;
      ghost var inserted := storage.tables;
      if Succeeded(outcome) {
        var carded := StoreGlobal(ledger, agent, memory);
        GrowsTransitive(before, inserted, storage.tables, t, {agent});
        var _ :- carded;
      }
      BeatHolds(storage.tables, t, agent, beat, limit);
      return Done(memory);
    }

    /** Message, then memory, then the end of the beat, each checkpointed once. */
    method CommitCompletion(ledger: ExecutionLedger, agent: AgentId, beat: nat, user: nat,
                            completion: AgentCompletion) returns (r: Outcome<nat>)
      requires Uses(ledger) && ledger.Open() && agent == ledger.speaker
      requires IsUserMessage(storage.tables, ledger.request.turn, user)
      requires Answers(storage.tables, CompletionKey(ledger.request.turn, agent, beat), Said(completion))
      modifies storage`tables, attempt`callsLeft
      ensures ledger.Open()
      ensures Grows(old(storage.tables), storage.tables, ledger.request.turn, {agent})
      ensures r.Done? ==>
                var msg := MessageKey(ledger.request.turn, agent, beat);
                && AllStages(storage.tables, ledger.request.turn, agent, beat)
                && msg in storage.tables.messageOf && r.value == storage.tables.messageOf[msg]
      ensures r.Done? ==> Carded(storage.tables, MemoryKey(ledger.request.turn, agent, beat))
      ensures Remembered(old(storage.tables), storage.tables, MemoryKey(ledger.request.turn, agent, beat),
                         if exists i :: 0 <= i < |completion.toolEvents| && completion.toolEvents[i].ok
                                        && completion.toolEvents[i].tool != "record_motif_observations"
                         then ActionResponse else Response,
                         Strip(completion.content))
      ensures r.Stopped? ==> r.reason == attempt.ending
    {
      hide Inv, JournalOk;
      ghost var before := storage.tables;
      var stored := CommitMessage(ledger, agent, beat, completion);
      var message :- stored;
      ghost var spoken := storage.tables;
      var acted := exists i :: 0 <= i < |completion.toolEvents|
                               && completion.toolEvents[i].tool != "record_motif_observations"
                               && completion.toolEvents[i].ok;
      var committed := CommitMemory(ledger, agent, beat, user, if acted then ActionResponse else Response,
                                    Strip(completion.content));
      GrowsTransitive(before, spoken, storage.tables, ledger.request.turn, {agent});
      var _ :- committed;
      return Done(message);
    }

    method CommitMessage(ledger: ExecutionLedger, agent: AgentId, beat: nat, completion: AgentCompletion)
      returns (r: Outcome<nat>)
      requires Uses(ledger) && ledger.Open() && agent == ledger.speaker
      requires Answers(storage.tables, CompletionKey(ledger.request.turn, agent, beat), Said(completion))
      modifies storage`tables, attempt`callsLeft
      ensures ledger.Open()
      ensures Grows(old(storage.tables), storage.tables, ledger.request.turn, {agent})
      ensures r.Done? ==>
                var msg := MessageKey(ledger.request.turn, agent, beat);
                && IsCompleted(storage.tables, msg)
                && msg in storage.tables.messageOf && r.value == storage.tables.messageOf[msg]
      ensures storage.tables.memoryOf == old(storage.tables).memoryOf
      ensures r.Stopped? ==> r.reason == attempt.ending
    {
      hide Inv, JournalOk, AddMessage;
      ghost var t := ledger.request.turn;
      ghost var before := storage.tables;
      var _ :- ledger.Begin(agent, beat, MessageCommitted);
      ghost var begun := storage.tables;
      var stored := StoreMessage(ledger, agent, beat, completion.content);
      GrowsTransitive(before, begun, storage.tables, t, {agent});
      var message :- stored;
      ghost var inserted := storage.tables;
      var marked := ledger.Complete(agent, beat, MessageCommitted, MessageResult(message));
      GrowsTransitive(before, inserted, storage.tables, t, {agent});
      var _ :- marked;
      return Done(message);
    }

    /** The memory event of a beat, its checkpoint, and the end of the beat. */
    method CommitMemory(ledger: ExecutionLedger, agent: AgentId, beat: nat, user: nat,
                        outcome: MemoryOutcome, text: string) returns (r: Outcome<()>)
      requires Uses(ledger) && ledger.Open() && agent == ledger.speaker
      requires IsUserMessage(storage.tables, ledger.request.turn, user)
      requires CompletionKey(ledger.request.turn, agent, beat) in storage.tables.operations
      requires var msg := MessageKey(ledger.request.turn, agent, beat);
               Succeeded(outcome) <==> IsCompleted(storage.tables, msg)
      modifies storage`tables, attempt`callsLeft
      ensures ledger.Open()
      ensures Grows(old(storage.tables), storage.tables, ledger.request.turn, {agent})
      ensures var t := ledger.request.turn;
              forall k :: k != MemoryKey(t, agent, beat) && k != BeatKey(t, agent, beat) ==>
                IsCompleted(storage.tables, k) == IsCompleted(old(storage.tables), k)
      ensures r.Done? ==>
                && IsCompleted(storage.tables, MemoryKey(ledger.request.turn, agent, beat))
                && IsCompleted(storage.tables, BeatKey(ledger.request.turn, agent, beat))
      ensures r.Done? && Succeeded(outcome) ==> Carded(storage.tables, MemoryKey(ledger.request.turn, agent, beat))
      ensures Remembered(old(storage.tables), storage.tables, MemoryKey(ledger.request.turn, agent, beat), outcome,
                         text)
      ensures r.Stopped? ==> r.reason == attempt.ending
    {
      hide Inv, JournalOk;
      ghost var t := ledger.request.turn;
      ghost var before := storage.tables;
      var memory :- RecordMemory(ledger, agent, beat, user, outcome, text);
      ghost var recorded := storage.tables;
      var marked := ledger.Complete(agent, beat, MemoryCommitted, MemoryResult(memory));
      GrowsTransitive(before, recorded, storage.tables, t, {agent});
      var _ :- marked;
      ghost var committed := storage.tables;
      var finished := ledger.MarkBeatFinished(agent, beat);
      GrowsTransitive(before, committed, storage.tables, t, {agent});
      return finished;
    }

    /** A failed provider call is remembered and ends the beat; its own checkpoint stays open. */
    method RecordProviderFailure(ledger: ExecutionLedger, room: RoomLog, agent: AgentId, beat: nat, user: nat,
                                 kind: ProviderErrorKind, detail: string) returns (r: Outcome<()>)
      requires Uses(ledger) && ledger.Open() && agent == ledger.speaker
      requires IsUserMessage(storage.tables, ledger.request.turn, user)
      requires Answers(storage.tables, CompletionKey(ledger.request.turn, agent, beat), Broke(kind, detail))
      modifies storage`tables, attempt`callsLeft, room`failures
      ensures ledger.Open()
      ensures Grows(old(storage.tables), storage.tables, ledger.request.turn, {agent})
      ensures room.failures == old(room.failures) + [AgentFailure(agent, beat, OutcomeOfError(kind))]
      ensures room.failures[|old(room.failures)|].outcome
              == match kind case TimedOut => Timeout case Silent => NoResponse case Errored => ProviderFailure
      ensures r.Done? ==>
                && IsCompleted(storage.tables, BeatKey(ledger.request.turn, agent, beat))
                && !IsCompleted(storage.tables, CompletionKey(ledger.request.turn, agent, beat))
      ensures Remembered(old(storage.tables), storage.tables, MemoryKey(ledger.request.turn, agent, beat),
                         OutcomeOfError(kind), detail)
      ensures r.Stopped? ==> r.reason == attempt.ending
    {
      hide Inv, JournalOk;
      room.failures := room.failures + [AgentFailure(agent, beat, OutcomeOfError(kind))];
      BeatHolds(storage.tables, ledger.request.turn, agent, beat, limit);
      r := CommitMemory(ledger, agent, beat, user, OutcomeOfError(kind), detail);
    }

    /** A beat's reply, committed or recorded as a failure. */
    method SettleReply(ledger: ExecutionLedger, room: RoomLog, agent: AgentId, beat: nat, user: nat,
                       reply: Reply) returns (r: Outcome<()>)
      requires Uses(ledger) && ledger.Open() && agent == ledger.speaker
      requires IsUserMessage(storage.tables, ledger.request.turn, user)
      requires Answers(storage.tables, CompletionKey(ledger.request.turn, agent, beat), reply)
      modifies storage`tables, attempt`callsLeft, room
      ensures ledger.Open()
      ensures Grows(old(storage.tables), storage.tables, ledger.request.turn, {agent})
      ensures r.Done? ==> Followed(storage.tables, ledger.request.turn, agent, beat, reply)
      ensures r.Done? && reply.Said? ==>
                room.visible
                == old(room.visible) + [storage.tables.messageOf[MessageKey(ledger.request.turn, agent, beat)]]
      ensures reply.Broke? ==>
                room.failures == old(room.failures) + [AgentFailure(agent, beat, OutcomeOfError(reply.kind))]
      ensures if reply.Broke? then room.visible == old(room.visible) else room.failures == old(room.failures)
      ensures r.Stopped? ==> r.reason == attempt.ending
    {
      hide Inv, JournalOk;
      match reply
      case Broke(kind, detail) =>
        r := RecordProviderFailure(ledger, room, agent, beat, user, kind, detail);
      case Said(completion) =>
        ghost var key := CompletionKey(ledger.request.turn, agent, beat);
        assert IsCompleted(storage.tables, key);
        var message :- CommitCompletion(ledger, agent, beat, user, completion);
        room.visible := room.visible + [message];
        return Done(());
    }

    /** One follow-up beat. */
    method RunFollowupBeat(ledger: ExecutionLedger, room: RoomLog, agent: AgentId, beat: nat, user: nat)
      returns (r: Outcome<Reply>)
      requires Uses(ledger) && ledger.Open() && agent == ledger.speaker
      requires IsUserMessage(storage.tables, ledger.request.turn, user)
      requires Requested(storage.tables, ledger.request.turn, agent, beat, limit)
      modifies storage`tables, storage`journal, attempt, report, room
      ensures ledger.Open()
      ensures Grows(old(storage.tables), storage.tables, ledger.request.turn, {agent})
      ensures r.Done? ==> Followed(storage.tables, ledger.request.turn, agent, beat, r.value)
      ensures r.Done? && r.value.Said? ==>
                room.visible
                == old(room.visible) + [storage.tables.messageOf[MessageKey(ledger.request.turn, agent, beat)]]
      ensures r.Done? && r.value.Broke? ==> room.visible == old(room.visible)
      ensures r.Done? ==> Noted(old(room.failures), room.failures, agent, beat, r.value.Broke?)
      ensures r.Stopped? ==> r.reason == attempt.ending || r.reason == OverBudget
    {
      hide Inv, JournalOk, JournalGrows;
      ghost var before := storage.tables;
      var reply :- CompletionForBeat(ledger, agent, beat);
      ghost var answered := storage.tables;
      var settled := SettleReply(ledger, room, agent, beat, user, reply);
      GrowsTransitive(before, answered, storage.tables, ledger.request.turn, {agent});
      var _ :- settled;
      return Done(reply);
    }

    /** Follow-up beats, while the last completion asks for one and the limit allows it. */
    method RunFollowupBeats(ledger: ExecutionLedger, room: RoomLog, agent: AgentId, user: nat,
                            first: AgentCompletion, ghost heard: seq<nat>) returns (r: Outcome<(nat, nat)>)
      requires Uses(ledger) && ledger.Open() && agent == ledger.speaker && limit >= 1
      requires IsUserMessage(storage.tables, ledger.request.turn, user)
      requires Heard(storage.tables, ledger.request.turn, agent, 1, first, heard, room.visible)
      modifies storage`tables, storage`journal, attempt, report, room
      ensures ledger.Open()
      ensures Grows(old(storage.tables), storage.tables, ledger.request.turn, {agent})
      ensures r.Done? ==>
                && BeatsDone(storage.tables, ledger.request.turn, agent, r.value.0, r.value.1, heard, room.visible,
                             limit)
                && Noted(old(room.failures), room.failures, agent, r.value.0, r.value.1 != r.value.0)
                && (r.value.0 != r.value.1 ==> r.value.0 >= 2)
      ensures r.Stopped? ==> r.reason == attempt.ending || r.reason == OverBudget
    {
      hide Inv, JournalOk;
      ghost var t := ledger.request.turn;
      ghost var before := storage.tables;
      NothingGrows(before, t, {agent});
      var beat, completion := 1, first;
      while completion.continueTurn && beat < limit
        invariant ledger.Open() && 1 <= beat <= limit
        invariant Grows(before, storage.tables, t, {agent})
        invariant Heard(storage.tables, t, agent, beat, completion, heard, room.visible)
        invariant room.failures == old(room.failures)
        decreases limit - beat
      {
        ghost var top := storage.tables;
        ghost var said := room.visible;
        NextRequested(top, t, agent, beat, completion, limit);
        var followed := RunFollowupBeat(ledger, room, agent, beat + 1, user);
        GrowsTransitive(before, top, storage.tables, t, {agent});
        var reply :- followed;
        HeardNext(top, storage.tables, t, agent, beat, completion, reply, heard, said, room.visible, limit);
        beat := beat + 1;
        if reply.Broke? {
          return Done((beat, beat - 1));
        }
        completion := reply.completion;
      }
      HeardLast(storage.tables, t, agent, beat, completion, heard, room.visible, limit);
      return Done((beat, beat));
    }

    /** One agent's part in the turn. An answer of the search agent that cites nothing is dropped. */
    method Run(ledger: ExecutionLedger, room: RoomLog, agent: AgentId, searchAgent: Option<AgentId>, user: nat)
      returns (r: Outcome<Speech>)
      requires Uses(ledger) && ledger.Sound() && limit >= 1
      requires !AgentIsFinished(storage.tables, ledger.request.turn, agent)
      requires IsUserMessage(storage.tables, ledger.request.turn, user)
      modifies storage`tables, storage`journal, attempt, report, room, ledger
      ensures ledger.Sound()
      ensures Advanced(old(storage.tables), old(storage.journal), storage.tables, storage.journal,
                       ledger.request.turn, {agent}, SearchersOf(agent, searchAgent == Some(agent)))
      ensures r.Done? ==>
                && SpeechOk(storage.tables, ledger.request.turn, agent, r.value, limit)
                && AgentDone(ledger.request.turn, agent, r.value.status == SearchUncited) in storage.journal
                && room.visible
                   == old(room.visible) + Spoken(storage.tables, ledger.request.turn, agent, r.value.spoken)
                && (r.value.status == SpeakerCompleted <==> searchAgent != Some(agent))
                && Noted(old(room.failures), room.failures, agent, r.value.finalBeat, BrokeOff(r.value))
                && (searchAgent == Some(agent) ==>
                      Searched(old(storage.tables), storage.tables, ledger.request.turn, agent, r.value))
                && (r.value.status == SearchUncited <==>
                      && searchAgent == Some(agent)
                      && var key := CompletionKey(ledger.request.turn, agent, 1);
                         HasCompletion(storage.tables, key) && NoSources(CompletionOf(storage.tables, key).sources))
      ensures r.Stopped? ==> r.reason == attempt.ending || r.reason == OverBudget
    {
      hide Inv, JournalOk;
      var searching := searchAgent == Some(agent);
      ledger.Focus(agent, searching);
      ghost var heard := room.visible;
      var reply :- CompletionForBeat(ledger, agent, 1);
      r := Conclude(ledger, room, agent, searching, user, reply, heard);
      UncitedMeans(storage.tables, ledger.request.turn, agent);
    }

    /** What follows the first reply: it is dropped, or settled and followed up; then the agent is done. */
    method Conclude(ledger: ExecutionLedger, room: RoomLog, agent: AgentId, searching: bool, user: nat,
                    reply: Reply, ghost heard: seq<nat>) returns (r: Outcome<Speech>)
      requires Uses(ledger) && ledger.Open() && agent == ledger.speaker && limit >= 1
      requires IsUserMessage(storage.tables, ledger.request.turn, user)
      requires Answers(storage.tables, CompletionKey(ledger.request.turn, agent, 1), reply)
      requires room.visible == heard && ledger.searching == searching
      modifies storage`tables, storage`journal, attempt, report, room
      ensures ledger.Valid()
      ensures r.Done? ==>
                && SpeechOk(storage.tables, ledger.request.turn, agent, r.value, limit)
                && room.visible == heard + Spoken(storage.tables, ledger.request.turn, agent, r.value.spoken)
                && (r.value.status == SpeakerCompleted <==> !searching)
                && AgentDone(ledger.request.turn, agent, r.value.status == SearchUncited) in storage.journal
                && Noted(old(room.failures), room.failures, agent, r.value.finalBeat, BrokeOff(r.value))
                && (searching ==> Searched(old(storage.tables), storage.tables, ledger.request.turn, agent, r.value))
      ensures r.Stopped? ==> r.reason == attempt.ending || r.reason == OverBudget
    {
      hide Inv, JournalOk, JournalGrows, Cited, Grows, SpeechOk, Last;
      ghost var t := ledger.request.turn;
      ghost var answered := storage.tables;
      if searching && reply.Said? && !Cited(reply.completion.sources) {
        var _ :- ledger.MarkAgentFinished(agent, 1, true);
        DroppedSpeech(answered, storage.tables, t, agent, limit);
        CitationStays(answered, storage.tables, t, agent, reply.completion);
        return Done(Speech(SearchUncited, 1, 0));
      }
      var settled := SettleReply(ledger, room, agent, 1, user, reply);
      UserMessageStays(answered, storage.tables, t, user, {agent});
      var _ :- settled;
      r := FollowUp(ledger, room, agent, searching, user, reply, heard, old(room.failures));
    }

    /** After the first beat: a failure ends the agent's part, an answer may be followed up. */
    method FollowUp(ledger: ExecutionLedger, room: RoomLog, agent: AgentId, searching: bool, user: nat,
                    reply: Reply, ghost heard: seq<nat>, ghost failures: seq<AgentFailure>) returns (r: Outcome<Speech>)
      requires Uses(ledger) && ledger.Open() && agent == ledger.speaker && limit >= 1
      requires IsUserMessage(storage.tables, ledger.request.turn, user)
      requires Followed(storage.tables, ledger.request.turn, agent, 1, reply)
      requires room.visible
               == heard + if reply.Said?
                          then [storage.tables.messageOf[MessageKey(ledger.request.turn, agent, 1)]] else []
      requires Noted(failures, room.failures, agent, 1, reply.Broke?)
      requires searching && reply.Said? ==> Cited(reply.completion.sources)
      modifies storage`tables, storage`journal, attempt, report, room
      ensures ledger.Valid()
      ensures r.Done? ==>
                && SpeechOk(storage.tables, ledger.request.turn, agent, r.value, limit)
                && room.visible == heard + Spoken(storage.tables, ledger.request.turn, agent, r.value.spoken)
                && (r.value.status == SpeakerCompleted <==> !searching)
                && r.value.status != SearchUncited
                && AgentDone(ledger.request.turn, agent, false) in storage.journal
                && Noted(failures, room.failures, agent, r.value.finalBeat, BrokeOff(r.value))
                && (searching ==>
                      && !Uncited(storage.tables, ledger.request.turn, agent, 1)
                      && (r.value.status == SearchFailed <==> BrokeOff(r.value) && r.value.finalBeat == 1))
      ensures r.Stopped? ==> r.reason == attempt.ending || r.reason == OverBudget
    {
      hide Inv, JournalOk, Grows, JournalGrows, Cited;
      ghost var t := ledger.request.turn;
      ghost var settled := storage.tables;
      assert Spoken(settled, t, agent, 0) == [];
      if reply.Broke? {
        assert BeatsDone(storage.tables, t, agent, 1, 0, heard, room.visible, limit);
        r := Finish(ledger, agent, Speech(if searching then SearchFailed else SpeakerCompleted, 1, 0),
                    heard, room.visible);
        return;
      }
      assert Heard(storage.tables, t, agent, 1, reply.completion, heard, room.visible);
      var last :- RunFollowupBeats(ledger, room, agent, user, reply.completion, heard);
      ghost var followed := storage.tables;
      CitationStays(settled, followed, t, agent, reply.completion);
      r := Finish(ledger, agent, Speech(if searching then SearchCited else SpeakerCompleted, last.0, last.1),
                  heard, room.visible);
      GrowsTransitive(settled, followed, storage.tables, t, {agent});
      CitationStays(settled, storage.tables, t, agent, reply.completion);
    }

    /** Call the agent finished at its last beat. */
    method Finish(ledger: ExecutionLedger, agent: AgentId, speech: Speech, ghost heard: seq<nat>,
                  ghost visible: seq<nat>) returns (r: Outcome<Speech>)
      requires Uses(ledger) && ledger.Open() && agent == ledger.speaker
      requires BeatsDone(storage.tables, ledger.request.turn, agent, speech.finalBeat, speech.spoken, heard,
                         visible, limit)
      requires speech.status != SearchUncited
      requires speech.status == SearchFailed ==> speech.finalBeat == 1 && speech.spoken == 0
      requires speech.status == SearchCited ==> CitedFirst(storage.tables, ledger.request.turn, agent)
      modifies storage`tables, storage`journal, attempt`callsLeft
      ensures ledger.Valid()
      ensures Grows(old(storage.tables), storage.tables, ledger.request.turn, {agent})
      ensures r.Done? ==>
                && r.value == speech
                && SpeechOk(storage.tables, ledger.request.turn, agent, speech, limit)
                && AgentDone(ledger.request.turn, agent, false) in storage.journal
                && visible == heard + Spoken(storage.tables, ledger.request.turn, agent, speech.spoken)
      ensures r.Stopped? ==> r.reason == attempt.ending
    {
      hide Inv, JournalOk;
      ghost var t := ledger.request.turn;
      ghost var before := storage.tables;
      var _ :- ledger.MarkAgentFinished(agent, speech.finalBeat, false);
      BeatsStillDone(before, storage.tables, t, agent, speech.finalBeat, speech.spoken, heard, visible, limit);
      FinishedSpeech(storage.tables, t, agent, speech, heard, visible, limit);
      return Done(speech);
    }
  }
}
