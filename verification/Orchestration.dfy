/** One room run: the user's message, then each speaker's part, in order. */
module Orchestration {
  import opened Records
  import opened Steps
  import opened Invariant
  import opened StepLemmas
  import opened RowLemmas
  import opened Journal
  import opened Storage
  import opened Speakers
  import opened Execution

  // -- what the room heard -------------------------------------------------------------------

  /** The messages of the speakers so far, in speaking order and then in beat order. */
  function SpokenBy(db: Tables, t: TurnId, order: seq<AgentId>, speeches: seq<Speech>): seq<nat>
    requires |speeches| <= |order|
  {
    if speeches == [] then []
    else
      var n := |speeches| - 1;
      SpokenBy(db, t, order, speeches[..n]) + Spoken(db, t, order[n], speeches[n].spoken)
  }

  /** The failures the room reports are those of the speakers whose part broke off, in order. */
  predicate FailuresMatch(order: seq<AgentId>, speeches: seq<Speech>, failures: seq<AgentFailure>)
    requires |speeches| <= |order|
  {
    if speeches == [] then failures == []
    else
      var n := |speeches| - 1;
      if BrokeOff(speeches[n]) then
        && failures != []
        && failures[|failures| - 1].agent == order[n] && failures[|failures| - 1].beat == speeches[n].finalBeat
        && !Succeeded(failures[|failures| - 1].outcome)
        && FailuresMatch(order, speeches[..n], failures[..|failures| - 1])
      else FailuresMatch(order, speeches[..n], failures)
  }

  ghost predicate RoomHeard(db: Tables, t: TurnId, order: seq<AgentId>, speeches: seq<Speech>,
                            searcher: Option<AgentId>, result: RoomResult, limit: nat)
  {
    && |speeches| <= |order|
    && (forall i :: 0 <= i < |speeches| ==> SpeechOk(db, t, order[i], speeches[i], limit))
    && (forall i :: 0 <= i < |speeches| ==> (speeches[i].status == SpeakerCompleted <==> searcher != Some(order[i])))
    && result.messages == SpokenBy(db, t, order, speeches)
    && FailuresMatch(order, speeches, result.failures)
  }

  /** No supplied page was read and no agent may search for a replacement. */
  predicate Skipped(signals: RoomSignals, searcher: Option<AgentId>) {
    signals.failures != [] && !signals.sourcesRead && searcher.None?
  }

  /** The first speaker searched, found nothing it could cite, and no page stands in for it. */
  predicate WithoutEvidence(sourcesRead: bool, speeches: seq<Speech>) {
    speeches != [] && !sourcesRead && (speeches[0].status == SearchFailed || speeches[0].status == SearchUncited)
  }

  /** Every speaker was heard, unless the search agent, who speaks first, found no evidence to go on. */
  ghost predicate SpeakersDone(db: Tables, t: TurnId, order: seq<AgentId>, searcher: Option<AgentId>,
                               sourcesRead: bool, result: RoomResult, limit: nat)
  {
    exists speeches: seq<Speech> ::
      && RoomHeard(db, t, order, speeches, searcher, result, limit)
      && |speeches| == if WithoutEvidence(sourcesRead, speeches) then 1 else |order|
  }

  /** How a room run that is not interrupted ends: nobody was asked, or the speakers were heard. */
  ghost predicate RoomDone(db: Tables, request: Request, runtime: Runtime, signals: RoomSignals,
                           result: RoomResult, limit: nat)
  {
    var (order, searcher) := RunOrder(request, runtime, signals);
    if Skipped(signals, searcher) then result == RoomResult([], [])
    else SpeakersDone(db, request.turn, order, searcher, signals.sourcesRead, result, limit)
  }

  /** Pages were supplied and none was read. */
  predicate NoPageRead(signals: RoomSignals) {
    signals.failures != [] && !signals.sourcesRead
  }

  /** No page was read, and no agent may search for a replacement or the one that did has none. */
  ghost predicate EndedShort(db: Tables, request: Request, runtime: Runtime, signals: RoomSignals) {
    var searcher := RunOrder(request, runtime, signals).1;
    && NoPageRead(signals)
    && (searcher.Some? ==>
          && IsCompleted(db, AgentKey(request.turn, searcher.value, 1))
          && (Uncited(db, request.turn, searcher.value, 1) || Unanswered(db, request.turn, searcher.value, 1)))
  }

  ghost predicate AllFinished(db: Tables, t: TurnId, agents: seq<AgentId>) {
    forall a :: a in agents ==> AgentIsFinished(db, t, a)
  }

  /** A room run finishes everyone it was asked to drive, unless it ends short for want of evidence. */
  lemma HeardOrShort(db: Tables, request: Request, runtime: Runtime, signals: RoomSignals,
                     result: RoomResult, limit: nat)
    requires request.participants != [] && RoomDone(db, request, runtime, signals, result, limit)
    ensures AllFinished(db, request.turn, request.participants) || EndedShort(db, request, runtime, signals)
  {
    RunOrderPermutes(request, runtime, signals);
    var (order, searcher) := RunOrder(request, runtime, signals);
    if !Skipped(signals, searcher) {
      var speeches: seq<Speech> :|
        && RoomHeard(db, request.turn, order, speeches, searcher, result, limit)
        && |speeches| == if WithoutEvidence(signals.sourcesRead, speeches) then 1 else |order|;
      if WithoutEvidence(signals.sourcesRead, speeches) {
        assert SpeechOk(db, request.turn, order[0], speeches[0], limit);
      } else {
        forall i | 0 <= i < |order| ensures AgentIsFinished(db, request.turn, order[i]) {
          assert SpeechOk(db, request.turn, order[i], speeches[i], limit);
        }
      }
    }
  }

  /** A room run that ends short says nothing: nobody was asked, or only the search agent, in vain. */
  lemma ShortIsSilent(db: Tables, request: Request, runtime: Runtime, signals: RoomSignals,
                      result: RoomResult, limit: nat)
    requires request.participants != [] && RoomDone(db, request, runtime, signals, result, limit)
    requires EndedShort(db, request, runtime, signals)
    ensures result.messages == []
    ensures RunOrder(request, runtime, signals).1.None? ==> result == RoomResult([], [])
  {
    RunOrderPermutes(request, runtime, signals);
    hide RunOrder;
    var (order, searcher) := RunOrder(request, runtime, signals);
    if searcher.Some? {
      var speeches: seq<Speech> :|
        && RoomHeard(db, request.turn, order, speeches, searcher, result, limit)
        && |speeches| == if WithoutEvidence(signals.sourcesRead, speeches) then 1 else |order|;
      assert SpeechOk(db, request.turn, order[0], speeches[0], limit);
      assert speeches[..0] == [];
      assert SpokenBy(db, request.turn, order, speeches)
             == SpokenBy(db, request.turn, order, []) + Spoken(db, request.turn, order[0], 0);
    }
  }

  lemma SpeechStable(x: Tables, y: Tables, t: TurnId, a: AgentId, speech: Speech, agents: set<AgentId>, limit: nat)
    requires SpeechOk(x, t, a, speech, limit) && Grows(x, y, t, agents) && a !in agents
    ensures SpeechOk(y, t, a, speech, limit)
    ensures Spoken(y, t, a, speech.spoken) == Spoken(x, t, a, speech.spoken)
  {
    SpokenStable(x, y, t, a, speech.spoken, t, agents);
    assert forall b, kind :: IsCompleted(x, OpKey(t, a, b, kind)) == IsCompleted(y, OpKey(t, a, b, kind));
    assert forall b, kind :: IsCompleted(x, OpKey(t, a, b, kind)) ==>
             x.operations[OpKey(t, a, b, kind)] == y.operations[OpKey(t, a, b, kind)];
    forall b | 1 <= b <= speech.spoken ensures AllStages(y, t, a, b) {
      assert AllStages(x, t, a, b);
    }
  }

  lemma {:induction false} SpokenByStable(x: Tables, y: Tables, t: TurnId, order: seq<AgentId>,
                                          speeches: seq<Speech>, agents: set<AgentId>, limit: nat)
    requires |speeches| <= |order| && Grows(x, y, t, agents)
    requires forall i :: 0 <= i < |speeches| ==> order[i] !in agents && SpeechOk(x, t, order[i], speeches[i], limit)
    ensures SpokenBy(y, t, order, speeches) == SpokenBy(x, t, order, speeches)
    ensures forall i :: 0 <= i < |speeches| ==> SpeechOk(y, t, order[i], speeches[i], limit)
  {
    if speeches != [] {
      var n := |speeches| - 1;
      SpokenByStable(x, y, t, order, speeches[..n], agents, limit);
      SpeechStable(x, y, t, order[n], speeches[n], agents, limit);
    }
  }

  /** The next speaker's part is added to what the room heard. */
  lemma NextSpeech(x: Tables, y: Tables, t: TurnId, order: seq<AgentId>, speeches: seq<Speech>,
                   speech: Speech, searcher: Option<AgentId>, before: RoomResult, after: RoomResult, limit: nat)
    requires RoomHeard(x, t, order, speeches, searcher, before, limit) && |speeches| < |order| && Distinct(order)
    requires Grows(x, y, t, {order[|speeches|]}) && SpeechOk(y, t, order[|speeches|], speech, limit)
    requires speech.status == SpeakerCompleted <==> searcher != Some(order[|speeches|])
    requires after.messages == before.messages + Spoken(y, t, order[|speeches|], speech.spoken)
    requires Noted(before.failures, after.failures, order[|speeches|], speech.finalBeat, BrokeOff(speech))
    ensures RoomHeard(y, t, order, speeches + [speech], searcher, after, limit)
  {
    hide SpeechOk, Grows;
    SpokenByStable(x, y, t, order, speeches, {order[|speeches|]}, limit);
    assert (speeches + [speech])[..|speeches|] == speeches;
    if BrokeOff(speech) {
      assert after.failures[..|after.failures| - 1] == before.failures;
    }
  }

  lemma NothingHeard(db: Tables, t: TurnId, order: seq<AgentId>, searcher: Option<AgentId>, limit: nat)
    ensures RoomHeard(db, t, order, [], searcher, RoomResult([], []), limit)
  {
  }

  /** The agents an answer of whom may be dropped. */
  function Searchers(searcher: Option<AgentId>): set<AgentId> {
    if searcher.Some? then {searcher.value} else {}
  }

  lemma AdvancedMore(x: Tables, jx: seq<Event>, y: Tables, jy: seq<Event>, t: TurnId, agents: set<AgentId>,
                     searchers: set<AgentId>, more: set<AgentId>, moreSearchers: set<AgentId>)
    requires Advanced(x, jx, y, jy, t, agents, searchers) && agents <= more && searchers <= moreSearchers
    ensures Advanced(x, jx, y, jy, t, more, moreSearchers)
  {
  }

  // -- the run -------------------------------------------------------------------------------

  class Orchestrator {
    const storage: Storage
    const attempt: Attempt
    const report: RoomReport
    const limit: nat

    constructor (storage: Storage, attempt: Attempt, report: RoomReport, limit: nat)
      ensures this.storage == storage && this.attempt == attempt
      ensures this.report == report && this.limit == limit
    {
      this.storage, this.attempt, this.report, this.limit := storage, attempt, report, limit;
    }

    ghost predicate Uses(ledger: ExecutionLedger) {
      && ledger.storage == storage && ledger.attempt == attempt
      && ledger.limit == limit && ledger.report == report
    }

    /** The tables and the history are sound, and this request's turn is being run. */
    ghost predicate Ready(request: Request, runtime: Runtime, unrecorded: nat)
      reads storage, attempt, report
    {
      && !attempt.ending.Refused?
      && Inv(storage.tables, limit)
      && JournalOk(storage.journal, storage.tables, limit)
      && IsLive(storage.tables, request.turn)
      && storage.tables.turns[request.turn].project == request.project
      && storage.tables.turns[request.turn].runtime == Some(runtime)
      && report.Valid()
      && report.requests <= report.budget
      && CountAdmitted(storage.journal, request.turn) == report.requests + unrecorded
    }

    /** The turn's user message: the stored one, or a new one when no attempt stored it. */
    method UserMessageOf(request: Request, runtime: Runtime, existing: Option<nat>, ghost unrecorded: nat,
                         ghost agents: set<AgentId>)
      returns (r: Outcome<nat>)
      requires Ready(request, runtime, unrecorded)
      requires existing.Some? ==> IsUserMessage(storage.tables, request.turn, existing.value)
      requires existing.None? ==> forall i :: !IsUserMessage(storage.tables, request.turn, i)
      modifies storage`tables, attempt`callsLeft
      ensures Ready(request, runtime, unrecorded)
      ensures Advanced(old(storage.tables), old(storage.journal), storage.tables, storage.journal, request.turn,
                       agents, {})
      ensures storage.tables == old(storage.tables).(messages := storage.tables.messages)
      ensures r.Done? ==> IsUserMessage(storage.tables, request.turn, r.value)
      ensures r.Done? && existing.None? ==>
                storage.tables.messages
                == old(storage.tables).messages
                   + [MessageRow(request.project, Some(request.turn), UserRole, request.message, None)]
      ensures r.Stopped? ==> r.reason == attempt.ending
    {
      hide Inv;
      NothingGrows(storage.tables, request.turn, agents);
      if existing.Some? {
        return Done(existing.value);
      }
      var _ :- attempt.Step();
      UserMessageKeepsInv(storage.tables, request, agents, limit);
      ghost var before := storage.tables;
      var stored := storage.InsertMessage(UserMessage(request));
      RecordedGrows(storage.journal, before, storage.tables, request.turn, agents);
      FinishesStay(storage.journal, before, storage.tables, limit);
      match stored
      case Ok(id) => return Done(id);
      case Err(error) => assert false; return Stopped(Refused(error));
    }

    /** Run the room once for the participants still asked for. */
    method Chat(request: Request, runtime: Runtime, signals: RoomSignals, existing: Option<nat>,
                ghost unrecorded: nat)
      returns (r: Outcome<RoomResult>)
      requires Ready(request, runtime, unrecorded) && limit >= 1 && request.participants != []
      requires existing.Some? ==> IsUserMessage(storage.tables, request.turn, existing.value)
      requires existing.None? ==> forall i :: !IsUserMessage(storage.tables, request.turn, i)
      requires forall a :: a in request.participants ==> !AgentIsFinished(storage.tables, request.turn, a)
      modifies storage`tables, storage`journal, attempt, report
      ensures Ready(request, runtime, unrecorded)
      ensures Advanced(old(storage.tables), old(storage.journal), storage.tables, storage.journal,
                       request.turn, AsSet(request.participants), Searchers(RunOrder(request, runtime, signals).1))
      ensures r.Done? ==> RoomDone(storage.tables, request, runtime, signals, r.value, limit)
      ensures r.Done? && signals.failures != [] && !signals.sourcesRead
              && RunOrder(request, runtime, signals).1.None? ==>
                storage.journal == old(storage.journal) && r.value == RoomResult([], [])
      ensures r.Stopped? ==> r.reason == attempt.ending || r.reason == OverBudget
    {
      hide Inv, JournalOk, Grows, JournalGrows, RunOrder, SpeakersDone, CountAdmitted, CountRequests;
      ghost var agents := AsSet(request.participants);
      ghost var x, jx := storage.tables, storage.journal;
      var (order, searcher) := RunOrder(request, runtime, signals);
      RunOrderPermutes(request, runtime, signals);
      assert AsSet(order) == agents;
      var prompted := UserMessageOf(request, runtime, existing, unrecorded, agents);
      AdvancedMore(x, jx, storage.tables, storage.journal, request.turn, agents, {}, agents, Searchers(searcher));
      var user :- prompted;
      if Skipped(signals, searcher) {
        return Done(RoomResult([], []));
      }
      ghost var y, jy := storage.tables, storage.journal;
      var ledger := new ExecutionLedger(storage, attempt, request, runtime, limit, report, unrecorded);
      var room := new RoomLog();
      NobodyFinished(x, y, request);
      var heard := RunSpeakers(ledger, room, order, searcher, signals.sourcesRead, user);
      assert Ready(request, runtime, unrecorded);
      AdvancedTransitive(x, jx, y, jy, storage.tables, storage.journal, request.turn, agents, Searchers(searcher));
      var _ :- heard;
      return Done(RoomResult(room.visible, room.failures));
    }

    lemma NobodyFinished(x: Tables, y: Tables, request: Request)
      requires forall a :: a in request.participants ==> !AgentIsFinished(x, request.turn, a)
      requires y.operations == x.operations
      ensures forall a :: a in request.participants ==> !AgentIsFinished(y, request.turn, a)
    {
    }

    method RunSpeakers(ledger: ExecutionLedger, room: RoomLog, order: seq<AgentId>, searcher: Option<AgentId>,
                       sourcesRead: bool, user: nat)
      returns (r: Outcome<()>)
      requires Uses(ledger) && ledger.Sound() && limit >= 1 && Distinct(order)
      requires searcher.Some? ==> order != [] && order[0] == searcher.value
      requires IsUserMessage(storage.tables, ledger.request.turn, user)
      requires forall a :: a in order ==> !AgentIsFinished(storage.tables, ledger.request.turn, a)
      requires room.visible == [] && room.failures == []
      modifies storage`tables, storage`journal, attempt, report, room, ledger
      ensures ledger.Sound()
      ensures Advanced(old(storage.tables), old(storage.journal), storage.tables, storage.journal,
                       ledger.request.turn, AsSet(order), Searchers(searcher))
      ensures r.Done? ==>
                SpeakersDone(storage.tables, ledger.request.turn, order, searcher, sourcesRead,
                             RoomResult(room.visible, room.failures), limit)
      ensures r.Stopped? ==> r.reason == attempt.ending || r.reason == OverBudget
    {
      hide Inv, JournalOk, RoomHeard, SpeechOk, Noted, BrokeOff, SpokenBy;
      ghost var t := ledger.request.turn;
      ghost var agents := AsSet(order);
      ghost var x, jx := storage.tables, storage.journal;
      NothingGrows(x, t, agents);
      var executor := new AgentTurnExecutor(storage, attempt, report, limit);
      ghost var speeches: seq<Speech> := [];
      NothingHeard(x, t, order, searcher, limit);
      for i := 0 to |order|
        invariant ledger.Sound() && |speeches| == i
        invariant Advanced(x, jx, storage.tables, storage.journal, t, agents, Searchers(searcher))
        invariant IsUserMessage(storage.tables, t, user)
        invariant forall j :: i <= j < |order| ==> !AgentIsFinished(storage.tables, t, order[j])
        invariant RoomHeard(storage.tables, t, order, speeches, searcher, RoomResult(room.visible, room.failures),
                            limit)
        invariant !WithoutEvidence(sourcesRead, speeches)
      {
        ghost var y, jy := storage.tables, storage.journal;
        ghost var before := RoomResult(room.visible, room.failures);
        var ran := executor.Run(ledger, room, order[i], searcher, user);
        AdvancedMore(y, jy, storage.tables, storage.journal, t, {order[i]},
                     SearchersOf(order[i], searcher == Some(order[i])), agents, Searchers(searcher));
        AdvancedTransitive(x, jx, y, jy, storage.tables, storage.journal, t, agents, Searchers(searcher));
        var speech :- ran;
        NextSpeech(y, storage.tables, t, order, speeches, speech, searcher, before,
                   RoomResult(room.visible, room.failures), limit);
        OthersUnfinished(y, storage.tables, t, order, i);
        speeches := speeches + [speech];
        if (speech.status == SearchFailed || speech.status == SearchUncited) && !sourcesRead {
          assert i == 0 && WithoutEvidence(sourcesRead, speeches);
          return Done(());
        }
      }
      return Done(());
    }

    lemma OthersUnfinished(x: Tables, y: Tables, t: TurnId, order: seq<AgentId>, i: nat)
      requires i < |order| && Distinct(order) && Grows(x, y, t, {order[i]})
      requires forall j :: i <= j < |order| ==> !AgentIsFinished(x, t, order[j])
      ensures forall j :: i < j < |order| ==> !AgentIsFinished(y, t, order[j])
    {
    }
  }
}
