/** Every schedule: any sequence of submissions, resumes, acceptances, restarts and prunings, each
    attempt ending wherever and however it likes. */
module Schedules {
  import opened Records
  import opened Steps
  import opened Invariant
  import opened TurnLemmas
  import opened Journal
  import opened Storage
  import opened Speakers
  import opened Orchestration
  import opened Turns
  import opened Guarantees

  datatype Action =
    | Submit(request: Request, runtime: Runtime, fate: Fate)
    | Resume(project: ProjectId, turn: TurnId, fate: Fate)
    | Accept(turn: TurnId)
    | Restart
    | Prune(stale: set<TurnId>)

  /** What the attempt meets: how long it lasts, how it ends, what providers answer, what the room sees. */
  datatype Fate = Fate(callsLeft: nat, ending: Stop, answers: seq<Answer>, signals: RoomSignals)

  /** An attempt may be killed, cancelled, or raise anything; it cannot choose to be refused. */
  predicate Possible(action: Action) {
    (action.Submit? || action.Resume?) ==> !action.fate.ending.Refused?
  }

  predicate Targets(action: Action, t: TurnId) {
    match action
    case Submit(request, _, _) => request.turn == t
    case Resume(_, turn, _) => turn == t
    case _ => false
  }

  /** Everyone the turn was submitted for is finished, and stays so in the history when operations are pruned. */
  ghost predicate EveryoneDone(journal: seq<Event>, db: Tables, t: TurnId) {
    && t in db.turns && db.turns[t].request.Some?
    && forall a :: a in db.turns[t].request.value.participants ==> EndRecorded(journal, t, a)
  }

  // -- one action ----------------------------------------------------------------------------

  /** Only an attempt at the turn admits requests for it, and only a killed one loses them. */
  ghost predicate Counted(jx: seq<Event>, lost: map<TurnId, nat>, jy: seq<Event>, lostNow: map<TurnId, nat>,
                          action: Action, reply: Option<TurnReply>, granted: nat)
  {
    forall t ::
      && CountAdmitted(jy, t) == CountAdmitted(jx, t) + (if Targets(action, t) then granted else 0)
      && Lost(lostNow, t)
         == Lost(lost, t) + (if Targets(action, t) && reply == Some(Died(Killed)) then granted else 0)
  }

  /** An answer is dropped only where a failed page let its agent search; a turn is completed whole, unless
      its attempt read no page. */
  ghost predicate Explained(x: Tables, jx: seq<Event>, y: Tables, jy: seq<Event>, action: Action) {
    && (forall t, a :: AgentDone(t, a, true) in jy && AgentDone(t, a, true) !in jx ==>
          Targets(action, t) && MayFallBack(action.fate.signals))
    && (forall t :: t in NewlyCompleted(x, y) ==>
          EveryoneDone(jy, y, t) || (Targets(action, t) && NoPageRead(action.fate.signals)))
  }

  lemma AttemptCounted(x: Tables, jx: seq<Event>, lost: map<TurnId, nat>, y: Tables, jy: seq<Event>,
                       lostNow: map<TurnId, nat>, t: TurnId, agents: set<AgentId>, searchers: set<AgentId>,
                       action: Action, reply: TurnReply, max: nat)
    requires Attempted(x, jx, y, jy, t, agents, searchers)
    requires LossStated(lost, lostNow, jx, jy, max, t, reply == Died(Killed)) && Lost(lost, t) <= CountAdmitted(jx, t)
    requires forall o :: Targets(action, o) <==> o == t
    ensures CountAdmitted(jx, t) <= CountAdmitted(jy, t) <= CountAdmitted(jx, t) + max
    ensures Counted(jx, lost, jy, lostNow, action, Some(reply), CountAdmitted(jy, t) - CountAdmitted(jx, t))
    ensures DurableStep(x, y) && jx <= jy
  {
    forall o
      ensures CountAdmitted(jy, o) >= CountAdmitted(jx, o)
      ensures o != t ==> CountAdmitted(jy, o) == CountAdmitted(jx, o)
    {
      CountsOfOthers(jx, jy, t, agents, searchers, o);
    }
  }

  lemma DropsExplained(x: Tables, jx: seq<Event>, y: Tables, jy: seq<Event>, payload: Request, runtime: Runtime,
                       resume: bool, action: Action)
    requires Targets(action, payload.turn)
    requires JournalGrows(jx, jy, payload.turn, MayAsk(x, payload, resume),
                          AttemptSearchers(x, payload, runtime, action.fate.signals, resume))
    ensures forall t, a :: AgentDone(t, a, true) in jy && AgentDone(t, a, true) !in jx ==>
              Targets(action, t) && MayFallBack(action.fate.signals)
  {
    forall t, a | AgentDone(t, a, true) in jy && AgentDone(t, a, true) !in jx
      ensures Targets(action, t) && MayFallBack(action.fate.signals)
    {
      var i :| 0 <= i < |jy| && jy[i] == AgentDone(t, a, true);
      assert i >= |jx| && Concerns(jy[i], payload.turn, MayAsk(x, payload, resume),
                                   AttemptSearchers(x, payload, runtime, action.fate.signals, resume));
    }
  }

  lemma WholeIsDone(journal: seq<Event>, db: Tables, t: TurnId, limit: nat)
    requires JournalOk(journal, db, limit) && Whole(db, t)
    ensures EveryoneDone(journal, db, t)
  {
    forall a | a in db.turns[t].request.value.participants ensures EndRecorded(journal, t, a) {
      assert AgentIsFinished(db, t, a);
    }
  }

  lemma AttemptExplained(x: Tables, jx: seq<Event>, y: Tables, jy: seq<Event>, payload: Request, runtime: Runtime,
                         resume: bool, action: Action, limit: nat)
    requires JournalOk(jy, y, limit) && Targets(action, payload.turn)
    requires forall o :: Targets(action, o) <==> o == payload.turn
    requires Attempted(x, jx, y, jy, payload.turn, MayAsk(x, payload, resume),
                       AttemptSearchers(x, payload, runtime, action.fate.signals, resume))
    requires payload.turn in NewlyCompleted(x, y) ==>
               exists result :: TurnAnswered(x, y, payload, runtime, action.fate.signals, resume, result, limit)
    ensures Explained(x, jx, y, jy, action)
  {
    hide RoomAnswer, Grows, TurnsStep, JournalGrows, JournalOk, Whole, EveryoneDone, MayAsk, AttemptSearchers,
         AttemptRequest, AttemptRuntime;
    DropsExplained(x, jx, y, jy, payload, runtime, resume, action);
    if payload.turn in NewlyCompleted(x, y) && Whole(y, payload.turn) {
      WholeIsDone(jy, y, payload.turn, limit);
    }
  }

  method Perform(service: TurnService, action: Action) returns (r: Option<TurnReply>, ghost granted: nat)
    requires service.Valid() && Possible(action)
    modifies service.storage
    ensures service.Valid()
    ensures DurableStep(old(service.storage.tables), service.storage.tables)
    ensures old(service.storage.journal) <= service.storage.journal
    ensures Counted(old(service.storage.journal), old(service.storage.lost), service.storage.journal,
                    service.storage.lost, action, r, granted)
    ensures granted <= service.maxRequests
    ensures Explained(old(service.storage.tables), old(service.storage.journal), service.storage.tables,
                      service.storage.journal, action)
    ensures r.Some? && r.value.Died? ==> !r.value.reason.Refused?
  {
    var storage := service.storage;
    granted := 0;
    match action {
      case Submit(request, runtime, fate) =>
        var reply, n := PerformAttempt(service, action, request, runtime, false, fate);
        return Some(reply), n;
      case Resume(project, turn, fate) =>
        var payload := Request(turn, project, "", [], "");
        var reply, n := PerformAttempt(service, action, payload, Runtime(map[], map[]), true, fate);
        return Some(reply), n;
      case Accept(turn) =>
        var _ := service.Resolve(turn);
      case Restart =>
        service.Restart();
      case Prune(stale) =>
        service.Prune(stale);
    }
    return None, 0;
  }

  /** A submission or a resume, which one attempt carries out. */
  method PerformAttempt(service: TurnService, action: Action, payload: Request, runtime: Runtime, resume: bool,
                        fate: Fate)
    returns (r: TurnReply, ghost granted: nat)
    requires service.Valid() && !fate.ending.Refused?
    requires forall o :: Targets(action, o) <==> o == payload.turn
    requires action.Submit? || action.Resume?
    requires action.fate == fate
    modifies service.storage
    ensures service.Valid()
    ensures DurableStep(old(service.storage.tables), service.storage.tables)
    ensures old(service.storage.journal) <= service.storage.journal
    ensures Counted(old(service.storage.journal), old(service.storage.lost), service.storage.journal,
                    service.storage.lost, action, Some(r), granted)
    ensures granted <= service.maxRequests
    ensures Explained(old(service.storage.tables), old(service.storage.journal), service.storage.tables,
                      service.storage.journal, action)
    ensures r.Died? ==> !r.reason.Refused?
  {
    hide Inv, JournalOk, BudgetsOk, Attempted, TurnAnswered, LossStated, Explained, Counted, MayAsk, AttemptSearchers;
    ghost var x, jx, lost := service.storage.tables, service.storage.journal, service.storage.lost;
    var attempt := new Attempt(fate.callsLeft, fate.ending, fate.answers);
    r := service.Execute(payload, runtime, resume, attempt, fate.signals);
    ghost var y, jy := service.storage.tables, service.storage.journal;
    ghost var agents := MayAsk(x, payload, resume);
    ghost var searchers := AttemptSearchers(x, payload, runtime, fate.signals, resume);
    WithinItsBudget(jx, x, lost, service.maxRequests, payload.turn);
    AttemptCounted(x, jx, lost, y, jy, service.storage.lost, payload.turn, agents, searchers, action, r,
                   service.maxRequests);
    AttemptExplained(x, jx, y, jy, payload, runtime, resume, action, service.limit);
    granted := CountAdmitted(jy, payload.turn) - CountAdmitted(jx, payload.turn);
  }

  // -- whole schedules -----------------------------------------------------------------------

  /** The requests granted to the first `n` actions for this turn. */
  function GrantedTo(actions: seq<Action>, granted: seq<nat>, n: nat, t: TurnId): nat
    requires n <= |actions| && n <= |granted|
  {
    if n == 0 then 0
    else GrantedTo(actions, granted, n - 1, t) + if Targets(actions[n - 1], t) then granted[n - 1] else 0
  }

  /** Those of them granted to attempts that were killed. */
  function LostIn(actions: seq<Action>, replies: seq<Option<TurnReply>>, granted: seq<nat>, n: nat, t: TurnId): nat
    requires n <= |actions| && n <= |granted| && n <= |replies|
  {
    if n == 0 then 0
    else
      LostIn(actions, replies, granted, n - 1, t)
      + if KilledAt(actions, replies, n - 1, t) then granted[n - 1] else 0
  }

  predicate KilledAt(actions: seq<Action>, replies: seq<Option<TurnReply>>, i: nat, t: TurnId)
    requires i < |actions| && i < |replies|
  {
    Targets(actions[i], t) && replies[i] == Some(Died(Killed))
  }

  lemma {:induction false} NothingLost(actions: seq<Action>, replies: seq<Option<TurnReply>>, granted: seq<nat>,
                                       n: nat, t: TurnId)
    requires n <= |actions| && n <= |granted| && n <= |replies|
    requires forall i :: 0 <= i < n ==> !KilledAt(actions, replies, i, t)
    ensures LostIn(actions, replies, granted, n, t) == 0
  {
    if n > 0 {
      NothingLost(actions, replies, granted, n - 1, t);
    }
  }

  lemma {:induction false} SumsExtended(actions: seq<Action>, replies: seq<Option<TurnReply>>, granted: seq<nat>,
                                        reply: Option<TurnReply>, more: nat, n: nat, t: TurnId)
    requires n <= |actions| && n <= |granted| && n <= |replies|
    ensures GrantedTo(actions, granted + [more], n, t) == GrantedTo(actions, granted, n, t)
    ensures LostIn(actions, replies + [reply], granted + [more], n, t) == LostIn(actions, replies, granted, n, t)
  {
    if n > 0 {
      SumsExtended(actions, replies, granted, reply, more, n - 1, t);
    }
  }

  /** The accounts of all turns after the first actions. */
  ghost predicate Accounts(jx: seq<Event>, lost: map<TurnId, nat>, jy: seq<Event>, lostNow: map<TurnId, nat>,
                           actions: seq<Action>, replies: seq<Option<TurnReply>>, granted: seq<nat>)
    requires |replies| == |granted| <= |actions|
  {
    forall t ::
      && CountAdmitted(jy, t) == CountAdmitted(jx, t) + GrantedTo(actions, granted, |granted|, t)
      && Lost(lostNow, t) == Lost(lost, t) + LostIn(actions, replies, granted, |granted|, t)
  }

  lemma NextAccounts(jx: seq<Event>, lost: map<TurnId, nat>, jy: seq<Event>, lostThen: map<TurnId, nat>,
                     jz: seq<Event>, lostNow: map<TurnId, nat>, actions: seq<Action>,
                     replies: seq<Option<TurnReply>>, granted: seq<nat>, reply: Option<TurnReply>, more: nat)
    requires |replies| == |granted| < |actions|
    requires Accounts(jx, lost, jy, lostThen, actions, replies, granted)
    requires Counted(jy, lostThen, jz, lostNow, actions[|granted|], reply, more)
    ensures Accounts(jx, lost, jz, lostNow, actions, replies + [reply], granted + [more])
  {
    forall t
      ensures CountAdmitted(jz, t) == CountAdmitted(jx, t) + GrantedTo(actions, granted + [more], |granted| + 1, t)
      ensures Lost(lostNow, t) == Lost(lost, t) + LostIn(actions, replies + [reply], granted + [more], |granted| + 1, t)
    {
      SumsExtended(actions, replies, granted, reply, more, |granted|, t);
    }
  }

  /** No turn is granted more requests than a room may make, but for those its own killed attempts took. */
  lemma EveryTurnWithinBudget(journal: seq<Event>, db: Tables, lost: map<TurnId, nat>, max: nat,
                              initial: map<TurnId, nat>, jx: seq<Event>, actions: seq<Action>,
                              replies: seq<Option<TurnReply>>, granted: seq<nat>)
    requires BudgetsOk(journal, db, lost, max) && |replies| == |granted| == |actions|
    requires Accounts(jx, initial, journal, lost, actions, replies, granted)
    ensures forall t ::
              && Lost(lost, t) <= CountAdmitted(journal, t) <= max + Lost(lost, t)
              && ((forall i :: 0 <= i < |actions| ==> !KilledAt(actions, replies, i, t)) ==>
                    Lost(lost, t) == Lost(initial, t))
  {
    forall t
      ensures Lost(lost, t) <= CountAdmitted(journal, t) <= max + Lost(lost, t)
      ensures (forall i :: 0 <= i < |actions| ==> !KilledAt(actions, replies, i, t)) ==>
                Lost(lost, t) == Lost(initial, t)
    {
      WithinItsBudget(journal, db, lost, max, t);
      if forall i :: 0 <= i < |actions| ==> !KilledAt(actions, replies, i, t) {
        NothingLost(actions, replies, granted, |actions|, t);
      }
    }
  }

  lemma HistoryIsOrdered(journal: seq<Event>, db: Tables, limit: nat)
    requires JournalOk(journal, db, limit)
    ensures OnceOverTheRun(journal)
  {
    OrderedMeansOnce(journal);
  }

  lemma NothingYet(db: Tables, journal: seq<Event>, lost: map<TurnId, nat>, actions: seq<Action>)
    ensures Accounts(journal, lost, journal, lost, actions, [], [])
    ensures ExplainedBy(db, journal, db, journal, actions, 0)
  {
  }

  /** What happened to turns and answers in the first `n` actions has its reason among them. */
  ghost predicate ExplainedBy(x: Tables, jx: seq<Event>, y: Tables, jy: seq<Event>, actions: seq<Action>, n: nat)
    requires n <= |actions|
  {
    && (forall t, a :: AgentDone(t, a, true) in jy && AgentDone(t, a, true) !in jx ==>
          exists i :: 0 <= i < n && Targets(actions[i], t) && MayFallBack(actions[i].fate.signals))
    && (forall t :: t in NewlyCompleted(x, y) ==>
          EveryoneDone(jy, y, t)
          || exists i :: 0 <= i < n && Targets(actions[i], t) && NoPageRead(actions[i].fate.signals))
  }

  lemma NextExplained(x: Tables, jx: seq<Event>, y: Tables, jy: seq<Event>, z: Tables, jz: seq<Event>,
                      actions: seq<Action>, n: nat)
    requires n < |actions| && ExplainedBy(x, jx, y, jy, actions, n) && Explained(y, jy, z, jz, actions[n])
    requires TurnsStep(y, z) && jy <= jz
    ensures ExplainedBy(x, jx, z, jz, actions, n + 1)
  {
    forall t, a | AgentDone(t, a, true) in jz && AgentDone(t, a, true) !in jx
      ensures exists i :: 0 <= i < n + 1 && Targets(actions[i], t) && MayFallBack(actions[i].fate.signals)
    {
      if AgentDone(t, a, true) !in jy {
        assert Targets(actions[n], t) && MayFallBack(actions[n].fate.signals);
      }
    }
    forall t | t in NewlyCompleted(x, z) && !EveryoneDone(jz, z, t)
      ensures exists i :: 0 <= i < n + 1 && Targets(actions[i], t) && NoPageRead(actions[i].fate.signals)
    {
      if t in NewlyCompleted(y, z) {
        assert Targets(actions[n], t) && NoPageRead(actions[n].fate.signals);
      } else {
        assert t in NewlyCompleted(x, y) && !EveryoneDone(jy, y, t);
      }
    }
  }

  /** Whatever the schedule: the durable state stays sound; no attempt is refused by the ledger; ended
      turns keep their result; no beat is asked for once stored; a turn without killed attempts stays
      within its request budget, and killed ones exceed it by what they were granted at most; a completed
      turn heard everyone unless no page of its could be read; and only a search for a failed page's
      replacement is dropped. */
  method RunSchedule(service: TurnService, actions: seq<Action>)
    returns (replies: seq<Option<TurnReply>>, ghost granted: seq<nat>)
    requires service.Valid() && forall i :: 0 <= i < |actions| ==> Possible(actions[i])
    modifies service.storage
    ensures service.Valid()
    ensures DurableStep(old(service.storage.tables), service.storage.tables)
    ensures old(service.storage.journal) <= service.storage.journal && OnceOverTheRun(service.storage.journal)
    ensures |replies| == |granted| == |actions|
    ensures forall i :: 0 <= i < |replies| && replies[i].Some? && replies[i].value.Died? ==>
              !replies[i].value.reason.Refused?
    ensures forall i :: 0 <= i < |granted| ==> granted[i] <= service.maxRequests
    ensures Accounts(old(service.storage.journal), old(service.storage.lost), service.storage.journal,
                     service.storage.lost, actions, replies, granted)
    ensures forall t ::
              && Lost(service.storage.lost, t)
                 <= CountAdmitted(service.storage.journal, t)
                 <= service.maxRequests + Lost(service.storage.lost, t)
              && ((forall i :: 0 <= i < |actions| ==> !KilledAt(actions, replies, i, t)) ==>
                    Lost(service.storage.lost, t) == Lost(old(service.storage.lost), t))
    ensures ExplainedBy(old(service.storage.tables), old(service.storage.journal), service.storage.tables,
                        service.storage.journal, actions, |actions|)
  {
    hide Inv, JournalOk, BudgetsOk, Counted, Explained, ExplainedBy, Accounts, OnceOverTheRun;
    ghost var x, jx, lost := service.storage.tables, service.storage.journal, service.storage.lost;
    replies, granted := [], [];
    NothingYet(x, jx, lost, actions);
    for i := 0 to |actions|
      invariant service.Valid() && |replies| == |granted| == i
      invariant DurableStep(x, service.storage.tables) && jx <= service.storage.journal
      invariant forall j :: 0 <= j < |replies| && replies[j].Some? && replies[j].value.Died? ==>
                  !replies[j].value.reason.Refused?
      invariant forall j :: 0 <= j < |granted| ==> granted[j] <= service.maxRequests
      invariant Accounts(jx, lost, service.storage.journal, service.storage.lost, actions, replies, granted)
      invariant ExplainedBy(x, jx, service.storage.tables, service.storage.journal, actions, i)
    {
      ghost var y, jy, lostThen := service.storage.tables, service.storage.journal, service.storage.lost;
      var reply, more := Perform(service, actions[i]);
      TurnsStepTransitive(x, y, service.storage.tables);
      NextAccounts(jx, lost, jy, lostThen, service.storage.journal, service.storage.lost, actions, replies, granted,
                   reply, more);
      NextExplained(x, jx, y, jy, service.storage.tables, service.storage.journal, actions, i);
      replies, granted := replies + [reply], granted + [more];
    }
    EveryTurnWithinBudget(service.storage.journal, service.storage.tables, service.storage.lost, service.maxRequests,
                          lost, jx, actions, replies, granted);
    HistoryIsOrdered(service.storage.journal, service.storage.tables, service.limit);
  }
}
