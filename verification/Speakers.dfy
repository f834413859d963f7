/** Who speaks, in which order, and who may answer by searching. */
module Speakers {
  import opened Records

  predicate Distinct(ids: seq<AgentId>) {
    forall i, j :: 0 <= i < j < |ids| ==> ids[i] != ids[j]
  }

  function Keep(ids: seq<AgentId>, kept: set<AgentId>): (r: seq<AgentId>)
    ensures forall a :: a in r <==> a in ids && a in kept
    ensures Distinct(ids) ==> Distinct(r)
  {
    if ids == [] then []
    else
      var rest := Keep(ids[1..], kept);
      if ids[0] in kept then [ids[0]] + rest else rest
  }

  function AsSet(ids: seq<AgentId>): set<AgentId> {
    set a | a in ids
  }

  lemma EveryAgentListed()
    ensures forall a: AgentId :: a in AGENT_IDS
  {
    forall a: AgentId ensures a in AGENT_IDS {
      assert a == AGENT_IDS[0] || a == AGENT_IDS[1] || a == AGENT_IDS[2];
    }
  }

  /** The participants in canonical order. */
  function Participants(requested: seq<AgentId>): (r: seq<AgentId>)
    ensures forall a :: a in r <==> a in requested
    ensures Distinct(r)
  {
    EveryAgentListed();
    Keep(AGENT_IDS, AsSet(requested))
  }

  /** What the message and the earlier messages say about this room run; the text search that finds
      it is not modelled. */
  datatype RoomSignals = RoomSignals(
    named: set<AgentId>,               // agents whose alias occurs in the message
    detected: bool,                    // the message asks for online information
    allRequested: bool,                // it asks for it from everyone
    scores: map<AgentId, nat>,         // how well each agent's terms match it
    lastSpeaker: Option<AgentId>,      // the last agent heard in the room
    sourcesRead: bool,                 // some supplied page was retrieved
    failures: seq<bool>,               // each failed page, and whether search may stand in for it
    fallbackEnabled: bool,
    searchable: set<string>)           // providers that declare web search

  datatype SearchDecision = SearchDecision(needsSearch: bool, lead: Option<AgentId>)

  function Score(scores: map<AgentId, nat>, a: AgentId): nat {
    if a in scores then scores[a] else 0
  }

  /** The first of the best scoring participants. */
  function SelectLead(scores: map<AgentId, nat>, participants: seq<AgentId>): (lead: AgentId)
    requires participants != []
    ensures lead in participants
    ensures forall a :: a in participants ==> Score(scores, a) <= Score(scores, lead)
    ensures forall i :: 0 <= i < IndexOf(participants, lead) ==>
              Score(scores, participants[i]) < Score(scores, lead)
  {
    if |participants| == 1 then participants[0]
    else
      var rest := SelectLead(scores, participants[1..]);
      if Score(scores, participants[0]) >= Score(scores, rest) then participants[0] else rest
  }

  function Decide(mode: string, signals: RoomSignals, participants: seq<AgentId>): (d: SearchDecision)
    ensures d.lead.Some? && participants != [] ==> d.lead.value in participants
    ensures d.lead.Some? ==> d.needsSearch
  {
    if mode == "off" then SearchDecision(false, None)
    else if !signals.detected && mode != "lead" && mode != "all" then SearchDecision(false, None)
    else if mode == "all" || signals.allRequested then SearchDecision(true, None)
    else
      SearchDecision(true, Some(SelectLead(signals.scores, if participants == [] then AGENT_IDS else participants)))
  }

  function FirstNamed(ids: seq<AgentId>, named: set<AgentId>): (r: Option<AgentId>)
    ensures r.Some? ==> r.value in ids && r.value in named
  {
    if ids == [] then None
    else if ids[0] in named then Some(ids[0])
    else FirstNamed(ids[1..], named)
  }

  function IndexOf(ids: seq<AgentId>, a: AgentId): (i: nat)
    requires a in ids
    ensures i < |ids| && ids[i] == a
  {
    if ids[0] == a then 0 else 1 + IndexOf(ids[1..], a)
  }

  function ToFront(first: AgentId, ids: seq<AgentId>): seq<AgentId> {
    [first] + Keep(ids, AsSet(ids) - {first})
  }

  function FirstToSpeak(signals: RoomSignals, selected: seq<AgentId>, decision: SearchDecision): AgentId
    requires selected != []
  {
    var explicit := FirstNamed(selected, signals.named);
    if explicit.Some? then explicit.value
    else if decision.lead.Some? then decision.lead.value
    else if signals.lastSpeaker.Some? && signals.lastSpeaker.value in selected then
      selected[(IndexOf(selected, signals.lastSpeaker.value) + 1) % |selected|]
    else selected[0]
  }

  function SpeakerOrder(signals: RoomSignals, participants: seq<AgentId>, decision: SearchDecision): seq<AgentId> {
    var selected := if participants == [] then AGENT_IDS else participants;
    ToFront(FirstToSpeak(signals, selected, decision), selected)
  }

  /** Some page failed in a way a search may stand in for. */
  predicate MayFallBack(signals: RoomSignals) {
    true in signals.failures && signals.fallbackEnabled
  }

  /** The first speaker whose provider can search, when a page failed in a way search may replace. */
  function SelectSearchFallback(signals: RoomSignals, decision: SearchDecision, order: seq<AgentId>,
                                runtime: Runtime): (r: Option<AgentId>)
    ensures r.Some? ==> r.value in order && decision.needsSearch && MayFallBack(signals)
  {
    if !decision.needsSearch || !MayFallBack(signals) then None
    else
      FirstNamed(order, set a | a in order && a in runtime.providers
                                && runtime.providers[a] in signals.searchable)
  }

  /** The order a room run drives its agents in, and the search agent if there is one. */
  function RunOrder(request: Request, runtime: Runtime, signals: RoomSignals): (seq<AgentId>, Option<AgentId>) {
    var participants := Participants(request.participants);
    var decision := Decide(request.researchMode, signals, participants);
    var order := SpeakerOrder(signals, participants, decision);
    var searcher := SelectSearchFallback(signals, decision, order, runtime);
    if searcher.Some? && order[0] != searcher.value then (ToFront(searcher.value, order), searcher)
    else (order, searcher)
  }

  lemma ToFrontPermutes(first: AgentId, ids: seq<AgentId>)
    requires Distinct(ids) && first in ids
    ensures Distinct(ToFront(first, ids))
    ensures forall a :: a in ToFront(first, ids) <==> a in ids
  {
  }

  /** Whatever the signals, the run drives each participant exactly once, fallback reordering
      included; and the search agent, if any, speaks first. */
  lemma RunOrderPermutes(request: Request, runtime: Runtime, signals: RoomSignals)
    requires request.participants != []
    ensures var (order, searcher) := RunOrder(request, runtime, signals);
            && Distinct(order)
            && (forall a :: a in order <==> a in request.participants)
            && (searcher.Some? ==> order != [] && order[0] == searcher.value && MayFallBack(signals))
  {
    var participants := Participants(request.participants);
    assert request.participants[0] in participants;
    var decision := Decide(request.researchMode, signals, participants);
    var order := SpeakerOrder(signals, participants, decision);
    assert order[0] in participants;
    ToFrontPermutes(order[0], participants);
    var searcher := SelectSearchFallback(signals, decision, order, runtime);
    if searcher.Some? {
      ToFrontPermutes(searcher.value, order);
    }
  }

  // -- who speaks, said of the request and what it meets -------------------------------------

  function Rank(a: AgentId): nat {
    match a
    case AgentA => 0
    case AgentB => 1
    case AgentC => 2
  }

  predicate Ranked(ids: seq<AgentId>) {
    forall i, j :: 0 <= i < j < |ids| ==> Rank(ids[i]) < Rank(ids[j])
  }

  predicate FirstOf(a: AgentId, among: set<AgentId>) {
    a in among && forall b :: b in among ==> Rank(a) <= Rank(b)
  }

  function Later(ids: set<AgentId>, last: AgentId): set<AgentId> {
    set b | b in ids && Rank(b) > Rank(last)
  }

  /** The mode allows searching, and it or the message asks for it. */
  predicate SearchNeeded(request: Request, signals: RoomSignals) {
    || request.researchMode == "lead" || request.researchMode == "all"
    || (request.researchMode != "off" && signals.detected)
  }

  /** The named participant; or the one who fits the search best; or the one after the last speaker; or
      the first. Ties go by canonical order. */
  predicate SpeaksFirst(request: Request, signals: RoomSignals, a: AgentId) {
    var asked := AsSet(request.participants);
    if asked * signals.named != {} then FirstOf(a, asked * signals.named)
    else if SearchNeeded(request, signals) && request.researchMode != "all" && !signals.allRequested then
      && a in asked
      && forall b :: b in asked ==>
           Score(signals.scores, b) < Score(signals.scores, a)
           || (Score(signals.scores, b) == Score(signals.scores, a) && Rank(a) <= Rank(b))
    else if signals.lastSpeaker.Some? && signals.lastSpeaker.value in asked then
      var later := Later(asked, signals.lastSpeaker.value);
      FirstOf(a, if later != {} then later else asked)
    else FirstOf(a, asked)
  }

  /** The participants whose provider declares web search. */
  function AbleToSearch(request: Request, runtime: Runtime, signals: RoomSignals): set<AgentId> {
    set a | a in request.participants && a in runtime.providers && runtime.providers[a] in signals.searchable
  }

  /** A search agent is needed and there is one: the first to speak if it is able, or else the first able. */
  predicate SearchesInstead(request: Request, runtime: Runtime, signals: RoomSignals, first: AgentId, a: AgentId) {
    var able := AbleToSearch(request, runtime, signals);
    && SearchNeeded(request, signals) && true in signals.failures && signals.fallbackEnabled
    && if first in able then a == first else FirstOf(a, able)
  }

  lemma {:induction false} KeepRanked(ids: seq<AgentId>, kept: set<AgentId>)
    requires Ranked(ids)
    ensures Ranked(Keep(ids, kept))
  {
    if ids != [] {
      KeepRanked(ids[1..], kept);
      forall a | a in Keep(ids[1..], kept) ensures Rank(ids[0]) < Rank(a) {
        var k :| 0 <= k < |ids[1..]| && ids[1..][k] == a;
        assert a == ids[k + 1];
      }
    }
  }

  lemma ParticipantsRanked(requested: seq<AgentId>)
    ensures Ranked(Participants(requested)) && AsSet(Participants(requested)) == AsSet(requested)
  {
    KeepRanked(AGENT_IDS, AsSet(requested));
  }

  lemma {:induction false} FirstNamedIsFirst(ids: seq<AgentId>, named: set<AgentId>)
    requires Ranked(ids)
    ensures match FirstNamed(ids, named)
            case Some(a) => FirstOf(a, AsSet(ids) * named)
            case None => AsSet(ids) * named == {}
  {
    if ids != [] && ids[0] !in named {
      FirstNamedIsFirst(ids[1..], named);
      assert AsSet(ids) == AsSet(ids[1..]) + {ids[0]};
    } else if ids != [] {
      forall b | b in AsSet(ids) ensures Rank(ids[0]) <= Rank(b) {
        var k :| 0 <= k < |ids| && ids[k] == b;
      }
    }
  }

  lemma LeadIsBest(scores: map<AgentId, nat>, ids: seq<AgentId>)
    requires Ranked(ids) && ids != []
    ensures var a := SelectLead(scores, ids);
            forall b :: b in ids ==>
              Score(scores, b) < Score(scores, a) || (Score(scores, b) == Score(scores, a) && Rank(a) <= Rank(b))
  {
    var a := SelectLead(scores, ids);
    forall b | b in ids
      ensures Score(scores, b) < Score(scores, a) || (Score(scores, b) == Score(scores, a) && Rank(a) <= Rank(b))
    {
      var k :| 0 <= k < |ids| && ids[k] == b;
      assert k >= IndexOf(ids, a) || Score(scores, ids[k]) < Score(scores, a);
    }
  }

  lemma LowestFirst(ids: seq<AgentId>)
    requires Ranked(ids) && ids != []
    ensures FirstOf(ids[0], AsSet(ids))
  {
    forall b | b in AsSet(ids) ensures Rank(ids[0]) <= Rank(b) {
      var k :| 0 <= k < |ids| && ids[k] == b;
    }
  }

  lemma WrapsAround(i: nat, n: nat)
    requires i < n
    ensures (i + 1) % n == if i + 1 < n then i + 1 else 0
  {
  }

  lemma NextIsNext(ids: seq<AgentId>, last: AgentId)
    requires Ranked(ids) && last in ids
    ensures FirstOf(ids[(IndexOf(ids, last) + 1) % |ids|],
                    if Later(AsSet(ids), last) != {} then Later(AsSet(ids), last) else AsSet(ids))
  {
    hide IndexOf, Rank;
    var later := Later(AsSet(ids), last);
    var i := IndexOf(ids, last);
    LowestFirst(ids);
    WrapsAround(i, |ids|);
    forall b | b in later ensures i + 1 < |ids| && Rank(ids[i + 1]) <= Rank(b) {
      var k :| 0 <= k < |ids| && ids[k] == b;
      assert k > i;
    }
    if i + 1 < |ids| {
      assert ids[i + 1] in later;
    } else {
      assert later == {};
    }
  }

  lemma FirstSpeaks(request: Request, signals: RoomSignals, participants: seq<AgentId>)
    requires Ranked(participants) && participants != [] && AsSet(participants) == AsSet(request.participants)
    ensures SpeaksFirst(request, signals,
                        FirstToSpeak(signals, participants, Decide(request.researchMode, signals, participants)))
  {
    hide FirstNamed, SelectLead, IndexOf, Score, Rank, Ranked, Later;
    assert forall a :: a in participants <==> a in AsSet(participants);
    FirstNamedIsFirst(participants, signals.named);
    LeadIsBest(signals.scores, participants);
    LowestFirst(participants);
    if signals.lastSpeaker.Some? && signals.lastSpeaker.value in participants {
      NextIsNext(participants, signals.lastSpeaker.value);
    }
  }

  lemma FirstSpeaker(request: Request, signals: RoomSignals)
    requires request.participants != []
    ensures var participants := Participants(request.participants);
            var order := SpeakerOrder(signals, participants, Decide(request.researchMode, signals, participants));
            && SpeaksFirst(request, signals, order[0])
            && order == [order[0]] + Keep(participants, AsSet(participants) - {order[0]})
  {
    hide SpeaksFirst, FirstToSpeak, Decide, Participants;
    var participants := Participants(request.participants);
    ParticipantsRanked(request.participants);
    assert request.participants[0] in participants;
    FirstSpeaks(request, signals, participants);
  }

  lemma SearcherIs(request: Request, runtime: Runtime, signals: RoomSignals, first: AgentId, others: seq<AgentId>)
    requires Ranked(others) && AsSet([first] + others) == AsSet(request.participants)
    ensures var decision := Decide(request.researchMode, signals, Participants(request.participants));
            match SelectSearchFallback(signals, decision, [first] + others, runtime)
            case Some(a) => SearchesInstead(request, runtime, signals, first, a)
            case None => forall a :: a in request.participants ==> !SearchesInstead(request, runtime, signals, first, a)
  {
    var order := [first] + others;
    var able := set a | a in order && a in runtime.providers && runtime.providers[a] in signals.searchable;
    assert able == AbleToSearch(request, runtime, signals) by {
      assert forall a :: a in order <==> a in AsSet(order);
      assert forall a :: a in request.participants <==> a in AsSet(request.participants);
    }
    assert order[0] == first && order[1..] == others;
    FirstNamedIsFirst(others, able);
    if first !in able {
      assert AsSet(others) * able == able by {
        assert AsSet(order) == AsSet(others) + {first};
      }
    }
  }

  /** The order of a room run, whatever the message, the mode, the history and the pages: the search agent, if
      there is one, then who speaks first anyway, then the others in canonical order. */
  ghost predicate OrderIs(request: Request, runtime: Runtime, signals: RoomSignals, first: AgentId,
                          order: seq<AgentId>, searcher: Option<AgentId>)
  {
    var front := if searcher.None? || searcher.value == first then [first] else [searcher.value, first];
    && SpeaksFirst(request, signals, first)
    && (match searcher
        case Some(a) => SearchesInstead(request, runtime, signals, first, a)
        case None => forall a :: a in request.participants ==> !SearchesInstead(request, runtime, signals, first, a))
    && front <= order && Ranked(order[|front|..])
    && Distinct(order) && AsSet(order) == AsSet(request.participants)
  }

  lemma RunOrderIs(request: Request, runtime: Runtime, signals: RoomSignals) returns (first: AgentId)
    requires request.participants != []
    ensures var (order, searcher) := RunOrder(request, runtime, signals);
            OrderIs(request, runtime, signals, first, order, searcher)
  {
    var participants := Participants(request.participants);
    var decision := Decide(request.researchMode, signals, participants);
    var order := SpeakerOrder(signals, participants, decision);
    FirstSpeaker(request, signals);
    first := order[0];
    ParticipantsRanked(request.participants);
    var others := Keep(participants, AsSet(participants) - {first});
    KeepRanked(participants, AsSet(participants) - {first});
    RunOrderPermutes(request, runtime, signals);
    var searcher := SelectSearchFallback(signals, decision, order, runtime);
    SearcherIs(request, runtime, signals, first, others);
    hide SpeakerOrder, SelectSearchFallback, Decide, SpeaksFirst, SearchesInstead, Participants;
    if searcher.Some? && searcher.value != first {
      KeepRanked(others, AsSet(order) - {searcher.value});
      assert order[1..] == others;
    }
  }
}
