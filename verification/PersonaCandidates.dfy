/** Dormant candidates: changes kept for the user, gathering evidence until they are decided. */
module PersonaCandidates {
  import opened Records
  import opened PersonaValues
  import opened PersonaRules

  datatype Evidence = Evidence(event: string, summary: string)

  datatype CandidateStatus = Dormant | PendingUserReview | Superseded | Overtaken(actor: Actor) | Incorporated

  datatype Actor = UserEdit | PolicyCommit

  /** `changes` stands for the fingerprint as well, which hashes nothing but the agent and the changes. */
  datatype Candidate = Candidate(
    agent: AgentId,
    status: CandidateStatus,
    changes: seq<Change>,
    evidence: seq<Evidence>,
    observations: nat,
    required: nat,
    verified: nat,
    eligible: bool,
    reason: string)

  predicate IsActive(c: Candidate) {
    c.status == CandidateStatus.Dormant || c.status == PendingUserReview
  }

  function PathsOf(changes: seq<Change>): set<Path> {
    set i | 0 <= i < |changes| :: changes[i].path
  }

  function EventsOf(evidence: seq<Evidence>): set<string> {
    set i | 0 <= i < |evidence| :: evidence[i].event
  }

  predicate DistinctEvents(evidence: seq<Evidence>) {
    forall i, j :: 0 <= i < j < |evidence| ==> evidence[i].event != evidence[j].event
  }

  // -- evidence ------------------------------------------------------------------------------

  function Position(evidence: seq<Evidence>, event: string): (r: Option<nat>)
    ensures r.Some? ==> r.value < |evidence| && evidence[r.value].event == event
    ensures r.None? ==> forall i :: 0 <= i < |evidence| ==> evidence[i].event != event
  {
    if evidence == [] then None
    else if evidence[|evidence| - 1].event == event then Some(|evidence| - 1)
    else Position(evidence[..|evidence| - 1], event)
  }

  /** The later account of an event takes the place of the earlier one. */
  function AddEvidence(evidence: seq<Evidence>, item: Evidence): seq<Evidence> {
    match Position(evidence, item.event)
    case Some(i) => evidence[i := item]
    case None => evidence + [item]
  }

  function Merge(known: seq<Evidence>, more: seq<Evidence>): seq<Evidence> {
    if more == [] then known
    else AddEvidence(Merge(known, more[..|more| - 1]), more[|more| - 1])
  }

  lemma {:induction false} MergeUnites(known: seq<Evidence>, more: seq<Evidence>)
    requires DistinctEvents(known)
    ensures DistinctEvents(Merge(known, more))
    ensures EventsOf(Merge(known, more)) == EventsOf(known) + EventsOf(more)
  {
    if more != [] {
      var n := |more| - 1;
      MergeUnites(known, more[..n]);
      AddUnites(Merge(known, more[..n]), more[n]);
      assert more == more[..n] + [more[n]];
      assert EventsOf(more) == EventsOf(more[..n]) + {more[n].event};
    }
  }

  lemma AddUnites(evidence: seq<Evidence>, item: Evidence)
    requires DistinctEvents(evidence)
    ensures DistinctEvents(AddEvidence(evidence, item))
    ensures EventsOf(AddEvidence(evidence, item)) == EventsOf(evidence) + {item.event}
  {
    var r := AddEvidence(evidence, item);
    match Position(evidence, item.event)
    case Some(k) =>
      assert forall i :: 0 <= i < |r| ==> r[i].event == evidence[i].event;
      assert evidence[k].event in EventsOf(evidence);
    case None =>
      forall e | e in EventsOf(evidence) + {item.event} ensures e in EventsOf(r) {
        if e in EventsOf(evidence) {
          var i :| 0 <= i < |evidence| && evidence[i].event == e;
          assert r[i].event == e;
        } else {
          assert r[|evidence|].event == e;
        }
      }
      forall e | e in EventsOf(r) ensures e in EventsOf(evidence) + {item.event} {
        var i :| 0 <= i < |r| && r[i].event == e;
        assert i < |evidence| ==> evidence[i].event == e;
      }
  }

  lemma {:induction false} CountDistinct(evidence: seq<Evidence>)
    requires DistinctEvents(evidence)
    ensures |EventsOf(evidence)| == |evidence|
  {
    if evidence != [] {
      var n := |evidence| - 1;
      CountDistinct(evidence[..n]);
      assert evidence == evidence[..n] + [evidence[n]];
      assert EventsOf(evidence) == EventsOf(evidence[..n]) + {evidence[n].event};
    }
  }

  // -- saving --------------------------------------------------------------------------------

  predicate Overlap(p: seq<Change>, q: seq<Change>) {
    exists i, j :: 0 <= i < |p| && 0 <= j < |q| && p[i].path == q[j].path
  }

  predicate SameProposal(c: Candidate, agent: AgentId, changes: seq<Change>) {
    c.agent == agent && IsActive(c) && c.changes == changes
  }

  /** An open candidate of the agent proposes something else for one of these paths. */
  predicate StandsInTheWay(c: Candidate, agent: AgentId, changes: seq<Change>) {
    c.agent == agent && IsActive(c) && c.changes != changes && Overlap(c.changes, changes)
  }

  function SupersededBy(c: Candidate, agent: AgentId, changes: seq<Change>): Candidate {
    if StandsInTheWay(c, agent, changes) then c.(status := Superseded) else c
  }

  function AllSuperseded(cs: seq<Candidate>, agent: AgentId, changes: seq<Change>): (r: seq<Candidate>)
    ensures |r| == |cs|
    ensures forall i :: 0 <= i < |cs| ==> r[i] == SupersededBy(cs[i], agent, changes)
  {
    if cs == [] then []
    else AllSuperseded(cs[..|cs| - 1], agent, changes) + [SupersededBy(cs[|cs| - 1], agent, changes)]
  }

  function FindProposal(cs: seq<Candidate>, agent: AgentId, changes: seq<Change>): (r: Option<nat>)
    ensures r.Some? ==> r.value < |cs| && SameProposal(cs[r.value], agent, changes)
    ensures r.None? ==> forall i :: 0 <= i < |cs| ==> !SameProposal(cs[i], agent, changes)
  {
    if cs == [] then None
    else if SameProposal(cs[|cs| - 1], agent, changes) then Some(|cs| - 1)
    else FindProposal(cs[..|cs| - 1], agent, changes)
  }

  /** A proposal seen (again): its evidence is merged, its counts and eligibility follow. */
  function Seen(before: Option<Candidate>, agent: AgentId, reason: string, evidence: seq<Evidence>,
                changes: seq<Change>, required: nat): Candidate
  {
    var merged := Merge(if before.Some? then before.value.evidence else [], evidence);
    var observed := if before.Some? then before.value.observations else 0;
    Candidate.Candidate(agent, CandidateStatus.Dormant, changes, merged, observed + 1,
              required, |merged|, |merged| >= required, reason)
  }

  function SaveCandidate(cs: seq<Candidate>, agent: AgentId, reason: string, evidence: seq<Evidence>,
                         changes: seq<Change>, required: nat): seq<Candidate>
  {
    var others := AllSuperseded(cs, agent, changes);
    match FindProposal(cs, agent, changes)
    case Some(i) => others[i := Seen(Some(cs[i]), agent, reason, evidence, changes, required)]
    case None => others + [Seen(None, agent, reason, evidence, changes, required)]
  }

  // -- reconciling ---------------------------------------------------------------------------

  predicate ChangeIsPresent(persona: Mapping, change: Change) {
    var found := GetPath(persona, change.path);
    found.Some? &&
    match change.operation
    case Append => found.value.List? && change.value in found.value.items
    case Replace => found.value == change.value
  }

  function ValueAt(persona: Mapping, path: Path): Value {
    var found := GetPath(persona, path);
    if found.Some? then found.value else Null
  }

  predicate AllPresent(persona: Mapping, changes: seq<Change>) {
    forall i :: 0 <= i < |changes| ==> ChangeIsPresent(persona, changes[i])
  }

  predicate Touched(previous: Mapping, revised: Mapping, changes: seq<Change>) {
    exists i :: 0 <= i < |changes| && ValueAt(previous, changes[i].path) != ValueAt(revised, changes[i].path)
  }

  function ReconciledOne(c: Candidate, agent: AgentId, previous: Mapping, revised: Mapping, actor: Actor): Candidate {
    if c.agent != agent || !IsActive(c) || c.changes == [] then c
    else if AllPresent(revised, c.changes) then c.(status := Incorporated)
    else if Touched(previous, revised, c.changes) then c.(status := Overtaken(actor))
    else c
  }

  function Reconciled(cs: seq<Candidate>, agent: AgentId, previous: Mapping, revised: Mapping, actor: Actor)
    : (r: seq<Candidate>)
    ensures |r| == |cs|
    ensures forall i :: 0 <= i < |cs| ==> r[i] == ReconciledOne(cs[i], agent, previous, revised, actor)
  {
    if cs == [] then []
    else
      Reconciled(cs[..|cs| - 1], agent, previous, revised, actor)
      + [ReconciledOne(cs[|cs| - 1], agent, previous, revised, actor)]
  }

  // -- what every step keeps -----------------------------------------------------------------

  predicate CandidateOk(c: Candidate) {
    && c.changes != []
    && DistinctEvents(c.evidence)
    && c.verified == |EventsOf(c.evidence)|
    && (c.eligible <==> c.verified >= c.required)
  }

  /** Active candidates of one agent propose disjoint sets of paths. */
  predicate CandidatesOk(cs: seq<Candidate>) {
    && (forall i :: 0 <= i < |cs| ==> CandidateOk(cs[i]))
    && (forall i, j :: 0 <= i < j < |cs| && IsActive(cs[i]) && IsActive(cs[j]) && cs[i].agent == cs[j].agent ==>
          !Overlap(cs[i].changes, cs[j].changes))
  }

  /** From one list of candidates to a later one: none is lost, what was decided stays as it is, and
      evidence of the undecided only grows. */
  predicate CandidatesStep(x: seq<Candidate>, y: seq<Candidate>) {
    && |x| <= |y|
    && (forall i :: 0 <= i < |x| ==>
          && y[i].agent == x[i].agent && y[i].changes == x[i].changes
          && (!IsActive(x[i]) ==> y[i] == x[i])
          && EventsOf(x[i].evidence) <= EventsOf(y[i].evidence))
  }

  lemma SeenOk(before: Option<Candidate>, agent: AgentId, reason: string, evidence: seq<Evidence>,
               changes: seq<Change>, required: nat)
    requires changes != [] && (before.Some? ==> CandidateOk(before.value))
    ensures var c := Seen(before, agent, reason, evidence, changes, required);
            && CandidateOk(c) && SameProposal(c, agent, changes)
            && EventsOf(c.evidence)
               == (if before.Some? then EventsOf(before.value.evidence) else {}) + EventsOf(evidence)
  {
    var known := if before.Some? then before.value.evidence else [];
    MergeUnites(known, evidence);
    CountDistinct(Merge(known, evidence));
  }

  /** Saving a proposal supersedes every active one it overlaps, unless it is the same proposal, which
      gathers the new evidence. */
  lemma SaveKeeps(cs: seq<Candidate>, agent: AgentId, reason: string, evidence: seq<Evidence>,
                  changes: seq<Change>, required: nat)
    requires CandidatesOk(cs) && changes != []
    ensures var after := SaveCandidate(cs, agent, reason, evidence, changes, required);
            && CandidatesOk(after) && CandidatesStep(cs, after)
            && (exists k :: 0 <= k < |after| && SameProposal(after[k], agent, changes)
                            && EventsOf(evidence) <= EventsOf(after[k].evidence))
  {
    hide Overlap, CandidateOk, EventsOf, Seen;
    var others := AllSuperseded(cs, agent, changes);
    var after := SaveCandidate(cs, agent, reason, evidence, changes, required);
    var found := FindProposal(cs, agent, changes);
    var k := if found.Some? then found.value else |cs|;
    SeenOk(if found.Some? then Some(cs[k]) else None, agent, reason, evidence, changes, required);
    assert SameProposal(after[k], agent, changes);
    forall i | 0 <= i < |cs| && i != k && IsActive(after[i]) && after[i].agent == agent
      ensures !Overlap(after[i].changes, changes)
    {
      NoOtherOverlaps(cs, agent, changes, i, k);
    }
    OnlyOneAdded(cs, after, k, agent, changes);
  }

  /** Superseding alone, with nothing saved in its place, keeps the list in order as well. */
  lemma SupersedeKeeps(cs: seq<Candidate>, agent: AgentId, changes: seq<Change>)
    requires CandidatesOk(cs)
    ensures CandidatesOk(AllSuperseded(cs, agent, changes))
    ensures CandidatesStep(cs, AllSuperseded(cs, agent, changes))
  {
    hide Overlap, EventsOf;
  }

  lemma NoOtherOverlaps(cs: seq<Candidate>, agent: AgentId, changes: seq<Change>, i: nat, k: nat)
    requires CandidatesOk(cs) && i < |cs| && i != k && k <= |cs|
    requires k < |cs| ==> SameProposal(cs[k], agent, changes)
    requires k == |cs| ==> forall j :: 0 <= j < |cs| ==> !SameProposal(cs[j], agent, changes)
    requires IsActive(SupersededBy(cs[i], agent, changes)) && cs[i].agent == agent
    ensures !Overlap(cs[i].changes, changes)
  {
  }

  /** One candidate is new or revised; the rest are unchanged or superseded. */
  lemma OnlyOneAdded(cs: seq<Candidate>, after: seq<Candidate>, k: nat, agent: AgentId, changes: seq<Change>)
    requires CandidatesOk(cs) && k <= |cs| && |after| == (if k == |cs| then |cs| + 1 else |cs|)
    requires CandidateOk(after[k]) && after[k].agent == agent && after[k].changes == changes
    requires forall i :: 0 <= i < |cs| && i != k ==> after[i] == SupersededBy(cs[i], agent, changes)
    requires forall i :: 0 <= i < |cs| && i != k && IsActive(after[i]) && after[i].agent == agent ==>
               !Overlap(after[i].changes, changes)
    ensures CandidatesOk(after)
  {
  }

  lemma ReconciledOneKeeps(c: Candidate, agent: AgentId, previous: Mapping, revised: Mapping, actor: Actor)
    ensures var r := ReconciledOne(c, agent, previous, revised, actor);
            && r == c.(status := r.status)
            && (CandidateOk(c) ==> CandidateOk(r))
            && (!IsActive(c) ==> r == c) && (IsActive(r) ==> IsActive(c))
  {
  }

  lemma ReconcileKeeps(cs: seq<Candidate>, agent: AgentId, previous: Mapping, revised: Mapping, actor: Actor)
    requires CandidatesOk(cs)
    ensures CandidatesOk(Reconciled(cs, agent, previous, revised, actor))
    ensures CandidatesStep(cs, Reconciled(cs, agent, previous, revised, actor))
  {
    hide ReconciledOne, CandidateOk, IsActive, EventsOf, Overlap;
    var after := Reconciled(cs, agent, previous, revised, actor);
    forall i | 0 <= i < |cs|
      ensures after[i] == cs[i].(status := after[i].status) && CandidateOk(after[i])
      ensures (!IsActive(cs[i]) ==> after[i] == cs[i]) && (IsActive(after[i]) ==> IsActive(cs[i]))
    {
      ReconciledOneKeeps(cs[i], agent, previous, revised, actor);
    }
  }

  /** After reconciling, a candidate is still open only if the edit left all of its paths alone and did
      not already make its changes. */
  lemma OpenMeansUntouched(cs: seq<Candidate>, agent: AgentId, previous: Mapping, revised: Mapping, actor: Actor,
                           i: nat)
    requires CandidatesOk(cs) && i < |cs| && cs[i].agent == agent && IsActive(cs[i])
    ensures var c := Reconciled(cs, agent, previous, revised, actor)[i];
            IsActive(c) <==> !AllPresent(revised, c.changes) && !Touched(previous, revised, c.changes)
  {
  }

  lemma CandidatesStepTransitive(x: seq<Candidate>, y: seq<Candidate>, z: seq<Candidate>)
    requires CandidatesStep(x, y) && CandidatesStep(y, z)
    ensures CandidatesStep(x, z)
  {
  }
}
