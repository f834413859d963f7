/** The persona files and their dormant candidates. */
module PersonaStore {
  import opened Records
  import opened Text
  import opened PersonaValues
  import opened PersonaRules
  import opened PersonaCandidates

  datatype Update = Update(agent: AgentId, reason: string, evidence: seq<Evidence>, changes: seq<Change>)

  datatype Summary = Summary(committed: nat, proposed: nat)

  function AgentName(agent: AgentId): Value {
    match agent
    case AgentA => Str("agent_a")
    case AgentB => Str("agent_b")
    case AgentC => Str("agent_c")
  }

  // -- what becomes of an update's changes ---------------------------------------------------

  function RoutedTo(current: Mapping, changes: seq<Change>, route: Route): (r: seq<Change>)
    ensures forall i :: 0 <= i < |r| ==> RouteOf(current, r[i]) == route
  {
    if changes == [] then []
    else
      var earlier := RoutedTo(current, changes[..|changes| - 1], route);
      var c := changes[|changes| - 1];
      if RouteOf(current, c) == route then earlier + [c] else earlier
  }

  /** The policy can be read for every change. */
  predicate Readable(current: Mapping, changes: seq<Change>) {
    forall i :: 0 <= i < |changes| ==> RequiredEvidence(current, changes[i].path).Ok?
  }

  predicate Supported(current: Mapping, change: Change, events: nat) {
    RequiredEvidence(current, change.path).Ok? && events >= RequiredEvidence(current, change.path).value
  }

  function WithSupport(current: Mapping, changes: seq<Change>, events: nat, enough: bool): (r: seq<Change>)
    ensures forall i :: 0 <= i < |r| ==> Supported(current, r[i], events) == enough && r[i] in changes
  {
    if changes == [] then []
    else
      var earlier := WithSupport(current, changes[..|changes| - 1], events, enough);
      var c := changes[|changes| - 1];
      if Supported(current, c, events) == enough then earlier + [c] else earlier
  }

  /** What is committed at once. */
  function Immediate(current: Mapping, u: Update): seq<Change> {
    WithSupport(current, RoutedTo(current, u.changes, Automatic), |u.evidence|, true)
  }

  /** What is kept for the user. */
  function Deferred(current: Mapping, u: Update): seq<Change> {
    RoutedTo(current, u.changes, ForReview)
    + WithSupport(current, RoutedTo(current, u.changes, Automatic), |u.evidence|, false)
  }

  lemma {:induction false} SupportSplits(current: Mapping, changes: seq<Change>, events: nat)
    ensures multiset(WithSupport(current, changes, events, true))
            + multiset(WithSupport(current, changes, events, false))
            == multiset(changes)
  {
    hide Supported;
    if changes != [] {
      var n := |changes| - 1;
      SupportSplits(current, changes[..n], events);
      assert changes == changes[..n] + [changes[n]];
    }
  }

  lemma {:induction false} RoutesSplit(current: Mapping, changes: seq<Change>)
    requires forall i :: 0 <= i < |changes| ==> RouteOf(current, changes[i]) != Refuse
    ensures multiset(RoutedTo(current, changes, Automatic)) + multiset(RoutedTo(current, changes, ForReview))
            == multiset(changes)
  {
    hide RouteOf;
    if changes != [] {
      var n := |changes| - 1;
      RoutesSplit(current, changes[..n]);
      assert changes == changes[..n] + [changes[n]];
    }
  }

  /** No change of an update is lost or doubled: each is committed or kept for the user. */
  lemma EveryChangeIsKept(current: Mapping, u: Update)
    requires forall i :: 0 <= i < |u.changes| ==> RouteOf(current, u.changes[i]) != Refuse
    ensures multiset(Immediate(current, u)) + multiset(Deferred(current, u)) == multiset(u.changes)
    ensures |Immediate(current, u)| + |Deferred(current, u)| == |u.changes|
  {
    RoutesSplit(current, u.changes);
    SupportSplits(current, RoutedTo(current, u.changes, Automatic), |u.evidence|);
    assert |multiset(Immediate(current, u)) + multiset(Deferred(current, u))| == |multiset(u.changes)|;
  }

  lemma ImmediateIsAllowed(current: Mapping, u: Update)
    ensures forall i :: 0 <= i < |Immediate(current, u)| ==>
              && PathAllowed(Immediate(current, u)[i].path, AUTO_COMMIT_PREFIXES)
              && Supported(current, Immediate(current, u)[i], |u.evidence|)
  {
  }

  predicate EvidenceVerified(evidence: seq<Evidence>, visible: Option<set<string>>) {
    && visible.Some? && evidence != [] && DistinctEvents(evidence)
    && forall i :: 0 <= i < |evidence| ==> evidence[i].event in visible.value
  }

  function Revised(current: Mapping, u: Update): Result<Mapping> {
    ApplyAll(current, Immediate(current, u))
  }

  /** Every check made before the persona file is written. */
  predicate Passes(current: Mapping, u: Update, visible: Option<set<string>>) {
    && u.changes != []
    && (forall i :: 0 <= i < |u.changes| ==> RouteOf(current, u.changes[i]) != Refuse)
    && EvidenceVerified(u.evidence, visible)
    && Readable(current, RoutedTo(current, u.changes, Automatic))
    && (Immediate(current, u) != [] ==>
          && Revised(current, u).Ok?
          && PersonaValid(AgentName(u.agent), Revised(current, u).value)
          && VersionOf(current).Ok?)
  }

  function NextPersona(current: Mapping, u: Update): Mapping
    requires Immediate(current, u) != [] ==> Revised(current, u).Ok? && VersionOf(current).Ok?
  {
    if Immediate(current, u) == [] then current
    else Revised(current, u).value["version" := Int(VersionOf(current).value + 1)]
  }

  function MostRequired(current: Mapping, changes: seq<Change>): Result<nat> {
    if changes == [] then Ok(0)
    else
      var earlier := MostRequired(current, changes[..|changes| - 1]);
      var last := RequiredEvidence(current, changes[|changes| - 1].path);
      if earlier.Err? then earlier
      else if last.Err? then last
      else if last.value > earlier.value then last else earlier
  }

  lemma {:induction false} MostRequiredIsMost(current: Mapping, changes: seq<Change>)
    ensures MostRequired(current, changes).Ok? <==> Readable(current, changes)
    ensures MostRequired(current, changes).Ok? ==>
              forall i :: 0 <= i < |changes| ==>
                RequiredEvidence(current, changes[i].path).value <= MostRequired(current, changes).value
  {
    if changes != [] {
      var n := |changes| - 1;
      MostRequiredIsMost(current, changes[..n]);
      assert forall i :: 0 <= i < n ==> changes[..n][i] == changes[i];
    }
  }

  /** The candidates once the committed changes have settled those they decide. */
  function AfterCommit(cs: seq<Candidate>, current: Mapping, u: Update): seq<Candidate>
    requires Immediate(current, u) != [] ==> Revised(current, u).Ok? && VersionOf(current).Ok?
  {
    if Immediate(current, u) == [] then cs
    else Reconciled(cs, u.agent, current, NextPersona(current, u), PolicyCommit)
  }

  function NextCandidates(cs: seq<Candidate>, current: Mapping, u: Update): seq<Candidate>
    requires Immediate(current, u) != [] ==> Revised(current, u).Ok? && VersionOf(current).Ok?
    requires MostRequired(current, Deferred(current, u)).Ok?
  {
    var settled := AfterCommit(cs, current, u);
    if Deferred(current, u) == [] then settled
    else SaveCandidate(settled, u.agent, u.reason, u.evidence, Deferred(current, u),
                       MostRequired(current, Deferred(current, u)).value)
  }

  /** An update that passes its checks and is refused for its policy has already been committed in part, and
      has superseded what its other changes overlap. */
  function CandidatesAfter(cs: seq<Candidate>, current: Mapping, u: Update, visible: Option<set<string>>)
    : seq<Candidate>
  {
    if !Passes(current, u, visible) then cs
    else if MostRequired(current, Deferred(current, u)).Ok? then NextCandidates(cs, current, u)
    else AllSuperseded(AfterCommit(cs, current, u), u.agent, Deferred(current, u))
  }

  function PersonaAfter(current: Mapping, u: Update, visible: Option<set<string>>): Mapping {
    if Passes(current, u, visible) then NextPersona(current, u) else current
  }

  /** A refused update changes nothing exactly if it fails a check, or commits nothing and meets no open
      candidate that proposes something else for one of its paths. */
  lemma RefusedWithoutEffect(cs: seq<Candidate>, current: Mapping, u: Update, visible: Option<set<string>>)
    requires !(Passes(current, u, visible) && Readable(current, Deferred(current, u)))
    ensures PersonaAfter(current, u, visible) == current && CandidatesAfter(cs, current, u, visible) == cs
            <==>
            || !Passes(current, u, visible)
            || (Immediate(current, u) == []
                && forall i :: 0 <= i < |cs| ==> !StandsInTheWay(cs[i], u.agent, Deferred(current, u)))
  {
    hide Passes, Readable, Deferred, Immediate, StandsInTheWay;
    MostRequiredIsMost(current, Deferred(current, u));
    if Passes(current, u, visible) {
      if Immediate(current, u) != [] {
        VersionMovesOn(current, u, visible);
      } else {
        SupersedingShows(cs, u.agent, Deferred(current, u));
      }
    }
  }

  lemma VersionMovesOn(current: Mapping, u: Update, visible: Option<set<string>>)
    requires Passes(current, u, visible) && Immediate(current, u) != []
    ensures NextPersona(current, u) != current
  {
    hide RouteOf, PersonaValid, Readable, EvidenceVerified;
    AcceptedKeepsConstitution(current, u, visible);
  }

  lemma SupersedingShows(cs: seq<Candidate>, agent: AgentId, changes: seq<Change>)
    ensures AllSuperseded(cs, agent, changes) == cs
            <==> forall i :: 0 <= i < |cs| ==> !StandsInTheWay(cs[i], agent, changes)
  {
    hide Overlap;
    forall i | 0 <= i < |cs|
      ensures SupersededBy(cs[i], agent, changes) == cs[i] <==> !StandsInTheWay(cs[i], agent, changes)
    {
    }
  }

  /** The persona after an accepted update: locked and review-only subtrees are untouched, and the
      version has moved on by one if anything was committed. */
  lemma AcceptedKeepsConstitution(current: Mapping, u: Update, visible: Option<set<string>>)
    requires Passes(current, u, visible)
    ensures forall q: Path :: Reserved(q) ==> GetPath(NextPersona(current, u), q) == GetPath(current, q)
    ensures Immediate(current, u) != [] ==>
              VersionOf(NextPersona(current, u)) == Ok(VersionOf(current).value + 1)
  {
    hide PersonaValid, RouteOf, Reserved, EvidenceVerified, Readable;
    if Immediate(current, u) != [] {
      forall q: Path | Reserved(q) ensures GetPath(NextPersona(current, u), q) == GetPath(current, q) {
        ReservedPathKept(current, u, q);
      }
    }
  }

  lemma ReservedPathKept(current: Mapping, u: Update, q: Path)
    requires Immediate(current, u) != [] && Revised(current, u).Ok? && VersionOf(current).Ok? && Reserved(q)
    ensures GetPath(NextPersona(current, u), q) == GetPath(current, q)
  {
    hide Reserved, PathAllowed, RouteOf, WithSupport, RoutedTo, Immediate;
    ImmediateIsAllowed(current, u);
    ConstitutionKept(current, Immediate(current, u), q);
    ReservedIsNotVersion(q);
    SetLeavesOthers(Revised(current, u).value, ["version"], Int(VersionOf(current).value + 1), Replace, q);
  }

  lemma AcceptedIsValid(current: Mapping, u: Update, visible: Option<set<string>>)
    requires Passes(current, u, visible) && PersonaValid(AgentName(u.agent), current)
    ensures PersonaValid(AgentName(u.agent), NextPersona(current, u))
  {
    if Immediate(current, u) != [] {
      VersionKeepsValid(AgentName(u.agent), Revised(current, u).value, VersionOf(current).value + 1);
    }
  }

  lemma ReservedIsNotVersion(q: Path)
    requires Reserved(q)
    ensures Apart(["version"], q)
  {
    if PathAllowed(q, AGENT_LOCKED_PREFIXES) {
      var j :| 0 <= j < |AGENT_LOCKED_PREFIXES| && AGENT_LOCKED_PREFIXES[j] <= q;
      assert AGENT_LOCKED_PREFIXES[j][0] == q[0] != "version";
    } else {
      var j :| 0 <= j < |PROPOSAL_ONLY_PREFIXES| && PROPOSAL_ONLY_PREFIXES[j] <= q;
      assert PROPOSAL_ONLY_PREFIXES[j][0] == q[0] != "version";
    }
  }

  lemma VersionKeepsValid(agent: Value, persona: Mapping, version: int)
    requires PersonaValid(agent, persona)
    ensures PersonaValid(agent, persona["version" := Int(version)])
  {
  }

  predicate OfAttractor(path: Path) {
    path[0] == "attractors" && |path| > 1
  }

  /** An update that passes its checks is refused exactly when it keeps a change of an attractor for the
      user and the policy's threshold for attractors is not a number. */
  lemma OnlyAttractorsUnreadable(current: Mapping, u: Update, visible: Option<set<string>>)
    requires Passes(current, u, visible)
    ensures Readable(current, Deferred(current, u)) <==>
              || Threshold(current, "minimum_supporting_events_for_attractor_change",
                           DEFAULT_ATTRACTOR_EVIDENCE_EVENTS).Ok?
              || forall i :: 0 <= i < |Deferred(current, u)| ==> !OfAttractor(Deferred(current, u)[i].path)
  {
    hide Threshold, RouteOf, PersonaValid;
    var autos := RoutedTo(current, u.changes, Automatic);
    var reviews := RoutedTo(current, u.changes, ForReview);
    var late := WithSupport(current, autos, |u.evidence|, false);
    var threshold := Threshold(current, "minimum_supporting_events_for_attractor_change",
                               DEFAULT_ATTRACTOR_EVIDENCE_EVENTS);
    forall i | 0 <= i < |Deferred(current, u)|
      ensures RequiredEvidence(current, Deferred(current, u)[i].path).Ok?
              <==> threshold.Ok? || !OfAttractor(Deferred(current, u)[i].path)
    {
      var c := Deferred(current, u)[i];
      AttractorsAreApart(c.path);
      if i < |reviews| {
        ReviewIsNotRelationship(current, c);
      } else {
        assert c == late[i - |reviews|] && c in autos;
        var k :| 0 <= k < |autos| && autos[k] == c;
      }
    }
  }

  lemma AttractorsAreApart(path: Path)
    ensures OfAttractor(path) ==> !("relationship_memory" <= path[0])
  {
  }

  /** A persona whose policy holds no number, and an update that commits to it and is then refused. */
  function UnreadablePersona(): Mapping {
    map["agent_id" := Str("agent_a"), "schema_version" := Int(4), "display_name" := Str("A"),
        "core_motif" := Dict(map["name" := Str("n"), "statement" := Str("s")]),
        "core_disposition" := Dict(map[]), "systems_style" := Dict(map[]), "attractors" := Dict(map[]),
        "continuity_training" := Dict(map[]),
        "update_policy" := Dict(map["minimum_supporting_events_for_attractor_change" := Str("many")])]
  }

  const CYCLE_CHANGE: Change := Change(["continuity_training", "current_cycle"], Replace, Dict(map[]))
  const ATTRACTOR_CHANGE: Change := Change(["attractors", "play"], Replace, Dict(map[]))

  function MixedUpdate(): Update {
    Update(AgentA, "both", [Evidence("event", "")], [CYCLE_CHANGE, ATTRACTOR_CHANGE])
  }

  lemma CyclePath(path: Path)
    requires path == ["continuity_training", "current_cycle"]
    ensures PathAllowed(path, AUTO_COMMIT_PREFIXES) && !PathAllowed(path, AGENT_LOCKED_PREFIXES)
  {
    assert AUTO_COMMIT_PREFIXES[3] <= path;
    forall i | 0 <= i < |AGENT_LOCKED_PREFIXES| ensures !(AGENT_LOCKED_PREFIXES[i] <= path) {
      assert AGENT_LOCKED_PREFIXES[i][0] != path[0];
    }
  }

  lemma AttractorPath(path: Path)
    requires path == ["attractors", "play"]
    ensures PathAllowed(path, PROPOSAL_ONLY_PREFIXES) && !PathAllowed(path, AGENT_LOCKED_PREFIXES)
    ensures !PathAllowed(path, AUTO_COMMIT_PREFIXES)
  {
    assert PROPOSAL_ONLY_PREFIXES[3] <= path;
    forall i | 0 <= i < |AGENT_LOCKED_PREFIXES| ensures !(AGENT_LOCKED_PREFIXES[i] <= path) {
      assert AGENT_LOCKED_PREFIXES[i][0] != path[0];
    }
    forall i | 0 <= i < |AUTO_COMMIT_PREFIXES| ensures !(AUTO_COMMIT_PREFIXES[i] <= path) {
      assert AUTO_COMMIT_PREFIXES[i][0] != path[0];
    }
  }

  lemma NewFieldFits(current: Mapping, change: Change)
    requires GetPath(current, change.path) == None && change.operation == Replace && change.value == Dict(map[])
    ensures ChangeFits(current, change)
  {
  }

  lemma MissingBelow(current: Mapping, path: Path)
    requires |path| == 2 && path[0] in current && current[path[0]] == Dict(map[])
    ensures GetPath(current, path) == None
  {
  }

  lemma CycleRoute(current: Mapping, change: Change)
    requires current == UnreadablePersona() && change == CYCLE_CHANGE
    ensures RouteOf(current, change) == Automatic
  {
    UnreadableSkeleton(current);
    hide UnreadablePersona, Skeleton, PathAllowed, ChangeFits, AttractorDeltaFits, GetPath;
    MissingBelow(current, change.path);
    NewFieldFits(current, change);
    CyclePath(change.path);
  }

  lemma AttractorRoute(current: Mapping, change: Change)
    requires current == UnreadablePersona() && change == ATTRACTOR_CHANGE
    ensures RouteOf(current, change) == ForReview
  {
    UnreadableSkeleton(current);
    hide UnreadablePersona, Skeleton, PathAllowed, ChangeFits, GetPath;
    MissingBelow(current, change.path);
    NewFieldFits(current, change);
    AttractorPath(change.path);
    assert change.path[1] != "strength";
  }

  lemma MixedRoutes(current: Mapping)
    requires current == UnreadablePersona()
    ensures RouteOf(current, CYCLE_CHANGE) == Automatic
    ensures RouteOf(current, ATTRACTOR_CHANGE) == ForReview
  {
    hide RouteOf, UnreadablePersona;
    CycleRoute(current, CYCLE_CHANGE);
    AttractorRoute(current, ATTRACTOR_CHANGE);
  }

  lemma MixedChanges(current: Mapping)
    requires current == UnreadablePersona()
    ensures RoutedTo(current, MixedUpdate().changes, Automatic) == [CYCLE_CHANGE]
    ensures RoutedTo(current, MixedUpdate().changes, ForReview) == [ATTRACTOR_CHANGE]
    ensures Immediate(current, MixedUpdate()) == [CYCLE_CHANGE]
    ensures Deferred(current, MixedUpdate()) == [ATTRACTOR_CHANGE]
  {
    hide RouteOf;
    MixedRoutes(current);
    var changes := [CYCLE_CHANGE, ATTRACTOR_CHANGE];
    assert changes[..1] == [CYCLE_CHANGE] && [CYCLE_CHANGE][..0] == [];
    assert RoutedTo(current, [], Automatic) == [] && RoutedTo(current, [], ForReview) == [];
    assert RoutedTo(current, [CYCLE_CHANGE], Automatic) == [CYCLE_CHANGE];
    assert RoutedTo(current, [CYCLE_CHANGE], ForReview) == [];
    MixedRequired(current);
    hide RequiredEvidence;
    assert Supported(current, CYCLE_CHANGE, 1);
  }

  lemma MixedRequired(current: Mapping)
    requires current == UnreadablePersona()
    ensures RequiredEvidence(current, CYCLE_CHANGE.path) == Ok(1)
    ensures RequiredEvidence(current, ATTRACTOR_CHANGE.path).Err?
  {
    assert CYCLE_CHANGE.path[0][0] != "relationship_memory"[0];
    assert |ATTRACTOR_CHANGE.path[0]| < |"relationship_memory"|;
    assert current["update_policy"] == Dict(map["minimum_supporting_events_for_attractor_change" := Str("many")]);
  }

  /** What the example's persona holds besides its continuity training. */
  predicate Skeleton(p: Mapping) {
    && "agent_id" in p && p["agent_id"] == Str("agent_a")
    && "schema_version" in p && p["schema_version"] == Int(4)
    && "display_name" in p && p["display_name"] == Str("A")
    && "core_motif" in p && p["core_motif"] == Dict(map["name" := Str("n"), "statement" := Str("s")])
    && IsMapping(p, "core_disposition") && IsMapping(p, "systems_style") && IsMapping(p, "attractors")
    && "motif_expression" !in p && "current_position" !in p && "self_model" !in p && "relationship_memory" !in p
  }

  lemma UnreadableSkeleton(p: Mapping)
    requires p == UnreadablePersona()
    ensures Skeleton(p) && "continuity_training" in p && p["continuity_training"] == Dict(map[])
    ensures p["attractors"] == Dict(map[])
  {
  }

  lemma SkeletonValid(p: Mapping)
    requires Skeleton(p) && "continuity_training" in p && p["continuity_training"].Dict?
    requires "current_cycle" in p["continuity_training"].fields ==>
               p["continuity_training"].fields["current_cycle"].Dict?
    ensures PersonaValid(AgentName(AgentA), p)
  {
  }

  lemma MixedPersonaValid(current: Mapping)
    requires current == UnreadablePersona()
    ensures PersonaValid(AgentName(AgentA), current)
  {
    UnreadableSkeleton(current);
    hide UnreadablePersona, PersonaValid;
    SkeletonValid(current);
  }

  lemma MixedRevisionValid(current: Mapping)
    requires current == UnreadablePersona()
    ensures ApplyAll(current, [CYCLE_CHANGE]).Ok?
    ensures PersonaValid(AgentName(AgentA), ApplyAll(current, [CYCLE_CHANGE]).value)
  {
    UnreadableSkeleton(current);
    hide UnreadablePersona, PersonaValid;
    assert [CYCLE_CHANGE][..0] == [] && ApplyAll(current, []) == Ok(current);
    var revised := current["continuity_training" := Dict(map["current_cycle" := Dict(map[])])];
    assert ApplyAll(current, [CYCLE_CHANGE]) == Ok(revised);
    SkeletonValid(revised);
  }

  lemma MixedPasses(current: Mapping)
    requires current == UnreadablePersona()
    ensures Passes(current, MixedUpdate(), Some({"event"}))
  {
    hide RouteOf, PersonaValid, RequiredEvidence, ApplyAll, RoutedTo, WithSupport, Immediate;
    MixedRoutes(current);
    MixedChanges(current);
    MixedRequired(current);
    MixedRevisionValid(current);
    assert "version" !in current;
  }

  /** Not even a refused update is always without effect: this one is written in part before its policy
      turns out to hold no number. */
  lemma RefusedAfterWriting()
    ensures var current, u := UnreadablePersona(), MixedUpdate();
            && PersonaValid(AgentName(u.agent), current)
            && Passes(current, u, Some({"event"})) && NextPersona(current, u) != current
            && !Readable(current, Deferred(current, u))
  {
    var current, u := UnreadablePersona(), MixedUpdate();
    assert "version" !in current;
    hide RouteOf, PersonaValid, RequiredEvidence, ApplyAll, RoutedTo, WithSupport, Immediate, Deferred, Passes,
         UnreadablePersona;
    MixedPersonaValid(current);
    MixedPasses(current);
    MixedChanges(current);
    MixedRequired(current);
    MixedRevisionValid(current);
    assert Deferred(current, u)[0] == ATTRACTOR_CHANGE;
    assert "version" in NextPersona(current, u);
  }

  const RIVAL_CHANGE: Change := Change(["attractors", "play"], Replace, Null)

  /** A candidate kept while the policy could still be read. */
  function Rival(status: CandidateStatus): Candidate {
    Candidate.Candidate(AgentA, status, [RIVAL_CHANGE], [Evidence("before", "")], 1, 5, 1, false, "earlier")
  }

  function AttractorUpdate(): Update {
    Update(AgentA, "one", [Evidence("event", "")], [ATTRACTOR_CHANGE])
  }

  /** An update with nothing to commit, refused for its policy, and yet it supersedes a candidate without
      leaving another in its place. */
  lemma RefusedAfterSuperseding()
    ensures var current, u, visible := UnreadablePersona(), AttractorUpdate(), Some({"event"});
            && PersonaValid(AgentName(u.agent), current) && CandidatesOk([Rival(CandidateStatus.Dormant)])
            && Passes(current, u, visible) && !Readable(current, Deferred(current, u))
            && PersonaAfter(current, u, visible) == current
            && CandidatesAfter([Rival(CandidateStatus.Dormant)], current, u, visible) == [Rival(Superseded)]
  {
    var current, u, visible := UnreadablePersona(), AttractorUpdate(), Some({"event"});
    var rival := Rival(CandidateStatus.Dormant);
    hide RouteOf, PersonaValid, RequiredEvidence, UnreadablePersona, Passes, Immediate, Deferred, MostRequired;
    MixedPersonaValid(current);
    AttractorChanges(current);
    MixedRequired(current);
    MostRequiredIsMost(current, Deferred(current, u));
    assert Deferred(current, u)[0] == ATTRACTOR_CHANGE;
    assert rival.changes[0].path == ATTRACTOR_CHANGE.path;
    assert StandsInTheWay(rival, AgentA, [ATTRACTOR_CHANGE]);
    RivalOk();
  }

  lemma RivalOk()
    ensures CandidatesOk([Rival(CandidateStatus.Dormant)])
  {
    var evidence := [Evidence("before", "")];
    CountDistinct(evidence);
  }

  lemma AttractorRouted(current: Mapping)
    requires current == UnreadablePersona()
    ensures RoutedTo(current, [ATTRACTOR_CHANGE], Automatic) == []
    ensures RoutedTo(current, [ATTRACTOR_CHANGE], ForReview) == [ATTRACTOR_CHANGE]
    ensures RouteOf(current, ATTRACTOR_CHANGE) != Refuse
  {
    hide RouteOf, UnreadablePersona;
    AttractorRoute(current, ATTRACTOR_CHANGE);
    assert [ATTRACTOR_CHANGE][..0] == [];
    assert RoutedTo(current, [], Automatic) == [] && RoutedTo(current, [], ForReview) == [];
  }

  lemma AttractorChanges(current: Mapping)
    requires current == UnreadablePersona()
    ensures Passes(current, AttractorUpdate(), Some({"event"}))
    ensures Immediate(current, AttractorUpdate()) == [] && Deferred(current, AttractorUpdate()) == [ATTRACTOR_CHANGE]
  {
    hide RouteOf, PersonaValid, RequiredEvidence, UnreadablePersona, RoutedTo;
    AttractorRouted(current);
    assert WithSupport(current, [], 1, true) == [] && WithSupport(current, [], 1, false) == [];
  }

  lemma ReviewIsNotRelationship(current: Mapping, change: Change)
    requires RouteOf(current, change) == ForReview
    ensures !("relationship_memory" <= change.path[0])
  {
    var j :| 0 <= j < |PROPOSAL_ONLY_PREFIXES| && PROPOSAL_ONLY_PREFIXES[j] <= change.path;
    var field := change.path[0];
    assert field == PROPOSAL_ONLY_PREFIXES[j][0];
    assert |field| < |"relationship_memory"| || field[0] != "relationship_memory"[0];
  }

  lemma CandidatesKept(cs: seq<Candidate>, current: Mapping, u: Update, visible: Option<set<string>>)
    requires CandidatesOk(cs) && Passes(current, u, visible) && Readable(current, Deferred(current, u))
    ensures MostRequired(current, Deferred(current, u)).Ok?
    ensures var after := NextCandidates(cs, current, u); CandidatesOk(after) && CandidatesStep(cs, after)
  {
    hide CandidatesOk, CandidatesStep, SaveCandidate, Reconciled, PersonaValid, RouteOf;
    MostRequiredIsMost(current, Deferred(current, u));
    var autos, later := Immediate(current, u), Deferred(current, u);
    var reconciled := AfterCommit(cs, current, u);
    if autos != [] {
      ReconcileKeeps(cs, u.agent, current, NextPersona(current, u), PolicyCommit);
    } else {
      SameCandidates(cs);
    }
    if later != [] {
      SaveKeeps(reconciled, u.agent, u.reason, u.evidence, later, MostRequired(current, later).value);
      CandidatesStepTransitive(cs, reconciled, NextCandidates(cs, current, u));
    }
  }

  lemma CandidatesKeptOnRefusal(before: seq<Candidate>, settled: seq<Candidate>, agent: AgentId, changes: seq<Change>)
    requires CandidatesOk(settled) && CandidatesStep(before, settled)
    ensures var after := AllSuperseded(settled, agent, changes); CandidatesOk(after) && CandidatesStep(before, after)
  {
    hide CandidatesOk, CandidatesStep;
    SupersedeKeeps(settled, agent, changes);
    CandidatesStepTransitive(before, settled, AllSuperseded(settled, agent, changes));
  }

  lemma SameCandidates(cs: seq<Candidate>)
    ensures CandidatesStep(cs, cs)
  {
  }

  // -- the store -----------------------------------------------------------------------------

  class PersonaFiles {
    var personas: map<AgentId, Mapping>
    var candidates: seq<Candidate>

    predicate Valid()
      reads this
    {
      && (forall a: AgentId :: a in personas && PersonaValid(AgentName(a), personas[a]))
      && CandidatesOk(candidates)
    }

    constructor (seeds: map<AgentId, Mapping>)
      requires forall a: AgentId :: a in seeds && PersonaValid(AgentName(a), seeds[a])
      ensures Valid() && personas == seeds && candidates == []
    {
      personas, candidates := seeds, [];
    }

    /** Sort an update's changes: at once if the path allows it, for review, or refuse it all. */
    static method Classify(current: Mapping, changes: seq<Change>)
      returns (r: Result<(seq<Change>, seq<Change>)>)
      ensures r.Ok? <==> forall i :: 0 <= i < |changes| ==> RouteOf(current, changes[i]) != Refuse
      ensures r.Ok? ==> r.value == (RoutedTo(current, changes, Automatic), RoutedTo(current, changes, ForReview))
    {
      hide RouteOf;
      var automatic: seq<Change> := [];
      var dormant: seq<Change> := [];
      for i := 0 to |changes|
        invariant forall j :: 0 <= j < i ==> RouteOf(current, changes[j]) != Refuse
        invariant automatic == RoutedTo(current, changes[..i], Automatic)
        invariant dormant == RoutedTo(current, changes[..i], ForReview)
      {
        assert changes[..i + 1][..i] == changes[..i];
        var change := changes[i];
        match RouteOf(current, change) {
          case Refuse => return Err(Invalid);
          case Automatic => automatic := automatic + [change];
          case ForReview => dormant := dormant + [change];
        }
      }
      assert changes[..|changes|] == changes;
      return Ok((automatic, dormant));
    }

    /** Keep apart the changes that have evidence enough. */
    static method Weigh(current: Mapping, automatic: seq<Change>, events: nat)
      returns (r: Result<(seq<Change>, seq<Change>)>)
      ensures r.Ok? <==> Readable(current, automatic)
      ensures r.Ok? ==>
                r.value
                == (WithSupport(current, automatic, events, true), WithSupport(current, automatic, events, false))
    {
      hide RequiredEvidence;
      var enough: seq<Change> := [];
      var late: seq<Change> := [];
      for i := 0 to |automatic|
        invariant forall j :: 0 <= j < i ==> RequiredEvidence(current, automatic[j].path).Ok?
        invariant enough == WithSupport(current, automatic[..i], events, true)
        invariant late == WithSupport(current, automatic[..i], events, false)
      {
        assert automatic[..i + 1][..i] == automatic[..i];
        var required := RequiredEvidence(current, automatic[i].path);
        if required.Err? {
          return Err(required.error);
        }
        if events >= required.value {
          enough := enough + [automatic[i]];
        } else {
          late := late + [automatic[i]];
        }
      }
      assert automatic[..|automatic|] == automatic;
      return Ok((enough, late));
    }

    /** Set each committed path in a copy of the persona. */
    static method Revise(current: Mapping, changes: seq<Change>) returns (r: Result<Mapping>)
      ensures r.Ok? <==> ApplyAll(current, changes).Ok?
      ensures r.Ok? ==> r == ApplyAll(current, changes)
    {
      var revised := current;
      for i := 0 to |changes|
        invariant ApplyAll(current, changes[..i]) == Ok(revised)
      {
        assert changes[..i + 1][..i] == changes[..i];
        var next := SetPath(revised, changes[i].path, changes[i].value, changes[i].operation);
        if next.Err? {
          ApplyFailsEarly(current, changes, i + 1);
          return Err(next.error);
        }
        revised := next.value;
      }
      assert changes[..|changes|] == changes;
      return Ok(revised);
    }

    /** Settle the candidates an edit of the persona decides. */
    method Reconcile(agent: AgentId, previous: Mapping, revised: Mapping, actor: Actor)
      modifies this`candidates
      ensures candidates == Reconciled(old(candidates), agent, previous, revised, actor)
    {
      var i := 0;
      while i < |candidates|
        invariant |candidates| == |old(candidates)| && 0 <= i <= |candidates|
        invariant forall j :: 0 <= j < i ==>
                    candidates[j] == ReconciledOne(old(candidates)[j], agent, previous, revised, actor)
        invariant forall j :: i <= j < |candidates| ==> candidates[j] == old(candidates)[j]
      {
        hide AllPresent, Touched;
        var c := candidates[i];
        if c.agent == agent && IsActive(c) && c.changes != [] {
          var incorporated := AllPresent(revised, c.changes);
          var touched := Touched(previous, revised, c.changes);
          if incorporated || touched {
            c := c.(status := if incorporated then Incorporated else Overtaken(actor));
            candidates := candidates[i := c];
          }
        }
        i := i + 1;
      }
    }

    static lemma FoundUpTo(cs: seq<Candidate>, i: nat, agent: AgentId, changes: seq<Change>)
      requires i < |cs|
      ensures FindProposal(cs[..i + 1], agent, changes)
              == if SameProposal(cs[i], agent, changes) then Some(i) else FindProposal(cs[..i], agent, changes)
    {
      assert cs[..i + 1][..i] == cs[..i];
    }

    static lemma FoundInNone(agent: AgentId, changes: seq<Change>)
      ensures FindProposal([], agent, changes) == None
    {
    }

    /** Supersede what the changes overlap, and find an equal proposal. */
    method Supersede(agent: AgentId, changes: seq<Change>) returns (found: Option<nat>)
      modifies this`candidates
      ensures candidates == AllSuperseded(old(candidates), agent, changes)
      ensures found == FindProposal(old(candidates), agent, changes)
    {
      hide Overlap, IsActive, FindProposal;
      FoundInNone(agent, changes);
      found := None;
      var i := 0;
      while i < |candidates|
        invariant |candidates| == |old(candidates)| && 0 <= i <= |candidates|
        invariant found == FindProposal(old(candidates)[..i], agent, changes)
        invariant forall j :: 0 <= j < i ==> candidates[j] == SupersededBy(old(candidates)[j], agent, changes)
        invariant forall j :: i <= j < |candidates| ==> candidates[j] == old(candidates)[j]
      {
        FoundUpTo(old(candidates), i, agent, changes);
        var existing := candidates[i];
        if SameProposal(existing, agent, changes) {
          found := Some(i);
        } else if existing.agent == agent && IsActive(existing) && Overlap(existing.changes, changes) {
          candidates := candidates[i := existing.(status := Superseded)];
        }
        i := i + 1;
      }
      assert old(candidates)[..|candidates|] == old(candidates);
    }

    /** Keep changes for the user: with the evidence of an equal proposal, or as a new one. What they overlap
        is superseded first, even if then the policy cannot be read. */
    method SaveDormant(agent: AgentId, reason: string, evidence: seq<Evidence>, changes: seq<Change>, current: Mapping)
      returns (r: Result<()>)
      modifies this`candidates
      ensures r.Ok? <==> Readable(current, changes)
      ensures r.Ok? ==>
                && MostRequired(current, changes).Ok?
                && candidates == SaveCandidate(old(candidates), agent, reason, evidence, changes,
                                               MostRequired(current, changes).value)
      ensures r.Err? ==> candidates == AllSuperseded(old(candidates), agent, changes)
    {
      hide Seen, Overlap, MostRequired;
      var found := Supersede(agent, changes);
      MostRequiredIsMost(current, changes);
      var required := MostRequired(current, changes);
      if required.Err? {
        return Err(required.error);
      }
      match found {
        case Some(k) =>
          assert candidates[k] == old(candidates)[k];
          candidates := candidates[k := Seen(Some(candidates[k]), agent, reason, evidence, changes, required.value)];
        case None =>
          candidates := candidates + [Seen(None, agent, reason, evidence, changes, required.value)];
      }
      return Ok(());
    }

    /** An agent's own update. It commits what its evidence supports and keeps the rest for the user. That the
        policy's attractor threshold cannot be read is found out only after the other changes are written
        and overlapping candidates superseded. */
    method SubmitUpdate(u: Update, visible: Option<set<string>>) returns (r: Result<Summary>)
      requires Valid()
      modifies this
      ensures Valid() && CandidatesStep(old(candidates), candidates)
      ensures var current := old(personas)[u.agent];
              && (r.Ok? <==> Passes(current, u, visible) && Readable(current, Deferred(current, u)))
              && (r.Ok? ==> r.value == Summary(|Immediate(current, u)|, |Deferred(current, u)|))
              && personas == old(personas)[u.agent := PersonaAfter(current, u, visible)]
              && candidates == CandidatesAfter(old(candidates), current, u, visible)
    {
      hide RouteOf, PersonaValid, CandidatesOk, CandidatesStep, RequiredEvidence, EvidenceVerified, ApplyAll,
           Reconciled, MostRequired, NextCandidates;
      var current := personas[u.agent];
      SameCandidates(candidates);
      if u.changes == [] {
        return Err(Invalid);
      }
      var sorted := Classify(current, u.changes);
      if sorted.Err? {
        return Err(sorted.error);
      }
      if !EvidenceVerified(u.evidence, visible) {
        return Err(Invalid);
      }
      var weighed := Weigh(current, sorted.value.0, |u.evidence|);
      if weighed.Err? {
        return Err(weighed.error);
      }
      var (immediate, late) := weighed.value;
      var deferred := sorted.value.1 + late;
      assert immediate == Immediate(current, u) && deferred == Deferred(current, u);
      if immediate != [] {
        var committed := Commit(u, visible);
        if committed.Err? {
          return Err(committed.error);
        }
      }
      r := Postpone(u, visible, current, old(candidates), |immediate|, deferred);
    }

    /** Write the persona with its committed changes, and settle the candidates they decide. */
    method Commit(u: Update, ghost visible: Option<set<string>>) returns (r: Result<()>)
      requires Valid() && Immediate(personas[u.agent], u) != []
      requires u.changes != [] && EvidenceVerified(u.evidence, visible)
      requires forall i :: 0 <= i < |u.changes| ==> RouteOf(personas[u.agent], u.changes[i]) != Refuse
      requires Readable(personas[u.agent], RoutedTo(personas[u.agent], u.changes, Automatic))
      modifies this
      ensures Valid() && CandidatesStep(old(candidates), candidates)
      ensures var current := old(personas)[u.agent];
              && (r.Ok? <==> Passes(current, u, visible))
              && (r.Err? ==> personas == old(personas) && candidates == old(candidates))
              && (r.Ok? ==>
                    && personas == old(personas)[u.agent := NextPersona(current, u)]
                    && candidates
                       == Reconciled(old(candidates), u.agent, current, NextPersona(current, u), PolicyCommit))
    {
      hide RouteOf, CandidatesOk, CandidatesStep, PersonaValid, RequiredEvidence, EvidenceVerified, ApplyAll;
      var current := personas[u.agent];
      SameCandidates(candidates);
      ImmediateIsAllowed(current, u);
      var revised := Revise(current, WithSupport(current, RoutedTo(current, u.changes, Automatic), |u.evidence|, true));
      if revised.Err? {
        return Err(revised.error);
      }
      CoreMotifKept(current, Immediate(current, u));
      if GetPath(current, ["core_motif"]) != GetPath(revised.value, ["core_motif"]) {
        assert false;
      }
      var version := VersionOf(revised.value);
      if !PersonaValid(AgentName(u.agent), revised.value) || version.Err? {
        return Err(Invalid);
      }
      AcceptedIsValid(current, u, visible);
      var next := revised.value["version" := Int(version.value + 1)];
      personas := personas[u.agent := next];
      ReconcileKeeps(candidates, u.agent, current, next, PolicyCommit);
      Reconcile(u.agent, current, next, PolicyCommit);
      return Ok(());
    }

    /** Keep what was not committed. */
    method Postpone(u: Update, ghost visible: Option<set<string>>, current: Mapping, ghost before: seq<Candidate>,
                    committed: nat, deferred: seq<Change>)
      returns (r: Result<Summary>)
      requires Valid() && Passes(current, u, visible) && CandidatesOk(before) && CandidatesStep(before, candidates)
      requires deferred == Deferred(current, u) && committed == |Immediate(current, u)|
      requires candidates == AfterCommit(before, current, u)
      modifies this`candidates
      ensures Valid() && CandidatesStep(before, candidates)
      ensures r.Ok? <==> Readable(current, deferred)
      ensures r.Ok? ==> r.value == Summary(committed, |deferred|)
      ensures candidates == CandidatesAfter(before, current, u, visible)
    {
      hide RouteOf, PersonaValid, CandidatesOk, CandidatesStep, RequiredEvidence, SaveCandidate, Passes, AfterCommit,
           Immediate, Deferred, MostRequired;
      MostRequiredIsMost(current, deferred);
      if deferred != [] {
        if Readable(current, deferred) {
          CandidatesKept(before, current, u, visible);
        } else {
          CandidatesKeptOnRefusal(before, candidates, u.agent, deferred);
        }
        var saved := SaveDormant(u.agent, u.reason, u.evidence, deferred, current);
        if saved.Err? {
          return Err(saved.error);
        }
      }
      return Ok(Summary(committed, |deferred|));
    }

    /** The user's own edit of a whole persona. */
    method SaveUserEdit(agent: AgentId, parsed: Mapping) returns (r: Result<()>)
      requires Valid()
      modifies this
      ensures Valid() && CandidatesStep(old(candidates), candidates)
      ensures r.Err? ==> personas == old(personas) && candidates == old(candidates)
      ensures var previous := old(personas)[agent];
              && (r.Ok? <==> PersonaValid(AgentName(agent), parsed) && VersionOf(previous).Ok? && VersionOf(parsed).Ok?)
              && (r.Ok? ==>
                    && VersionOf(personas[agent]).Ok?
                    && VersionOf(personas[agent]).value > VersionOf(previous).value
                    && VersionOf(personas[agent]).value >= VersionOf(parsed).value
                    && personas == old(personas)[agent := parsed["version" := Int(VersionOf(personas[agent]).value)]]
                    && candidates == Reconciled(old(candidates), agent, previous, personas[agent], UserEdit))
    {
      hide CandidatesOk, CandidatesStep, PersonaValid;
      SameCandidates(candidates);
      var previous := personas[agent];
      var current, given := VersionOf(previous), VersionOf(parsed);
      if !PersonaValid(AgentName(agent), parsed) || current.Err? || given.Err? {
        return Err(Invalid);
      }
      var version := if current.value + 1 >= given.value then current.value + 1 else given.value;
      VersionKeepsValid(AgentName(agent), parsed, version);
      var next := parsed["version" := Int(version)];
      personas := personas[agent := next];
      ReconcileKeeps(candidates, agent, previous, next, UserEdit);
      Reconcile(agent, previous, next, UserEdit);
      return Ok(());
    }
  }
}
