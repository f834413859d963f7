/** What a reader may rely on about persona updates: which changes commit, on what evidence, and what the kept
    ones become. */
module PersonaGuarantees {
  import opened Records
  import opened Text
  import opened PersonaValues
  import opened PersonaRules
  import opened PersonaCandidates
  import opened PersonaStore

  // -- the policy ----------------------------------------------------------------------------

  const RELATIONSHIP_FIELD := "minimum_supporting_events_for_relationship_change"
  const ATTRACTOR_FIELD := "minimum_supporting_events_for_attractor_change"

  /** What the persona's policy holds in a field. */
  function Policy(persona: Mapping, field: string): Option<Value> {
    GetPath(persona, ["update_policy", field])
  }

  predicate NoPolicyMapping(persona: Mapping) {
    "update_policy" in persona && !persona["update_policy"].Dict?
  }

  /** How many events a policy field asks for: at least one, the given default when the field is absent, and
      nothing readable when it holds no number. */
  predicate AsksFor(persona: Mapping, field: string, default: nat, required: Result<nat>) {
    match Policy(persona, field)
    case None => if NoPolicyMapping(persona) then required.Err? else required == Ok(default)
    case Some(Int(n)) => required == Ok(if n >= 1 then n else 1)
    case Some(Real(x)) => required.Ok? && if x < 2.0 then required.value == 1
                                          else required.value as real <= x < (required.value + 1) as real
    case Some(Bool(_)) => required == Ok(1)
    case Some(_) => required.Err?
  }

  predicate OfRelationship(path: Path) {
    "relationship_memory" <= path[0]
  }

  lemma ThresholdIs(persona: Mapping, name: string, default: nat)
    requires default >= 1
    ensures AsksFor(persona, name, default, Threshold(persona, name, default))
  {
    var path: Path := ["update_policy", name];
    assert path[1..] == [name];
    if "update_policy" in persona && persona["update_policy"].Dict? {
      assert GetPath(persona, path) == GetPath(persona["update_policy"].fields, [name]);
    }
  }

  /** Relationship changes need two events unless the policy says otherwise, attractors five, others one. */
  lemma RequiredEvidenceIs(persona: Mapping, path: Path)
    ensures OfRelationship(path) ==> AsksFor(persona, RELATIONSHIP_FIELD, 2, RequiredEvidence(persona, path))
    ensures OfAttractor(path) ==> AsksFor(persona, ATTRACTOR_FIELD, 5, RequiredEvidence(persona, path))
    ensures !OfRelationship(path) && !OfAttractor(path) ==> RequiredEvidence(persona, path) == Ok(1)
  {
    hide AsksFor, Threshold;
    ThresholdIs(persona, "minimum_supporting_events_for_relationship_change", 2);
    ThresholdIs(persona, "minimum_supporting_events_for_attractor_change", 5);
    AttractorsAreApart(path);
  }

  // -- what is committed, and what is kept for the user --------------------------------------

  lemma {:induction false} RoutedMembers(current: Mapping, changes: seq<Change>, route: Route, c: Change)
    ensures c in RoutedTo(current, changes, route) <==> c in changes && RouteOf(current, c) == route
  {
    hide RouteOf;
    if changes != [] {
      var n := |changes| - 1;
      RoutedMembers(current, changes[..n], route, c);
      assert changes == changes[..n] + [changes[n]];
    }
  }

  lemma {:induction false} SupportedMembers(current: Mapping, changes: seq<Change>, events: nat, enough: bool,
                                            c: Change)
    ensures c in WithSupport(current, changes, events, enough)
            <==> c in changes && PersonaStore.Supported(current, c, events) == enough
  {
    hide PersonaStore.Supported;
    if changes != [] {
      var n := |changes| - 1;
      SupportedMembers(current, changes[..n], events, enough, c);
      assert changes == changes[..n] + [changes[n]];
    }
  }

  /** A change is committed exactly if its path may be and it has the evidence; the others of an update that
      passes are kept. */
  lemma CommittedExactly(current: Mapping, u: Update, visible: Option<set<string>>, c: Change)
    requires Passes(current, u, visible) && c in u.changes
    ensures c in Immediate(current, u) <==>
              PathAllowed(c.path, AUTO_COMMIT_PREFIXES) && RequiredEvidence(current, c.path).Ok?
              && |u.evidence| >= RequiredEvidence(current, c.path).value
    ensures c in Deferred(current, u) <==> c !in Immediate(current, u)
  {
    var i :| 0 <= i < |u.changes| && u.changes[i] == c;
    assert RouteOf(current, c) != Refuse;
    hide Passes, PersonaValid, PathAllowed, RequiredEvidence, ChangeFits, AttractorDeltaFits;
    var autos := RoutedTo(current, u.changes, Automatic);
    RoutedMembers(current, u.changes, Automatic, c);
    RoutedMembers(current, u.changes, ForReview, c);
    SupportedMembers(current, autos, |u.evidence|, true, c);
    SupportedMembers(current, autos, |u.evidence|, false, c);
  }

  /** A change of relationship memory never commits on fewer events than the policy asks for, two when it
      says nothing; on fewer it is kept for the user. */
  lemma RelationshipNeedsEvidence(current: Mapping, u: Update, visible: Option<set<string>>, c: Change)
    requires Passes(current, u, visible) && c in u.changes && OfRelationship(c.path)
    ensures Policy(current, RELATIONSHIP_FIELD) == None ==>
              (c in Immediate(current, u) <==> |u.evidence| >= 2) && (c in Deferred(current, u) <==> |u.evidence| < 2)
    ensures Policy(current, RELATIONSHIP_FIELD).Some? && Policy(current, RELATIONSHIP_FIELD).value.Int? ==>
              var n := Policy(current, RELATIONSHIP_FIELD).value.number;
              && (c in Immediate(current, u) <==> |u.evidence| >= n)
              && (c in Deferred(current, u) <==> |u.evidence| < n)
  {
    CommittedExactly(current, u, visible, c);
    RequiredEvidenceIs(current, c.path);
    RelationshipCommits(current, c);
    RelationshipReadable(current, u, visible, c);
    hide Passes, Immediate, Deferred, RequiredEvidence, PathAllowed, RouteOf, OfRelationship;
  }

  lemma RelationshipReadable(current: Mapping, u: Update, visible: Option<set<string>>, c: Change)
    requires Passes(current, u, visible) && c in u.changes && OfRelationship(c.path)
    ensures PathAllowed(c.path, AUTO_COMMIT_PREFIXES) && RequiredEvidence(current, c.path).Ok? && |u.evidence| >= 1
  {
    var i :| 0 <= i < |u.changes| && u.changes[i] == c;
    assert RouteOf(current, u.changes[i]) != Refuse;
    hide PersonaValid, RequiredEvidence, ChangeFits, AttractorDeltaFits;
    RelationshipCommits(current, c);
    RoutedMembers(current, u.changes, Automatic, c);
    var autos := RoutedTo(current, u.changes, Automatic);
    var k :| 0 <= k < |autos| && autos[k] == c;
  }

  lemma RelationshipCommits(current: Mapping, c: Change)
    requires OfRelationship(c.path)
    ensures RouteOf(current, c) != Refuse ==> PathAllowed(c.path, AUTO_COMMIT_PREFIXES)
  {
    if RouteOf(current, c) == ForReview {
      ReviewIsNotRelationship(current, c);
    }
  }

  /** The requirement of a kept proposal is the greatest its changes have, and one of theirs. */
  lemma {:induction false} MostIsReached(current: Mapping, changes: seq<Change>)
    requires MostRequired(current, changes).Ok? && changes != []
    ensures forall c :: c in changes ==>
              RequiredEvidence(current, c.path).Ok?
              && RequiredEvidence(current, c.path).value <= MostRequired(current, changes).value
    ensures exists c :: c in changes && RequiredEvidence(current, c.path) == MostRequired(current, changes)
  {
    hide RequiredEvidence;
    var n := |changes| - 1;
    assert changes == changes[..n] + [changes[n]];
    if n > 0 {
      MostIsReached(current, changes[..n]);
      assert changes[n] in changes;
    } else {
      AtLeastOne(current, changes[0].path);
    }
  }

  lemma AtLeastOne(current: Mapping, path: Path)
    ensures RequiredEvidence(current, path).Ok? ==> RequiredEvidence(current, path).value >= 1
  {
  }

  /** The candidate that keeps an update's changes. */
  predicate Keeps(c: Candidate, before: Option<Candidate>, u: Update, changes: seq<Change>, required: nat) {
    && c.agent == u.agent && c.status == CandidateStatus.Dormant && c.changes == changes && c.reason == u.reason
    && c.required == required
    && c.observations == 1 + (if before.Some? then before.value.observations else 0)
    && EventsOf(c.evidence) == EventsOf(u.evidence) + (if before.Some? then EventsOf(before.value.evidence) else {})
    && c.verified == |EventsOf(c.evidence)| && (c.eligible <==> |EventsOf(c.evidence)| >= required)
  }

  lemma SeenKeeps(before: Option<Candidate>, u: Update, changes: seq<Change>, required: nat)
    requires changes != [] && (before.Some? ==> CandidateOk(before.value))
    ensures Keeps(Seen(before, u.agent, u.reason, u.evidence, changes, required), before, u, changes, required)
  {
    SeenOk(before, u.agent, u.reason, u.evidence, changes, required);
    hide Merge, EventsOf;
  }

  lemma SavedIsKept(cs: seq<Candidate>, u: Update, changes: seq<Change>, required: nat) returns (k: nat)
    requires CandidatesOk(cs) && changes != []
    ensures var after := SaveCandidate(cs, u.agent, u.reason, u.evidence, changes, required);
            && k < |after|
            && (k < |cs| ==> SameProposal(cs[k], u.agent, changes))
            && Keeps(after[k], if k < |cs| then Some(cs[k]) else None, u, changes, required)
            && forall i :: 0 <= i < |cs| && i != k ==> after[i] == SupersededBy(cs[i], u.agent, changes)
  {
    hide Overlap, Seen, Keeps, CandidateOk, EventsOf;
    var found := FindProposal(cs, u.agent, changes);
    k := if found.Some? then found.value else |cs|;
    SeenKeeps(if found.Some? then Some(cs[k]) else None, u, changes, required);
  }

  /** The candidate holds the update's deferred changes under their greatest requirement. */
  predicate KeptAt(c: Candidate, before: Option<Candidate>, current: Mapping, u: Update, required: nat) {
    && Keeps(c, before, u, Deferred(current, u), required)
    && (before.Some? ==> before.value.changes == Deferred(current, u))
    && (forall change :: change in Deferred(current, u) ==>
          RequiredEvidence(current, change.path).Ok? && RequiredEvidence(current, change.path).value <= required)
    && exists change :: change in Deferred(current, u) && RequiredEvidence(current, change.path) == Ok(required)
  }

  lemma SettledOk(cs: seq<Candidate>, current: Mapping, u: Update, visible: Option<set<string>>)
    requires CandidatesOk(cs) && Passes(current, u, visible)
    ensures Immediate(current, u) != [] ==> Revised(current, u).Ok? && VersionOf(current).Ok?
    ensures CandidatesOk(AfterCommit(cs, current, u))
  {
    hide CandidatesOk, CandidatesStep, RouteOf, PersonaValid;
    if Immediate(current, u) != [] {
      ReconcileKeeps(cs, u.agent, current, NextPersona(current, u), PolicyCommit);
    }
  }

  /** Whatever an accepted update does not commit is kept as one candidate, with its evidence, under the
      greatest requirement of its changes. */
  lemma DeferredIsKept(cs: seq<Candidate>, current: Mapping, u: Update, visible: Option<set<string>>)
    returns (k: nat, before: Option<Candidate>)
    requires CandidatesOk(cs) && Passes(current, u, visible) && Readable(current, Deferred(current, u))
    requires Deferred(current, u) != []
    ensures k < |CandidatesAfter(cs, current, u, visible)| && (before.Some? <==> k < |cs|)
    ensures KeptAt(CandidatesAfter(cs, current, u, visible)[k], before, current, u,
                   CandidatesAfter(cs, current, u, visible)[k].required)
  {
    SettledOk(cs, current, u, visible);
    AfterIsSaved(cs, current, u, visible);
    hide *;
    var settled, changes := AfterCommit(cs, current, u), Deferred(current, u);
    var required := MostRequired(current, changes).value;
    MostIsReached(current, changes);
    k := SavedIsKept(settled, u, changes, required);
    before := if k < |settled| then Some(settled[k]) else None;
    KeptUnder(CandidatesAfter(cs, current, u, visible)[k], before, current, u, required);
  }

  lemma KeptUnder(c: Candidate, before: Option<Candidate>, current: Mapping, u: Update, required: nat)
    requires Keeps(c, before, u, Deferred(current, u), required)
    requires before.Some? ==> SameProposal(before.value, u.agent, Deferred(current, u))
    requires forall change :: change in Deferred(current, u) ==>
               RequiredEvidence(current, change.path).Ok? && RequiredEvidence(current, change.path).value <= required
    requires exists change :: change in Deferred(current, u) && RequiredEvidence(current, change.path) == Ok(required)
    ensures c.required == required && KeptAt(c, before, current, u, c.required)
  {
    hide Deferred, RequiredEvidence;
  }

  lemma AfterIsSaved(cs: seq<Candidate>, current: Mapping, u: Update, visible: Option<set<string>>)
    requires Passes(current, u, visible) && Readable(current, Deferred(current, u)) && Deferred(current, u) != []
    ensures Immediate(current, u) != [] ==> Revised(current, u).Ok? && VersionOf(current).Ok?
    ensures MostRequired(current, Deferred(current, u)).Ok? && |AfterCommit(cs, current, u)| == |cs|
    ensures CandidatesAfter(cs, current, u, visible)
            == SaveCandidate(AfterCommit(cs, current, u), u.agent, u.reason, u.evidence, Deferred(current, u),
                             MostRequired(current, Deferred(current, u)).value)
  {
    MostRequiredIsMost(current, Deferred(current, u));
    AfterCommitSize(cs, current, u);
    hide Readable, Deferred, Immediate, MostRequired, SaveCandidate, AfterCommit, RouteOf, PersonaValid,
         EvidenceVerified;
  }

  lemma AfterCommitSize(cs: seq<Candidate>, current: Mapping, u: Update)
    requires Immediate(current, u) != [] ==> Revised(current, u).Ok? && VersionOf(current).Ok?
    ensures |AfterCommit(cs, current, u)| == |cs|
  {
  }

  // -- evidence ------------------------------------------------------------------------------

  lemma EventsMore(evidence: seq<Evidence>)
    requires evidence != []
    ensures var n := |evidence| - 1;
            && EventsOf(evidence) == EventsOf(evidence[..n]) + {evidence[n].event}
            && (DistinctEvents(evidence) <==>
                  DistinctEvents(evidence[..n]) && evidence[n].event !in EventsOf(evidence[..n]))
  {
  }

  lemma {:induction false} CountedDistinct(evidence: seq<Evidence>)
    ensures |EventsOf(evidence)| <= |evidence|
    ensures |EventsOf(evidence)| == |evidence| <==> DistinctEvents(evidence)
  {
    if evidence != [] {
      var n := |evidence| - 1;
      CountedDistinct(evidence[..n]);
      EventsMore(evidence);
      hide EventsOf, DistinctEvents;
      OneMoreEvent(EventsOf(evidence[..n]), evidence[n].event);
    }
  }

  lemma OneMoreEvent(events: set<string>, event: string)
    ensures |events + {event}| == |events| + if event in events then 0 else 1
  {
    if event in events {
      assert events + {event} == events;
    }
  }

  /** Evidence passes exactly if it names some events, each once, and all of them can be seen. */
  lemma EvidenceExactly(evidence: seq<Evidence>, visible: Option<set<string>>)
    ensures EvidenceVerified(evidence, visible) <==>
              && visible.Some? && EventsOf(evidence) != {} && EventsOf(evidence) <= visible.value
              && |EventsOf(evidence)| == |evidence|
  {
    CountedDistinct(evidence);
    forall i | 0 <= i < |evidence| ensures evidence[i].event in EventsOf(evidence) {
    }
  }

  /** Of two accounts of an event the later one is kept. */
  lemma {:induction false} LaterAccountKept(known: seq<Evidence>, more: seq<Evidence>, item: Evidence)
    requires DistinctEvents(known) && DistinctEvents(more)
    ensures item in Merge(known, more) <==>
              item in more || (item in known && item.event !in EventsOf(more))
  {
    if more != [] {
      var n := |more| - 1;
      var init := more[..n];
      LaterAccountKept(known, init, item);
      MergeUnites(known, init);
      assert more == init + [more[n]];
      assert EventsOf(more) == EventsOf(init) + {more[n].event};
      AddedMembers(Merge(known, init), more[n], item);
      if item in init {
        assert item.event != more[n].event;
      }
      hide Merge, AddEvidence;
    }
  }

  lemma AddedMembers(evidence: seq<Evidence>, added: Evidence, item: Evidence)
    requires DistinctEvents(evidence)
    ensures item in AddEvidence(evidence, added) <==> item == added || (item in evidence && item.event != added.event)
  {
    var r := AddEvidence(evidence, added);
    match Position(evidence, added.event)
    case Some(k) =>
      assert r[k] == added;
      if item in evidence && item.event != added.event {
        var i :| 0 <= i < |evidence| && evidence[i] == item;
        assert r[i] == item;
      }
      if item in r && item != added {
        var i :| 0 <= i < |r| && r[i] == item;
        assert i != k && evidence[i] == item;
      }
    case None =>
  }

  // -- which paths ---------------------------------------------------------------------------

  predicate Under(path: Path, field: string, part: string) {
    |path| >= 2 && path[0] == field && path[1] == part
  }

  /** What agents may commit on their own, spelled out. */
  lemma AutomaticPaths(path: Path)
    ensures PathAllowed(path, AUTO_COMMIT_PREFIXES) <==>
              || path[0] == "current_position" || path[0] == "motif_expression" || path[0] == "relationship_memory"
              || Under(path, "continuity_training", "current_cycle")
              || Under(path, "self_model", "recurring_strengths") || Under(path, "self_model", "recurring_distortions")
              || Under(path, "self_model", "developmental_notes")
  {
    PrefixIs(path, AUTO_COMMIT_PREFIXES);
    hide PathAllowed;
    assert AUTO_COMMIT_PREFIXES[0] == ["current_position"];
    assert AUTO_COMMIT_PREFIXES[1] == ["motif_expression"];
    assert AUTO_COMMIT_PREFIXES[2] == ["relationship_memory"];
    assert AUTO_COMMIT_PREFIXES[3] == ["continuity_training", "current_cycle"];
    assert AUTO_COMMIT_PREFIXES[4] == ["self_model", "recurring_strengths"];
    assert AUTO_COMMIT_PREFIXES[5] == ["self_model", "recurring_distortions"];
    assert AUTO_COMMIT_PREFIXES[6] == ["self_model", "developmental_notes"];
  }

  /** What is always left to the user. */
  lemma ReviewPaths(path: Path)
    ensures PathAllowed(path, PROPOSAL_ONLY_PREFIXES) <==>
              || path[0] == "core_disposition" || path[0] == "systems_style" || path[0] == "research_style"
              || path[0] == "attractors" || path[0] == "conversation"
              || Under(path, "continuity_training", "continuity_channels")
              || Under(path, "continuity_training", "continuity_conditions")
  {
    PrefixIs(path, PROPOSAL_ONLY_PREFIXES);
    hide PathAllowed;
    assert PROPOSAL_ONLY_PREFIXES[0] == ["core_disposition"];
    assert PROPOSAL_ONLY_PREFIXES[1] == ["systems_style"];
    assert PROPOSAL_ONLY_PREFIXES[2] == ["research_style"];
    assert PROPOSAL_ONLY_PREFIXES[3] == ["attractors"];
    assert PROPOSAL_ONLY_PREFIXES[4] == ["conversation"];
    assert PROPOSAL_ONLY_PREFIXES[5] == ["continuity_training", "continuity_channels"];
    assert PROPOSAL_ONLY_PREFIXES[6] == ["continuity_training", "continuity_conditions"];
  }

  /** What no agent may even propose. */
  lemma LockedPaths(path: Path)
    ensures PathAllowed(path, AGENT_LOCKED_PREFIXES) <==>
              || path[0] == "agent_id" || path[0] == "core_motif"
              || path[0] == "source_context" || path[0] == "schema_version"
  {
    PrefixIs(path, AGENT_LOCKED_PREFIXES);
    hide PathAllowed;
    assert AGENT_LOCKED_PREFIXES[0] == ["agent_id"];
    assert AGENT_LOCKED_PREFIXES[1] == ["core_motif"];
    assert AGENT_LOCKED_PREFIXES[2] == ["source_context"];
    assert AGENT_LOCKED_PREFIXES[3] == ["schema_version"];
  }

  lemma PrefixIs(path: Path, prefixes: seq<Path>)
    requires forall i :: 0 <= i < |prefixes| ==> |prefixes[i]| <= 2
    ensures PathAllowed(path, prefixes) <==>
              exists i :: 0 <= i < |prefixes| && prefixes[i][0] == path[0]
                          && (|prefixes[i]| == 2 ==> |path| >= 2 && prefixes[i][1] == path[1])
  {
    forall i | 0 <= i < |prefixes|
      ensures prefixes[i] <= path <==>
                prefixes[i][0] == path[0] && (|prefixes[i]| == 2 ==> |path| >= 2 && prefixes[i][1] == path[1])
    {
    }
  }

  // -- which values --------------------------------------------------------------------------

  predicate Amounts(v: Value, x: real) {
    match v
    case Int(n) => x == n as real
    case Real(amount) => x == amount
    case Bool(truth) => x == if truth then 1.0 else 0.0
    case _ => false
  }

  predicate OfStrength(path: Path) {
    OfAttractor(path) && path[|path| - 1] == "strength"
  }

  /** A known attractor's strength moves from `before` to `after`, by no more than the policy allows. */
  predicate StrengthMoves(current: Mapping, c: Change, before: real, after: real, most: real) {
    && |c.path| == 3 && GetPath(current, c.path).Some?
    && Amounts(GetPath(current, c.path).value, before) && Amounts(c.value, after)
    && (match Policy(current, "max_attractor_delta_per_review")
        case None => most == 0.05
        case Some(limit) => Amounts(limit, most))
    && !NoPolicyMapping(current) && before - most <= after <= before + most
  }

  /** A strength may be proposed exactly within the policy's bound, a twentieth when it says nothing. */
  lemma StrengthBounded(current: Mapping, c: Change)
    requires OfStrength(c.path)
    ensures AttractorDeltaFits(current, c) <==>
              exists before, after, most :: StrengthMoves(current, c, before, after, most)
  {
    PolicyIs(current, "max_attractor_delta_per_review");
    hide PolicyField, Policy, GetPath, ChangeFits, NumberOf, Amounts;
    forall v, x ensures Amounts(v, x) <==> NumberOf(v) == Some(x) {
      AmountsIs(v, x);
    }
    var limit := PolicyField(current, "max_attractor_delta_per_review");
    if AttractorDeltaFits(current, c) {
      var before, after := NumberOf(GetPath(current, c.path).value).value, NumberOf(c.value).value;
      var most := if limit.value.Some? then NumberOf(limit.value.value).value else DEFAULT_MAX_ATTRACTOR_DELTA;
      assert StrengthMoves(current, c, before, after, most);
    }
    if before, after, most :| StrengthMoves(current, c, before, after, most) {
      assert AttractorDeltaFits(current, c);
    }
  }

  lemma AmountsIs(v: Value, x: real)
    ensures Amounts(v, x) <==> NumberOf(v) == Some(x)
  {
  }

  lemma PolicyIs(persona: Mapping, field: string)
    ensures PolicyField(persona, field)
            == if NoPolicyMapping(persona) then Err(Invalid) else Ok(Policy(persona, field))
  {
    var path: Path := ["update_policy", field];
    assert path[1..] == [field];
    if "update_policy" in persona && persona["update_policy"].Dict? {
      assert GetPath(persona, path) == GetPath(persona["update_policy"].fields, [field]);
    }
  }

  /** Two values of one type; whole and broken numbers count as one. */
  predicate SameType(v: Value, w: Value) {
    && (v.Null? <==> w.Null?) && (v.Bool? <==> w.Bool?) && (v.Str? <==> w.Str?)
    && (v.List? <==> w.List?) && (v.Dict? <==> w.Dict?)
  }

  lemma CompatibleIsSameType(v: Value, w: Value)
    ensures CompatibleTypes(v, w) <==> SameType(v, w)
  {
  }

  predicate FirstNotNull(items: seq<Value>, i: nat) {
    i < |items| && !items[i].Null? && forall j :: 0 <= j < i ==> items[j].Null?
  }

  lemma {:induction false} FirstKnownIs(items: seq<Value>)
    ensures match FirstKnown(items)
            case Null => forall i :: 0 <= i < |items| ==> items[i].Null?
            case v => exists i: nat :: FirstNotNull(items, i) && items[i] == v
  {
    if items != [] && items[0].Null? {
      FirstKnownIs(items[1..]);
      if !FirstKnown(items[1..]).Null? {
        var i: nat :| FirstNotNull(items[1..], i) && items[1..][i] == FirstKnown(items[1..]);
        assert FirstNotNull(items, i + 1);
      }
    } else if items != [] {
      assert FirstNotNull(items, 0);
    }
  }

  /** A change replaces a value by one of its type, if neither is null, or it adds to a list a value of the type
      of the list's first item; and its value is not too large. */
  predicate Suits(current: Mapping, c: Change) {
    var found := GetPath(current, c.path);
    && BoundedValue(c.value, 0)
    && match c.operation
       case Append =>
         && found.Some? && found.value.List?
         && forall i: nat :: i < |found.value.items| && FirstNotNull(found.value.items, i) ==>
              SameType(found.value.items[i], c.value)
       case Replace => found.Some? ==> found.value.Null? || c.value.Null? || SameType(found.value, c.value)
  }

  lemma SuitsIsFits(current: Mapping, c: Change)
    ensures Suits(current, c) <==> ChangeFits(current, c)
  {
    hide BoundedValue, GetPath;
    var found := GetPath(current, c.path);
    if found.Some? {
      CompatibleIsSameType(found.value, c.value);
      if found.value.List? {
        FirstKnownIs(found.value.items);
        CompatibleIsSameType(FirstKnown(found.value.items), c.value);
        OneFirst(found.value.items);
      }
    }
    hide SameType, CompatibleTypes;
  }

  lemma OneFirst(items: seq<Value>)
    ensures forall i: nat, j: nat :: FirstNotNull(items, i) && FirstNotNull(items, j) ==> i == j
  {
  }

  /** Where a change goes: at once if it suits and its path may be committed; to the user if its path is for
      review and a strength stays within its bound; and otherwise the whole update is refused. */
  lemma RoutedExactly(current: Mapping, c: Change)
    ensures RouteOf(current, c) == Automatic <==> Suits(current, c) && PathAllowed(c.path, AUTO_COMMIT_PREFIXES)
    ensures RouteOf(current, c) == ForReview <==>
              && Suits(current, c) && PathAllowed(c.path, PROPOSAL_ONLY_PREFIXES)
              && (OfStrength(c.path) ==> exists before, after, most :: StrengthMoves(current, c, before, after, most))
  {
    SuitsIsFits(current, c);
    KindsApart(c.path);
    if OfStrength(c.path) {
      StrengthBounded(current, c);
    }
    hide Suits, ChangeFits, PathAllowed, StrengthMoves;
  }

  lemma KindsApart(path: Path)
    ensures PathAllowed(path, AUTO_COMMIT_PREFIXES) ==> !Reserved(path)
    ensures PathAllowed(path, PROPOSAL_ONLY_PREFIXES) ==> !PathAllowed(path, AGENT_LOCKED_PREFIXES)
  {
    if PathAllowed(path, AUTO_COMMIT_PREFIXES) && Reserved(path) {
      AutomaticIsApart(path, path);
    }
    ReviewPaths(path);
    LockedPaths(path);
  }

  datatype Step = Item(index: nat) | Field(key: string)

  /** The value reached by these steps into a value. */
  function Inside(v: Value, steps: seq<Step>): Option<Value>
    decreases |steps|
  {
    if steps == [] then Some(v)
    else
      match v
      case List(items) =>
        if steps[0].Item? && steps[0].index < |items| then Inside(items[steps[0].index], steps[1..]) else None
      case Dict(fields) =>
        if steps[0].Field? && steps[0].key in fields then Inside(fields[steps[0].key], steps[1..]) else None
      case _ => None
  }

  predicate Small(v: Value) {
    match v
    case Str(text) => |text| <= 4000
    case List(items) => |items| <= 100
    case Dict(fields) => |fields| <= 100 && forall key :: key in fields ==> |key| <= 200
    case _ => true
  }

  ghost predicate SmallInside(v: Value, depth: nat) {
    forall steps :: Inside(v, steps).Some? ==> depth + |steps| <= 8 && Small(Inside(v, steps).value)
  }

  lemma NextStep(v: Value, step: Step, steps: seq<Step>)
    ensures Inside(v, [step] + steps)
            == match v
               case List(items) =>
                 if step.Item? && step.index < |items| then Inside(items[step.index], steps) else None
               case Dict(fields) => if step.Field? && step.key in fields then Inside(fields[step.key], steps) else None
               case _ => None
  {
    assert ([step] + steps)[1..] == steps;
  }

  lemma SmallBelow(v: Value, step: Step, depth: nat)
    requires SmallInside(v, depth) && Inside(v, [step]).Some?
    ensures SmallInside(Inside(v, [step]).value, depth + 1)
  {
    var w := Inside(v, [step]).value;
    OneStep(v, step);
    forall steps | Inside(w, steps).Some? ensures depth + 1 + |steps| <= 8 && Small(Inside(w, steps).value) {
      NextStep(v, step, steps);
      assert Inside(v, [step] + steps) == Inside(w, steps);
    }
  }

  lemma OneStep(v: Value, step: Step)
    ensures Inside(v, [step])
            == match v
               case List(items) => if step.Item? && step.index < |items| then Some(items[step.index]) else None
               case Dict(fields) => if step.Field? && step.key in fields then Some(fields[step.key]) else None
               case _ => None
  {
    NextStep(v, step, []);
    assert [step] + [] == [step];
  }

  lemma {:induction false} SmallIfBounded(v: Value, depth: nat, steps: seq<Step>)
    requires BoundedValue(v, depth) && Inside(v, steps).Some?
    ensures depth + |steps| <= 8 && Small(Inside(v, steps).value)
    decreases |steps|
  {
    if steps != [] {
      var step := steps[0];
      assert steps == [step] + steps[1..];
      NextStep(v, step, steps[1..]);
      match v
      case List(items) => SmallIfBounded(items[step.index], depth + 1, steps[1..]);
      case Dict(fields) => SmallIfBounded(fields[step.key], depth + 1, steps[1..]);
    }
  }

  lemma {:induction false} BoundedIfSmall(v: Value, depth: nat)
    requires SmallInside(v, depth)
    ensures BoundedValue(v, depth)
    decreases 9 - depth
  {
    hide SmallInside;
    NotDeeper(v, depth);
    match v
    case List(items) =>
      forall i: nat | i < |items| ensures BoundedValue(items[i], depth + 1) {
        OneStep(v, Item(i));
        SmallBelow(v, Item(i), depth);
        NotDeeper(items[i], depth + 1);
        BoundedIfSmall(items[i], depth + 1);
      }
    case Dict(fields) =>
      forall key | key in fields ensures BoundedValue(fields[key], depth + 1) {
        OneStep(v, Field(key));
        SmallBelow(v, Field(key), depth);
        NotDeeper(fields[key], depth + 1);
        BoundedIfSmall(fields[key], depth + 1);
      }
    case _ =>
  }

  lemma NotDeeper(v: Value, depth: nat)
    requires SmallInside(v, depth)
    ensures depth <= 8 && Small(v)
  {
    assert Inside(v, []) == Some(v);
  }

  /** A change's value passes exactly if nothing in it is nested deeper than eight levels, or too large. */
  lemma BoundedExactly(v: Value)
    ensures BoundedValue(v, 0) <==> SmallInside(v, 0)
  {
    if BoundedValue(v, 0) {
      forall steps | Inside(v, steps).Some? ensures |steps| <= 8 && Small(Inside(v, steps).value) {
        SmallIfBounded(v, 0, steps);
      }
    }
    if SmallInside(v, 0) {
      BoundedIfSmall(v, 0);
    }
  }

  // -- what settles a candidate --------------------------------------------------------------

  /** A replacement is present exactly if making it would change nothing; an addition, if the list has it. */
  lemma PresentExactly(persona: Mapping, c: Change)
    ensures c.operation == Replace ==>
              (ChangeIsPresent(persona, c) <==> SetPath(persona, c.path, c.value, Replace) == Ok(persona))
    ensures c.operation == Append ==>
              (ChangeIsPresent(persona, c) <==>
                 exists items :: GetPath(persona, c.path) == Some(List(items)) && c.value in items)
  {
    if c.operation == Replace {
      if ChangeIsPresent(persona, c) {
        SetAsFound(persona, c.path, c.value);
      }
      if SetPath(persona, c.path, c.value, Replace) == Ok(persona) {
        SetIsFound(persona, c.path, c.value, Replace);
      }
    } else if ChangeIsPresent(persona, c) {
      assert GetPath(persona, c.path) == Some(List(GetPath(persona, c.path).value.items));
    }
  }

  lemma {:induction false} SetAsFound(data: Mapping, path: Path, value: Value)
    requires GetPath(data, path) == Some(value)
    ensures SetPath(data, path, value, Replace) == Ok(data)
    decreases |path|
  {
    if |path| > 1 {
      SetAsFound(data[path[0]].fields, path[1..], value);
      assert data[path[0] := data[path[0]]] == data;
    } else {
      assert data[path[0] := value] == data;
    }
  }

  /** How an edit settles an open candidate of the agent: incorporated if each of its changes is present, else
      overtaken if the edit touched the value at one of its paths, else left open. */
  lemma SettledExactly(c: Candidate, agent: AgentId, previous: Mapping, revised: Mapping, actor: Actor)
    requires c.agent == agent && IsActive(c) && c.changes != []
    ensures var r := ReconciledOne(c, agent, previous, revised, actor);
            && r == c.(status := r.status)
            && (r.status == Incorporated <==> forall change :: change in c.changes ==> ChangeIsPresent(revised, change))
            && (r.status == Overtaken(actor) <==>
                  r.status != Incorporated
                  && exists change :: change in c.changes
                                      && ValueAt(previous, change.path) != ValueAt(revised, change.path))
  {
    hide ChangeIsPresent, ValueAt;
    forall i | 0 <= i < |c.changes| ensures c.changes[i] in c.changes {
    }
  }

  /** Two proposals overlap exactly if they have a path in common. */
  lemma OverlapMeans(p: seq<Change>, q: seq<Change>)
    ensures Overlap(p, q) <==> PathsOf(p) * PathsOf(q) != {}
  {
    if Overlap(p, q) {
      var i, j :| 0 <= i < |p| && 0 <= j < |q| && p[i].path == q[j].path;
      assert p[i].path in PathsOf(p) * PathsOf(q);
    }
    if PathsOf(p) * PathsOf(q) != {} {
      var path :| path in PathsOf(p) * PathsOf(q);
    }
  }

  /** A change that was made is present. */
  lemma MadeIsPresent(data: Mapping, c: Change)
    requires SetPath(data, c.path, c.value, c.operation).Ok?
    ensures ChangeIsPresent(SetPath(data, c.path, c.value, c.operation).value, c)
  {
    SetIsFound(data, c.path, c.value, c.operation);
    hide SetPath, GetPath;
  }

  /** A change touches what it replaces by another value, and nothing apart from its path. */
  lemma TouchedByChange(data: Mapping, c: Change, changes: seq<Change>)
    requires SetPath(data, c.path, c.value, c.operation).Ok?
    ensures var next := SetPath(data, c.path, c.value, c.operation).value;
            && ((forall i :: 0 <= i < |changes| ==> Apart(c.path, changes[i].path)) ==> !Touched(data, next, changes))
            && (c.operation == Replace && ValueAt(data, c.path) != c.value ==>
                  forall i :: 0 <= i < |changes| && changes[i].path == c.path ==> Touched(data, next, changes))
  {
    var next := SetPath(data, c.path, c.value, c.operation).value;
    SetIsFound(data, c.path, c.value, c.operation);
    if forall i :: 0 <= i < |changes| ==> Apart(c.path, changes[i].path) {
      forall i | 0 <= i < |changes| ensures ValueAt(data, changes[i].path) == ValueAt(next, changes[i].path) {
        SetLeavesOthers(data, c.path, c.value, c.operation, changes[i].path);
      }
    }
    hide SetPath, GetPath;
  }

  // -- the persona file ----------------------------------------------------------------------

  /** The field, when the persona has it, is a mapping that holds these lists. */
  predicate Lists(persona: Mapping, field: string, lists: seq<string>) {
    match GetPath(persona, [field])
    case Some(Dict(_)) =>
      forall i :: 0 <= i < |lists| ==>
        GetPath(persona, [field, lists[i]]).Some? && GetPath(persona, [field, lists[i]]).value.List?
    case found => found == None || found == Some(Null)
  }

  lemma HasListsMeans(persona: Mapping, field: string, lists: seq<string>)
    ensures HasLists(persona, field, lists) <==> Lists(persona, field, lists)
  {
    if field in persona && persona[field].Dict? {
      var fields := persona[field].fields;
      forall i | 0 <= i < |lists|
        ensures GetPath(persona, [field, lists[i]]) == if lists[i] in fields then Some(fields[lists[i]]) else None
      {
        var path: Path := [field, lists[i]];
        assert path[1..] == [lists[i]];
        assert GetPath(persona, path) == GetPath(fields, [lists[i]]);
      }
    }
  }

  /** A text that says something: it is not white space throughout. */
  predicate Says(found: Option<Value>) {
    && found.Some?
    && (found.value.Str? ==> exists k :: 0 <= k < |found.value.text| && found.value.text[k] !in " \t\r\n")
  }

  lemma NotBlankSays(found: Option<Value>)
    ensures NotBlank(found) <==> Says(found)
  {
    if found.Some? && found.value.Str? {
      var text := found.value.text;
      StripKeeps(text);
      var i, j :| 0 <= i <= j <= |text| && Strip(text) == text[i..j] && SpacesAround(text, i, j);
      if Strip(text) != "" {
        assert text[i] == Strip(text)[0];
      }
    }
  }

  predicate OfSchema(version: Option<Value>) {
    match version
    case Some(Int(n)) => n >= 4
    case Some(Real(x)) => x >= 4.0
    case _ => false
  }

  lemma SchemaMeans(persona: Mapping)
    ensures OfSchema(GetPath(persona, ["schema_version"])) <==>
              && "schema_version" in persona
              && WholeNumber(Some(persona["schema_version"]), 0).Ok?
              && WholeNumber(Some(persona["schema_version"]), 0).value >= PERSONA_SCHEMA_VERSION
  {
  }

  predicate MappingAt(persona: Mapping, field: string) {
    GetPath(persona, [field]).Some? && GetPath(persona, [field]).value.Dict?
  }

  /** A persona is valid exactly if it is its agent's, of the current schema, named, with a core motif that
      says something, and keeps its mappings and the lists agents write to. */
  lemma ValidPersona(agent: Value, persona: Mapping)
    ensures PersonaValid(agent, persona) <==>
              && GetPath(persona, ["agent_id"]) == Some(agent)
              && OfSchema(GetPath(persona, ["schema_version"]))
              && GetPath(persona, ["display_name"]).Some? && GetPath(persona, ["display_name"]).value.Str?
              && MappingAt(persona, "core_motif")
              && Says(GetPath(persona, ["core_motif", "name"])) && Says(GetPath(persona, ["core_motif", "statement"]))
              && MappingAt(persona, "core_disposition") && MappingAt(persona, "systems_style")
              && MappingAt(persona, "attractors") && MappingAt(persona, "continuity_training")
              && Lists(persona, "motif_expression",
                       ["current_form", "recent_perturbations", "retained_adaptations", "rejected_adaptations"])
              && Lists(persona, "current_position", ["stance", "active_questions", "recent_influences"])
              && Lists(persona, "self_model",
                       ["recurring_strengths", "recurring_distortions", "developmental_notes"])
              && Lists(persona, "relationship_memory", [])
              && (match GetPath(persona, ["continuity_training", "current_cycle"])
                  case None => true
                  case Some(cycle) => cycle.Null? || cycle.Dict?)
  {
    SchemaMeans(persona);
    NotBlankSays(GetPath(persona, ["core_motif", "name"]));
    NotBlankSays(GetPath(persona, ["core_motif", "statement"]));
    HasListsMeans(persona, "motif_expression",
                  ["current_form", "recent_perturbations", "retained_adaptations", "rejected_adaptations"]);
    HasListsMeans(persona, "current_position", ["stance", "active_questions", "recent_influences"]);
    HasListsMeans(persona, "self_model", ["recurring_strengths", "recurring_distortions", "developmental_notes"]);
    HasListsMeans(persona, "relationship_memory", []);
    hide Lists, HasLists, Says, NotBlank, OfSchema;
  }

  /** A persona without a version is of version nought. */
  lemma VersionMeans(persona: Mapping)
    ensures GetPath(persona, ["version"]) == None ==> VersionOf(persona) == Ok(0)
    ensures forall n: int :: GetPath(persona, ["version"]) == Some(Int(n)) ==> VersionOf(persona) == Ok(n)
  {
  }
}
