/** What an agent may change in its persona, on what evidence, and what is kept for the user to decide. */
module PersonaRules {
  import opened Records
  import opened Text
  import opened PersonaValues

  const PERSONA_SCHEMA_VERSION := 4
  const DEFAULT_RELATIONSHIP_EVIDENCE_EVENTS := 2
  const DEFAULT_ATTRACTOR_EVIDENCE_EVENTS := 5
  const DEFAULT_MAX_ATTRACTOR_DELTA := 0.05
  const ATTRACTOR_STRENGTH_PATH_PARTS := 3
  const PERSONA_CHANGE_MAX_DEPTH := 8
  const PERSONA_CHANGE_MAX_COLLECTION_ITEMS := 100
  const PERSONA_CHANGE_MAX_STRING_CHARS := 4000
  const PERSONA_CHANGE_MAX_KEY_CHARS := 200

  const AUTO_COMMIT_PREFIXES: seq<Path> := [
    ["current_position"],
    ["motif_expression"],
    ["relationship_memory"],
    ["continuity_training", "current_cycle"],
    ["self_model", "recurring_strengths"],
    ["self_model", "recurring_distortions"],
    ["self_model", "developmental_notes"]]

  const PROPOSAL_ONLY_PREFIXES: seq<Path> := [
    ["core_disposition"],
    ["systems_style"],
    ["research_style"],
    ["attractors"],
    ["conversation"],
    ["continuity_training", "continuity_channels"],
    ["continuity_training", "continuity_conditions"]]

  const AGENT_LOCKED_PREFIXES: seq<Path> := [
    ["agent_id"], ["core_motif"], ["source_context"], ["schema_version"]]

  predicate PathAllowed(path: Path, prefixes: seq<Path>) {
    exists i :: 0 <= i < |prefixes| && prefixes[i] <= path
  }

  // -- policy --------------------------------------------------------------------------------

  function Truncate(x: real): int {
    if x >= 0.0 then x.Floor else -((-x).Floor)
  }

  /** A whole number read from a policy field, when there is one. */
  function WholeNumber(found: Option<Value>, default: int): Result<int> {
    match found
    case None => Ok(default)
    case Some(Int(n)) => Ok(n)
    case Some(Real(x)) => Ok(Truncate(x))
    case Some(Bool(b)) => Ok(if b then 1 else 0)
    case _ => Err(Invalid)
  }

  function PolicyField(persona: Mapping, field: string): Result<Option<Value>> {
    if "update_policy" !in persona then Ok(None)
    else
      match persona["update_policy"]
      case Dict(fields) => Ok(if field in fields then Some(fields[field]) else None)
      case _ => Err(Invalid)
  }

  function Threshold(persona: Mapping, field: string, default: int): (r: Result<nat>)
    ensures r.Ok? ==> r.value >= 1
  {
    var found := PolicyField(persona, field);
    if found.Err? then Err(found.error)
    else
      var n := WholeNumber(found.value, default);
      if n.Err? then Err(n.error) else Ok(if n.value >= 1 then n.value else 1)
  }

  /** How many verified events a change of this path needs. */
  function RequiredEvidence(persona: Mapping, path: Path): Result<nat> {
    if "relationship_memory" <= path[0] then
      Threshold(persona, "minimum_supporting_events_for_relationship_change", DEFAULT_RELATIONSHIP_EVIDENCE_EVENTS)
    else if path[0] == "attractors" && |path| > 1 then
      Threshold(persona, "minimum_supporting_events_for_attractor_change", DEFAULT_ATTRACTOR_EVIDENCE_EVENTS)
    else Ok(1)
  }

  // -- one change ----------------------------------------------------------------------------

  predicate BoundedValue(value: Value, depth: nat)
    decreases PERSONA_CHANGE_MAX_DEPTH + 1 - depth
  {
    depth <= PERSONA_CHANGE_MAX_DEPTH &&
    match value
    case Str(text) => |text| <= PERSONA_CHANGE_MAX_STRING_CHARS
    case List(items) =>
      && |items| <= PERSONA_CHANGE_MAX_COLLECTION_ITEMS
      && forall i :: 0 <= i < |items| ==> BoundedValue(items[i], depth + 1)
    case Dict(fields) =>
      && |fields| <= PERSONA_CHANGE_MAX_COLLECTION_ITEMS
      && forall key :: key in fields ==>
           |key| <= PERSONA_CHANGE_MAX_KEY_CHARS && BoundedValue(fields[key], depth + 1)
    case _ => true
  }

  predicate Numeric(v: Value) {
    v.Int? || v.Real?
  }

  predicate CompatibleTypes(existing: Value, revised: Value) {
    if existing.Bool? || revised.Bool? then existing.Bool? && revised.Bool?
    else if Numeric(existing) && Numeric(revised) then true
    else
      match existing
      case Null => revised.Null?
      case Int(_) => revised.Int?
      case Real(_) => revised.Real?
      case Str(_) => revised.Str?
      case List(_) => revised.List?
      case Dict(_) => revised.Dict?
      case Bool(_) => revised.Bool?
  }

  function FirstKnown(items: seq<Value>): Value {
    if items == [] then Null
    else if !items[0].Null? then items[0]
    else FirstKnown(items[1..])
  }

  predicate ChangeFits(current: Mapping, change: Change) {
    var found := GetPath(current, change.path);
    && BoundedValue(change.value, 0)
    && match change.operation
       case Append =>
         && found.Some? && found.value.List?
         && (!FirstKnown(found.value.items).Null? ==>
               CompatibleTypes(FirstKnown(found.value.items), change.value))
       case Replace =>
         (found.Some? && !found.value.Null? && !change.value.Null? ==> CompatibleTypes(found.value, change.value))
  }

  function NumberOf(v: Value): Option<real> {
    match v
    case Int(n) => Some(n as real)
    case Real(x) => Some(x)
    case Bool(b) => Some(if b then 1.0 else 0.0)
    case _ => None
  }

  predicate AttractorDeltaFits(current: Mapping, change: Change) {
    var path := change.path;
    (path[0] == "attractors" && |path| > 1 && path[|path| - 1] == "strength") ==>
      && |path| == ATTRACTOR_STRENGTH_PATH_PARTS
      && var strength := GetPath(current, path);
         var limit := PolicyField(current, "max_attractor_delta_per_review");
         && strength.Some? && NumberOf(strength.value).Some? && NumberOf(change.value).Some?
         && limit.Ok? && (limit.value.Some? ==> NumberOf(limit.value.value).Some?)
         && var delta := NumberOf(change.value).value - NumberOf(strength.value).value;
            var most := if limit.value.Some? then NumberOf(limit.value.value).value else DEFAULT_MAX_ATTRACTOR_DELTA;
            -most <= delta <= most
  }

  datatype Route = Automatic | ForReview | Refuse

  function RouteOf(current: Mapping, change: Change): Route {
    if !ChangeFits(current, change) || PathAllowed(change.path, AGENT_LOCKED_PREFIXES) then Refuse
    else if PathAllowed(change.path, AUTO_COMMIT_PREFIXES) then Automatic
    else if PathAllowed(change.path, PROPOSAL_ONLY_PREFIXES) && AttractorDeltaFits(current, change) then ForReview
    else Refuse
  }

  // -- the persona file ----------------------------------------------------------------------

  predicate NotBlank(found: Option<Value>) {
    match found
    case None => false
    case Some(Str(text)) => Strip(text) != ""
    case _ => true
  }

  predicate IsMapping(persona: Mapping, key: string) {
    key in persona && persona[key].Dict?
  }

  predicate HasLists(persona: Mapping, key: string, lists: seq<string>) {
    key in persona && persona[key] != Null ==>
      && persona[key].Dict?
      && forall i :: 0 <= i < |lists| ==> lists[i] in persona[key].fields && persona[key].fields[lists[i]].List?
  }

  predicate PersonaValid(agent: Value, persona: Mapping) {
    && "agent_id" in persona && persona["agent_id"] == agent
    && "schema_version" in persona
    && WholeNumber(Some(persona["schema_version"]), 0).Ok?
    && WholeNumber(Some(persona["schema_version"]), 0).value >= PERSONA_SCHEMA_VERSION
    && "display_name" in persona && persona["display_name"].Str?
    && IsMapping(persona, "core_disposition") && IsMapping(persona, "systems_style")
    && IsMapping(persona, "attractors") && IsMapping(persona, "continuity_training")
    && IsMapping(persona, "core_motif")
    && NotBlank(GetPath(persona, ["core_motif", "name"])) && NotBlank(GetPath(persona, ["core_motif", "statement"]))
    && HasLists(persona, "motif_expression",
                ["current_form", "recent_perturbations", "retained_adaptations", "rejected_adaptations"])
    && HasLists(persona, "current_position", ["stance", "active_questions", "recent_influences"])
    && HasLists(persona, "self_model", ["recurring_strengths", "recurring_distortions", "developmental_notes"])
    && HasLists(persona, "relationship_memory", [])
    && (GetPath(persona, ["continuity_training", "current_cycle"]).Some? ==>
          var cycle := GetPath(persona, ["continuity_training", "current_cycle"]).value; cycle.Null? || cycle.Dict?)
  }

  function VersionOf(persona: Mapping): Result<int> {
    WholeNumber(if "version" in persona then Some(persona["version"]) else None, 0)
  }

  // -- the constitution ----------------------------------------------------------------------

  /** No path an agent may commit is on the way to, or below, one it may not. */
  lemma PrefixesApart(i: nat, j: nat)
    requires i < |AUTO_COMMIT_PREFIXES|
    ensures j < |AGENT_LOCKED_PREFIXES| ==> Apart(AUTO_COMMIT_PREFIXES[i], AGENT_LOCKED_PREFIXES[j])
    ensures j < |PROPOSAL_ONLY_PREFIXES| ==> Apart(AUTO_COMMIT_PREFIXES[i], PROPOSAL_ONLY_PREFIXES[j])
  {
    var a := AUTO_COMMIT_PREFIXES[i];
    if j < |AGENT_LOCKED_PREFIXES| {
      var l := AGENT_LOCKED_PREFIXES[j];
      assert a[0] != l[0];
    }
    if j < |PROPOSAL_ONLY_PREFIXES| {
      var l := PROPOSAL_ONLY_PREFIXES[j];
      assert a[0] != l[0] || (|a| == 2 && |l| == 2 && a[1] != l[1]);
    }
  }

  lemma BelowApart(a: Path, l: Path, p: Path, q: Path)
    requires Apart(a, l) && a <= p && l <= q
    ensures Apart(p, q)
  {
  }

  predicate Reserved(q: Path) {
    PathAllowed(q, AGENT_LOCKED_PREFIXES) || PathAllowed(q, PROPOSAL_ONLY_PREFIXES)
  }

  lemma AutomaticIsApart(p: Path, q: Path)
    requires PathAllowed(p, AUTO_COMMIT_PREFIXES) && Reserved(q)
    ensures Apart(p, q)
  {
    var i :| 0 <= i < |AUTO_COMMIT_PREFIXES| && AUTO_COMMIT_PREFIXES[i] <= p;
    if PathAllowed(q, AGENT_LOCKED_PREFIXES) {
      var j :| 0 <= j < |AGENT_LOCKED_PREFIXES| && AGENT_LOCKED_PREFIXES[j] <= q;
      PrefixesApart(i, j);
      BelowApart(AUTO_COMMIT_PREFIXES[i], AGENT_LOCKED_PREFIXES[j], p, q);
    } else {
      var j :| 0 <= j < |PROPOSAL_ONLY_PREFIXES| && PROPOSAL_ONLY_PREFIXES[j] <= q;
      PrefixesApart(i, j);
      BelowApart(AUTO_COMMIT_PREFIXES[i], PROPOSAL_ONLY_PREFIXES[j], p, q);
    }
  }

  /** Whatever agents commit on their own, every locked and every review-only subtree stays as it was. */
  lemma ConstitutionKept(data: Mapping, changes: seq<Change>, q: Path)
    requires ApplyAll(data, changes).Ok? && Reserved(q)
    requires forall i :: 0 <= i < |changes| ==> PathAllowed(changes[i].path, AUTO_COMMIT_PREFIXES)
    ensures GetPath(ApplyAll(data, changes).value, q) == GetPath(data, q)
  {
    forall i | 0 <= i < |changes| ensures Apart(changes[i].path, q) {
      AutomaticIsApart(changes[i].path, q);
    }
    ApplyLeavesOthers(data, changes, q);
  }

  lemma CoreMotifKept(data: Mapping, changes: seq<Change>)
    requires ApplyAll(data, changes).Ok?
    requires forall i :: 0 <= i < |changes| ==> PathAllowed(changes[i].path, AUTO_COMMIT_PREFIXES)
    ensures GetPath(ApplyAll(data, changes).value, ["core_motif"]) == GetPath(data, ["core_motif"])
    ensures VersionOf(ApplyAll(data, changes).value) == VersionOf(data)
  {
  }

}
