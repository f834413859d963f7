/** The motif tables, and what one observation, one batch and one user decision do to them. */
module MotifSteps {
  import opened Records
  import opened Text

  const MOTIF_OBSERVATIONS_PER_BEAT := 3
  const MOTIF_CONNECTION_MAX_ITEMS := 4
  const MOTIF_LABEL_MAX_CHARS := 96
  const MOTIF_DESCRIPTION_MAX_CHARS := 1200
  const CONNECTION_DESCRIPTION_MAX_CHARS := 600
  const AGENT_RELATIONS: set<string> :=
    {"emergence", "return", "extension", "bridge", "contrast", "transformation"}
  const MOTIF_CONNECTION_RELATIONS: set<string> :=
    {"possible_alignment", "translation", "contrast", "extension", "transformation", "shared_evidence"}

  const USER_MOTIF_STATUSES: set<MotifStatus> := {Active, Dormant, Rejected}

  /** Motifs are identified by their position, which stands for a fresh identifier. */
  datatype Motif = Motif(
    project: ProjectId,
    observer: AgentId,
    normalized: string,
    title: string,
    description: string,
    status: MotifStatus,
    confidence: real,
    support: nat,
    distinctTurns: nat,
    lastTurn: TurnId)

  datatype AliasKey = AliasKey(project: ProjectId, observer: AgentId, name: string)

  /** The beat during which an agent observes. */
  datatype Beat = Beat(project: ProjectId, observer: AgentId, turn: TurnId, number: nat)

  datatype EventType = Created | Reinforced | Promoted

  datatype MotifEvent =
    | Observed(motif: nat, beat: Beat, eventType: EventType, relation: string, primary: bool,
               confidence: real, status: MotifStatus, description: string, evidence: seq<string>)
    | StatusSet(motif: nat, status: MotifStatus)

  datatype RelationEvent = RelationEvent(source: nat, beat: Beat, connection: Connection)

  datatype BatchRow = BatchRow(beat: Beat, result: BatchResult)

  datatype MotifTables = MotifTables(
    projects: set<ProjectId>,
    motifs: seq<Motif>,
    aliases: map<AliasKey, nat>,
    events: seq<MotifEvent>,
    relations: seq<RelationEvent>,
    batches: map<OpKey, BatchRow>)

  // -- what an agent submits -----------------------------------------------------------------

  datatype RawConnection =
    | NoConnection
    | RawConnection(motif: Option<nat>, relation: string, description: string, confidence: Option<real>)

  /** An item of the tool call; `confidence` is None when it is not a number. */
  datatype RawItem =
    | NoObject
    | RawItem(motif: Option<nat>, title: string, description: string, relation: string,
              confidence: Option<real>, primary: bool, connections: seq<RawConnection>)

  datatype Connection = Connection(motif: nat, relation: string, description: string, confidence: real)

  datatype Observation = Observation(
    motif: Option<nat>, title: string, normalized: string, description: string, relation: string,
    confidence: real, primary: bool, connections: seq<Connection>)

  datatype Identity = ById(motif: nat) | ByLabel(name: string)

  function IdentityOf(o: Observation): Identity {
    if o.motif.Some? then ById(o.motif.value) else ByLabel(o.normalized)
  }

  predicate InUnit(confidence: Option<real>) {
    confidence.Some? && 0.0 <= confidence.value <= 1.0
  }

  predicate ConnectionAccepted(c: RawConnection) {
    && c.RawConnection? && c.motif.Some?
    && Strip(c.relation) in MOTIF_CONNECTION_RELATIONS
    && 1 <= |Strip(c.description)| <= CONNECTION_DESCRIPTION_MAX_CHARS
    && InUnit(c.confidence)
  }

  predicate ConnectionsAccepted(cs: seq<RawConnection>) {
    && |cs| <= MOTIF_CONNECTION_MAX_ITEMS
    && (forall i :: 0 <= i < |cs| ==> ConnectionAccepted(cs[i]))
    && (forall i, j :: 0 <= i < j < |cs| ==> cs[i].motif != cs[j].motif)
  }

  predicate ItemAccepted(item: RawItem) {
    && item.RawItem?
    && 1 <= |Strip(item.title)| <= MOTIF_LABEL_MAX_CHARS
    && 1 <= |Strip(item.description)| <= MOTIF_DESCRIPTION_MAX_CHARS
    && Strip(item.relation) in AGENT_RELATIONS
    && InUnit(item.confidence)
    && ConnectionsAccepted(item.connections)
    && NormalizeLabel(Strip(item.title)) != ""
  }

  function PreparedConnection(c: RawConnection): Connection
    requires ConnectionAccepted(c)
  {
    Connection(c.motif.value, Strip(c.relation), Strip(c.description), c.confidence.value)
  }

  function PreparedItem(item: RawItem): Observation
    requires ItemAccepted(item)
  {
    var title := Strip(item.title);
    Observation(item.motif, title, NormalizeLabel(title), Strip(item.description), Strip(item.relation),
                item.confidence.value, item.primary,
                seq(|item.connections|,
                    i requires 0 <= i < |item.connections| => PreparedConnection(item.connections[i])))
  }

  function CountPrimary(items: seq<RawItem>): nat {
    if items == [] then 0
    else
      var last := items[|items| - 1];
      CountPrimary(items[..|items| - 1]) + if last.RawItem? && last.primary then 1 else 0
  }

  predicate BatchAccepted(items: seq<RawItem>) {
    && 1 <= |items| <= MOTIF_OBSERVATIONS_PER_BEAT
    && CountPrimary(items) == 1
    && (forall i :: 0 <= i < |items| ==> ItemAccepted(items[i]))
    && (forall i, j :: 0 <= i < j < |items| ==>
          IdentityOf(PreparedItem(items[i])) != IdentityOf(PreparedItem(items[j])))
  }

  // -- one observation -----------------------------------------------------------------------

  function Resolve(t: MotifTables, at: Beat, o: Observation): Result<Option<nat>> {
    if o.motif.Some? then
      var m := o.motif.value;
      if m < |t.motifs| && t.motifs[m].project == at.project && t.motifs[m].observer == at.observer then Ok(o.motif)
      else Err(Invalid)
    else
      var key := AliasKey(at.project, at.observer, o.normalized);
      Ok(if key in t.aliases && t.aliases[key] < |t.motifs| then Some(t.aliases[key]) else None)
  }

  /** A motif of this observer already has this label: the table's uniqueness constraint. */
  predicate Taken(t: MotifTables, at: Beat, name: string) {
    exists i :: 0 <= i < |t.motifs|
                && t.motifs[i].project == at.project && t.motifs[i].observer == at.observer
                && t.motifs[i].normalized == name
  }

  function NewMotif(at: Beat, o: Observation): Motif {
    Motif(at.project, at.observer, o.normalized, o.title, o.description, Candidate, o.confidence, 1, 1, at.turn)
  }

  function Reinforce(m: Motif, at: Beat, o: Observation): Motif {
    var turns := if m.lastTurn != at.turn then m.distinctTurns + 1 else m.distinctTurns;
    m.(support := m.support + 1,
       distinctTurns := turns,
       lastTurn := at.turn,
       confidence := (m.confidence * m.support as real + o.confidence) / (m.support + 1) as real,
       status := if m.status == Candidate && turns >= 2 then Supported else m.status)
  }

  function TypeOf(before: MotifStatus, after: MotifStatus): EventType {
    if before != after then Promoted else Reinforced
  }

  predicate Connectable(motifs: seq<Motif>, at: Beat, self: nat, connections: seq<Connection>) {
    forall i :: 0 <= i < |connections| ==>
      && connections[i].motif < |motifs| && motifs[connections[i].motif].project == at.project
      && connections[i].motif != self
  }

  function RelationsOf(source: nat, at: Beat, connections: seq<Connection>): seq<RelationEvent> {
    seq(|connections|, i requires 0 <= i < |connections| => RelationEvent(source, at, connections[i]))
  }

  /** The row an observation creates or updates, and where. */
  function Target(t: MotifTables, at: Beat, o: Observation, found: Option<nat>): (nat, Motif, EventType)
    requires found.Some? ==> found.value < |t.motifs|
  {
    match found
    case None => (|t.motifs|, NewMotif(at, o), Created)
    case Some(m) =>
      var row := Reinforce(t.motifs[m], at, o);
      (m, row, TypeOf(t.motifs[m].status, row.status))
  }

  function Put(motifs: seq<Motif>, m: nat, row: Motif): seq<Motif>
    requires m <= |motifs|
  {
    if m == |motifs| then motifs + [row] else motifs[m := row]
  }

  function EventOf(m: nat, row: Motif, eventType: EventType, at: Beat, user: Option<string>, o: Observation)
    : MotifEvent
  {
    Observed(m, at, eventType, o.relation, o.primary, o.confidence, row.status, o.description,
             if user.Some? then [user.value] else [])
  }

  function RecordOne(t: MotifTables, at: Beat, user: Option<string>, o: Observation): Result<(MotifTables, Recorded)> {
    var found := Resolve(t, at, o);
    if found.Err? then Err(found.error)
    else if found.value.None? && Taken(t, at, o.normalized) then Err(Conflict)
    else
      var (m, row, eventType) := Target(t, at, o, found.value);
      var motifs := Put(t.motifs, m, row);
      var key := AliasKey(at.project, at.observer, o.normalized);
      if key in t.aliases && t.aliases[key] != m then Err(Conflict)
      else if !Connectable(motifs, at, m, o.connections) then Err(Invalid)
      else
        Ok((t.(motifs := motifs,
               aliases := t.aliases[key := m],
               events := t.events + [EventOf(m, row, eventType, at, user, o)],
               relations := t.relations + RelationsOf(m, at, o.connections)),
            Recorded(m, row.title, row.status, row.support, row.distinctTurns, o.primary)))
  }

  // -- one batch -----------------------------------------------------------------------------

  predicate Names(results: seq<Recorded>, m: nat) {
    exists i :: 0 <= i < |results| && results[i].motif == m
  }

  function RecordAll(t: MotifTables, at: Beat, user: Option<string>, os: seq<Observation>)
    : Result<(MotifTables, seq<Recorded>)>
  {
    if os == [] then Ok((t, []))
    else
      var earlier := RecordAll(t, at, user, os[..|os| - 1]);
      if earlier.Err? then Err(earlier.error)
      else
        var one := RecordOne(earlier.value.0, at, user, os[|os| - 1]);
        if one.Err? then Err(one.error)
        else if Names(earlier.value.1, one.value.1.motif) then Err(Invalid)
        else Ok((one.value.0, earlier.value.1 + [one.value.1]))
  }

  predicate Occupied(t: MotifTables, at: Beat) {
    exists op :: op in t.batches && t.batches[op].beat == at
  }

  function FirstPrimary(results: seq<Recorded>): Option<nat> {
    if results == [] then None
    else if results[0].primary then Some(results[0].motif)
    else FirstPrimary(results[1..])
  }

  /** A whole batch: a replay of its operation returns the stored result, a second batch of the same beat
      is refused, and anything refused leaves the tables as they were. */
  function RecordBatch(t: MotifTables, op: OpKey, at: Beat, user: Option<string>, items: seq<RawItem>)
    : (MotifTables, Result<BatchResult>)
  {
    if !BatchAccepted(items) || at.turn == "" then (t, Err(Invalid))
    else if at.project !in t.projects then (t, Err(NotFound))
    else if op in t.batches then (t, Ok(t.batches[op].result))
    else if Occupied(t, at) then (t, Err(Invalid))
    else
      var started := t.(batches := t.batches[op := BatchRow(at, BatchResult([], None))]);
      var os := seq(|items|, i requires 0 <= i < |items| => PreparedItem(items[i]));
      var all := RecordAll(started, at, user, os);
      if all.Err? then (t, Err(all.error))
      else
        var (after, results) := all.value;
        var result := BatchResult(results, FirstPrimary(results));
        (after.(batches := after.batches[op := BatchRow(at, result)]), Ok(result))
  }

  // -- evidence and user decisions -----------------------------------------------------------

  predicate Wants(e: MotifEvent, at: Beat, message: string) {
    e.Observed? && e.beat == at && message !in e.evidence
  }

  function Attached(events: seq<MotifEvent>, at: Beat, message: string): seq<MotifEvent> {
    if events == [] then []
    else
      var last := events[|events| - 1];
      Attached(events[..|events| - 1], at, message)
      + [if Wants(last, at, message) then last.(evidence := last.evidence + [message]) else last]
  }

  function CountWanting(events: seq<MotifEvent>, at: Beat, message: string): nat {
    if events == [] then 0
    else
      CountWanting(events[..|events| - 1], at, message)
      + if Wants(events[|events| - 1], at, message) then 1 else 0
  }

  function SetStatus(t: MotifTables, project: ProjectId, m: nat, status: MotifStatus): Result<MotifTables> {
    if status !in USER_MOTIF_STATUSES then Err(Invalid)
    else if project !in t.projects || m >= |t.motifs| || t.motifs[m].project != project then Err(NotFound)
    else
      Ok(t.(motifs := t.motifs[m := t.motifs[m].(status := status)],
            events := t.events + [StatusSet(m, status)]))
  }
}
