/** The motif store: each public method is one transaction over the motif tables. */
module MotifLedger {
  import opened Records
  import opened Text
  import opened MotifSteps
  import opened MotifInvariant
  import opened MotifLemmas

  class MotifStore {
    var tables: MotifTables

    /** Every reachable state of the motif tables. */
    predicate Valid()
      reads this
    {
      LedgerOk(tables)
    }

    constructor (projects: set<ProjectId>)
      ensures Valid() && tables == MotifTables(projects, [], map[], [], [], map[])
    {
      tables := MotifTables(projects, [], map[], [], [], map[]);
    }

    // -- validation --------------------------------------------------------------------------

    method ValidateConnections(raw: seq<RawConnection>) returns (r: Result<seq<Connection>>)
      ensures r.Ok? <==> ConnectionsAccepted(raw)
      ensures r.Ok? ==>
                r.value
                == seq(|raw|, i requires 0 <= i < |raw| && ConnectionAccepted(raw[i]) => PreparedConnection(raw[i]))
    {
      hide Strip, ConnectionAccepted, PreparedConnection;
      if |raw| > MOTIF_CONNECTION_MAX_ITEMS {
        return Err(Invalid);
      }
      var prepared: seq<Connection> := [];
      var targets: set<nat> := {};
      for i := 0 to |raw|
        invariant forall j :: 0 <= j < i ==> ConnectionAccepted(raw[j]) && raw[j].RawConnection? && raw[j].motif.Some?
        invariant forall j, k :: 0 <= j < k < i ==> raw[j].motif != raw[k].motif
        invariant forall m :: m in targets <==> exists j :: 0 <= j < i && raw[j].motif == Some(m)
        invariant |prepared| == i && forall j :: 0 <= j < i ==> prepared[j] == PreparedConnection(raw[j])
      {
        var c := raw[i];
        AcceptedMeans(c);
        if !c.RawConnection? || c.motif.None? || c.motif.value in targets {
          return Err(Invalid);
        }
        var relation, description := Strip(c.relation), Strip(c.description);
        if relation !in MOTIF_CONNECTION_RELATIONS || !(1 <= |description| <= CONNECTION_DESCRIPTION_MAX_CHARS)
           || c.confidence.None? || !(0.0 <= c.confidence.value <= 1.0)
        {
          return Err(Invalid);
        }
        targets := targets + {c.motif.value};
        prepared := prepared + [Connection(c.motif.value, relation, description, c.confidence.value)];
      }
      return Ok(prepared);
    }

    /** One item, stripped and checked. */
    method ValidateItem(item: RawItem) returns (r: Result<Observation>)
      ensures r.Ok? <==> ItemAccepted(item)
      ensures r.Ok? ==> r.value == PreparedItem(item)
      ensures r.Err? ==> r.error == Invalid
    {
      hide Strip, NormalizeLabel, ConnectionAccepted, PreparedConnection;
      if !item.RawItem? {
        return Err(Invalid);
      }
      var connections := ValidateConnections(item.connections);
      var title := Strip(item.title);
      var normalized := NormalizeLabel(title);
      if !(1 <= |title| <= MOTIF_LABEL_MAX_CHARS)
         || !(1 <= |Strip(item.description)| <= MOTIF_DESCRIPTION_MAX_CHARS)
         || Strip(item.relation) !in AGENT_RELATIONS || !InUnit(item.confidence)
         || connections.Err? || normalized == ""
      {
        return Err(Invalid);
      }
      return Ok(Observation(item.motif, title, normalized, Strip(item.description), Strip(item.relation),
                            item.confidence.value, item.primary, connections.value));
    }

    /** Every item checked one by one, until the first that does not pass or repeats an earlier one. */
    method ValidateObservations(items: seq<RawItem>) returns (r: Result<seq<Observation>>)
      ensures r.Ok? <==> BatchAccepted(items)
      ensures r.Ok? ==>
                r.value == seq(|items|, i requires 0 <= i < |items| && ItemAccepted(items[i]) => PreparedItem(items[i]))
      ensures r.Err? ==> r.error == Invalid
    {
      hide ItemAccepted, PreparedItem, CountPrimary;
      if !(1 <= |items| <= MOTIF_OBSERVATIONS_PER_BEAT) || CountPrimary(items) != 1 {
        return Err(Invalid);
      }
      var prepared: seq<Observation> := [];
      var identities: set<Identity> := {};
      for i := 0 to |items|
        invariant forall j :: 0 <= j < i ==> ItemAccepted(items[j])
        invariant |prepared| == i && forall j :: 0 <= j < i ==> prepared[j] == PreparedItem(items[j])
        invariant forall j, k :: 0 <= j < k < i ==> IdentityOf(prepared[j]) != IdentityOf(prepared[k])
        invariant forall id :: id in identities <==> exists j :: 0 <= j < i && IdentityOf(prepared[j]) == id
      {
        hide IdentityOf;
        var item := ValidateItem(items[i]);
        if item.Err? {
          return Err(Invalid);
        }
        var o := item.value;
        if IdentityOf(o) in identities {
          ghost var j :| 0 <= j < i && IdentityOf(prepared[j]) == IdentityOf(o);
          assert IdentityOf(PreparedItem(items[j])) == IdentityOf(PreparedItem(items[i]));
          return Err(Invalid);
        }
        identities := identities + {IdentityOf(o)};
        prepared := prepared + [o];
      }
      return Ok(prepared);
    }

    // -- transactions ------------------------------------------------------------------------

    /** One observation inside a transaction; a refusal may leave the row it just wrote. */
    method RecordOneMotif(at: Beat, user: Option<string>, o: Observation) returns (r: Result<Recorded>)
      modifies this
      ensures match RecordOne(old(tables), at, user, o)
              case Ok((next, recorded)) => tables == next && r == Ok(recorded)
              case Err(error) => r == Err(error)
    {
      var found := Resolve(tables, at, o);
      if found.Err? {
        return Err(found.error);
      }
      var m := |tables.motifs|;
      var eventType := Created;
      if found.value.None? {
        if Taken(tables, at, o.normalized) {
          return Err(Conflict);
        }
        tables := tables.(motifs := tables.motifs + [NewMotif(at, o)]);
      } else {
        m := found.value.value;
        var existing := tables.motifs[m];
        var turns := existing.distinctTurns;
        if existing.lastTurn != at.turn {
          turns := turns + 1;
        }
        var status := existing.status;
        eventType := Reinforced;
        if status == Candidate && turns >= 2 {
          status := Supported;
          eventType := Promoted;
        }
        var support := existing.support + 1;
        var confidence := (existing.confidence * existing.support as real + o.confidence) / support as real;
        tables := tables.(motifs := tables.motifs[m := existing.(
                                      status := status, confidence := confidence, support := support,
                                      distinctTurns := turns, lastTurn := at.turn)]);
        assert tables.motifs[m].confidence == Reinforce(existing, at, o).confidence;
        assert tables.motifs[m].status == Reinforce(existing, at, o).status;
        assert tables.motifs[m] == Reinforce(existing, at, o);
        assert eventType == TypeOf(existing.status, status);
      }
      var row := tables.motifs[m];
      assert (m, row, eventType) == Target(old(tables), at, o, found.value);
      assert tables.motifs == Put(old(tables).motifs, m, row);
      var key := AliasKey(at.project, at.observer, o.normalized);
      if key in tables.aliases && tables.aliases[key] != m {
        return Err(Conflict);
      }
      tables := tables.(aliases := tables.aliases[key := m]);
      if !Connectable(tables.motifs, at, m, o.connections) {
        return Err(Invalid);
      }
      tables := tables.(events := tables.events + [EventOf(m, row, eventType, at, user, o)],
                        relations := tables.relations + RelationsOf(m, at, o.connections));
      return Ok(Recorded(m, row.title, row.status, row.support, row.distinctTurns, o.primary));
    }

    /** Every observation of the batch in turn, until one is refused. */
    method RecordEach(at: Beat, user: Option<string>, prepared: seq<Observation>) returns (r: Result<seq<Recorded>>)
      modifies this
      ensures match RecordAll(old(tables), at, user, prepared)
              case Ok((next, results)) => tables == next && r == Ok(results)
              case Err(error) => r == Err(error)
    {
      var results: seq<Recorded> := [];
      for i := 0 to |prepared|
        invariant RecordAll(old(tables), at, user, prepared[..i]) == Ok((tables, results))
      {
        assert prepared[..i + 1][..i] == prepared[..i];
        var recorded := RecordOneMotif(at, user, prepared[i]);
        if recorded.Err? {
          RefusedEarly(old(tables), at, user, prepared, i + 1);
          return Err(recorded.error);
        }
        if Names(results, recorded.value.motif) {
          RefusedEarly(old(tables), at, user, prepared, i + 1);
          return Err(Invalid);
        }
        results := results + [recorded.value];
      }
      assert prepared[..|prepared|] == prepared;
      return Ok(results);
    }

    /** Record what an agent observed during one beat: all of it, or nothing. */
    method RecordMotifObservations(op: OpKey, at: Beat, user: Option<string>, items: seq<RawItem>)
      returns (r: Result<BatchResult>)
      requires Valid()
      modifies this
      ensures Valid()
      ensures (tables, r) == RecordBatch(old(tables), op, at, user, items)
      ensures r.Err? ==> tables == old(tables)
      ensures op in old(tables).batches ==> tables == old(tables)
    {
      ghost var before := tables;
      RecordBatchKeeps(before, op, at, user, items);
      var prepared := ValidateObservations(items);
      if prepared.Err? {
        return Err(prepared.error);
      }
      if at.turn == "" {
        return Err(Invalid);
      }
      if at.project !in tables.projects {
        return Err(NotFound);
      }
      if op in tables.batches {
        return Ok(tables.batches[op].result);
      }
      if Occupied(tables, at) {
        return Err(Invalid);
      }
      var saved := tables;
      tables := tables.(batches := tables.batches[op := BatchRow(at, BatchResult([], None))]);
      assert prepared.value == seq(|items|, i requires 0 <= i < |items| => PreparedItem(items[i]));
      var results := RecordEach(at, user, prepared.value);
      if results.Err? {
        tables := saved;
        return Err(results.error);
      }
      var result := BatchResult(results.value, FirstPrimary(results.value));
      tables := tables.(batches := tables.batches[op := BatchRow(at, result)]);
      return Ok(result);
    }

    /** Append the message to the evidence of each event that lacks it. */
    static method AttachEach(before: seq<MotifEvent>, at: Beat, message: string)
      returns (events: seq<MotifEvent>, changed: nat)
      ensures events == Attached(before, at, message)
      ensures changed == CountWanting(before, at, message)
    {
      events, changed := before, 0;
      for i := 0 to |before|
        invariant |events| == |before| && events[i..] == before[i..]
        invariant events[..i] == Attached(before[..i], at, message)
        invariant changed == CountWanting(before[..i], at, message)
      {
        hide Attached, CountWanting;
        AttachStep(before, at, message, i);
        assert events[i] == events[i..][0] == before[i];
        var event := events[i];
        if Wants(event, at, message) {
          event := event.(evidence := event.evidence + [message]);
          changed := changed + 1;
        }
        ghost var done := events[..i];
        events := events[i := event];
        assert events[..i + 1] == done + [event];
      }
      assert before[..|before|] == before && events[..|events|] == events;
    }

    /** Add the committed response to the evidence of its beat's observations. `known` says whether the
        message is one of this agent's in this project. */
    method AttachMotifResponseEvidence(at: Beat, message: string, known: bool) returns (r: Result<nat>)
      requires Valid()
      modifies this
      ensures Valid()
      ensures known ==>
                && r == Ok(CountWanting(old(tables).events, at, message))
                && tables == old(tables).(events := Attached(old(tables).events, at, message))
      ensures !known ==> r == Err(NotFound) && tables == old(tables)
    {
      if !known {
        return Err(NotFound);
      }
      AttachKeeps(tables, at, message);
      var events, changed := AttachEach(tables.events, at, message);
      tables := tables.(events := events);
      return Ok(changed);
    }

    method SetMotifStatus(project: ProjectId, m: nat, status: MotifStatus) returns (r: Result<()>)
      requires Valid()
      modifies this
      ensures Valid()
      ensures match SetStatus(old(tables), project, m, status)
              case Ok(next) => tables == next && r == Ok(())
              case Err(error) => tables == old(tables) && r == Err(error)
    {
      if status !in USER_MOTIF_STATUSES {
        return Err(Invalid);
      }
      if project !in tables.projects || m >= |tables.motifs| || tables.motifs[m].project != project {
        return Err(NotFound);
      }
      SetStatusKeeps(tables, project, m, status);
      tables := tables.(motifs := tables.motifs[m := tables.motifs[m].(status := status)],
                        events := tables.events + [StatusSet(m, status)]);
      return Ok(());
    }
  }

  lemma AcceptedMeans(c: RawConnection)
    ensures ConnectionAccepted(c) <==>
              && c.RawConnection? && c.motif.Some? && Strip(c.relation) in MOTIF_CONNECTION_RELATIONS
              && 1 <= |Strip(c.description)| <= 600
              && c.confidence.Some? && 0.0 <= c.confidence.value <= 1.0
    ensures ConnectionAccepted(c) ==>
              PreparedConnection(c)
              == Connection(c.motif.value, Strip(c.relation), Strip(c.description), c.confidence.value)
  {
  }

  lemma AttachStep(before: seq<MotifEvent>, at: Beat, message: string, i: nat)
    requires i < |before|
    ensures |Attached(before[..i], at, message)| == i
    ensures Attached(before[..i + 1], at, message)
            == Attached(before[..i], at, message)
               + [if Wants(before[i], at, message) then before[i].(evidence := before[i].evidence + [message])
                  else before[i]]
    ensures CountWanting(before[..i + 1], at, message)
            == CountWanting(before[..i], at, message) + if Wants(before[i], at, message) then 1 else 0
  {
    AttachedSame(before[..i], at, message, 0);
    assert before[..i + 1][..i] == before[..i];
  }

  lemma {:induction false} RefusedEarly(t: MotifTables, at: Beat, user: Option<string>, os: seq<Observation>, k: nat)
    requires k <= |os| && RecordAll(t, at, user, os[..k]).Err?
    ensures RecordAll(t, at, user, os) == Err(RecordAll(t, at, user, os[..k]).error)
  {
    if k == |os| {
      assert os[..k] == os;
    } else {
      assert os[..|os| - 1][..k] == os[..k];
      RefusedEarly(t, at, user, os[..|os| - 1], k);
    }
  }
}
