/** Every observation, batch, attachment and user decision keeps the counters in step with the log. */
module MotifLemmas {
  import opened Records
  import opened Text
  import opened MotifSteps
  import opened MotifInvariant

  // -- one more event ------------------------------------------------------------------------

  lemma EventAppended(events: seq<MotifEvent>, e: MotifEvent, m: nat)
    ensures TurnsSeen(events + [e], m)
            == if e.Observed? && e.motif == m then TurnsSeen(events, m) + [e.beat.turn] else TurnsSeen(events, m)
    ensures SumConfidence(events + [e], m)
            == SumConfidence(events, m) + if e.Observed? && e.motif == m then e.confidence else 0.0
    ensures Decision(events + [e], m)
            == if e.StatusSet? && e.motif == m then Some(e.status) else Decision(events, m)
  {
  }

  lemma {:induction false} NeverSeen(events: seq<MotifEvent>, m: nat)
    requires forall i :: 0 <= i < |events| ==> events[i].motif < m
    ensures TurnsSeen(events, m) == [] && SumConfidence(events, m) == 0.0 && Decision(events, m) == None
  {
    if events != [] {
      NeverSeen(events[..|events| - 1], m);
    }
  }

  lemma {:induction false} DecisionIsUsers(events: seq<MotifEvent>, m: nat)
    requires forall i :: 0 <= i < |events| && events[i].StatusSet? ==> events[i].status in USER_MOTIF_STATUSES
    ensures Decision(events, m).Some? ==> Decision(events, m).value in USER_MOTIF_STATUSES
  {
    if events != [] {
      DecisionIsUsers(events[..|events| - 1], m);
    }
  }

  /** The average the row keeps is a weighted mean of everything seen. */
  lemma MeanUpdated(mean: real, count: nat, sum: real, x: real)
    requires IsMean(mean, count, sum)
    ensures IsMean((mean * count as real + x) / (count + 1) as real, count + 1, sum + x)
  {
  }

  lemma FirstMean(x: real)
    ensures IsMean(x, 1, 0.0 + x)
  {
  }

  // -- one observation -----------------------------------------------------------------------

  /** The uniqueness constraint on labels can never fire: a label in use is always an alias already. */
  lemma LabelNeverTaken(t: MotifTables, at: Beat, o: Observation)
    requires AliasesOk(t) && Resolve(t, at, o) == Ok(None)
    ensures !Taken(t, at, o.normalized)
  {
  }

  lemma ReinforcedOk(t: MotifTables, m: nat, at: Beat, o: Observation, e: MotifEvent)
    requires m < |t.motifs| && MotifOk(t.motifs[m], t.events, m) && EventsOk(t)
    requires e.Observed? && e.motif == m && e.beat == at && e.confidence == o.confidence
    ensures MotifOk(Reinforce(t.motifs[m], at, o), t.events + [e], m)
  {
    EventAppended(t.events, e, m);
    MeanUpdated(t.motifs[m].confidence, t.motifs[m].support, SumConfidence(t.events, m), o.confidence);
    hide IsMean;
    DecisionIsUsers(t.events, m);
    var turns := TurnsSeen(t.events, m);
    assert (turns + [at.turn])[..|turns|] == turns;
  }

  lemma CreatedOk(t: MotifTables, at: Beat, o: Observation, e: MotifEvent)
    requires EventsOk(t)
    requires e.Observed? && e.motif == |t.motifs| && e.beat == at && e.confidence == o.confidence
    ensures MotifOk(NewMotif(at, o), t.events + [e], |t.motifs|)
  {
    hide IsMean;
    FirstMean(o.confidence);
    NeverSeen(t.events, |t.motifs|);
    EventAppended(t.events, e, |t.motifs|);
  }

  lemma OthersOk(t: MotifTables, next: MotifTables, m: nat, e: MotifEvent)
    requires MotifsOk(t) && next.events == t.events + [e] && e.motif == m
    requires |next.motifs| >= |t.motifs|
    requires forall i :: 0 <= i < |t.motifs| && i != m ==> next.motifs[i] == t.motifs[i]
    ensures forall i :: 0 <= i < |t.motifs| && i != m ==> MotifOk(next.motifs[i], next.events, i)
  {
    hide IsMean;
    forall i | 0 <= i < |t.motifs| && i != m ensures MotifOk(next.motifs[i], next.events, i) {
      assert MotifOk(t.motifs[i], t.events, i);
      EventAppended(t.events, e, i);
    }
  }

  lemma ResolvedHere(t: MotifTables, at: Beat, o: Observation)
    requires AliasesOk(t) && Resolve(t, at, o).Ok? && Resolve(t, at, o).value.Some?
    ensures var m := Resolve(t, at, o).value.value;
            m < |t.motifs| && t.motifs[m].project == at.project && t.motifs[m].observer == at.observer
  {
  }

  lemma RecordedMotifsOk(t: MotifTables, at: Beat, user: Option<string>, o: Observation)
    requires MotifsOk(t) && EventsOk(t) && RecordOne(t, at, user, o).Ok?
    ensures MotifsOk(RecordOne(t, at, user, o).value.0)
  {
    hide MotifOk;
    var found := Resolve(t, at, o).value;
    var (m, row, eventType) := Target(t, at, o, found);
    var e := EventOf(m, row, eventType, at, user, o);
    var next := RecordOne(t, at, user, o).value.0;
    OthersOk(t, next, m, e);
    if found.None? {
      CreatedOk(t, at, o, e);
    } else {
      ReinforcedOk(t, m, at, o, e);
    }
    assert MotifOk(next.motifs[m], next.events, m);
  }

  lemma RecordedAliasesOk(t: MotifTables, at: Beat, user: Option<string>, o: Observation)
    requires AliasesOk(t) && RecordOne(t, at, user, o).Ok?
    ensures AliasesOk(RecordOne(t, at, user, o).value.0)
  {
    var found := Resolve(t, at, o).value;
    var (m, row, _) := Target(t, at, o, found);
    if found.Some? {
      ResolvedHere(t, at, o);
    }
    var next := RecordOne(t, at, user, o).value.0;
    forall i | 0 <= i < |next.motifs|
      ensures OwnAlias(next.motifs[i]) in next.aliases && next.aliases[OwnAlias(next.motifs[i])] == i
    {
      if i < |t.motifs| {
        assert OwnAlias(next.motifs[i]) == OwnAlias(t.motifs[i]);
      }
    }
  }

  /** The observation is of a motif this beat has not observed yet. */
  predicate FirstThisBeat(events: seq<MotifEvent>, at: Beat, m: nat) {
    forall i :: 0 <= i < |events| && events[i].Observed? && events[i].beat == at ==> events[i].motif != m
  }

  lemma RecordedEventsOk(t: MotifTables, at: Beat, user: Option<string>, o: Observation)
    requires AliasesOk(t) && EventsOk(t) && RecordOne(t, at, user, o).Ok?
    requires Occupied(t, at) && 0.0 <= o.confidence <= 1.0
    ensures EventsOk(RecordOne(t, at, user, o).value.0)
  {
    var found := Resolve(t, at, o).value;
    if found.Some? {
      ResolvedHere(t, at, o);
    }
    var next := RecordOne(t, at, user, o).value.0;
    assert forall b :: Occupied(t, b) ==> Occupied(next, b);
    forall i | 0 <= i < |next.events| ensures EventOk(next, next.events[i]) {
      if i < |t.events| {
        assert EventOk(t, t.events[i]);
      }
    }
  }

  predicate ConnectionsOk(o: Observation) {
    forall i :: 0 <= i < |o.connections| ==> ConnectionOk(o.connections[i])
  }

  lemma RecordedRelationsOk(t: MotifTables, at: Beat, user: Option<string>, o: Observation)
    requires AliasesOk(t) && RelationsOk(t) && RecordOne(t, at, user, o).Ok? && ConnectionsOk(o)
    ensures RelationsOk(RecordOne(t, at, user, o).value.0)
  {
    hide ConnectionOk;
    var found := Resolve(t, at, o).value;
    if found.Some? {
      ResolvedHere(t, at, o);
    }
    var next := RecordOne(t, at, user, o).value.0;
    forall i | 0 <= i < |next.relations| ensures RelationOk(next.motifs, next.relations[i]) {
      if i < |t.relations| {
        assert RelationOk(t.motifs, t.relations[i]);
      }
    }
  }

  lemma RecordedLedgerOk(t: MotifTables, at: Beat, user: Option<string>, o: Observation)
    requires LedgerOk(t) && RecordOne(t, at, user, o).Ok?
    requires Occupied(t, at) && 0.0 <= o.confidence <= 1.0 && ConnectionsOk(o)
    requires FirstThisBeat(t.events, at, RecordOne(t, at, user, o).value.1.motif)
    ensures LedgerOk(RecordOne(t, at, user, o).value.0)
  {
    RecordedMotifsOk(t, at, user, o);
    RecordedAliasesOk(t, at, user, o);
    RecordedEventsOk(t, at, user, o);
    RecordedRelationsOk(t, at, user, o);
  }

  // -- one batch -----------------------------------------------------------------------------

  /** Motifs observed at this beat are those the batch names. */
  predicate BeatNamed(events: seq<MotifEvent>, at: Beat, results: seq<Recorded>) {
    forall i :: 0 <= i < |events| && events[i].Observed? && events[i].beat == at ==> Names(results, events[i].motif)
  }

  lemma RecordedShape(t: MotifTables, at: Beat, user: Option<string>, o: Observation)
    requires RecordOne(t, at, user, o).Ok?
    ensures var (next, one) := RecordOne(t, at, user, o).value;
            && next.batches == t.batches && next.projects == t.projects
            && |next.events| == |t.events| + 1 && next.events[..|t.events|] == t.events
            && next.events[|t.events|].motif == one.motif
            && one.primary == o.primary
  {
  }

  lemma OneMoreNamed(x: seq<MotifEvent>, y: seq<MotifEvent>, at: Beat, results: seq<Recorded>, one: Recorded)
    requires BeatNamed(x, at, results)
    requires |y| == |x| + 1 && y[..|x|] == x && y[|x|].motif == one.motif
    ensures BeatNamed(y, at, results + [one])
  {
    forall i | 0 <= i < |y| && y[i].Observed? && y[i].beat == at ensures Names(results + [one], y[i].motif) {
      if i < |x| {
        assert x[i] == y[i];
        var k :| 0 <= k < |results| && results[k].motif == x[i].motif;
        assert (results + [one])[k].motif == y[i].motif;
      } else {
        assert (results + [one])[|results|].motif == y[i].motif;
      }
    }
  }

  lemma {:induction false} RecordAllKeeps(t: MotifTables, at: Beat, user: Option<string>, os: seq<Observation>)
    requires LedgerOk(t) && Occupied(t, at) && RecordAll(t, at, user, os).Ok?
    requires forall i :: 0 <= i < |os| ==> 0.0 <= os[i].confidence <= 1.0 && ConnectionsOk(os[i])
    requires BeatNamed(t.events, at, [])
    ensures var (next, results) := RecordAll(t, at, user, os).value;
            && LedgerOk(next) && next.batches == t.batches && next.projects == t.projects
            && BeatNamed(next.events, at, results) && |results| == |os|
            && (forall i :: 0 <= i < |os| ==> results[i].primary == os[i].primary)
            && (forall i, j :: 0 <= i < j < |results| ==> results[i].motif != results[j].motif)
  {
    hide LedgerOk, RecordOne, ConnectionsOk;
    if os != [] {
      var n := |os| - 1;
      RecordAllKeeps(t, at, user, os[..n]);
      var (before, results) := RecordAll(t, at, user, os[..n]).value;
      var (next, one) := RecordOne(before, at, user, os[n]).value;
      assert FirstThisBeat(before.events, at, one.motif);
      RecordedLedgerOk(before, at, user, os[n]);
      RecordedShape(before, at, user, os[n]);
      OneMoreNamed(before.events, next.events, at, results, one);
    }
  }

  lemma BatchRowChanged(t: MotifTables, next: MotifTables)
    requires LedgerOk(t) && next == t.(batches := next.batches) && BatchesOk(next)
    requires forall at :: Occupied(t, at) ==> Occupied(next, at)
    ensures LedgerOk(next)
  {
  }

  lemma RowAdded(t: MotifTables, op: OpKey, row: BatchRow)
    requires LedgerOk(t)
    requires if op in t.batches then t.batches[op].beat == row.beat else !Occupied(t, row.beat)
    ensures LedgerOk(t.(batches := t.batches[op := row])) && Occupied(t.(batches := t.batches[op := row]), row.beat)
  {
    var next := t.(batches := t.batches[op := row]);
    assert op in next.batches && next.batches[op].beat == row.beat;
    forall at | Occupied(t, at) ensures Occupied(next, at) {
      var p :| p in t.batches && t.batches[p].beat == at;
      assert p in next.batches && next.batches[p].beat == at;
    }
    BatchRowChanged(t, next);
  }

  lemma NoneYet(t: MotifTables, at: Beat)
    requires EventsOk(t) && !Occupied(t, at)
    ensures BeatNamed(t.events, at, [])
  {
  }

  lemma PreparedFit(items: seq<RawItem>, os: seq<Observation>)
    requires BatchAccepted(items)
    requires os == seq(|items|, i requires 0 <= i < |items| => PreparedItem(items[i]))
    ensures forall i :: 0 <= i < |os| ==> 0.0 <= os[i].confidence <= 1.0 && ConnectionsOk(os[i])
  {
    hide Strip, NormalizeLabel;
  }

  lemma RecordBatchKeeps(t: MotifTables, op: OpKey, at: Beat, user: Option<string>, items: seq<RawItem>)
    requires LedgerOk(t)
    ensures LedgerOk(RecordBatch(t, op, at, user, items).0)
  {
    var (after, r) := RecordBatch(t, op, at, user, items);
    if r.Ok? && op !in t.batches {
      var started := t.(batches := t.batches[op := BatchRow(at, BatchResult([], None))]);
      RowAdded(t, op, BatchRow(at, BatchResult([], None)));
      var os := seq(|items|, i requires 0 <= i < |items| => PreparedItem(items[i]));
      NoneYet(t, at);
      PreparedFit(items, os);
      RecordAllKeeps(started, at, user, os);
      RowAdded(RecordAll(started, at, user, os).value.0, op, BatchRow(at, r.value));
    }
  }

  /** Recording a batch a second time under its operation changes nothing and answers the same; under
      another operation the beat is refused. */
  lemma BatchRecordedOnce(t: MotifTables, op: OpKey, other: OpKey, at: Beat, user: Option<string>,
                          items: seq<RawItem>, others: seq<RawItem>)
    requires RecordBatch(t, op, at, user, items).1.Ok? && BatchAccepted(others)
    requires op !in t.batches
    ensures var (after, r) := RecordBatch(t, op, at, user, items);
            && RecordBatch(after, op, at, user, others) == (after, r)
            && (other !in after.batches ==> RecordBatch(after, other, at, user, others) == (after, Err(Invalid)))
  {
    var (after, r) := RecordBatch(t, op, at, user, items);
    var started := t.(batches := t.batches[op := BatchRow(at, BatchResult([], None))]);
    RecordAllProjects(started, at, user, seq(|items|, i requires 0 <= i < |items| => PreparedItem(items[i])));
    assert op in after.batches && after.batches[op].beat == at;
  }

  lemma {:induction false} RecordAllProjects(t: MotifTables, at: Beat, user: Option<string>, os: seq<Observation>)
    requires RecordAll(t, at, user, os).Ok?
    ensures RecordAll(t, at, user, os).value.0.projects == t.projects
  {
    if os != [] {
      RecordAllProjects(t, at, user, os[..|os| - 1]);
    }
  }

  // -- evidence ------------------------------------------------------------------------------

  lemma {:induction false} AttachedSame(events: seq<MotifEvent>, at: Beat, message: string, m: nat)
    ensures |Attached(events, at, message)| == |events|
    ensures TurnsSeen(Attached(events, at, message), m) == TurnsSeen(events, m)
    ensures SumConfidence(Attached(events, at, message), m) == SumConfidence(events, m)
    ensures Decision(Attached(events, at, message), m) == Decision(events, m)
  {
    if events != [] {
      var n := |events| - 1;
      AttachedSame(events[..n], at, message, m);
      var init := Attached(events[..n], at, message);
      assert Attached(events, at, message)[..n] == init;
    }
  }

  /** What attaching does to each event: the message is added to the beat's own events, once. */
  lemma {:induction false} AttachedAt(events: seq<MotifEvent>, at: Beat, message: string, i: nat)
    requires i < |events|
    ensures |Attached(events, at, message)| == |events|
    ensures Attached(events, at, message)[i]
            == if Wants(events[i], at, message) then events[i].(evidence := events[i].evidence + [message])
               else events[i]
  {
    var n := |events| - 1;
    if i < n {
      AttachedAt(events[..n], at, message, i);
      AttachedSame(events[..n], at, message, 0);
    } else {
      AttachedSame(events[..n], at, message, 0);
    }
  }

  lemma AttachKeepsCounts(t: MotifTables, at: Beat, message: string)
    requires MotifsOk(t)
    ensures MotifsOk(t.(events := Attached(t.events, at, message)))
  {
    hide IsMean;
    forall m | 0 <= m < |t.motifs| ensures MotifOk(t.motifs[m], Attached(t.events, at, message), m) {
      assert MotifOk(t.motifs[m], t.events, m);
      AttachedSame(t.events, at, message, m);
    }
  }

  lemma AttachKeepsEvents(t: MotifTables, at: Beat, message: string)
    requires EventsOk(t) && OncePerBeat(t.events)
    ensures EventsOk(t.(events := Attached(t.events, at, message)))
    ensures OncePerBeat(Attached(t.events, at, message))
  {
    var next := t.(events := Attached(t.events, at, message));
    AttachedSame(t.events, at, message, 0);
    assert forall b :: Occupied(t, b) ==> Occupied(next, b);
    forall i | 0 <= i < |next.events| ensures EventOk(next, next.events[i]) {
      assert EventOk(t, t.events[i]);
      AttachedAt(t.events, at, message, i);
    }
    forall i, j | 0 <= i < j < |next.events| && SameBeat(next.events[i], next.events[j])
      ensures next.events[i].motif != next.events[j].motif
    {
      AttachedAt(t.events, at, message, i);
      AttachedAt(t.events, at, message, j);
      assert SameBeat(t.events[i], t.events[j]);
    }
  }

  lemma AttachKeeps(t: MotifTables, at: Beat, message: string)
    requires LedgerOk(t)
    ensures LedgerOk(t.(events := Attached(t.events, at, message)))
  {
    AttachKeepsCounts(t, at, message);
    AttachKeepsEvents(t, at, message);
  }

  /** Attaching the same message again finds nothing left to do. */
  lemma {:induction false} AttachedOnce(events: seq<MotifEvent>, at: Beat, message: string)
    ensures CountWanting(Attached(events, at, message), at, message) == 0
    ensures Attached(Attached(events, at, message), at, message) == Attached(events, at, message)
  {
    if events != [] {
      var n := |events| - 1;
      AttachedOnce(events[..n], at, message);
      AttachedSame(events, at, message, 0);
      AttachedSame(events[..n], at, message, 0);
      assert Attached(events, at, message)[..n] == Attached(events[..n], at, message);
      AttachedAt(events, at, message, n);
    }
  }

  // -- user decisions ------------------------------------------------------------------------

  lemma SetStatusKeepsMotifs(t: MotifTables, m: nat, status: MotifStatus, next: MotifTables)
    requires MotifsOk(t) && m < |t.motifs|
    requires next.motifs == t.motifs[m := t.motifs[m].(status := status)]
    requires next.events == t.events + [StatusSet(m, status)]
    ensures MotifsOk(next)
  {
    hide IsMean;
    OthersOk(t, next, m, StatusSet(m, status));
    EventAppended(t.events, StatusSet(m, status), m);
    assert MotifOk(t.motifs[m], t.events, m);
  }

  lemma SetStatusKeepsLinks(t: MotifTables, m: nat, status: MotifStatus, next: MotifTables)
    requires AliasesOk(t) && EventsOk(t) && m < |t.motifs| && status in USER_MOTIF_STATUSES
    requires next == t.(motifs := t.motifs[m := t.motifs[m].(status := status)],
                        events := t.events + [StatusSet(m, status)])
    ensures AliasesOk(next) && EventsOk(next) && (RelationsOk(t) ==> RelationsOk(next))
  {
    assert forall b :: Occupied(t, b) ==> Occupied(next, b);
    forall i | 0 <= i < |next.events| ensures EventOk(next, next.events[i]) {
      if i < |t.events| {
        assert EventOk(t, t.events[i]);
      }
    }
    forall i | 0 <= i < |next.motifs|
      ensures OwnAlias(next.motifs[i]) in next.aliases && next.aliases[OwnAlias(next.motifs[i])] == i
    {
      assert OwnAlias(next.motifs[i]) == OwnAlias(t.motifs[i]);
    }
    if RelationsOk(t) {
      forall i | 0 <= i < |next.relations| ensures RelationOk(next.motifs, next.relations[i]) {
        assert RelationOk(t.motifs, t.relations[i]);
      }
    }
  }

  lemma SetStatusKeeps(t: MotifTables, project: ProjectId, m: nat, status: MotifStatus)
    requires LedgerOk(t) && SetStatus(t, project, m, status).Ok?
    ensures LedgerOk(SetStatus(t, project, m, status).value)
  {
    hide MotifsOk, AliasesOk, EventsOk, RelationsOk;
    var next := SetStatus(t, project, m, status).value;
    SetStatusKeepsMotifs(t, m, status, next);
    SetStatusKeepsLinks(t, m, status, next);
  }

  // -- what follows --------------------------------------------------------------------------

  lemma {:induction false} SumInRange(events: seq<MotifEvent>, m: nat)
    requires forall i :: 0 <= i < |events| && events[i].Observed? ==> 0.0 <= events[i].confidence <= 1.0
    ensures 0.0 <= SumConfidence(events, m) <= |TurnsSeen(events, m)| as real
  {
    if events != [] {
      SumInRange(events[..|events| - 1], m);
    }
  }

  /** A motif's confidence is the mean of its observations' confidences, and lies between 0 and 1. */
  lemma ConfidenceIsMean(t: MotifTables, m: nat)
    requires LedgerOk(t) && m < |t.motifs|
    ensures |TurnsSeen(t.events, m)| > 0
    ensures t.motifs[m].confidence == SumConfidence(t.events, m) / |TurnsSeen(t.events, m)| as real
    ensures 0.0 <= t.motifs[m].confidence <= 1.0
  {
    hide IsMean;
    assert MotifOk(t.motifs[m], t.events, m);
    forall i | 0 <= i < |t.events| && t.events[i].Observed? ensures 0.0 <= t.events[i].confidence <= 1.0 {
      assert EventOk(t, t.events[i]);
    }
    SumInRange(t.events, m);
    MeanInRange(t.motifs[m].confidence, |TurnsSeen(t.events, m)|, SumConfidence(t.events, m));
  }

  lemma MeanInRange(mean: real, count: nat, sum: real)
    requires IsMean(mean, count, sum) && count > 0 && 0.0 <= sum <= count as real
    ensures mean == sum / count as real && 0.0 <= mean <= 1.0
  {
  }

  /** The turn counter is the number of distinct turns exactly when the motif's history is uninterrupted. */
  lemma TurnCounterExact(t: MotifTables, m: nat)
    requires LedgerOk(t) && m < |t.motifs|
    ensures t.motifs[m].distinctTurns >= |Distinct(TurnsSeen(t.events, m))|
    ensures t.motifs[m].distinctTurns == |Distinct(TurnsSeen(t.events, m))|
            <==> Uninterrupted(TurnsSeen(t.events, m))
  {
    assert MotifOk(t.motifs[m], t.events, m);
    BlocksCountTurns(TurnsSeen(t.events, m));
  }

  /** Without a decision of the user a motif is a candidate while one block of observations supports it,
      and supported from the second on; a decision of the user stands. */
  lemma Lifecycle(t: MotifTables, m: nat)
    requires LedgerOk(t) && m < |t.motifs|
    ensures t.motifs[m].distinctTurns >= 1
    ensures t.motifs[m].status == Candidate <==> Decision(t.events, m).None? && t.motifs[m].distinctTurns == 1
    ensures t.motifs[m].status == Supported <==> Decision(t.events, m).None? && t.motifs[m].distinctTurns >= 2
    ensures Decision(t.events, m).Some? ==> t.motifs[m].status == Decision(t.events, m).value
  {
    assert MotifOk(t.motifs[m], t.events, m);
    forall i | 0 <= i < |t.events| && t.events[i].StatusSet? ensures t.events[i].status in USER_MOTIF_STATUSES {
      assert EventOk(t, t.events[i]);
    }
    DecisionIsUsers(t.events, m);
    BlocksPositive(TurnsSeen(t.events, m));
  }

  lemma {:induction false} BlocksPositive(turns: seq<TurnId>)
    requires turns != []
    ensures Blocks(turns) >= 1
  {
    if |turns| > 1 {
      BlocksPositive(turns[..|turns| - 1]);
    }
  }

  /** The one change of status an agent can cause: a candidate seen in another turn becomes supported. */
  lemma AgentsOnlyPromote(t: MotifTables, at: Beat, user: Option<string>, o: Observation, m: nat)
    requires LedgerOk(t) && RecordOne(t, at, user, o).Ok? && m < |t.motifs|
    ensures var next := RecordOne(t, at, user, o).value.0;
            && m < |next.motifs|
            && (next.motifs[m].status == t.motifs[m].status
                || (t.motifs[m].status == Candidate && next.motifs[m].status == Supported
                    && RecordOne(t, at, user, o).value.1.motif == m && t.motifs[m].lastTurn != at.turn))
  {
    Lifecycle(t, m);
  }

  /** Each label of one observer names at most one motif, and motifs keep apart the labels they had. */
  lemma LabelsTellMotifsApart(t: MotifTables, m: nat, n: nat)
    requires LedgerOk(t) && m < |t.motifs| && n < |t.motifs|
    requires OwnAlias(t.motifs[m]) == OwnAlias(t.motifs[n])
    ensures m == n
  {
  }
}
