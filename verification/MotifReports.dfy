/** What an observation and a batch leave in the tables, and what their answers say of it. */
module MotifReports {
  import opened Records
  import opened Text
  import opened MotifSteps
  import opened MotifInvariant
  import opened MotifLemmas

  // -- one observation -----------------------------------------------------------------------

  function LabelKey(at: Beat, o: Observation): AliasKey {
    AliasKey(at.project, at.observer, o.normalized)
  }

  /** The motif an observation is of: the one it names, or the one its label leads to, or a new one. */
  function MotifMeant(t: MotifTables, at: Beat, o: Observation): nat {
    if o.motif.Some? then o.motif.value
    else if LabelKey(at, o) in t.aliases then t.aliases[LabelKey(at, o)]
    else |t.motifs|
  }

  /** An observation is refused exactly if it names a motif that is not its observer's, or by a label that is
      another motif's, or links to the motif itself or to one that is not of the project. */
  lemma RefusedExactly(t: MotifTables, at: Beat, user: Option<string>, o: Observation)
    requires LedgerOk(t)
    ensures RecordOne(t, at, user, o).Ok? <==>
              && (o.motif.Some? ==>
                    && o.motif.value < |t.motifs|
                    && t.motifs[o.motif.value].project == at.project && t.motifs[o.motif.value].observer == at.observer
                    && (LabelKey(at, o) in t.aliases ==> t.aliases[LabelKey(at, o)] == o.motif.value))
              && forall i :: 0 <= i < |o.connections| ==>
                   && o.connections[i].motif < |t.motifs| && o.connections[i].motif != MotifMeant(t, at, o)
                   && t.motifs[o.connections[i].motif].project == at.project
  {
    hide MotifsOk, EventsOk, RelationsOk, BatchesOk, OncePerBeat;
    var found := Resolve(t, at, o);
    if found.Ok? && found.value.None? {
      LabelNeverTaken(t, at, o);
    }
    if found.Ok? {
      var (m, row, _) := Target(t, at, o, found.value);
      var motifs := Put(t.motifs, m, row);
      assert m == MotifMeant(t, at, o);
      forall i | 0 <= i < |o.connections|
        ensures (o.connections[i].motif < |motifs| && motifs[o.connections[i].motif].project == at.project
                 && o.connections[i].motif != m)
                <==> (o.connections[i].motif < |t.motifs| && o.connections[i].motif != m
                      && t.motifs[o.connections[i].motif].project == at.project)
      {
      }
    }
  }

  /** The row an observation leaves: a candidate that says what was observed, or the row it found, seen once
      more. What became of its mean, its turns and its status the log says. */
  predicate RowLeft(t: MotifTables, at: Beat, o: Observation, m: nat, row: Motif) {
    if m < |t.motifs| then
      && row.project == t.motifs[m].project && row.observer == t.motifs[m].observer
      && row.normalized == t.motifs[m].normalized && row.title == t.motifs[m].title
      && row.description == t.motifs[m].description
      && row.support == t.motifs[m].support + 1 && row.lastTurn == at.turn
    else
      && row.project == at.project && row.observer == at.observer
      && row.normalized == o.normalized && row.title == o.title && row.description == o.description
      && row.status == Candidate && row.confidence == o.confidence
      && row.support == 1 && row.distinctTurns == 1 && row.lastTurn == at.turn
  }

  /** The answer repeats the row, and the log has one entry that says what was observed, during which beat, and
      what became of the motif. */
  predicate Told(at: Beat, user: Option<string>, o: Observation, row: Motif, one: Recorded, e: MotifEvent) {
    && one.title == row.title && one.status == row.status && one.support == row.support
    && one.distinctTurns == row.distinctTurns && one.primary == o.primary
    && e.Observed? && e.motif == one.motif && e.beat == at
    && e.relation == o.relation && e.primary == o.primary && e.confidence == o.confidence
    && e.description == o.description && e.status == row.status
    && e.evidence == (match user case Some(message) => [message] case None => [])
  }

  lemma ObservationRecorded(t: MotifTables, at: Beat, user: Option<string>, o: Observation)
    requires LedgerOk(t) && RecordOne(t, at, user, o).Ok?
    ensures var (next, one) := RecordOne(t, at, user, o).value;
            var m := MotifMeant(t, at, o);
            && one.motif == m && m < |next.motifs|
            && |next.motifs| == (if m < |t.motifs| then |t.motifs| else |t.motifs| + 1)
            && (forall i :: 0 <= i < |t.motifs| && i != m ==> next.motifs[i] == t.motifs[i])
            && RowLeft(t, at, o, m, next.motifs[m])
            && next.aliases == t.aliases[LabelKey(at, o) := m]
            && |next.events| == |t.events| + 1 && t.events <= next.events
            && Told(at, user, o, next.motifs[m], one, next.events[|t.events|])
            && next.events[|t.events|].eventType
               == (if m == |t.motifs| then Created
                   else if next.motifs[m].status != t.motifs[m].status then Promoted else Reinforced)
            && |next.relations| == |t.relations| + |o.connections| && t.relations <= next.relations
            && (forall i :: 0 <= i < |o.connections| ==>
                  next.relations[|t.relations| + i] == RelationEvent(m, at, o.connections[i]))
            && next == t.(motifs := next.motifs, aliases := next.aliases, events := next.events,
                          relations := next.relations)
  {
    hide MotifsOk, EventsOk, RelationsOk, BatchesOk, OncePerBeat;
  }

  // -- one batch -----------------------------------------------------------------------------

  /** What an accepted item leaves: its motif's row agrees with the answer, its label leads to the motif, and
      its links are kept. */
  predicate ItemKept(t: MotifTables, at: Beat, o: Observation, one: Recorded) {
    && one.motif < |t.motifs|
    && one.title == t.motifs[one.motif].title && one.status == t.motifs[one.motif].status
    && one.support == t.motifs[one.motif].support && one.distinctTurns == t.motifs[one.motif].distinctTurns
    && t.motifs[one.motif].lastTurn == at.turn
    && LabelKey(at, o) in t.aliases && t.aliases[LabelKey(at, o)] == one.motif
    && (forall i :: 0 <= i < |o.connections| ==> RelationEvent(one.motif, at, o.connections[i]) in t.relations)
  }

  /** The log's entry for an item. */
  predicate Entry(at: Beat, user: Option<string>, o: Observation, one: Recorded, e: MotifEvent) {
    && one.primary == o.primary
    && e.Observed? && e.motif == one.motif && e.beat == at
    && e.relation == o.relation && e.primary == o.primary && e.confidence == o.confidence
    && e.description == o.description && e.status == one.status
    && e.evidence == (match user case Some(message) => [message] case None => [])
  }

  lemma ItemStays(t: MotifTables, next: MotifTables, at: Beat, user: Option<string>, o: Observation, one: Recorded,
                  other: Observation, added: Recorded)
    requires LedgerOk(t) && RecordOne(t, at, user, other) == Ok((next, added))
    requires ItemKept(t, at, o, one) && added.motif != one.motif
    ensures ItemKept(next, at, o, one)
  {
    hide LedgerOk, RecordOne;
    ObservationRecorded(t, at, user, other);
    if LabelKey(at, o) == LabelKey(at, other) {
      AliasAgrees(t, at, user, other);
    }
  }

  lemma AliasAgrees(t: MotifTables, at: Beat, user: Option<string>, o: Observation)
    requires LedgerOk(t) && RecordOne(t, at, user, o).Ok? && LabelKey(at, o) in t.aliases
    ensures RecordOne(t, at, user, o).value.1.motif == t.aliases[LabelKey(at, o)]
  {
  }

  lemma ItemRecorded(t: MotifTables, next: MotifTables, at: Beat, user: Option<string>, o: Observation, one: Recorded)
    requires LedgerOk(t) && RecordOne(t, at, user, o) == Ok((next, one))
    ensures ItemKept(next, at, o, one)
    ensures |next.events| == |t.events| + 1 && t.events <= next.events
    ensures Entry(at, user, o, one, next.events[|t.events|])
  {
    hide LedgerOk, RecordOne;
    ObservationRecorded(t, at, user, o);
    forall i | 0 <= i < |o.connections| ensures RelationEvent(one.motif, at, o.connections[i]) in next.relations {
      assert next.relations[|t.relations| + i] == RelationEvent(one.motif, at, o.connections[i]);
    }
  }

  lemma {:induction false} AllReported(t: MotifTables, at: Beat, user: Option<string>, os: seq<Observation>)
    requires LedgerOk(t) && Occupied(t, at) && RecordAll(t, at, user, os).Ok?
    requires forall i :: 0 <= i < |os| ==> 0.0 <= os[i].confidence <= 1.0 && ConnectionsOk(os[i])
    requires BeatNamed(t.events, at, [])
    ensures var (next, results) := RecordAll(t, at, user, os).value;
            && LedgerOk(next) && |results| == |os|
            && (forall i, j :: 0 <= i < j < |results| ==> results[i].motif != results[j].motif)
            && (forall i :: 0 <= i < |os| ==> ItemKept(next, at, os[i], results[i]))
            && |next.events| == |t.events| + |os| && t.events <= next.events
            && (forall i :: 0 <= i < |os| ==> Entry(at, user, os[i], results[i], next.events[|t.events| + i]))
  {
    hide LedgerOk, RecordOne, ConnectionsOk, ItemKept, Entry, Occupied;
    RecordAllKeeps(t, at, user, os);
    if os != [] {
      var n := |os| - 1;
      AllReported(t, at, user, os[..n]);
      var (before, earlier) := RecordAll(t, at, user, os[..n]).value;
      var (next, one) := RecordOne(before, at, user, os[n]).value;
      var (_, results) := RecordAll(t, at, user, os).value;
      assert results == earlier + [one];
      ItemRecorded(before, next, at, user, os[n], one);
      forall i | 0 <= i < n ensures ItemKept(next, at, os[i], results[i]) {
        assert ItemKept(before, at, os[..n][i], earlier[i]);
        ItemStays(before, next, at, user, os[i], earlier[i], os[n], one);
      }
      forall i | 0 <= i < |os| ensures Entry(at, user, os[i], results[i], next.events[|t.events| + i]) {
        if i < n {
          assert Entry(at, user, os[..n][i], earlier[i], before.events[|t.events| + i]);
        }
      }
    }
  }

  /** Exactly one item is primary. */
  ghost predicate OnlyPrimary(items: seq<RawItem>, i: nat) {
    && i < |items| && items[i].RawItem? && items[i].primary
    && forall j :: 0 <= j < |items| && j != i ==> !(items[j].RawItem? && items[j].primary)
  }

  lemma {:induction false} NoPrimary(items: seq<RawItem>)
    ensures CountPrimary(items) == 0 <==> forall j :: 0 <= j < |items| ==> !(items[j].RawItem? && items[j].primary)
  {
    if items != [] {
      var n := |items| - 1;
      NoPrimary(items[..n]);
      assert forall j :: 0 <= j < n ==> items[..n][j] == items[j];
    }
  }

  lemma {:induction false} OnePrimary(items: seq<RawItem>)
    ensures CountPrimary(items) == 1 <==> exists i :: OnlyPrimary(items, i)
  {
    if items != [] {
      var n := |items| - 1;
      OnePrimary(items[..n]);
      NoPrimary(items[..n]);
      assert forall j :: 0 <= j < n ==> items[..n][j] == items[j];
      if CountPrimary(items) == 1 {
        if items[n].RawItem? && items[n].primary {
          assert OnlyPrimary(items, n);
        } else {
          var i :| OnlyPrimary(items[..n], i);
          assert OnlyPrimary(items, i);
        }
      }
      if i: nat :| OnlyPrimary(items, i) {
        if i < n {
          assert OnlyPrimary(items[..n], i);
        } else {
          assert i == n;
        }
      }
    }
  }

  lemma {:induction false} FirstPrimaryIs(results: seq<Recorded>, i: nat)
    requires i < |results| && results[i].primary && forall j :: 0 <= j < i ==> !results[j].primary
    ensures FirstPrimary(results) == Some(results[i].motif)
  {
    if i > 0 {
      FirstPrimaryIs(results[1..], i - 1);
    }
  }

  /** What the log keeps of an item as the agent submitted it. */
  predicate SaysItem(item: RawItem, at: Beat, user: Option<string>, one: Recorded, e: MotifEvent)
    requires item.RawItem?
  {
    && e.Observed? && e.motif == one.motif && e.beat == at && e.status == one.status
    && e.relation == Strip(item.relation) && e.description == Strip(item.description)
    && Some(e.confidence) == item.confidence
    && e.primary == one.primary == item.primary
    && e.evidence == (match user case Some(message) => [message] case None => [])
  }

  /** The tables hold the item's links, its label leads to its motif, and the motif's row agrees with the answer. */
  predicate HoldsItem(t: MotifTables, item: RawItem, at: Beat, one: Recorded)
    requires item.RawItem?
  {
    && one.motif < |t.motifs| && t.motifs[one.motif].lastTurn == at.turn
    && one.title == t.motifs[one.motif].title && one.status == t.motifs[one.motif].status
    && one.support == t.motifs[one.motif].support && one.distinctTurns == t.motifs[one.motif].distinctTurns
    && (var key := AliasKey(at.project, at.observer, NormalizeLabel(Strip(item.title)));
        key in t.aliases && t.aliases[key] == one.motif)
    && (forall i :: 0 <= i < |item.connections| ==> LinkKept(t, item.connections[i], at, one))
  }

  predicate LinkKept(t: MotifTables, c: RawConnection, at: Beat, one: Recorded) {
    && c.RawConnection? && c.motif.Some? && c.confidence.Some?
    && RelationEvent(one.motif, at,
                     Connection(c.motif.value, Strip(c.relation), Strip(c.description), c.confidence.value))
       in t.relations
  }

  lemma ItemAsSubmitted(t: MotifTables, item: RawItem, at: Beat, user: Option<string>, one: Recorded, e: MotifEvent)
    requires ItemAccepted(item) && ItemKept(t, at, PreparedItem(item), one)
    requires Entry(at, user, PreparedItem(item), one, e)
    ensures SaysItem(item, at, user, one, e) && HoldsItem(t, item, at, one)
  {
    hide Strip, NormalizeLabel;
    var o := PreparedItem(item);
    forall i | 0 <= i < |item.connections| ensures LinkKept(t, item.connections[i], at, one) {
      assert RelationEvent(one.motif, at, o.connections[i]) in t.relations;
    }
  }

  /** A batch under a new operation, if it is accepted, records each item once, in order, under motifs that
      differ; its answer agrees with the rows, and names the motif of the one primary item. */
  lemma BatchReports(t: MotifTables, op: OpKey, at: Beat, user: Option<string>, items: seq<RawItem>)
    requires LedgerOk(t) && op !in t.batches && RecordBatch(t, op, at, user, items).1.Ok?
    ensures var (after, r) := RecordBatch(t, op, at, user, items);
            var results := r.value.observations;
            && |results| == |items| && after.batches == t.batches[op := BatchRow(at, r.value)]
            && (forall i, j :: 0 <= i < j < |results| ==> results[i].motif != results[j].motif)
            && |after.events| == |t.events| + |items| && t.events <= after.events
            && (forall i :: 0 <= i < |items| ==>
                  && items[i].RawItem?
                  && SaysItem(items[i], at, user, results[i], after.events[|t.events| + i])
                  && HoldsItem(after, items[i], at, results[i]))
            && exists i: nat :: OnlyPrimary(items, i) && r.value.primaryMotif == Some(results[i].motif)
  {
    hide LedgerOk, ItemAccepted, PreparedItem, ItemKept, Entry, SaysItem, HoldsItem, Occupied, IdentityOf;
    var (after, r) := RecordBatch(t, op, at, user, items);
    var results := r.value.observations;
    var row := BatchRow(at, BatchResult([], None));
    var started := t.(batches := t.batches[op := row]);
    var os := seq(|items|, i requires 0 <= i < |items| => PreparedItem(items[i]));
    BatchSteps(t, op, at, user, items);
    var (next, _) := RecordAll(started, at, user, os).value;
    hide RecordBatch;
    forall i | 0 <= i < |items|
      ensures items[i].RawItem? && SaysItem(items[i], at, user, results[i], after.events[|t.events| + i])
      ensures HoldsItem(after, items[i], at, results[i])
    {
      AcceptedIsItem(items[i]);
      ItemAsSubmitted(next, items[i], at, user, results[i], next.events[|t.events| + i]);
      HoldsSame(next, after, items[i], at, results[i]);
    }
    OnePrimary(items);
    var i: nat :| OnlyPrimary(items, i);
    forall j | 0 <= j < |items| ensures results[j].primary == items[j].primary {
      SaysPrimary(items[j], at, user, results[j], after.events[|t.events| + j]);
    }
    FirstPrimaryIs(results, i);
  }

  lemma AcceptedIsItem(item: RawItem)
    requires ItemAccepted(item)
    ensures item.RawItem?
  {
  }

  lemma SaysPrimary(item: RawItem, at: Beat, user: Option<string>, one: Recorded, e: MotifEvent)
    requires item.RawItem? && SaysItem(item, at, user, one, e)
    ensures one.primary == item.primary
  {
  }

  lemma HoldsSame(t: MotifTables, next: MotifTables, item: RawItem, at: Beat, one: Recorded)
    requires item.RawItem? && HoldsItem(t, item, at, one) && next == t.(batches := next.batches)
    ensures HoldsItem(next, item, at, one)
  {
  }

  lemma BatchSteps(t: MotifTables, op: OpKey, at: Beat, user: Option<string>, items: seq<RawItem>)
    requires LedgerOk(t) && op !in t.batches && RecordBatch(t, op, at, user, items).1.Ok?
    ensures BatchAccepted(items)
    ensures var (after, r) := RecordBatch(t, op, at, user, items);
            var started := t.(batches := t.batches[op := BatchRow(at, BatchResult([], None))]);
            var os := seq(|items|, i requires 0 <= i < |items| => PreparedItem(items[i]));
            && RecordAll(started, at, user, os).Ok?
            && var (next, results) := RecordAll(started, at, user, os).value;
               && r.value == BatchResult(results, FirstPrimary(results))
               && after == next.(batches := next.batches[op := BatchRow(at, r.value)])
               && next.batches == started.batches
               && |results| == |items|
               && (forall i, j :: 0 <= i < j < |results| ==> results[i].motif != results[j].motif)
               && |next.events| == |t.events| + |items| && t.events <= next.events
               && (forall i :: 0 <= i < |items| ==>
                     && ItemKept(next, at, PreparedItem(items[i]), results[i])
                     && Entry(at, user, PreparedItem(items[i]), results[i], next.events[|t.events| + i]))
  {
    hide LedgerOk, ItemAccepted, PreparedItem, ItemKept, Entry, IdentityOf, CountPrimary;
    var started := t.(batches := t.batches[op := BatchRow(at, BatchResult([], None))]);
    var os := seq(|items|, i requires 0 <= i < |items| => PreparedItem(items[i]));
    NothingOfBeat(t, at);
    RowAdded(t, op, BatchRow(at, BatchResult([], None)));
    PreparedFit(items, os);
    RecordAllKeeps(started, at, user, os);
    AllReported(started, at, user, os);
    var (next, results) := RecordAll(started, at, user, os).value;
    forall i | 0 <= i < |items|
      ensures ItemKept(next, at, PreparedItem(items[i]), results[i])
      ensures Entry(at, user, PreparedItem(items[i]), results[i], next.events[|t.events| + i])
    {
      assert os[i] == PreparedItem(items[i]);
    }
  }

  lemma NothingOfBeat(t: MotifTables, at: Beat)
    requires LedgerOk(t) && !Occupied(t, at)
    ensures BeatNamed(t.events, at, [])
  {
    NoneYet(t, at);
  }

  /** What a batch is answered with: a refusal when an item is not acceptable or the turn is unknown, the
      stored answer when its operation recorded it before, a refusal when its beat has a batch of another
      operation, and otherwise what recording its items comes to. */
  lemma BatchAnswered(t: MotifTables, op: OpKey, at: Beat, user: Option<string>, items: seq<RawItem>)
    ensures var (after, r) := RecordBatch(t, op, at, user, items);
            var started := t.(batches := t.batches[op := BatchRow(at, BatchResult([], None))]);
            && (r.Err? || op in t.batches ==> after == t)
            && (!BatchAccepted(items) || at.turn == "" ==> r == Err(Invalid))
            && (BatchAccepted(items) && at.turn != "" && at.project !in t.projects ==> r == Err(NotFound))
            && (BatchAccepted(items) && at.turn != "" && at.project in t.projects ==>
                  if op in t.batches then r == Ok(t.batches[op].result)
                  else if exists other :: other in t.batches && t.batches[other].beat == at then r == Err(Invalid)
                  else
                    var os := seq(|items|, i requires 0 <= i < |items| => PreparedItem(items[i]));
                    && (r.Ok? <==> RecordAll(started, at, user, os).Ok?)
                    && (r.Err? ==> r.error == RecordAll(started, at, user, os).error))
  {
    hide BatchAccepted, RecordAll;
  }

  /** Two items of one batch collide exactly if they name the same motif, or name none and have one label. */
  lemma IdentitiesCollide(x: RawItem, y: RawItem)
    requires ItemAccepted(x) && ItemAccepted(y)
    ensures IdentityOf(PreparedItem(x)) == IdentityOf(PreparedItem(y)) <==>
              && x.motif == y.motif
              && (x.motif.None? ==> NormalizeLabel(Strip(x.title)) == NormalizeLabel(Strip(y.title)))
  {
  }

  // -- evidence ------------------------------------------------------------------------------

  /** The beat's observations that lack the message. */
  function Lacking(events: seq<MotifEvent>, at: Beat, message: string): set<nat> {
    set i: nat | i < |events| && events[i].Observed? && events[i].beat == at && message !in events[i].evidence
  }

  /** Attaching adds the message to every observation of the beat that lacks it, and counts those. */
  lemma AttachedExactly(events: seq<MotifEvent>, at: Beat, message: string)
    ensures |Attached(events, at, message)| == |events|
    ensures forall i: nat :: i < |events| ==>
              Attached(events, at, message)[i]
              == if i in Lacking(events, at, message) then events[i].(evidence := events[i].evidence + [message])
                 else events[i]
    ensures CountWanting(events, at, message) == |Lacking(events, at, message)|
  {
    AttachedSame(events, at, message, 0);
    forall i: nat | i < |events|
      ensures Attached(events, at, message)[i]
              == if i in Lacking(events, at, message) then events[i].(evidence := events[i].evidence + [message])
                 else events[i]
    {
      AttachedAt(events, at, message, i);
    }
    LackingCounted(events, at, message);
  }

  lemma LackingMore(events: seq<MotifEvent>, at: Beat, message: string)
    requires events != []
    ensures var n := |events| - 1;
            Lacking(events, at, message)
            == Lacking(events[..n], at, message) + if Wants(events[n], at, message) then {n} else {}
  {
  }

  lemma {:induction false} LackingCounted(events: seq<MotifEvent>, at: Beat, message: string)
    ensures CountWanting(events, at, message) == |Lacking(events, at, message)|
  {
    if events == [] {
      assert Lacking(events, at, message) == {};
    } else {
      var n := |events| - 1;
      LackingCounted(events[..n], at, message);
      LackingMore(events, at, message);
      assert n !in Lacking(events[..n], at, message);
      hide Lacking, Wants;
    }
  }
}
