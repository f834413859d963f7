/** The counters of every motif agree with the append-only event log, in every reachable state. */
module MotifInvariant {
  import opened Records
  import opened Text
  import opened MotifSteps

  // -- what the log says ---------------------------------------------------------------------

  /** The turns in which a motif was observed, in log order. */
  function TurnsSeen(events: seq<MotifEvent>, m: nat): seq<TurnId> {
    if events == [] then []
    else
      var last := events[|events| - 1];
      TurnsSeen(events[..|events| - 1], m) + if last.Observed? && last.motif == m then [last.beat.turn] else []
  }

  function SumConfidence(events: seq<MotifEvent>, m: nat): real {
    if events == [] then 0.0
    else
      var last := events[|events| - 1];
      SumConfidence(events[..|events| - 1], m) + if last.Observed? && last.motif == m then last.confidence else 0.0
  }

  /** The user's latest decision about a motif. */
  function Decision(events: seq<MotifEvent>, m: nat): Option<MotifStatus> {
    if events == [] then None
    else
      var last := events[|events| - 1];
      if last.StatusSet? && last.motif == m then Some(last.status)
      else Decision(events[..|events| - 1], m)
  }

  /** The number of maximal runs of one turn. */
  function Blocks(turns: seq<TurnId>): nat {
    if turns == [] then 0
    else if |turns| == 1 then 1
    else
      var n := |turns| - 1;
      Blocks(turns[..n]) + if turns[n] == turns[n - 1] then 0 else 1
  }

  /** What a motif's status must be: the user's decision, or else how many turns support it. */
  function StatusFrom(decision: Option<MotifStatus>, distinctTurns: nat): MotifStatus {
    match decision
    case Some(status) => status
    case None => if distinctTurns >= 2 then Supported else Candidate
  }

  predicate IsMean(mean: real, count: nat, sum: real) {
    mean * count as real == sum
  }

  predicate MotifOk(row: Motif, events: seq<MotifEvent>, m: nat) {
    var turns := TurnsSeen(events, m);
    && turns != []
    && row.support == |turns|
    && IsMean(row.confidence, row.support, SumConfidence(events, m))
    && row.distinctTurns == Blocks(turns)
    && row.lastTurn == turns[|turns| - 1]
    && row.status == StatusFrom(Decision(events, m), row.distinctTurns)
  }

  predicate MotifsOk(t: MotifTables) {
    forall m :: 0 <= m < |t.motifs| ==> MotifOk(t.motifs[m], t.events, m)
  }

  function OwnAlias(row: Motif): AliasKey {
    AliasKey(row.project, row.observer, row.normalized)
  }

  /** Aliases lead to motifs of the same project and observer, and a motif's own label leads to it. */
  predicate AliasesOk(t: MotifTables) {
    && (forall key :: key in t.aliases ==>
          && t.aliases[key] < |t.motifs|
          && t.motifs[t.aliases[key]].project == key.project
          && t.motifs[t.aliases[key]].observer == key.observer)
    && (forall m :: 0 <= m < |t.motifs| ==>
          OwnAlias(t.motifs[m]) in t.aliases && t.aliases[OwnAlias(t.motifs[m])] == m)
  }

  predicate NoRepeats(ids: seq<string>) {
    forall i, j :: 0 <= i < j < |ids| ==> ids[i] != ids[j]
  }

  predicate EventOk(t: MotifTables, e: MotifEvent) {
    && e.motif < |t.motifs|
    && match e
       case StatusSet(_, status) => status in USER_MOTIF_STATUSES
       case Observed(m, beat, _, _, _, confidence, _, _, evidence) =>
         && beat.project == t.motifs[m].project && beat.observer == t.motifs[m].observer
         && 0.0 <= confidence <= 1.0
         && NoRepeats(evidence)
         && Occupied(t, beat)
  }

  predicate EventsOk(t: MotifTables) {
    forall i :: 0 <= i < |t.events| ==> EventOk(t, t.events[i])
  }

  /** A beat has at most one batch, and observes a motif at most once. */
  predicate BatchesOk(t: MotifTables) {
    forall p, q :: p in t.batches && q in t.batches && t.batches[p].beat == t.batches[q].beat ==> p == q
  }

  predicate SameBeat(e: MotifEvent, f: MotifEvent) {
    e.Observed? && f.Observed? && e.beat == f.beat
  }

  predicate OncePerBeat(events: seq<MotifEvent>) {
    forall i, j :: 0 <= i < j < |events| && SameBeat(events[i], events[j]) ==> events[i].motif != events[j].motif
  }

  /** What a link between motifs may say. */
  predicate ConnectionOk(c: Connection) {
    && c.relation in MOTIF_CONNECTION_RELATIONS
    && 1 <= |c.description| <= 600 && 0.0 <= c.confidence <= 1.0
  }

  /** A link leads from a motif of its observer to another motif of the same project. */
  predicate RelationOk(motifs: seq<Motif>, r: RelationEvent) {
    && r.source < |motifs| && r.connection.motif < |motifs| && r.source != r.connection.motif
    && motifs[r.source].project == r.beat.project && motifs[r.source].observer == r.beat.observer
    && motifs[r.connection.motif].project == r.beat.project
    && ConnectionOk(r.connection)
  }

  predicate RelationsOk(t: MotifTables) {
    forall i :: 0 <= i < |t.relations| ==> RelationOk(t.motifs, t.relations[i])
  }

  predicate LedgerOk(t: MotifTables) {
    && MotifsOk(t) && AliasesOk(t) && EventsOk(t) && RelationsOk(t) && BatchesOk(t) && OncePerBeat(t.events)
  }

  // -- blocks and distinct turns -------------------------------------------------------------

  function Distinct(turns: seq<TurnId>): set<TurnId> {
    set turn | turn in turns
  }

  /** No turn is observed again after another turn was. */
  predicate Uninterrupted(turns: seq<TurnId>) {
    forall i, j, k :: 0 <= i < j < k < |turns| && turns[i] == turns[k] ==> turns[j] == turns[i]
  }

  /** The turn counter never undercounts, and is the number of distinct turns exactly when no turn of the
      motif's history was interrupted by another. */
  lemma {:induction false} BlocksCountTurns(turns: seq<TurnId>)
    ensures Blocks(turns) >= |Distinct(turns)|
    ensures Blocks(turns) == |Distinct(turns)| <==> Uninterrupted(turns)
  {
    if |turns| <= 1 {
      assert turns == [] ==> Distinct(turns) == {};
      assert |turns| == 1 ==> Distinct(turns) == {turns[0]};
      return;
    }
    var n := |turns| - 1;
    var init := turns[..n];
    BlocksCountTurns(init);
    assert turns == init + [turns[n]];
    DistinctGrows(init, turns[n]);
    assert init[n - 1] in Distinct(init);
    UninterruptedStep(turns);
    hide Distinct, Uninterrupted;
  }

  lemma DistinctGrows(turns: seq<TurnId>, turn: TurnId)
    ensures |Distinct(turns + [turn])| == |Distinct(turns)| + if turn in Distinct(turns) then 0 else 1
  {
    assert Distinct(turns + [turn]) == Distinct(turns) + {turn};
    if turn in Distinct(turns) {
      assert Distinct(turns) + {turn} == Distinct(turns);
    }
  }

  lemma UninterruptedStep(turns: seq<TurnId>)
    requires |turns| >= 2
    ensures var n := |turns| - 1;
            Uninterrupted(turns) <==>
              Uninterrupted(turns[..n]) && (turns[n] == turns[n - 1] || turns[n] !in Distinct(turns[..n]))
  {
  }

  /** A resumed older turn is enough to make the counter exceed the number of distinct turns. */
  lemma InterruptedTurnsAreOvercounted(a: TurnId, b: TurnId)
    requires a != b
    ensures Blocks([a, b, a]) == 3 && |Distinct([a, b, a])| == 2
  {
    assert [a, b, a][..2] == [a, b] && [a, b][..1] == [a];
    assert Blocks([a, b]) == 2;
    assert a in Distinct([a, b, a]) && b in Distinct([a, b, a]);
    assert Distinct([a, b, a]) == {a, b};
  }
}
