/** Repeated runs in an observer's recent sequence of primary motifs. */
module Trajectories {
  import opened Records

  const MOTIF_TRAJECTORY_WINDOW := 64
  const MOTIF_PATTERN_MIN_DISTINCT_TURNS := 3
  const MAX_FREQUENT_PATTERNS := 8
  const MAX_RETURN_PATTERNS := 6
  const MAX_RETURN_LENGTH := 6

  type Motifs = seq<nat>

  /** The turn a position belongs to, or the position itself when its turn is not known. */
  datatype Anchor = InTurn(turn: TurnId) | AtPosition(position: nat)

  function AnchorAt(turns: seq<Option<TurnId>>, i: nat): Anchor
    requires i < |turns|
  {
    if turns[i].Some? && turns[i].value != "" then InTurn(turns[i].value) else AtPosition(i)
  }

  /** Two occurrences count as one turn exactly if both end in the same known turn, or at the same place. */
  lemma SameAnchor(turns: seq<Option<TurnId>>, i: nat, j: nat)
    requires i < |turns| && j < |turns|
    ensures AnchorAt(turns, i) == AnchorAt(turns, j) <==>
              i == j || (turns[i] == turns[j] && turns[i] != None && turns[i] != Some(""))
  {
  }

  predicate Matches(values: Motifs, pattern: Motifs, start: nat) {
    start + |pattern| <= |values| && values[start..start + |pattern|] == pattern
  }

  /** Where the pattern occurs, among the first `n` starting positions. */
  function Starts(values: Motifs, pattern: Motifs, n: nat): set<nat> {
    set s: nat | s < n && Matches(values, pattern, s)
  }

  /** The turns in which those occurrences end. */
  function Anchors(values: Motifs, turns: seq<Option<TurnId>>, pattern: Motifs, n: nat): set<Anchor>
    requires |turns| == |values| && pattern != []
  {
    set s | s in Starts(values, pattern, n) :: AnchorAt(turns, s + |pattern| - 1)
  }

  datatype Stats = Stats(count: nat, turns: set<Anchor>)

  datatype Pattern = Pattern(motifs: Motifs, count: nat, distinctTurns: nat)

  /** What a pattern's record must say: every occurrence counted, and every turn in which one ends. */
  predicate Describes(p: Pattern, values: Motifs, turns: seq<Option<TurnId>>)
    requires |turns| == |values|
  {
    && p.motifs != [] && Starts(values, p.motifs, |values|) != {}
    && p.count == |Starts(values, p.motifs, |values|)|
    && p.distinctTurns == |Anchors(values, turns, p.motifs, |values|)|
  }

  predicate IsFrequent(p: Pattern, values: Motifs, turns: seq<Option<TurnId>>, least: nat)
    requires |turns| == |values|
  {
    (|p.motifs| == 2 || |p.motifs| == 3) && Describes(p, values, turns) && p.distinctTurns >= least
  }

  predicate Returns(motifs: Motifs) {
    3 <= |motifs| <= 6 && motifs[0] == motifs[|motifs| - 1]
  }

  predicate IsReturn(p: Pattern, values: Motifs, turns: seq<Option<TurnId>>, least: nat)
    requires |turns| == |values|
  {
    Returns(p.motifs) && Describes(p, values, turns) && p.distinctTurns >= least
  }

  // -- laws of the two kinds of pattern ------------------------------------------------------

  lemma ShiftedMatch(values: Motifs, pattern: Motifs, s: nat)
    requires |pattern| > 1 && Matches(values, pattern, s)
    ensures Matches(values, pattern[1..], s + 1)
  {
  }

  lemma {:induction false} ShiftSize(s: set<nat>, t: set<nat>)
    requires forall x :: x in s ==> x + 1 in t
    ensures |s| <= |t|
    decreases |s|
  {
    if s != {} {
      var x :| x in s;
      ShiftSize(s - {x}, t - {x + 1});
    }
  }

  lemma {:induction false} SubsetSize<T>(s: set<T>, t: set<T>)
    requires s <= t
    ensures |s| <= |t|
  {
    assert t == s + (t - s);
  }

  /** Dropping the first motif of a frequent pattern leaves one that occurs at least as often, in at least
      as many turns. */
  lemma SuffixIsFrequent(p: Pattern, values: Motifs, turns: seq<Option<TurnId>>, least: nat)
    requires |turns| == |values| && IsFrequent(p, values, turns, least) && |p.motifs| == 3
    ensures exists q :: && IsFrequent(q, values, turns, least) && q.motifs == p.motifs[1..]
                        && q.count >= p.count && q.distinctTurns >= p.distinctTurns
  {
    var n, suffix := |values|, p.motifs[1..];
    forall s | s in Starts(values, p.motifs, n) ensures s + 1 in Starts(values, suffix, n) {
      ShiftedMatch(values, p.motifs, s);
    }
    ShiftSize(Starts(values, p.motifs, n), Starts(values, suffix, n));
    forall a | a in Anchors(values, turns, p.motifs, n) ensures a in Anchors(values, turns, suffix, n) {
      var s :| s in Starts(values, p.motifs, n) && a == AnchorAt(turns, s + |p.motifs| - 1);
      assert s + 1 in Starts(values, suffix, n) && a == AnchorAt(turns, (s + 1) + |suffix| - 1);
    }
    SubsetSize(Anchors(values, turns, p.motifs, n), Anchors(values, turns, suffix, n));
    var q := Pattern(suffix, |Starts(values, suffix, n)|, |Anchors(values, turns, suffix, n)|);
    assert IsFrequent(q, values, turns, least);
  }

  /** On patterns of three motifs that come back to the first, both miners say the same. */
  lemma MinersAgree(p: Pattern, values: Motifs, turns: seq<Option<TurnId>>, least: nat)
    requires |turns| == |values| && |p.motifs| == 3 && p.motifs[0] == p.motifs[2]
    ensures IsFrequent(p, values, turns, least) <==> IsReturn(p, values, turns, least)
  {
  }

  // -- counting windows ----------------------------------------------------------------------

  lemma OneMoreStart(values: Motifs, turns: seq<Option<TurnId>>, pattern: Motifs, start: nat)
    requires |turns| == |values| && pattern != []
    ensures Matches(values, pattern, start) ==>
              && Starts(values, pattern, start + 1) == Starts(values, pattern, start) + {start}
              && Anchors(values, turns, pattern, start + 1)
                 == Anchors(values, turns, pattern, start) + {AnchorAt(turns, start + |pattern| - 1)}
    ensures !Matches(values, pattern, start) ==>
              && Starts(values, pattern, start + 1) == Starts(values, pattern, start)
              && Anchors(values, turns, pattern, start + 1) == Anchors(values, turns, pattern, start)
  {
  }

  /** The dictionary is right about one pattern, for the windows met so far. */
  ghost predicate CountedOne(occurrences: map<Motifs, Stats>, values: Motifs, turns: seq<Option<TurnId>>, p: Motifs,
                             n: nat, returning: bool)
    requires |turns| == |values| && p != []
  {
    && (p in occurrences <==> Starts(values, p, n) != {} && (returning ==> p[0] == p[|p| - 1]))
    && (p in occurrences ==> occurrences[p] == Stats(|Starts(values, p, n)|, Anchors(values, turns, p, n)))
  }

  ghost predicate Counted(occurrences: map<Motifs, Stats>, values: Motifs, turns: seq<Option<TurnId>>, size: nat,
                          n: nat, returning: bool)
    requires |turns| == |values| && size > 0
  {
    forall p: Motifs :: |p| == size ==> CountedOne(occurrences, values, turns, p, n, returning)
  }

  ghost predicate SameElsewhere(x: map<Motifs, Stats>, y: map<Motifs, Stats>, size: nat) {
    forall p: Motifs :: |p| != size ==> (p in x <==> p in y) && (p in x ==> x[p] == y[p])
  }

  /** Count every window of one size. */
  method CountWindows(values: Motifs, turns: seq<Option<TurnId>>, size: nat, returning: bool,
                      before: map<Motifs, Stats>)
    returns (occurrences: map<Motifs, Stats>)
    requires |turns| == |values| && 0 < size <= |values| && forall p :: p in before ==> |p| != size
    ensures Counted(occurrences, values, turns, size, |values|, returning)
    ensures SameElsewhere(before, occurrences, size)
  {
    hide Starts, Anchors, CountedOne, Counted, Matches, SameElsewhere;
    occurrences := before;
    NoneCounted(before, values, turns, size, returning);
    for start := 0 to |values| - size + 1
      invariant Counted(occurrences, values, turns, size, start, returning)
      invariant SameElsewhere(before, occurrences, size)
    {
      var pattern := values[start..start + size];
      var anchor := AnchorAt(turns, start + size - 1);
      CountedNext(occurrences, values, turns, size, start, returning);
      ElsewhereKept(before, occurrences, pattern, anchor, returning);
      if returning && pattern[0] != pattern[|pattern| - 1] {
        continue;
      }
      var stats := if pattern in occurrences then occurrences[pattern] else Stats(0, {});
      occurrences := occurrences[pattern := Stats(stats.count + 1, stats.turns + {anchor})];
    }
    AllCounted(occurrences, values, turns, size, returning);
  }

  lemma NoneCounted(before: map<Motifs, Stats>, values: Motifs, turns: seq<Option<TurnId>>, size: nat, returning: bool)
    requires |turns| == |values| && size > 0 && forall p :: p in before ==> |p| != size
    ensures Counted(before, values, turns, size, 0, returning) && SameElsewhere(before, before, size)
  {
  }

  lemma ElsewhereKept(before: map<Motifs, Stats>, occurrences: map<Motifs, Stats>, pattern: Motifs, anchor: Anchor,
                      returning: bool)
    requires pattern != [] && SameElsewhere(before, occurrences, |pattern|)
    ensures SameElsewhere(before, WithWindow(occurrences, pattern, anchor, returning), |pattern|)
  {
  }

  lemma AllCounted(occurrences: map<Motifs, Stats>, values: Motifs, turns: seq<Option<TurnId>>, size: nat,
                   returning: bool)
    requires |turns| == |values| && 0 < size <= |values|
    requires Counted(occurrences, values, turns, size, |values| - size + 1, returning)
    ensures Counted(occurrences, values, turns, size, |values|, returning)
  {
    NoLaterStart(values, turns, size);
    forall p: Motifs | |p| == size ensures CountedOne(occurrences, values, turns, p, |values|, returning) {
      assert CountedOne(occurrences, values, turns, p, |values| - size + 1, returning);
    }
  }

  /** The dictionary after one more window. */
  function WithWindow(occurrences: map<Motifs, Stats>, pattern: Motifs, anchor: Anchor, returning: bool)
    : map<Motifs, Stats>
    requires pattern != []
  {
    if returning && pattern[0] != pattern[|pattern| - 1] then occurrences
    else
      var stats := if pattern in occurrences then occurrences[pattern] else Stats(0, {});
      occurrences[pattern := Stats(stats.count + 1, stats.turns + {anchor})]
  }

  lemma OtherCounted(occurrences: map<Motifs, Stats>, values: Motifs, turns: seq<Option<TurnId>>, p: Motifs,
                     start: nat, pattern: Motifs, anchor: Anchor, returning: bool)
    requires |turns| == |values| && p != [] && pattern != [] && p != pattern && !Matches(values, p, start)
    requires CountedOne(occurrences, values, turns, p, start, returning)
    ensures CountedOne(WithWindow(occurrences, pattern, anchor, returning), values, turns, p, start + 1, returning)
  {
    OneMoreStart(values, turns, p, start);
  }

  lemma ThisCounted(occurrences: map<Motifs, Stats>, values: Motifs, turns: seq<Option<TurnId>>, start: nat,
                    pattern: Motifs, returning: bool)
    requires |turns| == |values| && pattern != [] && Matches(values, pattern, start)
    requires CountedOne(occurrences, values, turns, pattern, start, returning)
    ensures CountedOne(WithWindow(occurrences, pattern, AnchorAt(turns, start + |pattern| - 1), returning),
                       values, turns, pattern, start + 1, returning)
  {
    OneMoreStart(values, turns, pattern, start);
    assert start !in Starts(values, pattern, start) && start in Starts(values, pattern, start + 1);
    if pattern !in occurrences && (returning ==> pattern[0] == pattern[|pattern| - 1]) {
      assert Starts(values, pattern, start) == {};
      assert Anchors(values, turns, pattern, start) == {};
    }
  }

  lemma CountedNext(occurrences: map<Motifs, Stats>, values: Motifs, turns: seq<Option<TurnId>>, size: nat, start: nat,
                    returning: bool)
    requires |turns| == |values| && size > 0 && start + size <= |values|
    requires Counted(occurrences, values, turns, size, start, returning)
    ensures Counted(WithWindow(occurrences, values[start..start + size], AnchorAt(turns, start + size - 1), returning),
                    values, turns, size, start + 1, returning)
  {
    hide CountedOne, WithWindow;
    var pattern := values[start..start + size];
    var next := WithWindow(occurrences, pattern, AnchorAt(turns, start + size - 1), returning);
    forall p: Motifs | |p| == size ensures CountedOne(next, values, turns, p, start + 1, returning) {
      assert CountedOne(occurrences, values, turns, p, start, returning);
      if p == pattern {
        ThisCounted(occurrences, values, turns, start, pattern, returning);
      } else {
        OtherCounted(occurrences, values, turns, p, start, pattern, AnchorAt(turns, start + size - 1), returning);
      }
    }
  }

  lemma NoLaterStart(values: Motifs, turns: seq<Option<TurnId>>, size: nat)
    requires |turns| == |values| && 0 < size <= |values|
    ensures forall p: Motifs :: |p| == size ==>
              && Starts(values, p, |values|) == Starts(values, p, |values| - size + 1)
              && Anchors(values, turns, p, |values|) == Anchors(values, turns, p, |values| - size + 1)
  {
  }

  // -- the two miners ------------------------------------------------------------------------

  /** Patterns of the dictionary that are seen in enough turns, each once, in some order. */
  method Qualifying(occurrences: map<Motifs, Stats>, least: nat) returns (records: seq<Pattern>)
    ensures forall p :: p in records <==>
              p.motifs in occurrences && |occurrences[p.motifs].turns| >= least
              && p == Pattern(p.motifs, occurrences[p.motifs].count, |occurrences[p.motifs].turns|)
    ensures forall i, j :: 0 <= i < j < |records| ==> records[i].motifs != records[j].motifs
  {
    records := [];
    var rest := occurrences.Keys;
    while |rest| > 0
      invariant rest <= occurrences.Keys
      invariant forall p :: p in records <==>
                  p.motifs in occurrences && p.motifs !in rest && |occurrences[p.motifs].turns| >= least
                  && p == Pattern(p.motifs, occurrences[p.motifs].count, |occurrences[p.motifs].turns|)
      invariant forall i, j :: 0 <= i < j < |records| ==> records[i].motifs != records[j].motifs
      decreases |rest|
    {
      var motifs :| motifs in rest;
      rest := rest - {motifs};
      var stats := occurrences[motifs];
      if |stats.turns| < least {
        continue;
      }
      records := records + [Pattern(motifs, stats.count, |stats.turns|)];
    }
  }

  /** Every frequent run of two or three motifs, before ranking. */
  method FrequentPatterns(values: Motifs, turns: seq<Option<TurnId>>, least: nat) returns (records: seq<Pattern>)
    requires |turns| == |values|
    ensures forall p :: p in records <==> IsFrequent(p, values, turns, least)
    ensures forall i, j :: 0 <= i < j < |records| ==> records[i].motifs != records[j].motifs
  {
    var pairs: map<Motifs, Stats> := map[];
    if |values| >= 2 {
      pairs := CountWindows(values, turns, 2, false, pairs);
    }
    var triples: map<Motifs, Stats> := map[];
    if |values| >= 3 {
      triples := CountWindows(values, turns, 3, false, triples);
    }
    var twos := Qualifying(pairs, least);
    var threes := Qualifying(triples, least);
    records := twos + threes;
    forall p ensures p in records <==> IsFrequent(p, values, turns, least) {
      SmallSequences(values, p.motifs);
    }
  }

  lemma SmallSequences(values: Motifs, p: Motifs)
    ensures |p| > |values| ==> Starts(values, p, |values|) == {}
  {
  }

  /** The dictionary holds exactly the returning windows of sizes 3 up to, but not including, `size`. */
  ghost predicate CountedBelow(occurrences: map<Motifs, Stats>, values: Motifs, turns: seq<Option<TurnId>>, size: nat)
    requires |turns| == |values|
  {
    && (forall p :: p in occurrences ==> 3 <= |p| < size)
    && (forall p: Motifs :: 3 <= |p| < size ==> CountedOne(occurrences, values, turns, p, |values|, true))
  }

  lemma OneMoreSize(x: map<Motifs, Stats>, y: map<Motifs, Stats>, values: Motifs, turns: seq<Option<TurnId>>, size: nat)
    requires |turns| == |values| && size >= 3
    requires CountedBelow(x, values, turns, size)
    requires Counted(y, values, turns, size, |values|, true) && SameElsewhere(x, y, size)
    ensures CountedBelow(y, values, turns, size + 1)
  {
  }

  /** Every run of three to six motifs that comes back to its first, before ranking. */
  method ReturnPatterns(values: Motifs, turns: seq<Option<TurnId>>, least: nat) returns (records: seq<Pattern>)
    requires |turns| == |values|
    ensures forall p :: p in records <==> IsReturn(p, values, turns, least)
    ensures forall i, j :: 0 <= i < j < |records| ==> records[i].motifs != records[j].motifs
  {
    var occurrences: map<Motifs, Stats> := map[];
    var longest := if |values| < MAX_RETURN_LENGTH then |values| else MAX_RETURN_LENGTH;
    var size := 3;
    while size <= longest
      invariant 3 <= size && (size <= longest + 1 || size == 3)
      invariant CountedBelow(occurrences, values, turns, size)
    {
      ghost var before := occurrences;
      occurrences := CountWindows(values, turns, size, true, occurrences);
      OneMoreSize(before, occurrences, values, turns, size);
      size := size + 1;
    }
    records := Qualifying(occurrences, least);
    forall p ensures p in records <==> IsReturn(p, values, turns, least) {
      SmallSequences(values, p.motifs);
      if 3 <= |p.motifs| < size {
        assert CountedOne(occurrences, values, turns, p.motifs, |values|, true);
      }
    }
  }

  // -- ranking -------------------------------------------------------------------------------

  /** More turns first, then more occurrences, then longer (or shorter) runs. */
  predicate Ahead(p: Pattern, q: Pattern, shortFirst: bool) {
    || p.distinctTurns > q.distinctTurns
    || (p.distinctTurns == q.distinctTurns &&
        (|| p.count > q.count
         || (p.count == q.count && if shortFirst then |p.motifs| < |q.motifs| else |p.motifs| > |q.motifs|)))
  }

  /** `p` ends in more turns than `q`; or in as many, and occurs more often; or as often, and is no shorter
      (or no longer). */
  predicate RanksWith(p: Pattern, q: Pattern, shortFirst: bool) {
    if p.distinctTurns != q.distinctTurns then p.distinctTurns > q.distinctTurns
    else if p.count != q.count then p.count > q.count
    else if shortFirst then |p.motifs| <= |q.motifs|
    else |p.motifs| >= |q.motifs|
  }

  lemma NotBehind(p: Pattern, q: Pattern, shortFirst: bool)
    ensures RanksWith(p, q, shortFirst) <==> !Ahead(q, p, shortFirst)
  {
  }

  predicate InRank(records: seq<Pattern>, shortFirst: bool) {
    forall i, j :: 0 <= i < j < |records| ==> !Ahead(records[j], records[i], shortFirst)
  }

  lemma AheadIsAnOrder(p: Pattern, q: Pattern, r: Pattern, shortFirst: bool)
    ensures !(Ahead(p, q, shortFirst) && Ahead(q, p, shortFirst))
    ensures !Ahead(p, q, shortFirst) && !Ahead(q, r, shortFirst) ==> !Ahead(p, r, shortFirst)
  {
  }

  /** The record goes behind every record it is not ahead of. */
  function Inserted(records: seq<Pattern>, p: Pattern, shortFirst: bool): seq<Pattern> {
    if records == [] || !Ahead(p, records[|records| - 1], shortFirst) then records + [p]
    else Inserted(records[..|records| - 1], p, shortFirst) + [records[|records| - 1]]
  }

  lemma {:induction false} InsertedHolds(records: seq<Pattern>, p: Pattern, shortFirst: bool)
    ensures multiset(Inserted(records, p, shortFirst)) == multiset(records) + multiset{p}
  {
    hide Ahead;
    if records != [] && Ahead(p, records[|records| - 1], shortFirst) {
      var n := |records| - 1;
      InsertedHolds(records[..n], p, shortFirst);
      assert records == records[..n] + [records[n]];
    }
  }

  lemma {:induction false} InsertedInRank(records: seq<Pattern>, p: Pattern, shortFirst: bool)
    requires InRank(records, shortFirst)
    ensures InRank(Inserted(records, p, shortFirst), shortFirst)
  {
    hide Ahead;
    var n := |records| - 1;
    if records == [] || !Ahead(p, records[n], shortFirst) {
      forall i | 0 <= i < |records| ensures !Ahead(p, records[i], shortFirst) {
        AheadIsAnOrder(p, records[n], records[i], shortFirst);
      }
    } else {
      InsertedInRank(records[..n], p, shortFirst);
      InsertedHolds(records[..n], p, shortFirst);
      var rest := Inserted(records[..n], p, shortFirst);
      forall i | 0 <= i < |rest| ensures !Ahead(records[n], rest[i], shortFirst) {
        assert rest[i] in multiset(rest);
        assert rest[i] == p || rest[i] in records[..n];
        AheadIsAnOrder(p, records[n], p, shortFirst);
      }
    }
  }

  /** The best ranked records, at most `limit` of them. */
  method Best(records: seq<Pattern>, limit: nat, shortFirst: bool) returns (best: seq<Pattern>)
    ensures |best| == if |records| <= limit then |records| else limit
    ensures multiset(best) <= multiset(records) && forall p :: p in best ==> p in records
    ensures forall p, q :: p in records && p !in best && q in best ==> !Ahead(p, q, shortFirst)
    ensures InRank(best, shortFirst)
    ensures |records| <= limit ==> forall p :: p in records ==> p in best
  {
    hide Ahead, Inserted;
    var ranked: seq<Pattern> := [];
    for i := 0 to |records|
      invariant InRank(ranked, shortFirst) && |ranked| == i && multiset(ranked) == multiset(records[..i])
    {
      assert records[..i + 1] == records[..i] + [records[i]];
      InsertedHolds(ranked, records[i], shortFirst);
      InsertedInRank(ranked, records[i], shortFirst);
      InsertedSize(ranked, records[i], shortFirst);
      ranked := Inserted(ranked, records[i], shortFirst);
    }
    assert records[..|records|] == records;
    var cut := if |ranked| <= limit then |ranked| else limit;
    best := ranked[..cut];
    TopIsBest(records, ranked, cut, shortFirst);
    if |records| <= limit {
      forall p | p in records ensures p in best {
        assert p in multiset(ranked) && best == ranked;
      }
    }
  }

  lemma TopIsBest(records: seq<Pattern>, ranked: seq<Pattern>, cut: nat, shortFirst: bool)
    requires cut <= |ranked| && InRank(ranked, shortFirst) && multiset(ranked) == multiset(records)
    ensures var best := ranked[..cut];
            && InRank(best, shortFirst) && multiset(best) <= multiset(records)
            && (forall p :: p in best ==> p in records)
            && (forall p, q :: p in records && p !in best && q in best ==> !Ahead(p, q, shortFirst))
  {
    hide Ahead;
    var best := ranked[..cut];
    assert ranked == best + ranked[cut..];
    forall p | p in best ensures p in records {
      assert p in multiset(ranked);
    }
    forall p, q | p in records && p !in best && q in best ensures !Ahead(p, q, shortFirst) {
      assert p in multiset(ranked);
      var j :| 0 <= j < |ranked| && ranked[j] == p;
      var k :| 0 <= k < cut && ranked[k] == q;
      assert j >= cut;
    }
  }

  lemma {:induction false} InsertedSize(records: seq<Pattern>, p: Pattern, shortFirst: bool)
    ensures |Inserted(records, p, shortFirst)| == |records| + 1
  {
    if records != [] && Ahead(p, records[|records| - 1], shortFirst) {
      InsertedSize(records[..|records| - 1], p, shortFirst);
    }
  }

  predicate OneEach(records: seq<Pattern>) {
    forall i, j :: 0 <= i < j < |records| ==> records[i] != records[j]
  }

  lemma OneEachKept(records: seq<Pattern>, best: seq<Pattern>)
    requires multiset(best) <= multiset(records) && OneEach(records)
    ensures OneEach(best)
  {
    forall i, j | 0 <= i < j < |best| ensures best[i] != best[j] {
      if best[i] == best[j] {
        assert best == best[..i] + [best[i]] + best[i + 1..j] + [best[j]] + best[j + 1..];
        assert multiset(best)[best[i]] >= 2;
        AtMostOnce(records, best[i]);
        assert false;
      }
    }
  }

  lemma {:induction false} AtMostOnce(records: seq<Pattern>, p: Pattern)
    requires OneEach(records)
    ensures multiset(records)[p] <= 1
  {
    if records != [] {
      var n := |records| - 1;
      AtMostOnce(records[..n], p);
      assert records == records[..n] + [records[n]];
    }
  }

  // -- the summary ---------------------------------------------------------------------------

  datatype Overview = Overview(sampleSize: nat, repeated: nat, transitions: nat, uniqueTransitions: nat,
                               frequent: seq<Pattern>, returning: seq<Pattern>)

  /** How many of the most recent entries are looked at; a window of none means all. */
  function Sample(length: nat, window: nat): nat {
    if window == 0 || length <= window then length else window
  }

  function Tail<T>(s: seq<T>, window: nat): seq<T> {
    if window == 0 || |s| <= window then s else s[|s| - window..]
  }

  function Members<T>(s: seq<T>): set<T> {
    set x | x in s
  }

  function PairAt(values: Motifs, i: nat): (nat, nat)
    requires i + 1 < |values|
  {
    (values[i], values[i + 1])
  }

  /** The pairs of neighbours. */
  function Pairs(values: Motifs): set<(nat, nat)> {
    set i: nat | i < |values| - 1 :: PairAt(values, i)
  }

  lemma {:induction false} TransitionsArePairs(values: Motifs)
    ensures Members(Transitions(values)) == Pairs(values)
  {
    if |values| >= 2 {
      var n := |values| - 1;
      var init := values[..n];
      TransitionsArePairs(init);
      assert forall i: nat :: i < n - 1 ==> PairAt(init, i) == PairAt(values, i);
      assert Members(Transitions(values)) == Members(Transitions(init)) + {PairAt(values, n - 1)};
      assert Pairs(values) == Pairs(init) + {PairAt(values, n - 1)};
    }
  }

  function Transitions(values: Motifs): seq<(nat, nat)> {
    if |values| < 2 then [] else Transitions(values[..|values| - 1]) + [(values[|values| - 2], values[|values| - 1])]
  }

  method CountRepeated(values: Motifs) returns (repeated: nat)
    ensures repeated == |values| - |Members(values)|
  {
    var seen: set<nat> := {};
    repeated := 0;
    for i := 0 to |values|
      invariant seen == Members(values[..i])
      invariant repeated == i - |seen|
    {
      assert values[..i + 1] == values[..i] + [values[i]];
      assert Members(values[..i + 1]) == seen + {values[i]};
      if values[i] in seen {
        assert seen + {values[i]} == seen;
        repeated := repeated + 1;
      }
      seen := seen + {values[i]};
    }
    assert values[..|values|] == values;
  }

  /** The records are patterns of this kind, each once and in rank order, up to the limit; a pattern left out
      ranks no higher than those reported, and none is left out below the limit. */
  ghost predicate Reports(records: seq<Pattern>, kind: Pattern -> bool, limit: nat, shortFirst: bool) {
    && |records| <= limit && OneEach(records)
    && (forall p :: p in records ==> kind(p))
    && (forall i, j :: 0 <= i < j < |records| ==> RanksWith(records[i], records[j], shortFirst))
    && (forall p, q :: kind(p) && p !in records && q in records ==> RanksWith(q, p, shortFirst))
    && (|records| < limit ==> forall p :: kind(p) ==> p in records)
  }

  lemma BestReports(all: seq<Pattern>, best: seq<Pattern>, kind: Pattern -> bool, limit: nat, shortFirst: bool)
    requires OneEach(all) && forall p :: p in all <==> kind(p)
    requires |best| == (if |all| <= limit then |all| else limit) && multiset(best) <= multiset(all)
    requires InRank(best, shortFirst) && forall p :: p in best ==> p in all
    requires forall p, q :: p in all && p !in best && q in best ==> !Ahead(p, q, shortFirst)
    requires |all| <= limit ==> forall p :: p in all ==> p in best
    ensures Reports(best, kind, limit, shortFirst)
  {
    hide Ahead, RanksWith;
    OneEachKept(all, best);
    forall p, q ensures RanksWith(p, q, shortFirst) <==> !Ahead(q, p, shortFirst) {
      NotBehind(p, q, shortFirst);
    }
  }

  /** Recurrence, transitions and repeated runs of the most recent motifs; turn identifiers that do not
      line up with the sequence are refused. */
  method Summarize(sequence: Motifs, turnIds: Option<seq<Option<TurnId>>>,
                   window: nat := MOTIF_TRAJECTORY_WINDOW, least: nat := MOTIF_PATTERN_MIN_DISTINCT_TURNS)
    returns (r: Result<Overview>)
    ensures r.Err? <==> turnIds.Some? && |turnIds.value| != |sequence|
    ensures r.Ok? ==>
              var n := Sample(|sequence|, window);
              var values := sequence[|sequence| - n..];
              var turns := if turnIds.Some? then turnIds.value[|sequence| - n..] else seq(n, _ => None);
              && r.value.sampleSize == n
              && r.value.repeated == n - |set x | x in values|
              && r.value.transitions == (if n == 0 then 0 else n - 1)
              && r.value.uniqueTransitions == |Pairs(values)|
              && Reports(r.value.frequent, p => IsFrequent(p, values, turns, least), 8, false)
              && Reports(r.value.returning, p => IsReturn(p, values, turns, least), 6, true)
  {
    hide IsFrequent, IsReturn, Ahead, Reports, InRank, Pairs;
    var values := Tail(sequence, window);
    if turnIds.Some? && |turnIds.value| != |sequence| {
      return Err(Invalid);
    }
    var turns := if turnIds.Some? then Tail(turnIds.value, window) else seq(|values|, _ => None);
    var repeated := CountRepeated(values);
    var pairs := Members(Transitions(values));
    var frequent := FrequentPatterns(values, turns, least);
    var returning := ReturnPatterns(values, turns, least);
    var bestFrequent := Best(frequent, MAX_FREQUENT_PATTERNS, false);
    var bestReturning := Best(returning, MAX_RETURN_PATTERNS, true);
    BestReports(frequent, bestFrequent, p => IsFrequent(p, values, turns, least), MAX_FREQUENT_PATTERNS, false);
    BestReports(returning, bestReturning, p => IsReturn(p, values, turns, least), MAX_RETURN_PATTERNS, true);
    TransitionsArePairs(values);
    assert Members(values) == set x | x in values;
    return Ok(Overview(|values|, repeated, if |values| == 0 then 0 else |values| - 1, |pairs|,
                       bestFrequent, bestReturning));
  }
}
