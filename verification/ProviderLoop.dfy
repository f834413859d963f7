/** One agent's conversation with a provider: requests, tool rounds, retries and usage totals. */
module ProviderLoop {
  import opened OperationIds
  import opened Records
  import opened Text

  // -- usage ---------------------------------------------------------------------------------

  datatype UsageValue = Whole(number: int) | Details(counts: map<string, int>) | Odd

  datatype RawUsage = NoUsage | Fields(fields: map<string, UsageValue>)

  type Usage = map<string, nat>

  const USAGE_KEYS: seq<string> := [
    "input_tokens", "output_tokens", "prompt_tokens", "completion_tokens", "total_tokens",
    "cached_prompt_tokens", "reasoning_tokens"]

  const CACHED_PATHS: seq<(string, string)> :=
    [("prompt_tokens_details", "cached_tokens"), ("input_tokens_details", "cached_tokens")]

  const REASONING_PATHS: seq<(string, string)> :=
    [("completion_tokens_details", "reasoning_tokens"), ("output_tokens_details", "reasoning_tokens")]

  function DirectValue(raw: RawUsage, key: string): Option<nat> {
    if raw.Fields? && key in raw.fields && raw.fields[key].Whole? && raw.fields[key].number >= 0
    then Some(raw.fields[key].number) else None
  }

  function DetailValue(raw: RawUsage, container: string, key: string): Option<nat> {
    if raw.Fields? && container in raw.fields && raw.fields[container].Details?
       && key in raw.fields[container].counts && raw.fields[container].counts[key] >= 0
    then Some(raw.fields[container].counts[key]) else None
  }

  function Larger(x: Option<nat>, y: Option<nat>): Option<nat> {
    if x.None? then y else if y.None? then x else if x.value >= y.value then x else y
  }

  /** The largest count found under the paths. */
  function LargestDetail(raw: RawUsage, paths: seq<(string, string)>): Option<nat> {
    if paths == [] then None
    else
      var n := |paths| - 1;
      Larger(LargestDetail(raw, paths[..n]), DetailValue(raw, paths[n].0, paths[n].1))
  }

  function PathsOf(key: string): seq<(string, string)> {
    if key == "cached_prompt_tokens" then CACHED_PATHS
    else if key == "reasoning_tokens" then REASONING_PATHS
    else []
  }

  /** A detailed count replaces the plain one. */
  function CountOf(raw: RawUsage, key: string): Option<nat> {
    var detail := LargestDetail(raw, PathsOf(key));
    if detail.Some? then detail else DirectValue(raw, key)
  }

  function Normalized(raw: RawUsage): Usage {
    map key | key in USAGE_KEYS && CountOf(raw, key).Some? :: CountOf(raw, key).value
  }

  function AsRaw(usage: Usage): RawUsage {
    Fields(map key | key in usage :: Whole(usage[key]))
  }

  lemma {:induction false} PlainHasNoDetails(usage: Usage, paths: seq<(string, string)>)
    ensures LargestDetail(AsRaw(usage), paths) == None
  {
    if paths != [] {
      PlainHasNoDetails(usage, paths[..|paths| - 1]);
    }
  }

  /** Normalizing what is already normalized changes nothing, so counts are never taken twice. */
  lemma NormalizedTwice(raw: RawUsage)
    ensures Normalized(AsRaw(Normalized(raw))) == Normalized(raw)
  {
    var usage := Normalized(raw);
    forall key | key in USAGE_KEYS
      ensures CountOf(AsRaw(usage), key) == if key in usage then Some(usage[key]) else None
    {
      PlainHasNoDetails(usage, PathsOf(key));
    }
  }

  function Direct(raw: RawUsage): Usage {
    map key | key in USAGE_KEYS && DirectValue(raw, key).Some? :: DirectValue(raw, key).value
  }

  method DirectCounts(raw: RawUsage) returns (usage: Usage)
    ensures usage == Direct(raw)
  {
    usage := map[];
    for i := 0 to |USAGE_KEYS|
      invariant forall key :: key in usage <==> key in USAGE_KEYS[..i] && DirectValue(raw, key).Some?
      invariant forall key :: key in usage ==> usage[key] == DirectValue(raw, key).value
    {
      hide USAGE_KEYS;
      var key := USAGE_KEYS[i];
      assert USAGE_KEYS[..i + 1] == USAGE_KEYS[..i] + [key];
      var value := DirectValue(raw, key);
      if value.Some? {
        usage := usage[key := value.value];
      }
    }
    assert USAGE_KEYS[..|USAGE_KEYS|] == USAGE_KEYS;
  }

  /** Plain counts first, then the detailed ones over them. */
  method NormalizeUsage(raw: RawUsage) returns (usage: Usage)
    ensures usage == Normalized(raw)
  {
    NormalizedParts(raw);
    if raw.NoUsage? {
      NothingNormalized(raw);
      return map[];
    }
    usage := DirectCounts(raw);
    var cached := LargestOf(raw, CACHED_PATHS);
    if cached.Some? {
      usage := usage["cached_prompt_tokens" := cached.value];
    }
    var reasoning := LargestOf(raw, REASONING_PATHS);
    if reasoning.Some? {
      usage := usage["reasoning_tokens" := reasoning.value];
    }
  }

  lemma NothingNormalized(raw: RawUsage)
    requires raw.NoUsage?
    ensures Normalized(raw) == map[]
  {
    forall key | key in USAGE_KEYS ensures CountOf(raw, key).None? {
      NoUsageNoDetails(raw, PathsOf(key));
    }
  }

  lemma NormalizedParts(raw: RawUsage)
    ensures var cached, reasoning := LargestDetail(raw, CACHED_PATHS), LargestDetail(raw, REASONING_PATHS);
            var first := if cached.Some? then Direct(raw)["cached_prompt_tokens" := cached.value] else Direct(raw);
            Normalized(raw) == if reasoning.Some? then first["reasoning_tokens" := reasoning.value] else first
  {
    assert USAGE_KEYS[5] == "cached_prompt_tokens" && USAGE_KEYS[6] == "reasoning_tokens";
    hide LargestDetail, DirectValue, USAGE_KEYS, CACHED_PATHS, REASONING_PATHS;
    NothingToFind(raw);
  }

  lemma NothingToFind(raw: RawUsage)
    ensures LargestDetail(raw, []) == None
  {
  }

  lemma {:induction false} NoUsageNoDetails(raw: RawUsage, paths: seq<(string, string)>)
    requires raw.NoUsage?
    ensures LargestDetail(raw, paths) == None
  {
    if paths != [] {
      NoUsageNoDetails(raw, paths[..|paths| - 1]);
    }
  }

  method LargestOf(raw: RawUsage, paths: seq<(string, string)>) returns (r: Option<nat>)
    ensures r == LargestDetail(raw, paths)
  {
    r := None;
    for i := 0 to |paths|
      invariant r == LargestDetail(raw, paths[..i])
    {
      assert paths[..i + 1][..i] == paths[..i];
      r := Larger(r, DetailValue(raw, paths[i].0, paths[i].1));
    }
    assert paths[..|paths|] == paths;
  }

  predicate PlainCount(raw: RawUsage, key: string, n: nat) {
    raw.Fields? && key in raw.fields && raw.fields[key] == Whole(n)
  }

  predicate NestedCount(raw: RawUsage, container: string, key: string, n: nat) {
    && raw.Fields? && container in raw.fields && raw.fields[container].Details?
    && key in raw.fields[container].counts && raw.fields[container].counts[key] == n
  }

  /** The greater of two nested counts, when there is one. */
  ghost predicate IsGreatest(raw: RawUsage, container: string, other: string, key: string, r: Option<nat>) {
    match r
    case None => forall n :: !NestedCount(raw, container, key, n) && !NestedCount(raw, other, key, n)
    case Some(most) =>
      && (NestedCount(raw, container, key, most) || NestedCount(raw, other, key, most))
      && forall n: nat :: NestedCount(raw, container, key, n) || NestedCount(raw, other, key, n) ==> n <= most
  }

  lemma GreatestDetail(raw: RawUsage, container: string, other: string, key: string)
    ensures IsGreatest(raw, container, other, key, LargestDetail(raw, [(container, key), (other, key)]))
  {
    var paths := [(container, key), (other, key)];
    assert paths[..1] == [(container, key)] && [(container, key)][..0] == [];
    assert LargestDetail(raw, []) == None;
    assert LargestDetail(raw, paths[..1]) == DetailValue(raw, container, key);
  }

  ghost predicate ReportsPlain(raw: RawUsage, key: string, usage: Usage) {
    && (key in usage ==> PlainCount(raw, key, usage[key]))
    && (forall n :: PlainCount(raw, key, n) ==> key in usage && usage[key] == n)
  }

  /** The greater nested count if there is one, and the plain one otherwise. */
  ghost predicate ReportsDetailed(raw: RawUsage, key: string, container: string, other: string, inner: string,
                                  usage: Usage)
  {
    exists r ::
      && IsGreatest(raw, container, other, inner, r)
      && if r.Some? then key in usage && usage[key] == r.value else ReportsPlain(raw, key, usage)
  }

  /** What is reported of a response's usage, field by field; everything else in it is dropped. */
  lemma NormalizedMeans(raw: RawUsage)
    ensures Normalized(raw).Keys <= {"input_tokens", "output_tokens", "prompt_tokens", "completion_tokens",
                                     "total_tokens", "cached_prompt_tokens", "reasoning_tokens"}
    ensures ReportsPlain(raw, "input_tokens", Normalized(raw)) && ReportsPlain(raw, "output_tokens", Normalized(raw))
    ensures ReportsPlain(raw, "prompt_tokens", Normalized(raw))
    ensures ReportsPlain(raw, "completion_tokens", Normalized(raw))
    ensures ReportsPlain(raw, "total_tokens", Normalized(raw))
    ensures ReportsDetailed(raw, "cached_prompt_tokens", "prompt_tokens_details", "input_tokens_details",
                            "cached_tokens", Normalized(raw))
    ensures ReportsDetailed(raw, "reasoning_tokens", "completion_tokens_details", "output_tokens_details",
                            "reasoning_tokens", Normalized(raw))
  {
    hide ReportsPlain, ReportsDetailed, Normalized, LargestDetail;
    assert Normalized(raw).Keys <= set key | key in USAGE_KEYS by { KeysKnown(raw); }
    forall i: nat | i < 5 ensures ReportsPlain(raw, USAGE_KEYS[i], Normalized(raw)) {
      PlainReported(raw, USAGE_KEYS[i]);
    }
    assert USAGE_KEYS[0] == "input_tokens" && USAGE_KEYS[1] == "output_tokens" && USAGE_KEYS[2] == "prompt_tokens"
           && USAGE_KEYS[3] == "completion_tokens" && USAGE_KEYS[4] == "total_tokens";
    assert USAGE_KEYS[5] == "cached_prompt_tokens" && USAGE_KEYS[6] == "reasoning_tokens";
    DetailReported(raw, "cached_prompt_tokens", "prompt_tokens_details", "input_tokens_details", "cached_tokens");
    DetailReported(raw, "reasoning_tokens", "completion_tokens_details", "output_tokens_details", "reasoning_tokens");
  }

  lemma KeysKnown(raw: RawUsage)
    ensures forall key :: key in Normalized(raw) ==> key in USAGE_KEYS
  {
  }

  lemma DetailReported(raw: RawUsage, key: string, container: string, other: string, inner: string)
    requires key in USAGE_KEYS && PathsOf(key) == [(container, inner), (other, inner)]
    ensures ReportsDetailed(raw, key, container, other, inner, Normalized(raw))
  {
    hide USAGE_KEYS, PathsOf, LargestDetail, IsGreatest;
    GreatestDetail(raw, container, other, inner);
    var r := LargestDetail(raw, PathsOf(key));
    assert IsGreatest(raw, container, other, inner, r);
  }

  lemma PlainReported(raw: RawUsage, key: string)
    requires key in USAGE_KEYS && PathsOf(key) == []
    ensures ReportsPlain(raw, key, Normalized(raw))
  {
    NothingToFind(raw);
  }

  function At(usage: Usage, key: string): nat {
    if key in usage then usage[key] else 0
  }

  function Total(requests: seq<Usage>, key: string): nat {
    if requests == [] then 0
    else Total(requests[..|requests| - 1], key) + At(requests[|requests| - 1], key)
  }

  method AccumulateUsage(totals: Usage, raw: RawUsage) returns (r: Usage)
    ensures forall key :: At(r, key) == At(totals, key) + At(Normalized(raw), key)
  {
    var usage := NormalizeUsage(raw);
    r := map key | key in totals.Keys + usage.Keys :: At(totals, key) + At(usage, key);
  }

  // -- answers -------------------------------------------------------------------------------

  datatype Call = Call(id: string, name: string, arguments: string)

  datatype Message = Message(content: string, calls: seq<Call>, annotations: seq<string>)

  /** What one request brings: a message, an answer without a usable one, or no answer. */
  datatype Response = Answer(usage: RawUsage, message: Message) | Unusable(usage: RawUsage) | Unreachable

  datatype ToolResult = ToolResult(ok: bool, text: string)

  datatype Event = Event(tool: string, ok: bool)

  datatype Entry =
    | Given(text: string)
    | Said(text: string)
    | Nudged
    | Called(text: string, calls: seq<Call>)
    | Replied(id: string, name: string, text: string)

  datatype Completion = Completion(
    content: string, annotations: seq<string>, events: seq<Event>, locallyGenerated: bool,
    continueTurn: bool, usage: Usage, requestUsage: seq<Usage>)

  datatype Failure = Silence | Fault

  datatype Outcome = Finished(completion: Completion) | Broken(failure: Failure)

  datatype Limits = Limits(toolRounds: nat, callsPerResponse: nat, callsPerTurn: nat, retries: nat)

  const WORKING := "I am using the available project tools to continue."
  const MARKER := "[[CONTINUE_TURN]]"

  function Upper(s: string): string {
    seq(|s|, i requires 0 <= i < |s| => if 'a' <= s[i] <= 'z' then 'A' + (s[i] - 'a') else s[i])
  }

  function DropDots(s: string): string {
    if s != "" && (s[|s| - 1] == '.' || s[|s| - 1] == '!') then DropDots(s[..|s| - 1]) else s
  }

  predicate IsPass(content: string) {
    var normalized := DropDots(Upper(Strip(content)));
    normalized == "PASS" || normalized == "[[PASS]]"
  }

  predicate EndsWith(s: string, t: string) {
    |t| <= |s| && s[|s| - |t|..] == t
  }

  function ExtractContinue(content: string): (string, bool) {
    var stripped := StripRight(content);
    if EndsWith(stripped, MARKER) then (StripRight(stripped[..|stripped| - |MARKER|]), true) else (content, false)
  }

  predicate Speaks(content: string) {
    content != "" && !IsPass(content)
  }

  predicate Acted(events: seq<Event>) {
    exists i :: 0 <= i < |events| && events[i].tool != "record_motif_observations" && events[i].ok
  }

  lemma ActedMeans(events: seq<Event>)
    ensures Acted(events) <==>
              exists i :: 0 <= i < |events| && events[i].ok && events[i].tool != "record_motif_observations"
  {
  }

  // -- the conversation ----------------------------------------------------------------------

  /** Entry `k` answers call number `k - i - 1` of the tool calls made at `i`. */
  predicate Answers(conversation: seq<Entry>, i: nat, k: nat) {
    && i < k < |conversation| && conversation[i].Called? && k - i <= |conversation[i].calls|
    && conversation[k].Replied?
    && conversation[k].name == conversation[i].calls[k - i - 1].name
    && (conversation[i].calls[k - i - 1].id != "" ==> conversation[k].id == conversation[i].calls[k - i - 1].id)
  }

  /** Every message with tool calls is followed by one reply per call, in order, and there are no other
      replies. */
  ghost predicate Paired(conversation: seq<Entry>) {
    && (forall i, k :: 0 <= i < k <= i + |CallsAt(conversation, i)| ==> Answers(conversation, i, k))
    && (forall k :: 0 <= k < |conversation| && conversation[k].Replied? ==>
          exists i :: 0 <= i < k && Answers(conversation, i, k))
  }

  function CallsAt(conversation: seq<Entry>, i: int): seq<Call> {
    if 0 <= i < |conversation| && conversation[i].Called? then conversation[i].calls else []
  }

  /** `block` is one message with tool calls and the replies to its first calls. */
  predicate IsBlock(block: seq<Entry>, replies: nat) {
    && |block| == replies + 1 && block[0].Called? && replies <= |block[0].calls|
    && forall k :: 0 < k < |block| ==> Answers(block, 0, k)
  }

  lemma PairedWithBlock(conversation: seq<Entry>, block: seq<Entry>)
    requires Paired(conversation) && block != [] && block[0].Called? && IsBlock(block, |block[0].calls|)
    ensures Paired(conversation + block)
  {
    var n, next := |conversation|, conversation + block;
    forall i | n < i < |next| ensures CallsAt(next, i) == [] {
      assert Answers(block, 0, i - n);
    }
    forall i, k | 0 <= i < k <= i + |CallsAt(next, i)| ensures Answers(next, i, k) {
      if i < n {
        assert CallsAt(next, i) == CallsAt(conversation, i);
        assert Answers(conversation, i, k);
      } else {
        assert Answers(block, 0, k - n);
      }
    }
    forall k | 0 <= k < |next| && next[k].Replied? ensures exists i :: 0 <= i < k && Answers(next, i, k) {
      if k < n {
        var i :| 0 <= i < k && Answers(conversation, i, k);
        assert Answers(next, i, k);
      } else {
        assert Answers(block, 0, k - n);
        assert Answers(next, n, k);
      }
    }
  }

  lemma PairedWithText(conversation: seq<Entry>, entry: Entry)
    requires Paired(conversation) && !entry.Called? && !entry.Replied?
    ensures Paired(conversation + [entry])
  {
    var next := conversation + [entry];
    forall i, k | 0 <= i < k <= i + |CallsAt(next, i)| ensures Answers(next, i, k) {
      assert CallsAt(next, i) == CallsAt(conversation, i);
      assert Answers(conversation, i, k);
    }
    forall k | 0 <= k < |next| && next[k].Replied? ensures exists i :: 0 <= i < k && Answers(next, i, k) {
      var i :| 0 <= i < k && Answers(conversation, i, k);
      assert Answers(next, i, k);
    }
  }

  // -- what the answers say ------------------------------------------------------------------

  /** The first character of `s` on, except for letters' case, is the word. */
  predicate SameWord(s: string, word: string) {
    |s| == |word| && forall k :: 0 <= k < |s| ==>
      s[k] == word[k] || ('A' <= word[k] <= 'Z' && s[k] as int == word[k] as int + 32)
  }

  lemma {:induction false} DotsDropped(s: string) returns (j: nat)
    ensures j <= |s| && DropDots(s) == s[..j]
    ensures forall k :: j <= k < |s| ==> s[k] == '.' || s[k] == '!'
    ensures j > 0 ==> s[j - 1] != '.' && s[j - 1] != '!'
  {
    j := |s|;
    if s != "" && (s[|s| - 1] == '.' || s[|s| - 1] == '!') {
      j := DotsDropped(s[..|s| - 1]);
    }
  }

  /** An agent declines exactly by a bare pass, in any case, bracketed or not, followed by dots at most. */
  ghost predicate Declines(content: string, j: nat) {
    var said := Strip(content);
    && j <= |said| && (SameWord(said[..j], "PASS") || SameWord(said[..j], "[[PASS]]"))
    && forall k :: j <= k < |said| ==> said[k] == '.' || said[k] == '!'
  }

  lemma UpperIsWord(s: string, word: string)
    requires word == "PASS" || word == "[[PASS]]"
    ensures Upper(s) == word <==> SameWord(s, word)
  {
  }

  lemma PassMeansDeclines(content: string)
    ensures IsPass(content) <==> exists j: nat :: Declines(content, j)
    ensures Speaks(content) <==> content != "" && forall j: nat :: !Declines(content, j)
  {
    var said := Strip(content);
    hide Strip;
    var upper := Upper(said);
    var cut := DotsDropped(upper);
    UpperIsWord(said[..cut], "PASS");
    UpperIsWord(said[..cut], "[[PASS]]");
    assert Upper(said[..cut]) == upper[..cut];
    if IsPass(content) {
      forall k | cut <= k < |said| ensures said[k] == '.' || said[k] == '!' {
        assert upper[k] == '.' || upper[k] == '!';
      }
      assert Declines(content, cut);
    }
    if j: nat :| Declines(content, j) {
      assert upper[j - 1] == Upper(said[..j])[j - 1];
      UpperIsWord(said[..j], "PASS");
      UpperIsWord(said[..j], "[[PASS]]");
      assert Upper(said[..j]) == upper[..j];
      assert forall k :: j <= k < |upper| ==> upper[k] == said[k];
      assert cut == j;
    }
  }

  /** The marker stands at `j`, and nothing but white space after it. */
  predicate MarkedAt(content: string, j: nat) {
    var n := |"[[CONTINUE_TURN]]"|;
    && j + n <= |content| && content[j..j + n] == "[[CONTINUE_TURN]]" && SpacesAround(content, 0, j + n)
  }

  /** An answer asks for another beat exactly by the marker at its end; its text is what stands before, less
      the white space at the end of that. */
  lemma ContinueExtracted(content: string)
    ensures var (text, more) := ExtractContinue(content);
            && (more <==> exists j: nat :: MarkedAt(content, j))
            && (!more ==> text == content)
            && (more ==> exists j: nat :: MarkedAt(content, j) && text == StripRight(content[..j]))
  {
    var cut := StripRightKeeps(content);
    var stripped := StripRight(content);
    hide StripRight;
    var n := |MARKER|;
    if EndsWith(stripped, MARKER) {
      var j := cut - n;
      assert content[j..j + n] == stripped[j..] == MARKER;
      assert stripped[..j] == content[..j];
      assert MarkedAt(content, j);
    }
    if j: nat :| MarkedAt(content, j) {
      assert content[j + n - 1] == "[[CONTINUE_TURN]]"[n - 1] == ']';
      assert cut == j + n;
      assert stripped[|stripped| - n..] == content[j..j + n];
    }
  }

  // -- what a run of requests has done -------------------------------------------------------

  function CallsOf(response: Response): seq<Call> {
    if response.Answer? then response.message.calls else []
  }

  /** The tool calls of the first `n` responses, in order. */
  function CallsBefore(responses: nat -> Response, n: nat): seq<Call> {
    if n == 0 then [] else CallsBefore(responses, n - 1) + CallsOf(responses(n - 1))
  }

  /** How many of the first `n` responses called no tool. */
  function SilencesBefore(responses: nat -> Response, n: nat): nat {
    if n == 0 then 0 else SilencesBefore(responses, n - 1) + if CallsOf(responses(n - 1)) == [] then 1 else 0
  }

  lemma BeforeNext(responses: nat -> Response, n: nat)
    ensures CallsBefore(responses, n + 1) == CallsBefore(responses, n) + CallsOf(responses(n))
    ensures SilencesBefore(responses, n + 1)
            == SilencesBefore(responses, n) + if CallsOf(responses(n)) == [] then 1 else 0
  {
  }

  /** One event per call: its tool, and whether it succeeded. `start` counts the earlier calls. */
  function EventsOf(calls: seq<Call>, start: nat, results: (nat, Call) -> ToolResult): (r: seq<Event>)
    ensures |r| == |calls|
    ensures forall j: nat :: j < |calls| ==> r[j] == Event(calls[j].name, results(start + j, calls[j]).ok)
  {
    seq(|calls|, j requires 0 <= j < |calls| => Event(calls[j].name, results(start + j, calls[j]).ok))
  }

  lemma EventsJoin(calls: seq<Call>, more: seq<Call>, results: (nat, Call) -> ToolResult)
    ensures EventsOf(calls + more, 0, results) == EventsOf(calls, 0, results) + EventsOf(more, |calls|, results)
  {
  }

  function ReplyTo(call: Call, round: nat, index: nat, results: (nat, Call) -> ToolResult): Entry {
    Replied(if call.id != "" then call.id else "tool-" + Decimal(round) + "-" + Decimal(index), call.name,
            results(index, call).text)
  }

  /** A message with tool calls as it is kept, with the reply to each call. */
  function ToolBlock(message: Message, round: nat, start: nat, results: (nat, Call) -> ToolResult): (r: seq<Entry>)
    ensures |r| == |message.calls| + 1 && r[0].Called? && r[0].calls == message.calls
    ensures r[0].text == if Strip(message.content) == "" then WORKING else Strip(message.content)
    ensures forall j: nat :: j < |message.calls| ==>
              r[1 + j] == ReplyTo(message.calls[j], round, start + j, results)
  {
    var text := Strip(message.content);
    [Called(if text == "" then WORKING else text, message.calls)]
    + seq(|message.calls|, j requires 0 <= j < |message.calls| =>
        ReplyTo(message.calls[j], round, start + j, results))
  }

  lemma OneMore<T>(before: seq<T>, s: seq<T>, k: nat)
    requires k < |s|
    ensures (before + s[..k]) + [s[k]] == before + s[..k + 1]
  {
  }

  lemma ToolBlockAnswers(message: Message, round: nat, start: nat, results: (nat, Call) -> ToolResult)
    ensures IsBlock(ToolBlock(message, round, start, results), |message.calls|)
  {
    hide ToolBlock;
    var block := ToolBlock(message, round, start, results);
    forall k | 0 < k < |block| ensures Answers(block, 0, k) {
      assert block[1 + (k - 1)] == ReplyTo(message.calls[k - 1], round, start + (k - 1), results);
    }
  }

  /** The usage of the first responses, each normalized. */
  ghost predicate UsageOf(responses: nat -> Response, usages: seq<Usage>) {
    forall k :: 0 <= k < |usages| ==> !responses(k).Unreachable? && usages[k] == Normalized(responses(k).usage)
  }

  lemma UsageMore(responses: nat -> Response, usages: seq<Usage>)
    requires UsageOf(responses, usages) && !responses(|usages|).Unreachable?
    ensures UsageOf(responses, usages + [Normalized(responses(|usages|).usage)])
  {
  }

  // -- the loop ------------------------------------------------------------------------------

  class AgentConversation {
    const limits: Limits
    const required: bool                  // the agent is a selected participant and must speak
    var conversation: seq<Entry>
    var events: seq<Event>
    var requests: nat
    var retries: nat
    var requestUsage: seq<Usage>
    var totals: Usage

    ghost predicate Valid()
      reads this
    {
      && Paired(conversation)
      && |events| <= limits.callsPerTurn
      && |requestUsage| <= requests <= limits.toolRounds + 1
      && retries <= limits.retries
      && forall key :: At(totals, key) == Total(requestUsage, key)
    }

    constructor (limits: Limits, required: bool, messages: seq<string>)
      ensures Valid() && this.limits == limits && this.required == required
      ensures requests == 0 && requestUsage == [] && events == [] && retries == 0
    {
      this.limits, this.required := limits, required;
      conversation := seq(|messages|, i requires 0 <= i < |messages| => Given(messages[i]));
      events, requests, retries, requestUsage, totals := [], 0, 0, [], map[];
    }

    /** Run one call: its reply joins the conversation, and it is counted. */
    method AnswerCall(call: Call, round: nat, results: (nat, Call) -> ToolResult)
      modifies this`conversation, this`events
      ensures events == old(events) + [Event(call.name, results(|old(events)|, call).ok)]
      ensures conversation == old(conversation) + [ReplyTo(call, round, |old(events)|, results)]
    {
      var id := if call.id != "" then call.id else "tool-" + Decimal(round) + "-" + Decimal(|events|);
      var result := results(|events|, call);
      events := events + [Event(call.name, result.ok)];
      conversation := conversation + [Replied(id, call.name, result.text)];
    }

    /** Run the calls of one message, each answered in turn. */
    method ExecuteToolCalls(message: Message, round: nat, results: (nat, Call) -> ToolResult)
      requires Valid() && |events| + |message.calls| <= limits.callsPerTurn
      modifies this`conversation, this`events
      ensures Valid()
      ensures events == old(events) + EventsOf(message.calls, |old(events)|, results)
      ensures conversation == old(conversation) + ToolBlock(message, round, |old(events)|, results)
    {
      hide Paired, Total, At, Strip, Decimal, WORKING, ToolBlock, EventsOf, ReplyTo;
      ghost var before, start := conversation, |events|;
      ghost var block := ToolBlock(message, round, start, results);
      ghost var all := EventsOf(message.calls, start, results);
      var text := Strip(message.content);
      if text == "" {
        text := WORKING;
      }
      conversation := conversation + [Called(text, message.calls)];
      assert block[0] == Called(text, message.calls);
      OneMore(before, block, 0);
      assert before + block[..0] == before && old(events) + all[..0] == old(events);
      for j := 0 to |message.calls|
        invariant conversation == before + block[..j + 1]
        invariant events == old(events) + all[..j]
      {
        OneMore(before, block, j + 1);
        OneMore(old(events), all, j);
        AnswerCall(message.calls[j], round, results);
      }
      assert block[..|message.calls| + 1] == block && all[..|message.calls|] == all;
      ToolBlockAnswers(message, round, start, results);
      PairedWithBlock(before, block);
    }

    /** What a message says, and whether it asks for another beat. */
    function Answer(message: Message): (string, bool) {
      ExtractContinue(Strip(message.content))
    }

    /** An answer without tool calls ends the conversation, or is asked for again: once for every silence of an
        agent that must speak, while a retry and a round are left. */
    method FinishResponse(message: Message, canRetry: bool) returns (r: Option<Outcome>)
      requires Valid()
      modifies this`conversation, this`retries
      ensures Valid()
      ensures r.None? <==> required && !Speaks(Answer(message).0) && old(retries) < limits.retries && canRetry
      ensures r.None? ==>
                && retries == old(retries) + 1
                && conversation
                   == old(conversation) + (if Answer(message).0 == "" then [] else [Said(Answer(message).0)]) + [Nudged]
      ensures r.Some? ==> conversation == old(conversation) && retries == old(retries)
      ensures r.Some? && r.value.Finished? ==> Accepted(r.value.completion)
      ensures r.Some? && r.value.Finished? && !r.value.completion.locallyGenerated ==>
                && Answer(message) == (r.value.completion.content, r.value.completion.continueTurn)
                && r.value.completion.annotations == message.annotations
      ensures r.Some? && r.value.Finished? && r.value.completion.locallyGenerated ==>
                !Speaks(Answer(message).0) && r.value.completion.annotations == []
      ensures r.Some? && r.value.Broken? ==>
                required && !Acted(events) && r.value.failure == Silence && !Speaks(Answer(message).0)
    {
      var (content, continueTurn) := Answer(message);
      if required && !Speaks(content) && retries < limits.retries && canRetry {
        retries := retries + 1;
        if content != "" {
          PairedWithText(conversation, Said(content));
          conversation := conversation + [Said(content)];
        }
        PairedWithText(conversation, Nudged);
        conversation := conversation + [Nudged];
        return None;
      }
      if required && !Speaks(content) {
        if Acted(events) {
          return Some(Finished(Completion("I completed my turn through project action.", [], events, true, false,
                                          totals, requestUsage)));
        }
        return Some(Broken(Silence));
      }
      return Some(Finished(Completion(content, message.annotations, events, false, continueTurn, totals,
                                      requestUsage)));
    }

    /** What a finished conversation may answer: words of the agent's own, or, when it found none, an
        account of what it did. */
    predicate Accepted(c: Completion)
      reads this
    {
      && c.events == events && c.usage == totals && c.requestUsage == requestUsage
      && (required && !c.locallyGenerated ==> Speaks(c.content))
      && (c.locallyGenerated ==> required && Acted(events) && !c.continueTurn)
    }

    predicate WithinLimits(responses: nat -> Response, k: nat) {
      && |CallsOf(responses(k))| <= limits.callsPerResponse
      && |CallsBefore(responses, k + 1)| <= limits.callsPerTurn
    }

    /** After response `k` another request is made: its tools were run, or its silence is answered by a retry. */
    predicate GoesOn(responses: nat -> Response, k: nat) {
      && responses(k).Answer? && WithinLimits(responses, k) && k < limits.toolRounds
      && (CallsOf(responses(k)) == [] ==>
            required && !Speaks(Answer(responses(k).message).0) && SilencesBefore(responses, k) < limits.retries)
    }

    /** What the last response decides. */
    ghost predicate Verdict(responses: nat -> Response, last: nat, r: Outcome)
      reads this
    {
      var response := responses(last);
      if !response.Answer? || !WithinLimits(responses, last) || CallsOf(response) != [] then r == Broken(Fault)
      else
        var (content, more) := ExtractContinue(Strip(response.message.content));
        if !required || Speaks(content) then
          r == Finished(Completion(content, response.message.annotations, events, false, more, totals, requestUsage))
        else if exists i :: 0 <= i < |events| && events[i].ok && events[i].tool != "record_motif_observations" then
          && r.Finished? && r.completion.locallyGenerated && !r.completion.continueTurn
          && r.completion.annotations == [] && r.completion.events == events
        else r == Broken(Silence)
    }

    /** Every earlier response led on, and its calls and silences are what has been counted. */
    ghost predicate Along(responses: nat -> Response, results: (nat, Call) -> ToolResult, n: nat)
      reads this`events, this`retries
    {
      && (forall k :: 0 <= k < n ==> GoesOn(responses, k))
      && events == EventsOf(CallsBefore(responses, n), 0, results)
      && retries == SilencesBefore(responses, n)
    }

    lemma Limited(responses: nat -> Response, results: (nat, Call) -> ToolResult, n: nat)
      requires Along(responses, results, n)
      ensures WithinLimits(responses, n) <==>
                && |CallsOf(responses(n))| <= limits.callsPerResponse
                && |events| + |CallsOf(responses(n))| <= limits.callsPerTurn
      ensures GoesOn(responses, n) <==>
                && responses(n).Answer? && WithinLimits(responses, n) && n < limits.toolRounds
                && (CallsOf(responses(n)) == [] ==>
                      required && !Speaks(Answer(responses(n).message).0) && retries < limits.retries)
    {
      BeforeNext(responses, n);
    }

    lemma NothingYet(responses: nat -> Response, results: (nat, Call) -> ToolResult)
      requires events == [] && retries == 0
      ensures Along(responses, results, 0) && UsageOf(responses, [])
    {
    }

    /** A failure of the request, or of what it answered. */
    lemma Faulty(responses: nat -> Response, results: (nat, Call) -> ToolResult, n: nat)
      requires Along(responses, results, n)
      requires !responses(n).Answer? || !WithinLimits(responses, n)
               || (CallsOf(responses(n)) != [] && n >= limits.toolRounds)
      ensures !GoesOn(responses, n) && Verdict(responses, n, Broken(Fault))
    {
    }

    /** An answer in words, or a silence, that is not retried. */
    lemma Spoken(responses: nat -> Response, results: (nat, Call) -> ToolResult, n: nat, r: Outcome)
      requires Along(responses, results, n)
      requires responses(n).Answer? && WithinLimits(responses, n) && CallsOf(responses(n)) == []
      requires !(required && !Speaks(Answer(responses(n).message).0)
                 && retries < limits.retries && n < limits.toolRounds)
      requires r.Finished? ==> Accepted(r.completion)
      requires r.Finished? && !r.completion.locallyGenerated ==>
                 && Answer(responses(n).message) == (r.completion.content, r.completion.continueTurn)
                 && r.completion.annotations == responses(n).message.annotations
      requires r.Finished? && r.completion.locallyGenerated ==>
                 !Speaks(Answer(responses(n).message).0) && r.completion.annotations == []
      requires r.Broken? ==>
                 required && !Acted(events) && r.failure == Silence && !Speaks(Answer(responses(n).message).0)
      ensures !GoesOn(responses, n) && Verdict(responses, n, r)
    {
      hide Speaks, CallsBefore, EventsOf, Acted;
      ActedMeans(events);
    }

    /** What follows a message: its tools are run, its silence is answered by a retry, or it decides. */
    method TakeMessage(message: Message, round: nat, responses: nat -> Response, results: (nat, Call) -> ToolResult)
      returns (r: Option<Outcome>)
      requires Valid() && Along(responses, results, round) && round <= limits.toolRounds
      requires responses(round).Answer? && responses(round).message == message
      modifies this`conversation, this`events, this`retries
      ensures Valid()
      ensures r.None? ==> Along(responses, results, round + 1) && round < limits.toolRounds
      ensures r.Some? ==>
                && Along(responses, results, round)
                && !GoesOn(responses, round) && Verdict(responses, round, r.value)
                && (r.value.Finished? ==> Accepted(r.value.completion))
    {
      hide Speaks, ExtractContinue, Strip, CallsBefore, SilencesBefore, Paired, Total, At, ToolBlock, WORKING, EventsOf,
           Verdict, GoesOn, WithinLimits, Acted;
      Limited(responses, results, round);
      if |message.calls| > limits.callsPerResponse || |events| + |message.calls| > limits.callsPerTurn {
        Faulty(responses, results, round);
        return Some(Broken(Fault));
      }
      BeforeNext(responses, round);
      if message.calls == [] {
        var finished := FinishResponse(message, round < limits.toolRounds);
        if finished.Some? {
          Spoken(responses, results, round, finished.value);
        }
        return finished;
      }
      if round >= limits.toolRounds {
        Faulty(responses, results, round);
        return Some(Broken(Fault));
      }
      EventsJoin(CallsBefore(responses, round), message.calls, results);
      ExecuteToolCalls(message, round, results);
      return None;
    }

    /** Ask, run tools, ask again: at most one request more than there are tool rounds, and the last one
        always decides. */
    method Run(responses: nat -> Response, results: (nat, Call) -> ToolResult) returns (r: Outcome)
      requires Valid() && requests == 0 && requestUsage == [] && events == [] && retries == 0
      modifies this
      ensures Valid() && requests >= 1
      ensures UsageOf(responses, requestUsage)
      ensures |requestUsage| == if responses(requests - 1).Unreachable? then requests - 1 else requests
      ensures Along(responses, results, requests - 1)
      ensures !GoesOn(responses, requests - 1) && Verdict(responses, requests - 1, r)
      ensures r.Finished? ==>
                && Accepted(r.completion) && |r.completion.requestUsage| == requests
                && (forall key :: At(r.completion.usage, key) == Total(r.completion.requestUsage, key))
    {
      hide Normalized, Paired, UsageOf, Along, Verdict, GoesOn;
      NothingYet(responses, results);
      for round := 0 to limits.toolRounds + 1
        invariant Valid() && requests == |requestUsage| == round <= limits.toolRounds
        invariant UsageOf(responses, requestUsage)
        invariant Along(responses, results, round)
      {
        requests := requests + 1;
        var response := responses(round);
        if response.Unreachable? {
          Faulty(responses, results, round);
          return Broken(Fault);
        }
        UsageMore(responses, requestUsage);
        AddUsage(response.usage);
        if response.Unusable? {
          Faulty(responses, results, round);
          return Broken(Fault);
        }
        var decided := TakeMessage(response.message, round, responses, results);
        if decided.Some? {
          return decided.value;
        }
      }
      assert false;
      return Broken(Fault);
    }

    method AddUsage(raw: RawUsage)
      requires Valid() && |requestUsage| < requests
      modifies this`requestUsage, this`totals
      ensures Valid()
      ensures requestUsage == old(requestUsage) + [Normalized(raw)]
    {
      var usage := NormalizeUsage(raw);
      NormalizedTwice(raw);
      totals := AccumulateUsage(totals, AsRaw(usage));
      requestUsage := requestUsage + [usage];
      assert requestUsage[..|requestUsage| - 1] == old(requestUsage);
    }
  }
}
