/** The strings that identify operations, and why they identify them. */
module OperationIds {
  import opened Records

  function Decimal(n: nat): string {
    if n < 10 then [Digit(n)] else Decimal(n / 10) + [Digit(n % 10)]
  }

  function Digit(n: nat): char
    requires n < 10
  {
    '0' + n as char
  }

  /** Turn identifiers are letters, digits and hyphens; what matters is that they hold no colon. */
  predicate NoColon(s: string) {
    ':' !in s
  }

  function AgentName(agent: AgentId): string {
    match agent
    case AgentA => "agent_a"
    case AgentB => "agent_b"
    case AgentC => "agent_c"
  }

  function KindName(kind: Kind): string {
    match kind
    case ProviderCompletion => "provider_completion"
    case MessageCommitted => "message_committed"
    case MemoryCommitted => "memory_committed"
    case BeatFinished => "beat_finished"
    case AgentFinished => "agent_finished"
    case Tool(round, call, hash) => "tool" + ":" + (Decimal(round + 1) + ":" + (Decimal(call + 1) + ":" + hash))
  }

  function OperationId(key: OpKey): string {
    key.turn + ":" + (AgentName(key.agent) + ":" + (Decimal(key.beat) + ":" + KindName(key.kind)))
  }

  // -- reading them back ---------------------------------------------------------------------

  lemma {:induction false} DecimalIsDigits(n: nat)
    ensures NoColon(Decimal(n)) && Decimal(n) != ""
  {
    if n >= 10 {
      DecimalIsDigits(n / 10);
    }
  }

  lemma {:induction false} DecimalInjective(m: nat, n: nat)
    requires Decimal(m) == Decimal(n)
    ensures m == n
  {
    DecimalIsDigits(m / 10);
    DecimalIsDigits(n / 10);
    var x, y := Decimal(m), Decimal(n);
    assert x[|x| - 1] == y[|y| - 1] && x[..|x| - 1] == y[..|y| - 1];
    if m >= 10 && n >= 10 {
      assert x[..|x| - 1] == Decimal(m / 10) && y[..|y| - 1] == Decimal(n / 10);
      DecimalInjective(m / 10, n / 10);
      assert Digit(m % 10) == Digit(n % 10);
    }
  }

  /** The first colon separates. */
  lemma {:induction false} SplitAtColon(a: string, r: string, b: string, s: string)
    requires NoColon(a) && NoColon(b) && a + ":" + r == b + ":" + s
    ensures a == b && r == s
  {
    var x, y := a + ":" + r, b + ":" + s;
    assert x[|a|] == ':' && y[|b|] == ':';
    assert forall i :: 0 <= i < |a| ==> x[i] != ':';
    assert forall i :: 0 <= i < |b| ==> y[i] != ':';
    assert |a| == |b|;
    assert x[..|a|] == a && y[..|b|] == b;
    assert x[|a| + 1..] == r && y[|b| + 1..] == s;
  }

  lemma KindNamesDiffer(k: Kind, l: Kind)
    requires KindName(k) == KindName(l)
    ensures k == l
  {
    var x, y := KindName(k), KindName(l);
    if k.Tool? && l.Tool? {
      DecimalIsDigits(k.round + 1);
      DecimalIsDigits(l.round + 1);
      DecimalIsDigits(k.call + 1);
      DecimalIsDigits(l.call + 1);
      var u, v := Decimal(k.call + 1) + ":" + k.argumentHash, Decimal(l.call + 1) + ":" + l.argumentHash;
      SplitAtColon("tool", Decimal(k.round + 1) + ":" + u, "tool", Decimal(l.round + 1) + ":" + v);
      SplitAtColon(Decimal(k.round + 1), u, Decimal(l.round + 1), v);
      SplitAtColon(Decimal(k.call + 1), k.argumentHash, Decimal(l.call + 1), l.argumentHash);
      DecimalInjective(k.round + 1, l.round + 1);
      DecimalInjective(k.call + 1, l.call + 1);
    } else {
      assert x[0] == y[0] && x[1] == y[1] && x[2] == y[2];
    }
  }

  /** Different operations of the same or different turns never share an identifier. */
  lemma OperationIdsDiffer(k: OpKey, l: OpKey)
    requires NoColon(k.turn) && NoColon(l.turn) && OperationId(k) == OperationId(l)
    ensures k == l
  {
    DecimalIsDigits(k.beat);
    DecimalIsDigits(l.beat);
    var u, v := Decimal(k.beat) + ":" + KindName(k.kind), Decimal(l.beat) + ":" + KindName(l.kind);
    SplitAtColon(k.turn, AgentName(k.agent) + ":" + u, l.turn, AgentName(l.agent) + ":" + v);
    SplitAtColon(AgentName(k.agent), u, AgentName(l.agent), v);
    SplitAtColon(Decimal(k.beat), KindName(k.kind), Decimal(l.beat), KindName(l.kind));
    DecimalInjective(k.beat, l.beat);
    KindNamesDiffer(k.kind, l.kind);
    assert AgentName(k.agent)[6] == AgentName(l.agent)[6];
  }
}
