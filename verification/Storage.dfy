/** The storage object: each method is one transaction that commits its step or leaves the tables. */
module Storage {
  import opened Records
  import opened Steps
  import opened Text
  import opened Invariant
  import opened Journal

  /** Why an attempt stops before its work is done. */
  datatype Stop = Killed | Cancelled | Raised(detail: string) | OverBudget | Refused(error: StorageError)

  datatype Outcome<+T> = Done(value: T) | Stopped(reason: Stop) {
    predicate IsFailure() { Stopped? }

    function PropagateFailure<U>(): Outcome<U>
      requires Stopped?
    {
      Stopped(reason)
    }

    function Extract(): T
      requires Done?
    {
      value
    }
  }

  /** One attempt at a turn: it makes `callsLeft` more storage calls and then ends, killed or by an
      exception; the provider's answers are whatever they are. */
  class Attempt {
    var callsLeft: nat
    const ending: Stop
    var answers: seq<Answer>

    constructor (callsLeft: nat, ending: Stop, answers: seq<Answer>)
      requires !ending.Refused?
      ensures this.callsLeft == callsLeft && this.ending == ending && this.answers == answers
    {
      this.callsLeft, this.ending, this.answers := callsLeft, ending, answers;
    }

    /** The attempt reaches its next storage call, or ends first. */
    method Step() returns (r: Outcome<()>)
      modifies this`callsLeft
      ensures r == if old(callsLeft) == 0 then Stopped(ending) else Done(())
      ensures callsLeft == if old(callsLeft) == 0 then 0 else old(callsLeft) - 1
    {
      if callsLeft == 0 {
        return Stopped(ending);
      }
      callsLeft := callsLeft - 1;
      return Done(());
    }

    /** The provider's next answer; a provider that never answers lets the attempt end. */
    method NextAnswer() returns (r: Outcome<Answer>)
      modifies this`answers
      ensures r == if old(answers) == [] then Stopped(ending) else Done(old(answers)[0])
      ensures answers == if old(answers) == [] then [] else old(answers)[1..]
    {
      if answers == [] {
        return Stopped(ending);
      }
      r := Done(answers[0]);
      answers := answers[1..];
    }
  }

  /** A provider call sends some model requests and ends in a completion or a provider error. */
  datatype Answer =
    | Answered(requests: nat, completion: AgentCompletion)
    | Failing(requests: nat, kind: ProviderErrorKind, detail: string)

  predicate HasEnded(db: Tables, t: TurnId) {
    t in db.turns && Ended(db.turns[t])
  }

  class Storage {
    var tables: Tables
    ghost var journal: seq<Event>
    ghost var lost: map<TurnId, nat>      // model requests of killed attempts, which no trace holds

    constructor (projects: set<ProjectId>)
      ensures tables == Tables(projects, map[], map[], [], map[], [], map[], [], map[])
      ensures journal == [] && lost == map[]
    {
      tables := Tables(projects, map[], map[], [], map[], [], map[], [], map[]);
      journal, lost := [], map[];
    }

    method BeginTurnOperation(key: OpKey, project: ProjectId, work: Work) returns (r: Result<(OpRow, bool)>)
      modifies this`tables
      ensures match BeginOperation(old(tables), key, project, work)
              case Ok(begun) => tables == begun.db && r == Ok((begun.row, begun.created))
              case Err(error) => tables == old(tables) && r == Err(error)
    {
      if key.turn !in tables.turns || tables.turns[key.turn].project != project {
        return Err(NotFound);
      }
      if key in tables.operations {
        var row := tables.operations[key];
        if row.project != project || row.work != work {
          return Err(Conflict);
        }
        return Ok((row, false));
      }
      var row := OpRow(project, work, Started);
      tables := tables.(operations := tables.operations[key := row]);
      return Ok((row, true));
    }

    method CompleteTurnOperation(key: OpKey, result: OpResult) returns (r: Result<()>)
      modifies this`tables
      ensures match CompleteOperation(old(tables), key, result)
              case Ok(db) => tables == db && r == Ok(())
              case Err(error) => tables == old(tables) && r == Err(error)
    {
      if key !in tables.operations {
        return Err(NotFound);
      }
      var row := tables.operations[key];
      if row.state.Completed? {
        if row.state.result != result {
          return Err(Conflict);
        }
        return Ok(());
      }
      tables := tables.(operations := tables.operations[key := row.(state := Completed(result))]);
      return Ok(());
    }

    method InsertMessage(row: MessageRow) returns (r: Result<nat>)
      modifies this`tables
      ensures match AddMessage(old(tables), row)
              case Ok(added) => tables == added.db && r == Ok(added.id)
              case Err(error) => tables == old(tables) && r == Err(error)
    {
      if row.project !in tables.projects {
        return Err(NotFound);
      }
      if row.operation.Some? && row.operation.value in tables.messageOf {
        var id := tables.messageOf[row.operation.value];
        if id >= |tables.messages| {
          return Err(NotFound);
        }
        var existing := tables.messages[id];
        if existing.project != row.project || existing.role != row.role {
          return Err(Conflict);
        }
        return Ok(id);
      }
      var id := |tables.messages|;
      if row.operation.Some? {
        tables := tables.(messageOf := tables.messageOf[row.operation.value := id]);
      }
      tables := tables.(messages := tables.messages + [row]);
      return Ok(id);
    }

    method InsertMemoryEvent(row: MemoryRow) returns (r: Result<nat>)
      modifies this`tables
      ensures match AddMemoryEvent(old(tables), row)
              case Ok(added) => tables == added.db && r == Ok(added.id)
              case Err(error) => tables == old(tables) && r == Err(error)
    {
      if row.project !in tables.projects {
        return Err(NotFound);
      }
      if row.operation.Some? && row.operation.value in tables.memoryOf {
        var id := tables.memoryOf[row.operation.value];
        if id >= |tables.memories| {
          return Err(NotFound);
        }
        var existing := tables.memories[id];
        if existing.project != row.project || existing.agent != row.agent || existing.userMessage != row.userMessage {
          return Err(Conflict);
        }
        return Ok(id);
      }
      var id := |tables.memories|;
      var stored := row.(sequence := MaxSequence(tables.memories, row.project, row.agent) + 1,
                         triggerText := Truncated(row.triggerText, MEMORY_TRIGGER_MAX),
                         returnText := Truncated(row.returnText, MEMORY_RETURN_MAX));
      if row.operation.Some? {
        tables := tables.(memoryOf := tables.memoryOf[row.operation.value := id]);
      }
      tables := tables.(memories := tables.memories + [stored]);
      return Ok(id);
    }

    method InsertGlobalEvent(row: GlobalRow) returns (r: Result<nat>)
      modifies this`tables
      ensures match AddGlobalEvent(old(tables), row)
              case Ok(added) => tables == added.db && r == Ok(added.id)
              case Err(error) => tables == old(tables) && r == Err(error)
    {
      if row.source >= |tables.memories| || tables.memories[row.source].agent != row.agent
         || tables.memories[row.source].project != row.project {
        return Err(Invalid);
      }
      if row.source in tables.globalOf {
        return Ok(tables.globalOf[row.source]);
      }
      var id := |tables.globals|;
      var stored := row.(sequence := MaxGlobalSequence(tables.globals, row.agent) + 1,
                         triggerText := Compact(row.triggerText, CARD_TRIGGER_MAX),
                         returnText := Compact(row.returnText, CARD_RETURN_MAX));
      tables := tables.(globals := tables.globals + [stored], globalOf := tables.globalOf[row.source := id]);
      return Ok(id);
    }

    method BeginChatTurn(request: Request, runtime: Runtime) returns (r: Result<(TurnRow, bool)>)
      modifies this`tables
      ensures match BeginTurn(old(tables), request.turn, request, runtime)
              case Ok(begun) => tables == begun.db && r == Ok((begun.row, begun.created))
              case Err(error) => tables == old(tables) && r == Err(error)
    {
      if request.project !in tables.projects {
        return Err(NotFound);
      }
      if request.turn in tables.turns {
        var row := tables.turns[request.turn];
        if row.project != request.project || row.fingerprint != RequestFingerprint(request) {
          return Err(Conflict);
        }
        return Ok((row, false));
      }
      var row := TurnRow(request.project, RequestFingerprint(request), Running, None, [], None,
                         Some(request), Some(runtime), false);
      tables := tables.(turns := tables.turns[request.turn := row]);
      return Ok((row, true));
    }

    method FinishChatTurn(turn: TurnId, status: Status, result: Option<RoomResult>, trace: seq<TraceEvent>,
                          failure: Option<string>)
      returns (r: Result<()>)
      modifies this`tables
      ensures match FinishTurn(old(tables), turn, status, result, trace, failure)
              case Ok(db) => tables == db && r == Ok(())
              case Err(error) => tables == old(tables) && r == Err(error)
    {
      if turn !in tables.turns {
        return Err(NotFound);
      }
      var row := tables.turns[turn].(status := status, result := result, trace := trace, failure := failure);
      tables := tables.(turns := tables.turns[turn := row]);
      return Ok(());
    }

    method ResumeChatTurn(turn: TurnId) returns (r: Result<()>)
      modifies this`tables
      ensures match ResumeTurn(old(tables), turn)
              case Ok(db) => tables == db && r == Ok(())
              case Err(error) => tables == old(tables) && r == Err(error)
    {
      if turn !in tables.turns {
        return Err(NotFound);
      }
      var row := tables.turns[turn];
      if (row.status != Failed && row.status != Interrupted) || row.accepted {
        return Err(Conflict);
      }
      if row.request.None? || row.runtime.None? {
        return Err(Conflict);
      }
      tables := tables.(turns := tables.turns[turn := row.(status := Running, failure := None)]);
      return Ok(());
    }

    method ResolveChatTurn(turn: TurnId) returns (r: Result<()>)
      modifies this`tables
      ensures match ResolveTurn(old(tables), turn)
              case Ok(db) => tables == db && r == Ok(())
              case Err(error) => tables == old(tables) && r == Err(error)
    {
      if turn !in tables.turns || tables.turns[turn].accepted
         || (tables.turns[turn].status != Failed && tables.turns[turn].status != Interrupted) {
        return Err(Conflict);
      }
      tables := tables.(turns := tables.turns[turn := tables.turns[turn].(accepted := true)]);
      return Ok(());
    }

    /** The startup sweep: whatever was running was interrupted, and keeps its trace; nothing else moves. */
    method InterruptRunning()
      modifies this`tables
      ensures tables == old(tables).(turns := tables.turns) && tables.turns.Keys == old(tables).turns.Keys
      ensures forall t :: t in tables.turns ==>
                && tables.turns[t].status != Running
                && tables.turns[t] == old(tables).turns[t].(status := tables.turns[t].status)
                && (old(tables).turns[t].status != Running ==> tables.turns[t].status == old(tables).turns[t].status)
                && (old(tables).turns[t].status == Running ==> tables.turns[t].status == Interrupted)
    {
      tables := SweepRunning(tables);
    }

    /** Retention forgets how stale turns ran, but only those that can never run again, and not what they said. */
    method PruneChatTurnTraces(stale: set<TurnId>)
      modifies this`tables
      ensures tables == old(tables).(turns := tables.turns, operations := tables.operations)
      ensures forall k :: k in tables.operations <==>
                k in old(tables).operations && (k.turn in stale ==> !HasEnded(old(tables), k.turn))
      ensures forall k :: k in tables.operations ==> tables.operations[k] == old(tables).operations[k]
      ensures tables.turns.Keys == old(tables).turns.Keys
      ensures forall t :: t in tables.turns ==>
                && tables.turns[t] == old(tables).turns[t].(trace := tables.turns[t].trace)
                && if t in stale && HasEnded(old(tables), t) then tables.turns[t].trace == []
                   else tables.turns[t].trace == old(tables).turns[t].trace
    {
      tables := PruneTraces(tables, stale);
    }
  }
}
