/** Nested persona mappings, and reading and setting dotted paths in them. */
module PersonaValues {
  import opened Records

  datatype Value =
    | Null
    | Bool(truth: bool)
    | Int(number: int)
    | Real(amount: real)
    | Str(text: string)
    | List(items: seq<Value>)
    | Dict(fields: map<string, Value>)

  type Mapping = map<string, Value>

  /** A dotted path, split; splitting never yields an empty sequence. */
  type Path = p: seq<string> | p != [] witness [""]

  datatype Operation = Replace | Append

  datatype Change = Change(path: Path, operation: Operation, value: Value)

  function GetPath(data: Mapping, path: Path): Option<Value>
    decreases |path|
  {
    if path[0] !in data then None
    else if |path| == 1 then Some(data[path[0]])
    else
      match data[path[0]]
      case Dict(fields) => GetPath(fields, path[1..])
      case _ => None
  }

  /** The mapping below a key; anything that is not a mapping counts as an empty one. */
  function Below(data: Mapping, key: string): Mapping {
    if key in data && data[key].Dict? then data[key].fields else map[]
  }

  /** Parents that are missing, or not mappings, become mappings. */
  function SetPath(data: Mapping, path: Path, value: Value, operation: Operation): Result<Mapping>
    decreases |path|
  {
    var key := path[0];
    if |path| > 1 then
      var below := SetPath(Below(data, key), path[1..], value, operation);
      if below.Err? then below else Ok(data[key := Dict(below.value)])
    else if operation == Replace then Ok(data[key := value])
    else if key !in data then Ok(data[key := List([value])])
    else
      match data[key]
      case List(items) => Ok(data[key := List(items + [value])])
      case _ => Err(Invalid)
  }

  /** Neither path lies on the way to the other. */
  predicate Apart(p: Path, q: Path) {
    !(p <= q) && !(q <= p)
  }

  lemma ApartBelow(path: Path, other: Path)
    requires Apart(path, other) && path[0] == other[0]
    ensures |path| > 1 && |other| > 1 && Apart(path[1..], other[1..])
  {
  }

  /** Setting a path leaves every path apart from it as it was, found or not. */
  lemma {:induction false} SetLeavesOthers(data: Mapping, path: Path, value: Value, operation: Operation, other: Path)
    requires SetPath(data, path, value, operation).Ok? && Apart(path, other)
    ensures GetPath(SetPath(data, path, value, operation).value, other) == GetPath(data, other)
    decreases |path|
  {
    if path[0] == other[0] {
      ApartBelow(path, other);
      SetLeavesOthers(Below(data, path[0]), path[1..], value, operation, other[1..]);
    }
  }

  /** What is set is what is found: a replaced value, or the list with one more item. */
  lemma {:induction false} SetIsFound(data: Mapping, path: Path, value: Value, operation: Operation)
    requires SetPath(data, path, value, operation).Ok?
    ensures var found := GetPath(SetPath(data, path, value, operation).value, path);
            match operation
            case Replace => found == Some(value)
            case Append =>
              match GetPath(data, path)
              case None => found == Some(List([value]))
              case Some(before) => before.List? && found == Some(List(before.items + [value]))
    decreases |path|
  {
    if |path| > 1 {
      SetIsFound(Below(data, path[0]), path[1..], value, operation);
      if path[0] !in data || !data[path[0]].Dict? {
        assert Below(data, path[0]) == map[];
      }
    }
  }

  /** Setting fails only when something other than a list is appended to. */
  lemma {:induction false} SetFailsOnNonLists(data: Mapping, path: Path, value: Value, operation: Operation)
    ensures SetPath(data, path, value, operation).Err?
            <==> operation == Append && GetPath(data, path).Some? && !GetPath(data, path).value.List?
    decreases |path|
  {
    if |path| > 1 {
      SetFailsOnNonLists(Below(data, path[0]), path[1..], value, operation);
    }
  }

  function ApplyAll(data: Mapping, changes: seq<Change>): Result<Mapping> {
    if changes == [] then Ok(data)
    else
      var earlier := ApplyAll(data, changes[..|changes| - 1]);
      if earlier.Err? then earlier
      else
        var c := changes[|changes| - 1];
        SetPath(earlier.value, c.path, c.value, c.operation)
  }

  lemma {:induction false} ApplyLeavesOthers(data: Mapping, changes: seq<Change>, other: Path)
    requires ApplyAll(data, changes).Ok? && forall i :: 0 <= i < |changes| ==> Apart(changes[i].path, other)
    ensures GetPath(ApplyAll(data, changes).value, other) == GetPath(data, other)
  {
    if changes != [] {
      var n := |changes| - 1;
      ApplyLeavesOthers(data, changes[..n], other);
      var c := changes[n];
      SetLeavesOthers(ApplyAll(data, changes[..n]).value, c.path, c.value, c.operation, other);
    }
  }

  lemma {:induction false} ApplyFailsEarly(data: Mapping, changes: seq<Change>, k: nat)
    requires k <= |changes| && ApplyAll(data, changes[..k]).Err?
    ensures ApplyAll(data, changes).Err?
  {
    if k == |changes| {
      assert changes[..k] == changes;
    } else {
      assert changes[..|changes| - 1][..k] == changes[..k];
      ApplyFailsEarly(data, changes[..|changes| - 1], k);
    }
  }
}
