/** The JSON-shaped values that flow through message contents, stored agent
    context and tool inputs. Containers (dicts and lists) are opaque apart from
    their Python `str()` rendering and their `len()`, which is all the system
    inspects of them. Floats are not modelled. */
module Json {
  import Text
  import opened Wrappers

  datatype Value =
    | Null
    | Bool(b: bool)
    | Int(i: int)
    | Str(s: string)
    | Nested(repr: string, size: nat)
  {
    /** Python truthiness: `None`, `False`, `0`, `""` and empty containers are false. */
    predicate Truthy() {
      match this
      case Null => false
      case Bool(b) => b
      case Int(i) => i != 0
      case Str(s) => s != ""
      case Nested(_, size) => size > 0
    }

    /** Python's `str(v)`. */
    function ToText(): string {
      match this
      case Null => "None"
      case Bool(b) => if b then "True" else "False"
      case Int(i) => Text.IntToString(i)
      case Str(s) => s
      case Nested(repr, _) => repr
    }
  }

  /** The Python type name of a value, as error messages print it. */
  function TypeName(v: Value): string {
    match v
    case Null => "NoneType"
    case Bool(_) => "bool"
    case Int(_) => "int"
    case Str(_) => "str"
    case Nested(repr, _) => if |repr| > 0 && repr[0] == '[' then "list" else "dict"
  }

  /** The position of the first value that is not a string. */
  function FirstNonStr(values: seq<Value>): (i: nat)
    requires exists k :: 0 <= k < |values| && !values[k].Str?
    ensures i < |values| && !values[i].Str?
    ensures forall j :: 0 <= j < i ==> values[j].Str?
  {
    if !values[0].Str? then 0
    else
      assert exists k :: 0 <= k < |values[1..]| && !values[1..][k].Str? by {
        var k :| 0 <= k < |values| && !values[k].Str?;
        assert values[1..][k - 1] == values[k];
      }
      var i := FirstNonStr(values[1..]);
      assert forall j :: 0 < j <= i ==> values[j] == values[1..][j - 1];
      i + 1
  }

  /** `sep.join(values)`: every item must be a string, otherwise the `TypeError`
      names the first item that is not. */
  function StrJoin(values: seq<Value>, sep: string): (r: Result<string>)
    ensures r.Success? <==> forall i :: 0 <= i < |values| ==> values[i].Str?
    ensures r.Success? ==>
      r.value == Text.Join(seq(|values|, i requires 0 <= i < |values| => values[i].ToText()), sep)
    ensures r.Failure? ==>
      exists i :: (&& 0 <= i < |values| && !values[i].Str? && (forall j :: 0 <= j < i ==> values[j].Str?)
                   && r.error == "sequence item " + Text.NatToString(i) + ": expected str instance, " + TypeName(values[i]) + " found")
  {
    if forall i :: 0 <= i < |values| ==> values[i].Str? then
      Success(Text.Join(seq(|values|, i requires 0 <= i < |values| => values[i].ToText()), sep))
    else
      var i := FirstNonStr(values);
      Failure("sequence item " + Text.NatToString(i) + ": expected str instance, " + TypeName(values[i]) + " found")
  }

  /** Joining fails exactly when some item is not a string. */
  lemma StrJoinFails(values: seq<Value>, sep: string)
    ensures StrJoin(values, sep).Failure? <==> exists i :: 0 <= i < |values| && !values[i].Str?
  {
  }

  /** `d.get(key, default)` followed by a truthiness test. */
  predicate FlagSet(d: map<string, Value>, key: string) {
    key in d && d[key].Truthy()
  }
}
