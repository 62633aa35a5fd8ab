/**
  Parsed JSON values as the Python code sees them after `json.loads`.

  An object keeps its members in source order and may repeat a key, exactly
  as the decoder met them.  Reading a key behaves like the dictionary the
  decoder builds: the LAST binding of a key wins, while the order of keys is
  the order of their first appearance.
 */
module Json {
  import opened Wrappers

  datatype Value =
    | Null
    | Bool(b: bool)
    | Num(n: real)
    | Str(s: string)
    | Arr(items: seq<Value>)
    | Obj(fields: seq<(string, Value)>)

  /** `d.get(key)` on the dictionary built from `fields`. */
  function Get(fields: seq<(string, Value)>, key: string): Option<Value> {
    if |fields| == 0 then None
    else if fields[|fields| - 1].0 == key then Some(fields[|fields| - 1].1)
    else Get(fields[..|fields| - 1], key)
  }

  /** A key is found exactly when some member has it, and the value is that of its last member. */
  lemma {:induction false} GetFindsLastBinding(fields: seq<(string, Value)>, key: string)
    ensures Get(fields, key).Some? <==> exists k :: 0 <= k < |fields| && fields[k].0 == key
    ensures Get(fields, key).Some? ==>
      exists k :: 0 <= k < |fields| && fields[k] == (key, Get(fields, key).value) &&
        forall j :: k < j < |fields| ==> fields[j].0 != key
  {
    if |fields| > 0 && fields[|fields| - 1].0 != key {
      var init := fields[..|fields| - 1];
      GetFindsLastBinding(init, key);
      if Get(fields, key).Some? {
        var k :| 0 <= k < |init| && init[k] == (key, Get(init, key).value) &&
          forall j :: k < j < |init| ==> init[j].0 != key;
        assert fields[k] == init[k];
      }
      assert forall k :: 0 <= k < |init| ==> fields[k] == init[k];
    }
  }

  /** Appending a member binds its key to its value and leaves the other keys alone. */
  lemma GetAppend(fields: seq<(string, Value)>, key: string, v: Value, other: string)
    ensures Get(fields + [(key, v)], key) == Some(v)
    ensures other != key ==> Get(fields + [(key, v)], other) == Get(fields, other)
  {
    assert (fields + [(key, v)])[..|fields|] == fields;
  }

  /** `d.get(key, default)`. */
  function GetOr(fields: seq<(string, Value)>, key: string, default: Value): Value {
    Get(fields, key).GetOr(default)
  }

  /** Python truthiness: `None`, `False`, zero, and empty strings, lists and dicts are false. */
  predicate Truthy(v: Value) {
    match v
    case Null => false
    case Bool(b) => b
    case Num(n) => n != 0.0
    case Str(s) => |s| > 0
    case Arr(items) => |items| > 0
    case Obj(fields) => |fields| > 0
  }

  /**
    Python's `str(v)` as an f-string renders it.  Strings, `None` and the
    booleans are rendered here; numbers, lists and dicts are rendered by the
    interpreter's own printer, passed in as `show`.
   */
  function Display(v: Value, show: Value -> string): (r: string)
    ensures v.Str? ==> r == v.s
    ensures v.Null? ==> r == "None"
    ensures v.Bool? ==> r == (if v.b then "True" else "False")
    ensures v.Num? || v.Arr? || v.Obj? ==> r == show(v)
  {
    match v
    case Str(s) => s
    case Null => "None"
    case Bool(b) => if b then "True" else "False"
    case _ => show(v)
  }
}
