/** JSON values. The fields of an object are listed in the order in which the object is walked. */
module Json {
  import opened Wrappers

  datatype Value =
    | Null
    | Bool(b: bool)
    | Number(text: string)
    | Str(s: string)
    | Arr(items: seq<Value>)
    | Obj(fields: seq<Field>)

  datatype Field = Field(key: string, value: Value)

  type Fields = seq<Field>

  function Get(fields: Fields, key: string): Option<Value> {
    if fields == [] then None
    else if fields[0].key == key then Some(fields[0].value)
    else Get(fields[1..], key)
  }

  predicate HasKey(fields: Fields, key: string) {
    exists i | 0 <= i < |fields| :: fields[i].key == key
  }

  lemma {:induction false} GetMeaning(fields: Fields, key: string)
    ensures Get(fields, key).Some? <==> HasKey(fields, key)
  {
    if fields != [] {
      GetMeaning(fields[1..], key);
      if i :| 0 <= i < |fields| && fields[i].key == key {
        assert i > 0 ==> fields[1..][i - 1].key == key;
      }
    }
  }

  /** The values directly inside a value. */
  function Children(v: Value): seq<Value> {
    match v
    case Arr(items) => items
    case Obj(fields) => seq(|fields|, i requires 0 <= i < |fields| => fields[i].value)
    case _ => []
  }

  /** The value reached by going down by positions. */
  function At(v: Value, path: seq<nat>): Option<Value>
    decreases |path|
  {
    if path == [] then Some(v)
    else if path[0] < |Children(v)| then At(Children(v)[path[0]], path[1..])
    else None
  }
}
