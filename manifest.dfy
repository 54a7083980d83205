/**
 * The generic document tree that every manifest builder produces and that the
 * YAML serializer consumes. Mappings keep their keys in insertion order, as the
 * anonymous objects and dictionaries of the generator do.
 */
module Manifest {
  import opened Wrappers

  datatype Value =
    | Str(s: string)
    | Int(n: int)
    | Null
    | Sequence(items: seq<Value>)
    | Mapping(keys: seq<string>, fields: map<string, Value>)

  /** The keys of a mapping in document order; a non-mapping has none. */
  function Keys(v: Value): seq<string> {
    if v.Mapping? then v.keys else []
  }

  /** The field `key` of an optional node, if that node is a mapping that has it. */
  function Field(o: Option<Value>, key: string): (r: Option<Value>)
    ensures r.Some? <==> o.Some? && o.value.Mapping? && key in o.value.fields
  {
    if o.Some? && o.value.Mapping? && key in o.value.fields then Some(o.value.fields[key]) else None
  }

  /** The field `key` of a node. */
  function Get(v: Value, key: string): Option<Value> {
    Field(Some(v), key)
  }
}
