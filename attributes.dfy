/**
  Terraform's generic attribute representation, as the plugin SDK hands it to
  the expand functions and takes it back from the flatten functions.

  A configuration block with `MaxItems: 1` arrives as a Go `[]interface{}`
  whose elements are `map[string]interface{}` or nil; it is modelled as a
  `Block`, a sequence of `Option<Attrs>` in which `None` stands for a nil
  element. Flatten functions return `[]map[string]interface{}`, which has no
  nil elements: a `seq<Attrs>`.
*/
module Attributes {
  import opened Wrappers

  /** A Go int64; a Go int, whatever its width, fits in it unchanged. */
  type Int64 = x: int | -0x8000_0000_0000_0000 <= x < 0x8000_0000_0000_0000

  /** The dynamic values that occur in this resource's attribute maps. */
  datatype Value =
    | Str(s: string)                                  // Go string
    | Int(i: Int64)                                   // Go int (and int64 on the way back)
    | StrSet(members: set<string>)                    // *schema.Set of strings
    | List(items: seq<Option<map<string, Value>>>)    // a nested block list

  type Attrs = map<string, Value>
  type Block = seq<Option<Attrs>>

  /** `m[key].(string)` succeeds: the key is present and holds a string. */
  predicate HasStr(m: Attrs, key: string) {
    key in m && m[key].Str?
  }

  /** `m[key].(int)` succeeds. */
  predicate HasInt(m: Attrs, key: string) {
    key in m && m[key].Int?
  }

  /** `m[key].(*schema.Set)` succeeds. */
  predicate HasSet(m: Attrs, key: string) {
    key in m && m[key].StrSet?
  }

  /** `m[key].([]interface{})` succeeds. */
  predicate HasList(m: Attrs, key: string) {
    key in m && m[key].List?
  }

  /** A flattened list seen again as a block list: every element non-nil. */
  function AsBlock(ms: seq<Attrs>): (b: Block)
    ensures |b| == |ms|
    ensures forall i :: 0 <= i < |ms| ==> b[i] == Some(ms[i])
  {
    if ms == [] then [] else [Some(ms[0])] + AsBlock(ms[1..])
  }
}
