/**
 Field values as the sync protocol sees them (`unknown` in the source): a scalar or object, a list,
 or nothing. Numbers are carried by their JavaScript rendering, objects by their `id` property
 and their JSON text, because that is all the protocol ever looks at.
 */
module Values {
  import opened Prelude

  datatype Item =
    | Str(s: string)
    | Num(repr: string)
    | Bool(b: bool)
    | Null
    | Obj(id: Option<string>, json: string)

  datatype Value = Undefined | One(item: Item) | List(items: seq<Item>)

  type Record = map<string, Value>

  function Get(r: Record, k: string): Value {
    if k in r then r[k] else Undefined
  }

  predicate IsStr(v: Value) { v.One? && v.item.Str? }

  predicate IsBlank(v: Value) {
    v == Undefined || v == One(Null) || v == One(Str("")) || v == List([])
  }

  /** What two list items are compared by when a list is merged. */
  function ItemKey(i: Item): string {
    match i
    case Str(s) => s
    case Num(r) => r
    case Bool(b) => if b then "true" else "false"
    case Null => "null"
    case Obj(id, json) => if id.Some? then id.value else json
  }

  function ItemsOf(v: Value): seq<Item> {
    match v
    case Undefined => []
    case One(i) => if i == Null then [] else [i]
    case List(items) => items
  }

  function Digits(n: nat): string {
    if n < 10 then [('0' as int + n) as char] else Digits(n / 10) + Digits(n % 10)
  }
}
