/** Loosely typed JavaScript objects (the `any` user payloads) as finite maps from property
    names to values; the object spread `{ ...base, ...top }` is the right-biased map union. */
module Records {

  datatype Value = Str(s: string) | Strs(items: seq<string>) | Flag(b: bool) | Stamp(t: int)

  type Record = map<string, Value>

  /** `{ ...base, ...top }`: every key of either side, `top` winning where both have it. */
  function Merge(base: Record, top: Record): (r: Record)
    ensures r.Keys == base.Keys + top.Keys
    ensures forall k :: k in top ==> r[k] == top[k]
    ensures forall k :: k in base && k !in top ==> r[k] == base[k]
  {
    base + top
  }

  /** JavaScript truthiness of `obj[k]`: absent and `''` and `false` are falsy; arrays and dates
      are objects and therefore truthy. */
  predicate Truthy(obj: Record, k: string) {
    k in obj &&
    match obj[k]
    case Str(s) => s != ""
    case Flag(b) => b
    case Strs(_) => true
    case Stamp(_) => true
  }
}
