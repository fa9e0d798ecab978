/**
 JSON values and resource records as the request handlers see them once the
 body parser has run: a resource is a map from field name to value, and its
 identity is whatever its `id` field holds.
 */
module Json {

  /** Some/None; None also stands for JavaScript's `undefined`. */
  datatype Option<+T> = None | Some(value: T)

  /** The JSON values a field can hold, restricted to scalars: the handlers
      only ever compare `id` fields, and on scalars JavaScript's strict
      equality `===` is value equality, which is what `==` gives here. */
  datatype Value = Str(s: string) | Num(n: int) | Bool(b: bool) | Null

  /** A resource: an object with any field names, each holding a scalar. */
  type Record = map<string, Value>

  const IdField: string := "id"

  /** The property read `r.id`: None when the field is missing (`undefined`). */
  function IdOf(r: Record): Option<Value>
  {
    if IdField in r then Some(r[IdField]) else None
  }

  /** The object spread `{ ...base, ...patch }`: every field of either object,
      with the patch's value winning where both have the field. */
  function Spread(base: Record, patch: Record): (m: Record)
    ensures m.Keys == base.Keys + patch.Keys
    ensures forall k :: k in patch ==> m[k] == patch[k]
    ensures forall k :: k in base && k !in patch ==> m[k] == base[k]
    ensures IdOf(m) == (if IdField in patch then IdOf(patch) else IdOf(base))
  {
    base + patch
  }

  /** Spreading the same patch a second time changes nothing. */
  lemma SpreadIdempotent(base: Record, patch: Record)
    ensures Spread(Spread(base, patch), patch) == Spread(base, patch)
  {
  }
}
