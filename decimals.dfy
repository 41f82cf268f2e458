/** `convert_floats_to_decimal`: every float inside a value, at any depth of
    lists and dicts, becomes a `Decimal` of the same value (the table does
    not accept floats); everything else is kept. */
module Decimals {
  import opened Values

  /** No float occurs anywhere in `v`. */
  predicate FloatFree(v: Value)
  {
    match v
    case Float(_) => false
    case List(vs) => forall i :: 0 <= i < |vs| ==> FloatFree(vs[i])
    case Dict(m) => forall k :: k in m ==> FloatFree(m[k])
    case _ => true
  }

  function ToDecimal(v: Value): (r: Value)
    ensures v.Float? ==> r == Dec(v.r)
    ensures v.List? ==> r.List? && |r.elems| == |v.elems|
    ensures v.Dict? ==> r.Dict? && r.fields.Keys == v.fields.Keys
    ensures !v.Float? && !v.List? && !v.Dict? ==> r == v
  {
    match v
    case Float(x) => Dec(x)
    case List(vs) => List(seq(|vs|, i requires 0 <= i < |vs| => ToDecimal(vs[i])))
    case Dict(m) => Dict(map k | k in m :: ToDecimal(m[k]))
    case _ => v
  }

  /** The result holds no float. */
  lemma {:induction false} ToDecimalFloatFree(v: Value)
    ensures FloatFree(ToDecimal(v))
  {
    match v
    case List(vs) =>
      forall i | 0 <= i < |vs| ensures FloatFree(ToDecimal(v).elems[i]) {
        ToDecimalFloatFree(vs[i]);
      }
    case Dict(m) =>
      forall k | k in m ensures FloatFree(ToDecimal(v).fields[k]) {
        ToDecimalFloatFree(m[k]);
      }
    case _ =>
  }

  /** A value without floats is left exactly as it was. */
  lemma {:induction false} ToDecimalKeeps(v: Value)
    requires FloatFree(v)
    ensures ToDecimal(v) == v
  {
    match v
    case List(vs) =>
      forall i | 0 <= i < |vs| ensures ToDecimal(v).elems[i] == vs[i] {
        ToDecimalKeeps(vs[i]);
      }
    case Dict(m) =>
      forall k | k in m ensures ToDecimal(v).fields[k] == m[k] {
        ToDecimalKeeps(m[k]);
      }
    case _ =>
  }

  /** Converting twice is converting once. */
  lemma ToDecimalIdempotent(v: Value)
    ensures ToDecimal(ToDecimal(v)) == ToDecimal(v)
  {
    ToDecimalFloatFree(v);
    ToDecimalKeeps(ToDecimal(v));
  }

  /** The converted value is the same number to `float()` and the same to
      truthiness tests. */
  lemma ToDecimalSameNumber(v: Value)
    ensures FloatOf(ToDecimal(v)) == FloatOf(v)
    ensures Truthy(ToDecimal(v)) == Truthy(v)
  {
    if v.Dict? && v.fields != map[] {
      var k :| k in v.fields;
      assert k in ToDecimal(v).fields;
    }
  }
}
