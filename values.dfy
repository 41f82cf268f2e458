/** Attribute values and items of the single table, and the Python built-ins
    the endpoints apply to them (`dict.get`, truthiness, `int()`, `float()`,
    `str.startswith`, `str.replace`). */
module Values {

  datatype Option<+T> = None | Some(value: T)

  /** What an endpoint produces: its response, or the HTTP status it raised. */
  datatype Result<+T> = Ok(value: T) | Failure(status: nat)

  const BadRequest: nat := 400
  const Unauthorized: nat := 401
  const Forbidden: nat := 403
  const NotFound: nat := 404
  const Unprocessable: nat := 422
  const ServerError: nat := 500

  /** A Python value held in an item or a request body. Numbers the API
      writes as text with `str(n)` are held as the number itself (`Int` or
      `Float`): the `str()`/`int()`/`float()` round trip is exact, and a `Str`
      stands for text that `int()` and `float()` reject. `Dec` is a
      `decimal.Decimal`. */
  datatype Value =
    | Null
    | Bool(b: bool)
    | Int(i: int)
    | Float(r: real)
    | Dec(d: real)
    | Str(s: string)
    | List(elems: seq<Value>)
    | Dict(fields: map<string, Value>)

  /** One item of the table: attribute name to value. */
  type Item = map<string, Value>

  /** The composite primary key (partition key, sort key). */
  datatype Key = Key(pk: string, sk: string)

  /** `item.get(attr, default)` */
  function Get(item: Item, attr: string, default: Value): Value
  {
    if attr in item then item[attr] else default
  }

  /** Python truthiness, `bool(v)`. */
  predicate Truthy(v: Value)
  {
    match v
    case Null => false
    case Bool(b) => b
    case Int(i) => i != 0
    case Float(r) => r != 0.0
    case Dec(d) => d != 0.0
    case Str(s) => s != ""
    case List(vs) => vs != []
    case Dict(m) => m != map[]
  }

  /** Truncation toward zero, as `int()` does to a float or a Decimal. */
  function TruncateTowardZero(r: real): int
  {
    if r >= 0.0 then r.Floor else -((-r).Floor)
  }

  /** `int(v)`; `None` where Python raises. */
  function IntOf(v: Value): Option<int>
  {
    match v
    case Bool(b) => Some(if b then 1 else 0)
    case Int(i) => Some(i)
    case Float(r) => Some(TruncateTowardZero(r))
    case Dec(d) => Some(TruncateTowardZero(d))
    case _ => None
  }

  /** `float(v)`; `None` where Python raises. */
  function FloatOf(v: Value): Option<real>
  {
    match v
    case Bool(b) => Some(if b then 1.0 else 0.0)
    case Int(i) => Some(i as real)
    case Float(r) => Some(r)
    case Dec(d) => Some(d)
    case _ => None
  }

  /** `s.startswith(p)` */
  predicate StartsWith(s: string, p: string)
  {
    |p| <= |s| && s[..|p|] == p
  }

  /** `s.replace(p, "")`: every non-overlapping occurrence of `p`, scanned
      left to right, is removed. */
  function RemoveAll(s: string, p: string): string
    requires p != []
    decreases |s|
  {
    if |s| < |p| then s
    else if s[..|p|] == p then RemoveAll(s[|p|..], p)
    else [s[0]] + RemoveAll(s[1..], p)
  }

  /** `p` occurs in `s` at position `i`. */
  predicate OccursAt(s: string, p: string, i: int)
  {
    0 <= i && i + |p| <= |s| && s[i..i + |p|] == p
  }

  /** `p in s` */
  ghost predicate Contains(s: string, p: string)
  {
    exists i :: OccursAt(s, p, i)
  }

  lemma {:induction false} RemoveAllAbsent(s: string, p: string)
    requires p != [] && !Contains(s, p)
    ensures RemoveAll(s, p) == s
    decreases |s|
  {
    if |s| >= |p| {
      assert s[0..0 + |p|] == s[..|p|];
      assert !OccursAt(s, p, 0);
      forall i | OccursAt(s[1..], p, i)
        ensures OccursAt(s, p, i + 1)
      {
        assert s[1..][i..i + |p|] == s[i + 1..i + 1 + |p|];
      }
      RemoveAllAbsent(s[1..], p);
    }
  }

  /** The item as returned to a client: `{k: v for k, v in item.items() if k != attr}`. */
  function Without(item: Item, attr: string): (r: Item)
    ensures attr !in r
    ensures forall a :: a in item && a != attr ==> a in r && r[a] == item[a]
    ensures forall a :: a in r ==> a in item
  {
    item - {attr}
  }
}
