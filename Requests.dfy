/** What the API route handlers read from a request and how JavaScript
    treats it: the query string's parameters with their `||` defaults, the
    parsed JSON body with destructuring defaults and truthiness, and the
    numbers the pagination arithmetic produces. */
module Requests {
  import opened Wrappers
  import opened Text
  import Url

  // ---- query parameters ----

  /** `searchParams.get(name) || fallback`: the parameter, unless it is
      missing or empty. */
  function ParamOr(params: Url.QueryParams, name: string, fallback: string): (v: string)
    ensures v == fallback || Url.GetParam(params, name) == Some(v)
    ensures v == "" ==> fallback == ""
  {
    var p := Url.GetParam(params, name);
    if p.Some? && p.value != "" then p.value else fallback
  }

  /** `searchParams.get(name)` as a filter value: present only when the
      parameter is given with a non-empty value, the truthy case of the
      `...(value && {...})` spreads. */
  function FilterParam(params: Url.QueryParams, name: string): (v: Option<string>)
    ensures v.Some? ==> v.value != "" && exists k :: 0 <= k < |params| && params[k] == (name, v.value)
    ensures (forall k :: 0 <= k < |params| ==> params[k].0 != name) ==> v.None?
  {
    var p := Url.GetParam(params, name);
    if p.Some? && p.value != "" then p else None
  }

  // ---- numbers ----

  /** The numbers the route handlers compute: `parseInt` gives an integer or
      NaN, and a division by zero gives an infinity or NaN. */
  datatype Number = Int(value: int) | NaN | Infinity | NegativeInfinity

  /** `parseInt` never produces an infinity. */
  function FromParsed(p: ParsedInt): (n: Number)
    ensures !n.Infinity? && !n.NegativeInfinity?
  {
    match p
    case NotANumber => NaN
    case Integer(v) => Int(v)
  }

  /** `parseInt(searchParams.get(name) || fallback)`. */
  function NumberParam(params: Url.QueryParams, name: string, fallback: string): Number
  {
    FromParsed(ParseInt(ParamOr(params, name, fallback)))
  }

  /** An absent or empty parameter reads as the fallback's value. */
  lemma NumberParamDefault(params: Url.QueryParams, name: string, fallback: nat)
    requires Url.GetParam(params, name).None? || Url.GetParam(params, name).value == ""
    ensures NumberParam(params, name, NatToString(fallback)) == Int(fallback)
  {
    ParseIntNatToString(fallback);
  }

  /** A parameter written as a decimal count reads as that count. */
  lemma NumberParamReadsCount(params: Url.QueryParams, name: string, fallback: string, n: nat)
    requires Url.GetParam(params, name) == Some(NatToString(n))
    ensures NumberParam(params, name, fallback) == Int(n)
  {
    ParseIntNatToString(n);
  }

  /** `a - b` on the integers and NaN that arise here. */
  function Sub(a: Number, b: Number): (r: Number)
    ensures r.Int? <==> a.Int? && b.Int?
    ensures a == b ==> r == (if a.Int? then Int(0) else NaN)
  {
    if a.Int? && b.Int? then Int(a.value - b.value)
    else if a.NaN? || b.NaN? then NaN
    else if a.Int? then (if b.Infinity? then NegativeInfinity else Infinity)
    else if b.Int? then a
    else if a == b then NaN
    else a
  }

  /** `a * b`; an infinity times zero is NaN. */
  function Mul(a: Number, b: Number): (r: Number)
    ensures r.Int? <==> a.Int? && b.Int?
    ensures r.Infinity? || r.NegativeInfinity? ==> !a.Int? || !b.Int?
  {
    if a.Int? && b.Int? then Int(a.value * b.value)
    else if a.NaN? || b.NaN? then NaN
    else if (a.Int? && a.value == 0) || (b.Int? && b.value == 0) then NaN
    else
      var negative := (a.NegativeInfinity? || (a.Int? && a.value < 0)) != (b.NegativeInfinity? || (b.Int? && b.value < 0));
      if negative then NegativeInfinity else Infinity
  }

  /** The smallest integer at or above `a / b`, for `b != 0`. */
  function CeilDiv(a: int, b: int): (r: int)
    requires b != 0
    ensures b > 0 ==> (r - 1) * b < a <= r * b
    ensures b < 0 ==> r * b <= a < (r - 1) * b
  {
    if b > 0 then -((-a) / b) else -(a / (-b))
  }

  /** `Math.ceil(total / limit)` for a non-negative count: a zero limit gives
      an infinity for a positive count and NaN for zero. */
  function CeilQuotient(total: nat, limit: Number): (r: Number)
    ensures limit.Int? && limit.value > 0 ==>
      r.Int? && r.value >= 0 && r.value * limit.value >= total && (r.value - 1) * limit.value < total
    ensures Serialized(r).None? <==> limit.NaN? || limit == Int(0)
  {
    match limit
    case Int(l) => if l != 0 then Int(CeilDiv(total, l)) else if total > 0 then Infinity else NaN
    case NaN => NaN
    case _ => Int(0)
  }

  /** `JSON.stringify` of a number: NaN and the infinities become `null`. */
  function Serialized(n: Number): (r: Option<int>)
  {
    if n.Int? then Some(n.value) else None
  }

  // ---- JSON bodies ----

  /** A value `request.json()` can produce. */
  datatype Json = JNull | JBool(b: bool) | JNumber(n: real) | JString(s: string) | JArray(items: seq<Json>) | JObject(fields: map<string, Json>)

  /** `body.key`: `None` stands for `undefined`. Only an object has the keys the
      handlers read. */
  function Field(body: Json, key: string): (v: Option<Json>)
  {
    if body.JObject? && key in body.fields then Some(body.fields[key]) else None
  }

  /** Destructuring `const {...} = body` throws for `null`. */
  predicate Destructurable(body: Json)
  {
    !body.JNull?
  }

  /** JavaScript truthiness; `undefined` is falsy. JSON has no NaN. */
  predicate Truthy(v: Option<Json>)
  {
    match v
    case None => false
    case Some(j) =>
      match j
      case JNull => false
      case JBool(b) => b
      case JNumber(n) => n != 0.0
      case JString(s) => s != ""
      case JArray(_) => true
      case JObject(_) => true
  }

  /** A destructuring default `key = fallback`: it replaces `undefined` only;
      an explicit `null` is kept. */
  function WithDefault(v: Option<Json>, fallback: Json): (r: Json)
  {
    if v.Some? then v.value else fallback
  }

  /** Falsy values are exactly undefined, null, false, zero and the empty string. */
  lemma TruthyCases(v: Option<Json>)
    ensures !Truthy(v) <==>
      v.None? || v == Some(JNull) || v == Some(JBool(false)) || v == Some(JNumber(0.0)) || v == Some(JString(""))
  {
  }
}
