/** JavaScript values as the recorder sees them: parsed JSON trees, `undefined`,
    truthiness, optional-chaining lookups, strict equality and the decimal
    rendering of a non-negative integer. */
module Js {

  /** `None` stands for JavaScript's `undefined` (a missing property). */
  datatype Option<+T> = None | Some(value: T) {
    function GetOr(default: T): T {
      if Some? then value else default
    }
  }

  /** A value produced by `JSON.parse`. An object maps each key to its value;
      a key repeated in the text keeps its last value, as `JSON.parse` does.
      Numbers are integers here. */
  datatype Json =
    | JNull
    | JBool(b: bool)
    | JNum(n: int)
    | JStr(s: string)
    | JArr(items: seq<Json>)
    | JObj(fields: map<string, Json>)

  /** The outcome of evaluating an expression that may throw a TypeError. */
  datatype Completion<+T> = Normal(value: T) | Throw(message: string)

  /** JavaScript truthiness: `undefined`, `null`, `false`, `0` and `""` are falsy. */
  predicate Truthy(v: Option<Json>) {
    match v
    case None => false
    case Some(JNull) => false
    case Some(JBool(b)) => b
    case Some(JNum(n)) => n != 0
    case Some(JStr(s)) => s != ""
    case Some(_) => true
  }

  /** `undefined` or `null`: the values on which a plain property read throws. */
  predicate Nullish(v: Option<Json>) {
    v.None? || v.value.JNull?
  }

  /** `v?.key` (and `v.key` when `v` is not nullish). Only objects carry the
      keys the recorder reads; on any other value the lookup is `undefined`. */
  function Get(v: Option<Json>, key: string): (r: Option<Json>)
    ensures r.Some? ==> v.Some? && v.value.JObj? && key in v.value.fields && r.value == v.value.fields[key]
    ensures v.Some? && v.value.JObj? && key in v.value.fields ==> r == Some(v.value.fields[key])
    ensures Nullish(v) ==> r.None?
  {
    match v
    case Some(JObj(fields)) => if key in fields then Some(fields[key]) else None
    case _ => None
  }

  /** `v?.k0?.k1?....`: a chain of optional lookups. */
  function Path(v: Option<Json>, keys: seq<string>): (r: Option<Json>)
    ensures keys == [] ==> r == v
    ensures |keys| > 0 && Nullish(v) ==> r.None?
    ensures |keys| > 0 ==> r == Path(Get(v, keys[0]), keys[1..])
    decreases |keys|
  {
    if keys == [] then v else Path(Get(v, keys[0]), keys[1..])
  }

  /** The string held by `v` when `v` is a non-empty (so truthy) string. */
  function TruthyString(v: Option<Json>): (r: Option<string>)
    ensures r.Some? <==> Truthy(v) && v.value.JStr?
    ensures r.Some? ==> r.value != "" && v == Some(JStr(r.value))
  {
    match v
    case Some(JStr(s)) => if s != "" then Some(s) else None
    case _ => None
  }

  /** `v || fallback` for a field that is expected to hold a string. */
  function StringOr(v: Option<Json>, fallback: string): (r: string)
    ensures TruthyString(v).Some? ==> r == TruthyString(v).value
    ensures TruthyString(v).None? ==> r == fallback
  {
    TruthyString(v).GetOr(fallback)
  }

  /** `a === b` for two values read from different places of one parsed tree:
      primitives compare by value, `undefined === undefined` holds, and two
      distinct objects or arrays are never identical. */
  predicate StrictEquals(a: Option<Json>, b: Option<Json>) {
    match (a, b)
    case (None, None) => true
    case (Some(JNull), Some(JNull)) => true
    case (Some(JBool(x)), Some(JBool(y))) => x == y
    case (Some(JNum(x)), Some(JNum(y))) => x == y
    case (Some(JStr(x)), Some(JStr(y))) => x == y
    case _ => false
  }

  /** The TypeError of reading `.type` from a `null` array item. */
  const NULL_ITEM_TYPE := "Cannot read properties of null (reading 'type')"

  /** `items.find(callback)` for a callback that reads `item.type` first:
      the first item `accept` takes, where a `null` item met before it throws. */
  function Find(items: seq<Json>, accept: Json -> bool): (r: Completion<Option<Json>>)
    ensures r.Throw? ==> r.message == NULL_ITEM_TYPE
    ensures r.Normal? && r.value.Some? ==> r.value.value in items && accept(r.value.value)
    decreases |items|
  {
    if items == [] then Normal(None)
    else if items[0] == JNull then Throw(NULL_ITEM_TYPE)
    else if accept(items[0]) then Normal(Some(items[0]))
    else Find(items[1..], accept)
  }

  /** No item before index `i` stops the search. */
  ghost predicate Undecided(items: seq<Json>, accept: Json -> bool, i: int) {
    0 <= i <= |items| && forall j :: 0 <= j < i ==> items[j] != JNull && !accept(items[j])
  }

  /** Index `i` is where the search stops: a `null` item or an accepted one. */
  ghost predicate FirstDecisive(items: seq<Json>, accept: Json -> bool, i: int) {
    Undecided(items, accept, i) && i < |items| && (items[i] == JNull || accept(items[i]))
  }

  lemma {:induction false} FindSpec(items: seq<Json>, accept: Json -> bool)
    ensures Find(items, accept) == Normal(None) <==> Undecided(items, accept, |items|)
    ensures forall x :: Find(items, accept) == Normal(Some(x)) <==>
      exists i :: FirstDecisive(items, accept, i) && items[i] != JNull && items[i] == x
    ensures Find(items, accept).Throw? <==> exists i :: FirstDecisive(items, accept, i) && items[i] == JNull
    decreases |items|
  {
    if items == [] {
      assert Undecided(items, accept, 0);
    } else if items[0] == JNull {
      assert FirstDecisive(items, accept, 0);
      assert !Undecided(items, accept, |items|);
    } else if accept(items[0]) {
      assert FirstDecisive(items, accept, 0);
      assert !Undecided(items, accept, |items|);
    } else {
      var rest := items[1..];
      FindSpec(rest, accept);
      assert forall i :: 0 <= i <= |rest| ==> (Undecided(rest, accept, i) <==> Undecided(items, accept, i + 1));
      forall i | FirstDecisive(items, accept, i) ensures i > 0 && FirstDecisive(rest, accept, i - 1) {
        assert items[i] == rest[i - 1];
      }
      forall i | FirstDecisive(rest, accept, i) ensures FirstDecisive(items, accept, i + 1) {
        assert items[i + 1] == rest[i];
      }
    }
  }

  /** `s.replace(/[...]/g, '-')`: every character of `bad` becomes a dash. */
  function DashOut(s: string, bad: set<char>): (r: string)
    ensures |r| == |s|
    ensures forall i :: 0 <= i < |r| ==> r[i] == (if s[i] in bad then '-' else s[i])
    decreases |s|
  {
    if s == [] then [] else [if s[0] in bad then '-' else s[0]] + DashOut(s[1..], bad)
  }

  function DigitChar(d: nat): (c: char)
    requires d < 10
    ensures '0' <= c <= '9'
    ensures c as int - '0' as int == d
  {
    "0123456789"[d]
  }

  /** The decimal text JavaScript gives a non-negative integer (`${n}`). */
  function NatToString(n: nat): (r: string)
    ensures |r| >= 1
    ensures forall i :: 0 <= i < |r| ==> '0' <= r[i] <= '9'
    ensures n > 0 ==> r[0] != '0'
    decreases n
  {
    if n < 10 then [DigitChar(n)] else NatToString(n / 10) + [DigitChar(n % 10)]
  }

  /** The value a decimal text denotes; the partner of NatToString. */
  function DecimalValue(s: string): int
    decreases |s|
  {
    if s == [] then 0 else DecimalValue(s[..|s| - 1]) * 10 + (s[|s| - 1] as int - '0' as int)
  }

  lemma {:induction false} NatToStringRoundTrip(n: nat)
    ensures DecimalValue(NatToString(n)) == n
    decreases n
  {
    if n >= 10 {
      NatToStringRoundTrip(n / 10);
      var r := NatToString(n);
      assert r[..|r| - 1] == NatToString(n / 10);
      assert r[|r| - 1] as int - '0' as int == n % 10;
      assert DecimalValue(r) == (n / 10) * 10 + n % 10;
    }
  }
}
