/** A parsed JSON tree and the SwiftyJSON accessors the schedule code uses.
    Only integral numbers are represented. A lookup that misses yields
    `JNull`, so chains of lookups never fail; `stringValue` of a missing value
    is "" and `intValue` is 0. */
module SwiftyJson {
  import opened Common

  datatype Json =
    | JNull
    | JBool(b: bool)
    | JNum(n: int)
    | JStr(s: string)
    | JArr(items: seq<Json>)
    | JObj(fields: map<string, Json>)

  /** `json["key"]`. */
  function Member(j: Json, key: string): (r: Json)
    ensures r != JNull ==> j.JObj? && key in j.fields && r == j.fields[key]
    ensures j.JObj? && key in j.fields ==> r == j.fields[key]
  {
    if j.JObj? && key in j.fields then j.fields[key] else JNull
  }

  /** `json["a"]["b"]...`. */
  function Path(j: Json, keys: seq<string>): (r: Json)
    ensures keys == [] ==> r == j
    ensures |keys| == 1 ==> r == Member(j, keys[0])
    decreases |keys|
  {
    if keys == [] then j else Path(Member(j, keys[0]), keys[1..])
  }

  /** A chain of lookups can be split anywhere. */
  lemma {:induction false} PathConcat(j: Json, a: seq<string>, b: seq<string>)
    ensures Path(j, a + b) == Path(Path(j, a), b)
    decreases |a|
  {
    if a == [] {
      assert a + b == b;
    } else {
      assert (a + b)[0] == a[0];
      assert (a + b)[1..] == a[1..] + b;
      assert Path(j, a + b) == Path(Member(j, a[0]), a[1..] + b);
      assert Path(j, a) == Path(Member(j, a[0]), a[1..]);
      PathConcat(Member(j, a[0]), a[1..], b);
    }
  }

  /** Once a lookup misses, every further lookup misses too. */
  lemma {:induction false} PathFromNull(keys: seq<string>)
    ensures Path(JNull, keys) == JNull
    decreases |keys|
  {
    if keys != [] {
      PathFromNull(keys[1..]);
    }
  }

  /** `json[i]`. */
  function At(j: Json, i: int): (r: Json)
    ensures r != JNull ==> j.JArr? && 0 <= i < |j.items| && r == j.items[i]
    ensures j.JArr? && 0 <= i < |j.items| ==> r == j.items[i]
  {
    if j.JArr? && 0 <= i < |j.items| then j.items[i] else JNull
  }

  /** `.stringValue`. */
  function StringValue(j: Json): (s: string)
    ensures j.JStr? ==> s == j.s
    ensures j.JNull? || j.JArr? || j.JObj? ==> s == ""
    ensures j.JNum? ==> s == IntToString(j.n)
    ensures j.JBool? ==> s == (if j.b then "true" else "false")
  {
    match j
    case JStr(s) => s
    case JNum(n) => IntToString(n)
    case JBool(b) => if b then "true" else "false"
    case _ => ""
  }

  /** `.int`: present for numbers and booleans only. */
  function IntOpt(j: Json): (r: Option<int>)
    ensures r.Some? <==> j.JNum? || j.JBool?
    ensures j.JNum? ==> r == Some(j.n)
    ensures j.JBool? ==> r == Some(if j.b then 1 else 0)
  {
    match j
    case JNum(n) => Some(n)
    case JBool(b) => Some(if b then 1 else 0)
    case _ => None
  }

  /** `.intValue`: a decimal string counts as its number; anything else
      without a number is 0. */
  function IntValue(j: Json): (n: int)
    ensures j.JNum? ==> n == j.n
    ensures j.JNull? || j.JArr? || j.JObj? ==> n == 0
    ensures j.JBool? ==> n == (if j.b then 1 else 0)
    ensures j.JStr? && ParseInt(j.s).Some? ==> n == ParseInt(j.s).value
    ensures j.JStr? && ParseInt(j.s).None? ==> n == 0
  {
    match j
    case JNum(n) => n
    case JBool(b) => if b then 1 else 0
    case JStr(s) => if ParseInt(s).Some? then ParseInt(s).value else 0
    case _ => 0
  }

  /** `.array`. */
  function ArrayOpt(j: Json): (r: Option<seq<Json>>)
    ensures r.Some? <==> j.JArr?
    ensures j.JArr? ==> r == Some(j.items)
  {
    if j.JArr? then Some(j.items) else None
  }

  /** `.arrayValue`. */
  function ArrayValue(j: Json): (r: seq<Json>)
    ensures !j.JArr? ==> r == []
    ensures j.JArr? ==> r == j.items
  {
    if j.JArr? then j.items else []
  }

  /** `.dictionaryValue`. */
  function DictionaryValue(j: Json): (r: map<string, Json>)
    ensures !j.JObj? ==> r == map[]
    ensures j.JObj? ==> r == j.fields
  {
    if j.JObj? then j.fields else map[]
  }

  /** `dictionary["key"]` on a Swift dictionary: an optional. */
  function Lookup(m: map<string, Json>, key: string): (r: Option<Json>)
    ensures r.Some? <==> key in m
    ensures key in m ==> r == Some(m[key])
  {
    if key in m then Some(m[key]) else None
  }
}
