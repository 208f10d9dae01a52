/**
 * JSON values as every component of the gateway exchanges them, together
 * with the JavaScript reading of them that the server code relies on:
 * property access that yields `undefined` or throws a TypeError, truthiness,
 * and the string conversion `String(x)` used by template literals, property
 * keys and `+` concatenation.
 */
module Json {

  datatype Option<T> = None | Some(value: T)

  /** Why an operation did not complete. */
  datatype Fault =
    | TypeError            // a property read on `null` or `undefined`
    | UpstreamError        // an HTTP call to the identity provider failed
    | StoreError           // the credential store refused the request
    | UndefinedBehaviour   // the device code calls through a null pointer

  datatype Result<T> = Ok(value: T) | Err(fault: Fault)

  /**
   * A JSON value. Numbers are integers (no fractions, no NaN). Objects are
   * member lists in insertion order; every producer in the system emits
   * objects whose keys are distinct.
   */
  datatype Json =
    | JNull
    | JBool(b: bool)
    | JNum(n: int)
    | JStr(s: string)
    | JArr(items: seq<Json>)
    | JObj(members: seq<(string, Json)>)

  /** The value stored under `key` in an object (the first such member). */
  function Get(j: Json, key: string): (r: Option<Json>)
    ensures r.Some? ==> j.JObj? && exists i :: 0 <= i < |j.members| && j.members[i] == (key, r.value)
    ensures r.None? && j.JObj? ==> forall i :: 0 <= i < |j.members| ==> j.members[i].0 != key
  {
    if !j.JObj? then None else Lookup(j.members, key)
  }

  function Lookup(ms: seq<(string, Json)>, key: string): (r: Option<Json>)
    ensures r.Some? ==> exists i :: 0 <= i < |ms| && ms[i] == (key, r.value)
    ensures r.None? ==> forall i :: 0 <= i < |ms| ==> ms[i].0 != key
  {
    if ms == [] then None
    else if ms[0].0 == key then Some(ms[0].1)
    else Lookup(ms[1..], key)
  }

  /** A member is found under its key when no earlier member has that key. */
  lemma {:induction false} LookupAt(ms: seq<(string, Json)>, i: nat)
    requires i < |ms|
    requires forall j :: 0 <= j < i ==> ms[j].0 != ms[i].0
    ensures Lookup(ms, ms[i].0) == Some(ms[i].1)
  {
    if i > 0 {
      LookupAt(ms[1..], i - 1);
    }
  }

  /**
   * JavaScript assignment `o[key] = v`: an existing member keeps its place
   * and takes the new value, a new member goes at the end.
   */
  function Put(j: Json, key: string, v: Json): (r: Json)
    requires j.JObj?
    ensures r.JObj?
  {
    JObj(Assign(j.members, key, v))
  }

  function Assign(ms: seq<(string, Json)>, key: string, v: Json): seq<(string, Json)>
  {
    if ms == [] then [(key, v)]
    else if ms[0].0 == key then [(key, v)] + ms[1..]
    else [ms[0]] + Assign(ms[1..], key, v)
  }

  /** Reading back a member just assigned gives the assigned value. */
  lemma {:induction false} LookupAssign(ms: seq<(string, Json)>, key: string, v: Json)
    ensures Lookup(Assign(ms, key, v), key) == Some(v)
  {
    if ms != [] && ms[0].0 != key {
      LookupAssign(ms[1..], key, v);
      assert Assign(ms, key, v)[1..] == Assign(ms[1..], key, v);
    }
  }

  /** Assigning one member leaves every other member as it was. */
  lemma {:induction false} LookupAssignOther(ms: seq<(string, Json)>, key: string, v: Json, other: string)
    requires other != key
    ensures Lookup(Assign(ms, key, v), other) == Lookup(ms, other)
  {
    if ms != [] && ms[0].0 != key {
      LookupAssignOther(ms[1..], key, v, other);
      assert Assign(ms, key, v)[1..] == Assign(ms[1..], key, v);
    } else if ms != [] {
      assert Assign(ms, key, v)[1..] == ms[1..];
    }
  }

  lemma GetPut(j: Json, key: string, v: Json)
    requires j.JObj?
    ensures Get(Put(j, key, v), key) == Some(v)
  {
    LookupAssign(j.members, key, v);
  }

  lemma GetPutOther(j: Json, key: string, v: Json, other: string)
    requires j.JObj? && other != key
    ensures Get(Put(j, key, v), other) == Get(j, other)
  {
    LookupAssignOther(j.members, key, v, other);
  }

  /** The result of a JavaScript property read. */
  datatype Access = Val(v: Json) | Undefined | Thrown

  /**
   * `a.key`: reading from `null` or `undefined` throws a TypeError; reading a
   * missing member, or any member of a number, string, boolean or array
   * (none of the keys the gateway reads is an inherited property), gives
   * `undefined`.
   */
  function Prop(a: Access, key: string): (r: Access)
    ensures r.Thrown? <==> a.Thrown? || a.Undefined? || a == Val(JNull)
    ensures a.Val? && a.v.JObj? ==> (r.Val? <==> Get(a.v, key).Some?)
    ensures r.Val? ==> a.Val? && a.v.JObj? && Get(a.v, key) == Some(r.v)
  {
    match a
    case Thrown => Thrown
    case Undefined => Thrown
    case Val(j) =>
      if j.JNull? then Thrown
      else match Get(j, key)
        case Some(x) => Val(x)
        case None => Undefined
  }

  /** `a.k1.k2...`, stopping at the first TypeError. */
  function Path(a: Access, keys: seq<string>): (r: Access)
    ensures a.Thrown? ==> r.Thrown?
    decreases keys
  {
    if keys == [] then a else Path(Prop(a, keys[0]), keys[1..])
  }

  /** JavaScript truthiness (`false`, `0`, `""`, `null`, `undefined` are falsy). */
  predicate Truthy(a: Access)
  {
    match a
    case Val(j) => (
      match j
      case JNull => false
      case JBool(b) => b
      case JNum(n) => n != 0
      case JStr(s) => s != ""
      case JArr(_) => true
      case JObj(_) => true)
    case Undefined => false
    case Thrown => false
  }

  /** `undefined` becomes `None`, a value becomes `Some`. */
  function ValueOf(a: Access): Option<Json>
  {
    if a.Val? then Some(a.v) else None
  }

  function DigitChar(d: nat): char
    requires d < 10
  {
    "0123456789"[d]
  }

  /** The decimal spelling of a natural number. */
  function NatToString(n: nat): (r: string)
    ensures |r| > 0
    decreases n
  {
    if n < 10 then [DigitChar(n)] else NatToString(n / 10) + [DigitChar(n % 10)]
  }

  /** `String(n)` for an integer-valued number. */
  function IntToString(n: int): string
  {
    if n < 0 then "-" + NatToString(-n) else NatToString(n)
  }

  /** `String(j)`: arrays are joined with commas, objects print as `[object Object]`. */
  function JsonToString(j: Json): string
    decreases j, 1
  {
    match j
    case JNull => "null"
    case JBool(b) => if b then "true" else "false"
    case JNum(n) => IntToString(n)
    case JStr(s) => s
    case JArr(items) => JoinItems(j, items)
    case JObj(_) => "[object Object]"
  }

  /** `Array.prototype.join(",")`, where a `null` element prints as the empty string. */
  function JoinItems(parent: Json, items: seq<Json>): string
    requires forall i :: 0 <= i < |items| ==> items[i] < parent
    decreases parent, 0, |items|
  {
    if items == [] then ""
    else
      var head := if items[0].JNull? then "" else JsonToString(items[0]);
      if |items| == 1 then head else head + "," + JoinItems(parent, items[1..])
  }

  /** `String(a)`, so `undefined` prints as "undefined". */
  function ToJsString(a: Access): string
  {
    match a
    case Val(j) => JsonToString(j)
    case Undefined => "undefined"
    case Thrown => ""
  }
}
