/**
 * The few pieces of JavaScript semantics the client's decision logic relies on:
 * values produced by JSON.parse, truthiness (for `a || b`), reading a property
 * of a decoded value (which throws on null), and String.prototype.includes.
 */
module JsValues {
  import opened Wrappers

  /** A value produced by JSON.parse. JSON numbers are modelled as reals. */
  datatype Json =
    | JNull
    | JBool(b: bool)
    | JNumber(n: real)
    | JString(s: string)
    | JArray(items: seq<Json>)
    | JObject(fields: map<string, Json>)

  /** The two values a property read throws on. */
  datatype Nullish = Null | Undefined

  /** The TypeError a property read on null or undefined throws. */
  datatype TypeError = CannotReadProperty(receiver: Nullish, property: string)

  /** The message V8 gives such a TypeError. */
  function TypeErrorMessage(t: TypeError): string {
    "Cannot read properties of " + (if t.receiver == Null then "null" else "undefined")
    + " (reading '" + t.property + "')"
  }

  /** JavaScript truthiness of a property value; None stands for `undefined`. */
  predicate Truthy(v: Option<Json>) {
    match v
    case None => false
    case Some(JNull) => false
    case Some(JBool(b)) => b
    case Some(JNumber(n)) => n != 0.0
    case Some(JString(s)) => s != ""
    case Some(JArray(_)) => true
    case Some(JObject(_)) => true
  }

  /** `a || b`: the left operand when it is truthy, the right one otherwise. */
  function Or(a: Option<Json>, b: Json): (r: Json)
    ensures Truthy(a) ==> Some(r) == a
    ensures !Truthy(a) ==> r == b
  {
    if Truthy(a) then a.value else b
  }

  /**
   * `v[key]`, for a key no JSON value inherits (such as `message`), on a
   * decoded JSON value: the member of an object, `undefined` for a missing
   * member and for every other kind of value, a TypeError on null. Inherited
   * names such as `length` or `toString` are not modelled.
   */
  function GetProperty(v: Json, key: string): (r: Result<Option<Json>, TypeError>)
    ensures r.Failure? <==> v == JNull
    ensures r.Failure? ==> r.error == CannotReadProperty(Null, key)
    ensures r.Success? && r.value.Some? ==> v.JObject? && key in v.fields && r.value.value == v.fields[key]
    ensures v.JObject? && key in v.fields ==> r == Success(Some(v.fields[key]))
  {
    match v
    case JNull => Failure(CannotReadProperty(Null, key))
    case JObject(fields) => if key in fields then Success(Some(fields[key])) else Success(None)
    case _ => Success(None)
  }

  /** `sub` occurs in `s` starting at index `i`. */
  ghost predicate OccursAt(sub: string, s: string, i: int) {
    0 <= i && i + |sub| <= |s| && s[i..i + |sub|] == sub
  }

  /** `s.includes(sub)`: whether `sub` is a (case-sensitive) substring of `s`. */
  function Includes(s: string, sub: string): bool
    decreases |s|
  {
    if |sub| > |s| then false
    else if s[..|sub|] == sub then true
    else Includes(s[1..], sub)
  }

  lemma OccursAtShift(sub: string, s: string, j: int)
    requires |s| > 0 && 0 <= j
    ensures OccursAt(sub, s[1..], j) <==> OccursAt(sub, s, j + 1)
  {
    if 0 <= j && j + |sub| <= |s| - 1 {
      assert s[1..][j..j + |sub|] == s[j + 1..j + 1 + |sub|];
    }
  }

  /** Includes agrees with the definition of a substring occurrence, in both directions. */
  lemma {:induction false} IncludesIffOccurs(s: string, sub: string)
    ensures Includes(s, sub) <==> exists i :: OccursAt(sub, s, i)
    decreases |s|
  {
    if |sub| > |s| {
      assert forall i :: !OccursAt(sub, s, i);
    } else if s[..|sub|] == sub {
      assert OccursAt(sub, s, 0);
    } else {
      assert |s| > 0;
      IncludesIffOccurs(s[1..], sub);
      assert !OccursAt(sub, s, 0);
      if Includes(s, sub) {
        var j :| OccursAt(sub, s[1..], j);
        OccursAtShift(sub, s, j);
      } else {
        forall i | OccursAt(sub, s, i) ensures false {
          OccursAtShift(sub, s, i - 1);
        }
      }
    }
  }

  /** A string without the first character of `sub` cannot include `sub`. */
  lemma NotIncludesWithoutFirstChar(s: string, sub: string)
    requires |sub| > 0 && sub[0] !in s
    ensures !Includes(s, sub)
  {
    IncludesIffOccurs(s, sub);
    forall i ensures !OccursAt(sub, s, i) {
      if 0 <= i && i + |sub| <= |s| {
        assert s[i..i + |sub|][0] == s[i];
      }
    }
  }
}
