/** JavaScript values as the studio sees them after `JSON.parse`, and the few
    JavaScript operations the studio applies to them: property reads (with
    and without optional chaining), the `in` operator, truthiness, `||`, and
    property assignment on an object. */
module Js {

  datatype Option<+T> = None | Some(value: T)

  /** The outcome of an expression that may throw. */
  datatype Result<+T> = Ok(value: T) | Throw(message: string)

  /** A parsed JSON value. Numbers are integers; objects keep their members
      in insertion order, which is the order `Object.keys` reports. The type
      admits an object with two members of the same name, which `JSON.parse`
      never produces (a later duplicate replaces the earlier one); on such a
      value `Lookup` and `Put` act on the first member of the name. The
      object literals the studio builds are shown to have distinct names
      (`DistinctNames`). */
  datatype Json =
    | JNull
    | JBool(b: bool)
    | JInt(n: int)
    | JStr(s: string)
    | JArr(items: seq<Json>)
    | JObj(members: seq<(string, Json)>)

  /** A JavaScript value read out of a JSON tree: `None` is `undefined`. */
  type Value = Option<Json>

  /** The JavaScript `null`, as a value read out of a tree. */
  const Null: Value := Some(JNull)

  /** Stand-in for the engine-specific text of a TypeError. */
  const TypeErrorMessage := "TypeError"

  /** `Object.keys` of an object's members. */
  function Keys(members: seq<(string, Json)>): (ks: seq<string>)
    ensures |ks| == |members|
    ensures forall i :: 0 <= i < |members| ==> ks[i] == members[i].0
  {
    seq(|members|, i requires 0 <= i < |members| => members[i].0)
  }

  /** The value of the first member named `k`, or `undefined`. */
  function Lookup(members: seq<(string, Json)>, k: string): (r: Value)
    ensures r.Some? <==> k in Keys(members)
  {
    if |members| == 0 then None
    else if members[0].0 == k then Some(members[0].1)
    else Lookup(members[1..], k)
  }

  /** Whether `k in j` throws: the `in` operator rejects primitives. */
  predicate InRejects(j: Json) {
    !(j.JObj? || j.JArr?)
  }

  /** `k in j` for an object or an array. None of the property names the
      studio tests is an array index or `length`, so an array has none. */
  predicate HasKey(j: Json, k: string) {
    j.JObj? && k in Keys(j.members)
  }

  /** `j.k` where `j` is neither `null` nor `undefined`: only objects carry
      the property names the studio reads. */
  function Field(j: Json, k: string): Value {
    if j.JObj? then Lookup(j.members, k) else None
  }

  /** `v.k`: reading a property of `undefined` or `null` throws. */
  function Get(v: Value, k: string): (r: Result<Value>)
    ensures r.Throw? <==> v.None? || v == Null
  {
    if v.None? || v == Null then Throw(TypeErrorMessage) else Ok(Field(v.value, k))
  }

  /** `v?.k`: optional chaining gives `undefined` on `undefined` or `null`. */
  function OptGet(v: Value, k: string): Value {
    if v.None? || v == Null then None else Field(v.value, k)
  }

  /** `Array.isArray(v)`. */
  predicate IsArray(v: Value) {
    v.Some? && v.value.JArr?
  }

  /** `j.length` where `j` is neither `null` nor `undefined`: the element
      count of an array, the code-point count of a string, an object's own
      `length` member, and `undefined` for numbers and booleans. */
  function LengthOf(j: Json): (r: Value)
    ensures j.JArr? ==> r == Some(JInt(|j.items|))
    ensures j.JStr? ==> r == Some(JInt(|j.s|))
  {
    match j
    case JArr(items) => Some(JInt(|items|))
    case JStr(s) => Some(JInt(|s|))
    case JObj(_) => Field(j, "length")
    case _ => None
  }

  /** JavaScript truthiness; `undefined`, `null`, `false`, `0` and `""` are falsy. */
  predicate Truthy(v: Value) {
    match v
    case None => false
    case Some(j) =>
      match j
      case JNull => false
      case JBool(b) => b
      case JInt(n) => n != 0
      case JStr(s) => s != ""
      case _ => true
  }

  /** `a || b`: the first operand when it is truthy, else the second. */
  function Or(a: Value, b: Value): (r: Value)
    ensures Truthy(a) ==> r == a
    ensures !Truthy(a) ==> r == b
  {
    if Truthy(a) then a else b
  }

  /** `obj[k] = v`: the first member named `k` is replaced where it stands;
      otherwise a new member is appended. */
  function Put(members: seq<(string, Json)>, k: string, v: Json): (r: seq<(string, Json)>)
    ensures Lookup(r, k) == Some(v)
    ensures k in Keys(members) ==> Keys(r) == Keys(members)
    ensures k !in Keys(members) ==> Keys(r) == Keys(members) + [k]
  {
    if |members| == 0 then [(k, v)]
    else if members[0].0 == k then
      PutHead(members, k, v);
      [(k, v)] + members[1..]
    else
      var tail := Put(members[1..], k, v);
      PutCons(members, tail, k, v);
      [members[0]] + tail
  }

  /** Replacing the first member keeps the keys and reads back the new value. */
  lemma PutHead(members: seq<(string, Json)>, k: string, v: Json)
    requires |members| > 0 && members[0].0 == k
    ensures Lookup([(k, v)] + members[1..], k) == Some(v)
    ensures k in Keys(members) && Keys([(k, v)] + members[1..]) == Keys(members)
  {
    assert Keys(members)[0] == k;
  }

  /** Putting into the members after the first, when the first has another
      name, is putting into the whole. */
  lemma PutCons(members: seq<(string, Json)>, tail: seq<(string, Json)>, k: string, v: Json)
    requires |members| > 0 && members[0].0 != k
    requires Lookup(tail, k) == Some(v)
    requires k in Keys(members[1..]) ==> Keys(tail) == Keys(members[1..])
    requires k !in Keys(members[1..]) ==> Keys(tail) == Keys(members[1..]) + [k]
    ensures Lookup([members[0]] + tail, k) == Some(v)
    ensures k in Keys(members) ==> Keys([members[0]] + tail) == Keys(members)
    ensures k !in Keys(members) ==> Keys([members[0]] + tail) == Keys(members) + [k]
  {
    var c := [members[0]] + tail;
    assert c[0] == members[0] && c[1..] == tail;
    assert Lookup(c, k) == Lookup(tail, k);
    var h := members[0].0;
    var rest := Keys(members[1..]);
    assert members == [members[0]] + members[1..];
    KeysCons(members[0], members[1..]);
    KeysCons(members[0], tail);
    assert k in Keys(members) <==> k in rest;
    if k !in rest {
      assert [h] + (rest + [k]) == ([h] + rest) + [k];
    }
  }

  lemma KeysCons(m: (string, Json), rest: seq<(string, Json)>)
    ensures Keys([m] + rest) == [m.0] + Keys(rest)
  {
  }

  /** Assigning `obj[k]` leaves every other property as it was. */
  lemma {:induction false} PutOther(members: seq<(string, Json)>, k: string, v: Json, k': string)
    requires k' != k
    ensures Lookup(Put(members, k, v), k') == Lookup(members, k')
  {
    if members != [] && members[0].0 != k {
      PutOther(members[1..], k, v, k');
    }
  }

  /** Assigning the same property twice is assigning it once. */
  lemma {:induction false} PutTwice(members: seq<(string, Json)>, k: string, v: Json)
    ensures Put(Put(members, k, v), k, v) == Put(members, k, v)
  {
    if members != [] && members[0].0 != k {
      PutTwice(members[1..], k, v);
    }
  }

  /** Assigning a property the value it already has changes nothing. */
  lemma {:induction false} PutSame(members: seq<(string, Json)>, k: string, v: Json)
    requires Lookup(members, k) == Some(v)
    ensures Put(members, k, v) == members
  {
    if members[0].0 != k {
      PutSame(members[1..], k, v);
    }
  }

  /** The members of an object literal `{k1: v1, k2: v2, ...}`; a member
      whose value is `undefined` reads back as `undefined` and is dropped
      by every JSON copy, so it is left out here. */
  function LiteralMembers(ms: seq<(string, Value)>): seq<(string, Json)> {
    if |ms| == 0 then []
    else (if ms[0].1.Some? then [(ms[0].0, ms[0].1.value)] else []) + LiteralMembers(ms[1..])
  }

  function Literal(ms: seq<(string, Value)>): Json {
    JObj(LiteralMembers(ms))
  }

  predicate DistinctNames(ms: seq<(string, Value)>) {
    forall i, j :: 0 <= i < j < |ms| ==> ms[i].0 != ms[j].0
  }

  /** Reading property `ms[i].0` of a literal with distinct names gives `ms[i].1`. */
  lemma {:induction false} LiteralField(ms: seq<(string, Value)>, i: nat)
    requires DistinctNames(ms) && i < |ms|
    ensures Field(Literal(ms), ms[i].0) == ms[i].1
  {
    var rest := LiteralMembers(ms[1..]);
    if i == 0 {
      if ms[0].1.None? {
        LiteralAbsent(ms[1..], ms[0].0);
      }
    } else {
      assert DistinctNames(ms[1..]) by {
        forall a, b | 0 <= a < b < |ms[1..]| ensures ms[1..][a].0 != ms[1..][b].0 {
          assert ms[1..][a] == ms[a + 1] && ms[1..][b] == ms[b + 1];
        }
      }
      LiteralField(ms[1..], i - 1);
      assert ms[1..][i - 1] == ms[i];
      LookupSkip(if ms[0].1.Some? then [(ms[0].0, ms[0].1.value)] else [], rest, ms[i].0);
    }
  }

  lemma {:induction false} LiteralAbsent(ms: seq<(string, Value)>, k: string)
    requires forall j :: 0 <= j < |ms| ==> ms[j].0 != k
    ensures Lookup(LiteralMembers(ms), k) == None
  {
    if ms != [] {
      LiteralAbsent(ms[1..], k);
      LookupSkip(if ms[0].1.Some? then [(ms[0].0, ms[0].1.value)] else [], LiteralMembers(ms[1..]), k);
    }
  }

  /** A lookup passes over members that do not carry the key. */
  lemma {:induction false} LookupSkip(a: seq<(string, Json)>, b: seq<(string, Json)>, k: string)
    requires k !in Keys(a)
    ensures Lookup(a + b, k) == Lookup(b, k)
  {
    if a != [] {
      var ab := a + b;
      assert ab[0] == a[0] && ab[1..] == a[1..] + b;
      assert Keys(a)[0] == a[0].0;
      assert k !in Keys(a[1..]) by {
        assert Keys(a) == [a[0].0] + Keys(a[1..]);
      }
      LookupSkip(a[1..], b, k);
      assert Lookup(ab, k) == Lookup(ab[1..], k);
    } else {
      assert a + b == b;
    }
  }
}
