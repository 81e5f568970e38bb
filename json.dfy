/** JSON documents as the loader sees them after `json.loads`: objects keep their member order. */
module Json {
  import opened Wrappers

  datatype Json =
    | JObject(members: seq<Member>)
    | JArray(items: seq<Json>)
    | JString(str: string)
    | JInt(num: int)
    | JFloat(text: string)
    | JBool(b: bool)

  datatype Member = Member(key: string, val: Json)

  function Size(j: Json): (n: nat)
    ensures n >= 1
  {
    match j
    case JObject(ms) => 1 + MembersSize(ms)
    case JArray(items) => 1 + ItemsSize(items)
    case _ => 1
  }

  function MembersSize(ms: seq<Member>): nat {
    if ms == [] then 0 else MembersSize(ms[..|ms| - 1]) + Size(ms[|ms| - 1].val)
  }

  function ItemsSize(items: seq<Json>): nat {
    if items == [] then 0 else ItemsSize(items[..|items| - 1]) + Size(items[|items| - 1])
  }

  lemma {:induction false} MemberSmaller(ms: seq<Member>, i: nat)
    requires i < |ms|
    ensures Size(ms[i].val) <= MembersSize(ms)
    decreases |ms|
  {
    if i < |ms| - 1 {
      assert ms[..|ms| - 1][i] == ms[i];
      MemberSmaller(ms[..|ms| - 1], i);
    }
  }

  lemma {:induction false} ItemSmaller(items: seq<Json>, i: nat)
    requires i < |items|
    ensures Size(items[i]) <= ItemsSize(items)
    decreases |items|
  {
    if i < |items| - 1 {
      assert items[..|items| - 1][i] == items[i];
      ItemSmaller(items[..|items| - 1], i);
    }
  }

  /** `items[i]`, with the size fact that recursion over a list needs. */
  function ItemAt(items: seq<Json>, i: nat): (r: Json)
    requires i < |items|
    ensures r == items[i] && Size(r) < Size(JArray(items))
  {
    ItemSmaller(items, i);
    items[i]
  }

  /**
   * Python truthiness of a loaded value: an empty object, list or string, a zero number and
   * `false` are falsy; everything else is truthy.
   */
  predicate JsonTruthy(j: Json) {
    match j
    case JObject(ms) => ms != []
    case JArray(items) => items != []
    case JString(s) => s != ""
    case JInt(n) => n != 0
    case JFloat(text) => !ZeroMantissa(text)
    case JBool(b) => b
  }

  /** A float's text denotes zero when no digit before its exponent is non-zero. */
  predicate ZeroMantissa(text: string) {
    text == [] || text[0] in "eE" || (text[0] !in "123456789" && ZeroMantissa(text[1..]))
  }

  /** `key in obj` for a JSON object; any other value has no keys. */
  predicate Has(j: Json, key: string) {
    j.JObject? && exists i :: 0 <= i < |j.members| && j.members[i].key == key
  }

  /** Index of the last member named `key`: a repeated key keeps its last value, as `json.loads` does. */
  function LastMember(ms: seq<Member>, key: string): (r: Option<nat>)
    ensures r.None? <==> forall i :: 0 <= i < |ms| ==> ms[i].key != key
    ensures r.Some? ==> r.value < |ms| && ms[r.value].key == key
    ensures r.Some? ==> forall i :: r.value < i < |ms| ==> ms[i].key != key
  {
    if ms == [] then None
    else if ms[|ms| - 1].key == key then Some(|ms| - 1)
    else
      var r := LastMember(ms[..|ms| - 1], key);
      assert forall i :: 0 <= i < |ms| - 1 ==> ms[..|ms| - 1][i] == ms[i];
      r
  }

  /** `obj[key]`: the value bound to `key`, or None when `obj` is not an object holding it. */
  function Get(j: Json, key: string): (r: Option<Json>)
    ensures r.Some? <==> Has(j, key)
    ensures r.Some? ==> Size(r.value) < Size(j)
  {
    if !j.JObject? then None
    else match LastMember(j.members, key)
      case None => None
      case Some(i) =>
        MemberSmaller(j.members, i);
        Some(j.members[i].val)
  }

  /** The string bound to `key`, when there is one. */
  function GetString(j: Json, key: string): (r: Option<string>)
    ensures r.Some? <==> Get(j, key).Some? && Get(j, key).value.JString?
    ensures r.Some? ==> Get(j, key).value == JString(r.value)
  {
    match Get(j, key)
    case Some(JString(s)) => Some(s)
    case _ => None
  }

  /** The member names of an object in document order (empty for any other value). */
  function Keys(j: Json): (ks: seq<string>)
    ensures j.JObject? ==> |ks| == |j.members|
    ensures forall i :: 0 <= i < |ks| ==> Has(j, ks[i])
  {
    if j.JObject? then
      seq(|j.members|, i requires 0 <= i < |j.members| => j.members[i].key)
    else []
  }

  /** An object with one more member `key`; used where the loader writes `root.id`. */
  function With(j: Json, key: string, v: Json): (r: Json)
    requires j.JObject?
    ensures Get(r, key) == Some(v)
    ensures forall k :: k != key ==> Get(r, k) == Get(j, k)
  {
    var r := JObject(j.members + [Member(key, v)]);
    assert r.members[|r.members| - 1].key == key;
    forall k | k != key ensures Get(r, k) == Get(j, k) {
      assert r.members[..|j.members|] == j.members;
    }
    r
  }

  /** One more member adds its value's size. */
  lemma WithSize(j: Json, key: string, v: Json)
    requires j.JObject?
    ensures Size(With(j, key, v)) == Size(j) + Size(v)
  {
    var ms := j.members + [Member(key, v)];
    assert ms[..|ms| - 1] == j.members;
  }
}
