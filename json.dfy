/**
 * Decoded JSON values, as `json.load` hands them to the visualizer, and the
 * few Python operations the visualizer applies to them: truthiness (`not v`),
 * `dict.get`, iteration over a dict's keys and hashability (`v in columns`).
 */
module Json {
  import opened Wrappers

  /** A decoded JSON value. Numbers are integers; an object keeps its members in document order. */
  datatype JValue =
    | JNull
    | JBool(b: bool)
    | JNum(n: int)
    | JStr(s: string)
    | JArray(items: seq<JValue>)
    | JObject(members: seq<Member>)

  datatype Member = Member(key: string, value: JValue)

  /** Python truthiness: `not v` is false exactly when `Truthy(v)`. */
  predicate Truthy(v: JValue) {
    match v
    case JNull => false
    case JBool(b) => b
    case JNum(n) => n != 0
    case JStr(s) => s != ""
    case JArray(items) => items != []
    case JObject(members) => members != []
  }

  /** Lists and dicts are unhashable: testing them for membership in a column index raises `TypeError`. */
  predicate Hashable(v: JValue) {
    !v.JArray? && !v.JObject?
  }

  /** `d.get(key)`: the decoder keeps the last of duplicate keys, so the last member named `key` wins. */
  function Get(members: seq<Member>, key: string): (r: Option<JValue>)
    ensures r.None? <==> forall i :: 0 <= i < |members| ==> members[i].key != key
    ensures r.Some? ==> Member(key, r.value) in members
  {
    if members == [] then None
    else if members[|members| - 1].key == key then Some(members[|members| - 1].value)
    else Get(members[..|members| - 1], key)
  }

  /** A later member overrides an earlier one of the same key and leaves the other keys alone. */
  lemma GetLastWins(members: seq<Member>, m: Member, key: string)
    ensures Get(members + [m], key) == if m.key == key then Some(m.value) else Get(members, key)
  {
    assert (members + [m])[..|members|] == members;
  }

  /** Members with other keys, wherever they stand after the last `key`, do not change what `get` returns. */
  lemma {:induction false} GetIgnoresOtherKeys(a: seq<Member>, b: seq<Member>, key: string)
    requires forall i :: 0 <= i < |b| ==> b[i].key != key
    ensures Get(a + b, key) == Get(a, key)
  {
    if b == [] {
      assert a + b == a;
    } else {
      var init := b[..|b| - 1];
      assert a + b == (a + init) + [b[|b| - 1]];
      GetLastWins(a + init, b[|b| - 1], key);
      GetIgnoresOtherKeys(a, init, key);
    }
  }

  /** A key is present with a truthy value: the `not config.get(key)` guard lets it through. */
  predicate Present(v: Option<JValue>) {
    v.Some? && Truthy(v.value)
  }

  /** The keys a dict yields when iterated: each distinct key once, in order of first appearance. */
  function Keys(members: seq<Member>): (r: seq<string>)
    ensures forall k :: k in r <==> exists i :: 0 <= i < |members| && members[i].key == k
    ensures forall i, j :: 0 <= i < j < |r| ==> r[i] != r[j]
  {
    if members == [] then []
    else
      var init := Keys(members[..|members| - 1]);
      var k := members[|members| - 1].key;
      if k in init then init else init + [k]
  }

  /** Keys come in order of first appearance: a new member adds its key last, a repeated key adds nothing. */
  lemma KeysSnoc(members: seq<Member>, m: Member)
    ensures Keys(members + [m]) == if m.key in Keys(members) then Keys(members) else Keys(members) + [m.key]
  {
    assert (members + [m])[..|members|] == members;
  }
}
