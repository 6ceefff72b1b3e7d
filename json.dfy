/**
 * The value `json.loads` produces, kept abstract: the model never parses or
 * prints JSON text, it only inspects decoded values the way the harness does.
 */
module Json {
  import opened Wrappers

  /** A decoded JSON value; an object keeps its members in document order. */
  datatype Json =
    | JNull
    | JBool(b: bool)
    | JInt(i: int)
    | JFloat(f: real)
    | JString(s: string)
    | JArray(items: seq<Json>)
    | JObject(members: seq<(string, Json)>)

  /** The member names of an object, in order. */
  function Keys(members: seq<(string, Json)>): (ks: seq<string>)
    ensures |ks| == |members|
    ensures forall i :: 0 <= i < |members| ==> ks[i] == members[i].0
  {
    if members == [] then [] else Keys(members[..|members| - 1]) + [members[|members| - 1].0]
  }

  /**
   * `d.get(key)` on the dict `json.loads` builds from an object: when a name
   * occurs more than once, the last occurrence wins.
   */
  function Get(members: seq<(string, Json)>, key: string): (r: Option<Json>)
    ensures r.Some? ==> (key, r.value) in members
  {
    if members == [] then None
    else if members[|members| - 1].0 == key then Some(members[|members| - 1].1)
    else
      Get(members[..|members| - 1], key)
  }

  /**
   * `Get` finds nothing exactly when no member carries the name, and what it
   * finds is the value of the last member that does.
   */
  lemma {:induction false} GetSpec(members: seq<(string, Json)>, key: string)
    ensures Get(members, key).None? <==> forall i :: 0 <= i < |members| ==> members[i].0 != key
    ensures Get(members, key).Some? ==>
              exists i :: 0 <= i < |members| && members[i] == (key, Get(members, key).value)
                          && forall j :: i < j < |members| ==> members[j].0 != key
    decreases |members|
  {
    if members != [] {
      var n := |members| - 1;
      var init := members[..n];
      if members[n].0 != key {
        GetSpec(init, key);
        if Get(init, key).Some? {
          var i :| 0 <= i < |init| && init[i] == (key, Get(init, key).value)
                   && forall j :: i < j < |init| ==> init[j].0 != key;
          assert members[i] == init[i];
        }
      }
    }
  }
}
