/** JSON values as the JavaScript runtime holds them after `JSON.parse` / `res.json()`. */
module Json {
  import opened Wrappers

  /**
   * An object is the list of its members as the source text gives them. How a serialiser orders
   * them and which of two equal keys it keeps is up to the serialiser (see `Find` for property
   * access).
   */
  datatype Json =
    | JNull
    | JBool(b: bool)
    | JNum(n: real)
    | JStr(s: string)
    | JArr(items: seq<Json>)
    | JObj(members: seq<(string, Json)>)

  /** Why reading a property failed: JavaScript throws a TypeError on `null[key]`. */
  datatype PropertyError = NullHasNoProperties

  /** The value of the last member named `key` (a later duplicate key overwrites an earlier one in `JSON.parse`). */
  function Find(members: seq<(string, Json)>, key: string): (r: Option<Json>)
    ensures r.Some? <==> exists i :: 0 <= i < |members| && members[i].0 == key
    ensures r.Some? ==> exists i :: 0 <= i < |members| && members[i] == (key, r.value)
  {
    if members == [] then None
    else if members[|members| - 1].0 == key then Some(members[|members| - 1].1)
    else Find(members[..|members| - 1], key)
  }

  /** The value found is that of the LAST member with the key: no later member has it. */
  lemma {:induction false} FindIsLastMatch(members: seq<(string, Json)>, key: string)
    requires Find(members, key).Some?
    ensures exists i :: && 0 <= i < |members| && members[i] == (key, Find(members, key).value)
                        && forall j :: i < j < |members| ==> members[j].0 != key
  {
    var n := |members| - 1;
    if members[n].0 == key {
      assert members[n] == (key, Find(members, key).value);
    } else {
      var prefix := members[..n];
      FindIsLastMatch(prefix, key);
      var i :| && 0 <= i < |prefix| && prefix[i] == (key, Find(prefix, key).value)
               && forall j :: i < j < |prefix| ==> prefix[j].0 != key;
      assert members[i] == (key, Find(members, key).value);
      assert forall j :: i < j < |members| ==> members[j].0 != key by {
        forall j | i < j < |members| ensures members[j].0 != key {
          if j < n {
            assert members[j] == prefix[j];
          }
        }
      }
    }
  }

  /** Of two members with one key, the later one is read. */
  lemma DuplicateKeyLastWins(key: string)
    ensures Find([(key, JNull), (key, JBool(true))], key) == Some(JBool(true))
  {
  }

  /**
   * JavaScript property access `value[key]` on a parsed JSON value, for an own data key such as
   * `conversation_id`, `message` or `id`: None stands for `undefined`. Only objects have such
   * members; other non-null values yield `undefined`. Built-in and inherited properties
   * (`length`, the `Object.prototype` names) are not modelled; no key the program reads is one.
   */
  function Get(value: Json, key: string): (r: Result<Option<Json>, PropertyError>)
    ensures r.Failure? <==> value == JNull
    ensures value.JObj? ==> r == Success(Find(value.members, key))
    ensures !value.JObj? && value != JNull ==> r == Success(None)
  {
    match value
    case JNull => Failure(NullHasNoProperties)
    case JObj(members) => Success(Find(members, key))
    case _ => Success(None)
  }
}
