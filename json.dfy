/** The hjson values a channel topic parses to, and the typed getters of
    `JsonObject` (`getString`, `getInt`, `get`) the bot calls on them. */
module Json {

  import opened Wrappers

  datatype JsonValue =
    | JNull
    | JBool(b: bool)
    | JInt(n: int)
    | JString(s: string)
    | JArray(items: seq<JsonValue>)
    | JObject(members: seq<Member>)

  /** One `name: value` member of an object, in source order. */
  datatype Member = Member(name: string, value: JsonValue)

  /** A parsed configuration object, keyed by member name. */
  type Config = map<string, JsonValue>

  /** The exception an `asString`/`asInt`/`asArray` or cast throws on a member of the wrong kind. */
  datatype AccessError = WrongKind(key: string, expected: string)

  /** `JsonObject.get`: with repeated names the last member wins. */
  function ToConfig(ms: seq<Member>): (c: Config)
    ensures forall k :: k in c <==> exists i :: 0 <= i < |ms| && ms[i].name == k
    ensures |ms| > 0 ==> c[ms[|ms| - 1].name] == ms[|ms| - 1].value
  {
    if |ms| == 0 then map[]
    else
      var init := ToConfig(ms[..|ms| - 1]);
      assert forall i :: 0 <= i < |ms| - 1 ==> ms[..|ms| - 1][i] == ms[i];
      init[ms[|ms| - 1].name := ms[|ms| - 1].value]
  }

  /** No later member repeats the name of member `i`. */
  predicate LastWithName(ms: seq<Member>, i: int)
    requires 0 <= i < |ms|
  {
    forall j :: i < j < |ms| ==> ms[j].name != ms[i].name
  }

  /** Every key holds the value of the last member with that name. */
  lemma {:induction false} ToConfigLastWins(ms: seq<Member>, i: int)
    requires 0 <= i < |ms| && LastWithName(ms, i)
    ensures ms[i].name in ToConfig(ms) && ToConfig(ms)[ms[i].name] == ms[i].value
  {
    var n := |ms| - 1;
    if i < n {
      var front := ms[..n];
      assert front[i] == ms[i];
      forall j | i < j < |front|
        ensures front[j].name != front[i].name
      {
        assert front[j] == ms[j];
      }
      ToConfigLastWins(front, i);
      assert ms[n].name != ms[i].name;
    }
  }

  /** `config.getString(key, default)`: the default when absent, the text of a
      string member, an exception for any other member. */
  function GetString(c: Config, key: string, default: string): (r: Result<string, AccessError>)
    ensures key !in c ==> r == Ok(default)
    ensures key in c ==> (r.Ok? <==> c[key].JString?)
    ensures key in c && r.Ok? ==> r.value == c[key].s
  {
    if key !in c then Ok(default)
    else match c[key]
      case JString(s) => Ok(s)
      case _ => Err(WrongKind(key, "string"))
  }

  /** `config.getInt(key, default)`, for integral numbers. */
  function GetInt(c: Config, key: string, default: int): (r: Result<int, AccessError>)
    ensures key !in c ==> r == Ok(default)
    ensures key in c ==> (r.Ok? <==> c[key].JInt?)
    ensures key in c && r.Ok? ==> r.value == c[key].n
  {
    if key !in c then Ok(default)
    else match c[key]
      case JInt(n) => Ok(n)
      case _ => Err(WrongKind(key, "number"))
  }
}
