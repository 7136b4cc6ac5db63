/** What the chat transport and the script engines hand to the core: channels
    with their topic and history, the values scripts return, and the shape of
    one script evaluation (an oracle the model does not look inside). */
module Transport {

  import opened Wrappers
  import opened Json
  import opened Engines

  /** The Java types the result dispatch tests with `instanceof`. */
  datatype Kind =
    | RestAction
    | Text          // java.lang.String
    | Message
    | MessageEmbed
    | MessageBuilder
    | EmbedBuilder
    | Throwable

  /** A Java value: `null`, an object with the set of dispatch types it is an
      instance of and its `toString()`, or a method hook bound by the executor. */
  datatype Value =
    | Null
    | Obj(kinds: set<Kind>, text: string)
    | MethodHandle(methodName: string)

  function Str(s: string): Value {
    Obj({Text}, s)
  }

  /** `String.valueOf(v)` for a non-null value. */
  function ToString(v: Value): string {
    match v
    case Null => "null"
    case Obj(_, t) => t
    case MethodHandle(m) => m
  }

  /** A text channel as the transport reports it. `topicJson` is what hjson
      parses the topic into (None when parsing throws); `history` is the
      channel's messages, newest first, as far as a fetch returns them (None
      when the fetch fails). */
  datatype Channel = Channel(
    guildId: int,
    name: string,
    topic: Option<string>,
    topicJson: Option<JsonValue>,
    history: Option<seq<string>>)

  /** The amounts `retrievePast` accepts: JDA throws an
      `IllegalArgumentException` at the call for any other amount. */
  predicate RetrievableAmount(n: int) {
    1 <= n <= 100
  }

  /** `retrievePast(n)`: the newest n messages, newest first. */
  function RetrievePast(history: seq<string>, n: int): (r: seq<string>)
    requires RetrievableAmount(n)
    ensures |r| <= |history| && r == history[..|r|]
    ensures n <= |history| ==> |r| == n
    ensures n > |history| ==> r == history
  {
    if n >= |history| then history else history[..n]
  }

  /** How one evaluation ended: a value, an exception thrown by the script, or
      the bounded wait giving up. */
  datatype EvalOutcome =
    | Returned(value: Value)
    | Failed(cause: Value)
    | TimedOut
    | Interrupted

  /** One evaluation handed to an engine: the engine, the text, the bindings
      it sees and the bound on the wait in seconds (None for a direct `eval`). */
  datatype EvalRequest = EvalRequest(engine: Engine, script: string, bindings: map<string, Value>, timeout: Option<int>)

  /** What came of it, with the bindings as the script left them. */
  datatype EvalReply = EvalReply(outcome: EvalOutcome, bindings: map<string, Value>)
}
