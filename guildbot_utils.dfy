/** `GuildBotUtils`: which channels hold scripts, and how a channel's topic
    becomes its configuration. `CommandExecutor` has private copies of both
    with the same expressions; the model defines them once, here. */
module GuildBotUtils {

  import opened Wrappers
  import opened Strings
  import opened Json
  import opened Transport

  const CommandPrefix := "cmd-"
  const MethodPrefix := "mthd-"
  const VarsPrefix := "vars-"

  /** The prefixes that mark a channel as holding a script. */
  const ScriptPrefixes: seq<string> := [CommandPrefix, MethodPrefix, VarsPrefix]

  /** `isScriptChannel`: the name starts with `cmd-`, `mthd-` or `vars-`. */
  predicate IsScriptChannel(name: string)
    ensures IsScriptChannel(name) <==> exists i :: 0 <= i < |ScriptPrefixes| && StartsWith(name, ScriptPrefixes[i])
    ensures IsScriptChannel(name) ==> |name| >= |CommandPrefix|
  {
    assert ScriptPrefixes[0] == CommandPrefix && ScriptPrefixes[1] == MethodPrefix && ScriptPrefixes[2] == VarsPrefix;
    StartsWith(name, CommandPrefix) || StartsWith(name, MethodPrefix) || StartsWith(name, VarsPrefix)
  }

  /** Why a topic did not give a configuration object. */
  datatype ConfigError = TopicUnparsable | TopicNotAnObject

  /** `readConfig`: a missing or empty topic gives an empty object; any other
      topic must parse (hjson) to an object, otherwise `asObject` throws. */
  function ReadConfig(ch: Channel): (r: Result<Config, ConfigError>)
    ensures ch.topic == None || ch.topic == Some("") ==> r == Ok(map[])
    ensures ch.topic != None && ch.topic != Some("") ==>
              (r.Ok? <==> ch.topicJson.Some? && ch.topicJson.value.JObject?)
    ensures ch.topic != None && ch.topic != Some("") && ch.topicJson.Some? && ch.topicJson.value.JObject? ==>
              r.value == ToConfig(ch.topicJson.value.members)
  {
    if ch.topic == None || ch.topic == Some("") then Ok(map[])
    else match ch.topicJson
      case None => Err(TopicUnparsable)
      case Some(JObject(ms)) => Ok(ToConfig(ms))
      case Some(_) => Err(TopicNotAnObject)
  }

  /** A name is a script channel exactly when one of the three prefixes opens it. */
  lemma ScriptChannelExamples()
    ensures IsScriptChannel("cmd-ping") && IsScriptChannel("mthd-add") && IsScriptChannel("vars-x")
    ensures IsScriptChannel("cmd-")
    ensures !IsScriptChannel("general") && !IsScriptChannel("cmd") && !IsScriptChannel("method-x")
  {
    assert "cmd-ping"[..4] == "cmd-";
    assert "mthd-add"[..5] == "mthd-";
    assert "vars-x"[..5] == "vars-";
    assert "general"[..4][0] == 'g';
    assert "general"[..5][0] == 'g';
    assert "method-x"[..4][1] == 'e' && "method-x"[..5][1] == 'e' && "method-x"[..5][0] == 'm';
  }
}
