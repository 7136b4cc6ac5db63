/** `Bot`: the original single-guild listener. A message opening with `&&` is
    either `help`, which lists the command channels, or the name of a command:
    every `cmd-` channel that has that name among its dash-separated aliases
    runs its newest message as a script, after the `mthd-` channels have been
    defined as functions and the environment channel's newest message has
    been evaluated. The script engine is an oracle from an evaluation call to
    its outcome. */
module LegacyBot {

  import opened Wrappers
  import opened Strings
  import opened Transport
  import opened GuildBotUtils
  import opened Executor

  const BotPrefix := "&&"
  const HelpHeader := "**HELP FILE**"
  const NoDescription := "no description"
  const NotWritten := "That command is not written!"

  // ---------------------------------------------------------------------
  // Parsing

  /** Handled only when the raw content opens with `&&` and the author is
      not a bot. */
  predicate ShouldHandle(content: string, authorIsBot: bool) {
    StartsWith(content, BotPrefix) && !authorIsBot
  }

  /** The command as typed (case kept) and its arguments. */
  datatype Invocation = Invocation(command: string, args: string)

  /** `content.substring(2).split("\\s+", 2)`: the first token, and the rest
      after the whitespace run, or "" when there is no whitespace. */
  function ParseCommand(content: string): (r: Invocation)
    requires StartsWith(content, BotPrefix)
    ensures NoWhitespace(r.command)
    ensures |BotPrefix + r.command| <= |content| && content[..|BotPrefix + r.command|] == BotPrefix + r.command
    ensures EndsWith(content, r.args)
    ensures |BotPrefix + r.command + r.args| == |content| ==> r.args == ""
  {
    var rest := content[|BotPrefix|..];
    var split := SplitFirstWhitespace(rest);
    assert content == BotPrefix + rest;
    if |split| == 1 then
      Invocation(split[0], "")
    else
      var w :| |w| > 0 && AllWhitespace(w) && rest == split[0] + w + split[1];
      assert content == BotPrefix + split[0] + w + split[1];
      assert content[..|BotPrefix + split[0]|] == BotPrefix + split[0];
      assert content[|content| - |split[1]|..] == split[1];
      Invocation(split[0], split[1])
  }

  /** A command, a whitespace run and arguments parse back into themselves. */
  lemma ParseCommandOf(command: string, w: string, args: string)
    requires NoWhitespace(command)
    requires |w| > 0 && AllWhitespace(w)
    requires args == "" || !IsWhitespace(args[0])
    ensures StartsWith(BotPrefix + command + w + args, BotPrefix)
    ensures ParseCommand(BotPrefix + command + w + args) == Invocation(command, args)
  {
    var content := BotPrefix + command + w + args;
    assert content[..|BotPrefix|] == BotPrefix;
    assert content[|BotPrefix|..] == command + w + args;
    SplitFirstWhitespaceOf(command, w, args);
  }

  /** The listener and the newer executor read a message the same way: the
      executor's trigger name is this command lower-cased, with the same
      arguments. */
  lemma ParseAgreesWithTrigger(content: string)
    requires StartsWith(content, BotPrefix)
    ensures ParseTrigger(content, BotPrefix) == Some(Trigger(ToLower(ParseCommand(content).command), ParseCommand(content).args))
  {
  }

  // ---------------------------------------------------------------------
  // Help

  /** What the help text says about a command: its topic, or "no description"
      for a null topic. */
  function Description(ch: Channel): string {
    if ch.topic.Some? then ch.topic.value else NoDescription
  }

  /** One help line for a `cmd-` channel: its first alias and its topic, or
      no line at all when the aliases split to nothing (indexing the empty
      array throws). */
  function HelpEntry(ch: Channel): (r: Option<string>)
    requires StartsWith(ch.name, CommandPrefix)
    ensures r.None? <==> CommandNames(ch.name) == []
    ensures r.Some? ==> StartsWith(r.value, "\n`" + CommandNames(ch.name)[0] + "` - ")
    ensures r.Some? ==> r.value == "\n`" + CommandNames(ch.name)[0] + "` - " + Description(ch)
  {
    var names := CommandNames(ch.name);
    if |names| == 0 then None
    else
      var head := "\n`" + names[0] + "` - ";
      var line := head + Description(ch);
      assert line[..|head|] == head;
      Some(line)
  }

  /** The help text over the channels in order; `None` when building it
      throws. */
  function HelpSpec(chs: seq<Channel>): (r: Option<string>)
    ensures r.Some? ==> StartsWith(r.value, HelpHeader)
  {
    if |chs| == 0 then Some(HelpHeader)
    else
      var ch := chs[|chs| - 1];
      match HelpSpec(chs[..|chs| - 1])
      case None => None
      case Some(s) =>
        if !StartsWith(ch.name, CommandPrefix) then Some(s)
        else match HelpEntry(ch)
          case None => None
          case Some(e) =>
            assert (s + e)[..|HelpHeader|] == s[..|HelpHeader|];
            Some(s + e)
  }

  /** The help loop: one line per command channel, in order. */
  method HelpText(chs: seq<Channel>) returns (r: Option<string>)
    ensures r == HelpSpec(chs)
  {
    var str := HelpHeader;
    var i := 0;
    while i < |chs|
      invariant 0 <= i <= |chs|
      invariant HelpSpec(chs[..i]) == Some(str)
    {
      var ch := chs[i];
      assert chs[..i + 1][..i] == chs[..i];
      if StartsWith(ch.name, CommandPrefix) {
        var e := HelpEntry(ch);
        if e.None? {
          HelpFailsFrom(chs, i + 1);
          return None;
        }
        str := str + e.value;
      }
      i := i + 1;
    }
    assert chs[..|chs|] == chs;
    return Some(str);
  }

  /** A command channel that splits to nothing. */
  predicate Unlisted(ch: Channel) {
    StartsWith(ch.name, CommandPrefix) && CommandNames(ch.name) == []
  }

  /** Once building the text has thrown, the later channels do not matter. */
  lemma {:induction false} HelpFailsFrom(chs: seq<Channel>, k: nat)
    requires k <= |chs|
    requires HelpSpec(chs[..k]).None?
    ensures HelpSpec(chs).None?
    decreases |chs| - k
  {
    if k < |chs| {
      assert chs[..k + 1][..k] == chs[..k];
      HelpFailsFrom(chs, k + 1);
    } else {
      assert chs[..k] == chs;
    }
  }

  /** The help text is missing exactly when some command channel splits to
      nothing. */
  lemma {:induction false} HelpFailsIff(chs: seq<Channel>)
    ensures HelpSpec(chs).None? <==> exists i :: 0 <= i < |chs| && Unlisted(chs[i])
  {
    if |chs| > 0 {
      var n := |chs| - 1;
      HelpFailsIff(chs[..n]);
      if exists i :: 0 <= i < n && Unlisted(chs[..n][i]) {
        var i :| 0 <= i < n && Unlisted(chs[..n][i]);
        assert chs[i] == chs[..n][i];
      }
      if exists i :: 0 <= i < |chs| && Unlisted(chs[i]) {
        var i :| 0 <= i < |chs| && Unlisted(chs[i]);
        if i < n {
          assert chs[..n][i] == chs[i];
        }
      }
    }
  }

  /** With every command channel named, the help text is built. */
  lemma {:induction false} HelpWithAliases(chs: seq<Channel>)
    requires forall i :: 0 <= i < |chs| ==> !Unlisted(chs[i])
    ensures HelpSpec(chs).Some?
  {
    if |chs| > 0 {
      assert forall i :: 0 <= i < |chs| - 1 ==> chs[..|chs| - 1][i] == chs[i];
      HelpWithAliases(chs[..|chs| - 1]);
      assert !Unlisted(chs[|chs| - 1]);
    }
  }

  /** Channels that are not command channels add nothing to the help text. */
  lemma {:induction false} HelpWithoutCommands(chs: seq<Channel>)
    requires forall i :: 0 <= i < |chs| ==> !StartsWith(chs[i].name, CommandPrefix)
    ensures HelpSpec(chs) == Some(HelpHeader)
  {
    if |chs| > 0 {
      HelpWithoutCommands(chs[..|chs| - 1]);
    }
  }

  /** The help line of one channel, built independently of `HelpEntry`: a
      named command channel lists its first alias and description, and any
      other channel lists nothing. */
  function HelpLine(ch: Channel): string {
    if StartsWith(ch.name, CommandPrefix) && CommandNames(ch.name) != []
    then "\n`" + CommandNames(ch.name)[0] + "` - " + Description(ch)
    else ""
  }

  /** The help lines of the channels, in channel order. */
  function HelpLines(chs: seq<Channel>): string {
    if |chs| == 0 then "" else HelpLines(chs[..|chs| - 1]) + HelpLine(chs[|chs| - 1])
  }

  /** Whenever the help text is built, it is the header followed by one line
      per command channel, in channel order. */
  lemma {:induction false} HelpSpecLines(chs: seq<Channel>)
    requires HelpSpec(chs).Some?
    ensures HelpSpec(chs) == Some(HelpHeader + HelpLines(chs))
  {
    if |chs| > 0 {
      var n := |chs| - 1;
      HelpSpecLast(chs);
      HelpSpecLines(chs[..n]);
      HelpLinesLast(chs);
      AppendAfter(HelpSpec(chs), HelpSpec(chs[..n]).value, HelpHeader, HelpLines(chs[..n]), HelpLine(chs[n]), HelpLines(chs));
    } else {
      assert HelpHeader + "" == HelpHeader;
    }
  }

  lemma HelpLinesLast(chs: seq<Channel>)
    requires |chs| > 0
    ensures HelpLines(chs) == HelpLines(chs[..|chs| - 1]) + HelpLine(chs[|chs| - 1])
  {
  }

  lemma AppendAfter(x: Option<string>, y: string, h: string, a: string, b: string, z: string)
    requires x == Some(y + b) && y == h + a && z == a + b
    ensures x == Some(h + z)
  {
    assert h + a + b == h + (a + b);
  }

  /** With every command channel named, the help text is the header followed
      by one line per command channel, in channel order. */
  lemma HelpTextWithAliases(chs: seq<Channel>)
    requires forall i :: 0 <= i < |chs| ==> !Unlisted(chs[i])
    ensures HelpSpec(chs) == Some(HelpHeader + HelpLines(chs))
  {
    HelpWithAliases(chs);
    HelpSpecLines(chs);
  }

  /** A built help text extends the text of the channels before the last by
      the last channel's line. */
  lemma HelpSpecLast(chs: seq<Channel>)
    requires |chs| > 0 && HelpSpec(chs).Some?
    ensures HelpSpec(chs[..|chs| - 1]).Some?
    ensures HelpSpec(chs) == Some(HelpSpec(chs[..|chs| - 1]).value + HelpLine(chs[|chs| - 1]))
  {
    var ch := chs[|chs| - 1];
    if StartsWith(ch.name, CommandPrefix) {
      assert HelpEntry(ch).Some?;
      HelpEntryLine(ch);
    } else {
      assert HelpSpec(chs[..|chs| - 1]).value + "" == HelpSpec(chs[..|chs| - 1]).value;
    }
  }

  /** `HelpEntry` of a named command channel is its `HelpLine`. */
  lemma HelpEntryLine(ch: Channel)
    requires StartsWith(ch.name, CommandPrefix) && CommandNames(ch.name) != []
    ensures HelpEntry(ch) == Some(HelpLine(ch))
  {
  }

  /** `cmd-ping-p` without a topic is listed under its first alias. */
  lemma HelpEntryExample(guildId: int, history: Option<seq<string>>)
    ensures HelpEntry(Channel(guildId, "cmd-ping-p", None, None, history)) == Some("\n`" + "ping" + "` - " + NoDescription)
  {
    CommandNamesOf(["ping", "p"]);
    assert Join(["ping", "p"], "-") == "ping-p" by {
      assert ["ping", "p"][1..] == ["p"];
    }
    assert CommandPrefix + Join(["ping", "p"], "-") == "cmd-ping-p";
    assert CommandNames("cmd-ping-p") == ["ping", "p"];
  }

  /** The names of the channels in `HelpTwoCommandsExample`. */
  lemma ExampleNames()
    ensures CommandNames("cmd-ping-p") == ["ping", "p"]
    ensures CommandNames("cmd-add") == ["add"]
    ensures !StartsWith("general", CommandPrefix)
  {
    CommandNamesOf(["ping", "p"]);
    assert Join(["ping", "p"], "-") == "ping-p" by {
      assert ["ping", "p"][1..] == ["p"];
    }
    assert CommandPrefix + Join(["ping", "p"], "-") == "cmd-ping-p";
    CommandNamesOf(["add"]);
    assert CommandPrefix + Join(["add"], "-") == "cmd-add";
    assert "general"[0] != CommandPrefix[0];
  }

  /** The lines of the channels in `HelpTwoCommandsExample`. */
  lemma ExampleLines(ping: Channel, general: Channel, add: Channel)
    requires ping.name == "cmd-ping-p" && ping.topic == Some("replies pong")
    requires general.name == "general" && add.name == "cmd-add" && add.topic == None
    ensures !Unlisted(ping) && !Unlisted(general) && !Unlisted(add)
    ensures HelpLines([ping, general, add]) == "\n`ping` - replies pong" + "\n`add` - no description"
  {
    ExampleNames();
    ExampleLineEach(ping, general, add);
    var chs := [ping, general, add];
    assert chs[..2] == [ping, general] && [ping, general][..1] == [ping] && [ping][..0] == [];
    assert HelpLines([ping]) == HelpLine(ping);
    assert HelpLines([ping, general]) == HelpLine(ping);
  }

  lemma ExampleLineEach(ping: Channel, general: Channel, add: Channel)
    requires ping.name == "cmd-ping-p" && ping.topic == Some("replies pong")
    requires general.name == "general" && add.name == "cmd-add" && add.topic == None
    ensures HelpLine(ping) == "\n`ping` - replies pong"
    ensures HelpLine(general) == ""
    ensures HelpLine(add) == "\n`add` - no description"
  {
    ExampleNames();
    PingLine(ping);
    AddLine(add);
  }

  lemma PingLine(ping: Channel)
    requires ping.name == "cmd-ping-p" && ping.topic == Some("replies pong")
    requires CommandNames("cmd-ping-p") == ["ping", "p"]
    ensures HelpLine(ping) == "\n`ping` - replies pong"
  {
    assert StartsWith(ping.name, CommandPrefix);
    assert Description(ping) == "replies pong";
  }

  lemma AddLine(add: Channel)
    requires add.name == "cmd-add" && add.topic == None
    requires CommandNames("cmd-add") == ["add"]
    ensures HelpLine(add) == "\n`add` - no description"
  {
    assert StartsWith(add.name, CommandPrefix);
    assert Description(add) == NoDescription;
  }

  /** Two command channels, one with a topic, around another channel: one
      line each, in channel order, whatever the channels' other fields. */
  lemma HelpTwoCommandsExample(ping: Channel, general: Channel, add: Channel)
    requires ping.name == "cmd-ping-p" && ping.topic == Some("replies pong")
    requires general.name == "general" && add.name == "cmd-add" && add.topic == None
    ensures HelpSpec([ping, general, add]) == Some(HelpHeader + "\n`ping` - replies pong" + "\n`add` - no description")
  {
    var chs := [ping, general, add];
    ExampleLines(ping, general, add);
    forall i | 0 <= i < |chs|
      ensures !Unlisted(chs[i])
    {
    }
    HelpTextWithAliases(chs);
    var a, b := "\n`ping` - replies pong", "\n`add` - no description";
    assert HelpHeader + (a + b) == HelpHeader + a + b;
  }

  // ---------------------------------------------------------------------
  // Functions and constants

  /** A topic as `%s` prints it: a null topic prints as "null". */
  function TopicText(topic: Option<string>): string {
    if topic.Some? then topic.value else "null"
  }

  /** `String.format("function %s(%s) {\n%s\n};", name, topic, body)`; a
      null topic prints as "null". */
  function Wrapper(name: string, topic: Option<string>, body: string): (r: string)
    ensures StartsWith(r, "function " + name + "(")
    ensures EndsWith(r, "\n" + body + "\n};")
    ensures r == "function " + name + "(" + TopicText(topic) + ") {\n" + body + "\n};"
  {
    var head := "function " + name + "(";
    var tail := "\n" + body + "\n};";
    var r := head + TopicText(topic) + ") {" + tail;
    assert r[..|head|] == head;
    assert r[|r| - |tail|..] == tail;
    r
  }

  /** The newest message of a channel, when it can be fetched and exists. */
  function Latest(ch: Channel): (r: Option<string>)
    ensures r.Some? <==> ch.history.Some? && |ch.history.value| > 0
    ensures r.Some? ==> r.value == RetrievePast(ch.history.value, 1)[0]
  {
    if ch.history.Some? && |ch.history.value| > 0 then Some(ch.history.value[0]) else None
  }

  /** A method channel: named `mthd-` and something more. */
  predicate IsFunctionChannel(ch: Channel) {
    StartsWith(ch.name, MethodPrefix) && |ch.name| > |MethodPrefix|
  }

  /** A method channel whose newest message can be fetched defines a function. */
  predicate Defines(ch: Channel) {
    IsFunctionChannel(ch) && Latest(ch).Some?
  }

  /** The function a method channel defines: named after the channel, its
      topic as the parameter list, its newest message as the body. */
  function Definition(ch: Channel): (r: string)
    requires Defines(ch)
    ensures StartsWith(r, "function " + ch.name[|MethodPrefix|..] + "(")
    ensures EndsWith(r, "\n" + ch.history.value[0] + "\n};")
    ensures r == "function " + ch.name[|MethodPrefix|..] + "(" + TopicText(ch.topic) + ") {\n" + ch.history.value[0] + "\n};"
  {
    Wrapper(ch.name[|MethodPrefix|..], ch.topic, Latest(ch).value)
  }

  /** `putFunctions`: the definitions of the method channels, in channel
      order; a failed or empty fetch is skipped. */
  function Functions(chs: seq<Channel>): (r: seq<string>)
    ensures |r| <= |chs|
  {
    if |chs| == 0 then []
    else (if Defines(chs[0]) then [Definition(chs[0])] else []) + Functions(chs[1..])
  }

  /** Definitions keep the order of their channels. */
  lemma {:induction false} FunctionsAppend(a: seq<Channel>, b: seq<Channel>)
    ensures Functions(a + b) == Functions(a) + Functions(b)
  {
    if |a| > 0 {
      assert (a + b)[0] == a[0] && (a + b)[1..] == a[1..] + b;
      FunctionsAppend(a[1..], b);
    } else {
      assert a + b == b;
    }
  }

  /** Every method channel with a message contributes its definition. */
  lemma {:induction false} FunctionsComplete(chs: seq<Channel>, i: nat)
    requires i < |chs| && Defines(chs[i])
    ensures Definition(chs[i]) in Functions(chs)
  {
    if i > 0 {
      assert chs[1..][i - 1] == chs[i];
      FunctionsComplete(chs[1..], i - 1);
    }
  }

  /** Every definition comes from a method channel with a message. */
  lemma {:induction false} FunctionsSound(chs: seq<Channel>, f: string)
    requires f in Functions(chs)
    ensures exists i :: 0 <= i < |chs| && Defines(chs[i]) && f == Definition(chs[i])
  {
    if Defines(chs[0]) && f == Definition(chs[0]) {
    } else {
      FunctionsSound(chs[1..], f);
      var i :| 0 <= i < |chs[1..]| && Defines(chs[1..][i]) && f == Definition(chs[1..][i]);
      assert chs[1..][i] == chs[i + 1];
    }
  }

  /** The channel whose id is the environment's, as `getTextChannelById`
      finds it: absent, with a history that cannot be fetched, or with its
      messages, newest first. */
  datatype EnvChannel = EnvAbsent | EnvUnfetchable | EnvMessages(messages: seq<string>)

  /** `putConstants`: the newest environment message, if any. An absent
      channel or a failed fetch throws out of the whole handler (`None`). */
  function Constants(env: EnvChannel): (r: Option<seq<string>>)
    ensures r.None? <==> !env.EnvMessages?
    ensures r.Some? ==> |r.value| <= 1
  {
    match env
    case EnvAbsent => None
    case EnvUnfetchable => None
    case EnvMessages(ms) => if |ms| == 0 then Some([]) else Some([ms[0]])
  }

  /** What each command engine evaluates before the command: the function
      definitions, then the constants. */
  function Prelude(chs: seq<Channel>, env: EnvChannel): (r: Option<seq<string>>)
    ensures r.None? <==> !env.EnvMessages?
    ensures r.Some? ==> |Functions(chs)| <= |r.value| && r.value[..|Functions(chs)|] == Functions(chs)
    ensures r.Some? ==> r.value[|Functions(chs)|..] == Constants(env).value
  {
    match Constants(env)
    case None => None
    case Some(cs) =>
      assert (Functions(chs) + cs)[..|Functions(chs)|] == Functions(chs);
      assert (Functions(chs) + cs)[|Functions(chs)|..] == cs;
      Some(Functions(chs) + cs)
  }

  // ---------------------------------------------------------------------
  // Running commands

  /** One script evaluation in a fresh engine: the arguments bound as `args`,
      the prelude evaluated, then the command's script. */
  datatype EvalCall = EvalCall(args: string, prelude: seq<string>, script: string)

  /** How an evaluation ended: a value (`None` for null, otherwise its
      `toString`), a `ScriptException`, or any other exception. */
  datatype ScriptOutcome = Evaluated(text: Option<string>) | ScriptThrew(error: string) | OtherThrew(error: string)

  /** The reply for an outcome; a null result sends nothing. */
  function FormatResult(o: ScriptOutcome): (r: Option<string>)
    ensures r.None? <==> o == Evaluated(None)
    ensures o.Evaluated? && o.text.Some? ==> r == o.text
    ensures o.ScriptThrew? ==> r.Some? && StartsWith(r.value, "SCRIPTERROR```\n") && EndsWith(r.value, "```")
    ensures o.OtherThrew? ==> r.Some? && StartsWith(r.value, "ERROR```\n") && EndsWith(r.value, "```")
    ensures o.ScriptThrew? ==> r == Some("SCRIPTERROR```\n" + o.error + "```")
    ensures o.OtherThrew? ==> r == Some("ERROR```\n" + o.error + "```")
  {
    match o
    case Evaluated(t) => t
    case ScriptThrew(e) =>
      var r := "SCRIPTERROR```\n" + e + "```";
      assert r[..15] == "SCRIPTERROR```\n" && r[|r| - 3..] == "```";
      Some(r)
    case OtherThrew(e) =>
      var r := "ERROR```\n" + e + "```";
      assert r[..9] == "ERROR```\n" && r[|r| - 3..] == "```";
      Some(r)
  }

  /** The evaluations made and the messages sent, in order. */
  datatype Outcome = Outcome(calls: seq<EvalCall>, sent: seq<string>)

  function Then(a: Outcome, b: Outcome): Outcome {
    Outcome(a.calls + b.calls, a.sent + b.sent)
  }

  lemma ThenAssoc(a: Outcome, b: Outcome, c: Outcome)
    ensures Then(Then(a, b), c) == Then(a, Then(b, c))
  {
    assert a.calls + b.calls + c.calls == a.calls + (b.calls + c.calls);
    assert a.sent + b.sent + c.sent == a.sent + (b.sent + c.sent);
  }

  function Replies(r: Option<string>): seq<string> {
    if r.Some? then [r.value] else []
  }

  /** A command channel whose aliases include the (lower-cased) command. */
  predicate Matches(ch: Channel, command: string) {
    StartsWith(ch.name, CommandPrefix) && ToLower(command) in CommandNames(ch.name)
  }

  /** The channel loop: each matching channel's newest message is evaluated
      and its reply sent; a matching channel without one sends the
      not-written notice and ends the handler, and a prelude that throws
      ends it silently. */
  function Dispatch(chs: seq<Channel>, command: string, args: string, prelude: Option<seq<string>>, eval: EvalCall -> ScriptOutcome): (r: Outcome)
    ensures |r.calls| <= |chs|
  {
    if |chs| == 0 then Outcome([], [])
    else if !Matches(chs[0], command) then Dispatch(chs[1..], command, args, prelude, eval)
    else match Latest(chs[0])
      case None => Outcome([], [NotWritten])
      case Some(script) =>
        match prelude
        case None => Outcome([], [])
        case Some(p) =>
          var call := EvalCall(args, p, script);
          Then(Outcome([call], Replies(FormatResult(eval(call)))), Dispatch(chs[1..], command, args, prelude, eval))
  }

  /** The scripts of the matching channels, in order. */
  function MatchingScripts(chs: seq<Channel>, command: string): seq<string>
    requires forall i :: 0 <= i < |chs| && Matches(chs[i], command) ==> Latest(chs[i]).Some?
  {
    if |chs| == 0 then []
    else if Matches(chs[0], command) then [Latest(chs[0]).value] + MatchingScripts(chs[1..], command)
    else MatchingScripts(chs[1..], command)
  }

  /** The replies to a sequence of calls, null results dropped. */
  function RepliesTo(calls: seq<EvalCall>, eval: EvalCall -> ScriptOutcome): seq<string> {
    if |calls| == 0 then [] else Replies(FormatResult(eval(calls[0]))) + RepliesTo(calls[1..], eval)
  }

  function CallsFor(args: string, p: seq<string>, scripts: seq<string>): (r: seq<EvalCall>)
    ensures |r| == |scripts|
    ensures forall i :: 0 <= i < |scripts| ==> r[i] == EvalCall(args, p, scripts[i])
  {
    if |scripts| == 0 then [] else [EvalCall(args, p, scripts[0])] + CallsFor(args, p, scripts[1..])
  }

  /** No matching channel: nothing is evaluated and nothing is sent. */
  lemma {:induction false} DispatchNoMatch(chs: seq<Channel>, command: string, args: string, prelude: Option<seq<string>>, eval: EvalCall -> ScriptOutcome)
    requires forall i :: 0 <= i < |chs| ==> !Matches(chs[i], command)
    ensures Dispatch(chs, command, args, prelude, eval) == Outcome([], [])
  {
    if |chs| > 0 {
      assert forall i :: 0 <= i < |chs[1..]| ==> chs[1..][i] == chs[i + 1];
      DispatchNoMatch(chs[1..], command, args, prelude, eval);
    }
  }

  /** When every matching channel has a script and the prelude holds, every
      matching channel is evaluated, in order, and every non-null result is
      sent. */
  lemma {:induction false} DispatchAllWritten(chs: seq<Channel>, command: string, args: string, p: seq<string>, eval: EvalCall -> ScriptOutcome)
    requires forall i :: 0 <= i < |chs| && Matches(chs[i], command) ==> Latest(chs[i]).Some?
    ensures Dispatch(chs, command, args, Some(p), eval).calls == CallsFor(args, p, MatchingScripts(chs, command))
    ensures Dispatch(chs, command, args, Some(p), eval).sent == RepliesTo(CallsFor(args, p, MatchingScripts(chs, command)), eval)
  {
    if |chs| > 0 {
      assert forall i :: 0 <= i < |chs[1..]| ==> chs[1..][i] == chs[i + 1];
      DispatchAllWritten(chs[1..], command, args, p, eval);
      if Matches(chs[0], command) {
        var cs := CallsFor(args, p, MatchingScripts(chs, command));
        assert cs[1..] == CallsFor(args, p, MatchingScripts(chs[1..], command));
      }
    }
  }

  /** The first matching channel without a script ends the handler: the
      notice is the last message and later channels are never looked at. */
  lemma {:induction false} DispatchStopsAtUnwritten(pre: seq<Channel>, ch: Channel, post: seq<Channel>, command: string, args: string, prelude: Option<seq<string>>, eval: EvalCall -> ScriptOutcome)
    requires forall i :: 0 <= i < |pre| ==> !Matches(pre[i], command)
    requires Matches(ch, command) && Latest(ch).None?
    ensures Dispatch(pre + [ch] + post, command, args, prelude, eval) == Outcome([], [NotWritten])
  {
    if |pre| > 0 {
      assert (pre + [ch] + post)[1..] == pre[1..] + [ch] + post;
      DispatchStopsAtUnwritten(pre[1..], ch, post, command, args, prelude, eval);
    } else {
      assert (pre + [ch] + post)[0] == ch;
    }
  }

  /** One channel of the loop. */
  lemma DispatchStep(chs: seq<Channel>, command: string, args: string, prelude: Option<seq<string>>, eval: EvalCall -> ScriptOutcome)
    requires |chs| > 0
    ensures !Matches(chs[0], command) ==> Dispatch(chs, command, args, prelude, eval) == Dispatch(chs[1..], command, args, prelude, eval)
    ensures Matches(chs[0], command) && Latest(chs[0]).None? ==> Dispatch(chs, command, args, prelude, eval) == Outcome([], [NotWritten])
    ensures Matches(chs[0], command) && Latest(chs[0]).Some? && prelude.None? ==> Dispatch(chs, command, args, prelude, eval) == Outcome([], [])
    ensures Matches(chs[0], command) && Latest(chs[0]).Some? && prelude.Some? ==>
              var call := EvalCall(args, prelude.value, Latest(chs[0]).value);
              Dispatch(chs, command, args, prelude, eval) == Then(Outcome([call], Replies(FormatResult(eval(call)))), Dispatch(chs[1..], command, args, prelude, eval))
  {
  }

  /** The channel loop, stopping at the first unwritten command. */
  method RunCommands(chs: seq<Channel>, command: string, args: string, prelude: Option<seq<string>>, eval: EvalCall -> ScriptOutcome) returns (r: Outcome)
    ensures r == Dispatch(chs, command, args, prelude, eval)
  {
    var calls: seq<EvalCall> := [];
    var sent: seq<string> := [];
    var i := 0;
    while i < |chs|
      invariant 0 <= i <= |chs|
      invariant Then(Outcome(calls, sent), Dispatch(chs[i..], command, args, prelude, eval)) == Dispatch(chs, command, args, prelude, eval)
    {
      var ch := chs[i];
      DispatchStep(chs[i..], command, args, prelude, eval);
      assert chs[i..][0] == ch && chs[i..][1..] == chs[i + 1..];
      if Matches(ch, command) {
        var script := Latest(ch);
        if script.None? {
          return Outcome(calls, sent + [NotWritten]);
        }
        if prelude.None? {
          return Outcome(calls, sent);
        }
        var call := EvalCall(args, prelude.value, script.value);
        var reply := Replies(FormatResult(eval(call)));
        ThenAssoc(Outcome(calls, sent), Outcome([call], reply), Dispatch(chs[i + 1..], command, args, prelude, eval));
        calls := calls + [call];
        sent := sent + reply;
      }
      i := i + 1;
    }
    return Outcome(calls, sent);
  }

  // ---------------------------------------------------------------------
  // onMessageReceived

  /** The whole handler. An unconfigured guild throws before anything is
      sent; `help` (any case) sends the help text unless building it throws;
      any other command runs the matching channels. */
  function OnMessageSpec(content: string, authorIsBot: bool, guild: Option<seq<Channel>>, env: EnvChannel, eval: EvalCall -> ScriptOutcome): Outcome {
    if !ShouldHandle(content, authorIsBot) || guild.None? then Outcome([], [])
    else
      var inv := ParseCommand(content);
      if EqualsIgnoreCase(inv.command, "help") then Outcome([], Replies(HelpSpec(guild.value)))
      else Dispatch(guild.value, inv.command, inv.args, Prelude(guild.value, env), eval)
  }

  method OnMessageReceived(content: string, authorIsBot: bool, guild: Option<seq<Channel>>, env: EnvChannel, eval: EvalCall -> ScriptOutcome) returns (r: Outcome)
    ensures r == OnMessageSpec(content, authorIsBot, guild, env, eval)
  {
    if !ShouldHandle(content, authorIsBot) || guild.None? {
      return Outcome([], []);
    }
    var inv := ParseCommand(content);
    if EqualsIgnoreCase(inv.command, "help") {
      var help := HelpText(guild.value);
      return Outcome([], Replies(help));
    }
    var prelude := Prelude(guild.value, env);
    r := RunCommands(guild.value, inv.command, inv.args, prelude, eval);
  }

  /** Messages from bots and messages without the prefix do nothing. */
  lemma IgnoredMessages(content: string, authorIsBot: bool, guild: Option<seq<Channel>>, env: EnvChannel, eval: EvalCall -> ScriptOutcome)
    requires !ShouldHandle(content, authorIsBot)
    ensures OnMessageSpec(content, authorIsBot, guild, env, eval) == Outcome([], [])
  {
  }

  /** `&&HELP` reads as the command `HELP` without arguments. */
  lemma ParseHelp()
    ensures StartsWith("&&HELP", BotPrefix)
    ensures ParseCommand("&&HELP") == Invocation("HELP", "")
    ensures EqualsIgnoreCase("HELP", "help")
  {
    assert "&&HELP"[..|BotPrefix|] == BotPrefix;
    assert "&&HELP"[|BotPrefix|..] == "HELP";
    SplitFirstWhitespaceNone("HELP");
    assert ToLower("HELP") == "help";
  }

  /** `help` in any case sends exactly one message, the help text, and
      evaluates nothing, whenever every command channel has an alias. */
  lemma HelpCommand(content: string, chs: seq<Channel>, env: EnvChannel, eval: EvalCall -> ScriptOutcome)
    requires ShouldHandle(content, false)
    requires EqualsIgnoreCase(ParseCommand(content).command, "help")
    requires forall i :: 0 <= i < |chs| ==> !Unlisted(chs[i])
    ensures HelpSpec(chs).Some?
    ensures OnMessageSpec(content, false, Some(chs), env, eval) == Outcome([], [HelpSpec(chs).value])
    ensures StartsWith(OnMessageSpec(content, false, Some(chs), env, eval).sent[0], HelpHeader)
  {
    HelpWithAliases(chs);
    var inv := ParseCommand(content);
    assert OnMessageSpec(content, false, Some(chs), env, eval) == Outcome([], Replies(HelpSpec(chs)));
  }
}
