/** `CommandExecutor`: the registry of commands, methods and variables built
    from a guild's script channels, its upkeep as channels and messages
    change, and the execution of a command. The specification functions come
    first; the class that owns the registry and updates it in place follows. */
module Executor {

  import opened Wrappers
  import opened Strings
  import opened Json
  import opened Transport
  import opened Engines
  import opened GuildBotUtils
  import opened Definitions

  // ---------------------------------------------------------------------
  // A channel's body

  function FenceOpen(lang: string): string {
    "```" + lang + "\n"
  }

  const FenceClose: string := "\n```"

  /** The per-message mapping: a message fenced for the configured language
      loses its fence. Opening and closing fence overlap in a message shorter
      than the two together (such as "```js\n```"); `substring` then throws,
      given here as `None`. */
  function UnwrapMessage(lang: string, s: string): (r: Option<string>)
    ensures !(StartsWith(s, FenceOpen(lang)) && EndsWith(s, FenceClose)) ==> r == Some(s)
    ensures r.None? <==> StartsWith(s, FenceOpen(lang)) && EndsWith(s, FenceClose) && |s| < |FenceOpen(lang)| + |FenceClose|
  {
    if StartsWith(s, FenceOpen(lang)) && EndsWith(s, FenceClose) then
      if |FenceOpen(lang)| <= |s| - |FenceClose| then Some(s[|FenceOpen(lang)| .. |s| - |FenceClose|]) else None
    else Some(s)
  }

  /** A fenced message gives back its body. */
  lemma UnwrapFenced(lang: string, body: string)
    ensures UnwrapMessage(lang, FenceOpen(lang) + body + FenceClose) == Some(body)
  {
    var s := FenceOpen(lang) + body + FenceClose;
    assert s[..|FenceOpen(lang)|] == FenceOpen(lang);
    assert s[|s| - |FenceClose|..] == FenceClose;
    assert s[|FenceOpen(lang)| .. |s| - |FenceClose|] == body;
  }

  /** An empty fenced message throws where a joined body is expected. */
  lemma UnwrapEmptyFence()
    ensures UnwrapMessage("js", "```js\n```") == None
  {
    assert "```js\n```"[..6] == FenceOpen("js");
    assert "```js\n```"[5..] == FenceClose;
  }

  function Reverse<T>(xs: seq<T>): (r: seq<T>)
    ensures |r| == |xs|
    ensures forall i :: 0 <= i < |xs| ==> r[i] == xs[|xs| - 1 - i]
  {
    if |xs| == 0 then [] else Reverse(xs[1..]) + [xs[0]]
  }

  function UnwrapAll(lang: string, msgs: seq<string>): (r: Option<seq<string>>)
    ensures r.Some? <==> forall i :: 0 <= i < |msgs| ==> UnwrapMessage(lang, msgs[i]).Some?
    ensures r.Some? ==> |r.value| == |msgs|
    ensures r.Some? ==> forall i :: 0 <= i < |msgs| ==> r.value[i] == UnwrapMessage(lang, msgs[i]).value
  {
    if |msgs| == 0 then Some([])
    else match UnwrapMessage(lang, msgs[0])
      case None => None
      case Some(b) =>
        match UnwrapAll(lang, msgs[1..])
        case None => None
        case Some(rest) => Some([b] + rest)
  }

  /** The callback of `retrievePast`: oldest message first, each unwrapped,
      joined by newlines. `lang` is read (and may throw) once per message, so
      an empty history never reads it. `None` is an exception in the
      callback. */
  function AssembleBody(config: Config, fetched: seq<string>): (r: Option<string>)
    ensures |fetched| == 0 ==> r == Some("")
    ensures |fetched| > 0 ==>
              (r.Some? <==> GetString(config, "lang", "js").Ok?
                            && UnwrapAll(GetString(config, "lang", "js").value, Reverse(fetched)).Some?)
    ensures |fetched| > 0 && r.Some? ==>
              r.value == Join(UnwrapAll(GetString(config, "lang", "js").value, Reverse(fetched)).value, "\n")
  {
    if |fetched| == 0 then Some("")
    else match GetString(config, "lang", "js")
      case Err(_) => None
      case Ok(lang) =>
        match UnwrapAll(lang, Reverse(fetched))
        case None => None
        case Some(parts) => Some(Join(parts, "\n"))
  }

  /** A single fenced message is read as its body. */
  lemma AssembleOneFenced(body: string)
    ensures AssembleBody(map[], [FenceOpen("js") + body + FenceClose]) == Some(body)
  {
    UnwrapFenced("js", body);
    var msgs := [FenceOpen("js") + body + FenceClose];
    assert Reverse(msgs) == msgs;
    assert GetString(map[], "lang", "js") == Ok("js");
    var u := UnwrapAll("js", msgs);
    assert u.Some? && |u.value| == 1 && u.value[0] == body;
    assert u.value == [body];
  }

  /** Two messages come out oldest first. */
  lemma AssembleOldestFirst(newer: string, older: string)
    requires !StartsWith(newer, FenceOpen("js")) && !StartsWith(older, FenceOpen("js"))
    ensures AssembleBody(map[], [newer, older]) == Some(older + "\n" + newer)
  {
    assert Reverse([newer, older]) == [older, newer];
    assert GetString(map[], "lang", "js") == Ok("js");
    assert UnwrapMessage("js", older) == Some(older);
    assert UnwrapMessage("js", newer) == Some(newer);
    var u := UnwrapAll("js", [older, newer]);
    assert u.Some? && |u.value| == 2 && u.value[0] == older && u.value[1] == newer;
    assert u.value == [older, newer];
    assert Join([older, newer], "\n") == older + "\n" + newer by {
      assert [older, newer][1..] == [newer];
    }
  }

  // ---------------------------------------------------------------------
  // Triggers and names

  datatype Trigger = Trigger(name: string, args: string)

  /** `onMessageReceived` up to the lookup: the text after the prefix, split
      once on whitespace; the first piece lower-cased is the command name,
      the second (or "") its arguments. */
  function ParseTrigger(content: string, prefix: string): (r: Option<Trigger>)
    ensures r.Some? <==> StartsWith(content, prefix)
    ensures r.Some? ==> NoWhitespace(r.value.name)
  {
    if !StartsWith(content, prefix) then None
    else
      var split := SplitFirstWhitespace(content[|prefix|..]);
      Some(Trigger(ToLower(split[0]), if |split| > 1 then split[1] else ""))
  }

  /** A prefixed name, a whitespace run and arguments parse back into the
      lower-cased name and the arguments. */
  lemma ParseTriggerOf(prefix: string, name: string, w: string, args: string)
    requires NoWhitespace(name)
    requires |w| > 0 && AllWhitespace(w)
    requires args == "" || !IsWhitespace(args[0])
    ensures ParseTrigger(prefix + name + w + args, prefix) == Some(Trigger(ToLower(name), args))
  {
    var content := prefix + name + w + args;
    assert content[..|prefix|] == prefix;
    assert content[|prefix|..] == name + w + args;
    SplitFirstWhitespaceOf(name, w, args);
  }

  /** A bare prefixed name has empty arguments. */
  lemma ParseTriggerBare(prefix: string, name: string)
    requires NoWhitespace(name)
    ensures ParseTrigger(prefix + name, prefix) == Some(Trigger(ToLower(name), ""))
  {
    var content := prefix + name;
    assert content[..|prefix|] == prefix;
    assert content[|prefix|..] == name;
    SplitFirstWhitespaceNone(name);
  }

  /** The command names a `cmd-` channel defines: the rest of its name split
      on '-', trailing empty names dropped. */
  function CommandNames(name: string): (r: seq<string>)
    requires StartsWith(name, CommandPrefix)
    ensures forall i :: 0 <= i < |r| ==> '-' !in r[i]
  {
    JavaSplit(name[|CommandPrefix|..], '-')
  }

  /** Each alias of a channel called `cmd-a-b-…` is one of its names. */
  lemma CommandNamesOf(parts: seq<string>)
    requires |parts| >= 1
    requires forall i :: 0 <= i < |parts| ==> '-' !in parts[i]
    requires |parts| > 1 ==> parts[|parts| - 1] != ""
    ensures StartsWith(CommandPrefix + Join(parts, "-"), CommandPrefix)
    ensures CommandNames(CommandPrefix + Join(parts, "-")) == parts
  {
    var name := CommandPrefix + Join(parts, "-");
    assert name[..|CommandPrefix|] == CommandPrefix;
    assert name[|CommandPrefix|..] == Join(parts, "-");
    JavaSplitJoin(parts, '-');
  }

  /** Trailing dashes add no name, and a dash alone gives none at all. */
  lemma CommandNamesTrailing()
    ensures CommandNames("cmd-a-b-") == ["a", "b"]
    ensures CommandNames("cmd-") == [""]
    ensures CommandNames("cmd--") == []
  {
    assert ["a", "b"] + Empties(1) == ["a", "b", ""];
    assert Join(["a", "b", ""], "-") == "a-b-" by {
      assert ["a", "b", ""][1..] == ["b", ""] && ["b", ""][1..] == [""];
    }
    JavaSplitTrailing(["a", "b"], '-', 1);
    assert "cmd-a-b-"[|CommandPrefix|..] == "a-b-";
    assert "cmd-"[|CommandPrefix|..] == "";
    assert [] + Empties(2) == ["", ""];
    assert Join(["", ""], "-") == "-" by {
      assert ["", ""][1..] == [""];
    }
    JavaSplitTrailing([], '-', 2);
    assert "cmd--"[|CommandPrefix|..] == "-";
  }

  // ---------------------------------------------------------------------
  // What a command's result becomes

  /** The reply the bot sends when a command fails. */
  const FailureReply: string := "An error occured"

  /** What `execute` does with the result: queue a rest action, send the
      value as a message of the given type (builders are built first), report
      a failure, or nothing. */
  datatype Action =
    | QueueRestAction
    | SendAs(kind: Kind, payload: Value)
    | SendFailure(text: string)
    | NoAction

  /** The `instanceof` tests in the order the source makes them. */
  const Precedence: seq<Kind> := [RestAction, Text, Message, MessageEmbed, MessageBuilder, EmbedBuilder, Throwable]

  /** The first kind of `ks` in `order`. */
  function FirstKind(order: seq<Kind>, ks: set<Kind>): (r: Option<Kind>)
    ensures r.Some? ==> r.value in ks && r.value in order
    ensures r.None? <==> forall i :: 0 <= i < |order| ==> order[i] !in ks
  {
    if |order| == 0 then None
    else if order[0] in ks then Some(order[0])
    else FirstKind(order[1..], ks)
  }

  /** The kinds whose values are sent back as a message. */
  const SentKinds: set<Kind> := {Text, Message, MessageEmbed, MessageBuilder, EmbedBuilder}

  /** The action the source ties to each kind. */
  function ActionFor(k: Kind, v: Value): Action {
    match k
    case RestAction => QueueRestAction
    case Throwable => SendFailure(FailureReply)
    case _ => SendAs(k, v)
  }

  /** The `instanceof` chain on a value. `null` and the executor's own method
      hooks are instances of none of the types. */
  function Dispatch(v: Value): (r: Action)
    ensures r.QueueRestAction? <==> v.Obj? && RestAction in v.kinds
    ensures r.SendAs? ==> v.Obj? && r.kind in v.kinds && r.kind !in {RestAction, Throwable} && r.payload == v
    ensures r.SendFailure? <==> v.Obj? && Throwable in v.kinds && RestAction !in v.kinds && (forall k :: k in SentKinds ==> k !in v.kinds)
    ensures r.SendFailure? ==> r.text == FailureReply
  {
    match v
    case Obj(ks, _) =>
      if RestAction in ks then QueueRestAction
      else if Text in ks then SendAs(Text, v)
      else if Message in ks then SendAs(Message, v)
      else if MessageEmbed in ks then SendAs(MessageEmbed, v)
      else if MessageBuilder in ks then SendAs(MessageBuilder, v)
      else if EmbedBuilder in ks then SendAs(EmbedBuilder, v)
      else if Throwable in ks then SendFailure(FailureReply)
      else NoAction
    case _ => NoAction
  }

  /** The first kind in precedence order, as the chain of tests it amounts to. */
  lemma FirstKindOfPrecedence(ks: set<Kind>)
    ensures FirstKind(Precedence, ks)
         == if RestAction in ks then Some(RestAction)
            else if Text in ks then Some(Text)
            else if Message in ks then Some(Message)
            else if MessageEmbed in ks then Some(MessageEmbed)
            else if MessageBuilder in ks then Some(MessageBuilder)
            else if EmbedBuilder in ks then Some(EmbedBuilder)
            else if Throwable in ks then Some(Throwable)
            else None
  {
    var p1 := [Text, Message, MessageEmbed, MessageBuilder, EmbedBuilder, Throwable];
    var p2 := [Message, MessageEmbed, MessageBuilder, EmbedBuilder, Throwable];
    var p3 := [MessageEmbed, MessageBuilder, EmbedBuilder, Throwable];
    var p4 := [MessageBuilder, EmbedBuilder, Throwable];
    var p5 := [EmbedBuilder, Throwable];
    var p6 := [Throwable];
    assert Precedence[1..] == p1 && p1[1..] == p2 && p2[1..] == p3;
    assert p3[1..] == p4 && p4[1..] == p5 && p5[1..] == p6 && p6[1..] == [];
    assert FirstKind(p6, ks) == if Throwable in ks then Some(Throwable) else None;
    assert FirstKind(p5, ks) == if EmbedBuilder in ks then Some(EmbedBuilder) else FirstKind(p6, ks);
    assert FirstKind(p4, ks) == if MessageBuilder in ks then Some(MessageBuilder) else FirstKind(p5, ks);
    assert FirstKind(p3, ks) == if MessageEmbed in ks then Some(MessageEmbed) else FirstKind(p4, ks);
    assert FirstKind(p2, ks) == if Message in ks then Some(Message) else FirstKind(p3, ks);
    assert FirstKind(p1, ks) == if Text in ks then Some(Text) else FirstKind(p2, ks);
  }

  /** The chain acts on the value's first kind in precedence order. */
  lemma DispatchFollowsPrecedence(v: Value)
    requires v.Obj?
    ensures FirstKind(Precedence, v.kinds).Some? ==> Dispatch(v) == ActionFor(FirstKind(Precedence, v.kinds).value, v)
    ensures FirstKind(Precedence, v.kinds).None? ==> Dispatch(v) == NoAction
  {
    FirstKindOfPrecedence(v.kinds);
  }

  /** The chain does nothing exactly when the value is of none of the kinds. */
  lemma DispatchNothingIffNoKind(v: Value)
    ensures Dispatch(v) == NoAction <==> !v.Obj? || v.kinds == {}
  {
    if v.Obj? && v.kinds != {} {
      var k :| k in v.kinds;
      match k
      case RestAction =>
      case Text =>
      case Message =>
      case MessageEmbed =>
      case MessageBuilder =>
      case EmbedBuilder =>
      case Throwable =>
    }
  }

  /** How one command execution ends: whether the wait cancelled the future, and
      what was done with the result. */
  datatype CommandResult = CommandResult(cancelled: bool, action: Action)

  /** `future.get` and the dispatch on what it produced: a value is dispatched;
      an exception (the script's, or the timeout read's) is reported; a
      timeout or an interrupt also cancels the future. */
  function Interpret(timeout: Result<int, AccessError>, o: EvalOutcome): (r: CommandResult)
    ensures r.cancelled <==> timeout.Ok? && (o.TimedOut? || o.Interrupted?)
    ensures timeout.Ok? && o.Returned? ==> r.action == Dispatch(o.value)
    ensures timeout.Err? || !o.Returned? ==> r.action == SendFailure(FailureReply)
  {
    if timeout.Err? then CommandResult(false, SendFailure(FailureReply))
    else match o
      case Returned(v) => CommandResult(false, Dispatch(v))
      case Failed(_) => CommandResult(false, SendFailure(FailureReply))
      case _ => CommandResult(true, SendFailure(FailureReply))
  }

  // ---------------------------------------------------------------------
  // The registry and its upkeep, as values

  /** The three maps of the executor. */
  datatype Registry = Registry(commands: map<string, Command>, methods: map<string, MethodDef>, vars: map<string, Variables>)

  const EmptyRegistry: Registry := Registry(map[], map[], map[])

  /** The configured guild id: `getLong("guildId", 0)`; a member of the wrong
      kind throws before anything changes. */
  function GuildIdOf(global: Config): (r: Result<int, AccessError>)
    ensures "guildId" !in global ==> r == Ok(0)
    ensures "guildId" in global ==> (r.Ok? <==> global["guildId"].JInt?)
    ensures "guildId" in global && r.Ok? ==> r.value == global["guildId"].n
  {
    GetInt(global, "guildId", 0)
  }

  function TimeoutOption(t: Result<int, AccessError>): Option<int> {
    match t
    case Ok(n) => Some(n)
    case Err(_) => None
  }

  /** `commands` without the given names. */
  function RemoveAll(m: map<string, Command>, names: seq<string>): (r: map<string, Command>)
    ensures forall k :: k in r <==> k in m && k !in names
    ensures forall k :: k in r ==> r[k] == m[k]
  {
    map k | k in m && k !in names :: m[k]
  }

  lemma RemoveAllSnoc(m: map<string, Command>, names: seq<string>, n: string)
    ensures RemoveAll(m, names + [n]) == RemoveAll(m, names) - {n}
  {
    var a := RemoveAll(m, names + [n]);
    var b := RemoveAll(m, names) - {n};
    assert forall k :: k in names + [n] <==> k in names || k == n;
    assert forall k :: k in a <==> k in b;
    assert forall k :: k in a ==> a[k] == b[k];
  }

  /** `commands` with the same command under every given name. */
  function InstallAll(m: map<string, Command>, names: seq<string>, c: Command): (r: map<string, Command>)
    ensures forall k :: k in r <==> k in m || k in names
    ensures forall k :: k in names ==> r[k] == c
    ensures forall k :: k in m && k !in names ==> r[k] == m[k]
  {
    map k | k in m.Keys + (set n | n in names) :: if k in names then c else m[k]
  }

  lemma InstallAllSnoc(m: map<string, Command>, names: seq<string>, n: string, c: Command)
    ensures InstallAll(m, names + [n], c) == InstallAll(m, names, c)[n := c]
  {
    var a := InstallAll(m, names + [n], c);
    var b := InstallAll(m, names, c)[n := c];
    assert forall k :: k in names + [n] <==> k in names || k == n;
    assert forall k :: k in a <==> k in b;
    assert forall k :: k in a ==> a[k] == b[k];
  }

  /** The `for` loop of `put` that binds the command under each name in turn. */
  method PutAll(m0: map<string, Command>, names: seq<string>, c: Command) returns (m: map<string, Command>)
    ensures m == InstallAll(m0, names, c)
  {
    m := m0;
    var i := 0;
    while i < |names|
      invariant 0 <= i <= |names|
      invariant m == InstallAll(m0, names[..i], c)
    {
      assert names[..i + 1] == names[..i] + [names[i]];
      InstallAllSnoc(m0, names[..i], names[i], c);
      m := m[names[i] := c];
      i := i + 1;
    }
    assert names[..|names|] == names;
  }

  /** The entries a channel name stands for, removed (`delete` after the guild
      check); names of no kind change nothing. */
  function RemoveChannel(r: Registry, name: string): (r2: Registry)
    ensures !StartsWith(name, CommandPrefix) ==> r2.commands == r.commands
    ensures !StartsWith(name, MethodPrefix) ==> r2.methods == r.methods
    ensures !StartsWith(name, VarsPrefix) ==> r2.vars == r.vars
  {
    if StartsWith(name, MethodPrefix) then r.(methods := r.methods - {name[|MethodPrefix|..]})
    else if StartsWith(name, VarsPrefix) then r.(vars := r.vars - {name[|VarsPrefix|..]})
    else if StartsWith(name, CommandPrefix) then r.(commands := RemoveAll(r.commands, CommandNames(name)))
    else r
  }

  /** No name opens with two of the prefixes. */
  lemma PrefixesExclusive(name: string)
    ensures StartsWith(name, MethodPrefix) ==> !StartsWith(name, VarsPrefix) && !StartsWith(name, CommandPrefix)
    ensures StartsWith(name, VarsPrefix) ==> !StartsWith(name, CommandPrefix)
  {
    if StartsWith(name, MethodPrefix) {
      assert !StartsWith(name, VarsPrefix) by { assert name[..5][0] == 'm'; }
      assert !StartsWith(name, CommandPrefix) by { assert name[..4][0] == 'm'; }
    } else if StartsWith(name, VarsPrefix) {
      assert !StartsWith(name, CommandPrefix) by { assert name[..4][0] == 'v'; }
    }
  }

  /** `delete(guildId, name)`: only for the configured guild. */
  function DeleteSpec(global: Config, r: Registry, guildId: int, name: string): Registry {
    if GuildIdOf(global) != Ok(guildId) then r else RemoveChannel(r, name)
  }

  /** The entries a script channel's body defines, installed; `Err` when the
      constructor throws. */
  function Install(r: Registry, name: string, config: Config, body: Option<string>, loadable: map<string, string>): (r2: Result<Registry, BuildError>)
    requires IsScriptChannel(name)
    ensures r2.Ok? && !StartsWith(name, CommandPrefix) ==> r2.value.commands == r.commands
    ensures r2.Ok? && !StartsWith(name, MethodPrefix) ==> r2.value.methods == r.methods
    ensures r2.Ok? && !StartsWith(name, VarsPrefix) ==> r2.value.vars == r.vars
    ensures StartsWith(name, MethodPrefix) ==>
              (r2.Ok? <==> NewMethod(config, name[|MethodPrefix|..], body, loadable).Ok?)
              && (r2.Ok? ==> r2.value.methods == r.methods[name[|MethodPrefix|..] := NewMethod(config, name[|MethodPrefix|..], body, loadable).value])
    ensures StartsWith(name, VarsPrefix) ==>
              (r2.Ok? <==> NewVariables(config, body).Ok?)
              && (r2.Ok? ==> r2.value.vars == r.vars[name[|VarsPrefix|..] := NewVariables(config, body).value])
    ensures StartsWith(name, CommandPrefix) ==>
              (r2.Ok? <==> NewCommand(config, body).Ok?)
              && (r2.Ok? ==> r2.value.commands == InstallAll(r.commands, CommandNames(name), NewCommand(config, body).value))
  {
    PrefixesExclusive(name);
    if StartsWith(name, MethodPrefix) then
      var key := name[|MethodPrefix|..];
      var m :- NewMethod(config, key, body, loadable);
      Ok(r.(methods := r.methods[key := m]))
    else if StartsWith(name, VarsPrefix) then
      var v :- NewVariables(config, body);
      Ok(r.(vars := r.vars[name[|VarsPrefix|..] := v]))
    else
      var c :- NewCommand(config, body);
      Ok(r.(commands := InstallAll(r.commands, CommandNames(name), c)))
  }

  /** `update(channel)`. Outside the guild or for other channels nothing
      changes; a topic that is not an object, a malformed `length` or one
      `retrievePast` refuses removes the channel's entries; a failed fetch, a throwing message mapping or a
      throwing constructor happen in the asynchronous callback and change
      nothing; otherwise the channel's entries are installed. */
  function UpdateSpec(global: Config, loadable: map<string, string>, r: Registry, ch: Channel): Registry {
    if GuildIdOf(global) != Ok(ch.guildId) || !IsScriptChannel(ch.name) then r
    else match ReadConfig(ch)
      case Err(_) => RemoveChannel(r, ch.name)
      case Ok(config) =>
        match GetInt(config, "length", 1)
        case Err(_) => RemoveChannel(r, ch.name)
        case Ok(n) =>
          if !RetrievableAmount(n) then RemoveChannel(r, ch.name)
          else match ch.history
          case None => r
          case Some(h) =>
            match AssembleBody(config, RetrievePast(h, n))
            case None => r
            case Some(body) =>
              match Install(r, ch.name, config, Some(body), loadable)
              case Err(_) => r
              case Ok(r2) => r2
  }

  // ---------------------------------------------------------------------
  // Properties of the upkeep

  /** Removing a channel touches only the map of its own kind. */
  lemma RemoveChannelTouchesOwnKind(r: Registry, name: string)
    ensures StartsWith(name, MethodPrefix) ==>
              RemoveChannel(r, name) == r.(methods := r.methods - {name[|MethodPrefix|..]})
    ensures StartsWith(name, VarsPrefix) ==>
              RemoveChannel(r, name) == r.(vars := r.vars - {name[|VarsPrefix|..]})
    ensures StartsWith(name, CommandPrefix) ==>
              && RemoveChannel(r, name).methods == r.methods && RemoveChannel(r, name).vars == r.vars
              && (forall k :: k in RemoveChannel(r, name).commands <==> k in r.commands && k !in CommandNames(name))
    ensures !IsScriptChannel(name) ==> RemoveChannel(r, name) == r
  {
    if StartsWith(name, CommandPrefix) {
      assert name[..4] == "cmd-";
      assert !StartsWith(name, MethodPrefix) by { assert name[..4][0] == 'c'; }
      assert !StartsWith(name, VarsPrefix) by { assert name[..4][0] == 'c'; }
    }
  }

  /** Removing twice removes no more than once. */
  lemma RemoveChannelIdempotent(r: Registry, name: string)
    ensures RemoveChannel(RemoveChannel(r, name), name) == RemoveChannel(r, name)
  {
    if !StartsWith(name, MethodPrefix) && !StartsWith(name, VarsPrefix) && StartsWith(name, CommandPrefix) {
      var once := RemoveChannel(r, name).commands;
      assert RemoveAll(once, CommandNames(name)) == once;
    }
  }

  /** Installing a command channel puts one and the same command under each of
      its names and leaves the other maps alone. */
  lemma InstallCommandUnderAllNames(r: Registry, name: string, config: Config, body: string, loadable: map<string, string>)
    requires StartsWith(name, CommandPrefix)
    requires NewCommand(config, Some(body)).Ok?
    ensures IsScriptChannel(name)
    ensures Install(r, name, config, Some(body), loadable).Ok?
    ensures var r2 := Install(r, name, config, Some(body), loadable).value;
            && r2.methods == r.methods && r2.vars == r.vars
            && (forall k :: k in CommandNames(name) ==> k in r2.commands && r2.commands[k] == NewCommand(config, Some(body)).value)
            && (forall k :: k in r.commands && k !in CommandNames(name) ==> k in r2.commands && r2.commands[k] == r.commands[k])
  {
    assert !StartsWith(name, MethodPrefix) by { assert name[..4][0] == 'c'; }
    assert !StartsWith(name, VarsPrefix) by { assert name[..4][0] == 'c'; }
  }

  /** An update outside the configured guild, or of a channel of no kind,
      changes nothing. */
  lemma UpdateIgnoresOtherChannels(global: Config, loadable: map<string, string>, r: Registry, ch: Channel)
    requires GuildIdOf(global) != Ok(ch.guildId) || !IsScriptChannel(ch.name)
    ensures UpdateSpec(global, loadable, r, ch) == r
  { }

  /** A topic that does not configure the channel removes what it defined. */
  lemma UpdateBadTopicRemoves(global: Config, loadable: map<string, string>, r: Registry, ch: Channel)
    requires GuildIdOf(global) == Ok(ch.guildId) && IsScriptChannel(ch.name)
    requires ReadConfig(ch).Err?
    ensures UpdateSpec(global, loadable, r, ch) == RemoveChannel(r, ch.name)
  { }

  /** A `length` that `retrievePast` refuses throws inside the `try`, so the
      channel's entries are removed. */
  lemma UpdateUnretrievableRemoves(global: Config, loadable: map<string, string>, r: Registry, ch: Channel, config: Config, n: int)
    requires GuildIdOf(global) == Ok(ch.guildId) && IsScriptChannel(ch.name)
    requires ReadConfig(ch) == Ok(config) && GetInt(config, "length", 1) == Ok(n) && !RetrievableAmount(n)
    ensures UpdateSpec(global, loadable, r, ch) == RemoveChannel(r, ch.name)
  {
  }

  /** Inside the fetch callback nothing is caught: a failed fetch, a body
      whose fences overlap, or a constructor that throws leaves every map as
      it was. */
  lemma UpdateCallbackFailureKeeps(global: Config, loadable: map<string, string>, r: Registry, ch: Channel, config: Config, n: int)
    requires GuildIdOf(global) == Ok(ch.guildId) && IsScriptChannel(ch.name)
    requires ReadConfig(ch) == Ok(config) && GetInt(config, "length", 1) == Ok(n) && RetrievableAmount(n)
    requires ch.history.None?
          || AssembleBody(config, RetrievePast(ch.history.value, n)).None?
          || Install(r, ch.name, config, AssembleBody(config, RetrievePast(ch.history.value, n)), loadable).Err?
    ensures UpdateSpec(global, loadable, r, ch) == r
  {
  }

  /** An update of a command channel that reads its body leaves every name of
      the channel bound to the command built from that body. */
  lemma UpdateInstallsCommand(global: Config, loadable: map<string, string>, r: Registry, ch: Channel, config: Config, n: int, body: string)
    requires GuildIdOf(global) == Ok(ch.guildId) && StartsWith(ch.name, CommandPrefix)
    requires ReadConfig(ch) == Ok(config) && GetInt(config, "length", 1) == Ok(n) && RetrievableAmount(n)
    requires ch.history.Some? && AssembleBody(config, RetrievePast(ch.history.value, n)) == Some(body)
    requires NewCommand(config, Some(body)).Ok?
    ensures forall k :: k in CommandNames(ch.name) ==>
              k in UpdateSpec(global, loadable, r, ch).commands
              && UpdateSpec(global, loadable, r, ch).commands[k] == NewCommand(config, Some(body)).value
  {
    InstallCommandUnderAllNames(r, ch.name, config, body, loadable);
  }

  /** A rename first removes the old name's entries: none of the old command
      names is left unless the new name defines it again. */
  lemma RenameDropsOldNames(global: Config, loadable: map<string, string>, r: Registry, ch: Channel, oldName: string)
    requires GuildIdOf(global) == Ok(ch.guildId) && StartsWith(oldName, CommandPrefix)
    ensures forall k :: k in CommandNames(oldName) ==> k !in DeleteSpec(global, r, ch.guildId, oldName).commands
    ensures forall k :: k in CommandNames(oldName) && k in UpdateSpec(global, loadable, DeleteSpec(global, r, ch.guildId, oldName), ch).commands
              ==> StartsWith(ch.name, CommandPrefix)
  {
    RemoveChannelTouchesOwnKind(r, oldName);
    var d := DeleteSpec(global, r, ch.guildId, oldName);
    forall k | k in CommandNames(oldName) && k in UpdateSpec(global, loadable, d, ch).commands
      ensures StartsWith(ch.name, CommandPrefix)
    {
      UpdateOwnKind(global, loadable, d, ch);
    }
  }

  /** An update changes the commands only for a command channel. */
  lemma UpdateOwnKind(global: Config, loadable: map<string, string>, r: Registry, ch: Channel)
    ensures !StartsWith(ch.name, CommandPrefix) ==> UpdateSpec(global, loadable, r, ch).commands == r.commands
    ensures !StartsWith(ch.name, MethodPrefix) ==> UpdateSpec(global, loadable, r, ch).methods == r.methods
    ensures !StartsWith(ch.name, VarsPrefix) ==> UpdateSpec(global, loadable, r, ch).vars == r.vars
  { }

  // ---------------------------------------------------------------------
  // Start-up, as values

  /** One script channel as `init` has read it: its name, its configuration
      and its body (`None` where the fetch failed). */
  datatype Prepared = Prepared(name: string, config: Config, body: Option<string>)

  /** How `init` ends: the guild is missing (the bot shuts down), an exception
      left `init` early, a message callback threw so that the latch is never
      released, the registry is built and the executor registered as a
      listener, or the registry is built but reading `prefix` for the
      presence threw before the listener was registered. */
  datatype InitOutcome = GuildMissing | Aborted | Hung | Ready(registry: Registry) | Unregistered(registry: Registry)

  /** The script channels, in the guild's order. */
  function ScriptChannels(chs: seq<Channel>): (r: seq<Channel>)
    ensures |r| <= |chs|
    ensures forall i :: 0 <= i < |r| ==> IsScriptChannel(r[i].name)
    ensures forall c :: c in r <==> c in chs && IsScriptChannel(c.name)
  {
    if |chs| == 0 then []
    else if IsScriptChannel(chs[0].name) then [chs[0]] + ScriptChannels(chs[1..])
    else ScriptChannels(chs[1..])
  }

  lemma {:induction false} ScriptChannelsNone(chs: seq<Channel>)
    requires forall i :: 0 <= i < |chs| ==> !IsScriptChannel(chs[i].name)
    ensures ScriptChannels(chs) == []
  {
    if |chs| > 0 {
      ScriptChannelsNone(chs[1..]);
    }
  }

  /** Every channel's configuration; one unreadable topic throws. */
  function ReadConfigs(chs: seq<Channel>): (r: Option<seq<Config>>)
    ensures r.Some? <==> forall i :: 0 <= i < |chs| ==> ReadConfig(chs[i]).Ok?
    ensures r.Some? ==> |r.value| == |chs| && forall i :: 0 <= i < |chs| ==> r.value[i] == ReadConfig(chs[i]).value
  {
    if |chs| == 0 then Some([])
    else match ReadConfig(chs[0])
      case Err(_) => None
      case Ok(c) =>
        match ReadConfigs(chs[1..])
        case None => None
        case Some(rest) => Some([c] + rest)
  }

  /** Every channel's `length`; one malformed value, or one `retrievePast`
      refuses, throws. */
  function ReadLengths(cs: seq<Config>): (r: Option<seq<int>>)
    ensures r.Some? <==> forall i :: 0 <= i < |cs| ==> GetInt(cs[i], "length", 1).Ok? && RetrievableAmount(GetInt(cs[i], "length", 1).value)
    ensures r.Some? ==> |r.value| == |cs| && forall i :: 0 <= i < |cs| ==> r.value[i] == GetInt(cs[i], "length", 1).value
    ensures r.Some? ==> forall i :: 0 <= i < |r.value| ==> RetrievableAmount(r.value[i])
  {
    if |cs| == 0 then Some([])
    else match GetInt(cs[0], "length", 1)
      case Err(_) => None
      case Ok(n) =>
        if !RetrievableAmount(n) then None else
        match ReadLengths(cs[1..])
        case None => None
        case Some(rest) => Some([n] + rest)
  }

  /** The body the fetch callback stores for a channel, `None` inside when the
      fetch failed (nothing is stored); the outer `None` is a callback that
      threw. */
  function FetchBody(ch: Channel, config: Config, n: int): Option<Option<string>>
    requires RetrievableAmount(n)
  {
    match ch.history
    case None => Some(None)
    case Some(h) =>
      match AssembleBody(config, RetrievePast(h, n))
      case None => None
      case Some(b) => Some(Some(b))
  }

  function FetchBodies(chs: seq<Channel>, cs: seq<Config>, ns: seq<int>): (r: Option<seq<Option<string>>>)
    requires |cs| == |chs| && |ns| == |chs|
    requires forall i :: 0 <= i < |ns| ==> RetrievableAmount(ns[i])
    ensures r.Some? <==> forall i :: 0 <= i < |chs| ==> FetchBody(chs[i], cs[i], ns[i]).Some?
    ensures r.Some? ==> |r.value| == |chs| && forall i :: 0 <= i < |chs| ==> r.value[i] == FetchBody(chs[i], cs[i], ns[i]).value
  {
    if |chs| == 0 then Some([])
    else match FetchBody(chs[0], cs[0], ns[0])
      case None => None
      case Some(b) =>
        match FetchBodies(chs[1..], cs[1..], ns[1..])
        case None => None
        case Some(rest) => Some([b] + rest)
  }

  function Zip(chs: seq<Channel>, cs: seq<Config>, bs: seq<Option<string>>): (r: seq<Prepared>)
    requires |cs| == |chs| && |bs| == |chs|
    ensures |r| == |chs|
    ensures forall i :: 0 <= i < |chs| ==> r[i] == Prepared(chs[i].name, cs[i], bs[i])
  {
    seq(|chs|, i requires 0 <= i < |chs| => Prepared(chs[i].name, cs[i], bs[i]))
  }

  /** One channel of a phase: its entries installed, or removed when the
      constructor throws. */
  function PhaseStep(r: Registry, p: Prepared, loadable: map<string, string>): Registry
    requires IsScriptChannel(p.name)
  {
    match Install(r, p.name, p.config, p.body, loadable)
    case Ok(r2) => r2
    case Err(_) => RemoveChannel(r, p.name)
  }

  /** The channels of one kind, in order, each through `PhaseStep`. */
  function Phase(r: Registry, ps: seq<Prepared>, prefix: string, loadable: map<string, string>): Registry
    requires forall i :: 0 <= i < |ps| ==> IsScriptChannel(ps[i].name)
  {
    if |ps| == 0 then r
    else
      var before := Phase(r, ps[..|ps| - 1], prefix, loadable);
      var p := ps[|ps| - 1];
      if StartsWith(p.name, prefix) then PhaseStep(before, p, loadable) else before
  }

  /** The three phases: methods first, then variables, then commands. */
  function BuildRegistry(ps: seq<Prepared>, loadable: map<string, string>): Registry
    requires forall i :: 0 <= i < |ps| ==> IsScriptChannel(ps[i].name)
  {
    Phase(Phase(Phase(EmptyRegistry, ps, MethodPrefix, loadable), ps, VarsPrefix, loadable), ps, CommandPrefix, loadable)
  }

  datatype Preparation = PrepAborted | PrepHung | PrepOk(ps: seq<Prepared>)

  /** Reading the script channels before the phases: all configurations, then
      per channel its `length` (an exception aborts `init`) and the stored
      body (a throwing callback hangs it). An abort anywhere wins over a hang,
      since `init` throws before it waits. */
  function Prepare(chs: seq<Channel>): (r: Preparation)
    requires forall i :: 0 <= i < |chs| ==> IsScriptChannel(chs[i].name)
    ensures r.PrepOk? ==> |r.ps| == |chs| && forall i :: 0 <= i < |chs| ==> r.ps[i].name == chs[i].name && IsScriptChannel(r.ps[i].name)
    ensures r.PrepOk? ==> forall i :: 0 <= i < |chs| ==> ReadConfig(chs[i]) == Ok(r.ps[i].config)
  {
    match ReadConfigs(chs)
    case None => PrepAborted
    case Some(cs) =>
      match ReadLengths(cs)
      case None => PrepAborted
      case Some(ns) =>
        match FetchBodies(chs, cs, ns)
        case None => PrepHung
        case Some(bs) => PrepOk(Zip(chs, cs, bs))
  }

  /** `init`: the configured guild's script channels read and built into the
      registry. */
  function InitSpec(global: Config, loadable: map<string, string>, guild: Option<seq<Channel>>): InitOutcome {
    if GuildIdOf(global).Err? then Aborted
    else if guild.None? then GuildMissing
    else match Prepare(ScriptChannels(guild.value))
      case PrepAborted => Aborted
      case PrepHung => Hung
      case PrepOk(ps) =>
        if GetString(global, "prefix", "").Ok? then Ready(BuildRegistry(ps, loadable))
        else Unregistered(BuildRegistry(ps, loadable))
  }

  /** A phase changes only the map of its own kind. */
  lemma {:induction false} PhaseOwnKind(r: Registry, ps: seq<Prepared>, prefix: string, loadable: map<string, string>)
    requires forall i :: 0 <= i < |ps| ==> IsScriptChannel(ps[i].name)
    requires prefix == CommandPrefix || prefix == MethodPrefix || prefix == VarsPrefix
    ensures prefix != CommandPrefix ==> Phase(r, ps, prefix, loadable).commands == r.commands
    ensures prefix != MethodPrefix ==> Phase(r, ps, prefix, loadable).methods == r.methods
    ensures prefix != VarsPrefix ==> Phase(r, ps, prefix, loadable).vars == r.vars
  {
    if |ps| > 0 {
      PhaseOwnKind(r, ps[..|ps| - 1], prefix, loadable);
      var p := ps[|ps| - 1];
      if StartsWith(p.name, prefix) {
        PrefixesExclusive(p.name);
      }
    }
  }

  /** A channel whose constructor throws at start-up leaves none of its
      entries behind it. */
  lemma PhaseStepFailureRemoves(r: Registry, p: Prepared, loadable: map<string, string>)
    requires IsScriptChannel(p.name)
    requires Install(r, p.name, p.config, p.body, loadable).Err?
    ensures StartsWith(p.name, MethodPrefix) ==> p.name[|MethodPrefix|..] !in PhaseStep(r, p, loadable).methods
    ensures StartsWith(p.name, VarsPrefix) ==> p.name[|VarsPrefix|..] !in PhaseStep(r, p, loadable).vars
    ensures StartsWith(p.name, CommandPrefix) ==> forall k :: k in CommandNames(p.name) ==> k !in PhaseStep(r, p, loadable).commands
  {
    RemoveChannelTouchesOwnKind(r, p.name);
    PrefixesExclusive(p.name);
  }

  /** The registry of a completed start-up holds the methods of the method
      phase, the variables of the variables phase and the commands of the
      command phase, each run on its own from an empty registry: the order
      of the phases does not matter. */
  lemma BuildRegistryPhasesIndependent(ps: seq<Prepared>, loadable: map<string, string>)
    requires forall i :: 0 <= i < |ps| ==> IsScriptChannel(ps[i].name)
    ensures BuildRegistry(ps, loadable).methods == Phase(EmptyRegistry, ps, MethodPrefix, loadable).methods
    ensures BuildRegistry(ps, loadable).vars == Phase(EmptyRegistry, ps, VarsPrefix, loadable).vars
    ensures BuildRegistry(ps, loadable).commands == Phase(EmptyRegistry, ps, CommandPrefix, loadable).commands
  {
    var m := Phase(EmptyRegistry, ps, MethodPrefix, loadable);
    var v := Phase(m, ps, VarsPrefix, loadable);
    PhaseOwnKind(EmptyRegistry, ps, MethodPrefix, loadable);
    PhaseOwnKind(m, ps, VarsPrefix, loadable);
    PhaseOwnKind(v, ps, CommandPrefix, loadable);
    PhaseFrom(EmptyRegistry, m, ps, VarsPrefix, loadable);
    PhaseFrom(EmptyRegistry, v, ps, CommandPrefix, loadable);
  }

  /** A phase's own map depends only on that map of the registry it starts
      from. */
  lemma {:induction false} PhaseFrom(a: Registry, b: Registry, ps: seq<Prepared>, prefix: string, loadable: map<string, string>)
    requires forall i :: 0 <= i < |ps| ==> IsScriptChannel(ps[i].name)
    requires prefix == CommandPrefix || prefix == MethodPrefix || prefix == VarsPrefix
    requires prefix == CommandPrefix ==> a.commands == b.commands
    requires prefix == MethodPrefix ==> a.methods == b.methods
    requires prefix == VarsPrefix ==> a.vars == b.vars
    ensures prefix == CommandPrefix ==> Phase(a, ps, prefix, loadable).commands == Phase(b, ps, prefix, loadable).commands
    ensures prefix == MethodPrefix ==> Phase(a, ps, prefix, loadable).methods == Phase(b, ps, prefix, loadable).methods
    ensures prefix == VarsPrefix ==> Phase(a, ps, prefix, loadable).vars == Phase(b, ps, prefix, loadable).vars
  {
    if |ps| > 0 {
      var front := ps[..|ps| - 1];
      PhaseFrom(a, b, front, prefix, loadable);
      var p := ps[|ps| - 1];
      if StartsWith(p.name, prefix) {
        PhaseStepFrom(Phase(a, front, prefix, loadable), Phase(b, front, prefix, loadable), p, prefix, loadable);
      }
    }
  }

  /** One step of a phase keeps the two registries' maps of that phase
      equal. */
  lemma PhaseStepFrom(a: Registry, b: Registry, p: Prepared, prefix: string, loadable: map<string, string>)
    requires IsScriptChannel(p.name) && StartsWith(p.name, prefix)
    requires prefix == CommandPrefix || prefix == MethodPrefix || prefix == VarsPrefix
    requires prefix == CommandPrefix ==> a.commands == b.commands
    requires prefix == MethodPrefix ==> a.methods == b.methods
    requires prefix == VarsPrefix ==> a.vars == b.vars
    ensures prefix == CommandPrefix ==> PhaseStep(a, p, loadable).commands == PhaseStep(b, p, loadable).commands
    ensures prefix == MethodPrefix ==> PhaseStep(a, p, loadable).methods == PhaseStep(b, p, loadable).methods
    ensures prefix == VarsPrefix ==> PhaseStep(a, p, loadable).vars == PhaseStep(b, p, loadable).vars
  {
    PrefixesExclusive(p.name);
  }

  /** A guild without script channels starts with an empty registry. */
  lemma InitEmptyGuild(global: Config, loadable: map<string, string>, chs: seq<Channel>)
    requires GuildIdOf(global).Ok?
    requires forall i :: 0 <= i < |chs| ==> !IsScriptChannel(chs[i].name)
    ensures InitSpec(global, loadable, Some(chs))
         == if GetString(global, "prefix", "").Ok? then Ready(EmptyRegistry) else Unregistered(EmptyRegistry)
  {
    ScriptChannelsNone(chs);
    assert Prepare([]) == PrepOk([]);
  }

  // ---------------------------------------------------------------------
  // One execution, as values

  /** The scripting object `EngineMap` leaves in the shared bindings. */
  const EnginesObject: Value := Obj({}, "engines")

  /** The shared bindings before any script runs. */
  function InitialBindings(event: Value, args: string, bot: Value): map<string, Value> {
    map["engines" := EnginesObject, "event" := event, "args" := Str(args), "guildBot" := bot]
  }

  /** The bindings the k-th evaluation of a trace starts from. */
  function Before(initial: map<string, Value>, trace: seq<EvalRequest>, k: nat, eval: EvalRequest -> EvalReply): map<string, Value>
    requires k <= |trace|
  {
    if k == 0 then initial else eval(trace[k - 1]).bindings
  }

  /** A variables definition evaluated in its engine under a bounded wait. */
  function VarsRequest(v: Variables, global: Config, b: map<string, Value>): EvalRequest {
    EvalRequest(v.exec.engine, v.executableScript, b, TimeoutOption(TimeoutFor(v.exec.config, global)))
  }

  /** A method's hook bound under its name, then its Groovy proxy evaluated
      directly. */
  function MethodRequest(name: string, m: MethodDef, b: map<string, Value>): EvalRequest {
    EvalRequest(Groovy, GroovyProxy(m.name, m.typeName, m.params), b[name := MethodHandle(name)], None)
  }

  /** The command evaluated in its engine under a bounded wait. */
  function CommandRequest(c: Command, global: Config, b: map<string, Value>): EvalRequest {
    EvalRequest(c.exec.engine, c.executableScript, b, TimeoutOption(TimeoutFor(c.exec.config, global)))
  }

  /** A run of evaluations: the requests made and the bindings left. */
  datatype Run = Run(trace: seq<EvalRequest>, bindings: map<string, Value>)

  /** The variables definitions evaluated in the given order from bindings `b`. */
  function VarsRun(vs: map<string, Variables>, order: seq<string>, global: Config, b: map<string, Value>, eval: EvalRequest -> EvalReply): Run
    requires forall k :: k in order ==> k in vs
  {
    if |order| == 0 then Run([], b)
    else
      var r := VarsRun(vs, order[..|order| - 1], global, b, eval);
      var req := VarsRequest(vs[order[|order| - 1]], global, r.bindings);
      Run(r.trace + [req], eval(req).bindings)
  }

  /** The methods bound and their proxies evaluated in the given order. */
  function MethodsRun(ms: map<string, MethodDef>, order: seq<string>, b: map<string, Value>, eval: EvalRequest -> EvalReply): Run
    requires forall k :: k in order ==> k in ms
  {
    if |order| == 0 then Run([], b)
    else
      var r := MethodsRun(ms, order[..|order| - 1], b, eval);
      var k := order[|order| - 1];
      var req := MethodRequest(k, ms[k], r.bindings);
      Run(r.trace + [req], eval(req).bindings)
  }

  /** One variables evaluation per name; the bindings left are those the
      last one returned. */
  lemma {:induction false} VarsRunEnd(vs: map<string, Variables>, order: seq<string>, global: Config, b: map<string, Value>, eval: EvalRequest -> EvalReply)
    requires forall k :: k in order ==> k in vs
    ensures var r := VarsRun(vs, order, global, b, eval);
            |r.trace| == |order| && r.bindings == Before(b, r.trace, |r.trace|, eval)
  {
    if |order| > 0 {
      VarsRunEnd(vs, order[..|order| - 1], global, b, eval);
    }
  }

  /** The `j`-th variables evaluation runs the `j`-th definition from the
      bindings the previous one left. */
  lemma {:induction false} VarsRunAt(vs: map<string, Variables>, order: seq<string>, global: Config, b: map<string, Value>, eval: EvalRequest -> EvalReply, j: nat)
    requires forall k :: k in order ==> k in vs
    requires j < |order|
    ensures var r := VarsRun(vs, order, global, b, eval);
            |r.trace| == |order| && r.trace[j] == VarsRequest(vs[order[j]], global, Before(b, r.trace, j, eval))
  {
    var n := |order| - 1;
    var prefix := order[..n];
    VarsRunEnd(vs, prefix, global, b, eval);
    var r := VarsRun(vs, prefix, global, b, eval);
    var t := r.trace + [VarsRequest(vs[order[n]], global, r.bindings)];
    assert VarsRun(vs, order, global, b, eval).trace == t;
    if j < n {
      VarsRunAt(vs, prefix, global, b, eval, j);
      assert prefix[j] == order[j];
      assert t[j] == r.trace[j];
      if j > 0 {
        assert t[j - 1] == r.trace[j - 1];
      }
    } else if n > 0 {
      assert t[n - 1] == r.trace[n - 1];
    }
  }

  /** Variables evaluations one per name, in order, each from the bindings
      the previous one left. */
  lemma VarsRunShape(vs: map<string, Variables>, order: seq<string>, global: Config, b: map<string, Value>, eval: EvalRequest -> EvalReply)
    requires forall k :: k in order ==> k in vs
    ensures var r := VarsRun(vs, order, global, b, eval);
            && |r.trace| == |order|
            && r.bindings == Before(b, r.trace, |r.trace|, eval)
            && forall i {:trigger order[i]} :: 0 <= i < |order| ==> r.trace[i] == VarsRequest(vs[order[i]], global, Before(b, r.trace, i, eval))
  {
    VarsRunEnd(vs, order, global, b, eval);
    forall i | 0 <= i < |order| ensures VarsRun(vs, order, global, b, eval).trace[i] == VarsRequest(vs[order[i]], global, Before(b, VarsRun(vs, order, global, b, eval).trace, i, eval)) {
      VarsRunAt(vs, order, global, b, eval, i);
    }
  }

  /** One method evaluation per name; the bindings left are those the last
      one returned. */
  lemma {:induction false} MethodsRunEnd(ms: map<string, MethodDef>, order: seq<string>, b: map<string, Value>, eval: EvalRequest -> EvalReply)
    requires forall k :: k in order ==> k in ms
    ensures var r := MethodsRun(ms, order, b, eval);
            |r.trace| == |order| && r.bindings == Before(b, r.trace, |r.trace|, eval)
  {
    if |order| > 0 {
      MethodsRunEnd(ms, order[..|order| - 1], b, eval);
    }
  }

  /** The `j`-th method evaluation binds the `j`-th hook over the bindings
      the previous one left and evaluates its proxy. */
  lemma {:induction false} MethodsRunAt(ms: map<string, MethodDef>, order: seq<string>, b: map<string, Value>, eval: EvalRequest -> EvalReply, j: nat)
    requires forall k :: k in order ==> k in ms
    requires j < |order|
    ensures var r := MethodsRun(ms, order, b, eval);
            |r.trace| == |order| && r.trace[j] == MethodRequest(order[j], ms[order[j]], Before(b, r.trace, j, eval))
  {
    var n := |order| - 1;
    var prefix := order[..n];
    MethodsRunEnd(ms, prefix, b, eval);
    var r := MethodsRun(ms, prefix, b, eval);
    var t := r.trace + [MethodRequest(order[n], ms[order[n]], r.bindings)];
    assert MethodsRun(ms, order, b, eval).trace == t;
    if j < n {
      MethodsRunAt(ms, prefix, b, eval, j);
      assert prefix[j] == order[j];
      assert t[j] == r.trace[j];
      if j > 0 {
        assert t[j - 1] == r.trace[j - 1];
      }
    } else if n > 0 {
      assert t[n - 1] == r.trace[n - 1];
    }
  }

  /** Method evaluations one per name, in order, each from the bindings the
      previous one left plus the method's own hook. */
  lemma MethodsRunShape(ms: map<string, MethodDef>, order: seq<string>, b: map<string, Value>, eval: EvalRequest -> EvalReply)
    requires forall k :: k in order ==> k in ms
    ensures var r := MethodsRun(ms, order, b, eval);
            && |r.trace| == |order|
            && r.bindings == Before(b, r.trace, |r.trace|, eval)
            && forall j {:trigger order[j]} :: 0 <= j < |order| ==> r.trace[j] == MethodRequest(order[j], ms[order[j]], Before(b, r.trace, j, eval))
  {
    MethodsRunEnd(ms, order, b, eval);
    forall j | 0 <= j < |order| ensures MethodsRun(ms, order, b, eval).trace[j] == MethodRequest(order[j], ms[order[j]], Before(b, MethodsRun(ms, order, b, eval).trace, j, eval)) {
      MethodsRunAt(ms, order, b, eval, j);
    }
  }

  /** Every method hook is bound by the time its proxy is evaluated. */
  lemma MethodsRunBindsHooks(ms: map<string, MethodDef>, order: seq<string>, b: map<string, Value>, eval: EvalRequest -> EvalReply)
    requires forall k :: k in order ==> k in ms
    ensures forall j :: 0 <= j < |order| ==>
              |MethodsRun(ms, order, b, eval).trace| == |order|
              && order[j] in MethodsRun(ms, order, b, eval).trace[j].bindings
              && MethodsRun(ms, order, b, eval).trace[j].bindings[order[j]] == MethodHandle(order[j])
              && MethodsRun(ms, order, b, eval).trace[j].engine == Groovy
  {
    MethodsRunShape(ms, order, b, eval);
  }

  // ---------------------------------------------------------------------
  // The executor

  class CommandExecutor {
    /** The bot's configuration, the classes its loader can load, the
        `guildBot` object scripts see and the bot's own mention. */
    const global: Config
    const loadable: map<string, string>
    const bot: Value
    const selfMention: string

    var commands: map<string, Command>
    var methods: map<string, MethodDef>
    var vars: map<string, Variables>
    /** Whether `init` completed and registered the executor as a listener. */
    var ready: bool
    /** Whether `init` shut the bot down. */
    var shutDown: bool

    function Contents(): Registry
      reads this
    {
      Registry(commands, methods, vars)
    }

    /** The constructor starts `init` on the thread pool; here `Init` is a
        separate step. The maps are null until then, given as empty. */
    constructor(global: Config, loadable: map<string, string>, bot: Value, selfMention: string)
      ensures this.global == global && this.loadable == loadable && this.bot == bot && this.selfMention == selfMention
      ensures Contents() == EmptyRegistry && !ready && !shutDown
    {
      this.global := global;
      this.loadable := loadable;
      this.bot := bot;
      this.selfMention := selfMention;
      commands := map[];
      methods := map[];
      vars := map[];
      ready := false;
      shutDown := false;
    }

    /** The command prefix: the configured one, else the bot's mention and a
        space. */
    function Prefix(): (r: Result<string, AccessError>)
      reads this
      ensures "prefix" !in global ==> r == Ok(selfMention + " ")
      ensures "prefix" in global ==> (r.Ok? <==> global["prefix"].JString?)
      ensures "prefix" in global && r.Ok? ==> r.value == global["prefix"].s
    {
      GetString(global, "prefix", selfMention + " ")
    }

    /** The removals of `delete(guildId, name)` past its guild check. */
    method RemoveEntries(name: string)
      modifies this
      ensures Contents() == RemoveChannel(old(Contents()), name)
      ensures ready == old(ready) && shutDown == old(shutDown)
    {
      if StartsWith(name, MethodPrefix) {
        methods := methods - {name[|MethodPrefix|..]};
      } else if StartsWith(name, VarsPrefix) {
        vars := vars - {name[|VarsPrefix|..]};
      } else if StartsWith(name, CommandPrefix) {
        var names := CommandNames(name);
        var m := commands;
        var i := 0;
        while i < |names|
          invariant 0 <= i <= |names|
          invariant m == RemoveAll(commands, names[..i])
          modifies {}
        {
          assert names[..i + 1] == names[..i] + [names[i]];
          RemoveAllSnoc(commands, names[..i], names[i]);
          m := m - {names[i]};
          i := i + 1;
        }
        assert names[..|names|] == names;
        commands := m;
      }
    }

    /** `delete(guildId, name)`. */
    method Delete(guildId: int, name: string)
      modifies this
      ensures Contents() == DeleteSpec(global, old(Contents()), guildId, name)
      ensures ready == old(ready) && shutDown == old(shutDown)
    {
      if GuildIdOf(global) != Ok(guildId) {
        return;
      }
      RemoveEntries(name);
    }

    /** The consumer `update` picks for the channel's kind: build the
        definition from the body and store it. `false` when the constructor
        throws; nothing is stored then. */
    method Put(name: string, config: Config, body: Option<string>) returns (ok: bool)
      requires IsScriptChannel(name)
      modifies this
      ensures ok <==> Install(old(Contents()), name, config, body, loadable).Ok?
      ensures ok ==> Contents() == Install(old(Contents()), name, config, body, loadable).value
      ensures !ok ==> Contents() == old(Contents())
      ensures ready == old(ready) && shutDown == old(shutDown)
    {
      if StartsWith(name, MethodPrefix) {
        ok := PutMethod(name[|MethodPrefix|..], config, body);
      } else if StartsWith(name, VarsPrefix) {
        ok := PutVars(name[|VarsPrefix|..], config, body);
      } else {
        ok := PutCommand(name, config, body);
      }
    }

    method PutMethod(key: string, config: Config, body: Option<string>) returns (ok: bool)
      modifies this
      ensures ok <==> NewMethod(config, key, body, loadable).Ok?
      ensures ok ==> Contents() == old(Contents()).(methods := old(methods)[key := NewMethod(config, key, body, loadable).value])
      ensures !ok ==> Contents() == old(Contents())
      ensures ready == old(ready) && shutDown == old(shutDown)
    {
      var m := NewMethod(config, key, body, loadable);
      if m.Err? {
        return false;
      }
      methods := methods[key := m.value];
      ok := true;
    }

    method PutVars(key: string, config: Config, body: Option<string>) returns (ok: bool)
      modifies this
      ensures ok <==> NewVariables(config, body).Ok?
      ensures ok ==> Contents() == old(Contents()).(vars := old(vars)[key := NewVariables(config, body).value])
      ensures !ok ==> Contents() == old(Contents())
      ensures ready == old(ready) && shutDown == old(shutDown)
    {
      var v := NewVariables(config, body);
      if v.Err? {
        return false;
      }
      vars := vars[key := v.value];
      ok := true;
    }

    method PutCommand(name: string, config: Config, body: Option<string>) returns (ok: bool)
      requires StartsWith(name, CommandPrefix)
      modifies this
      ensures ok <==> NewCommand(config, body).Ok?
      ensures ok ==> Contents() == old(Contents()).(commands := InstallAll(old(commands), CommandNames(name), NewCommand(config, body).value))
      ensures !ok ==> Contents() == old(Contents())
      ensures ready == old(ready) && shutDown == old(shutDown)
    {
      var built := NewCommand(config, body);
      if built.Err? {
        return false;
      }
      commands := PutAll(commands, CommandNames(name), built.value);
      ok := true;
    }

    /** `update(channel)`. */
    method Update(ch: Channel)
      modifies this
      ensures Contents() == UpdateSpec(global, loadable, old(Contents()), ch)
      ensures ready == old(ready) && shutDown == old(shutDown)
    {
      if GuildIdOf(global) != Ok(ch.guildId) || !IsScriptChannel(ch.name) {
        return;
      }
      match ReadConfig(ch)
      case Err(_) =>
        Delete(ch.guildId, ch.name);
      case Ok(config) =>
        match GetInt(config, "length", 1)
        case Err(_) =>
          Delete(ch.guildId, ch.name);
        case Ok(n) =>
          if !RetrievableAmount(n) {
            Delete(ch.guildId, ch.name);
          } else if ch.history.Some? {
            var body := AssembleBody(config, RetrievePast(ch.history.value, n));
            if body.Some? {
              var _ := Put(ch.name, config, body);
            }
          }
    }

    /** One phase of `init`: each channel of the kind built and stored, or, when
        its constructor throws, its entries deleted. */
    method RunPhase(ps: seq<Prepared>, prefix: string)
      requires forall i :: 0 <= i < |ps| ==> IsScriptChannel(ps[i].name)
      modifies this
      ensures Contents() == Phase(old(Contents()), ps, prefix, loadable)
      ensures ready == old(ready) && shutDown == old(shutDown)
    {
      var i := 0;
      while i < |ps|
        invariant 0 <= i <= |ps|
        invariant Contents() == Phase(old(Contents()), ps[..i], prefix, loadable)
        invariant ready == old(ready) && shutDown == old(shutDown)
      {
        assert ps[..i + 1][..i] == ps[..i];
        var p := ps[i];
        if StartsWith(p.name, prefix) {
          var ok := Put(p.name, p.config, p.body);
          if !ok {
            RemoveEntries(p.name);
          }
        }
        i := i + 1;
      }
      assert ps[..|ps|] == ps;
    }

    /** `init`, given the text channels of the guild with the configured id
        (`None` when there is no such guild). */
    method Init(guild: Option<seq<Channel>>) returns (outcome: InitOutcome)
      requires !ready && !shutDown && Contents() == EmptyRegistry
      modifies this
      ensures outcome == InitSpec(global, loadable, guild)
      ensures outcome.Ready? ==> ready && !shutDown && Contents() == outcome.registry
      ensures outcome.GuildMissing? ==> shutDown && !ready && Contents() == EmptyRegistry
      ensures outcome.Unregistered? ==> !ready && !shutDown && Contents() == outcome.registry
      ensures outcome.Aborted? || outcome.Hung? ==> !ready && !shutDown && Contents() == EmptyRegistry
      ensures outcome.Ready? ==> Prefix().Ok?
      ensures outcome.Unregistered? ==> Prefix().Err?
    {
      if GuildIdOf(global).Err? {
        return Aborted;
      }
      if guild.None? {
        shutDown := true;
        return GuildMissing;
      }
      var prep := Prepare(ScriptChannels(guild.value));
      match prep
      case PrepAborted =>
        outcome := Aborted;
      case PrepHung =>
        outcome := Hung;
      case PrepOk(ps) =>
        assert InitSpec(global, loadable, guild)
            == if GetString(global, "prefix", "").Ok? then Ready(BuildRegistry(ps, loadable)) else Unregistered(BuildRegistry(ps, loadable));
        var m := Phase(EmptyRegistry, ps, MethodPrefix, loadable);
        var v := Phase(m, ps, VarsPrefix, loadable);
        PhaseOwnKind(EmptyRegistry, ps, MethodPrefix, loadable);
        PhaseOwnKind(m, ps, VarsPrefix, loadable);
        methods := map[];
        RunPhase(ps, MethodPrefix);
        assert Contents() == m;
        vars := map[];
        assert Contents() == m;
        RunPhase(ps, VarsPrefix);
        assert Contents() == v;
        commands := map[];
        assert Contents() == v;
        RunPhase(ps, CommandPrefix);
        if GetString(global, "prefix", "").Ok? {
          ready := true;
          outcome := Ready(Contents());
        } else {
          outcome := Unregistered(Contents());
        }
    }

    /** The first loop of `execute`: every variables definition evaluated once,
        in the map's iteration order (left open here). */
    method RunVars(initial: map<string, Value>, eval: EvalRequest -> EvalReply)
      returns (varOrder: seq<string>, trace: seq<EvalRequest>, bindings: map<string, Value>)
      ensures NoDuplicates(varOrder) && (forall k :: k in varOrder <==> k in vars)
      ensures Run(trace, bindings) == VarsRun(vars, varOrder, global, initial, eval)
    {
      var vs := vars;
      bindings := initial;
      trace := [];
      varOrder := [];
      var pending := vs.Keys;
      while pending != {}
        invariant pending <= vs.Keys
        invariant forall k :: k in varOrder <==> k in vs && k !in pending
        invariant NoDuplicates(varOrder)
        invariant Run(trace, bindings) == VarsRun(vs, varOrder, global, initial, eval)
        decreases |pending|
      {
        var k :| k in pending;
        var req := VarsRequest(vs[k], global, bindings);
        assert (varOrder + [k])[..|varOrder|] == varOrder;
        trace := trace + [req];
        bindings := eval(req).bindings;
        varOrder := varOrder + [k];
        pending := pending - {k};
      }
    }

    /** The inner loop of `execute`'s method loop: the method's proxy evaluated
        in every engine that has one, which is Groovy alone. */
    method EvalProxies(m: MethodDef, bindings: map<string, Value>, eval: EvalRequest -> EvalReply)
      returns (added: seq<EvalRequest>, after: map<string, Value>)
      ensures added == [EvalRequest(Groovy, GroovyProxy(m.name, m.typeName, m.params), bindings, None)]
      ensures after == eval(added[0]).bindings
    {
      var req := EvalRequest(Groovy, GroovyProxy(m.name, m.typeName, m.params), bindings, None);
      added := [];
      after := bindings;
      var e := 0;
      while e < |AllEngines|
        invariant 0 <= e <= |AllEngines|
        invariant e == 0 ==> added == [] && after == bindings
        invariant e >= 1 ==> added == [req] && after == eval(req).bindings
      {
        var script := ExecutableScriptFor(m, AllEngines[e]);
        if script.Some? {
          var r := EvalRequest(AllEngines[e], script.value, after, None);
          added := added + [r];
          after := eval(r).bindings;
        }
        e := e + 1;
      }
    }

    /** The method loop of `execute`: every method's hook bound under its name
        and its proxies evaluated, in the map's iteration order. */
    method RunMethods(b: map<string, Value>, eval: EvalRequest -> EvalReply)
      returns (methodOrder: seq<string>, trace: seq<EvalRequest>, bindings: map<string, Value>)
      ensures NoDuplicates(methodOrder) && (forall k :: k in methodOrder <==> k in methods)
      ensures Run(trace, bindings) == MethodsRun(methods, methodOrder, b, eval)
    {
      var ms := methods;
      trace := [];
      bindings := b;
      methodOrder := [];
      var pending := ms.Keys;
      while pending != {}
        invariant pending <= ms.Keys
        invariant forall k :: k in methodOrder <==> k in ms && k !in pending
        invariant NoDuplicates(methodOrder)
        invariant Run(trace, bindings) == MethodsRun(ms, methodOrder, b, eval)
        decreases |pending|
      {
        var k :| k in pending;
        var added, after := EvalProxies(ms[k], bindings[k := MethodHandle(k)], eval);
        assert added == [MethodRequest(k, ms[k], bindings)];
        assert (methodOrder + [k])[..|methodOrder|] == methodOrder;
        trace := trace + added;
        bindings := after;
        methodOrder := methodOrder + [k];
        pending := pending - {k};
      }
    }

    /** `execute(command, event, args)`: every variables definition evaluated,
        then every method bound and its proxies evaluated, then the command
        evaluated and its result dispatched. All evaluations share one set of
        bindings, each starting from what the previous one left. */
    method Execute(command: Command, event: Value, args: string, eval: EvalRequest -> EvalReply)
      returns (varOrder: seq<string>, methodOrder: seq<string>, trace: seq<EvalRequest>, result: CommandResult)
      ensures NoDuplicates(varOrder) && (forall k :: k in varOrder <==> k in vars)
      ensures NoDuplicates(methodOrder) && (forall k :: k in methodOrder <==> k in methods)
      ensures var v := VarsRun(vars, varOrder, global, InitialBindings(event, args, bot), eval);
              var m := MethodsRun(methods, methodOrder, v.bindings, eval);
              trace == v.trace + m.trace + [CommandRequest(command, global, m.bindings)]
      ensures result == Interpret(TimeoutFor(command.exec.config, global), eval(trace[|trace| - 1]).outcome)
    {
      var t1, b1;
      varOrder, t1, b1 := RunVars(InitialBindings(event, args, bot), eval);
      var t2, b2;
      methodOrder, t2, b2 := RunMethods(b1, eval);
      var creq := CommandRequest(command, global, b2);
      trace := t1 + t2 + [creq];
      var reply := eval(creq);
      result := Interpret(TimeoutFor(command.exec.config, global), reply.outcome);
    }

    /** `onMessageReceived`: a message holding the prefix and a known command
        name runs that command. `None` when nothing runs. */
    method OnMessageReceived(content: string, event: Value, eval: EvalRequest -> EvalReply)
      returns (varOrder: seq<string>, methodOrder: seq<string>, trace: seq<EvalRequest>, result: Option<CommandResult>)
      ensures result.Some? <==> ready && Prefix().Ok? && ParseTrigger(content, Prefix().value).Some?
                                && ParseTrigger(content, Prefix().value).value.name in commands
      ensures result.None? ==> trace == []
      ensures result.Some? ==> NoDuplicates(varOrder) && (forall k :: k in varOrder <==> k in vars)
      ensures result.Some? ==> NoDuplicates(methodOrder) && (forall k :: k in methodOrder <==> k in methods)
      ensures result.Some? ==>
                var t := ParseTrigger(content, Prefix().value).value;
                var c := commands[t.name];
                var v := VarsRun(vars, varOrder, global, InitialBindings(event, t.args, bot), eval);
                var m := MethodsRun(methods, methodOrder, v.bindings, eval);
                && trace == v.trace + m.trace + [CommandRequest(c, global, m.bindings)]
                && result.value == Interpret(TimeoutFor(c.exec.config, global), eval(trace[|trace| - 1]).outcome)
    {
      varOrder, methodOrder := [], [];
      trace := [];
      result := None;
      if !ready {
        return;
      }
      match Prefix()
      case Err(_) =>
      case Ok(prefix) =>
        match ParseTrigger(content, prefix)
        case None =>
        case Some(t) =>
          if t.name in commands {
            var vo, mo, tr, r0 := Execute(commands[t.name], event, t.args, eval);
            varOrder, methodOrder, trace := vo, mo, tr;
            result := Some(r0);
          }
    }

    /** A member update, a new channel, a new message or a topic change. */
    method OnChannelChanged(ch: Channel)
      modifies this
      ensures Contents() == if old(ready) then UpdateSpec(global, loadable, old(Contents()), ch) else old(Contents())
      ensures ready == old(ready) && shutDown == old(shutDown)
    {
      if ready {
        Update(ch);
      }
    }

    /** A deleted channel. */
    method OnChannelDeleted(guildId: int, name: string)
      modifies this
      ensures Contents() == if old(ready) then DeleteSpec(global, old(Contents()), guildId, name) else old(Contents())
      ensures ready == old(ready) && shutDown == old(shutDown)
    {
      if ready {
        Delete(guildId, name);
      }
    }

    /** A renamed channel: the old name's entries deleted, then the channel
        read under its new name. */
    method OnChannelRenamed(ch: Channel, oldName: string)
      modifies this
      ensures Contents() == if old(ready) then UpdateSpec(global, loadable, DeleteSpec(global, old(Contents()), ch.guildId, oldName), ch)
                            else old(Contents())
      ensures ready == old(ready) && shutDown == old(shutDown)
    {
      if ready {
        Delete(ch.guildId, oldName);
        Update(ch);
      }
    }
  }
}
