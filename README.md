# GuildBot, modelled in Dafny

GuildBot is a Discord bot whose commands are written inside one guild.
Each text channel named `cmd-<name>[-<alias>…]`, `mthd-<name>` or `vars-<name>` is a *script channel*.
Its topic is an Hjson configuration: `lang`, `imports`, `length`, `timeout`, `type` and `params`.
Its newest `length` messages, oldest first and with their code fences removed, form the script.

- A `cmd-` channel defines a command under each of its dash-separated names.
- A `mthd-` channel defines a method that other scripts can call.
- A `vars-` channel defines shared variables.

Scripts run in a Groovy or a JavaScript (Nashorn) engine.

The executor (`CommandExecutor`) does four things:

- It builds three registries, of commands, methods and variables, when it starts (`init`).
- It keeps them current as channels and messages change (`update`, `delete` and the event handlers).
- When a message starts with the configured prefix and names a command, it runs that command (`execute`).
  First every variables definition is evaluated, then every method is bound.
  The command's result is then dispatched by its runtime type.
- Each evaluation takes over the bindings the previous one left.

The support code is modelled too:

- the engine table and script wrappers (`Engine`);
- the definitions (`Executable`, `Command`, `Variables`, `Method`);
- the helpers `GuildBotUtils`, `ExceptionUtils` and `Properties`.

The older single-guild `Bot` listener is modelled as well.
It offers `&&help` and `&&<command>`, which evaluates the newest message of every matching `cmd-` channel.
Before that, it evaluates the `mthd-` channels as JavaScript functions and then the environment channel's newest message.

Modules, one per file:

| module | file | models |
|---|---|---|
| Wrappers | wrappers.dfy | `Option` and `Result` |
| Strings | strings.dfy | the Java string operations the code relies on: `split`, `toLowerCase`, `trim`, `startsWith` |
| Json | json.dfy | Hjson values and the `getString`/`getInt` accessors with defaults, which throw on a wrong kind |
| Transport | transport.dfy | channels, message histories, script values and the script-engine oracle |
| Engines | engines.dfy | `Engine` |
| Definitions | definitions.dfy | `Executable`, `Command`, `Variables` and `Method` |
| GuildBotUtils | guildbot_utils.dfy | `GuildBotUtils` |
| ExceptionUtils | exception_utils.dfy | `ExceptionUtils` |
| Properties | properties.dfy | `Properties` |
| Executor | executor.dfy | `CommandExecutor`: pure specification functions, plus the `CommandExecutor` class with the three maps as fields |
| LegacyBot | legacy_bot.dfy | `Bot` |

How the model handles what it cannot see:
- **Script engines are an oracle.** `eval: EvalRequest -> EvalReply` is a parameter. A request holds the engine, the script, the bindings it starts from and the timeout. The reply gives how the evaluation ended and the bindings it leaves.
- **Discord is data.** A guild is a sequence of channels. A channel's topic is given both as text and as its Hjson parse. A history is given newest first, or `None` when it cannot be fetched.
- **The class loader** is the parameter `loadable`. It maps each token the loader resolves to the type name that class prints as.
- **Construction failures are `Result` values.** A Java exception thrown by a constructor is an `Err` here, with the reason it was thrown.

## Model

| member | source | states |
|---|---|---|
| Json.ToConfig | src/main/java/io/github/jdaapplications/guildbot/util/GuildBotUtils.java:16 | A parsed Hjson object has exactly the keys of its members. A key given twice keeps its last value. |
| Json.ToConfigLastWins | src/main/java/io/github/jdaapplications/guildbot/util/GuildBotUtils.java:16 | Every key maps to the value of its last member: a member that no later member shares its name with gives that key its value. |
| Json.GetString | src/main/java/io/github/jdaapplications/guildbot/executor/executable/Executable.java:27 | `getString(key, default)` returns the default when the key is absent and the string when it is a string. Any other kind throws, which is an `Err` here. |
| Json.GetInt | src/main/java/io/github/jdaapplications/guildbot/executor/CommandExecutor.java:194 | `getInt(key, default)` returns the default when the key is absent and the number when it is an integer. Any other kind throws. |
| Transport.RetrievePast | src/main/java/io/github/jdaapplications/guildbot/executor/CommandExecutor.java:194 | `retrievePast(n)`, for the amounts 1 to 100 that JDA accepts, returns the newest `n` messages, newest first, or the whole history when it is shorter. |
| GuildBotUtils.ReadConfig | src/main/java/io/github/jdaapplications/guildbot/util/GuildBotUtils.java:14-17 | A missing or empty topic gives the empty configuration. Any other topic must parse as an Hjson object, otherwise it is an error. A topic that parses as an object gives that object's members. |
| GuildBotUtils.IsScriptChannel | src/main/java/io/github/jdaapplications/guildbot/util/GuildBotUtils.java:9-12 | A channel holds a script exactly when its name starts with one of the three prefixes `cmd-`, `mthd-`, `vars-`, so its name has at least four characters. The private copy in `CommandExecutor` (its lines 433-436) is the same test. |
| GuildBotUtils.ScriptChannelExamples | src/main/java/io/github/jdaapplications/guildbot/util/GuildBotUtils.java:9-12 | `cmd-…`, `mthd-…` and `vars-…` (the bare `cmd-` included) are script channels. `general`, `cmd` and `method-x` are not. |
| Strings.JavaSplit | src/main/java/io/github/jdaapplications/guildbot/executor/CommandExecutor.java:415 | `String.split` on one character: no part contains the separator, a string without the separator is its own single part, and trailing empty parts are dropped. |
| Strings.JavaSplitJoin | src/main/java/io/github/jdaapplications/guildbot/executor/CommandExecutor.java:415 | Splitting dash-joined parts gives those parts back, whenever the last part is non-empty or it is the only one. |
| Strings.DropTrailingEmpties | src/main/java/io/github/jdaapplications/guildbot/executor/CommandExecutor.java:415 | Dropping trailing empty parts removes exactly the run of empty parts after the last non-empty one. |
| Strings.JavaSplitTrailing | src/main/java/io/github/jdaapplications/guildbot/executor/CommandExecutor.java:415 | Parts followed by one or more empty parts (the text ends in separators) split back into just those parts. |
| Strings.SplitFirstWhitespace | src/main/java/io/github/jdaapplications/guildbot/executor/CommandExecutor.java:121 | `split("\\s+", 2)`: one or two parts. The first has no whitespace. With two, the original is the first part, a non-empty whitespace run, then the second part, which does not start with whitespace. |
| Strings.SplitFirstWhitespaceOf | src/main/java/io/github/jdaapplications/guildbot/executor/CommandExecutor.java:121 | A token, a whitespace run and a rest split back into the token and the rest. |
| Strings.SplitFirstWhitespaceNone | src/main/java/io/github/jdaapplications/guildbot/executor/CommandExecutor.java:121 | A string without whitespace is not split. |
| Strings.ToLower | src/main/java/io/github/jdaapplications/guildbot/executor/Engine.java:98 | `toLowerCase`: same length, each character lowered independently. |
| Strings.Trim | src/main/java/io/github/jdaapplications/guildbot/util/Properties.java:33 | `trim`: a slice of the input whose two ends are not blank, no longer than the input. |
| Engines.EngineTableComplete | src/main/java/io/github/jdaapplications/guildbot/executor/Engine.java:85-89 | The static table maps each engine's name to that engine, and nothing else. |
| Engines.GetEngine | src/main/java/io/github/jdaapplications/guildbot/executor/Engine.java:96-99 | The lookup succeeds exactly when some engine is named by the lower-cased name, and the engine found carries that name. |
| Engines.GetEngineOfName | src/main/java/io/github/jdaapplications/guildbot/executor/Engine.java:96-104 | Looking up an engine's own name finds that engine. |
| Engines.GetEngineExamples | src/main/java/io/github/jdaapplications/guildbot/executor/Engine.java:96-99 | `JS` finds JavaScript and `Groovy` finds Groovy. `python` finds nothing. |
| Engines.GroovyImports | src/main/java/io/github/jdaapplications/guildbot/executor/Engine.java:37 | One `import x.*;` line per import, in order. |
| Engines.GetScript | src/main/java/io/github/jdaapplications/guildbot/executor/Engine.java:35-64 | Groovy: exactly the `import` lines joined by spaces, a newline, then the script. JavaScript: exactly `with(new JavaImporter(`, the imports joined by `, `, `)) {`, the script, then `}`. |
| Engines.UnwrapGetScript | src/main/java/io/github/jdaapplications/guildbot/executor/Engine.java:35-64 | The script can be recovered from what `getScript` built (a round trip). |
| Engines.GetScriptNamesImports | src/main/java/io/github/jdaapplications/guildbot/executor/Engine.java:35-64 | Every import appears in the built script: as its `import` line in Groovy, and as itself in JavaScript. |
| Engines.GetScriptExamples | src/main/java/io/github/jdaapplications/guildbot/executor/Engine.java:35-64 | Concrete outputs: Groovy with no or one import, and JavaScript with none. |
| Engines.Declarations | src/main/java/io/github/jdaapplications/guildbot/executor/Engine.java:24-26 | Each parameter is written as `type name`, in order. |
| Engines.ParamNames | src/main/java/io/github/jdaapplications/guildbot/executor/Engine.java:28-30 | The parameter names, in order. |
| Engines.GetProxyMethod | src/main/java/io/github/jdaapplications/guildbot/executor/Engine.java:21-58 | Only Groovy has a proxy (JavaScript returns null). The Groovy proxy is exactly the typed signature `ProxyHead` followed by the call `ProxyTail`, `name.invoke(args)`, with nothing in between. |
| Engines.GroovyProxyExample | src/main/java/io/github/jdaapplications/guildbot/executor/Engine.java:21-32 | `int add(int a, int b)` gives `int add(int a, int b) { add.invoke(a, b) }`. |
| Engines.EscapeCodeBlock | src/main/java/io/github/jdaapplications/guildbot/executor/Engine.java:121-124 | Text matching neither fence pattern is returned unchanged. A stripped result is non-empty, and it sits between the opening fence (with or without the language line) and the closing fence. A fence tagged with the engine's name is cut after the tag line. Any other fence is cut after its three backticks. Both cuts end before the closing backticks. |
| Engines.EscapeFence | src/main/java/io/github/jdaapplications/guildbot/executor/Engine.java:121-124 | A body fenced as `\`\`\`lang\n body \`\`\`` is recovered exactly. |
| Engines.EscapeFenceKeepsNewline | src/main/java/io/github/jdaapplications/guildbot/executor/Engine.java:121-124 | The optional `\n` before the closing fence is kept in the group, because the group `[\S\s]+` is greedy. |
| Engines.EscapeBareFence | src/main/java/io/github/jdaapplications/guildbot/executor/Engine.java:121-124 | A fence without a language line is stripped to its inside. |
| Definitions.Dedup | src/main/java/io/github/jdaapplications/guildbot/executor/executable/Executable.java:32-36 | The imports are collected into a set: the same elements, no duplicates, no more entries than were given. |
| Definitions.Texts | src/main/java/io/github/jdaapplications/guildbot/executor/executable/Executable.java:34-35 | `asString` of each import entry, in order. |
| Definitions.ImportList | src/main/java/io/github/jdaapplications/guildbot/executor/executable/Executable.java:31-36 | No `imports` key gives no imports. Otherwise the construction succeeds exactly when `imports` is an array of strings, and the import set is exactly those strings. |
| Definitions.Access | src/main/java/io/github/jdaapplications/guildbot/executor/executable/Executable.java:27 | A configuration accessor that throws fails the construction with that accessor's own reason. A successful one passes its value through. |
| Definitions.Lang | src/main/java/io/github/jdaapplications/guildbot/executor/executable/Executable.java:27 | `lang` defaults to `js` when absent. A present `lang` is read exactly when it is a string, and then its string is the language. |
| Definitions.NewExecutable | src/main/java/io/github/jdaapplications/guildbot/executor/executable/Executable.java:22-37 | The construction succeeds exactly when `lang` is a string naming an engine, a body exists and the imports are well formed. An unknown language is reported as such. On success: the configuration is kept, the engine has the lower-cased `lang` name, the script is the body with its code fence removed, and the imports are the import set. |
| Definitions.DefaultLangIsJs | src/main/java/io/github/jdaapplications/guildbot/executor/executable/Executable.java:27 | Without `lang` and `imports` the construction succeeds and the engine is JavaScript. |
| Definitions.NewCommand | src/main/java/io/github/jdaapplications/guildbot/executor/executable/Command.java:15-25 | A command exists exactly when its executable does, with the same failure. Its executable script wraps the raw body, not the fence-stripped one, so the raw body can be recovered from it. |
| Definitions.NewVariables | src/main/java/io/github/jdaapplications/guildbot/executor/executable/Variables.java:13-23 | The same, except that the wrapped text is the fence-stripped script. |
| Definitions.CommandDefaultScript | src/main/java/io/github/jdaapplications/guildbot/executor/executable/Command.java:19 | With no configuration, a command is its raw body inside an empty `JavaImporter` block. |
| Definitions.CommandKeepsFenceVariablesStrip | src/main/java/io/github/jdaapplications/guildbot/executor/executable/Variables.java:17 | For one fenced body, the command keeps the fence in its wrapped text and the variables definition removes it. |
| Definitions.VariablesGroovyOneImport | src/main/java/io/github/jdaapplications/guildbot/executor/executable/Variables.java:17 | Groovy with one import: that import line, a newline, then the stripped body. |
| Definitions.ResolveClass | src/main/java/io/github/jdaapplications/guildbot/executor/executable/Method.java:35-42 | A primitive name resolves first and prints as itself. Any other token resolves exactly when the class loader finds it, and then prints as that class's type name (`getTypeName()`, so `java.util.Map.Entry` prints as `java.util.Map$Entry`). Every other token fails. |
| Definitions.Kept | src/main/java/io/github/jdaapplications/guildbot/executor/executable/Method.java:49 | The parameters kept are exactly the members whose value is a non-empty string, in order. |
| Definitions.KeptAppend | src/main/java/io/github/jdaapplications/guildbot/executor/executable/Method.java:49 | The filter distributes over appending one member. |
| Definitions.ParseParams | src/main/java/io/github/jdaapplications/guildbot/executor/executable/Method.java:48-60 | The filter then the map: the list is built exactly when every kept member's type resolves. It then has one parameter per kept member, in order, carrying that member's name and its resolved type. |
| Definitions.ResolveParams | src/main/java/io/github/jdaapplications/guildbot/executor/executable/Method.java:50-59 | The `map` stage: it succeeds exactly when every member's type resolves, and then gives one parameter per member, in order, with that member's name and resolved type. |
| Definitions.ReadParams | src/main/java/io/github/jdaapplications/guildbot/executor/executable/Method.java:44-47 | No `params` key gives no parameters. A `params` value that is not an object fails, as the `(JsonObject)` cast throws. An object is parsed by `ParseParams`. |
| Definitions.NewMethod | src/main/java/io/github/jdaapplications/guildbot/executor/executable/Method.java:30-65 | A method builds exactly when its executable builds, `type` (default `void`) is a string that resolves, and `params` parses. On success it keeps the executable, its name, the resolved type name and the parameters. An unresolvable type makes the construction fail. The proxy script wraps the stripped script, so the stripped script can be recovered from it. |
| Definitions.MethodDefaults | src/main/java/io/github/jdaapplications/guildbot/executor/executable/Method.java:30-65 | With no configuration a method exists, returns `void` and has no parameters. |
| Definitions.ExecutableScriptFor | src/main/java/io/github/jdaapplications/guildbot/executor/executable/Method.java:62-70 | A method has an executable script only for Groovy, and it starts with the method's typed signature. |
| Definitions.TimeoutFor | src/main/java/io/github/jdaapplications/guildbot/executor/executable/Method.java:115 | The wait is the definition's `timeout`, else the global one, else 5 seconds. A definition `timeout` that is not an integer throws. The global value is read eagerly as the default argument, so a malformed global timeout fails even when the definition sets its own. |
| Definitions.LastParamIndex | src/main/java/io/github/jdaapplications/guildbot/executor/executable/Method.java:109-111 | The last parameter with a given name, or -1 when none has it. |
| Definitions.BindParamsLookup | src/main/java/io/github/jdaapplications/guildbot/executor/executable/Method.java:107-111 | After binding, a parameter's name holds the argument of the last parameter with that name. Every other name keeps the copied context's value. |
| Definitions.BindParamsIgnoresExtra | src/main/java/io/github/jdaapplications/guildbot/executor/executable/Method.java:109-111 | Arguments beyond the parameter count are ignored. |
| Definitions.Invoke | src/main/java/io/github/jdaapplications/guildbot/executor/executable/Method.java:102-131 | Fewer arguments than parameters throw ("threw an error"). The bindings are the context plus the arguments. A malformed timeout throws. Otherwise the proxy script is evaluated with the timeout: a `void` method returns null, a script failure is "threw an error", and a timeout or an interrupt is "timed out". |
| ExceptionUtils.GetTrace | src/main/java/io/github/jdaapplications/guildbot/util/ExceptionUtils.java:5-25 | The loop builds exactly `Trace(t)`. |
| ExceptionUtils.FirstJda | src/main/java/io/github/jdaapplications/guildbot/util/ExceptionUtils.java:16-20 | The index of the first JDA event-manager frame, or the frame count when there is none. |
| ExceptionUtils.FramesTextClosedForm | src/main/java/io/github/jdaapplications/guildbot/util/ExceptionUtils.java:12-22 | The frames text is the "at" lines of the first min(15, first JDA frame) frames, followed by the omission marker exactly when a JDA frame comes within the first 15. |
| ExceptionUtils.TraceClosedForm | src/main/java/io/github/jdaapplications/guildbot/util/ExceptionUtils.java:5-25 | The trace is `class: message` followed by that frames text. |
| ExceptionUtils.FramesTextIgnoresTail | src/main/java/io/github/jdaapplications/guildbot/util/ExceptionUtils.java:12 | Frames after the 15th never affect the trace. |
| ExceptionUtils.TraceOfBare | src/main/java/io/github/jdaapplications/guildbot/util/ExceptionUtils.java:7-9 | A throwable without message or frames prints as `class: null`. |
| ExceptionUtils.TraceStopsAtJda | src/main/java/io/github/jdaapplications/guildbot/util/ExceptionUtils.java:16-20 | When the first frame is JDA's, the trace is the header and the omission marker only. |
| Properties.FirstNonComment | src/main/java/io/github/jdaapplications/guildbot/util/Properties.java:33 | The first line not starting with `#`: every line before it is a comment, and `None` means every line is one. |
| Properties.Get | src/main/java/io/github/jdaapplications/guildbot/util/Properties.java:10-40 | A set system property wins. Otherwise a missing, unreadable or empty file, or an I/O failure, gives null. Any other file gives the trimmed first non-comment line, or null when there is none. |
| Properties.GetFromFileIsTrimmed | src/main/java/io/github/jdaapplications/guildbot/util/Properties.java:33 | A value read from the file has no blank character at either end. |
| Properties.GetSkipsComment | src/main/java/io/github/jdaapplications/guildbot/util/Properties.java:33 | A leading `# …` line is skipped and the next line, `  abc\t`, is read as `abc`. |
| Properties.GetIndentedHash | src/main/java/io/github/jdaapplications/guildbot/util/Properties.java:33 | An indented `#` line is not a comment. Its trimmed text is the value. |
| Executor.UnwrapMessage | src/main/java/io/github/jdaapplications/guildbot/executor/CommandExecutor.java:198-203 | A message not both opening with `\`\`\`lang\n` and closing with `\n\`\`\`` is kept as it is. A fenced message whose two fences overlap makes `substring` throw (`None`). |
| Executor.UnwrapFenced | src/main/java/io/github/jdaapplications/guildbot/executor/CommandExecutor.java:200-201 | A fenced message gives back its body. |
| Executor.UnwrapEmptyFence | src/main/java/io/github/jdaapplications/guildbot/executor/CommandExecutor.java:200-201 | `\`\`\`js\n\`\`\`` throws, because the two fences share the newline. |
| Executor.Reverse | src/main/java/io/github/jdaapplications/guildbot/executor/CommandExecutor.java:196 | `Collections.reverse`: element i moves to position n-1-i. |
| Executor.UnwrapAll | src/main/java/io/github/jdaapplications/guildbot/executor/CommandExecutor.java:196-204 | All messages unwrap, element by element, or the whole body fails. |
| Executor.AssembleBody | src/main/java/io/github/jdaapplications/guildbot/executor/CommandExecutor.java:194-206 | No messages give the empty body. Otherwise `lang` must be readable, and the body is the unwrapped messages, oldest first, joined with newlines. |
| Executor.AssembleOneFenced | src/main/java/io/github/jdaapplications/guildbot/executor/CommandExecutor.java:194-206 | One fenced JavaScript message gives its body. |
| Executor.AssembleOldestFirst | src/main/java/io/github/jdaapplications/guildbot/executor/CommandExecutor.java:196-204 | Two plain messages, newest first, give the older line, a newline, then the newer. |
| Executor.ParseTrigger | src/main/java/io/github/jdaapplications/guildbot/executor/CommandExecutor.java:113-130 | A message is a trigger exactly when it opens with the prefix. The command name has no whitespace. |
| Executor.ParseTriggerOf | src/main/java/io/github/jdaapplications/guildbot/executor/CommandExecutor.java:119-130 | The prefix, a name, a whitespace run and arguments parse to the lower-cased name and those arguments. |
| Executor.ParseTriggerBare | src/main/java/io/github/jdaapplications/guildbot/executor/CommandExecutor.java:119-130 | The prefix and a name alone parse with empty arguments. |
| Executor.CommandNames | src/main/java/io/github/jdaapplications/guildbot/executor/CommandExecutor.java:415 | The dash-separated names after `cmd-`: none contains a dash. |
| Executor.CommandNamesTrailing | src/main/java/io/github/jdaapplications/guildbot/executor/CommandExecutor.java:415 | Examples of trailing separators: `cmd-a-b-` names `a` and `b`, `cmd-` names the empty alias, and `cmd--` names nothing. |
| Executor.CommandNamesOf | src/main/java/io/github/jdaapplications/guildbot/executor/CommandExecutor.java:415 | A `cmd-` name built by joining parts splits back into those parts. |
| Executor.FirstKind | src/main/java/io/github/jdaapplications/guildbot/executor/CommandExecutor.java:301-317 | The first kind in the order that the value has, or `None` exactly when it has none of them. |
| Executor.Dispatch | src/main/java/io/github/jdaapplications/guildbot/executor/CommandExecutor.java:301-317 | A rest action is queued exactly when the result is one. A sent message is the result itself, sent as one of its own kinds other than RestAction and Throwable. "An error occured" is sent exactly when the result is a Throwable and of no earlier kind. |
| Executor.FirstKindOfPrecedence | src/main/java/io/github/jdaapplications/guildbot/executor/CommandExecutor.java:301-317 | The branch order is RestAction, String, Message, MessageEmbed, MessageBuilder, EmbedBuilder, Throwable. |
| Executor.DispatchFollowsPrecedence | src/main/java/io/github/jdaapplications/guildbot/executor/CommandExecutor.java:301-317 | An object is handled by the first branch its runtime types match. With no match, nothing happens. |
| Executor.DispatchNothingIffNoKind | src/main/java/io/github/jdaapplications/guildbot/executor/CommandExecutor.java:301-317 | Nothing is sent or queued exactly for null and for objects of none of those types. |
| Executor.Interpret | src/main/java/io/github/jdaapplications/guildbot/executor/CommandExecutor.java:279-299 | The future is cancelled exactly on a timeout or an interrupt. A returned value is dispatched. Every failure, a malformed timeout included, replies "An error occured". |
| Executor.RemoveAll | src/main/java/io/github/jdaapplications/guildbot/executor/CommandExecutor.java:230-232 | Removing the names: exactly the other keys remain, with their values. |
| Executor.RemoveAllSnoc | src/main/java/io/github/jdaapplications/guildbot/executor/CommandExecutor.java:231-232 | Removal name by name matches removal of the whole list. |
| Executor.InstallAll | src/main/java/io/github/jdaapplications/guildbot/executor/CommandExecutor.java:415-416 | After the puts, every name maps to the command, and every other key keeps its value. |
| Executor.PutAll | src/main/java/io/github/jdaapplications/guildbot/executor/CommandExecutor.java:186-191 | The loop of `put` over the split names ends with exactly `InstallAll` of the names. |
| Executor.InstallAllSnoc | src/main/java/io/github/jdaapplications/guildbot/executor/CommandExecutor.java:415-416 | Putting name by name matches putting the whole list. |
| Executor.RemoveChannel | src/main/java/io/github/jdaapplications/guildbot/executor/CommandExecutor.java:226-232 | Deleting a channel touches only the map of its own kind. |
| Executor.PrefixesExclusive | src/main/java/io/github/jdaapplications/guildbot/util/GuildBotUtils.java:11 | No channel name has two of the three prefixes. |
| Executor.Install | src/main/java/io/github/jdaapplications/guildbot/executor/CommandExecutor.java:174-192 | Building a definition changes only the map of its kind. It succeeds exactly when that kind's constructor does. A method or variables definition is put under the name without its prefix. A command is put under every one of its names. |
| Executor.RemoveChannelTouchesOwnKind | src/main/java/io/github/jdaapplications/guildbot/executor/CommandExecutor.java:221-233 | `mthd-`/`vars-`: the one key is removed. `cmd-`: exactly the channel's names are removed. Any other channel: nothing changes. |
| Executor.RemoveChannelIdempotent | src/main/java/io/github/jdaapplications/guildbot/executor/CommandExecutor.java:221-233 | Deleting twice is the same as deleting once. |
| Executor.InstallCommandUnderAllNames | src/main/java/io/github/jdaapplications/guildbot/executor/CommandExecutor.java:186-191 | A command channel whose command builds is installed under each of its names. The other entries stay. |
| Executor.UpdateIgnoresOtherChannels | src/main/java/io/github/jdaapplications/guildbot/executor/CommandExecutor.java:162-166 | A channel of another guild, or one that is not a script channel, changes nothing. |
| Executor.UpdateBadTopicRemoves | src/main/java/io/github/jdaapplications/guildbot/executor/CommandExecutor.java:168-212 | A topic that does not parse deletes the channel's entries. |
| Executor.UpdateUnretrievableRemoves | src/main/java/io/github/jdaapplications/guildbot/executor/CommandExecutor.java:194-212 | A `length` that `retrievePast` refuses throws inside the `try`, so the channel's entries are deleted. |
| Executor.UpdateInstallsCommand | src/main/java/io/github/jdaapplications/guildbot/executor/CommandExecutor.java:160-214 | When the topic, the length and the history all succeed and the command builds, every name of the channel maps to the new command. |
| Executor.UpdateCallbackFailureKeeps | src/main/java/io/github/jdaapplications/guildbot/executor/CommandExecutor.java:194-212 | When the history cannot be read, the body cannot be assembled, or the build throws inside the callback, the old maps stay as they were: the failure is not caught there, so nothing is installed or removed. |
| Executor.RenameDropsOldNames | src/main/java/io/github/jdaapplications/guildbot/executor/CommandExecutor.java:147-152 | After a rename, none of the old command names remains unless the new name is a command channel again. |
| Executor.UpdateOwnKind | src/main/java/io/github/jdaapplications/guildbot/executor/CommandExecutor.java:160-214 | An update changes only the map of the channel's own kind. |
| Executor.ScriptChannels | src/main/java/io/github/jdaapplications/guildbot/executor/CommandExecutor.java:337 | The filtered channels are exactly the script channels, in order. |
| Executor.ScriptChannelsNone | src/main/java/io/github/jdaapplications/guildbot/executor/CommandExecutor.java:337 | A guild without script channels has none to read. |
| Executor.ReadConfigs | src/main/java/io/github/jdaapplications/guildbot/executor/CommandExecutor.java:343-344 | Every topic is read, and any failure aborts `init` (the read is outside a `try`). |
| Executor.ReadLengths | src/main/java/io/github/jdaapplications/guildbot/executor/CommandExecutor.java:350 | Every `length` must be an integer that `retrievePast` accepts (1 to 100), or `init` aborts. Both the read and the call are outside a `try`. |
| Executor.FetchBodies | src/main/java/io/github/jdaapplications/guildbot/executor/CommandExecutor.java:348-376 | A failed fetch stores no body, because its failure callback also counts the latch down (lines 363-367). That channel's constructor then fails and its entries are deleted. Only a success callback that throws (an unreadable `lang`, or overlapping fences) leaves the latch above zero and hangs `init`. |
| Executor.Zip | src/main/java/io/github/jdaapplications/guildbot/executor/CommandExecutor.java:343-376 | One prepared entry per channel: its name, configuration and body. |
| Executor.Prepare | src/main/java/io/github/jdaapplications/guildbot/executor/CommandExecutor.java:337-376 | The prepared entries follow the channels one for one, with the configuration read from each topic. |
| Executor.PhaseOwnKind | src/main/java/io/github/jdaapplications/guildbot/executor/CommandExecutor.java:378-423 | Each building phase changes only the map of its own kind. |
| Executor.PhaseStepFailureRemoves | src/main/java/io/github/jdaapplications/guildbot/executor/CommandExecutor.java:387-391 | A construction that throws deletes that channel's entries. |
| Executor.BuildRegistryPhasesIndependent | src/main/java/io/github/jdaapplications/guildbot/executor/CommandExecutor.java:378-423 | Each map of the built registry is what its own phase builds from empty maps. |
| Executor.PhaseFrom | src/main/java/io/github/jdaapplications/guildbot/executor/CommandExecutor.java:378-423 | A phase's result for its own kind depends only on its own map at the start. |
| Executor.PhaseStepFrom | src/main/java/io/github/jdaapplications/guildbot/executor/CommandExecutor.java:378-423 | One channel of a phase keeps the two registries' maps of that phase equal. |
| Executor.InitEmptyGuild | src/main/java/io/github/jdaapplications/guildbot/executor/CommandExecutor.java:320-431 | A guild with no script channels builds empty registries. `init` then registers the listener exactly when `prefix` is readable. |
| Executor.VarsRunEnd | src/main/java/io/github/jdaapplications/guildbot/executor/CommandExecutor.java:246-258 | The vars loop makes one evaluation per definition. It leaves the bindings the last one returned. |
| Executor.VarsRunAt | src/main/java/io/github/jdaapplications/guildbot/executor/CommandExecutor.java:246-258 | The j-th evaluation is the j-th definition, in its engine with its timeout, starting from the bindings the (j-1)-th left. |
| Executor.VarsRunShape | src/main/java/io/github/jdaapplications/guildbot/executor/CommandExecutor.java:246-258 | The same for every j at once. |
| Executor.MethodsRunEnd | src/main/java/io/github/jdaapplications/guildbot/executor/CommandExecutor.java:260-277 | The method loop makes one Groovy proxy evaluation per method. It leaves the bindings the last one returned. |
| Executor.MethodsRunAt | src/main/java/io/github/jdaapplications/guildbot/executor/CommandExecutor.java:260-277 | The j-th evaluation is the j-th method's proxy, with its invocation hook bound under its name on top of the previous bindings. |
| Executor.MethodsRunShape | src/main/java/io/github/jdaapplications/guildbot/executor/CommandExecutor.java:260-277 | The same for every j at once. |
| Executor.MethodsRunBindsHooks | src/main/java/io/github/jdaapplications/guildbot/executor/CommandExecutor.java:262 | Every method's proxy evaluation sees that method's hook under its name, and runs in Groovy. |
| Executor.GuildIdOf | src/main/java/io/github/jdaapplications/guildbot/executor/CommandExecutor.java:162 | `getLong("guildId", 0)`: 0 when absent, the number when it is one, and failure for a member of any other kind. `update`, `delete` and `init` read it the same way (lines 223 and 324). |
| Executor.CommandExecutor.constructor | src/main/java/io/github/jdaapplications/guildbot/executor/CommandExecutor.java:50-65 | The executor keeps the bot's configuration and starts with empty maps, neither ready nor shut down. |
| Executor.CommandExecutor.Prefix | src/main/java/io/github/jdaapplications/guildbot/executor/CommandExecutor.java:113 | `getString("prefix", mention + ' ')`, also read at line 428: the bot's mention and a space when absent, the configured string when it is one, and failure for a member of any other kind. |
| Executor.CommandExecutor.RemoveEntries | src/main/java/io/github/jdaapplications/guildbot/executor/CommandExecutor.java:226-232 | The maps become exactly `RemoveChannel` of the old maps. The flags are unchanged. |
| Executor.CommandExecutor.Delete | src/main/java/io/github/jdaapplications/guildbot/executor/CommandExecutor.java:221-233 | A name from another guild changes nothing. Otherwise the channel's entries are removed. |
| Executor.CommandExecutor.Put | src/main/java/io/github/jdaapplications/guildbot/executor/CommandExecutor.java:174-192 | The store succeeds exactly when the constructor does, and the maps become `Install`'s result. On failure nothing changes. |
| Executor.CommandExecutor.PutMethod | src/main/java/io/github/jdaapplications/guildbot/executor/CommandExecutor.java:174-179 | A built method is stored under its key and nothing else changes. A method that does not build leaves everything as it was. |
| Executor.CommandExecutor.PutVars | src/main/java/io/github/jdaapplications/guildbot/executor/CommandExecutor.java:180-185 | The same for a variables definition. |
| Executor.CommandExecutor.PutCommand | src/main/java/io/github/jdaapplications/guildbot/executor/CommandExecutor.java:186-192 | A built command is stored under every one of the channel's names. A command that does not build changes nothing. |
| Executor.CommandExecutor.Update | src/main/java/io/github/jdaapplications/guildbot/executor/CommandExecutor.java:160-214 | The new maps are `UpdateSpec` of the old ones. Its properties are the lemmas above: other channels are ignored; a bad topic, a bad length or one `retrievePast` refuses deletes the channel's entries; a successful build installs the definition. |
| Executor.CommandExecutor.RunPhase | src/main/java/io/github/jdaapplications/guildbot/executor/CommandExecutor.java:378-423 | One kind's channels are built in order. A definition that fails to build deletes that channel's entries. |
| Executor.CommandExecutor.Init | src/main/java/io/github/jdaapplications/guildbot/executor/CommandExecutor.java:320-431 | The outcome is `InitSpec`. A missing guild shuts the bot down. A topic or length that cannot be read, or a length `retrievePast` refuses, aborts. A throwing fetch callback hangs. In these cases the executor is not ready. Otherwise the methods, variables and commands are built in that order. The executor becomes ready exactly when `prefix` can then be read (line 428). A non-string `prefix` throws before `addEventListener` (line 430), so the maps stay built but no event is ever handled. |
| Executor.CommandExecutor.RunVars | src/main/java/io/github/jdaapplications/guildbot/executor/CommandExecutor.java:246-258 | Each variables definition is evaluated exactly once, in some order of the map's keys, and the run is `VarsRun` for that order. |
| Executor.CommandExecutor.EvalProxies | src/main/java/io/github/jdaapplications/guildbot/executor/CommandExecutor.java:264-276 | Of the engines, only Groovy has a proxy script, so exactly that one evaluation is made. |
| Executor.CommandExecutor.RunMethods | src/main/java/io/github/jdaapplications/guildbot/executor/CommandExecutor.java:260-277 | Each method is bound and its proxy evaluated exactly once, in some order of the keys, and the run is `MethodsRun` for that order. |
| Executor.CommandExecutor.Execute | src/main/java/io/github/jdaapplications/guildbot/executor/CommandExecutor.java:235-317 | The evaluations are the vars run from the initial bindings, then the methods run, then the command from the bindings they left. The result is `Interpret` of the command's outcome under its timeout. |
| Executor.CommandExecutor.OnMessageReceived | src/main/java/io/github/jdaapplications/guildbot/executor/CommandExecutor.java:110-133 | A command runs exactly when the executor is ready, the prefix is readable, the message opens with it and the lower-cased first token names a command. When none runs, no evaluation is made. When one runs, the evaluations are the vars run from the initial bindings (holding the arguments), then the methods run, then the named command from the bindings they left. The result is `Interpret` of the command's outcome under its timeout. |
| Executor.CommandExecutor.OnChannelChanged | src/main/java/io/github/jdaapplications/guildbot/executor/CommandExecutor.java:92-108 | A message event, a channel creation or a topic change updates the channel, once the executor is ready. |
| Executor.CommandExecutor.OnChannelDeleted | src/main/java/io/github/jdaapplications/guildbot/executor/CommandExecutor.java:141-145 | Deleting a channel deletes its entries, once the executor is ready. |
| Executor.CommandExecutor.OnChannelRenamed | src/main/java/io/github/jdaapplications/guildbot/executor/CommandExecutor.java:147-152 | A rename deletes the old name's entries, then updates the channel under its new name. |
| LegacyBot.ParseCommand | src/main/java/io/github/jdaapplications/guildbot/Bot.java:74-77 | The command is the first token after `&&` and has no whitespace. The message starts with `&&` and the command, and ends with the arguments. With nothing after the command, the arguments are empty. |
| LegacyBot.ParseCommandOf | src/main/java/io/github/jdaapplications/guildbot/Bot.java:74-77 | `&&`, a command, a whitespace run and the arguments parse back into that command and those arguments. |
| LegacyBot.ParseAgreesWithTrigger | src/main/java/io/github/jdaapplications/guildbot/Bot.java:74-77 | The legacy parse is the executor's trigger parse with prefix `&&`, up to lower-casing the command. |
| LegacyBot.HelpEntry | src/main/java/io/github/jdaapplications/guildbot/Bot.java:84-85 | A non-command channel has no entry. A command channel's line is exactly a newline, its first alias in backticks, ` - ` and its topic (or `no description`). It fails when the name has no alias, because `split` then gives an empty array. |
| LegacyBot.HelpSpec | src/main/java/io/github/jdaapplications/guildbot/Bot.java:80-87 | The help text starts with the `**HELP FILE**` header. |
| LegacyBot.HelpSpecLines | src/main/java/io/github/jdaapplications/guildbot/Bot.java:80-87 | Whenever the text is built, it is exactly the header followed by the help lines of the channels, in order. |
| LegacyBot.HelpTextWithAliases | src/main/java/io/github/jdaapplications/guildbot/Bot.java:82-86 | With every command channel named, the help text is the header followed by one line per command channel. |
| LegacyBot.HelpTwoCommandsExample | src/main/java/io/github/jdaapplications/guildbot/Bot.java:82-86 | `cmd-ping` with topic `replies pong`, a plain `general` and `cmd-add` without a topic give the header, then `` `ping` - replies pong `` and `` `add` - no description ``. |
| LegacyBot.HelpText | src/main/java/io/github/jdaapplications/guildbot/Bot.java:82-85 | The loop builds exactly `HelpSpec`. |
| LegacyBot.HelpFailsFrom | src/main/java/io/github/jdaapplications/guildbot/Bot.java:83-85 | Once building the help text has failed, it stays failed. |
| LegacyBot.HelpFailsIff | src/main/java/io/github/jdaapplications/guildbot/Bot.java:83-85 | The help text fails exactly when some command channel has no alias. |
| LegacyBot.HelpWithAliases | src/main/java/io/github/jdaapplications/guildbot/Bot.java:83-85 | When every command channel has an alias, the help text exists. |
| LegacyBot.HelpWithoutCommands | src/main/java/io/github/jdaapplications/guildbot/Bot.java:82-85 | Without command channels the help text is the header alone. |
| LegacyBot.HelpEntryExample | src/main/java/io/github/jdaapplications/guildbot/Bot.java:85 | `cmd-ping-p` without a topic is listed as `ping` with "no description". |
| LegacyBot.Wrapper | src/main/java/io/github/jdaapplications/guildbot/Bot.java:160 | Exactly `function `, the name, `(`, the topic (`null` when absent), `) {`, a newline, the body, a newline and `};`. |
| LegacyBot.Latest | src/main/java/io/github/jdaapplications/guildbot/Bot.java:157-159 | The newest message, when the history can be fetched and is not empty. |
| LegacyBot.Definition | src/main/java/io/github/jdaapplications/guildbot/Bot.java:150-160 | A `mthd-` channel's definition is exactly the wrapper above with the name after the prefix, the channel topic and the newest message. |
| LegacyBot.Functions | src/main/java/io/github/jdaapplications/guildbot/Bot.java:143-166 | At most one definition per channel. |
| LegacyBot.FunctionsAppend | src/main/java/io/github/jdaapplications/guildbot/Bot.java:143-166 | The definitions of two channel lists are those of each, in order. |
| LegacyBot.FunctionsComplete | src/main/java/io/github/jdaapplications/guildbot/Bot.java:143-166 | Every `mthd-` channel with a longer name and a message has its definition included. |
| LegacyBot.FunctionsSound | src/main/java/io/github/jdaapplications/guildbot/Bot.java:143-166 | Every definition included comes from such a channel. |
| LegacyBot.Constants | src/main/java/io/github/jdaapplications/guildbot/Bot.java:168-183 | A missing environment channel, or a fetch that throws, aborts the handler. Otherwise its newest message, if any, is evaluated. |
| LegacyBot.Prelude | src/main/java/io/github/jdaapplications/guildbot/Bot.java:113-114 | Before a command, the function definitions are evaluated, then the constants. The prelude fails exactly when the constants do. |
| LegacyBot.FormatResult | src/main/java/io/github/jdaapplications/guildbot/Bot.java:115-126 | A null result sends nothing. A value sends its text. A `ScriptException` sends exactly `SCRIPTERROR` and a code block with its message; any other exception sends `ERROR` and a code block with its message. |
| LegacyBot.Dispatch | src/main/java/io/github/jdaapplications/guildbot/Bot.java:89-136 | At most one evaluation per channel. |
| LegacyBot.CallsFor | src/main/java/io/github/jdaapplications/guildbot/Bot.java:89-136 | One evaluation per matching script, with the arguments and the prelude, in order. |
| LegacyBot.DispatchNoMatch | src/main/java/io/github/jdaapplications/guildbot/Bot.java:89-91 | When no channel matches, nothing is evaluated and nothing is sent. |
| LegacyBot.DispatchAllWritten | src/main/java/io/github/jdaapplications/guildbot/Bot.java:89-136 | When every matching channel has a script, each is evaluated in channel order, and each non-null result is sent in the same order. |
| LegacyBot.DispatchStopsAtUnwritten | src/main/java/io/github/jdaapplications/guildbot/Bot.java:93-102 | The first matching channel without a message sends "That command is not written!" and ends the handler. |
| LegacyBot.DispatchStep | src/main/java/io/github/jdaapplications/guildbot/Bot.java:89-136 | One channel of the loop: skipped, not written, aborted by the prelude, or evaluated and answered. |
| LegacyBot.RunCommands | src/main/java/io/github/jdaapplications/guildbot/Bot.java:89-137 | The loop computes exactly `Dispatch`. |
| LegacyBot.OnMessageReceived | src/main/java/io/github/jdaapplications/guildbot/Bot.java:66-141 | The handler computes exactly `OnMessageSpec`. |
| LegacyBot.IgnoredMessages | src/main/java/io/github/jdaapplications/guildbot/Bot.java:70 | Messages from bots, and messages without `&&`, do nothing. |
| LegacyBot.ParseHelp | src/main/java/io/github/jdaapplications/guildbot/Bot.java:80 | `&&HELP` parses as `HELP`, which matches `help` in any case. |
| LegacyBot.HelpCommand | src/main/java/io/github/jdaapplications/guildbot/Bot.java:80-87 | `help` in any case sends exactly one message, the help text, and evaluates nothing, whenever every command channel has an alias. |

## Left out

- I/O, threads and the thread pool: evaluations are sequential calls to the oracle. A script that times out and goes on running in the background is not modelled, and neither is any race between event handlers.
- What the scripts do: they are opaque. So is every Java object a script sees: the event, `guildBot`, `engines` and the method hooks.
- Logging, `printStackTrace`, the presence and game status set at the end of `init`, and the listener registration. The last is modelled as the `ready` flag that guards the handlers.
- `CommandExecutor` before `init`: its maps are `null` in Java and empty here. Its handlers are not registered until `init` finishes, so the model ignores events before then.
- The iteration order of `HashMap` and `HashSet`. The variables and methods loops pick their next key nondeterministically (`:|`), and the contracts hold for whatever order is taken. The import set keeps the first occurrence of each import.
- Integer widths: `getLong("guildId")`, `getInt("length")` and the timeouts are unbounded integers. Hjson numbers with a fraction are not modelled. A non-integer where an integer is read is a wrong kind.
- JDA is not modelled. Its one check that matters here, that `retrievePast` takes 1 to 100 messages, is stated as `Transport.RetrievableAmount`. A `length` outside that range deletes the channel in `update` and aborts `init`, as JDA's `IllegalArgumentException` does.
- `toLowerCase` and `equalsIgnoreCase` are ASCII-only here, and `\s` is the ASCII whitespace set.
- Java's regex `$` also matches before a final line terminator. `Engines.EscapeCodeBlock` requires the closing fence at the very end of the text.
- `Method.invoke` runs the proxy script in a new engine instance. That `invoke` is modelled as `Definitions.Invoke`, and `execute` binds only an opaque hook. The Groovy proxy that `execute` evaluates directly runs without a timeout, as in the code.
- `Properties.get`: an `UncheckedIOException` thrown while the lines are being read is not modelled (only the `IOException` of the checks is).
- `Bot`: the `onReady` handler (lines 60-64). The constructor's thread pool. The fixed guild and environment ids, which are inputs here. The `SENDERROR` path of lines 127-134 (a send failure is JDA's).
- `Bot` fetches the environment channel once per command channel. The model gives every channel the same answer.
- `Bot`: each function definition is evaluated separately and its failure is swallowed. The model passes all definitions to the oracle as one prelude.
- `GuildBot.java` (start-up, configuration loading, the thread pool) and `EngineMap.java` (one engine instance per `Engine`) fall outside the modelled core. The configuration is a parameter, and the engines are the oracle.
- `Executor.CommandExecutor.Update`: the asynchronous callback is modelled as finishing before `update` returns. A callback that throws (a constructor failure, or an overlapping fence) leaves the maps as they were, because the exception is not caught.
