/** The definition objects built from a channel's configuration and body:
    `Executable` and its three kinds `Command`, `Variables` and `Method`.
    They are immutable once built, so each is a datatype; a failed
    construction (an exception in the constructor) is an `Err`. */
module Definitions {

  import opened Wrappers
  import opened Strings
  import opened Json
  import opened Transport
  import opened Engines

  /** The exception a constructor throws. */
  datatype BuildError =
    | BadConfig(access: AccessError)      // a member of the wrong kind
    | UnknownLang(lang: string)           // `getEngine` gave null
    | NoScript                            // the body is null
    | BadImports                          // `imports` is not an array of strings
    | TypeNotFound(token: string)         // `ClassUtils.getClass` failed on `type`
    | ParamsNotObject                     // `params` is not an object
    | ParamTypeNotFound(token: string)    // `ClassUtils.getClass` failed on a parameter type

  // ---------------------------------------------------------------------
  // Executable

  /** The fields every definition shares: its configuration, its engine, the
      fence-stripped body and its imports. */
  datatype Executable = Executable(config: Config, engine: Engine, script: string, imports: seq<string>)

  predicate NoDuplicates(xs: seq<string>) {
    forall i, j :: 0 <= i < j < |xs| ==> xs[i] != xs[j]
  }

  /** The distinct elements of `xs`, each at its first occurrence. */
  function Dedup(xs: seq<string>): (r: seq<string>)
    ensures forall x :: x in r <==> x in xs
    ensures NoDuplicates(r)
    ensures |r| <= |xs|
  {
    if |xs| == 0 then []
    else
      var d := Dedup(xs[..|xs| - 1]);
      var x := xs[|xs| - 1];
      assert forall y :: y in xs <==> y in xs[..|xs| - 1] || y == x by {
        assert xs == xs[..|xs| - 1] + [x];
      }
      if x in d then d else d + [x]
  }

  predicate AllStrings(items: seq<JsonValue>) {
    forall i :: 0 <= i < |items| ==> items[i].JString?
  }

  function Texts(items: seq<JsonValue>): (r: seq<string>)
    requires AllStrings(items)
    ensures |r| == |items|
    ensures forall i :: 0 <= i < |items| ==> r[i] == items[i].s
  {
    if |items| == 0 then [] else [items[0].s] + Texts(items[1..])
  }

  /** The `imports` set: empty when absent, the distinct strings of the array
      otherwise; anything else makes `asArray`/`asString` throw. */
  function ImportList(config: Config): (r: Result<seq<string>, BuildError>)
    ensures "imports" !in config ==> r == Ok([])
    ensures "imports" in config ==>
              (r.Ok? <==> config["imports"].JArray? && AllStrings(config["imports"].items))
    ensures r.Ok? ==> NoDuplicates(r.value)
    ensures r.Ok? && "imports" in config ==>
              forall x :: x in r.value <==> exists i :: 0 <= i < |config["imports"].items| && config["imports"].items[i] == JString(x)
  {
    if "imports" !in config then Ok([])
    else match config["imports"]
      case JArray(items) =>
        if AllStrings(items) then
          var ts := Texts(items);
          assert forall x :: x in ts <==> exists i :: 0 <= i < |items| && items[i] == JString(x) by {
            forall x ensures x in ts <==> exists i :: 0 <= i < |items| && items[i] == JString(x) {
              if x in ts {
                var i :| 0 <= i < |ts| && ts[i] == x;
                assert items[i] == JString(x);
              }
            }
          }
          Ok(Dedup(ts))
        else Err(BadImports)
      case _ => Err(BadImports)
  }

  /** A configuration access failure, as the constructor's exception. */
  function Access<T>(r: Result<T, AccessError>): (b: Result<T, BuildError>)
    ensures b.Ok? <==> r.Ok?
    ensures r.Ok? ==> b.value == r.value
    ensures r.Err? ==> b.error == BadConfig(r.error)
  {
    match r
    case Ok(v) => Ok(v)
    case Err(e) => Err(BadConfig(e))
  }

  /** The configured language name, "js" when absent. */
  function Lang(config: Config): (r: Result<string, AccessError>)
    ensures "lang" !in config ==> r == Ok("js")
    ensures "lang" in config ==> (r.Ok? <==> config["lang"].JString?)
    ensures "lang" in config && r.Ok? ==> r.value == config["lang"].s
  {
    GetString(config, "lang", "js")
  }

  /** The `Executable` constructor: the engine named by `lang` (lower-cased),
      the body stripped of a code fence by that engine, and the imports.
      An unknown language leaves the engine `null`, and the next line
      dereferences it; a `null` body fails in `escapeCodeBlock`. */
  function NewExecutable(config: Config, raw: Option<string>): (r: Result<Executable, BuildError>)
    ensures r.Ok? <==> Lang(config).Ok? && GetEngine(Lang(config).value).Some? && raw.Some? && ImportList(config).Ok?
    ensures Lang(config).Ok? && GetEngine(Lang(config).value).None? ==> r == Err(UnknownLang(Lang(config).value))
    ensures r.Ok? ==> r.value.config == config
    ensures r.Ok? ==> Name(r.value.engine) == ToLower(Lang(config).value)
    ensures r.Ok? ==> r.value.script == EscapeCodeBlock(r.value.engine, raw.value)
    ensures r.Ok? ==> r.value.imports == ImportList(config).value
  {
    var lang :- Access(Lang(config));
    match GetEngine(lang)
    case None => Err(UnknownLang(lang))
    case Some(engine) =>
      match raw
      case None => Err(NoScript)
      case Some(body) =>
        var imports :- ImportList(config);
        Ok(Executable(config, engine, EscapeCodeBlock(engine, body), imports))
  }

  /** Without `lang` the engine is JavaScript. */
  lemma DefaultLangIsJs(config: Config, raw: string)
    requires "lang" !in config && "imports" !in config
    ensures NewExecutable(config, Some(raw)).Ok?
    ensures NewExecutable(config, Some(raw)).value.engine == JavaScript
  {
    assert ToLower("js") == "js";
  }

  // ---------------------------------------------------------------------
  // Command and Variables

  /** A command: the wrapped text of the body as the constructor received it. */
  datatype Command = Command(exec: Executable, executableScript: string)

  /** A variables definition: the wrapped text of the fence-stripped body. */
  datatype Variables = Variables(exec: Executable, executableScript: string)

  /** `new Command(config, script)`: fails exactly when `Executable` does, and
      wraps the raw argument (not the fence-stripped `getScript()`). */
  function NewCommand(config: Config, raw: Option<string>): (r: Result<Command, BuildError>)
    ensures r.Ok? <==> NewExecutable(config, raw).Ok?
    ensures r.Err? ==> r.error == NewExecutable(config, raw).error
    ensures r.Ok? ==> r.value.exec == NewExecutable(config, raw).value
    ensures r.Ok? ==> UnwrapScript(r.value.exec.engine, r.value.exec.imports, r.value.executableScript) == raw
  {
    var exec :- NewExecutable(config, raw);
    UnwrapGetScript(exec.engine, raw.value, exec.imports);
    Ok(Command(exec, GetScript(exec.engine, raw.value, exec.imports)))
  }

  /** `new Variables(config, script)`: fails exactly when `Executable` does, and
      wraps the fence-stripped body. */
  function NewVariables(config: Config, raw: Option<string>): (r: Result<Variables, BuildError>)
    ensures r.Ok? <==> NewExecutable(config, raw).Ok?
    ensures r.Err? ==> r.error == NewExecutable(config, raw).error
    ensures r.Ok? ==> r.value.exec == NewExecutable(config, raw).value
    ensures r.Ok? ==> UnwrapScript(r.value.exec.engine, r.value.exec.imports, r.value.executableScript) == Some(r.value.exec.script)
  {
    var exec :- NewExecutable(config, raw);
    UnwrapGetScript(exec.engine, exec.script, exec.imports);
    Ok(Variables(exec, GetScript(exec.engine, exec.script, exec.imports)))
  }

  /** With no configuration a command is the raw body inside an empty
      `JavaImporter` block. */
  lemma CommandDefaultScript(raw: string)
    ensures NewCommand(map[], Some(raw)).Ok?
    ensures NewCommand(map[], Some(raw)).value.executableScript == "with(new JavaImporter()) {" + raw + "}"
  {
    DefaultLangIsJs(map[], raw);
    GetScriptExamples(raw, "");
  }

  /** A fenced body: the command keeps the fence in its text, the variables
      definition strips it. */
  lemma CommandKeepsFenceVariablesStrip(body: string)
    requires |body| >= 1
    ensures NewCommand(map[], Some(Fence(JavaScript, body))).value.executableScript
         == "with(new JavaImporter()) {" + Fence(JavaScript, body) + "}"
    ensures NewVariables(map[], Some(Fence(JavaScript, body))).value.executableScript
         == "with(new JavaImporter()) {" + body + "}"
  {
    CommandDefaultScript(Fence(JavaScript, body));
    DefaultLangIsJs(map[], Fence(JavaScript, body));
    EscapeFence(JavaScript, body);
    GetScriptExamples(body, "");
  }

  /** Groovy with the one import `a`: the import line, then the stripped body. */
  lemma VariablesGroovyOneImport(raw: string, a: string)
    ensures var config := map["lang" := JString("groovy"), "imports" := JArray([JString(a)])];
            NewVariables(config, Some(raw)).Ok? &&
            NewVariables(config, Some(raw)).value.executableScript
              == "import " + a + ".*;\n" + EscapeCodeBlock(Groovy, raw)
  {
    var config := map["lang" := JString("groovy"), "imports" := JArray([JString(a)])];
    assert ToLower("groovy") == "groovy";
    assert Texts([JString(a)]) == [a];
    assert Dedup([a]) == [a];
    GetScriptExamples(EscapeCodeBlock(Groovy, raw), a);
  }

  // ---------------------------------------------------------------------
  // Method

  /** Names `ClassUtils.getClass` resolves without a class loader. */
  const PrimitiveTypes: set<string> := {"boolean", "byte", "char", "short", "int", "long", "double", "float", "void"}

  /** `ClassUtils.getClass(token)` followed by `getTypeName()`. Primitive
      names resolve first and print as themselves. Any other token resolves
      when the class loader finds it; `loadable` maps each such token to the
      type name of the class found (`java.util.Map.Entry` prints as
      `java.util.Map$Entry`, `int[]` as `int[]`). */
  function ResolveClass(loadable: map<string, string>, token: string): (r: Option<string>)
    ensures r.Some? <==> token in PrimitiveTypes || token in loadable
    ensures token in PrimitiveTypes ==> r == Some(token)
    ensures token !in PrimitiveTypes && token in loadable ==> r == Some(loadable[token])
  {
    if token in PrimitiveTypes then Some(token)
    else if token in loadable then Some(loadable[token])
    else None
  }

  /** The `params` entries the stream keeps: non-empty string values. */
  predicate KeepsParam(m: Member) {
    m.value.JString? && m.value.s != ""
  }

  function Kept(ms: seq<Member>): (r: seq<Member>)
    ensures |r| <= |ms|
    ensures forall m :: m in r <==> m in ms && KeepsParam(m)
    ensures forall i :: 0 <= i < |r| ==> KeepsParam(r[i])
  {
    if |ms| == 0 then []
    else if KeepsParam(ms[0]) then [ms[0]] + Kept(ms[1..])
    else Kept(ms[1..])
  }

  /** The filter keeps the members' order: appending a member appends it to
      the kept ones when it is kept. */
  lemma {:induction false} KeptAppend(ms: seq<Member>, m: Member)
    ensures Kept(ms + [m]) == Kept(ms) + (if KeepsParam(m) then [m] else [])
  {
    if |ms| > 0 {
      KeptAppend(ms[1..], m);
      assert (ms + [m])[1..] == ms[1..] + [m];
    } else {
      assert [] + [m] == [m];
    }
  }

  /** The `map` stage over the kept members: each type resolved, in order;
      the first unknown type makes the whole stream throw. */
  function ResolveParams(ks: seq<Member>, loadable: map<string, string>): (r: Result<seq<Param>, BuildError>)
    requires forall i :: 0 <= i < |ks| ==> KeepsParam(ks[i])
    ensures r.Ok? <==> forall i :: 0 <= i < |ks| ==> KeepsParam(ks[i]) && ResolveClass(loadable, ks[i].value.s).Some?
    ensures r.Ok? ==> |r.value| == |ks|
    ensures r.Ok? ==> forall i :: 0 <= i < |ks| ==>
              && KeepsParam(ks[i])
              && ResolveClass(loadable, ks[i].value.s).Some?
              && r.value[i] == Param(ks[i].name, ResolveClass(loadable, ks[i].value.s).value)
  {
    if |ks| == 0 then Ok([])
    else assert KeepsParam(ks[0]); match ResolveClass(loadable, ks[0].value.s)
      case None => Err(ParamTypeNotFound(ks[0].value.s))
      case Some(t) =>
        var rest :- ResolveParams(ks[1..], loadable);
        Ok([Param(ks[0].name, t)] + rest)
  }

  /** The parameter stream: the filter, then the resolving `map`. */
  function ParseParams(ms: seq<Member>, loadable: map<string, string>): (r: Result<seq<Param>, BuildError>)
    ensures r.Ok? <==> forall i :: 0 <= i < |Kept(ms)| ==> ResolveClass(loadable, Kept(ms)[i].value.s).Some?
    ensures r.Ok? ==> |r.value| == |Kept(ms)|
    ensures r.Ok? ==> forall i :: 0 <= i < |r.value| ==>
              && ResolveClass(loadable, Kept(ms)[i].value.s).Some?
              && r.value[i] == Param(Kept(ms)[i].name, ResolveClass(loadable, Kept(ms)[i].value.s).value)
  {
    var ks := Kept(ms);
    var r := ResolveParams(ks, loadable);
    assert ks == Kept(ms);
    r
  }

  /** `params`: empty when absent, parsed when an object; anything else
      makes the `(JsonObject)` cast throw. */
  function ReadParams(config: Config, loadable: map<string, string>): (r: Result<seq<Param>, BuildError>)
    ensures "params" !in config ==> r == Ok([])
    ensures "params" in config && !config["params"].JObject? ==> r == Err(ParamsNotObject)
    ensures "params" in config && config["params"].JObject? ==> r == ParseParams(config["params"].members, loadable)
  {
    if "params" !in config then Ok([])
    else match config["params"]
      case JObject(ms) => ParseParams(ms, loadable)
      case _ => Err(ParamsNotObject)
  }

  /** A method: its name, resolved return type, parameters and the wrapped,
      fence-stripped body its hook evaluates (`proxyScript`). */
  datatype MethodDef = MethodDef(exec: Executable, name: string, typeName: string, params: seq<Param>, proxyScript: string)

  /** `new Method(config, name, script)`. */
  function NewMethod(config: Config, name: string, raw: Option<string>, loadable: map<string, string>): (r: Result<MethodDef, BuildError>)
    ensures r.Ok? ==> NewExecutable(config, raw) == Ok(r.value.exec)
    ensures NewExecutable(config, raw).Err? ==> r.Err?
    ensures r.Ok? ==> r.value.name == name
    ensures r.Ok? ==> (GetString(config, "type", "void").Ok? &&
                       ResolveClass(loadable, GetString(config, "type", "void").value) == Some(r.value.typeName))
    ensures (NewExecutable(config, raw).Ok? && GetString(config, "type", "void").Ok? &&
             ResolveClass(loadable, GetString(config, "type", "void").value).None?) ==> r.Err?
    ensures r.Ok? ==> ReadParams(config, loadable) == Ok(r.value.params)
    ensures r.Ok? <==> NewExecutable(config, raw).Ok? && GetString(config, "type", "void").Ok?
                       && ResolveClass(loadable, GetString(config, "type", "void").value).Some?
                       && ReadParams(config, loadable).Ok?
    ensures r.Ok? ==> UnwrapScript(r.value.exec.engine, r.value.exec.imports, r.value.proxyScript) == Some(r.value.exec.script)
  {
    var exec :- NewExecutable(config, raw);
    var token :- Access(GetString(config, "type", "void"));
    match ResolveClass(loadable, token)
    case None => Err(TypeNotFound(token))
    case Some(typeName) =>
      var params :- ReadParams(config, loadable);
      UnwrapGetScript(exec.engine, exec.script, exec.imports);
      Ok(MethodDef(exec, name, typeName, params, GetScript(exec.engine, exec.script, exec.imports)))
  }

  /** Without `type` and `params` the method is `void` with no parameters. */
  lemma MethodDefaults(name: string, raw: string)
    ensures NewMethod(map[], name, Some(raw), map[]).Ok?
    ensures NewMethod(map[], name, Some(raw), map[]).value.typeName == "void"
    ensures NewMethod(map[], name, Some(raw), map[]).value.params == []
  {
    DefaultLangIsJs(map[], raw);
  }

  /** `getExecutableScript(engine)`: the engine's proxy for this method (the
      lazy map only memoises it). */
  function ExecutableScriptFor(m: MethodDef, e: Engine): (r: Option<string>)
    ensures r.Some? <==> e == Groovy
    ensures r.Some? ==> StartsWith(r.value, ProxyHead(m.name, m.typeName, m.params))
  {
    GetProxyMethod(e, m.name, m.typeName, m.params)
  }

  // ---------------------------------------------------------------------
  // Timeouts

  /** The wait bound in seconds: the definition's `timeout`, else the global
      `timeout`, else 5. The global default is an argument, so Java reads it
      first, and a malformed global value fails even when the definition has
      its own. */
  function TimeoutFor(own: Config, global: Config): (r: Result<int, AccessError>)
    ensures GetInt(global, "timeout", 5).Err? ==> r.Err?
    ensures GetInt(global, "timeout", 5).Ok? && "timeout" in own && !own["timeout"].JInt? ==> r.Err?
    ensures GetInt(global, "timeout", 5).Ok? && "timeout" in own && own["timeout"].JInt? ==> r == Ok(own["timeout"].n)
    ensures "timeout" !in own ==> r == GetInt(global, "timeout", 5)
    ensures "timeout" !in own && "timeout" !in global ==> r == Ok(5)
  {
    var fallback :- GetInt(global, "timeout", 5);
    GetInt(own, "timeout", fallback)
  }

  // ---------------------------------------------------------------------
  // invoke

  /** What an invocation raised, as the cause of its RuntimeException. */
  datatype InvokeCause =
    | CauseTimeout
    | CauseScript(cause: Value)
    | CauseMissingArgument
    | CauseBadTimeout(access: AccessError)

  datatype InvokeResult = InvokeOk(value: Value) | InvokeError(message: string, cause: InvokeCause)

  function ThrewMessage(m: MethodDef): string {
    "The execution of method \"" + m.name + "\" threw an error\n" + m.proxyScript
  }

  function TimedOutMessage(m: MethodDef): string {
    "The execution of method \"" + m.name + "\" timed out\n" + m.proxyScript
  }

  /** The bindings after binding `params[i].name := args[i]` for each i in order. */
  function BindParams(context: map<string, Value>, params: seq<Param>, args: seq<Value>): map<string, Value>
    requires |args| >= |params|
  {
    if |params| == 0 then context
    else BindParams(context, params[..|params| - 1], args)[params[|params| - 1].name := args[|params| - 1]]
  }

  /** The last parameter position with the given name, or -1. */
  function LastParamIndex(params: seq<Param>, k: string): (r: int)
    ensures -1 <= r < |params|
    ensures r >= 0 ==> params[r].name == k
    ensures forall j :: r < j < |params| ==> params[j].name != k
  {
    if |params| == 0 then -1
    else if params[|params| - 1].name == k then |params| - 1
    else LastParamIndex(params[..|params| - 1], k)
  }

  /** After binding, a parameter name holds the argument at its last position;
      every other name keeps its context value. */
  lemma {:induction false} BindParamsLookup(context: map<string, Value>, params: seq<Param>, args: seq<Value>, k: string)
    requires |args| >= |params|
    ensures LastParamIndex(params, k) >= 0 ==>
              k in BindParams(context, params, args) && BindParams(context, params, args)[k] == args[LastParamIndex(params, k)]
    ensures LastParamIndex(params, k) < 0 ==>
              (k in BindParams(context, params, args) <==> k in context)
              && (k in context ==> BindParams(context, params, args)[k] == context[k])
  {
    if |params| > 0 {
      BindParamsLookup(context, params[..|params| - 1], args, k);
    }
  }

  /** Arguments beyond the parameter list are ignored. */
  lemma {:induction false} BindParamsIgnoresExtra(context: map<string, Value>, params: seq<Param>, args: seq<Value>)
    requires |args| >= |params|
    ensures BindParams(context, params, args) == BindParams(context, params, args[..|params|])
  {
    if |params| > 0 {
      var n := |params| - 1;
      BindParamsIgnoresExtra(context, params[..n], args);
      BindParamsIgnoresExtra(context, params[..n], args[..|params|]);
      assert args[..|params|][..n] == args[..n];
    }
  }

  /** `invoke(context, args)`: a fresh engine of the method's own language gets
      a copy of the context's bindings and then each parameter bound to its
      argument; fewer arguments than parameters throw. The proxy script is
      evaluated with a bounded wait; `void` methods return `null`; a timeout
      or an interrupt raises "timed out", any other failure "threw an error". */
  method Invoke(m: MethodDef, context: map<string, Value>, args: Option<seq<Value>>, global: Config,
                eval: EvalRequest -> EvalReply)
    returns (bindings: map<string, Value>, r: InvokeResult)
    ensures args.Some? && |args.value| < |m.params| ==> r == InvokeError(ThrewMessage(m), CauseMissingArgument)
    ensures args.None? ==> bindings == context
    ensures args.Some? && |args.value| >= |m.params| ==> bindings == BindParams(context, m.params, args.value)
    ensures (args.None? || |args.value| >= |m.params|) && TimeoutFor(m.exec.config, global).Err? ==>
              r == InvokeError(ThrewMessage(m), CauseBadTimeout(TimeoutFor(m.exec.config, global).error))
    ensures (args.None? || |args.value| >= |m.params|) && TimeoutFor(m.exec.config, global).Ok? ==>
              var o := eval(EvalRequest(m.exec.engine, m.proxyScript, bindings, Some(TimeoutFor(m.exec.config, global).value))).outcome;
              && (o.Returned? ==> r == InvokeOk(if m.typeName == "void" then Null else o.value))
              && (o.Failed? ==> r == InvokeError(ThrewMessage(m), CauseScript(o.cause)))
              && (o.TimedOut? || o.Interrupted? ==> r == InvokeError(TimedOutMessage(m), CauseTimeout))
  {
    bindings := context;
    if args.Some? {
      var i := 0;
      while i < |m.params|
        invariant 0 <= i <= |m.params| && i <= |args.value|
        invariant bindings == BindParams(context, m.params[..i], args.value)
      {
        if i >= |args.value| {
          r := InvokeError(ThrewMessage(m), CauseMissingArgument);
          return;
        }
        assert m.params[..i + 1][..i] == m.params[..i];
        bindings := bindings[m.params[i].name := args.value[i]];
        i := i + 1;
      }
      assert m.params[..i] == m.params;
    }
    match TimeoutFor(m.exec.config, global)
    case Err(e) =>
      r := InvokeError(ThrewMessage(m), CauseBadTimeout(e));
    case Ok(t) =>
      var reply := eval(EvalRequest(m.exec.engine, m.proxyScript, bindings, Some(t)));
      match reply.outcome
      case Returned(v) =>
        r := InvokeOk(if m.typeName == "void" then Null else v);
      case Failed(c) =>
        r := InvokeError(ThrewMessage(m), CauseScript(c));
      case _ =>
        r := InvokeError(TimedOutMessage(m), CauseTimeout);
  }
}
