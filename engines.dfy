/** The scripting languages (`Engine`): each one's name, how it wraps a script
    with its imports, how it exposes a method as a native function (a proxy),
    and how it strips a code fence. */
module Engines {

  import opened Wrappers
  import opened Strings

  datatype Engine = Groovy | JavaScript

  /** `Engine.values()`, in declaration order. */
  const AllEngines: seq<Engine> := [Groovy, JavaScript]

  /** `getName()`. */
  function Name(e: Engine): string {
    match e
    case Groovy => "groovy"
    case JavaScript => "js"
  }

  /** The `ENGINES` table the static initializer fills from `values()`. */
  const EngineTable: map<string, Engine> := map[Name(Groovy) := Groovy, Name(JavaScript) := JavaScript]

  /** The table holds exactly one entry per engine, under the engine's name. */
  lemma EngineTableComplete()
    ensures forall e: Engine :: Name(e) in EngineTable && EngineTable[Name(e)] == e
    ensures forall n :: n in EngineTable ==> exists e: Engine :: e in AllEngines && Name(e) == n
  {
    assert AllEngines[0] == Groovy && AllEngines[1] == JavaScript;
  }

  /** `getEngine(name)`: look the lower-cased name up; None stands for `null`. */
  function GetEngine(name: string): (r: Option<Engine>)
    ensures r.Some? <==> exists e: Engine :: Name(e) == ToLower(name)
    ensures r.Some? ==> Name(r.value) == ToLower(name)
  {
    var key := ToLower(name);
    if key in EngineTable then Some(EngineTable[key]) else None
  }

  /** Looking an engine up by its own name gives it back. */
  lemma GetEngineOfName(e: Engine)
    ensures GetEngine(Name(e)) == Some(e)
  {
    assert ToLower(Name(e)) == Name(e);
  }

  /** An upper-case spelling finds the engine too; an unknown name finds none. */
  lemma GetEngineExamples()
    ensures GetEngine("JS") == Some(JavaScript)
    ensures GetEngine("Groovy") == Some(Groovy)
    ensures GetEngine("python") == None
  {
    assert ToLower("JS") == "js";
    assert ToLower("Groovy") == "groovy";
    assert ToLower("python") == "python";
  }

  // ---------------------------------------------------------------------
  // getScript

  function GroovyImport(s: string): string {
    "import " + s + ".*;"
  }

  function GroovyImports(imports: seq<string>): (r: seq<string>)
    ensures |r| == |imports|
    ensures forall i :: 0 <= i < |imports| ==> r[i] == GroovyImport(imports[i])
  {
    if |imports| == 0 then [] else [GroovyImport(imports[0])] + GroovyImports(imports[1..])
  }

  const JsPrologue := "with(new JavaImporter("
  const JsOpen := ")) {"

  /** `getScript(script, imports)`: the text the engine evaluates. Groovy puts
      one `import X.*;` per import, separated by blanks, on a first line;
      JavaScript wraps the script in a `with(new JavaImporter(...))` block. */
  function GetScript(e: Engine, script: string, imports: seq<string>): (r: string)
    ensures e == Groovy ==> EndsWith(r, "\n" + script)
    ensures e == Groovy ==> |r| == |Join(GroovyImports(imports), " ")| + 1 + |script|
    ensures e == JavaScript ==> StartsWith(r, JsPrologue) && EndsWith(r, JsOpen + script + "}")
    ensures e == Groovy ==> r == Join(GroovyImports(imports), " ") + "\n" + script
    ensures e == JavaScript ==> r == JsPrologue + Join(imports, ", ") + JsOpen + script + "}"
  {
    match e
    case Groovy => Join(GroovyImports(imports), " ") + "\n" + script
    case JavaScript => JsPrologue + Join(imports, ", ") + JsOpen + script + "}"
  }

  /** The number of characters `GetScript` puts before the script. */
  function ScriptOffset(e: Engine, imports: seq<string>): nat {
    match e
    case Groovy => |Join(GroovyImports(imports), " ")| + 1
    case JavaScript => |JsPrologue| + |Join(imports, ", ")| + |JsOpen|
  }

  /** Reads the script back out of wrapped text. */
  function UnwrapScript(e: Engine, imports: seq<string>, text: string): Option<string> {
    var a := ScriptOffset(e, imports);
    var tail := if e == JavaScript then 1 else 0;
    if a + tail <= |text| then Some(text[a..|text| - tail]) else None
  }

  /** Wrapping loses nothing: the script is recovered from the wrapped text. */
  lemma UnwrapGetScript(e: Engine, script: string, imports: seq<string>)
    ensures UnwrapScript(e, imports, GetScript(e, script, imports)) == Some(script)
  {
    var r := GetScript(e, script, imports);
    match e
    case Groovy =>
      var pre := Join(GroovyImports(imports), " ") + "\n";
      assert r == pre + script;
      assert ScriptOffset(e, imports) == |pre|;
      assert r[|pre|..|r|] == script;
    case JavaScript =>
      var pre := JsPrologue + Join(imports, ", ") + JsOpen;
      assert r == pre + script + "}";
      assert ScriptOffset(e, imports) == |pre|;
      assert r[|pre|..|r| - 1] == script;
  }

  /** Every import is named in the wrapped text. */
  lemma {:induction false} GetScriptNamesImports(e: Engine, script: string, imports: seq<string>, i: nat)
    requires i < |imports|
    ensures e == Groovy ==> Contains(GetScript(e, script, imports), GroovyImport(imports[i]))
    ensures e == JavaScript ==> Contains(GetScript(e, script, imports), imports[i])
  {
    match e
    case Groovy =>
      var g := Join(GroovyImports(imports), " ");
      JoinContains(GroovyImports(imports), " ", i);
      ContainsBefore(g, "\n" + script, GroovyImport(imports[i]));
      assert GetScript(e, script, imports) == g + ("\n" + script);
    case JavaScript =>
      var j := Join(imports, ", ");
      JoinContains(imports, ", ", i);
      ContainsBefore(j, JsOpen + script + "}", imports[i]);
      ContainsAfter(JsPrologue, j + (JsOpen + script + "}"), imports[i]);
      assert GetScript(e, script, imports) == JsPrologue + (j + (JsOpen + script + "}"));
  }

  lemma {:induction false} ContainsBefore(a: string, b: string, p: string)
    requires Contains(a, p)
    ensures Contains(a + b, p)
  {
    if StartsWith(a, p) {
      assert (a + b)[..|p|] == a[..|p|];
    } else {
      ContainsBefore(a[1..], b, p);
      assert (a + b)[1..] == a[1..] + b;
    }
  }

  /** The wrapped forms without imports, and Groovy with one import. */
  lemma GetScriptExamples(script: string, a: string)
    ensures GetScript(Groovy, script, []) == "\n" + script
    ensures GetScript(Groovy, script, [a]) == "import " + a + ".*;\n" + script
    ensures GetScript(JavaScript, script, []) == "with(new JavaImporter()) {" + script + "}"
  {
  }

  // ---------------------------------------------------------------------
  // getProxyMethod

  /** One `(name, type)` pair of a method's parameter list; `typeName` is the
      resolved class's `getTypeName()`. */
  datatype Param = Param(name: string, typeName: string)

  function Declarations(params: seq<Param>): (r: seq<string>)
    ensures |r| == |params|
    ensures forall i :: 0 <= i < |params| ==> r[i] == params[i].typeName + " " + params[i].name
  {
    if |params| == 0 then [] else [params[0].typeName + " " + params[0].name] + Declarations(params[1..])
  }

  function ParamNames(params: seq<Param>): (r: seq<string>)
    ensures |r| == |params|
    ensures forall i :: 0 <= i < |params| ==> r[i] == params[i].name
  {
    if |params| == 0 then [] else [params[0].name] + ParamNames(params[1..])
  }

  function ProxyHead(methodName: string, typeName: string, params: seq<Param>): string {
    typeName + " " + methodName + "(" + Join(Declarations(params), ", ") + ")"
  }

  function ProxyTail(methodName: string, params: seq<Param>): string {
    " { " + methodName + ".invoke(" + Join(ParamNames(params), ", ") + ") }"
  }

  /** The Groovy proxy text. */
  function GroovyProxy(methodName: string, typeName: string, params: seq<Param>): string {
    ProxyHead(methodName, typeName, params) + ProxyTail(methodName, params)
  }

  /** `getProxyMethod(name, type, params)`: Groovy defines a function of the
      declared signature that forwards its arguments, in order, to the hook
      bound under the method's name; JavaScript has no proxy (`null`). */
  function GetProxyMethod(e: Engine, methodName: string, typeName: string, params: seq<Param>): (r: Option<string>)
    ensures r.Some? <==> e == Groovy
    ensures r.Some? ==> StartsWith(r.value, ProxyHead(methodName, typeName, params))
    ensures r.Some? ==> EndsWith(r.value, ProxyTail(methodName, params))
    ensures r.Some? ==> r.value == ProxyHead(methodName, typeName, params) + ProxyTail(methodName, params)
  {
    match e
    case Groovy =>
      var head := ProxyHead(methodName, typeName, params);
      assert (head + ProxyTail(methodName, params))[..|head|] == head;
      Some(GroovyProxy(methodName, typeName, params))
    case JavaScript => None
  }

  lemma JoinPair(x: string, y: string, sep: string)
    ensures Join([x, y], sep) == x + sep + y
  {
    assert [x, y][1..] == [y];
  }

  lemma ExampleHead()
    ensures ProxyHead("add", "int", [Param("a", "int"), Param("b", "int")]) == "int add(int a, int b)"
  {
    var ds := Declarations([Param("a", "int"), Param("b", "int")]);
    assert ds[0] == "int a" && ds[1] == "int b";
    assert ds == ["int a", "int b"];
    JoinPair("int a", "int b", ", ");
  }

  lemma ExampleTail()
    ensures ProxyTail("add", [Param("a", "int"), Param("b", "int")]) == " { add.invoke(a, b) }"
  {
    var ns := ParamNames([Param("a", "int"), Param("b", "int")]);
    assert ns[0] == "a" && ns[1] == "b";
    assert ns == ["a", "b"];
    JoinPair("a", "b", ", ");
  }

  /** A two-parameter Groovy proxy, spelled out. */
  lemma GroovyProxyExample()
    ensures GetProxyMethod(Groovy, "add", "int", [Param("a", "int"), Param("b", "int")])
         == Some("int add(int a, int b)" + " { add.invoke(a, b) }")
  {
    var ps := [Param("a", "int"), Param("b", "int")];
    ExampleHead();
    ExampleTail();
    assert GetProxyMethod(Groovy, "add", "int", ps) == Some(ProxyHead("add", "int", ps) + ProxyTail("add", ps));
  }

  // ---------------------------------------------------------------------
  // escapeCodeBlock

  /** A code fence around `body` tagged with the engine's name. */
  function Fence(e: Engine, body: string): string {
    "```" + Name(e) + "\n" + body + "```"
  }

  /** The opening line of a fence tagged with the engine's name. */
  function TagLine(e: Engine): string {
    "```" + Name(e) + "\n"
  }

  /** The regex matches with its optional tag line. */
  predicate TaggedFence(e: Engine, s: string) {
    StartsWith(s, TagLine(e)) && EndsWith(s, "```") && |s| >= |TagLine(e)| + 4
  }

  /** The regex matches without the tag line. */
  predicate BareFence(s: string) {
    StartsWith(s, "```") && EndsWith(s, "```") && |s| >= 7
  }

  /** `escapeCodeBlock(script)`: `replaceAll("^```(?:LANG\\n)?([\\S\\s]+)\\n?```$", "$1")`.
      The optional tag line is tried first; the greedy capture then runs up to
      the closing fence, so a newline before it stays in the result. Without
      the tag line the capture starts right after the opening backticks. */
  function EscapeCodeBlock(e: Engine, s: string): (r: string)
    ensures !StartsWith(s, "```") || !EndsWith(s, "```") ==> r == s
    ensures r != s ==> |r| >= 1 && EndsWith(s, r + "```")
    ensures r != s ==> StartsWith(s, TagLine(e) + r) || StartsWith(s, "```" + r)
    ensures TaggedFence(e, s) ==> r == s[|TagLine(e)|..|s| - 3]
    ensures !TaggedFence(e, s) && BareFence(s) ==> r == s[3..|s| - 3]
    ensures !TaggedFence(e, s) && !BareFence(s) ==> r == s
  {
    var tag := TagLine(e);
    if TaggedFence(e, s) then
      FenceParts(s, tag, s[|tag|..|s| - 3]);
      s[|tag|..|s| - 3]
    else if BareFence(s) then
      FenceParts(s, "```", s[3..|s| - 3]);
      s[3..|s| - 3]
    else s
  }

  /** A fence cut into its opening, its inside and its closing backticks. */
  lemma FenceParts(s: string, opening: string, inside: string)
    requires |opening| + 3 <= |s| && |inside| == |s| - |opening| - 3
    requires StartsWith(s, opening) && EndsWith(s, "```") && inside == s[|opening|..|s| - 3]
    ensures StartsWith(s, opening + inside) && EndsWith(s, inside + "```")
  {
    assert s == opening + inside + "```";
    assert s[..|opening + inside|] == opening + inside;
    assert s[|s| - |inside + "```"|..] == inside + "```";
  }

  /** Stripping a tagged fence gives back its non-empty body. */
  lemma EscapeFence(e: Engine, body: string)
    requires |body| >= 1
    ensures EscapeCodeBlock(e, Fence(e, body)) == body
  {
    var tag := "```" + Name(e) + "\n";
    var s := Fence(e, body);
    assert s == tag + body + "```";
    assert s[..|tag|] == tag;
    assert s[|s| - 3..] == "```";
    assert s[|tag|..|s| - 3] == body;
  }

  /** The newline before the closing fence is kept. */
  lemma EscapeFenceKeepsNewline(e: Engine, body: string)
    ensures EscapeCodeBlock(e, Fence(e, body + "\n")) == body + "\n"
  {
    EscapeFence(e, body + "\n");
  }

  /** An untagged fence around a body that does not open with the tag line is
      stripped as well. */
  lemma EscapeBareFence(e: Engine, body: string)
    requires |body| >= 1
    requires !StartsWith(body, Name(e) + "\n")
    ensures EscapeCodeBlock(e, "```" + body + "```") == body
  {
    var tag := "```" + Name(e) + "\n";
    var s := "```" + body + "```";
    assert !(StartsWith(s, tag) && |s| >= |tag| + 4) by {
      if |s| >= |tag| + 4 {
        assert s[3..|tag|] == body[..|tag| - 3];
        assert tag[3..] == Name(e) + "\n";
      }
    }
    assert s[3..|s| - 3] == body;
  }
}
