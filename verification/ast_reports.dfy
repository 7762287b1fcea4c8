/** What the scan reports, construct by construct, in terms of the tree's own fields: each violation exactly
    when some node is of the prohibited form. */
module AstReports {
  import opened Options
  import opened Letters
  import opened AstPolicy
  import opened AstFragments

  // ---- Fields, literals and names ----

  /** The first field of the key. */
  lemma {:induction false} GetIsFirst(fields: seq<Field>, key: string, k: nat)
    requires k < |fields| && fields[k].key == key && forall j | 0 <= j < k :: fields[j].key != key
    ensures Get(Object(fields), key) == fields[k].value
  {
    if k > 0 {
      GetIsFirst(fields[1..], key, k - 1);
      assert Get(Object(fields[1..]), key) == fields[k].value;
    }
  }

  /** A literal text, or a template without expressions. */
  ghost predicate IsLiteral(v: Value, text: string) {
    || (Get(v, "type") == Text("Literal") && Get(v, "value") == Text(text))
    || (Get(v, "type") == Text("TemplateLiteral") && Get(v, "expressions") == List([])
        && exists quasis: seq<Value> | Get(v, "quasis") == List(quasis) && quasis != [] :: Get(Get(quasis[0], "value"), "cooked") == Text(text))
  }

  lemma {:induction false} LiteralIff(v: Value, text: string)
    ensures LiteralText(v) == Some(text) <==> IsLiteral(v, text)
  {
    assert "Literal"[0] != "TemplateLiteral"[0];
    var quasis := Get(v, "quasis");
    if quasis.List? && quasis.items == [] {
      assert Get(Get(ItemAt(quasis, 0), "value"), "cooked") == Undefined;
    }
  }

  predicate IsNamed(v: Value, name: string) {
    Get(v, "type") == Text("Identifier") && Get(v, "name") == Text(name)
  }

  lemma {:induction false} NamedIff(v: Value, name: string)
    ensures IdentifierName(v) == Some(name) <==> IsNamed(v, name)
  {
  }

  /** The property of a member expression: a literal text in brackets, or a name. */
  ghost predicate HasProperty(member: Value, name: string) {
    && Get(member, "type") == Text("MemberExpression")
    && if Get(member, "computed") in {Undefined, Other(false), Flag(false), Text("")} then IsNamed(Get(member, "property"), name)
       else IsLiteral(Get(member, "property"), name)
  }

  lemma {:induction false} PropertyIff(member: Value, name: string)
    ensures MemberProperty(member) == Some(name) <==> HasProperty(member, name)
  {
    LiteralIff(Get(member, "property"), name);
    NamedIff(Get(member, "property"), name);
  }

  // ---- Literal addresses ----

  /** The value is a literal address. */
  ghost predicate HoldsAddress(v: Value) {
    exists text :: IsLiteral(v, text) && IsAddress(text)
  }

  lemma {:induction false} AddressIff(v: Value)
    ensures IsRemote(LiteralText(v)) <==> HoldsAddress(v)
  {
    if LiteralText(v).Some? {
      LiteralIff(v, LiteralText(v).value);
      RemoteIff(LiteralText(v).value);
    }
    if text :| IsLiteral(v, text) && IsAddress(text) {
      LiteralIff(v, text);
      RemoteIff(text);
    }
  }

  // ---- Paths of members ----

  function Joined(parts: seq<string>): string
    requires parts != []
  {
    if |parts| == 1 then parts[0] else Joined(parts[..|parts| - 1]) + "." + parts[|parts| - 1]
  }

  /** A name, followed by properties. */
  ghost predicate IsChain(v: Value, parts: seq<string>)
    decreases |parts|
  {
    if parts == [] then false
    else if |parts| == 1 then IsNamed(v, parts[0])
    else HasProperty(v, parts[|parts| - 1]) && parts[0] != "" && parts[|parts| - 1] != "" && IsChain(Get(v, "object"), parts[..|parts| - 1])
  }

  ghost predicate HasPath(v: Value, path: string) {
    exists parts :: IsChain(v, parts) && Joined(parts) == path
  }

  lemma {:induction false} NamesAreNoMembers(v: Value)
    ensures !(HasType(v, "Identifier") && HasType(v, "MemberExpression"))
  {
    assert "Identifier"[0] != "MemberExpression"[0];
  }

  lemma {:induction false} JoinedNotEmpty(parts: seq<string>)
    requires parts != [] && parts[0] != ""
    ensures Joined(parts) != ""
  {
    if |parts| > 1 {
      JoinedNotEmpty(parts[..|parts| - 1]);
    }
  }

  lemma {:induction false} ChainHasPath(v: Value, parts: seq<string>)
    requires IsChain(v, parts)
    ensures MemberPath(v) == Some(Joined(parts))
    decreases |parts|
  {
    NamesAreNoMembers(v);
    if |parts| > 1 {
      var last := parts[|parts| - 1];
      PropertyIff(v, last);
      ChainHasPath(Get(v, "object"), parts[..|parts| - 1]);
      JoinedNotEmpty(parts[..|parts| - 1]);
      UndefinedHasNoChain(parts[..|parts| - 1]);
    }
  }

  lemma {:induction false} UndefinedHasNoChain(parts: seq<string>)
    ensures !IsChain(Undefined, parts)
  {
  }

  lemma {:induction false} PathHasChain(v: Value) returns (parts: seq<string>)
    requires MemberPath(v).Some?
    ensures IsChain(v, parts) && Joined(parts) == MemberPath(v).value
    decreases v
  {
    NamesAreNoMembers(v);
    if HasType(v, "Identifier") {
      NamedIff(v, MemberPath(v).value);
      parts := [MemberPath(v).value];
    } else {
      GetIsSmaller(v, "object");
      var front := PathHasChain(Get(v, "object"));
      var last := PropertyName(v).value;
      PropertyIff(v, last);
      parts := front + [last];
      assert parts[..|parts| - 1] == front;
      ChainStarts(Get(v, "object"), front);
    }
  }

  lemma {:induction false} ChainStarts(v: Value, parts: seq<string>)
    requires IsChain(v, parts) && Joined(parts) != ""
    ensures parts[0] != ""
  {
  }

  /** The dotted path of an expression is that of the chain of properties it is. */
  lemma {:induction false} PathIff(v: Value, path: string)
    ensures MemberPath(v) == Some(path) <==> HasPath(v, path)
  {
    if MemberPath(v) == Some(path) {
      var parts := PathHasChain(v);
    }
    if parts :| IsChain(v, parts) && Joined(parts) == path {
      ChainHasPath(v, parts);
    }
  }

  // ---- Script elements ----

  ghost predicate Spells(v: Value, word: string) {
    exists text :: IsLiteral(v, text) && SameButForCase(text, word)
  }

  lemma {:induction false} SpellsIff(v: Value, word: string)
    requires HasNoCapital(word)
    ensures LiteralText(v).Some? && Lower(LiteralText(v).value) == word <==> Spells(v, word)
  {
    if LiteralText(v).Some? {
      LiteralIff(v, LiteralText(v).value);
      LowerIs(LiteralText(v).value, word);
    }
    if text :| IsLiteral(v, text) && SameButForCase(text, word) {
      LiteralIff(v, text);
      LowerIs(text, word);
    }
  }

  /** The `k`-th argument. */
  function Argument(node: Value, k: nat): Value {
    if Get(node, "arguments").List? && k < |Get(node, "arguments").items| then Get(node, "arguments").items[k] else Undefined
  }

  /** A call of a createElement method for a script. */
  ghost predicate MakesScript(v: Value) {
    && Get(v, "type") == Text("CallExpression")
    && HasProperty(Get(v, "callee"), "createElement")
    && Spells(Argument(v, 0), "script")
  }

  lemma {:induction false} MakesScriptIff(v: Value)
    ensures CreatesScript(v) <==> MakesScript(v)
  {
    PropertyIff(Get(v, "callee"), "createElement");
    SpellsIff(Argument(v, 0), "script");
  }

  /** The node makes a variable of the name hold a script element. */
  ghost predicate Declares(node: Value, name: string) {
    && name != ""
    && (|| (Get(node, "type") == Text("VariableDeclarator") && MakesScript(Get(node, "init")) && IsNamed(Get(node, "id"), name))
        || (Get(node, "type") == Text("AssignmentExpression") && MakesScript(Get(node, "right")) && IsNamed(Get(node, "left"), name)))
  }

  lemma {:induction false} NameOfIff(v: Value, name: string)
    ensures name in NameOf(v) <==> name != "" && IsNamed(v, name)
  {
    NamedIff(v, name);
  }

  lemma {:induction false} DeclaresIff(node: Value, name: string)
    ensures name in NewVariables(node) <==> Declares(node, name)
  {
    MakesScriptIff(Get(node, "init"));
    MakesScriptIff(Get(node, "right"));
    NameOfIff(Get(node, "id"), name);
    NameOfIff(Get(node, "left"), name);
    assert "VariableDeclarator"[0] != "AssignmentExpression"[0];
  }

  // ---- Calls ----

  predicate IsCall(node: Value) {
    Get(node, "type") == Text("CallExpression") || Get(node, "type") == Text("NewExpression")
  }

  /** What is called: the callee, or the last part of it when it is a sequence. */
  ghost predicate Calls(node: Value, callee: Value) {
    var raw := Get(node, "callee");
    if Get(raw, "type") == Text("SequenceExpression") && Get(raw, "expressions").List?
    then Get(raw, "expressions").items != [] && callee == Get(raw, "expressions").items[|Get(raw, "expressions").items| - 1]
    else callee == raw
  }

  lemma {:induction false} CalleeIff(node: Value, callee: Value)
    requires callee != Undefined
    ensures Callee(node) == callee <==> Calls(node, callee)
  {
  }

  /** A property of the global object, under any of its names. */
  ghost predicate OnGlobal(callee: Value, name: string) {
    HasPath(callee, "globalThis." + name) || HasPath(callee, "window." + name) || HasPath(callee, "self." + name)
  }

  lemma {:induction false} OnGlobalIff(callee: Value, name: string)
    ensures InGlobals(MemberPath(callee), name) <==> OnGlobal(callee, name)
  {
    PathIff(callee, "globalThis." + name);
    PathIff(callee, "window." + name);
    PathIff(callee, "self." + name);
  }

  /** Evaluates text: by name or on the global object, by reflection, or by the constructor of a function expression. */
  ghost predicate RunsCode(callee: Value, first: Value) {
    || IsNamed(callee, "eval") || IsNamed(callee, "Function")
    || OnGlobal(callee, "eval") || OnGlobal(callee, "Function")
    || (HasPath(callee, "Reflect.construct") && IsNamed(first, "Function"))
    || (HasProperty(callee, "constructor") && IsFunction(Get(callee, "object")))
  }

  predicate IsFunction(v: Value) {
    Get(v, "type") == Text("FunctionExpression") || Get(v, "type") == Text("ArrowFunctionExpression")
  }

  lemma {:induction false} RunsCodeIff(callee: Value, first: Value)
    ensures IsDynamicCode(callee, first) <==> RunsCode(callee, first)
  {
    NamedIff(callee, "eval");
    NamedIff(callee, "Function");
    NamedIff(first, "Function");
    OnGlobalIff(callee, "eval");
    OnGlobalIff(callee, "Function");
    PathIff(callee, "Reflect.construct");
    PropertyIff(callee, "constructor");
  }

  ghost predicate StartsTimer(callee: Value) {
    || IsNamed(callee, "setTimeout") || IsNamed(callee, "setInterval")
    || OnGlobal(callee, "setTimeout") || OnGlobal(callee, "setInterval")
  }

  lemma {:induction false} StartsTimerIff(callee: Value)
    ensures IsTimer(callee) <==> StartsTimer(callee)
  {
    NamedIff(callee, "setTimeout");
    NamedIff(callee, "setInterval");
    OnGlobalIff(callee, "setTimeout");
    OnGlobalIff(callee, "setInterval");
  }

  /** A variable of the set, by name. */
  ghost predicate IsVariable(v: Value, variables: set<string>) {
    exists name | name in variables :: IsNamed(v, name)
  }

  lemma {:induction false} VariableIff(v: Value, variables: set<string>)
    requires "" !in variables
    ensures Names(variables, v) <==> IsVariable(v, variables)
  {
    if IdentifierName(v).Some? {
      NamedIff(v, IdentifierName(v).value);
    }
    if name :| name in variables && IsNamed(v, name) {
      NamedIff(v, name);
    }
  }

  /** Sets the source or the target of a script variable to an address. */
  ghost predicate SetsAddress(node: Value, callee: Value, variables: set<string>) {
    && HasProperty(callee, "setAttribute")
    && IsVariable(Get(callee, "object"), variables)
    && (Spells(Argument(node, 0), "src") || Spells(Argument(node, 0), "href"))
    && HoldsAddress(Argument(node, 1))
  }

  lemma {:induction false} SourceOrTarget(v: Value)
    ensures LiteralText(v).Some? && Lower(LiteralText(v).value) in {"src", "href"} <==> Spells(v, "src") || Spells(v, "href")
  {
    SpellsIff(v, "src");
    SpellsIff(v, "href");
  }

  lemma {:induction false} SetsAddressIff(node: Value, callee: Value, variables: set<string>)
    requires "" !in variables
    ensures SetsRemoteAttribute(callee, Get(node, "arguments"), variables) <==> SetsAddress(node, callee, variables)
  {
    PropertyIff(callee, "setAttribute");
    VariableIff(Get(callee, "object"), variables);
    SourceOrTarget(Argument(node, 0));
    AddressIff(Argument(node, 1));
  }

  /** Assigns an address to the source or the target of a script: a script variable, or one made on the spot. */
  ghost predicate AssignsAddress(node: Value, variables: set<string>) {
    var left := Get(node, "left");
    && (HasProperty(left, "src") || HasProperty(left, "href"))
    && (IsVariable(Get(left, "object"), variables) || MakesScript(Get(left, "object")))
    && HoldsAddress(Get(node, "right"))
  }

  lemma {:induction false} AssignsAddressIff(node: Value, variables: set<string>)
    requires "" !in variables
    ensures AssignsRemoteScript(node, variables) <==> AssignsAddress(node, variables)
  {
    var left := Get(node, "left");
    PropertyIff(left, "src");
    PropertyIff(left, "href");
    VariableIff(Get(left, "object"), variables);
    MakesScriptIff(Get(left, "object"));
    AddressIff(Get(node, "right"));
  }

  // ---- What one node commits ----

  /** The violation a call or a construction of `callee` commits. */
  ghost predicate CallCommits(node: Value, callee: Value, variables: set<string>, v: Violation) {
    match v
    case DynamicCode => RunsCode(callee, Argument(node, 0))
    case StringTimer => StartsTimer(callee) && exists text :: IsLiteral(Argument(node, 0), text)
    case RemoteWorkerImport => IsNamed(callee, "importScripts") && HoldsAddress(Argument(node, 0))
    case RemoteWorkerScript => (IsNamed(callee, "Worker") || IsNamed(callee, "SharedWorker")) && HoldsAddress(Argument(node, 0))
    case RemoteServiceWorker => HasPath(callee, "navigator.serviceWorker.register") && HoldsAddress(Argument(node, 0))
    case RemoteScriptAssignment => SetsAddress(node, callee, variables)
    case _ => false
  }

  /** The node is of a form that is prohibited, given the variables that hold script elements. */
  ghost predicate Commits(node: Value, variables: set<string>, v: Violation) {
    || (v == WebAssembly && IsNamed(node, "WebAssembly"))
    || (v == RemoteImport && Get(node, "type") == Text("ImportExpression") && HoldsAddress(Get(node, "source")))
    || (v == RemoteModuleSource && ImportsModule(node) && HoldsAddress(Get(node, "source")))
    || (v == RemoteScriptAssignment && Get(node, "type") == Text("AssignmentExpression") && AssignsAddress(node, variables))
    || (IsCall(node) && exists callee :: Calls(node, callee) && CallCommits(node, callee, variables, v))
  }

  predicate ImportsModule(node: Value) {
    || Get(node, "type") == Text("ImportDeclaration") || Get(node, "type") == Text("ExportNamedDeclaration")
    || Get(node, "type") == Text("ExportAllDeclaration")
  }

  lemma {:induction false} NothingIsCalled(node: Value, variables: set<string>, v: Violation)
    ensures !CallCommits(node, Undefined, variables, v)
  {
    forall path ensures !HasPath(Undefined, path) {
      forall parts ensures !IsChain(Undefined, parts) {
        UndefinedHasNoChain(parts);
      }
    }
  }

  lemma {:induction false} TextIff(v: Value)
    ensures LiteralText(v).Some? <==> exists text :: IsLiteral(v, text)
  {
    if LiteralText(v).Some? {
      LiteralIff(v, LiteralText(v).value);
    }
    if text :| IsLiteral(v, text) {
      LiteralIff(v, text);
    }
  }

  lemma {:induction false} WorkerCalls(callee: Value)
    ensures IdentifierName(callee) == Some("importScripts") <==> IsNamed(callee, "importScripts")
    ensures IdentifierName(callee) == Some("Worker") || IdentifierName(callee) == Some("SharedWorker") <==>
      IsNamed(callee, "Worker") || IsNamed(callee, "SharedWorker")
  {
  }

  /** The violation is among those the tests give. */
  predicate Among(t: CallTests, v: Violation) {
    match v
    case DynamicCode => t.code
    case StringTimer => t.timer
    case RemoteWorkerImport => t.worker
    case RemoteWorkerScript => t.script
    case RemoteServiceWorker => t.service
    case RemoteScriptAssignment => t.attribute
    case _ => false
  }

  lemma {:induction false} TestedHas(t: CallTests, v: Violation)
    ensures v in Tested(t) <==> Among(t, v)
  {
  }

  /** The violation that a call is found to commit. */
  predicate CallFinds(node: Value, callee: Value, variables: set<string>, v: Violation) {
    Among(TestsOf(callee, Get(node, "arguments"), variables), v)
  }

  lemma {:induction false} CallFindingsHas(node: Value, variables: set<string>, v: Violation)
    ensures v in CallFindings(node, variables) <==> CallFinds(node, Callee(node), variables, v)
  {
    TestedHas(TestsOf(Callee(node), Get(node, "arguments"), variables), v);
  }

  lemma {:induction false} CodeIff(node: Value, callee: Value, variables: set<string>)
    ensures CallFinds(node, callee, variables, DynamicCode) <==> CallCommits(node, callee, variables, DynamicCode)
  {
    RunsCodeIff(callee, Argument(node, 0));
  }

  lemma {:induction false} TimerIff(node: Value, callee: Value, variables: set<string>)
    ensures CallFinds(node, callee, variables, StringTimer) <==> CallCommits(node, callee, variables, StringTimer)
  {
    StartsTimerIff(callee);
    TextIff(Argument(node, 0));
  }

  lemma {:induction false} WorkerIff(node: Value, callee: Value, variables: set<string>)
    ensures CallFinds(node, callee, variables, RemoteWorkerImport) <==> CallCommits(node, callee, variables, RemoteWorkerImport)
    ensures CallFinds(node, callee, variables, RemoteWorkerScript) <==> CallCommits(node, callee, variables, RemoteWorkerScript)
  {
    WorkerCalls(callee);
    AddressIff(Argument(node, 0));
  }

  lemma {:induction false} ServiceIff(node: Value, callee: Value, variables: set<string>)
    ensures CallFinds(node, callee, variables, RemoteServiceWorker) <==> CallCommits(node, callee, variables, RemoteServiceWorker)
  {
    PathIff(callee, "navigator.serviceWorker.register");
    AddressIff(Argument(node, 0));
  }

  lemma {:induction false} CallFindsIff(node: Value, callee: Value, variables: set<string>, v: Violation)
    requires "" !in variables
    ensures CallFinds(node, callee, variables, v) <==> CallCommits(node, callee, variables, v)
  {
    match v
    case DynamicCode => CodeIff(node, callee, variables);
    case StringTimer => TimerIff(node, callee, variables);
    case RemoteServiceWorker => ServiceIff(node, callee, variables);
    case RemoteScriptAssignment => SetsAddressIff(node, callee, variables);
    case _ => WorkerIff(node, callee, variables);
  }

  lemma {:induction false} CallFindingsIff(node: Value, variables: set<string>, v: Violation)
    requires "" !in variables
    ensures v in CallFindings(node, variables) <==> exists callee :: Calls(node, callee) && CallCommits(node, callee, variables, v)
  {
    CallFindingsHas(node, variables, v);
    CallFindsIff(node, Callee(node), variables, v);
    NothingIsCalled(node, variables, v);
    if Callee(node) != Undefined {
      CalleeIff(node, Callee(node));
    }
    forall callee | Calls(node, callee) && callee != Undefined ensures callee == Callee(node) {
      CalleeIff(node, callee);
    }
  }

  /** The violation that a node is found to commit, by the tests that are made. */
  predicate Finds(node: Value, variables: set<string>, v: Violation) {
    || (v == WebAssembly && IsNamed(node, "WebAssembly"))
    || (v == RemoteImport && Get(node, "type") == Text("ImportExpression") && IsRemote(LiteralText(Get(node, "source"))))
    || (v == RemoteModuleSource && ImportsModule(node) && IsRemote(LiteralText(Get(node, "source"))))
    || (v == RemoteScriptAssignment && Get(node, "type") == Text("AssignmentExpression") && AssignsRemoteScript(node, variables))
    || (IsCall(node) && v in CallFindings(node, variables))
  }

  lemma {:induction false} FoundIsCommitted(node: Value, variables: set<string>, v: Violation)
    requires v in Findings(node, variables)
    ensures Finds(node, variables, v)
  {
  }

  lemma {:induction false} FindingsHave(node: Value, variables: set<string>, v: Violation)
    ensures v in Findings(node, variables) <==> Finds(node, variables, v)
  {
    if v in Findings(node, variables) {
      FoundIsCommitted(node, variables, v);
    }
  }

  /** A node is found to commit a violation exactly when it is of a form that does. */
  lemma {:induction false} FindingsIff(node: Value, variables: set<string>, v: Violation)
    requires "" !in variables
    ensures v in Findings(node, variables) <==> Commits(node, variables, v)
  {
    FindingsHave(node, variables, v);
    CallFindingsIff(node, variables, v);
    AddressIff(Get(node, "source"));
    AssignsAddressIff(node, variables);
  }

  // ---- What the scan of a program reports ----

  /** Some node up to the `j`-th makes a variable of the name hold a script element. */
  ghost predicate IsKnown(nodes: seq<Value>, j: nat, name: string)
    requires j < |nodes|
  {
    exists i: nat :: i <= j && Declares(nodes[i], name)
  }

  ghost predicate AreKnown(nodes: seq<Value>, j: nat, variables: set<string>)
    requires j < |nodes|
  {
    forall name :: name in variables <==> IsKnown(nodes, j, name)
  }

  lemma {:induction false} CollectedFromSome(names: Value -> set<string>, nodes: seq<Value>, n: nat, name: string)
    requires n <= |nodes|
    ensures name in Collected(names, nodes, n) <==> exists i: nat :: i < n && name in names(nodes[i])
  {
    if n > 0 {
      CollectedFromSome(names, nodes, n - 1, name);
    }
  }

  lemma {:induction false} KnownIff(nodes: seq<Value>, j: nat, variables: set<string>)
    requires j < |nodes|
    ensures AreKnown(nodes, j, variables) <==> variables == Collected(NewVariables, nodes, j + 1)
  {
    forall name ensures name in Collected(NewVariables, nodes, j + 1) <==> IsKnown(nodes, j, name) {
      NameIsKnown(nodes, j, name);
    }
  }

  lemma {:induction false} NameIsKnown(nodes: seq<Value>, j: nat, name: string)
    requires j < |nodes|
    ensures name in Collected(NewVariables, nodes, j + 1) <==> IsKnown(nodes, j, name)
  {
    CollectedFromSome(NewVariables, nodes, j + 1, name);
    forall i: nat | i <= j ensures name in NewVariables(nodes[i]) <==> Declares(nodes[i], name) {
      DeclaresIff(nodes[i], name);
    }
  }

  /** The `j`-th node commits the violation, given the script variables made up to it. */
  ghost predicate CommitsAt(nodes: seq<Value>, j: nat, v: Violation)
    requires j < |nodes|
  {
    exists variables :: AreKnown(nodes, j, variables) && Commits(nodes[j], variables, v)
  }

  lemma {:induction false} NoEmptyName(nodes: seq<Value>, j: nat)
    requires j < |nodes|
    ensures "" !in Collected(NewVariables, nodes, j + 1)
  {
    NameIsKnown(nodes, j, "");
  }

  lemma {:induction false} CommitsAtIff(nodes: seq<Value>, j: nat, v: Violation)
    requires j < |nodes|
    ensures v in Findings(nodes[j], Collected(NewVariables, nodes, j + 1)) <==> CommitsAt(nodes, j, v)
  {
    var known := Collected(NewVariables, nodes, j + 1);
    KnownIff(nodes, j, known);
    NoEmptyName(nodes, j);
    FindingsIff(nodes[j], known, v);
    forall variables | AreKnown(nodes, j, variables) ensures variables == known {
      KnownIff(nodes, j, variables);
    }
  }

  /** A violation is reported exactly when some node of the walk commits it, given the script variables made up to it. */
  lemma {:induction false} ReportedIff(root: Value, v: Violation)
    requires root.Object?
    ensures v in Fold(POLICY, Nodes(root), CLEAN).violations <==> exists j: nat :: j < |Nodes(root)| && CommitsAt(Nodes(root), j, v)
  {
    var nodes := Nodes(root);
    PolicyReportsIff(root, v);
    forall j: nat | j < |nodes|
      ensures v in Findings(nodes[j], Collected(NewVariables, nodes, j + 1)) <==> CommitsAt(nodes, j, v)
    {
      CommitsAtIff(nodes, j, v);
    }
  }

  /** A node that commits a violation without any variable is reported wherever it stands. */
  lemma {:induction false} FormIsReported(root: Value, node: Value, path: seq<Value>, s: Scan, v: Violation)
    requires root.Object? && IsPath(path, root, node) && node.Object? && Commits(node, {}, v)
    ensures v in Fold(POLICY, Nodes(root), s).violations
  {
    FindingsIff(node, {}, v);
    FindingsGrow(node, {}, NewVariables(node));
    ShownIsReported(root, node, path, s, v);
  }

  // ---- Construct by construct ----

  /** An import of a literal address, wherever it stands. */
  lemma {:induction false} ImportIsReported(root: Value, node: Value, path: seq<Value>, s: Scan, address: string)
    requires root.Object? && IsPath(path, root, node) && Get(node, "type") == Text("ImportExpression")
    requires IsLiteral(Get(node, "source"), address) && IsAddress(address)
    ensures RemoteImport in Fold(POLICY, Nodes(root), s).violations
  {
    FormIsReported(root, node, path, s, RemoteImport);
  }

  /** The source of an import or export declaration. */
  lemma {:induction false} ModuleSourceIsReported(root: Value, node: Value, path: seq<Value>, s: Scan, type_: string,
                                                  address: string)
    requires root.Object? && IsPath(path, root, node) && Get(node, "type") == Text(type_)
    requires type_ == "ImportDeclaration" || type_ == "ExportNamedDeclaration" || type_ == "ExportAllDeclaration"
    requires IsLiteral(Get(node, "source"), address) && IsAddress(address)
    ensures RemoteModuleSource in Fold(POLICY, Nodes(root), s).violations
  {
    FormIsReported(root, node, path, s, RemoteModuleSource);
  }

  /** A script imported into a worker, and a worker or a shared worker made. */
  lemma {:induction false} WorkerIsReported(root: Value, call: Value, path: seq<Value>, s: Scan, callee: Value,
                                            name: string, address: string)
    requires root.Object? && IsPath(path, root, call) && IsCall(call) && Calls(call, callee) && IsNamed(callee, name)
    requires IsLiteral(Argument(call, 0), address) && IsAddress(address)
    ensures name == "importScripts" ==> RemoteWorkerImport in Fold(POLICY, Nodes(root), s).violations
    ensures name == "Worker" || name == "SharedWorker" ==> RemoteWorkerScript in Fold(POLICY, Nodes(root), s).violations
  {
    if name == "importScripts" {
      assert CallCommits(call, callee, {}, RemoteWorkerImport);
      FormIsReported(root, call, path, s, RemoteWorkerImport);
    } else if name == "Worker" || name == "SharedWorker" {
      assert CallCommits(call, callee, {}, RemoteWorkerScript);
      FormIsReported(root, call, path, s, RemoteWorkerScript);
    }
  }

  lemma {:induction false} NamedHasPath(v: Value, name: string)
    requires IsNamed(v, name)
    ensures HasPath(v, name)
  {
    assert IsChain(v, [name]) && Joined([name]) == name;
  }

  lemma {:induction false} PropertyHasPath(v: Value, path: string, last: string)
    requires HasPath(Get(v, "object"), path) && HasProperty(v, last) && path != "" && last != ""
    ensures HasPath(v, path + "." + last)
  {
    var parts :| IsChain(Get(v, "object"), parts) && Joined(parts) == path;
    ChainStarts(Get(v, "object"), parts);
    var longer := parts + [last];
    assert longer[..|parts|] == parts;
    assert IsChain(v, longer) && Joined(longer) == path + "." + last;
  }

  lemma {:induction false} RegisterPath(callee: Value, navigator: string, container: string, register: string)
    requires HasProperty(callee, register) && HasProperty(Get(callee, "object"), container)
    requires IsNamed(Get(Get(callee, "object"), "object"), navigator)
    requires navigator != "" && container != "" && register != ""
    ensures HasPath(callee, navigator + "." + container + "." + register)
  {
    NamedHasPath(Get(Get(callee, "object"), "object"), navigator);
    PropertyHasPath(Get(callee, "object"), navigator, container);
    PropertyHasPath(callee, navigator + "." + container, register);
  }

  lemma {:induction false} PathIsWritten()
    ensures "navigator" + "." + "serviceWorker" + "." + "register" == "navigator.serviceWorker.register"
  {
  }

  lemma {:induction false} ServiceCommits(call: Value, callee: Value, address: string)
    requires IsCall(call) && Calls(call, callee) && HasPath(callee, "navigator.serviceWorker.register")
    requires IsLiteral(Argument(call, 0), address) && IsAddress(address)
    ensures Commits(call, {}, RemoteServiceWorker)
  {
    assert CallCommits(call, callee, {}, RemoteServiceWorker);
  }

  lemma {:induction false} RegistrationCommits(call: Value, callee: Value, address: string)
    requires IsCall(call) && Calls(call, callee)
    requires HasProperty(callee, "register") && HasProperty(Get(callee, "object"), "serviceWorker")
    requires IsNamed(Get(Get(callee, "object"), "object"), "navigator")
    requires IsLiteral(Argument(call, 0), address) && IsAddress(address)
    ensures Commits(call, {}, RemoteServiceWorker)
  {
    RegisterPath(callee, "navigator", "serviceWorker", "register");
    PathIsWritten();
    ServiceCommits(call, callee, address);
  }

  /** A service worker registered through the navigator. */
  lemma {:induction false} ServiceWorkerIsReported(root: Value, call: Value, path: seq<Value>, s: Scan,
                                                   callee: Value, address: string)
    requires root.Object? && IsPath(path, root, call) && IsCall(call) && Calls(call, callee)
    requires HasProperty(callee, "register") && HasProperty(Get(callee, "object"), "serviceWorker")
    requires IsNamed(Get(Get(callee, "object"), "object"), "navigator")
    requires IsLiteral(Argument(call, 0), address) && IsAddress(address)
    ensures RemoteServiceWorker in Fold(POLICY, Nodes(root), s).violations
  {
    RegistrationCommits(call, callee, address);
    FormIsReported(root, call, path, s, RemoteServiceWorker);
  }

  lemma {:induction false} KnownCommits(nodes: seq<Value>, j: nat, known: set<string>, v: Violation)
    requires j < |nodes| && known == Collected(NewVariables, nodes, j + 1) && Commits(nodes[j], known, v)
    ensures CommitsAt(nodes, j, v)
  {
    KnownIff(nodes, j, known);
  }

  lemma {:induction false} VariableIsReported(root: Value, i: nat, j: nat, name: string)
    requires root.Object? && i <= j < |Nodes(root)| && Declares(Nodes(root)[i], name)
    requires forall variables: set<string> | name in variables :: Commits(Nodes(root)[j], variables, RemoteScriptAssignment)
    ensures RemoteScriptAssignment in Fold(POLICY, Nodes(root), CLEAN).violations
  {
    var known := Collected(NewVariables, Nodes(root), j + 1);
    NameIsKnown(Nodes(root), j, name);
    KnownCommits(Nodes(root), j, known, RemoteScriptAssignment);
    ReportedIff(root, RemoteScriptAssignment);
  }

  /** The source or target of a variable that some earlier node made hold a script element is assigned an address. */
  lemma {:induction false} ScriptSourceIsReported(root: Value, i: nat, j: nat, name: string, property: string,
                                                  address: string)
    requires root.Object? && i <= j < |Nodes(root)| && Declares(Nodes(root)[i], name)
    requires var node := Nodes(root)[j];
      && Get(node, "type") == Text("AssignmentExpression")
      && HasProperty(Get(node, "left"), property) && (property == "src" || property == "href")
      && IsNamed(Get(Get(node, "left"), "object"), name)
      && IsLiteral(Get(node, "right"), address) && IsAddress(address)
    ensures RemoteScriptAssignment in Fold(POLICY, Nodes(root), CLEAN).violations
  {
    forall variables: set<string> | name in variables ensures Commits(Nodes(root)[j], variables, RemoteScriptAssignment) {
      SourceCommits(Nodes(root)[j], variables, name, property, address);
    }
    VariableIsReported(root, i, j, name);
  }

  lemma {:induction false} SourceCommits(node: Value, variables: set<string>, name: string, property: string,
                                         address: string)
    requires Get(node, "type") == Text("AssignmentExpression") && name in variables
    requires HasProperty(Get(node, "left"), property) && (property == "src" || property == "href")
    requires IsNamed(Get(Get(node, "left"), "object"), name) && IsLiteral(Get(node, "right"), address) && IsAddress(address)
    ensures Commits(node, variables, RemoteScriptAssignment)
  {
    assert AssignsAddress(node, variables);
  }

  /** The same by way of setAttribute, the attribute in any spelling of its letters. */
  lemma {:induction false} ScriptAttributeIsReported(root: Value, i: nat, j: nat, callee: Value, name: string,
                                                     attribute: string, address: string)
    requires root.Object? && i <= j < |Nodes(root)| && Declares(Nodes(root)[i], name)
    requires var node := Nodes(root)[j];
      && IsCall(node) && Calls(node, callee) && HasProperty(callee, "setAttribute") && IsNamed(Get(callee, "object"), name)
      && IsLiteral(Argument(node, 0), attribute) && (SameButForCase(attribute, "src") || SameButForCase(attribute, "href"))
      && IsLiteral(Argument(node, 1), address) && IsAddress(address)
    ensures RemoteScriptAssignment in Fold(POLICY, Nodes(root), CLEAN).violations
  {
    forall variables: set<string> | name in variables ensures Commits(Nodes(root)[j], variables, RemoteScriptAssignment) {
      AttributeCommits(Nodes(root)[j], callee, variables, name, attribute, address);
    }
    VariableIsReported(root, i, j, name);
  }

  lemma {:induction false} AttributeCommits(node: Value, callee: Value, variables: set<string>, name: string,
                                            attribute: string, address: string)
    requires IsCall(node) && Calls(node, callee) && HasProperty(callee, "setAttribute") && IsNamed(Get(callee, "object"), name) && name in variables
    requires IsLiteral(Argument(node, 0), attribute) && (SameButForCase(attribute, "src") || SameButForCase(attribute, "href"))
    requires IsLiteral(Argument(node, 1), address) && IsAddress(address)
    ensures Commits(node, variables, RemoteScriptAssignment)
  {
    assert SetsAddress(node, callee, variables);
    assert CallCommits(node, callee, variables, RemoteScriptAssignment);
  }
}
