/** The static policy scan of extension scripts: a walk over a syntax tree that collects
    violations and the names of variables that hold script elements. */
module AstPolicy {
  import opened Options
  import opened Letters

  /** A parsed value; fields are in the order they are enumerated.  `Other` is a value the scan
      does not look into, with its truth. */
  datatype Value = Undefined | Other(truth: bool) | Flag(on: bool) | Text(text: string) | List(items: seq<Value>) | Object(fields: seq<Field>)

  datatype Field = Field(key: string, value: Value)

  datatype Violation =
    | WebAssembly | RemoteImport | RemoteModuleSource | DynamicCode | StringTimer | RemoteWorkerImport | RemoteWorkerScript
    | RemoteServiceWorker | RemoteScriptAssignment

  // ---- Reading a tree ----

  function Lookup(fields: seq<Field>, key: string): (v: Value)
    ensures v == Undefined || exists i | 0 <= i < |fields| :: fields[i].value == v
  {
    if fields == [] then Undefined else if fields[0].key == key then fields[0].value else Lookup(fields[1..], key)
  }

  function Get(v: Value, key: string): Value {
    if v.Object? then Lookup(v.fields, key) else Undefined
  }

  /** An object with a textual type. */
  predicate IsNode(v: Value) {
    v.Object? && Get(v, "type").Text?
  }

  predicate HasType(v: Value, type_: string) {
    Get(v, "type") == Text(type_)
  }

  function ItemAt(v: Value, i: nat): Value {
    if v.List? && i < |v.items| then v.items[i] else Undefined
  }

  function LastItem(items: seq<Value>): Value {
    if items == [] then Undefined else items[|items| - 1]
  }

  function LiteralText(v: Value): Option<string> {
    if HasType(v, "Literal") && Get(v, "value").Text? then Some(Get(v, "value").text)
    else if HasType(v, "TemplateLiteral") && Get(v, "expressions") == List([]) && Get(v, "quasis").List?
      && Get(Get(ItemAt(Get(v, "quasis"), 0), "value"), "cooked").Text?
    then Some(Get(Get(ItemAt(Get(v, "quasis"), 0), "value"), "cooked").text)
    else None
  }

  function IdentifierName(v: Value): Option<string> {
    if HasType(v, "Identifier") && Get(v, "name").Text? then Some(Get(v, "name").text) else None
  }

  /** JavaScript's truth of the `computed` flag. */
  predicate Truthy(v: Value) {
    match v
    case Undefined => false
    case Other(truth) => truth
    case Flag(on) => on
    case Text(text) => text != ""
    case List(_) => true
    case Object(_) => true
  }

  function PropertyName(member: Value): Option<string> {
    if Truthy(Get(member, "computed")) then LiteralText(Get(member, "property")) else IdentifierName(Get(member, "property"))
  }

  function MemberProperty(v: Value): Option<string> {
    if HasType(v, "MemberExpression") then PropertyName(v) else None
  }

  lemma {:induction false} GetIsSmaller(v: Value, key: string)
    requires Get(v, key) != Undefined
    ensures Get(v, key) < v
  {
    var i :| 0 <= i < |v.fields| && v.fields[i].value == Get(v, key);
    assert v.fields[i] in v.fields;
  }

  function MemberPath(v: Value): Option<string>
    decreases v
  {
    if HasType(v, "Identifier") then IdentifierName(v)
    else if !HasType(v, "MemberExpression") || Get(v, "object") == Undefined then None
    else
      GetIsSmaller(v, "object");
      match MemberPath(Get(v, "object"))
      case None => None
      case Some(path) =>
        var property := PropertyName(v);
        if path == "" || property.None? || property.value == "" then None else Some(path + "." + property.value)
  }

  /** An absolute HTTP or HTTPS address. */
  predicate IsRemote(s: Option<string>) {
    s.Some? && ("http://" <= Lower(s.value) || "https://" <= Lower(s.value))
  }

  // ---- The findings of one node ----

  predicate CreatesScript(v: Value) {
    && HasType(v, "CallExpression")
    && MemberProperty(Get(v, "callee")) == Some("createElement")
    && LiteralText(ItemAt(Get(v, "arguments"), 0)).Some?
    && Lower(LiteralText(ItemAt(Get(v, "arguments"), 0)).value) == "script"
  }

  function NameOf(v: Value): set<string> {
    match IdentifierName(v)
    case Some(name) => if name == "" then {} else {name}
    case None => {}
  }

  /** The variables a node makes hold a script element. */
  function NewVariables(node: Value): set<string> {
    if HasType(node, "VariableDeclarator") && CreatesScript(Get(node, "init")) then NameOf(Get(node, "id"))
    else if HasType(node, "AssignmentExpression") && CreatesScript(Get(node, "right")) then NameOf(Get(node, "left"))
    else {}
  }

  function Globals(name: string): set<string> {
    {"globalThis." + name, "window." + name, "self." + name}
  }

  predicate Names(variables: set<string>, v: Value) {
    var name := IdentifierName(v);
    (if name.Some? then name.value else "") in variables
  }

  /** The called expression; of a sequence the last part. */
  function Callee(node: Value): Value {
    var raw := Get(node, "callee");
    if HasType(raw, "SequenceExpression") && Get(raw, "expressions").List? then LastItem(Get(raw, "expressions").items) else raw
  }

  predicate InGlobals(path: Option<string>, name: string) {
    path.Some? && path.value in Globals(name)
  }

  predicate IsDynamicCode(callee: Value, first: Value) {
    var name := IdentifierName(callee);
    var path := MemberPath(callee);
    || name == Some("eval") || name == Some("Function")
    || InGlobals(path, "eval") || InGlobals(path, "Function")
    || (path == Some("Reflect.construct") && IdentifierName(first) == Some("Function"))
    || (&& MemberProperty(callee) == Some("constructor")
        && (HasType(Get(callee, "object"), "FunctionExpression") || HasType(Get(callee, "object"), "ArrowFunctionExpression")))
  }

  predicate IsTimer(callee: Value) {
    var name := IdentifierName(callee);
    var path := MemberPath(callee);
    || name == Some("setTimeout") || name == Some("setInterval")
    || InGlobals(path, "setTimeout") || InGlobals(path, "setInterval")
  }

  predicate SetsRemoteAttribute(callee: Value, arguments: Value, variables: set<string>) {
    && MemberProperty(callee) == Some("setAttribute")
    && Names(variables, Get(callee, "object"))
    && LiteralText(ItemAt(arguments, 0)).Some?
    && Lower(LiteralText(ItemAt(arguments, 0)).value) in {"src", "href"}
    && IsRemote(LiteralText(ItemAt(arguments, 1)))
  }

  /** The tests made of a call or a construction. */
  datatype CallTests = CallTests(code: bool, timer: bool, worker: bool, script: bool, service: bool, attribute: bool)

  function Tested(t: CallTests): set<Violation> {
    (if t.code then {DynamicCode} else {})
    + (if t.timer then {StringTimer} else {})
    + (if t.worker then {RemoteWorkerImport} else {})
    + (if t.script then {RemoteWorkerScript} else {})
    + (if t.service then {RemoteServiceWorker} else {})
    + (if t.attribute then {RemoteScriptAssignment} else {})
  }

  function TestsOf(callee: Value, arguments: Value, variables: set<string>): CallTests {
    var name := IdentifierName(callee);
    var first := LiteralText(ItemAt(arguments, 0));
    CallTests(
      IsDynamicCode(callee, ItemAt(arguments, 0)),
      IsTimer(callee) && first.Some?,
      name == Some("importScripts") && IsRemote(first),
      (name == Some("Worker") || name == Some("SharedWorker")) && IsRemote(first),
      MemberPath(callee) == Some("navigator.serviceWorker.register") && IsRemote(first),
      SetsRemoteAttribute(callee, arguments, variables))
  }

  /** The findings of a call or a construction. */
  function CallFindings(node: Value, variables: set<string>): set<Violation> {
    Tested(TestsOf(Callee(node), Get(node, "arguments"), variables))
  }

  predicate AssignsRemoteScript(node: Value, variables: set<string>) {
    var left := Get(node, "left");
    && HasType(left, "MemberExpression")
    && (Names(variables, Get(left, "object")) || CreatesScript(Get(left, "object")))
    && (PropertyName(left) == Some("src") || PropertyName(left) == Some("href"))
    && IsRemote(LiteralText(Get(node, "right")))
  }

  predicate IsModuleSource(node: Value) {
    HasType(node, "ImportDeclaration") || HasType(node, "ExportNamedDeclaration") || HasType(node, "ExportAllDeclaration")
  }

  /** The findings of one node, given the script variables known by then. */
  function Findings(node: Value, variables: set<string>): set<Violation> {
    (if HasType(node, "Identifier") && Get(node, "name") == Text("WebAssembly") then {WebAssembly} else {})
    + (if HasType(node, "ImportExpression") && IsRemote(LiteralText(Get(node, "source"))) then {RemoteImport} else {})
    + (if IsModuleSource(node) && IsRemote(LiteralText(Get(node, "source"))) then {RemoteModuleSource} else {})
    + (if HasType(node, "CallExpression") || HasType(node, "NewExpression") then CallFindings(node, variables) else {})
    + (if HasType(node, "AssignmentExpression") && AssignsRemoteScript(node, variables) then {RemoteScriptAssignment} else {})
  }

  // ---- The walk as a fold over the nodes it reaches ----

  datatype Scan = Scan(violations: set<Violation>, variables: set<string>)

  const CLEAN := Scan({}, {})

  /** What one node adds to the variables, and what it shows given the variables. */
  datatype Rules = Rules(names: Value -> set<string>, findings: (Value, set<string>) -> set<Violation>)

  const POLICY := Rules(NewVariables, Findings)

  function Examine(rules: Rules, node: Value, s: Scan): Scan {
    var variables := s.variables + rules.names(node);
    Scan(s.violations + rules.findings(node, variables), variables)
  }

  function Fold(rules: Rules, nodes: seq<Value>, s: Scan): Scan {
    if nodes == [] then s else Fold(rules, nodes[1..], Examine(rules, nodes[0], s))
  }

  /** A node and everything the walk reaches below it, in order. */
  function Nodes(v: Value): seq<Value>
    requires v.Object?
    decreases v
  {
    [v] + FieldNodes(v.fields)
  }

  function FieldNodes(fields: seq<Field>): seq<Value>
    decreases fields
  {
    if fields == [] then [] else ValueNodes(fields[0]) + FieldNodes(fields[1..])
  }

  /** The nodes of one field: a node, or the nodes in a list, but never those of `parent`. */
  function ValueNodes(f: Field): seq<Value>
    decreases f
  {
    if f.key == "parent" then []
    else if IsNode(f.value) then Nodes(f.value)
    else if f.value.List? then ItemNodes(f.value.items)
    else []
  }

  function ItemNodes(items: seq<Value>): seq<Value>
    decreases items
  {
    if items == [] then [] else (if IsNode(items[0]) then Nodes(items[0]) else []) + ItemNodes(items[1..])
  }

  // ---- The walk as it is written ----

  lemma {:induction false} FoldJoins(rules: Rules, a: seq<Value>, b: seq<Value>, s: Scan)
    ensures Fold(rules, a + b, s) == Fold(rules, b, Fold(rules, a, s))
  {
    if a == [] {
      assert a + b == b;
    } else {
      assert (a + b)[1..] == a[1..] + b;
      FoldJoins(rules, a[1..], b, Examine(rules, a[0], s));
    }
  }

  /** The two sets the visitor adds to. */
  class Scanner {
    var violations: set<Violation>
    var scriptVariables: set<string>

    function State(): Scan
      reads this
    {
      Scan(violations, scriptVariables)
    }

    constructor ()
      ensures State() == CLEAN
    {
      violations, scriptVariables := {}, {};
    }

    /** Examines a node, then visits what its fields hold. */
    method Visit(node: Value)
      requires node.Object?
      modifies this
      ensures State() == Fold(POLICY, Nodes(node), old(State()))
      decreases node
    {
      scriptVariables := scriptVariables + NewVariables(node);
      violations := violations + Findings(node, scriptVariables);
      assert Nodes(node)[1..] == FieldNodes(node.fields);
      var fields := node.fields;
      for i := 0 to |fields|
        invariant Fold(POLICY, FieldNodes(fields[i..]), State()) == Fold(POLICY, Nodes(node), old(State()))
      {
        var f := fields[i];
        assert f in fields && fields[i..][1..] == fields[i + 1..];
        FoldJoins(POLICY, ValueNodes(f), FieldNodes(fields[i + 1..]), State());
        VisitField(f);
      }
    }

    method VisitField(f: Field)
      modifies this
      ensures State() == Fold(POLICY, ValueNodes(f), old(State()))
      decreases f
    {
      if f.key == "parent" {
        return;
      }
      if IsNode(f.value) {
        Visit(f.value);
      } else if f.value.List? {
        VisitItems(f.value.items);
      }
    }

    method VisitItems(items: seq<Value>)
      modifies this
      ensures State() == Fold(POLICY, ItemNodes(items), old(State()))
      decreases items
    {
      for i := 0 to |items|
        invariant Fold(POLICY, ItemNodes(items[i..]), State()) == Fold(POLICY, ItemNodes(items), old(State()))
      {
        var child := items[i];
        assert child in items && items[i..][1..] == items[i + 1..];
        FoldJoins(POLICY, if IsNode(child) then Nodes(child) else [], ItemNodes(items[i + 1..]), State());
        if IsNode(child) {
          Visit(child);
        }
      }
    }
  }

  /** The scan of a program. */
  method ScanPolicy(root: Value) returns (violations: set<Violation>)
    requires IsNode(root)
    ensures violations == Fold(POLICY, Nodes(root), CLEAN).violations
  {
    var scanner := new Scanner();
    scanner.Visit(root);
    violations := scanner.violations;
  }

  // ---- More known variables never hide a finding ----

  predicate Within(a: Scan, b: Scan) {
    a.violations <= b.violations && a.variables <= b.variables
  }

  lemma {:induction false} FindingsGrow(node: Value, a: set<string>, b: set<string>)
    requires a <= b
    ensures Findings(node, a) <= Findings(node, b)
  {
    CallFindingsGrow(node, a, b);
  }

  lemma {:induction false} CallFindingsGrow(node: Value, a: set<string>, b: set<string>)
    requires a <= b
    ensures CallFindings(node, a) <= CallFindings(node, b)
  {
    var callee := Callee(node);
    assert SetsRemoteAttribute(callee, Get(node, "arguments"), a) ==> SetsRemoteAttribute(callee, Get(node, "arguments"), b);
  }

  ghost predicate Growing(rules: Rules) {
    forall node, a: set<string>, b: set<string> | a <= b :: rules.findings(node, a) <= rules.findings(node, b)
  }

  lemma {:induction false} PolicyIsGrowing()
    ensures Growing(POLICY)
  {
    forall node, a: set<string>, b: set<string> | a <= b ensures POLICY.findings(node, a) <= POLICY.findings(node, b) {
      FindingsGrow(node, a, b);
    }
  }

  lemma {:induction false} ExamineGrows(rules: Rules, node: Value, a: Scan, b: Scan)
    requires Growing(rules) && Within(a, b)
    ensures Within(Examine(rules, node, a), Examine(rules, node, b)) && Within(a, Examine(rules, node, a))
  {
    assert rules.findings(node, a.variables + rules.names(node)) <= rules.findings(node, b.variables + rules.names(node));
  }

  lemma {:induction false} FoldGrows(rules: Rules, nodes: seq<Value>, a: Scan, b: Scan)
    requires Growing(rules) && Within(a, b)
    ensures Within(Fold(rules, nodes, a), Fold(rules, nodes, b)) && Within(b, Fold(rules, nodes, b))
  {
    if nodes != [] {
      ExamineGrows(rules, nodes[0], a, b);
      ExamineGrows(rules, nodes[0], b, b);
      FoldGrows(rules, nodes[1..], Examine(rules, nodes[0], a), Examine(rules, nodes[0], b));
    }
  }

  // ---- What the walk reaches ----

  /** The walk goes from `parent` to `child`. */
  ghost predicate Steps(parent: Value, child: Value) {
    parent.Object? && exists f | f in parent.fields :: Holds(f, child)
  }

  predicate Holds(f: Field, child: Value) {
    && f.key != "parent"
    && IsNode(child)
    && (f.value == child || (!IsNode(f.value) && f.value.List? && child in f.value.items))
  }

  ghost predicate IsPath(path: seq<Value>, from: Value, to: Value) {
    && path != []
    && path[0] == from
    && path[|path| - 1] == to
    && forall i: nat | i + 1 < |path| :: Steps(path[i], path[i + 1])
  }

  lemma {:induction false} PathGrows(path: seq<Value>, from: Value, first: Value, to: Value)
    requires Steps(from, first) && IsPath(path, first, to)
    ensures IsPath([from] + path, from, to)
  {
    var longer := [from] + path;
    forall i: nat | i + 1 < |longer| ensures Steps(longer[i], longer[i + 1]) {
      if i > 0 {
        assert longer[i] == path[i - 1] && longer[i + 1] == path[i];
      }
    }
  }

  lemma {:induction false} ReachedByPath(v: Value, n: Value) returns (path: seq<Value>)
    requires v.Object? && n in Nodes(v)
    ensures IsPath(path, v, n)
    decreases v
  {
    if n == v {
      path := [v];
    } else {
      var f, child := HolderOf(v.fields, n);
      assert f in v.fields && Steps(v, child);
      ChildIsSmaller(v, f, child);
      var rest := ReachedByPath(child, n);
      PathGrows(rest, v, child, n);
      path := [v] + rest;
    }
  }

  lemma {:induction false} ChildIsSmaller(v: Value, f: Field, child: Value)
    requires v.Object? && f in v.fields && Holds(f, child)
    ensures child < v
  {
    var i :| 0 <= i < |v.fields| && v.fields[i] == f;
    if f.value != child {
      var k :| 0 <= k < |f.value.items| && f.value.items[k] == child;
    }
  }

  /** The field and the child below which a node lies. */
  lemma {:induction false} HolderOf(fields: seq<Field>, n: Value) returns (f: Field, child: Value)
    requires n in FieldNodes(fields)
    ensures f in fields && Holds(f, child) && child.Object? && n in Nodes(child)
  {
    if n in ValueNodes(fields[0]) {
      f := fields[0];
      if IsNode(f.value) {
        child := f.value;
      } else {
        child := ItemHolderOf(f.value.items, n);
      }
    } else {
      f, child := HolderOf(fields[1..], n);
      assert fields == [fields[0]] + fields[1..];
    }
  }

  lemma {:induction false} ItemHolderOf(items: seq<Value>, n: Value) returns (child: Value)
    requires n in ItemNodes(items)
    ensures child in items && IsNode(child) && n in Nodes(child)
  {
    if IsNode(items[0]) && n in Nodes(items[0]) {
      child := items[0];
    } else {
      child := ItemHolderOf(items[1..], n);
    }
  }

  lemma {:induction false} Regroup(a: seq<Value>, b: seq<Value>, c: seq<Value>, d: seq<Value>)
    ensures a + b + c + d == a + b + (c + d) && a + (b + c + d) == a + b + c + d
  {
  }

  /** The nodes of a part are a stretch of the nodes of the whole. */
  lemma {:induction false} FieldStretch(fields: seq<Field>, f: Field, child: Value)
    returns (before: seq<Value>, after: seq<Value>)
    requires f in fields && Holds(f, child)
    ensures FieldNodes(fields) == before + Nodes(child) + after
  {
    if f == fields[0] {
      var b, a := ValueStretch(f, child);
      before, after := b, a + FieldNodes(fields[1..]);
      Regroup(b, Nodes(child), a, FieldNodes(fields[1..]));
    } else {
      var b, a := FieldStretch(fields[1..], f, child);
      before, after := ValueNodes(fields[0]) + b, a;
      Regroup(ValueNodes(fields[0]), b, Nodes(child), a);
    }
  }

  lemma {:induction false} ValueStretch(f: Field, child: Value) returns (before: seq<Value>, after: seq<Value>)
    requires Holds(f, child)
    ensures ValueNodes(f) == before + Nodes(child) + after
  {
    if f.value == child {
      before, after := [], [];
      assert [] + Nodes(child) + [] == Nodes(child);
    } else {
      before, after := ItemStretch(f.value.items, child);
    }
  }

  lemma {:induction false} ItemStretch(items: seq<Value>, child: Value) returns (before: seq<Value>, after: seq<Value>)
    requires child in items && IsNode(child)
    ensures ItemNodes(items) == before + Nodes(child) + after
  {
    if items[0] == child {
      before, after := [], ItemNodes(items[1..]);
      assert [] + Nodes(child) + after == Nodes(child) + after;
    } else {
      var b, a := ItemStretch(items[1..], child);
      var head := if IsNode(items[0]) then Nodes(items[0]) else [];
      before, after := head + b, a;
      assert head + (b + Nodes(child) + a) == before + Nodes(child) + after;
    }
  }

  /** Whatever a path of the walk leads to, its nodes are a stretch of the root's. */
  lemma {:induction false} PathStretch(path: seq<Value>, root: Value, part: Value)
    returns (before: seq<Value>, after: seq<Value>)
    requires root.Object? && IsPath(path, root, part)
    ensures part.Object? && Nodes(root) == before + Nodes(part) + after
  {
    if |path| == 1 {
      before, after := [], [];
      assert [] + Nodes(part) + [] == Nodes(part);
    } else {
      var child := path[1];
      assert Steps(path[0], path[1]);
      var f :| f in root.fields && Holds(f, child);
      assert IsPath(path[1..], child, part) by {
        forall i: nat | i + 1 < |path[1..]| ensures Steps(path[1..][i], path[1..][i + 1]) {
          assert Steps(path[i + 1], path[i + 2]);
        }
      }
      var b, a := PathStretch(path[1..], child, part);
      var c, d := FieldStretch(root.fields, f, child);
      before, after := [root] + c + b, a + d;
      assert [root] + (c + (b + Nodes(part) + a) + d) == before + Nodes(part) + after;
    }
  }

  /** The walk examines exactly the nodes its steps lead to. */
  lemma {:induction false} WalkReachesEveryNode(root: Value, n: Value)
    requires root.Object?
    ensures n in Nodes(root) <==> exists path :: IsPath(path, root, n)
  {
    if n in Nodes(root) {
      var path := ReachedByPath(root, n);
    }
    if exists path :: IsPath(path, root, n) {
      var path :| IsPath(path, root, n);
      var before, after := PathStretch(path, root, n);
      assert n in Nodes(n);
    }
  }

  /** Every violation of a fragment scanned alone is reported wherever the fragment occurs, whatever
      variables and violations were collected before. */
  lemma {:induction false} ScanIsMonotone(root: Value, fragment: Value, path: seq<Value>, s: Scan)
    requires root.Object? && fragment.Object? && IsPath(path, root, fragment)
    ensures Fold(POLICY, Nodes(fragment), CLEAN).violations <= Fold(POLICY, Nodes(root), s).violations
  {
    var before, after := PathStretch(path, root, fragment);
    FoldJoins(POLICY, before + Nodes(fragment), after, s);
    FoldJoins(POLICY, before, Nodes(fragment), s);
    PolicyIsGrowing();
    FoldGrows(POLICY, before, s, s);
    FoldGrows(POLICY, Nodes(fragment), CLEAN, Fold(POLICY, before, s));
    FoldGrows(POLICY, after, Fold(POLICY, before + Nodes(fragment), s), Fold(POLICY, before + Nodes(fragment), s));
  }

  // ---- What is reported, exactly ----

  /** The variables collected from the first `n` nodes. */
  function Collected(names: Value -> set<string>, nodes: seq<Value>, n: nat): set<string>
    requires n <= |nodes|
  {
    if n == 0 then {} else Collected(names, nodes, n - 1) + names(nodes[n - 1])
  }

  lemma {:induction false} CollectedFrom(rules: Rules, nodes: seq<Value>, n: nat)
    requires 0 < n <= |nodes|
    ensures Collected(rules.names, nodes, n) == rules.names(nodes[0]) + Collected(rules.names, nodes[1..], n - 1)
  {
    if n > 1 {
      CollectedFrom(rules, nodes, n - 1);
      assert nodes[1..][n - 2] == nodes[n - 1];
    }
  }

  /** Node `j` shows the violation, given the variables collected from the nodes up to it. */
  ghost predicate Shows(rules: Rules, nodes: seq<Value>, variables: set<string>, j: nat, v: Violation)
    requires j < |nodes|
  {
    v in rules.findings(nodes[j], variables + Collected(rules.names, nodes, j + 1))
  }

  lemma {:induction false} ShowsLater(rules: Rules, nodes: seq<Value>, variables: set<string>, j: nat, v: Violation)
    requires 0 < j < |nodes|
    ensures Shows(rules, nodes, variables, j, v) <==> Shows(rules, nodes[1..], variables + rules.names(nodes[0]), j - 1, v)
  {
    CollectedFrom(rules, nodes, j + 1);
    assert variables + Collected(rules.names, nodes, j + 1) == variables + rules.names(nodes[0]) + Collected(rules.names, nodes[1..], j);
  }

  lemma {:induction false} ShowsFirst(rules: Rules, nodes: seq<Value>, s: Scan, v: Violation)
    requires nodes != []
    ensures v in Examine(rules, nodes[0], s).violations <==> v in s.violations || Shows(rules, nodes, s.variables, 0, v)
  {
    assert Collected(rules.names, nodes, 0) == {};
    assert Collected(rules.names, nodes, 1) == rules.names(nodes[0]);
  }

  /** A violation is reported exactly when some node shows it. */
  lemma {:induction false} FoldReports(rules: Rules, nodes: seq<Value>, s: Scan, v: Violation)
    ensures v in Fold(rules, nodes, s).violations <==>
      v in s.violations || exists j: nat :: j < |nodes| && Shows(rules, nodes, s.variables, j, v)
  {
    if nodes != [] {
      var t := Examine(rules, nodes[0], s);
      FoldReports(rules, nodes[1..], t, v);
      ShowsFirst(rules, nodes, s, v);
      forall j: nat | 0 < j < |nodes|
        ensures Shows(rules, nodes, s.variables, j, v) <==> Shows(rules, nodes[1..], t.variables, j - 1, v)
      {
        ShowsLater(rules, nodes, s.variables, j, v);
      }
      if j: nat :| j < |nodes[1..]| && Shows(rules, nodes[1..], t.variables, j, v) {
        assert Shows(rules, nodes, s.variables, j + 1, v);
      }
    }
  }

  /** The scan of a program reports a violation exactly when some node of the walk is found to commit it,
      given the script variables made up to that node. */
  lemma {:induction false} PolicyReportsIff(root: Value, v: Violation)
    requires root.Object?
    ensures v in Fold(POLICY, Nodes(root), CLEAN).violations <==>
      exists j: nat :: j < |Nodes(root)| && v in Findings(Nodes(root)[j], Collected(NewVariables, Nodes(root), j + 1))
  {
    FoldReports(POLICY, Nodes(root), CLEAN, v);
    ShowsFromClean(POLICY, Nodes(root), v);
  }

  lemma {:induction false} ShowsFromClean(rules: Rules, nodes: seq<Value>, v: Violation)
    ensures forall j: nat | j < |nodes| ::
      Shows(rules, nodes, CLEAN.variables, j, v) <==> v in rules.findings(nodes[j], Collected(rules.names, nodes, j + 1))
  {
    forall j: nat | j < |nodes|
      ensures Shows(rules, nodes, CLEAN.variables, j, v) <==> v in rules.findings(nodes[j], Collected(rules.names, nodes, j + 1))
    {
      assert CLEAN.variables + Collected(rules.names, nodes, j + 1) == Collected(rules.names, nodes, j + 1);
    }
  }

  lemma {:induction false} CollectedHas(rules: Rules, nodes: seq<Value>, i: nat, n: nat)
    requires i < n <= |nodes|
    ensures rules.names(nodes[i]) <= Collected(rules.names, nodes, n)
  {
    if i < n - 1 {
      CollectedHas(rules, nodes, i, n - 1);
    }
  }

  /** A remote address assigned to a variable is reported when the variable was made a script
      element anywhere earlier in the walk. */
  lemma {:induction false} ScriptAssignmentIsReported(root: Value, i: nat, j: nat, name: string)
    requires root.Object? && i <= j < |Nodes(root)| && name in NewVariables(Nodes(root)[i])
    requires HasType(Nodes(root)[j], "AssignmentExpression") && AssignsRemoteScript(Nodes(root)[j], {name})
    ensures RemoteScriptAssignment in Fold(POLICY, Nodes(root), CLEAN).violations
  {
    var node := Nodes(root)[j];
    var known := CLEAN.variables + Collected(NewVariables, Nodes(root), j + 1);
    CollectedHas(POLICY, Nodes(root), i, j + 1);
    MoreNamesStillAssign(node, {name}, known);
    assert Shows(POLICY, Nodes(root), CLEAN.variables, j, RemoteScriptAssignment);
    FoldReports(POLICY, Nodes(root), CLEAN, RemoteScriptAssignment);
  }

  lemma {:induction false} MoreNamesStillAssign(node: Value, a: set<string>, b: set<string>)
    requires a <= b && HasType(node, "AssignmentExpression") && AssignsRemoteScript(node, a)
    ensures RemoteScriptAssignment in Findings(node, b)
  {
  }
}
