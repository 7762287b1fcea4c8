/** What the scan reports of calls by name, wherever they stand. */
module AstFragments {
  import opened Options
  import opened Letters
  import opened AstPolicy

  /** An address whose scheme is http or https, in any spelling of its letters. */
  ghost predicate IsAddress(text: string) {
    exists scheme, rest :: text == scheme + "://" + rest && (SameButForCase(scheme, "http") || SameButForCase(scheme, "https"))
  }

  lemma {:induction false} LowerPrefix(scheme: string, text: string)
    requires HasNoCapital(scheme)
    ensures scheme + "://" <= Lower(text) <==> exists s, rest :: text == s + "://" + rest && SameButForCase(s, scheme)
  {
    if scheme + "://" <= Lower(text) {
      var s, rest := text[..|scheme|], text[|scheme| + 3..];
      forall i | 0 <= i < |scheme| ensures SameLetter(s[i], scheme[i]) {
        assert Lower(text)[i] == (scheme + "://")[i];
      }
      forall i | 0 <= i < 3 ensures text[|scheme| + i] == "://"[i] {
        assert Lower(text)[|scheme| + i] == (scheme + "://")[|scheme| + i];
      }
      assert text == s + "://" + rest;
    }
    if s, rest :| text == s + "://" + rest && SameButForCase(s, scheme) {
      forall i | 0 <= i < |scheme| + 3 ensures Lower(text)[i] == (scheme + "://")[i] {
        if i < |scheme| {
          assert text[i] == s[i] && SameLetter(s[i], scheme[i]);
        } else {
          assert text[i] == "://"[i - |scheme|];
        }
      }
    }
  }

  /** A text is remote exactly when it is an http or https address. */
  lemma {:induction false} RemoteIff(text: string)
    ensures IsRemote(Some(text)) <==> IsAddress(text)
  {
    LowerPrefix("http", text);
    LowerPrefix("https", text);
    assert "http" + "://" == "http://" && "https" + "://" == "https://";
  }

  predicate IsInvocation(node: Value) {
    HasType(node, "CallExpression") || HasType(node, "NewExpression")
  }

  function FirstText(node: Value): Option<string> {
    LiteralText(ItemAt(Get(node, "arguments"), 0))
  }

  predicate Evaluates(name: string) {
    name == "eval" || name == "Function"
  }

  predicate SetsTimer(name: string) {
    name == "setTimeout" || name == "setInterval"
  }

  /** What a call by this name shows, given its first argument if that is a literal text. */
  ghost function Expected(name: string, first: Option<string>): set<Violation> {
    (if Evaluates(name) then {DynamicCode} else {})
    + (if SetsTimer(name) && first.Some? then {StringTimer} else {})
    + (if name == "importScripts" && first.Some? && IsAddress(first.value) then {RemoteWorkerImport} else {})
    + (if (name == "Worker" || name == "SharedWorker") && first.Some? && IsAddress(first.value) then {RemoteWorkerScript} else {})
  }

  /** A violation a node shows without any variable is reported wherever the node stands. */
  lemma {:induction false} ShownIsReported(root: Value, node: Value, path: seq<Value>, s: Scan, v: Violation)
    requires root.Object? && IsPath(path, root, node) && node.Object? && v in Findings(node, NewVariables(node))
    ensures v in Fold(POLICY, Nodes(root), s).violations
  {
    ScanIsMonotone(root, node, path, s);
    assert Nodes(node)[0] == node;
    assert Collected(NewVariables, Nodes(node), 0) == {} && Collected(NewVariables, Nodes(node), 1) == NewVariables(node);
    assert CLEAN.variables + Collected(NewVariables, Nodes(node), 1) == NewVariables(node);
    assert Shows(POLICY, Nodes(node), CLEAN.variables, 0, v);
    FoldReports(POLICY, Nodes(node), CLEAN, v);
  }

  lemma {:induction false} PathsHaveDots(name: string, plain: string)
    requires '.' !in plain
    ensures plain != "globalThis." + name && plain != "window." + name && plain != "self." + name
    ensures plain != "Reflect.construct" && plain != "navigator.serviceWorker.register"
  {
    assert ("globalThis." + name)[10] == '.' && ("window." + name)[6] == '.' && ("self." + name)[4] == '.';
    assert "Reflect.construct"[7] == '.' && "navigator.serviceWorker.register"[9] == '.';
  }

  lemma {:induction false} PlainIsNoGlobal(name: string, plain: string)
    requires '.' !in plain
    ensures !InGlobals(Some(plain), name)
  {
    PathsHaveDots(name, plain);
  }

  lemma {:induction false} NamedCallee(callee: Value, name: string)
    requires IdentifierName(callee) == Some(name)
    ensures MemberPath(callee) == Some(name) && MemberProperty(callee) == None
  {
  }

  /** A callee that is a plain name is no member of anything. */
  lemma {:induction false} NamedEvaluates(callee: Value, first: Value, name: string)
    requires IdentifierName(callee) == Some(name) && '.' !in name
    ensures IsDynamicCode(callee, first) <==> Evaluates(name)
    ensures MemberPath(callee) != Some("navigator.serviceWorker.register")
  {
    NamedCallee(callee, name);
    PathsHaveDots("", name);
    PlainIsNoGlobal("eval", name);
    PlainIsNoGlobal("Function", name);
  }

  lemma {:induction false} NamedSetsTimer(callee: Value, name: string)
    requires IdentifierName(callee) == Some(name) && '.' !in name
    ensures IsTimer(callee) <==> SetsTimer(name)
  {
    NamedCallee(callee, name);
    PlainIsNoGlobal("setTimeout", name);
    PlainIsNoGlobal("setInterval", name);
  }

  lemma {:induction false} NamedCallFindings(call: Value, name: string, variables: set<string>)
    requires IdentifierName(Callee(call)) == Some(name) && '.' !in name
    ensures CallFindings(call, variables) == Expected(name, FirstText(call))
  {
    var callee := Callee(call);
    NamedCallee(callee, name);
    NamedEvaluates(callee, ItemAt(Get(call, "arguments"), 0), name);
    NamedSetsTimer(callee, name);
    assert !SetsRemoteAttribute(callee, Get(call, "arguments"), variables);
    if FirstText(call).Some? {
      RemoteIff(FirstText(call).value);
    }
  }

  lemma {:induction false} InvocationIsNothingElse(call: Value)
    requires IsInvocation(call)
    ensures !HasType(call, "Identifier") && !HasType(call, "ImportExpression") && !IsModuleSource(call) && !HasType(call, "AssignmentExpression")
  {
  }

  lemma {:induction false} InvocationFindings(call: Value, variables: set<string>)
    requires IsInvocation(call)
    ensures Findings(call, variables) == CallFindings(call, variables)
  {
    InvocationIsNothingElse(call);
  }

  /** A call by name shows exactly what is expected of the name. */
  lemma {:induction false} NamedCallShows(call: Value, name: string, variables: set<string>)
    requires IsInvocation(call) && IdentifierName(Callee(call)) == Some(name) && '.' !in name
    ensures Findings(call, variables) == Expected(name, FirstText(call))
  {
    InvocationFindings(call, variables);
    NamedCallFindings(call, name, variables);
  }

  /** The call names its callee, directly or as the last part of a sequence. */
  predicate CallsByName(call: Value, name: string, parts: seq<Value>) {
    var callee := Get(call, "callee");
    if parts == [] then IdentifierName(callee) == Some(name)
    else
      && HasType(callee, "SequenceExpression") && Get(callee, "expressions") == List(parts)
      && IdentifierName(parts[|parts| - 1]) == Some(name)
  }

  lemma {:induction false} CalleeIsNamed(call: Value, name: string, parts: seq<Value>)
    requires CallsByName(call, name, parts)
    ensures IdentifierName(Callee(call)) == Some(name)
  {
    assert "Identifier" != "SequenceExpression";
  }

  /** A call by name, directly or as the last part of a sequence, is reported for what is expected of
      the name, wherever it stands. */
  lemma {:induction false} NamedCallIsReported(root: Value, call: Value, path: seq<Value>, s: Scan, name: string,
                                               parts: seq<Value>)
    requires root.Object? && IsPath(path, root, call)
    requires IsInvocation(call) && CallsByName(call, name, parts) && '.' !in name
    ensures Expected(name, FirstText(call)) <= Fold(POLICY, Nodes(root), s).violations
  {
    CalleeIsNamed(call, name, parts);
    NamedCallShows(call, name, NewVariables(call));
    forall v | v in Expected(name, FirstText(call)) ensures v in Fold(POLICY, Nodes(root), s).violations {
      ShownIsReported(root, call, path, s, v);
    }
  }

  predicate IsGlobal(name: string) {
    name == "globalThis" || name == "window" || name == "self"
  }

  /** The path of a property of a named object. */
  lemma {:induction false} PropertyPath(callee: Value, object_: string, property: string)
    requires HasType(callee, "MemberExpression") && IdentifierName(Get(callee, "object")) == Some(object_)
    requires PropertyName(callee) == Some(property) && object_ != "" && property != ""
    ensures MemberPath(callee) == Some(object_ + "." + property)
  {
    assert MemberPath(Get(callee, "object")) == Some(object_);
  }

  lemma {:induction false} GlobalPath(object_: string, property: string)
    requires IsGlobal(object_)
    ensures InGlobals(Some(object_ + "." + property), property)
  {
    if object_ == "globalThis" {
      assert object_ + "." == "globalThis.";
    } else if object_ == "window" {
      assert object_ + "." == "window.";
    } else {
      assert object_ + "." == "self.";
    }
  }

  /** A call whose callee is the named member of a global object. */
  lemma {:induction false} GlobalCallShows(call: Value, property: string, variables: set<string>)
    requires IsInvocation(call) && InGlobals(MemberPath(Callee(call)), property)
    ensures Evaluates(property) ==> DynamicCode in Findings(call, variables)
    ensures SetsTimer(property) && FirstText(call).Some? ==> StringTimer in Findings(call, variables)
  {
    InvocationFindings(call, variables);
  }

  /** Evaluating and timing by way of a global object is reported like the call by name. */
  lemma {:induction false} GlobalCallIsReported(root: Value, call: Value, path: seq<Value>, s: Scan, object_: string,
                                                property: string)
    requires root.Object? && IsPath(path, root, call) && IsInvocation(call)
    requires HasType(Callee(call), "MemberExpression") && IdentifierName(Get(Callee(call), "object")) == Some(object_)
    requires IsGlobal(object_) && PropertyName(Callee(call)) == Some(property)
    ensures Evaluates(property) ==> DynamicCode in Fold(POLICY, Nodes(root), s).violations
    ensures SetsTimer(property) && FirstText(call).Some? ==> StringTimer in Fold(POLICY, Nodes(root), s).violations
  {
    if Evaluates(property) || SetsTimer(property) {
      PropertyPath(Callee(call), object_, property);
      GlobalPath(object_, property);
      GlobalCallShows(call, property, NewVariables(call));
    }
    if Evaluates(property) {
      ShownIsReported(root, call, path, s, DynamicCode);
    }
    if SetsTimer(property) && FirstText(call).Some? {
      ShownIsReported(root, call, path, s, StringTimer);
    }
  }
}
