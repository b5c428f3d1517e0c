/** Acceptance of affine chute code by its syntax tree (api/affine.py). */
module Affine {
  import opened Base

  const MAX_CODE_SIZE := 10000
  const MAX_AST_NODES := 1000
  const MAX_STRING_LENGTH := 1000
  const MAX_AST_DEPTH := 20

  datatype Operator = Plus | Modulo | OtherOperator

  // The class of a node with what it holds besides nodes. Children come in the order given here; a name, an attribute,
  // a subscript, a tuple and a list end with their context node, a binary operation has its operator in the middle.
  datatype Kind =
    | Module
    | Name(name: string)
    | Str(value: string)
    | Literal
    | Import
    | ImportFrom(source: Option<string>)
    | Alias(name: string, asname: Option<string>)
    | Assign(targets: nat)                        // targets, value
    | For                                         // target, iterator, bodies
    | Call                                        // function, arguments, keywords
    | Keyword(arg: Option<string>)                // value
    | Attribute(attr: string)                     // value
    | Subscript(id: nat)                          // value, slice
    | BinOp(op: Operator)                         // left, operator, right
    | Dict(pairs: nat, unpacks: bool)             // keys, values
    | Delete                                      // targets
    | FunctionDef(id: nat, name: string, decorators: nat, annotated: bool) // decorators, arguments, annotation, body
    | AugAssign                                   // target, operator, value
    | AnnAssign(valued: bool)                     // target, annotation, value
    | NamedExpr                                   // target, value
    | TypeAlias                                   // name, parameters, value
    | TupleOrList                                 // elements
    | Starred                                     // value
    | Capture(bound: Option<string>)              // patterns of a match statement
    | Banned                                      // f-strings, lambdas, classes, async functions, comprehensions, ...
    | Other

  datatype Node = Node(kind: Kind, children: seq<Node>)

  const NO_NODE := Node(Other, [])

  function Child(n: Node, i: nat): Node {
    if i < |n.children| then n.children[i] else NO_NODE
  }

  // ---- Walking the tree ----

  function Nodes(n: Node): seq<Node>
    decreases n
  {
    [n] + NodesOf(n.children)
  }

  function NodesOf(ns: seq<Node>): seq<Node>
    decreases ns
  {
    if ns == [] then [] else Nodes(ns[0]) + NodesOf(ns[1..])
  }

  lemma {:induction false} NodesOfBoth(a: seq<Node>, b: seq<Node>)
    ensures NodesOf(a + b) == NodesOf(a) + NodesOf(b)
    decreases |a|
  {
    if a == [] {
      assert a + b == b;
    } else {
      NodesOfBoth(a[1..], b);
      assert (a + b)[0] == a[0] && (a + b)[1..] == a[1..] + b;
    }
  }

  // Taking the first node out of a queue and putting its children at the end.
  lemma QueueTurns(todo: seq<Node>)
    requires todo != []
    ensures var next := todo[1..] + todo[0].children;
            && multiset(NodesOf(todo)) == multiset{todo[0]} + multiset(NodesOf(next))
            && |NodesOf(todo)| == 1 + |NodesOf(next)|
  {
    NodesOfBoth(todo[1..], todo[0].children);
    assert NodesOf(todo) == [todo[0]] + NodesOf(todo[0].children) + NodesOf(todo[1..]);
  }

  lemma QueueStarts(tree: Node)
    ensures NodesOf([tree]) == Nodes(tree) && NodesOf([]) == []
  {
    assert NodesOf([tree]) == Nodes(tree) + NodesOf([]);
  }

  // ast.walk: breadth first, with a queue.
  method Walk(tree: Node) returns (found: seq<Node>)
    ensures multiset(found) == multiset(Nodes(tree))
    ensures |found| == |Nodes(tree)| && forall n :: n in found <==> n in Nodes(tree)
  {
    found := [];
    var todo := [tree];
    QueueStarts(tree);
    hide Nodes, NodesOf;
    while todo != []
      invariant multiset(found) + multiset(NodesOf(todo)) == multiset(Nodes(tree))
      decreases |NodesOf(todo)|
    {
      QueueTurns(todo);
      var n := todo[0];
      todo := todo[1..] + n.children;
      found := found + [n];
    }
    SameElements(found, Nodes(tree));
  }

  lemma SameElements(a: seq<Node>, b: seq<Node>)
    requires multiset(a) == multiset(b)
    ensures |a| == |b| && forall n :: n in a <==> n in b
  {
    assert |multiset(a)| == |multiset(b)|;
    forall n ensures n in a <==> n in b {
      assert n in multiset(a) <==> n in multiset(b);
    }
  }

  // ---- Depth ----

  function Max(a: nat, b: nat): nat {
    if a < b then b else a
  }

  function Min(a: nat, b: nat): nat {
    if a < b then a else b
  }

  function Depth(n: Node): nat
    decreases n
  {
    if n.children == [] then 0 else 1 + Deepest(n.children)
  }

  function Deepest(ns: seq<Node>): nat
    decreases ns
  {
    if ns == [] then 0 else Max(Deepest(ns[..|ns| - 1]), Depth(ns[|ns| - 1]))
  }

  /** Not looking below the limit makes no difference to whether the limit is exceeded. */
  method GetAstDepth(n: Node, current: nat) returns (depth: nat)
    requires current <= MAX_AST_DEPTH + 1
    ensures depth == Min(current + Depth(n), MAX_AST_DEPTH + 1)
    ensures depth > MAX_AST_DEPTH <==> current + Depth(n) > MAX_AST_DEPTH
    decreases n
  {
    if current > MAX_AST_DEPTH {
      return current;
    }
    depth := current;
    for i := 0 to |n.children|
      invariant depth == if i == 0 then current else Min(current + 1 + Deepest(n.children[..i]), MAX_AST_DEPTH + 1)
    {
      assert n.children[..i + 1][..i] == n.children[..i];
      var below := GetAstDepth(n.children[i], current + 1);
      depth := Max(depth, below);
    }
    assert n.children[..|n.children|] == n.children;
  }

  // ---- Rules on single nodes ----

  const BUILDERS := {"build_vllm_chute", "build_sglang_chute"}

  const HIDDEN_NAMES := {
    "__builtins__", "__loader__", "__file__", "__package__", "__spec__", "__cached__", "__name__"
  }

  const DANGEROUS_BUILTINS := {
    "eval", "exec", "compile", "__import__", "open", "input", "breakpoint", "help", "dir", "globals", "locals", "vars",
    "setattr", "delattr", "getattr", "type", "classmethod", "staticmethod", "property", "super", "isinstance",
    "issubclass", "callable", "hasattr", "hash", "id", "object", "memoryview", "bytearray", "bytes", "frozenset", "set"
  }

  // The rest of the same list.
  const MORE_BUILTINS := {
    "dict", "list", "tuple", "range", "slice", "filter", "map", "zip", "enumerate", "reversed", "sorted", "any", "all",
    "str", "repr", "format", "chr", "ord", "hex", "oct", "bin", "ascii", "__build_class__", "print"
  }

  predicate IsDangerous(name: string) {
    name in DANGEROUS_BUILTINS || name in MORE_BUILTINS
  }

  const FORBIDDEN_MODULES := {"pickle", "base64", "marshal", "shelve", "json", "codecs"}

  const STRING_METHODS := {
    "encode", "decode", "strip", "replace", "translate", "expandtabs", "split", "rsplit", "splitlines", "partition",
    "rpartition", "upper", "lower", "capitalize", "swapcase", "title", "center", "ljust", "rjust", "zfill"
  }

  const DANGEROUS_ATTRIBUTES := {
    "__builtins__", "__globals__", "__code__", "__class__", "__subclasses__", "__bases__", "__mro__", "__dict__",
    "__func__", "__self__", "__module__", "__closure__", "__annotations__", "__kwdefaults__", "__defaults__",
    "__import__", "__loader__", "__package__", "__spec__", "__file__", "__cached__", "__name__", "__qualname__",
    "__init__", "__new__", "__del__", "__getattr__", "__setattr__", "__delattr__", "__getattribute__", "__call__",
    "__enter__", "__exit__", "__reduce__", "__reduce_ex__", "__getstate__", "__setstate__"
  }

  // A string with a NUL is not measured.
  predicate StringOk(n: Node) {
    n.kind.Str? ==> '\0' in n.kind.value || |n.kind.value| <= MAX_STRING_LENGTH
  }

  predicate NameOk(n: Node) {
    n.kind.Name? ==> n.kind.name !in HIDDEN_NAMES
  }

  predicate ImportsOnly(n: Node, allowed: set<string>) {
    forall a :: a in n.children && a.kind.Alias? ==> a.kind.name in allowed
  }

  predicate ImportOk(n: Node) {
    match n.kind
    case Import => ImportsOnly(n, {"os"})
    case ImportFrom(source) =>
      && source.Some? && "chutes." <= source.value
      && if source.value == "chutes.chute" then ImportsOnly(n, {"NodeSelector"})
         else "chutes.chute.template" <= source.value && ImportsOnly(n, BUILDERS)
    case _ => true
  }

  predicate IsName(n: Node, name: string) {
    n.kind == Name(name)
  }

  predicate IsEnviron(n: Node) {
    n.kind == Attribute("environ") && IsName(Child(n, 0), "os")
  }

  predicate BinOpOk(n: Node) {
    match n.kind
    case BinOp(Plus) => Child(n, 0).kind.Str? <==> Child(n, 2).kind.Str?
    case BinOp(Modulo) => !Child(n, 0).kind.Str?
    case _ => true
  }

  predicate CallOk(n: Node) {
    n.kind.Call? ==>
      var f := Child(n, 0);
      && (f.kind.Name? ==> !IsDangerous(f.kind.name))
      && (f.kind.Attribute? ==>
            && !IsDangerous(f.kind.attr) && f.kind.attr !in STRING_METHODS && f.kind.attr != "join"
            && !(Child(f, 0).kind.Name? && Child(f, 0).kind.name in FORBIDDEN_MODULES)
            && !(f.kind.attr == "format" && Child(f, 0).kind.Str?))
  }

  predicate AttributeOk(n: Node) {
    n.kind.Attribute? ==>
      && n.kind.attr !in DANGEROUS_ATTRIBUTES
      && (IsName(Child(n, 0), "os") ==> n.kind.attr in {"environ", "getenv"})
  }

  // The subscripts that are targets of a delete statement.
  function DeleteTargets(nodes: seq<Node>): set<nat> {
    set n, t | n in nodes && n.kind.Delete? && t in n.children && t.kind.Subscript? :: t.kind.id
  }

  predicate SubscriptOk(n: Node, deleted: set<nat>) {
    n.kind.Subscript? ==>
      var value := Child(n, 0);
      if IsEnviron(value) then n.kind.id in deleted || Child(n, 1).kind.Str?
      else !(value.kind.Attribute? && value.kind.attr in {"__getitem__", "__setitem__", "__delitem__"})
  }

  predicate DeleteOk(n: Node) {
    n.kind.Delete? ==> forall t :: t in n.children ==> t.kind.Subscript? && IsEnviron(Child(t, 0))
  }

  predicate IsCord(n: Node) {
    n.kind == Attribute("cord") && IsName(Child(n, 0), "chute")
  }

  predicate DecoratorOk(d: Node) {
    (d.kind.Call? && !IsCord(Child(d, 0))) || (d.kind.Attribute? && !IsCord(d))
  }

  predicate DecoratorsOk(n: Node) {
    n.kind.FunctionDef? ==> forall i :: 0 <= i < n.kind.decorators && i < |n.children| ==> DecoratorOk(n.children[i])
  }

  // What a chain of attributes starts from.
  function Root(n: Node): Node
    decreases n
  {
    if n.kind.Attribute? && n.children != [] then Root(n.children[0]) else n
  }

  predicate AssignOk(n: Node) {
    n.kind.Assign? ==>
      forall i :: 0 <= i < n.kind.targets && i < |n.children| ==>
        n.children[i].kind.Attribute? ==> !IsName(Root(n.children[i]), "chute")
  }

  predicate NodeOk(n: Node, deleted: set<nat>) {
    && StringOk(n) && NameOk(n) && ImportOk(n) && !n.kind.Banned? && BinOpOk(n) && CallOk(n) && AttributeOk(n)
    && SubscriptOk(n, deleted) && DeleteOk(n) && DecoratorsOk(n) && AssignOk(n)
  }

  // ---- No function inside a function ----

  predicate IsFunction(n: Node, id: nat) {
    n.kind.FunctionDef? && n.kind.id == id
  }

  // As the source looks for it: by the identity of nodes.
  predicate IsNested(tree: Node, n: Node) {
    n.kind.FunctionDef?
    && exists p :: p in Nodes(tree) && p.kind.FunctionDef? && p.kind.id != n.kind.id
         && exists c :: c in Nodes(p) && IsFunction(c, n.kind.id)
  }

  // No two definitions are the same object.
  predicate DistinctFunctions(nodes: seq<Node>) {
    forall i, j :: 0 <= i < j < |nodes| && nodes[i].kind.FunctionDef? && nodes[j].kind.FunctionDef? ==>
      nodes[i].kind.id != nodes[j].kind.id
  }

  predicate HoldsFunction(n: Node) {
    exists c :: c in NodesOf(n.children) && c.kind.FunctionDef?
  }

  lemma {:induction false} Within(tree: Node, n: Node) returns (before: seq<Node>, after: seq<Node>)
    requires n in Nodes(tree)
    ensures Nodes(tree) == before + Nodes(n) + after
    decreases tree
  {
    if n == tree {
      before, after := [], [];
    } else {
      before, after := WithinAny(tree.children, n);
      before := [tree] + before;
    }
  }

  lemma {:induction false} WithinAny(ns: seq<Node>, n: Node) returns (before: seq<Node>, after: seq<Node>)
    requires n in NodesOf(ns)
    ensures NodesOf(ns) == before + Nodes(n) + after
    decreases ns
  {
    if n in Nodes(ns[0]) {
      before, after := Within(ns[0], n);
      after := after + NodesOf(ns[1..]);
    } else {
      before, after := WithinAny(ns[1..], n);
      before := Nodes(ns[0]) + before;
    }
  }

  lemma HeldIsElsewhere(tree: Node, f: Node, c: Node)
    requires DistinctFunctions(Nodes(tree))
    requires f in Nodes(tree) && f.kind.FunctionDef? && c in NodesOf(f.children) && c.kind.FunctionDef?
    ensures c in Nodes(tree) && c in Nodes(f) && c.kind.id != f.kind.id
  {
    var before, after := Within(tree, f);
    var all, inner := Nodes(tree), NodesOf(f.children);
    assert Nodes(f) == [f] + inner;
    hide Nodes, NodesOf;
    var k :| 0 <= k < |inner| && inner[k] == c;
    assert all[|before|] == f && all[|before| + 1 + k] == c;
  }

  /** Looking for nested functions by identity finds exactly the functions that hold another one. */
  lemma NestingIsFound(tree: Node)
    requires DistinctFunctions(Nodes(tree))
    ensures (exists n :: n in Nodes(tree) && IsNested(tree, n))
            <==> exists f :: f in Nodes(tree) && f.kind.FunctionDef? && HoldsFunction(f)
  {
    if n :| n in Nodes(tree) && IsNested(tree, n) {
      var p :| p in Nodes(tree) && p.kind.FunctionDef? && p.kind.id != n.kind.id
                && exists c :: c in Nodes(p) && IsFunction(c, n.kind.id);
      var c :| c in Nodes(p) && IsFunction(c, n.kind.id);
      assert Nodes(p) == [p] + NodesOf(p.children);
      hide Nodes, NodesOf;
      assert HoldsFunction(p);
    }
    if f :| f in Nodes(tree) && f.kind.FunctionDef? && HoldsFunction(f) {
      hide Nodes, NodesOf;
      var c :| c in NodesOf(f.children) && c.kind.FunctionDef?;
      HeldIsElsewhere(tree, f, c);
      assert IsFunction(c, c.kind.id);
      assert IsNested(tree, c);
    }
  }

  // ---- The top level ----

  // Names bound by the permitted imports: the alias if there is one. ("import os" is not recorded.)
  function BoundName(a: Node): string
    requires a.kind.Alias?
  {
    a.kind.asname.GetOr(a.kind.name)
  }

  function Imported(nodes: seq<Node>): set<string> {
    set n, a | n in nodes && n.kind.ImportFrom? && a in n.children && a.kind.Alias? :: BoundName(a)
  }

  // The builder called on the right of an assignment.
  function BuilderOf(stmt: Node): Option<string> {
    if !stmt.kind.Assign? then None
    else
      var value := Child(stmt, stmt.kind.targets);
      if value.kind.Call? && Child(value, 0).kind.Name? && Child(value, 0).kind.name in BUILDERS
      then Some(Child(value, 0).kind.name) else None
  }

  predicate IsAt(s: string, part: string, i: nat)
    requires i <= |s|
  {
    part <= s[i..]
  }

  predicate Contains(s: string, part: string) {
    exists i :: 0 <= i <= |s| && IsAt(s, part, i)
  }

  predicate TrustsRemoteCode(s: string) {
    Contains(s, "trust_remote_code") || Contains(s, "trust-remote-code")
  }

  predicate IsConstant(n: Node) {
    n.kind.Str? || n.kind.Literal?
  }

  predicate PairOk(key: Node, value: Node) {
    && key.kind.Str? && key.kind.value !in {"trust_remote_code", "trust-remote-code"}
    && IsConstant(value)
  }

  predicate EngineArgsOk(builder: string, value: Node) {
    if builder == "build_vllm_chute" then
      && value.kind.Dict? && !value.kind.unpacks
      && forall i :: 0 <= i < value.kind.pairs ==> PairOk(Child(value, i), Child(value, value.kind.pairs + i))
    else value.kind.Str? && !TrustsRemoteCode(value.kind.value)
  }

  predicate KeywordOk(builder: string, k: Node) {
    k.kind.Keyword? ==>
      && k.kind.arg.Some?
      && (k.kind.arg.value == "image" ==>
            && Child(k, 0).kind.Str?
            && ("chutes/sglang" <= Child(k, 0).kind.value || "chutes/vllm" <= Child(k, 0).kind.value))
      && (k.kind.arg.value == "engine_args" ==> EngineArgsOk(builder, Child(k, 0)))
  }

  // The target is a name; `i` is a top-level statement, `k` one of its targets.
  predicate IsBinding(body: seq<Node>, i: nat, k: nat) {
    i < |body| && body[i].kind.Assign? && k < body[i].kind.targets && k < |body[i].children| && body[i].children[k].kind.Name?
  }

  // A builder's result may only be named "chute", with the builder imported and its keywords in order.
  predicate BindingOk(stmt: Node, name: string, imported: set<string>) {
    BuilderOf(stmt).Some? ==>
      && BuilderOf(stmt).value in imported && name == "chute"
      && forall k :: k in Child(stmt, stmt.kind.targets).children ==> KeywordOk(BuilderOf(stmt).value, k)
  }

  predicate Builds(body: seq<Node>, i: nat, k: nat) {
    IsBinding(body, i, k) && BuilderOf(body[i]).Some?
  }

  predicate IsLoopVariable(body: seq<Node>, name: string) {
    exists n :: n in body && n.kind.For? && IsName(Child(n, 0), name)
  }

  ghost predicate BindingsOk(body: seq<Node>, imported: set<string>) {
    forall i: nat, k: nat :: IsBinding(body, i, k) ==> BindingOk(body[i], body[i].children[k].kind.name, imported)
  }

  // Exactly one target of one top-level statement is given the result of a builder.
  ghost predicate BuildsOnce(body: seq<Node>) {
    exists i: nat, k: nat :: Builds(body, i, k) && forall j: nat, m: nat :: Builds(body, j, m) ==> j == i && m == k
  }

  ghost predicate NoExtraNames(body: seq<Node>) {
    forall i: nat, k: nat :: IsBinding(body, i, k) ==>
      var name := body[i].children[k].kind.name;
      name == "chute" || IsLoopVariable(body, name)
  }

  // ---- Acceptance ----

  ghost predicate Accepted(size: nat, tree: Node) {
    && size <= MAX_CODE_SIZE && |Nodes(tree)| <= MAX_AST_NODES && Depth(tree) <= MAX_AST_DEPTH
    && (forall n :: n in Nodes(tree) ==> NodeOk(n, DeleteTargets(Nodes(tree))))
    && !(exists n :: n in Nodes(tree) && IsNested(tree, n))
    && BindingsOk(tree.children, Imported(Nodes(tree))) && BuildsOnce(tree.children) && NoExtraNames(tree.children)
  }

  // The check of the top level up to the first failure.
  method CheckBindings(body: seq<Node>, imported: set<string>) returns (ok: bool)
    ensures ok <==> BindingsOk(body, imported) && BuildsOnce(body)
  {
    var built := false;
    ghost var at: (nat, nat) := (0, 0);
    for i := 0 to |body|
      invariant forall j: nat, k: nat :: j < i && IsBinding(body, j, k) ==> BindingOk(body[j], body[j].children[k].kind.name, imported)
      invariant built ==> Builds(body, at.0, at.1) && at.0 < i
      invariant forall j: nat, k: nat :: j < i && Builds(body, j, k) ==> built && (j, k) == at
    {
      if body[i].kind.Assign? {
        var n := if body[i].kind.targets < |body[i].children| then body[i].kind.targets else |body[i].children|;
        for k := 0 to n
          invariant forall m: nat :: m < k && IsBinding(body, i, m) ==> BindingOk(body[i], body[i].children[m].kind.name, imported)
          invariant built ==> Builds(body, at.0, at.1)
          invariant forall j: nat, m: nat :: (j < i || (j == i && m < k)) && Builds(body, j, m) ==> built && (j, m) == at
          invariant at.0 < i || (at.0 == i && at.1 < k) || !built
        {
          var target := body[i].children[k];
          if target.kind.Name? {
            if !BindingOk(body[i], target.kind.name, imported) {
              assert IsBinding(body, i, k);
              return false;
            }
            if BuilderOf(body[i]).Some? {
              assert Builds(body, i, k);
              if built {
                return false;
              }
              built, at := true, (i, k);
            }
          }
        }
      }
    }
    ok := built;
  }

  method ImportedNames(nodes: seq<Node>) returns (names: set<string>)
    ensures names == Imported(nodes)
  {
    names := {};
    for i := 0 to |nodes|
      invariant names == Imported(nodes[..i])
    {
      var n := nodes[i];
      assert nodes[..i + 1] == nodes[..i] + [n];
      if n.kind.ImportFrom? {
        for k := 0 to |n.children|
          invariant names == Imported(nodes[..i]) + set a | a in n.children[..k] && a.kind.Alias? :: BoundName(a)
        {
          assert n.children[..k + 1] == n.children[..k] + [n.children[k]];
          if n.children[k].kind.Alias? {
            names := names + {BoundName(n.children[k])};
          }
        }
        assert n.children[..|n.children|] == n.children;
      }
      ImportedGrows(nodes[..i], n);
    }
    assert nodes[..|nodes|] == nodes;
  }

  lemma ImportedGrows(nodes: seq<Node>, n: Node)
    ensures Imported(nodes + [n])
            == Imported(nodes) + if n.kind.ImportFrom? then (set a | a in n.children && a.kind.Alias? :: BoundName(a)) else {}
  {
    var all := nodes + [n];
    assert forall m :: m in all <==> m in nodes || m == n;
  }

  // The walk over every function and every other function around it.
  method FindsNested(tree: Node, nodes: seq<Node>) returns (found: bool)
    requires forall n :: n in nodes <==> n in Nodes(tree)
    ensures found <==> exists n :: n in Nodes(tree) && IsNested(tree, n)
  {
    for i := 0 to |nodes|
      invariant forall n :: n in nodes[..i] ==> !IsNested(tree, n)
    {
      var node := nodes[i];
      if node.kind.FunctionDef? {
        for p := 0 to |nodes|
          invariant forall q :: 0 <= q < p && nodes[q].kind.FunctionDef? && nodes[q].kind.id != node.kind.id ==>
                      forall c :: c in Nodes(nodes[q]) ==> !IsFunction(c, node.kind.id)
        {
          var parent := nodes[p];
          if parent.kind.FunctionDef? && parent.kind.id != node.kind.id {
            var below := Walk(parent);
            for c := 0 to |below|
              invariant forall k :: 0 <= k < c ==> !IsFunction(below[k], node.kind.id)
            {
              if IsFunction(below[c], node.kind.id) {
                assert below[c] in Nodes(parent) && parent in nodes && node in nodes;
                assert IsNested(tree, node);
                return true;
              }
            }
            assert forall c :: c in below ==> !IsFunction(c, node.kind.id);
          }
        }
        assert forall q :: q in nodes && q.kind.FunctionDef? && q.kind.id != node.kind.id ==>
            forall c :: c in Nodes(q) ==> !IsFunction(c, node.kind.id);
      }
      assert !IsNested(tree, node);
    }
    found := false;
    assert nodes[..|nodes|] == nodes;
  }

  predicate AssignsName(body: seq<Node>, i: nat, k: nat, name: string) {
    IsBinding(body, i, k) && body[i].children[k].kind.name == name
  }

  // The names assigned at the top level, less those of loop variables and "chute".
  method ExtraNames(body: seq<Node>) returns (extra: set<string>)
    ensures extra == {} <==> NoExtraNames(body)
  {
    var all, loops: set<string> := {}, {};
    for i := 0 to |body|
      invariant forall name :: name in all ==> name in loops || exists j: nat, k: nat :: AssignsName(body, j, k, name)
      invariant forall j: nat, k: nat, name :: j < i && AssignsName(body, j, k, name) ==> name in all
      invariant forall name :: name in loops <==> exists j :: 0 <= j < i && body[j].kind.For? && IsName(Child(body[j], 0), name)
    {
      var node := body[i];
      if node.kind.Assign? {
        var n := if node.kind.targets < |node.children| then node.kind.targets else |node.children|;
        for k := 0 to n
          invariant forall name :: name in all ==> name in loops || exists j: nat, m: nat :: AssignsName(body, j, m, name)
          invariant forall j: nat, m: nat, name :: (j < i || (j == i && m < k)) && AssignsName(body, j, m, name) ==> name in all
        {
          if node.children[k].kind.Name? {
            assert AssignsName(body, i, k, node.children[k].kind.name);
            all := all + {node.children[k].kind.name};
          }
        }
      } else if node.kind.For? && Child(node, 0).kind.Name? {
        loops := loops + {Child(node, 0).kind.name};
        all := all + {Child(node, 0).kind.name};
      }
    }
    extra := all - {"chute"} - loops;
    NoneExtra(body, all, loops);
  }

  lemma NoneExtra(body: seq<Node>, all: set<string>, loops: set<string>)
    requires forall name :: name in all ==> name in loops || exists j: nat, k: nat :: AssignsName(body, j, k, name)
    requires forall j: nat, k: nat, name :: AssignsName(body, j, k, name) ==> name in all
    requires forall name :: name in loops <==> exists j :: 0 <= j < |body| && body[j].kind.For? && IsName(Child(body[j], 0), name)
    ensures all - {"chute"} - loops == {} <==> NoExtraNames(body)
  {
    assert forall name :: name in loops <==> IsLoopVariable(body, name) by {
      forall name ensures name in loops <==> IsLoopVariable(body, name) {
      }
    }
    if all - {"chute"} - loops == {} {
      forall i: nat, k: nat | IsBinding(body, i, k)
        ensures body[i].children[k].kind.name == "chute" || IsLoopVariable(body, body[i].children[k].kind.name)
      {
        assert AssignsName(body, i, k, body[i].children[k].kind.name);
        assert body[i].children[k].kind.name in all - {"chute"} - loops || body[i].children[k].kind.name in {"chute"} + loops;
      }
    }
    if NoExtraNames(body) {
      forall name | name in all - loops ensures name == "chute" {
        var j: nat, k: nat :| AssignsName(body, j, k, name);
        assert IsBinding(body, j, k);
      }
    }
  }

  method AllNodesOk(nodes: seq<Node>, deleted: set<nat>) returns (ok: bool)
    ensures ok <==> forall n :: n in nodes ==> NodeOk(n, deleted)
  {
    hide NodeOk;
    for i := 0 to |nodes|
      invariant forall k :: 0 <= k < i ==> NodeOk(nodes[k], deleted)
    {
      if !NodeOk(nodes[i], deleted) {
        assert nodes[i] in nodes;
        return false;
      }
    }
    ok := true;
  }

  /** check_affine_code, of code of the given size; there is no tree if the code does not parse. */
  method CheckAffineCode(size: nat, tree: Option<Node>) returns (ok: bool)
    ensures ok <==> tree.Some? && Accepted(size, tree.value)
  {
    if size > MAX_CODE_SIZE || tree.None? {
      return false;
    }
    var root := tree.value;
    var nodes := Walk(root);
    if |nodes| > MAX_AST_NODES {
      return false;
    }
    var depth := GetAstDepth(root, 0);
    if depth > MAX_AST_DEPTH {
      return false;
    }
    var deleted := DeleteTargets(nodes);
    assert deleted == DeleteTargets(Nodes(root));
    hide NodeOk;
    var fine := AllNodesOk(nodes, deleted);
    if !fine {
      return false;
    }
    var nested := FindsNested(root, nodes);
    if nested {
      return false;
    }
    var imported := ImportedNames(nodes);
    assert imported == Imported(Nodes(root));
    var built := CheckBindings(root.children, imported);
    if !built {
      return false;
    }
    var extra := ExtraNames(root.children);
    ok := extra == {};
  }

  /**
    * What acceptance means: the tree is no deeper and has no more nodes than allowed; every import anywhere in it is of
    * "os", of NodeSelector from "chutes.chute" or of a builder from one of its templates; no function holds another;
    * exactly one target at the top level is given a builder's result, it is named "chute", and the builder was imported;
    * and every other name assigned at the top level is the variable of a top-level loop.
    */
  lemma AcceptedCode(size: nat, tree: Node) returns (at: nat, target: nat)
    requires Accepted(size, tree) && DistinctFunctions(Nodes(tree))
    ensures size <= 10000 && |Nodes(tree)| <= 1000 && Depth(tree) <= 20
    ensures forall n, a :: n in Nodes(tree) && a in n.children && a.kind.Alias? && (n.kind.Import? || n.kind.ImportFrom?) ==>
              a.kind.name in {"os", "NodeSelector"} + BUILDERS
    ensures forall f, c :: f in Nodes(tree) && f.kind.FunctionDef? && c in NodesOf(f.children) ==> !c.kind.FunctionDef?
    ensures Builds(tree.children, at, target) && tree.children[at].children[target].kind.name == "chute"
    ensures BuilderOf(tree.children[at]).value in Imported(Nodes(tree))
    ensures forall i: nat, k: nat :: Builds(tree.children, i, k) ==> (i, k) == (at, target)
    ensures forall i: nat, k: nat :: IsBinding(tree.children, i, k) && (i, k) != (at, target) ==>
              BuilderOf(tree.children[i]).None?
              && (tree.children[i].children[k].kind.name == "chute"
                  || IsLoopVariable(tree.children, tree.children[i].children[k].kind.name))
  {
    NestingIsFound(tree);
    var body := tree.children;
    at, target :| Builds(body, at, target) && forall j: nat, m: nat :: Builds(body, j, m) ==> j == at && m == target;
    assert BindingOk(body[at], body[at].children[target].kind.name, Imported(Nodes(tree)));
    forall n, a | n in Nodes(tree) && a in n.children && a.kind.Alias? && (n.kind.Import? || n.kind.ImportFrom?)
      ensures a.kind.name in {"os", "NodeSelector"} + BUILDERS
    {
      assert NodeOk(n, DeleteTargets(Nodes(tree)));
      assert ImportOk(n);
    }
    forall f, c | f in Nodes(tree) && f.kind.FunctionDef? && c in NodesOf(f.children) ensures !c.kind.FunctionDef? {
      assert HoldsFunction(f) || !c.kind.FunctionDef?;
    }
  }

  /** What acceptance means for every call in the tree: whatever it calls by a name or through an attribute is none of the
      refused builtins, among them exec, eval, compile, open, __import__, getattr, setattr and globals; and through an
      attribute it is no string method either, and of none of the serialising modules. */
  lemma AcceptedCalls(size: nat, tree: Node, call: Node)
    requires Accepted(size, tree) && call in Nodes(tree) && call.kind.Call? && call.children != []
    ensures var f := call.children[0];
            && (f.kind.Name? ==>
                  && f.kind.name !in DANGEROUS_BUILTINS + MORE_BUILTINS
                  && f.kind.name !in {"exec", "eval", "compile", "open", "__import__", "getattr", "setattr", "globals", "str"})
            && (f.kind.Attribute? ==>
                  && f.kind.attr !in DANGEROUS_BUILTINS + MORE_BUILTINS
                  && f.kind.attr !in {"exec", "eval", "open", "join", "replace", "encode", "decode", "format"}
                  && (f.children != [] && f.children[0].kind.Name? ==>
                        f.children[0].kind.name !in {"pickle", "base64", "marshal", "shelve", "json", "codecs"}))
  {
    assert NodeOk(call, DeleteTargets(Nodes(tree)));
    hide Accepted, NodeOk, DANGEROUS_BUILTINS, MORE_BUILTINS, STRING_METHODS;
    assert CallOk(call) by { RuleOfCalls(call, DeleteTargets(Nodes(tree))); }
    RefusedNames();
  }

  lemma RuleOfCalls(n: Node, deleted: set<nat>)
    requires NodeOk(n, deleted)
    ensures CallOk(n)
  {
  }

  lemma RefusedNames()
    ensures {"exec", "eval", "compile", "open", "__import__", "getattr", "setattr", "globals"} <= DANGEROUS_BUILTINS
    ensures {"str", "format"} <= MORE_BUILTINS && {"replace", "encode", "decode"} <= STRING_METHODS
  {
  }

  // The environment's subscript, as a target of a delete statement or not.
  predicate IsEnvironItem(n: Node) {
    && n.kind.Subscript? && n.children != [] && n.children[0].kind == Attribute("environ")
    && n.children[0].children != [] && n.children[0].children[0].kind == Name("os")
  }

  /** What it means for every other expression: no hidden name and no dangerous attribute; of "os" only the environment and
      getenv; strings of at most 1000 characters, only concatenated with one another and never formatted; and no lambda,
      comprehension or other refused node. */
  lemma AcceptedExpressions(size: nat, tree: Node, n: Node)
    requires Accepted(size, tree) && n in Nodes(tree)
    ensures !n.kind.Banned?
    ensures n.kind.Name? ==>
              n.kind.name !in {"__builtins__", "__loader__", "__file__", "__package__", "__spec__", "__cached__", "__name__"}
    ensures n.kind.Attribute? ==>
              && n.kind.attr !in DANGEROUS_ATTRIBUTES
              && (n.children != [] && n.children[0].kind == Name("os") ==> n.kind.attr == "environ" || n.kind.attr == "getenv")
    ensures n.kind.Subscript? && n.children != [] && n.children[0].kind.Attribute? ==>
              n.children[0].kind.attr !in {"__getitem__", "__setitem__", "__delitem__"}
    ensures n.kind.Str? && |n.kind.value| > 1000 ==> '\0' in n.kind.value
    ensures n.kind == BinOp(Plus) && |n.children| == 3 ==> (n.children[0].kind.Str? <==> n.children[2].kind.Str?)
    ensures n.kind == BinOp(Modulo) && n.children != [] ==> !n.children[0].kind.Str?
  {
    var deleted := DeleteTargets(Nodes(tree));
    assert NodeOk(n, deleted);
    if n.kind.Subscript? && n.children != [] && n.children[0].kind.Attribute? {
      SpecialMethods(n, deleted);
    }
    hide Accepted, Nodes, CallOk, ImportOk, SubscriptOk, DeleteOk, DecoratorsOk, AssignOk, DANGEROUS_ATTRIBUTES;
  }

  lemma SpecialMethods(n: Node, deleted: set<nat>)
    requires NodeOk(n, deleted) && n.kind.Subscript? && n.children != [] && n.children[0].kind.Attribute?
    ensures n.children[0].kind.attr !in {"__getitem__", "__setitem__", "__delitem__"}
  {
    assert SubscriptOk(n, deleted);
    assert |"environ"| != |"__getitem__"|;
    hide NodeOk;
  }

  /** What it means for every other statement: the environment has literal keys unless it is deleted from, and nothing else
      is deleted; only calls and attributes decorate a function, but not chute.cord; and no attribute of "chute" is assigned
      to. */
  lemma AcceptedStatements(size: nat, tree: Node, n: Node)
    requires Accepted(size, tree) && n in Nodes(tree)
    ensures IsEnvironItem(n) && |n.children| > 1 && !n.children[1].kind.Str? ==>
              exists d, t :: d in Nodes(tree) && d.kind.Delete? && t in d.children && t.kind == n.kind
    ensures n.kind.Delete? ==> forall t :: t in n.children ==> IsEnvironItem(t)
    ensures n.kind.FunctionDef? ==>
              forall i :: 0 <= i < n.kind.decorators && i < |n.children| ==>
                var d := n.children[i];
                && (d.kind.Call? || d.kind.Attribute?) && !IsCord(d) && (d.kind.Call? && d.children != [] ==> !IsCord(d.children[0]))
    ensures n.kind.Assign? ==>
              forall i :: 0 <= i < n.kind.targets && i < |n.children| && n.children[i].kind.Attribute? ==>
                Root(n.children[i]).kind != Name("chute")
  {
    var deleted := DeleteTargets(Nodes(tree));
    assert NodeOk(n, deleted);
    hide Accepted, Nodes, CallOk, ImportOk, StringOk, NameOk, BinOpOk, AttributeOk, Root;
    if IsEnvironItem(n) && |n.children| > 1 && !n.children[1].kind.Str? {
      KeyIsDeleted(n, deleted);
      assert n.kind.id in deleted;
    }
  }

  lemma KeyIsDeleted(n: Node, deleted: set<nat>)
    requires SubscriptOk(n, deleted) && IsEnvironItem(n) && |n.children| > 1 && !n.children[1].kind.Str?
    ensures n.kind.id in deleted
  {
  }

  // The part occurs in the string.
  predicate Occurs(part: string, s: string) {
    exists i :: 0 <= i <= |s| - |part| && StandsAt(part, s, i)
  }

  predicate StandsAt(part: string, s: string, i: int)
    requires 0 <= i <= |s| - |part|
  {
    s[i..i + |part|] == part
  }

  lemma OccursIff(part: string, s: string)
    ensures Occurs(part, s) <==> Contains(s, part)
  {
    if i :| 0 <= i <= |s| - |part| && StandsAt(part, s, i) {
      assert s[i..][..|part|] == part;
      assert IsAt(s, part, i);
    }
    if i :| 0 <= i <= |s| && IsAt(s, part, i) {
      assert s[i..i + |part|] == part;
      assert StandsAt(part, s, i);
    }
  }

  /** What it means for the call of the builder: every keyword is named; the image is a literal of sglang or vllm; the engine
      arguments are a literal dictionary of literals for vllm and a literal string for sglang, and neither a key of the one
      nor the text of the other trusts remote code. */
  lemma AcceptedBuilder(size: nat, tree: Node, at: nat, target: nat, k: Node, i: nat)
    requires Accepted(size, tree) && Builds(tree.children, at, target)
    requires k in Child(tree.children[at], tree.children[at].kind.targets).children && k.kind.Keyword?
    ensures k.kind.arg.Some?
    ensures k.kind.arg == Some("image") ==>
              && Child(k, 0).kind.Str?
              && ("chutes/sglang" <= Child(k, 0).kind.value || "chutes/vllm" <= Child(k, 0).kind.value)
    ensures k.kind.arg == Some("engine_args") && BuilderOf(tree.children[at]) == Some("build_vllm_chute") ==>
              && Child(k, 0).kind.Dict? && !Child(k, 0).kind.unpacks
              && (i < Child(k, 0).kind.pairs ==>
                   && Child(Child(k, 0), i).kind.Str?
                   && Child(Child(k, 0), i).kind.value != "trust_remote_code"
                   && Child(Child(k, 0), i).kind.value != "trust-remote-code"
                   && IsConstant(Child(Child(k, 0), Child(k, 0).kind.pairs + i)))
    ensures k.kind.arg == Some("engine_args") && BuilderOf(tree.children[at]) == Some("build_sglang_chute") ==>
              && Child(k, 0).kind.Str?
              && !Occurs("trust_remote_code", Child(k, 0).kind.value) && !Occurs("trust-remote-code", Child(k, 0).kind.value)
  {
    var body := tree.children;
    assert BindingOk(body[at], body[at].children[target].kind.name, Imported(Nodes(tree)));
    hide Accepted;
    assert KeywordOk(BuilderOf(body[at]).value, k);
    if Child(k, 0).kind.Str? {
      OccursIff("trust_remote_code", Child(k, 0).kind.value);
      OccursIff("trust-remote-code", Child(k, 0).kind.value);
    }
    hide Contains, Occurs;
    if k.kind.arg == Some("engine_args") && BuilderOf(body[at]) == Some("build_vllm_chute") && i < Child(k, 0).kind.pairs {
      assert PairOk(Child(Child(k, 0), i), Child(Child(k, 0), Child(k, 0).kind.pairs + i));
    }
    assert |"build_vllm_chute"| != |"build_sglang_chute"|;
  }

  // ---- What "chute" is in the end ----

  // What executing a node may do to the names of the module: bind one, import one, call what is known by a name, or
  // something the check sets no bounds to.
  datatype Effect = Binds(name: string) | Imports(name: string) | Calls(name: string) | Unbounded

  // A call is known by the name of its function; the two ways of reading the environment by that of "os".
  function CallEffect(f: Node): Effect {
    match f.kind
    case Name(name) => Calls(name)
    case Attribute(attr) =>
      if (attr == "getenv" && IsName(Child(f, 0), "os")) || (attr == "get" && IsEnviron(Child(f, 0))) then Calls("os")
      else Unbounded
    case _ => Unbounded
  }

  // The effects of executing a node, in order. A function binds its name and has its decorators called; what its body
  // binds is its own, since global statements are refused.
  function Effects(n: Node): seq<Effect>
    decreases n, 0
  {
    var ns := n.children;
    match n.kind
    case Alias(_, _) => [Imports(BoundName(n))]
    case Call => EffectsOf(ns) + [CallEffect(Child(n, 0))]
    case Delete => EffectsOf(ns) + [Calls("os")]
    case Assign(targets) =>
      if targets < |ns| then EffectsOf(ns[targets..]) + EffectsOfTargets(ns[..targets]) else EffectsOfTargets(ns)
    case For => if |ns| < 2 then EffectsOf(ns) else Effects(ns[1]) + TargetEffects(ns[0]) + EffectsOf(ns[2..])
    case AugAssign => if ns == [] then [] else EffectsOf(ns[1..]) + TargetEffects(ns[0])
    case AnnAssign(valued) =>
      if ns == [] then [] else EffectsOf(ns[1..]) + if valued then TargetEffects(ns[0]) else Effects(ns[0])
    case NamedExpr => if ns == [] then [] else EffectsOf(ns[1..]) + TargetEffects(ns[0])
    case TypeAlias => if ns == [] then [] else TargetEffects(ns[0])
    case Capture(bound) => EffectsOf(ns) + if bound.Some? then [Binds(bound.value)] else []
    case FunctionDef(_, name, decorators, annotated) =>
      var header := decorators + if annotated then 2 else 1;
      (if header < |ns| then EffectsOf(ns[..header]) else EffectsOf(ns))
      + (if decorators > 0 then [Unbounded] else []) + [Binds(name)]
    case _ => EffectsOf(ns)
  }

  function EffectsOf(ns: seq<Node>): seq<Effect>
    decreases ns, 0
  {
    if ns == [] then [] else Effects(ns[0]) + EffectsOf(ns[1..])
  }

  // The effects of assigning to a target. Assigning to an attribute may replace what a later call runs.
  function TargetEffects(n: Node): seq<Effect>
    decreases n, 1
  {
    match n.kind
    case Name(name) => [Binds(name)]
    case TupleOrList => EffectsOfTargets(n.children)
    case Starred => EffectsOfTargets(n.children)
    case Attribute(_) => EffectsOf(n.children) + [Unbounded]
    case Subscript(_) => EffectsOf(n.children) + [if IsEnviron(Child(n, 0)) then Calls("os") else Unbounded]
    case _ => Effects(n)
  }

  function EffectsOfTargets(ns: seq<Node>): seq<Effect>
    decreases ns, 0
  {
    if ns == [] then [] else TargetEffects(ns[0]) + EffectsOfTargets(ns[1..])
  }

  // The names whose calls are vetted, unless the module binds them to something else than an import.
  const VETTED := BUILDERS + {"NodeSelector", "os"}

  predicate IsRebound(body: seq<Node>, name: string) {
    exists n :: n in body && Binds(name) in Effects(n)
  }

  // The check leaves open what this does; it may give "chute" another value, at once or later.
  predicate IsOpen(body: seq<Node>, e: Effect) {
    e.Unbounded? || (e.Calls? && (e.name !in VETTED || IsRebound(body, e.name)))
  }

  predicate TakesName(e: Effect) {
    e == Binds("chute") || e == Imports("chute")
  }

  predicate KeepsName(es: seq<Effect>) {
    forall e :: e in es ==> !TakesName(e)
  }

  lemma {:induction false} TargetsBoth(a: seq<Node>, b: seq<Node>)
    ensures EffectsOfTargets(a + b) == EffectsOfTargets(a) + EffectsOfTargets(b)
    decreases |a|
  {
    if a == [] {
      assert a + b == b;
    } else {
      TargetsBoth(a[1..], b);
      assert (a + b)[0] == a[0] && (a + b)[1..] == a[1..] + b;
    }
  }

  lemma {:induction false} TargetsKeepName(ns: seq<Node>)
    ensures KeepsName(EffectsOfTargets(ns)) <==> forall m :: 0 <= m < |ns| ==> KeepsName(TargetEffects(ns[m]))
  {
    if ns != [] {
      TargetsKeepName(ns[1..]);
      hide TargetEffects;
      assert KeepsName(EffectsOfTargets(ns)) <==> KeepsName(TargetEffects(ns[0])) && KeepsName(EffectsOfTargets(ns[1..])) by {
        KeepBoth(TargetEffects(ns[0]), EffectsOfTargets(ns[1..]));
      }
      hide EffectsOfTargets, KeepsName;
      assert forall m :: 0 < m < |ns| ==> ns[1..][m - 1] == ns[m];
      assert forall m :: 0 <= m < |ns[1..]| ==> ns[1..][m] == ns[m + 1];
    }
  }

  lemma KeepBoth(a: seq<Effect>, b: seq<Effect>)
    ensures KeepsName(a + b) <==> KeepsName(a) && KeepsName(b)
  {
    assert forall e :: e in a + b <==> e in a || e in b;
  }

  // Where a target that is a name stands among the effects of its assignment.
  function Position(stmt: Node, k: nat): nat
    requires stmt.kind.Assign? && k < |stmt.children|
  {
    |EffectsOf(stmt.children[Min(stmt.kind.targets, |stmt.children|)..])| + |EffectsOfTargets(stmt.children[..k])|
  }

  // One way the module can execute: for each effect of each top-level statement, whether it came to that. What stands
  // under a condition may be skipped; a name that is itself a target of a top-level assignment is not. An open effect
  // comes to pass when it does give "chute" another value.
  ghost predicate IsExecution(body: seq<Node>, ran: seq<seq<bool>>) {
    && |ran| == |body|
    && (forall i :: 0 <= i < |body| ==> |ran[i]| == |Effects(body[i])|)
    && forall i: nat, k: nat :: IsBinding(body, i, k) && Position(body[i], k) < |ran[i]| ==> ran[i][Position(body[i], k)]
  }

  // The p-th effect of statement i came to pass.
  predicate Happens(body: seq<Node>, ran: seq<seq<bool>>, i: nat, p: nat) {
    i < |body| && i < |ran| && p < |Effects(body[i])| && p < |ran[i]| && ran[i][p]
  }

  // The last binding of "chute" in the execution is this one, and nothing open interfered.
  ghost predicate EndsAs(body: seq<Node>, ran: seq<seq<bool>>, i: nat, p: nat) {
    && Happens(body, ran, i, p) && Effects(body[i])[p] == Binds("chute")
    && forall j: nat, q: nat :: Happens(body, ran, j, q) ==>
         && !IsOpen(body, Effects(body[j])[q])
         && (TakesName(Effects(body[j])[q]) ==> j < i || (j == i && q <= p))
  }

  // No top-level statement leaves anything open: every function called is vetted, nothing is decorated, and nothing is
  // stored in an attribute or, the environment apart, in a subscript.
  predicate IsContained(body: seq<Node>) {
    forall n, e :: n in body && e in Effects(n) ==> !IsOpen(body, e)
  }

  // Nothing after the target binds "chute", no later target of its statement and no later statement, and nothing at all
  // is left open.
  predicate NothingRebinds(body: seq<Node>, at: nat, target: nat)
    requires IsBinding(body, at, target)
  {
    && (forall m :: target < m < body[at].kind.targets && m < |body[at].children| ==>
          KeepsName(TargetEffects(body[at].children[m])))
    && (forall i :: at < i < |body| ==> KeepsName(Effects(body[i])))
    && IsContained(body)
  }

  lemma AssignUnfolds(stmt: Node)
    requires stmt.kind.Assign?
    ensures var t := Min(stmt.kind.targets, |stmt.children|);
            Effects(stmt) == EffectsOf(stmt.children[t..]) + EffectsOfTargets(stmt.children[..t])
  {
    var ns := stmt.children;
    assert ns[..|ns|] == ns && ns[|ns|..] == [];
  }

  lemma TargetsSplit(ns: seq<Node>, k: nat, t: nat)
    requires k < t <= |ns| && ns[k].kind.Name?
    ensures EffectsOfTargets(ns[..t])
            == EffectsOfTargets(ns[..k]) + [Binds(ns[k].kind.name)] + EffectsOfTargets(ns[k + 1..t])
  {
    assert ns[..t] == ns[..k] + [ns[k]] + ns[k + 1..t];
    TargetsBoth(ns[..k] + [ns[k]], ns[k + 1..t]);
    TargetsBoth(ns[..k], [ns[k]]);
    assert EffectsOfTargets([ns[k]]) == TargetEffects(ns[k]) + EffectsOfTargets([]);
  }

  // The effects of an assignment, at a target and after it.
  lemma AssignmentBinds(stmt: Node, k: nat)
    requires stmt.kind.Assign? && k < stmt.kind.targets && k < |stmt.children| && stmt.children[k].kind.Name?
    ensures var t := Min(stmt.kind.targets, |stmt.children|);
            var p := Position(stmt, k);
            && p < |Effects(stmt)| && Effects(stmt)[p] == Binds(stmt.children[k].kind.name)
            && Effects(stmt)[p + 1..] == EffectsOfTargets(stmt.children[k + 1..t])
  {
    var ns := stmt.children;
    var t := Min(stmt.kind.targets, |ns|);
    hide Effects, EffectsOf, EffectsOfTargets, TargetEffects;
    AssignUnfolds(stmt);
    TargetsSplit(ns, k, t);
    assert Effects(stmt)
        == (EffectsOf(ns[t..]) + EffectsOfTargets(ns[..k])) + [Binds(ns[k].kind.name)] + EffectsOfTargets(ns[k + 1..t]);
  }

  // No later target binds "chute" exactly if no later effect of the statement does.
  lemma LaterTargets(stmt: Node, k: nat)
    requires stmt.kind.Assign? && k < stmt.kind.targets && k < |stmt.children| && stmt.children[k].kind.Name?
    ensures Position(stmt, k) < |Effects(stmt)|
    ensures KeepsName(Effects(stmt)[Position(stmt, k) + 1..])
            <==> forall m :: k < m < stmt.kind.targets && m < |stmt.children| ==> KeepsName(TargetEffects(stmt.children[m]))
  {
    AssignmentBinds(stmt, k);
    var ns, t := stmt.children, Min(stmt.kind.targets, |stmt.children|);
    var later := ns[k + 1..t];
    TargetsKeepName(later);
    hide Effects, TargetEffects, EffectsOfTargets, Position, KeepsName;
    assert forall m :: k < m < t ==> later[m - k - 1] == ns[m];
    assert forall m :: 0 <= m < |later| ==> later[m] == ns[m + k + 1];
  }

  lemma EndsAsBuilt(body: seq<Node>, ran: seq<seq<bool>>, at: nat, target: nat)
    requires Builds(body, at, target) && body[at].children[target].kind.name == "chute"
    requires NothingRebinds(body, at, target) && IsExecution(body, ran)
    ensures EndsAs(body, ran, at, Position(body[at], target))
  {
    var p := Position(body[at], target);
    AssignmentBinds(body[at], target);
    LaterTargets(body[at], target);
    hide Effects, TargetEffects, EffectsOfTargets, Position, IsOpen;
    forall j: nat, q: nat | Happens(body, ran, j, q)
      ensures !IsOpen(body, Effects(body[j])[q])
      ensures TakesName(Effects(body[j])[q]) ==> j < at || (j == at && q <= p)
    {
      assert body[j] in body && Effects(body[j])[q] in Effects(body[j]);
      assert j == at && q > p ==> Effects(body[at])[p + 1..][q - p - 1] == Effects(body[j])[q];
    }
  }

  // Everything comes to pass.
  function Everything(body: seq<Node>): (ran: seq<seq<bool>>)
    ensures |ran| == |body|
    ensures forall i :: 0 <= i < |body| ==>
              |ran[i]| == |Effects(body[i])| && forall p :: 0 <= p < |ran[i]| ==> ran[i][p]
  {
    seq(|body|, i requires 0 <= i < |body| => seq(|Effects(body[i])|, _ => true))
  }

  // The place of an effect that takes the name.
  lemma Taker(es: seq<Effect>) returns (q: nat)
    requires !KeepsName(es)
    ensures q < |es| && TakesName(es[q])
  {
    q :| q < |es| && TakesName(es[q]);
  }

  lemma RebindingShows(body: seq<Node>, at: nat, target: nat)
    requires Builds(body, at, target) && !NothingRebinds(body, at, target)
    ensures IsExecution(body, Everything(body)) && !EndsAs(body, Everything(body), at, Position(body[at], target))
  {
    var ran := Everything(body);
    var p := Position(body[at], target);
    LaterTargets(body[at], target);
    hide Effects, TargetEffects, EffectsOfTargets, Position, Everything, IsOpen, KeepsName, TakesName;
    if !IsContained(body) {
      var n, e :| n in body && e in Effects(n) && IsOpen(body, e);
      var j: nat :| j < |body| && body[j] == n;
      var q: nat :| q < |Effects(n)| && Effects(n)[q] == e;
      assert Happens(body, ran, j, q);
    } else if i :| at < i < |body| && !KeepsName(Effects(body[i])) {
      var q := Taker(Effects(body[i]));
      assert Happens(body, ran, i, q);
    } else {
      var q := Taker(Effects(body[at])[p + 1..]);
      assert Effects(body[at])[p + 1..][q] == Effects(body[at])[p + 1 + q];
      assert Happens(body, ran, at, p + 1 + q);
    }
  }

  /**
    * When an accepted tree does keep the builder's result: "chute" ends as what the one builder call returned, in every
    * way the module can execute, exactly if no later target of that assignment and no later top-level statement binds the
    * name, be it by an assignment of any form, a loop, an import, a function or a pattern, and the top level leaves
    * nothing open.
    */
  lemma BuilderSurvivesIff(size: nat, tree: Node, at: nat, target: nat)
    requires Accepted(size, tree) && Builds(tree.children, at, target)
    ensures (forall ran :: IsExecution(tree.children, ran) ==>
               EndsAs(tree.children, ran, at, Position(tree.children[at], target)))
            <==> NothingRebinds(tree.children, at, target)
  {
    var body := tree.children;
    assert BindingOk(body[at], body[at].children[target].kind.name, Imported(Nodes(tree)));
    hide Accepted, NothingRebinds, IsExecution, EndsAs, Position;
    if NothingRebinds(body, at, target) {
      forall ran | IsExecution(body, ran) ensures EndsAs(body, ran, at, Position(body[at], target)) {
        EndsAsBuilt(body, ran, at, target);
      }
    } else {
      RebindingShows(body, at, target);
    }
  }

  // A module that is accepted and keeps its builder's result: the import of a builder, and chute = the call of it.
  const EXAMPLE_ALIAS := Node(Alias("build_sglang_chute", None), [])
  const EXAMPLE_IMPORT := Node(ImportFrom(Some("chutes.chute.template.sglang")), [EXAMPLE_ALIAS])
  const EXAMPLE_IMAGE := Node(Keyword(Some("image")), [Node(Str("chutes/sglang:1"), [])])
  const EXAMPLE_CALL := Node(Call, [Node(Name("build_sglang_chute"), [NO_NODE]), EXAMPLE_IMAGE])
  const EXAMPLE_BUILD := Node(Assign(1), [Node(Name("chute"), [NO_NODE]), EXAMPLE_CALL])
  const EXAMPLE := Node(Module, [EXAMPLE_IMPORT, EXAMPLE_BUILD])

  const EXAMPLE_NODES := [EXAMPLE, EXAMPLE_IMPORT, EXAMPLE_ALIAS, EXAMPLE_BUILD, Node(Name("chute"), [NO_NODE]), NO_NODE,
                          EXAMPLE_CALL, Node(Name("build_sglang_chute"), [NO_NODE]), NO_NODE,
                          EXAMPLE_IMAGE, Node(Str("chutes/sglang:1"), [])]

  lemma NodesOfPair(a: Node, b: Node)
    ensures NodesOf([a, b]) == Nodes(a) + Nodes(b)
    ensures NodesOf([a]) == Nodes(a)
  {
    assert [a, b][1..] == [b];
    assert NodesOf([b]) == Nodes(b) + NodesOf([]);
    assert NodesOf([a]) == Nodes(a) + NodesOf([]);
  }

  lemma ExampleNodes()
    ensures Nodes(EXAMPLE) == EXAMPLE_NODES
  {
    NodesOfPair(EXAMPLE_IMPORT, EXAMPLE_BUILD);
    NodesOfPair(EXAMPLE_ALIAS, EXAMPLE_ALIAS);
    NodesOfPair(Node(Name("chute"), [NO_NODE]), EXAMPLE_CALL);
    NodesOfPair(Node(Name("build_sglang_chute"), [NO_NODE]), EXAMPLE_IMAGE);
    NodesOfPair(NO_NODE, NO_NODE);
    NodesOfPair(Node(Str("chutes/sglang:1"), []), NO_NODE);
    hide NodesOf;
    assert NodesOf([]) == [] by { NoNodes(); }
    assert Nodes(NO_NODE) == [NO_NODE] && Nodes(EXAMPLE_ALIAS) == [EXAMPLE_ALIAS];
    assert Nodes(EXAMPLE_IMPORT) == [EXAMPLE_IMPORT, EXAMPLE_ALIAS];
    assert Nodes(EXAMPLE_IMAGE) == [EXAMPLE_IMAGE, Node(Str("chutes/sglang:1"), [])];
    assert Nodes(EXAMPLE_CALL) == [EXAMPLE_CALL, Node(Name("build_sglang_chute"), [NO_NODE]), NO_NODE,
                                   EXAMPLE_IMAGE, Node(Str("chutes/sglang:1"), [])];
  }

  lemma NoNodes()
    ensures NodesOf([]) == []
  {
  }

  lemma ExampleDepth()
    ensures Depth(EXAMPLE) <= MAX_AST_DEPTH
  {
    DeepestOfPair(EXAMPLE_IMPORT, EXAMPLE_BUILD);
    DeepestOfPair(EXAMPLE_ALIAS, EXAMPLE_ALIAS);
    DeepestOfPair(Node(Name("chute"), [NO_NODE]), EXAMPLE_CALL);
    DeepestOfPair(Node(Name("build_sglang_chute"), [NO_NODE]), EXAMPLE_IMAGE);
    DeepestOfPair(NO_NODE, NO_NODE);
    DeepestOfPair(Node(Str("chutes/sglang:1"), []), NO_NODE);
    hide Deepest;
    assert Depth(NO_NODE) == 0 && Depth(EXAMPLE_ALIAS) == 0 && Depth(Node(Str("chutes/sglang:1"), [])) == 0;
    assert Depth(EXAMPLE_IMPORT) == 1 && Depth(EXAMPLE_IMAGE) == 1;
    assert Depth(EXAMPLE_CALL) == 2 && Depth(EXAMPLE_BUILD) == 3;
  }

  lemma DeepestOfPair(a: Node, b: Node)
    ensures Deepest([a, b]) == Max(Depth(a), Depth(b)) && Deepest([a]) == Depth(a)
  {
    assert [a, b][..1] == [a] && [a][..0] == [];
    assert Deepest([]) == 0;
  }

  lemma ExampleNames()
    ensures !IsDangerous("build_sglang_chute")
    ensures "build_sglang_chute" !in HIDDEN_NAMES && "chute" !in HIDDEN_NAMES
  {
  }

  lemma ExampleImportOk()
    ensures ImportOk(EXAMPLE_IMPORT)
  {
    var source := "chutes.chute.template.sglang";
    assert source[..7] == "chutes." && source[..21] == "chutes.chute.template";
    assert |source| != |"chutes.chute"|;
    assert "build_sglang_chute" in BUILDERS;
  }

  lemma ExampleCallOk()
    ensures NodeOk(EXAMPLE_CALL, {})
  {
    ExampleNames();
    hide IsDangerous, HIDDEN_NAMES;
  }

  lemma ExampleNamesOk()
    ensures NodeOk(Node(Name("chute"), [NO_NODE]), {}) && NodeOk(Node(Name("build_sglang_chute"), [NO_NODE]), {})
  {
    ExampleNames();
    hide IsDangerous, HIDDEN_NAMES;
  }

  lemma ExampleImportNodeOk()
    ensures NodeOk(EXAMPLE_IMPORT, {})
  {
    ExampleImportOk();
    hide ImportOk;
  }

  lemma ExampleNodesOk()
    ensures forall n :: n in EXAMPLE_NODES ==> NodeOk(n, {})
  {
    hide NodeOk;
    ExampleImportNodeOk();
    ExampleCallOk();
    ExampleNamesOk();
    ExampleOthersOk();
  }

  lemma ExampleOthersOk()
    ensures NodeOk(EXAMPLE, {}) && NodeOk(EXAMPLE_ALIAS, {}) && NodeOk(EXAMPLE_BUILD, {}) && NodeOk(NO_NODE, {})
    ensures NodeOk(EXAMPLE_IMAGE, {}) && NodeOk(Node(Str("chutes/sglang:1"), []), {})
  {
  }

  lemma ExampleKeywordOk()
    ensures KeywordOk("build_sglang_chute", EXAMPLE_IMAGE)
  {
    assert "chutes/sglang:1"[..13] == "chutes/sglang";
    assert |"image"| != |"engine_args"|;
  }

  lemma ExampleBindings()
    ensures BuilderOf(EXAMPLE_BUILD) == Some("build_sglang_chute")
    ensures BindingsOk(EXAMPLE.children, {"build_sglang_chute"})
    ensures Builds(EXAMPLE.children, 1, 0) && BuildsOnce(EXAMPLE.children) && NoExtraNames(EXAMPLE.children)
  {
    ExampleKeywordOk();
    var body := EXAMPLE.children;
    assert body[0] == EXAMPLE_IMPORT && body[1] == EXAMPLE_BUILD;
    assert "build_sglang_chute" in BUILDERS;
    assert Builds(body, 1, 0);
    assert forall k :: k in EXAMPLE_CALL.children ==> k == EXAMPLE_IMAGE || !k.kind.Keyword?;
    forall k | k in EXAMPLE_CALL.children ensures KeywordOk("build_sglang_chute", k) {
    }
    assert BindingOk(EXAMPLE_BUILD, "chute", {"build_sglang_chute"});
    forall i: nat, k: nat | IsBinding(body, i, k) ensures i == 1 && k == 0 {
    }
  }

  lemma ExampleEffects()
    ensures Effects(EXAMPLE_IMPORT) == [Imports("build_sglang_chute")]
    ensures Effects(EXAMPLE_BUILD) == [Calls("build_sglang_chute"), Binds("chute")]
  {
    var name, builder := Node(Name("chute"), [NO_NODE]), Node(Name("build_sglang_chute"), [NO_NODE]);
    NoEffects(NO_NODE);
    NoEffects(builder);
    NoEffects(Node(Str("chutes/sglang:1"), []));
    NoEffects(EXAMPLE_IMAGE);
    EffectsOfPair(EXAMPLE_ALIAS, EXAMPLE_ALIAS);
    EffectsOfPair(builder, EXAMPLE_IMAGE);
    EffectsOfPair(EXAMPLE_CALL, EXAMPLE_CALL);
    assert Effects(EXAMPLE_CALL) == [Calls("build_sglang_chute")];
    AssignUnfolds(EXAMPLE_BUILD);
    assert EXAMPLE_BUILD.children[..1] == [name] && EXAMPLE_BUILD.children[1..] == [EXAMPLE_CALL];
    assert EffectsOfTargets([name]) == TargetEffects(name) + EffectsOfTargets([]);
  }

  lemma EffectsOfPair(a: Node, b: Node)
    ensures EffectsOf([a, b]) == Effects(a) + Effects(b) && EffectsOf([a]) == Effects(a)
  {
    assert [a, b][1..] == [b];
    assert EffectsOf([b]) == Effects(b) + EffectsOf([]);
    assert EffectsOf([a]) == Effects(a) + EffectsOf([]);
  }

  lemma NoEffects(n: Node)
    requires n.kind.Name? || n.kind.Str? || n.kind.Literal? || n.kind.Keyword? || n.kind == Other
    requires n.children != [] ==> |n.children| == 1 && Effects(n.children[0]) == []
    ensures Effects(n) == []
  {
    if n.children != [] {
      EffectsOfPair(n.children[0], n.children[0]);
      assert n.children == [n.children[0]];
    }
  }

  lemma ExampleIsContained()
    ensures NothingRebinds(EXAMPLE.children, 1, 0)
  {
    ExampleEffects();
    hide Effects;
    var body := EXAMPLE.children;
    assert body[0] == EXAMPLE_IMPORT && body[1] == EXAMPLE_BUILD;
    assert "build_sglang_chute" in VETTED;
    forall n, e | n in body && e in Effects(n) ensures !IsOpen(body, e) {
      assert |"chute"| != |"build_sglang_chute"|;
      assert e in [Imports("build_sglang_chute"), Calls("build_sglang_chute"), Binds("chute")];
    }
  }

  /** Some code is accepted, and keeps its builder's result. */
  lemma ExampleIsAccepted()
    ensures Accepted(0, EXAMPLE) && DistinctFunctions(Nodes(EXAMPLE))
    ensures Builds(EXAMPLE.children, 1, 0) && NothingRebinds(EXAMPLE.children, 1, 0)
  {
    ExampleNodes();
    ExampleDepth();
    ExampleNodesOk();
    ExampleBindings();
    ExampleIsContained();
    hide Nodes, Depth, NodeOk, BindingsOk, BuildsOnce, NoExtraNames, Builds, NothingRebinds;
    ExampleSets();
  }

  lemma ExampleSets()
    ensures DeleteTargets(EXAMPLE_NODES) == {} && Imported(EXAMPLE_NODES) == {"build_sglang_chute"}
    ensures forall n :: n in EXAMPLE_NODES ==> !n.kind.FunctionDef?
  {
    var all := EXAMPLE_NODES;
    assert all[1] == EXAMPLE_IMPORT;
    assert EXAMPLE_ALIAS in EXAMPLE_IMPORT.children && BoundName(EXAMPLE_ALIAS) == "build_sglang_chute";
    forall n | n in all
      ensures !n.kind.FunctionDef? && !n.kind.Delete? && (n.kind.ImportFrom? ==> n == EXAMPLE_IMPORT)
    {
    }
    forall a | a in EXAMPLE_IMPORT.children ensures a == EXAMPLE_ALIAS {
    }
    hide BoundName;
  }

  // ---- What acceptance leaves open ----

  function Appended(tree: Node, stmt: Node): Node {
    Node(Module, tree.children + [stmt])
  }

  // What a node of the statement is not: refused, or of a kind that the check of other nodes looks at.
  predicate IsPlain(n: Node) {
    NodeOk(n, {}) && !n.kind.FunctionDef? && !n.kind.Delete? && !n.kind.ImportFrom?
  }

  ghost predicate CanFollow(stmt: Node) {
    && (forall n :: n in Nodes(stmt) ==> IsPlain(n))
    && BuilderOf(stmt).None?
    && (stmt.kind.Assign? ==>
          forall k: nat :: k < stmt.kind.targets && k < |stmt.children| && stmt.children[k].kind.Name? ==>
            stmt.children[k].kind.name == "chute")
  }

  lemma AppendedNodes(tree: Node, stmt: Node)
    ensures Nodes(Appended(tree, stmt)) == [Appended(tree, stmt)] + Nodes(tree)[1..] + Nodes(stmt)
    ensures |Nodes(Appended(tree, stmt))| == |Nodes(tree)| + |Nodes(stmt)|
    ensures Depth(Appended(tree, stmt)) <= Max(Depth(tree), 1 + Depth(stmt))
  {
    NodesOfBoth(tree.children, [stmt]);
    NodesOfPair(stmt, stmt);
    assert Nodes(tree)[1..] == NodesOf(tree.children);
    var more := tree.children + [stmt];
    assert more[..|tree.children|] == tree.children && more[|more| - 1] == stmt;
    assert Deepest(more) == Max(Deepest(tree.children), Depth(stmt));
  }

  lemma FirstIsRoot(tree: Node)
    ensures |Nodes(tree)| > 0 && Nodes(tree)[0] == tree
  {
  }

  lemma AppendedMembers(tree: Node, stmt: Node)
    ensures forall n :: n in Nodes(Appended(tree, stmt)) ==> n == Appended(tree, stmt) || n in Nodes(tree) || n in Nodes(stmt)
    ensures forall n :: n in Nodes(tree) && n != tree ==> n in Nodes(Appended(tree, stmt))
  {
    AppendedNodes(tree, stmt);
    var all := Nodes(tree);
    hide Depth, Nodes;
    assert |all| > 0 && all[0] == tree by { FirstIsRoot(tree); }
    assert forall n :: n in all[1..] ==> n in all;
    assert forall n :: n in all ==> n == tree || n in all[1..] by { assert all == [tree] + all[1..]; }
  }

  lemma AppendedKeepsSets(tree: Node, stmt: Node)
    requires tree.kind.Module? && CanFollow(stmt)
    ensures forall n :: n in Nodes(Appended(tree, stmt)) && n.kind.FunctionDef? ==> n in Nodes(tree)
    ensures DeleteTargets(Nodes(Appended(tree, stmt))) == DeleteTargets(Nodes(tree))
    ensures Imported(Nodes(Appended(tree, stmt))) == Imported(Nodes(tree))
  {
    AppendedMembers(tree, stmt);
    hide Nodes, NodeOk;
  }

  lemma AppendedNotNested(tree: Node, stmt: Node)
    requires tree.kind.Module? && CanFollow(stmt) && !exists n :: n in Nodes(tree) && IsNested(tree, n)
    ensures !exists n :: n in Nodes(Appended(tree, stmt)) && IsNested(Appended(tree, stmt), n)
  {
    AppendedKeepsSets(tree, stmt);
    hide DeleteTargets, Imported, Appended, Nodes;
  }

  lemma PlainIsOk(n: Node, deleted: set<nat>)
    requires NodeOk(n, {})
    ensures NodeOk(n, deleted)
  {
    hide StringOk, NameOk, ImportOk, BinOpOk, CallOk, AttributeOk, DeleteOk, DecoratorsOk, AssignOk;
  }

  lemma AppendedNodesOk(tree: Node, stmt: Node)
    requires CanFollow(stmt)
    requires forall n :: n in Nodes(tree) ==> NodeOk(n, DeleteTargets(Nodes(tree)))
    ensures forall n :: n in Nodes(Appended(tree, stmt)) ==> NodeOk(n, DeleteTargets(Nodes(tree)))
  {
    AppendedMembers(tree, stmt);
    RootIsOk(tree, stmt, DeleteTargets(Nodes(tree)));
    hide Nodes, NodeOk;
    forall n | n in Nodes(stmt) ensures NodeOk(n, DeleteTargets(Nodes(tree))) {
      assert IsPlain(n);
      PlainIsOk(n, DeleteTargets(Nodes(tree)));
    }
  }

  lemma RootIsOk(tree: Node, stmt: Node, deleted: set<nat>)
    ensures NodeOk(Appended(tree, stmt), deleted)
  {
  }

  lemma AppendedBindings(tree: Node, stmt: Node)
    requires CanFollow(stmt)
    requires BindingsOk(tree.children, Imported(Nodes(tree))) && BuildsOnce(tree.children) && NoExtraNames(tree.children)
    ensures BindingsOk(Appended(tree, stmt).children, Imported(Nodes(tree)))
    ensures BuildsOnce(Appended(tree, stmt).children) && NoExtraNames(Appended(tree, stmt).children)
  {
    var body, more := tree.children, Appended(tree, stmt).children;
    hide Imported, Nodes, IsPlain;
    forall i: nat, k: nat | IsBinding(more, i, k)
      ensures BindingOk(more[i], more[i].children[k].kind.name, Imported(Nodes(tree)))
      ensures Builds(more, i, k) <==> Builds(body, i, k)
      ensures more[i].children[k].kind.name == "chute" || IsLoopVariable(more, more[i].children[k].kind.name)
    {
      if i < |body| {
        assert more[i] == body[i] && IsBinding(body, i, k);
        if IsLoopVariable(body, body[i].children[k].kind.name) {
          var n :| n in body && n.kind.For? && IsName(Child(n, 0), body[i].children[k].kind.name);
          assert n in more;
        }
      }
    }
    var at: nat, target: nat :| Builds(body, at, target) && forall j: nat, m: nat :: Builds(body, j, m) ==> j == at && m == target;
    assert more[at] == body[at] && Builds(more, at, target);
  }

  /** An accepted tree with room for it stays accepted with any statement at its end whose nodes pass on their own, that
      defines no function, deletes nothing, has no from-import, assigns no builder's result, and assigns to no name but
      "chute". */
  lemma AppendingIsAccepted(size: nat, tree: Node, stmt: Node)
    requires Accepted(size, tree) && tree.kind.Module? && CanFollow(stmt)
    requires |Nodes(tree)| + |Nodes(stmt)| <= MAX_AST_NODES && Depth(stmt) < MAX_AST_DEPTH
    ensures Accepted(size, Appended(tree, stmt))
    ensures forall i: nat, k: nat :: Builds(tree.children, i, k) ==> Builds(Appended(tree, stmt).children, i, k)
  {
    AppendedNodes(tree, stmt);
    AppendedKeepsSets(tree, stmt);
    AppendedBindings(tree, stmt);
    AppendedNodesOk(tree, stmt);
    AppendedNotNested(tree, stmt);
    hide NodeOk, Imported, DeleteTargets, BindingsOk, BuildsOnce, NoExtraNames, Nodes, IsNested, Depth, CanFollow;
  }

  // chute = <literal>
  const REBINDING := Node(Assign(1), [Node(Name("chute"), [NO_NODE]), Node(Literal, [])])

  /**
    * Acceptance does not mean that "chute" ends up as what the builder returned: an accepted tree with four nodes to
    * spare stays accepted when a literal is assigned to "chute" at its end, and the builder's result is then lost.
    */
  lemma RebindingIsAccepted(size: nat, tree: Node, at: nat, target: nat)
    requires Accepted(size, tree) && tree.kind.Module? && |Nodes(tree)| + 4 <= MAX_AST_NODES
    requires Builds(tree.children, at, target)
    ensures Accepted(size, Appended(tree, REBINDING))
    ensures Builds(Appended(tree, REBINDING).children, at, target)
            && !NothingRebinds(Appended(tree, REBINDING).children, at, target)
  {
    RebindingNodes();
    RebindingBinds();
    hide Nodes, Depth, Accepted, CanFollow, Effects;
    AppendingIsAccepted(size, tree, REBINDING);
    var body := Appended(tree, REBINDING).children;
    assert body[|tree.children|] == REBINDING;
    assert TakesName(Binds("chute"));
  }

  lemma RebindingBinds()
    ensures Binds("chute") in Effects(REBINDING)
  {
    var name := Node(Name("chute"), [NO_NODE]);
    AssignUnfolds(REBINDING);
    assert REBINDING.children[..1] == [name];
    assert EffectsOfTargets([name]) == TargetEffects(name) + EffectsOfTargets([]);
  }

  lemma RebindingNodes()
    ensures CanFollow(REBINDING) && |Nodes(REBINDING)| == 4 && Depth(REBINDING) == 2
  {
    var name, value := Node(Name("chute"), [NO_NODE]), Node(Literal, []);
    NodesOfPair(NO_NODE, NO_NODE);
    NodesOfPair(name, value);
    DeepestOfPair(NO_NODE, NO_NODE);
    DeepestOfPair(name, value);
    assert Nodes(NO_NODE) == [NO_NODE] && Nodes(value) == [value] && Nodes(name) == [name, NO_NODE];
    assert Nodes(REBINDING) == [REBINDING, name, NO_NODE, value];
    assert Depth(NO_NODE) == 0 && Depth(value) == 0 && Depth(name) == 1;
    ExampleNames();
    hide Nodes, NodesOf, Depth, Deepest, IsDangerous, HIDDEN_NAMES;
    assert IsPlain(NO_NODE) && IsPlain(value) && IsPlain(name) && IsPlain(REBINDING);
  }

  // [f][0](), a call whose function is neither a name nor an attribute.
  function ListOf(f: string): Node {
    Node(TupleOrList, [Node(Name(f), [NO_NODE]), NO_NODE])
  }

  function First(f: string, id: nat): Node {
    Node(Subscript(id), [ListOf(f), Node(Literal, []), NO_NODE])
  }

  function ComputedCall(f: string, id: nat): Node {
    Node(Other, [Node(Call, [First(f, id)])])
  }

  /**
    * A call is compared with the refused functions only when its function is written as a name or an attribute: whatever
    * visible name f is, an accepted tree with nine nodes to spare stays accepted when such a call of it is added, and
    * what "chute" ends as is then open.
    */
  lemma ComputedCallIsAccepted(size: nat, tree: Node, at: nat, target: nat, f: string, id: nat)
    requires Accepted(size, tree) && tree.kind.Module? && |Nodes(tree)| + 9 <= MAX_AST_NODES && f !in HIDDEN_NAMES
    requires Builds(tree.children, at, target)
    ensures Accepted(size, Appended(tree, ComputedCall(f, id)))
    ensures Builds(Appended(tree, ComputedCall(f, id)).children, at, target)
            && !NothingRebinds(Appended(tree, ComputedCall(f, id)).children, at, target)
  {
    ComputedCallNodes(f, id);
    ComputedCallIsOpen(f, id);
    hide Nodes, Depth, Accepted, CanFollow, Effects, ComputedCall;
    AppendingIsAccepted(size, tree, ComputedCall(f, id));
    var body := Appended(tree, ComputedCall(f, id)).children;
    assert body[|tree.children|] == ComputedCall(f, id) && ComputedCall(f, id) in body;
    assert IsOpen(body, Unbounded);
  }

  lemma ComputedCallIsOpen(f: string, id: nat)
    ensures Unbounded in Effects(ComputedCall(f, id))
  {
    var call := Node(Call, [First(f, id)]);
    assert Effects(call) == EffectsOf(call.children) + [Unbounded];
    EffectsOfPair(call, call);
    hide EffectsOf;
    assert Effects(ComputedCall(f, id)) == EffectsOf([call]);
    assert Effects(call)[|Effects(call)| - 1] == Unbounded;
  }

  lemma ComputedCallNodes(f: string, id: nat)
    requires f !in HIDDEN_NAMES
    ensures CanFollow(ComputedCall(f, id)) && |Nodes(ComputedCall(f, id))| == 9 && Depth(ComputedCall(f, id)) == 5
  {
    var name, list, first := Node(Name(f), [NO_NODE]), ListOf(f), First(f, id);
    var call := Node(Call, [first]);
    ComputedCallShape(f, id);
    hide Nodes, Depth, HIDDEN_NAMES;
    assert IsPlain(NO_NODE) && IsPlain(Node(Literal, [])) && IsPlain(name) && IsPlain(list) && IsPlain(first);
    assert IsPlain(call) && IsPlain(ComputedCall(f, id));
  }

  lemma ComputedCallShape(f: string, id: nat)
    ensures Nodes(ComputedCall(f, id))
            == [ComputedCall(f, id), Node(Call, [First(f, id)]), First(f, id), ListOf(f), Node(Name(f), [NO_NODE]), NO_NODE,
                NO_NODE, Node(Literal, []), NO_NODE]
    ensures Depth(ComputedCall(f, id)) == 5
  {
    var name, list, first, index := Node(Name(f), [NO_NODE]), ListOf(f), First(f, id), Node(Literal, []);
    var call := Node(Call, [first]);
    NodesOfPair(NO_NODE, NO_NODE);
    DeepestOfPair(NO_NODE, NO_NODE);
    NodesOfPair(name, NO_NODE);
    DeepestOfPair(name, NO_NODE);
    TripleNodes(list, index, NO_NODE);
    NodesOfPair(first, first);
    DeepestOfPair(first, first);
    NodesOfPair(call, call);
    DeepestOfPair(call, call);
    hide NodesOf, Deepest;
    assert NodesOf([]) == [] by { NoNodes(); }
    assert Nodes(NO_NODE) == [NO_NODE] && Nodes(index) == [index] && Nodes(name) == [name, NO_NODE];
    assert Nodes(list) == [list, name, NO_NODE, NO_NODE];
    assert Nodes(first) == [first, list, name, NO_NODE, NO_NODE, index, NO_NODE];
    assert Depth(NO_NODE) == 0 && Depth(index) == 0 && Depth(name) == 1 && Depth(list) == 2 && Depth(first) == 3;
  }

  lemma TripleNodes(a: Node, b: Node, c: Node)
    ensures NodesOf([a, b, c]) == Nodes(a) + Nodes(b) + Nodes(c)
    ensures Deepest([a, b, c]) == Max(Max(Depth(a), Depth(b)), Depth(c))
  {
    assert [a, b, c][1..] == [b, c] && [a, b, c][..2] == [a, b];
    NodesOfPair(b, c);
    DeepestOfPair(a, b);
  }
}
