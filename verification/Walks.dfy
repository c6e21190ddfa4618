// Backward walks over a flow graph: what each analysis looks for, and what it means for a path back
// from a node to meet it.
module Walks {
  import opened Syntax
  import opened FlowGraph

  // What an analysis makes of a node: the path goes on, ends with the fact, ends at the start of the
  // binding without it, or leads nowhere.
  datatype Mark = Pass | Found | Missed | Stop

  // An analysis of one binding: for its declaration having run, for a value stored in it, or for a
  // condition that excludes undefined since its last store.
  datatype Walk =
    | ForInit(sym: Symbol)
    | ForAssign(sym: Symbol)
    | ForGuard(sym: Symbol)

  function MarkOf(w: Walk, n: FlowNode): Mark {
    match w
    case ForInit(x) => FactMark(x, n, n.Assignment? && n.init)
    case ForAssign(x) => FactMark(x, n, n.Assignment? && n.assign)
    case ForGuard(x) => GuardMark(x, n)
  }

  function FactMark(x: Symbol, n: FlowNode, fact: bool): Mark {
    match n
    case Unreachable => Stop
    case Assignment(_, y, _, _, _) => if y == x && fact then Found else Pass
    case ScopeStart(_, s) => if s == x.scope then Missed else Pass
    case Start(s) => if s == ContainerOf(x.scope) then Missed else Stop
    case _ => Pass
  }

  function GuardMark(x: Symbol, n: FlowNode): Mark {
    match n
    case Unreachable => Stop
    case Assignment(_, y, _, _, _) => if y == x then Missed else Pass
    case Condition(_, test, truthy) => if ExcludesUndefined(test, x, truthy) then Found else Pass
    case ScopeStart(_, s) => if s == x.scope then Missed else Pass
    case Start(_) => Missed
    case _ => Pass
  }

  predicate IsName(e: Expr, x: Symbol) {
    e.Name? && e.sym == x
  }

  // The literal undefined, or, where the comparison is loose, null.
  predicate Absent(e: Expr, loose: bool) {
    e == Literal(Undefined) || (loose && e == Literal(Null))
  }

  // Whether taking this branch of c rules undefined out of x, as the analysis has it. The operands are
  // swapped when the left one is not x itself, so a typeof test is recognized on the right side only.
  predicate ExcludesUndefined(c: Expr, x: Symbol, branch: bool) {
    match c
    case Name(_, _) => branch && IsName(c, x)
    case Not(arg) => !branch && IsName(arg, x)
    case Binary(op, left, right) =>
      if IsName(left, x) then ComparisonExcludes(op, right, branch)
      else if right.TypeOf? && IsName(right.arg, x) then
        TextOf(left).Some? && TextOf(left).value != "undefined" && (op.StrictEq? || op.LooseEq?) == branch
      else IsName(right, x) && ComparisonExcludes(op, left, branch)
    case Logical(_, left, right) =>
      !IsName(left, x) && right.TypeOf? && IsName(right.arg, x) &&
      TextOf(left).Some? && TextOf(left).value != "undefined" && !branch
    case _ => false
  }

  function TextOf(e: Expr): Option<string> {
    if e.Literal? && e.value.Text? then Some(e.value.s) else None
  }

  predicate ComparisonExcludes(op: BinaryOp, other: Expr, branch: bool) {
    match op
    case StrictNe => branch && Absent(other, false)
    case LooseNe => branch && Absent(other, true)
    case StrictEq => !branch && Absent(other, false)
    case LooseEq => !branch && Absent(other, true)
    case _ => false
  }

  // ----- paths -----

  // path leads backwards, each node but the last one the walk passes.
  ghost predicate BackPath(g: Binding, w: Walk, path: seq<nat>) {
    && path != []
    && path[0] < |g.nodes|
    && (|path| > 1 ==>
      && MarkOf(w, g.nodes[path[0]]) == Pass
      && path[1] in Predecessors(g, path[0])
      && BackPath(g, w, path[1..]))
  }

  ghost predicate LeadsTo(g: Binding, w: Walk, n: nat, t: nat, path: seq<nat>) {
    BackPath(g, w, path) && path[0] == n && path[|path| - 1] == t
  }

  // A walk back from n comes to t.
  ghost predicate Reaches(g: Binding, w: Walk, n: nat, t: nat) {
    exists path :: LeadsTo(g, w, n, t, path)
  }

  // A walk back from n comes to a node it marks m.
  ghost predicate Meets(g: Binding, w: Walk, n: nat, m: Mark) {
    exists t: nat :: t < |g.nodes| && Reaches(g, w, n, t) && MarkOf(w, g.nodes[t]) == m
  }

  lemma ReachesItself(g: Binding, w: Walk, n: nat)
    requires n < |g.nodes|
    ensures Reaches(g, w, n, n)
  {
    assert LeadsTo(g, w, n, n, [n]);
  }

  // What a predecessor reaches, so does a node the walk passes.
  lemma ReachesOn(g: Binding, w: Walk, n: nat, p: nat, t: nat)
    requires n < |g.nodes| && MarkOf(w, g.nodes[n]) == Pass
    requires p in Predecessors(g, n) && Reaches(g, w, p, t)
    ensures Reaches(g, w, n, t)
  {
    var path :| LeadsTo(g, w, p, t, path);
    var longer := [n] + path;
    assert longer[1..] == path;
    assert LeadsTo(g, w, n, t, longer);
  }

  // ----- what the analyses answer for a reference -----

  // A reference is checked in the function that declares its symbol.
  predicate Checked(c: Access) {
    c.container == ContainerOf(c.sym.scope)
  }

  // The reference is read or stored to before the declaration has run.
  ghost predicate UsedBeforeDeclaration(g: Binding, c: Access) {
    Checked(c) && TdzKind(c.sym) && Meets(g, ForInit(c.sym), c.flow, Missed) && !Meets(g, ForInit(c.sym), c.flow, Found)
  }

  // The reference may be read before a value is stored.
  ghost predicate UsedBeforeAssigned(g: Binding, c: Access) {
    Checked(c) && !c.written && TrackedForAssignment(c.sym) && Meets(g, ForAssign(c.sym), c.flow, Missed)
  }

  ghost predicate StoredBackFrom(g: Binding, c: Access, t: nat) {
    t < |g.nodes| && Reaches(g, ForAssign(c.sym), c.flow, t) && MarkOf(ForAssign(c.sym), g.nodes[t]) == Found
  }

  // A declaration with a value, or a plain assignment.
  predicate PlainStore(site: Site) {
    (site.DeclarationSite? && site.hasInit) || (site.AssignmentSite? && site.op == Plain)
  }

  predicate SingleVariable(x: Symbol) {
    |x.declarations| == 1 && x.declarations[0].Variable? && !x.declarations[0].ambient
  }
}
