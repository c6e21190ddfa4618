// The control-flow graph and the state of the binder that builds it, as values: what every visit
// does to that state. The class in Binder.dfy does the same in place.
module FlowGraph {
  import opened Syntax

  // Nodes live in an arena and point at each other by index. Index Dead is the unreachable flow;
  // an index outside the arena is nil. A label's predecessors are kept beside it (Binding.antecedents).
  const Dead: nat := 0

  datatype FlowNode =
    | Unreachable
    | Start(scope: Scope)
    | ScopeStart(antecedent: nat, scope: Scope)
    | BranchLabel
    | LoopLabel
    | Assignment(antecedent: nat, sym: Symbol, site: Site, init: bool, assign: bool)
    | Condition(antecedent: nat, test: Expr, truthy: bool)
    | SwitchClause(antecedent: nat, clause: int)
    | CallFlow(antecedent: nat)
    | PropertyAssignment(antecedent: nat)

  // The labels one enclosing statement offers its jumps; only a loop has a continueTo other than Dead.
  datatype JumpTarget = JumpTarget(tag: string, breakTo: nat, continueTo: nat, breakOnly: bool)

  // One reference: the identifier, its symbol, its flow node and the function it occurs in;
  // written when it stores without reading.
  datatype Access = Access(id: nat, sym: Symbol, flow: nat, container: Scope, written: bool)

  // The binder's result: the graph, and what it records about it.
  datatype Binding = Binding(
    nodes: seq<FlowNode>,
    antecedents: map<nat, seq<nat>>,
    accesses: seq<Access>,
    foreign: set<Symbol>,         // stored to by a function other than their own
    endReachable: set<Scope>,     // the functions whose body's end some path reaches
    blindTries: set<nat>)         // the try statements whose finally is entered from normal completion only

  // The binder: its result so far, and where it stands in the program.
  datatype Builder = Builder(
    g: Binding,
    flow: nat,
    container: Scope,
    jumps: seq<JumpTarget>,
    pendingLabel: string,
    exceptionTargets: seq<nat>)

  const NothingBound: Builder :=
    Builder(Binding([Unreachable], map[], [], {}, {}, {}), Dead, ModuleScope, [], "", [])

  function Antecedents(g: Binding, l: nat): seq<nat> {
    if l in g.antecedents then g.antecedents[l] else []
  }

  // The nodes control can come from.
  function Predecessors(g: Binding, n: nat): seq<nat> {
    if n >= |g.nodes| then [] else
    match g.nodes[n]
    case Unreachable => []
    case Start(_) => []
    case BranchLabel => Antecedents(g, n)
    case LoopLabel => Antecedents(g, n)
    case other => [other.antecedent]
  }

  // h holds everything g does: nodes are only added, and labels only gain predecessors.
  ghost predicate Extends(g: Binding, h: Binding) {
    && g.nodes <= h.nodes
    && g.accesses <= h.accesses
    && g.foreign <= h.foreign
    && g.endReachable <= h.endReachable
    && g.blindTries <= h.blindTries
    && forall l :: Antecedents(g, l) <= Antecedents(h, l)
  }

  lemma ExtendsTransitive(a: Binding, b: Binding, c: Binding)
    requires Extends(a, b) && Extends(b, c)
    ensures Extends(a, c)
  {
    forall l ensures Antecedents(a, l) <= Antecedents(c, l) {
      assert Antecedents(a, l) <= Antecedents(b, l) <= Antecedents(c, l);
    }
  }

  // Growth is reflexive and transitive; called where a visit goes through many states.
  lemma GrowthChains()
    ensures forall a :: Extends(a, a)
    ensures forall a, b, c :: Extends(a, b) && Extends(b, c) ==> Extends(a, c)
  {
    forall a, b, c | Extends(a, b) && Extends(b, c) ensures Extends(a, c) { ExtendsTransitive(a, b, c); }
  }

  // What a visit gives back: more graph, and the surroundings it found.
  ghost predicate Grows(b: Builder, r: Builder) {
    && Extends(b.g, r.g)
    && r.container == b.container
    && r.jumps == b.jumps
    && r.exceptionTargets == b.exceptionTargets
  }

  // ----- the graph's own operations -----

  // Adds a node.
  function Add(b: Builder, n: FlowNode): (r: Builder)
    ensures Grows(b, r)
  {
    b.(g := b.g.(nodes := b.g.nodes + [n]))
  }

  // Adds a node and makes it the current flow.
  function Step(b: Builder, n: FlowNode): (r: Builder)
    ensures Grows(b, r)
  {
    Add(b, n).(flow := |b.g.nodes|)
  }

  function AddAntecedent(b: Builder, l: nat, f: nat): (r: Builder)
    ensures Grows(b, r) && r == b.(g := b.g.(antecedents := r.g.antecedents))
    ensures f != Dead ==> f in Antecedents(r.g, l)
  {
    if f == Dead || f in Antecedents(b.g, l) then b
    else b.(g := b.g.(antecedents := b.g.antecedents[l := Antecedents(b.g, l) + [f]]))
  }

  // A label never has a predecessor twice, nor an unreachable one, if it had none such before; one predecessor at
  // most is gained, the given one, and by no other label.
  lemma AttachedOnce(b: Builder, l: nat, f: nat)
    ensures var was, now := Antecedents(b.g, l), Antecedents(AddAntecedent(b, l, f).g, l);
      && (forall p :: p in now <==> p in was || (p == f && f != Dead))
      && (Distinct(was) ==> Distinct(now)) && (Dead !in was ==> Dead !in now)
    ensures forall m: nat :: m != l ==> Antecedents(AddAntecedent(b, l, f).g, m) == Antecedents(b.g, m)
  {
  }

  predicate Distinct(ns: seq<nat>) {
    forall i, j :: 0 <= i < j < |ns| ==> ns[i] != ns[j]
  }

  function AddAntecedentToAll(b: Builder, ls: seq<nat>, f: nat): (r: Builder)
    ensures Grows(b, r) && r == b.(g := b.g.(antecedents := r.g.antecedents))
    decreases |ls|
  {
    GrowthChains();
    if ls == [] then b else AddAntecedentToAll(AddAntecedent(b, ls[0], f), ls[1..], f)
  }

  // The flow after label l: unreachable when nothing reaches it.
  function Finish(g: Binding, l: nat): nat {
    if Antecedents(g, l) == [] then Dead else l
  }

  // The current flow becomes what follows label l.
  function Resume(b: Builder, l: nat): Builder {
    b.(flow := Finish(b.g, l))
  }

  // The flow where two paths meet.
  function Join(b: Builder, f1: nat, f2: nat): (r: Builder)
    ensures Grows(b, r) && r.pendingLabel == b.pendingLabel
  {
    GrowthChains();
    hide Extends;
    var l := |b.g.nodes|;
    Resume(AddAntecedent(AddAntecedent(Add(b, BranchLabel), l, f1), l, f2), l)
  }

  // One side of a test reached from f.
  function Branch(b: Builder, f: nat, test: Expr, truthy: bool): (r: Builder)
    ensures Grows(b, r) && r.pendingLabel == b.pendingLabel
  {
    if f == Dead || test == NoExpr then b.(flow := f) else Step(b, Condition(f, test, truthy))
  }

  function EnterClause(b: Builder, f: nat, clause: int): (r: Builder)
    ensures Grows(b, r) && r.pendingLabel == b.pendingLabel
  {
    if f == Dead then b.(flow := f) else Step(b, SwitchClause(f, clause))
  }

  function StartScope(b: Builder, s: Scope): (r: Builder)
    ensures Grows(b, r) && r.pendingLabel == b.pendingLabel
  {
    if b.flow == Dead then b else Step(b, ScopeStart(b.flow, s))
  }

  // Notes a store to x by a function other than its own.
  function NoteForeign(b: Builder, x: Symbol): (r: Builder)
    ensures Grows(b, r) && r.g.nodes == b.g.nodes && r == b.(g := r.g)
  {
    if b.container != ContainerOf(x.scope) then b.(g := b.g.(foreign := b.g.foreign + {x})) else b
  }

  // A store to x: a node for it, unless nothing flows here.
  function AssignFlow(b: Builder, x: Symbol, site: Site, init: bool, assign: bool): (r: Builder)
    ensures Grows(b, r) && r.pendingLabel == b.pendingLabel
  {
    GrowthChains();
    hide Extends;
    var b1 := NoteForeign(b, x);
    if b1.flow == Dead then b1
    else
      var b2 := Step(b1, Assignment(b1.flow, x, site, init, assign));
      AddAntecedentToAll(b2, b2.exceptionTargets, b2.flow)
  }

  // Records a reference to x.
  function Refer(b: Builder, id: nat, x: Symbol, written: bool): (r: Builder)
    ensures Grows(b, r) && r == b.(g := r.g) && r.g.nodes == b.g.nodes
  {
    b.(g := b.g.(accesses := b.g.accesses + [Access(id, x, b.flow, b.container, written)]))
  }

  // The target a jump finds: a break's, or, with cont, a continue's, inner statements first.
  function FindJump(jumps: seq<JumpTarget>, tag: string, cont: bool): Option<JumpTarget> {
    if jumps == [] then None
    else
      var t := jumps[|jumps| - 1];
      var outer := jumps[..|jumps| - 1];
      if tag != "" && t.tag != tag then FindJump(outer, tag, cont)
      else if cont && t.continueTo == Dead then
        if tag != "" then None else FindJump(outer, tag, cont)
      else if tag == "" && t.breakOnly then FindJump(outer, tag, cont)
      else Some(t)
  }

  datatype Option<T> = None | Some(value: T)
}
