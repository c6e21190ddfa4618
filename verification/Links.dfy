// How what is traced from one flow node is traced from the next: the graph's operations one by one,
// and whole expressions that change nothing a question asks about.
module Links {
  import opened Syntax
  import opened FlowGraph
  import opened Visit
  import opened Semantics
  import opened Walks
  import opened Questions
  import opened Guards

  ghost predicate Rooted(g: Binding) {
    |g.nodes| > 0 && g.nodes[Dead] == Unreachable
  }

  // Whatever is traced from n is traced from m, which is reachable if n is.
  ghost predicate Link(q: Question, g: Binding, n: nat, m: nat) {
    n != Dead ==> m != Dead && (Traced(q, g, n) ==> Traced(q, g, m))
  }

  lemma LinkAt(q: Question, g: Binding, a: Activation, n: nat, m: nat, h: History)
    requires At(q, g, a, n, h) && Link(q, g, n, m)
    ensures At(q, g, a, m, h)
  {
  }

  // A node the walk passes continues the path of its predecessors.
  lemma PassLink(q: Question, g: Binding, n: nat, m: nat)
    requires Rooted(g) && m < |g.nodes| && g.nodes[m] != Unreachable && n in Predecessors(g, m)
    requires !q.Reached? ==> MarkOf(WalkOf(q), g.nodes[m]) == Pass
    ensures Link(q, g, n, m)
  {
    if Traced(q, g, n) {
      var t: nat :| t < |g.nodes| && Reaches(g, WalkOf(q), n, t) && Begins(q, g.nodes[t]);
      ReachesOn(g, WalkOf(q), m, n, t);
    }
  }

  lemma BeginsTraced(q: Question, g: Binding, n: nat)
    requires n < |g.nodes| && !q.Reached? && Begins(q, g.nodes[n])
    ensures Traced(q, g, n)
  {
    ReachesItself(g, WalkOf(q), n);
  }

  // The node Step adds is where it says in every later graph.
  lemma StepNode(g: Binding, b: Builder, n: FlowNode)
    requires Rooted(g) && Extends(Step(b, n).g, g) && n != Unreachable
    ensures var m := Step(b, n).flow;
      m == |b.g.nodes| < |g.nodes| && g.nodes[m] == n && m != Dead
  {
    var r := Step(b, n);
    assert r.g.nodes[|b.g.nodes|] == n;
  }

  lemma StepLink(q: Question, g: Binding, b: Builder, n: FlowNode)
    requires Rooted(g) && Extends(Step(b, n).g, g)
    requires n.CallFlow? || n.PropertyAssignment? || n.SwitchClause?
    ensures Link(q, g, n.antecedent, Step(b, n).flow)
  {
    StepNode(g, b, n);
    PassLink(q, g, n.antecedent, Step(b, n).flow);
  }

  lemma LabelLink(q: Question, g: Binding, b: Builder, n: FlowNode, f: nat)
    requires Rooted(g) && Extends(Add(b, n).g, g) && (n.BranchLabel? || n.LoopLabel?)
    requires f != Dead ==> f in Antecedents(g, |b.g.nodes|)
    ensures Link(q, g, f, |b.g.nodes|)
  {
    var l := |b.g.nodes|;
    assert Add(b, n).g.nodes[l] == n;
    if f != Dead { PassLink(q, g, f, l); }
  }

  lemma BranchLink(q: Question, g: Binding, b: Builder, f: nat, test: Expr, truthy: bool)
    requires Rooted(g) && Extends(Branch(b, f, test, truthy).g, g)
    requires q.Undef? ==> !ExcludesUndefined(test, q.sym, truthy)
    ensures Link(q, g, f, Branch(b, f, test, truthy).flow)
  {
    if f != Dead && test != NoExpr {
      StepNode(g, b, Condition(f, test, truthy));
      PassLink(q, g, f, Branch(b, f, test, truthy).flow);
    }
  }

  lemma ClauseLink(q: Question, g: Binding, b: Builder, f: nat, clause: int)
    requires Rooted(g) && Extends(EnterClause(b, f, clause).g, g)
    ensures Link(q, g, f, EnterClause(b, f, clause).flow)
  {
    if f != Dead { StepLink(q, g, b, SwitchClause(f, clause)); }
  }

  lemma JoinLink(q: Question, g: Binding, b: Builder, f1: nat, f2: nat)
    requires Rooted(g) && Extends(Join(b, f1, f2).g, g)
    ensures Link(q, g, f1, Join(b, f1, f2).flow) && Link(q, g, f2, Join(b, f1, f2).flow)
  {
    var l := |b.g.nodes|;
    var b0 := Add(b, BranchLabel);
    var b1 := AddAntecedent(b0, l, f1);
    var b2 := AddAntecedent(b1, l, f2);
    GrowthChains();
    assert Antecedents(b1.g, l) <= Antecedents(b2.g, l) <= Antecedents(g, l);
    LabelLink(q, g, b, BranchLabel, f1);
    LabelLink(q, g, b, BranchLabel, f2);
  }

  // The assignment node AssignFlow adds.
  lemma AssignNode(g: Binding, b: Builder, x: Symbol, site: Site, init: bool, assign: bool)
    requires Rooted(g) && Extends(AssignFlow(b, x, site, init, assign).g, g) && b.flow != Dead
    ensures var m := AssignFlow(b, x, site, init, assign).flow;
      m < |g.nodes| && g.nodes[m] == Assignment(b.flow, x, site, init, assign) && m != Dead
  {
    var n := Assignment(b.flow, x, site, init, assign);
    var b1 := NoteForeign(b, x);
    var b2 := Step(b1, n);
    GrowthChains();
    assert Extends(AddAntecedentToAll(b2, b2.exceptionTargets, b2.flow).g, g);
    StepNode(g, b1, n);
  }

  lemma AssignLink(q: Question, g: Binding, b: Builder, x: Symbol, site: Site, assign: bool)
    requires Rooted(g) && Extends(AssignFlow(b, x, site, false, assign).g, g)
    requires q.Reached? || q.Declared? || q.sym != x
    ensures Link(q, g, b.flow, AssignFlow(b, x, site, false, assign).flow)
  {
    if b.flow != Dead {
      AssignNode(g, b, x, site, false, assign);
      PassLink(q, g, b.flow, AssignFlow(b, x, site, false, assign).flow);
    }
  }

  // An expression that changes nothing q asks about: what was traced before it is traced after it.
  lemma {:induction false} QuietLink(q: Question, g: Binding, e: Expr, b: Builder)
    requires Rooted(g) && Extends(VisitExpr(e, b).g, g) && Quiet(q, e)
    ensures Link(q, g, b.flow, VisitExpr(e, b).flow)
    decreases e, 1
  {
    GrowthChains();
    hide Extends, Traced, VisitLogical, VisitConditional, VisitAssign, VisitFunction, AssignFlow;
    match e
    case Not(arg) => QuietLink(q, g, arg, b);
    case TypeOf(arg) => QuietLink(q, g, arg, b);
    case Binary(_, l, r) => QuietPair(q, g, e, l, r, b);
    case Logical(_, _, _) => QuietLogical(q, g, e, b);
    case Conditional(_, _, _) => QuietConditional(q, g, e, b);
    case Assign(_, _, _, _) => QuietAssign(q, g, e, b);
    case Update(id, x) => AssignLink(q, g, Refer(b, id, x, false), x, OtherSite, true);
    case Member(o) => QuietLink(q, g, o, b);
    case SetMember(o, r) =>
      QuietPair(q, g, e, o, r, b);
      var b1 := VisitExpr(r, VisitExpr(o, b));
      if RootIdentifier(o) && b1.flow != Dead { StepLink(q, g, b1, PropertyAssignment(b1.flow)); }
    case Call(c, args) =>
      QuietPair(q, g, e, c, args, b);
      var b1 := VisitExpr(args, VisitExpr(c, b));
      if DottedName(c) && b1.flow != Dead { StepLink(q, g, b1, CallFlow(b1.flow)); }
    case Comma(l, r) => QuietPair(q, g, e, l, r, b);
    case Opaque(arg) => QuietLink(q, g, arg, b);
    case _ =>
  }

  lemma {:induction false} QuietPair(q: Question, g: Binding, whole: Expr, e: Expr, f: Expr, b: Builder)
    requires e < whole && f < whole && Quiet(q, e) && Quiet(q, f)
    requires Rooted(g) && Extends(VisitExpr(f, VisitExpr(e, b)).g, g)
    ensures Link(q, g, b.flow, VisitExpr(f, VisitExpr(e, b)).flow)
    decreases whole, 0
  {
    GrowthChains();
    hide Extends, Traced, VisitExpr;
    QuietLink(q, g, e, b);
    QuietLink(q, g, f, VisitExpr(e, b));
  }

  lemma {:induction false} QuietLogical(q: Question, g: Binding, e: Expr, b: Builder)
    requires e.Logical? && Rooted(g) && Extends(VisitLogical(e, b).g, g) && Quiet(q, e)
    ensures Link(q, g, b.flow, VisitLogical(e, b).flow)
    decreases e, 0
  {
    GrowthChains();
    hide Extends, Traced, VisitExpr, Join, Branch;
    QuietLink(q, g, e.left, b);
    var b1 := VisitExpr(e.left, b);
    if e.lop.Nullish? {
      var b2 := VisitExpr(e.right, b1);
      JoinLink(q, g, b2, b1.flow, b2.flow);
    } else {
      var b2 := Branch(b1, b1.flow, e.left, e.lop == And);
      var b3 := Branch(b2, b1.flow, e.left, e.lop != And);
      var b4 := VisitExpr(e.right, b3.(flow := b2.flow));
      JoinLink(q, g, b4, b3.flow, b4.flow);
      if q.Undef? && ExcludesUndefined(e.left, q.sym, e.lop != And) {
        OneBranch(e.left, q.sym);
        BranchLink(q, g, b1, b1.flow, e.left, e.lop == And);
        QuietLink(q, g, e.right, b3.(flow := b2.flow));
      } else {
        BranchLink(q, g, b2, b1.flow, e.left, e.lop != And);
      }
    }
  }

  lemma {:induction false} QuietConditional(q: Question, g: Binding, e: Expr, b: Builder)
    requires e.Conditional? && Rooted(g) && Extends(VisitConditional(e, b).g, g) && Quiet(q, e)
    ensures Link(q, g, b.flow, VisitConditional(e, b).flow)
    decreases e, 0
  {
    GrowthChains();
    hide Extends, Traced, VisitExpr, Join, Branch;
    QuietLink(q, g, e.test, b);
    var b1 := VisitExpr(e.test, b);
    var b2 := Branch(b1, b1.flow, e.test, true);
    var b3 := VisitExpr(e.yes, b2);
    var b4 := Branch(b3, b1.flow, e.test, false);
    var b5 := VisitExpr(e.no, b4);
    JoinLink(q, g, b5, b3.flow, b5.flow);
    if q.Undef? && ExcludesUndefined(e.test, q.sym, true) {
      OneBranch(e.test, q.sym);
      BranchLink(q, g, b3, b1.flow, e.test, false);
      QuietLink(q, g, e.no, b4);
    } else {
      BranchLink(q, g, b1, b1.flow, e.test, true);
      QuietLink(q, g, e.yes, b2);
    }
  }

  lemma {:induction false} QuietAssign(q: Question, g: Binding, e: Expr, b: Builder)
    requires e.Assign? && Rooted(g) && Extends(VisitAssign(e, b).g, g) && Quiet(q, e)
    ensures Link(q, g, b.flow, VisitAssign(e, b).flow)
    decreases e, 0
  {
    GrowthChains();
    hide Extends, Traced, VisitExpr, Join, Branch, AssignFlow;
    var site := AssignmentSite(e.id, e.aop);
    if e.aop.Plain? || e.aop.Compound? {
      QuietLink(q, g, e.right, b);
      AssignLink(q, g, Refer(VisitExpr(e.right, b), e.id, e.sym, e.aop.Plain?), e.sym, site, true);
    } else {
      var b1 := Refer(b, e.id, e.sym, false);
      var b2 := Branch(b1, b.flow, AssignTest(e), e.aop == AndAssign);
      var b3 := VisitExpr(e.right, b2);
      var b4 := AssignFlow(b3, e.sym, site, false, true);
      var b5 := Branch(b4, b.flow, AssignTest(e), e.aop != AndAssign);
      JoinLink(q, g, b5, b5.flow, b4.flow);
      BranchLink(q, g, b4, b.flow, AssignTest(e), e.aop != AndAssign);
    }
  }
}
