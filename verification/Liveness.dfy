// What a visit leaves alone: the predecessors of every label nothing waits at, and everything where control
// does not arrive.
module Liveness {
  import opened Syntax
  import opened FlowGraph
  import opened Visit

  // ----- what a visit leaves alone -----

  predicate Claimed(g: Binding, l: nat) {
    Antecedents(g, l) != []
  }

  // A label added now has no predecessors yet.
  ghost predicate Fresh(b: Builder) {
    b.g.nodes != [] && forall l: nat {:trigger Claimed(b.g, l)} {:trigger Antecedents(b.g, l)} :: l >= |b.g.nodes| ==> !Claimed(b.g, l)
  }

  // And the labels waited for are in the graph.
  ghost predicate Sane(b: Builder) {
    && Fresh(b)
    && (forall i :: 0 <= i < |b.jumps| ==> b.jumps[i].breakTo < |b.g.nodes| && b.jumps[i].continueTo < |b.g.nodes|)
    && (forall l :: l in b.exceptionTargets ==> l < |b.g.nodes|)
  }

  ghost predicate SameAt(g: Binding, h: Binding, l: nat) {
    Antecedents(h, l) == Antecedents(g, l)
  }

  predicate Around(b: Builder, r: Builder) {
    |b.g.nodes| <= |r.g.nodes| && r.jumps == b.jumps && r.exceptionTargets == b.exceptionTargets
  }

  // Labels there were keep their predecessors, but for those open tries wait at.
  ghost predicate Calm(b: Builder, r: Builder) {
    && Sane(r) && Around(b, r)
    && (r.flow == Dead <==> b.flow == Dead)
    && forall l: nat :: 0 < l < |b.g.nodes| && (b.flow == Dead || l !in b.exceptionTargets) ==> SameAt(b.g, r.g, l)
  }

  lemma CalmOn(a: Builder, b: Builder, c: Builder)
    requires Calm(a, b) && Calm(b, c)
    ensures Calm(a, c)
  {
    forall l: nat | 0 < l < |a.g.nodes| && (a.flow == Dead || l !in a.exceptionTargets) ensures SameAt(a.g, c.g, l) {
      assert SameAt(a.g, b.g, l) && SameAt(b.g, c.g, l);
    }
  }

  lemma CalmChains()
    ensures forall a, b, c {:trigger Calm(a, b), Calm(b, c)} :: Calm(a, b) && Calm(b, c) ==> Calm(a, c)
  {
    forall a, b, c | Calm(a, b) && Calm(b, c) ensures Calm(a, c) { CalmOn(a, b, c); }
  }

  // Adding nodes but no predecessors.
  lemma NodesCalm(b: Builder, r: Builder)
    requires Sane(b) && Around(b, r) && r.g.antecedents == b.g.antecedents && (r.flow == Dead <==> b.flow == Dead)
    ensures Calm(b, r)
  {
    assert forall l: nat :: SameAt(b.g, r.g, l) && (Claimed(r.g, l) <==> Claimed(b.g, l));
  }

  // One label gains a predecessor, if it is reached.
  lemma OneAttached(b: Builder, l0: nat, f: nat)
    requires Sane(b) && l0 < |b.g.nodes|
    ensures var r := AddAntecedent(b, l0, f);
      && Sane(r) && (Claimed(r.g, l0) <==> Claimed(b.g, l0) || f != Dead)
      && forall l: nat :: l != l0 ==> SameAt(b.g, r.g, l)
  {
    var r := AddAntecedent(b, l0, f);
    assert forall l: nat :: l != l0 ==> SameAt(b.g, r.g, l) && (Claimed(r.g, l) <==> Claimed(b.g, l));
  }

  lemma {:induction false} AttachCalm(b: Builder, ls: seq<nat>, f: nat)
    requires Sane(b) && (forall l :: l in ls ==> l < |b.g.nodes|)
    ensures var r := AddAntecedentToAll(b, ls, f);
      Sane(r) && forall l: nat :: l !in ls ==> SameAt(b.g, r.g, l)
    decreases |ls|
  {
    if ls != [] {
      var c := AddAntecedent(b, ls[0], f);
      assert ls[0] in ls && forall l :: l in ls[1..] ==> l in ls;
      OneAttached(b, ls[0], f);
      AttachCalm(c, ls[1..], f);
      forall l: nat | l !in ls ensures SameAt(b.g, AddAntecedentToAll(b, ls, f).g, l) {
        assert l != ls[0] && SameAt(b.g, c.g, l);
      }
    }
  }

  lemma AssignCalm(b: Builder, x: Symbol, site: Site, init: bool, assign: bool)
    requires Sane(b)
    ensures Calm(b, AssignFlow(b, x, site, init, assign))
  {
    var b1 := NoteForeign(b, x);
    NodesCalm(b, b1);
    if b1.flow != Dead {
      var b2 := Step(b1, Assignment(b1.flow, x, site, init, assign));
      NodesCalm(b1, b2);
      AttachCalm(b2, b2.exceptionTargets, b2.flow);
      var r := AddAntecedentToAll(b2, b2.exceptionTargets, b2.flow);
      forall l: nat | 0 < l < |b.g.nodes| && l !in b.exceptionTargets ensures SameAt(b.g, r.g, l) {
        assert SameAt(b.g, b2.g, l) by { assert SameAt(b.g, b1.g, l) && SameAt(b1.g, b2.g, l); }
        assert SameAt(b2.g, r.g, l);
      }
    }
  }

  // Where two paths meet is reached when either is.
  lemma JoinCalm(b: Builder, f1: nat, f2: nat)
    requires Sane(b)
    ensures var r := Join(b, f1, f2);
      && Sane(r) && Around(b, r) && (r.flow == Dead <==> f1 == Dead && f2 == Dead)
      && forall l: nat :: 0 < l < |b.g.nodes| ==> SameAt(b.g, r.g, l)
  {
    var l0 := |b.g.nodes|;
    var b1 := Add(b, BranchLabel);
    NodesCalm(b, b1);
    var b2 := AddAntecedent(b1, l0, f1);
    OneAttached(b1, l0, f1);
    OneAttached(b2, l0, f2);
    var b3 := AddAntecedent(b2, l0, f2);
    assert !Claimed(b.g, l0) && !Claimed(b1.g, l0);
    forall l: nat | 0 < l < |b.g.nodes| ensures SameAt(b.g, b3.g, l) { assert SameAt(b.g, b1.g, l) && SameAt(b1.g, b2.g, l) && SameAt(b2.g, b3.g, l); }
  }

  lemma {:induction false} ExprCalm(e: Expr, b: Builder)
    requires Sane(b)
    ensures Calm(b, VisitExpr(e, b))
    decreases e, 3
  {
    CalmChains();
    hide Extends, Grows, Visited, Sane, Calm, VisitLogical, VisitConditional, VisitAssign, VisitFunction, AssignFlow;
    CalmItself(b);
    match e
    case NoExpr =>
    case Literal(_) =>
    case Name(id, x) => NodesCalm(b, Refer(b, id, x, false));
    case Not(a) => ExprCalm(a, b);
    case TypeOf(a) => ExprCalm(a, b);
    case Binary(_, l, r) => PairCalm(e, l, r, b);
    case Logical(_, _, _) => LogicalCalm(e, b);
    case Conditional(_, _, _) => ConditionalCalm(e, b);
    case Assign(_, _, _, _) => AssignmentCalm(e, b);
    case Update(id, x) =>
      NodesCalm(b, Refer(b, id, x, false));
      CalmSane(b, Refer(b, id, x, false));
      AssignCalm(Refer(b, id, x, false), x, OtherSite, false, true);
    case Member(o) => ExprCalm(o, b);
    case SetMember(o, r) => MarkedCalm(e, o, r, b);
    case Call(c, a) => MarkedCalm(e, c, a, b);
    case Comma(l, r) => PairCalm(e, l, r, b);
    case Opaque(a) => ExprCalm(a, b);
    case Closure(f, body) => ClosureCalm(f, body, b);
  }

  lemma {:induction false} LogicalCalm(e: Expr, b: Builder)
    requires e.Logical? && Sane(b)
    ensures Calm(b, VisitLogical(e, b))
    decreases e, 1
  {
    hide Extends, Grows, Visited, Sane, Calm, VisitExpr, Branch, Join;
    var b1 := VisitExpr(e.left, b);
    ExprCalm(e.left, b);
    CalmSane(b, b1);
    if e.lop == Nullish {
      ExprCalm(e.right, b1);
      var b2 := VisitExpr(e.right, b1);
      CalmSane(b1, b2);
      CalmOn(b, b1, b2);
      JoinsCalm(b, b2, b1.flow, b2.flow);
    } else {
      BranchCalm(b1, b1.flow, e.left, e.lop == And);
      var b2 := Branch(b1, b1.flow, e.left, e.lop == And);
      BranchCalm(b2, b1.flow, e.left, e.lop != And);
      var b3 := Branch(b2, b1.flow, e.left, e.lop != And);
      CalmSane(b2, b3.(flow := b2.flow));
      var b4 := VisitExpr(e.right, b3.(flow := b2.flow));
      ExprCalm(e.right, b3.(flow := b2.flow));
      CalmOn(b, b1, b2);
      CalmOn(b, b2, b3.(flow := b2.flow));
      CalmOn(b, b3.(flow := b2.flow), b4);
      CalmSane(b, b4);
      JoinsCalm(b, b4, b3.flow, b4.flow);
    }
  }

  // A branch off a flow that is live when the current one is.
  lemma BranchCalm(b: Builder, f: nat, test: Expr, truthy: bool)
    requires Sane(b) && (f == Dead <==> b.flow == Dead)
    ensures var r := Branch(b, f, test, truthy);
      && Calm(b, r) && Sane(r) && (r.flow == Dead <==> b.flow == Dead)
      && forall g: nat :: (g == Dead <==> b.flow == Dead) ==> Calm(b, r.(flow := g))
  {
    var r := Branch(b, f, test, truthy);
    NodesCalm(b, r);
    forall g: nat | g == Dead <==> b.flow == Dead ensures Calm(b, r.(flow := g)) { NodesCalm(b, r.(flow := g)); }
  }

  // Two paths meet that are live together.
  lemma JoinsCalm(b: Builder, r: Builder, f1: nat, f2: nat)
    requires Calm(b, r) && (f1 == Dead <==> b.flow == Dead) && (f2 == Dead <==> b.flow == Dead)
    ensures Calm(b, Join(r, f1, f2))
  {
    JoinCalm(r, f1, f2);
    var j := Join(r, f1, f2);
    forall l: nat | 0 < l < |b.g.nodes| && (b.flow == Dead || l !in b.exceptionTargets) ensures SameAt(b.g, j.g, l) {
      assert SameAt(b.g, r.g, l) && SameAt(r.g, j.g, l);
    }
  }

  lemma CalmItself(b: Builder)
    requires Sane(b)
    ensures Calm(b, b)
  {
  }

  lemma CalmSane(b: Builder, r: Builder)
    requires Calm(b, r)
    ensures Sane(r) && (r.flow == Dead <==> b.flow == Dead)
  {
  }

  lemma {:induction false} PairCalm(whole: Expr, e: Expr, f: Expr, b: Builder)
    requires e < whole && f < whole && Sane(b)
    ensures Calm(b, VisitExpr(f, VisitExpr(e, b)))
    decreases whole, 1
  {
    hide Extends, Grows, Visited, Sane, Calm, VisitExpr;
    var b1 := VisitExpr(e, b);
    ExprCalm(e, b);
    CalmSane(b, b1);
    ExprCalm(f, b1);
    CalmOn(b, b1, VisitExpr(f, b1));
  }

  lemma StepCalm(b: Builder, n: FlowNode)
    requires Sane(b) && b.flow != Dead
    ensures Calm(b, Step(b, n))
  {
    NodesCalm(b, Step(b, n));
  }

  lemma {:induction false} MarkedCalm(whole: Expr, e: Expr, f: Expr, b: Builder)
    requires (whole == Call(e, f) || whole == SetMember(e, f)) && Sane(b)
    ensures Calm(b, VisitExpr(whole, b))
    decreases whole, 2
  {
    hide Extends, Grows, Visited, Sane, Calm;
    var b1 := VisitExpr(f, VisitExpr(e, b));
    PairCalm(whole, e, f, b);
    CalmSane(b, b1);
    var r := VisitExpr(whole, b);
    if r != b1 {
      var n := if whole.Call? then CallFlow(b1.flow) else PropertyAssignment(b1.flow);
      assert r == Step(b1, n);
      hide VisitExpr, Step;
      StepCalm(b1, n);
      CalmOn(b, b1, r);
    }
  }

  lemma {:induction false} ConditionalCalm(e: Expr, b: Builder)
    requires e.Conditional? && Sane(b)
    ensures Calm(b, VisitConditional(e, b))
    decreases e, 1
  {
    hide Extends, Grows, Visited, Sane, Calm, VisitExpr, Branch, Join;
    var b1 := VisitExpr(e.test, b);
    ExprCalm(e.test, b);
    CalmSane(b, b1);
    BranchCalm(b1, b1.flow, e.test, true);
    var b2 := Branch(b1, b1.flow, e.test, true);
    var b3 := VisitExpr(e.yes, b2);
    ExprCalm(e.yes, b2);
    CalmSane(b2, b3);
    BranchCalm(b3, b1.flow, e.test, false);
    var b4 := Branch(b3, b1.flow, e.test, false);
    var b5 := VisitExpr(e.no, b4);
    ExprCalm(e.no, b4);
    CalmSane(b4, b5);
    CalmOn(b, b1, b2);
    CalmOn(b, b2, b3);
    CalmOn(b, b3, b4);
    CalmOn(b, b4, b5);
    JoinsCalm(b, b5, b3.flow, b5.flow);
  }

  lemma {:induction false} AssignmentCalm(e: Expr, b: Builder)
    requires e.Assign? && Sane(b)
    ensures Calm(b, VisitAssign(e, b))
    decreases e, 1
  {
    hide Extends, Grows, Visited, Sane, Calm, VisitExpr, Branch, Join, AssignFlow;
    var site := AssignmentSite(e.id, e.aop);
    if e.aop == Plain || e.aop == Compound {
      var b1 := VisitExpr(e.right, b);
      ExprCalm(e.right, b);
      CalmSane(b, b1);
      var b2 := Refer(b1, e.id, e.sym, e.aop == Plain);
      ReferCalm(b1, e.id, e.sym, e.aop == Plain);
      CalmSane(b1, b2);
      AssignCalm(b2, e.sym, site, false, true);
      CalmOn(b, b1, b2);
      CalmOn(b, b2, AssignFlow(b2, e.sym, site, false, true));
    } else {
      var stores := e.aop == AndAssign;
      var b1 := Refer(b, e.id, e.sym, false);
      ReferCalm(b, e.id, e.sym, false);
      CalmSane(b, b1);
      BranchCalm(b1, b.flow, AssignTest(e), stores);
      var b2 := Branch(b1, b.flow, AssignTest(e), stores);
      var b3 := VisitExpr(e.right, b2);
      ExprCalm(e.right, b2);
      CalmSane(b2, b3);
      var b4 := AssignFlow(b3, e.sym, site, false, true);
      AssignCalm(b3, e.sym, site, false, true);
      CalmSane(b3, b4);
      BranchCalm(b4, b.flow, AssignTest(e), !stores);
      var b5 := Branch(b4, b.flow, AssignTest(e), !stores);
      CalmOn(b, b1, b2);
      CalmOn(b, b2, b3);
      CalmOn(b, b3, b4);
      CalmOn(b, b4, b5);
      JoinsCalm(b, b5, b5.flow, b4.flow);
    }
  }

  lemma ReferCalm(b: Builder, id: nat, x: Symbol, written: bool)
    requires Sane(b)
    ensures Calm(b, Refer(b, id, x, written))
  {
    NodesCalm(b, Refer(b, id, x, written));
  }

  lemma {:induction false} ClosureCalm(f: Scope, body: Stmt, b: Builder)
    requires Sane(b)
    ensures Calm(b, VisitExpr(Closure(f, body), b))
    decreases body, 4
  {
    hide Extends, Grows, Visited;
    var b1 := EnterFunction(f, b);
    assert forall l: nat :: Claimed(b1.g, l) <==> Claimed(b.g, l);
    StmtKeeps(body, b1);
    var r := VisitExpr(Closure(f, body), b);
    FunctionVisited(f, body, b);
    hide VisitStmt, VisitExpr, VisitFunction;
    assert forall l: nat :: SameAt(VisitStmt(body, b1).g, r.g, l) && (Claimed(VisitStmt(body, b1).g, l) <==> Claimed(r.g, l));
    forall l: nat | 0 < l < |b.g.nodes| ensures SameAt(b.g, r.g, l) {
      assert SameAt(b.g, b1.g, l) && !Reserved(b1, l) && SameAt(b1.g, VisitStmt(body, b1).g, l);
    }
  }

  lemma FunctionVisited(f: Scope, body: Stmt, b: Builder)
    ensures var r := VisitExpr(Closure(f, body), b); var r1 := VisitStmt(body, EnterFunction(f, b));
      r.g.antecedents == r1.g.antecedents && r.g.nodes == r1.g.nodes && r == b.(g := r.g, pendingLabel := r.pendingLabel)
  {
    hide Extends, Grows, Visited, VisitStmt;
  }

  // ----- statements -----

  // A label something waits at: an open try, or what a jump can go to.
  predicate Reserved(b: Builder, l: nat) {
    l in b.exceptionTargets || exists i :: 0 <= i < |b.jumps| && (b.jumps[i].breakTo == l || b.jumps[i].continueTo == l)
  }

  // No loop but inside its functions.
  predicate Loopless(s: Stmt) {
    match s
    case Then(a, r) => Loopless(a) && Loopless(r)
    case Block(_, body) => Loopless(body)
    case If(_, y, n) => Loopless(y) && Loopless(n)
    case Labeled(_, body) => Loopless(body)
    case Switch(_, _, cases) => LooplessCases(cases)
    case Try(_, block, handler, finalizer) =>
      Loopless(block) && (handler.Catch? ==> Loopless(handler.body)) && (finalizer.Finally? ==> Loopless(finalizer.body))
    case _ => !IsLoop(s)
  }

  predicate LooplessCases(cases: Cases) {
    cases.Case? ==> Loopless(cases.body) && LooplessCases(cases.rest)
  }

  // The labels there were keep their predecessors, all of them or those nothing waits at.
  ghost predicate Kept(b: Builder, r: Builder, all: bool) {
    |b.g.nodes| <= |r.g.nodes| && forall l: nat :: 0 < l < |b.g.nodes| && (all || !Reserved(b, l)) ==> SameAt(b.g, r.g, l)
  }

  // A statement gives back what it found, and leaves alone the labels nothing waits at; where nothing
  // reaches it, and it has no loop, it leaves everything alone.
  ghost predicate Keeps(b: Builder, r: Builder, loopless: bool) {
    && Sane(r) && Around(b, r)
    && Kept(b, r, b.flow == Dead && loopless)
    && (b.flow == Dead && loopless ==> r.flow == Dead)
  }

  // The state m a visit that began in b has come to: it has left alone what it must.
  ghost predicate Stands(b: Builder, m: Builder, all: bool) {
    Sane(m) && Around(b, m) && Kept(b, m, all)
  }

  lemma StandsItself(b: Builder, all: bool)
    requires Sane(b)
    ensures Stands(b, b, all)
  {
  }

  lemma StandsCalm(b: Builder, m: Builder, r: Builder, all: bool)
    requires Stands(b, m, all) && Calm(m, r) && (all ==> m.flow == Dead)
    ensures Stands(b, r, all) && (all ==> r.flow == Dead)
  {
    forall l: nat | 0 < l < |b.g.nodes| && (all || !Reserved(b, l)) ensures SameAt(b.g, r.g, l) {
      assert SameAt(b.g, m.g, l) && SameAt(m.g, r.g, l);
    }
  }

  lemma StandsVisit(b: Builder, m: Builder, r: Builder, all: bool, loopless: bool)
    requires Stands(b, m, all) && Keeps(m, r, loopless) && (all ==> loopless && m.flow == Dead)
    ensures Stands(b, r, all) && (all ==> r.flow == Dead)
  {
    forall l: nat | 0 < l < |b.g.nodes| && (all || !Reserved(b, l)) ensures SameAt(b.g, r.g, l) {
      assert Reserved(m, l) ==> Reserved(b, l);
      assert SameAt(b.g, m.g, l) && SameAt(m.g, r.g, l);
    }
  }

  // Nodes added, or the flow moved.
  lemma StandsNodes(b: Builder, m: Builder, r: Builder, all: bool)
    requires Stands(b, m, all) && r.g.antecedents == m.g.antecedents && Around(m, r)
    ensures Stands(b, r, all)
  {
    assert forall l: nat :: SameAt(m.g, r.g, l) && (Claimed(r.g, l) <==> Claimed(m.g, l));
    forall l: nat | 0 < l < |b.g.nodes| && (all || !Reserved(b, l)) ensures SameAt(b.g, r.g, l) {
      assert SameAt(b.g, m.g, l) && SameAt(m.g, r.g, l);
    }
  }

  lemma ScopeStands(b: Builder, m: Builder, s: Scope, all: bool)
    requires Stands(b, m, all)
    ensures Stands(b, StartScope(m, s), all) && (StartScope(m, s).flow == Dead <==> m.flow == Dead)
    ensures |m.g.nodes| <= |StartScope(m, s).g.nodes|
  {
    StandsNodes(b, m, StartScope(m, s), all);
  }

  lemma BranchStands(b: Builder, m: Builder, f: nat, test: Expr, truthy: bool, all: bool)
    requires Stands(b, m, all)
    ensures Stands(b, Branch(m, f, test, truthy), all) && (Branch(m, f, test, truthy).flow == Dead <==> f == Dead)
  {
    StandsNodes(b, m, Branch(m, f, test, truthy), all);
  }

  lemma StandsExpr(b: Builder, m: Builder, e: Expr, all: bool)
    requires Stands(b, m, all) && (all ==> m.flow == Dead)
    ensures Stands(b, VisitExpr(e, m), all) && (VisitExpr(e, m).flow == Dead <==> m.flow == Dead)
    decreases e, 4
  {
    hide VisitExpr;
    ExprCalm(e, m);
    StandsCalm(b, m, VisitExpr(e, m), all);
  }

  lemma StandsStmt(b: Builder, m: Builder, s: Stmt, all: bool)
    requires Stands(b, m, all) && (all ==> Loopless(s) && m.flow == Dead)
    ensures Stands(b, VisitStmt(s, m), all) && (all ==> VisitStmt(s, m).flow == Dead)
    decreases s, 4
  {
    hide VisitStmt;
    StmtKeeps(s, m);
    StandsVisit(b, m, VisitStmt(s, m), all, Loopless(s));
  }

  lemma StandsAttach(b: Builder, m: Builder, l0: nat, f: nat, all: bool)
    requires Stands(b, m, all) && l0 < |m.g.nodes| && (l0 < |b.g.nodes| ==> if all then f == Dead else Reserved(b, l0))
    ensures Stands(b, AddAntecedent(m, l0, f), all)
    ensures Claimed(AddAntecedent(m, l0, f).g, l0) <==> Claimed(m.g, l0) || f != Dead
    ensures forall l: nat :: l != l0 ==> SameAt(m.g, AddAntecedent(m, l0, f).g, l)
  {
    var r := AddAntecedent(m, l0, f);
    OneAttached(m, l0, f);
    forall l: nat | 0 < l < |b.g.nodes| && (all || !Reserved(b, l)) ensures SameAt(b.g, r.g, l) {
      assert SameAt(b.g, m.g, l);
      if l != l0 { assert SameAt(m.g, r.g, l); }
    }
  }

  lemma StandsJoin(b: Builder, m: Builder, f1: nat, f2: nat, all: bool)
    requires Stands(b, m, all)
    ensures Stands(b, Join(m, f1, f2), all) && (Join(m, f1, f2).flow == Dead <==> f1 == Dead && f2 == Dead)
  {
    JoinCalm(m, f1, f2);
    forall l: nat | 0 < l < |b.g.nodes| && (all || !Reserved(b, l)) ensures SameAt(b.g, Join(m, f1, f2).g, l) {
      assert SameAt(b.g, m.g, l) && SameAt(m.g, Join(m, f1, f2).g, l);
    }
  }

  lemma {:induction false} StmtKeeps(s: Stmt, b: Builder)
    requires Sane(b)
    ensures Keeps(b, VisitStmt(s, b), Loopless(s))
    decreases s, 3
  {
    hide Extends, Grows, Visited, Sane, Calm, Kept, StartScope, VisitExpr, VisitDeclare, VisitIf, VisitWhile, VisitDoWhile, VisitFor, VisitForOf, VisitLabeled, VisitJump, VisitSwitch, VisitTry;
    var all := b.flow == Dead && Loopless(s);
    StandsItself(b, all);
    match s
    case Empty =>
    case Then(a, r) =>
      var b1 := VisitStmt(a, b);
      StmtKeeps(a, b);
      StandsVisit(b, b, b1, all, Loopless(a));
      StmtKeeps(r, b1);
      StandsVisit(b, b1, VisitStmt(r, b1), all, Loopless(r));
    case Declare(_, _, _, _) => DeclareKeeps(s, b);
    case Evaluate(e) => EndsKeeps(e, b, all);
    case Block(scope, body) =>
      ScopeStands(b, b, scope, all);
      StmtKeeps(body, StartScope(b, scope));
      StandsVisit(b, StartScope(b, scope), VisitStmt(body, StartScope(b, scope)), all, Loopless(body));
    case If(_, _, _) => IfKeeps(s, b);
    case While(_, _) => WhileKeeps(s, b);
    case DoWhile(_, _) => DoWhileKeeps(s, b);
    case For(_, _, _, _, _) => ForKeeps(s, b);
    case ForOf(_, _, _, _, _) => ForOfKeeps(s, b);
    case Labeled(_, _) => LabeledKeeps(s, b);
    case Break(tag) => JumpKeeps(tag, false, b);
    case Continue(tag) => JumpKeeps(tag, true, b);
    case Return(e) => EndsKeeps(e, b, all);
    case Throw(e) => EndsKeeps(e, b, all);
    case Switch(_, _, _) => SwitchKeeps(s, b);
    case Try(_, _, _, _) => TryKeeps(s, b);
  }

  // An expression, after which nothing may follow.
  lemma EndsKeeps(e: Expr, b: Builder, all: bool)
    requires Sane(b) && (all ==> b.flow == Dead)
    ensures var r := VisitExpr(e, b);
      && Stands(b, r, all) && Stands(b, r.(flow := Dead), all) && (r.flow == Dead <==> b.flow == Dead)
    decreases e, 4
  {
    hide Extends, Grows, Visited, Sane, Calm, Kept, VisitExpr;
    ExprCalm(e, b);
    CalmSane(b, VisitExpr(e, b));
    StandsItself(b, all);
    StandsCalm(b, b, VisitExpr(e, b), all);
    StandsNodes(b, VisitExpr(e, b), VisitExpr(e, b).(flow := Dead), all);
  }


  lemma {:induction false} DeclareKeeps(s: Stmt, b: Builder)
    requires s.Declare? && Sane(b)
    ensures Keeps(b, VisitDeclare(s, b), true)
    decreases s, 0
  {
    hide Extends, Grows, Visited, Sane, Calm, VisitExpr, AssignFlow;
    var b1 := VisitExpr(s.init, b);
    ExprCalm(s.init, b);
    CalmSane(b, b1);
    var site := DeclarationSite(s.id, s.init != NoExpr);
    AssignCalm(b1, s.sym, site, true, s.init != NoExpr);
    AssignCalm(b1, s.sym, site, false, true);
    CalmOn(b, b1, AssignFlow(b1, s.sym, site, true, s.init != NoExpr));
    CalmOn(b, b1, AssignFlow(b1, s.sym, site, false, true));
    CalmKeeps(b, VisitDeclare(s, b));
  }

  lemma CalmKeeps(b: Builder, r: Builder)
    requires Calm(b, r)
    ensures Keeps(b, r, true) && Keeps(b, r, false)
  {
  }

  lemma {:induction false} IfKeeps(s: Stmt, b: Builder)
    requires s.If? && Sane(b)
    ensures Keeps(b, VisitIf(s, b), Loopless(s))
    decreases s, 0
  {
    hide Extends, Grows, Visited, Sane, Calm, Kept, Stands, VisitExpr, VisitStmt, Branch, Join;
    var all := b.flow == Dead && Loopless(s);
    var b1 := VisitExpr(s.test, b);
    var b2 := Branch(b1, b1.flow, s.test, true);
    var b3 := VisitStmt(s.yes, b2);
    var b4 := Branch(b3, b1.flow, s.test, false);
    var b5 := VisitStmt(s.no, b4);
    StandsItself(b, all);
    StandsExpr(b, b, s.test, all);
    BranchStands(b, b1, b1.flow, s.test, true, all);
    StandsStmt(b, b2, s.yes, all);
    BranchStands(b, b3, b1.flow, s.test, false, all);
    StandsStmt(b, b4, s.no, all);
    StandsJoin(b, b5, b3.flow, b5.flow, all);
    StandsKeeps(b, VisitIf(s, b), Loopless(s));
  }

  lemma StandsKeeps(b: Builder, r: Builder, loopless: bool)
    requires Stands(b, r, b.flow == Dead && loopless) && (b.flow == Dead && loopless ==> r.flow == Dead)
    ensures Keeps(b, r, loopless)
  {
  }

  // ----- loops -----

  lemma AddStands(b: Builder, m: Builder, n: FlowNode, all: bool)
    requires Stands(b, m, all)
    ensures Stands(b, Add(m, n), all) && !Claimed(Add(m, n).g, |m.g.nodes|)
  {
    StandsNodes(b, m, Add(m, n), all);
    assert !Claimed(m.g, |m.g.nodes|) && Add(m, n).g.antecedents == m.g.antecedents;
  }

  lemma FlowStands(b: Builder, m: Builder, f: nat, all: bool)
    requires Stands(b, m, all)
    ensures Stands(b, m.(flow := f), all)
  {
    StandsNodes(b, m, m.(flow := f), all);
  }

  lemma TestStands(b: Builder, m: Builder, test: Expr, exit: nat)
    requires Stands(b, m, false) && |b.g.nodes| <= exit < |m.g.nodes|
    ensures Stands(b, LoopTest(m, test, exit), false)
  {
    hide Stands, Branch, AddAntecedent;
    if AlwaysTrue(test) {
      BranchStands(b, m, m.flow, test, true, false);
    } else {
      var c := Branch(m, m.flow, test, false);
      BranchStands(b, m, m.flow, test, false, false);
      StandsAttach(b, c, exit, c.flow, false);
      BranchStands(b, AddAntecedent(c, exit, c.flow), m.flow, test, true, false);
    }
  }

  // A body with a target of its own, at labels added since.
  lemma TargetStands(b: Builder, m: Builder, body: Stmt, t: JumpTarget, pending: string, all: bool)
    requires Stands(b, m, all) && (all ==> Loopless(body) && m.flow == Dead)
    requires |b.g.nodes| <= t.breakTo < |m.g.nodes| && (|b.g.nodes| <= t.continueTo < |m.g.nodes| || t.continueTo == Dead)
    ensures var r := VisitStmt(body, m.(jumps := m.jumps + [t], pendingLabel := pending));
      && Stands(b, r.(jumps := m.jumps), all)
      && (all ==> r.flow == Dead && forall l: nat :: 0 < l < |m.g.nodes| ==> SameAt(m.g, r.g, l))
    decreases body, 5
  {
    hide VisitStmt, Stands, Kept, Sane, Keeps;
    StandsSize(b, m, all);
    var c := m.(jumps := m.jumps + [t], pendingLabel := pending);
    var r := VisitStmt(body, c);
    PushedSane(b, m, t, c, all);
    StandsItself(c, all);
    StandsStmt(c, c, body, all);
    PoppedStands(b, m, t, c, r, all);
  }

  lemma {:induction false} WhileKeeps(s: Stmt, b: Builder)
    requires s.While? && Sane(b)
    ensures Keeps(b, VisitWhile(s, b), false)
    decreases s, 0
  {
    hide Extends, Grows, Visited, Sane, Calm, Kept, Stands, VisitExpr, VisitStmt, LoopTest, AddAntecedent, Finish;
    var loop := |b.g.nodes|;
    StandsItself(b, false);
    AddStands(b, b, LoopLabel, false);
    StandsAttach(b, Add(b, LoopLabel), loop, b.flow, false);
    var b1 := AddAntecedent(Add(b, LoopLabel), loop, b.flow);
    FlowStands(b, b1, loop, false);
    StandsExpr(b, b1.(flow := loop), s.test, false);
    var b2 := VisitExpr(s.test, b1.(flow := loop));
    var exit := |b2.g.nodes|;
    AddStands(b, b2, BranchLabel, false);
    StandsSize(b, b2, false);
    TestStands(b, Add(b2, BranchLabel), s.test, exit);
    LoopTestAdds(Add(b2, BranchLabel), s.test, exit);
    var b3 := LoopTest(Add(b2, BranchLabel), s.test, exit);
    var t := JumpTarget(b3.pendingLabel, exit, loop, false);
    TargetStands(b, b3, s.body, t, "", false);
    var b4 := VisitLoopBody(s.body, b3, exit, loop);
    StmtGrows(s.body, b3.(jumps := b3.jumps + [t], pendingLabel := ""));
    StandsAttach(b, b4, loop, b4.flow, false);
    FlowStands(b, AddAntecedent(b4, loop, b4.flow), Finish(AddAntecedent(b4, loop, b4.flow).g, exit), false);
    StandsKeeps(b, VisitWhile(s, b), false);
  }

  lemma StandsSize(b: Builder, m: Builder, all: bool)
    requires Stands(b, m, all)
    ensures |b.g.nodes| <= |m.g.nodes| && 0 < |m.g.nodes| && m.jumps == b.jumps && m.exceptionTargets == b.exceptionTargets
  {
  }

  lemma LoopTestAdds(m: Builder, test: Expr, exit: nat)
    ensures var r := LoopTest(m, test, exit); |m.g.nodes| <= |r.g.nodes| && r.jumps == m.jumps && r.pendingLabel == m.pendingLabel
  {
  }

  lemma StmtGrows(s: Stmt, b: Builder)
    ensures |b.g.nodes| <= |VisitStmt(s, b).g.nodes|
  {
    hide VisitStmt;
  }

  lemma {:induction false} DoWhileKeeps(s: Stmt, b: Builder)
    requires s.DoWhile? && Sane(b)
    ensures Keeps(b, VisitDoWhile(s, b), false)
    decreases s, 0
  {
    hide Extends, Grows, Visited, Sane, Calm, Kept, Stands, VisitExpr, VisitStmt, LoopEnd, AddAntecedent, Finish;
    var loop := |b.g.nodes|;
    StandsItself(b, false);
    AddStands(b, b, LoopLabel, false);
    StandsAttach(b, Add(b, LoopLabel), loop, b.flow, false);
    var b1 := AddAntecedent(Add(b, LoopLabel), loop, b.flow);
    var exit := |b1.g.nodes|;
    AddStands(b, b1, BranchLabel, false);
    AddStands(b, Add(b1, BranchLabel), BranchLabel, false);
    var b2 := Add(Add(b1, BranchLabel), BranchLabel).(flow := loop);
    FlowStands(b, Add(Add(b1, BranchLabel), BranchLabel), loop, false);
    var t := JumpTarget(b2.pendingLabel, exit, exit + 1, false);
    TargetStands(b, b2, s.body, t, "", false);
    var b3 := VisitLoopBody(s.body, b2, exit, exit + 1);
    StmtGrows(s.body, b2.(jumps := b2.jumps + [t], pendingLabel := ""));
    StandsAttach(b, b3, exit + 1, b3.flow, false);
    var b4 := AddAntecedent(b3, exit + 1, b3.flow);
    FlowStands(b, b4, Finish(b4.g, exit + 1), false);
    EndStands(b, Resume(b4, exit + 1), s.test, loop, exit);
    var b5 := LoopEnd(s.test, Resume(b4, exit + 1), loop, exit);
    FlowStands(b, b5, Finish(b5.g, exit), false);
    StandsKeeps(b, VisitDoWhile(s, b), false);
  }

  lemma EndStands(b: Builder, m: Builder, test: Expr, loop: nat, exit: nat)
    requires Stands(b, m, false) && |b.g.nodes| <= loop < |m.g.nodes| && |b.g.nodes| <= exit < |m.g.nodes|
    ensures Stands(b, LoopEnd(test, m, loop, exit), false)
    decreases test, 5
  {
    hide Extends, Grows, Visited, Stands, VisitExpr, Branch, AddAntecedent;
    StandsExpr(b, m, test, false);
    ExprGrows(test, m);
    var b1 := VisitExpr(test, m);
    BranchStands(b, b1, b1.flow, test, true, false);
    BranchGrows(b1, b1.flow, test, true);
    var b2 := Branch(b1, b1.flow, test, true);
    StandsAttach(b, b2, loop, b2.flow, false);
    var b3 := AddAntecedent(b2, loop, b2.flow);
    if !AlwaysTrue(test) {
      BranchStands(b, b3, b1.flow, test, false, false);
      BranchGrows(b3, b1.flow, test, false);
      var c := Branch(b3, b1.flow, test, false);
      StandsAttach(b, c, exit, c.flow, false);
    }
  }

  lemma ExprGrows(e: Expr, b: Builder)
    ensures |b.g.nodes| <= |VisitExpr(e, b).g.nodes|
  {
    hide VisitExpr;
  }

  lemma BranchGrows(b: Builder, f: nat, test: Expr, truthy: bool)
    ensures |b.g.nodes| <= |Branch(b, f, test, truthy).g.nodes|
  {
    hide Branch;
  }

  lemma {:induction false} ForKeeps(s: Stmt, b: Builder)
    requires s.For? && Sane(b)
    ensures Keeps(b, VisitFor(s, b), false)
    decreases s, 0
  {
    hide Extends, Grows, Visited, Sane, Calm, Kept, Stands, VisitExpr, VisitStmt, LoopTest, AddAntecedent, Finish, StartScope;
    StandsItself(b, false);
    ScopeStands(b, b, s.scope, false);
    var b0 := VisitStmt(s.start, StartScope(b, s.scope));
    StandsStmt(b, StartScope(b, s.scope), s.start, false);
    StandsSize(b, b0, false);
    var loop := |b0.g.nodes|;
    AddStands(b, b0, LoopLabel, false);
    StandsAttach(b, Add(b0, LoopLabel), loop, b0.flow, false);
    var b1 := AddAntecedent(Add(b0, LoopLabel), loop, b0.flow);
    FlowStands(b, b1, loop, false);
    StandsExpr(b, b1.(flow := loop), s.test, false);
    ExprGrows(s.test, b1.(flow := loop));
    var b2 := VisitExpr(s.test, b1.(flow := loop));
    var exit := |b2.g.nodes|;
    AddStands(b, b2, BranchLabel, false);
    TestStands(b, Add(b2, BranchLabel), s.test, exit);
    LoopTestAdds(Add(b2, BranchLabel), s.test, exit);
    var b3 := LoopTest(Add(b2, BranchLabel), s.test, exit);
    var next := |b3.g.nodes|;
    AddStands(b, b3, BranchLabel, false);
    var b4 := Add(b3, BranchLabel);
    var t := JumpTarget(b4.pendingLabel, exit, next, false);
    TargetStands(b, b4, s.body, t, "", false);
    StmtGrows(s.body, b4.(jumps := b4.jumps + [t], pendingLabel := ""));
    var b5 := VisitLoopBody(s.body, b4, exit, next);
    StandsAttach(b, b5, next, b5.flow, false);
    var b6 := AddAntecedent(b5, next, b5.flow);
    FlowStands(b, b6, Finish(b6.g, next), false);
    StandsExpr(b, Resume(b6, next), s.update, false);
    ExprGrows(s.update, Resume(b6, next));
    var b7 := VisitExpr(s.update, Resume(b6, next));
    StandsAttach(b, b7, loop, b7.flow, false);
    var b8 := AddAntecedent(b7, loop, b7.flow);
    FlowStands(b, b8, Finish(b8.g, exit), false);
    StandsKeeps(b, VisitFor(s, b), false);
  }

  lemma {:induction false} ForOfKeeps(s: Stmt, b: Builder)
    requires s.ForOf? && Sane(b)
    ensures Keeps(b, VisitForOf(s, b), false)
    decreases s, 0
  {
    hide Extends, Grows, Visited, Sane, Calm, Kept, Stands, VisitExpr, VisitStmt, AddAntecedent, Finish, StartScope, AssignFlow;
    StandsItself(b, false);
    StandsExpr(b, b, s.subject, false);
    var b0 := VisitExpr(s.subject, b);
    StandsSize(b, b0, false);
    var loop := |b0.g.nodes|;
    AddStands(b, b0, LoopLabel, false);
    StandsAttach(b, Add(b0, LoopLabel), loop, b0.flow, false);
    var b1 := AddAntecedent(Add(b0, LoopLabel), loop, b0.flow);
    var exit := |b1.g.nodes|;
    AddStands(b, b1, BranchLabel, false);
    StandsAttach(b, Add(b1, BranchLabel), exit, loop, false);
    var b2 := AddAntecedent(Add(b1, BranchLabel), exit, loop);
    FlowStands(b, b2, loop, false);
    ScopeStands(b, b2.(flow := loop), s.scope, false);
    var b3 := StartScope(b2.(flow := loop), s.scope);
    AssignStands(b, b3, s.sym, OtherSite, s.kind != Var, true, false);
    var b4 := AssignFlow(b3, s.sym, OtherSite, s.kind != Var, true);
    var t := JumpTarget(b4.pendingLabel, exit, loop, false);
    TargetStands(b, b4, s.body, t, "", false);
    StmtGrows(s.body, b4.(jumps := b4.jumps + [t], pendingLabel := ""));
    var b5 := VisitLoopBody(s.body, b4, exit, loop);
    StandsAttach(b, b5, loop, b5.flow, false);
    var b6 := AddAntecedent(b5, loop, b5.flow);
    FlowStands(b, b6, Finish(b6.g, exit), false);
    StandsKeeps(b, VisitForOf(s, b), false);
  }

  lemma AssignStands(b: Builder, m: Builder, x: Symbol, site: Site, init: bool, assign: bool, all: bool)
    requires Stands(b, m, all) && (all ==> m.flow == Dead)
    ensures Stands(b, AssignFlow(m, x, site, init, assign), all) && |m.g.nodes| <= |AssignFlow(m, x, site, init, assign).g.nodes|
    ensures AssignFlow(m, x, site, init, assign).flow == Dead <==> m.flow == Dead
  {
    hide AssignFlow;
    AssignCalm(m, x, site, init, assign);
    StandsCalm(b, m, AssignFlow(m, x, site, init, assign), all);
  }

  lemma {:induction false} LabeledKeeps(s: Stmt, b: Builder)
    requires s.Labeled? && Sane(b)
    ensures Keeps(b, VisitLabeled(s, b), Loopless(s))
    decreases s, 0
  {
    hide Extends, Grows, Visited, Calm, Kept, Stands, VisitStmt, AddAntecedent, Finish;
    if IsLoop(s.body) {
      StmtKeeps(s.body, b.(pendingLabel := s.tag));
      PendingKeeps(b, s.tag, VisitStmt(s.body, b.(pendingLabel := s.tag)), Loopless(s));
    } else {
      var all := b.flow == Dead && Loopless(s);
      var exit := |b.g.nodes|;
      StandsItself(b, all);
      AddStands(b, b, BranchLabel, all);
      var b1 := Add(b, BranchLabel);
      var t := JumpTarget(s.tag, exit, Dead, true);
      TargetStands(b, b1, s.body, t, b.pendingLabel, all);
      StmtGrows(s.body, b1.(jumps := b1.jumps + [t]));
      var b2 := VisitStmt(s.body, b1.(jumps := b1.jumps + [t])).(jumps := b.jumps);
      StandsAttach(b, b2, exit, b2.flow, all);
      var b3 := AddAntecedent(b2, exit, b2.flow);
      FlowStands(b, b3, Finish(b3.g, exit), all);
      if all {
        assert SameAt(b1.g, b2.g, exit);
        Unclaimed(b1, b2, b3, exit);
      }
      StandsKeeps(b, VisitLabeled(s, b), Loopless(s));
    }
  }

  // A label nothing was handed to.
  lemma Unclaimed(b: Builder, m: Builder, r: Builder, l: nat)
    requires !Claimed(b.g, l) && SameAt(b.g, m.g, l) && r == AddAntecedent(m, l, m.flow) && m.flow == Dead
    ensures Finish(r.g, l) == Dead
  {
  }

  lemma PendingKeeps(b: Builder, tag: string, r: Builder, loopless: bool)
    requires Keeps(b.(pendingLabel := tag), r, loopless)
    ensures Keeps(b, r, loopless)
  {
  }

  lemma JumpKeeps(tag: string, cont: bool, b: Builder)
    requires Sane(b)
    ensures Keeps(b, VisitJump(tag, cont, b), true)
  {
    hide Sane, Kept, Stands, AddAntecedent;
    var all := b.flow == Dead;
    var t := FindJump(b.jumps, tag, cont);
    StandsItself(b, all);
    FlowStands(b, b, Dead, all);
    if t.Some? {
      var l := if cont then t.value.continueTo else t.value.breakTo;
      TargetReserved(b, tag, cont);
      StandsAttach(b, b, l, b.flow, all);
      FlowStands(b, AddAntecedent(b, l, b.flow), Dead, all);
    }
    StandsKeeps(b, VisitJump(tag, cont, b), true);
  }

  lemma {:induction false} FoundIn(jumps: seq<JumpTarget>, tag: string, cont: bool)
    ensures var t := FindJump(jumps, tag, cont); t.Some? ==> t.value in jumps
    decreases |jumps|
  {
    if jumps != [] { FoundIn(jumps[..|jumps| - 1], tag, cont); }
  }

  lemma TargetReserved(b: Builder, tag: string, cont: bool)
    requires Sane(b) && FindJump(b.jumps, tag, cont).Some?
    ensures var t := FindJump(b.jumps, tag, cont).value;
      var l := if cont then t.continueTo else t.breakTo;
      l < |b.g.nodes| && Reserved(b, l)
  {
    FoundIn(b.jumps, tag, cont);
    var t := FindJump(b.jumps, tag, cont).value;
    var i :| 0 <= i < |b.jumps| && b.jumps[i] == t;
  }

  // ----- switch -----

  // The clauses, break going to exit.
  lemma {:induction false} CasesKeep(cases: Cases, clause: int, pre: nat, b: Builder, all: bool)
    requires Sane(b) && (all ==> LooplessCases(cases) && pre == Dead && b.flow == Dead)
    ensures var r := VisitCases(cases, clause, pre, b);
      Stands(b, r, all) && (all ==> r.flow == Dead)
    decreases cases, 1
  {
    hide Extends, Grows, Visited, Sane, Calm, Kept, Stands, VisitExpr, VisitStmt, EnterClause, Join;
    StandsItself(b, all);
    if cases.Case? {
      var b1 := EnterClause(b, pre, clause);
      ClauseStands(b, b, pre, clause, all);
      var b2 := Join(b1, b1.flow, b.flow);
      StandsJoin(b, b1, b1.flow, b.flow, all);
      StandsExpr(b, b2, cases.test, all);
      var b3 := VisitExpr(cases.test, b2);
      StandsStmt(b, b3, cases.body, all);
      var b4 := VisitStmt(cases.body, b3);
      StandsSane(b, b4, all);
      CasesKeep(cases.rest, clause + 1, pre, b4, all);
      StandsOn(b, b4, VisitCases(cases.rest, clause + 1, pre, b4), all);
    }
  }

  lemma ClauseStands(b: Builder, m: Builder, f: nat, clause: int, all: bool)
    requires Stands(b, m, all)
    ensures Stands(b, EnterClause(m, f, clause), all) && (EnterClause(m, f, clause).flow == Dead <==> f == Dead)
    ensures |m.g.nodes| <= |EnterClause(m, f, clause).g.nodes| && EnterClause(m, f, clause).g.antecedents == m.g.antecedents
  {
    StandsNodes(b, m, EnterClause(m, f, clause), all);
  }

  lemma StandsSane(b: Builder, m: Builder, all: bool)
    requires Stands(b, m, all)
    ensures Sane(m)
  {
  }

  lemma StandsOn(b: Builder, m: Builder, r: Builder, all: bool)
    requires Stands(b, m, all) && Stands(m, r, all)
    ensures Stands(b, r, all)
  {
    forall l: nat | 0 < l < |b.g.nodes| && (all || !Reserved(b, l)) ensures SameAt(b.g, r.g, l) {
      assert Reserved(m, l) ==> Reserved(b, l);
      assert SameAt(b.g, m.g, l) && SameAt(m.g, r.g, l);
    }
  }

  lemma {:induction false} SwitchKeeps(s: Stmt, b: Builder)
    requires s.Switch? && Sane(b)
    ensures Keeps(b, VisitSwitch(s, b), Loopless(s))
    decreases s, 0
  {
    hide Extends, Grows, Visited, Sane, Calm, Kept, Stands, VisitExpr, VisitCases, AddAntecedent, Finish, StartScope, EnterClause;
    var all := b.flow == Dead && Loopless(s);
    StandsItself(b, all);
    StandsExpr(b, b, s.discriminant, all);
    ScopeStands(b, VisitExpr(s.discriminant, b), s.scope, all);
    var b0 := StartScope(VisitExpr(s.discriminant, b), s.scope);
    StandsSize(b, b0, all);
    var exit := |b0.g.nodes|;
    AddStands(b, b0, BranchLabel, all);
    var b1 := Add(b0, BranchLabel);
    var t := JumpTarget(b1.pendingLabel, exit, Dead, false);
    var b2 := b1.(jumps := b.jumps + [t], pendingLabel := "", flow := Dead);
    PushedSane(b, b1, t, b2, all);
    CasesKeep(s.cases, 0, b0.flow, b2, all);
    var b3 := VisitCases(s.cases, 0, b0.flow, b2);
    PoppedStands(b, b1, t, b2, b3, all);
    var b4 := AddAntecedent(b3.(jumps := b.jumps), exit, b3.flow);
    StandsAttach(b, b3.(jumps := b.jumps), exit, b3.flow, all);
    ClauseStands(b, b4, b0.flow, -1, all);
    var c := EnterClause(b4, b0.flow, -1);
    StandsAttach(b, c, exit, c.flow, all);
    FlowStands(b, b4, Finish(b4.g, exit), all);
    FlowStands(b, AddAntecedent(c, exit, c.flow), Finish(AddAntecedent(c, exit, c.flow).g, exit), all);
    if all { Unhanded(b1, b3.(jumps := b.jumps), b4, c, exit); }
    StandsKeeps(b, VisitSwitch(s, b), Loopless(s));
  }

  // A target pushed for the clauses.
  lemma PushedSane(b: Builder, m: Builder, t: JumpTarget, c: Builder, all: bool)
    requires Stands(b, m, all) && t.breakTo < |m.g.nodes| && t.continueTo < |m.g.nodes|
    requires c == m.(jumps := b.jumps + [t], pendingLabel := c.pendingLabel, flow := c.flow)
    ensures Sane(c)
  {
  }

  // And popped after them.
  lemma PoppedStands(b: Builder, m: Builder, t: JumpTarget, c: Builder, r: Builder, all: bool)
    requires Stands(b, m, all) && |b.g.nodes| <= t.breakTo && (|b.g.nodes| <= t.continueTo || t.continueTo == Dead)
    requires c == m.(jumps := b.jumps + [t], pendingLabel := c.pendingLabel, flow := c.flow)
    requires Stands(c, r, all)
    ensures Stands(b, r.(jumps := b.jumps), all) && |m.g.nodes| <= |r.g.nodes|
    ensures all ==> forall l: nat :: 0 < l < |m.g.nodes| ==> SameAt(m.g, r.g, l)
  {
    assert forall i :: 0 <= i < |b.jumps| ==> c.jumps[i] == b.jumps[i];
    forall l: nat | 0 < l < |b.g.nodes| && (all || !Reserved(b, l)) ensures SameAt(b.g, r.g, l) {
      assert Reserved(c, l) ==> Reserved(b, l);
      assert SameAt(b.g, m.g, l) && SameAt(c.g, r.g, l);
    }
    if all {
      forall l: nat | 0 < l < |m.g.nodes| ensures SameAt(m.g, r.g, l) { assert SameAt(c.g, r.g, l); }
    }
  }

  lemma Unhanded(m: Builder, r: Builder, x: Builder, c: Builder, l: nat)
    requires !Claimed(m.g, l) && SameAt(m.g, r.g, l) && r.flow == Dead && c.flow == Dead
    requires x == AddAntecedent(r, l, r.flow) && x.g.antecedents == c.g.antecedents
    ensures Finish(x.g, l) == Dead && Finish(AddAntecedent(c, l, c.flow).g, l) == Dead
  {
  }

  // ----- try -----

  lemma {:induction false} CatchKeeps(handler: Catch, pre: nat, b: Builder, m: Builder, all: bool)
    requires Stands(b, m, all) && (all ==> (handler.Catch? ==> Loopless(handler.body)) && pre == Dead && m.flow == Dead)
    ensures var r := VisitCatch(handler, pre, m);
      Stands(b, r, all) && (all ==> r.flow == Dead)
    decreases handler, 5
  {
    hide Extends, Grows, Visited, Sane, Calm, Kept, Stands, VisitStmt, StartScope, Join;
    if handler.Catch? {
      FlowStands(b, m, pre, all);
      ScopeStands(b, m.(flow := pre), handler.scope, all);
      var m1 := StartScope(m.(flow := pre), handler.scope);
      StandsStmt(b, m1, handler.body, all);
      var m2 := VisitStmt(handler.body, m1);
      StandsJoin(b, m2, m.flow, m2.flow, all);
    }
  }

  lemma {:induction false} TryKeeps(s: Stmt, b: Builder)
    requires s.Try? && Sane(b)
    ensures Keeps(b, VisitTry(s, b), Loopless(s))
    decreases s, 1
  {
    hide Extends, Grows, Visited, Sane, Calm, Kept, Stands, VisitStmt, VisitCatch, AddAntecedent, Finish, Keeps;
    var all := b.flow == Dead && Loopless(s);
    StandsItself(b, all);
    match s.finalizer
    case NoFinally =>
      StandsStmt(b, b, s.block, all);
      CatchKeeps(s.handler, b.flow, b, VisitStmt(s.block, b), all);
      StandsKeeps(b, VisitTry(s, b), Loopless(s));
    case Finally(last) =>
      var exc := |b.g.nodes|;
      AddStands(b, b, BranchLabel, all);
      StandsAttach(b, Add(b, BranchLabel), exc, b.flow, all);
      var b1 := AddAntecedent(Add(b, BranchLabel), exc, b.flow);
      var b2 := VisitStmt(s.block, b1.(exceptionTargets := b.exceptionTargets + [exc]));
      var b3 := VisitCatch(s.handler, b.flow, b2).(exceptionTargets := b.exceptionTargets);
      WatchedStands(s, b, b1, exc, all);
      FlowStands(b, b3, Finish(b3.g, exc), all);
      MarkStands(b, b3, s.id, all);
      if b3.flow == Dead {
        StandsStmt(b, Resume(b3, exc), last, all);
        var r := VisitStmt(last, Resume(b3, exc));
        FlowStands(b, r, Dead, all);
      } else {
        StandsStmt(b, MarkBlind(b3, s.id), last, all);
      }
      StandsKeeps(b, VisitTry(s, b), Loopless(s));
  }

  lemma MarkStands(b: Builder, m: Builder, id: nat, all: bool)
    requires Stands(b, m, all)
    ensures Stands(b, MarkBlind(m, id), all)
  {
    StandsNodes(b, m, MarkBlind(m, id), all);
  }

  // The block and its catch, a finally waiting at exc.
  lemma {:induction false} WatchedStands(s: Stmt, b: Builder, m: Builder, exc: nat, all: bool)
    requires s.Try? && Sane(b) && Stands(b, m, all) && exc == |b.g.nodes| < |m.g.nodes| && m.flow == b.flow
    requires all ==> b.flow == Dead && Loopless(s) && !Claimed(m.g, exc)
    ensures var r := VisitCatch(s.handler, b.flow, VisitStmt(s.block, m.(exceptionTargets := b.exceptionTargets + [exc])));
      Stands(b, r.(exceptionTargets := b.exceptionTargets), all) && (all ==> r.flow == Dead && Finish(r.g, exc) == Dead)
    decreases s, 0
  {
    var c := m.(exceptionTargets := b.exceptionTargets + [exc]);
    WatchedSane(b, m, exc, c, all);
    hide VisitStmt, VisitCatch, Extends, Grows, Visited, Calm, Keeps;
    StandsItself(c, all);
    StandsStmt(c, c, s.block, all);
    CatchKeeps(s.handler, b.flow, c, VisitStmt(s.block, c), all);
    var r := VisitCatch(s.handler, b.flow, VisitStmt(s.block, c));
    forall l: nat | 0 < l < |b.g.nodes| && (all || !Reserved(b, l)) ensures SameAt(b.g, r.g, l) {
      assert Reserved(c, l) ==> Reserved(b, l);
      assert SameAt(b.g, m.g, l) && SameAt(c.g, r.g, l);
    }
    if all { assert SameAt(c.g, r.g, exc); }
  }

  lemma WatchedSane(b: Builder, m: Builder, exc: nat, c: Builder, all: bool)
    requires Stands(b, m, all) && exc < |m.g.nodes| && c == m.(exceptionTargets := b.exceptionTargets + [exc])
    ensures Sane(c)
  {
  }
}
