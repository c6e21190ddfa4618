// The bindings some function other than their own stores to: what the binder collects while it builds
// the graph is exactly that, reachable code or not.
module ForeignStores {
  import opened Syntax
  import opened FlowGraph
  import opened Visit

  function ForeignTarget(x: Symbol, fn: Scope): set<Symbol> {
    if ContainerOf(x.scope) != fn then {x} else {}
  }

  // The bindings of other functions that code of function fn, and of the functions in it, stores to.
  function ForeignInExpr(e: Expr, fn: Scope): set<Symbol> {
    match e
    case Not(a) => ForeignInExpr(a, fn)
    case TypeOf(a) => ForeignInExpr(a, fn)
    case Binary(_, l, r) => ForeignInExpr(l, fn) + ForeignInExpr(r, fn)
    case Logical(_, l, r) => ForeignInExpr(l, fn) + ForeignInExpr(r, fn)
    case Conditional(t, y, n) => ForeignInExpr(t, fn) + ForeignInExpr(y, fn) + ForeignInExpr(n, fn)
    case Assign(_, _, x, r) => ForeignInExpr(r, fn) + ForeignTarget(x, fn)
    case Update(_, x) => ForeignTarget(x, fn)
    case Member(o) => ForeignInExpr(o, fn)
    case SetMember(o, r) => ForeignInExpr(o, fn) + ForeignInExpr(r, fn)
    case Call(c, a) => ForeignInExpr(c, fn) + ForeignInExpr(a, fn)
    case Comma(l, r) => ForeignInExpr(l, fn) + ForeignInExpr(r, fn)
    case Opaque(a) => ForeignInExpr(a, fn)
    case Closure(f, body) => ForeignInStmt(body, f)
    case _ => {}
  }

  function ForeignInStmt(s: Stmt, fn: Scope): set<Symbol> {
    match s
    case Then(f, r) => ForeignInStmt(f, fn) + ForeignInStmt(r, fn)
    case Declare(kind, x, init, _) =>
      ForeignInExpr(init, fn) + (if kind != Var || init != NoExpr then ForeignTarget(x, fn) else {})
    case Evaluate(e) => ForeignInExpr(e, fn)
    case Block(_, body) => ForeignInStmt(body, fn)
    case If(t, y, n) => ForeignInExpr(t, fn) + ForeignInStmt(y, fn) + ForeignInStmt(n, fn)
    case While(t, body) => ForeignInExpr(t, fn) + ForeignInStmt(body, fn)
    case DoWhile(t, body) => ForeignInStmt(body, fn) + ForeignInExpr(t, fn)
    case For(_, start, t, u, body) =>
      ForeignInStmt(start, fn) + ForeignInExpr(t, fn) + ForeignInStmt(body, fn) + ForeignInExpr(u, fn)
    case ForOf(_, _, x, subject, body) => ForeignInExpr(subject, fn) + ForeignTarget(x, fn) + ForeignInStmt(body, fn)
    case Labeled(_, body) => ForeignInStmt(body, fn)
    case Return(e) => ForeignInExpr(e, fn)
    case Throw(e) => ForeignInExpr(e, fn)
    case Switch(_, d, cases) => ForeignInExpr(d, fn) + ForeignInCases(cases, fn)
    case Try(_, block, handler, finalizer) =>
      ForeignInStmt(block, fn)
      + (if handler.Catch? then ForeignInStmt(handler.body, fn) else {})
      + (if finalizer.Finally? then ForeignInStmt(finalizer.body, fn) else {})
    case _ => {}
  }

  function ForeignInCases(cases: Cases, fn: Scope): set<Symbol> {
    if cases.NoCases? then {}
    else ForeignInExpr(cases.test, fn) + ForeignInStmt(cases.body, fn) + ForeignInCases(cases.rest, fn)
  }

  // What a visit adds to the foreign bindings.
  predicate Adds(b: Builder, r: Builder, more: set<Symbol>) {
    r.g.foreign == b.g.foreign + more
  }

  lemma AttachAdds(b: Builder, ls: seq<nat>, f: nat)
    ensures Adds(b, AddAntecedentToAll(b, ls, f), {})
    decreases |ls|
  {
    if ls != [] { AttachAdds(AddAntecedent(b, ls[0], f), ls[1..], f); }
  }

  lemma AssignAdds(b: Builder, x: Symbol, site: Site, init: bool, assign: bool)
    ensures Adds(b, AssignFlow(b, x, site, init, assign), ForeignTarget(x, b.container))
  {
    var b1 := NoteForeign(b, x);
    var b2 := Step(b1, Assignment(b1.flow, x, site, init, assign));
    AttachAdds(b2, b2.exceptionTargets, b2.flow);
  }

  lemma {:induction false} ExprAdds(e: Expr, b: Builder)
    ensures Adds(b, VisitExpr(e, b), ForeignInExpr(e, b.container))
    decreases e, 1
  {
    hide Extends, AssignFlow, VisitLogical, VisitConditional, VisitAssign, VisitFunction;
    match e
    case Not(a) => ExprAdds(a, b);
    case TypeOf(a) => ExprAdds(a, b);
    case Binary(_, l, r) =>
      ExprAdds(l, b);
      ExprAdds(r, VisitExpr(l, b));
    case Logical(_, _, _) => LogicalAdds(e, b);
    case Conditional(_, _, _) => ConditionalAdds(e, b);
    case Assign(_, _, _, _) => AssignmentAdds(e, b);
    case Update(id, x) => AssignAdds(Refer(b, id, x, false), x, OtherSite, false, true);
    case Member(o) => ExprAdds(o, b);
    case SetMember(o, r) =>
      ExprAdds(o, b);
      ExprAdds(r, VisitExpr(o, b));
    case Call(c, a) =>
      ExprAdds(c, b);
      ExprAdds(a, VisitExpr(c, b));
    case Comma(l, r) =>
      ExprAdds(l, b);
      ExprAdds(r, VisitExpr(l, b));
    case Opaque(a) => ExprAdds(a, b);
    case Closure(f, body) => FunctionAdds(f, body, b);
    case _ =>
  }

  lemma {:induction false} FunctionAdds(f: Scope, body: Stmt, b: Builder)
    ensures Adds(b, VisitFunction(f, body, b), ForeignInStmt(body, f))
    decreases body, 2
  {
    hide Extends, VisitStmt;
    StmtAdds(body, EnterFunction(f, b));
  }

  lemma {:induction false} LogicalAdds(e: Expr, b: Builder)
    requires e.Logical?
    ensures Adds(b, VisitLogical(e, b), ForeignInExpr(e, b.container))
    decreases e, 0
  {
    hide Extends, VisitExpr;
    ExprAdds(e.left, b);
    var b1 := VisitExpr(e.left, b);
    var b2 := Branch(b1, b1.flow, e.left, e.lop == And);
    var b3 := Branch(b2, b1.flow, e.left, e.lop != And);
    ExprAdds(e.right, if e.lop == Nullish then b1 else b3.(flow := b2.flow));
  }

  lemma {:induction false} ConditionalAdds(e: Expr, b: Builder)
    requires e.Conditional?
    ensures Adds(b, VisitConditional(e, b), ForeignInExpr(e, b.container))
    decreases e, 0
  {
    hide Extends, VisitExpr;
    ExprAdds(e.test, b);
    var b1 := VisitExpr(e.test, b);
    var b2 := Branch(b1, b1.flow, e.test, true);
    ExprAdds(e.yes, b2);
    ExprAdds(e.no, Branch(VisitExpr(e.yes, b2), b1.flow, e.test, false));
  }

  lemma {:induction false} AssignmentAdds(e: Expr, b: Builder)
    requires e.Assign?
    ensures Adds(b, VisitAssign(e, b), ForeignInExpr(e, b.container))
    decreases e, 0
  {
    hide Extends, VisitExpr, AssignFlow;
    var site := AssignmentSite(e.id, e.aop);
    if e.aop == Plain || e.aop == Compound {
      ExprAdds(e.right, b);
      AssignAdds(Refer(VisitExpr(e.right, b), e.id, e.sym, e.aop == Plain), e.sym, site, false, true);
    } else {
      var b1 := Branch(Refer(b, e.id, e.sym, false), b.flow, AssignTest(e), e.aop == AndAssign);
      ExprAdds(e.right, b1);
      AssignAdds(VisitExpr(e.right, b1), e.sym, site, false, true);
    }
  }

  lemma {:induction false} StmtAdds(s: Stmt, b: Builder)
    ensures Adds(b, VisitStmt(s, b), ForeignInStmt(s, b.container))
    decreases s, 1
  {
    hide Extends, VisitExpr, VisitIf, VisitWhile, VisitDoWhile, VisitFor, VisitForOf, VisitLabeled, VisitSwitch, VisitTry, AssignFlow;
    match s
    case Then(f, r) =>
      StmtAdds(f, b);
      StmtAdds(r, VisitStmt(f, b));
    case Declare(kind, x, init, id) =>
      ExprAdds(init, b);
      var site := DeclarationSite(id, init != NoExpr);
      AssignAdds(VisitExpr(init, b), x, site, true, init != NoExpr);
      AssignAdds(VisitExpr(init, b), x, site, false, true);
    case Evaluate(e) => ExprAdds(e, b);
    case Block(scope, body) => StmtAdds(body, StartScope(b, scope));
    case If(_, _, _) => IfAdds(s, b);
    case While(_, _) => WhileAdds(s, b);
    case DoWhile(_, _) => DoWhileAdds(s, b);
    case For(_, _, _, _, _) => ForAdds(s, b);
    case ForOf(_, _, _, _, _) => ForOfAdds(s, b);
    case Labeled(_, _) => LabeledAdds(s, b);
    case Return(e) => ExprAdds(e, b);
    case Throw(e) => ExprAdds(e, b);
    case Switch(_, _, _) => SwitchAdds(s, b);
    case Try(_, _, _, _) => TryAdds(s, b);
    case _ =>
  }

  lemma {:induction false} IfAdds(s: Stmt, b: Builder)
    requires s.If?
    ensures Adds(b, VisitIf(s, b), ForeignInStmt(s, b.container))
    decreases s, 0
  {
    hide Extends, VisitExpr, VisitStmt;
    ExprAdds(s.test, b);
    var b1 := VisitExpr(s.test, b);
    var b2 := Branch(b1, b1.flow, s.test, true);
    StmtAdds(s.yes, b2);
    StmtAdds(s.no, Branch(VisitStmt(s.yes, b2), b1.flow, s.test, false));
  }

  lemma {:induction false} BodyAdds(s: Stmt, b: Builder, exit: nat, next: nat)
    ensures Adds(b, VisitLoopBody(s, b, exit, next), ForeignInStmt(s, b.container))
    decreases s, 2
  {
    hide Extends, VisitStmt;
    StmtAdds(s, b.(jumps := b.jumps + [JumpTarget(b.pendingLabel, exit, next, false)], pendingLabel := ""));
  }

  lemma TestAdds(b: Builder, test: Expr, exit: nat)
    ensures Adds(b, LoopTest(b, test, exit), {})
  {
  }

  lemma {:induction false} WhileAdds(s: Stmt, b: Builder)
    requires s.While?
    ensures Adds(b, VisitWhile(s, b), ForeignInStmt(s, b.container))
    decreases s, 0
  {
    hide Extends, VisitExpr, VisitLoopBody;
    var loop := |b.g.nodes|;
    var b1 := AddAntecedent(Add(b, LoopLabel), loop, b.flow).(flow := loop);
    ExprAdds(s.test, b1);
    var b2 := VisitExpr(s.test, b1);
    var exit := |b2.g.nodes|;
    BodyAdds(s.body, LoopTest(Add(b2, BranchLabel), s.test, exit), exit, loop);
  }

  lemma {:induction false} DoWhileAdds(s: Stmt, b: Builder)
    requires s.DoWhile?
    ensures Adds(b, VisitDoWhile(s, b), ForeignInStmt(s, b.container))
    decreases s, 0
  {
    hide Extends, VisitExpr, VisitLoopBody, AddAntecedent, Finish;
    var loop := |b.g.nodes|;
    var b1 := AddAntecedent(Add(b, LoopLabel), loop, b.flow);
    var exit := |b1.g.nodes|;
    var b2 := Add(Add(b1, BranchLabel), BranchLabel).(flow := loop);
    BodyAdds(s.body, b2, exit, exit + 1);
    var b3 := VisitLoopBody(s.body, b2, exit, exit + 1);
    ExprAdds(s.test, Resume(AddAntecedent(b3, exit + 1, b3.flow), exit + 1));
  }

  lemma {:induction false} ForAdds(s: Stmt, b: Builder)
    requires s.For?
    ensures Adds(b, VisitFor(s, b), ForeignInStmt(s, b.container))
    decreases s, 0
  {
    hide Extends, VisitExpr, VisitStmt, VisitLoopBody, LoopTest;
    StmtAdds(s.start, StartScope(b, s.scope));
    var b1 := VisitStmt(s.start, StartScope(b, s.scope));
    var loop := |b1.g.nodes|;
    var b2 := AddAntecedent(Add(b1, LoopLabel), loop, b1.flow).(flow := loop);
    ExprAdds(s.test, b2);
    var b3 := VisitExpr(s.test, b2);
    var exit := |b3.g.nodes|;
    var b4 := LoopTest(Add(b3, BranchLabel), s.test, exit);
    var next := |b4.g.nodes|;
    TestAdds(Add(b3, BranchLabel), s.test, exit);
    BodyAdds(s.body, Add(b4, BranchLabel), exit, next);
    var b5 := VisitLoopBody(s.body, Add(b4, BranchLabel), exit, next);
    ExprAdds(s.update, Resume(AddAntecedent(b5, next, b5.flow), next));
  }

  lemma {:induction false} ForOfAdds(s: Stmt, b: Builder)
    requires s.ForOf?
    ensures Adds(b, VisitForOf(s, b), ForeignInStmt(s, b.container))
    decreases s, 0
  {
    hide Extends, VisitExpr, VisitLoopBody, AssignFlow;
    ExprAdds(s.subject, b);
    var b1 := VisitExpr(s.subject, b);
    var loop := |b1.g.nodes|;
    var b2 := AddAntecedent(Add(b1, LoopLabel), loop, b1.flow);
    var exit := |b2.g.nodes|;
    var b3 := StartScope(AddAntecedent(Add(b2, BranchLabel), exit, loop).(flow := loop), s.scope);
    AssignAdds(b3, s.sym, OtherSite, s.kind != Var, true);
    BodyAdds(s.body, AssignFlow(b3, s.sym, OtherSite, s.kind != Var, true), exit, loop);
  }

  lemma {:induction false} LabeledAdds(s: Stmt, b: Builder)
    requires s.Labeled?
    ensures Adds(b, VisitLabeled(s, b), ForeignInStmt(s, b.container))
    decreases s, 0
  {
    hide Extends, VisitStmt;
    if IsLoop(s.body) { StmtAdds(s.body, b.(pendingLabel := s.tag)); }
    else { StmtAdds(s.body, Add(b, BranchLabel).(jumps := b.jumps + [JumpTarget(s.tag, |b.g.nodes|, Dead, true)])); }
  }

  lemma {:induction false} CasesAdd(cases: Cases, clause: int, pre: nat, b: Builder)
    ensures Adds(b, VisitCases(cases, clause, pre, b), ForeignInCases(cases, b.container))
    decreases cases, 1
  {
    hide Extends, VisitExpr, VisitStmt;
    if cases.Case? {
      var b1 := EnterClause(b, pre, clause);
      var b2 := Join(b1, b1.flow, b.flow);
      ExprAdds(cases.test, b2);
      var b3 := VisitExpr(cases.test, b2);
      StmtAdds(cases.body, b3);
      CasesAdd(cases.rest, clause + 1, pre, VisitStmt(cases.body, b3));
    }
  }

  lemma {:induction false} SwitchAdds(s: Stmt, b: Builder)
    requires s.Switch?
    ensures Adds(b, VisitSwitch(s, b), ForeignInStmt(s, b.container))
    decreases s, 0
  {
    hide Extends, VisitExpr, VisitCases;
    ExprAdds(s.discriminant, b);
    var b1 := StartScope(VisitExpr(s.discriminant, b), s.scope);
    var b2 := Add(b1, BranchLabel);
    var target := JumpTarget(b2.pendingLabel, |b1.g.nodes|, Dead, false);
    CasesAdd(s.cases, 0, b1.flow, b2.(jumps := b.jumps + [target], pendingLabel := "", flow := Dead));
  }

  lemma {:induction false} CatchAdds(handler: Catch, pre: nat, b: Builder)
    ensures Adds(b, VisitCatch(handler, pre, b), if handler.Catch? then ForeignInStmt(handler.body, b.container) else {})
    decreases handler, 2
  {
    hide Extends, VisitStmt;
    if handler.Catch? { StmtAdds(handler.body, StartScope(b.(flow := pre), handler.scope)); }
  }

  lemma {:induction false} TryAdds(s: Stmt, b: Builder)
    requires s.Try?
    ensures Adds(b, VisitTry(s, b), ForeignInStmt(s, b.container))
    decreases s, 0
  {
    hide Extends, VisitStmt, VisitCatch;
    var exc := |b.g.nodes|;
    var b1 := if s.finalizer.NoFinally? then b
      else AddAntecedent(Add(b, BranchLabel), exc, b.flow).(exceptionTargets := b.exceptionTargets + [exc]);
    StmtAdds(s.block, b1);
    var b2 := VisitStmt(s.block, b1);
    CatchAdds(s.handler, b.flow, b2);
    var b3 := VisitCatch(s.handler, b.flow, b2).(exceptionTargets := b.exceptionTargets);
    if s.finalizer.Finally? {
      StmtAdds(s.finalizer.body, if b3.flow == Dead then Resume(b3, exc) else MarkBlind(b3, s.id));
    }
  }

  // A program's foreign bindings are exactly those a function other than their own stores to.
  lemma ForeignExact(program: Stmt)
    ensures VisitProgram(program).g.foreign == ForeignInStmt(program, ModuleScope)
  {
    hide Extends, VisitStmt;
    StmtAdds(program, EnterFunction(ModuleScope, NothingBound));
  }
}
