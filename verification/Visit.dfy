// What the resolving pass of the binder does to its state at each node of the program.
module Visit {
  import opened Syntax
  import opened FlowGraph

  // ----- does a visit take a pending label? -----

  // A loop or switch takes the label a labeled statement left for it, even from inside a closure.
  predicate ExprTakesLabel(e: Expr) {
    match e
    case Not(a) => ExprTakesLabel(a)
    case TypeOf(a) => ExprTakesLabel(a)
    case Binary(_, l, r) => ExprTakesLabel(l) || ExprTakesLabel(r)
    case Logical(_, l, r) => ExprTakesLabel(l) || ExprTakesLabel(r)
    case Conditional(t, y, n) => ExprTakesLabel(t) || ExprTakesLabel(y) || ExprTakesLabel(n)
    case Assign(_, _, _, r) => ExprTakesLabel(r)
    case Member(o) => ExprTakesLabel(o)
    case SetMember(o, r) => ExprTakesLabel(o) || ExprTakesLabel(r)
    case Call(c, a) => ExprTakesLabel(c) || ExprTakesLabel(a)
    case Comma(l, r) => ExprTakesLabel(l) || ExprTakesLabel(r)
    case Opaque(a) => ExprTakesLabel(a)
    case Closure(_, body) => StmtTakesLabel(body)
    case _ => false
  }

  predicate StmtTakesLabel(s: Stmt) {
    match s
    case Then(a, r) => StmtTakesLabel(a) || StmtTakesLabel(r)
    case Declare(_, _, init, _) => ExprTakesLabel(init)
    case Evaluate(e) => ExprTakesLabel(e)
    case Block(_, body) => StmtTakesLabel(body)
    case If(t, y, n) => ExprTakesLabel(t) || StmtTakesLabel(y) || StmtTakesLabel(n)
    case Return(e) => ExprTakesLabel(e)
    case Throw(e) => ExprTakesLabel(e)
    case Empty => false
    case Break(_) => false
    case Continue(_) => false
    case _ => true
  }

  // A visit grows the graph and leaves no pending label that was not there.
  ghost predicate Visited(b: Builder, r: Builder, takes: bool) {
    && Grows(b, r)
    && (b.pendingLabel == "" ==> r.pendingLabel == "")
    && (!takes ==> r.pendingLabel == b.pendingLabel)
  }

  // ----- expressions -----

  function VisitExpr(e: Expr, b: Builder): (r: Builder)
    ensures Visited(b, r, ExprTakesLabel(e))
    decreases e, 1
  {
    GrowthChains();
    hide Extends, VisitLogical, VisitConditional, VisitAssign, VisitFunction, AssignFlow;
    match e
    case NoExpr => b
    case Literal(_) => b
    case Name(id, x) => Refer(b, id, x, false)
    case Not(a) => VisitExpr(a, b)
    case TypeOf(a) => VisitExpr(a, b)
    case Binary(_, l, r) => VisitExpr(r, VisitExpr(l, b))
    case Logical(_, _, _) => VisitLogical(e, b)
    case Conditional(_, _, _) => VisitConditional(e, b)
    case Assign(_, _, _, _) => VisitAssign(e, b)
    case Update(id, x) => AssignFlow(Refer(b, id, x, false), x, OtherSite, false, true)
    case Member(o) => VisitExpr(o, b)
    case SetMember(o, r) =>
      var b1 := VisitExpr(r, VisitExpr(o, b));
      if RootIdentifier(o) && b1.flow != Dead then Step(b1, PropertyAssignment(b1.flow)) else b1
    case Call(c, a) =>
      var b1 := VisitExpr(a, VisitExpr(c, b));
      if DottedName(c) && b1.flow != Dead then Step(b1, CallFlow(b1.flow)) else b1
    case Comma(l, r) => VisitExpr(r, VisitExpr(l, b))
    case Opaque(a) => VisitExpr(a, b)
    case Closure(fn, body) =>
      var f := VisitFunction(fn, body, b);
      b.(g := f.g, pendingLabel := f.pendingLabel)
  }

  // Both sides of the left operand's test meet again at the end; ?? does not test for truth, so it has no sides.
  function VisitLogical(e: Expr, b: Builder): (r: Builder)
    requires e.Logical?
    ensures Visited(b, r, ExprTakesLabel(e))
    decreases e, 0
  {
    GrowthChains();
    hide Extends;
    var b1 := VisitExpr(e.left, b);
    var pre := b1.flow;
    if e.lop == Nullish then
      var b2 := VisitExpr(e.right, b1);
      Join(b2, pre, b2.flow)
    else
      var b2 := Branch(b1, pre, e.left, e.lop == And);
      var b3 := Branch(b2, pre, e.left, e.lop != And);
      var b4 := VisitExpr(e.right, b3.(flow := b2.flow));
      Join(b4, b3.flow, b4.flow)
  }

  function VisitConditional(e: Expr, b: Builder): (r: Builder)
    requires e.Conditional?
    ensures Visited(b, r, ExprTakesLabel(e))
    decreases e, 0
  {
    GrowthChains();
    hide Extends;
    var b1 := VisitExpr(e.test, b);
    var b2 := VisitExpr(e.yes, Branch(b1, b1.flow, e.test, true));
    var b3 := VisitExpr(e.no, Branch(b2, b1.flow, e.test, false));
    Join(b3, b2.flow, b3.flow)
  }

  // The condition a logical assignment tests: `x != null` for ??=, else x itself.
  function AssignTest(e: Expr): Expr
    requires e.Assign?
  {
    if e.aop == NullishAssign then Binary(LooseNe, Name(e.id, e.sym), Literal(Null)) else Name(e.id, e.sym)
  }

  // The right side comes first, but for a logical assignment. A plain `=` only stores; a compound one reads after its
  // right side is bound; a logical one reads, and stores only on one side of its test.
  function VisitAssign(e: Expr, b: Builder): (r: Builder)
    requires e.Assign?
    ensures Visited(b, r, ExprTakesLabel(e))
    decreases e, 0
  {
    GrowthChains();
    hide Extends;
    var site := AssignmentSite(e.id, e.aop);
    match e.aop
    case Plain =>
      AssignFlow(Refer(VisitExpr(e.right, b), e.id, e.sym, true), e.sym, site, false, true)
    case Compound =>
      AssignFlow(Refer(VisitExpr(e.right, b), e.id, e.sym, false), e.sym, site, false, true)
    case _ =>
      var stores := e.aop == AndAssign;
      var b1 := Refer(b, e.id, e.sym, false);
      var b2 := VisitExpr(e.right, Branch(b1, b.flow, AssignTest(e), stores));
      var b3 := AssignFlow(b2, e.sym, site, false, true);
      var b4 := Branch(b3, b.flow, AssignTest(e), !stores);
      Join(b4, b4.flow, b3.flow)
  }

  // A function starts a separate graph at a start node; what surrounds the function
  // (jump targets, open try statements) is not seen from inside.
  function VisitFunction(fn: Scope, body: Stmt, b: Builder): (r: Builder)
    ensures Extends(b.g, r.g)
    ensures b.pendingLabel == "" ==> r.pendingLabel == ""
    ensures !StmtTakesLabel(body) ==> r.pendingLabel == b.pendingLabel
    decreases body, 2
  {
    GrowthChains();
    hide Extends;
    var b1 := EnterFunction(fn, b);
    var b2 := VisitStmt(body, b1);
    if b2.flow != Dead then MarkEnd(b2, fn) else b2
  }

  function MarkEnd(b: Builder, fn: Scope): (r: Builder)
    ensures Grows(b, r) && r == b.(g := r.g)
  {
    b.(g := b.g.(endReachable := b.g.endReachable + {fn}))
  }

  function EnterFunction(fn: Scope, b: Builder): (r: Builder)
    ensures Extends(b.g, r.g) && r.pendingLabel == b.pendingLabel
  {
    Step(b, Start(fn)).(container := fn, jumps := [], exceptionTargets := [])
  }

  // ----- statements -----

  function VisitStmt(s: Stmt, b: Builder): (r: Builder)
    ensures Visited(b, r, StmtTakesLabel(s))
    ensures IsLoop(s) ==> r.pendingLabel == ""
    decreases s, 1
  {
    GrowthChains();
    hide Extends, VisitExpr, VisitDeclare, VisitIf, VisitWhile, VisitDoWhile, VisitFor, VisitForOf, VisitLabeled, VisitJump, VisitSwitch, VisitTry, StartScope;
    match s
    case Empty => b
    case Then(a, rest) => VisitStmt(rest, VisitStmt(a, b))
    case Declare(_, _, _, _) => VisitDeclare(s, b)
    case Evaluate(e) => if e.Call? && ReturnsNever(e.callee) then VisitExpr(e, b).(flow := Dead) else VisitExpr(e, b)
    case Block(scope, body) => VisitStmt(body, StartScope(b, scope))
    case If(_, _, _) => VisitIf(s, b)
    case While(_, _) => VisitWhile(s, b)
    case DoWhile(_, _) => VisitDoWhile(s, b)
    case For(_, _, _, _, _) => VisitFor(s, b)
    case ForOf(_, _, _, _, _) => VisitForOf(s, b)
    case Labeled(_, _) => VisitLabeled(s, b)
    case Break(tag) => VisitJump(tag, false, b)
    case Continue(tag) => VisitJump(tag, true, b)
    case Return(e) => VisitExpr(e, b).(flow := Dead)
    case Throw(e) => VisitExpr(e, b).(flow := Dead)
    case Switch(_, _, _) => VisitSwitch(s, b)
    case Try(_, _, _, _) => VisitTry(s, b)
  }

  // A break or continue hands the flow to its target; what follows is unreachable.
  function VisitJump(tag: string, cont: bool, b: Builder): (r: Builder)
    ensures Visited(b, r, false)
  {
    GrowthChains();
    hide Extends;
    var t := FindJump(b.jumps, tag, cont);
    if t.None? then b.(flow := Dead)
    else AddAntecedent(b, if cont then t.value.continueTo else t.value.breakTo, b.flow).(flow := Dead)
  }

  // The value, then the binding: a let or const is initialized, and assigned when it has a value;
  // a var is assigned only by its initializer.
  function VisitDeclare(s: Stmt, b: Builder): (r: Builder)
    requires s.Declare?
    ensures Visited(b, r, StmtTakesLabel(s))
    decreases s, 0
  {
    GrowthChains();
    hide Extends;
    var b1 := VisitExpr(s.init, b);
    var site := DeclarationSite(s.id, s.init != NoExpr);
    if s.kind != Var then AssignFlow(b1, s.sym, site, true, s.init != NoExpr)
    else if s.init != NoExpr then AssignFlow(b1, s.sym, site, false, true)
    else b1
  }

  function VisitIf(s: Stmt, b: Builder): (r: Builder)
    requires s.If?
    ensures Visited(b, r, StmtTakesLabel(s))
    decreases s, 0
  {
    GrowthChains();
    hide Extends;
    var b1 := VisitExpr(s.test, b);
    var b2 := VisitStmt(s.yes, Branch(b1, b1.flow, s.test, true));
    var b3 := VisitStmt(s.no, Branch(b2, b1.flow, s.test, false));
    Join(b3, b2.flow, b3.flow)
  }

  // The flow into a loop's body after its test, its exit reached when the test is falsy.
  function LoopTest(b: Builder, test: Expr, exit: nat): (r: Builder)
    ensures Grows(b, r) && r.pendingLabel == b.pendingLabel
  {
    GrowthChains();
    hide Extends;
    var b1 :=
      if AlwaysTrue(test) then b
      else var c := Branch(b, b.flow, test, false); AddAntecedent(c, exit, c.flow);
    Branch(b1, b.flow, test, true)
  }

  // Binds a loop's body under a target of its own, which gets the pending label.
  function VisitLoopBody(body: Stmt, b: Builder, exit: nat, next: nat): (r: Builder)
    ensures Grows(b, r) && r.pendingLabel == ""
    decreases body, 2
  {
    GrowthChains();
    hide Extends;
    var target := JumpTarget(b.pendingLabel, exit, next, false);
    VisitStmt(body, b.(jumps := b.jumps + [target], pendingLabel := "")).(jumps := b.jumps)
  }

  function VisitWhile(s: Stmt, b: Builder): (r: Builder)
    requires s.While?
    ensures Visited(b, r, true) && r.pendingLabel == ""
    decreases s, 0
  {
    GrowthChains();
    hide Extends;
    var loop := |b.g.nodes|;
    var b1 := AddAntecedent(Add(b, LoopLabel), loop, b.flow);
    var b2 := VisitExpr(s.test, b1.(flow := loop));
    var exit := |b2.g.nodes|;
    var b3 := LoopTest(Add(b2, BranchLabel), s.test, exit);
    var b4 := VisitLoopBody(s.body, b3, exit, loop);
    var b5 := AddAntecedent(b4, loop, b4.flow);
    Resume(b5, exit)
  }

  function VisitDoWhile(s: Stmt, b: Builder): (r: Builder)
    requires s.DoWhile?
    ensures Visited(b, r, true) && r.pendingLabel == ""
    decreases s, 0
  {
    GrowthChains();
    hide Extends;
    var loop := |b.g.nodes|;
    var b1 := AddAntecedent(Add(b, LoopLabel), loop, b.flow);
    var exit := |b1.g.nodes|;
    var next := exit + 1;
    var b2 := Add(Add(b1, BranchLabel), BranchLabel);
    var b3 := VisitLoopBody(s.body, b2.(flow := loop), exit, next);
    var b4 := AddAntecedent(b3, next, b3.flow);
    Resume(LoopEnd(s.test, Resume(b4, next), loop, exit), exit)
  }

  // A test at a loop's end: truthy, it goes round to the head; falsy, the loop is left.
  function LoopEnd(test: Expr, b: Builder, loop: nat, exit: nat): (r: Builder)
    ensures Grows(b, r) && (b.pendingLabel == "" ==> r.pendingLabel == "")
    decreases test, 2
  {
    GrowthChains();
    hide Extends;
    var b1 := VisitExpr(test, b);
    var b2 := Branch(b1, b1.flow, test, true);
    var b3 := AddAntecedent(b2, loop, b2.flow);
    if AlwaysTrue(test) then b3
    else var c := Branch(b3, b1.flow, test, false); AddAntecedent(c, exit, c.flow)
  }

  function VisitFor(s: Stmt, b: Builder): (r: Builder)
    requires s.For?
    ensures Visited(b, r, true) && r.pendingLabel == ""
    decreases s, 0
  {
    GrowthChains();
    hide Extends;
    var b0 := VisitStmt(s.start, StartScope(b, s.scope));
    var loop := |b0.g.nodes|;
    var b1 := AddAntecedent(Add(b0, LoopLabel), loop, b0.flow);
    var b2 := VisitExpr(s.test, b1.(flow := loop));
    var exit := |b2.g.nodes|;
    var b3 := LoopTest(Add(b2, BranchLabel), s.test, exit);
    var next := |b3.g.nodes|;
    var b4 := VisitLoopBody(s.body, Add(b3, BranchLabel), exit, next);
    var b5 := AddAntecedent(b4, next, b4.flow);
    var b6 := VisitExpr(s.update, Resume(b5, next));
    var b7 := AddAntecedent(b6, loop, b6.flow);
    Resume(b7, exit)
  }

  // The loop variable's scope is fresh on every iteration; the exit is reached from the loop's head.
  function VisitForOf(s: Stmt, b: Builder): (r: Builder)
    requires s.ForOf?
    ensures Visited(b, r, true) && r.pendingLabel == ""
    decreases s, 0
  {
    GrowthChains();
    hide Extends;
    var b0 := VisitExpr(s.subject, b);
    var loop := |b0.g.nodes|;
    var b1 := AddAntecedent(Add(b0, LoopLabel), loop, b0.flow);
    var exit := |b1.g.nodes|;
    var b2 := AddAntecedent(Add(b1, BranchLabel), exit, loop);
    var b3 := StartScope(b2.(flow := loop), s.scope);
    var b4 := AssignFlow(b3, s.sym, OtherSite, s.kind != Var, true);
    var b5 := VisitLoopBody(s.body, b4, exit, loop);
    var b6 := AddAntecedent(b5, loop, b5.flow);
    Resume(b6, exit)
  }

  // A loop takes the label itself, so that `continue` targets it; any other statement is only left by it.
  function VisitLabeled(s: Stmt, b: Builder): (r: Builder)
    requires s.Labeled?
    ensures Visited(b, r, true)
    decreases s, 0
  {
    GrowthChains();
    hide Extends;
    if IsLoop(s.body) then VisitStmt(s.body, b.(pendingLabel := s.tag))
    else
      var exit := |b.g.nodes|;
      var b1 := Add(b, BranchLabel);
      var b2 := VisitStmt(s.body, b1.(jumps := b.jumps + [JumpTarget(s.tag, exit, Dead, true)]));
      var b3 := AddAntecedent(b2.(jumps := b.jumps), exit, b2.flow);
      Resume(b3, exit)
  }

  predicate HasDefault(cases: Cases) {
    cases.Case? && (cases.test == NoExpr || HasDefault(cases.rest))
  }

  // Each clause is entered from the head of the switch or by falling through; its test is bound either way.
  function VisitCases(cases: Cases, clause: int, pre: nat, b: Builder): (r: Builder)
    ensures Grows(b, r)
    ensures b.pendingLabel == "" ==> r.pendingLabel == ""
    decreases cases, 1
  {
    GrowthChains();
    hide Extends;
    match cases
    case NoCases => b
    case Case(test, body, rest) =>
      var b1 := EnterClause(b, pre, clause);
      var b2 := VisitExpr(test, Join(b1, b1.flow, b.flow));
      VisitCases(rest, clause + 1, pre, VisitStmt(body, b2))
  }

  function VisitSwitch(s: Stmt, b: Builder): (r: Builder)
    requires s.Switch?
    ensures Visited(b, r, true)
    decreases s, 0
  {
    GrowthChains();
    hide Extends;
    var b0 := StartScope(VisitExpr(s.discriminant, b), s.scope);
    var exit := |b0.g.nodes|;
    var b1 := Add(b0, BranchLabel);
    var target := JumpTarget(b1.pendingLabel, exit, Dead, false);
    var b2 := b1.(jumps := b.jumps + [target], pendingLabel := "", flow := Dead);
    var b3 := VisitCases(s.cases, 0, b0.flow, b2);
    var b4 := AddAntecedent(b3.(jumps := b.jumps), exit, b3.flow);
    var b5 :=
      if HasDefault(s.cases) then b4
      else var c := EnterClause(b4, b0.flow, -1); AddAntecedent(c, exit, c.flow);
    Resume(b5, exit)
  }

  // A catch clause starts at pre, what the flow was before its try.
  function VisitCatch(handler: Catch, pre: nat, b: Builder): (r: Builder)
    ensures Visited(b, r, true)
    decreases handler, 2
  {
    GrowthChains();
    hide Extends;
    match handler
    case NoCatch => b
    case Catch(scope, body) =>
      var b1 := VisitStmt(body, StartScope(b.(flow := pre), scope));
      Join(b1, b.flow, b1.flow)
  }

  // A finally follows the end of its try and catch, if there is one; else it is entered, by an
  // exception from any state they were in, and nothing follows it.
  function MarkBlind(b: Builder, id: nat): (r: Builder)
    ensures Grows(b, r) && r == b.(g := r.g)
  {
    b.(g := b.g.(blindTries := b.g.blindTries + {id}))
  }

  function VisitTry(s: Stmt, b: Builder): (r: Builder)
    requires s.Try?
    ensures Visited(b, r, true)
    decreases s, 0
  {
    GrowthChains();
    hide Extends;
    match s.finalizer
    case NoFinally => VisitCatch(s.handler, b.flow, VisitStmt(s.block, b))
    case Finally(last) =>
      var exc := |b.g.nodes|;
      var b1 := AddAntecedent(Add(b, BranchLabel), exc, b.flow);
      var b2 := VisitStmt(s.block, b1.(exceptionTargets := b.exceptionTargets + [exc]));
      var b3 := VisitCatch(s.handler, b.flow, b2).(exceptionTargets := b.exceptionTargets);
      if b3.flow == Dead then
        VisitStmt(last, Resume(b3, exc)).(flow := Dead)
      else
        VisitStmt(last, MarkBlind(b3, s.id))
  }

  // A module: its statements, from a start node of its own.
  function VisitProgram(body: Stmt): Builder {
    VisitStmt(body, EnterFunction(ModuleScope, NothingBound))
  }
}
