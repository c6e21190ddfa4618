// Whole programs: every function expression in one is bound in its final graph, and the bindings the
// binder takes to be stored to from elsewhere are exactly those some other function stores to.
module Programs {
  import opened Syntax
  import opened FlowGraph
  import opened Visit
  import opened Questions

  // ----- the functions of a program -----

  // A function expression fn, with this body, occurs in e, or in s, at any depth.
  predicate ExprHas(fn: Scope, body: Stmt, e: Expr) {
    match e
    case Not(a) => ExprHas(fn, body, a)
    case TypeOf(a) => ExprHas(fn, body, a)
    case Binary(_, l, r) => ExprHas(fn, body, l) || ExprHas(fn, body, r)
    case Logical(_, l, r) => ExprHas(fn, body, l) || ExprHas(fn, body, r)
    case Conditional(t, y, n) => ExprHas(fn, body, t) || ExprHas(fn, body, y) || ExprHas(fn, body, n)
    case Assign(_, _, _, r) => ExprHas(fn, body, r)
    case Member(o) => ExprHas(fn, body, o)
    case SetMember(o, r) => ExprHas(fn, body, o) || ExprHas(fn, body, r)
    case Call(c, a) => ExprHas(fn, body, c) || ExprHas(fn, body, a)
    case Comma(l, r) => ExprHas(fn, body, l) || ExprHas(fn, body, r)
    case Opaque(a) => ExprHas(fn, body, a)
    case Closure(f, inner) => (f == fn && inner == body) || StmtHas(fn, body, inner)
    case _ => false
  }

  predicate StmtHas(fn: Scope, body: Stmt, s: Stmt) {
    match s
    case Then(f, r) => StmtHas(fn, body, f) || StmtHas(fn, body, r)
    case Declare(_, _, init, _) => ExprHas(fn, body, init)
    case Evaluate(e) => ExprHas(fn, body, e)
    case Block(_, inner) => StmtHas(fn, body, inner)
    case If(t, y, n) => ExprHas(fn, body, t) || StmtHas(fn, body, y) || StmtHas(fn, body, n)
    case While(t, inner) => ExprHas(fn, body, t) || StmtHas(fn, body, inner)
    case DoWhile(t, inner) => ExprHas(fn, body, t) || StmtHas(fn, body, inner)
    case For(_, start, t, u, inner) =>
      StmtHas(fn, body, start) || ExprHas(fn, body, t) || ExprHas(fn, body, u) || StmtHas(fn, body, inner)
    case ForOf(_, _, _, subject, inner) => ExprHas(fn, body, subject) || StmtHas(fn, body, inner)
    case Labeled(_, inner) => StmtHas(fn, body, inner)
    case Return(e) => ExprHas(fn, body, e)
    case Throw(e) => ExprHas(fn, body, e)
    case Switch(_, d, cases) => ExprHas(fn, body, d) || CasesHave(fn, body, cases)
    case Try(_, block, handler, finalizer) =>
      StmtHas(fn, body, block) || (handler.Catch? && StmtHas(fn, body, handler.body))
      || (finalizer.Finally? && StmtHas(fn, body, finalizer.body))
    case _ => false
  }

  predicate CasesHave(fn: Scope, body: Stmt, cases: Cases) {
    cases.Case? && (ExprHas(fn, body, cases.test) || StmtHas(fn, body, cases.body) || CasesHave(fn, body, cases.rest))
  }

  // No closure in the head of a labeled loop takes the loop's label, in any function.
  predicate TidyExpr(e: Expr) {
    match e
    case Not(a) => TidyExpr(a)
    case TypeOf(a) => TidyExpr(a)
    case Binary(_, l, r) => TidyExpr(l) && TidyExpr(r)
    case Logical(_, l, r) => TidyExpr(l) && TidyExpr(r)
    case Conditional(t, y, n) => TidyExpr(t) && TidyExpr(y) && TidyExpr(n)
    case Assign(_, _, _, r) => TidyExpr(r)
    case Member(o) => TidyExpr(o)
    case SetMember(o, r) => TidyExpr(o) && TidyExpr(r)
    case Call(c, a) => TidyExpr(c) && TidyExpr(a)
    case Comma(l, r) => TidyExpr(l) && TidyExpr(r)
    case Opaque(a) => TidyExpr(a)
    case Closure(_, inner) => Tidy(inner)
    case _ => true
  }

  predicate Tidy(s: Stmt) {
    match s
    case Then(f, r) => Tidy(f) && Tidy(r)
    case Declare(_, _, init, _) => TidyExpr(init)
    case Evaluate(e) => TidyExpr(e)
    case Block(_, inner) => Tidy(inner)
    case If(t, y, n) => TidyExpr(t) && Tidy(y) && Tidy(n)
    case While(t, inner) => TidyExpr(t) && Tidy(inner)
    case DoWhile(t, inner) => TidyExpr(t) && Tidy(inner)
    case For(_, start, t, u, inner) => Tidy(start) && TidyExpr(t) && TidyExpr(u) && Tidy(inner)
    case ForOf(_, _, _, subject, inner) => TidyExpr(subject) && Tidy(inner)
    case Labeled(_, inner) => Tidy(inner) && (IsLoop(inner) ==> !HeadTakesLabel(inner))
    case Return(e) => TidyExpr(e)
    case Throw(e) => TidyExpr(e)
    case Switch(_, d, cases) => TidyExpr(d) && TidyCases(cases)
    case Try(_, block, handler, finalizer) =>
      Tidy(block) && (handler.Catch? ==> Tidy(handler.body)) && (finalizer.Finally? ==> Tidy(finalizer.body))
    case _ => true
  }

  predicate TidyCases(cases: Cases) {
    cases.Case? ==> TidyExpr(cases.test) && Tidy(cases.body) && TidyCases(cases.rest)
  }

  // The graph of a function is part of r's, bound from state b.
  ghost predicate Holds(fn: Scope, body: Stmt, b: Builder, g: Binding) {
    (b.pendingLabel == "" || !StmtTakesLabel(body)) && Extends(VisitFunction(fn, body, b).g, g)
  }

  // And of every later graph's.
  lemma HoldsLater(fn: Scope, body: Stmt)
    ensures forall a :: Extends(a, a)
    ensures forall a, b, c :: Extends(a, b) && Extends(b, c) ==> Extends(a, c)
    ensures forall b, g, h :: Holds(fn, body, b, g) && Extends(g, h) ==> Holds(fn, body, b, h)
  {
    GrowthChains();
    hide Extends, VisitFunction;
  }

  predicate QuietLabel(b: Builder, takes: bool) {
    b.pendingLabel == "" || !takes
  }

  // The label pending when s is bound is none, or one no closure in s takes before s does.
  predicate LabelSafe(s: Stmt, b: Builder) {
    QuietLabel(b, StmtTakesLabel(s)) || (IsLoop(s) && !HeadTakesLabel(s))
  }

  lemma ExprParts(fn: Scope, body: Stmt, e: Expr, b: Builder)
    requires ExprHas(fn, body, e) && TidyExpr(e) && QuietLabel(b, ExprTakesLabel(e))
    ensures e.Logical? ==>
      && (ExprHas(fn, body, e.left) || ExprHas(fn, body, e.right)) && TidyExpr(e.left) && TidyExpr(e.right)
      && QuietLabel(b, ExprTakesLabel(e.left)) && QuietLabel(b, ExprTakesLabel(e.right))
    ensures e.Conditional? ==>
      && (ExprHas(fn, body, e.test) || ExprHas(fn, body, e.yes) || ExprHas(fn, body, e.no))
      && TidyExpr(e.test) && TidyExpr(e.yes) && TidyExpr(e.no)
      && QuietLabel(b, ExprTakesLabel(e.test)) && QuietLabel(b, ExprTakesLabel(e.yes)) && QuietLabel(b, ExprTakesLabel(e.no))
    ensures e.Assign? ==> ExprHas(fn, body, e.right) && TidyExpr(e.right) && QuietLabel(b, ExprTakesLabel(e.right))
  {
  }

  lemma StmtParts(fn: Scope, body: Stmt, s: Stmt, b: Builder)
    requires StmtHas(fn, body, s) && Tidy(s) && LabelSafe(s, b)
    ensures s.For? ==>
      && (StmtHas(fn, body, s.start) || ExprHas(fn, body, s.test) || ExprHas(fn, body, s.update) || StmtHas(fn, body, s.body))
      && Tidy(s.start) && TidyExpr(s.test) && TidyExpr(s.update) && Tidy(s.body)
      && QuietLabel(b, StmtTakesLabel(s.start)) && QuietLabel(b, ExprTakesLabel(s.test))
    ensures s.Try? ==>
      && (StmtHas(fn, body, s.block) || (s.handler.Catch? && StmtHas(fn, body, s.handler.body))
          || (s.finalizer.Finally? && StmtHas(fn, body, s.finalizer.body)))
      && Tidy(s.block) && (s.handler.Catch? ==> Tidy(s.handler.body)) && (s.finalizer.Finally? ==> Tidy(s.finalizer.body))
      && b.pendingLabel == ""
  {
  }

  lemma {:induction false} ExprBinds(fn: Scope, body: Stmt, e: Expr, b0: Builder) returns (b: Builder)
    requires ExprHas(fn, body, e) && TidyExpr(e) && QuietLabel(b0, ExprTakesLabel(e))
    ensures Holds(fn, body, b, VisitExpr(e, b0).g)
    decreases e, 2
  {
    hide Holds, Extends;
    HoldsLater(fn, body);
    hide VisitLogical, VisitConditional, VisitAssign, VisitFunction, AssignFlow;
    match e {
      case Not(a) => b := ExprBinds(fn, body, a, b0);
      case TypeOf(a) => b := ExprBinds(fn, body, a, b0);
      case Binary(_, l, r) => b := PairBinds(fn, body, e, l, r, b0);
      case Logical(_, _, _) => b := LogicalBinds(fn, body, e, b0);
      case Conditional(_, _, _) => b := ConditionalBinds(fn, body, e, b0);
      case Assign(_, _, _, _) => b := AssignBinds(fn, body, e, b0);
      case Member(o) => b := ExprBinds(fn, body, o, b0);
      case SetMember(o, r) => b := PairBinds(fn, body, e, o, r, b0);
      case Call(c, a) => b := PairBinds(fn, body, e, c, a, b0);
      case Comma(l, r) => b := PairBinds(fn, body, e, l, r, b0);
      case Opaque(a) => b := ExprBinds(fn, body, a, b0);
      case Closure(f, inner) => b := ClosureBinds(fn, body, f, inner, b0);
    }
  }

  lemma HereBinds(fn: Scope, body: Stmt, b: Builder)
    requires QuietLabel(b, StmtTakesLabel(body))
    ensures Holds(fn, body, b, VisitFunction(fn, body, b).g)
  {
    GrowthChains();
    hide Extends, VisitFunction;
  }

  lemma {:induction false} ClosureBinds(fn: Scope, body: Stmt, f: Scope, inner: Stmt, b0: Builder) returns (b: Builder)
    requires (f == fn && inner == body) || StmtHas(fn, body, inner)
    requires Tidy(inner) && QuietLabel(b0, StmtTakesLabel(inner))
    ensures Holds(fn, body, b, VisitFunction(f, inner, b0).g)
    decreases inner, 3
  {
    hide Holds, Extends, VisitStmt;
    if f == fn && inner == body {
      b := b0;
      HereBinds(fn, body, b0);
    } else {
      HoldsLater(fn, body);
      b := StmtBinds(fn, body, inner, EnterFunction(f, b0));
    }
  }

  lemma {:induction false} PairBinds(fn: Scope, body: Stmt, whole: Expr, e: Expr, f: Expr, b0: Builder) returns (b: Builder)
    requires e < whole && f < whole && (ExprHas(fn, body, e) || ExprHas(fn, body, f)) && TidyExpr(e) && TidyExpr(f)
    requires QuietLabel(b0, ExprTakesLabel(e) || ExprTakesLabel(f))
    ensures Holds(fn, body, b, VisitExpr(f, VisitExpr(e, b0)).g)
    decreases whole, 1
  {
    hide Holds, Extends;
    HoldsLater(fn, body);
    hide VisitExpr;
    if ExprHas(fn, body, e) { b := ExprBinds(fn, body, e, b0); }
    else { b := ExprBinds(fn, body, f, VisitExpr(e, b0)); }
  }

  lemma {:induction false} LogicalBinds(fn: Scope, body: Stmt, e: Expr, b0: Builder) returns (b: Builder)
    requires e.Logical? && ExprHas(fn, body, e) && TidyExpr(e) && QuietLabel(b0, ExprTakesLabel(e))
    ensures Holds(fn, body, b, VisitLogical(e, b0).g)
    decreases e, 1
  {
    hide Holds, Extends, VisitExpr, Branch, Join, ExprHas, TidyExpr, ExprTakesLabel;
    HoldsLater(fn, body);
    ExprParts(fn, body, e, b0);
    var b1 := VisitExpr(e.left, b0);
    var b2 := Branch(b1, b1.flow, e.left, e.lop == And);
    var b3 := Branch(b2, b1.flow, e.left, e.lop != And);
    if ExprHas(fn, body, e.left) { b := ExprBinds(fn, body, e.left, b0); }
    else if e.lop == Nullish { b := ExprBinds(fn, body, e.right, b1); }
    else { b := ExprBinds(fn, body, e.right, b3.(flow := b2.flow)); }
  }

  lemma {:induction false} ConditionalBinds(fn: Scope, body: Stmt, e: Expr, b0: Builder) returns (b: Builder)
    requires e.Conditional? && ExprHas(fn, body, e) && TidyExpr(e) && QuietLabel(b0, ExprTakesLabel(e))
    ensures Holds(fn, body, b, VisitConditional(e, b0).g)
    decreases e, 1
  {
    hide Holds, Extends, VisitExpr, Branch, Join, ExprHas, TidyExpr, ExprTakesLabel;
    HoldsLater(fn, body);
    ExprParts(fn, body, e, b0);
    var b1 := VisitExpr(e.test, b0);
    var b2 := Branch(b1, b1.flow, e.test, true);
    var b3 := VisitExpr(e.yes, b2);
    if ExprHas(fn, body, e.test) { b := ExprBinds(fn, body, e.test, b0); }
    else if ExprHas(fn, body, e.yes) { b := ExprBinds(fn, body, e.yes, b2); }
    else { b := ExprBinds(fn, body, e.no, Branch(b3, b1.flow, e.test, false)); }
  }

  lemma {:induction false} AssignBinds(fn: Scope, body: Stmt, e: Expr, b0: Builder) returns (b: Builder)
    requires e.Assign? && ExprHas(fn, body, e) && TidyExpr(e) && QuietLabel(b0, ExprTakesLabel(e))
    ensures Holds(fn, body, b, VisitAssign(e, b0).g)
    decreases e, 1
  {
    hide Holds, Extends, VisitExpr, Branch, Join, AssignFlow, ExprHas, TidyExpr, ExprTakesLabel;
    HoldsLater(fn, body);
    ExprParts(fn, body, e, b0);
    if e.aop == Plain || e.aop == Compound { b := ExprBinds(fn, body, e.right, b0); }
    else { b := ExprBinds(fn, body, e.right, Branch(Refer(b0, e.id, e.sym, false), b0.flow, AssignTest(e), e.aop == AndAssign)); }
  }

  lemma {:induction false} StmtBinds(fn: Scope, body: Stmt, s: Stmt, b0: Builder) returns (b: Builder)
    requires StmtHas(fn, body, s) && Tidy(s) && LabelSafe(s, b0)
    ensures Holds(fn, body, b, VisitStmt(s, b0).g)
    decreases s, 2
  {
    hide Holds, Extends;
    HoldsLater(fn, body);
    hide VisitDeclare, VisitIf, VisitWhile, VisitDoWhile, VisitFor, VisitForOf, VisitLabeled, VisitSwitch, VisitTry, StartScope, VisitExpr;
    match s {
      case Then(f, r) =>
        if StmtHas(fn, body, f) { b := StmtBinds(fn, body, f, b0); }
        else { b := StmtBinds(fn, body, r, VisitStmt(f, b0)); }
      case Declare(_, _, init, _) => b := DeclareBinds(fn, body, s, b0);
      case Evaluate(e) => b := ExprBinds(fn, body, e, b0);
      case Block(scope, inner) => b := StmtBinds(fn, body, inner, StartScope(b0, scope));
      case If(_, _, _) => b := IfBinds(fn, body, s, b0);
      case While(_, _) => b := WhileBinds(fn, body, s, b0);
      case DoWhile(_, _) => b := DoWhileBinds(fn, body, s, b0);
      case For(_, _, _, _, _) => b := ForBinds(fn, body, s, b0);
      case ForOf(_, _, _, _, _) => b := ForOfBinds(fn, body, s, b0);
      case Labeled(_, _) => b := LabeledBinds(fn, body, s, b0);
      case Return(e) => b := ExprBinds(fn, body, e, b0);
      case Throw(e) => b := ExprBinds(fn, body, e, b0);
      case Switch(_, _, _) => b := SwitchBinds(fn, body, s, b0);
      case Try(_, _, _, _) => b := TryBinds(fn, body, s, b0);
    }
  }

  lemma {:induction false} DeclareBinds(fn: Scope, body: Stmt, s: Stmt, b0: Builder) returns (b: Builder)
    requires s.Declare? && StmtHas(fn, body, s) && Tidy(s) && LabelSafe(s, b0)
    ensures Holds(fn, body, b, VisitDeclare(s, b0).g)
    decreases s, 1
  {
    hide Holds, Extends;
    HoldsLater(fn, body);
    hide VisitExpr, AssignFlow;
    b := ExprBinds(fn, body, s.init, b0);
  }

  lemma {:induction false} IfBinds(fn: Scope, body: Stmt, s: Stmt, b0: Builder) returns (b: Builder)
    requires s.If? && StmtHas(fn, body, s) && Tidy(s) && LabelSafe(s, b0)
    ensures Holds(fn, body, b, VisitIf(s, b0).g)
    decreases s, 1
  {
    hide Holds, Extends;
    HoldsLater(fn, body);
    hide VisitExpr, VisitStmt, Branch, Join;
    var b1 := VisitExpr(s.test, b0);
    var b2 := Branch(b1, b1.flow, s.test, true);
    var b3 := VisitStmt(s.yes, b2);
    if ExprHas(fn, body, s.test) { b := ExprBinds(fn, body, s.test, b0); }
    else if StmtHas(fn, body, s.yes) { b := StmtBinds(fn, body, s.yes, b2); }
    else { b := StmtBinds(fn, body, s.no, Branch(b3, b1.flow, s.test, false)); }
  }

  lemma {:induction false} BodyBinds(fn: Scope, body: Stmt, s: Stmt, b0: Builder, exit: nat, next: nat) returns (b: Builder)
    requires StmtHas(fn, body, s) && Tidy(s)
    ensures Holds(fn, body, b, VisitLoopBody(s, b0, exit, next).g)
    decreases s, 3
  {
    hide VisitStmt;
    var target := JumpTarget(b0.pendingLabel, exit, next, false);
    b := StmtBinds(fn, body, s, b0.(jumps := b0.jumps + [target], pendingLabel := ""));
  }

  lemma {:induction false} WhileBinds(fn: Scope, body: Stmt, s: Stmt, b0: Builder) returns (b: Builder)
    requires s.While? && StmtHas(fn, body, s) && Tidy(s) && LabelSafe(s, b0)
    ensures Holds(fn, body, b, VisitWhile(s, b0).g)
    decreases s, 1
  {
    hide Holds, Extends;
    HoldsLater(fn, body);
    hide VisitExpr, VisitLoopBody, LoopTest, AddAntecedent;
    var loop := |b0.g.nodes|;
    var b1 := AddAntecedent(Add(b0, LoopLabel), loop, b0.flow).(flow := loop);
    var b2 := VisitExpr(s.test, b1);
    var exit := |b2.g.nodes|;
    if ExprHas(fn, body, s.test) { b := ExprBinds(fn, body, s.test, b1); }
    else { b := BodyBinds(fn, body, s.body, LoopTest(Add(b2, BranchLabel), s.test, exit), exit, loop); }
  }

  lemma {:induction false} DoWhileBinds(fn: Scope, body: Stmt, s: Stmt, b0: Builder) returns (b: Builder)
    requires s.DoWhile? && StmtHas(fn, body, s) && Tidy(s) && LabelSafe(s, b0)
    ensures Holds(fn, body, b, VisitDoWhile(s, b0).g)
    decreases s, 1
  {
    hide Holds, Extends;
    HoldsLater(fn, body);
    hide VisitExpr, VisitLoopBody, AddAntecedent, Branch;
    var loop := |b0.g.nodes|;
    var b1 := AddAntecedent(Add(b0, LoopLabel), loop, b0.flow);
    var exit := |b1.g.nodes|;
    var b2 := Add(Add(b1, BranchLabel), BranchLabel).(flow := loop);
    var b3 := VisitLoopBody(s.body, b2, exit, exit + 1);
    var b4 := Resume(AddAntecedent(b3, exit + 1, b3.flow), exit + 1);
    if ExprHas(fn, body, s.test) { b := ExprBinds(fn, body, s.test, b4); }
    else { b := BodyBinds(fn, body, s.body, b2, exit, exit + 1); }
  }

  lemma {:induction false} ForBinds(fn: Scope, body: Stmt, s: Stmt, b0: Builder) returns (b: Builder)
    requires s.For? && StmtHas(fn, body, s) && Tidy(s) && LabelSafe(s, b0)
    ensures Holds(fn, body, b, VisitFor(s, b0).g)
    decreases s, 1
  {
    hide Holds, Extends, StmtTakesLabel, ExprTakesLabel, VisitExpr, VisitStmt, VisitLoopBody, LoopTest, AddAntecedent, StartScope, StmtHas, ExprHas, Tidy, TidyExpr;
    HoldsLater(fn, body);
    StmtParts(fn, body, s, b0);
    var b1 := VisitStmt(s.start, StartScope(b0, s.scope));
    var loop := |b1.g.nodes|;
    var b2 := AddAntecedent(Add(b1, LoopLabel), loop, b1.flow).(flow := loop);
    var b3 := VisitExpr(s.test, b2);
    var exit := |b3.g.nodes|;
    var b4 := LoopTest(Add(b3, BranchLabel), s.test, exit);
    var next := |b4.g.nodes|;
    var b5 := VisitLoopBody(s.body, Add(b4, BranchLabel), exit, next);
    if StmtHas(fn, body, s.start) { b := StmtBinds(fn, body, s.start, StartScope(b0, s.scope)); }
    else if ExprHas(fn, body, s.test) { b := ExprBinds(fn, body, s.test, b2); }
    else if StmtHas(fn, body, s.body) { b := BodyBinds(fn, body, s.body, Add(b4, BranchLabel), exit, next); }
    else { b := ExprBinds(fn, body, s.update, Resume(AddAntecedent(b5, next, b5.flow), next)); }
  }

  lemma {:induction false} ForOfBinds(fn: Scope, body: Stmt, s: Stmt, b0: Builder) returns (b: Builder)
    requires s.ForOf? && StmtHas(fn, body, s) && Tidy(s) && LabelSafe(s, b0)
    ensures Holds(fn, body, b, VisitForOf(s, b0).g)
    decreases s, 1
  {
    hide Holds, Extends;
    HoldsLater(fn, body);
    hide VisitExpr, VisitLoopBody, AddAntecedent, StartScope, AssignFlow;
    var b1 := VisitExpr(s.subject, b0);
    var loop := |b1.g.nodes|;
    var b2 := AddAntecedent(Add(b1, LoopLabel), loop, b1.flow);
    var exit := |b2.g.nodes|;
    var b3 := AddAntecedent(Add(b2, BranchLabel), exit, loop).(flow := loop);
    var b4 := AssignFlow(StartScope(b3, s.scope), s.sym, OtherSite, s.kind != Var, true);
    if ExprHas(fn, body, s.subject) { b := ExprBinds(fn, body, s.subject, b0); }
    else { b := BodyBinds(fn, body, s.body, b4, exit, loop); }
  }

  lemma {:induction false} LabeledBinds(fn: Scope, body: Stmt, s: Stmt, b0: Builder) returns (b: Builder)
    requires s.Labeled? && StmtHas(fn, body, s) && Tidy(s) && LabelSafe(s, b0)
    ensures Holds(fn, body, b, VisitLabeled(s, b0).g)
    decreases s, 1
  {
    hide Holds, Extends;
    HoldsLater(fn, body);
    hide VisitStmt, AddAntecedent;
    var exit := |b0.g.nodes|;
    if IsLoop(s.body) { b := StmtBinds(fn, body, s.body, b0.(pendingLabel := s.tag)); }
    else { b := StmtBinds(fn, body, s.body, Add(b0, BranchLabel).(jumps := b0.jumps + [JumpTarget(s.tag, exit, Dead, true)])); }
  }

  lemma {:induction false} CasesBind(fn: Scope, body: Stmt, cases: Cases, clause: int, pre: nat, b0: Builder) returns (b: Builder)
    requires CasesHave(fn, body, cases) && TidyCases(cases) && b0.pendingLabel == ""
    ensures Holds(fn, body, b, VisitCases(cases, clause, pre, b0).g)
    decreases cases, 3
  {
    hide Holds, Extends;
    HoldsLater(fn, body);
    hide VisitStmt, VisitExpr, EnterClause, Join;
    var b1 := EnterClause(b0, pre, clause);
    var b2 := Join(b1, b1.flow, b0.flow);
    var b3 := VisitExpr(cases.test, b2);
    if ExprHas(fn, body, cases.test) { b := ExprBinds(fn, body, cases.test, b2); }
    else if StmtHas(fn, body, cases.body) { b := StmtBinds(fn, body, cases.body, b3); }
    else { b := CasesBind(fn, body, cases.rest, clause + 1, pre, VisitStmt(cases.body, b3)); }
  }

  lemma {:induction false} SwitchBinds(fn: Scope, body: Stmt, s: Stmt, b0: Builder) returns (b: Builder)
    requires s.Switch? && StmtHas(fn, body, s) && Tidy(s) && LabelSafe(s, b0)
    ensures Holds(fn, body, b, VisitSwitch(s, b0).g)
    decreases s, 1
  {
    hide Holds, Extends;
    HoldsLater(fn, body);
    hide VisitCases, VisitExpr, EnterClause, StartScope, AddAntecedent;
    var b1 := StartScope(VisitExpr(s.discriminant, b0), s.scope);
    var exit := |b1.g.nodes|;
    var b2 := Add(b1, BranchLabel);
    var target := JumpTarget(b2.pendingLabel, exit, Dead, false);
    if ExprHas(fn, body, s.discriminant) { b := ExprBinds(fn, body, s.discriminant, b0); }
    else { b := CasesBind(fn, body, s.cases, 0, b1.flow, b2.(jumps := b0.jumps + [target], pendingLabel := "", flow := Dead)); }
  }

  lemma {:induction false} CatchBinds(fn: Scope, body: Stmt, handler: Catch, pre: nat, b0: Builder) returns (b: Builder)
    requires handler.Catch? && StmtHas(fn, body, handler.body) && Tidy(handler.body) && b0.pendingLabel == ""
    ensures Holds(fn, body, b, VisitCatch(handler, pre, b0).g)
    decreases handler, 3
  {
    hide Holds, Extends;
    HoldsLater(fn, body);
    hide VisitStmt, StartScope, Join;
    b := StmtBinds(fn, body, handler.body, StartScope(b0.(flow := pre), handler.scope));
  }

  lemma {:induction false} TryBinds(fn: Scope, body: Stmt, s: Stmt, b0: Builder) returns (b: Builder)
    requires s.Try? && StmtHas(fn, body, s) && Tidy(s) && LabelSafe(s, b0)
    ensures Holds(fn, body, b, VisitTry(s, b0).g)
    decreases s, 1
  {
    hide Holds, Extends, VisitStmt, VisitCatch, AddAntecedent, StmtHas, Tidy;
    HoldsLater(fn, body);
    StmtParts(fn, body, s, b0);
    var exc := |b0.g.nodes|;
    var b1 := if s.finalizer.NoFinally? then b0
      else AddAntecedent(Add(b0, BranchLabel), exc, b0.flow).(exceptionTargets := b0.exceptionTargets + [exc]);
    var b2 := VisitStmt(s.block, b1);
    var b3 := VisitCatch(s.handler, b0.flow, b2).(exceptionTargets := b0.exceptionTargets);
    if StmtHas(fn, body, s.block) { b := StmtBinds(fn, body, s.block, b1); }
    else if s.handler.Catch? && StmtHas(fn, body, s.handler.body) { b := CatchBinds(fn, body, s.handler, b0.flow, b2); }
    else if b3.flow == Dead { b := StmtBinds(fn, body, s.finalizer.body, Resume(b3, exc)); }
    else { b := StmtBinds(fn, body, s.finalizer.body, MarkBlind(b3, s.id)); }
  }
}
