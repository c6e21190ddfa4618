// The functions whose end the binder marks reachable, in a whole program: exactly those whose body can fall off.
module Marks {
  import opened Syntax
  import opened FlowGraph
  import opened Visit
  import opened Programs
  import opened Liveness
  import opened WaysOut
  import opened Completion
  import Questions

  function EndOf(fn: Scope, body: Stmt): set<Scope> {
    if End in Exits(body, "") then {fn} else {}
  }

  // The functions in e, or in s, that can fall off.
  function FallingInExpr(e: Expr): set<Scope> {
    match e
    case Not(a) => FallingInExpr(a)
    case TypeOf(a) => FallingInExpr(a)
    case Binary(_, l, r) => FallingInExpr(l) + FallingInExpr(r)
    case Logical(_, l, r) => FallingInExpr(l) + FallingInExpr(r)
    case Conditional(t, y, n) => FallingInExpr(t) + FallingInExpr(y) + FallingInExpr(n)
    case Assign(_, _, _, r) => FallingInExpr(r)
    case Member(o) => FallingInExpr(o)
    case SetMember(o, r) => FallingInExpr(o) + FallingInExpr(r)
    case Call(c, a) => FallingInExpr(c) + FallingInExpr(a)
    case Comma(l, r) => FallingInExpr(l) + FallingInExpr(r)
    case Opaque(a) => FallingInExpr(a)
    case Closure(f, body) => FallingInStmt(body) + EndOf(f, body)
    case _ => {}
  }

  function FallingInStmt(s: Stmt): set<Scope> {
    match s
    case Then(f, r) => FallingInStmt(f) + FallingInStmt(r)
    case Declare(_, _, init, _) => FallingInExpr(init)
    case Evaluate(e) => FallingInExpr(e)
    case Block(_, body) => FallingInStmt(body)
    case If(t, y, n) => FallingInExpr(t) + FallingInStmt(y) + FallingInStmt(n)
    case While(t, body) => FallingInExpr(t) + FallingInStmt(body)
    case DoWhile(t, body) => FallingInStmt(body) + FallingInExpr(t)
    case For(_, start, t, u, body) => FallingInStmt(start) + FallingInExpr(t) + FallingInStmt(body) + FallingInExpr(u)
    case ForOf(_, _, _, subject, body) => FallingInExpr(subject) + FallingInStmt(body)
    case Labeled(_, body) => FallingInStmt(body)
    case Return(e) => FallingInExpr(e)
    case Throw(e) => FallingInExpr(e)
    case Switch(_, d, cases) => FallingInExpr(d) + FallingInCases(cases)
    case Try(_, block, handler, finalizer) =>
      FallingInStmt(block)
      + (if handler.Catch? then FallingInStmt(handler.body) else {})
      + (if finalizer.Finally? then FallingInStmt(finalizer.body) else {})
    case _ => {}
  }

  function FallingInCases(cases: Cases): set<Scope> {
    if cases.NoCases? then {} else FallingInExpr(cases.test) + FallingInStmt(cases.body) + FallingInCases(cases.rest)
  }

  // No function in e, or in s, has a loop out of control's reach, and no closure takes a label from a loop.
  predicate SoundExpr(e: Expr) {
    match e
    case Not(a) => SoundExpr(a)
    case TypeOf(a) => SoundExpr(a)
    case Binary(_, l, r) => SoundExpr(l) && SoundExpr(r)
    case Logical(_, l, r) => SoundExpr(l) && SoundExpr(r)
    case Conditional(t, y, n) => SoundExpr(t) && SoundExpr(y) && SoundExpr(n)
    case Assign(_, _, _, r) => SoundExpr(r)
    case Member(o) => SoundExpr(o)
    case SetMember(o, r) => SoundExpr(o) && SoundExpr(r)
    case Call(c, a) => SoundExpr(c) && SoundExpr(a)
    case Comma(l, r) => SoundExpr(l) && SoundExpr(r)
    case Opaque(a) => SoundExpr(a)
    case Closure(_, body) => Sound(body) && Alive(body) && Tidy(body)
    case _ => true
  }

  predicate Sound(s: Stmt) {
    match s
    case Then(f, r) => Sound(f) && Sound(r)
    case Declare(_, _, init, _) => SoundExpr(init)
    case Evaluate(e) => SoundExpr(e)
    case Block(_, body) => Sound(body)
    case If(t, y, n) => SoundExpr(t) && Sound(y) && Sound(n)
    case While(t, body) => SoundExpr(t) && Sound(body)
    case DoWhile(t, body) => SoundExpr(t) && Sound(body)
    case For(_, start, t, u, body) => Sound(start) && SoundExpr(t) && SoundExpr(u) && Sound(body)
    case ForOf(_, _, _, subject, body) => SoundExpr(subject) && Sound(body)
    case Labeled(_, body) => Sound(body) && (IsLoop(body) ==> !Questions.HeadTakesLabel(body))
    case Return(e) => SoundExpr(e)
    case Throw(e) => SoundExpr(e)
    case Switch(_, d, cases) => SoundExpr(d) && SoundCases(cases)
    case Try(_, block, handler, finalizer) =>
      Sound(block) && (handler.Catch? ==> Sound(handler.body)) && (finalizer.Finally? ==> Sound(finalizer.body))
    case _ => true
  }

  predicate SoundCases(cases: Cases) {
    cases.Case? ==> SoundExpr(cases.test) && Sound(cases.body) && SoundCases(cases.rest)
  }

  // ----- what a visit marks -----

  // In state m, come to from b, the functions marked since are those in x.
  ghost predicate Marked(b: Builder, m: Builder, x: set<Scope>) {
    Sane(m) && Around(b, m) && m.g.endReachable == b.g.endReachable + x
  }

  ghost predicate ExprReady(e: Expr, b: Builder) {
    Sane(b) && SoundExpr(e) && QuietLabel(b, ExprTakesLabel(e))
  }

  ghost predicate StmtReady(s: Stmt, b: Builder) {
    Sane(b) && Sound(s) && LabelSafe(s, b)
  }

  lemma MarkedExpr(e: Expr, b: Builder, m: Builder, x: set<Scope>)
    requires Marked(b, m, x) && SoundExpr(e) && QuietLabel(m, ExprTakesLabel(e))
    ensures var r := VisitExpr(e, m);
      && Marked(b, r, x + FallingInExpr(e)) && |m.g.nodes| <= |r.g.nodes| && (m.pendingLabel == "" ==> r.pendingLabel == "")
      && (!ExprTakesLabel(e) ==> r.pendingLabel == m.pendingLabel)
    decreases e, 4
  {
    hide VisitExpr;
    ExprMarks(e, m);
    ExprCalm(e, m);
    ExprPending(e, m);
  }

  lemma MarkedStmt(s: Stmt, b: Builder, m: Builder, x: set<Scope>)
    requires Marked(b, m, x) && Sound(s) && LabelSafe(s, m)
    ensures var r := VisitStmt(s, m);
      && Marked(b, r, x + FallingInStmt(s)) && |m.g.nodes| <= |r.g.nodes| && (m.pendingLabel == "" ==> r.pendingLabel == "")
      && (!StmtTakesLabel(s) ==> r.pendingLabel == m.pendingLabel)
    decreases s, 4
  {
    hide VisitStmt;
    StmtMarks(s, m);
    StmtKeeps(s, m);
    StmtPending(s, m);
  }

  // Nodes added, or the flow or pending label moved.
  lemma MarkedNodes(b: Builder, m: Builder, r: Builder, x: set<Scope>)
    requires Marked(b, m, x) && r.g.antecedents == m.g.antecedents && Around(m, r) && r.g.endReachable == m.g.endReachable
    ensures Marked(b, r, x)
  {
    assert forall l: nat :: Claimed(r.g, l) <==> Claimed(m.g, l);
  }

  lemma MarkedAttach(b: Builder, m: Builder, l: nat, f: nat, x: set<Scope>)
    requires Marked(b, m, x) && l < |m.g.nodes|
    ensures Marked(b, AddAntecedent(m, l, f), x)
  {
    OneAttached(m, l, f);
  }

  lemma MarkedJoin(b: Builder, m: Builder, f1: nat, f2: nat, x: set<Scope>)
    requires Marked(b, m, x)
    ensures Marked(b, Join(m, f1, f2), x)
  {
    JoinCalm(m, f1, f2);
  }

  lemma {:induction false} AttachMarks(b: Builder, ls: seq<nat>, f: nat)
    ensures AddAntecedentToAll(b, ls, f).g.endReachable == b.g.endReachable
    decreases |ls|
  {
    if ls != [] { AttachMarks(AddAntecedent(b, ls[0], f), ls[1..], f); }
  }

  lemma MarkedAssign(b: Builder, m: Builder, y: Symbol, site: Site, init: bool, assign: bool, x: set<Scope>)
    requires Marked(b, m, x)
    ensures Marked(b, AssignFlow(m, y, site, init, assign), x)
  {
    AssignCalm(m, y, site, init, assign);
    var m1 := NoteForeign(m, y);
    var m2 := Step(m1, Assignment(m1.flow, y, site, init, assign));
    AttachMarks(m2, m2.exceptionTargets, m2.flow);
  }

  lemma MarkedItself(b: Builder)
    requires Sane(b)
    ensures Marked(b, b, {})
  {
  }

  // ----- expressions -----

  lemma {:induction false} ExprMarks(e: Expr, b: Builder)
    requires ExprReady(e, b)
    ensures VisitExpr(e, b).g.endReachable == b.g.endReachable + FallingInExpr(e)
    decreases e, 3
  {
    hide Extends, Grows, Visited, Sane, Marked, AssignFlow, VisitLogical, VisitConditional, VisitAssign, VisitFunction;
    MarkedItself(b);
    match e
    case Not(a) => ExprMarks(a, b);
    case TypeOf(a) => ExprMarks(a, b);
    case Binary(_, l, r) => PairMarks(e, l, r, b);
    case Logical(_, _, _) => LogicalMarks(e, b);
    case Conditional(_, _, _) => ConditionalMarks(e, b);
    case Assign(_, _, _, _) => AssignmentMarks(e, b);
    case Update(id, x) =>
      MarkedNodes(b, b, Refer(b, id, x, false), {});
      MarkedAssign(b, Refer(b, id, x, false), x, OtherSite, false, true, {});
      Markings(b, VisitExpr(e, b), {});
    case Member(o) => ExprMarks(o, b);
    case SetMember(o, r) => PairMarks(e, o, r, b);
    case Call(c, a) => PairMarks(e, c, a, b);
    case Comma(l, r) => PairMarks(e, l, r, b);
    case Opaque(a) => ExprMarks(a, b);
    case Closure(f, body) => ClosureMarks(f, body, b);
    case _ =>
  }

  lemma Markings(b: Builder, m: Builder, x: set<Scope>)
    requires Marked(b, m, x)
    ensures m.g.endReachable == b.g.endReachable + x && Sane(m)
  {
  }

  lemma {:induction false} PairMarks(whole: Expr, e: Expr, f: Expr, b: Builder)
    requires e < whole && f < whole && Sane(b) && SoundExpr(e) && SoundExpr(f)
    requires QuietLabel(b, ExprTakesLabel(e)) && QuietLabel(b, ExprTakesLabel(f))
    ensures VisitExpr(f, VisitExpr(e, b)).g.endReachable == b.g.endReachable + (FallingInExpr(e) + FallingInExpr(f))
    decreases whole, 1
  {
    hide Extends, Grows, Visited, Sane, Marked, VisitExpr;
    MarkedItself(b);
    MarkedExpr(e, b, b, {});
    MarkedExpr(f, b, VisitExpr(e, b), {} + FallingInExpr(e));
    Markings(b, VisitExpr(f, VisitExpr(e, b)), {} + FallingInExpr(e) + FallingInExpr(f));
  }

  // A function's end is marked exactly when its body can fall off.
  lemma {:induction false} ClosureMarks(f: Scope, body: Stmt, b: Builder)
    requires Sane(b) && Sound(body) && Alive(body) && Tidy(body) && QuietLabel(b, StmtTakesLabel(body))
    ensures VisitExpr(Closure(f, body), b).g.endReachable == b.g.endReachable + (FallingInStmt(body) + EndOf(f, body))
    decreases body, 4
  {
    hide Extends, Grows, Visited, VisitStmt, VisitExpr, Handed, Sane, Exits;
    EnteredSane(f, b);
    var b1 := EnterFunction(f, b);
    StmtMarks(body, b1);
    StmtCompletes(body, b1);
    if IsLoop(body) { OwnExits(body, b1); }
    ClosureEnd(f, body, b);
  }

  lemma ClosureEnd(f: Scope, body: Stmt, b: Builder)
    ensures var r := VisitStmt(body, EnterFunction(f, b));
      VisitExpr(Closure(f, body), b).g.endReachable == r.g.endReachable + (if r.flow != Dead then {f} else {})
  {
    hide Extends, Grows, Visited, VisitStmt;
  }

  // A loop under a function takes no label but one left pending for it.
  lemma OwnExits(s: Stmt, b: Builder)
    requires IsLoop(s) && QuietLabel(b, StmtTakesLabel(s))
    ensures b.pendingLabel == ""
  {
  }

  lemma {:induction false} LogicalMarks(e: Expr, b: Builder)
    requires e.Logical? && ExprReady(e, b)
    ensures VisitLogical(e, b).g.endReachable == b.g.endReachable + FallingInExpr(e)
    decreases e, 1
  {
    hide Extends, Grows, Visited, Sane, Marked, VisitExpr;
    MarkedItself(b);
    MarkedExpr(e.left, b, b, {});
    var x := {} + FallingInExpr(e.left);
    var b1 := VisitExpr(e.left, b);
    if e.lop == Nullish {
      MarkedExpr(e.right, b, b1, x);
      Markings(b, VisitExpr(e.right, b1), x + FallingInExpr(e.right));
    } else {
      var b2 := Branch(b1, b1.flow, e.left, e.lop == And);
      var b3 := Branch(b2, b1.flow, e.left, e.lop != And);
      var b4 := b3.(flow := b2.flow);
      MarkedNodes(b, b1, b4, x);
      MarkedExpr(e.right, b, b4, x);
      Markings(b, VisitExpr(e.right, b4), x + FallingInExpr(e.right));
    }
  }

  lemma {:induction false} ConditionalMarks(e: Expr, b: Builder)
    requires e.Conditional? && ExprReady(e, b)
    ensures VisitConditional(e, b).g.endReachable == b.g.endReachable + FallingInExpr(e)
    decreases e, 1
  {
    hide Extends, Grows, Visited, Sane, Marked, VisitExpr;
    MarkedItself(b);
    MarkedExpr(e.test, b, b, {});
    var x := {} + FallingInExpr(e.test);
    var b1 := VisitExpr(e.test, b);
    var b2 := Branch(b1, b1.flow, e.test, true);
    MarkedNodes(b, b1, b2, x);
    MarkedExpr(e.yes, b, b2, x);
    var b3 := VisitExpr(e.yes, b2);
    var b4 := Branch(b3, b1.flow, e.test, false);
    MarkedNodes(b, b3, b4, x + FallingInExpr(e.yes));
    MarkedExpr(e.no, b, b4, x + FallingInExpr(e.yes));
    Markings(b, VisitExpr(e.no, b4), x + FallingInExpr(e.yes) + FallingInExpr(e.no));
  }

  lemma {:induction false} AssignmentMarks(e: Expr, b: Builder)
    requires e.Assign? && ExprReady(e, b)
    ensures VisitAssign(e, b).g.endReachable == b.g.endReachable + FallingInExpr(e)
    decreases e, 1
  {
    hide Extends, Grows, Visited, Sane, Marked, VisitExpr, AssignFlow;
    MarkedItself(b);
    var site := AssignmentSite(e.id, e.aop);
    var x := {} + FallingInExpr(e.right);
    if e.aop == Plain || e.aop == Compound {
      MarkedExpr(e.right, b, b, {});
      var b1 := VisitExpr(e.right, b);
      var b2 := Refer(b1, e.id, e.sym, e.aop == Plain);
      MarkedNodes(b, b1, b2, x);
      MarkedAssign(b, b2, e.sym, site, false, true, x);
      Markings(b, AssignFlow(b2, e.sym, site, false, true), x);
    } else {
      var b1 := Branch(Refer(b, e.id, e.sym, false), b.flow, AssignTest(e), e.aop == AndAssign);
      MarkedNodes(b, b, b1, {});
      MarkedExpr(e.right, b, b1, {});
      var b2 := VisitExpr(e.right, b1);
      MarkedAssign(b, b2, e.sym, site, false, true, x);
      Markings(b, AssignFlow(b2, e.sym, site, false, true), x);
    }
  }

  // ----- statements -----

  lemma {:induction false} StmtMarks(s: Stmt, b: Builder)
    requires StmtReady(s, b)
    ensures VisitStmt(s, b).g.endReachable == b.g.endReachable + FallingInStmt(s)
    decreases s, 3
  {
    hide Extends, Grows, Visited, Sane, Marked, StartScope, VisitExpr, VisitDeclare, VisitIf, VisitWhile, VisitDoWhile, VisitFor, VisitForOf, VisitLabeled, VisitSwitch, VisitTry;
    MarkedItself(b);
    match s
    case Then(f, r) =>
      MarkedStmt(f, b, b, {});
      MarkedStmt(r, b, VisitStmt(f, b), {} + FallingInStmt(f));
      Markings(b, VisitStmt(s, b), {} + FallingInStmt(f) + FallingInStmt(r));
    case Declare(_, _, _, _) => DeclareMarks(s, b);
    case Evaluate(e) => ExprMarks(e, b);
    case Block(scope, body) =>
      ScopeMarked(b, b, scope, {});
      MarkedStmt(body, b, StartScope(b, scope), {});
      Markings(b, VisitStmt(s, b), {} + FallingInStmt(body));
    case If(_, _, _) => IfMarks(s, b);
    case While(_, _) => WhileMarks(s, b);
    case DoWhile(_, _) => DoWhileMarks(s, b);
    case For(_, _, _, _, _) => ForMarks(s, b);
    case ForOf(_, _, _, _, _) => ForOfMarks(s, b);
    case Labeled(_, _) => LabeledMarks(s, b);
    case Return(e) => ExprMarks(e, b);
    case Throw(e) => ExprMarks(e, b);
    case Switch(_, _, _) => SwitchMarks(s, b);
    case Try(_, _, _, _) => TryMarks(s, b);
    case _ =>
  }

  lemma ScopeMarked(b: Builder, m: Builder, s: Scope, x: set<Scope>)
    requires Marked(b, m, x)
    ensures Marked(b, StartScope(m, s), x) && StartScope(m, s).pendingLabel == m.pendingLabel
    ensures |m.g.nodes| <= |StartScope(m, s).g.nodes|
  {
    MarkedNodes(b, m, StartScope(m, s), x);
  }

  lemma {:induction false} DeclareMarks(s: Stmt, b: Builder)
    requires s.Declare? && StmtReady(s, b)
    ensures VisitDeclare(s, b).g.endReachable == b.g.endReachable + FallingInStmt(s)
    decreases s, 1
  {
    hide Extends, Grows, Visited, Sane, Marked, VisitExpr, AssignFlow;
    MarkedItself(b);
    var x := {} + FallingInExpr(s.init);
    MarkedExpr(s.init, b, b, {});
    var b1 := VisitExpr(s.init, b);
    var site := DeclarationSite(s.id, s.init != NoExpr);
    MarkedAssign(b, b1, s.sym, site, true, s.init != NoExpr, x);
    MarkedAssign(b, b1, s.sym, site, false, true, x);
    Markings(b, VisitDeclare(s, b), x);
  }

  lemma {:induction false} IfMarks(s: Stmt, b: Builder)
    requires s.If? && StmtReady(s, b)
    ensures VisitIf(s, b).g.endReachable == b.g.endReachable + FallingInStmt(s)
    decreases s, 1
  {
    hide Extends, Grows, Visited, Sane, Marked, VisitExpr, VisitStmt;
    MarkedItself(b);
    MarkedExpr(s.test, b, b, {});
    var x := {} + FallingInExpr(s.test);
    var b1 := VisitExpr(s.test, b);
    var b2 := Branch(b1, b1.flow, s.test, true);
    MarkedNodes(b, b1, b2, x);
    MarkedStmt(s.yes, b, b2, x);
    var b3 := VisitStmt(s.yes, b2);
    var b4 := Branch(b3, b1.flow, s.test, false);
    MarkedNodes(b, b3, b4, x + FallingInStmt(s.yes));
    MarkedStmt(s.no, b, b4, x + FallingInStmt(s.yes));
    Markings(b, VisitStmt(s.no, b4), x + FallingInStmt(s.yes) + FallingInStmt(s.no));
  }

  // ----- loops -----

  lemma TestMarked(b: Builder, m: Builder, test: Expr, exit: nat, x: set<Scope>)
    requires Marked(b, m, x) && exit < |m.g.nodes|
    ensures var r := LoopTest(m, test, exit); Marked(b, r, x) && |m.g.nodes| <= |r.g.nodes| && r.pendingLabel == m.pendingLabel
  {
    hide AddAntecedent, Marked;
    var c := Branch(m, m.flow, test, false);
    MarkedNodes(b, m, c, x);
    MarkedAttach(b, c, exit, c.flow, x);
    var d := if AlwaysTrue(test) then m else AddAntecedent(c, exit, c.flow);
    MarkedNodes(b, d, Branch(d, m.flow, test, true), x);
  }

  // A body under a target at labels there are.
  lemma {:induction false} TargetMarked(body: Stmt, b: Builder, m: Builder, t: JumpTarget, pending: string, x: set<Scope>)
    requires Marked(b, m, x) && t.breakTo < |m.g.nodes| && t.continueTo < |m.g.nodes| && Sound(body)
    requires LabelSafe(body, m.(pendingLabel := pending))
    ensures var r := VisitStmt(body, m.(jumps := m.jumps + [t], pendingLabel := pending));
      Marked(b, r.(jumps := m.jumps), x + FallingInStmt(body)) && |m.g.nodes| <= |r.g.nodes| && (pending == "" ==> r.pendingLabel == "")
    decreases body, 5
  {
    hide VisitStmt;
    var c := m.(jumps := m.jumps + [t], pendingLabel := pending);
    assert Sane(c);
    StmtMarks(body, c);
    StmtKeeps(body, c);
    StmtPending(body, c);
    var r := VisitStmt(body, c);
    assert forall i :: 0 <= i < |m.jumps| ==> c.jumps[i] == m.jumps[i];
  }

  lemma {:induction false} BodyMarked(body: Stmt, b: Builder, m: Builder, exit: nat, next: nat, x: set<Scope>)
    requires Marked(b, m, x) && exit < |m.g.nodes| && next < |m.g.nodes| && Sound(body)
    ensures var r := VisitLoopBody(body, m, exit, next); Marked(b, r, x + FallingInStmt(body)) && |m.g.nodes| <= |r.g.nodes| && r.pendingLabel == ""
    decreases body, 6
  {
    hide VisitStmt, Marked;
    TargetMarked(body, b, m, JumpTarget(m.pendingLabel, exit, next, false), "", x);
  }

  lemma {:induction false} WhileMarks(s: Stmt, b: Builder)
    requires s.While? && StmtReady(s, b)
    ensures VisitWhile(s, b).g.endReachable == b.g.endReachable + FallingInStmt(s)
    decreases s, 1
  {
    hide Extends, Grows, Visited, Sane, Marked, VisitExpr, VisitLoopBody, LoopTest, AddAntecedent, Finish;
    MarkedItself(b);
    var loop, x := |b.g.nodes|, {} + FallingInExpr(s.test);
    MarkedNodes(b, b, Add(b, LoopLabel), {});
    MarkedAttach(b, Add(b, LoopLabel), loop, b.flow, {});
    var b1 := AddAntecedent(Add(b, LoopLabel), loop, b.flow).(flow := loop);
    MarkedNodes(b, AddAntecedent(Add(b, LoopLabel), loop, b.flow), b1, {});
    MarkedExpr(s.test, b, b1, {});
    var b2 := VisitExpr(s.test, b1);
    var exit := |b2.g.nodes|;
    MarkedNodes(b, b2, Add(b2, BranchLabel), x);
    TestMarked(b, Add(b2, BranchLabel), s.test, exit, x);
    var b3 := LoopTest(Add(b2, BranchLabel), s.test, exit);
    BodyMarked(s.body, b, b3, exit, loop, x);
    Markings(b, VisitLoopBody(s.body, b3, exit, loop), x + FallingInStmt(s.body));
  }

  lemma {:induction false} DoWhileMarks(s: Stmt, b: Builder)
    requires s.DoWhile? && StmtReady(s, b)
    ensures VisitDoWhile(s, b).g.endReachable == b.g.endReachable + FallingInStmt(s)
    decreases s, 1
  {
    hide Extends, Grows, Visited, Sane, Marked, VisitExpr, VisitLoopBody, AddAntecedent, Finish;
    MarkedItself(b);
    var loop, x := |b.g.nodes|, {} + FallingInStmt(s.body);
    MarkedNodes(b, b, Add(b, LoopLabel), {});
    MarkedAttach(b, Add(b, LoopLabel), loop, b.flow, {});
    var b1 := AddAntecedent(Add(b, LoopLabel), loop, b.flow);
    var exit := |b1.g.nodes|;
    var b2 := Add(Add(b1, BranchLabel), BranchLabel).(flow := loop);
    MarkedNodes(b, b1, b2, {});
    BodyMarked(s.body, b, b2, exit, exit + 1, {});
    var b3 := VisitLoopBody(s.body, b2, exit, exit + 1);
    MarkedAttach(b, b3, exit + 1, b3.flow, x);
    var b4 := AddAntecedent(b3, exit + 1, b3.flow);
    MarkedNodes(b, b4, Resume(b4, exit + 1), x);
    MarkedExpr(s.test, b, Resume(b4, exit + 1), x);
    Markings(b, VisitExpr(s.test, Resume(b4, exit + 1)), x + FallingInExpr(s.test));
  }

  lemma {:induction false} ForMarks(s: Stmt, b: Builder)
    requires s.For? && StmtReady(s, b)
    ensures VisitFor(s, b).g.endReachable == b.g.endReachable + FallingInStmt(s)
    decreases s, 1
  {
    hide Extends, Grows, Visited, Sane, Marked, VisitExpr, VisitStmt, VisitLoopBody, LoopTest, AddAntecedent, Finish, StartScope;
    MarkedItself(b);
    ScopeMarked(b, b, s.scope, {});
    MarkedStmt(s.start, b, StartScope(b, s.scope), {});
    var x := {} + FallingInStmt(s.start);
    var b0 := VisitStmt(s.start, StartScope(b, s.scope));
    var loop := |b0.g.nodes|;
    MarkedNodes(b, b0, Add(b0, LoopLabel), x);
    MarkedAttach(b, Add(b0, LoopLabel), loop, b0.flow, x);
    var b1 := AddAntecedent(Add(b0, LoopLabel), loop, b0.flow).(flow := loop);
    MarkedNodes(b, AddAntecedent(Add(b0, LoopLabel), loop, b0.flow), b1, x);
    MarkedExpr(s.test, b, b1, x);
    var y := x + FallingInExpr(s.test);
    var b2 := VisitExpr(s.test, b1);
    var exit := |b2.g.nodes|;
    MarkedNodes(b, b2, Add(b2, BranchLabel), y);
    TestMarked(b, Add(b2, BranchLabel), s.test, exit, y);
    var b3 := LoopTest(Add(b2, BranchLabel), s.test, exit);
    var next := |b3.g.nodes|;
    MarkedNodes(b, b3, Add(b3, BranchLabel), y);
    BodyMarked(s.body, b, Add(b3, BranchLabel), exit, next, y);
    var z := y + FallingInStmt(s.body);
    var b4 := VisitLoopBody(s.body, Add(b3, BranchLabel), exit, next);
    MarkedAttach(b, b4, next, b4.flow, z);
    var b5 := AddAntecedent(b4, next, b4.flow);
    MarkedNodes(b, b5, Resume(b5, next), z);
    MarkedExpr(s.update, b, Resume(b5, next), z);
    Markings(b, VisitExpr(s.update, Resume(b5, next)), z + FallingInExpr(s.update));
  }

  lemma {:induction false} ForOfMarks(s: Stmt, b: Builder)
    requires s.ForOf? && StmtReady(s, b)
    ensures VisitForOf(s, b).g.endReachable == b.g.endReachable + FallingInStmt(s)
    decreases s, 1
  {
    hide Extends, Grows, Visited, Sane, Marked, VisitExpr, VisitLoopBody, AddAntecedent, Finish, StartScope, AssignFlow;
    MarkedItself(b);
    MarkedExpr(s.subject, b, b, {});
    var x := {} + FallingInExpr(s.subject);
    var b0 := VisitExpr(s.subject, b);
    var loop := |b0.g.nodes|;
    MarkedNodes(b, b0, Add(b0, LoopLabel), x);
    MarkedAttach(b, Add(b0, LoopLabel), loop, b0.flow, x);
    var b1 := AddAntecedent(Add(b0, LoopLabel), loop, b0.flow);
    var exit := |b1.g.nodes|;
    MarkedNodes(b, b1, Add(b1, BranchLabel), x);
    MarkedAttach(b, Add(b1, BranchLabel), exit, loop, x);
    var b2 := AddAntecedent(Add(b1, BranchLabel), exit, loop);
    MarkedNodes(b, b2, b2.(flow := loop), x);
    ScopeMarked(b, b2.(flow := loop), s.scope, x);
    var b3 := StartScope(b2.(flow := loop), s.scope);
    MarkedAssign(b, b3, s.sym, OtherSite, s.kind != Var, true, x);
    AssignGrows(b3, s);
    var b4 := AssignFlow(b3, s.sym, OtherSite, s.kind != Var, true);
    BodyMarked(s.body, b, b4, exit, loop, x);
    Markings(b, VisitLoopBody(s.body, b4, exit, loop), x + FallingInStmt(s.body));
  }

  lemma AssignGrows(b: Builder, s: Stmt)
    requires s.ForOf?
    ensures |b.g.nodes| <= |AssignFlow(b, s.sym, OtherSite, s.kind != Var, true).g.nodes|
  {
    hide AssignFlow;
  }

  // ----- labels, switches and tries -----

  lemma {:induction false} LabeledMarks(s: Stmt, b: Builder)
    requires s.Labeled? && StmtReady(s, b)
    ensures VisitLabeled(s, b).g.endReachable == b.g.endReachable + FallingInStmt(s)
    decreases s, 1
  {
    hide Extends, Grows, Visited, Marked, VisitStmt, AddAntecedent, Finish;
    if IsLoop(s.body) {
      StmtMarks(s.body, b.(pendingLabel := s.tag));
    } else {
      MarkedItself(b);
      var exit := |b.g.nodes|;
      var b1 := Add(b, BranchLabel);
      MarkedNodes(b, b, b1, {});
      TargetMarked(s.body, b, b1, JumpTarget(s.tag, exit, Dead, true), b.pendingLabel, {});
      Markings(b, VisitStmt(s.body, b1.(jumps := b1.jumps + [JumpTarget(s.tag, exit, Dead, true)])).(jumps := b1.jumps), {} + FallingInStmt(s.body));
    }
  }

  lemma {:induction false} CasesMark(cases: Cases, clause: int, pre: nat, b: Builder)
    requires Sane(b) && SoundCases(cases) && b.pendingLabel == ""
    ensures VisitCases(cases, clause, pre, b).g.endReachable == b.g.endReachable + FallingInCases(cases)
    decreases cases, 1
  {
    hide Extends, Grows, Visited, Sane, Marked, VisitExpr, VisitStmt, EnterClause, Join;
    MarkedItself(b);
    if cases.Case? {
      var b1 := EnterClause(b, pre, clause);
      ClauseMarked(b, b, pre, clause, {});
      MarkedJoin(b, b1, b1.flow, b.flow, {});
      var b2 := Join(b1, b1.flow, b.flow);
      MarkedExpr(cases.test, b, b2, {});
      var x := {} + FallingInExpr(cases.test);
      var b3 := VisitExpr(cases.test, b2);
      MarkedStmt(cases.body, b, b3, x);
      var b4 := VisitStmt(cases.body, b3);
      Markings(b, b4, x + FallingInStmt(cases.body));
      CasesMark(cases.rest, clause + 1, pre, b4);
    }
  }

  lemma ClauseMarked(b: Builder, m: Builder, f: nat, clause: int, x: set<Scope>)
    requires Marked(b, m, x)
    ensures Marked(b, EnterClause(m, f, clause), x) && EnterClause(m, f, clause).pendingLabel == m.pendingLabel
  {
    MarkedNodes(b, m, EnterClause(m, f, clause), x);
  }

  lemma {:induction false} SwitchMarks(s: Stmt, b: Builder)
    requires s.Switch? && StmtReady(s, b)
    ensures VisitSwitch(s, b).g.endReachable == b.g.endReachable + FallingInStmt(s)
    decreases s, 1
  {
    hide Extends, Grows, Visited, Sane, Marked, VisitExpr, VisitCases, StartScope;
    MarkedItself(b);
    MarkedExpr(s.discriminant, b, b, {});
    var x := {} + FallingInExpr(s.discriminant);
    ScopeMarked(b, VisitExpr(s.discriminant, b), s.scope, x);
    var b0 := StartScope(VisitExpr(s.discriminant, b), s.scope);
    var b1 := Add(b0, BranchLabel);
    MarkedNodes(b, b0, b1, x);
    var t := JumpTarget(b1.pendingLabel, |b0.g.nodes|, Dead, false);
    var b2 := b1.(jumps := b.jumps + [t], pendingLabel := "", flow := Dead);
    PushedMarked(b, b1, t, b2, x);
    CasesMark(s.cases, 0, b0.flow, b2);
    Markings(b, b1, x);
  }

  lemma PushedMarked(b: Builder, m: Builder, t: JumpTarget, c: Builder, x: set<Scope>)
    requires Marked(b, m, x) && t.breakTo < |m.g.nodes| && t.continueTo < |m.g.nodes|
    requires c == m.(jumps := b.jumps + [t], pendingLabel := c.pendingLabel, flow := c.flow)
    ensures Sane(c)
  {
  }

  lemma {:induction false} CatchMarked(handler: Catch, pre: nat, b: Builder, m: Builder, x: set<Scope>)
    requires Marked(b, m, x) && m.pendingLabel == "" && (handler.Catch? ==> Sound(handler.body))
    ensures var r := VisitCatch(handler, pre, m);
      Marked(b, r, x + (if handler.Catch? then FallingInStmt(handler.body) else {})) && |m.g.nodes| <= |r.g.nodes| && r.pendingLabel == ""
    decreases handler, 5
  {
    hide Extends, Grows, Sane, Marked, VisitStmt, StartScope, Join;
    CatchGrows(handler, pre, m);
    if handler.Catch? {
      MarkedNodes(b, m, m.(flow := pre), x);
      ScopeMarked(b, m.(flow := pre), handler.scope, x);
      var m1 := StartScope(m.(flow := pre), handler.scope);
      MarkedStmt(handler.body, b, m1, x);
      var m2 := VisitStmt(handler.body, m1);
      MarkedJoin(b, m2, m.flow, m2.flow, x + FallingInStmt(handler.body));
    } else {
      assert x + {} == x;
    }
  }

  lemma CatchGrows(handler: Catch, pre: nat, m: Builder)
    ensures var r := VisitCatch(handler, pre, m); |m.g.nodes| <= |r.g.nodes| && (m.pendingLabel == "" ==> r.pendingLabel == "")
  {
    hide VisitCatch;
  }

  lemma {:induction false} TryMarks(s: Stmt, b: Builder)
    requires s.Try? && StmtReady(s, b)
    ensures VisitTry(s, b).g.endReachable == b.g.endReachable + FallingInStmt(s)
    decreases s, 1
  {
    hide Extends, Grows, Visited, Marked, VisitStmt, VisitCatch, AddAntecedent, Finish;
    MarkedItself(b);
    var y := if s.handler.Catch? then FallingInStmt(s.handler.body) else {};
    match s.finalizer
    case NoFinally =>
      MarkedStmt(s.block, b, b, {});
      CatchMarked(s.handler, b.flow, b, VisitStmt(s.block, b), {} + FallingInStmt(s.block));
      Markings(b, VisitTry(s, b), {} + FallingInStmt(s.block) + y);
    case Finally(last) =>
      var exc := |b.g.nodes|;
      MarkedNodes(b, b, Add(b, BranchLabel), {});
      MarkedAttach(b, Add(b, BranchLabel), exc, b.flow, {});
      var b1 := AddAntecedent(Add(b, BranchLabel), exc, b.flow);
      var c := b1.(exceptionTargets := b.exceptionTargets + [exc]);
      WatchedMarked(s, b, b1, exc);
      var b3 := VisitCatch(s.handler, b.flow, VisitStmt(s.block, c)).(exceptionTargets := b.exceptionTargets);
      var x := FallingInStmt(s.block) + y;
      var e := if b3.flow == Dead then Resume(b3, exc) else MarkBlind(b3, s.id);
      MarkedNodes(b, b3, e, x);
      MarkedStmt(last, b, e, x);
      Markings(b, VisitStmt(last, e), x + FallingInStmt(last));
  }

  // The block and its catch, a finally waiting at exc.
  lemma {:induction false} WatchedMarked(s: Stmt, b: Builder, m: Builder, exc: nat)
    requires s.Try? && Sound(s) && Marked(b, m, {}) && exc == |b.g.nodes| < |m.g.nodes| && m.pendingLabel == ""
    ensures var r := VisitCatch(s.handler, b.flow, VisitStmt(s.block, m.(exceptionTargets := b.exceptionTargets + [exc])));
      && Marked(b, r.(exceptionTargets := b.exceptionTargets), FallingInStmt(s.block) + (if s.handler.Catch? then FallingInStmt(s.handler.body) else {}))
      && r.pendingLabel == ""
    decreases s, 0
  {
    hide VisitStmt, VisitCatch, Extends, Grows, Visited;
    var c := m.(exceptionTargets := b.exceptionTargets + [exc]);
    MarkedItself(c);
    MarkedStmt(s.block, c, c, {});
    CatchMarked(s.handler, b.flow, c, VisitStmt(s.block, c), {} + FallingInStmt(s.block));
  }

  // ----- the theorem -----

  // The functions that can fall off are those with a body that can.
  lemma {:induction false} HeldInExpr(fn: Scope, body: Stmt, e: Expr)
    requires fn in EndOf(fn, body)
    ensures ExprHas(fn, body, e) ==> fn in FallingInExpr(e)
    decreases e, 1
  {
    hide EndOf, Exits;
    match e
    case Not(a) => HeldInExpr(fn, body, a);
    case TypeOf(a) => HeldInExpr(fn, body, a);
    case Binary(_, l, r) => HeldInPair(fn, body, e, l, r);
    case Logical(_, l, r) => HeldInPair(fn, body, e, l, r);
    case Conditional(_, _, _) => HeldInConditional(fn, body, e);
    case Assign(_, _, _, r) => HeldInExpr(fn, body, r);
    case Member(o) => HeldInExpr(fn, body, o);
    case SetMember(o, r) => HeldInPair(fn, body, e, o, r);
    case Call(c, a) => HeldInPair(fn, body, e, c, a);
    case Comma(l, r) => HeldInPair(fn, body, e, l, r);
    case Opaque(a) => HeldInExpr(fn, body, a);
    case Closure(_, _) => HeldInClosure(fn, body, e);
    case _ =>
  }

  lemma {:induction false} HeldInClosure(fn: Scope, body: Stmt, e: Expr)
    requires e.Closure? && fn in EndOf(fn, body)
    ensures ExprHas(fn, body, e) ==> fn in FallingInExpr(e)
    decreases e, 0
  {
    hide EndOf, Exits, StmtHas, FallingInStmt;
    HeldInStmt(fn, body, e.body);
  }

  lemma {:induction false} HeldInPair(fn: Scope, body: Stmt, whole: Expr, l: Expr, r: Expr)
    requires fn in EndOf(fn, body) && l < whole && r < whole
    ensures ExprHas(fn, body, l) || ExprHas(fn, body, r) ==> fn in FallingInExpr(l) + FallingInExpr(r)
    decreases whole, 0
  {
    hide EndOf, Exits, FallingInExpr, ExprHas;
    HeldInExpr(fn, body, l);
    HeldInExpr(fn, body, r);
  }

  lemma {:induction false} HeldInConditional(fn: Scope, body: Stmt, e: Expr)
    requires e.Conditional? && fn in EndOf(fn, body)
    ensures ExprHas(fn, body, e) ==> fn in FallingInExpr(e)
    decreases e, 0
  {
    hide EndOf, Exits;
    HeldInExpr(fn, body, e.test);
    HeldInExpr(fn, body, e.yes);
    HeldInExpr(fn, body, e.no);
  }

  lemma {:induction false} HeldInStmt(fn: Scope, body: Stmt, s: Stmt)
    requires fn in EndOf(fn, body)
    ensures StmtHas(fn, body, s) ==> fn in FallingInStmt(s)
    decreases s, 1
  {
    hide EndOf, Exits;
    match s
    case Then(f, r) => HeldInStmt(fn, body, f); HeldInStmt(fn, body, r);
    case Declare(_, _, init, _) => HeldInExpr(fn, body, init);
    case Evaluate(e) => HeldInExpr(fn, body, e);
    case Block(_, inner) => HeldInStmt(fn, body, inner);
    case If(_, _, _) => HeldInIf(fn, body, s);
    case While(_, _) => HeldInLoop(fn, body, s);
    case DoWhile(_, _) => HeldInLoop(fn, body, s);
    case For(_, _, _, _, _) => HeldInLoop(fn, body, s);
    case ForOf(_, _, _, _, _) => HeldInLoop(fn, body, s);
    case Labeled(_, inner) => HeldInStmt(fn, body, inner);
    case Return(e) => HeldInExpr(fn, body, e);
    case Throw(e) => HeldInExpr(fn, body, e);
    case Switch(_, _, _) => HeldInSwitch(fn, body, s);
    case Try(_, _, _, _) => HeldInTry(fn, body, s);
    case _ =>
  }

  lemma {:induction false} HeldInIf(fn: Scope, body: Stmt, s: Stmt)
    requires s.If? && fn in EndOf(fn, body)
    ensures StmtHas(fn, body, s) ==> fn in FallingInStmt(s)
    decreases s, 0
  {
    hide EndOf, Exits;
    HeldInExpr(fn, body, s.test);
    HeldInStmt(fn, body, s.yes);
    HeldInStmt(fn, body, s.no);
  }

  lemma {:induction false} HeldInLoop(fn: Scope, body: Stmt, s: Stmt)
    requires IsLoop(s) && fn in EndOf(fn, body)
    ensures StmtHas(fn, body, s) ==> fn in FallingInStmt(s)
    decreases s, 0
  {
    hide EndOf, Exits;
    HeldInStmt(fn, body, s.body);
    if s.ForOf? { HeldInExpr(fn, body, s.subject); } else { HeldInExpr(fn, body, s.test); }
    if s.For? {
      HeldInStmt(fn, body, s.start);
      HeldInExpr(fn, body, s.update);
    }
  }

  lemma {:induction false} HeldInSwitch(fn: Scope, body: Stmt, s: Stmt)
    requires s.Switch? && fn in EndOf(fn, body)
    ensures StmtHas(fn, body, s) ==> fn in FallingInStmt(s)
    decreases s, 0
  {
    hide EndOf, Exits;
    HeldInExpr(fn, body, s.discriminant);
    HeldInCases(fn, body, s.cases);
  }

  lemma {:induction false} HeldInTry(fn: Scope, body: Stmt, s: Stmt)
    requires s.Try? && fn in EndOf(fn, body)
    ensures StmtHas(fn, body, s) ==> fn in FallingInStmt(s)
    decreases s, 0
  {
    hide EndOf, Exits;
    HeldInStmt(fn, body, s.block);
    if s.handler.Catch? { HeldInStmt(fn, body, s.handler.body); }
    if s.finalizer.Finally? { HeldInStmt(fn, body, s.finalizer.body); }
  }

  lemma {:induction false} HeldInCases(fn: Scope, body: Stmt, cases: Cases)
    requires fn in EndOf(fn, body)
    ensures CasesHave(fn, body, cases) ==> fn in FallingInCases(cases)
    decreases cases
  {
    if cases.Case? {
      HeldInExpr(fn, body, cases.test);
      HeldInStmt(fn, body, cases.body);
      HeldInCases(fn, body, cases.rest);
    }
  }

  lemma {:induction false} FallerInExpr(fn: Scope, e: Expr) returns (body: Stmt)
    requires fn in FallingInExpr(e)
    ensures ExprHas(fn, body, e) && End in Exits(body, "")
    decreases e
  {
    hide Exits;
    match e {
      case Not(a) => body := FallerInExpr(fn, a);
      case TypeOf(a) => body := FallerInExpr(fn, a);
      case Binary(_, l, r) => if fn in FallingInExpr(l) { body := FallerInExpr(fn, l); } else { body := FallerInExpr(fn, r); }
      case Logical(_, l, r) => if fn in FallingInExpr(l) { body := FallerInExpr(fn, l); } else { body := FallerInExpr(fn, r); }
      case Conditional(t, y, n) =>
        if fn in FallingInExpr(t) { body := FallerInExpr(fn, t); }
        else if fn in FallingInExpr(y) { body := FallerInExpr(fn, y); }
        else { body := FallerInExpr(fn, n); }
      case Assign(_, _, _, r) => body := FallerInExpr(fn, r);
      case Member(o) => body := FallerInExpr(fn, o);
      case SetMember(o, r) => if fn in FallingInExpr(o) { body := FallerInExpr(fn, o); } else { body := FallerInExpr(fn, r); }
      case Call(c, a) => if fn in FallingInExpr(c) { body := FallerInExpr(fn, c); } else { body := FallerInExpr(fn, a); }
      case Comma(l, r) => if fn in FallingInExpr(l) { body := FallerInExpr(fn, l); } else { body := FallerInExpr(fn, r); }
      case Opaque(a) => body := FallerInExpr(fn, a);
      case Closure(_, inner) => if fn in FallingInStmt(inner) { body := FallerInStmt(fn, inner); } else { body := inner; }
    }
  }

  lemma {:induction false} FallerInStmt(fn: Scope, s: Stmt) returns (body: Stmt)
    requires fn in FallingInStmt(s)
    ensures StmtHas(fn, body, s) && End in Exits(body, "")
    decreases s
  {
    hide Exits;
    match s {
      case Then(f, r) => if fn in FallingInStmt(f) { body := FallerInStmt(fn, f); } else { body := FallerInStmt(fn, r); }
      case Declare(_, _, init, _) => body := FallerInExpr(fn, init);
      case Evaluate(e) => body := FallerInExpr(fn, e);
      case Block(_, inner) => body := FallerInStmt(fn, inner);
      case If(t, y, n) =>
        if fn in FallingInExpr(t) { body := FallerInExpr(fn, t); }
        else if fn in FallingInStmt(y) { body := FallerInStmt(fn, y); }
        else { body := FallerInStmt(fn, n); }
      case While(t, inner) => if fn in FallingInExpr(t) { body := FallerInExpr(fn, t); } else { body := FallerInStmt(fn, inner); }
      case DoWhile(t, inner) => if fn in FallingInExpr(t) { body := FallerInExpr(fn, t); } else { body := FallerInStmt(fn, inner); }
      case For(_, start, t, u, inner) =>
        if fn in FallingInStmt(start) { body := FallerInStmt(fn, start); }
        else if fn in FallingInExpr(t) { body := FallerInExpr(fn, t); }
        else if fn in FallingInExpr(u) { body := FallerInExpr(fn, u); }
        else { body := FallerInStmt(fn, inner); }
      case ForOf(_, _, _, subject, inner) =>
        if fn in FallingInExpr(subject) { body := FallerInExpr(fn, subject); } else { body := FallerInStmt(fn, inner); }
      case Labeled(_, inner) => body := FallerInStmt(fn, inner);
      case Return(e) => body := FallerInExpr(fn, e);
      case Throw(e) => body := FallerInExpr(fn, e);
      case Switch(_, d, cases) => if fn in FallingInExpr(d) { body := FallerInExpr(fn, d); } else { body := FallerInCases(fn, cases); }
      case Try(_, block, handler, finalizer) =>
        if fn in FallingInStmt(block) { body := FallerInStmt(fn, block); }
        else if handler.Catch? && fn in FallingInStmt(handler.body) { body := FallerInStmt(fn, handler.body); }
        else { body := FallerInStmt(fn, finalizer.body); }
    }
  }

  lemma {:induction false} FallerInCases(fn: Scope, cases: Cases) returns (body: Stmt)
    requires fn in FallingInCases(cases)
    ensures CasesHave(fn, body, cases) && End in Exits(body, "")
    decreases cases
  {
    if fn in FallingInExpr(cases.test) { body := FallerInExpr(fn, cases.test); }
    else if fn in FallingInStmt(cases.body) { body := FallerInStmt(fn, cases.body); }
    else { body := FallerInCases(fn, cases.rest); }
  }

  // A function expression's end is marked reachable in a program's final graph if and only if its body can
  // fall off.
  lemma EndReachableExact(program: Stmt, fn: Scope)
    requires Sound(program)
    ensures fn in VisitProgram(program).g.endReachable <==> exists body :: StmtHas(fn, body, program) && End in Exits(body, "")
  {
    hide VisitStmt, FallingInStmt;
    var b := EnterFunction(ModuleScope, NothingBound);
    assert Sane(NothingBound);
    EnteredSane(ModuleScope, NothingBound);
    StmtMarks(program, b);
    forall body | StmtHas(fn, body, program) && End in Exits(body, "") ensures fn in FallingInStmt(program) {
      HeldInStmt(fn, body, program);
    }
    if fn in FallingInStmt(program) { var body := FallerInStmt(fn, program); }
  }
}
