// Whole programs the analyses answer wrongly: for each condition of the theorems on what a reference may
// read, one that meets the others, and a run of it.
module WrongAnswers {
  import opened Syntax
  import opened FlowGraph
  import opened Visit
  import opened Semantics
  import opened Walks
  import opened Questions
  import opened Soundness
  import opened Scoping
  import Programs

  // ----- walks that end early -----

  lemma FoundAtOnce(g: Binding, w: Walk, n: nat)
    requires n < |g.nodes| && MarkOf(w, g.nodes[n]) == Found
    ensures !Meets(g, w, n, Missed)
  {
    if t: nat, path :| t < |g.nodes| && LeadsTo(g, w, n, t, path) && MarkOf(w, g.nodes[t]) == Missed {
      assert false;
    }
  }

  lemma FoundNext(g: Binding, w: Walk, n: nat, p: nat)
    requires n < |g.nodes| && MarkOf(w, g.nodes[n]) == Pass && Predecessors(g, n) == [p]
    requires p < |g.nodes| && MarkOf(w, g.nodes[p]) == Found
    ensures !Meets(g, w, n, Missed)
  {
    forall t: nat, path | LeadsTo(g, w, n, t, path) ensures t == n || t == p {
      if |path| > 1 { assert BackPath(g, w, path[1..]); }
    }
  }

  // ----- programs and runs -----

  // Nothing is stored from elsewhere; every call returns, or throws; bindings without a dead zone hold a value at first.
  function Running(throws: bool, held: Value): Activation {
    Activation(ModuleScope, {}, (x: Symbol) => held, (n: nat) => Choice(Undefined, throws, false, [], (x: Symbol) => Undefined))
  }

  const Top: Builder := EnterFunction(ModuleScope, NothingBound)

  lemma TopNodes()
    ensures Top.g.nodes == [Unreachable, Start(ModuleScope)] && Top.flow == 1 && Top.container == ModuleScope
    ensures Top.g.antecedents == map[] && Top.g.accesses == [] && Top.g.blindTries == {} && Top.jumps == []
    ensures Top.exceptionTargets == [] && Top.pendingLabel == ""
  {
  }

  // In this run of this program, reference c is evaluated after p.
  ghost predicate Runs(program: Stmt, a: Activation, c: Access, p: History) {
    Witnessed(program, ModuleScope, program, a, 1, c, p)
  }

  // c is answered as assigned, and evaluated where nothing has been stored.
  ghost predicate WronglyAssigned(program: Stmt, a: Activation, c: Access, p: History) {
    && Runs(program, a, c, p)
    && !Meets(VisitProgram(program).g, ForAssign(c.sym), c.flow, Missed) && !StoredSinceEntry(c.sym, p)
  }

  // The finally blocks are as the theorems ask.
  ghost predicate NoDetour(q: Question, program: Stmt, c: Access) {
    !q.Reached? && Straight(q, VisitProgram(program).g.blindTries, c.id, program, q.sym.scope == ContainerOf(q.sym.scope))
  }

  // x = 0
  function Set(id: nat, x: Symbol): Expr {
    Assign(Plain, id, x, Literal(Number(0)))
  }

  function Site1(id: nat): Site {
    AssignmentSite(id, Plain)
  }

  // ----- compound assignments -----

  // x op= (x = 0)
  function CompoundProgram(x: Symbol): Stmt {
    Evaluate(Assign(Compound, 0, x, Set(1, x)))
  }

  lemma CompoundBound(x: Symbol) returns (r: Builder)
    requires x.scope == ModuleScope
    ensures r == VisitProgram(CompoundProgram(x))
    ensures r.g.accesses == [Access(1, x, 1, ModuleScope, true), Access(0, x, 2, ModuleScope, false)]
    ensures 2 < |r.g.nodes| && r.g.nodes[2] == Assignment(1, x, Site1(1), false, true)
  {
    TopNodes();
    r := VisitProgram(CompoundProgram(x));
    var e := Assign(Compound, 0, x, Set(1, x));
    assert VisitExpr(Set(1, x).right, Top) == Top;
    var b1 := Refer(Top, 1, x, true);
    var b2 := AssignFlow(b1, x, Site1(1), false, true);
    assert VisitExpr(Set(1, x), Top) == b2;
    assert r == VisitExpr(e, Top);
    assert r == AssignFlow(Refer(b2, 0, x, false), x, AssignmentSite(0, Compound), false, true);
  }

  lemma SoleOfTwo(g: Binding, c: Access, d: Access)
    requires g.accesses == [d, c] && c.id != d.id
    ensures Sole(g, c)
  {
  }

  // Its names are in scope, and its labels in order.
  ghost predicate Formed(program: Stmt) {
    Scoped(program, {ModuleScope}, ModuleScope) && Programs.Tidy(program)
  }

  lemma SetFormed(id: nat, x: Symbol, open: set<Scope>)
    requires x.scope == ModuleScope && ModuleScope in open
    ensures ScopedExpr(Set(id, x), open, ModuleScope) && Programs.TidyExpr(Set(id, x))
  {
    assert ScopedExpr(Set(id, x).right, open, ModuleScope);
  }

  lemma ReadFormed(id: nat, x: Symbol, open: set<Scope>)
    requires x.scope in open
    ensures Scoped(Evaluate(Name(id, x)), open, ModuleScope) && Programs.Tidy(Evaluate(Name(id, x)))
  {
    assert ScopedExpr(Name(id, x), open, ModuleScope);
  }

  lemma CompoundRuns(x: Symbol, a: Activation)
    ensures Evaluated(Execute(CompoundProgram(x), a, 1).run.history, 0, x, false, Begin)
  {
    var e := Assign(Compound, 0, x, Set(1, x));
    var k := After(Begin, Use(0, x, false));
    var l := Load(x, Run(k, 0), a);
    StoresWas(a.oracle(0).stores, k, a, k);
    assert Execute(CompoundProgram(x), a, 1).run == Eval(e, Run(Begin, 0), a).run == EvalAssign(e, Run(Begin, 0), a).run;
    if !l.thrown {
      SetWas(1, x, l.run, a, k);
      var v := Eval(Set(1, x), l.run, a);
      StoresWas(a.oracle(v.run.clock).stores, v.run.history, a, k);
    }
  }

  lemma {:induction false} StoresWas(ws: seq<(Symbol, Value)>, h: History, a: Activation, k: History)
    requires Was(h, k)
    ensures Was(Stores(ws, h, a), k)
    decreases |ws|
  {
    if ws != [] {
      var (y, v) := ws[0];
      StoresWas(ws[1..], if y in a.foreign && Current(y, h, a).Holds? then After(h, ForeignStore(y, v)) else h, a, k);
    }
  }

  lemma SetWas(id: nat, x: Symbol, r: Run, a: Activation, k: History)
    requires Was(r.history, k)
    ensures Was(Eval(Set(id, x), r, a).run.history, k)
  {
    assert Eval(Set(id, x).right, r, a) == Result(r, Number(0), false);
  }

  lemma CompoundFormed(x: Symbol)
    requires x.scope == ModuleScope
    ensures Formed(CompoundProgram(x))
    ensures forall q, tries, id, inside :: Straight(q, tries, id, CompoundProgram(x), inside)
  {
    SetFormed(1, x, {ModuleScope});
    hide Set;
    assert ScopedExpr(Assign(Compound, 0, x, Set(1, x)), {ModuleScope}, ModuleScope);
    assert Programs.TidyExpr(Assign(Compound, 0, x, Set(1, x)));
  }

  // The read of a compound assignment is bound after its right side, and done before it.
  lemma CompoundReadWrong(x: Symbol) returns (c: Access)
    requires x.scope == ModuleScope
    ensures WronglyAssigned(CompoundProgram(x), Running(false, Number(1)), c, Begin) && c.sym == x && !c.written
    ensures NoDetour(Unassigned(x), CompoundProgram(x), c)
  {
    var r := CompoundBound(x);
    c := Access(0, x, 2, ModuleScope, false);
    SoleOfTwo(r.g, c, Access(1, x, 1, ModuleScope, true));
    FoundAtOnce(r.g, ForAssign(x), 2);
    CompoundRuns(x, Running(false, Number(1)));
    CompoundFormed(x);
    hide VisitProgram, Execute, Set, CompoundProgram;
  }

  // ----- case tests -----

  const Body: Scope := BlockScope(0, ModuleScope)

  // switch (0) { case 0: case (x = 0): x }
  function FallingCases(x: Symbol): Cases {
    Case(Literal(Number(0)), Empty, Case(Set(1, x), Evaluate(Name(0, x)), NoCases))
  }

  function FallingProgram(x: Symbol): Stmt {
    Switch(Body, Literal(Number(0)), FallingCases(x))
  }

  // The switch up to its clauses.
  function InSwitch(): (r: Builder)
  {
    Add(Step(Top, ScopeStart(1, Body)), BranchLabel).(jumps := [JumpTarget("", 3, Dead, false)], flow := Dead)
  }

  lemma SwitchNodes()
    ensures var b := InSwitch();
      && b.g.nodes == [Unreachable, Start(ModuleScope), ScopeStart(1, Body), BranchLabel] && b.g.antecedents == map[]
      && b.g.accesses == [] && b.g.blindTries == {} && b.exceptionTargets == [] && b.pendingLabel == "" && b.container == ModuleScope
      && b.flow == Dead && b.jumps == [JumpTarget("", 3, Dead, false)]
  {
    TopNodes();
  }

  lemma SwitchBound(s: Stmt)
    requires s.Switch? && s.scope == Body && s.discriminant == Literal(Number(0)) && !HasDefault(s.cases)
    ensures var b := VisitCases(s.cases, 0, 2, InSwitch()); var r := VisitProgram(s);
      && b.g.nodes <= r.g.nodes && r.g.accesses == b.g.accesses && r.g.blindTries == b.g.blindTries
      && forall l: nat :: l != 3 ==> Antecedents(r.g, l) == Antecedents(b.g, l)
  {
    TopNodes();
    hide VisitCases;
    assert VisitExpr(s.discriminant, Top) == Top;
    var b0 := Step(Top, ScopeStart(1, Body));
    assert StartScope(Top, Body) == b0 && b0.flow == 2 && |b0.g.nodes| == 3;
    assert InSwitch() == Add(b0, BranchLabel).(jumps := Top.jumps + [JumpTarget("", 3, Dead, false)], pendingLabel := "", flow := Dead);
    hide InSwitch;
    var b := VisitCases(s.cases, 0, 2, InSwitch());
    var b1 := AddAntecedent(b.(jumps := []), 3, b.flow);
    var c := EnterClause(b1, 2, -1);
    var r := Resume(AddAntecedent(c, 3, c.flow), 3);
    assert VisitSwitch(s, Top) == r by { hide Join, Extends, Grows, Visited; }
    assert VisitProgram(s) == VisitSwitch(s, Top);
    hide VisitSwitch, VisitProgram, VisitStmt;
    assert b1.g.nodes == b.g.nodes && b1.g.accesses == b.g.accesses && b1.g.blindTries == b.g.blindTries;
  }

  // A clause's entry: its node, joined with what falls into it.
  lemma ClauseBound(b: Builder, clause: int, fall: nat)
    requires b.g.nodes != [] && forall l: nat :: l >= |b.g.nodes| ==> Antecedents(b.g, l) == []
    ensures var n := |b.g.nodes|; var c := EnterClause(b, 2, clause); var r := Join(c, c.flow, fall);
      && c.flow == n && r.flow == n + 1 && r == b.(g := b.g.(nodes := r.g.nodes, antecedents := r.g.antecedents), flow := n + 1)
      && r.g.nodes == b.g.nodes + [SwitchClause(2, clause), BranchLabel]
      && Antecedents(r.g, n + 1) == (if fall == Dead || fall == n then [n] else [n, fall])
      && forall l: nat :: l != n + 1 ==> Antecedents(r.g, l) == Antecedents(b.g, l)
  {
    hide Extends, Grows;
    var n := |b.g.nodes|;
    var c := EnterClause(b, 2, clause);
    assert Antecedents(b.g, n + 1) == [];
    var b2 := AddAntecedent(Add(c, BranchLabel), n + 1, n);
    assert Antecedents(b2.g, n + 1) == [n];
    var b3 := AddAntecedent(b2, n + 1, fall);
    assert Join(c, c.flow, fall) == Resume(b3, n + 1);
  }

  lemma FallingBound(x: Symbol) returns (r: Builder)
    requires x.scope == ModuleScope
    ensures r == VisitProgram(FallingProgram(x))
    ensures r.g.accesses == [Access(1, x, 7, ModuleScope, true), Access(0, x, 8, ModuleScope, false)]
    ensures 8 < |r.g.nodes| && r.g.nodes[8] == Assignment(7, x, Site1(1), false, true)
  {
    r := VisitProgram(FallingProgram(x));
    var b := InSwitch();
    var cases := FallingCases(x);
    SwitchNodes();
    assert !HasDefault(cases.rest.rest) && !HasDefault(cases.rest);
    SwitchBound(FallingProgram(x));
    FallingCasesBound(x, b);
    hide VisitCases, VisitProgram, InSwitch;
  }

  lemma FallingCasesBound(x: Symbol, b: Builder)
    requires x.scope == ModuleScope && |b.g.nodes| == 4 && b.g.antecedents == map[] && b.flow == Dead && b.g.accesses == []
    requires b.container == ModuleScope && b.exceptionTargets == []
    ensures var r := VisitCases(FallingCases(x), 0, 2, b);
      && r.g.accesses == [Access(1, x, 7, ModuleScope, true), Access(0, x, 8, ModuleScope, false)]
      && 8 < |r.g.nodes| && r.g.nodes[8] == Assignment(7, x, Site1(1), false, true)
  {
    var cases := FallingCases(x);
    ClauseBound(b, 0, Dead);
    var c := EnterClause(b, 2, 0);
    var b1 := Join(c, c.flow, Dead);
    hide EnterClause, Join, Extends, Grows, Visited;
    assert VisitStmt(cases.body, VisitExpr(cases.test, b1)) == b1;
    FallenInto(x, b1);
    assert VisitCases(cases, 0, 2, b) == VisitCases(cases.rest, 1, 2, b1);
  }

  lemma SetBound(id: nat, x: Symbol, b: Builder)
    requires x.scope == ModuleScope == b.container && b.flow != Dead && b.exceptionTargets == []
    ensures VisitExpr(Set(id, x), b) == b.(flow := |b.g.nodes|,
      g := b.g.(nodes := b.g.nodes + [Assignment(b.flow, x, Site1(id), false, true)],
                accesses := b.g.accesses + [Access(id, x, b.flow, ModuleScope, true)]))
  {
    SetVisited(id, x, b);
    hide Extends, Grows, Visited, VisitExpr;
  }

  lemma ReadBound(id: nat, x: Symbol, b: Builder)
    ensures VisitStmt(Evaluate(Name(id, x)), b) == Refer(b, id, x, false)
  {
    hide Extends, Grows, Visited;
    assert VisitExpr(Name(id, x), b) == Refer(b, id, x, false);
  }

  lemma FallenInto(x: Symbol, b: Builder)
    requires x.scope == ModuleScope && |b.g.nodes| == 6 && b.flow == 5 && b.g.accesses == []
    requires b.container == ModuleScope && b.exceptionTargets == [] && forall l: nat :: l >= 6 ==> Antecedents(b.g, l) == []
    ensures var r := VisitCases(FallingCases(x).rest, 1, 2, b);
      && r.g.accesses == [Access(1, x, 7, ModuleScope, true), Access(0, x, 8, ModuleScope, false)]
      && 8 < |r.g.nodes| && r.g.nodes[8] == Assignment(7, x, Site1(1), false, true)
  {
    hide EnterClause, Join, Extends, Grows, Visited, VisitExpr, VisitStmt, Set;
    ClauseBound(b, 1, 5);
    var c := EnterClause(b, 2, 1);
    var b1 := Join(c, c.flow, 5);
    LastClause(x, b, b1);
    SetBound(1, x, b1);
  }

  lemma LastClause(x: Symbol, b: Builder, b1: Builder)
    requires b.flow == 5 && b1 == var c := EnterClause(b, 2, 1); Join(c, c.flow, 5)
    ensures VisitCases(FallingCases(x).rest, 1, 2, b) == Refer(VisitExpr(Set(1, x), b1), 0, x, false)
  {
    hide EnterClause, Join, Extends, Grows, Visited, VisitExpr, VisitStmt, Set;
    var b2 := VisitExpr(Set(1, x), b1);
    ReadBound(0, x, b2);
    var b3 := Refer(b2, 0, x, false);
    assert VisitCases(NoCases, 2, 2, b3) == b3;
  }

  lemma FallingRuns(x: Symbol, a: Activation) returns (p: History)
    requires x.scope == ModuleScope
    ensures Evaluated(Execute(FallingProgram(x), a, 1).run.history, 0, x, false, p) && !StoredSinceEntry(x, p)
  {
    var s := FallingProgram(x);
    var r1 := EnterScope(Run(Begin, 0), Body, a);
    p := r1.history;
    FallingReads(x, r1, a);
    Entering(s, a);
    hide ExecFrom, Exec, FallingCases;
  }

  lemma ReadWas(x: Symbol, r: Run, a: Activation)
    ensures Evaluated(Exec(Evaluate(Name(0, x)), {}, r, a, 1).run.history, 0, x, false, r.history)
  {
    var k := After(r.history, Use(0, x, false));
    StoresWas(a.oracle(r.clock).stores, k, a, k);
    assert Eval(Name(0, x), r, a) == Load(x, Run(k, r.clock), a);
  }

  lemma FallingReads(x: Symbol, r1: Run, a: Activation)
    ensures Evaluated(ExecFrom(FallingCases(x), 0, r1, a, 1).run.history, 0, x, false, r1.history)
  {
    var cases := FallingCases(x);
    assert Exec(cases.body, {}, r1, a, 1) == Outcome(r1, Normal);
    ReadWas(x, r1, a);
    var o := Exec(cases.rest.body, {}, r1, a, 1);
    assert ExecFrom(NoCases, 0, o.run, a, 1).run == o.run;
    assert ExecFrom(cases.rest, 0, r1, a, 1).run == o.run;
  }

  lemma FallingFormed(x: Symbol)
    requires x.scope == ModuleScope
    ensures Formed(FallingProgram(x))
    ensures forall q, tries, id, inside :: Straight(q, tries, id, FallingProgram(x), inside)
  {
    var open := {ModuleScope} + {Body};
    FallingCasesFormed(x, open);
    hide FallingCases;
    var s := FallingProgram(x);
    assert ScopedExpr(s.discriminant, {ModuleScope}, ModuleScope) && Programs.TidyExpr(s.discriminant);
    assert Scoped(s, {ModuleScope}, ModuleScope) && Programs.Tidy(s);
  }

  lemma FallingCasesFormed(x: Symbol, open: set<Scope>)
    requires x.scope == ModuleScope && open == {ModuleScope} + {Body}
    ensures ScopedCases(FallingCases(x), open, ModuleScope) && Programs.TidyCases(FallingCases(x))
    ensures forall q, tries, id, inside :: StraightCases(q, tries, id, FallingCases(x), inside)
  {
    var cases := FallingCases(x);
    LastCaseFormed(x, open);
    var rest := cases.rest;
    assert ScopedExpr(cases.test, open, ModuleScope) && Programs.TidyExpr(cases.test);
    assert Scoped(cases.body, open, ModuleScope) && Programs.Tidy(cases.body);
    forall q, tries, id, inside ensures StraightCases(q, tries, id, cases, inside) {
      assert StraightCases(q, tries, id, rest, inside) && Straight(q, tries, id, cases.body, inside);
    }
  }

  lemma LastCaseFormed(x: Symbol, open: set<Scope>)
    requires x.scope == ModuleScope && ModuleScope in open
    ensures ScopedCases(FallingCases(x).rest, open, ModuleScope) && Programs.TidyCases(FallingCases(x).rest)
    ensures forall q, tries, id, inside :: StraightCases(q, tries, id, FallingCases(x).rest, inside)
  {
    var rest := FallingCases(x).rest;
    SetFormed(1, x, open);
    ReadFormed(0, x, open);
    hide Set;
    assert ScopedCases(rest.rest, open, ModuleScope) && Programs.TidyCases(rest.rest);
    forall q, tries, id, inside ensures StraightCases(q, tries, id, rest, inside) {
      assert StraightCases(q, tries, id, rest.rest, inside) && Straight(q, tries, id, rest.body, inside);
    }
  }

  // A case test is bound on the path that falls through to its clause, and not evaluated there.
  lemma FallingTestWrong(x: Symbol) returns (c: Access, p: History)
    requires x.scope == ModuleScope
    ensures WronglyAssigned(FallingProgram(x), Running(false, Number(1)), c, p) && c.sym == x && !c.written
    ensures NoDetour(Unassigned(x), FallingProgram(x), c)
  {
    var r := FallingBound(x);
    c := Access(0, x, 8, ModuleScope, false);
    SoleOfTwo(r.g, c, Access(1, x, 7, ModuleScope, true));
    FoundAtOnce(r.g, ForAssign(x), 8);
    p := FallingRuns(x, Running(false, Number(1)));
    FallingFormed(x);
    hide VisitProgram, Execute, Set, FallingProgram;
  }

  // ----- finally -----

  // try { f(); x = 0 } finally { last }
  function TryProgram(x: Symbol, last: Stmt): Stmt {
    Try(7, Then(Evaluate(Opaque(NoExpr)), Evaluate(Set(1, x))), NoCatch, Finally(last))
  }

  // The state a finally after such a try is bound in.
  function AtFinally(x: Symbol, b: Builder): (r: Builder) {
    var exc, n := |b.g.nodes|, |b.g.nodes| + 1;
    b.(flow := n, g := b.g.(
      nodes := b.g.nodes + [BranchLabel, Assignment(b.flow, x, Site1(1), false, true)],
      antecedents := b.g.antecedents[exc := [b.flow, n]],
      accesses := b.g.accesses + [Access(1, x, b.flow, ModuleScope, true)],
      blindTries := b.g.blindTries + {7}))
  }

  lemma WatchedSet(x: Symbol, c: Builder, exc: nat)
    requires x.scope == ModuleScope == c.container && c.flow != Dead && c.exceptionTargets == [exc]
    ensures var d := Step(Refer(c, 1, x, true), Assignment(c.flow, x, Site1(1), false, true));
      VisitExpr(Set(1, x), c) == AddAntecedent(d, exc, d.flow)
  {
    hide Extends, Grows, Visited, VisitExpr, AddAntecedentToAll, AddAntecedent;
    SetVisited(1, x, c);
    var d := Step(Refer(c, 1, x, true), Assignment(c.flow, x, Site1(1), false, true));
    assert AssignFlow(Refer(c, 1, x, true), x, Site1(1), false, true) == AddAntecedentToAll(d, [exc], d.flow);
    OneTarget(d, exc);
  }

  lemma OneTarget(b: Builder, exc: nat)
    ensures AddAntecedentToAll(b, [exc], b.flow) == AddAntecedent(b, exc, b.flow)
  {
    hide Extends, Grows, AddAntecedent;
    var e := AddAntecedent(b, exc, b.flow);
    assert [exc][1..] == [];
    assert AddAntecedentToAll(e, [], b.flow) == e;
  }

  lemma SetVisited(id: nat, x: Symbol, b: Builder)
    ensures VisitExpr(Set(id, x), b) == AssignFlow(Refer(b, id, x, true), x, Site1(id), false, true)
  {
    hide Extends, Grows, Visited, AssignFlow;
    assert VisitExpr(Set(id, x).right, b) == b;
  }

  lemma BlockVisited(x: Symbol, b: Builder)
    ensures VisitStmt(TryProgram(x, Empty).block, b) == VisitExpr(Set(1, x), b)
  {
    hide Extends, Grows, Visited;
    var s := TryProgram(x, Empty).block;
    assert VisitExpr(Opaque(NoExpr), b) == b;
    assert VisitStmt(s.first, b) == b;
    hide Set;
    assert VisitStmt(s.rest, b) == VisitExpr(Set(1, x), b);
  }

  lemma BlockBound(x: Symbol, b: Builder)
    requires x.scope == ModuleScope == b.container && 0 < b.flow < |b.g.nodes| && Antecedents(b.g, |b.g.nodes|) == [] && b.exceptionTargets == []
    ensures var exc, c := |b.g.nodes|, AddAntecedent(Add(b, BranchLabel), |b.g.nodes|, b.flow);
      var r := VisitStmt(TryProgram(x, Empty).block, c.(exceptionTargets := b.exceptionTargets + [exc]));
      MarkBlind(r.(exceptionTargets := b.exceptionTargets), 7) == AtFinally(x, b)
  {
    hide Extends, Grows, Visited, VisitStmt, VisitExpr, Set;
    var exc := |b.g.nodes|;
    var c := AddAntecedent(Add(b, BranchLabel), exc, b.flow).(exceptionTargets := b.exceptionTargets + [exc]);
    assert Antecedents(c.g, exc) == [b.flow];
    assert c.exceptionTargets == [exc];
    WatchedSet(x, c, exc);
    BlockVisited(x, c);
    assert b.g.antecedents[exc := [b.flow]][exc := [b.flow, exc + 1]] == b.g.antecedents[exc := [b.flow, exc + 1]];
    var d := Step(Refer(c, 1, x, true), Assignment(b.flow, x, Site1(1), false, true));
    assert d.flow == exc + 1 && Antecedents(d.g, exc) == [b.flow];
    var r := AddAntecedent(d, exc, d.flow);
    assert [b.flow] + [exc + 1] == [b.flow, exc + 1];
    assert r.g.antecedents == b.g.antecedents[exc := [b.flow, exc + 1]];
    assert r.g.nodes == b.g.nodes + [BranchLabel, Assignment(b.flow, x, Site1(1), false, true)];
  }

  lemma TryBound(x: Symbol, last: Stmt, b: Builder)
    requires x.scope == ModuleScope == b.container && 0 < b.flow < |b.g.nodes| && Antecedents(b.g, |b.g.nodes|) == [] && b.exceptionTargets == []
    ensures VisitStmt(TryProgram(x, last), b) == VisitStmt(last, AtFinally(x, b))
  {
    hide Extends, Grows, Visited, AtFinally, MarkBlind, VisitStmt;
    BlockBound(x, b);
    var s := TryProgram(x, last);
    TryVisited(s, b);
    var c := AddAntecedent(Add(b, BranchLabel), |b.g.nodes|, b.flow);
    var r := VisitStmt(s.block, c.(exceptionTargets := b.exceptionTargets + [|b.g.nodes|]));
    assert VisitCatch(s.handler, b.flow, r) == r;
    BlockLive(x, b, r.(exceptionTargets := b.exceptionTargets));
  }

  lemma BlockLive(x: Symbol, b: Builder, r: Builder)
    requires MarkBlind(r, 7) == AtFinally(x, b)
    ensures r.flow != Dead
  {
  }

  // try { f(); x = 0 } finally { x }
  function FinallyProgram(x: Symbol): Stmt {
    TryProgram(x, Evaluate(Name(0, x)))
  }

  // l: try { f(); x = 0 } finally { break l }  x
  function BreakProgram(x: Symbol): Stmt {
    Then(Stmt.Labeled("l", TryProgram(x, Break("l"))), Evaluate(Name(0, x)))
  }

  lemma TryFormed(x: Symbol, last: Stmt)
    requires x.scope == ModuleScope && Scoped(last, {ModuleScope}, ModuleScope) && Programs.Tidy(last)
    ensures Formed(TryProgram(x, last))
    ensures Clean(Unassigned(x), last) ==> Clean(Unassigned(x), TryProgram(x, last))
  {
    var s := TryProgram(x, last);
    SetFormed(1, x, {ModuleScope});
    assert ScopedExpr(Opaque(NoExpr), {ModuleScope}, ModuleScope) && Programs.TidyExpr(Opaque(NoExpr));
    assert CleanExpr(Unassigned(x), Opaque(NoExpr)) && CleanExpr(Unassigned(x), Set(1, x));
    assert Scoped(s.block.first, {ModuleScope}, ModuleScope) && Scoped(s.block.rest, {ModuleScope}, ModuleScope);
    assert Programs.Tidy(s.block.first) && Programs.Tidy(s.block.rest);
    assert Clean(Unassigned(x), s.block.first) && Clean(Unassigned(x), s.block.rest);
    hide Set;
    assert Scoped(s.block, {ModuleScope}, ModuleScope) && Programs.Tidy(s.block) && Clean(Unassigned(x), s.block);
  }

  // f throws, and the finally is entered before x is set.
  lemma ThrowRuns(x: Symbol, last: Stmt)
    ensures var s, a := TryProgram(x, last), Running(true, Number(1));
      var f := Exec(last, {}, Run(After(Begin, FinallyAbrupt(s, Begin)), 1), a, 1);
      Exec(s, {}, Run(Begin, 0), a, 1) == if f.how.Normal? then Outcome(Emit(f.run, FinallyDone(Begin)), Threw) else f
  {
    var s, a := TryProgram(x, last), Running(true, Number(1));
    var r := Run(Begin, 0);
    assert Eval(Opaque(NoExpr).arg, r, a) == Result(r, Undefined, false);
    assert Eval(Opaque(NoExpr), r, a) == Ask(r, a) == Result(Run(Begin, 1), Undefined, true);
    assert Exec(s.block.first, {}, r, a, 1) == Outcome(Run(Begin, 1), Threw);
    assert Exec(s.block, {}, r, a, 1) == Outcome(Run(Begin, 1), Threw);
    assert ExecGuarded(s, r, a, 1) == Outcome(Run(Begin, 1), Threw);
  }

  lemma FinallyBound(x: Symbol) returns (r: Builder)
    requires x.scope == ModuleScope
    ensures r == VisitProgram(FinallyProgram(x))
    ensures r.g.accesses == [Access(1, x, 1, ModuleScope, true), Access(0, x, 3, ModuleScope, false)]
    ensures 3 < |r.g.nodes| && MarkOf(ForAssign(x), r.g.nodes[3]) == Found
  {
    TopNodes();
    TryBound(x, Evaluate(Name(0, x)), Top);
    ReadBound(0, x, AtFinally(x, Top));
    r := VisitProgram(FinallyProgram(x));
  }

  // A finally the graph enters from the end of its try, a throw from before it.
  lemma FinallyReadWrong(x: Symbol) returns (c: Access, p: History)
    requires x.scope == ModuleScope
    ensures WronglyAssigned(FinallyProgram(x), Running(true, Number(1)), c, p) && c.sym == x && !c.written
    ensures Clean(Unassigned(x), FinallyProgram(x))
  {
    var r := FinallyBound(x);
    c := Access(0, x, 3, ModuleScope, false);
    SoleOfTwo(r.g, c, Access(1, x, 1, ModuleScope, true));
    FoundAtOnce(r.g, ForAssign(x), 3);
    p := After(Begin, FinallyAbrupt(FinallyProgram(x), Begin));
    ThrowRuns(x, Evaluate(Name(0, x)));
    ReadWas(x, Run(p, 1), Running(true, Number(1)));
    ReadFormed(0, x, {ModuleScope});
    TryFormed(x, Evaluate(Name(0, x)));
    assert Clean(Unassigned(x), Evaluate(Name(0, x))) by { assert CleanExpr(Unassigned(x), Name(0, x)); }
    hide VisitProgram, Exec, TryProgram, Clean;
    assert Evaluated(Execute(FinallyProgram(x), Running(true, Number(1)), 1).run.history, 0, x, false, p);
    assert Sole(r.g, c);
    assert Formed(FinallyProgram(x));
    assert !StoredSinceEntry(x, p);
    assert Runs(FinallyProgram(x), Running(true, Number(1)), c, p);
  }

  lemma BreakVisited(b: Builder, exit: nat)
    requires b.jumps == [JumpTarget("l", exit, Dead, true)]
    ensures VisitStmt(Break("l"), b) == AddAntecedent(b, exit, b.flow).(flow := Dead)
  {
    hide Extends, Grows, Visited;
    assert FindJump(b.jumps, "l", false) == Some(b.jumps[0]);
  }

  lemma LabelBound(s: Stmt, b: Builder)
    requires s.Labeled? && !IsLoop(s.body)
    ensures var exit := |b.g.nodes|;
      var r := VisitStmt(s.body, Add(b, BranchLabel).(jumps := b.jumps + [JumpTarget(s.tag, exit, Dead, true)]));
      VisitStmt(s, b) == Resume(AddAntecedent(r.(jumps := b.jumps), exit, r.flow), exit)
  {
    hide Extends, Grows, Visited;
  }

  lemma ThenBound(s: Stmt, b: Builder)
    requires s.Then?
    ensures VisitStmt(s, b) == VisitStmt(s.rest, VisitStmt(s.first, b))
  {
    hide Extends, Grows, Visited;
  }

  lemma BreakReaches(x: Symbol, b: Builder) returns (r: Builder)
    requires b.g.nodes == [Unreachable, Start(ModuleScope), BranchLabel] && b.g.antecedents == map[] && b.g.accesses == [] && b.flow == 1
    ensures var c := AddAntecedent(AtFinally(x, b), 2, AtFinally(x, b).flow).(flow := Dead); r == Resume(AddAntecedent(c.(jumps := []), 2, Dead), 2)
    ensures r.g.accesses == [Access(1, x, 1, ModuleScope, true)] && r.flow == 2 && r.container == b.container
    ensures 4 < |r.g.nodes| && r.g.nodes[2] == BranchLabel && Antecedents(r.g, 2) == [4] && MarkOf(ForAssign(x), r.g.nodes[4]) == Found
  {
    hide Extends, Grows;
    var b2 := AtFinally(x, b);
    var b3 := AddAntecedent(b2, 2, 4).(flow := Dead);
    assert Antecedents(b2.g, 2) == [] && Antecedents(b3.g, 2) == [4];
    r := Resume(b3.(jumps := []), 2);
  }

  // The labeled try, left by a break.
  lemma LeftByBreak(x: Symbol) returns (r: Builder)
    requires x.scope == ModuleScope
    ensures r == VisitStmt(BreakProgram(x).first, Top)
    ensures r.g.accesses == [Access(1, x, 1, ModuleScope, true)] && r.flow == 2 && r.container == ModuleScope
    ensures 4 < |r.g.nodes| && r.g.nodes[2] == BranchLabel && Antecedents(r.g, 2) == [4] && MarkOf(ForAssign(x), r.g.nodes[4]) == Found
  {
    TopNodes();
    var s := BreakProgram(x).first;
    LabelBound(s, Top);
    hide Extends, Grows, Visited, VisitStmt;
    var b1 := Add(Top, BranchLabel).(jumps := Top.jumps + [JumpTarget("l", 2, Dead, true)]);
    TryBound(x, Break("l"), b1);
    BreakVisited(AtFinally(x, b1), 2);
    r := BreakReaches(x, b1);
  }

  lemma BreakBound(x: Symbol) returns (r: Builder)
    requires x.scope == ModuleScope
    ensures r == VisitProgram(BreakProgram(x))
    ensures r.g.accesses == [Access(1, x, 1, ModuleScope, true), Access(0, x, 2, ModuleScope, false)]
    ensures 4 < |r.g.nodes| && r.g.nodes[2] == BranchLabel && Predecessors(r.g, 2) == [4] && MarkOf(ForAssign(x), r.g.nodes[4]) == Found
  {
    var b := LeftByBreak(x);
    ThenBound(BreakProgram(x), Top);
    ReadBound(0, x, b);
    r := Refer(b, 0, x, false);
    hide VisitStmt;
  }

  lemma BreakRuns(x: Symbol)
    ensures Execute(BreakProgram(x), Running(true, Number(1)), 1).run ==
      Exec(Evaluate(Name(0, x)), {}, Run(After(Begin, FinallyAbrupt(TryProgram(x, Break("l")), Begin)), 1), Running(true, Number(1)), 1).run
  {
    var s, a, r := BreakProgram(x), Running(true, Number(1)), Run(Begin, 0);
    ThrowRuns(x, Break("l"));
    var r1 := Run(After(Begin, FinallyAbrupt(s.first.body, Begin)), 1);
    assert Exec(Break("l"), {}, r1, a, 1) == Outcome(r1, BreakTo("l"));
    assert Exec(s.first, {}, r, a, 1) == Outcome(r1, Normal);
    hide TryProgram;
    assert Exec(s, {}, r, a, 1) == Exec(s.rest, {}, r1, a, 1);
  }

  // A break out of such a finally, taken by a throw.
  lemma FinallyBreakWrong(x: Symbol) returns (c: Access, p: History)
    requires x.scope == ModuleScope
    ensures WronglyAssigned(BreakProgram(x), Running(true, Number(1)), c, p) && c.sym == x && !c.written
    ensures Clean(Unassigned(x), BreakProgram(x))
  {
    hide VisitProgram, Exec, BreakProgram, Clean, TryProgram;
    var r := BreakBound(x);
    c := Access(0, x, 2, ModuleScope, false);
    SoleOfTwo(r.g, c, Access(1, x, 1, ModuleScope, true));
    FoundNext(r.g, ForAssign(x), 2, 4);
    p := After(Begin, FinallyAbrupt(TryProgram(x, Break("l")), Begin));
    BreakRuns(x);
    ReadWas(x, Run(p, 1), Running(true, Number(1)));
    BreakFormed(x);
    BreakClean(x);
    assert Evaluated(Execute(BreakProgram(x), Running(true, Number(1)), 1).run.history, 0, x, false, p);
    assert Sole(r.g, c);
    assert !StoredSinceEntry(x, p);
    assert Runs(BreakProgram(x), Running(true, Number(1)), c, p);
  }

  lemma BreakFormed(x: Symbol)
    requires x.scope == ModuleScope
    ensures Clean(Unassigned(x), TryProgram(x, Break("l"))) && Formed(TryProgram(x, Break("l")))
  {
    hide TryProgram;
    TryFormed(x, Break("l"));
  }

  lemma BreakClean(x: Symbol)
    requires Clean(Unassigned(x), TryProgram(x, Break("l"))) && Formed(TryProgram(x, Break("l"))) && x.scope == ModuleScope
    ensures Clean(Unassigned(x), BreakProgram(x)) && Formed(BreakProgram(x))
  {
    ReadFormed(0, x, {ModuleScope});
    assert CleanExpr(Unassigned(x), Name(0, x));
    var s := BreakProgram(x);
    assert !LabelsLoop(s.first.body);
    hide TryProgram;
    assert Clean(Unassigned(x), s.rest) && Clean(Unassigned(x), s.first);
    assert Scoped(s.first, {ModuleScope}, ModuleScope) && Programs.Tidy(s.first);
  }

  // ----- loops out of reach -----

  // try { return; while (false) {} } finally { break l }
  function DeadTry(): Stmt {
    Try(7, Then(Return(NoExpr), While(Literal(Boolean(false)), Empty)), NoCatch, Finally(Break("l")))
  }

  function DeadFirst(x: Symbol): Stmt {
    Then(Declare(Let, x, NoExpr, 5), Stmt.Labeled("l", DeadTry()))
  }

  function DeadCases(x: Symbol): Cases {
    Case(Literal(Number(0)), DeadFirst(x), Case(Literal(Number(1)), Evaluate(Name(0, x)), NoCases))
  }

  // switch (0) { case 0: let x; l: try { return; while (false) {} } finally { break l }  case 1: x }
  function DeadProgram(x: Symbol): Stmt {
    Switch(Body, Literal(Number(0)), DeadCases(x))
  }

  // No walk from inside a set that keeps to it, and has no such node, finds one.
  lemma {:induction false} Enclosed(g: Binding, w: Walk, inside: set<nat>, path: seq<nat>)
    requires BackPath(g, w, path) && path[0] in inside
    requires forall m, p: nat :: m in inside && m < |g.nodes| && MarkOf(w, g.nodes[m]) == Pass && p in Predecessors(g, m) ==> p in inside
    ensures path[|path| - 1] in inside
    decreases |path|
  {
    if |path| > 1 { Enclosed(g, w, inside, path[1..]); }
  }

  lemma FalseTest(b: Builder)
    requires b.flow == 9 && |b.g.nodes| == 11 && Antecedents(b.g, 10) == []
    ensures var t := Literal(Boolean(false)); var r := LoopTest(b, t, 10);
      && r.g.nodes == b.g.nodes + [Condition(9, t, false), Condition(9, t, true)] && r.flow == 12
      && Antecedents(r.g, 10) == [11] && (forall l: nat :: l != 10 ==> Antecedents(r.g, l) == Antecedents(b.g, l))
      && r == b.(flow := 12, g := b.g.(nodes := r.g.nodes, antecedents := r.g.antecedents))
  {
    hide Extends, Grows;
    var t := Literal(Boolean(false));
    var c := AddAntecedent(Step(b, Condition(9, t, false)), 10, 11);
    assert LoopTest(b, t, 10) == Step(c, Condition(9, t, true));
  }

  // The loop in the graph: its head has no predecessor but its own body.
  ghost predicate Looping(g: Binding) {
    var t := Literal(Boolean(false));
    && |g.nodes| > 12 && g.nodes[9] == LoopLabel && g.nodes[10] == BranchLabel
    && g.nodes[11] == Condition(9, t, false) && g.nodes[12] == Condition(9, t, true)
    && Antecedents(g, 9) == [12] && Antecedents(g, 10) == [11]
  }

  // r is b with nodes added, and predecessors at no label but the given one that b has.
  ghost predicate Onward(b: Builder, r: Builder, at: nat) {
    && b.g.nodes <= r.g.nodes && r.g.accesses == b.g.accesses && r.container == b.container && r.jumps == b.jumps
    && r.exceptionTargets == b.exceptionTargets && r.pendingLabel == b.pendingLabel
    && (forall l: nat :: 0 < l < |b.g.nodes| && l != at ==> Antecedents(r.g, l) == Antecedents(b.g, l))
    && (forall l: nat :: l >= |r.g.nodes| ==> Antecedents(r.g, l) == [])
  }

  // A label from n on has no predecessors.
  ghost predicate Fresh(b: Builder, n: nat) {
    |b.g.nodes| == n && forall l: nat :: l >= n ==> Antecedents(b.g, l) == []
  }

  lemma LoopBound(b: Builder)
    requires b.flow == Dead && Fresh(b, 9) && b.pendingLabel == ""
    ensures var r := VisitStmt(While(Literal(Boolean(false)), Empty), b); Looping(r.g) && Onward(b, r, Dead) && r.flow == 10 && |r.g.nodes| == 13
  {
    hide Extends, Grows, Visited, Looping, Onward;
    var t := Literal(Boolean(false));
    var s := While(t, Empty);
    var b1 := AddAntecedent(Add(b, LoopLabel), 9, Dead).(flow := 9);
    assert VisitExpr(t, b1) == b1;
    var b2 := Add(b1, BranchLabel);
    assert Antecedents(b1.g, 10) == Antecedents(b.g, 10) == [];
    FalseTest(b2);
    var b3 := LoopTest(b2, t, 10);
    hide LoopTest;
    assert VisitLoopBody(Empty, b3, 10, 9) == b3;
    LoopDone(b, b3);
    assert VisitWhile(s, b) == Resume(AddAntecedent(b3, 9, 12), 10);
    assert VisitStmt(s, b) == VisitWhile(s, b);
  }

  lemma LoopDone(b: Builder, b3: Builder)
    requires b.flow == Dead && Fresh(b, 9) && b.pendingLabel == ""
    requires var b2 := Add(AddAntecedent(Add(b, LoopLabel), 9, Dead).(flow := 9), BranchLabel); b3 == LoopTest(b2, Literal(Boolean(false)), 10)
    ensures var r := Resume(AddAntecedent(b3, 9, 12), 10); b3.flow == 12 && Looping(r.g) && Onward(b, r, Dead) && r.flow == 10 && |r.g.nodes| == 13
  {
    hide Extends, Grows;
    var b2 := Add(AddAntecedent(Add(b, LoopLabel), 9, Dead).(flow := 9), BranchLabel);
    assert forall l: nat :: Antecedents(b2.g, l) == Antecedents(b.g, l);
    FalseTest(b2);
    hide LoopTest;
    assert Antecedents(b3.g, 9) == Antecedents(b2.g, 9) == Antecedents(b.g, 9) == [];
    var r := Resume(AddAntecedent(b3, 9, 12), 10);
    assert forall l: nat :: l != 9 ==> Antecedents(r.g, l) == Antecedents(b3.g, l);
    assert Antecedents(r.g, 9) == [12];
    assert Onward(b, r, Dead);
  }

  lemma ReturnBound(b: Builder)
    ensures VisitStmt(Return(NoExpr), b) == b.(flow := Dead)
  {
    hide Extends, Grows, Visited;
    assert VisitExpr(NoExpr, b) == b;
  }

  lemma DeadBlockBound(b: Builder)
    requires Fresh(b, 9) && b.pendingLabel == ""
    ensures var r := VisitStmt(DeadTry().block, b); Looping(r.g) && Onward(b, r, Dead) && r.flow == 10 && |r.g.nodes| == 13
  {
    var s := DeadTry().block;
    ThenBound(s, b);
    ReturnBound(b);
    hide Extends, Grows, Visited, VisitStmt, Looping;
    var c := b.(flow := Dead);
    assert Fresh(c, 9) by { assert forall l: nat :: Antecedents(c.g, l) == Antecedents(b.g, l); }
    LoopBound(c);
  }

  lemma DeadTryBound(b: Builder)
    requires b.flow == 6 && Fresh(b, 8) && b.pendingLabel == "" && Antecedents(b.g, 7) == []
    requires b.jumps == [JumpTarget("", 3, Dead, false), JumpTarget("l", 7, Dead, true)]
    ensures var r := VisitStmt(DeadTry(), b); Looping(r.g) && Onward(b, r, 7) && Antecedents(r.g, 7) == [10] && r.flow == Dead && |r.g.nodes| == 13
  {
    hide Extends, Grows, Visited, VisitStmt, Looping;
    var b1 := AddAntecedent(Add(b, BranchLabel), 8, 6).(exceptionTargets := b.exceptionTargets + [8]);
    assert forall l: nat :: l != 8 ==> Antecedents(b1.g, l) == Antecedents(b.g, l);
    assert Fresh(b1, 9);
    DeadBlockBound(b1);
    var b2 := VisitStmt(DeadTry().block, b1);
    DeadTryParts(b, b1, b2);
    var b3 := MarkBlind(b2.(exceptionTargets := b.exceptionTargets), 7);
    hide DeadTry;
    DeadTryLeft(b, b1, b2);
    InnerBreak(MarkBlind(b2.(exceptionTargets := b.exceptionTargets), 7));
  }

  lemma DeadTryLeft(b: Builder, b1: Builder, b2: Builder)
    requires Fresh(b, 8) && b1 == AddAntecedent(Add(b, BranchLabel), 8, 6).(exceptionTargets := b.exceptionTargets + [8])
    requires Looping(b2.g) && Onward(b1, b2, Dead) && |b2.g.nodes| == 13 && Antecedents(b.g, 7) == []
    ensures var r := AddAntecedent(MarkBlind(b2.(exceptionTargets := b.exceptionTargets), 7), 7, 10);
      Looping(r.g) && Onward(b, r.(flow := Dead), 7) && Antecedents(r.g, 7) == [10] && |r.g.nodes| == 13
  {
    hide Extends, Grows;
    assert forall l: nat :: l < 8 ==> Antecedents(b1.g, l) == Antecedents(b.g, l);
    var b3 := MarkBlind(b2.(exceptionTargets := b.exceptionTargets), 7);
    assert Antecedents(b2.g, 7) == [] == Antecedents(b3.g, 7);
    var r := AddAntecedent(b3, 7, 10);
    assert forall l: nat :: l != 7 ==> Antecedents(r.g, l) == Antecedents(b2.g, l);
  }

  lemma DeadTryParts(b: Builder, b1: Builder, b2: Builder)
    requires b1 == AddAntecedent(Add(b, BranchLabel), |b.g.nodes|, b.flow).(exceptionTargets := b.exceptionTargets + [|b.g.nodes|])
    requires b2 == VisitStmt(DeadTry().block, b1) && b2.flow != Dead
    ensures VisitStmt(DeadTry(), b) == VisitStmt(Break("l"), MarkBlind(b2.(exceptionTargets := b.exceptionTargets), 7))
  {
    var s := DeadTry();
    TryVisited(s, b);
    hide Extends, Grows, Visited, VisitStmt;
    assert VisitCatch(s.handler, b.flow, b2) == b2;
  }

  lemma TryVisited(s: Stmt, b: Builder)
    requires s.Try?
    ensures VisitStmt(s, b) == VisitTry(s, b)
  {
    hide Extends, Grows, Visited, VisitTry;
  }

  lemma InnerBreak(b: Builder)
    requires b.jumps == [JumpTarget("", 3, Dead, false), JumpTarget("l", 7, Dead, true)]
    ensures VisitStmt(Break("l"), b) == AddAntecedent(b, 7, b.flow).(flow := Dead)
  {
    hide Extends, Grows, Visited;
    assert FindJump(b.jumps, "l", false) == Some(b.jumps[1]);
  }

  lemma DeclareBound(x: Symbol, b: Builder)
    requires x.scope == Body && b.container == ModuleScope && b.flow != Dead && b.exceptionTargets == []
    ensures VisitStmt(Declare(Let, x, NoExpr, 5), b) == Step(b, Assignment(b.flow, x, DeclarationSite(5, false), true, false))
  {
    hide Extends, Grows, Visited;
    assert VisitExpr(NoExpr, b) == b;
    assert ContainerOf(Body) == ModuleScope;
    var r := Step(b, Assignment(b.flow, x, DeclarationSite(5, false), true, false));
    assert AddAntecedentToAll(r, [], r.flow) == r;
  }

  // The first clause: what follows l is reached from the loop alone.
  lemma DeadFirstBound(x: Symbol, b: Builder)
    requires x.scope == Body && b.container == ModuleScope && b.flow == 5 && Fresh(b, 6) && b.exceptionTargets == [] && b.pendingLabel == ""
    requires b.jumps == [JumpTarget("", 3, Dead, false)]
    ensures var r := VisitStmt(DeadFirst(x), b);
      && Looping(r.g) && Onward(b, r, Dead) && Antecedents(r.g, 7) == [10] && r.flow == 7 && |r.g.nodes| == 13 && r.g.nodes[7] == BranchLabel
  {
    var s := DeadFirst(x);
    ThenBound(s, b);
    DeclareBound(x, b);
    var b1 := Step(b, Assignment(5, x, DeclarationSite(5, false), true, false));
    LabelBound(s.rest, b1);
    hide Extends, Grows, Visited, VisitStmt, Looping;
    DeadLabel(b, b1);
  }

  lemma DeadLabel(b: Builder, b1: Builder)
    requires b.flow == 5 && Fresh(b, 6) && b.pendingLabel == "" && b.jumps == [JumpTarget("", 3, Dead, false)]
    requires b1.flow == 6 && |b1.g.nodes| == 7 && b.g.nodes <= b1.g.nodes && b1 == b.(flow := 6, g := b.g.(nodes := b1.g.nodes))
    ensures var r := VisitStmt(DeadTry(), Add(b1, BranchLabel).(jumps := b1.jumps + [JumpTarget("l", 7, Dead, true)]));
      var k := Resume(AddAntecedent(r.(jumps := b1.jumps), 7, r.flow), 7);
      && Looping(k.g) && Onward(b, k, Dead) && Antecedents(k.g, 7) == [10] && k.flow == 7 && |k.g.nodes| == 13 && k.g.nodes[7] == BranchLabel
  {
    hide Extends, Grows, Visited, VisitStmt, Looping, DeadTry;
    var b2 := Add(b1, BranchLabel).(jumps := b1.jumps + [JumpTarget("l", 7, Dead, true)]);
    assert forall l: nat :: Antecedents(b2.g, l) == Antecedents(b.g, l);
    DeadTryBound(b2);
    var r := VisitStmt(DeadTry(), b2);
    assert AddAntecedent(r.(jumps := b1.jumps), 7, Dead) == r.(jumps := b1.jumps);
  }

  lemma DeadCasesBound(x: Symbol, b: Builder)
    requires x.scope == Body && b.container == ModuleScope && b.flow == Dead && Fresh(b, 4) && b.exceptionTargets == []
    requires b.pendingLabel == "" && b.jumps == [JumpTarget("", 3, Dead, false)] && b.g.accesses == []
    ensures var r := VisitCases(DeadCases(x), 0, 2, b);
      && Looping(r.g) && b.g.nodes <= r.g.nodes && 14 < |r.g.nodes| && r.g.nodes[7] == BranchLabel && r.g.nodes[13] == SwitchClause(2, 1)
      && r.g.nodes[14] == BranchLabel && Antecedents(r.g, 14) == [13, 7] && Antecedents(r.g, 7) == [10]
      && r.g.accesses == [Access(0, x, 14, ModuleScope, false)]
  {
    var cases := DeadCases(x);
    ClauseBound(b, 0, Dead);
    var c := EnterClause(b, 2, 0);
    var b1 := Join(c, c.flow, Dead);
    assert VisitExpr(cases.test, b1) == b1;
    DeadFirstBound(x, b1);
    var b2 := VisitStmt(cases.body, b1);
    hide EnterClause, Join, Extends, Grows, Visited, VisitStmt, DeadFirst, Looping;
    LastClauseBound(x, b2);
    assert VisitCases(cases, 0, 2, b) == VisitCases(cases.rest, 1, 2, b2);
  }

  lemma LastClauseBound(x: Symbol, b: Builder)
    requires b.flow == 7 && Fresh(b, 13) && Looping(b.g) && b.container == ModuleScope
    ensures var r := VisitCases(DeadCases(x).rest, 1, 2, b);
      && Looping(r.g) && b.g.nodes <= r.g.nodes && |r.g.nodes| == 15 && r.g.nodes[13] == SwitchClause(2, 1)
      && r.g.nodes[14] == BranchLabel && Antecedents(r.g, 14) == [13, 7] && Antecedents(r.g, 7) == Antecedents(b.g, 7)
      && r.g.accesses == b.g.accesses + [Access(0, x, 14, ModuleScope, false)]
  {
    hide EnterClause, Join, Extends, Grows, Visited, VisitCases, DeadCases, Looping;
    ClauseBound(b, 1, 7);
    var c := EnterClause(b, 2, 1);
    var b1 := Join(c, c.flow, 7);
    ReadClause(x, b, b1);
    LoopingOn(b.g, Refer(b1, 0, x, false).g);
  }

  lemma LoopingOn(g: Binding, h: Binding)
    requires Looping(g) && g.nodes <= h.nodes && Antecedents(h, 9) == Antecedents(g, 9) && Antecedents(h, 10) == Antecedents(g, 10)
    ensures Looping(h)
  {
  }

  lemma ReadClause(x: Symbol, b: Builder, b1: Builder)
    requires b.flow == 7 && b1 == var c := EnterClause(b, 2, 1); Join(c, c.flow, 7)
    ensures VisitCases(DeadCases(x).rest, 1, 2, b) == Refer(b1, 0, x, false)
  {
    hide EnterClause, Join, Extends, Grows, Visited, VisitStmt, DeadFirst;
    ReadBound(0, x, b1);
    var cases := DeadCases(x).rest;
    assert VisitExpr(cases.test, b1) == b1;
    assert VisitCases(cases.rest, 2, 2, Refer(b1, 0, x, false)) == Refer(b1, 0, x, false);
  }

  lemma NoDefault(x: Symbol)
    ensures !HasDefault(DeadCases(x))
  {
    var cases := DeadCases(x);
    assert !HasDefault(cases.rest.rest) && !HasDefault(cases.rest);
  }

  lemma DeadBound(x: Symbol) returns (g: Binding)
    requires x.scope == Body
    ensures g == VisitProgram(DeadProgram(x)).g && Looping(g)
    ensures 14 < |g.nodes| && g.nodes[2] == ScopeStart(1, Body) && g.nodes[7] == BranchLabel && g.nodes[13] == SwitchClause(2, 1)
    ensures g.nodes[14] == BranchLabel && Antecedents(g, 14) == [13, 7] && Antecedents(g, 7) == [10]
    ensures g.accesses == [Access(0, x, 14, ModuleScope, false)]
  {
    var s := DeadProgram(x);
    NoDefault(x);
    hide VisitCases, VisitProgram, InSwitch, DeadCases, Extends, Grows, Looping;
    SwitchNodes();
    SwitchBound(s);
    var b := InSwitch();
    DeadCasesBound(x, b);
    g := VisitProgram(s).g;
    LoopingOn(VisitCases(s.cases, 0, 2, b).g, g);
  }

  // The walk meets the start of x's scope, and not its declaration.
  lemma DeadReported(x: Symbol, g: Binding)
    requires x.scope == Body && TdzKind(x) && g == VisitProgram(DeadProgram(x)).g
    ensures UsedBeforeDeclaration(g, Access(0, x, 14, ModuleScope, false))
  {
    var g1 := DeadBound(x);
    hide VisitProgram, DeadProgram;
    var w := ForInit(x);
    ReachesItself(g, w, 2);
    ReachesOn(g, w, 13, 2, 2);
    ReachesOn(g, w, 14, 13, 2);
    Undeclared(x, g);
  }

  lemma Undeclared(x: Symbol, g: Binding)
    requires Looping(g) && x.scope == Body && g.nodes[2] == ScopeStart(1, Body) && g.nodes[7] == BranchLabel
    requires 14 < |g.nodes| && g.nodes[13] == SwitchClause(2, 1) && g.nodes[14] == BranchLabel
    requires Antecedents(g, 14) == [13, 7] && Antecedents(g, 7) == [10]
    ensures !Meets(g, ForInit(x), 14, Found)
  {
    var w, inside: set<nat> := ForInit(x), {14, 13, 2, 7, 10, 11, 9, 12};
    forall m, p: nat | m in inside && m < |g.nodes| && MarkOf(w, g.nodes[m]) == Pass && p in Predecessors(g, m) ensures p in inside {
    }
    forall t: nat | t < |g.nodes| && Reaches(g, w, 14, t) ensures MarkOf(w, g.nodes[t]) != Found {
      var path :| LeadsTo(g, w, 14, t, path);
      Enclosed(g, w, inside, path);
    }
  }

  lemma LoopFormed(x: Symbol, open: set<Scope>, l: Stmt)
    requires l == While(Literal(Boolean(false)), Empty)
    ensures Scoped(l, open, ModuleScope) && Programs.Tidy(l) && Clean(Declared(x), l) && !Declares(x, l)
  {
    assert Scoped(l.body, open, ModuleScope) && Programs.Tidy(l.body) && Clean(Declared(x), l.body) && !Declares(x, l.body);
  }

  lemma DeadTryFormed(x: Symbol, open: set<Scope>)
    ensures Scoped(DeadTry(), open, ModuleScope) && Programs.Tidy(DeadTry()) && Clean(Declared(x), DeadTry())
  {
    var q, t := Declared(x), DeadTry();
    var l := t.block.rest;
    LoopFormed(x, open, l);
    assert Scoped(t.block, open, ModuleScope) && Programs.Tidy(t.block) && Clean(q, t.block) && !Declares(x, t.block);
  }

  lemma DeadFormed(x: Symbol)
    requires x.scope == Body
    ensures Formed(DeadProgram(x)) && Clean(Declared(x), DeadProgram(x))
  {
    var open := {ModuleScope} + {Body};
    DeadTryFormed(x, open);
    DeadCasesFormed(x, open);
    hide DeadCases;
  }

  lemma DeadCasesFormed(x: Symbol, open: set<Scope>)
    requires x.scope == Body && open == {ModuleScope} + {Body}
    requires Scoped(DeadTry(), open, ModuleScope) && Programs.Tidy(DeadTry()) && Clean(Declared(x), DeadTry())
    ensures ScopedCases(DeadCases(x), open, ModuleScope) && Programs.TidyCases(DeadCases(x)) && CleanCases(Declared(x), DeadCases(x))
  {
    var q, s, cases := Declared(x), DeadFirst(x), DeadCases(x);
    assert !LabelsLoop(DeadTry()) && !IsLoop(DeadTry());
    hide DeadTry;
    assert Scoped(s.rest, open, ModuleScope) && Programs.Tidy(s.rest) && Clean(q, s.rest);
    assert Scoped(s.first, open, ModuleScope) && Programs.Tidy(s.first) && Clean(q, s.first);
    assert Scoped(s, open, ModuleScope) && Programs.Tidy(s) && Clean(q, s);
    hide DeadFirst;
    ReadFormed(0, x, open);
    assert CleanExpr(q, Name(0, x)) && Clean(q, cases.rest.body);
    assert ScopedCases(cases.rest.rest, open, ModuleScope) && Programs.TidyCases(cases.rest.rest) && CleanCases(q, cases.rest.rest);
    assert ScopedCases(cases.rest, open, ModuleScope) && Programs.TidyCases(cases.rest) && CleanCases(q, cases.rest);
  }

  // The try returns, its finally breaks, and the next clause comes.
  lemma DeadFirstRuns(x: Symbol, r: Run, a: Activation)
    requires Current(x, r.history, a).Uninitialized?
    ensures var h := After(r.history, Store(x, DeclarationSite(5, false), true, false, Undefined));
      Exec(DeadFirst(x), {}, r, a, 1) == Outcome(Run(After(h, FinallyAbrupt(DeadTry(), h)), r.clock), Normal)
  {
    var s := DeadFirst(x);
    assert Eval(NoExpr, r, a) == Result(r, Undefined, false);
    var r1 := Emit(r, Store(x, DeclarationSite(5, false), true, false, Undefined));
    assert Exec(s.first, {}, r, a, 1) == Outcome(r1, Normal);
    var t := DeadTry();
    assert Eval(NoExpr, r1, a) == Result(r1, Undefined, false);
    assert Exec(t.block.first, {}, r1, a, 1) == Outcome(r1, Returned);
    assert Exec(t.block, {}, r1, a, 1) == Outcome(r1, Returned);
    assert ExecGuarded(t, r1, a, 1) == Outcome(r1, Returned);
    var r2 := Emit(r1, FinallyAbrupt(t, r1.history));
    assert Exec(t.finalizer.body, {}, r2, a, 1) == Outcome(r2, BreakTo("l"));
    assert Exec(t, {}, r1, a, 1) == Outcome(r2, BreakTo("l"));
    hide DeadTry;
    assert Exec(s.rest, {}, r1, a, 1) == Outcome(r2, Normal);
  }

  lemma DeadRuns(x: Symbol, r1: Run, a: Activation)
    requires Current(x, r1.history, a).Uninitialized?
    ensures var h := After(r1.history, Store(x, DeclarationSite(5, false), true, false, Undefined));
      Evaluated(ExecFrom(DeadCases(x), 0, r1, a, 1).run.history, 0, x, false, After(h, FinallyAbrupt(DeadTry(), h)))
  {
    var cases := DeadCases(x);
    var h := After(r1.history, Store(x, DeclarationSite(5, false), true, false, Undefined));
    var r2 := Run(After(h, FinallyAbrupt(DeadTry(), h)), r1.clock);
    DeadFirstRuns(x, r1, a);
    ReadWas(x, r2, a);
    hide DeadFirst, DeadTry, Exec;
    var o := Exec(cases.rest.body, {}, r2, a, 1);
    assert ExecFrom(NoCases, 0, o.run, a, 1).run == o.run;
    assert ExecFrom(cases.rest, 0, r2, a, 1).run == o.run;
  }

  // A loop out of reach makes the end of its try look reached, and what a break out of the finally leads to
  // look as if it came from there alone: a reference to a declared binding is reported.
  lemma DeadLoopReported(x: Symbol) returns (c: Access, p: History)
    requires x.scope == Body && TdzKind(x)
    ensures c.sym == x && Runs(DeadProgram(x), Running(false, Number(1)), c, p) && Clean(Declared(x), DeadProgram(x))
    ensures UsedBeforeDeclaration(VisitProgram(DeadProgram(x)).g, c) && HasBeenDeclared(x, p)
  {
    c := Access(0, x, 14, ModuleScope, false);
    hide VisitProgram, Exec, Clean, DeadProgram;
    var g := DeadBound(x);
    DeadReported(x, g);
    DeadFormed(x);
    p := DeadEvaluated(x, Running(false, Number(1)));
  }

  lemma DeadEvaluated(x: Symbol, a: Activation) returns (p: History)
    requires x.scope == Body && TdzKind(x)
    ensures Evaluated(Execute(DeadProgram(x), a, 1).run.history, 0, x, false, p) && HasBeenDeclared(x, p)
  {
    var r1 := EnterScope(Run(Begin, 0), Body, a);
    DeadRuns(x, r1, a);
    var h := After(r1.history, Store(x, DeclarationSite(5, false), true, false, Undefined));
    p := After(h, FinallyAbrupt(DeadTry(), h));
    Entering(DeadProgram(x), a);
    hide Exec, ExecFrom, DeadTry, DeadCases;
  }

  // A switch whose first clause is the one selected.
  lemma Entering(s: Stmt, a: Activation)
    requires s.Switch? && s.scope == Body && s.discriminant == Literal(Number(0)) && s.cases.Case? && s.cases.test == Literal(Number(0))
    ensures Execute(s, a, 1).run.history == After(ExecFrom(s.cases, 0, EnterScope(Run(Begin, 0), Body, a), a, 1).run.history, Exit(Body))
  {
    var r := Run(Begin, 0);
    var r1 := EnterScope(r, Body, a);
    assert Eval(s.discriminant, r, a) == Result(r, Number(0), false);
    assert Eval(s.cases.test, r1, a) == Result(r1, Number(0), false);
    assert Select(s.cases, 0, Number(0), r1, a) == Selection(r1, false, true, 0);
    hide ExecFrom, Select, Eval;
    var o := ExecFrom(s.cases, 0, r1, a, 1);
    assert ExecSwitch(s, r, a, 1) == Leave(if o.how == BreakTo("") then o.(how := Normal) else o, Body);
  }

  // ----- catch -----

  // x = undefined
  function Unset(x: Symbol): Expr {
    Assign(Plain, 1, x, Literal(Undefined))
  }

  // try { x = undefined; f() } catch { x }
  function CatchTry(x: Symbol): Stmt {
    Try(7, Then(Evaluate(Unset(x)), Evaluate(Opaque(NoExpr))), Catch(Body, Evaluate(Name(0, x))), NoFinally)
  }

  function CatchProgram(x: Symbol): Stmt {
    If(Name(2, x), CatchTry(x), Empty)
  }

  // The try, bound where x is guarded.
  lemma CatchTryBound(x: Symbol, b: Builder)
    requires x.scope == ModuleScope == b.container && b.flow == 2 && |b.g.nodes| == 3 && b.exceptionTargets == []
    ensures var r := VisitStmt(CatchTry(x), b);
      && r.g.accesses == b.g.accesses + [Access(1, x, 2, ModuleScope, true), Access(0, x, 4, ModuleScope, false)]
      && b.g.nodes <= r.g.nodes && 4 < |r.g.nodes| && r.g.nodes[4] == ScopeStart(2, Body) && r.g.foreign == b.g.foreign
  {
    hide Extends, Grows, Visited, VisitStmt;
    var s := CatchTry(x);
    TryVisited(s, b);
    var b1 := Step(Refer(b, 1, x, true), Assignment(2, x, Site1(1), false, true));
    UnsetBound(x, b);
    var b2 := StartScope(b1.(flow := 2), Body);
    ReadBound(0, x, b2);
    var b3 := Refer(b2, 0, x, false);
    assert VisitCatch(s.handler, 2, b1) == Join(b3, 3, 4) by { hide Join, StartScope; }
  }

  lemma UnsetBound(x: Symbol, b: Builder)
    requires x.scope == ModuleScope == b.container && b.flow == 2 && b.exceptionTargets == []
    ensures VisitStmt(CatchTry(x).block, b) == Step(Refer(b, 1, x, true), Assignment(2, x, Site1(1), false, true))
  {
    hide Extends, Grows, Visited;
    var s := CatchTry(x).block;
    assert VisitExpr(Unset(x).right, b) == b;
    var r := Step(Refer(b, 1, x, true), Assignment(2, x, Site1(1), false, true));
    assert AddAntecedentToAll(r, [], r.flow) == r;
    assert VisitStmt(s.first, b) == VisitExpr(Unset(x), b) == r;
    assert VisitStmt(s.rest, r) == VisitExpr(Opaque(NoExpr), r) == r;
    ThenBound(s, b);
  }

  lemma CatchBound(x: Symbol) returns (g: Binding)
    requires x.scope == ModuleScope
    ensures g == VisitProgram(CatchProgram(x)).g && g.foreign == {}
    ensures g.accesses == [Access(2, x, 1, ModuleScope, false), Access(1, x, 2, ModuleScope, true), Access(0, x, 4, ModuleScope, false)]
    ensures 4 < |g.nodes| && g.nodes[4] == ScopeStart(2, Body) && g.nodes[2] == Condition(1, Name(2, x), true)
  {
    var s := CatchProgram(x);
    TopNodes();
    var b1 := Refer(Top, 2, x, false);
    IfBound(s, Top, b1);
    var b2 := Step(b1, Condition(1, Name(2, x), true));
    CatchTryBound(x, b2);
    hide Extends, Grows, Visited, VisitStmt, CatchTry;
    var b3 := VisitStmt(CatchTry(x), b2);
    var b4 := Branch(b3, 1, Name(2, x), false);
    g := Join(b4, b3.flow, b4.flow).g;
  }

  lemma IfBound(s: Stmt, b: Builder, b1: Builder)
    requires s.If? && s.test.Name? && s.no == Empty && b1 == Refer(b, s.test.id, s.test.sym, false)
    ensures var b2 := Branch(b1, b1.flow, s.test, true); var b3 := VisitStmt(s.yes, b2); var b4 := Branch(b3, b1.flow, s.test, false);
      VisitStmt(s, b) == Join(b4, b3.flow, b4.flow)
  {
    hide Extends, Grows, Visited;
    assert VisitExpr(s.test, b) == b1;
    var b4 := Branch(VisitStmt(s.yes, Branch(b1, b1.flow, s.test, true)), b1.flow, s.test, false);
    assert VisitStmt(s.no, b4) == b4;
    assert VisitStmt(s, b) == VisitIf(s, b);
  }

  // x holds 1 at first; it is unset, f throws, and the catch reads it.
  lemma CatchRuns(x: Symbol) returns (p: History)
    requires x.scope == ModuleScope && !TdzKind(x)
    ensures Evaluated(Execute(CatchProgram(x), Running(true, Number(1)), 1).run.history, 0, x, false, p) && Current(x, p, Running(true, Number(1))) == Holds(Undefined)
  {
    var s, a, r := CatchProgram(x), Running(true, Number(1)), Run(Begin, 0);
    var r1 := Emit(r, Use(2, x, false));
    assert Current(x, r1.history, a) == Holds(Number(1));
    assert Eval(s.test, r, a) == Load(x, r1, a) == Result(r1, Number(1), false);
    var t := CatchTry(x);
    var r2 := UnsetRuns(x, r1);
    var r3 := EnterScope(Emit(r2, Caught(r1.history)), Body, a);
    p := r3.history;
    ReadWas(x, r3, a);
    assert Exec(t.block, {}, r1, a, 1) == Outcome(r2, Threw);
    hide Eval;
    assert Exec(t, {}, r1, a, 1) == Leave(Exec(t.handler.body, {}, r3, a, 1), Body);
    assert Execute(s, a, 1) == Exec(s, {}, r, a, 1) == Exec(t, {}, r1, a, 1);
  }

  lemma UnsetRuns(x: Symbol, r: Run) returns (o: Run)
    requires x.scope == ModuleScope && Current(x, r.history, Running(true, Number(1))).Holds?
    ensures Exec(CatchTry(x).block, {}, r, Running(true, Number(1)), 1) == Outcome(o, Threw) && Current(x, o.history, Running(true, Number(1))) == Holds(Undefined)
  {
    var a, s := Running(true, Number(1)), CatchTry(x).block;
    assert Eval(Unset(x).right, r, a) == Result(r, Undefined, false);
    var r1 := Emit(Emit(r, Use(1, x, true)), Store(x, Site1(1), false, true, Undefined));
    assert Eval(Unset(x), r, a) == EvalAssign(Unset(x), r, a) == Result(r1, Undefined, false);
    assert Exec(s.first, {}, r, a, 1) == Outcome(r1, Normal);
    assert Eval(NoExpr, r1, a) == Result(r1, Undefined, false);
    assert Eval(Opaque(NoExpr), r1, a) == Ask(r1, a);
    o := Ask(r1, a).run;
    assert Exec(s.rest, {}, r1, a, 1) == Outcome(o, Threw);
    hide Eval;
  }

  lemma CatchFormed(x: Symbol)
    requires x.scope == ModuleScope
    ensures Formed(CatchProgram(x))
    ensures forall q, tries, id, inside :: Straight(q, tries, id, CatchProgram(x), inside)
  {
    var open, t := {ModuleScope}, CatchTry(x);
    ReadFormed(0, x, open + {Body});
    assert ScopedExpr(Name(2, x), open, ModuleScope) && Programs.TidyExpr(Name(2, x));
    assert ScopedExpr(Unset(x).right, open, ModuleScope) && Programs.TidyExpr(Unset(x).right);
    assert ScopedExpr(Unset(x), open, ModuleScope) && Programs.TidyExpr(Unset(x));
    assert ScopedExpr(Opaque(NoExpr), open, ModuleScope) && Programs.TidyExpr(Opaque(NoExpr));
    hide Unset;
    assert Scoped(t.block.first, open, ModuleScope) && Scoped(t.block.rest, open, ModuleScope);
    assert Programs.Tidy(t.block.first) && Programs.Tidy(t.block.rest);
    assert Scoped(t.block, open, ModuleScope) && Programs.Tidy(t.block);
    assert Scoped(t, open, ModuleScope) && Programs.Tidy(t);
    var s := CatchProgram(x);
    assert Scoped(s.no, open, ModuleScope) && Programs.Tidy(s.no);
    hide CatchTry;
    assert Scoped(s, open, ModuleScope) && Programs.Tidy(s);
    forall q, tries, id, inside ensures Straight(q, tries, id, CatchProgram(x), inside) {
      assert Straight(q, tries, id, t.block, inside);
      assert Straight(q, tries, id, t, inside);
    }
  }

  // A catch clause is bound from the state before its try, where x was guarded; a run enters it from
  // inside the try, where x was set to undefined.
  lemma CatchReadWrong(x: Symbol) returns (c: Access, p: History)
    requires x.scope == ModuleScope && !TdzKind(x)
    ensures Runs(CatchProgram(x), Running(true, Number(1)), c, p) && c.sym == x && NoDetour(Undef(x), CatchProgram(x), c)
    ensures var g := VisitProgram(CatchProgram(x)).g; x !in g.foreign && !Meets(g, ForGuard(x), c.flow, Missed)
    ensures Current(x, p, Running(true, Number(1))) == Holds(Undefined)
  {
    hide VisitProgram, Exec, CatchProgram;
    c := Access(0, x, 4, ModuleScope, false);
    var g := CatchBound(x);
    FoundNext(g, ForGuard(x), 4, 2);
    assert c == g.accesses[2];
    CatchFormed(x);
    p := CatchRuns(x);
  }

  // ----- guards in a try -----

  // try { if (x) {} else throw 0 } finally { x }
  function GuardProgram(x: Symbol): Stmt {
    Try(7, If(Name(2, x), Empty, Throw(Literal(Number(0)))), NoCatch, Finally(Evaluate(Name(0, x))))
  }

  // The block's end is reached past the guard only.
  lemma GuardBlockBound(x: Symbol, b: Builder)
    requires b.flow == 1 && |b.g.nodes| == 3 && b.container == ModuleScope && Antecedents(b.g, 5) == []
    ensures var r := VisitStmt(GuardProgram(x).block, b);
      && b.g.nodes <= r.g.nodes && |r.g.nodes| == 6 && r.flow == 5 && r.g.nodes[3] == Condition(1, Name(2, x), true) && r.g.nodes[5] == BranchLabel
      && Antecedents(r.g, 5) == [3] && r.g.accesses == b.g.accesses + [Access(2, x, 1, ModuleScope, false)] && r.g.foreign == b.g.foreign
      && r.container == ModuleScope
  {
    hide Extends, Grows, Visited;
    var s := GuardProgram(x).block;
    var b1 := Refer(b, 2, x, false);
    assert VisitExpr(s.test, b) == b1;
    var b2 := Step(b1, Condition(1, s.test, true));
    assert VisitStmt(s.yes, b2) == b2;
    var b4 := Step(b2, Condition(1, s.test, false));
    assert VisitStmt(s.no, b4) == b4.(flow := Dead) by { assert VisitExpr(s.no.expr, b4) == b4; }
    hide VisitExpr;
    assert VisitStmt(s, b) == VisitIf(s, b) == Join(b4.(flow := Dead), 3, Dead);
  }

  lemma GuardBound(x: Symbol) returns (g: Binding)
    ensures g == VisitProgram(GuardProgram(x)).g && g.foreign == {}
    ensures g.accesses == [Access(2, x, 1, ModuleScope, false), Access(0, x, 5, ModuleScope, false)]
    ensures 5 < |g.nodes| && g.nodes[3] == Condition(1, Name(2, x), true) && g.nodes[5] == BranchLabel && Predecessors(g, 5) == [3]
  {
    TopNodes();
    hide Extends, Grows, Visited, VisitStmt;
    var s := GuardProgram(x);
    TryVisited(s, Top);
    var c := AddAntecedent(Add(Top, BranchLabel), 2, 1);
    var b1 := c.(exceptionTargets := Top.exceptionTargets + [2]);
    GuardBlockBound(x, b1);
    var b2 := VisitStmt(s.block, b1);
    assert VisitCatch(s.handler, 1, b2) == b2;
    var b3 := MarkBlind(b2.(exceptionTargets := Top.exceptionTargets), 7);
    ReadBound(0, x, b3);
    g := Refer(b3, 0, x, false).g;
  }

  // x holds undefined, so the block throws.
  lemma GuardRuns(x: Symbol) returns (p: History)
    requires x.scope == ModuleScope && !TdzKind(x)
    ensures var a := Running(false, Undefined);
      Evaluated(Execute(GuardProgram(x), a, 1).run.history, 0, x, false, p) && Current(x, p, a) == Holds(Undefined)
  {
    var s, a, r := GuardProgram(x), Running(false, Undefined), Run(Begin, 0);
    var r1 := Emit(r, Use(2, x, false));
    assert Current(x, r1.history, a) == Holds(Undefined);
    assert Eval(s.block.test, r, a) == Load(x, r1, a) == Result(r1, Undefined, false);
    assert Eval(s.block.no.expr, r1, a) == Result(r1, Number(0), false);
    assert Exec(s.block.no, {}, r1, a, 1) == Outcome(r1, Threw);
    assert Exec(s.block, {}, r, a, 1) == Outcome(r1, Threw);
    hide Eval;
    assert ExecGuarded(s, r, a, 1) == Outcome(r1, Threw);
    var r2 := Emit(r1, FinallyAbrupt(s, Begin));
    p := r2.history;
    ReadWas(x, r2, a);
    var f := Exec(s.finalizer.body, {}, r2, a, 1);
    assert Execute(s, a, 1) == if f.how.Normal? then Outcome(Emit(f.run, FinallyDone(r1.history)), Threw) else f;
  }

  lemma GuardFormed(x: Symbol)
    requires x.scope == ModuleScope
    ensures Formed(GuardProgram(x)) && Clean(Undef(x), GuardProgram(x))
  {
    var open, s := {ModuleScope}, GuardProgram(x);
    ReadFormed(0, x, open);
    assert CleanExpr(Undef(x), Name(0, x)) && CleanExpr(Undef(x), Name(2, x));
    assert ScopedExpr(Name(2, x), open, ModuleScope) && Programs.TidyExpr(Name(2, x));
    var t := s.block.no;
    assert ScopedExpr(t.expr, open, ModuleScope) && Programs.TidyExpr(t.expr) && CleanExpr(Undef(x), t.expr) && !ExprStores(x, t.expr);
    assert Scoped(t, open, ModuleScope) && Programs.Tidy(t) && Clean(Undef(x), t) && !StmtStores(x, t);
    assert Scoped(s.block, open, ModuleScope) && Programs.Tidy(s.block) && Clean(Undef(x), s.block);
    assert !ExprStores(x, Name(2, x)) && !StmtStores(x, Empty) && !StmtStores(x, s.block);
    assert !ExprStores(x, Name(0, x)) && !StmtStores(x, s.finalizer.body) && Clean(Undef(x), s.finalizer.body);
  }

  // The finally is bound past the guard; a throw on the guard's other side enters it.
  lemma FinallyGuardWrong(x: Symbol) returns (c: Access, p: History)
    requires x.scope == ModuleScope && !TdzKind(x)
    ensures Runs(GuardProgram(x), Running(false, Undefined), c, p) && c.sym == x && Clean(Undef(x), GuardProgram(x))
    ensures var g := VisitProgram(GuardProgram(x)).g; x !in g.foreign && !Meets(g, ForGuard(x), c.flow, Missed)
    ensures Current(x, p, Running(false, Undefined)) == Holds(Undefined)
  {
    hide VisitProgram, Exec, GuardProgram, Clean;
    var g := GuardBound(x);
    c := Access(0, x, 5, ModuleScope, false);
    SoleOfTwo(g, c, Access(2, x, 1, ModuleScope, false));
    FoundNext(g, ForGuard(x), 5, 3);
    GuardFormed(x);
    p := GuardRuns(x);
  }
}
