// Where a closure is taken to see a binding narrowed, though the binding is assigned after the closure is
// created: the closure is bound after the assignment, but runs before it.
module NarrowingLimits {
  import opened Syntax
  import opened Semantics
  import opened Positions
  import opened Narrowing

  // () => { x }, the reference numbered id
  predicate Reading(e: Expr, f: Scope, id: nat, x: Symbol) {
    e.Closure? && e.fn == f && e.body == Evaluate(Name(id, x))
  }

  // x = v;
  predicate Setting(s: Stmt, x: Symbol) {
    s.Evaluate? && s.expr.Assign? && s.expr.aop == Plain && s.expr.sym == x && s.expr.right.Literal?
  }

  // for (let x;; () => { x }) { x = v; }
  predicate UpdateCloses(s: Stmt, f: Scope, id: nat, x: Symbol) {
    && s.For? && s.scope == x.scope && s.test == NoExpr && Reading(s.update, f, id, x) && Setting(s.body, x)
    && s.start.Declare? && s.start.kind == Let && s.start.sym == x && s.start.init == NoExpr
  }

  lemma DeclareSteps(s: Stmt, x: Symbol, st: Numbering, fn: Scope)
    requires s.Declare? && s.kind == Let && s.sym == x && s.init == NoExpr
    ensures Steps(StmtTokens(s, fn), st) == st.(ord := st.ord + 1, declared := st.declared[x := st.ord + 1])
  {
    hide Steps, StmtTokens;
    DeclareTokens(s, x, fn);
    StepsOn([Tick, Open], [Init(x), Close], st);
    OpenSteps(st);
    TwoSteps(Init(x), Close, Opened(st));
    InitInside(x, st);
  }

  lemma DeclareTokens(s: Stmt, x: Symbol, fn: Scope)
    requires s.Declare? && s.kind == Let && s.sym == x && s.init == NoExpr
    ensures StmtTokens(s, fn) == [Tick, Open] + [Init(x), Close]
  {
    assert Inside(s, fn) == [] + [Init(x)] == [Init(x)];
    assert [Init(x)] + [Close] == [Init(x), Close];
  }

  lemma InitInside(x: Symbol, st: Numbering)
    ensures Step(Close, Step(Init(x), Opened(st))) == st.(ord := st.ord + 1, declared := st.declared[x := st.ord + 1])
  {
    assert Opened(st).frames[..|st.frames|] == st.frames;
  }

  // A frame opened after a tick, and closed with what was marked in it.
  function Opened(st: Numbering): Numbering {
    st.(ord := st.ord + 1, frames := st.frames + [Frame(st.ord + 1, [])])
  }

  lemma OpenSteps(st: Numbering)
    ensures Steps([Tick, Open], st) == Opened(st)
  {
    hide Steps;
    TwoSteps(Tick, Open, st);
  }

  lemma TickSteps(st: Numbering)
    ensures Steps([Tick, Tick], st) == st.(ord := st.ord + 2)
  {
    hide Steps;
    TwoSteps(Tick, Tick, st);
  }

  lemma RefSteps(id: nat, x: Symbol, st: Numbering)
    ensures Steps([Tick, Ref(id, x)], st) == st.(ord := st.ord + 1, refs := st.refs + [Reference(id, x, st.ord + 1)])
  {
    hide Steps;
    TwoSteps(Tick, Ref(id, x), st);
  }

  lemma FourPairs(a: seq<Token>, b: seq<Token>, d: seq<Token>, e: seq<Token>, st: Numbering)
    ensures Steps(a + b + d + e, st) == Steps(e, Steps(d, Steps(b, Steps(a, st))))
  {
    StepsOn(a, b, st);
    StepsOn(a + b, d, st);
    StepsOn(a + b + d, e, st);
  }

  lemma SettingTokens(s: Stmt, x: Symbol, fn: Scope)
    requires Setting(s, x)
    ensures StmtTokens(s, fn) == [Tick, Open] + [Tick, Tick] + [Tick, Ref(s.expr.id, x)] + [Set(x), Close]
  {
    var e := s.expr;
    assert ExprTokens(e.right, fn) == [Tick];
    assert ExprTokens(e, fn) == [Tick] + [Tick] + [Tick, Ref(e.id, x), Set(x)];
    assert StmtTokens(s, fn) == [Tick, Open] + ExprTokens(e, fn) + [Close];
  }

  lemma ReadingTokens(e: Expr, f: Scope, id: nat, x: Symbol, fn: Scope)
    requires Reading(e, f, id, x)
    ensures ExprTokens(e, fn) == [Tick, In(f)] + [Tick, Open] + [Tick, Ref(id, x)] + [Close, Back(fn)]
  {
    var name := Name(id, x);
    assert ExprTokens(name, f) == [Tick, Ref(id, x)];
    assert StmtTokens(e.body, f) == [Tick, Open] + ExprTokens(name, f) + [Close];
  }

  // The assignment reaches to the end of its own statement.
  lemma SettingSteps(s: Stmt, x: Symbol, st: Numbering, fn: Scope)
    requires Setting(s, x) && st.fn == ContainerOf(x.scope) && x !in st.last
    requires DeclaredAt(st, x) <= st.ord && forall k :: 0 <= k < |st.frames| ==> st.frames[k].start <= DeclaredAt(st, x)
    ensures var r := Steps(StmtTokens(s, fn), st);
      && r.ord == st.ord + 4 && r.last == st.last[x := Until(st.ord + 4)]
      && r.frames == st.frames && r.fn == st.fn && r.refs == st.refs + [Reference(s.expr.id, x, st.ord + 4)]
  {
    hide StmtTokens, ExprTokens, Steps, Mark, Step, FrameAfter, Inside;
    var id := s.expr.id;
    SettingTokens(s, x, fn);
    var st1 := Opened(st);
    var st2 := st1.(ord := st.ord + 3);
    var st3 := st2.(ord := st.ord + 4, refs := st.refs + [Reference(id, x, st.ord + 4)]);
    FourPairs([Tick, Open], [Tick, Tick], [Tick, Ref(id, x)], [Set(x), Close], st);
    OpenSteps(st);
    TickSteps(st1);
    RefSteps(id, x, st2);
    TwoSteps(Set(x), Close, st3);
    SetMarks(x, st, st3);
    CloseMarked(x, st, st3);
  }

  lemma SetMarks(x: Symbol, st: Numbering, st1: Numbering)
    requires st1.frames == st.frames + [Frame(st.ord + 1, [])] && st1.fn == ContainerOf(x.scope)
    requires DeclaredAt(st1, x) == DeclaredAt(st, x) <= st.ord
    requires forall k :: 0 <= k < |st.frames| ==> st.frames[k].start <= DeclaredAt(st, x)
    ensures Step(Set(x), st1) == st1.(frames := st.frames + [Frame(st.ord + 1, [x])])
  {
    var n := |st.frames|;
    assert st1.frames[n].start > DeclaredAt(st, x);
    assert forall j :: 0 <= j < n ==> st1.frames[j] == st.frames[j];
    assert FrameAfter(st1.frames, DeclaredAt(st, x), 0) == n;
    assert [] + [x] == [x];
    assert st1.frames[n := Frame(st.ord + 1, [x])] == st.frames + [Frame(st.ord + 1, [x])];
  }

  lemma CloseMarked(x: Symbol, st: Numbering, st1: Numbering)
    requires x !in st.last && st1.last == st.last
    ensures Step(Close, st1.(frames := st.frames + [Frame(st.ord + 1, [x])])) == st1.(frames := st.frames, last := st.last[x := Until(st1.ord)])
  {
    assert (st.frames + [Frame(st.ord + 1, [x])])[..|st.frames|] == st.frames && [x][1..] == [];
    assert ExtendAll(st.last, [x], st1.ord) == ExtendTo(st.last, x, st1.ord);
  }

  lemma ReadingSteps(e: Expr, f: Scope, id: nat, x: Symbol, st: Numbering, fn: Scope)
    requires Reading(e, f, id, x) && st.fn == fn
    ensures Steps(ExprTokens(e, fn), st) ==
      st.(ord := st.ord + 3, entered := st.entered[f := st.ord + 1], refs := st.refs + [Reference(id, x, st.ord + 3)])
  {
    hide StmtTokens, ExprTokens, Steps, Mark, Step;
    ReadingTokens(e, f, id, x, fn);
    var st1 := st.(ord := st.ord + 1, fn := f, entered := st.entered[f := st.ord + 1]);
    var st2 := Opened(st1);
    var st3 := st2.(ord := st.ord + 3, refs := st.refs + [Reference(id, x, st.ord + 3)]);
    FourPairs([Tick, In(f)], [Tick, Open], [Tick, Ref(id, x)], [Close, Back(fn)], st);
    EnterSteps(f, st);
    OpenSteps(st1);
    RefSteps(id, x, st2);
    BackSteps(fn, st1, st3);
  }

  lemma EnterSteps(f: Scope, st: Numbering)
    ensures Steps([Tick, In(f)], st) == st.(ord := st.ord + 1, fn := f, entered := st.entered[f := st.ord + 1])
  {
    hide Steps;
    TwoSteps(Tick, In(f), st);
  }

  lemma BackSteps(fn: Scope, st: Numbering, st1: Numbering)
    requires st1.frames == Opened(st).frames
    ensures Steps([Close, Back(fn)], st1) == st1.(frames := st.frames, fn := fn)
  {
    hide Steps;
    TwoSteps(Close, Back(fn), st1);
    assert st1.frames[..|st.frames|] == st.frames;
  }

  // The binder takes the closure to see x narrowed.
  lemma UpdateAccepted(s: Stmt, f: Scope, id: nat, x: Symbol)
    requires UpdateCloses(s, f, id, x) && ContainerOf(x.scope) == ModuleScope
    ensures var st := Steps(ProgramTokens(s), Unnumbered);
      exists r :: r in st.refs && r.id == id && r.sym == x && NotAssignedFrom(st, r)
  {
    var t1, t3, t4 := StmtTokens(s.start, ModuleScope), StmtTokens(s.body, ModuleScope), ExprTokens(s.update, ModuleScope);
    assert Inside(s, ModuleScope) == t1 + [] + t3 + t4;
    assert ProgramTokens(s) == [Tick, Open] + (t1 + (t3 + (t4 + [Close])));
    var st1 := Steps([Tick, Open], Unnumbered);
    TwoSteps(Tick, Open, Unnumbered);
    hide StmtTokens, ExprTokens;
    StepsOn([Tick, Open], t1 + (t3 + (t4 + [Close])), Unnumbered);
    DeclareSteps(s.start, x, st1, ModuleScope);
    StepsOn(t1, t3 + (t4 + [Close]), st1);
    var st2 := Steps(t1, st1);
    SettingSteps(s.body, x, st2, ModuleScope);
    StepsOn(t3, t4 + [Close], st2);
    var st3 := Steps(t3, st2);
    ReadingSteps(s.update, f, id, x, st3, ModuleScope);
    StepsOn(t4, [Close], st3);
    var r := Reference(id, x, st3.ord + 3);
    var st := Steps(ProgramTokens(s), Unnumbered);
    assert st == Step(Close, Steps(t4, st3));
    assert r in st.refs && NotAssignedFrom(st, r);
  }

  // ----- the runs -----

  lemma SettingRuns(s: Stmt, x: Symbol, r: Run, a: Activation, fuel: nat)
    requires Setting(s, x) && Current(x, r.history, a).Holds?
    ensures var site := AssignmentSite(s.expr.id, Plain);
      Exec(s, {}, r, a, fuel) == Outcome(Emit(Emit(r, Use(s.expr.id, x, true)), Store(x, site, false, true, s.expr.right.value)), Normal)
  {
    var e := s.expr;
    assert Eval(e.right, r, a) == Result(r, e.right.value, false);
    assert Eval(e, r, a) == EvalAssign(e, r, a);
  }

  lemma DeclareRuns(s: Stmt, x: Symbol, r: Run, a: Activation, fuel: nat)
    requires s.Declare? && s.kind == Let && s.sym == x && s.init == NoExpr && Current(x, r.history, a).Uninitialized?
    ensures Exec(s, {}, r, a, fuel) == Outcome(Emit(r, Store(x, DeclarationSite(s.id, false), true, false, Undefined)), Normal)
  {
    assert Eval(s.init, r, a) == Result(r, Undefined, false);
  }

  lemma ReadingRuns(e: Expr, f: Scope, id: nat, x: Symbol, r: Run, a: Activation)
    requires Reading(e, f, id, x)
    ensures Eval(e, r, a) == Result(Emit(r, Create(f)), Object(r.clock), false)
  {
  }

  // A closure created in the update of a for loop closes over the bindings of the next round, whose body
  // then assigns to x.
  lemma UpdateAssigned(s: Stmt, id: nat, c: Scene, a: Activation)
    requires UpdateCloses(s, c.f, id, c.x) && TdzKind(c.x)
    ensures !Unassigned(c, Execute(s, a, 2).run.history)
  {
    hide Exec, Eval, Unassigned, TdzKind;
    var x := c.x;
    var r0 := EnterScope(Run(Begin, 0), s.scope, a);
    DeclareRuns(s.start, x, r0, a, 2);
    var r1 := Emit(Exec(s.start, {}, r0, a, 2).run, Renew(s.scope));
    assert Execute(s, a, 2) == Leave(ForRounds(s, {}, r1, a, 2), s.scope) by { ForStarts(s, Run(Begin, 0), a, 2); }
    SettingRuns(s.body, x, r1, a, 2);
    NoTest(s.test, r1, a);
    var r2 := Emit(Exec(s.body, {}, r1, a, 2).run, Renew(s.scope));
    ReadingRuns(s.update, c.f, id, x, r2, a);
    var r3 := Eval(s.update, r2, a).run;
    assert ForRounds(s, {}, r1, a, 2) == ForRounds(s, {}, r3, a, 1);
    assert Current(x, r2.history.past, a).Holds? && Current(x, r2.history, a).Holds?;
    SettingRuns(s.body, x, r3, a, 1);
    NoTest(s.test, r3, a);
    var r4 := Emit(Exec(s.body, {}, r3, a, 1).run, Renew(s.scope));
    ReadingRuns(s.update, c.f, id, x, r4, a);
    var r5 := Eval(s.update, r4, a).run;
    assert ForRounds(s, {}, r5, a, 0) == Outcome(r5, Halted);
    assert ForRounds(s, {}, r3, a, 1) == Outcome(r5, Halted);
    AssignedWhile(c, r3.history, s.body, r5.history.past.past);
    assert !Unassigned(c, r5.history.past) && !Unassigned(c, r5.history) by { Later(c, r5.history.past); Later(c, r5.history); }
    Later(c, After(r5.history, Exit(s.scope)));
  }

  lemma NoTest(e: Expr, r: Run, a: Activation)
    requires e == NoExpr
    ensures Eval(e, r, a) == Result(r, Undefined, false)
  {
  }

  lemma ForStarts(s: Stmt, r: Run, a: Activation, fuel: nat)
    requires s.For?
    ensures var o := Exec(s.start, {}, EnterScope(r, s.scope, a), a, fuel);
      o.how.Normal? ==> Exec(s, {}, r, a, fuel) == Leave(ForRounds(s, {}, Emit(o.run, Renew(s.scope)), a, fuel), s.scope)
  {
  }

  lemma AssignedWhile(c: Scene, h: History, s: Stmt, k: History)
    requires Setting(s, c.x) && Captured(c, h)
    requires k == After(After(h, Use(s.expr.id, c.x, true)), Store(c.x, AssignmentSite(s.expr.id, Plain), false, true, s.expr.right.value))
    ensures !Unassigned(c, k)
  {
  }

  lemma Later(c: Scene, h: History)
    requires h.After? && !Unassigned(c, h.past)
    ensures !Unassigned(c, h)
  {
  }

  // switch (v) { default: let x; x = w; case () => { x }: }
  predicate TestCloses(s: Stmt, f: Scope, id: nat, x: Symbol) {
    && s.Switch? && s.scope == x.scope && s.discriminant.Literal? && !s.discriminant.value.Object?
    && s.cases.Case? && s.cases.test == NoExpr && s.cases.body.Then?
    && s.cases.body.first.Declare? && s.cases.body.first.kind == Let && s.cases.body.first.sym == x
    && s.cases.body.first.init == NoExpr && Setting(s.cases.body.rest, x)
    && s.cases.rest.Case? && Reading(s.cases.rest.test, f, id, x) && s.cases.rest.body == Empty && s.cases.rest.rest == NoCases
  }

  lemma TestAccepted(s: Stmt, f: Scope, id: nat, x: Symbol)
    requires TestCloses(s, f, id, x) && ContainerOf(x.scope) == ModuleScope
    ensures var st := Steps(ProgramTokens(s), Unnumbered);
      exists r :: r in st.refs && r.id == id && r.sym == x && NotAssignedFrom(st, r)
  {
    var fn := ModuleScope;
    var body := s.cases.body;
    var t1, t2, t3 := StmtTokens(body.first, fn), StmtTokens(body.rest, fn), ExprTokens(s.cases.rest.test, fn);
    TestTokens(s, f, id, x);
    hide StmtTokens, ExprTokens;
    var st0 := Opened(Unnumbered);
    OpenSteps(Unnumbered);
    StepsOn([Tick, Open], [Tick] + (t1 + (t2 + (t3 + [Close]))), Unnumbered);
    var st1 := st0.(ord := 2);
    StepsOn([Tick], t1 + (t2 + (t3 + [Close])), st0);
    assert Steps([Tick], st0) == st1;
    DeclareSteps(body.first, x, st1, fn);
    StepsOn(t1, t2 + (t3 + [Close]), st1);
    var st2 := Steps(t1, st1);
    SettingSteps(body.rest, x, st2, fn);
    StepsOn(t2, t3 + [Close], st2);
    var st3 := Steps(t2, st2);
    ReadingSteps(s.cases.rest.test, f, id, x, st3, fn);
    StepsOn(t3, [Close], st3);
    var r := Reference(id, x, st3.ord + 3);
    var st := Steps(ProgramTokens(s), Unnumbered);
    assert st == Step(Close, Steps(t3, st3));
    assert r in st.refs && NotAssignedFrom(st, r);
  }

  lemma TestTokens(s: Stmt, f: Scope, id: nat, x: Symbol)
    requires TestCloses(s, f, id, x)
    ensures var fn := ModuleScope;
      var t1, t2, t3 := StmtTokens(s.cases.body.first, fn), StmtTokens(s.cases.body.rest, fn), ExprTokens(s.cases.rest.test, fn);
      ProgramTokens(s) == [Tick, Open] + ([Tick] + (t1 + (t2 + (t3 + [Close]))))
  {
    var fn := ModuleScope;
    var t1, t2, t3 := StmtTokens(s.cases.body.first, fn), StmtTokens(s.cases.body.rest, fn), ExprTokens(s.cases.rest.test, fn);
    LastClause(s.cases.rest, fn);
    FirstClause(s.cases, fn);
    hide CasesTokens;
    assert Inside(s, fn) == [Tick] + CasesTokens(s.cases, fn);
  }

  lemma LastClause(cases: Cases, fn: Scope)
    requires cases.Case? && cases.body == Empty && cases.rest == NoCases
    ensures CasesTokens(cases, fn) == ExprTokens(cases.test, fn)
  {
  }

  lemma FirstClause(cases: Cases, fn: Scope)
    requires cases.Case? && cases.test == NoExpr && cases.body.Then?
    ensures CasesTokens(cases, fn) == StmtTokens(cases.body.first, fn) + StmtTokens(cases.body.rest, fn) + CasesTokens(cases.rest, fn)
  {
    hide Inside;
    var t := StmtTokens(cases.body.first, fn) + StmtTokens(cases.body.rest, fn);
    assert StmtTokens(cases.body, fn) == t && ExprTokens(cases.test, fn) == [];
    assert [] + t == t;
  }

  // The closure is created before any clause runs.
  lemma TestAssigned(s: Stmt, id: nat, c: Scene, a: Activation, fuel: nat)
    requires TestCloses(s, c.f, id, c.x) && TdzKind(c.x)
    ensures !Unassigned(c, Execute(s, a, fuel).run.history)
  {
    hide Exec, Eval, Unassigned, TdzKind, Select, ExecFrom;
    var x := c.x;
    var body := s.cases.body;
    var r := Run(Begin, 0);
    var r0 := EnterScope(r, s.scope, a);
    ReadingRuns(s.cases.rest.test, c.f, id, x, r0, a);
    var r1 := Emit(r0, Create(c.f));
    DeclareRuns(body.first, x, r1, a, fuel);
    var r2 := Exec(body.first, {}, r1, a, fuel).run;
    SettingRuns(body.rest, x, r2, a, fuel);
    var r3 := Exec(body.rest, {}, r2, a, fuel).run;
    SwitchRuns(s, c.f, id, x, r, a, fuel);
    AssignedWhile(c, r2.history, body.rest, r3.history);
    Later(c, After(r3.history, Exit(s.scope)));
  }

  lemma SwitchRuns(s: Stmt, f: Scope, id: nat, x: Symbol, r: Run, a: Activation, fuel: nat)
    requires TestCloses(s, f, id, x)
    ensures var r1 := Emit(EnterScope(r, s.scope, a), Create(f));
      var o := Exec(s.cases.body.first, {}, r1, a, fuel);
      var p := Exec(s.cases.body.rest, {}, o.run, a, fuel);
      o.how.Normal? && p.how.Normal? ==> Exec(s, {}, r, a, fuel).run == Emit(p.run, Exit(s.scope))
  {
    var d, r0 := s.discriminant.value, EnterScope(r, s.scope, a);
    var r1 := Emit(r0, Create(f));
    assert Eval(s.discriminant, r, a) == Result(r, d, false);
    ReadingRuns(s.cases.rest.test, f, id, x, r0, a);
    assert Select(s.cases.rest.rest, 2, d, r1, a) == Selection(r1, false, false, 0);
    assert Select(s.cases.rest, 1, d, r0, a) == Selection(r1, false, false, 0);
    assert Select(s.cases, 0, d, r0, a) == Selection(r1, false, false, 0);
    var o := Exec(s.cases.body.first, {}, r1, a, fuel);
    var p := Exec(s.cases.body.rest, {}, o.run, a, fuel);
    if o.how.Normal? && p.how.Normal? {
      assert Exec(s.cases.body, {}, r1, a, fuel) == p;
      assert Exec(s.cases.rest.body, {}, p.run, a, fuel) == Outcome(p.run, Normal);
      assert ExecFrom(s.cases.rest.rest, 0, p.run, a, fuel) == Outcome(p.run, Normal);
      assert ExecFrom(s.cases.rest, 0, p.run, a, fuel) == Outcome(p.run, Normal);
      assert ExecFrom(s.cases, 0, r1, a, fuel) == Outcome(p.run, Normal);
    }
  }
}
