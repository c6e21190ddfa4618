// What a run cannot bring about: a statement that does not disturb a question leaves its state only
// if the state was there before, however it completes.
module Fading {
  import opened Syntax
  import opened Semantics
  import opened Questions

  ghost predicate Fades(q: Question, a: Activation, tries: set<nat>, h: History, k: History) {
    (InState(q, k, a) ==> InState(q, h, a)) && (Counts(q, k, tries, a) ==> Counts(q, h, tries, a))
  }

  // The question's state can only be ended by what is stored meanwhile.
  predicate NoStore(q: Question, e: Expr) {
    q.Undef? || q.StoredBy? ==> !ExprStores(q.sym, e)
  }

  lemma {:induction false} StoresFade(q: Question, a: Activation, tries: set<nat>, ws: seq<(Symbol, Value)>, h: History)
    requires Applies(q, a)
    ensures Fades(q, a, tries, h, Stores(ws, h, a))
    decreases |ws|
  {
    if ws != [] {
      var (x, v) := ws[0];
      StoresFade(q, a, tries, ws[1..], if x in a.foreign && Current(x, h, a).Holds? then After(h, ForeignStore(x, v)) else h);
    }
  }

  lemma AskFades(q: Question, a: Activation, tries: set<nat>, r: Run)
    requires Applies(q, a)
    ensures Fades(q, a, tries, r.history, Ask(r, a).run.history)
  {
    StoresFade(q, a, tries, a.oracle(r.clock).stores, r.history);
  }

  lemma LoadFades(q: Question, a: Activation, tries: set<nat>, x: Symbol, r: Run)
    requires Applies(q, a)
    ensures Fades(q, a, tries, r.history, Load(x, r, a).run.history)
  {
    AskFades(q, a, tries, r);
  }

  // A reference to x: its use, and what it reads.
  lemma ReadFades(q: Question, a: Activation, tries: set<nat>, id: nat, x: Symbol, r: Run)
    requires Applies(q, a)
    ensures var l := Load(x, Emit(r, Use(id, x, false)), a);
      Fades(q, a, tries, r.history, l.run.history)
  {
    LoadFades(q, a, tries, x, Emit(r, Use(id, x, false)));
  }

  lemma StoreFades(q: Question, a: Activation, tries: set<nat>, x: Symbol, site: Site, v: Value, r: Run)
    requires q.Undef? || q.StoredBy? ==> q.sym != x
    ensures Fades(q, a, tries, r.history, StoreTo(x, site, v, r, a).run.history)
  {
  }

  lemma SilentFades(q: Question, a: Activation, tries: set<nat>, h: History, e: Event)
    requires Silent(e)
    ensures Fades(q, a, tries, h, After(h, e))
  {
  }

  lemma {:induction false} EvalFades(q: Question, a: Activation, tries: set<nat>, e: Expr, r: Run)
    requires Applies(q, a) && NoStore(q, e)
    ensures Fades(q, a, tries, r.history, Eval(e, r, a).run.history)
    decreases e, 2
  {
    hide Ask, Load, InState, Counts, StoreTo, BinaryValue;
    match e
    case NoExpr =>
    case Literal(_) =>
    case Name(id, x) => ReadFades(q, a, tries, id, x, r);
    case Not(arg) => EvalFades(q, a, tries, arg, r);
    case TypeOf(arg) => EvalFades(q, a, tries, arg, r);
    case Binary(_, left, right) => BothFade(q, a, tries, e, left, right, r);
    case Logical(_, left, right) => BothFade(q, a, tries, e, left, right, r);
    case Conditional(test, yes, no) =>
      BothFade(q, a, tries, e, test, yes, r);
      BothFade(q, a, tries, e, test, no, r);
    case Assign(_, _, _, right) => AssignFades(q, a, tries, e, r);
    case Update(_, _) => UpdateFades(q, a, tries, e, r);
    case Member(o) => BothFade(q, a, tries, e, o, NoExpr, r);
    case SetMember(o, right) => BothFade(q, a, tries, e, o, right, r);
    case Call(callee, args) => BothFade(q, a, tries, e, callee, args, r);
    case Comma(first, second) => BothFade(q, a, tries, e, first, second, r);
    case Opaque(arg) => BothFade(q, a, tries, e, arg, NoExpr, r);
    case Closure(fn, _) => SilentFades(q, a, tries, r.history, Create(fn));
  }

  lemma UpdateFades(q: Question, a: Activation, tries: set<nat>, e: Expr, r: Run)
    requires e.Update? && Applies(q, a) && NoStore(q, e)
    ensures Fades(q, a, tries, r.history, Eval(e, r, a).run.history)
  {
    hide Ask, Load, InState, Counts, StoreTo;
    var l := Load(e.sym, Emit(r, Use(e.id, e.sym, false)), a);
    ReadFades(q, a, tries, e.id, e.sym, r);
    AskFades(q, a, tries, l.run);
    var c := Ask(l.run, a);
    StoreFades(q, a, tries, e.sym, OtherSite, c.value, c.run);
  }

  // One part of an expression after another, and other code after both.
  lemma {:induction false} BothFade(q: Question, a: Activation, tries: set<nat>, whole: Expr, e: Expr, f: Expr, r: Run)
    requires Applies(q, a) && NoStore(q, e) && NoStore(q, f)
    requires e < whole && (f < whole || f == NoExpr)
    ensures
      var h1 := Eval(e, r, a).run.history;
      var r2 := Eval(f, Eval(e, r, a).run, a).run;
      var h3 := Ask(r2, a).run.history;
      && Fades(q, a, tries, r.history, h1) && Fades(q, a, tries, r.history, r2.history) && Fades(q, a, tries, r.history, h3)
    decreases whole, 1
  {
    hide Ask, InState, Counts;
    EvalFades(q, a, tries, e, r);
    if f != NoExpr { EvalFades(q, a, tries, f, Eval(e, r, a).run); }
    AskFades(q, a, tries, Eval(f, Eval(e, r, a).run, a).run);
  }

  lemma {:induction false} AssignFades(q: Question, a: Activation, tries: set<nat>, e: Expr, r: Run)
    requires e.Assign? && Applies(q, a) && NoStore(q, e)
    ensures Fades(q, a, tries, r.history, EvalAssign(e, r, a).run.history)
    decreases e, 1
  {
    hide Ask, Load, Eval;
    if e.aop == Plain {
      EvalFades(q, a, tries, e.right, r);
      var v := Eval(e.right, r, a);
      StoreFades(q, a, tries, e.sym, AssignmentSite(e.id, e.aop), v.value, Emit(v.run, Use(e.id, e.sym, true)));
    } else {
      var l := Load(e.sym, Emit(r, Use(e.id, e.sym, false)), a);
      ReadFades(q, a, tries, e.id, e.sym, r);
      EvalFades(q, a, tries, e.right, l.run);
      AskFades(q, a, tries, Eval(e.right, l.run, a).run);
    }
  }

  // ----- statements -----

  // The question inside a scope: the scope's own bindings are gone when it is left.
  function Inside(q: Question, scope: Scope): Question {
    if !q.Reached? && q.sym.scope == scope then Reached else q
  }

  lemma LeavingFades(q: Question, a: Activation, tries: set<nat>, scope: Scope, r: Run, inner: History)
    requires Fades(Inside(q, scope), a, tries, EnterScope(r, scope, a).history, inner)
    ensures Fades(q, a, tries, r.history, After(inner, Exit(scope)))
  {
  }

  lemma {:induction false} ExecFades(q: Question, a: Activation, tries: set<nat>, s: Stmt, labels: set<string>, r: Run, fuel: nat)
    requires Applies(q, a) && !Disturbs(q, s)
    ensures Fades(q, a, tries, r.history, Exec(s, labels, r, a, fuel).run.history)
    decreases fuel, s, 2
  {
    hide Ask, Load, InState, Counts, StoreTo;
    match s
    case Empty =>
    case Then(first, rest) =>
      ExecFades(q, a, tries, first, {}, r, fuel);
      ExecFades(q, a, tries, rest, {}, Exec(first, {}, r, a, fuel).run, fuel);
    case Declare(_, _, _, _) => DeclareFades(q, a, tries, s, labels, r, fuel);
    case Evaluate(e) => EvalFades(q, a, tries, e, r);
    case Block(scope, body) =>
      ExecFades(Inside(q, scope), a, tries, body, {}, EnterScope(r, scope, a), fuel);
      LeavingFades(q, a, tries, scope, r, Exec(body, {}, EnterScope(r, scope, a), a, fuel).run.history);
    case If(test, yes, no) =>
      EvalFades(q, a, tries, test, r);
      ExecFades(q, a, tries, yes, {}, Eval(test, r, a).run, fuel);
      ExecFades(q, a, tries, no, {}, Eval(test, r, a).run, fuel);
    case While(_, _) => WhileFades(q, a, tries, s, labels, r, fuel);
    case DoWhile(_, _) => DoWhileFades(q, a, tries, s, labels, r, fuel);
    case For(_, _, _, _, _) => ForFades(q, a, tries, s, labels, r, fuel);
    case ForOf(_, _, _, subject, _) =>
      EvalFades(q, a, tries, subject, r);
      ForOfRoundsFade(q, a, tries, s, labels, Eval(subject, r, a).run, fuel);
    case Labeled(tag, body) =>
      ExecFades(q, a, tries, body, if IsLoop(body) || body.Labeled? then labels + {tag} else {}, r, fuel);
    case Break(_) =>
    case Continue(_) =>
    case Return(e) => EvalFades(q, a, tries, e, r);
    case Throw(e) => EvalFades(q, a, tries, e, r);
    case Switch(_, _, _) => SwitchFades(q, a, tries, s, r, fuel);
    case Try(_, _, _, _) => TryFades(q, a, tries, s, labels, r, fuel);
  }
  lemma {:induction false} DeclareFades(q: Question, a: Activation, tries: set<nat>, s: Stmt, labels: set<string>, r: Run, fuel: nat)
    requires s.Declare? && Applies(q, a) && !Disturbs(q, s)
    ensures Fades(q, a, tries, r.history, Exec(s, labels, r, a, fuel).run.history)
    decreases fuel, s, 1
  {
    hide Ask, Load;
    EvalFades(q, a, tries, s.init, r);
  }

  lemma {:induction false} WhileFades(q: Question, a: Activation, tries: set<nat>, s: Stmt, labels: set<string>, r: Run, fuel: nat)
    requires s.While? && Applies(q, a) && !Disturbs(q, s)
    ensures Fades(q, a, tries, r.history, Exec(s, labels, r, a, fuel).run.history)
    decreases fuel, s, 1
  {
    hide InState, Counts;
    if fuel > 0 {
      EvalFades(q, a, tries, s.test, r);
      var t := Eval(s.test, r, a);
      ExecFades(q, a, tries, s.body, {}, t.run, fuel);
      ExecFades(q, a, tries, s, labels, Exec(s.body, {}, t.run, a, fuel).run, fuel - 1);
    }
  }

  lemma {:induction false} DoWhileFades(q: Question, a: Activation, tries: set<nat>, s: Stmt, labels: set<string>, r: Run, fuel: nat)
    requires s.DoWhile? && Applies(q, a) && !Disturbs(q, s)
    ensures Fades(q, a, tries, r.history, Exec(s, labels, r, a, fuel).run.history)
    decreases fuel, s, 1
  {
    hide InState, Counts;
    if fuel > 0 {
      ExecFades(q, a, tries, s.body, {}, r, fuel);
      var o := Exec(s.body, {}, r, a, fuel);
      EvalFades(q, a, tries, s.test, o.run);
      ExecFades(q, a, tries, s, labels, Eval(s.test, o.run, a).run, fuel - 1);
    }
  }

  lemma {:induction false} ForFades(q: Question, a: Activation, tries: set<nat>, s: Stmt, labels: set<string>, r: Run, fuel: nat)
    requires s.For? && Applies(q, a) && !Disturbs(q, s)
    ensures Fades(q, a, tries, r.history, Exec(s, labels, r, a, fuel).run.history)
    decreases fuel, s, 1
  {
    hide InState, Counts, ForRounds;
    var r1 := EnterScope(r, s.scope, a);
    var o := Exec(s.start, {}, r1, a, fuel);
    ExecFades(Inside(q, s.scope), a, tries, s.start, {}, r1, fuel);
    SilentFades(Inside(q, s.scope), a, tries, o.run.history, Renew(s.scope));
    var r2 := Emit(o.run, Renew(s.scope));
    ForRoundsFade(Inside(q, s.scope), a, tries, s, labels, r2, fuel);
    LeavingFades(q, a, tries, s.scope, r, o.run.history);
    LeavingFades(q, a, tries, s.scope, r, ForRounds(s, labels, r2, a, fuel).run.history);
  }

  lemma {:induction false} ForRoundsFade(q: Question, a: Activation, tries: set<nat>, s: Stmt, labels: set<string>, r: Run, fuel: nat)
    requires s.For? && Applies(q, a) && NoStore(q, s.test) && NoStore(q, s.update) && !Disturbs(q, s.body)
    ensures Fades(q, a, tries, r.history, ForRounds(s, labels, r, a, fuel).run.history)
    decreases fuel, s, 0
  {
    hide InState, Counts;
    if fuel > 0 {
      EvalFades(q, a, tries, s.test, r);
      var t := Eval(s.test, r, a);
      ExecFades(q, a, tries, s.body, {}, t.run, fuel);
      var o := Exec(s.body, {}, t.run, a, fuel);
      SilentFades(q, a, tries, o.run.history, Renew(s.scope));
      var r1 := Emit(o.run, Renew(s.scope));
      EvalFades(q, a, tries, s.update, r1);
      ForRoundsFade(q, a, tries, s, labels, Eval(s.update, r1, a).run, fuel - 1);
    }
  }

  lemma {:induction false} ForOfRoundsFade(q: Question, a: Activation, tries: set<nat>, s: Stmt, labels: set<string>, r: Run, fuel: nat)
    requires s.ForOf? && Applies(q, a) && !Disturbs(q, s)
    ensures Fades(q, a, tries, r.history, ForOfRounds(s, labels, r, a, fuel).run.history)
    decreases fuel, s, 1
  {
    hide InState, Counts, Ask, ForOfRound;
    if fuel > 0 {
      AskFades(q, a, tries, r);
      var c := Ask(r, a);
      var r1 := EnterScope(c.run, s.scope, a);
      ForOfRoundFades(Inside(q, s.scope), a, tries, s, c.value, r1, fuel);
      var o := ForOfRound(s, c.value, r1, a, fuel);
      LeavingFades(q, a, tries, s.scope, c.run, o.run.history);
      AskFades(q, a, tries, Leave(o, s.scope).run);
      ForOfRoundsFade(q, a, tries, s, labels, Leave(o, s.scope).run, fuel - 1);
    }
  }

  lemma {:induction false} ForOfRoundFades(q: Question, a: Activation, tries: set<nat>, s: Stmt, v: Value, r: Run, fuel: nat)
    requires s.ForOf? && Applies(q, a) && !Disturbs(q, s.body)
    requires q.Undef? || q.StoredBy? || (q.Declared? && s.kind != Var) ==> q.sym != s.sym
    ensures Fades(q, a, tries, r.history, ForOfRound(s, v, r, a, fuel).run.history)
    decreases fuel, s, 0
  {
    if s.kind != Var {
      ExecFades(q, a, tries, s.body, {}, Initialize(s.sym, OtherSite, true, v, r, a).run, fuel);
    } else {
      StoreFades(q, a, tries, s.sym, OtherSite, v, r);
      ExecFades(q, a, tries, s.body, {}, StoreTo(s.sym, OtherSite, v, r, a).run, fuel);
    }
  }

  predicate QuietTests(q: Question, cases: Cases) {
    cases.Case? ==> NoStore(q, cases.test) && QuietTests(q, cases.rest)
  }

  lemma {:induction false} SelectFades(q: Question, a: Activation, tries: set<nat>, cases: Cases, clause: nat, v: Value, r: Run)
    requires Applies(q, a) && QuietTests(q, cases)
    ensures Fades(q, a, tries, r.history, Select(cases, clause, v, r, a).run.history)
    decreases cases
  {
    hide InState, Counts;
    if cases.Case? {
      EvalFades(q, a, tries, cases.test, r);
      SelectFades(q, a, tries, cases.rest, clause + 1, v, r);
      SelectFades(q, a, tries, cases.rest, clause + 1, v, Eval(cases.test, r, a).run);
    }
  }

  predicate CasesDisturb(q: Question, cases: Cases) {
    cases.Case? && (Disturbs(q, cases.body) || CasesDisturb(q, cases.rest))
  }

  lemma {:induction false} FromFades(q: Question, a: Activation, tries: set<nat>, cases: Cases, k: nat, r: Run, fuel: nat)
    requires Applies(q, a) && !CasesDisturb(q, cases)
    ensures Fades(q, a, tries, r.history, ExecFrom(cases, k, r, a, fuel).run.history)
    decreases fuel, cases, 1
  {
    hide InState, Counts, Disturbs;
    if cases.Case? {
      if k > 0 {
        FromFades(q, a, tries, cases.rest, k - 1, r, fuel);
      } else {
        ExecFades(q, a, tries, cases.body, {}, r, fuel);
        FromFades(q, a, tries, cases.rest, 0, Exec(cases.body, {}, r, a, fuel).run, fuel);
      }
    }
  }

  lemma {:induction false} UndisturbedCases(q: Question, cases: Cases)
    requires q.Undef? || q.StoredBy? ==> !CasesStore(q.sym, cases)
    requires q.Declared? ==> !CasesDeclare(q.sym, cases)
    ensures QuietTests(q, cases) && !CasesDisturb(q, cases)
  {
    if cases.Case? { UndisturbedCases(q, cases.rest); }
  }

  lemma {:induction false} SwitchFades(q: Question, a: Activation, tries: set<nat>, s: Stmt, r: Run, fuel: nat)
    requires s.Switch? && Applies(q, a) && !Disturbs(q, s)
    ensures Fades(q, a, tries, r.history, ExecSwitch(s, r, a, fuel).run.history)
    decreases fuel, s, 1
  {
    EvalFades(q, a, tries, s.discriminant, r);
    var d := Eval(s.discriminant, r, a);
    var inner := Inside(q, s.scope);
    UndisturbedCases(inner, s.cases);
    hide InState, Counts, Disturbs;
    var r1 := EnterScope(d.run, s.scope, a);
    SelectFades(inner, a, tries, s.cases, 0, d.value, r1);
    var sel := Select(s.cases, 0, d.value, r1, a);
    LeavingFades(q, a, tries, s.scope, d.run, sel.run.history);
    var k := if sel.found then sel.clause else DefaultClause(s.cases);
    FromFades(inner, a, tries, s.cases, k, sel.run, fuel);
    LeavingFades(q, a, tries, s.scope, d.run, ExecFrom(s.cases, k, sel.run, a, fuel).run.history);
  }

  lemma {:induction false} GuardedFades(q: Question, a: Activation, tries: set<nat>, s: Stmt, r: Run, fuel: nat)
    requires s.Try? && Applies(q, a) && !Disturbs(q, s.block)
    requires s.handler.Catch? ==> !Disturbs(q, Block(s.handler.scope, s.handler.body))
    ensures Fades(q, a, tries, r.history, ExecGuarded(s, r, a, fuel).run.history)
    decreases fuel, s, 0
  {
    hide InState, Counts;
    ExecFades(q, a, tries, s.block, {}, r, fuel);
    if s.handler.Catch? {
      var o := Exec(s.block, {}, r, a, fuel);
      var r0 := Emit(o.run, Caught(r.history));
      CaughtFades(q, a, tries, r.history, o.run.history);
      var r1 := EnterScope(r0, s.handler.scope, a);
      ExecFades(Inside(q, s.handler.scope), a, tries, s.handler.body, {}, r1, fuel);
      LeavingFades(q, a, tries, s.handler.scope, r0, Exec(s.handler.body, {}, r1, a, fuel).run.history);
    }
  }

  // A finally entered on the way out from h of a try that began at h0, and the way out going on after it.
  lemma WayOutFades(q: Question, a: Activation, tries: set<nat>, s: Stmt, h0: History, h: History, k: History)
    requires Fades(q, a, tries, After(h, FinallyAbrupt(s, h0)), k)
    ensures Fades(q, a, tries, h, After(k, FinallyDone(h)))
    ensures Fades(q, a, tries, h0, h) ==> Fades(q, a, tries, h0, k)
  {
  }

  lemma DoneFades(q: Question, a: Activation, tries: set<nat>, h0: History, h: History, k: History)
    requires Fades(q, a, tries, h0, h) && Fades(q, a, tries, h, After(k, FinallyDone(h)))
    ensures Fades(q, a, tries, h0, After(k, FinallyDone(h)))
  {
  }

  lemma CaughtFades(q: Question, a: Activation, tries: set<nat>, h0: History, h: History)
    requires Fades(q, a, tries, h0, h)
    ensures Fades(q, a, tries, h0, After(h, Caught(h0)))
  {
  }

  lemma {:induction false} TryFades(q: Question, a: Activation, tries: set<nat>, s: Stmt, labels: set<string>, r: Run, fuel: nat)
    requires s.Try? && Applies(q, a) && !Disturbs(q, s)
    ensures Fades(q, a, tries, r.history, Exec(s, labels, r, a, fuel).run.history)
    decreases fuel, s, 1
  {
    GuardedFades(q, a, tries, s, r, fuel);
    hide InState, Counts, ExecGuarded;
    if s.finalizer.Finally? {
      var last := s.finalizer.body;
      var o := ExecGuarded(s, r, a, fuel);
      var r1 := Emit(o.run, FinallyAbrupt(s, r.history));
      ExecFades(q, a, tries, last, {}, o.run, fuel);
      ExecFades(q, a, tries, last, {}, r1, fuel);
      var k := Exec(last, {}, r1, a, fuel).run.history;
      WayOutFades(q, a, tries, s, r.history, o.run.history, k);
      DoneFades(q, a, tries, r.history, o.run.history, k);
    }
  }
}
