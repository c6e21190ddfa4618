// Programs whose references lie in the scope of what they name: in every run of one, a reference is
// evaluated while its scope is open, and a dead zone lasts exactly until the declaration.
module Scoping {
  import opened Syntax
  import opened Semantics
  import opened Questions

  predicate InScope(x: Symbol, open: set<Scope>, fn: Scope) {
    ContainerOf(x.scope) == fn ==> x.scope in open
  }

  predicate ScopedExpr(e: Expr, open: set<Scope>, fn: Scope) {
    match e
    case Name(_, x) => InScope(x, open, fn)
    case Not(a) => ScopedExpr(a, open, fn)
    case TypeOf(a) => ScopedExpr(a, open, fn)
    case Binary(_, l, r) => ScopedExpr(l, open, fn) && ScopedExpr(r, open, fn)
    case Logical(_, l, r) => ScopedExpr(l, open, fn) && ScopedExpr(r, open, fn)
    case Conditional(t, y, n) => ScopedExpr(t, open, fn) && ScopedExpr(y, open, fn) && ScopedExpr(n, open, fn)
    case Assign(_, _, x, r) => InScope(x, open, fn) && ScopedExpr(r, open, fn)
    case Update(_, x) => InScope(x, open, fn)
    case Member(o) => ScopedExpr(o, open, fn)
    case SetMember(o, r) => ScopedExpr(o, open, fn) && ScopedExpr(r, open, fn)
    case Call(c, a) => ScopedExpr(c, open, fn) && ScopedExpr(a, open, fn)
    case Comma(l, r) => ScopedExpr(l, open, fn) && ScopedExpr(r, open, fn)
    case Opaque(a) => ScopedExpr(a, open, fn)
    case _ => true
  }

  // open are the scopes around s; a scope is not opened inside itself.
  predicate Scoped(s: Stmt, open: set<Scope>, fn: Scope) {
    match s
    case Then(f, r) => Scoped(f, open, fn) && Scoped(r, open, fn)
    case Declare(_, _, init, _) => ScopedExpr(init, open, fn)
    case Evaluate(e) => ScopedExpr(e, open, fn)
    case Block(scope, body) => scope !in open && Scoped(body, open + {scope}, fn)
    case If(t, y, n) => ScopedExpr(t, open, fn) && Scoped(y, open, fn) && Scoped(n, open, fn)
    case While(t, body) => ScopedExpr(t, open, fn) && Scoped(body, open, fn)
    case DoWhile(t, body) => ScopedExpr(t, open, fn) && Scoped(body, open, fn)
    case For(scope, start, t, u, body) =>
      var inner := open + {scope};
      scope !in open && Scoped(start, inner, fn) && ScopedExpr(t, inner, fn) && ScopedExpr(u, inner, fn) && Scoped(body, inner, fn)
    case ForOf(scope, _, _, subject, body) =>
      ScopedExpr(subject, open, fn) && scope !in open && Scoped(body, open + {scope}, fn)
    case Labeled(_, body) => Scoped(body, open, fn)
    case Return(e) => ScopedExpr(e, open, fn)
    case Throw(e) => ScopedExpr(e, open, fn)
    case Switch(scope, d, cases) => ScopedExpr(d, open, fn) && scope !in open && ScopedCases(cases, open + {scope}, fn)
    case Try(_, block, handler, finalizer) =>
      && Scoped(block, open, fn)
      && (handler.Catch? ==> handler.scope !in open && Scoped(handler.body, open + {handler.scope}, fn))
      && (finalizer.Finally? ==> Scoped(finalizer.body, open, fn))
    case _ => true
  }

  predicate ScopedCases(cases: Cases, open: set<Scope>, fn: Scope) {
    cases.Case? ==> ScopedExpr(cases.test, open, fn) && Scoped(cases.body, open, fn) && ScopedCases(cases.rest, open, fn)
  }

  // ----- histories -----

  ghost predicate AllOpen(open: set<Scope>, h: History) {
    forall s :: s in open ==> Open(s, h)
  }

  // Every reference was evaluated with its scope open.
  predicate UsesOpen(h: History, a: Activation) {
    match h
    case Begin => true
    case After(past, Use(_, x, _)) => UsesOpen(past, a) && (Own(x, a) ==> Open(x.scope, past))
    case After(past, _) => UsesOpen(past, a)
  }

  // x's declaration found it uninitialized, every other store found it initialized, and other functions
  // store only to the foreign bindings.
  predicate OrderlyStores(x: Symbol, h: History, a: Activation) {
    match h
    case Begin => true
    case After(past, Store(y, _, init, assign, _)) =>
      OrderlyStores(x, past, a) && (y == x ==>
        if init then Current(x, past, a).Uninitialized? else assign && (Own(x, a) ==> Current(x, past, a).Holds?))
    case After(past, ForeignStore(y, _)) =>
      OrderlyStores(x, past, a) && y in a.foreign && (y == x ==> Current(x, past, a).Holds?)
    case After(past, _) => OrderlyStores(x, past, a)
  }

  // While x's scope is open, x holds a value exactly when its declaration has run.
  lemma {:induction false} DeadZoneEnds(x: Symbol, h: History, a: Activation)
    requires OrderlyStores(x, h, a) && TdzKind(x) && Own(x, a) && Open(x.scope, h)
    ensures Current(x, h, a).Holds? <==> HasBeenDeclared(x, h)
    decreases h
  {
    match h
    case Begin =>
    case After(past, Enter(s, _)) => if s != x.scope { DeadZoneEnds(x, past, a); }
    case After(past, _) => DeadZoneEnds(x, past, a);
  }

  ghost predicate Proper(x: Symbol, open: set<Scope>, h: History, a: Activation) {
    AllOpen(open, h) && UsesOpen(h, a) && OrderlyStores(x, h, a)
  }

  // ----- expressions -----

  lemma {:induction false} StoresProper(x: Symbol, open: set<Scope>, ws: seq<(Symbol, Value)>, h: History, a: Activation)
    requires Proper(x, open, h, a)
    ensures Proper(x, open, Stores(ws, h, a), a)
    decreases |ws|
  {
    if ws != [] {
      var (y, v) := ws[0];
      StoresProper(x, open, ws[1..], if y in a.foreign && Current(y, h, a).Holds? then After(h, ForeignStore(y, v)) else h, a);
    }
  }

  lemma ReadProper(x: Symbol, open: set<Scope>, id: nat, y: Symbol, r: Run, a: Activation)
    requires Proper(x, open, r.history, a) && InScope(y, open, a.fn)
    ensures Proper(x, open, Load(y, Emit(r, Use(id, y, false)), a).run.history, a)
  {
    StoresProper(x, open, a.oracle(r.clock).stores, After(r.history, Use(id, y, false)), a);
  }

  lemma AskProper(x: Symbol, open: set<Scope>, r: Run, a: Activation)
    requires Proper(x, open, r.history, a)
    ensures Proper(x, open, Ask(r, a).run.history, a)
  {
    StoresProper(x, open, a.oracle(r.clock).stores, r.history, a);
  }

  lemma StoreProper(x: Symbol, open: set<Scope>, y: Symbol, site: Site, v: Value, r: Run, a: Activation)
    requires Proper(x, open, r.history, a)
    ensures Proper(x, open, StoreTo(y, site, v, r, a).run.history, a)
  {
  }

  lemma {:induction false} EvalProper(x: Symbol, open: set<Scope>, e: Expr, r: Run, a: Activation)
    requires ScopedExpr(e, open, a.fn) && Proper(x, open, r.history, a)
    ensures Proper(x, open, Eval(e, r, a).run.history, a)
    decreases e, 2
  {
    hide Proper, Ask, Load, StoreTo, BinaryValue;
    match e
    case Name(id, y) => ReadProper(x, open, id, y, r, a);
    case Not(arg) => EvalProper(x, open, arg, r, a);
    case TypeOf(arg) => EvalProper(x, open, arg, r, a);
    case Binary(_, left, right) => BothProper(x, open, e, left, right, r, a);
    case Logical(_, left, right) => BothProper(x, open, e, left, right, r, a);
    case Conditional(test, yes, no) =>
      BothProper(x, open, e, test, yes, r, a);
      BothProper(x, open, e, test, no, r, a);
    case Assign(_, _, _, _) => AssignProper(x, open, e, r, a);
    case Update(id, y) =>
      var l := Load(y, Emit(r, Use(id, y, false)), a);
      ReadProper(x, open, id, y, r, a);
      AskProper(x, open, l.run, a);
      var c := Ask(l.run, a);
      StoreProper(x, open, y, OtherSite, c.value, c.run, a);
    case Member(o) => BothProper(x, open, e, o, NoExpr, r, a);
    case SetMember(o, right) => BothProper(x, open, e, o, right, r, a);
    case Call(callee, args) => BothProper(x, open, e, callee, args, r, a);
    case Comma(first, second) => BothProper(x, open, e, first, second, r, a);
    case Opaque(arg) => BothProper(x, open, e, arg, NoExpr, r, a);
    case Closure(fn, _) => SilentProper(x, open, r.history, a, Create(fn));
    case _ =>
  }

  lemma SilentProper(x: Symbol, open: set<Scope>, h: History, a: Activation, e: Event)
    requires Silent(e) && Proper(x, open, h, a)
    ensures Proper(x, open, After(h, e), a)
  {
  }

  lemma {:induction false} BothProper(x: Symbol, open: set<Scope>, whole: Expr, e: Expr, f: Expr, r: Run, a: Activation)
    requires e < whole && (f < whole || f == NoExpr)
    requires ScopedExpr(e, open, a.fn) && ScopedExpr(f, open, a.fn) && Proper(x, open, r.history, a)
    ensures
      var v := Eval(e, r, a);
      var w := Eval(f, v.run, a);
      Proper(x, open, v.run.history, a) && Proper(x, open, w.run.history, a) && Proper(x, open, Ask(w.run, a).run.history, a)
    decreases whole, 1
  {
    hide Proper, Ask;
    EvalProper(x, open, e, r, a);
    if f != NoExpr { EvalProper(x, open, f, Eval(e, r, a).run, a); }
    AskProper(x, open, Eval(f, Eval(e, r, a).run, a).run, a);
  }

  lemma {:induction false} AssignProper(x: Symbol, open: set<Scope>, e: Expr, r: Run, a: Activation)
    requires e.Assign? && ScopedExpr(e, open, a.fn) && Proper(x, open, r.history, a)
    ensures Proper(x, open, EvalAssign(e, r, a).run.history, a)
    decreases e, 1
  {
    hide Ask, Load, StoreTo, Eval;
    var site := AssignmentSite(e.id, e.aop);
    if e.aop == Plain {
      EvalProper(x, open, e.right, r, a);
      var v := Eval(e.right, r, a);
      StoreProper(x, open, e.sym, site, v.value, Emit(v.run, Use(e.id, e.sym, true)), a);
    } else {
      hide Proper;
      var l := Load(e.sym, Emit(r, Use(e.id, e.sym, false)), a);
      ReadProper(x, open, e.id, e.sym, r, a);
      EvalProper(x, open, e.right, l.run, a);
      var v := Eval(e.right, l.run, a);
      StoreProper(x, open, e.sym, site, v.value, v.run, a);
      AskProper(x, open, v.run, a);
      var c := Ask(v.run, a);
      StoreProper(x, open, e.sym, site, c.value, c.run, a);
    }
  }

  // ----- statements -----

  lemma EnterProper(x: Symbol, open: set<Scope>, s: Scope, r: Run, a: Activation)
    requires Proper(x, open, r.history, a)
    ensures Proper(x, open + {s}, EnterScope(r, s, a).history, a)
  {
  }

  lemma LeaveProper(x: Symbol, open: set<Scope>, s: Scope, h: History, a: Activation)
    requires Proper(x, open + {s}, h, a) && s !in open
    ensures Proper(x, open, After(h, Exit(s)), a)
  {
  }

  lemma InitializeProper(x: Symbol, open: set<Scope>, y: Symbol, site: Site, assign: bool, v: Value, r: Run, a: Activation)
    requires Proper(x, open, r.history, a)
    ensures Proper(x, open, Initialize(y, site, assign, v, r, a).run.history, a)
  {
  }

  // Events of a try change no binding either.
  lemma TryProper(x: Symbol, open: set<Scope>, h: History, a: Activation, e: Event)
    requires Proper(x, open, h, a) && (e.Caught? || e.FinallyAbrupt? || e.FinallyDone?)
    ensures Proper(x, open, After(h, e), a)
  {
  }

  lemma {:induction false} ExecProper(x: Symbol, open: set<Scope>, s: Stmt, labels: set<string>, r: Run, a: Activation, fuel: nat)
    requires Scoped(s, open, a.fn) && Proper(x, open, r.history, a)
    ensures Proper(x, open, Exec(s, labels, r, a, fuel).run.history, a)
    decreases fuel, s, 2
  {
    hide Proper, Ask, StoreTo;
    match s
    case Then(first, rest) =>
      ExecProper(x, open, first, {}, r, a, fuel);
      ExecProper(x, open, rest, {}, Exec(first, {}, r, a, fuel).run, a, fuel);
    case Declare(kind, y, init, id) =>
      EvalProper(x, open, init, r, a);
      var v := Eval(init, r, a);
      var site := DeclarationSite(id, init != NoExpr);
      InitializeProper(x, open, y, site, init != NoExpr, v.value, v.run, a);
      StoreProper(x, open, y, site, v.value, v.run, a);
    case Evaluate(e) => EvalProper(x, open, e, r, a);
    case Block(scope, body) =>
      var r1 := EnterScope(r, scope, a);
      EnterProper(x, open, scope, r, a);
      ExecProper(x, open + {scope}, body, {}, r1, a, fuel);
      LeaveProper(x, open, scope, Exec(body, {}, r1, a, fuel).run.history, a);
    case If(test, yes, no) =>
      EvalProper(x, open, test, r, a);
      ExecProper(x, open, yes, {}, Eval(test, r, a).run, a, fuel);
      ExecProper(x, open, no, {}, Eval(test, r, a).run, a, fuel);
    case While(_, _) => WhileProper(x, open, s, labels, r, a, fuel);
    case DoWhile(_, _) => DoWhileProper(x, open, s, labels, r, a, fuel);
    case For(scope, start, _, _, _) =>
      var r1 := EnterScope(r, scope, a);
      EnterProper(x, open, scope, r, a);
      ExecProper(x, open + {scope}, start, {}, r1, a, fuel);
      var o := Exec(start, {}, r1, a, fuel);
      var r2 := Emit(o.run, Renew(scope));
      SilentProper(x, open + {scope}, o.run.history, a, Renew(scope));
      ForProper(x, open + {scope}, s, labels, r2, a, fuel);
      LeaveProper(x, open, scope, o.run.history, a);
      LeaveProper(x, open, scope, ForRounds(s, labels, r2, a, fuel).run.history, a);
    case ForOf(_, _, _, subject, _) =>
      EvalProper(x, open, subject, r, a);
      ForOfProper(x, open, s, labels, Eval(subject, r, a).run, a, fuel);
    case Labeled(tag, body) =>
      ExecProper(x, open, body, labels + {tag}, r, a, fuel);
      ExecProper(x, open, body, {}, r, a, fuel);
    case Return(e) => EvalProper(x, open, e, r, a);
    case Throw(e) => EvalProper(x, open, e, r, a);
    case Switch(_, _, _) => SwitchProper(x, open, s, r, a, fuel);
    case Try(_, _, _, _) => TriesProper(x, open, s, labels, r, a, fuel);
    case _ =>
  }

  lemma {:induction false} WhileProper(x: Symbol, open: set<Scope>, s: Stmt, labels: set<string>, r: Run, a: Activation, fuel: nat)
    requires s.While? && Scoped(s, open, a.fn) && Proper(x, open, r.history, a)
    ensures Proper(x, open, Exec(s, labels, r, a, fuel).run.history, a)
    decreases fuel, s, 1
  {
    hide Proper;
    if fuel > 0 {
      EvalProper(x, open, s.test, r, a);
      var t := Eval(s.test, r, a);
      ExecProper(x, open, s.body, {}, t.run, a, fuel);
      WhileProper(x, open, s, labels, Exec(s.body, {}, t.run, a, fuel).run, a, fuel - 1);
    }
  }

  lemma {:induction false} DoWhileProper(x: Symbol, open: set<Scope>, s: Stmt, labels: set<string>, r: Run, a: Activation, fuel: nat)
    requires s.DoWhile? && Scoped(s, open, a.fn) && Proper(x, open, r.history, a)
    ensures Proper(x, open, Exec(s, labels, r, a, fuel).run.history, a)
    decreases fuel, s, 1
  {
    hide Proper;
    if fuel > 0 {
      ExecProper(x, open, s.body, {}, r, a, fuel);
      var o := Exec(s.body, {}, r, a, fuel);
      EvalProper(x, open, s.test, o.run, a);
      DoWhileProper(x, open, s, labels, Eval(s.test, o.run, a).run, a, fuel - 1);
    }
  }

  lemma {:induction false} ForProper(x: Symbol, open: set<Scope>, s: Stmt, labels: set<string>, r: Run, a: Activation, fuel: nat)
    requires s.For? && ScopedExpr(s.test, open, a.fn) && ScopedExpr(s.update, open, a.fn) && Scoped(s.body, open, a.fn)
    requires Proper(x, open, r.history, a)
    ensures Proper(x, open, ForRounds(s, labels, r, a, fuel).run.history, a)
    decreases fuel, s, 1
  {
    hide Proper;
    if fuel > 0 {
      EvalProper(x, open, s.test, r, a);
      var t := Eval(s.test, r, a);
      ExecProper(x, open, s.body, {}, t.run, a, fuel);
      var o := Exec(s.body, {}, t.run, a, fuel);
      var r1 := Emit(o.run, Renew(s.scope));
      SilentProper(x, open, o.run.history, a, Renew(s.scope));
      EvalProper(x, open, s.update, r1, a);
      ForProper(x, open, s, labels, Eval(s.update, r1, a).run, a, fuel - 1);
    }
  }

  lemma {:induction false} ForOfProper(x: Symbol, open: set<Scope>, s: Stmt, labels: set<string>, r: Run, a: Activation, fuel: nat)
    requires s.ForOf? && Scoped(s, open, a.fn) && Proper(x, open, r.history, a)
    ensures Proper(x, open, ForOfRounds(s, labels, r, a, fuel).run.history, a)
    decreases fuel, s, 1
  {
    hide Proper, Ask, StoreTo;
    if fuel > 0 {
      AskProper(x, open, r, a);
      var c := Ask(r, a);
      var inner := open + {s.scope};
      var r1 := EnterScope(c.run, s.scope, a);
      EnterProper(x, open, s.scope, c.run, a);
      InitializeProper(x, inner, s.sym, OtherSite, true, c.value, r1, a);
      StoreProper(x, inner, s.sym, OtherSite, c.value, r1, a);
      ExecProper(x, inner, s.body, {}, Initialize(s.sym, OtherSite, true, c.value, r1, a).run, a, fuel);
      ExecProper(x, inner, s.body, {}, StoreTo(s.sym, OtherSite, c.value, r1, a).run, a, fuel);
      var o := ForOfRound(s, c.value, r1, a, fuel);
      LeaveProper(x, open, s.scope, o.run.history, a);
      AskProper(x, open, Leave(o, s.scope).run, a);
      ForOfProper(x, open, s, labels, Leave(o, s.scope).run, a, fuel - 1);
    }
  }

  lemma {:induction false} SelectProper(x: Symbol, open: set<Scope>, cases: Cases, clause: nat, v: Value, r: Run, a: Activation)
    requires ScopedCases(cases, open, a.fn) && Proper(x, open, r.history, a)
    ensures Proper(x, open, Select(cases, clause, v, r, a).run.history, a)
    decreases cases
  {
    hide Proper;
    if cases.Case? {
      EvalProper(x, open, cases.test, r, a);
      SelectProper(x, open, cases.rest, clause + 1, v, r, a);
      SelectProper(x, open, cases.rest, clause + 1, v, Eval(cases.test, r, a).run, a);
    }
  }

  lemma {:induction false} FromProper(x: Symbol, open: set<Scope>, cases: Cases, k: nat, r: Run, a: Activation, fuel: nat)
    requires ScopedCases(cases, open, a.fn) && Proper(x, open, r.history, a)
    ensures Proper(x, open, ExecFrom(cases, k, r, a, fuel).run.history, a)
    decreases fuel, cases, 3
  {
    hide Proper;
    if cases.Case? {
      if k > 0 {
        FromProper(x, open, cases.rest, k - 1, r, a, fuel);
      } else {
        ExecProper(x, open, cases.body, {}, r, a, fuel);
        FromProper(x, open, cases.rest, 0, Exec(cases.body, {}, r, a, fuel).run, a, fuel);
      }
    }
  }

  lemma {:induction false} SwitchProper(x: Symbol, open: set<Scope>, s: Stmt, r: Run, a: Activation, fuel: nat)
    requires s.Switch? && Scoped(s, open, a.fn) && Proper(x, open, r.history, a)
    ensures Proper(x, open, ExecSwitch(s, r, a, fuel).run.history, a)
    decreases fuel, s, 1
  {
    hide Proper;
    EvalProper(x, open, s.discriminant, r, a);
    var d := Eval(s.discriminant, r, a);
    var inner := open + {s.scope};
    var r1 := EnterScope(d.run, s.scope, a);
    EnterProper(x, open, s.scope, d.run, a);
    SelectProper(x, inner, s.cases, 0, d.value, r1, a);
    var sel := Select(s.cases, 0, d.value, r1, a);
    LeaveProper(x, open, s.scope, sel.run.history, a);
    var k := if sel.found then sel.clause else DefaultClause(s.cases);
    FromProper(x, inner, s.cases, k, sel.run, a, fuel);
    LeaveProper(x, open, s.scope, ExecFrom(s.cases, k, sel.run, a, fuel).run.history, a);
  }

  lemma {:induction false} TriesProper(x: Symbol, open: set<Scope>, s: Stmt, labels: set<string>, r: Run, a: Activation, fuel: nat)
    requires s.Try? && Scoped(s, open, a.fn) && Proper(x, open, r.history, a)
    ensures Proper(x, open, Exec(s, labels, r, a, fuel).run.history, a)
    decreases fuel, s, 1
  {
    hide Proper;
    GuardedProper(x, open, s, r, a, fuel);
    var o := ExecGuarded(s, r, a, fuel);
    if s.finalizer.Finally? {
      var last := s.finalizer.body;
      var r1 := Emit(o.run, FinallyAbrupt(s, r.history));
      TryProper(x, open, o.run.history, a, FinallyAbrupt(s, r.history));
      ExecProper(x, open, last, {}, o.run, a, fuel);
      ExecProper(x, open, last, {}, r1, a, fuel);
      TryProper(x, open, Exec(last, {}, r1, a, fuel).run.history, a, FinallyDone(o.run.history));
    }
  }

  lemma {:induction false} GuardedProper(x: Symbol, open: set<Scope>, s: Stmt, r: Run, a: Activation, fuel: nat)
    requires s.Try? && Scoped(s, open, a.fn) && Proper(x, open, r.history, a)
    ensures Proper(x, open, ExecGuarded(s, r, a, fuel).run.history, a)
    decreases fuel, s, 0
  {
    hide Proper;
    ExecProper(x, open, s.block, {}, r, a, fuel);
    if s.handler.Catch? {
      var o := Exec(s.block, {}, r, a, fuel);
      var scope := s.handler.scope;
      var r0 := Emit(o.run, Caught(r.history));
      TryProper(x, open, o.run.history, a, Caught(r.history));
      var r1 := EnterScope(r0, scope, a);
      EnterProper(x, open, scope, r0, a);
      ExecProper(x, open + {scope}, s.handler.body, {}, r1, a, fuel);
      LeaveProper(x, open, scope, Exec(s.handler.body, {}, r1, a, fuel).run.history, a);
    }
  }
}
