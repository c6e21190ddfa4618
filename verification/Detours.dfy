// References a run evaluates on no detour: how a statement's runs complete, and which finally blocks a
// reference must not lie in, told from the program.
module Detours {
  import opened Syntax
  import opened Semantics
  import opened Questions
  import opened Landing
  import opened Scoping
  import opened WaysOut
  import Visit

  // ----- every run takes a way out -----

  predicate Among(c: Completion, x: set<Exit>) {
    match c
    case Normal => End in x
    case BreakTo(tag) => Out(tag) in x
    case ContinueTo(tag) => Next(tag) in x
    case _ => true
  }

  // A loop runs with its one label.
  predicate Owned(s: Stmt, labels: set<string>, own: string) {
    (IsLoop(s) ==> Labeling(labels, own)) && (LabelsLoop(s) && !IsLoop(s) ==> labels == {})
  }

  lemma {:induction false} ExecExits(q: Question, s: Stmt, labels: set<string>, own: string, r: Run, a: Activation, fuel: nat)
    requires Clean(q, s) && Owned(s, labels, own)
    ensures Among(Exec(s, labels, r, a, fuel).how, Exits(s, own))
    decreases fuel, s, 2
  {
    hide Eval, CleanExpr, TestRead, Ask, Initialize, StoreTo;
    match s
    case Then(first, rest) =>
      ExecExits(q, first, {}, "", r, a, fuel);
      ExecExits(q, rest, {}, "", Exec(first, {}, r, a, fuel).run, a, fuel);
    case Declare(_, _, _, _) => DeclareExits(s, labels, own, r, a, fuel);
    case Evaluate(e) => CallExits(e, r, a);
    case Block(scope, body) => ExecExits(q, body, {}, "", EnterScope(r, scope, a), a, fuel);
    case If(test, yes, no) =>
      ExecExits(q, yes, {}, "", Eval(test, r, a).run, a, fuel);
      ExecExits(q, no, {}, "", Eval(test, r, a).run, a, fuel);
    case While(_, _) => WhileExits(q, s, labels, own, r, a, fuel);
    case DoWhile(_, _) => DoWhileExits(q, s, labels, own, r, a, fuel);
    case For(scope, start, _, _, _) =>
      ExecExits(q, start, {}, "", EnterScope(r, scope, a), a, fuel);
      ForExits(q, s, labels, own, Emit(Exec(start, {}, EnterScope(r, scope, a), a, fuel).run, Renew(scope)), a, fuel);
    case ForOf(_, _, _, subject, _) => ForOfExits(q, s, labels, own, Eval(subject, r, a).run, a, fuel);
    case Labeled(_, _) => LabeledExits(q, s, labels, own, r, a, fuel);
    case Switch(_, _, _) => SwitchExits(q, s, r, a, fuel);
    case Try(_, _, _, _) => TryExits(q, s, labels, r, a, fuel);
    case _ =>
  }

  lemma {:induction false} LabeledExits(q: Question, s: Stmt, labels: set<string>, own: string, r: Run, a: Activation, fuel: nat)
    requires s.Labeled? && Clean(q, s) && Owned(s, labels, own)
    ensures Among(Exec(s, labels, r, a, fuel).how, Exits(s, own))
    decreases fuel, s, 1
  {
    if IsLoop(s.body) {
      assert LabelsLoop(s);
      assert labels == {};
      assert labels + {s.tag} == {s.tag};
      ExecExits(q, s.body, labels + {s.tag}, s.tag, r, a, fuel);
    } else {
      ExecExits(q, s.body, if s.body.Labeled? then labels + {s.tag} else {}, "", r, a, fuel);
    }
  }

  lemma {:induction false} TryExits(q: Question, s: Stmt, labels: set<string>, r: Run, a: Activation, fuel: nat)
    requires s.Try? && Clean(q, s)
    ensures Among(Exec(s, labels, r, a, fuel).how, Exits(s, ""))
    decreases fuel, s, 1
  {
    hide ExecGuarded, Clean;
    GuardedExit(q, s, r, a, fuel);
    if s.finalizer.Finally? {
      var o := ExecGuarded(s, r, a, fuel);
      LastClean(q, s);
      ExecExits(q, s.finalizer.body, {}, "", o.run, a, fuel);
      ExecExits(q, s.finalizer.body, {}, "", Emit(o.run, FinallyAbrupt(s, r.history)), a, fuel);
    }
  }

  lemma LastClean(q: Question, s: Stmt)
    requires s.Try? && s.finalizer.Finally? && Clean(q, s)
    ensures Clean(q, s.finalizer.body)
  {
  }

  lemma {:induction false} WhileExits(q: Question, s: Stmt, labels: set<string>, own: string, r: Run, a: Activation, fuel: nat)
    requires s.While? && Clean(q, s.body) && Labeling(labels, own)
    ensures Among(Exec(s, labels, r, a, fuel).how, Exits(s, own))
    decreases fuel, s, 1
  {
    hide Eval, Clean;
    TrueStays(s.test, r, a);
    if fuel > 0 {
      var t := Eval(s.test, r, a);
      ExecExits(q, s.body, {}, "", t.run, a, fuel);
      WhileExits(q, s, labels, own, Exec(s.body, {}, t.run, a, fuel).run, a, fuel - 1);
    }
  }

  lemma {:induction false} DoWhileExits(q: Question, s: Stmt, labels: set<string>, own: string, r: Run, a: Activation, fuel: nat)
    requires s.DoWhile? && Clean(q, s.body) && Labeling(labels, own)
    ensures Among(Exec(s, labels, r, a, fuel).how, Exits(s, own))
    decreases fuel, s, 1
  {
    hide Eval, Clean;
    if fuel > 0 {
      ExecExits(q, s.body, {}, "", r, a, fuel);
      var o := Exec(s.body, {}, r, a, fuel);
      TrueStays(s.test, o.run, a);
      DoWhileExits(q, s, labels, own, Eval(s.test, o.run, a).run, a, fuel - 1);
    }
  }

  lemma DeclareExits(s: Stmt, labels: set<string>, own: string, r: Run, a: Activation, fuel: nat)
    requires s.Declare?
    ensures Among(Exec(s, labels, r, a, fuel).how, Exits(s, own))
  {
    hide Eval, StoreTo;
  }

  // A call that never returns throws.
  lemma CallExits(e: Expr, r: Run, a: Activation)
    ensures e.Call? && ReturnsNever(e.callee) ==> Eval(e, r, a).thrown
  {
  }

  lemma {:induction false} ForExits(q: Question, s: Stmt, labels: set<string>, own: string, r: Run, a: Activation, fuel: nat)
    requires s.For? && Clean(q, s.body) && Labeling(labels, own)
    ensures var x := Exits(s.body, "");
      Among(ForRounds(s, labels, r, a, fuel).how, EndIf(!AlwaysTrue(s.test) || Leaves(x, own)) + Outer(x, own))
    decreases fuel, s, 1
  {
    hide Eval, Clean;
    TrueStays(s.test, r, a);
    if fuel > 0 {
      var t := Eval(s.test, r, a);
      ExecExits(q, s.body, {}, "", t.run, a, fuel);
      var o := Exec(s.body, {}, t.run, a, fuel);
      ForExits(q, s, labels, own, Eval(s.update, Emit(o.run, Renew(s.scope)), a).run, a, fuel - 1);
    }
  }

  lemma {:induction false} ForOfExits(q: Question, s: Stmt, labels: set<string>, own: string, r: Run, a: Activation, fuel: nat)
    requires s.ForOf? && Clean(q, s.body) && Labeling(labels, own)
    ensures Among(ForOfRounds(s, labels, r, a, fuel).how, {End} + Outer(Exits(s.body, ""), own))
    decreases fuel, s, 1
  {
    hide Ask, Clean, Initialize, StoreTo;
    if fuel > 0 {
      var c := Ask(r, a);
      var r1 := EnterScope(c.run, s.scope, a);
      ExecExits(q, s.body, {}, "", Initialize(s.sym, OtherSite, true, c.value, r1, a).run, a, fuel);
      ExecExits(q, s.body, {}, "", StoreTo(s.sym, OtherSite, c.value, r1, a).run, a, fuel);
      Initializes(s.sym, c.value, r1, a);
      ForOfExits(q, s, labels, own, Leave(ForOfRound(s, c.value, r1, a, fuel), s.scope).run, a, fuel - 1);
    }
  }

  lemma Initializes(x: Symbol, v: Value, r: Run, a: Activation)
    ensures var o := Initialize(x, OtherSite, true, v, r, a); o.how.Normal? || o.how.Halted?
  {
  }

  lemma {:induction false} FromExits(q: Question, cases: Cases, k: nat, r: Run, a: Activation, fuel: nat)
    requires CleanCases(q, cases)
    ensures Among(ExecFrom(cases, k, r, a, fuel).how, CaseExits(cases) + EndIf(k >= Length(cases)))
    decreases fuel, cases, 3
  {
    if cases.Case? {
      if k > 0 {
        FromExits(q, cases.rest, k - 1, r, a, fuel);
      } else {
        ExecExits(q, cases.body, {}, "", r, a, fuel);
        if cases.rest.Case? { FromExits(q, cases.rest, 0, Exec(cases.body, {}, r, a, fuel).run, a, fuel); }
      }
    }
  }

  lemma {:induction false} SwitchExits(q: Question, s: Stmt, r: Run, a: Activation, fuel: nat)
    requires s.Switch? && Clean(q, s)
    ensures Among(ExecSwitch(s, r, a, fuel).how, Exits(s, ""))
    decreases fuel, s, 1
  {
    hide Eval, Select, ExecFrom;
    var d := Eval(s.discriminant, r, a);
    var sel := Select(s.cases, 0, d.value, EnterScope(d.run, s.scope, a), a);
    var k := if sel.found then sel.clause else DefaultClause(s.cases);
    FromExits(q, s.cases, k, sel.run, a, fuel);
    if sel.found { SelectsClause(s.cases, 0, d.value, EnterScope(d.run, s.scope, a), a); } else { DefaultInside(s.cases); }
  }

  lemma {:induction false} SelectsClause(cases: Cases, clause: nat, v: Value, r: Run, a: Activation)
    ensures var sel := Select(cases, clause, v, r, a); sel.found ==> clause <= sel.clause < clause + Length(cases)
    decreases cases
  {
    hide Eval;
    if cases.Case? {
      SelectsClause(cases.rest, clause + 1, v, r, a);
      SelectsClause(cases.rest, clause + 1, v, Eval(cases.test, r, a).run, a);
    }
  }

  lemma {:induction false} DefaultInside(cases: Cases)
    ensures Visit.HasDefault(cases) ==> DefaultClause(cases) < Length(cases)
    decreases cases
  {
    if cases.Case? { DefaultInside(cases.rest); }
  }

  lemma {:induction false} GuardedExit(q: Question, s: Stmt, r: Run, a: Activation, fuel: nat)
    requires s.Try? && Clean(q, s)
    ensures Among(ExecGuarded(s, r, a, fuel).how, GuardedExits(s))
    decreases fuel, s, 0
  {
    ExecExits(q, s.block, {}, "", r, a, fuel);
    if s.handler.Catch? {
      var o := Exec(s.block, {}, r, a, fuel);
      ExecExits(q, s.handler.body, {}, "", EnterScope(Emit(o.run, Caught(r.history)), s.handler.scope, a), a, fuel);
    }
  }

  // A finally no break or continue leaves is not left by one.
  lemma Stays(q: Question, s: Stmt, r: Run, a: Activation, fuel: nat)
    requires Clean(q, s) && Contained(s)
    ensures var c := Exec(s, {}, r, a, fuel).how; !c.BreakTo? && !c.ContinueTo?
  {
    hide Clean, Exec;
    ExecExits(q, s, {}, "", r, a, fuel);
  }

  // ----- every reference is evaluated on no detour -----

  // A reference, by its identifier, and the question asked about its binding.
  datatype Watch = Watch(q: Question, tries: set<nat>, id: nat)

  ghost predicate Placed(w: Watch, a: Activation) {
    !w.q.Reached? && Own(w.q.sym, a)
  }

  // Whenever the reference was evaluated, it was on no detour.
  predicate Held(w: Watch, h: History) {
    match h
    case Begin => true
    case After(past, Use(i, x, _)) => Held(w, past) && (i == w.id && !w.q.Reached? && x == w.q.sym ==> !Detoured(w.q, w.tries, past))
    case After(past, _) => Held(w, past)
  }

  // Inside the scope of the binding, the run is on none now.
  ghost predicate Clear(w: Watch, open: set<Scope>, h: History) {
    !w.q.Reached? && w.q.sym.scope in open ==> !Detoured(w.q, w.tries, h)
  }

  // A run goes on from h to k.
  ghost predicate Holding(w: Watch, open: set<Scope>, h: History, k: History) {
    (Held(w, h) ==> Held(w, k)) && (Clear(w, open, h) ==> Clear(w, open, k))
  }

  lemma HoldOn(w: Watch, open: set<Scope>)
    ensures forall h, k, l {:trigger Holding(w, open, h, k), Holding(w, open, k, l)} ::
      Holding(w, open, h, k) && Holding(w, open, k, l) ==> Holding(w, open, h, l)
    ensures forall h, k, m {:trigger Holding(w, open, h, k), Free(w, open, m, k)} :: Holding(w, open, h, k) && Free(w, open, m, h) ==> Free(w, open, m, k)
  {
  }

  lemma {:induction false} StoresHold(w: Watch, open: set<Scope>, ws: seq<(Symbol, Value)>, h: History, a: Activation)
    ensures Holding(w, open, h, Stores(ws, h, a))
    decreases |ws|
  {
    if ws != [] {
      var (y, v) := ws[0];
      StoresHold(w, open, ws[1..], if y in a.foreign && Current(y, h, a).Holds? then After(h, ForeignStore(y, v)) else h, a);
    }
  }

  lemma AskHolds(w: Watch, open: set<Scope>, r: Run, a: Activation)
    ensures Holding(w, open, r.history, Ask(r, a).run.history)
  {
    StoresHold(w, open, a.oracle(r.clock).stores, r.history, a);
  }

  // What may be run from h: anything without the reference, or, on no detour, anything in scope.
  ghost predicate Free(w: Watch, open: set<Scope>, mentions: bool, h: History) {
    mentions ==> Clear(w, open, h)
  }

  lemma FreePart(w: Watch, open: set<Scope>)
    ensures forall h, m, n {:trigger Free(w, open, m, h), Free(w, open, n, h)} :: Free(w, open, m, h) && (n ==> m) ==> Free(w, open, n, h)
    ensures forall h :: Holding(w, open, h, h)
  {
  }

  lemma UseHolds(w: Watch, open: set<Scope>, i: nat, x: Symbol, writes: bool, h: History, a: Activation)
    requires Placed(w, a) && InScope(x, open, a.fn) && Free(w, open, i == w.id, h)
    ensures Holding(w, open, h, After(h, Use(i, x, writes)))
  {
  }

  lemma ReadHolds(w: Watch, open: set<Scope>, i: nat, x: Symbol, r: Run, a: Activation)
    requires Placed(w, a) && InScope(x, open, a.fn) && Free(w, open, i == w.id, r.history)
    ensures Holding(w, open, r.history, Load(x, Emit(r, Use(i, x, false)), a).run.history)
  {
    UseHolds(w, open, i, x, false, r.history, a);
    AskHolds(w, open, Emit(r, Use(i, x, false)), a);
  }

  lemma StoreHolds(w: Watch, open: set<Scope>, x: Symbol, site: Site, v: Value, r: Run, a: Activation)
    ensures Holding(w, open, r.history, StoreTo(x, site, v, r, a).run.history)
  {
  }

  lemma {:induction false} EvalHolds(w: Watch, open: set<Scope>, e: Expr, r: Run, a: Activation)
    requires Placed(w, a) && ScopedExpr(e, open, a.fn) && Free(w, open, ExprMentions(w.id, e), r.history)
    ensures Holding(w, open, r.history, Eval(e, r, a).run.history)
    decreases e, 2
  {
    HoldOn(w, open);
    FreePart(w, open);
    hide Held, Clear, Detoured, Placed, Ask, Load, StoreTo, BinaryValue, Holding, Free;
    match e
    case Name(i, x) => ReadHolds(w, open, i, x, r, a);
    case Not(arg) => EvalHolds(w, open, arg, r, a);
    case TypeOf(arg) => EvalHolds(w, open, arg, r, a);
    case Binary(_, left, right) => BothHold(w, open, e, left, right, r, a);
    case Logical(_, left, right) => BothHold(w, open, e, left, right, r, a);
    case Conditional(test, yes, no) =>
      BothHold(w, open, e, test, yes, r, a);
      BothHold(w, open, e, test, no, r, a);
    case Assign(_, _, _, _) => AssignHolds(w, open, e, r, a);
    case Update(i, x) =>
      ReadHolds(w, open, i, x, r, a);
      var l := Load(x, Emit(r, Use(i, x, false)), a);
      AskHolds(w, open, l.run, a);
      var c := Ask(l.run, a);
      StoreHolds(w, open, x, OtherSite, c.value, c.run, a);
    case Member(o) => BothHold(w, open, e, o, NoExpr, r, a);
    case SetMember(o, right) => BothHold(w, open, e, o, right, r, a);
    case Call(callee, args) => BothHold(w, open, e, callee, args, r, a);
    case Comma(first, second) => BothHold(w, open, e, first, second, r, a);
    case Opaque(arg) => BothHold(w, open, e, arg, NoExpr, r, a);
    case Closure(fn, _) => SilentHolds(w, open, r.history, Create(fn));
    case _ =>
  }

  lemma SilentHolds(w: Watch, open: set<Scope>, h: History, e: Event)
    requires Silent(e)
    ensures Holding(w, open, h, After(h, e))
  {
  }

  lemma {:induction false} BothHold(w: Watch, open: set<Scope>, whole: Expr, e: Expr, f: Expr, r: Run, a: Activation)
    requires e < whole && (f < whole || f == NoExpr)
    requires Placed(w, a) && ScopedExpr(e, open, a.fn) && ScopedExpr(f, open, a.fn)
    requires Free(w, open, ExprMentions(w.id, e) || ExprMentions(w.id, f), r.history)
    ensures
      var v := Eval(e, r, a);
      var u := Eval(f, v.run, a);
      && Holding(w, open, r.history, v.run.history) && Holding(w, open, r.history, u.run.history)
      && Holding(w, open, r.history, Ask(u.run, a).run.history)
    decreases whole, 1
  {
    HoldOn(w, open);
    FreePart(w, open);
    hide Held, Clear, Detoured, Placed, Ask, Holding, Free;
    EvalHolds(w, open, e, r, a);
    if f != NoExpr { EvalHolds(w, open, f, Eval(e, r, a).run, a); }
    AskHolds(w, open, Eval(f, Eval(e, r, a).run, a).run, a);
  }

  lemma {:induction false} AssignHolds(w: Watch, open: set<Scope>, e: Expr, r: Run, a: Activation)
    requires e.Assign? && Placed(w, a) && ScopedExpr(e, open, a.fn) && Free(w, open, ExprMentions(w.id, e), r.history)
    ensures Holding(w, open, r.history, EvalAssign(e, r, a).run.history)
    decreases e, 1
  {
    HoldOn(w, open);
    FreePart(w, open);
    hide Held, Clear, Detoured, Placed, Ask, Load, StoreTo, Eval, Holding, Free;
    var site := AssignmentSite(e.id, e.aop);
    if e.aop == Plain {
      EvalHolds(w, open, e.right, r, a);
      var v := Eval(e.right, r, a);
      var r1 := Emit(v.run, Use(e.id, e.sym, true));
      UseHolds(w, open, e.id, e.sym, true, v.run.history, a);
      StoreHolds(w, open, e.sym, site, v.value, r1, a);
    } else {
      var l := Load(e.sym, Emit(r, Use(e.id, e.sym, false)), a);
      ReadHolds(w, open, e.id, e.sym, r, a);
      EvalHolds(w, open, e.right, l.run, a);
      var v := Eval(e.right, l.run, a);
      StoreHolds(w, open, e.sym, site, v.value, v.run, a);
      AskHolds(w, open, v.run, a);
      var c := Ask(v.run, a);
      StoreHolds(w, open, e.sym, site, c.value, c.run, a);
    }
  }

  // ----- statements -----

  // How s leaves the run: a throw or a return may leave it on a detour.
  ghost predicate Carried(w: Watch, open: set<Scope>, h: History, o: Outcome) {
    && (Held(w, h) ==> Held(w, o.run.history))
    && (Clear(w, open, h) && !o.how.Threw? && !o.how.Returned? && !o.how.Halted? ==> Clear(w, open, o.run.history))
  }

  // s may be run from h.
  ghost predicate Starts(w: Watch, open: set<Scope>, s: Stmt, h: History, a: Activation) {
    && Placed(w, a) && Clean(w.q, s) && Scoped(s, open, a.fn)
    && Straight(w.q, w.tries, w.id, s, w.q.sym.scope in open) && Free(w, open, Mentions(w.id, s), h)
  }

  lemma EnterHolds(w: Watch, open: set<Scope>, s: Scope, r: Run, a: Activation)
    ensures var k := EnterScope(r, s, a).history;
      && (Held(w, r.history) ==> Held(w, k)) && (Clear(w, open, r.history) ==> Clear(w, open + {s}, k))
      && forall m :: Free(w, open, m, r.history) ==> Free(w, open + {s}, m, k)
  {
  }

  lemma LeaveHolds(w: Watch, open: set<Scope>, s: Scope, h: History, k: History, o: Outcome)
    requires Carried(w, open + {s}, k, o) && (Held(w, h) ==> Held(w, k)) && (Clear(w, open, h) ==> Clear(w, open + {s}, k))
    ensures Carried(w, open, h, Leave(o, s))
  {
  }

  lemma {:induction false} ExecHolds(w: Watch, open: set<Scope>, s: Stmt, labels: set<string>, r: Run, a: Activation, fuel: nat)
    requires Starts(w, open, s, r.history, a)
    ensures Carried(w, open, r.history, Exec(s, labels, r, a, fuel))
    decreases fuel, s, 3
  {
    hide Held, Detoured, Ask, StoreTo;
    match s
    case Then(first, rest) =>
      ExecHolds(w, open, first, {}, r, a, fuel);
      ExecExits(w.q, first, {}, "", r, a, fuel);
      var o := Exec(first, {}, r, a, fuel);
      if o.how.Normal? { ExecHolds(w, open, rest, {}, o.run, a, fuel); }
    case Declare(_, _, _, _) => DeclareHolds(w, open, s, labels, r, a, fuel);
    case Evaluate(e) => EvalHolds(w, open, e, r, a);
    case Block(scope, body) =>
      EnterHolds(w, open, scope, r, a);
      var r1 := EnterScope(r, scope, a);
      ExecHolds(w, open + {scope}, body, {}, r1, a, fuel);
      LeaveHolds(w, open, scope, r.history, r1.history, Exec(body, {}, r1, a, fuel));
    case If(test, yes, no) =>
      EvalHolds(w, open, test, r, a);
      ExecHolds(w, open, yes, {}, Eval(test, r, a).run, a, fuel);
      ExecHolds(w, open, no, {}, Eval(test, r, a).run, a, fuel);
    case While(_, _) => WhileHolds(w, open, s, labels, r, a, fuel);
    case DoWhile(_, _) => DoWhileHolds(w, open, s, labels, r, a, fuel);
    case For(_, _, _, _, _) => ForHolds(w, open, s, labels, r, a, fuel);
    case ForOf(_, _, _, subject, _) =>
      EvalHolds(w, open, subject, r, a);
      ForOfHolds(w, open, s, labels, Eval(subject, r, a).run, a, fuel);
    case Labeled(tag, body) =>
      ExecHolds(w, open, body, labels + {tag}, r, a, fuel);
      ExecHolds(w, open, body, {}, r, a, fuel);
    case Return(e) => EvalHolds(w, open, e, r, a);
    case Throw(e) => EvalHolds(w, open, e, r, a);
    case Switch(_, _, _) => SwitchHolds(w, open, s, r, a, fuel);
    case Try(_, _, _, _) => TryHolds(w, open, s, labels, r, a, fuel);
    case _ =>
  }

  lemma InitializeHolds(w: Watch, open: set<Scope>, x: Symbol, site: Site, assign: bool, v: Value, r: Run, a: Activation)
    ensures Holding(w, open, r.history, Initialize(x, site, assign, v, r, a).run.history)
  {
  }

  lemma {:induction false} DeclareHolds(w: Watch, open: set<Scope>, s: Stmt, labels: set<string>, r: Run, a: Activation, fuel: nat)
    requires s.Declare? && Starts(w, open, s, r.history, a)
    ensures Carried(w, open, r.history, Exec(s, labels, r, a, fuel))
  {
    hide Held, Detoured, StoreTo, Initialize, Eval;
    var site := DeclarationSite(s.id, s.init != NoExpr);
    EvalHolds(w, open, s.init, r, a);
    var v := Eval(s.init, r, a);
    InitializeHolds(w, open, s.sym, site, s.init != NoExpr, v.value, v.run, a);
    StoreHolds(w, open, s.sym, site, v.value, v.run, a);
  }

  lemma {:induction false} WhileHolds(w: Watch, open: set<Scope>, s: Stmt, labels: set<string>, r: Run, a: Activation, fuel: nat)
    requires s.While? && Starts(w, open, s, r.history, a)
    ensures Carried(w, open, r.history, Exec(s, labels, r, a, fuel))
    decreases fuel, s, 1
  {
    hide Held, Detoured, Eval;
    if fuel > 0 {
      EvalHolds(w, open, s.test, r, a);
      var t := Eval(s.test, r, a);
      ExecHolds(w, open, s.body, {}, t.run, a, fuel);
      var o := Exec(s.body, {}, t.run, a, fuel);
      if GoesRound(o.how, labels) { WhileHolds(w, open, s, labels, o.run, a, fuel - 1); }
    }
  }

  lemma {:induction false} DoWhileHolds(w: Watch, open: set<Scope>, s: Stmt, labels: set<string>, r: Run, a: Activation, fuel: nat)
    requires s.DoWhile? && Starts(w, open, s, r.history, a)
    ensures Carried(w, open, r.history, Exec(s, labels, r, a, fuel))
    decreases fuel, s, 1
  {
    hide Held, Detoured, Eval;
    if fuel > 0 {
      ExecHolds(w, open, s.body, {}, r, a, fuel);
      var o := Exec(s.body, {}, r, a, fuel);
      if GoesRound(o.how, labels) {
        EvalHolds(w, open, s.test, o.run, a);
        DoWhileHolds(w, open, s, labels, Eval(s.test, o.run, a).run, a, fuel - 1);
      }
    }
  }

  lemma {:induction false} ForHolds(w: Watch, open: set<Scope>, s: Stmt, labels: set<string>, r: Run, a: Activation, fuel: nat)
    requires s.For? && Starts(w, open, s, r.history, a)
    ensures Carried(w, open, r.history, Exec(s, labels, r, a, fuel))
    decreases fuel, s, 1
  {
    hide Held, Detoured, ForRounds;
    var inner := open + {s.scope};
    EnterHolds(w, open, s.scope, r, a);
    var r1 := EnterScope(r, s.scope, a);
    ExecHolds(w, inner, s.start, {}, r1, a, fuel);
    ExecExits(w.q, s.start, {}, "", r1, a, fuel);
    var o := Exec(s.start, {}, r1, a, fuel);
    var r2 := Emit(o.run, Renew(s.scope));
    SilentHolds(w, inner, o.run.history, Renew(s.scope));
    if o.how.Normal? {
      RoundsHold(w, inner, s, labels, r2, a, fuel);
      LeaveHolds(w, open, s.scope, r.history, r1.history, ForRounds(s, labels, r2, a, fuel));
    } else {
      LeaveHolds(w, open, s.scope, r.history, r1.history, o);
    }
  }

  // The rounds of a for loop, its scope open.
  lemma {:induction false} RoundsHold(w: Watch, open: set<Scope>, s: Stmt, labels: set<string>, r: Run, a: Activation, fuel: nat)
    requires s.For? && Placed(w, a) && Clean(w.q, s.body) && Straight(w.q, w.tries, w.id, s.body, w.q.sym.scope in open)
    requires ScopedExpr(s.test, open, a.fn) && ScopedExpr(s.update, open, a.fn) && Scoped(s.body, open, a.fn)
    requires Free(w, open, ExprMentions(w.id, s.test) || ExprMentions(w.id, s.update) || Mentions(w.id, s.body), r.history)
    ensures Carried(w, open, r.history, ForRounds(s, labels, r, a, fuel))
    decreases fuel, s, 0
  {
    hide Held, Detoured, Eval;
    if fuel > 0 {
      EvalHolds(w, open, s.test, r, a);
      var t := Eval(s.test, r, a);
      ExecHolds(w, open, s.body, {}, t.run, a, fuel);
      var o := Exec(s.body, {}, t.run, a, fuel);
      if GoesRound(o.how, labels) {
        var r1 := Emit(o.run, Renew(s.scope));
        SilentHolds(w, open, o.run.history, Renew(s.scope));
        EvalHolds(w, open, s.update, r1, a);
        RoundsHold(w, open, s, labels, Eval(s.update, r1, a).run, a, fuel - 1);
      }
    }
  }

  lemma {:induction false} ForOfHolds(w: Watch, open: set<Scope>, s: Stmt, labels: set<string>, r: Run, a: Activation, fuel: nat)
    requires s.ForOf? && Starts(w, open, s, r.history, a)
    ensures Carried(w, open, r.history, ForOfRounds(s, labels, r, a, fuel))
    decreases fuel, s, 1
  {
    hide Held, Detoured, Ask, ForOfRound;
    if fuel > 0 {
      AskHolds(w, open, r, a);
      var c := Ask(r, a);
      EnterHolds(w, open, s.scope, c.run, a);
      var r1 := EnterScope(c.run, s.scope, a);
      RoundHolds(w, open + {s.scope}, s, c.value, r1, a, fuel);
      var k := ForOfRound(s, c.value, r1, a, fuel);
      LeaveHolds(w, open, s.scope, c.run.history, r1.history, k);
      var o := Leave(k, s.scope);
      AskHolds(w, open, o.run, a);
      if GoesRound(o.how, labels) { ForOfHolds(w, open, s, labels, o.run, a, fuel - 1); }
    }
  }

  lemma {:induction false} RoundHolds(w: Watch, open: set<Scope>, s: Stmt, v: Value, r: Run, a: Activation, fuel: nat)
    requires s.ForOf? && Starts(w, open, s.body, r.history, a)
    ensures Carried(w, open, r.history, ForOfRound(s, v, r, a, fuel))
    decreases fuel, s, 0
  {
    hide Held, Detoured, Initialize, StoreTo, Exec;
    InitializeHolds(w, open, s.sym, OtherSite, true, v, r, a);
    StoreHolds(w, open, s.sym, OtherSite, v, r, a);
    ExecHolds(w, open, s.body, {}, Initialize(s.sym, OtherSite, true, v, r, a).run, a, fuel);
    ExecHolds(w, open, s.body, {}, StoreTo(s.sym, OtherSite, v, r, a).run, a, fuel);
  }

  lemma {:induction false} SelectHolds(w: Watch, open: set<Scope>, cases: Cases, clause: nat, v: Value, r: Run, a: Activation)
    requires Placed(w, a) && ScopedCases(cases, open, a.fn) && Free(w, open, CasesMention(w.id, cases), r.history)
    ensures Holding(w, open, r.history, Select(cases, clause, v, r, a).run.history)
    decreases cases
  {
    hide Held, Detoured, Eval;
    if cases.Case? {
      EvalHolds(w, open, cases.test, r, a);
      SelectHolds(w, open, cases.rest, clause + 1, v, r, a);
      SelectHolds(w, open, cases.rest, clause + 1, v, Eval(cases.test, r, a).run, a);
    }
  }

  lemma {:induction false} FromHolds(w: Watch, open: set<Scope>, cases: Cases, k: nat, r: Run, a: Activation, fuel: nat)
    requires Placed(w, a) && CleanCases(w.q, cases) && ScopedCases(cases, open, a.fn)
    requires StraightCases(w.q, w.tries, w.id, cases, w.q.sym.scope in open) && Free(w, open, CasesMention(w.id, cases), r.history)
    ensures Carried(w, open, r.history, ExecFrom(cases, k, r, a, fuel))
    decreases fuel, cases, 4
  {
    hide Held, Detoured, Exec;
    if cases.Case? {
      if k > 0 {
        FromHolds(w, open, cases.rest, k - 1, r, a, fuel);
      } else {
        ExecHolds(w, open, cases.body, {}, r, a, fuel);
        var o := Exec(cases.body, {}, r, a, fuel);
        if o.how.Normal? { FromHolds(w, open, cases.rest, 0, o.run, a, fuel); }
      }
    }
  }

  lemma {:induction false} SwitchHolds(w: Watch, open: set<Scope>, s: Stmt, r: Run, a: Activation, fuel: nat)
    requires s.Switch? && Starts(w, open, s, r.history, a)
    ensures Carried(w, open, r.history, ExecSwitch(s, r, a, fuel))
    decreases fuel, s, 1
  {
    hide Held, Detoured, Eval, Select, ExecFrom;
    var inner := open + {s.scope};
    EvalHolds(w, open, s.discriminant, r, a);
    var d := Eval(s.discriminant, r, a);
    EnterHolds(w, open, s.scope, d.run, a);
    var r1 := EnterScope(d.run, s.scope, a);
    SelectHolds(w, inner, s.cases, 0, d.value, r1, a);
    var sel := Select(s.cases, 0, d.value, r1, a);
    LeaveHolds(w, open, s.scope, d.run.history, r1.history, Outcome(sel.run, Threw));
    var k := if sel.found then sel.clause else DefaultClause(s.cases);
    FromHolds(w, inner, s.cases, k, sel.run, a, fuel);
    var o := ExecFrom(s.cases, k, sel.run, a, fuel);
    LeaveHolds(w, open, s.scope, d.run.history, r1.history, if o.how == BreakTo("") then o.(how := Normal) else o);
  }

  lemma {:induction false} GuardedHolds(w: Watch, open: set<Scope>, s: Stmt, r: Run, a: Activation, fuel: nat)
    requires s.Try? && Starts(w, open, s, r.history, a)
    ensures Carried(w, open, r.history, ExecGuarded(s, r, a, fuel))
    decreases fuel, s, 1
  {
    hide Detoured, Held, Clean;
    TryStarts(w, open, s, r.history, a);
    ExecHolds(w, open, s.block, {}, r, a, fuel);
    if s.handler.Catch? {
      var o := Exec(s.block, {}, r, a, fuel);
      var r0 := Emit(o.run, Caught(r.history));
      CaughtHolds(w, open, r.history, o);
      EnterHolds(w, open, s.handler.scope, r0, a);
      var r1 := EnterScope(r0, s.handler.scope, a);
      ExecHolds(w, open + {s.handler.scope}, s.handler.body, {}, r1, a, fuel);
      LeaveHolds(w, open, s.handler.scope, r0.history, r1.history, Exec(s.handler.body, {}, r1, a, fuel));
    }
  }

  lemma CaughtHolds(w: Watch, open: set<Scope>, h: History, o: Outcome)
    requires Carried(w, open, h, o)
    ensures Holding(w, open, h, After(o.run.history, Caught(h)))
  {
  }

  lemma TryStarts(w: Watch, open: set<Scope>, s: Stmt, h: History, a: Activation)
    requires s.Try? && Starts(w, open, s, h, a)
    ensures Starts(w, open, s.block, h, a)
    ensures s.handler.Catch? ==> forall k :: Free(w, open + {s.handler.scope}, Mentions(w.id, s), k) ==>
      Starts(w, open + {s.handler.scope}, s.handler.body, k, a)
    ensures s.finalizer.Finally? ==> forall k :: Free(w, open, Mentions(w.id, s.finalizer.body), k) ==> Starts(w, open, s.finalizer.body, k, a)
    ensures s.finalizer.Finally? && w.q.sym.scope in open && Diverts(w.q, w.tries, s) ==>
      !Mentions(w.id, s.finalizer.body) && Contained(s.finalizer.body)
  {
    hide Detoured, Held, Diverts;
  }

  lemma {:induction false} TryHolds(w: Watch, open: set<Scope>, s: Stmt, labels: set<string>, r: Run, a: Activation, fuel: nat)
    requires s.Try? && Starts(w, open, s, r.history, a)
    ensures Carried(w, open, r.history, Exec(s, labels, r, a, fuel))
    decreases fuel, s, 2
  {
    hide ExecGuarded, Held, Detoured, Clean, Diverts;
    GuardedHolds(w, open, s, r, a, fuel);
    TryStarts(w, open, s, r.history, a);
    if s.finalizer.Finally? {
      var last := s.finalizer.body;
      var o := ExecGuarded(s, r, a, fuel);
      var r1 := Emit(o.run, FinallyAbrupt(s, r.history));
      if o.how.Normal? {
        ExecHolds(w, open, last, {}, o.run, a, fuel);
      } else if !o.how.Halted? {
        AbruptHolds(w, open, s, r.history, o);
        ExecHolds(w, open, last, {}, r1, a, fuel);
        if w.q.sym.scope in open && Diverts(w.q, w.tries, s) { Stays(w.q, last, r1, a, fuel); }
        DoneHolds(w, open, s, r.history, o, Exec(last, {}, r1, a, fuel));
      }
    }
  }

  // A finally entered on the way out: on a detour only if it diverts.
  lemma AbruptHolds(w: Watch, open: set<Scope>, s: Stmt, h: History, o: Outcome)
    requires !w.q.Reached? && Carried(w, open, h, o)
    ensures var k := After(o.run.history, FinallyAbrupt(s, h));
      && (Held(w, h) ==> Held(w, k))
      && (!(w.q.sym.scope in open && Diverts(w.q, w.tries, s)) && Clear(w, open, h) ==> Clear(w, open, k))
  {
  }

  // And the way out going on after it, or another one taken.
  lemma DoneHolds(w: Watch, open: set<Scope>, s: Stmt, h: History, o: Outcome, f: Outcome)
    requires !w.q.Reached? && Carried(w, open, h, o) && !o.how.Normal? && !o.how.Halted?
    requires Carried(w, open, After(o.run.history, FinallyAbrupt(s, h)), f)
    requires w.q.sym.scope in open && Diverts(w.q, w.tries, s) ==> !f.how.BreakTo? && !f.how.ContinueTo?
    ensures Carried(w, open, h, if f.how.Normal? then Outcome(Emit(f.run, FinallyDone(o.run.history)), o.how) else f)
  {
    AbruptHolds(w, open, s, h, o);
  }

  // In a run of a function, the reference is only evaluated on no detour.
  lemma {:induction false} RunHolds(w: Watch, body: Stmt, a: Activation, fuel: nat)
    requires Starts(w, {a.fn}, body, Begin, a)
    ensures Held(w, Execute(body, a, fuel).run.history)
  {
    ExecHolds(w, {a.fn}, body, {}, Run(Begin, 0), a, fuel);
  }

  // ----- programs without detours -----

  // A scope that is open is not opened again.
  lemma {:induction false} OpensNone(scope: Scope, s: Stmt, open: set<Scope>, fn: Scope)
    requires Scoped(s, open, fn) && scope in open
    ensures !Opens(scope, s)
    decreases s
  {
    hide ScopedExpr;
    match s
    case Then(f, r) => OpensNone(scope, f, open, fn); OpensNone(scope, r, open, fn);
    case Block(t, body) => OpensNone(scope, body, open + {t}, fn);
    case If(_, y, n) => OpensNone(scope, y, open, fn); OpensNone(scope, n, open, fn);
    case While(_, body) => OpensNone(scope, body, open, fn);
    case DoWhile(_, body) => OpensNone(scope, body, open, fn);
    case For(t, start, _, _, body) => OpensNone(scope, start, open + {t}, fn); OpensNone(scope, body, open + {t}, fn);
    case ForOf(t, _, _, _, body) => OpensNone(scope, body, open + {t}, fn);
    case Labeled(_, body) => OpensNone(scope, body, open, fn);
    case Switch(t, _, cases) => CasesOpenNone(scope, cases, open + {t}, fn);
    case Try(_, block, handler, finalizer) =>
      OpensNone(scope, block, open, fn);
      if handler.Catch? { OpensNone(scope, handler.body, open + {handler.scope}, fn); }
      if finalizer.Finally? { OpensNone(scope, finalizer.body, open, fn); }
    case _ =>
  }

  lemma {:induction false} CasesOpenNone(scope: Scope, cases: Cases, open: set<Scope>, fn: Scope)
    requires ScopedCases(cases, open, fn) && scope in open
    ensures !CasesOpen(scope, cases)
    decreases cases
  {
    if cases.Case? {
      OpensNone(scope, cases.body, open, fn);
      CasesOpenNone(scope, cases.rest, open, fn);
    }
  }

  // A question whose state no try may bring about, or one it decides.
  predicate Decides(p: Question, q: Question) {
    (p == q && (q.Declared? || q.StoredBy?)) || (p.StoredBy? && q == Unassigned(p.sym))
  }

  lemma SteadyTry(p: Question, q: Question, tries: set<nat>, s: Stmt, open: set<Scope>, fn: Scope)
    requires s.Try? && s.finalizer.Finally? && Decides(p, q) && Clean(p, s) && Scoped(s, open, fn) && Steady(s, tries)
    requires q.sym.scope in open
    ensures !Diverts(q, tries, s)
  {
    OpensNone(q.sym.scope, s, open, fn);
    UndisturbedTry(p, s);
    hide Clean, Scoped, StmtStores, Declares, Exits;
    assert Bare(q, s.block) && (s.handler.Catch? ==> Bare(q, s.handler.body) && !Owns(q, s.handler.scope));
  }

  lemma UndisturbedTry(p: Question, s: Stmt)
    requires s.Try? && s.finalizer.Finally? && Clean(p, s)
    ensures !Disturbs(p, s.block) && (s.handler.Catch? ==> !Disturbs(p, Block(s.handler.scope, s.handler.body)))
  {
    hide Disturbs;
  }

  // Where every finally entered from the end of its try has a try that can fall off, none is a detour for
  // a declaration, nor for a store that no try makes.
  lemma {:induction false} SteadyStraight(p: Question, q: Question, tries: set<nat>, id: nat, s: Stmt, open: set<Scope>, fn: Scope)
    requires Decides(p, q) && Clean(p, s) && Scoped(s, open, fn) && Steady(s, tries)
    ensures Straight(q, tries, id, s, q.sym.scope in open)
    decreases s
  {
    hide Diverts, Exits, GuardedExits, Disturbs, CleanExpr, TestRead;
    match s
    case Then(f, r) =>
      SteadyStraight(p, q, tries, id, f, open, fn);
      if End in Exits(f, "") { SteadyStraight(p, q, tries, id, r, open, fn); }
    case Block(t, body) => SteadyStraight(p, q, tries, id, body, open + {t}, fn);
    case If(_, y, n) =>
      SteadyStraight(p, q, tries, id, y, open, fn);
      SteadyStraight(p, q, tries, id, n, open, fn);
    case While(_, body) => SteadyStraight(p, q, tries, id, body, open, fn);
    case DoWhile(_, body) => SteadyStraight(p, q, tries, id, body, open, fn);
    case For(t, start, _, _, body) =>
      SteadyStraight(p, q, tries, id, start, open + {t}, fn);
      if End in Exits(start, "") { SteadyStraight(p, q, tries, id, body, open + {t}, fn); }
    case ForOf(t, _, _, _, body) => SteadyStraight(p, q, tries, id, body, open + {t}, fn);
    case Labeled(_, body) => SteadyStraight(p, q, tries, id, body, open, fn);
    case Switch(t, _, cases) => SteadyCasesStraight(p, q, tries, id, cases, open + {t}, fn);
    case Try(_, block, handler, finalizer) =>
      SteadyStraight(p, q, tries, id, block, open, fn);
      if handler.Catch? { SteadyStraight(p, q, tries, id, handler.body, open + {handler.scope}, fn); }
      if finalizer.Finally? {
        SteadyStraight(p, q, tries, id, finalizer.body, open, fn);
        if q.sym.scope in open { SteadyTry(p, q, tries, s, open, fn); }
      }
    case _ =>
  }

  lemma {:induction false} SteadyCasesStraight(p: Question, q: Question, tries: set<nat>, id: nat, cases: Cases, open: set<Scope>, fn: Scope)
    requires Decides(p, q) && CleanCases(p, cases) && ScopedCases(cases, open, fn) && SteadyCases(cases, tries)
    ensures StraightCases(q, tries, id, cases, q.sym.scope in open)
    decreases cases
  {
    if cases.Case? {
      SteadyStraight(p, q, tries, id, cases.body, open, fn);
      SteadyCasesStraight(p, q, tries, id, cases.rest, open, fn);
    }
  }
}
