// A closure that sees a binding narrowed as at its own creation: nothing is assigned to the binding once
// the closure is created.
module Narrowing {
  import opened Syntax
  import opened Semantics
  import opened Positions
  import opened Extents
  import opened Scoping
  import opened Programs

  // ----- a reference the binder accepts, in the tokens of its program -----

  // Reference ref to x, in closure f, with the program's tokens before it and after it.
  datatype Scene = Scene(before: seq<Token>, id: nat, after: seq<Token>, x: Symbol, f: Scope) {
    function ref(): Token {
      Ref(id, x)
    }

    function all(): seq<Token> {
      before + [ref()] + after
    }
  }

  // The only reference with its identifier, and not assigned from its position on; the function that
  // declares x is entered once.
  ghost predicate Accepted(c: Scene) {
    && c.ref() !in c.before && c.ref() !in c.after
    && Balanced(c.all())
    && Settled(Steps(c.all(), Unnumbered), c.x, Steps(c.before, Unnumbered).ord)
  }

  ghost predicate Splits(all: seq<Token>, p: seq<Token>, ts: seq<Token>, q: seq<Token>) {
    all == p + ts + q
  }

  ghost predicate Part(c: Scene, ts: seq<Token>) {
    exists p, q :: Splits(c.all(), p, ts, q)
  }

  lemma AllClosed(c: Scene)
    requires Accepted(c)
    ensures Steps(c.all(), Unnumbered).frames == []
  {
    DeepKeeps(c.all(), Unnumbered, 0);
  }

  // Nothing is assigned after the reference.
  lemma NoSetAfter(c: Scene)
    requires Accepted(c)
    ensures Set(c.x) !in c.after
  {
    if Set(c.x) in c.after {
      var k :| 0 <= k < |c.after| && c.after[k] == Set(c.x);
      var p := c.before + [c.ref()] + c.after[..k];
      assert c.all() == p + [Set(c.x)] + c.after[k + 1..];
      AllClosed(c);
      SetBefore(p, c.x, c.after[k + 1..], Unnumbered, Steps(c.before, Unnumbered).ord);
      assert p == c.before + ([c.ref()] + c.after[..k]);
      StepsOn(c.before, [c.ref()] + c.after[..k], Unnumbered);
      StepsKeep([c.ref()] + c.after[..k], Steps(c.before, Unnumbered), c.x, 0);
      assert false;
    }
  }

  // Where the reference is, in a run of tokens.
  lemma RefAt(c: Scene, u: seq<Token>, v: seq<Token>)
    requires Accepted(c) && c.all() == u + v && c.ref() in u
    ensures |c.before| < |u| && u == c.before + [c.ref()] + u[|c.before| + 1..] && c.after == u[|c.before| + 1..] + v
  {
    var i :| 0 <= i < |u| && u[i] == c.ref();
    var n := |c.before|;
    assert c.all()[i] == c.ref();
    assert i == n;
    assert u[..n] == c.all()[..n] == c.before;
    assert c.after == c.all()[n + 1..] == u[n + 1..] + v;
  }

  // Of two runs of tokens, the second holds no assignment if the first holds the reference.
  lemma PartPair(c: Scene, a: seq<Token>, b: seq<Token>)
    requires Accepted(c) && Part(c, a + b)
    ensures Part(c, a) && Part(c, b)
    ensures c.ref() in a ==> Set(c.x) !in b
  {
    var p, q :| Splits(c.all(), p, a + b, q);
    assert Splits(c.all(), p, a, b + q) by { assert p + a + (b + q) == p + (a + b) + q; }
    assert Splits(c.all(), p + a, b, q) by { assert p + a + b + q == p + (a + b) + q; }
    if c.ref() in a {
      assert c.ref() in p + a;
      RefAt(c, p + a, b + q);
      NoSetAfter(c);
    }
  }

  // A statement that extends assignments does not hold both, nor does what is inside it hold x's declaration.
  lemma PartFrame(c: Scene, inner: seq<Token>)
    requires Accepted(c) && Part(c, [Tick, Open] + inner + [Close]) && Balanced(inner)
    requires Init(c.x) !in inner && In(c.x.scope) !in inner
    ensures c.ref() in inner ==> Set(c.x) !in inner
  {
    if c.ref() in inner && Set(c.x) in inner {
      var p, q :| Splits(c.all(), p, [Tick, Open] + inner + [Close], q);
      var u := p + [Tick, Open] + inner;
      AllClosed(c);
      FrameBefore(p, inner, q, c.x, Steps(c.before, Unnumbered).ord);
      assert c.all() == u + ([Close] + q);
      RefAt(c, u, [Close] + q);
      var rest := [c.ref()] + u[|c.before| + 1..];
      assert u == c.before + rest;
      StepsOn(c.before, rest, Unnumbered);
      StepsKeep(rest, Steps(c.before, Unnumbered), c.x, 0);
      assert false;
    }
  }

  // ----- what a run may not do -----

  // Closure f has been created since x's binding was last made.
  predicate Captured(c: Scene, h: History) {
    match h
    case Begin => false
    case After(past, Enter(s, _)) => s != c.x.scope && Captured(c, past)
    case After(past, Renew(s)) => s != c.x.scope && Captured(c, past)
    case After(past, Create(g)) => g == c.f || Captured(c, past)
    case After(past, _) => Captured(c, past)
  }

  // Nothing was assigned to x while closure f was there; its declaration may still have run.
  predicate Unassigned(c: Scene, h: History) {
    match h
    case Begin => true
    case After(past, Store(y, _, init, _, _)) => (y == c.x && !init ==> !Captured(c, past)) && Unassigned(c, past)
    case After(past, ForeignStore(y, _)) => (y == c.x ==> !Captured(c, past)) && Unassigned(c, past)
    case After(past, _) => Unassigned(c, past)
  }

  // The run may go through these tokens: where the closure is already there, they assign nothing.
  ghost predicate Ready(c: Scene, open: set<Scope>, ts: seq<Token>, h: History) {
    Unassigned(c, h) && (c.x.scope in open && Captured(c, h) ==> Set(c.x) !in ts)
  }

  // It has gone through them.
  ghost predicate Gone(c: Scene, open: set<Scope>, ts: seq<Token>, h: History, k: History) {
    Unassigned(c, k) && (c.x.scope in open && Captured(c, k) ==> Captured(c, h) || c.ref() in ts)
  }

  lemma ReadyFirst(c: Scene, open: set<Scope>, a: seq<Token>, b: seq<Token>, h: History)
    requires Ready(c, open, a + b, h)
    ensures Ready(c, open, a, h) && Ready(c, open, b, h)
  {
  }

  lemma GoneOn(c: Scene, open: set<Scope>, a: seq<Token>, b: seq<Token>, h: History, k: History)
    requires Accepted(c) && Part(c, a + b) && Ready(c, open, a + b, h) && Gone(c, open, a, h, k)
    ensures Part(c, a) && Part(c, b) && Ready(c, open, b, k) && Gone(c, open, a + b, h, k)
    ensures forall l :: Gone(c, open, b, k, l) ==> Gone(c, open, a + b, h, l)
  {
    PartPair(c, a, b);
  }

  // ----- expressions -----

  ghost predicate Home(c: Scene, a: Activation) {
    Accepted(c) && Own(c.x, a) && c.x !in a.foreign
  }

  // Every occurrence of closure f holds the reference.
  ghost predicate ExprEncloses(c: Scene, e: Expr) {
    forall b :: ExprHas(c.f, b, e) ==> c.ref() in StmtTokens(b, c.f)
  }

  ghost predicate Encloses(c: Scene, s: Stmt) {
    forall b :: StmtHas(c.f, b, s) ==> c.ref() in StmtTokens(b, c.f)
  }

  // k is h after events that create no closure and assign nothing to x.
  ghost predicate Onward(c: Scene, h: History, k: History) {
    (Unassigned(c, h) ==> Unassigned(c, k)) && (Captured(c, k) ==> Captured(c, h))
  }

  lemma {:induction false} StoresOnward(c: Scene, ws: seq<(Symbol, Value)>, h: History, a: Activation)
    requires c.x !in a.foreign
    ensures Onward(c, h, Stores(ws, h, a))
    decreases |ws|
  {
    if ws != [] {
      var (y, v) := ws[0];
      StoresOnward(c, ws[1..], if y in a.foreign && Current(y, h, a).Holds? then After(h, ForeignStore(y, v)) else h, a);
    }
  }

  lemma AskOnward(c: Scene, r: Run, a: Activation)
    requires c.x !in a.foreign
    ensures Onward(c, r.history, Ask(r, a).run.history)
  {
    StoresOnward(c, a.oracle(r.clock).stores, r.history, a);
  }

  lemma ReadOnward(c: Scene, id: nat, y: Symbol, r: Run, a: Activation)
    requires c.x !in a.foreign
    ensures Onward(c, r.history, Load(y, Emit(r, Use(id, y, false)), a).run.history)
  {
    AskOnward(c, Emit(r, Use(id, y, false)), a);
  }

  // A store to x that is not its declaration, where the tokens hold one.
  lemma StoreGone(c: Scene, open: set<Scope>, y: Symbol, site: Site, v: Value, r: Run, a: Activation, ts: seq<Token>)
    requires Ready(c, open, ts, r.history) && (y == c.x ==> c.x.scope in open && Set(c.x) in ts)
    ensures Gone(c, open, ts, r.history, StoreTo(y, site, v, r, a).run.history)
  {
  }

  lemma {:induction false} EvalGoes(c: Scene, open: set<Scope>, e: Expr, r: Run, a: Activation)
    requires Home(c, a) && ExprEncloses(c, e) && ScopedExpr(e, open, a.fn)
    requires Part(c, ExprTokens(e, a.fn)) && Ready(c, open, ExprTokens(e, a.fn), r.history)
    ensures Gone(c, open, ExprTokens(e, a.fn), r.history, Eval(e, r, a).run.history)
    decreases e, 2
  {
    hide Part, Ask, Load, StoreTo, BinaryValue;
    match e
    case NoExpr =>
    case Literal(_) =>
    case Name(id, x) => ReadOnward(c, id, x, r, a);
    case Not(arg) => OperandGoes(c, open, arg, r, a);
    case TypeOf(arg) => OperandGoes(c, open, arg, r, a);
    case Binary(_, left, right) => OperandsGo(c, open, e, [Tick], left, right, r, a);
    case Logical(_, left, right) => OperandsGo(c, open, e, [Tick], left, right, r, a);
    case Conditional(_, _, _) => ConditionalGoes(c, open, e, r, a);
    case Assign(_, _, _, _) => AssignGoes(c, open, e, r, a);
    case Update(_, _) => UpdateGoes(c, open, e, r, a);
    case Member(o) => OperandGoes(c, open, o, r, a);
    case SetMember(o, right) => OperandsGo(c, open, e, [Tick, Tick], o, right, r, a);
    case Call(callee, args) => OperandsGo(c, open, e, [Tick], callee, args, r, a);
    case Comma(first, second) => OperandsGo(c, open, e, [Tick], first, second, r, a);
    case Opaque(arg) => OperandGoes(c, open, arg, r, a);
    case Closure(f, body) => assert f == c.f ==> ExprHas(c.f, body, e);
  }

  lemma {:induction false} OperandGoes(c: Scene, open: set<Scope>, e: Expr, r: Run, a: Activation)
    requires Home(c, a) && ExprEncloses(c, e) && ScopedExpr(e, open, a.fn)
    requires var ts := [Tick] + ExprTokens(e, a.fn); Part(c, ts) && Ready(c, open, ts, r.history)
    ensures
      var ts := [Tick] + ExprTokens(e, a.fn);
      var r1 := Eval(e, r, a).run;
      Gone(c, open, ts, r.history, r1.history) && Gone(c, open, ts, r.history, Ask(r1, a).run.history)
    decreases e, 3
  {
    hide Part, Ask;
    PartPair(c, [Tick], ExprTokens(e, a.fn));
    ReadyFirst(c, open, [Tick], ExprTokens(e, a.fn), r.history);
    EvalGoes(c, open, e, r, a);
    AskOnward(c, Eval(e, r, a).run, a);
  }

  // A node's operands, in order, and other code after them.
  lemma {:induction false} OperandsGo(c: Scene, open: set<Scope>, whole: Expr, node: seq<Token>, e: Expr, f: Expr, r: Run, a: Activation)
    requires Home(c, a) && ExprEncloses(c, e) && ExprEncloses(c, f) && ScopedExpr(e, open, a.fn) && ScopedExpr(f, open, a.fn)
    requires e < whole && f < whole && c.ref() !in node
    requires var ts := node + ExprTokens(e, a.fn) + ExprTokens(f, a.fn); Part(c, ts) && Ready(c, open, ts, r.history)
    ensures
      var ts := node + ExprTokens(e, a.fn) + ExprTokens(f, a.fn);
      var r1 := Eval(e, r, a).run;
      var r2 := Eval(f, r1, a).run;
      && Gone(c, open, ts, r.history, r1.history) && Gone(c, open, ts, r.history, r2.history)
      && Gone(c, open, ts, r.history, Ask(r2, a).run.history)
    decreases whole, 1
  {
    hide Part, Ask;
    var t1, t2 := ExprTokens(e, a.fn), ExprTokens(f, a.fn);
    var r1 := Eval(e, r, a).run;
    ReadyFirst(c, open, node + t1, t2, r.history);
    PartPair(c, node + t1, t2);
    PartPair(c, node, t1);
    EvalGoes(c, open, e, r, a);
    GoneOn(c, open, node + t1, t2, r.history, r1.history);
    EvalGoes(c, open, f, r1, a);
    AskOnward(c, Eval(f, r1, a).run, a);
  }

  lemma {:induction false} ConditionalGoes(c: Scene, open: set<Scope>, e: Expr, r: Run, a: Activation)
    requires e.Conditional? && Home(c, a) && ExprEncloses(c, e) && ScopedExpr(e, open, a.fn)
    requires Part(c, ExprTokens(e, a.fn)) && Ready(c, open, ExprTokens(e, a.fn), r.history)
    ensures Gone(c, open, ExprTokens(e, a.fn), r.history, Eval(e, r, a).run.history)
    decreases e, 1
  {
    hide Part, Ask;
    var t1, t2, t3 := [Tick] + ExprTokens(e.test, a.fn), ExprTokens(e.yes, a.fn), ExprTokens(e.no, a.fn);
    var r1 := Eval(e.test, r, a).run;
    ReadyFirst(c, open, t1 + t2, t3, r.history);
    PartPair(c, t1 + t2, t3);
    PartPair(c, t1, t2);
    PartPair(c, [Tick], ExprTokens(e.test, a.fn));
    EvalGoes(c, open, e.test, r, a);
    GoneOn(c, open, t1, t2, r.history, r1.history);
    GoneOn(c, open, t1 + t2, t3, r.history, r1.history);
    EvalGoes(c, open, e.yes, r1, a);
    EvalGoes(c, open, e.no, r1, a);
  }

  lemma UpdateGoes(c: Scene, open: set<Scope>, e: Expr, r: Run, a: Activation)
    requires e.Update? && Home(c, a) && ScopedExpr(e, open, a.fn)
    requires Ready(c, open, ExprTokens(e, a.fn), r.history)
    ensures Gone(c, open, ExprTokens(e, a.fn), r.history, Eval(e, r, a).run.history)
  {
    hide Ask, Load, StoreTo;
    var l := Load(e.sym, Emit(r, Use(e.id, e.sym, false)), a);
    ReadOnward(c, e.id, e.sym, r, a);
    AskOnward(c, l.run, a);
    var v := Ask(l.run, a);
    StoreGone(c, open, e.sym, OtherSite, v.value, v.run, a, ExprTokens(e, a.fn));
  }

  lemma {:induction false} AssignGoes(c: Scene, open: set<Scope>, e: Expr, r: Run, a: Activation)
    requires e.Assign? && Home(c, a) && ExprEncloses(c, e) && ScopedExpr(e, open, a.fn)
    requires Part(c, ExprTokens(e, a.fn)) && Ready(c, open, ExprTokens(e, a.fn), r.history)
    ensures Gone(c, open, ExprTokens(e, a.fn), r.history, EvalAssign(e, r, a).run.history)
    decreases e, 1
  {
    hide Part, Ask, Load, StoreTo, Eval;
    var site := AssignmentSite(e.id, e.aop);
    var right := ExprTokens(e.right, a.fn);
    if e.aop == Plain {
      var v := RightGoes(c, open, e, [Tick], [Tick, Ref(e.id, e.sym), Set(e.sym)], r, a);
      StoreGone(c, open, e.sym, site, v.value, Emit(v.run, Use(e.id, e.sym, true)), a, [Tick, Ref(e.id, e.sym), Set(e.sym)]);
    } else {
      var l := Load(e.sym, Emit(r, Use(e.id, e.sym, false)), a);
      ReadOnward(c, e.id, e.sym, r, a);
      if e.aop == Compound {
        var ts := [Tick, Ref(e.id, e.sym), Set(e.sym)];
        var v := RightGoes(c, open, e, [Tick], ts, l.run, a);
        AskOnward(c, v.run, a);
        StoreGone(c, open, e.sym, site, Ask(v.run, a).value, Ask(v.run, a).run, a, ts);
      } else {
        var v := RightGoes(c, open, e, [Tick, Tick, Ref(e.id, e.sym)], [Set(e.sym)], l.run, a);
        StoreGone(c, open, e.sym, site, v.value, v.run, a, [Set(e.sym)]);
      }
    }
  }

  // An assignment's right side, with the tokens before it and after it.
  lemma {:induction false} RightGoes(c: Scene, open: set<Scope>, e: Expr, node: seq<Token>, store: seq<Token>, r: Run, a: Activation) returns (v: Result)
    requires e.Assign? && Home(c, a) && ExprEncloses(c, e) && ScopedExpr(e, open, a.fn)
    requires var ts := node + ExprTokens(e.right, a.fn) + store; Part(c, ts) && Ready(c, open, ts, r.history)
    ensures v == Eval(e.right, r, a)
    ensures
      var ts := node + ExprTokens(e.right, a.fn) + store;
      && Gone(c, open, ts, r.history, v.run.history) && Ready(c, open, store, v.run.history)
      && forall l :: Gone(c, open, store, v.run.history, l) ==> Gone(c, open, ts, r.history, l)
    decreases e, 0
  {
    hide Part;
    var right := ExprTokens(e.right, a.fn);
    ReadyFirst(c, open, node + right, store, r.history);
    PartPair(c, node + right, store);
    PartPair(c, node, right);
    v := Eval(e.right, r, a);
    EvalGoes(c, open, e.right, r, a);
    GoneOn(c, open, node + right, store, r.history, v.run.history);
  }

  // ----- statements -----

  // x is declared directly in its scope: no loop or switch inside the scope declares it.
  ghost predicate Inner(c: Scene, open: set<Scope>, s: Stmt, fn: Scope)
    requires ExtendsAssignments(s)
  {
    c.x.scope in open ==> Init(c.x) !in Positions.Inside(s, fn) && In(c.x.scope) !in Positions.Inside(s, fn)
  }

  // The statements x's closures are told apart in: beside what the language asks of declarations, the
  // reference is not in the update of a for loop whose head declares x, nor in a case test of a switch
  // whose body does.
  ghost predicate Regular(c: Scene, open: set<Scope>, s: Stmt, fn: Scope)
    decreases s
  {
    match s
    case Then(f, r) => Regular(c, open, f, fn) && Regular(c, open, r, fn)
    case Declare(kind, y, _, _) => kind == Var && y == c.x ==> c.x.scope in open
    case Block(scope, body) => Regular(c, open + {scope}, body, fn)
    case If(_, y, n) => Regular(c, open, y, fn) && Regular(c, open, n, fn)
    case While(_, body) => Inner(c, open, s, fn) && Regular(c, open, body, fn)
    case DoWhile(_, body) => Inner(c, open, s, fn) && Regular(c, open, body, fn)
    case For(scope, start, _, u, body) =>
      && Inner(c, open, s, fn) && Regular(c, open + {scope}, start, fn) && Regular(c, open + {scope}, body, fn)
      && (scope == c.x.scope ==> c.ref() !in ExprTokens(u, fn))
    case ForOf(scope, kind, y, _, body) =>
      && Inner(c, open, s, fn) && Regular(c, open + {scope}, body, fn)
      && (kind == Var && y == c.x ==> c.x.scope in open)
    case Labeled(_, body) => Regular(c, open, body, fn)
    case Switch(scope, _, cases) => Inner(c, open, s, fn) && RegularCases(c, open + {scope}, scope == c.x.scope, cases, fn)
    case Try(_, block, handler, finalizer) =>
      && Regular(c, open, block, fn)
      && (handler.Catch? ==> Regular(c, open + {handler.scope}, handler.body, fn))
      && (finalizer.Finally? ==> Regular(c, open, finalizer.body, fn))
    case _ => true
  }

  ghost predicate RegularCases(c: Scene, open: set<Scope>, own: bool, cases: Cases, fn: Scope)
    decreases cases
  {
    cases.Case? ==>
      && (own ==> c.ref() !in ExprTokens(cases.test, fn))
      && Regular(c, open, cases.body, fn) && RegularCases(c, open, own, cases.rest, fn)
  }

  // Tokens a run may go through again: they do not hold both the reference and an assignment.
  ghost predicate Calm(c: Scene, open: set<Scope>, ts: seq<Token>) {
    c.x.scope in open && c.ref() in ts ==> Set(c.x) !in ts
  }

  ghost predicate Within(c: Scene, p: seq<Token>, ts: seq<Token>) {
    (c.ref() in p ==> c.ref() in ts) && (Set(c.x) in p ==> Set(c.x) in ts)
  }

  lemma CalmOn(c: Scene, open: set<Scope>, p: seq<Token>, ts: seq<Token>, h: History)
    requires Calm(c, open, ts) && Within(c, p, ts) && Ready(c, open, ts, h)
    ensures Ready(c, open, p, h)
    ensures forall k :: Gone(c, open, p, h, k) ==> Ready(c, open, ts, k) && Gone(c, open, ts, h, k)
    ensures forall k, l :: Gone(c, open, ts, h, k) && Gone(c, open, ts, k, l) ==> Gone(c, open, ts, h, l)
  {
  }

  // What is inside a statement that extends assignments.
  lemma FrameGoes(c: Scene, open: set<Scope>, s: Stmt, fn: Scope, h: History)
    requires Accepted(c) && ExtendsAssignments(s) && Part(c, StmtTokens(s, fn)) && Ready(c, open, StmtTokens(s, fn), h)
    ensures Part(c, Positions.Inside(s, fn)) && Ready(c, open, Positions.Inside(s, fn), h)
    ensures Inner(c, open, s, fn) ==> Calm(c, open, Positions.Inside(s, fn))
    ensures forall k :: Gone(c, open, Positions.Inside(s, fn), h, k) ==> Gone(c, open, StmtTokens(s, fn), h, k)
  {
    var inner := Positions.Inside(s, fn);
    assert StmtTokens(s, fn) == [Tick, Open] + inner + [Close];
    hide StmtTokens, Positions.Inside, Part;
    PartPair(c, [Tick, Open] + inner, [Close]);
    PartPair(c, [Tick, Open], inner);
    if Inner(c, open, s, fn) && c.x.scope in open {
      InsideBalanced(s, fn);
      PartFrame(c, inner);
    }
  }

  // Entering a scope: x's binding is made anew where it is x's own.
  lemma EnterReady(c: Scene, open: set<Scope>, s: Scope, ts: seq<Token>, r: Run, a: Activation)
    requires Ready(c, open, ts, r.history) && s !in open
    ensures Ready(c, open + {s}, ts, EnterScope(r, s, a).history)
    ensures forall k :: Gone(c, open + {s}, ts, EnterScope(r, s, a).history, k) ==> Gone(c, open, ts, r.history, After(k, Exit(s)))
  {
  }

  lemma {:induction false} ExecGoes(c: Scene, open: set<Scope>, s: Stmt, labels: set<string>, r: Run, a: Activation, fuel: nat)
    requires Home(c, a) && Encloses(c, s) && Scoped(s, open, a.fn) && Regular(c, open, s, a.fn)
    requires Part(c, StmtTokens(s, a.fn)) && Ready(c, open, StmtTokens(s, a.fn), r.history)
    ensures Gone(c, open, StmtTokens(s, a.fn), r.history, Exec(s, labels, r, a, fuel).run.history)
    decreases fuel, s, 3
  {
    hide Part;
    match s
    case Empty =>
    case Then(first, rest) =>
      var t1, t2 := StmtTokens(first, a.fn), StmtTokens(rest, a.fn);
      ReadyFirst(c, open, t1, t2, r.history);
      PartPair(c, t1, t2);
      ExecGoes(c, open, first, {}, r, a, fuel);
      var o := Exec(first, {}, r, a, fuel);
      GoneOn(c, open, t1, t2, r.history, o.run.history);
      ExecGoes(c, open, rest, {}, o.run, a, fuel);
    case Block(scope, body) =>
      var t := StmtTokens(body, a.fn);
      PartPair(c, [Tick], t);
      ReadyFirst(c, open, [Tick], t, r.history);
      EnterReady(c, open, scope, t, r, a);
      ExecGoes(c, open + {scope}, body, {}, EnterScope(r, scope, a), a, fuel);
    case Labeled(tag, body) =>
      var t := StmtTokens(body, a.fn);
      PartPair(c, [Tick], t);
      ReadyFirst(c, open, [Tick], t, r.history);
      ExecGoes(c, open, body, labels + {tag}, r, a, fuel);
      ExecGoes(c, open, body, {}, r, a, fuel);
    case Break(_) =>
    case Continue(_) =>
    case Return(e) => OperandGoes(c, open, e, r, a);
    case Throw(e) => OperandGoes(c, open, e, r, a);
    case _ =>
      FrameGoes(c, open, s, a.fn, r.history);
      InsideGoes(c, open, s, labels, r, a, fuel);
  }

  ghost predicate Begun(c: Scene, open: set<Scope>, s: Stmt, r: Run, a: Activation)
    requires ExtendsAssignments(s)
  {
    && Home(c, a) && Encloses(c, s) && Scoped(s, open, a.fn) && Regular(c, open, s, a.fn)
    && Part(c, Positions.Inside(s, a.fn)) && Ready(c, open, Positions.Inside(s, a.fn), r.history)
    && (Inner(c, open, s, a.fn) ==> Calm(c, open, Positions.Inside(s, a.fn)))
  }

  lemma {:induction false} InsideGoes(c: Scene, open: set<Scope>, s: Stmt, labels: set<string>, r: Run, a: Activation, fuel: nat)
    requires ExtendsAssignments(s) && Begun(c, open, s, r, a)
    ensures Gone(c, open, Positions.Inside(s, a.fn), r.history, Exec(s, labels, r, a, fuel).run.history)
    decreases fuel, s, 2
  {
    hide Part;
    match s
    case Declare(_, _, _, _) => DeclareGoes(c, open, s, labels, r, a, fuel);
    case Evaluate(e) => EvalGoes(c, open, e, r, a);
    case If(_, _, _) => IfGoes(c, open, s, labels, r, a, fuel);
    case While(_, _) => WhileGoes(c, open, s, labels, r, a, fuel);
    case DoWhile(_, _) => DoWhileGoes(c, open, s, labels, r, a, fuel);
    case For(_, _, _, _, _) => ForGoes(c, open, s, labels, r, a, fuel);
    case ForOf(_, _, _, _, _) => ForOfGoes(c, open, s, labels, r, a, fuel);
    case Switch(_, _, _) => SwitchGoes(c, open, s, labels, r, a, fuel);
    case Try(_, _, _, _) => TryGoes(c, open, s, labels, r, a, fuel);
  }

  lemma {:induction false} DeclareGoes(c: Scene, open: set<Scope>, s: Stmt, labels: set<string>, r: Run, a: Activation, fuel: nat)
    requires s.Declare? && Begun(c, open, s, r, a)
    ensures Gone(c, open, Positions.Inside(s, a.fn), r.history, Exec(s, labels, r, a, fuel).run.history)
    decreases fuel, s, 0
  {
    hide Part, Eval, StoreTo;
    var t := ExprTokens(s.init, a.fn);
    var binding := if s.kind != Var then [Init(s.sym)] else if s.init != NoExpr then [Set(s.sym)] else [];
    assert Positions.Inside(s, a.fn) == t + binding;
    ReadyFirst(c, open, t, binding, r.history);
    PartPair(c, t, binding);
    EvalGoes(c, open, s.init, r, a);
    var v := Eval(s.init, r, a);
    GoneOn(c, open, t, binding, r.history, v.run.history);
    if s.kind == Var && s.init != NoExpr {
      StoreGone(c, open, s.sym, DeclarationSite(s.id, true), v.value, v.run, a, binding);
    }
  }

  lemma {:induction false} IfGoes(c: Scene, open: set<Scope>, s: Stmt, labels: set<string>, r: Run, a: Activation, fuel: nat)
    requires s.If? && Begun(c, open, s, r, a)
    ensures Gone(c, open, Positions.Inside(s, a.fn), r.history, Exec(s, labels, r, a, fuel).run.history)
    decreases fuel, s, 0
  {
    hide Part, Eval;
    var t1, t2, t3 := ExprTokens(s.test, a.fn), StmtTokens(s.yes, a.fn), StmtTokens(s.no, a.fn);
    var r1 := Eval(s.test, r, a).run;
    ReadyFirst(c, open, t1 + t2, t3, r.history);
    PartPair(c, t1 + t2, t3);
    PartPair(c, t1, t2);
    EvalGoes(c, open, s.test, r, a);
    GoneOn(c, open, t1, t2, r.history, r1.history);
    GoneOn(c, open, t1 + t2, t3, r.history, r1.history);
    ExecGoes(c, open, s.yes, {}, r1, a, fuel);
    ExecGoes(c, open, s.no, {}, r1, a, fuel);
  }

  lemma {:induction false} WhileGoes(c: Scene, open: set<Scope>, s: Stmt, labels: set<string>, r: Run, a: Activation, fuel: nat)
    requires s.While? && Begun(c, open, s, r, a)
    ensures Gone(c, open, Positions.Inside(s, a.fn), r.history, Exec(s, labels, r, a, fuel).run.history)
    decreases fuel, s, 0
  {
    hide Part, Eval;
    var ts, t1, t2 := Positions.Inside(s, a.fn), ExprTokens(s.test, a.fn), StmtTokens(s.body, a.fn);
    PartPair(c, t1, t2);
    CalmOn(c, open, t1, ts, r.history);
    if fuel > 0 {
      EvalGoes(c, open, s.test, r, a);
      var t := Eval(s.test, r, a);
      CalmOn(c, open, t2, ts, t.run.history);
      ExecGoes(c, open, s.body, {}, t.run, a, fuel);
      var o := Exec(s.body, {}, t.run, a, fuel);
      WhileGoes(c, open, s, labels, o.run, a, fuel - 1);
    }
  }

  lemma {:induction false} DoWhileGoes(c: Scene, open: set<Scope>, s: Stmt, labels: set<string>, r: Run, a: Activation, fuel: nat)
    requires s.DoWhile? && Begun(c, open, s, r, a)
    ensures Gone(c, open, Positions.Inside(s, a.fn), r.history, Exec(s, labels, r, a, fuel).run.history)
    decreases fuel, s, 0
  {
    hide Part, Eval;
    var ts, t1, t2 := Positions.Inside(s, a.fn), StmtTokens(s.body, a.fn), ExprTokens(s.test, a.fn);
    PartPair(c, t1, t2);
    CalmOn(c, open, t1, ts, r.history);
    if fuel > 0 {
      ExecGoes(c, open, s.body, {}, r, a, fuel);
      var o := Exec(s.body, {}, r, a, fuel);
      CalmOn(c, open, t2, ts, o.run.history);
      EvalGoes(c, open, s.test, o.run, a);
      DoWhileGoes(c, open, s, labels, Eval(s.test, o.run, a).run, a, fuel - 1);
    }
  }

  lemma {:induction false} TryGoes(c: Scene, open: set<Scope>, s: Stmt, labels: set<string>, r: Run, a: Activation, fuel: nat)
    requires s.Try? && Begun(c, open, s, r, a)
    ensures Gone(c, open, Positions.Inside(s, a.fn), r.history, Exec(s, labels, r, a, fuel).run.history)
    decreases fuel, s, 1
  {
    hide Part;
    var t1, t2 := StmtTokens(s.block, a.fn), if s.handler.Catch? then StmtTokens(s.handler.body, a.fn) else [];
    var t3 := if s.finalizer.Finally? then StmtTokens(s.finalizer.body, a.fn) else [];
    ReadyFirst(c, open, t1 + t2, t3, r.history);
    PartPair(c, t1 + t2, t3);
    GuardedGoes(c, open, s, r, a, fuel);
    var o := ExecGuarded(s, r, a, fuel);
    GoneOn(c, open, t1 + t2, t3, r.history, o.run.history);
    if s.finalizer.Finally? {
      ExecGoes(c, open, s.finalizer.body, {}, o.run, a, fuel);
      ExecGoes(c, open, s.finalizer.body, {}, Emit(o.run, FinallyAbrupt(s, r.history)), a, fuel);
    }
  }

  lemma {:induction false} GuardedGoes(c: Scene, open: set<Scope>, s: Stmt, r: Run, a: Activation, fuel: nat)
    requires s.Try? && Home(c, a) && Encloses(c, s) && Scoped(s, open, a.fn) && Regular(c, open, s, a.fn)
    requires var ts := StmtTokens(s.block, a.fn) + (if s.handler.Catch? then StmtTokens(s.handler.body, a.fn) else []);
      Part(c, ts) && Ready(c, open, ts, r.history)
    ensures var ts := StmtTokens(s.block, a.fn) + (if s.handler.Catch? then StmtTokens(s.handler.body, a.fn) else []);
      Gone(c, open, ts, r.history, ExecGuarded(s, r, a, fuel).run.history)
    decreases fuel, s, 0
  {
    hide Part;
    var t1, t2 := StmtTokens(s.block, a.fn), if s.handler.Catch? then StmtTokens(s.handler.body, a.fn) else [];
    ReadyFirst(c, open, t1, t2, r.history);
    PartPair(c, t1, t2);
    ExecGoes(c, open, s.block, {}, r, a, fuel);
    var o := Exec(s.block, {}, r, a, fuel);
    GoneOn(c, open, t1, t2, r.history, o.run.history);
    if s.handler.Catch? {
      var r0 := Emit(o.run, Caught(r.history));
      EnterReady(c, open, s.handler.scope, t2, r0, a);
      ExecGoes(c, open + {s.handler.scope}, s.handler.body, {}, EnterScope(r0, s.handler.scope, a), a, fuel);
    }
  }

  // A round of a for loop begins: a closure is there only if none of the loop's assignments is still to come.
  ghost predicate Steady(c: Scene, open: set<Scope>, s: Stmt, ts: seq<Token>, h: History)
    requires s.For?
  {
    Unassigned(c, h) && if s.scope == c.x.scope then !Captured(c, h) else Calm(c, open, ts) && Ready(c, open, ts, h)
  }

  lemma {:induction false} ForGoes(c: Scene, open: set<Scope>, s: Stmt, labels: set<string>, r: Run, a: Activation, fuel: nat)
    requires s.For? && Begun(c, open, s, r, a)
    ensures Gone(c, open, Positions.Inside(s, a.fn), r.history, Exec(s, labels, r, a, fuel).run.history)
    decreases fuel, s, 1
  {
    hide Part;
    var inner := open + {s.scope};
    var ts, t1 := Positions.Inside(s, a.fn), StmtTokens(s.start, a.fn);
    var t2, t3, t4 := ExprTokens(s.test, a.fn), StmtTokens(s.body, a.fn), ExprTokens(s.update, a.fn);
    PartPair(c, t1 + t2 + t3, t4);
    PartPair(c, t1 + t2, t3);
    PartPair(c, t1, t2);
    EnterReady(c, open, s.scope, ts, r, a);
    var r1 := EnterScope(r, s.scope, a);
    ExecGoes(c, inner, s.start, {}, r1, a, fuel);
    var o := Exec(s.start, {}, r1, a, fuel);
    if s.scope != c.x.scope { CalmOn(c, inner, t1, ts, r1.history); }
    var r2 := Emit(o.run, Renew(s.scope));
    assert Steady(c, inner, s, ts, r2.history);
    ForRoundsGo(c, inner, s, labels, ts, r2, a, fuel);
  }

  lemma {:induction false} ForRoundsGo(c: Scene, open: set<Scope>, s: Stmt, labels: set<string>, ts: seq<Token>, r: Run, a: Activation, fuel: nat)
    requires s.For? && Home(c, a) && Encloses(c, s) && ts == Positions.Inside(s, a.fn) && Part(c, ts)
    requires ScopedExpr(s.test, open, a.fn) && ScopedExpr(s.update, open, a.fn) && Scoped(s.body, open, a.fn)
    requires Regular(c, open, s.body, a.fn) && (s.scope == c.x.scope ==> c.ref() !in ExprTokens(s.update, a.fn))
    requires s.scope in open && Steady(c, open, s, ts, r.history)
    ensures Gone(c, open, ts, r.history, ForRounds(s, labels, r, a, fuel).run.history)
    decreases fuel, s, 0
  {
    hide Part, Eval, Exec;
    var t1, t2, t3, t4 := StmtTokens(s.start, a.fn), ExprTokens(s.test, a.fn), StmtTokens(s.body, a.fn), ExprTokens(s.update, a.fn);
    PartPair(c, t1 + t2 + t3, t4);
    PartPair(c, t1 + t2, t3);
    PartPair(c, t1, t2);
    if fuel > 0 {
      EvalGoes(c, open, s.test, r, a);
      var t := Eval(s.test, r, a);
      ExecGoes(c, open, s.body, {}, t.run, a, fuel);
      var o := Exec(s.body, {}, t.run, a, fuel);
      var r1 := Emit(o.run, Renew(s.scope));
      EvalGoes(c, open, s.update, r1, a);
      var u := Eval(s.update, r1, a);
      assert Steady(c, open, s, ts, u.run.history);
      ForRoundsGo(c, open, s, labels, ts, u.run, a, fuel - 1);
    }
  }

  lemma {:induction false} ForOfGoes(c: Scene, open: set<Scope>, s: Stmt, labels: set<string>, r: Run, a: Activation, fuel: nat)
    requires s.ForOf? && Begun(c, open, s, r, a)
    ensures Gone(c, open, Positions.Inside(s, a.fn), r.history, Exec(s, labels, r, a, fuel).run.history)
    decreases fuel, s, 1
  {
    hide Part, Eval;
    var t1, t2 := ExprTokens(s.subject, a.fn), [if s.kind != Var then Init(s.sym) else Set(s.sym)];
    PartPair(c, t1 + t2, StmtTokens(s.body, a.fn));
    PartPair(c, t1, t2);
    CalmOn(c, open, t1, Positions.Inside(s, a.fn), r.history);
    EvalGoes(c, open, s.subject, r, a);
    ForOfRoundsGo(c, open, s, labels, Eval(s.subject, r, a).run, a, fuel);
  }

  lemma {:induction false} ForOfRoundsGo(c: Scene, open: set<Scope>, s: Stmt, labels: set<string>, r: Run, a: Activation, fuel: nat)
    requires s.ForOf? && Begun(c, open, s, r, a)
    ensures Gone(c, open, Positions.Inside(s, a.fn), r.history, ForOfRounds(s, labels, r, a, fuel).run.history)
    decreases fuel, s, 0
  {
    hide Part, Ask, ForOfRound;
    var ts, t1 := Positions.Inside(s, a.fn), ExprTokens(s.subject, a.fn);
    var t2 := [if s.kind != Var then Init(s.sym) else Set(s.sym)] + StmtTokens(s.body, a.fn);
    assert ts == t1 + t2;
    PartPair(c, t1, t2);
    CalmOn(c, open, t2, ts, r.history);
    if fuel > 0 {
      AskOnward(c, r, a);
      var q := Ask(r, a);
      CalmOn(c, open, t2, ts, q.run.history);
      EnterReady(c, open, s.scope, t2, q.run, a);
      ForOfRoundGoes(c, open, s, q.value, EnterScope(q.run, s.scope, a), a, fuel);
      var o := Leave(ForOfRound(s, q.value, EnterScope(q.run, s.scope, a), a, fuel), s.scope);
      AskOnward(c, o.run, a);
      ForOfRoundsGo(c, open, s, labels, o.run, a, fuel - 1);
    }
  }

  lemma {:induction false} ForOfRoundGoes(c: Scene, open: set<Scope>, s: Stmt, v: Value, r: Run, a: Activation, fuel: nat)
    requires s.ForOf? && Home(c, a) && Encloses(c, s) && Scoped(s, open, a.fn) && Regular(c, open, s, a.fn)
    requires var ts := [if s.kind != Var then Init(s.sym) else Set(s.sym)] + StmtTokens(s.body, a.fn);
      Part(c, ts) && Ready(c, open + {s.scope}, ts, r.history)
    ensures var ts := [if s.kind != Var then Init(s.sym) else Set(s.sym)] + StmtTokens(s.body, a.fn);
      Gone(c, open + {s.scope}, ts, r.history, ForOfRound(s, v, r, a, fuel).run.history)
    decreases fuel, s.body, 4
  {
    hide Part, Exec;
    var inner := open + {s.scope};
    var binding := [if s.kind != Var then Init(s.sym) else Set(s.sym)];
    var t := StmtTokens(s.body, a.fn);
    ReadyFirst(c, inner, binding, t, r.history);
    PartPair(c, binding, t);
    var o := Initialize(s.sym, OtherSite, true, v, r, a);
    var w := StoreTo(s.sym, OtherSite, v, r, a);
    if s.kind != Var {
      GoneOn(c, inner, binding, t, r.history, o.run.history);
      ExecGoes(c, inner, s.body, {}, o.run, a, fuel);
    } else {
      StoreGone(c, inner, s.sym, OtherSite, v, r, a, binding);
      GoneOn(c, inner, binding, t, r.history, w.run.history);
      ExecGoes(c, inner, s.body, {}, w.run, a, fuel);
    }
  }

  lemma {:induction false} SwitchGoes(c: Scene, open: set<Scope>, s: Stmt, labels: set<string>, r: Run, a: Activation, fuel: nat)
    requires s.Switch? && Begun(c, open, s, r, a)
    ensures Gone(c, open, Positions.Inside(s, a.fn), r.history, Exec(s, labels, r, a, fuel).run.history)
    decreases fuel, s, 0
  {
    hide Part, Eval, Select, ExecFrom;
    var inner := open + {s.scope};
    var own := s.scope == c.x.scope;
    var ts, t1, t2 := Positions.Inside(s, a.fn), ExprTokens(s.discriminant, a.fn), CasesTokens(s.cases, a.fn);
    PartPair(c, t1, t2);
    CalmOn(c, open, t1, ts, r.history);
    EvalGoes(c, open, s.discriminant, r, a);
    var d := Eval(s.discriminant, r, a);
    CalmOn(c, open, t2, ts, d.run.history);
    EnterReady(c, open, s.scope, t2, d.run, a);
    var r1 := EnterScope(d.run, s.scope, a);
    SelectGoes(c, inner, own, s.cases, 0, d.value, r1, a);
    var sel := Select(s.cases, 0, d.value, r1, a);
    FromGoes(c, inner, own, s.cases, if sel.found then sel.clause else DefaultClause(s.cases), sel.run, a, fuel);
  }

  ghost predicate CasesEnclose(c: Scene, cases: Cases) {
    forall b :: CasesHave(c.f, b, cases) ==> c.ref() in StmtTokens(b, c.f)
  }

  // The case tests: in the switch that declares x, none creates the closure.
  lemma {:induction false} SelectGoes(c: Scene, open: set<Scope>, own: bool, cases: Cases, clause: nat, v: Value, r: Run, a: Activation)
    requires Home(c, a) && CasesEnclose(c, cases) && ScopedCases(cases, open, a.fn) && RegularCases(c, open, own, cases, a.fn)
    requires var ts := CasesTokens(cases, a.fn);
      Part(c, ts) && Ready(c, open, ts, r.history) && if own then c.x.scope in open && !Captured(c, r.history) else Calm(c, open, ts)
    ensures var ts, k := CasesTokens(cases, a.fn), Select(cases, clause, v, r, a).run.history;
      Ready(c, open, ts, k) && Gone(c, open, ts, r.history, k) && (own ==> !Captured(c, k))
    decreases cases
  {
    hide Part, Eval;
    if cases.Case? {
      var ts, t1, t2, t3 := CasesTokens(cases, a.fn), ExprTokens(cases.test, a.fn), StmtTokens(cases.body, a.fn), CasesTokens(cases.rest, a.fn);
      PartPair(c, t1 + t2, t3);
      PartPair(c, t1, t2);
      if !own {
        CalmOn(c, open, t1, ts, r.history);
        CalmOn(c, open, t3, ts, r.history);
      }
      if cases.test == NoExpr {
        SelectGoes(c, open, own, cases.rest, clause + 1, v, r, a);
      } else {
        EvalGoes(c, open, cases.test, r, a);
        var r1 := Eval(cases.test, r, a).run;
        if !own { CalmOn(c, open, t3, ts, r1.history); }
        SelectGoes(c, open, own, cases.rest, clause + 1, v, r1, a);
      }
    }
  }

  lemma {:induction false} FromGoes(c: Scene, open: set<Scope>, own: bool, cases: Cases, k: nat, r: Run, a: Activation, fuel: nat)
    requires Home(c, a) && CasesEnclose(c, cases) && ScopedCases(cases, open, a.fn) && RegularCases(c, open, own, cases, a.fn)
    requires Part(c, CasesTokens(cases, a.fn)) && Ready(c, open, CasesTokens(cases, a.fn), r.history)
    ensures Gone(c, open, CasesTokens(cases, a.fn), r.history, ExecFrom(cases, k, r, a, fuel).run.history)
    decreases fuel, cases, 4
  {
    hide Part, Exec;
    if cases.Case? {
      var t1, t2, t3 := ExprTokens(cases.test, a.fn), StmtTokens(cases.body, a.fn), CasesTokens(cases.rest, a.fn);
      ReadyFirst(c, open, t1 + t2, t3, r.history);
      PartPair(c, t1 + t2, t3);
      PartPair(c, t1, t2);
      if k > 0 {
        FromGoes(c, open, own, cases.rest, k - 1, r, a, fuel);
      } else {
        ExecGoes(c, open, cases.body, {}, r, a, fuel);
        var o := Exec(cases.body, {}, r, a, fuel);
        GoneOn(c, open, t1 + t2, t3, r.history, o.run.history);
        FromGoes(c, open, own, cases.rest, 0, o.run, a, fuel);
      }
    }
  }
}
