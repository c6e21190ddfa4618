// What the binder's answer means for the runs of a program: where a closure sees a binding narrowed as at
// its creation, nothing is assigned to the binding after that.
module ClosureNarrowing {
  import opened Syntax
  import opened Semantics
  import opened Positions
  import opened Extents
  import opened Scoping
  import opened Programs
  import opened Narrowing
  import Soundness

  // ----- a function's tokens in its program's -----

  ghost predicate Holds(all: seq<Token>, ts: seq<Token>) {
    exists p, q :: Splits(all, p, ts, q)
  }

  lemma HoldsPair(a: seq<Token>, b: seq<Token>, ts: seq<Token>)
    requires Holds(a, ts) || Holds(b, ts)
    ensures Holds(a + b, ts)
  {
    if Holds(a, ts) {
      var p, q :| Splits(a, p, ts, q);
      assert Splits(a + b, p, ts, q + b);
    } else {
      var p, q :| Splits(b, p, ts, q);
      assert Splits(a + b, a + p, ts, q);
    }
  }

  lemma HoldsItself(ts: seq<Token>)
    ensures Holds(ts, ts)
  {
    assert Splits(ts, [], ts, []);
  }

  lemma HoldsOne(a: seq<Token>, b: seq<Token>, d: seq<Token>, ts: seq<Token>)
    requires Holds(a, ts) || Holds(b, ts) || Holds(d, ts)
    ensures Holds(a + b + d, ts)
  {
    if Holds(d, ts) {
      HoldsPair(a + b, d, ts);
    } else {
      HoldsPair(a, b, ts);
      HoldsPair(a + b, d, ts);
    }
  }

  lemma {:induction false} ExprHolds(fn: Scope, body: Stmt, e: Expr, outer: Scope, ts: seq<Token>)
    requires ExprHas(fn, body, e) && ts == StmtTokens(body, fn)
    ensures Holds(ExprTokens(e, outer), ts)
    decreases e, 3
  {
    hide Holds, StmtTokens, ExprTokens;
    match e
    case Not(_) => OperandHolds(fn, body, e, e.arg, outer, ts);
    case TypeOf(_) => OperandHolds(fn, body, e, e.arg, outer, ts);
    case Binary(_, l, r) => OperandsHold(fn, body, e, l, r, outer, ts);
    case Logical(_, l, r) => OperandsHold(fn, body, e, l, r, outer, ts);
    case Conditional(_, _, _) => ConditionalHolds(fn, body, e, outer, ts);
    case Assign(_, _, _, _) => AssignHolds(fn, body, e, outer, ts);
    case Member(o) => OperandHolds(fn, body, e, o, outer, ts);
    case SetMember(_, _) => SetMemberHolds(fn, body, e, outer, ts);
    case Call(c, a) => OperandsHold(fn, body, e, c, a, outer, ts);
    case Comma(l, r) => OperandsHold(fn, body, e, l, r, outer, ts);
    case Opaque(a) => OperandHolds(fn, body, e, a, outer, ts);
    case Closure(_, _) => ClosureHolds(fn, body, e, outer, ts);
  }

  lemma {:induction false} OperandHolds(fn: Scope, body: Stmt, e: Expr, arg: Expr, outer: Scope, ts: seq<Token>)
    requires ((e.Not? || e.TypeOf? || e.Opaque?) && arg == e.arg) || (e.Member? && arg == e.base)
    requires ExprHas(fn, body, arg) && ts == StmtTokens(body, fn)
    ensures Holds(ExprTokens(e, outer), ts)
    decreases e, 0
  {
    hide Holds, StmtTokens, ExprHas;
    ExprHolds(fn, body, arg, outer, ts);
    HoldsPair([Tick], ExprTokens(arg, outer), ts);
  }

  lemma {:induction false} OperandsHold(fn: Scope, body: Stmt, e: Expr, l: Expr, r: Expr, outer: Scope, ts: seq<Token>)
    requires ((e.Binary? || e.Logical?) && l == e.left && r == e.right) || e == Call(l, r) || e == Comma(l, r)
    requires (ExprHas(fn, body, l) || ExprHas(fn, body, r)) && ts == StmtTokens(body, fn)
    ensures Holds(ExprTokens(e, outer), ts)
    decreases e, 0
  {
    hide Holds, StmtTokens, ExprHas;
    if ExprHas(fn, body, l) { ExprHolds(fn, body, l, outer, ts); } else { ExprHolds(fn, body, r, outer, ts); }
    HoldsOne([Tick], ExprTokens(l, outer), ExprTokens(r, outer), ts);
  }

  lemma {:induction false} ConditionalHolds(fn: Scope, body: Stmt, e: Expr, outer: Scope, ts: seq<Token>)
    requires e.Conditional? && ExprHas(fn, body, e) && ts == StmtTokens(body, fn)
    ensures Holds(ExprTokens(e, outer), ts)
    decreases e, 0
  {
    hide Holds, StmtTokens;
    var t, y, n := ExprTokens(e.test, outer), ExprTokens(e.yes, outer), ExprTokens(e.no, outer);
    if ExprHas(fn, body, e.test) { ExprHolds(fn, body, e.test, outer, ts); }
    else if ExprHas(fn, body, e.yes) { ExprHolds(fn, body, e.yes, outer, ts); }
    else { ExprHolds(fn, body, e.no, outer, ts); }
    if Holds(t, ts) || Holds(y, ts) { HoldsOne([Tick], t, y, ts); }
    HoldsPair([Tick] + t + y, n, ts);
  }

  lemma {:induction false} AssignHolds(fn: Scope, body: Stmt, e: Expr, outer: Scope, ts: seq<Token>)
    requires e.Assign? && ExprHas(fn, body, e) && ts == StmtTokens(body, fn)
    ensures Holds(ExprTokens(e, outer), ts)
    decreases e, 0
  {
    hide Holds, StmtTokens;
    ExprHolds(fn, body, e.right, outer, ts);
    HoldsOne([Tick], ExprTokens(e.right, outer), [Tick, Ref(e.id, e.sym), Set(e.sym)], ts);
    HoldsOne([Tick, Tick, Ref(e.id, e.sym)], ExprTokens(e.right, outer), [Set(e.sym)], ts);
  }

  lemma {:induction false} SetMemberHolds(fn: Scope, body: Stmt, e: Expr, outer: Scope, ts: seq<Token>)
    requires e.SetMember? && ExprHas(fn, body, e) && ts == StmtTokens(body, fn)
    ensures Holds(ExprTokens(e, outer), ts)
    decreases e, 0
  {
    hide Holds, StmtTokens;
    if ExprHas(fn, body, e.base) { ExprHolds(fn, body, e.base, outer, ts); } else { ExprHolds(fn, body, e.right, outer, ts); }
    HoldsOne([Tick, Tick], ExprTokens(e.base, outer), ExprTokens(e.right, outer), ts);
  }

  lemma {:induction false} ClosureHolds(fn: Scope, body: Stmt, e: Expr, outer: Scope, ts: seq<Token>)
    requires e.Closure? && ExprHas(fn, body, e) && ts == StmtTokens(body, fn)
    ensures Holds(ExprTokens(e, outer), ts)
    decreases e, 0
  {
    hide Holds, StmtTokens;
    if e.fn == fn && e.body == body { HoldsItself(ts); } else { StmtHolds(fn, body, e.body, e.fn, ts); }
    HoldsOne([Tick, In(e.fn)], StmtTokens(e.body, e.fn), [Back(outer)], ts);
  }

  lemma {:induction false} StmtHolds(fn: Scope, body: Stmt, s: Stmt, outer: Scope, ts: seq<Token>)
    requires StmtHas(fn, body, s) && ts == StmtTokens(body, fn)
    ensures Holds(StmtTokens(s, outer), ts)
    decreases s, 3
  {
    hide Holds, StmtTokens, ExprHas;
    match s
    case Empty =>
    case Break(_) =>
    case Continue(_) =>
    case Then(_, _) => ThenHolds(fn, body, s, outer, ts);
    case Block(_, inner) => BodyHolds(fn, body, s, inner, outer, ts);
    case Labeled(_, inner) => BodyHolds(fn, body, s, inner, outer, ts);
    case Return(e) => ValueHolds(fn, body, s, e, outer, ts);
    case Throw(e) => ValueHolds(fn, body, s, e, outer, ts);
    case _ => FrameHolds(fn, body, s, outer, ts);
  }

  lemma {:induction false} BodyHolds(fn: Scope, body: Stmt, s: Stmt, inner: Stmt, outer: Scope, ts: seq<Token>)
    requires (s.Block? || s.Labeled?) && inner == s.body && StmtHas(fn, body, inner) && ts == StmtTokens(body, fn)
    ensures Holds(StmtTokens(s, outer), ts)
    decreases s, 0
  {
    hide Holds, StmtHas;
    StmtHolds(fn, body, inner, outer, ts);
    HoldsPair([Tick], StmtTokens(inner, outer), ts);
  }

  lemma {:induction false} ValueHolds(fn: Scope, body: Stmt, s: Stmt, e: Expr, outer: Scope, ts: seq<Token>)
    requires (s.Return? || s.Throw?) && e == s.expr && ExprHas(fn, body, e) && ts == StmtTokens(body, fn)
    ensures Holds(StmtTokens(s, outer), ts)
    decreases s, 0
  {
    hide Holds, ExprTokens, ExprHas;
    ExprHolds(fn, body, e, outer, ts);
    HoldsPair([Tick], ExprTokens(e, outer), ts);
  }

  lemma {:induction false} ThenHolds(fn: Scope, body: Stmt, s: Stmt, outer: Scope, ts: seq<Token>)
    requires s.Then? && StmtHas(fn, body, s) && ts == StmtTokens(body, fn)
    ensures Holds(StmtTokens(s, outer), ts)
    decreases s, 0
  {
    hide Holds;
    if StmtHas(fn, body, s.first) { StmtHolds(fn, body, s.first, outer, ts); } else { StmtHolds(fn, body, s.rest, outer, ts); }
    HoldsPair(StmtTokens(s.first, outer), StmtTokens(s.rest, outer), ts);
  }

  lemma {:induction false} FrameHolds(fn: Scope, body: Stmt, s: Stmt, outer: Scope, ts: seq<Token>)
    requires ExtendsAssignments(s) && StmtHas(fn, body, s) && ts == StmtTokens(body, fn)
    ensures Holds(StmtTokens(s, outer), ts)
    decreases s, 2
  {
    hide Holds, Inside, StmtHas;
    InsideHolds(fn, body, s, outer, ts);
    HoldsOne([Tick, Open], Inside(s, outer), [Close], ts);
  }

  lemma {:induction false} InsideHolds(fn: Scope, body: Stmt, s: Stmt, outer: Scope, ts: seq<Token>)
    requires ExtendsAssignments(s) && StmtHas(fn, body, s) && ts == StmtTokens(body, fn)
    ensures Holds(Inside(s, outer), ts)
    decreases s, 1
  {
    hide Holds, StmtTokens, ExprTokens;
    match s
    case Declare(_, _, _, _) => DeclareHolds(fn, body, s, outer, ts);
    case Evaluate(e) => ExprHolds(fn, body, e, outer, ts);
    case If(_, _, _) => IfHolds(fn, body, s, outer, ts);
    case While(_, _) => WhileHolds(fn, body, s, outer, ts);
    case DoWhile(_, _) => WhileHolds(fn, body, s, outer, ts);
    case For(_, _, _, _, _) => ForHolds(fn, body, s, outer, ts);
    case ForOf(_, _, _, _, _) => ForOfHolds(fn, body, s, outer, ts);
    case Switch(_, _, _) => SwitchHolds(fn, body, s, outer, ts);
    case Try(_, _, _, _) => TryHolds(fn, body, s, outer, ts);
  }

  lemma {:induction false} DeclareHolds(fn: Scope, body: Stmt, s: Stmt, outer: Scope, ts: seq<Token>)
    requires s.Declare? && StmtHas(fn, body, s) && ts == StmtTokens(body, fn)
    ensures Holds(Inside(s, outer), ts)
    decreases s, 0
  {
    hide Holds, StmtTokens, ExprTokens;
    ExprHolds(fn, body, s.init, outer, ts);
    HoldsPair(ExprTokens(s.init, outer), if s.kind != Var then [Init(s.sym)] else if s.init != NoExpr then [Set(s.sym)] else [], ts);
  }

  lemma {:induction false} IfHolds(fn: Scope, body: Stmt, s: Stmt, outer: Scope, ts: seq<Token>)
    requires s.If? && StmtHas(fn, body, s) && ts == StmtTokens(body, fn)
    ensures Holds(Inside(s, outer), ts)
    decreases s, 0
  {
    hide Holds, StmtTokens, ExprTokens;
    if ExprHas(fn, body, s.test) { ExprHolds(fn, body, s.test, outer, ts); }
    else if StmtHas(fn, body, s.yes) { StmtHolds(fn, body, s.yes, outer, ts); }
    else { StmtHolds(fn, body, s.no, outer, ts); }
    HoldsOne(ExprTokens(s.test, outer), StmtTokens(s.yes, outer), StmtTokens(s.no, outer), ts);
  }

  lemma {:induction false} WhileHolds(fn: Scope, body: Stmt, s: Stmt, outer: Scope, ts: seq<Token>)
    requires (s.While? || s.DoWhile?) && StmtHas(fn, body, s) && ts == StmtTokens(body, fn)
    ensures Holds(Inside(s, outer), ts)
    decreases s, 0
  {
    hide Holds, StmtTokens, ExprTokens;
    if ExprHas(fn, body, s.test) { ExprHolds(fn, body, s.test, outer, ts); } else { StmtHolds(fn, body, s.body, outer, ts); }
    HoldsPair(ExprTokens(s.test, outer), StmtTokens(s.body, outer), ts);
    HoldsPair(StmtTokens(s.body, outer), ExprTokens(s.test, outer), ts);
  }

  lemma {:induction false} ForHolds(fn: Scope, body: Stmt, s: Stmt, outer: Scope, ts: seq<Token>)
    requires s.For? && StmtHas(fn, body, s) && ts == StmtTokens(body, fn)
    ensures Holds(Inside(s, outer), ts)
    decreases s, 0
  {
    hide Holds, StmtTokens, ExprTokens;
    var t1, t2, t3, t4 := StmtTokens(s.start, outer), ExprTokens(s.test, outer), StmtTokens(s.body, outer), ExprTokens(s.update, outer);
    if StmtHas(fn, body, s.start) { StmtHolds(fn, body, s.start, outer, ts); }
    else if ExprHas(fn, body, s.test) { ExprHolds(fn, body, s.test, outer, ts); }
    else if ExprHas(fn, body, s.update) { ExprHolds(fn, body, s.update, outer, ts); }
    else { StmtHolds(fn, body, s.body, outer, ts); }
    if !Holds(t4, ts) { HoldsOne(t1, t2, t3, ts); }
    HoldsPair(t1 + t2 + t3, t4, ts);
  }

  lemma {:induction false} ForOfHolds(fn: Scope, body: Stmt, s: Stmt, outer: Scope, ts: seq<Token>)
    requires s.ForOf? && StmtHas(fn, body, s) && ts == StmtTokens(body, fn)
    ensures Holds(Inside(s, outer), ts)
    decreases s, 0
  {
    hide Holds, StmtTokens, ExprTokens;
    if ExprHas(fn, body, s.subject) { ExprHolds(fn, body, s.subject, outer, ts); } else { StmtHolds(fn, body, s.body, outer, ts); }
    HoldsOne(ExprTokens(s.subject, outer), [if s.kind != Var then Init(s.sym) else Set(s.sym)], StmtTokens(s.body, outer), ts);
  }

  lemma {:induction false} SwitchHolds(fn: Scope, body: Stmt, s: Stmt, outer: Scope, ts: seq<Token>)
    requires s.Switch? && StmtHas(fn, body, s) && ts == StmtTokens(body, fn)
    ensures Holds(Inside(s, outer), ts)
    decreases s, 0
  {
    hide Holds, StmtTokens, ExprTokens, CasesTokens;
    if ExprHas(fn, body, s.discriminant) { ExprHolds(fn, body, s.discriminant, outer, ts); } else { CasesHold(fn, body, s.cases, outer, ts); }
    HoldsPair(ExprTokens(s.discriminant, outer), CasesTokens(s.cases, outer), ts);
  }

  lemma {:induction false} TryHolds(fn: Scope, body: Stmt, s: Stmt, outer: Scope, ts: seq<Token>)
    requires s.Try? && StmtHas(fn, body, s) && ts == StmtTokens(body, fn)
    ensures Holds(Inside(s, outer), ts)
    decreases s, 0
  {
    hide Holds, StmtTokens, ExprTokens;
    if StmtHas(fn, body, s.block) { StmtHolds(fn, body, s.block, outer, ts); }
    else if s.handler.Catch? && StmtHas(fn, body, s.handler.body) { StmtHolds(fn, body, s.handler.body, outer, ts); }
    else { StmtHolds(fn, body, s.finalizer.body, outer, ts); }
    HoldsOne(StmtTokens(s.block, outer), if s.handler.Catch? then StmtTokens(s.handler.body, outer) else [],
      if s.finalizer.Finally? then StmtTokens(s.finalizer.body, outer) else [], ts);
  }

  lemma {:induction false} CasesHold(fn: Scope, body: Stmt, cases: Cases, outer: Scope, ts: seq<Token>)
    requires CasesHave(fn, body, cases) && ts == StmtTokens(body, fn)
    ensures Holds(CasesTokens(cases, outer), ts)
    decreases cases
  {
    hide Holds, StmtTokens, ExprTokens;
    if ExprHas(fn, body, cases.test) { ExprHolds(fn, body, cases.test, outer, ts); }
    else if StmtHas(fn, body, cases.body) { StmtHolds(fn, body, cases.body, outer, ts); }
    else { CasesHold(fn, body, cases.rest, outer, ts); }
    HoldsOne(ExprTokens(cases.test, outer), StmtTokens(cases.body, outer), CasesTokens(cases.rest, outer), ts);
  }

  // ----- the position recorded for a reference -----

  lemma {:induction false} RecordedAt(ts: seq<Token>, st: Numbering, r: Reference) returns (p: seq<Token>, q: seq<Token>)
    requires r in Steps(ts, st).refs && r !in st.refs
    ensures ts == p + [Ref(r.id, r.sym)] + q && Steps(p, st).ord == r.pos
    decreases |ts|
  {
    var st1 := Step(ts[0], st);
    if r in st1.refs {
      p, q := [], ts[1..];
    } else {
      p, q := RecordedAt(ts[1..], st1, r);
      p := [ts[0]] + p;
      assert p[0] == ts[0] && p[1..] + [Ref(r.id, r.sym)] + q == ts[1..];
    }
  }

  // ----- the theorem -----

  // Some other function assigns to y.
  ghost predicate AssignedElsewhere(ts: seq<Token>, y: Symbol) {
    exists p, q :: Splits(ts, p, [Set(y)], q) && Steps(p, Unnumbered).fn != ContainerOf(y.scope)
  }

  // The reference, of a binding the function fn declares, is the only one with its identifier, it is in
  // closure f, and the binder says it sees the binding narrowed as at f's creation.
  ghost predicate SeenNarrowed(program: Stmt, fn: Scope, body: Stmt, c: Scene, r: Reference, exported: set<Symbol>, script: bool) {
    var st := Steps(ProgramTokens(program), Unnumbered);
    && Soundness.IsFunction(program, fn, body) && fn == ContainerOf(c.x.scope) && Scoped(body, {fn}, fn)
    && c.all() == ProgramTokens(program) && c.ref() !in c.before && c.ref() !in c.after
    && Encloses(c, body) && Regular(c, {fn}, body, fn)
    && r in st.refs && r.id == c.id && r.sym == c.x
    && Narrows(st, r, exported, script)
  }

  // In no run of the function is anything assigned to the binding once the closure is created, until the
  // binding itself is made anew.
  lemma ClosureNarrowsSound(program: Stmt, fn: Scope, body: Stmt, a: Activation, fuel: nat, c: Scene, r: Reference, exported: set<Symbol>, script: bool)
    requires SeenNarrowed(program, fn, body, c, r, exported, script) && NotAssignedFrom(Steps(ProgramTokens(program), Unnumbered), r)
    requires a.fn == fn && forall y :: y in a.foreign ==> AssignedElsewhere(ProgramTokens(program), y)
    ensures Unassigned(c, Execute(body, a, fuel).run.history)
  {
    BinderAccepts(program, fn, body, c, r, exported, script);
    BodyPart(program, fn, body, c);
    if c.x in a.foreign {
      var p, q :| Splits(c.all(), p, [Set(c.x)], q) && Steps(p, Unnumbered).fn != ContainerOf(c.x.scope);
      AllClosed(c);
      SetBefore(p, c.x, q, Unnumbered, r.pos);
      assert false;
    }
    hide Part, Accepted, Regular, Encloses, Scoped;
    ExecGoes(c, {fn}, body, {}, Run(Begin, 0), a, fuel);
  }

  lemma BinderAccepts(program: Stmt, fn: Scope, body: Stmt, c: Scene, r: Reference, exported: set<Symbol>, script: bool)
    requires SeenNarrowed(program, fn, body, c, r, exported, script) && NotAssignedFrom(Steps(ProgramTokens(program), Unnumbered), r)
    ensures Accepted(c) && Steps(c.before, Unnumbered).ord == r.pos
  {
    StmtBalanced(program, ModuleScope);
    var p, q := RecordedAt(c.all(), Unnumbered, r);
    var i, n := |p|, |c.before|;
    assert c.all()[i] == c.ref() == c.all()[n];
    assert i == n;
    assert p == c.all()[..i] == c.before;
  }

  lemma BodyPart(program: Stmt, fn: Scope, body: Stmt, c: Scene)
    requires Soundness.IsFunction(program, fn, body) && c.all() == ProgramTokens(program)
    ensures Part(c, StmtTokens(body, fn))
  {
    if StmtHas(fn, body, program) {
      StmtHolds(fn, body, program, ModuleScope, StmtTokens(body, fn));
    } else {
      HoldsItself(c.all());
    }
  }
}
