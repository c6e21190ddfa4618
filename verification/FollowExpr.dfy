// Evaluating an expression follows the graph the binder built for it: the run stands at a flow node
// before and after, each reference it evaluates stands at the node recorded for it.
module FollowExpr {
  import opened Syntax
  import opened FlowGraph
  import opened Visit
  import opened Semantics
  import opened Walks
  import opened Questions
  import opened Guards
  import opened Fading
  import opened Links

  ghost predicate Setup(q: Question, g: Binding, a: Activation) {
    Rooted(g) && Applies(q, a)
  }

  // A run with history h stands where the binder does in b.
  ghost predicate Follows(q: Question, g: Binding, a: Activation, b: Builder, h: History) {
    At(q, g, a, b.flow, h) && UsesTraced(q, g, a, h) && b.container == a.fn
  }

  lemma FadeAt(q: Question, g: Binding, a: Activation, n: nat, h: History, k: History)
    requires At(q, g, a, n, h) && Fades(q, a, g.blindTries, h, k)
    ensures At(q, g, a, n, k)
  {
  }

  lemma {:induction false} StoresTraced(q: Question, g: Binding, a: Activation, ws: seq<(Symbol, Value)>, h: History)
    requires UsesTraced(q, g, a, h)
    ensures UsesTraced(q, g, a, Stores(ws, h, a))
    decreases |ws|
  {
    if ws != [] {
      var (x, v) := ws[0];
      StoresTraced(q, g, a, ws[1..], if x in a.foreign && Current(x, h, a).Holds? then After(h, ForeignStore(x, v)) else h);
    }
  }

  lemma AskFollows(q: Question, g: Binding, a: Activation, b: Builder, r: Run)
    requires Setup(q, g, a) && Follows(q, g, a, b, r.history)
    ensures Follows(q, g, a, b, Ask(r, a).run.history)
  {
    StoresTraced(q, g, a, a.oracle(r.clock).stores, r.history);
    AskFades(q, a, g.blindTries, r);
    FadeAt(q, g, a, b.flow, r.history, Ask(r, a).run.history);
  }

  // A reference evaluated where it is bound.
  lemma ReferFollows(q: Question, g: Binding, a: Activation, b: Builder, id: nat, x: Symbol, writes: bool, r: Run)
    requires Follows(q, g, a, b, r.history) && Extends(Refer(b, id, x, writes).g, g)
    ensures Follows(q, g, a, Refer(b, id, x, writes), Emit(r, Use(id, x, writes)).history)
  {
    ReferTraced(q, g, a, b, b, id, x, writes, r.history);
  }

  // A reference evaluated where b is, and bound at a flow node linked to that.
  lemma ReferTraced(q: Question, g: Binding, a: Activation, b: Builder, b1: Builder, id: nat, x: Symbol, writes: bool, h: History)
    requires At(q, g, a, b.flow, h) && b1.container == a.fn && Extends(Refer(b1, id, x, writes).g, g)
    requires b1.flow != Dead
    requires !q.Reached? && q.sym == x && Traced(q, g, b.flow) ==> Traced(q, g, b1.flow)
    ensures UseTraced(q, g, a, h, id, x, writes)
  {
    var c := Access(id, x, b1.flow, b1.container, writes);
    var i := |b1.g.accesses|;
    assert Refer(b1, id, x, writes).g.accesses[i] == c;
    assert g.accesses[i] == c;
    assert AccessTraced(q, g, a, h, c, id, x, writes);
  }

  lemma ReadFollows(q: Question, g: Binding, a: Activation, b: Builder, id: nat, x: Symbol, r: Run)
    requires Setup(q, g, a) && Follows(q, g, a, b, r.history) && Extends(Refer(b, id, x, false).g, g)
    ensures Follows(q, g, a, Refer(b, id, x, false), Load(x, Emit(r, Use(id, x, false)), a).run.history)
  {
    var r1 := Emit(r, Use(id, x, false));
    ReferFollows(q, g, a, b, id, x, false, r);
    AskFollows(q, g, a, Refer(b, id, x, false), r1);
  }

  // A store, and the assignment node for it.
  lemma AssignAt(q: Question, g: Binding, a: Activation, b: Builder, x: Symbol, site: Site, init: bool, assign: bool, v: Value, h: History)
    requires Rooted(g) && At(q, g, a, b.flow, h) && Extends(AssignFlow(b, x, site, init, assign).g, g)
    ensures At(q, g, a, AssignFlow(b, x, site, init, assign).flow, After(h, Store(x, site, init, assign, v)))
  {
    AssignNode(g, b, x, site, init, assign);
    var m := AssignFlow(b, x, site, init, assign).flow;
    if !q.Reached? {
      if Begins(q, g.nodes[m]) { BeginsTraced(q, g, m); }
      else if MarkOf(WalkOf(q), g.nodes[m]) == Pass { PassLink(q, g, b.flow, m); }
    }
  }

  lemma StoreFollows(q: Question, g: Binding, a: Activation, b: Builder, x: Symbol, site: Site, v: Value, r: Run)
    requires Rooted(g) && Follows(q, g, a, b, r.history) && Extends(AssignFlow(b, x, site, false, true).g, g)
    ensures var w := StoreTo(x, site, v, r, a);
      UsesTraced(q, g, a, w.run.history) && (!w.thrown ==> Follows(q, g, a, AssignFlow(b, x, site, false, true), w.run.history))
  {
    AssignAt(q, g, a, b, x, site, false, true, v, r.history);
  }

  // The branch a test takes: had x been undefined, a test that excludes it would not have taken it.
  lemma BranchFollows(q: Question, g: Binding, a: Activation, b: Builder, f: nat, test: Expr, truthy: bool, r: Run)
    requires Setup(q, g, a) && TestRead(q, test) && Extends(Branch(b, f, test, truthy).g, g)
    requires var v := Eval(test, r, a); !v.thrown && (test == NoExpr || Truthy(v.value) == truthy)
    requires At(q, g, a, f, Eval(test, r, a).run.history)
    ensures At(q, g, a, Branch(b, f, test, truthy).flow, Eval(test, r, a).run.history)
  {
    if q.Undef? && ExcludesUndefined(test, q.sym, truthy) {
      GuardReads(test, q.sym, truthy, r, a);
      BranchLive(g, b, f, test, truthy);
    } else {
      BranchLink(q, g, b, f, test, truthy);
    }
  }

  lemma BranchLive(g: Binding, b: Builder, f: nat, test: Expr, truthy: bool)
    requires Rooted(g) && f != Dead && Extends(Branch(b, f, test, truthy).g, g)
    ensures Branch(b, f, test, truthy).flow != Dead
  {
    if test != NoExpr { StepNode(g, b, Condition(f, test, truthy)); }
  }

  // The same for the test of a logical assignment, its target holding v.
  lemma AssignTestFollows(q: Question, g: Binding, a: Activation, b: Builder, f: nat, e: Expr, runs: bool, v: Value, h: History)
    requires e.Assign? && !e.aop.Plain? && !e.aop.Compound? && AssignRuns(e.aop, v) == runs
    requires Setup(q, g, a) && At(q, g, a, f, h)
    requires Own(e.sym, a) ==> Current(e.sym, h, a) == Holds(v)
    requires Extends(Branch(b, f, AssignTest(e), (e.aop == AndAssign) == runs).g, g)
    ensures At(q, g, a, Branch(b, f, AssignTest(e), (e.aop == AndAssign) == runs).flow, h)
  {
    var truthy := (e.aop == AndAssign) == runs;
    if q.Undef? && ExcludesUndefined(AssignTest(e), q.sym, truthy) {
      assert e.sym == q.sym && v != Undefined;
      BranchLive(g, b, f, AssignTest(e), truthy);
    } else {
      BranchLink(q, g, b, f, AssignTest(e), truthy);
    }
  }

  lemma {:induction false} ExprFollows(q: Question, g: Binding, a: Activation, e: Expr, b: Builder, r: Run)
    requires Setup(q, g, a) && CleanExpr(q, e) && Extends(VisitExpr(e, b).g, g) && Follows(q, g, a, b, r.history)
    ensures var v := Eval(e, r, a);
      UsesTraced(q, g, a, v.run.history) && (!v.thrown ==> Follows(q, g, a, VisitExpr(e, b), v.run.history))
    decreases e, 2
  {
    GrowthChains();
    hide Extends, At, UsesTraced, VisitLogical, VisitConditional, VisitAssign, VisitFunction, AssignFlow, Ask, Load, StoreTo, BinaryValue, Rooted, Applies;
    match e
    case NoExpr =>
    case Literal(_) =>
    case Name(id, x) => ReadFollows(q, g, a, b, id, x, r);
    case Not(arg) => ExprFollows(q, g, a, arg, b, r);
    case TypeOf(arg) => ExprFollows(q, g, a, arg, b, r);
    case Binary(_, left, right) => PairFollows(q, g, a, e, left, right, b, r);
    case Logical(_, _, _) => LogicalFollows(q, g, a, e, b, r);
    case Conditional(_, _, _) => ConditionalFollows(q, g, a, e, b, r);
    case Assign(_, _, _, _) => AssignFollows(q, g, a, e, b, r);
    case Update(id, x) => UpdateFollows(q, g, a, id, x, b, r);
    case Member(o) => PairFollows(q, g, a, e, o, NoExpr, b, r);
    case SetMember(o, right) => MarkedFollows(q, g, a, e, o, right, b, r);
    case Call(callee, args) => MarkedFollows(q, g, a, e, callee, args, b, r);
    case Comma(first, second) => PairFollows(q, g, a, e, first, second, b, r);
    case Opaque(arg) => PairFollows(q, g, a, e, arg, NoExpr, b, r);
    case Closure(fn, body) => SilentFollows(q, g, a, b, VisitExpr(e, b), r.history, Create(fn));
  }

  // An event that changes no binding leaves the run where it stands.
  lemma SilentFollows(q: Question, g: Binding, a: Activation, b: Builder, r: Builder, h: History, e: Event)
    requires Silent(e) && Follows(q, g, a, b, h) && r.flow == b.flow && r.container == b.container
    ensures Follows(q, g, a, r, After(h, e))
  {
    SilentFades(q, a, g.blindTries, h, e);
  }

  lemma UpdateFollows(q: Question, g: Binding, a: Activation, id: nat, x: Symbol, b: Builder, r: Run)
    requires Setup(q, g, a) && Extends(VisitExpr(Update(id, x), b).g, g) && Follows(q, g, a, b, r.history)
    ensures var v := Eval(Update(id, x), r, a);
      UsesTraced(q, g, a, v.run.history) && (!v.thrown ==> Follows(q, g, a, VisitExpr(Update(id, x), b), v.run.history))
  {
    GrowthChains();
    hide Extends, At, UsesTraced, AssignFlow, Ask, Load, StoreTo, Applies;
    var b1 := Refer(b, id, x, false);
    ReadFollows(q, g, a, b, id, x, r);
    var l := Load(x, Emit(r, Use(id, x, false)), a);
    AskFollows(q, g, a, b1, l.run);
    var c := Ask(l.run, a);
    StoreFollows(q, g, a, b1, x, OtherSite, c.value, c.run);
  }

  // One part of an expression after another, and other code after both.
  lemma {:induction false} PairFollows(q: Question, g: Binding, a: Activation, whole: Expr, e: Expr, f: Expr, b: Builder, r: Run)
    requires e < whole && (f < whole || f == NoExpr) && CleanExpr(q, e) && CleanExpr(q, f)
    requires Setup(q, g, a) && Extends(VisitExpr(f, VisitExpr(e, b)).g, g) && Follows(q, g, a, b, r.history)
    ensures
      var b1 := VisitExpr(e, b);
      var b2 := VisitExpr(f, b1);
      var v := Eval(e, r, a);
      UsesTraced(q, g, a, v.run.history) &&
      (!v.thrown ==>
        Follows(q, g, a, b1, v.run.history) &&
        var w := Eval(f, v.run, a);
        UsesTraced(q, g, a, w.run.history) &&
        (!w.thrown ==> Follows(q, g, a, b2, w.run.history) && Follows(q, g, a, b2, Ask(w.run, a).run.history)))
    decreases whole, 0
  {
    GrowthChains();
    hide Extends, At, UsesTraced, Ask, Rooted, Applies;
    ExprFollows(q, g, a, e, b, r);
    var b1 := VisitExpr(e, b);
    var v := Eval(e, r, a);
    if !v.thrown {
      if f != NoExpr { ExprFollows(q, g, a, f, b1, v.run); }
      var w := Eval(f, v.run, a);
      if !w.thrown { AskFollows(q, g, a, VisitExpr(f, b1), w.run); }
    }
  }

  // A call or a property store: its parts, then a node of its own.
  lemma {:induction false} MarkedFollows(q: Question, g: Binding, a: Activation, whole: Expr, e: Expr, f: Expr, b: Builder, r: Run)
    requires whole == Call(e, f) || whole == SetMember(e, f)
    requires Setup(q, g, a) && CleanExpr(q, whole) && Extends(VisitExpr(whole, b).g, g) && Follows(q, g, a, b, r.history)
    ensures var v := Eval(whole, r, a);
      UsesTraced(q, g, a, v.run.history) && (!v.thrown ==> Follows(q, g, a, VisitExpr(whole, b), v.run.history))
    decreases whole, 1
  {
    GrowthChains();
    hide Extends, At, UsesTraced, Ask, Applies;
    PairFollows(q, g, a, whole, e, f, b, r);
    var b1 := VisitExpr(f, VisitExpr(e, b));
    var v := Eval(e, r, a);
    var w := Eval(f, v.run, a);
    var n := if whole.Call? then CallFlow(b1.flow) else PropertyAssignment(b1.flow);
    MarkedVisit(whole, e, f, b, n);
    hide VisitExpr;
    if !v.thrown && !w.thrown && VisitExpr(whole, b) == Step(b1, n) {
      StepLink(q, g, b1, n);
      LinkAt(q, g, a, b1.flow, Step(b1, n).flow, Ask(w.run, a).run.history);
    }
  }

  lemma MarkedVisit(whole: Expr, e: Expr, f: Expr, b: Builder, n: FlowNode)
    requires whole == Call(e, f) || whole == SetMember(e, f)
    requires var b1 := VisitExpr(f, VisitExpr(e, b)); n == if whole.Call? then CallFlow(b1.flow) else PropertyAssignment(b1.flow)
    ensures var b1 := VisitExpr(f, VisitExpr(e, b));
      VisitExpr(whole, b) == b1 || (b1.flow != Dead && VisitExpr(whole, b) == Step(b1, n))
  {
    hide Extends, Grows, Visited;
  }

  lemma {:induction false} LogicalFollows(q: Question, g: Binding, a: Activation, e: Expr, b: Builder, r: Run)
    requires e.Logical? && Setup(q, g, a) && CleanExpr(q, e)
    requires Extends(VisitLogical(e, b).g, g) && Follows(q, g, a, b, r.history)
    ensures var v := Eval(e, r, a);
      UsesTraced(q, g, a, v.run.history) && (!v.thrown ==> Follows(q, g, a, VisitLogical(e, b), v.run.history))
    decreases e, 0
  {
    GrowthChains();
    hide Extends, At, UsesTraced, Branch, Join, Applies;
    ExprFollows(q, g, a, e.left, b, r);
    var b1 := VisitExpr(e.left, b);
    var l := Eval(e.left, r, a);
    if !l.thrown {
      var right := Eval(e.right, l.run, a);
      if e.lop.Nullish? {
        var b2 := VisitExpr(e.right, b1);
        JoinLink(q, g, b2, b1.flow, b2.flow);
        if RightRuns(e.lop, l.value) {
          ExprFollows(q, g, a, e.right, b1, l.run);
          if !right.thrown { LinkAt(q, g, a, b2.flow, Join(b2, b1.flow, b2.flow).flow, right.run.history); }
        } else {
          LinkAt(q, g, a, b1.flow, Join(b2, b1.flow, b2.flow).flow, l.run.history);
        }
      } else {
        var b2 := Branch(b1, b1.flow, e.left, e.lop == And);
        var b3 := Branch(b2, b1.flow, e.left, e.lop != And);
        var b4 := b3.(flow := b2.flow);
        var b5 := VisitExpr(e.right, b4);
        JoinLink(q, g, b5, b3.flow, b5.flow);
        if RightRuns(e.lop, l.value) {
          BranchFollows(q, g, a, b1, b1.flow, e.left, e.lop == And, r);
          ExprFollows(q, g, a, e.right, b4, l.run);
          if !right.thrown { LinkAt(q, g, a, b5.flow, Join(b5, b3.flow, b5.flow).flow, right.run.history); }
        } else {
          BranchFollows(q, g, a, b2, b1.flow, e.left, e.lop != And, r);
          LinkAt(q, g, a, b3.flow, Join(b5, b3.flow, b5.flow).flow, l.run.history);
        }
      }
    }
  }

  lemma {:induction false} ConditionalFollows(q: Question, g: Binding, a: Activation, e: Expr, b: Builder, r: Run)
    requires e.Conditional? && Setup(q, g, a) && CleanExpr(q, e)
    requires Extends(VisitConditional(e, b).g, g) && Follows(q, g, a, b, r.history)
    ensures var v := Eval(e, r, a);
      UsesTraced(q, g, a, v.run.history) && (!v.thrown ==> Follows(q, g, a, VisitConditional(e, b), v.run.history))
    decreases e, 0
  {
    GrowthChains();
    hide Extends, At, UsesTraced, Branch, Join, Applies;
    ExprFollows(q, g, a, e.test, b, r);
    var b1 := VisitExpr(e.test, b);
    var t := Eval(e.test, r, a);
    var b2 := Branch(b1, b1.flow, e.test, true);
    var b3 := VisitExpr(e.yes, b2);
    var b4 := Branch(b3, b1.flow, e.test, false);
    var b5 := VisitExpr(e.no, b4);
    JoinLink(q, g, b5, b3.flow, b5.flow);
    if !t.thrown {
      if e.test == NoExpr || !Truthy(t.value) {
        BranchFollows(q, g, a, b3, b1.flow, e.test, false, r);
        ExprFollows(q, g, a, e.no, b4, t.run);
        var v := Eval(e.no, t.run, a);
        if !v.thrown { LinkAt(q, g, a, b5.flow, Join(b5, b3.flow, b5.flow).flow, v.run.history); }
      } else {
        BranchFollows(q, g, a, b1, b1.flow, e.test, true, r);
        ExprFollows(q, g, a, e.yes, b2, t.run);
        var v := Eval(e.yes, t.run, a);
        if !v.thrown { LinkAt(q, g, a, b3.flow, Join(b5, b3.flow, b5.flow).flow, v.run.history); }
      }
    }
  }

  lemma {:induction false} AssignFollows(q: Question, g: Binding, a: Activation, e: Expr, b: Builder, r: Run)
    requires e.Assign? && Setup(q, g, a) && CleanExpr(q, e)
    requires Extends(VisitAssign(e, b).g, g) && Follows(q, g, a, b, r.history)
    ensures var v := Eval(e, r, a);
      UsesTraced(q, g, a, v.run.history) && (!v.thrown ==> Follows(q, g, a, VisitAssign(e, b), v.run.history))
    decreases e, 1
  {
    if e.aop.Plain? { PlainFollows(q, g, a, e, b, r); }
    else if e.aop.Compound? { CompoundFollows(q, g, a, e, b, r); }
    else { LogicalAssignFollows(q, g, a, e, b, r); }
  }

  lemma {:induction false} PlainFollows(q: Question, g: Binding, a: Activation, e: Expr, b: Builder, r: Run)
    requires e.Assign? && e.aop.Plain? && Setup(q, g, a) && CleanExpr(q, e)
    requires Extends(VisitAssign(e, b).g, g) && Follows(q, g, a, b, r.history)
    ensures var v := EvalAssign(e, r, a);
      UsesTraced(q, g, a, v.run.history) && (!v.thrown ==> Follows(q, g, a, VisitAssign(e, b), v.run.history))
    decreases e, 0
  {
    GrowthChains();
    hide Extends, At, UsesTraced, AssignFlow, StoreTo, Applies;
    var site := AssignmentSite(e.id, e.aop);
    ExprFollows(q, g, a, e.right, b, r);
    var b1 := VisitExpr(e.right, b);
    var v := Eval(e.right, r, a);
    if !v.thrown {
      ReferFollows(q, g, a, b1, e.id, e.sym, true, v.run);
      StoreFollows(q, g, a, Refer(b1, e.id, e.sym, true), e.sym, site, v.value, Emit(v.run, Use(e.id, e.sym, true)));
    }
  }

  // The target is read before the right side runs, but bound after it.
  lemma CompoundRead(q: Question, g: Binding, a: Activation, e: Expr, b: Builder, h: History)
    requires e.Assign? && e.aop.Compound? && Setup(q, g, a) && CleanExpr(q, e)
    requires Extends(Refer(VisitExpr(e.right, b), e.id, e.sym, false).g, g) && Follows(q, g, a, b, h)
    ensures Follows(q, g, a, b, After(h, Use(e.id, e.sym, false)))
  {
    var b1 := VisitExpr(e.right, b);
    GrowthChains();
    QuietLink(Reached, g, e.right, b);
    if !q.Reached? && q.sym == e.sym { QuietLink(q, g, e.right, b); }
    ReferTraced(q, g, a, b, b1, e.id, e.sym, false, h);
  }

  lemma {:induction false} CompoundFollows(q: Question, g: Binding, a: Activation, e: Expr, b: Builder, r: Run)
    requires e.Assign? && e.aop.Compound? && Setup(q, g, a) && CleanExpr(q, e)
    requires Extends(VisitAssign(e, b).g, g) && Follows(q, g, a, b, r.history)
    ensures var v := EvalAssign(e, r, a);
      UsesTraced(q, g, a, v.run.history) && (!v.thrown ==> Follows(q, g, a, VisitAssign(e, b), v.run.history))
    decreases e, 0
  {
    GrowthChains();
    var site := AssignmentSite(e.id, e.aop);
    var b1 := VisitExpr(e.right, b);
    var b2 := Refer(b1, e.id, e.sym, false);
    var r1 := Emit(r, Use(e.id, e.sym, false));
    hide Extends, At, UsesTraced, AssignFlow, StoreTo, Ask, Applies;
    CompoundRead(q, g, a, e, b, r.history);
    var l := Load(e.sym, r1, a);
    AskFollows(q, g, a, b, r1);
    if !l.thrown {
      ExprFollows(q, g, a, e.right, b, l.run);
      var v := Eval(e.right, l.run, a);
      if !v.thrown {
        AskFollows(q, g, a, b2, v.run);
        var c := Ask(v.run, a);
        StoreFollows(q, g, a, b2, e.sym, site, c.value, c.run);
      }
    }
  }

  lemma LoadHolds(x: Symbol, r: Run, a: Activation)
    requires Own(x, a) && !Load(x, r, a).thrown
    ensures Current(x, Load(x, r, a).run.history, a) == Holds(Load(x, r, a).value)
  {
  }

  lemma {:induction false} LogicalAssignFollows(q: Question, g: Binding, a: Activation, e: Expr, b: Builder, r: Run)
    requires e.Assign? && !e.aop.Plain? && !e.aop.Compound? && Setup(q, g, a) && CleanExpr(q, e)
    requires Extends(VisitAssign(e, b).g, g) && Follows(q, g, a, b, r.history)
    ensures var v := EvalAssign(e, r, a);
      UsesTraced(q, g, a, v.run.history) && (!v.thrown ==> Follows(q, g, a, VisitAssign(e, b), v.run.history))
    decreases e, 0
  {
    GrowthChains();
    hide Extends, At, UsesTraced, AssignFlow, StoreTo, Load, Branch, Join, Applies;
    var site := AssignmentSite(e.id, e.aop);
    var stores := e.aop == AndAssign;
    var b1 := Refer(b, e.id, e.sym, false);
    var b2 := Branch(b1, b.flow, AssignTest(e), stores);
    var b3 := VisitExpr(e.right, b2);
    var b4 := AssignFlow(b3, e.sym, site, false, true);
    var b5 := Branch(b4, b.flow, AssignTest(e), !stores);
    var b6 := Join(b5, b5.flow, b4.flow);
    ReadFollows(q, g, a, b, e.id, e.sym, r);
    JoinLink(q, g, b5, b5.flow, b4.flow);
    var l := Load(e.sym, Emit(r, Use(e.id, e.sym, false)), a);
    if !l.thrown {
      if Own(e.sym, a) { LoadHolds(e.sym, Emit(r, Use(e.id, e.sym, false)), a); }
      if AssignRuns(e.aop, l.value) {
        AssignTestFollows(q, g, a, b1, b.flow, e, true, l.value, l.run.history);
        ExprFollows(q, g, a, e.right, b2, l.run);
        var v := Eval(e.right, l.run, a);
        if !v.thrown {
          StoreFollows(q, g, a, b3, e.sym, site, v.value, v.run);
          var w := StoreTo(e.sym, site, v.value, v.run, a);
          if !w.thrown { LinkAt(q, g, a, b4.flow, b6.flow, w.run.history); }
        }
      } else {
        AssignTestFollows(q, g, a, b4, b.flow, e, false, l.value, l.run.history);
        LinkAt(q, g, a, b5.flow, b6.flow, l.run.history);
      }
    }
  }
}
