// What the answers mean: for every function of a bound program and every run of it.
module Soundness {
  import opened Syntax
  import opened FlowGraph
  import opened Visit
  import opened Semantics
  import opened Walks
  import opened Questions
  import opened Links
  import opened FollowExpr
  import opened Landing
  import opened FollowStmt
  import opened Scoping
  import opened Detours
  import opened WaysOut
  import Programs
  import ForeignStores

  // ----- histories -----

  // k is how history h once was.
  ghost predicate Was(h: History, k: History) {
    h == k || (h.After? && Was(h.past, k))
  }

  // In h, reference id to x was evaluated when the history was p.
  ghost predicate Evaluated(h: History, id: nat, x: Symbol, writes: bool, p: History) {
    Was(h, After(p, Use(id, x, writes)))
  }

  // A value was stored to x since its scope was last entered.
  predicate StoredSinceEntry(x: Symbol, h: History) {
    match h
    case Begin => false
    case After(past, Enter(s, _)) => s != x.scope && StoredSinceEntry(x, past)
    case After(past, Store(y, _, _, assign, _)) => (y == x && assign) || StoredSinceEntry(x, past)
    case After(past, ForeignStore(y, _)) => y == x || StoredSinceEntry(x, past)
    case After(past, _) => StoredSinceEntry(x, past)
  }

  // x's last store was made through site, and stored v.
  predicate LastStored(x: Symbol, site: Site, v: Value, h: History) {
    match h
    case Begin => false
    case After(past, Enter(s, _)) => s != x.scope && LastStored(x, site, v, past)
    case After(past, Store(y, at, _, assign, w)) => if y == x then assign && at == site && w == v else LastStored(x, site, v, past)
    case After(past, ForeignStore(y, _)) => y != x && LastStored(x, site, v, past)
    case After(past, _) => LastStored(x, site, v, past)
  }

  lemma {:induction false} UsesTracedThen(q: Question, g: Binding, a: Activation, h: History, id: nat, x: Symbol, writes: bool, p: History)
    requires UsesTraced(q, g, a, h) && Evaluated(h, id, x, writes, p)
    ensures UseTraced(q, g, a, p, id, x, writes)
    decreases h
  {
    if h != After(p, Use(id, x, writes)) { UsesTracedThen(q, g, a, h.past, id, x, writes, p); }
  }

  lemma {:induction false} OpenThen(x: Symbol, h: History, a: Activation, id: nat, writes: bool, p: History)
    requires UsesOpen(h, a) && Own(x, a) && Evaluated(h, id, x, writes, p)
    ensures Open(x.scope, p)
    decreases h
  {
    if h != After(p, Use(id, x, writes)) { OpenThen(x, h.past, a, id, writes, p); }
  }

  lemma {:induction false} OrderlyThen(x: Symbol, h: History, a: Activation, k: History)
    requires OrderlyStores(x, h, a) && Was(h, k)
    ensures OrderlyStores(x, k, a)
    decreases h
  {
    if h != k { OrderlyThen(x, h.past, a, k); }
  }

  // While x is in scope, it is unassigned or a value was stored since its scope was entered.
  lemma {:induction false} AssignedMeansStored(x: Symbol, h: History)
    requires Open(x.scope, h) && !StaysUnassigned(x, h)
    ensures StoredSinceEntry(x, h)
    decreases h
  {
    match h
    case After(past, Enter(_, _)) => AssignedMeansStored(x, past);
    case After(past, Store(y, _, _, assign, _)) => if !(y == x && assign) { AssignedMeansStored(x, past); }
    case After(past, ForeignStore(y, _)) => if y != x { AssignedMeansStored(x, past); }
    case After(past, _) => AssignedMeansStored(x, past);
  }

  // An uninitialized binding has had no store.
  lemma {:induction false} UninitializedUnstored(x: Symbol, h: History, a: Activation)
    requires Current(x, h, a).Uninitialized?
    ensures !StoredSinceEntry(x, h)
    decreases h
  {
    match h
    case Begin =>
    case After(past, Enter(s, _)) => if s != x.scope { UninitializedUnstored(x, past, a); }
    case After(past, _) => UninitializedUnstored(x, past, a);
  }

  // The last store to a binding only its own function stores to, and the value it still holds.
  lemma {:induction false} LastStoreFound(x: Symbol, h: History, a: Activation) returns (site: Site, v: Value)
    requires Open(x.scope, h) && !StaysUnassigned(x, h) && OrderlyStores(x, h, a) && x !in a.foreign
    ensures LastStoredBy(x, site, h) && LastStored(x, site, v, h) && Current(x, h, a) == Holds(v)
    decreases h
  {
    match h {
      case After(past, Store(y, at, init, assign, w)) =>
        if y == x {
          if !assign {
            AssignedMeansStored(x, past);
            UninitializedUnstored(x, past, a);
          }
          site, v := at, w;
        } else {
          site, v := LastStoreFound(x, past, a);
        }
      case After(past, _) => site, v := LastStoreFound(x, past, a);
    }
  }

  // ----- the functions of a program -----

  // The program's module, or a function expression in it, with its body.
  predicate IsFunction(program: Stmt, fn: Scope, body: Stmt) {
    (fn == ModuleScope && body == program) || Programs.StmtHas(fn, body, program)
  }

  // The graph of fn's body, from state b on, is part of g.
  ghost predicate BoundFrom(g: Binding, fn: Scope, body: Stmt, b: Builder) {
    && Rooted(g) && (b.pendingLabel == "" || !StmtTakesLabel(body))
    && Extends(VisitStmt(body, EnterFunction(fn, b)).g, g)
  }

  // Every function of a program is bound in its graph, its end marked if it is reachable.
  lemma {:induction false} EveryFunctionBound(program: Stmt, fn: Scope, body: Stmt) returns (b: Builder)
    requires IsFunction(program, fn, body) && Programs.Tidy(program)
    ensures BoundFrom(VisitProgram(program).g, fn, body, b)
    ensures Programs.StmtHas(fn, body, program) && VisitStmt(body, EnterFunction(fn, b)).flow != Dead ==>
      fn in VisitProgram(program).g.endReachable
  {
    hide Extends, Programs.Tidy, Programs.StmtHas, Programs.Holds, VisitStmt, Rooted;
    ProgramRooted(program);
    if Programs.StmtHas(fn, body, program) {
      b := Programs.StmtBinds(fn, body, program, EnterFunction(ModuleScope, NothingBound));
      HeldBound(VisitProgram(program).g, fn, body, b);
    } else {
      b := NothingBound;
      GrowthChains();
    }
  }

  lemma HeldBound(g: Binding, fn: Scope, body: Stmt, b: Builder)
    requires Rooted(g) && Programs.Holds(fn, body, b, g)
    ensures BoundFrom(g, fn, body, b) && (VisitStmt(body, EnterFunction(fn, b)).flow != Dead ==> fn in g.endReachable)
  {
    GrowthChains();
    var b2 := VisitStmt(body, EnterFunction(fn, b));
    if b2.flow != Dead { EndMarked(g, fn, body, b); }
    hide Extends, VisitStmt;
    assert Extends(b2.g, VisitFunction(fn, body, b).g);
  }

  lemma ProgramRooted(program: Stmt)
    ensures Rooted(VisitProgram(program).g)
  {
    var b := EnterFunction(ModuleScope, NothingBound);
    var r := VisitStmt(program, b);
    assert Extends(b.g, r.g);
    assert b.g.nodes[Dead] == Unreachable;
  }

  lemma EndMarked(g: Binding, fn: Scope, body: Stmt, b: Builder)
    requires Extends(VisitFunction(fn, body, b).g, g) && VisitStmt(body, EnterFunction(fn, b)).flow != Dead
    ensures fn in g.endReachable
  {
    var b2 := VisitStmt(body, EnterFunction(fn, b));
    assert fn in MarkEnd(b2, fn).g.endReachable;
  }

  // A run of a function starts at its start node and follows its graph.
  lemma {:induction false} RunFollows(q: Question, g: Binding, fn: Scope, body: Stmt, b: Builder, a: Activation, fuel: nat)
    requires BoundFrom(g, fn, body, b) && a.fn == fn && Applies(q, a) && Clean(q, body)
    ensures var o := Execute(body, a, fuel);
      UsesTraced(q, g, a, o.run.history) && (o.how.Normal? ==> VisitStmt(body, EnterFunction(fn, b)).flow != Dead)
  {
    var b1 := EnterFunction(fn, b);
    StartFollows(q, g, a, fn, body, b);
    hide Extends, UsesTraced, Applies, Rooted, VisitStmt, Clean;
    StmtFollows(q, g, a, body, {}, b1, Run(Begin, 0), fuel);
    Normally(q, g, a, [], VisitStmt(body, b1), Execute(body, a, fuel));
  }

  lemma StartFollows(q: Question, g: Binding, a: Activation, fn: Scope, body: Stmt, b: Builder)
    requires BoundFrom(g, fn, body, b) && a.fn == fn && Applies(q, a) && Clean(q, body)
    ensures Begun(q, g, a, body, {}, EnterFunction(fn, b), Run(Begin, 0))
    ensures Extends(VisitStmt(body, EnterFunction(fn, b)).g, g)
  {
    var b1 := EnterFunction(fn, b);
    GrowthChains();
    hide Clean, VisitStmt;
    StepNode(g, b, Start(fn));
    if !q.Reached? && Begins(q, g.nodes[b1.flow]) { BeginsTraced(q, g, b1.flow); }
  }

  // A run of a program whose references are in scope is a proper one.
  lemma RunProper(x: Symbol, fn: Scope, body: Stmt, a: Activation, fuel: nat)
    requires a.fn == fn && Scoped(body, {fn}, fn)
    ensures Proper(x, {fn}, Execute(body, a, fuel).run.history, a)
  {
    ExecProper(x, {fn}, body, {}, Run(Begin, 0), a, fuel);
  }

  // ----- the theorems -----

  // The identifier of reference c is no other reference's.
  predicate Sole(g: Binding, c: Access) {
    c in g.accesses && forall d :: d in g.accesses && d.id == c.id ==> d == c
  }

  // The program, one of its functions and a run of it in which reference c is evaluated after history p.
  ghost predicate Witnessed(program: Stmt, fn: Scope, body: Stmt, a: Activation, fuel: nat, c: Access, p: History) {
    var g := VisitProgram(program).g;
    && IsFunction(program, fn, body) && Programs.Tidy(program) && Scoped(body, {fn}, fn)
    && a.fn == fn == ContainerOf(c.sym.scope)
    && a.foreign <= ForeignStores.ForeignInStmt(program, ModuleScope)
    && Sole(g, c) && Evaluated(Execute(body, a, fuel).run.history, c.id, c.sym, c.written, p)
  }

  // Of the programs whose graph answers q for reference c, those in which, inside the scope of the binding,
  // c is in no finally that diverts, and no break or continue leaves one.
  ghost predicate Answered(q: Question, program: Stmt, body: Stmt, c: Access) {
    && !q.Reached? && q.sym == c.sym && Clean(q, body)
    && Straight(q, VisitProgram(program).g.blindTries, c.id, body, q.sym.scope == ContainerOf(q.sym.scope))
  }

  // Where every finally entered from the end of its try has a try that can fall off, that is no condition
  // for a declaration, nor for stores that no try makes.
  lemma SteadyAnswered(p: Question, q: Question, program: Stmt, fn: Scope, body: Stmt, c: Access)
    requires Decides(p, q) && Clean(p, body) && Clean(q, body) && q.sym == c.sym
    requires fn == ContainerOf(c.sym.scope) && Scoped(body, {fn}, fn) && Steady(body, VisitProgram(program).g.blindTries)
    ensures Answered(q, program, body, c)
  {
    hide VisitProgram, Clean, Scoped, Steady, Straight;
    SteadyStraight(p, q, VisitProgram(program).g.blindTries, c.id, body, {fn}, fn);
  }

  // So c is only evaluated where the run is on no detour.
  lemma {:induction false} OnPath(q: Question, program: Stmt, fn: Scope, body: Stmt, a: Activation, fuel: nat, c: Access, p: History)
    requires Witnessed(program, fn, body, a, fuel, c, p) && Answered(q, program, body, c)
    ensures !Detoured(q, VisitProgram(program).g.blindTries, p)
  {
    hide Programs.Tidy, Scoped, Clean, VisitProgram, Straight;
    var w := Watch(q, VisitProgram(program).g.blindTries, c.id);
    RunHolds(w, body, a, fuel);
    HeldThen(w, Execute(body, a, fuel).run.history, c.written, p);
  }

  lemma {:induction false} HeldThen(w: Watch, h: History, writes: bool, p: History)
    requires !w.q.Reached? && Held(w, h) && Evaluated(h, w.id, w.q.sym, writes, p)
    ensures !Detoured(w.q, w.tries, p)
    decreases h
  {
    if h != After(p, Use(w.id, w.q.sym, writes)) { HeldThen(w, h.past, writes, p); }
  }

  // The common part: the state in which c was evaluated is traced from c's flow node.
  lemma StateTraced(q: Question, program: Stmt, fn: Scope, body: Stmt, a: Activation, fuel: nat, c: Access, p: History)
    requires Witnessed(program, fn, body, a, fuel, c, p) && Applies(q, a) && Answered(q, program, body, c)
    ensures Checked(c) && (InState(q, p, a) ==> Traced(q, VisitProgram(program).g, c.flow))
  {
    OnPath(q, program, fn, body, a, fuel, c, p);
    hide Programs.Tidy, Scoped, Clean, VisitStmt, Extends, Traced, Straight, Detoured;
    var g := VisitProgram(program).g;
    var b := EveryFunctionBound(program, fn, body);
    RunFollows(q, g, fn, body, b, a, fuel);
    UsesTracedThen(q, g, a, Execute(body, a, fuel).run.history, c.id, c.sym, c.written, p);
    var i :| 0 <= i < |g.accesses| && AccessTraced(q, g, a, p, g.accesses[i], c.id, c.sym, c.written);
    assert g.accesses[i] in g.accesses;
  }

  // What scoping says of that state.
  lemma StateProper(program: Stmt, fn: Scope, body: Stmt, a: Activation, fuel: nat, c: Access, p: History)
    requires Witnessed(program, fn, body, a, fuel, c, p)
    ensures Own(c.sym, a) && Open(c.sym.scope, p) && OrderlyStores(c.sym, p, a)
  {
    var h := Execute(body, a, fuel).run.history;
    hide Programs.Tidy, Scoped, VisitProgram;
    RunProper(c.sym, fn, body, a, fuel);
    OpenThen(c.sym, h, a, c.id, c.written, p);
    WasBefore(h, After(p, Use(c.id, c.sym, c.written)));
    OrderlyThen(c.sym, h, a, p);
  }

  lemma {:induction false} WasBefore(h: History, k: History)
    requires k.After? && Was(h, k)
    ensures Was(h, k.past)
    decreases h
  {
    if h != k { WasBefore(h.past, k); }
  }

  // When a function's body is not marked end-reachable, no run of it falls off its end, whatever
  // breaks, continues, returns and throws cross its finally blocks.
  lemma EndReachableSound(program: Stmt, fn: Scope, body: Stmt, a: Activation, fuel: nat)
    requires Programs.StmtHas(fn, body, program) && Programs.Tidy(program) && Clean(Reached, body) && a.fn == fn
    requires fn !in VisitProgram(program).g.endReachable
    ensures Execute(body, a, fuel).how != Normal
  {
    hide Programs.Tidy, Programs.StmtHas, Clean, Extends;
    var b := EveryFunctionBound(program, fn, body);
    RunFollows(Reached, VisitProgram(program).g, fn, body, b, a, fuel);
  }

  // A read that may not be reached unassigned is evaluated only after a value was stored to its
  // binding since the binding's scope was last entered.
  lemma DefiniteAssignmentSound(program: Stmt, fn: Scope, body: Stmt, a: Activation, fuel: nat, c: Access, p: History)
    requires Witnessed(program, fn, body, a, fuel, c, p) && Answered(Unassigned(c.sym), program, body, c)
    requires !Meets(VisitProgram(program).g, ForAssign(c.sym), c.flow, Missed)
    ensures StoredSinceEntry(c.sym, p)
  {
    StateProper(program, fn, body, a, fuel, c, p);
    StateTraced(Unassigned(c.sym), program, fn, body, a, fuel, c, p);
    AssignedMeansStored(c.sym, p);
  }

  // A reference reported as used before its declaration is never evaluated after it has run: it throws.
  lemma DeadZoneReportsReal(program: Stmt, fn: Scope, body: Stmt, a: Activation, fuel: nat, c: Access, p: History, clock: nat)
    requires Witnessed(program, fn, body, a, fuel, c, p) && Answered(Declared(c.sym), program, body, c)
    requires UsedBeforeDeclaration(VisitProgram(program).g, c)
    ensures !HasBeenDeclared(c.sym, p)
    ensures var r := Run(After(p, Use(c.id, c.sym, c.written)), clock);
      Load(c.sym, r, a).thrown && forall site, v :: StoreTo(c.sym, site, v, r, a).thrown
  {
    StateProper(program, fn, body, a, fuel, c, p);
    StateTraced(Declared(c.sym), program, fn, body, a, fuel, c, p);
    DeadZoneEnds(c.sym, p, a);
  }

  // A read answered as guarded since its binding's last store never reads undefined.
  lemma GuardedSinceStoreSound(program: Stmt, fn: Scope, body: Stmt, a: Activation, fuel: nat, c: Access, p: History)
    requires Witnessed(program, fn, body, a, fuel, c, p) && Answered(Undef(c.sym), program, body, c)
    requires c.sym !in VisitProgram(program).g.foreign && !Meets(VisitProgram(program).g, ForGuard(c.sym), c.flow, Missed)
    ensures Current(c.sym, p, a) != Holds(Undefined)
  {
    StateProper(program, fn, body, a, fuel, c, p);
    ForeignStores.ForeignExact(program);
    StateTraced(Undef(c.sym), program, fn, body, a, fuel, c, p);
  }

  // Where no path reaches a read without a store, the value it reads was written by one of the
  // reaching stores, the last one made.
  lemma ReachingStoresSound(program: Stmt, fn: Scope, body: Stmt, a: Activation, fuel: nat, c: Access, p: History)
      returns (t: nat, v: Value)
    requires Witnessed(program, fn, body, a, fuel, c, p)
    requires Answered(Unassigned(c.sym), program, body, c) && forall site :: Answered(StoredBy(c.sym, site), program, body, c)
    requires c.sym !in VisitProgram(program).g.foreign && !Meets(VisitProgram(program).g, ForAssign(c.sym), c.flow, Missed)
    ensures StoredBackFrom(VisitProgram(program).g, c, t)
    ensures LastStored(c.sym, VisitProgram(program).g.nodes[t].site, v, p) && Current(c.sym, p, a) == Holds(v)
  {
    var g := VisitProgram(program).g;
    StateProper(program, fn, body, a, fuel, c, p);
    ForeignStores.ForeignExact(program);
    StateTraced(Unassigned(c.sym), program, fn, body, a, fuel, c, p);
    var site;
    site, v := LastStoreFound(c.sym, p, a);
    StateTraced(StoredBy(c.sym, site), program, fn, body, a, fuel, c, p);
    t :| t < |g.nodes| && Reaches(g, ForAssign(c.sym), c.flow, t) && Begins(StoredBy(c.sym, site), g.nodes[t]);
  }
}
