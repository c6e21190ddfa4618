// The questions the analyses answer about one binding, each as a state of the run the analysis must
// not miss, and the programs for which it does not.
module Questions {
  import opened Syntax
  import opened FlowGraph
  import opened Visit
  import opened Semantics
  import opened Walks
  import opened WaysOut

  datatype Question =
    | Reached                              // is this point reached at all?
    | Unassigned(sym: Symbol)              // is x in scope with no value stored since its scope was entered?
    | Declared(sym: Symbol)                // has x's declaration run since its scope was entered?
    | Undef(sym: Symbol)                   // does x hold undefined?
    | StoredBy(sym: Symbol, site: Site)    // was x's last store made by this node?

  // ----- the states of a run -----

  predicate StaysUnassigned(x: Symbol, h: History) {
    match h
    case Begin => true
    case After(past, Enter(s, _)) => s == x.scope || StaysUnassigned(x, past)
    case After(past, Exit(s)) => s != x.scope && StaysUnassigned(x, past)
    case After(past, Store(y, _, _, assign, _)) => !(y == x && assign) && StaysUnassigned(x, past)
    case After(past, ForeignStore(y, _)) => y != x && StaysUnassigned(x, past)
    case After(past, _) => StaysUnassigned(x, past)
  }

  predicate HasBeenDeclared(x: Symbol, h: History) {
    match h
    case Begin => false
    case After(past, Enter(s, _)) => s != x.scope && HasBeenDeclared(x, past)
    case After(past, Exit(s)) => s != x.scope && HasBeenDeclared(x, past)
    case After(past, Store(y, _, init, _, _)) => (y == x && init) || HasBeenDeclared(x, past)
    case After(past, _) => HasBeenDeclared(x, past)
  }

  // Whether scope s, once entered, has not been left; a function's own scope is open from the start.
  predicate Open(s: Scope, h: History) {
    match h
    case Begin => true
    case After(past, Enter(t, _)) => t == s || Open(s, past)
    case After(past, Exit(t)) => t != s && Open(s, past)
    case After(past, _) => Open(s, past)
  }

  predicate HoldsUndefined(x: Symbol, h: History, a: Activation) {
    Open(x.scope, h) && Current(x, h, a) == Holds(Undefined)
  }

  predicate LastStoredBy(x: Symbol, site: Site, h: History) {
    match h
    case Begin => false
    case After(past, Enter(s, _)) => s != x.scope && LastStoredBy(x, site, past)
    case After(past, Exit(s)) => s != x.scope && LastStoredBy(x, site, past)
    case After(past, Store(y, at, _, assign, _)) => if y == x then assign && at == site else LastStoredBy(x, site, past)
    case After(past, ForeignStore(y, _)) => y != x && LastStoredBy(x, site, past)
    case After(past, _) => LastStoredBy(x, site, past)
  }

  predicate InState(q: Question, h: History, a: Activation) {
    match q
    case Reached => false
    case Unassigned(x) => StaysUnassigned(x, h)
    case Declared(x) => HasBeenDeclared(x, h)
    case Undef(x) => HoldsUndefined(x, h, a)
    case StoredBy(x, site) => LastStoredBy(x, site, h)
  }

  // Whether what runs is on a detour no path of the graph stands for: a finally block that diverts, entered
  // on the way out of its try, since q's scope was entered. It ends when the way out goes on, or a catch
  // takes it.
  predicate Detoured(q: Question, tries: set<nat>, h: History) {
    match h
    case Begin => false
    case After(past, Enter(s, _)) => !Owns(q, s) && Detoured(q, tries, past)
    case After(_, Caught(since)) => Detoured(q, tries, since)
    case After(_, FinallyAbrupt(s, since)) => Diverts(q, tries, s) || Detoured(q, tries, since)
    case After(_, FinallyDone(from)) => Detoured(q, tries, from)
    case After(past, _) => Detoured(q, tries, past)
  }

  predicate Counts(q: Question, h: History, tries: set<nat>, a: Activation) {
    InState(q, h, a) && !Detoured(q, tries, h)
  }

  // ----- what the walks must find -----

  function WalkOf(q: Question): Walk
    requires !q.Reached?
  {
    match q
    case Unassigned(x) => ForAssign(x)
    case Declared(x) => ForInit(x)
    case Undef(x) => ForGuard(x)
    case StoredBy(x, _) => ForAssign(x)
  }

  // The node at which the state begins.
  predicate Begins(q: Question, n: FlowNode)
    requires !q.Reached?
  {
    match q
    case Unassigned(x) => MarkOf(ForAssign(x), n) == Missed
    case Declared(x) => MarkOf(ForInit(x), n) == Found
    case Undef(x) => MarkOf(ForGuard(x), n) == Missed
    case StoredBy(x, site) => MarkOf(ForAssign(x), n) == Found && n.site == site
  }

  // A walk back from n finds where the state began.
  ghost predicate Traced(q: Question, g: Binding, n: nat) {
    !q.Reached? && exists t: nat :: t < |g.nodes| && Reaches(g, WalkOf(q), n, t) && Begins(q, g.nodes[t])
  }

  // The invariant of a run standing at flow node n: the point is reachable, and a state that counts is traced.
  ghost predicate At(q: Question, g: Binding, a: Activation, n: nat, h: History) {
    n != Dead && (Counts(q, h, g.blindTries, a) ==> Traced(q, g, n))
  }

  // The reference was recorded, and the state it was evaluated in is traced from its flow node.
  ghost predicate UseTraced(q: Question, g: Binding, a: Activation, h: History, id: nat, x: Symbol, writes: bool) {
    exists i :: 0 <= i < |g.accesses| && AccessTraced(q, g, a, h, g.accesses[i], id, x, writes)
  }

  ghost predicate AccessTraced(q: Question, g: Binding, a: Activation, h: History, c: Access, id: nat, x: Symbol, writes: bool) {
    && c.id == id && c.sym == x && c.written == writes && c.container == a.fn && c.flow != Dead
    && (!q.Reached? && q.sym == x && Counts(q, h, g.blindTries, a) ==> Traced(q, g, c.flow))
  }

  ghost predicate UsesTraced(q: Question, g: Binding, a: Activation, h: History) {
    match h
    case Begin => true
    case After(past, Use(id, x, writes)) => UsesTraced(q, g, a, past) && UseTraced(q, g, a, past, id, x, writes)
    case After(past, _) => UsesTraced(q, g, a, past)
  }

  // ----- the programs -----

  // Whether running e, or s, in this function may store to the binding x had before.
  predicate ExprStores(x: Symbol, e: Expr) {
    match e
    case Not(a) => ExprStores(x, a)
    case TypeOf(a) => ExprStores(x, a)
    case Binary(_, l, r) => ExprStores(x, l) || ExprStores(x, r)
    case Logical(_, l, r) => ExprStores(x, l) || ExprStores(x, r)
    case Conditional(t, y, n) => ExprStores(x, t) || ExprStores(x, y) || ExprStores(x, n)
    case Assign(_, _, y, r) => y == x || ExprStores(x, r)
    case Update(_, y) => y == x
    case Member(o) => ExprStores(x, o)
    case SetMember(o, r) => ExprStores(x, o) || ExprStores(x, r)
    case Call(c, a) => ExprStores(x, c) || ExprStores(x, a)
    case Comma(l, r) => ExprStores(x, l) || ExprStores(x, r)
    case Opaque(a) => ExprStores(x, a)
    case _ => false
  }

  predicate StmtStores(x: Symbol, s: Stmt) {
    match s
    case Then(f, r) => StmtStores(x, f) || StmtStores(x, r)
    case Declare(_, y, init, _) => y == x || ExprStores(x, init)
    case Evaluate(e) => ExprStores(x, e)
    case Block(scope, body) => scope != x.scope && StmtStores(x, body)
    case If(t, y, n) => ExprStores(x, t) || StmtStores(x, y) || StmtStores(x, n)
    case While(t, body) => ExprStores(x, t) || StmtStores(x, body)
    case DoWhile(t, body) => ExprStores(x, t) || StmtStores(x, body)
    case For(scope, start, t, u, body) =>
      scope != x.scope && (StmtStores(x, start) || ExprStores(x, t) || ExprStores(x, u) || StmtStores(x, body))
    case ForOf(scope, _, y, subject, body) =>
      ExprStores(x, subject) || (scope != x.scope && (y == x || StmtStores(x, body)))
    case Labeled(_, body) => StmtStores(x, body)
    case Return(e) => ExprStores(x, e)
    case Throw(e) => ExprStores(x, e)
    case Switch(scope, d, cases) => ExprStores(x, d) || (scope != x.scope && CasesStore(x, cases))
    case Try(_, block, handler, finalizer) =>
      StmtStores(x, block)
      || (handler.Catch? && handler.scope != x.scope && StmtStores(x, handler.body))
      || (finalizer.Finally? && StmtStores(x, finalizer.body))
    case _ => false
  }

  predicate CasesStore(x: Symbol, cases: Cases) {
    cases.Case? && (ExprStores(x, cases.test) || StmtStores(x, cases.body) || CasesStore(x, cases.rest))
  }

  // Whether s runs the declaration of the binding x had before: no statement nested in x's scope does.
  predicate Declares(x: Symbol, s: Stmt) {
    match s
    case Then(f, r) => Declares(x, f) || Declares(x, r)
    case Declare(kind, y, _, _) => kind != Var && y == x
    case Block(scope, body) => scope != x.scope && Declares(x, body)
    case If(_, y, n) => Declares(x, y) || Declares(x, n)
    case While(_, body) => Declares(x, body)
    case DoWhile(_, body) => Declares(x, body)
    case For(scope, start, _, _, body) => scope != x.scope && (Declares(x, start) || Declares(x, body))
    case ForOf(scope, kind, y, _, body) => scope != x.scope && ((kind != Var && y == x) || Declares(x, body))
    case Labeled(_, body) => Declares(x, body)
    case Switch(scope, _, cases) => scope != x.scope && CasesDeclare(x, cases)
    case Try(_, block, handler, finalizer) =>
      Declares(x, block)
      || (handler.Catch? && handler.scope != x.scope && Declares(x, handler.body))
      || (finalizer.Finally? && Declares(x, finalizer.body))
    case _ => false
  }

  predicate CasesDeclare(x: Symbol, cases: Cases) {
    cases.Case? && (Declares(x, cases.body) || CasesDeclare(x, cases.rest))
  }

  // Running s may bring about the state q asks for.
  predicate Disturbs(q: Question, s: Stmt) {
    match q
    case Reached => false
    case Unassigned(_) => false
    case Declared(x) => Declares(x, s)
    case Undef(x) => StmtStores(x, s)
    case StoredBy(x, _) => StmtStores(x, s)
  }

  // Evaluating e changes nothing q asks about.
  predicate Quiet(q: Question, e: Expr) {
    q.Reached? || q.Declared? || !ExprStores(q.sym, e)
  }

  // The conditions excludesUndefined misreads: a typeof x under an operator other than an equality,
  // which may be falsy though x is undefined.
  predicate Misread(c: Expr, x: Symbol) {
    match c
    case Binary(op, left, right) =>
      && !IsName(left, x) && right.TypeOf? && IsName(right.arg, x)
      && TextOf(left).Some? && TextOf(left).value != "undefined"
      && (op.Arithmetic? || (op.Less? && !TextLess(TextOf(left).value, "undefined")))
    case Logical(op, left, right) =>
      && !IsName(left, x) && right.TypeOf? && IsName(right.arg, x)
      && TextOf(left) == Some("") && !op.Or?
    case _ => false
  }

  predicate TestRead(q: Question, c: Expr) {
    q.Undef? ==> !Misread(c, q.sym)
  }

  // The expressions for which the graph answers q: a compound assignment's right side does not store to
  // its target (it is bound before the target is read), and no test is misread.
  predicate CleanExpr(q: Question, e: Expr) {
    match e
    case Not(a) => CleanExpr(q, a)
    case TypeOf(a) => CleanExpr(q, a)
    case Binary(_, l, r) => CleanExpr(q, l) && CleanExpr(q, r)
    case Logical(op, l, r) => CleanExpr(q, l) && CleanExpr(q, r) && (op.Nullish? || TestRead(q, l))
    case Conditional(t, y, n) => CleanExpr(q, t) && CleanExpr(q, y) && CleanExpr(q, n) && TestRead(q, t)
    case Assign(op, _, x, r) => CleanExpr(q, r) && (op.Compound? && !q.Reached? && x == q.sym ==> Quiet(q, r))
    case Member(o) => CleanExpr(q, o)
    case SetMember(o, r) => CleanExpr(q, o) && CleanExpr(q, r)
    case Call(c, a) => CleanExpr(q, c) && CleanExpr(q, a)
    case Comma(l, r) => CleanExpr(q, l) && CleanExpr(q, r)
    case Opaque(a) => CleanExpr(q, a)
    case _ => true
  }

  // The part of a loop that is bound before it takes its label.
  predicate HeadTakesLabel(s: Stmt) {
    match s
    case While(t, _) => ExprTakesLabel(t)
    case For(_, start, t, _, _) => StmtTakesLabel(start) || ExprTakesLabel(t)
    case ForOf(_, _, _, subject, _) => ExprTakesLabel(subject)
    case _ => false
  }

  // The statements for which the graph answers q. A case test is bound on the path that falls through
  // to it, so it must not store; an exception leaves a try from states its catch and finally are not
  // entered from, so a try must not disturb q; and a loop has one label, which no closure in its head takes.
  predicate Clean(q: Question, s: Stmt) {
    match s
    case Empty => true
    case Then(f, r) => Clean(q, f) && Clean(q, r)
    case Declare(_, _, init, _) => CleanExpr(q, init)
    case Evaluate(e) => CleanExpr(q, e)
    case Block(_, body) => Clean(q, body)
    case If(t, y, n) => CleanExpr(q, t) && TestRead(q, t) && Clean(q, y) && Clean(q, n)
    case While(t, body) => CleanExpr(q, t) && TestRead(q, t) && Clean(q, body)
    case DoWhile(t, body) => CleanExpr(q, t) && TestRead(q, t) && Clean(q, body)
    case For(_, start, t, u, body) =>
      Clean(q, start) && CleanExpr(q, t) && TestRead(q, t) && CleanExpr(q, u) && Clean(q, body)
    case ForOf(_, _, _, subject, body) => CleanExpr(q, subject) && Clean(q, body)
    case Labeled(tag, body) =>
      && tag != "" && Clean(q, body)
      && (if IsLoop(body) then !HeadTakesLabel(body) else !LabelsLoop(body))
    case Break(_) => true
    case Continue(_) => true
    case Return(e) => CleanExpr(q, e)
    case Throw(e) => CleanExpr(q, e)
    case Switch(_, d, cases) => CleanExpr(q, d) && CleanCases(q, cases)
    case Try(_, block, handler, finalizer) =>
      && Clean(q, block)
      && (handler.Catch? ==> Clean(q, handler.body) && !Disturbs(q, block))
      && (finalizer.Finally? ==> Clean(q, finalizer.body) && !Disturbs(q, block) && !Disturbs(q, finalizer.body))
      && (handler.Catch? && finalizer.Finally? ==> !Disturbs(q, Block(handler.scope, handler.body)))
  }

  predicate CleanCases(q: Question, cases: Cases) {
    cases.Case? ==>
      CleanExpr(q, cases.test) && Quiet(q, cases.test) && Clean(q, cases.body) && CleanCases(q, cases.rest)
  }

  // ----- finally blocks -----

  // The scope of the binding q asks about.
  predicate Owns(q: Question, s: Scope) {
    !q.Reached? && q.sym.scope == s
  }

  // Whether s opens scope.
  predicate Opens(scope: Scope, s: Stmt) {
    match s
    case Then(f, r) => Opens(scope, f) || Opens(scope, r)
    case Block(t, body) => t == scope || Opens(scope, body)
    case If(_, y, n) => Opens(scope, y) || Opens(scope, n)
    case While(_, body) => Opens(scope, body)
    case DoWhile(_, body) => Opens(scope, body)
    case For(t, start, _, _, body) => t == scope || Opens(scope, start) || Opens(scope, body)
    case ForOf(t, _, _, _, body) => t == scope || Opens(scope, body)
    case Labeled(_, body) => Opens(scope, body)
    case Switch(t, _, cases) => t == scope || CasesOpen(scope, cases)
    case Try(_, block, handler, finalizer) =>
      || Opens(scope, block)
      || (handler.Catch? && (handler.scope == scope || Opens(scope, handler.body)))
      || (finalizer.Finally? && Opens(scope, finalizer.body))
    case _ => false
  }

  predicate CasesOpen(scope: Scope, cases: Cases) {
    cases.Case? && (Opens(scope, cases.body) || CasesOpen(scope, cases.rest))
  }

  // Neither branch of c rules undefined out of x.
  predicate Unguarding(x: Symbol, c: Expr) {
    !ExcludesUndefined(c, x, true) && !ExcludesUndefined(c, x, false)
  }

  // No test of a statement in s guards x.
  predicate Unguarded(x: Symbol, s: Stmt) {
    match s
    case Then(f, r) => Unguarded(x, f) && Unguarded(x, r)
    case Block(_, body) => Unguarded(x, body)
    case If(t, y, n) => Unguarding(x, t) && Unguarded(x, y) && Unguarded(x, n)
    case While(t, body) => Unguarding(x, t) && Unguarded(x, body)
    case DoWhile(t, body) => Unguarding(x, t) && Unguarded(x, body)
    case For(_, start, t, _, body) => Unguarded(x, start) && Unguarding(x, t) && Unguarded(x, body)
    case ForOf(_, _, _, _, body) => Unguarded(x, body)
    case Labeled(_, body) => Unguarded(x, body)
    case Switch(_, _, cases) => CasesUnguarded(x, cases)
    case Try(_, block, handler, finalizer) =>
      && Unguarded(x, block)
      && (handler.Catch? ==> Unguarded(x, handler.body))
      && (finalizer.Finally? ==> Unguarded(x, finalizer.body))
    case _ => true
  }

  predicate CasesUnguarded(x: Symbol, cases: Cases) {
    cases.Case? ==> Unguarded(x, cases.body) && CasesUnguarded(x, cases.rest)
  }

  // Nothing in s ends a walk for q.
  predicate Bare(q: Question, s: Stmt) {
    match q
    case Reached => true
    case Undef(x) => !Opens(x.scope, s) && !StmtStores(x, s) && Unguarded(x, s)
    case Declared(x) => !Opens(x.scope, s) && !Declares(x, s)
    case _ => !Opens(q.sym.scope, s) && !StmtStores(q.sym, s)
  }

  // A path leads through s that a walk for q passes.
  predicate Passage(q: Question, tries: set<nat>, s: Stmt) {
    Bare(q, s) && Steady(s, tries) && End in Exits(s, "")
  }

  // The finally of s is not where its entry in the graph is when it is entered on the way out: the graph
  // enters it from the end of its try, and no path passes through the try.
  predicate Diverts(q: Question, tries: set<nat>, s: Stmt) {
    && s.Try? && s.id in tries
    && !Passage(q, tries, s.block)
    && !(s.handler.Catch? && !Owns(q, s.handler.scope) && Passage(q, tries, s.handler.body))
  }

  // Identifier id occurs in e, or in s, outside its functions.
  predicate ExprMentions(id: nat, e: Expr) {
    match e
    case Name(i, _) => i == id
    case Not(a) => ExprMentions(id, a)
    case TypeOf(a) => ExprMentions(id, a)
    case Binary(_, l, r) => ExprMentions(id, l) || ExprMentions(id, r)
    case Logical(_, l, r) => ExprMentions(id, l) || ExprMentions(id, r)
    case Conditional(t, y, n) => ExprMentions(id, t) || ExprMentions(id, y) || ExprMentions(id, n)
    case Assign(_, i, _, r) => i == id || ExprMentions(id, r)
    case Update(i, _) => i == id
    case Member(o) => ExprMentions(id, o)
    case SetMember(o, r) => ExprMentions(id, o) || ExprMentions(id, r)
    case Call(c, a) => ExprMentions(id, c) || ExprMentions(id, a)
    case Comma(l, r) => ExprMentions(id, l) || ExprMentions(id, r)
    case Opaque(a) => ExprMentions(id, a)
    case _ => false
  }

  predicate Mentions(id: nat, s: Stmt) {
    match s
    case Then(f, r) => Mentions(id, f) || Mentions(id, r)
    case Declare(_, _, init, _) => ExprMentions(id, init)
    case Evaluate(e) => ExprMentions(id, e)
    case Block(_, body) => Mentions(id, body)
    case If(t, y, n) => ExprMentions(id, t) || Mentions(id, y) || Mentions(id, n)
    case While(t, body) => ExprMentions(id, t) || Mentions(id, body)
    case DoWhile(t, body) => ExprMentions(id, t) || Mentions(id, body)
    case For(_, start, t, u, body) => Mentions(id, start) || ExprMentions(id, t) || ExprMentions(id, u) || Mentions(id, body)
    case ForOf(_, _, _, subject, body) => ExprMentions(id, subject) || Mentions(id, body)
    case Labeled(_, body) => Mentions(id, body)
    case Return(e) => ExprMentions(id, e)
    case Throw(e) => ExprMentions(id, e)
    case Switch(_, d, cases) => ExprMentions(id, d) || CasesMention(id, cases)
    case Try(_, block, handler, finalizer) =>
      || Mentions(id, block)
      || (handler.Catch? && Mentions(id, handler.body))
      || (finalizer.Finally? && Mentions(id, finalizer.body))
    case _ => false
  }

  predicate CasesMention(id: nat, cases: Cases) {
    cases.Case? && (ExprMentions(id, cases.test) || Mentions(id, cases.body) || CasesMention(id, cases.rest))
  }

  // Where control reaches, inside the scope of q's binding, reference id is in no finally that diverts, and
  // no break or continue leaves one.
  predicate Straight(q: Question, tries: set<nat>, id: nat, s: Stmt, inside: bool) {
    match s
    case Then(f, r) => Straight(q, tries, id, f, inside) && (End in Exits(f, "") ==> Straight(q, tries, id, r, inside))
    case Block(scope, body) => Straight(q, tries, id, body, inside || Owns(q, scope))
    case If(_, y, n) => Straight(q, tries, id, y, inside) && Straight(q, tries, id, n, inside)
    case While(_, body) => Straight(q, tries, id, body, inside)
    case DoWhile(_, body) => Straight(q, tries, id, body, inside)
    case For(scope, start, _, _, body) =>
      && Straight(q, tries, id, start, inside || Owns(q, scope))
      && (End in Exits(start, "") ==> Straight(q, tries, id, body, inside || Owns(q, scope)))
    case ForOf(scope, _, _, _, body) => Straight(q, tries, id, body, inside || Owns(q, scope))
    case Labeled(_, body) => Straight(q, tries, id, body, inside)
    case Switch(scope, _, cases) => StraightCases(q, tries, id, cases, inside || Owns(q, scope))
    case Try(_, block, handler, finalizer) =>
      && Straight(q, tries, id, block, inside)
      && (handler.Catch? ==> Straight(q, tries, id, handler.body, inside || Owns(q, handler.scope)))
      && (finalizer.Finally? ==>
            && Straight(q, tries, id, finalizer.body, inside)
            && (inside && Diverts(q, tries, s) ==> !Mentions(id, finalizer.body) && Contained(finalizer.body)))
    case _ => true
  }

  predicate StraightCases(q: Question, tries: set<nat>, id: nat, cases: Cases, inside: bool) {
    cases.Case? ==> Straight(q, tries, id, cases.body, inside) && StraightCases(q, tries, id, cases.rest, inside)
  }

  // The analyses speak of the activation's own bindings, and, where a value must last across calls, of
  // those no other function stores to.
  predicate Applies(q: Question, a: Activation) {
    q.Reached? || (Own(q.sym, a) && (q.Undef? || q.StoredBy? ==> q.sym !in a.foreign))
  }
}
