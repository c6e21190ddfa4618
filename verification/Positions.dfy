// The order in which the resolving pass visits the program, and how far each assignment reaches in it:
// until the widest statement holding it, of those after its binding's declaration, is over, or, from
// another function, to any time at all.
module Positions {
  import opened Syntax

  // ----- the visiting order -----

  // What the pass does, one step after another: a node numbered, a statement that extends assignments
  // opened and closed, a reference, a declaration, an assignment, a function entered and left.
  datatype Token =
    | Tick
    | Open
    | Close
    | Ref(id: nat, sym: Symbol)
    | Init(sym: Symbol)
    | Set(sym: Symbol)
    | In(fn: Scope)
    | Back(fn: Scope)

  function ExprTokens(e: Expr, fn: Scope): seq<Token> {
    match e
    case NoExpr => []
    case Literal(_) => [Tick]
    case Name(id, x) => [Tick, Ref(id, x)]
    case Not(a) => [Tick] + ExprTokens(a, fn)
    case TypeOf(a) => [Tick] + ExprTokens(a, fn)
    case Binary(_, l, r) => [Tick] + ExprTokens(l, fn) + ExprTokens(r, fn)
    case Logical(_, l, r) => [Tick] + ExprTokens(l, fn) + ExprTokens(r, fn)
    case Conditional(t, y, n) => [Tick] + ExprTokens(t, fn) + ExprTokens(y, fn) + ExprTokens(n, fn)
    case Assign(op, id, x, r) =>
      if op.Plain? || op.Compound? then [Tick] + ExprTokens(r, fn) + [Tick, Ref(id, x), Set(x)]
      else [Tick, Tick, Ref(id, x)] + ExprTokens(r, fn) + [Set(x)]
    case Update(id, x) => [Tick, Tick, Ref(id, x), Set(x)]
    case Member(o) => [Tick] + ExprTokens(o, fn)
    case SetMember(o, r) => [Tick, Tick] + ExprTokens(o, fn) + ExprTokens(r, fn)
    case Call(c, a) => [Tick] + ExprTokens(c, fn) + ExprTokens(a, fn)
    case Comma(l, r) => [Tick] + ExprTokens(l, fn) + ExprTokens(r, fn)
    case Opaque(a) => [Tick] + ExprTokens(a, fn)
    case Closure(f, body) => [Tick, In(f)] + StmtTokens(body, f) + [Back(fn)]
  }

  // The statements an assignment inside extends to the end of.
  predicate ExtendsAssignments(s: Stmt) {
    s.Declare? || s.Evaluate? || s.If? || s.Switch? || s.Try? || IsLoop(s)
  }

  function StmtTokens(s: Stmt, fn: Scope): seq<Token>
    decreases s, 1
  {
    match s
    case Empty => []
    case Then(a, r) => StmtTokens(a, fn) + StmtTokens(r, fn)
    case Block(_, body) => [Tick] + StmtTokens(body, fn)
    case Labeled(_, body) => [Tick] + StmtTokens(body, fn)
    case Break(_) => [Tick]
    case Continue(_) => [Tick]
    case Return(e) => [Tick] + ExprTokens(e, fn)
    case Throw(e) => [Tick] + ExprTokens(e, fn)
    case _ => [Tick, Open] + Inside(s, fn) + [Close]
  }

  // What is inside a statement that extends assignments.
  function Inside(s: Stmt, fn: Scope): seq<Token>
    requires ExtendsAssignments(s)
    decreases s, 0
  {
    match s
    case Declare(kind, x, init, _) =>
      ExprTokens(init, fn) + (if kind != Var then [Init(x)] else if init != NoExpr then [Set(x)] else [])
    case Evaluate(e) => ExprTokens(e, fn)
    case If(t, y, n) => ExprTokens(t, fn) + StmtTokens(y, fn) + StmtTokens(n, fn)
    case While(t, body) => ExprTokens(t, fn) + StmtTokens(body, fn)
    case DoWhile(t, body) => StmtTokens(body, fn) + ExprTokens(t, fn)
    case For(_, start, t, u, body) => StmtTokens(start, fn) + ExprTokens(t, fn) + StmtTokens(body, fn) + ExprTokens(u, fn)
    case ForOf(_, kind, x, subject, body) =>
      ExprTokens(subject, fn) + [if kind != Var then Init(x) else Set(x)] + StmtTokens(body, fn)
    case Switch(_, d, cases) => ExprTokens(d, fn) + CasesTokens(cases, fn)
    case Try(_, block, handler, finalizer) =>
      StmtTokens(block, fn)
      + (if handler.Catch? then StmtTokens(handler.body, fn) else [])
      + (if finalizer.Finally? then StmtTokens(finalizer.body, fn) else [])
  }

  function CasesTokens(cases: Cases, fn: Scope): seq<Token> {
    if cases.NoCases? then []
    else ExprTokens(cases.test, fn) + StmtTokens(cases.body, fn) + CasesTokens(cases.rest, fn)
  }

  // ----- numbering -----

  datatype Place = Until(pos: nat) | Anytime

  datatype Frame = Frame(start: nat, marks: seq<Symbol>)

  datatype Reference = Reference(id: nat, sym: Symbol, pos: nat)

  // The binder, as far as it numbers nodes.
  datatype Numbering = Numbering(
    ord: nat,
    frames: seq<Frame>,
    declared: map<Symbol, nat>,
    entered: map<Scope, nat>,     // where each function begins: its parameters are declared there
    last: map<Symbol, Place>,
    refs: seq<Reference>,
    fn: Scope)

  const Unnumbered: Numbering := Numbering(0, [], map[], map[], map[], [], ModuleScope)

  predicate IsParameter(x: Symbol) {
    exists i :: 0 <= i < |x.declarations| && x.declarations[i].Parameter?
  }

  // Where x is declared, 0 before that.
  function DeclaredAt(st: Numbering, x: Symbol): nat {
    if x in st.declared then st.declared[x]
    else if IsParameter(x) && x.scope in st.entered then st.entered[x.scope]
    else 0
  }

  // An assignment to x counts as far as here.
  function ExtendTo(last: map<Symbol, Place>, x: Symbol, ord: nat): map<Symbol, Place> {
    if x !in last || (last[x].Until? && last[x].pos < ord) then last[x := Until(ord)] else last
  }

  function ExtendAll(last: map<Symbol, Place>, xs: seq<Symbol>, ord: nat): map<Symbol, Place>
    decreases |xs|
  {
    if xs == [] then last else ExtendAll(ExtendTo(last, xs[0], ord), xs[1..], ord)
  }

  // The first frame from i on that begins after position decl, or their number.
  function FrameAfter(frames: seq<Frame>, decl: nat, i: nat): (k: nat)
    requires i <= |frames|
    ensures i <= k <= |frames|
    ensures k < |frames| ==> frames[k].start > decl
    ensures forall j :: i <= j < k ==> frames[j].start <= decl
    decreases |frames| - i
  {
    if i == |frames| || frames[i].start > decl then i else FrameAfter(frames, decl, i + 1)
  }

  function Mark(st: Numbering, x: Symbol): Numbering {
    if st.fn != ContainerOf(x.scope) then st.(last := st.last[x := Anytime])
    else
      var k := FrameAfter(st.frames, DeclaredAt(st, x), 0);
      if k < |st.frames| then st.(frames := st.frames[k := st.frames[k].(marks := st.frames[k].marks + [x])])
      else st.(last := ExtendTo(st.last, x, st.ord))
  }

  function Step(t: Token, st: Numbering): Numbering {
    match t
    case Tick => st.(ord := st.ord + 1)
    case Open => st.(frames := st.frames + [Frame(st.ord, [])])
    case Close =>
      if st.frames == [] then st
      else
        var top := st.frames[|st.frames| - 1];
        st.(frames := st.frames[..|st.frames| - 1], last := ExtendAll(st.last, top.marks, st.ord))
    case Ref(id, x) => st.(refs := st.refs + [Reference(id, x, st.ord)])
    case Init(x) => st.(declared := st.declared[x := st.ord])
    case Set(x) => Mark(st, x)
    case In(f) => st.(fn := f, entered := st.entered[f := st.ord])
    case Back(f) => st.(fn := f)
  }

  function Steps(ts: seq<Token>, st: Numbering): Numbering
    decreases |ts|
  {
    if ts == [] then st else Steps(ts[1..], Step(ts[0], st))
  }

  lemma {:induction false} StepsOn(a: seq<Token>, b: seq<Token>, st: Numbering)
    ensures Steps(a + b, st) == Steps(b, Steps(a, st))
    decreases |a|
  {
    if a == [] {
      assert a + b == b;
    } else {
      assert (a + b)[0] == a[0] && (a + b)[1..] == a[1..] + b;
      StepsOn(a[1..], b, Step(a[0], st));
    }
  }

  function ProgramTokens(program: Stmt): seq<Token> {
    StmtTokens(program, ModuleScope)
  }

  // ----- the answer -----

  // Whether a reference, in a function expression inside the one that declares its symbol, sees the
  // symbol narrowed as at the function expression's creation.
  predicate Narrows(st: Numbering, r: Reference, exported: set<Symbol>, script: bool) {
    && r.sym.declarations != []
    && match r.sym.declarations[0]
       case Variable(kind, _, _, _, _) =>
         kind == Const || (kind == Let && r.sym !in exported && !(script && r.sym.scope == ModuleScope) && NotAssignedFrom(st, r))
       case Parameter => r.sym.scope.FunctionScope? && NotAssignedFrom(st, r)
       case _ => false
  }

  predicate NotAssignedFrom(st: Numbering, r: Reference) {
    r.sym in st.last ==> st.last[r.sym].Until? && st.last[r.sym].pos < r.pos
  }

  lemma OneStep(t: Token, st: Numbering)
    ensures Steps([t], st) == Step(t, st)
  {
  }

  lemma TwoSteps(t: Token, u: Token, st: Numbering)
    ensures Steps([t, u], st) == Step(u, Step(t, st))
  {
    assert [t, u][1..] == [u];
    OneStep(u, Step(t, st));
  }
}
