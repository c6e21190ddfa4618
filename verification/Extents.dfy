// How far an assignment reaches: past every reference the binder takes it to reach, at the end.
module Extents {
  import opened Syntax
  import opened Positions

  // x is not assigned from position pos on.
  predicate Settled(st: Numbering, x: Symbol, pos: nat) {
    x in st.last ==> st.last[x].Until? && st.last[x].pos < pos
  }

  // An open statement will extend an assignment to x.
  predicate Owed(st: Numbering, x: Symbol, k: nat) {
    k < |st.frames| && x in st.frames[k].marks
  }

  // ----- one step -----

  lemma {:induction false} ExtendAllReaches(last: map<Symbol, Place>, xs: seq<Symbol>, ord: nat, x: Symbol, pos: nat, st: Numbering)
    requires st.last == ExtendAll(last, xs, ord) && Settled(st, x, pos)
    ensures (x in last ==> last[x].Until? && last[x].pos < pos) && (x in xs ==> ord < pos)
    decreases |xs|
  {
    if xs != [] { ExtendAllReaches(ExtendTo(last, xs[0], ord), xs[1..], ord, x, pos, st); }
  }

  lemma StepKeeps(t: Token, st: Numbering, x: Symbol, pos: nat)
    ensures st.ord <= Step(t, st).ord
    ensures Settled(Step(t, st), x, pos) ==> Settled(st, x, pos)
  {
    if t.Close? && st.frames != [] && Settled(Step(t, st), x, pos) {
      ExtendAllReaches(st.last, st.frames[|st.frames| - 1].marks, st.ord, x, pos, Step(t, st));
    }
  }

  lemma {:induction false} StepsKeep(ts: seq<Token>, st: Numbering, x: Symbol, pos: nat)
    ensures st.ord <= Steps(ts, st).ord
    ensures Settled(Steps(ts, st), x, pos) ==> Settled(st, x, pos)
    decreases |ts|
  {
    if ts != [] {
      StepKeeps(ts[0], st, x, pos);
      StepsKeep(ts[1..], Step(ts[0], st), x, pos);
    }
  }

  // What an open statement owes is paid by the time all are closed, here or further on.
  lemma {:induction false} OwedPaid(ts: seq<Token>, st: Numbering, x: Symbol, k: nat, pos: nat)
    requires Owed(st, x, k) && Steps(ts, st).frames == [] && Settled(Steps(ts, st), x, pos)
    ensures st.ord < pos
    decreases |ts|
  {
    hide Step, Owed, Settled;
    if ts == [] {
      NothingOwed(st, x, k);
    } else {
      OwedStep(ts[0], st, x, k, pos);
      StepsKeep(ts[1..], Step(ts[0], st), x, pos);
      if Owed(Step(ts[0], st), x, k) { OwedPaid(ts[1..], Step(ts[0], st), x, k, pos); }
    }
  }

  lemma NothingOwed(st: Numbering, x: Symbol, k: nat)
    ensures Owed(st, x, k) ==> st.frames != []
  {
  }

  lemma OwedStep(t: Token, st: Numbering, x: Symbol, k: nat, pos: nat)
    requires Owed(st, x, k)
    ensures Owed(Step(t, st), x, k) || (Settled(Step(t, st), x, pos) ==> st.ord < pos)
    ensures st.ord <= Step(t, st).ord
  {
    StepKeeps(t, st, x, pos);
    if t.Close? && k == |st.frames| - 1 && Settled(Step(t, st), x, pos) {
      ExtendAllReaches(st.last, st.frames[k].marks, st.ord, x, pos, Step(t, st));
    }
  }

  // ----- assignments -----

  // Every assignment is by the binding's own function, and before pos.
  lemma SetBefore(p: seq<Token>, x: Symbol, q: seq<Token>, st0: Numbering, pos: nat)
    requires Steps(p + [Set(x)] + q, st0).frames == [] && Settled(Steps(p + [Set(x)] + q, st0), x, pos)
    ensures Steps(p, st0).fn == ContainerOf(x.scope) && Steps(p, st0).ord < pos
  {
    var st := Steps(p, st0);
    var st1 := Step(Set(x), st);
    StepsOn(p, [Set(x)] + q, st0);
    assert p + ([Set(x)] + q) == p + [Set(x)] + q;
    assert ([Set(x)] + q)[0] == Set(x) && ([Set(x)] + q)[1..] == q;
    StepsKeep(q, st1, x, pos);
    if st.fn == ContainerOf(x.scope) {
      var k := FrameAfter(st.frames, DeclaredAt(st, x), 0);
      if k < |st.frames| {
        assert Owed(st1, x, k);
        OwedPaid(q, st1, x, k, pos);
      }
    }
  }

  // ----- balanced steps -----

  // The statements open around a step, d at first, never fall below 0.
  predicate Deep(ts: seq<Token>, d: nat)
    decreases |ts|
  {
    ts == [] ||
    match ts[0]
    case Open => Deep(ts[1..], d + 1)
    case Close => d > 0 && Deep(ts[1..], d - 1)
    case _ => Deep(ts[1..], d)
  }

  function Net(ts: seq<Token>): int
    decreases |ts|
  {
    if ts == [] then 0
    else (if ts[0].Open? then 1 else if ts[0].Close? then -1 else 0) + Net(ts[1..])
  }

  predicate Balanced(ts: seq<Token>) {
    Deep(ts, 0) && Net(ts) == 0
  }

  lemma {:induction false} DeepMore(ts: seq<Token>, d: nat)
    requires Deep(ts, d)
    ensures Deep(ts, d + 1) && d + Net(ts) >= 0
    decreases |ts|
  {
    if ts != [] { DeepMore(ts[1..], if ts[0].Open? then d + 1 else if ts[0].Close? then d - 1 else d); }
  }

  lemma {:induction false} DeepFirst(a: seq<Token>, b: seq<Token>, d: nat)
    requires Deep(a + b, d)
    ensures Deep(a, d) && d + Net(a) >= 0 && Deep(b, d + Net(a))
    decreases |a|
  {
    if a == [] {
      assert a + b == b;
    } else {
      assert (a + b)[0] == a[0] && (a + b)[1..] == a[1..] + b;
      DeepFirst(a[1..], b, if a[0].Open? then d + 1 else if a[0].Close? then d - 1 else d);
    }
  }

  lemma {:induction false} NetOn(a: seq<Token>, b: seq<Token>)
    ensures Net(a + b) == Net(a) + Net(b)
    decreases |a|
  {
    if a == [] {
      assert a + b == b;
    } else {
      assert (a + b)[0] == a[0] && (a + b)[1..] == a[1..] + b;
      NetOn(a[1..], b);
    }
  }

  lemma {:induction false} DeepOn(a: seq<Token>, b: seq<Token>, d: nat)
    requires d + Net(a) >= 0
    ensures Deep(a + b, d) <==> Deep(a, d) && Deep(b, d + Net(a))
    decreases |a|
  {
    if a == [] {
      assert a + b == b;
    } else {
      assert (a + b)[0] == a[0] && (a + b)[1..] == a[1..] + b;
      if !(a[0].Close? && d == 0) {
        DeepOn(a[1..], b, if a[0].Open? then d + 1 else if a[0].Close? then d - 1 else d);
      }
    }
  }

  lemma BalancedOn(a: seq<Token>, b: seq<Token>)
    requires Balanced(a) && Balanced(b)
    ensures Balanced(a + b)
  {
    NetOn(a, b);
    DeepOn(a, b, 0);
  }

  // Balanced runs of steps compose.
  lemma BalancedRuns()
    ensures forall a: seq<Token>, b: seq<Token> {:trigger Balanced(a + b)} :: Balanced(a) && Balanced(b) ==> Balanced(a + b)
    ensures Balanced([])
    ensures forall t: Token :: !t.Open? && !t.Close? ==> Balanced([t])
  {
    forall a: seq<Token>, b: seq<Token> | Balanced(a) && Balanced(b) ensures Balanced(a + b) { BalancedOn(a, b); }
    forall t: Token | !t.Open? && !t.Close? ensures Balanced([t]) {
      assert [t][1..] == [];
    }
  }

  lemma PairBalanced(t: Token, u: Token)
    requires !t.Open? && !t.Close? && !u.Open? && !u.Close?
    ensures Balanced([t, u])
  {
    BalancedOn([t], [u]);
    assert [t] + [u] == [t, u];
  }

  lemma BalancedFrame(inner: seq<Token>)
    requires Balanced(inner)
    ensures Balanced([Tick, Open] + inner + [Close])
  {
    DeepMore(inner, 0);
    NetOn(inner, [Close]);
    DeepOn(inner, [Close], 1);
    var ts := [Tick, Open] + (inner + [Close]);
    assert ts == [Tick, Open] + inner + [Close];
    assert ts[1..] == [Open] + (inner + [Close]) && ts[1..][1..] == inner + [Close];
    assert Deep(ts[1..], 0);
  }

  lemma {:induction false} ExprBalanced(e: Expr, fn: Scope)
    ensures Balanced(ExprTokens(e, fn))
    decreases e, 1
  {
    BalancedRuns();
    hide Balanced;
    match e
    case NoExpr =>
    case Literal(_) =>
    case Name(id, x) => PairBalanced(Tick, Ref(id, x));
    case Not(a) => ExprBalanced(a, fn);
    case TypeOf(a) => ExprBalanced(a, fn);
    case Binary(_, l, r) => ExprBalanced(l, fn); ExprBalanced(r, fn);
    case Logical(_, l, r) => ExprBalanced(l, fn); ExprBalanced(r, fn);
    case Conditional(t, y, n) => ExprBalanced(t, fn); ExprBalanced(y, fn); ExprBalanced(n, fn);
    case Assign(_, id, x, r) => ExprBalanced(r, fn); StoreBalanced(id, x);
    case Update(id, x) => StoreBalanced(id, x);
    case Member(o) => ExprBalanced(o, fn);
    case SetMember(o, r) => PairBalanced(Tick, Tick); ExprBalanced(o, fn); ExprBalanced(r, fn);
    case Call(c, a) => ExprBalanced(c, fn); ExprBalanced(a, fn);
    case Comma(l, r) => ExprBalanced(l, fn); ExprBalanced(r, fn);
    case Opaque(a) => ExprBalanced(a, fn);
    case Closure(f, body) => PairBalanced(Tick, In(f)); StmtBalanced(body, f);
  }

  lemma StoreBalanced(id: nat, x: Symbol)
    ensures Balanced([Tick, Ref(id, x), Set(x)]) && Balanced([Tick, Tick, Ref(id, x)]) && Balanced([Tick, Tick, Ref(id, x), Set(x)])
  {
    PairBalanced(Tick, Ref(id, x));
    BalancedRuns();
    hide Balanced;
    assert [Tick, Ref(id, x)] + [Set(x)] == [Tick, Ref(id, x), Set(x)];
    assert [Tick] + [Tick, Ref(id, x)] == [Tick, Tick, Ref(id, x)];
    assert [Tick, Tick, Ref(id, x)] + [Set(x)] == [Tick, Tick, Ref(id, x), Set(x)];
  }

  lemma {:induction false} StmtBalanced(s: Stmt, fn: Scope)
    ensures Balanced(StmtTokens(s, fn))
    decreases s, 1
  {
    BalancedRuns();
    hide Balanced;
    match s
    case Empty =>
    case Then(a, r) => StmtBalanced(a, fn); StmtBalanced(r, fn);
    case Block(_, body) => StmtBalanced(body, fn);
    case Labeled(_, body) => StmtBalanced(body, fn);
    case Break(_) =>
    case Continue(_) =>
    case Return(e) => ExprBalanced(e, fn);
    case Throw(e) => ExprBalanced(e, fn);
    case _ =>
      InsideBalanced(s, fn);
      BalancedFrame(Inside(s, fn));
  }

  lemma {:induction false} InsideBalanced(s: Stmt, fn: Scope)
    requires ExtendsAssignments(s)
    ensures Balanced(Inside(s, fn))
    decreases s, 0
  {
    BalancedRuns();
    hide Balanced;
    match s
    case Declare(_, _, init, _) => ExprBalanced(init, fn);
    case Evaluate(e) => ExprBalanced(e, fn);
    case If(t, y, n) => ExprBalanced(t, fn); StmtBalanced(y, fn); StmtBalanced(n, fn);
    case While(t, body) => ExprBalanced(t, fn); StmtBalanced(body, fn);
    case DoWhile(t, body) => ExprBalanced(t, fn); StmtBalanced(body, fn);
    case For(_, start, t, u, body) =>
      StmtBalanced(start, fn);
      ExprBalanced(t, fn);
      StmtBalanced(body, fn);
      ExprBalanced(u, fn);
    case ForOf(_, _, _, subject, body) => ExprBalanced(subject, fn); StmtBalanced(body, fn);
    case Switch(_, d, cases) => ExprBalanced(d, fn); CasesBalanced(cases, fn);
    case Try(_, block, handler, finalizer) =>
      StmtBalanced(block, fn);
      if handler.Catch? { StmtBalanced(handler.body, fn); }
      if finalizer.Finally? { StmtBalanced(finalizer.body, fn); }
  }

  lemma {:induction false} CasesBalanced(cases: Cases, fn: Scope)
    ensures Balanced(CasesTokens(cases, fn))
    decreases cases
  {
    BalancedRuns();
    hide Balanced;
    if cases.Case? {
      ExprBalanced(cases.test, fn);
      StmtBalanced(cases.body, fn);
      CasesBalanced(cases.rest, fn);
    }
  }

  // ----- open statements while the steps inside one run -----

  // The first n open statements of st are still open in st1, owing no less.
  predicate StillOpen(st: Numbering, st1: Numbering, n: nat) {
    n <= |st.frames| && n <= |st1.frames| && forall k :: 0 <= k < n ==>
      st1.frames[k].start == st.frames[k].start && forall x :: x in st.frames[k].marks ==> x in st1.frames[k].marks
  }

  lemma {:induction false} DeepKeeps(ts: seq<Token>, st: Numbering, n: nat)
    requires n <= |st.frames| && Deep(ts, |st.frames| - n)
    ensures StillOpen(st, Steps(ts, st), n) && |Steps(ts, st).frames| == |st.frames| + Net(ts)
    decreases |ts|
  {
    if ts != [] {
      var st1 := Step(ts[0], st);
      assert StillOpen(st, st1, n);
      DeepKeeps(ts[1..], st1, n);
    }
  }

  // ----- declarations -----

  // Nothing is declared further on than the count.
  ghost predicate Declared(st: Numbering, x: Symbol) {
    (x in st.declared ==> st.declared[x] <= st.ord) && forall f :: f in st.entered ==> st.entered[f] <= st.ord
  }

  lemma {:induction false} DeclaredBefore(ts: seq<Token>, st: Numbering, x: Symbol)
    requires Declared(st, x)
    ensures Declared(Steps(ts, st), x) && st.ord <= Steps(ts, st).ord
    decreases |ts|
  {
    hide Step, Declared;
    if ts != [] {
      StepKeeps(ts[0], st, x, 0);
      StepDeclared(ts[0], st, x);
      DeclaredBefore(ts[1..], Step(ts[0], st), x);
    }
  }

  lemma StepDeclared(t: Token, st: Numbering, x: Symbol)
    requires Declared(st, x)
    ensures Declared(Step(t, st), x)
  {
    StepKeeps(t, st, x, 0);
  }

  lemma {:induction false} DeclaredStill(ts: seq<Token>, st: Numbering, x: Symbol)
    requires Init(x) !in ts && In(x.scope) !in ts
    ensures DeclaredAt(Steps(ts, st), x) == DeclaredAt(st, x)
    decreases |ts|
  {
    hide Step, DeclaredAt;
    if ts != [] {
      assert ts[0] in ts;
      StepDeclares(ts[0], st, x);
      DeclaredStill(ts[1..], Step(ts[0], st), x);
    }
  }

  lemma StepDeclares(t: Token, st: Numbering, x: Symbol)
    requires t != Init(x) && t != In(x.scope)
    ensures DeclaredAt(Step(t, st), x) == DeclaredAt(st, x)
  {
  }

  // ----- statements that extend assignments -----

  // A statement that holds an assignment, but neither its binding's declaration nor its function's start,
  // ends before pos.
  lemma FrameBefore(p: seq<Token>, inner: seq<Token>, q: seq<Token>, x: Symbol, pos: nat)
    requires Balanced(inner) && Init(x) !in inner && In(x.scope) !in inner && Set(x) in inner
    requires var st := Steps(p + ([Tick, Open] + inner + [Close]) + q, Unnumbered); st.frames == [] && Settled(st, x, pos)
    ensures Steps(p + [Tick, Open] + inner, Unnumbered).ord < pos
  {
    hide Steps, Deep, Net;
    var k :| 0 <= k < |inner| && inner[k] == Set(x);
    var a, b := inner[..k], inner[k + 1..];
    var head, rest := p + [Tick, Open], [Close] + q;
    assert inner == a + ([Set(x)] + b);
    assert p + ([Tick, Open] + inner + [Close]) + q == head + a + [Set(x)] + (b + rest);
    assert head + a + ([Set(x)] + b) == head + inner;
    assert p + ([Tick, Open] + inner + [Close]) + q == head + inner + rest;
    FrameOpened(p, x);
    DeepFirst(a, [Set(x)] + b, 0);
    FrameTail(head, a, b, rest, x, pos);
  }

  lemma FrameTail(head: seq<Token>, a: seq<Token>, b: seq<Token>, rest: seq<Token>, x: Symbol, pos: nat)
    requires Net(a) >= 0 && Deep(a, 0) && Deep([Set(x)] + b, Net(a)) && Init(x) !in a && In(x.scope) !in a
    requires var st := Steps(head, Unnumbered); st.frames != [] && st.frames[|st.frames| - 1].start > DeclaredAt(st, x)
    requires var st := Steps(head + a + [Set(x)] + (b + rest), Unnumbered); st.frames == [] && Settled(st, x, pos)
    requires head + a + [Set(x)] + (b + rest) == head + a + ([Set(x)] + b) + rest
    ensures Steps(head + a + ([Set(x)] + b), Unnumbered).ord < pos
  {
    hide Steps, Deep, Net, Owed;
    var st := Steps(head + a, Unnumbered);
    SetBefore(head + a, x, b + rest, Unnumbered, pos);
    StepsOn(head, a, Unnumbered);
    InsideKeeps(a, b, Steps(head, Unnumbered), x);
    SetThen(x, b, st);
    StepsOn(head + a, [Set(x)] + b, Unnumbered);
    StepsOn(head + a + ([Set(x)] + b), rest, Unnumbered);
    OwedPaid(rest, Steps(b, Step(Set(x), st)), x, FrameAfter(st.frames, DeclaredAt(st, x), 0), pos);
  }

  lemma SetThen(x: Symbol, b: seq<Token>, st: Numbering)
    ensures Steps([Set(x)] + b, st) == Steps(b, Step(Set(x), st))
  {
    assert ([Set(x)] + b)[0] == Set(x) && ([Set(x)] + b)[1..] == b;
  }

  // A statement opened begins after every declaration so far.
  lemma FrameOpened(p: seq<Token>, x: Symbol)
    ensures var st := Steps(p + [Tick, Open], Unnumbered);
      Declared(st, x) && st.frames != [] && st.frames[|st.frames| - 1].start > DeclaredAt(st, x)
  {
    var st := Steps(p, Unnumbered);
    DeclaredBefore(p, Unnumbered, x);
    StepsOn(p, [Tick, Open], Unnumbered);
    assert [Tick, Open][1..] == [Open];
    assert Steps([Tick, Open], st) == Step(Open, Step(Tick, st));
  }

  lemma InsideKeeps(a: seq<Token>, b: seq<Token>, st: Numbering, x: Symbol)
    requires Net(a) >= 0 && Deep(a, 0) && Deep([Set(x)] + b, Net(a))
    requires Init(x) !in a && In(x.scope) !in a && Steps(a, st).fn == ContainerOf(x.scope)
    requires st.frames != [] && st.frames[|st.frames| - 1].start > DeclaredAt(st, x)
    ensures var st2 := Steps(a, st);
      var k := FrameAfter(st2.frames, DeclaredAt(st2, x), 0);
      k < |st.frames| && Owed(Step(Set(x), st2), x, k) && Owed(Steps(b, Step(Set(x), st2)), x, k)
  {
    var n := |st.frames|;
    var st2 := Steps(a, st);
    DeepKeeps(a, st, n);
    DeclaredStill(a, st, x);
    var k := FrameAfter(st2.frames, DeclaredAt(st2, x), 0);
    assert st2.frames[n - 1].start == st.frames[n - 1].start;
    var st3 := Step(Set(x), st2);
    assert Owed(st3, x, k);
    assert ([Set(x)] + b)[0] == Set(x) && ([Set(x)] + b)[1..] == b;
    DeepKeeps(b, st3, n);
  }
}
