// The binder as it numbers nodes: a counter, a stack of the open statements that extend assignments,
// and how far each binding is assigned.
module Numberer {
  import opened Syntax
  import opened Positions

  class Numberer {
    var ord: nat
    var frames: seq<Frame>
    var declared: map<Symbol, nat>
    var entered: map<Scope, nat>
    var last: map<Symbol, Place>
    var refs: seq<Reference>
    var fn: Scope

    function State(): Numbering
      reads this
    {
      Numbering(ord, frames, declared, entered, last, refs, fn)
    }

    constructor ()
      ensures State() == Unnumbered
    {
      ord, frames, declared, entered, last, refs, fn := 0, [], map[], map[], map[], [], ModuleScope;
    }

    method OpenFrame()
      modifies this`ord, this`frames
      ensures State() == Steps([Tick, Open], old(State()))
    {
      ord := ord + 1;
      frames := frames + [Frame(ord, [])];
      TwoSteps(Tick, Open, old(State()));
    }

    method CloseFrame()
      modifies this`frames, this`last
      ensures State() == Step(Close, old(State()))
    {
      if frames == [] { return; }
      var top := frames[|frames| - 1].marks;
      frames := frames[..|frames| - 1];
      ghost var whole := ExtendAll(last, top, ord);
      for i := 0 to |top|
        invariant State() == old(State()).(frames := frames, last := last)
        invariant frames == old(frames)[..|old(frames)| - 1]
        invariant ExtendAll(last, top[i..], ord) == whole
      {
        var x := top[i];
        assert top[i..][0] == x && top[i..][1..] == top[i + 1..];
        if x !in last || (last[x].Until? && last[x].pos < ord) { last := last[x := Until(ord)]; }
      }
    }

    method MarkAssignment(x: Symbol)
      modifies this`frames, this`last
      ensures State() == Step(Set(x), old(State()))
    {
      if fn != ContainerOf(x.scope) {
        last := last[x := Anytime];
        return;
      }
      var decl := DeclaredAt(State(), x);
      ghost var k := FrameAfter(frames, decl, 0);
      for i := 0 to |frames|
        invariant State() == old(State()) && FrameAfter(frames, decl, i) == k
      {
        if frames[i].start > decl {
          frames := frames[i := frames[i].(marks := frames[i].marks + [x])];
          return;
        }
      }
      if x !in last || (last[x].Until? && last[x].pos < ord) { last := last[x := Until(ord)]; }
    }

    method Count()
      modifies this`ord
      ensures State() == Steps([Tick], old(State()))
    {
      ord := ord + 1;
    }

    method Refer(id: nat, x: Symbol)
      modifies this`ord, this`refs
      ensures State() == Steps([Tick, Ref(id, x)], old(State()))
    {
      ord := ord + 1;
      refs := refs + [Reference(id, x, ord)];
      TwoSteps(Tick, Ref(id, x), old(State()));
    }

    method NumberExpr(e: Expr)
      modifies this
      ensures State() == Steps(ExprTokens(e, old(fn)), old(State())) && fn == old(fn)
      decreases e, 2
    {
      hide Steps, Step;
      match e
      case NoExpr => NoSteps(State());
      case Literal(_) => Count();
      case Name(id, x) => Refer(id, x);
      case Not(a) => NumberUnary(a);
      case TypeOf(a) => NumberUnary(a);
      case Binary(_, l, r) => NumberBinary(e, l, r);
      case Logical(_, l, r) => NumberBinary(e, l, r);
      case Conditional(t, y, n) => NumberConditional(e);
      case Assign(_, _, _, _) => NumberAssign(e);
      case Update(id, x) => NumberUpdate(id, x);
      case Member(o) => NumberUnary(o);
      case SetMember(o, r) => NumberSetMember(e);
      case Call(c, a) => NumberBinary(e, c, a);
      case Comma(l, r) => NumberBinary(e, l, r);
      case Opaque(a) => NumberUnary(a);
      case Closure(f, body) => NumberFunction(f, body);
    }

    // A node, then its operands.
    method NumberUnary(arg: Expr)
      modifies this
      ensures State() == Steps([Tick] + ExprTokens(arg, old(fn)), old(State())) && fn == old(fn)
      decreases arg, 3
    {
      ghost var st := State();
      hide Steps, Step, ExprTokens;
      Count();
      NumberExpr(arg);
      StepsOn([Tick], ExprTokens(arg, fn), st);
    }

    method NumberBinary(whole: Expr, left: Expr, right: Expr)
      requires left < whole && right < whole
      modifies this
      ensures State() == Steps([Tick] + ExprTokens(left, old(fn)) + ExprTokens(right, old(fn)), old(State())) && fn == old(fn)
      decreases whole, 0
    {
      ghost var st := State();
      hide Steps, Step, ExprTokens;
      NumberUnary(left);
      NumberExpr(right);
      StepsOn([Tick] + ExprTokens(left, fn), ExprTokens(right, fn), st);
    }

    method NumberConditional(e: Expr)
      requires e.Conditional?
      modifies this
      ensures State() == Steps(ExprTokens(e, old(fn)), old(State())) && fn == old(fn)
      decreases e, 1
    {
      ghost var st := State();
      hide Steps, Step;
      NumberBinary(e, e.test, e.yes);
      NumberExpr(e.no);
      StepsOn([Tick] + ExprTokens(e.test, fn) + ExprTokens(e.yes, fn), ExprTokens(e.no, fn), st);
    }

    method NumberUpdate(id: nat, x: Symbol)
      modifies this
      ensures State() == Steps(ExprTokens(Update(id, x), old(fn)), old(State())) && fn == old(fn)
    {
      ghost var st := State();
      hide Steps, Step;
      Count();
      Refer(id, x);
      MarkAssignment(x);
      OneStep(Set(x), Steps([Tick] + [Tick, Ref(id, x)], st));
      StepsOn([Tick], [Tick, Ref(id, x)], st);
      StepsOn([Tick] + [Tick, Ref(id, x)], [Set(x)], st);
      assert [Tick] + [Tick, Ref(id, x)] + [Set(x)] == ExprTokens(Update(id, x), fn);
    }

    method NumberSetMember(e: Expr)
      requires e.SetMember?
      modifies this
      ensures State() == Steps(ExprTokens(e, old(fn)), old(State())) && fn == old(fn)
      decreases e, 0
    {
      ghost var st := State();
      Count();
      Count();
      StepsOn([Tick], [Tick], st);
      NumberExpr(e.base);
      StepsOn([Tick, Tick], ExprTokens(e.base, fn), st);
      NumberExpr(e.right);
      StepsOn([Tick, Tick] + ExprTokens(e.base, fn), ExprTokens(e.right, fn), st);
    }

    // Right side before target, except that a logical assignment has its target first.
    method NumberAssign(e: Expr)
      requires e.Assign?
      modifies this
      ensures State() == Steps(ExprTokens(e, old(fn)), old(State())) && fn == old(fn)
      decreases e, 0
    {
      ghost var st, right := State(), ExprTokens(e.right, fn);
      ghost var target, store := [Tick, Ref(e.id, e.sym)], [Set(e.sym)];
      AssignTokens(e, fn);
      hide Steps, Step, ExprTokens;
      if e.aop == Plain || e.aop == Compound {
        NumberUnary(e.right);
        Refer(e.id, e.sym);
        StepsOn([Tick] + right, target, st);
        OneStep(Set(e.sym), State());
        MarkAssignment(e.sym);
        StepsOn([Tick] + right + target, store, st);
      } else {
        Count();
        Refer(e.id, e.sym);
        StepsOn([Tick], target, st);
        NumberExpr(e.right);
        StepsOn([Tick] + target, right, st);
        OneStep(Set(e.sym), State());
        MarkAssignment(e.sym);
        StepsOn([Tick] + target + right, store, st);
      }
    }

    method NumberFunction(f: Scope, body: Stmt)
      modifies this
      ensures State() == Steps(ExprTokens(Closure(f, body), old(fn)), old(State())) && fn == old(fn)
      decreases body, 3
    {
      ghost var st := State();
      hide Steps, StmtTokens;
      OneStep(Tick, st);
      Count();
      var outer := fn;
      fn, entered := f, entered[f := ord];
      TwoSteps(Tick, In(f), st);
      NumberStmt(body);
      StepsOn([Tick, In(f)], StmtTokens(body, f), st);
      OneStep(Back(outer), State());
      fn := outer;
      StepsOn([Tick, In(f)] + StmtTokens(body, f), [Back(outer)], st);
    }

    method NumberStmt(s: Stmt)
      modifies this
      ensures State() == Steps(StmtTokens(s, old(fn)), old(State())) && fn == old(fn)
      decreases s, 2
    {
      ghost var st := State();
      hide Steps, Step, Positions.Inside;
      match s
      case Empty => NoSteps(st);
      case Then(a, r) =>
        NumberStmt(a);
        NumberStmt(r);
        StepsOn(StmtTokens(a, fn), StmtTokens(r, fn), st);
      case Block(_, body) =>
        Count();
        NumberStmt(body);
        StepsOn([Tick], StmtTokens(body, fn), st);
      case Labeled(_, body) =>
        Count();
        NumberStmt(body);
        StepsOn([Tick], StmtTokens(body, fn), st);
      case Break(_) => Count();
      case Continue(_) => Count();
      case Return(e) => NumberUnary(e);
      case Throw(e) => NumberUnary(e);
      case _ => NumberFrame(s);
    }

    method NumberFrame(s: Stmt)
      requires ExtendsAssignments(s)
      modifies this
      ensures State() == Steps(StmtTokens(s, old(fn)), old(State())) && fn == old(fn)
      decreases s, 1
    {
      ghost var st := State();
      hide Steps, Step, Positions.Inside;
      OpenFrame();
      NumberInside(s);
      StepsOn([Tick, Open], Positions.Inside(s, fn), st);
      OneStep(Close, State());
      CloseFrame();
      StepsOn([Tick, Open] + Positions.Inside(s, fn), [Close], st);
    }

    method NumberInside(s: Stmt)
      requires ExtendsAssignments(s)
      modifies this
      ensures State() == Steps(Positions.Inside(s, old(fn)), old(State())) && fn == old(fn)
      decreases s, 0
    {
      ghost var st, home := State(), fn;
      match s
      case Declare(kind, x, init, _) =>
        NumberExpr(init);
        if kind != Var {
          declared := declared[x := ord];
          StepsOn(ExprTokens(init, home), [Init(x)], st);
        } else if init != NoExpr {
          MarkAssignment(x);
          StepsOn(ExprTokens(init, home), [Set(x)], st);
        } else {
          StepsOn(ExprTokens(init, home), [], st);
        }
      case Evaluate(e) => NumberExpr(e);
      case If(t, y, n) =>
        NumberExpr(t);
        NumberStmt(y);
        StepsOn(ExprTokens(t, home), StmtTokens(y, home), st);
        NumberStmt(n);
        StepsOn(ExprTokens(t, home) + StmtTokens(y, home), StmtTokens(n, home), st);
      case While(t, body) =>
        NumberExpr(t);
        NumberStmt(body);
        StepsOn(ExprTokens(t, home), StmtTokens(body, home), st);
      case DoWhile(t, body) =>
        NumberStmt(body);
        NumberExpr(t);
        StepsOn(StmtTokens(body, home), ExprTokens(t, home), st);
      case For(_, start, t, u, body) =>
        NumberStmt(start);
        NumberExpr(t);
        StepsOn(StmtTokens(start, home), ExprTokens(t, home), st);
        NumberStmt(body);
        StepsOn(StmtTokens(start, home) + ExprTokens(t, home), StmtTokens(body, home), st);
        NumberExpr(u);
        StepsOn(StmtTokens(start, home) + ExprTokens(t, home) + StmtTokens(body, home), ExprTokens(u, home), st);
      case ForOf(_, kind, x, subject, body) =>
        NumberExpr(subject);
        if kind != Var { declared := declared[x := ord]; } else { MarkAssignment(x); }
        ghost var binding := [if kind != Var then Init(x) else Set(x)];
        StepsOn(ExprTokens(subject, home), binding, st);
        NumberStmt(body);
        StepsOn(ExprTokens(subject, home) + binding, StmtTokens(body, home), st);
      case Switch(_, d, cases) =>
        NumberExpr(d);
        NumberCases(cases);
        StepsOn(ExprTokens(d, home), CasesTokens(cases, home), st);
      case Try(_, block, handler, finalizer) =>
        NumberStmt(block);
        ghost var so := StmtTokens(block, home);
        match handler {
          case NoCatch => StepsOn(so, [], st);
          case Catch(_, body) =>
            NumberStmt(body);
            StepsOn(so, StmtTokens(body, home), st);
        }
        so := so + if handler.Catch? then StmtTokens(handler.body, home) else [];
        match finalizer {
          case NoFinally => StepsOn(so, [], st);
          case Finally(body) =>
            NumberStmt(body);
            StepsOn(so, StmtTokens(body, home), st);
        }
    }

    method NumberCases(cases: Cases)
      modifies this
      ensures State() == Steps(CasesTokens(cases, old(fn)), old(State())) && fn == old(fn)
      decreases cases
    {
      ghost var st, home := State(), fn;
      match cases
      case NoCases =>
      case Case(test, body, rest) =>
        NumberExpr(test);
        NumberStmt(body);
        StepsOn(ExprTokens(test, home), StmtTokens(body, home), st);
        NumberCases(rest);
        StepsOn(ExprTokens(test, home) + StmtTokens(body, home), CasesTokens(rest, home), st);
    }

    method NumberProgram(program: Stmt)
      requires State() == Unnumbered
      modifies this
      ensures State() == Steps(ProgramTokens(program), Unnumbered)
    {
      NumberStmt(program);
    }

    // exported are the exported bindings; the top level of a script is global.
    method ClosureNarrows(r: Reference, exported: set<Symbol>, script: bool) returns (yes: bool)
      ensures yes <==> Narrows(State(), r, exported, script)
    {
      var x := r.sym;
      if x.declarations == [] { return false; }
      match x.declarations[0] {
        case Variable(kind, _, _, _, _) =>
          if kind == Const { return true; }
          if kind != Let || x in exported || (script && x.scope == ModuleScope) { return false; }
        case Parameter => if !x.scope.FunctionScope? { return false; }
        case _ => return false;
      }
      return x !in last || (last[x].Until? && last[x].pos < r.pos);
    }
  }

  lemma AssignTokens(e: Expr, fn: Scope)
    requires e.Assign?
    ensures var right, target, store := ExprTokens(e.right, fn), [Tick, Ref(e.id, e.sym)], [Set(e.sym)];
      ExprTokens(e, fn) == if e.aop == Plain || e.aop == Compound then [Tick] + right + target + store else [Tick] + target + right + store
  {
    var right, target, store := ExprTokens(e.right, fn), [Tick, Ref(e.id, e.sym)], [Set(e.sym)];
    assert [Tick] + right + target + store == [Tick] + right + [Tick, Ref(e.id, e.sym), Set(e.sym)];
    assert [Tick] + target + right + store == [Tick, Tick, Ref(e.id, e.sym)] + right + store;
  }

  lemma NoSteps(st: Numbering)
    ensures Steps([], st) == st
  {
  }
}
