// The binder in the resolving pass: it keeps the flow node it has come to, patching
// labels as it goes, and then answers questions by walking the graph back from a reference.
module Binder {
  import opened Syntax
  import opened FlowGraph
  import opened Walks
  import Visit
  import Search

  class Binder {
    var nodes: seq<FlowNode>
    var antecedents: map<nat, seq<nat>>
    var accesses: seq<Access>
    var foreign: set<Symbol>
    var endReachable: set<Scope>
    var blindTries: set<nat>
    var flow: nat
    var container: Scope
    var jumps: seq<JumpTarget>
    var pendingLabel: string
    var exceptionTargets: seq<nat>

    function Bound(): Binding
      reads this
    {
      Binding(nodes, antecedents, accesses, foreign, endReachable, blindTries)
    }

    // The binder's state as a value: each method below takes it where the visits of Visit say.
    function State(): Builder
      reads this
    {
      Builder(Bound(), flow, container, jumps, pendingLabel, exceptionTargets)
    }

    constructor ()
      ensures State() == NothingBound
    {
      nodes, antecedents, accesses, foreign, endReachable, blindTries := [Unreachable], map[], [], {}, {}, {};
      flow, container, jumps, pendingLabel, exceptionTargets := Dead, ModuleScope, [], "", [];
    }

    // ----- the graph -----

    method AddNode(n: FlowNode) returns (at: nat)
      modifies this
      ensures State() == Add(old(State()), n) && at == |old(nodes)|
    {
      at := |nodes|;
      nodes := nodes + [n];
    }

    method StepTo(n: FlowNode)
      modifies this
      ensures State() == Step(old(State()), n)
    {
      flow := AddNode(n);
    }

    method Attach(l: nat, f: nat)
      modifies this
      ensures State() == AddAntecedent(old(State()), l, f)
    {
      if f == Dead { return; }
      var known := if l in antecedents then antecedents[l] else [];
      for i := 0 to |known|
        invariant f !in known[..i]
        invariant State() == old(State())
      {
        if known[i] == f { return; }
      }
      assert known[..|known|] == known;
      antecedents := antecedents[l := known + [f]];
    }

    method FinishLabel(l: nat)
      modifies this`flow
      ensures State() == Resume(old(State()), l)
    {
      flow := if l !in antecedents || antecedents[l] == [] then Dead else l;
    }

    method JoinPaths(f1: nat, f2: nat)
      modifies this
      ensures State() == Join(old(State()), f1, f2)
    {
      var l := AddNode(BranchLabel);
      Attach(l, f1);
      Attach(l, f2);
      FinishLabel(l);
    }

    method TakeBranch(f: nat, test: Expr, truthy: bool)
      modifies this
      ensures State() == Branch(old(State()), f, test, truthy)
    {
      flow := f;
      if f != Dead && test != NoExpr { StepTo(Condition(f, test, truthy)); }
    }

    method TakeClause(f: nat, clause: int)
      modifies this
      ensures State() == EnterClause(old(State()), f, clause)
    {
      flow := f;
      if f != Dead { StepTo(SwitchClause(f, clause)); }
    }

    method OpenScope(s: Scope)
      modifies this
      ensures State() == StartScope(old(State()), s)
    {
      if flow != Dead { StepTo(ScopeStart(flow, s)); }
    }

    // One more store to x, handed to every open try: an exception may come right after it.
    method AssignHere(x: Symbol, site: Site, init: bool, assign: bool)
      modifies this
      ensures State() == AssignFlow(old(State()), x, site, init, assign)
    {
      if container != ContainerOf(x.scope) { foreign := foreign + {x}; }
      if flow == Dead { return; }
      StepTo(Assignment(flow, x, site, init, assign));
      ghost var b := State();
      for i := 0 to |exceptionTargets|
        invariant exceptionTargets == b.exceptionTargets && flow == b.flow
        invariant AddAntecedentToAll(b, b.exceptionTargets, b.flow) == AddAntecedentToAll(State(), b.exceptionTargets[i..], b.flow)
      {
        Attach(exceptionTargets[i], flow);
      }
    }

    method ReferTo(id: nat, x: Symbol, written: bool)
      modifies this
      ensures State() == Refer(old(State()), id, x, written)
    {
      accesses := accesses + [Access(id, x, flow, container, written)];
    }

    method LookUpJump(tag: string, cont: bool) returns (t: Option<JumpTarget>)
      ensures t == FindJump(jumps, tag, cont)
    {
      var i := |jumps|;
      assert jumps[..i] == jumps;
      while i > 0
        invariant 0 <= i <= |jumps| && FindJump(jumps, tag, cont) == FindJump(jumps[..i], tag, cont)
      {
        assert jumps[..i][..i - 1] == jumps[..i - 1];
        i := i - 1;
        var j := jumps[i];
        if tag != "" && j.tag != tag { continue; }
        if cont && j.continueTo == Dead {
          if tag != "" { return None; }
          continue;
        }
        if tag == "" && j.breakOnly { continue; }
        return Some(j);
      }
      return None;
    }

    // ----- expressions -----

    method BindExpr(e: Expr)
      modifies this
      ensures State() == Visit.VisitExpr(e, old(State()))
      decreases e, 1
    {
      hide Extends, Grows, Visit.Visited, Visit.VisitLogical, Visit.VisitConditional, Visit.VisitAssign, Visit.VisitFunction, AssignFlow, AddAntecedent;
      match e
      case NoExpr =>
      case Literal(_) =>
      case Name(id, x) => ReferTo(id, x, false);
      case Not(arg) => BindExpr(arg);
      case TypeOf(arg) => BindExpr(arg);
      case Binary(_, left, right) =>
        BindExpr(left);
        BindExpr(right);
      case Logical(_, _, _) => BindLogical(e);
      case Conditional(_, _, _) => BindConditional(e);
      case Assign(_, _, _, _) => BindAssign(e);
      case Update(_, _) => BindUpdate(e);
      case Member(o) => BindExpr(o);
      case SetMember(_, _) => BindSetMember(e);
      case Call(_, _) => BindCall(e);
      case Comma(first, second) =>
        BindExpr(first);
        BindExpr(second);
      case Opaque(arg) => BindExpr(arg);
      case Closure(fn, body) => BindClosure(fn, body);
    }

    method BindUpdate(e: Expr)
      requires e.Update?
      modifies this
      ensures State() == Visit.VisitExpr(e, old(State()))
    {
      hide Extends, Grows, Visit.Visited, AssignFlow;
      ReferTo(e.id, e.sym, false);
      AssignHere(e.sym, OtherSite, false, true);
    }

    method BindSetMember(e: Expr)
      requires e.SetMember?
      modifies this
      ensures State() == Visit.VisitExpr(e, old(State()))
      decreases e, 0
    {
      hide Extends, Grows, Visit.Visited;
      BindExpr(e.base);
      BindExpr(e.right);
      if RootIdentifier(e.base) && flow != Dead { StepTo(PropertyAssignment(flow)); }
    }

    method BindCall(e: Expr)
      requires e.Call?
      modifies this
      ensures State() == Visit.VisitExpr(e, old(State()))
      decreases e, 0
    {
      hide Extends, Grows, Visit.Visited;
      BindExpr(e.callee);
      BindExpr(e.args);
      if DottedName(e.callee) && flow != Dead { StepTo(CallFlow(flow)); }
    }

    method BindClosure(fn: Scope, body: Stmt)
      modifies this
      ensures State() == Visit.VisitExpr(Closure(fn, body), old(State()))
      decreases body, 4
    {
      var savedFlow, savedContainer, savedJumps, savedTargets := flow, container, jumps, exceptionTargets;
      BindFunction(fn, body);
      flow, container, jumps, exceptionTargets := savedFlow, savedContainer, savedJumps, savedTargets;
    }

    method BindFunction(fn: Scope, body: Stmt)
      modifies this
      ensures State() == Visit.VisitFunction(fn, body, old(State()))
      decreases body, 3
    {
      hide Extends, Visit.VisitStmt;
      StepTo(Start(fn));
      container, jumps, exceptionTargets := fn, [], [];
      BindStmt(body);
      if flow != Dead { endReachable := endReachable + {fn}; }
    }

    method BindLogical(e: Expr)
      requires e.Logical?
      modifies this
      ensures State() == Visit.VisitLogical(e, old(State()))
      decreases e, 0
    {
      BindExpr(e.left);
      var pre := flow;
      var short := pre;
      if e.lop != Nullish {
        TakeBranch(pre, e.left, e.lop == And);
        var yes := flow;
        TakeBranch(pre, e.left, e.lop != And);
        short := flow;
        flow := yes;
      }
      BindExpr(e.right);
      JoinPaths(short, flow);
    }

    method BindConditional(e: Expr)
      requires e.Conditional?
      modifies this
      ensures State() == Visit.VisitConditional(e, old(State()))
      decreases e, 0
    {
      BindExpr(e.test);
      var pre := flow;
      TakeBranch(pre, e.test, true);
      BindExpr(e.yes);
      var yes := flow;
      TakeBranch(pre, e.test, false);
      BindExpr(e.no);
      JoinPaths(yes, flow);
    }

    method BindAssign(e: Expr)
      requires e.Assign?
      modifies this
      ensures State() == Visit.VisitAssign(e, old(State()))
      decreases e, 0
    {
      var site := AssignmentSite(e.id, e.aop);
      if e.aop == Plain || e.aop == Compound {
        BindExpr(e.right);
        ReferTo(e.id, e.sym, e.aop == Plain);
        AssignHere(e.sym, site, false, true);
      } else {
        var stores := e.aop == AndAssign;
        ReferTo(e.id, e.sym, false);
        var pre := flow;
        TakeBranch(pre, Visit.AssignTest(e), stores);
        BindExpr(e.right);
        AssignHere(e.sym, site, false, true);
        var stored := flow;
        TakeBranch(pre, Visit.AssignTest(e), !stores);
        JoinPaths(flow, stored);
      }
    }

    // ----- statements -----

    method BindStmt(s: Stmt)
      modifies this
      ensures State() == Visit.VisitStmt(s, old(State()))
      decreases s, 2
    {
      hide Extends, Grows, Visit.Visited, StartScope, Visit.VisitExpr, Visit.VisitDeclare, Visit.VisitIf, Visit.VisitWhile, Visit.VisitDoWhile, Visit.VisitFor, Visit.VisitForOf, Visit.VisitLabeled, Visit.VisitJump, Visit.VisitSwitch, Visit.VisitTry;
      match s
      case Empty =>
      case Then(first, rest) =>
        BindStmt(first);
        BindStmt(rest);
      case Declare(_, _, _, _) => BindDeclare(s);
      case Evaluate(e) =>
        BindExpr(e);
        if e.Call? && ReturnsNever(e.callee) { flow := Dead; }
      case Block(scope, body) =>
        OpenScope(scope);
        BindStmt(body);
      case If(_, _, _) => BindIf(s);
      case While(_, _) => BindLoop(s);
      case DoWhile(_, _) => BindLoop(s);
      case For(_, _, _, _, _) => BindLoop(s);
      case ForOf(_, _, _, _, _) => BindLoop(s);
      case Labeled(_, _) => BindLabeled(s);
      case Break(tag) => BindJump(tag, false);
      case Continue(tag) => BindJump(tag, true);
      case Return(e) =>
        BindExpr(e);
        flow := Dead;
      case Throw(e) =>
        BindExpr(e);
        flow := Dead;
      case Switch(_, _, _) => BindSwitch(s);
      case Try(_, _, _, _) => BindTry(s);
    }

    method BindLoop(s: Stmt)
      requires IsLoop(s)
      modifies this
      ensures State() == Visit.VisitStmt(s, old(State()))
      decreases s, 1
    {
      hide Extends, Grows, Visit.Visited, Visit.VisitWhile, Visit.VisitDoWhile, Visit.VisitFor, Visit.VisitForOf;
      match s
      case While(_, _) => BindWhile(s);
      case DoWhile(_, _) => BindDoWhile(s);
      case For(_, _, _, _, _) => BindFor(s);
      case ForOf(_, _, _, _, _) => BindForOf(s);
    }

    method BindJump(tag: string, cont: bool)
      modifies this
      ensures State() == Visit.VisitJump(tag, cont, old(State()))
    {
      var t := LookUpJump(tag, cont);
      if t.Some? { Attach(if cont then t.value.continueTo else t.value.breakTo, flow); }
      flow := Dead;
    }

    method BindDeclare(s: Stmt)
      requires s.Declare?
      modifies this
      ensures State() == Visit.VisitDeclare(s, old(State()))
      decreases s, 0
    {
      BindExpr(s.init);
      var site := DeclarationSite(s.id, s.init != NoExpr);
      if s.kind != Var { AssignHere(s.sym, site, true, s.init != NoExpr); }
      else if s.init != NoExpr { AssignHere(s.sym, site, false, true); }
    }

    method BindIf(s: Stmt)
      requires s.If?
      modifies this
      ensures State() == Visit.VisitIf(s, old(State()))
      decreases s, 0
    {
      BindExpr(s.test);
      var pre := flow;
      TakeBranch(pre, s.test, true);
      BindStmt(s.yes);
      var yes := flow;
      TakeBranch(pre, s.test, false);
      BindStmt(s.no);
      JoinPaths(yes, flow);
    }

    method BindLoopTest(test: Expr, exit: nat)
      modifies this
      ensures State() == Visit.LoopTest(old(State()), test, exit)
    {
      var pre := flow;
      if !AlwaysTrue(test) {
        TakeBranch(pre, test, false);
        Attach(exit, flow);
      }
      TakeBranch(pre, test, true);
    }

    method BindLoopBody(body: Stmt, exit: nat, next: nat)
      modifies this
      ensures State() == Visit.VisitLoopBody(body, old(State()), exit, next)
      decreases body, 3
    {
      var outer := jumps;
      jumps, pendingLabel := jumps + [JumpTarget(pendingLabel, exit, next, false)], "";
      BindStmt(body);
      jumps := outer;
    }

    method BindWhile(s: Stmt)
      requires s.While?
      modifies this
      ensures State() == Visit.VisitWhile(s, old(State()))
      decreases s, 0
    {
      var loop := AddNode(LoopLabel);
      Attach(loop, flow);
      flow := loop;
      BindExpr(s.test);
      var exit := AddNode(BranchLabel);
      BindLoopTest(s.test, exit);
      BindLoopBody(s.body, exit, loop);
      Attach(loop, flow);
      FinishLabel(exit);
    }

    method BindDoWhile(s: Stmt)
      requires s.DoWhile?
      modifies this
      ensures State() == Visit.VisitDoWhile(s, old(State()))
      decreases s, 0
    {
      hide Extends, Grows, Visit.Visited, AddAntecedent, Finish, Visit.VisitLoopBody, Visit.LoopEnd;
      var loop := AddNode(LoopLabel);
      Attach(loop, flow);
      var exit := AddNode(BranchLabel);
      var next := AddNode(BranchLabel);
      flow := loop;
      BindLoopBody(s.body, exit, next);
      Attach(next, flow);
      FinishLabel(next);
      BindLoopEnd(s.test, loop, exit);
      FinishLabel(exit);
    }

    method BindLoopEnd(test: Expr, loop: nat, exit: nat)
      modifies this
      ensures State() == Visit.LoopEnd(test, old(State()), loop, exit)
      decreases test, 2
    {
      BindExpr(test);
      var end := flow;
      TakeBranch(end, test, true);
      Attach(loop, flow);
      if !AlwaysTrue(test) {
        TakeBranch(end, test, false);
        Attach(exit, flow);
      }
    }

    method BindFor(s: Stmt)
      requires s.For?
      modifies this
      ensures State() == Visit.VisitFor(s, old(State()))
      decreases s, 0
    {
      OpenScope(s.scope);
      BindStmt(s.start);
      var loop := AddNode(LoopLabel);
      Attach(loop, flow);
      flow := loop;
      BindExpr(s.test);
      var exit := AddNode(BranchLabel);
      BindLoopTest(s.test, exit);
      var next := AddNode(BranchLabel);
      BindLoopBody(s.body, exit, next);
      Attach(next, flow);
      FinishLabel(next);
      BindExpr(s.update);
      Attach(loop, flow);
      FinishLabel(exit);
    }

    method BindForOf(s: Stmt)
      requires s.ForOf?
      modifies this
      ensures State() == Visit.VisitForOf(s, old(State()))
      decreases s, 0
    {
      hide Extends, Visit.VisitExpr, Visit.VisitLoopBody, AssignFlow;
      BindExpr(s.subject);
      var loop := AddNode(LoopLabel);
      Attach(loop, flow);
      var exit := AddNode(BranchLabel);
      Attach(exit, loop);
      flow := loop;
      OpenScope(s.scope);
      AssignHere(s.sym, OtherSite, s.kind != Var, true);
      BindLoopBody(s.body, exit, loop);
      Attach(loop, flow);
      FinishLabel(exit);
    }

    method BindLabeled(s: Stmt)
      requires s.Labeled?
      modifies this
      ensures State() == Visit.VisitLabeled(s, old(State()))
      decreases s, 0
    {
      if IsLoop(s.body) {
        pendingLabel := s.tag;
        BindStmt(s.body);
      } else {
        var exit := AddNode(BranchLabel);
        var outer := jumps;
        jumps := jumps + [JumpTarget(s.tag, exit, Dead, true)];
        BindStmt(s.body);
        jumps := outer;
        Attach(exit, flow);
        FinishLabel(exit);
      }
    }

    method BindSwitch(s: Stmt)
      requires s.Switch?
      modifies this
      ensures State() == Visit.VisitSwitch(s, old(State()))
      decreases s, 0
    {
      hide Extends, Visit.VisitExpr, Visit.VisitCases;
      BindExpr(s.discriminant);
      OpenScope(s.scope);
      var pre := flow;
      var exit := AddNode(BranchLabel);
      var outer := jumps;
      jumps, pendingLabel, flow := jumps + [JumpTarget(pendingLabel, exit, Dead, false)], "", Dead;
      BindCases(s.cases, 0, pre);
      jumps := outer;
      Attach(exit, flow);
      if !Visit.HasDefault(s.cases) {
        TakeClause(pre, -1);
        Attach(exit, flow);
      }
      FinishLabel(exit);
    }

    method BindCases(cases: Cases, clause: int, pre: nat)
      modifies this
      ensures State() == Visit.VisitCases(cases, clause, pre, old(State()))
      decreases cases, 1
    {
      match cases
      case NoCases =>
      case Case(test, body, rest) =>
        var fallthrough := flow;
        TakeClause(pre, clause);
        JoinPaths(flow, fallthrough);
        BindExpr(test);
        BindStmt(body);
        BindCases(rest, clause + 1, pre);
    }

    method BindCatch(handler: Catch, pre: nat)
      modifies this
      ensures State() == Visit.VisitCatch(handler, pre, old(State()))
      decreases handler, 2
    {
      match handler
      case NoCatch =>
      case Catch(scope, body) =>
        var after := flow;
        flow := pre;
        OpenScope(scope);
        BindStmt(body);
        JoinPaths(after, flow);
    }

    method BindTry(s: Stmt)
      requires s.Try?
      modifies this
      ensures State() == Visit.VisitTry(s, old(State()))
      decreases s, 0
    {
      hide Extends, Visit.VisitStmt, Visit.VisitCatch;
      var pre := flow;
      match s.finalizer
      case NoFinally =>
        BindStmt(s.block);
        BindCatch(s.handler, pre);
      case Finally(last) =>
        var exc := AddNode(BranchLabel);
        Attach(exc, pre);
        var outer := exceptionTargets;
        exceptionTargets := exceptionTargets + [exc];
        BindStmt(s.block);
        BindCatch(s.handler, pre);
        exceptionTargets := outer;
        if flow == Dead {
          FinishLabel(exc);
          BindStmt(last);
          flow := Dead;
        } else {
          blindTries := blindTries + {s.id};
          BindStmt(last);
        }
    }

    // A whole program, into a new binder.
    method BindProgram(program: Stmt)
      requires State() == NothingBound
      modifies this
      ensures Bound() == Visit.VisitProgram(program).g
    {
      hide Extends, Visit.VisitStmt;
      StepTo(Start(ModuleScope));
      container, jumps, exceptionTargets := ModuleScope, [], [];
      BindStmt(program);
    }

    // ----- walks -----

    // Searches back from f: has some path the fact on it, and does some path get to the start of the
    // binding's scope without it? stores are the nodes that meet it, in the order they are met.
    method WalkBack(f: nat, w: Walk) returns (found: bool, missed: bool, stores: seq<nat>)
      requires !w.ForGuard?
      ensures found <==> Meets(Bound(), w, f, Found)
      ensures missed <==> Meets(Bound(), w, f, Missed)
      ensures forall t :: t in stores ==> t < |nodes| && Reaches(Bound(), w, f, t) && MarkOf(w, nodes[t]) == Found
      ensures !missed ==> forall t: nat :: t < |nodes| && Reaches(Bound(), w, f, t) && MarkOf(w, nodes[t]) == Found ==> t in stores
    {
      ghost var g := Bound();
      ghost var all := Search.Indices(|nodes|);
      var seen: set<nat> := {};
      var stack: seq<nat> := [f];
      found, missed, stores := false, false, [];
      Search.Begin(g, w, f);
      hide Search.Searching, Meets, Reaches, MarkOf;
      while stack != [] && !(found && missed)
        invariant Search.Searching(g, w, f, seen, stack) && Search.Tallied(g, w, seen, found, missed, stores)
        decreases all - seen, |stack|
      {
        ghost var was, top := seen, stack;
        var cur: nat := stack[|stack| - 1];
        stack := stack[..|stack| - 1];
        assert stack + [cur] == top;
        while cur < |nodes| && nodes[cur] != Unreachable && cur !in seen
          invariant Search.Searching(g, w, f, seen, stack + [cur]) && Search.Tallied(g, w, seen, found, missed, stores)
          invariant was <= seen && (seen == was ==> |stack| < |top|)
          decreases all - seen
        {
          var n := nodes[cur];
          ghost var next := if MarkOf(w, n) == Pass then Predecessors(g, cur) else [];
          Search.LookAt(g, w, f, seen, stack, cur, next);
          Search.Tally(g, w, seen, found, missed, stores, cur);
          assert next == [] ==> stack + next == stack;
          seen := seen + {cur};
          if MarkOf(w, n) == Pass && !n.BranchLabel? && !n.LoopLabel? {
            cur := n.antecedent;
          } else {
            match MarkOf(w, n) {
              case Found => found, stores := true, stores + [cur];
              case Missed => missed := true;
              case Stop =>
              case Pass => stack := stack + (if cur in antecedents then antecedents[cur] else []);
            }
            cur := |nodes|;
            Search.EndPath(g, w, f, seen, stack, cur);
          }
        }
        Search.Drop(g, w, f, seen, stack, cur);
      }
      Search.Finished(g, w, f, seen, stack, found, missed, stores);
    }

    // The reads the graph proves wrong, in the order of the references. asserted are the references
    // under a non-null assertion.
    method FlowDiagnostics(definite: bool, asserted: set<nat>) returns (out: seq<Diagnostic>)
      ensures forall c :: BeforeDeclaration(c) in out <==> c in accesses && UsedBeforeDeclaration(Bound(), c)
      ensures forall c :: BeforeAssigned(c) in out <==>
        c in accesses && UsedBeforeAssigned(Bound(), c) && !UsedBeforeDeclaration(Bound(), c) && definite && c.id !in asserted
    {
      hide UsedBeforeDeclaration, UsedBeforeAssigned;
      out := [];
      for i := 0 to |accesses|
        invariant forall c :: BeforeDeclaration(c) in out <==> c in accesses[..i] && UsedBeforeDeclaration(Bound(), c)
        invariant forall c :: BeforeAssigned(c) in out <==>
          c in accesses[..i] && UsedBeforeAssigned(Bound(), c) && !UsedBeforeDeclaration(Bound(), c) && definite && c.id !in asserted
      {
        var c := accesses[i];
        assert accesses[..i + 1] == accesses[..i] + [c];
        var found := Diagnose(c, definite && c.id !in asserted);
        out := out + found;
      }
      assert accesses[..|accesses|] == accesses;
    }

    method Diagnose(c: Access, definite: bool) returns (out: seq<Diagnostic>)
      ensures forall d :: d in out ==> d.access == c
      ensures BeforeDeclaration(c) in out <==> UsedBeforeDeclaration(Bound(), c)
      ensures BeforeAssigned(c) in out <==> UsedBeforeAssigned(Bound(), c) && !UsedBeforeDeclaration(Bound(), c) && definite
    {
      hide Meets;
      if !Checked(c) { return []; }
      if TdzKind(c.sym) {
        var found, missed, _ := WalkBack(c.flow, ForInit(c.sym));
        if missed && !found { return [BeforeDeclaration(c)]; }
      }
      if !c.written && definite && TrackedForAssignment(c.sym) {
        var _, missed, _ := WalkBack(c.flow, ForAssign(c.sym));
        if missed { return [BeforeAssigned(c)]; }
      }
      return [];
    }

    // Whether a tracked read has an assignment expression behind it on all paths.
    method DefinitelyAssigned(c: Access) returns (yes: bool)
      ensures yes <==>
        && Checked(c) && !c.written && TrackedForAssignment(c.sym)
        && Meets(Bound(), ForAssign(c.sym), c.flow, Found) && !UsedBeforeAssigned(Bound(), c)
        && forall t: nat :: StoredBackFrom(Bound(), c, t) ==> nodes[t].site.AssignmentSite?
    {
      if c.written || !Checked(c) || !TrackedForAssignment(c.sym) { return false; }
      hide Meets, Reaches;
      var found, missed, stores := WalkBack(c.flow, ForAssign(c.sym));
      var allPlain := true;
      for i := 0 to |stores|
        invariant allPlain <==> forall j :: 0 <= j < i ==> nodes[stores[j]].site.AssignmentSite?
      {
        assert stores[i] in stores;
        if !nodes[stores[i]].site.AssignmentSite? { allPlain := false; }
      }
      if !missed {
        assert forall t: nat :: StoredBackFrom(Bound(), c, t) <==> t in stores;
      }
      return found && !missed && allPlain;
    }

    // The stores a read may see, or that this cannot be told.
    method ReachingStores(c: Access) returns (sites: seq<Site>, ok: bool)
      ensures ok ==> forall s :: s in sites <==> exists t: nat :: StoredBackFrom(Bound(), c, t) && nodes[t].site == s
      ensures ok <==>
        && Checked(c) && !c.written && SingleVariable(c.sym) && c.sym !in foreign
        && Meets(Bound(), ForAssign(c.sym), c.flow, Found) && !Meets(Bound(), ForAssign(c.sym), c.flow, Missed)
        && forall t: nat :: StoredBackFrom(Bound(), c, t) ==> PlainStore(nodes[t].site)
    {
      if c.written || !Checked(c) || c.sym in foreign || !SingleVariable(c.sym) { return [], false; }
      hide Meets, Reaches;
      var found, missed, stores := WalkBack(c.flow, ForAssign(c.sym));
      var plain := true;
      sites := [];
      for i := 0 to |stores|
        invariant plain <==> forall j :: 0 <= j < i ==> PlainStore(nodes[stores[j]].site)
        invariant |sites| == i && forall j :: 0 <= j < i ==> sites[j] == nodes[stores[j]].site
      {
        assert stores[i] in stores;
        if !PlainStore(nodes[stores[i]].site) { plain := false; }
        sites := sites + [nodes[stores[i]].site];
      }
      if !missed {
        assert forall t: nat :: StoredBackFrom(Bound(), c, t) <==> t in stores;
        forall j | 0 <= j < |sites| ensures StoredBackFrom(Bound(), c, stores[j]) && nodes[stores[j]].site == sites[j] {
          assert stores[j] in stores;
        }
      }
      ok := found && !missed && plain;
    }

    // Every path to the read passes a condition that excludes undefined after the binding's last store.
    method GuardedSinceStore(c: Access) returns (yes: bool)
      ensures yes <==>
        Checked(c) && !c.written && c.sym !in foreign && !Meets(Bound(), ForGuard(c.sym), c.flow, Missed)
    {
      if c.written || !Checked(c) || c.sym in foreign { return false; }
      ghost var g := Bound();
      ghost var w := ForGuard(c.sym);
      ghost var all := Search.Indices(|nodes|);
      var x, f := c.sym, c.flow;
      var seen: set<nat> := {};
      var stack: seq<nat> := [f];
      ghost var found := false;
      ghost var guards: seq<nat> := [];
      Search.Begin(g, w, f);
      hide Search.Searching, Reaches, MarkOf, Meets;
      while stack != []
        invariant Search.Searching(g, w, f, seen, stack) && Search.Tallied(g, w, seen, found, false, guards)
        decreases all - seen, |stack|
      {
        ghost var was, top := seen, stack;
        var cur: nat := stack[|stack| - 1];
        stack := stack[..|stack| - 1];
        assert stack + [cur] == top;
        while cur < |nodes| && nodes[cur] != Unreachable && cur !in seen
          invariant Search.Searching(g, w, f, seen, stack + [cur]) && Search.Tallied(g, w, seen, found, false, guards)
          invariant was <= seen && (seen == was ==> |stack| < |top|)
          decreases all - seen
        {
          var n := nodes[cur];
          var mark := MarkOf(ForGuard(x), n);
          ghost var next := if mark == Pass then Predecessors(g, cur) else [];
          Search.LookAt(g, w, f, seen, stack, cur, next);
          Search.Tally(g, w, seen, found, false, guards, cur);
          assert next == [] ==> stack + next == stack;
          if mark == Missed {
            Search.MetOne(g, w, f, seen, stack + [cur], cur);
            return false;                                    // a store, or the start, before any guard
          }
          seen := seen + {cur};
          if mark == Found { found, guards := true, guards + [cur]; }
          if mark == Pass && !n.BranchLabel? && !n.LoopLabel? {
            cur := n.antecedent;
          } else {
            if mark == Pass { stack := stack + (if cur in antecedents then antecedents[cur] else []); }
            cur := |nodes|;
            Search.EndPath(g, w, f, seen, stack, cur);
          }
        }
        Search.Drop(g, w, f, seen, stack, cur);
      }
      Search.Finished(g, w, f, seen, stack, found, false, guards);
      return true;
    }

    method EndReachable(fn: Scope) returns (yes: bool)
      ensures yes <==> fn in endReachable
    {
      yes := fn in endReachable;
    }
  }

  datatype Diagnostic = BeforeDeclaration(access: Access) | BeforeAssigned(access: Access)
}
