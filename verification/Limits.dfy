// Where the graph has the wrong edges: labels a jump loses, loops that come back to life, each with a program
// and the answer that is wrong.
module Limits {
  import opened Syntax
  import opened FlowGraph
  import opened Visit
  import opened Semantics
  import opened Liveness

  // ----- labels -----

  // do { continue tag } while (test), the test a falsy literal.
  predicate Continuing(s: Stmt, tag: string) {
    s.DoWhile? && s.test.Literal? && !Truthy(s.test.value) && s.body == Continue(tag) && tag != ""
  }

  // tags[0]: tags[1]: ... s
  function Under(tags: seq<string>, s: Stmt): Stmt {
    if tags == [] then s else Stmt.Labeled(tags[0], Under(tags[1..], s))
  }

  // The state in which the loop's body is bound.
  function InBody(b: Builder): Builder {
    var loop := |b.g.nodes|;
    var b1 := Add(Add(AddAntecedent(Add(b, LoopLabel), loop, b.flow), BranchLabel), BranchLabel);
    b1.(flow := loop, jumps := b.jumps + [JumpTarget(b.pendingLabel, loop + 1, loop + 2, false)], pendingLabel := "")
  }

  // The continue is bound by the loop's own label, or by none.
  lemma ContinueTarget(s: Stmt, tag: string, b: Builder)
    requires Continuing(s, tag) && FindJump(b.jumps, tag, true) == None
    ensures VisitStmt(s.body, InBody(b)) ==
      (if b.pendingLabel == tag then AddAntecedent(InBody(b), |b.g.nodes| + 2, |b.g.nodes|) else InBody(b)).(flow := Dead)
  {
    hide Extends, Grows, Visited;
    var js := InBody(b).jumps;
    assert js[..|js| - 1] == b.jumps;
    assert FindJump(js, tag, true) == if b.pendingLabel == tag then Some(js[|js| - 1]) else None;
  }

  // What follows the test is unreachable where the test is, and reachable where the test is.
  lemma AfterTest(test: Expr, b: Builder, loop: nat, exit: nat)
    requires test.Literal? && !Truthy(test.value) && loop != exit
    ensures b.flow == Dead ==> LoopEnd(test, b, loop, exit) == b
    ensures b.flow != Dead ==> Antecedents(LoopEnd(test, b, loop, exit).g, exit) != []
    ensures forall l: nat :: l != loop && l != exit ==> Antecedents(LoopEnd(test, b, loop, exit).g, l) == Antecedents(b.g, l)
    ensures LoopEnd(test, b, loop, exit).g.endReachable == b.g.endReachable
  {
    hide Extends, Grows, Visited;
    assert VisitExpr(test, b) == b;
  }

  // The state in which its test is bound.
  function AtTest(s: Stmt, b: Builder): Builder
    requires s.DoWhile?
  {
    Resume(VisitStmt(s.body, InBody(b)).(jumps := b.jumps), |b.g.nodes| + 2)
  }

  lemma TestReached(s: Stmt, tag: string, b: Builder)
    requires Continuing(s, tag) && Fresh(b) && b.flow != Dead && FindJump(b.jumps, tag, true) == None
    ensures AtTest(s, b).flow != Dead <==> b.pendingLabel == tag
    ensures forall l: nat :: l != |b.g.nodes| && l != |b.g.nodes| + 2 ==> Antecedents(AtTest(s, b).g, l) == Antecedents(b.g, l)
    ensures AtTest(s, b).pendingLabel == "" && AtTest(s, b).jumps == b.jumps && AtTest(s, b).g.endReachable == b.g.endReachable
  {
    hide Extends, Grows, Visited, FindJump, VisitStmt;
    ContinueTarget(s, tag, b);
    assert Antecedents(b.g, |b.g.nodes| + 2) == [];
  }

  lemma LoopLeft(s: Stmt, tag: string, b: Builder)
    requires Continuing(s, tag) && Fresh(b) && b.flow != Dead && FindJump(b.jumps, tag, true) == None
    ensures VisitDoWhile(s, b).flow != Dead <==> b.pendingLabel == tag
    ensures forall l: nat :: l < |b.g.nodes| ==> Antecedents(VisitDoWhile(s, b).g, l) == Antecedents(b.g, l)
    ensures VisitDoWhile(s, b).g.endReachable == b.g.endReachable
  {
    hide Extends, Grows, Visited, FindJump, VisitStmt, VisitExpr, Branch, LoopEnd;
    TestReached(s, tag, b);
    var loop := |b.g.nodes|;
    AfterTest(s.test, AtTest(s, b), loop, loop + 1);
    assert VisitDoWhile(s, b) == Resume(LoopEnd(s.test, AtTest(s, b), loop, loop + 1), loop + 1) by {
      hide AtTest, InBody;
      OneLoop(s, b);
    }
  }

  lemma OneLoop(s: Stmt, b: Builder)
    requires s.DoWhile? && s.body.Continue?
    ensures VisitDoWhile(s, b) == Resume(LoopEnd(s.test, AtTest(s, b), |b.g.nodes|, |b.g.nodes| + 1), |b.g.nodes| + 1)
  {
    hide Extends, Grows, Visited, VisitExpr, Branch, LoopEnd;
  }

  // The state in which what a label that is not the loop's stands for is bound.
  function InLabel(tag: string, b: Builder): Builder {
    Add(b, BranchLabel).(jumps := b.jumps + [JumpTarget(tag, |b.g.nodes|, Dead, true)])
  }

  lemma OneLabel(s: Stmt, b: Builder)
    requires s.Labeled? && Fresh(b)
    ensures !IsLoop(s.body) ==>
      VisitStmt(s, b) == var r := VisitStmt(s.body, InLabel(s.tag, b)); Resume(AddAntecedent(r.(jumps := b.jumps), |b.g.nodes|, r.flow), |b.g.nodes|)
    ensures IsLoop(s.body) ==> VisitStmt(s, b) == VisitStmt(s.body, b.(pendingLabel := s.tag))
    ensures Fresh(InLabel(s.tag, b))
    ensures forall tag :: FindJump(b.jumps, tag, true) == None ==> FindJump(InLabel(s.tag, b).jumps, tag, true) == None
  {
    hide Extends, Grows, Visited;
    var js := InLabel(s.tag, b).jumps;
    assert js[..|js| - 1] == b.jumps;
    forall l: nat | l > |b.g.nodes| ensures Antecedents(InLabel(s.tag, b).g, l) == [] {
      assert Antecedents(b.g, l) == [];
    }
  }

  // What follows the label is reachable if what it stands for completes.
  lemma AfterLabel(b: Builder, r: Builder, tag: string)
    requires Fresh(b)
    requires forall l: nat :: l <= |b.g.nodes| ==> Antecedents(r.g, l) == Antecedents(InLabel(tag, b).g, l)
    ensures var o := Resume(AddAntecedent(r.(jumps := b.jumps), |b.g.nodes|, r.flow), |b.g.nodes|);
      && (o.flow != Dead <==> r.flow != Dead)
      && (forall l: nat :: l < |b.g.nodes| ==> Antecedents(o.g, l) == Antecedents(b.g, l))
  {
    assert Antecedents(b.g, |b.g.nodes|) == [];
    assert forall l: nat :: Antecedents(InLabel(tag, b).g, l) == Antecedents(b.g, l);
  }

  lemma {:induction false} EndUnder(tags: seq<string>, s: Stmt, tag: string, b: Builder)
    requires tags != [] && Continuing(s, tag) && Fresh(b) && b.flow != Dead
    requires (forall i, j :: 0 <= i < j < |tags| ==> tags[i] != tags[j]) && FindJump(b.jumps, tag, true) == None
    ensures VisitStmt(Under(tags, s), b).flow != Dead <==> tags[|tags| - 1] == tag
    ensures forall l: nat :: l < |b.g.nodes| ==> Antecedents(VisitStmt(Under(tags, s), b).g, l) == Antecedents(b.g, l)
    ensures VisitStmt(Under(tags, s), b).g.endReachable == b.g.endReachable
    decreases |tags|
  {
    hide Extends, Grows, Visited, FindJump, VisitStmt, Continuing, Finish;
    LoopVisited(s, tag, b.(pendingLabel := tags[0]));
    var rest := tags[1..];
    OneLabel(Under(tags, s), b);
    if rest == [] {
      LoopLeft(s, tag, b.(pendingLabel := tags[0]));
    } else {
      var b1 := InLabel(tags[0], b);
      EndUnder(rest, s, tag, b1);
      AfterLabel(b, VisitStmt(Under(rest, s), b1), tags[0]);
      assert Under(rest, s).Labeled?;
    }
  }

  lemma LoopVisited(s: Stmt, tag: string, b: Builder)
    requires Continuing(s, tag)
    ensures s.DoWhile? && IsLoop(s) && VisitStmt(s, b) == VisitDoWhile(s, b)
  {
    hide Extends, Grows, Visited, VisitDoWhile;
  }

  // A run of the loop ends it, whichever of its labels the continue names.
  lemma ContinuingEnds(s: Stmt, tag: string, labels: set<string>, r: Run, a: Activation, fuel: nat)
    requires Continuing(s, tag) && tag in labels && fuel > 0
    ensures Exec(s, labels, r, a, fuel) == Outcome(r, Normal)
  {
  }

  lemma {:induction false} RunUnder(tags: seq<string>, s: Stmt, tag: string, labels: set<string>, r: Run, a: Activation, fuel: nat)
    requires Continuing(s, tag) && (tag in tags || tag in labels) && fuel > 0
    ensures Exec(Under(tags, s), labels, r, a, fuel) == Outcome(r, Normal)
    decreases |tags|
  {
    hide Continuing;
    if tags == [] {
      ContinuingEnds(s, tag, labels, r, a, fuel);
    } else {
      RunUnder(tags[1..], s, tag, labels + {tags[0]}, r, a, fuel);
    }
  }

  // A function whose body is such a loop always falls off its end. Its end is marked reachable exactly
  // when the label continued to is the last one: the only one the binder gives to the loop.
  lemma LastLabelOnly(tags: seq<string>, s: Stmt, tag: string, fn: Scope, a: Activation, fuel: nat)
    requires Continuing(s, tag) && tag in tags && (forall i, j :: 0 <= i < j < |tags| ==> tags[i] != tags[j]) && fuel > 0
    ensures Execute(Under(tags, s), a, fuel).how == Normal
    ensures fn in VisitFunction(fn, Under(tags, s), NothingBound).g.endReachable <==> tags[|tags| - 1] == tag
  {
    hide Extends, Grows, Visited, VisitStmt, Continuing;
    var b := EnterFunction(fn, NothingBound);
    EndUnder(tags, s, tag, b);
    RunUnder(tags, s, tag, {}, Run(Begin, 0), a, fuel);
  }

  // tag: for (() => { for (;;) {} };;) { break tag }
  predicate Stolen(s: Stmt, tag: string) {
    && tag != "" && s.Labeled? && s.tag == tag && s.body.For? && s.body.body == Break(tag)
    && s.body.test == NoExpr && s.body.update == NoExpr && s.body.start.Evaluate?
    && s.body.start.expr.Closure? && Idle(s.body.start.expr.body)
  }

  predicate Idle(s: Stmt) {
    s.While? && s.test == NoExpr && s.body == Empty
  }

  // An endless loop takes the pending label.
  lemma IdleTakes(s: Stmt, b: Builder)
    requires Idle(s) && Fresh(b)
    ensures var r := VisitStmt(s, b); r.pendingLabel == "" && Fresh(r) && r.flow == Dead
    ensures VisitStmt(s, b).g.endReachable == b.g.endReachable
  {
    hide Extends, Grows, Visited;
    var loop := |b.g.nodes|;
    var b1 := AddAntecedent(Add(b, LoopLabel), loop, b.flow);
    var b2 := Add(b1.(flow := loop), BranchLabel);
    assert LoopTest(b2, s.test, loop + 1) == b2;
    var b3 := b2.(pendingLabel := "");
    assert VisitLoopBody(s.body, b2, loop + 1, loop) == b3;
    var b4 := AddAntecedent(b3, loop, loop);
    assert Antecedents(b.g, loop + 1) == [];
    assert Antecedents(b4.g, loop + 1) == [];
    assert VisitWhile(s, b) == Resume(b4, loop + 1);
    assert forall l: nat :: l != loop ==> Antecedents(b4.g, l) == Antecedents(b.g, l);
  }

  lemma ClosureTakes(e: Expr, b: Builder)
    requires e.Closure? && Idle(e.body) && Fresh(b)
    ensures var r := VisitExpr(e, b); r.pendingLabel == "" && Fresh(r) && r.flow == b.flow && r.jumps == b.jumps
    ensures VisitExpr(e, b).g.endReachable == b.g.endReachable
  {
    hide Extends, Visited, VisitStmt;
    var b1 := EnterFunction(e.fn, b);
    assert forall l: nat :: Antecedents(b1.g, l) == Antecedents(b.g, l);
    IdleTakes(e.body, b1);
  }

  lemma StartTakes(s: Stmt, b: Builder)
    requires s.Evaluate? && s.expr.Closure? && Idle(s.expr.body) && Fresh(b)
    ensures var r := VisitStmt(s, b); r.pendingLabel == "" && Fresh(r) && r.jumps == b.jumps
    ensures VisitStmt(s, b).g.endReachable == b.g.endReachable
  {
    hide Extends, Visited, VisitExpr;
    ClosureTakes(s.expr, b);
  }

  // The loop does not get its label, so the break finds no target, and nothing follows the loop.
  lemma LabelStolen(s: Stmt, tag: string, b: Builder)
    requires Stolen(s, tag) && Fresh(b) && FindJump(b.jumps, tag, false) == None
    ensures VisitStmt(s, b).flow == Dead && VisitStmt(s, b).g.endReachable == b.g.endReachable
  {
    hide Extends, Visited, VisitExpr, FindJump, VisitFor;
    var f := s.body;
    var b1 := b.(pendingLabel := tag);
    var b2 := StartScope(b1, f.scope);
    assert forall l: nat :: Antecedents(b2.g, l) == Antecedents(b.g, l);
    StartTakes(f.start, b2);
    NeverLeft(f, tag, b1);
    ForVisited(f, b1);
  }

  lemma ForVisited(s: Stmt, b: Builder)
    requires s.For?
    ensures VisitStmt(s, b) == VisitFor(s, b)
  {
    hide Extends, Grows, Visited, VisitFor;
  }

  lemma BreakLost(s: Stmt, tag: string, b: Builder, exit: nat, next: nat)
    requires s == Break(tag) && tag != "" && b.pendingLabel == "" && FindJump(b.jumps, tag, false) == None
    ensures VisitLoopBody(s, b, exit, next) == b.(flow := Dead)
  {
    hide Extends, Grows, Visited;
    var js := b.jumps + [JumpTarget("", exit, next, false)];
    assert js[..|js| - 1] == b.jumps;
    assert FindJump(js, tag, false) == None;
    assert VisitStmt(s, b.(jumps := js)) == b.(jumps := js, flow := Dead);
  }

  lemma NeverLeft(s: Stmt, tag: string, b: Builder)
    requires s.For? && s.body == Break(tag) && s.test == NoExpr && s.update == NoExpr && tag != ""
    requires var b0 := VisitStmt(s.start, StartScope(b, s.scope));
      Fresh(b0) && b0.pendingLabel == "" && FindJump(b0.jumps, tag, false) == None && b0.g.endReachable == b.g.endReachable
    ensures VisitFor(s, b).flow == Dead && VisitFor(s, b).g.endReachable == b.g.endReachable
  {
    hide Extends, Grows, Visited, FindJump, VisitStmt, StartScope, VisitLoopBody;
    var b0 := VisitStmt(s.start, StartScope(b, s.scope));
    var loop := |b0.g.nodes|;
    var b1 := AddAntecedent(Add(b0, LoopLabel), loop, b0.flow).(flow := loop);
    assert VisitExpr(s.test, b1) == b1;
    var b2 := Add(b1, BranchLabel);
    assert LoopTest(b2, s.test, loop + 1) == b2;
    var b3 := Add(b2, BranchLabel);
    BreakLost(s.body, tag, b3, loop + 1, loop + 2);
    var b4 := b3.(flow := Dead);
    assert Antecedents(b0.g, loop + 1) == [] && Antecedents(b0.g, loop + 2) == [];
    assert Antecedents(b4.g, loop + 1) == [] && Antecedents(b4.g, loop + 2) == [];
    assert AddAntecedent(b4, loop + 2, Dead) == b4 == AddAntecedent(b4, loop, Dead);
    assert Resume(b4, loop + 2) == b4 == Resume(b4, loop + 1);
    assert VisitExpr(s.update, b4) == b4;
  }

  lemma BreakEnds(s: Stmt, tag: string, r: Run, a: Activation, fuel: nat)
    requires Stolen(s, tag) && fuel > 0
    ensures Exec(s, {}, r, a, fuel).how == Normal
  {
    var f := s.body;
    var labels := {} + {tag};
    var r1 := EnterScope(r, f.scope, a);
    var r2 := Emit(r1, Create(f.start.expr.fn));
    var r3 := Emit(r2, Renew(f.scope));
    assert Exec(f.start, {}, r1, a, fuel) == Outcome(r2, Normal);
    assert Exec(f.body, {}, r3, a, fuel) == Outcome(r3, BreakTo(tag));
    assert ForRounds(f, labels, r3, a, fuel) == Outcome(r3, Normal);
  }

  // A closure in a labeled loop's head that holds a loop takes the label: the function's end is not
  // marked reachable, and every run reaches it.
  lemma StolenLabelLosesBreak(s: Stmt, tag: string, fn: Scope, a: Activation, fuel: nat)
    requires Stolen(s, tag) && fuel > 0
    ensures Execute(s, a, fuel).how == Normal
    ensures fn !in VisitFunction(fn, s, NothingBound).g.endReachable
  {
    hide Extends, Grows, Visited, VisitStmt, Stolen, Exec;
    LabelStolen(s, tag, EnterFunction(fn, NothingBound));
    BreakEnds(s, tag, Run(Begin, 0), a, fuel);
  }

  // ----- loops out of reach -----

  // return; while (v) {}
  predicate AfterReturn(s: Stmt) {
    && s.Then? && s.first == Return(NoExpr) && s.rest.While? && s.rest.body == Empty
    && s.rest.test.Literal? && !AlwaysTrue(s.rest.test)
  }

  lemma LoopRevives(s: Stmt, b: Builder)
    requires s.While? && s.body == Empty && s.test.Literal? && !AlwaysTrue(s.test) && Fresh(b)
    ensures VisitWhile(s, b).flow != Dead
  {
    hide Extends, Visited;
    var loop := |b.g.nodes|;
    var b1 := AddAntecedent(Add(b, LoopLabel), loop, b.flow).(flow := loop);
    assert VisitExpr(s.test, b1) == b1;
    var exit := |b1.g.nodes|;
    TestReaches(s.test, Add(b1, BranchLabel), exit);
    var b3 := LoopTest(Add(b1, BranchLabel), s.test, exit);
    var b4 := VisitLoopBody(s.body, b3, exit, loop);
    assert b4.g == b3.g;
    var b5 := AddAntecedent(b4, loop, b4.flow);
    assert Antecedents(b5.g, exit) != [];
  }

  lemma TestReaches(test: Expr, b: Builder, exit: nat)
    requires test.Literal? && !AlwaysTrue(test) && b.flow != Dead && b.g.nodes != []
    ensures Antecedents(LoopTest(b, test, exit).g, exit) != []
  {
    hide Extends;
    var c := Branch(b, b.flow, test, false);
    assert c.flow in Antecedents(AddAntecedent(c, exit, c.flow).g, exit);
  }

  lemma ReturnVisited(s: Stmt, b: Builder)
    requires s == Return(NoExpr)
    ensures VisitStmt(s, b) == b.(flow := Dead)
  {
    hide Extends, Grows, Visited;
  }

  lemma WhileVisited(s: Stmt, b: Builder)
    requires s.While?
    ensures VisitStmt(s, b) == VisitWhile(s, b)
  {
    hide Extends, Grows, Visited, VisitWhile;
  }

  // The head of a loop nothing reaches counts as reached: what follows it is live again, and the end no run
  // comes to is marked reachable.
  lemma DeadLoopRevives(s: Stmt, fn: Scope, a: Activation, fuel: nat)
    requires AfterReturn(s)
    ensures fn in VisitFunction(fn, s, NothingBound).g.endReachable
    ensures Execute(s, a, fuel).how == Returned
  {
    ReturnRuns(s, Run(Begin, 0), a, fuel);
    hide Extends, Grows, Visited, VisitWhile, Exec;
    var b := EnterFunction(fn, NothingBound);
    ReturnVisited(s.first, b);
    WhileVisited(s.rest, b.(flow := Dead));
    LoopRevives(s.rest, b.(flow := Dead));
    assert VisitStmt(s, b) == VisitWhile(s.rest, b.(flow := Dead));
  }

  lemma ReturnRuns(s: Stmt, r: Run, a: Activation, fuel: nat)
    requires s.Then? && s.first == Return(NoExpr)
    ensures Exec(s, {}, r, a, fuel).how == Returned
  {
    assert Exec(s.first, {}, r, a, fuel) == Outcome(r, Returned);
  }
}
