// Running a statement follows the graph the binder built for it, however it completes.
module FollowStmt {
  import opened Syntax
  import opened FlowGraph
  import opened Visit
  import opened Semantics
  import opened Walks
  import opened Questions
  import opened Fading
  import opened Links
  import opened FollowExpr
  import opened Landing
  import opened Bridges

  // The labels a statement runs with, and the one pending when it is bound, agree.
  predicate LabelsAgree(s: Stmt, labels: set<string>, pending: string) {
    && (IsLoop(s) ==> Labeling(labels, pending) && (pending != "" ==> !HeadTakesLabel(s)))
    && (!IsLoop(s) ==> pending == "" || !StmtTakesLabel(s))
    && (LabelsLoop(s) && !IsLoop(s) ==> labels == {})
  }

  ghost predicate Begun(q: Question, g: Binding, a: Activation, s: Stmt, labels: set<string>, b: Builder, r: Run) {
    && Setup(q, g, a) && Clean(q, s) && Targets(g, b.jumps)
    && LabelsAgree(s, labels, b.pendingLabel)
    && Follows(q, g, a, b, r.history)
  }

  lemma {:induction false} StmtFollows(q: Question, g: Binding, a: Activation, s: Stmt, labels: set<string>, b: Builder, r: Run, fuel: nat)
    requires Begun(q, g, a, s, labels, b, r) && Extends(VisitStmt(s, b).g, g)
    ensures Lands(q, g, a, b.jumps, VisitStmt(s, b), Exec(s, labels, r, a, fuel))
    decreases fuel, s, 3
  {
    hide Extends, At, UsesTraced, Applies, Rooted, Targets, VisitDeclare, VisitIf, VisitWhile, VisitDoWhile, VisitFor, VisitForOf, VisitLabeled, VisitJump, VisitSwitch, VisitTry, StartScope;
    match s
    case Empty =>
    case Then(_, _) => ThenFollows(q, g, a, s, labels, b, r, fuel);
    case Declare(_, _, _, _) => DeclareFollows(q, g, a, s, labels, b, r, fuel);
    case Evaluate(e) => ExprFollows(q, g, a, e, b, r);
    case Block(_, _) => BlockFollows(q, g, a, s, labels, b, r, fuel);
    case If(_, _, _) => IfFollows(q, g, a, s, labels, b, r, fuel);
    case While(_, _) => WhileFollows(q, g, a, s, labels, b, r, fuel);
    case DoWhile(_, _) => DoWhileFollows(q, g, a, s, labels, b, r, fuel);
    case For(_, _, _, _, _) => ForFollows(q, g, a, s, labels, b, r, fuel);
    case ForOf(_, _, _, _, _) => ForOfFollows(q, g, a, s, labels, b, r, fuel);
    case Labeled(_, _) => LabeledFollows(q, g, a, s, labels, b, r, fuel);
    case Break(tag) => JumpLands(q, g, a, tag, false, b, r);
    case Continue(tag) => JumpLands(q, g, a, tag, true, b, r);
    case Return(e) => ExprFollows(q, g, a, e, b, r);
    case Throw(e) => ExprFollows(q, g, a, e, b, r);
    case Switch(_, _, _) => SwitchFollows(q, g, a, s, labels, b, r, fuel);
    case Try(_, _, _, _) => TryFollows(q, g, a, s, labels, b, r, fuel);
  }

  lemma {:induction false} ThenFollows(q: Question, g: Binding, a: Activation, s: Stmt, labels: set<string>, b: Builder, r: Run, fuel: nat)
    requires s.Then? && Begun(q, g, a, s, labels, b, r) && Extends(VisitStmt(s, b).g, g)
    ensures Lands(q, g, a, b.jumps, VisitStmt(s, b), Exec(s, labels, r, a, fuel))
    decreases fuel, s, 0
  {
    GrowthChains();
    hide Extends, At, UsesTraced, Applies, Rooted, Targets, Lands;
    var b1 := VisitStmt(s.first, b);
    var b2 := VisitStmt(s.rest, b1);
    StmtFollows(q, g, a, s.first, {}, b, r, fuel);
    var o := Exec(s.first, {}, r, a, fuel);
    if o.how.Normal? {
      Normally(q, g, a, b.jumps, b1, o);
      StmtFollows(q, g, a, s.rest, {}, b1, o.run, fuel);
    } else {
      LandsLater(q, g, a, b.jumps, b1, b2, o);
    }
  }

  lemma Normally(q: Question, g: Binding, a: Activation, jumps: seq<JumpTarget>, r: Builder, o: Outcome)
    ensures o.how.Normal? && UsesTraced(q, g, a, o.run.history) ==> (Lands(q, g, a, jumps, r, o) <==> Follows(q, g, a, r, o.run.history))
    ensures Lands(q, g, a, jumps, r, o) ==> UsesTraced(q, g, a, o.run.history)
  {
  }

  // Completions no label waits for.
  lemma Elsewhere(q: Question, g: Binding, a: Activation, jumps: seq<JumpTarget>, r: Builder, o: Outcome)
    requires UsesTraced(q, g, a, o.run.history) && (o.how.Threw? || o.how.Halted? || o.how.Returned?)
    ensures Lands(q, g, a, jumps, r, o)
  {
  }

  lemma {:induction false} DeclareFollows(q: Question, g: Binding, a: Activation, s: Stmt, labels: set<string>, b: Builder, r: Run, fuel: nat)
    requires s.Declare? && Begun(q, g, a, s, labels, b, r) && Extends(VisitDeclare(s, b).g, g)
    ensures Lands(q, g, a, b.jumps, VisitDeclare(s, b), Exec(s, labels, r, a, fuel))
  {
    GrowthChains();
    hide Extends, At, UsesTraced, Applies, AssignFlow;
    var b1 := VisitExpr(s.init, b);
    var site := DeclarationSite(s.id, s.init != NoExpr);
    ExprFollows(q, g, a, s.init, b, r);
    var v := Eval(s.init, r, a);
    if !v.thrown {
      if s.kind != Var {
        InitializeFollows(q, g, a, b1, s.sym, site, s.init != NoExpr, v.value, v.run);
      } else if s.init != NoExpr {
        StoreFollows(q, g, a, b1, s.sym, site, v.value, v.run);
      }
    }
  }

  lemma InitializeFollows(q: Question, g: Binding, a: Activation, b: Builder, x: Symbol, site: Site, assign: bool, v: Value, r: Run)
    requires Rooted(g) && Follows(q, g, a, b, r.history) && Extends(AssignFlow(b, x, site, true, assign).g, g)
    ensures var o := Initialize(x, site, assign, v, r, a);
      UsesTraced(q, g, a, o.run.history) && (o.how.Normal? ==> Follows(q, g, a, AssignFlow(b, x, site, true, assign), o.run.history))
  {
    AssignAt(q, g, a, b, x, site, true, assign, v, r.history);
  }

  lemma {:induction false} BlockFollows(q: Question, g: Binding, a: Activation, s: Stmt, labels: set<string>, b: Builder, r: Run, fuel: nat)
    requires s.Block? && Begun(q, g, a, s, labels, b, r) && Extends(VisitStmt(s, b).g, g)
    ensures Lands(q, g, a, b.jumps, VisitStmt(s, b), Exec(s, labels, r, a, fuel))
    decreases fuel, s, 0
  {
    GrowthChains();
    hide Extends, At, UsesTraced, Applies, Targets, Lands, StartScope, EnterScope;
    var b1 := StartScope(b, s.scope);
    var r1 := EnterScope(r, s.scope, a);
    EnterFollows(q, g, a, b, s.scope, r);
    StmtFollows(q, g, a, s.body, {}, b1, r1, fuel);
    ExitLands(q, g, a, b.jumps, VisitStmt(s.body, b1), Exec(s.body, {}, r1, a, fuel), s.scope);
  }

  lemma {:induction false} IfFollows(q: Question, g: Binding, a: Activation, s: Stmt, labels: set<string>, b: Builder, r: Run, fuel: nat)
    requires s.If? && Begun(q, g, a, s, labels, b, r) && Extends(VisitIf(s, b).g, g)
    ensures Lands(q, g, a, b.jumps, VisitIf(s, b), Exec(s, labels, r, a, fuel))
    decreases fuel, s, 0
  {
    GrowthChains();
    hide Extends, At, UsesTraced, Applies, Targets, Lands, Branch, Join, Rooted;
    ExprFollows(q, g, a, s.test, b, r);
    var b1 := VisitExpr(s.test, b);
    var t := Eval(s.test, r, a);
    var b2 := Branch(b1, b1.flow, s.test, true);
    var b3 := VisitStmt(s.yes, b2);
    var b4 := Branch(b3, b1.flow, s.test, false);
    var b5 := VisitStmt(s.no, b4);
    var b6 := Join(b5, b3.flow, b5.flow);
    JoinLink(q, g, b5, b3.flow, b5.flow);
    if t.thrown {
      Elsewhere(q, g, a, b.jumps, b6, Outcome(t.run, Threw));
    } else if Truthy(t.value) {
      BranchFollows(q, g, a, b1, b1.flow, s.test, true, r);
      StmtFollows(q, g, a, s.yes, {}, b2, t.run, fuel);
      BranchLands(q, g, a, b.jumps, b3, b6, Exec(s.yes, {}, t.run, a, fuel));
    } else {
      BranchFollows(q, g, a, b3, b1.flow, s.test, false, r);
      StmtFollows(q, g, a, s.no, {}, b4, t.run, fuel);
      BranchLands(q, g, a, b.jumps, b5, b6, Exec(s.no, {}, t.run, a, fuel));
    }
  }

  // A statement whose end is joined with another's.
  lemma BranchLands(q: Question, g: Binding, a: Activation, jumps: seq<JumpTarget>, b1: Builder, b2: Builder, o: Outcome)
    requires Lands(q, g, a, jumps, b1, o) && Extends(b1.g, b2.g) && b2.container == b1.container
    requires Link(q, g, b1.flow, b2.flow)
    ensures Lands(q, g, a, jumps, b2, o)
  {
    if o.how.Normal? { LinkAt(q, g, a, b1.flow, b2.flow, o.run.history); }
    else { LandsLater(q, g, a, jumps, b1, b2, o); }
  }

  // Only the graph counts, and the function being bound.
  lemma Surroundings(q: Question, g: Binding, a: Activation, jumps: seq<JumpTarget>, r1: Builder, r2: Builder, o: Outcome)
    requires r1.g == r2.g && r1.container == r2.container && r1.flow == r2.flow
    ensures Lands(q, g, a, jumps, r1, o) ==> Lands(q, g, a, jumps, r2, o)
    ensures forall l: nat :: LandsAt(q, g, a, r1, l, o.run.history) ==> LandsAt(q, g, a, r2, l, o.run.history)
    ensures Follows(q, g, a, r1, o.run.history) ==> Follows(q, g, a, r2, o.run.history)
  {
  }

  // A loop body, run from where it is bound.
  lemma {:induction false} BodyFollows(q: Question, g: Binding, a: Activation, body: Stmt, b: Builder, exit: nat, next: nat, labels: set<string>, r: Run, fuel: nat)
    requires Setup(q, g, a) && Clean(q, body) && Targets(g, b.jumps) && IsLabel(g, exit) && IsLabel(g, next) && next != Dead
    requires Labeling(labels, b.pendingLabel)
    requires Extends(VisitLoopBody(body, b, exit, next).g, g) && Follows(q, g, a, b, r.history)
    ensures BodyDone(q, g, a, b.jumps, labels, VisitLoopBody(body, b, exit, next), exit, next, Exec(body, {}, r, a, fuel))
    decreases fuel, body, 4
  {
    var t := JumpTarget(b.pendingLabel, exit, next, false);
    var b1 := b.(jumps := b.jumps + [t], pendingLabel := "");
    var r1 := VisitStmt(body, b1);
    hide Extends, At, UsesTraced, Lands, BodyDone;
    assert LabelsAgree(body, {}, "") && Follows(q, g, a, b1, r.history) && IsTarget(g, t);
    assert VisitLoopBody(body, b, exit, next) == r1.(jumps := b.jumps);
    hide *;
    TargetsPushed(g, b.jumps, t);
    StmtFollows(q, g, a, body, {}, b1, r, fuel);
    BodyOutcome(q, g, a, b.jumps, t, labels, r1, Exec(body, {}, r, a, fuel));
  }

  lemma BodyOutcome(q: Question, g: Binding, a: Activation, jumps: seq<JumpTarget>, t: JumpTarget, labels: set<string>, r: Builder, o: Outcome)
    requires Lands(q, g, a, jumps + [t], r, o) && Labeling(labels, t.tag) && !t.breakOnly && t.continueTo != Dead
    ensures BodyDone(q, g, a, jumps, labels, r.(jumps := jumps), t.breakTo, t.continueTo, o)
  {
    hide UsesTraced, At, Lands;
    LoopLands(q, g, a, jumps, t, labels, r, o);
    Normally(q, g, a, jumps + [t], r, o);
    Surroundings(q, g, a, jumps, r, r.(jumps := jumps), o);
  }

  // A test at a loop's head: the loop is left, or its body starts.
  lemma {:induction false} LoopHeadTest(q: Question, g: Binding, a: Activation, test: Expr, b: Builder, after: Builder, r: Run)
    requires Setup(q, g, a) && CleanExpr(q, test) && TestRead(q, test) && Follows(q, g, a, b, r.history)
    requires var b1 := VisitExpr(test, b);
      Extends(LoopTest(Add(b1, BranchLabel), test, |b1.g.nodes|).g, after.g) && Extends(after.g, g)
    ensures
      var b1 := VisitExpr(test, b);
      var exit := |b1.g.nodes|;
      var t := Eval(test, r, a);
      && IsLabel(g, exit) && UsesTraced(q, g, a, t.run.history)
      && (!t.thrown ==>
            if test != NoExpr && !Truthy(t.value) then LandsAt(q, g, a, after, exit, t.run.history)
            else Follows(q, g, a, LoopTest(Add(b1, BranchLabel), test, exit), t.run.history))
  {
    GrowthChains();
    hide Extends, At, UsesTraced, Applies, Rooted, LoopTest;
    var b1 := VisitExpr(test, b);
    var b2 := Add(b1, BranchLabel);
    NewLabel(g, b1, BranchLabel);
    ExprFollows(q, g, a, test, b, r);
    var t := Eval(test, r, a);
    if !t.thrown {
      if test != NoExpr && !Truthy(t.value) { TestLeaves(q, g, a, b2, test, |b1.g.nodes|, after, r); }
      else { TestGoesOn(q, g, a, b2, test, |b1.g.nodes|, r); }
    }
  }

  lemma {:induction false} WhileFollows(q: Question, g: Binding, a: Activation, s: Stmt, labels: set<string>, b: Builder, r: Run, fuel: nat)
    requires s.While? && Begun(q, g, a, s, labels, b, r) && Extends(VisitWhile(s, b).g, g)
    ensures Lands(q, g, a, b.jumps, VisitWhile(s, b), Exec(s, labels, r, a, fuel))
    decreases fuel, s, 2
  {
    GrowthChains();
    var loop := |b.g.nodes|;
    hide Extends, UsesTraced, Applies, Targets;
    NewLabel(g, b, LoopLabel);
    ToLabel(q, g, a, Add(b, LoopLabel), loop, b.flow, r.history);
    WhileRounds(q, g, a, s, labels, b, r, fuel);
  }

  lemma {:induction false} WhileRounds(q: Question, g: Binding, a: Activation, s: Stmt, labels: set<string>, b: Builder, r: Run, fuel: nat)
    requires s.While? && Setup(q, g, a) && Clean(q, s) && Targets(g, b.jumps) && LabelsAgree(s, labels, b.pendingLabel)
    requires Extends(VisitWhile(s, b).g, g) && b.container == a.fn
    requires At(q, g, a, |b.g.nodes|, r.history) && UsesTraced(q, g, a, r.history)
    ensures Lands(q, g, a, b.jumps, VisitWhile(s, b), Exec(s, labels, r, a, fuel))
    decreases fuel, s, 1
  {
    GrowthChains();
    hide Extends, At, UsesTraced, Applies, Rooted, Targets, LoopTest, Lands, VisitStmt, VisitExpr, VisitLoopBody, Eval;
    var loop := |b.g.nodes|;
    var b1 := AddAntecedent(Add(b, LoopLabel), loop, b.flow).(flow := loop);
    var b2 := VisitExpr(s.test, b1);
    var exit := |b2.g.nodes|;
    var b3 := LoopTest(Add(b2, BranchLabel), s.test, exit);
    var b4 := VisitLoopBody(s.body, b3, exit, loop);
    var b5 := AddAntecedent(b4, loop, b4.flow);
    var after := Resume(b5, exit);
    NewLabel(g, b, LoopLabel);
    var o := Exec(s, labels, r, a, fuel);
    if fuel == 0 {
      Elsewhere(q, g, a, b.jumps, after, o);
    } else {
      LoopHeadTest(q, g, a, s.test, b1, b5, r);
      var t := Eval(s.test, r, a);
      if t.thrown {
        Elsewhere(q, g, a, b.jumps, after, o);
      } else if s.test != NoExpr && !Truthy(t.value) {
        ResumeFollows(q, g, a, b5, exit, t.run.history);
        Normally(q, g, a, b.jumps, after, o);
      } else {
        BodyFollows(q, g, a, s.body, b3, exit, loop, labels, t.run, fuel);
        var c := Exec(s.body, {}, t.run, a, fuel);
        if GoesRound(c.how, labels) {
          RoundLands(q, g, a, b4, loop, c);
          WhileRounds(q, g, a, s, labels, b, c.run, fuel - 1);
        } else {
          LoopDone(q, g, a, b.jumps, labels, b4, b5, exit, c);
        }
      }
    }
  }

  // A body's end, or its continue, hands control to the label next.
  lemma RoundLands(q: Question, g: Binding, a: Activation, b: Builder, next: nat, o: Outcome)
    requires Rooted(g) && IsLabel(g, next) && Extends(AddAntecedent(b, next, b.flow).g, g)
    requires o.how.Normal? ==> At(q, g, a, b.flow, o.run.history)
    requires !o.how.Normal? ==> LandsAt(q, g, a, b, next, o.run.history)
    ensures LandsAt(q, g, a, AddAntecedent(b, next, b.flow), next, o.run.history)
  {
    if o.how.Normal? { ToLabel(q, g, a, b, next, b.flow, o.run.history); }
    else { StaysLanded(q, g, a, b, AddAntecedent(b, next, b.flow), next, o.run.history); }
  }

  // A loop's body completes and no round follows.
  lemma LoopDone(q: Question, g: Binding, a: Activation, jumps: seq<JumpTarget>, labels: set<string>, b: Builder, r: Builder, exit: nat, o: Outcome)
    requires UsesTraced(q, g, a, o.run.history) && Extends(b.g, r.g) && r.container == a.fn
    requires !GoesRound(o.how, labels)
    requires LeavesLoop(o.how, labels) ==> LandsAt(q, g, a, b, exit, o.run.history)
    requires !LeavesLoop(o.how, labels) ==> Lands(q, g, a, jumps, b, o)
    ensures Lands(q, g, a, jumps, Resume(r, exit), Loop(o, labels))
  {
    if LeavesLoop(o.how, labels) {
      StaysLanded(q, g, a, b, r, exit, o.run.history);
      ResumeFollows(q, g, a, r, exit, o.run.history);
    } else {
      LandsLater(q, g, a, jumps, b, Resume(r, exit), o);
    }
  }

  lemma {:induction false} DoWhileFollows(q: Question, g: Binding, a: Activation, s: Stmt, labels: set<string>, b: Builder, r: Run, fuel: nat)
    requires s.DoWhile? && Begun(q, g, a, s, labels, b, r) && Extends(VisitDoWhile(s, b).g, g)
    ensures Lands(q, g, a, b.jumps, VisitDoWhile(s, b), Exec(s, labels, r, a, fuel))
    decreases fuel, s, 2
  {
    GrowthChains();
    hide Extends, UsesTraced, Applies, Targets;
    NewLabel(g, b, LoopLabel);
    ToLabel(q, g, a, Add(b, LoopLabel), |b.g.nodes|, b.flow, r.history);
    DoWhileRounds(q, g, a, s, labels, b, r, fuel);
  }

  // A test at a loop's end: it goes round to the head, or is left.
  lemma {:induction false} LoopEndTest(q: Question, g: Binding, a: Activation, test: Expr, b: Builder, loop: nat, exit: nat, r: Run)
    requires Setup(q, g, a) && CleanExpr(q, test) && TestRead(q, test) && IsLabel(g, loop) && IsLabel(g, exit)
    requires Extends(LoopEnd(test, b, loop, exit).g, g) && Follows(q, g, a, b, r.history)
    ensures var t := Eval(test, r, a);
      UsesTraced(q, g, a, t.run.history) &&
      (!t.thrown ==>
        if test != NoExpr && !Truthy(t.value) then LandsAt(q, g, a, LoopEnd(test, b, loop, exit), exit, t.run.history)
        else At(q, g, a, loop, t.run.history))
  {
    GrowthChains();
    hide Extends, At, UsesTraced, Applies, Rooted, Branch, VisitExpr, Eval, AddAntecedent;
    var b1 := VisitExpr(test, b);
    var b2 := Branch(b1, b1.flow, test, true);
    var b3 := AddAntecedent(b2, loop, b2.flow);
    var c3 := Branch(b3, b1.flow, test, false);
    ExprFollows(q, g, a, test, b, r);
    var t := Eval(test, r, a);
    if !t.thrown {
      if test != NoExpr && !Truthy(t.value) {
        TrueStays(test, r, a);
        BranchFollows(q, g, a, b3, b1.flow, test, false, r);
        ToLabel(q, g, a, c3, exit, c3.flow, t.run.history);
      } else {
        BranchFollows(q, g, a, b1, b1.flow, test, true, r);
        ToLabel(q, g, a, b2, loop, b2.flow, t.run.history);
      }
    }
  }

  lemma {:induction false} DoWhileRounds(q: Question, g: Binding, a: Activation, s: Stmt, labels: set<string>, b: Builder, r: Run, fuel: nat)
    requires s.DoWhile? && Setup(q, g, a) && Clean(q, s) && Targets(g, b.jumps) && LabelsAgree(s, labels, b.pendingLabel)
    requires Extends(VisitDoWhile(s, b).g, g) && b.container == a.fn
    requires At(q, g, a, |b.g.nodes|, r.history) && UsesTraced(q, g, a, r.history)
    ensures Lands(q, g, a, b.jumps, VisitDoWhile(s, b), Exec(s, labels, r, a, fuel))
    decreases fuel, s, 1
  {
    GrowthChains();
    hide Extends, At, UsesTraced, Applies, Rooted, Targets, LoopEnd, Lands, VisitStmt, VisitExpr, VisitLoopBody, Eval;
    var loop := |b.g.nodes|;
    var b1 := AddAntecedent(Add(b, LoopLabel), loop, b.flow);
    var exit := |b1.g.nodes|;
    var next := exit + 1;
    var b2 := Add(Add(b1, BranchLabel), BranchLabel).(flow := loop);
    var b3 := VisitLoopBody(s.body, b2, exit, next);
    var b4 := AddAntecedent(b3, next, b3.flow);
    var b8 := LoopEnd(s.test, Resume(b4, next), loop, exit);
    NewLabel(g, b, LoopLabel);
    NewLabel(g, b1, BranchLabel);
    NewLabel(g, Add(b1, BranchLabel), BranchLabel);
    var o := Exec(s, labels, r, a, fuel);
    if fuel == 0 {
      Elsewhere(q, g, a, b.jumps, Resume(b8, exit), o);
    } else {
      BodyFollows(q, g, a, s.body, b2, exit, next, labels, r, fuel);
      var c := Exec(s.body, {}, r, a, fuel);
      if !GoesRound(c.how, labels) {
        LoopDone(q, g, a, b.jumps, labels, b3, b8, exit, c);
      } else {
        RoundLands(q, g, a, b3, next, c);
        ResumeFollows(q, g, a, b4, next, c.run.history);
        LoopEndTest(q, g, a, s.test, Resume(b4, next), loop, exit, c.run);
        var t := Eval(s.test, c.run, a);
        if t.thrown {
          Elsewhere(q, g, a, b.jumps, Resume(b8, exit), o);
        } else if s.test != NoExpr && !Truthy(t.value) {
          ResumeFollows(q, g, a, b8, exit, t.run.history);
          Normally(q, g, a, b.jumps, Resume(b8, exit), o);
        } else {
          DoWhileRounds(q, g, a, s, labels, b, t.run, fuel - 1);
        }
      }
    }
  }

  lemma LandedAt(q: Question, g: Binding, a: Activation, r: Builder, l: nat, h: History)
    requires LandsAt(q, g, a, r, l, h)
    ensures At(q, g, a, l, h)
  {
  }

  lemma {:induction false} ForFollows(q: Question, g: Binding, a: Activation, s: Stmt, labels: set<string>, b: Builder, r: Run, fuel: nat)
    requires s.For? && Begun(q, g, a, s, labels, b, r) && Extends(VisitFor(s, b).g, g)
    ensures Lands(q, g, a, b.jumps, VisitFor(s, b), Exec(s, labels, r, a, fuel))
    decreases fuel, s, 2
  {
    GrowthChains();
    hide Extends, At, UsesTraced, Applies, Targets, StartScope, EnterScope, ForRounds, Lands, Rooted;
    var b0 := StartScope(b, s.scope);
    var b1 := VisitStmt(s.start, b0);
    var r1 := EnterScope(r, s.scope, a);
    var after := VisitFor(s, b);
    EnterFollows(q, g, a, b, s.scope, r);
    StmtFollows(q, g, a, s.start, {}, b0, r1, fuel);
    var o := Exec(s.start, {}, r1, a, fuel);
    if o.how.Normal? {
      Normally(q, g, a, b.jumps, b1, o);
      NewLabel(g, b1, LoopLabel);
      var r2 := Emit(o.run, Renew(s.scope));
      SilentFollows(q, g, a, b1, b1, o.run.history, Renew(s.scope));
      ToLabel(q, g, a, Add(b1, LoopLabel), |b1.g.nodes|, b1.flow, r2.history);
      ForRoundsFollow(q, g, a, s, labels, b, b1, r2, fuel);
      ExitLands(q, g, a, b.jumps, after, ForRounds(s, labels, r2, a, fuel), s.scope);
    } else {
      LandsLater(q, g, a, b.jumps, b1, after, o);
      ExitLands(q, g, a, b.jumps, after, o, s.scope);
    }
  }

  lemma UpdateRound(q: Question, g: Binding, a: Activation, update: Expr, b: Builder, loop: nat, r: Run)
    requires Setup(q, g, a) && CleanExpr(q, update) && IsLabel(g, loop) && Follows(q, g, a, b, r.history)
    requires var b1 := VisitExpr(update, b); Extends(AddAntecedent(b1, loop, b1.flow).g, g)
    ensures var u := Eval(update, r, a);
      UsesTraced(q, g, a, u.run.history) && (!u.thrown ==> At(q, g, a, loop, u.run.history))
  {
    GrowthChains();
    hide Extends, At, UsesTraced, Applies, Rooted;
    var b1 := VisitExpr(update, b);
    ExprFollows(q, g, a, update, b, r);
    var u := Eval(update, r, a);
    if !u.thrown { ToLabel(q, g, a, b1, loop, b1.flow, u.run.history); }
  }

  lemma {:induction false} ForRoundsFollow(q: Question, g: Binding, a: Activation, s: Stmt, labels: set<string>, b: Builder, b0: Builder, r: Run, fuel: nat)
    requires s.For? && Setup(q, g, a) && Clean(q, s) && Targets(g, b.jumps) && LabelsAgree(s, labels, b.pendingLabel)
    requires Extends(VisitFor(s, b).g, g) && b.container == a.fn && b0 == VisitStmt(s.start, StartScope(b, s.scope))
    requires At(q, g, a, |b0.g.nodes|, r.history) && UsesTraced(q, g, a, r.history)
    ensures Lands(q, g, a, b.jumps, VisitFor(s, b), ForRounds(s, labels, r, a, fuel))
    decreases fuel, s, 1
  {
    GrowthChains();
    hide Extends, At, UsesTraced, Applies, Rooted, Targets, LoopTest, Lands, StartScope, StmtTakesLabel, LabelsLoop, VisitStmt, VisitExpr, VisitLoopBody, Eval, Exec, AddAntecedent;
    var loop := |b0.g.nodes|;
    var b1 := AddAntecedent(Add(b0, LoopLabel), loop, b0.flow).(flow := loop);
    var b2 := VisitExpr(s.test, b1);
    var exit := |b2.g.nodes|;
    var b3 := LoopTest(Add(b2, BranchLabel), s.test, exit);
    var next := |b3.g.nodes|;
    var b4 := VisitLoopBody(s.body, Add(b3, BranchLabel), exit, next);
    var b5 := AddAntecedent(b4, next, b4.flow);
    var b6 := VisitExpr(s.update, Resume(b5, next));
    var b7 := AddAntecedent(b6, loop, b6.flow);
    var after := Resume(b7, exit);
    NewLabel(g, b0, LoopLabel);
    NewLabel(g, b3, BranchLabel);
    var o := ForRounds(s, labels, r, a, fuel);
    if fuel == 0 {
      Elsewhere(q, g, a, b.jumps, after, o);
    } else {
      LoopHeadTest(q, g, a, s.test, b1, b7, r);
      var t := Eval(s.test, r, a);
      if t.thrown {
        Elsewhere(q, g, a, b.jumps, after, o);
      } else if s.test != NoExpr && !Truthy(t.value) {
        ResumeFollows(q, g, a, b7, exit, t.run.history);
        Normally(q, g, a, b.jumps, after, o);
      } else {
        BodyFollows(q, g, a, s.body, Add(b3, BranchLabel), exit, next, labels, t.run, fuel);
        var c := Exec(s.body, {}, t.run, a, fuel);
        if !GoesRound(c.how, labels) {
          LoopDone(q, g, a, b.jumps, labels, b4, b7, exit, c);
        } else {
          RoundLands(q, g, a, b4, next, c);
          ResumeFollows(q, g, a, b5, next, c.run.history);
          SilentFollows(q, g, a, Resume(b5, next), Resume(b5, next), c.run.history, Renew(s.scope));
          var r1 := Emit(c.run, Renew(s.scope));
          UpdateRound(q, g, a, s.update, Resume(b5, next), loop, r1);
          var u := Eval(s.update, r1, a);
          if u.thrown {
            Elsewhere(q, g, a, b.jumps, after, o);
          } else {
            ForRoundsFollow(q, g, a, s, labels, b, b0, u.run, fuel - 1);
          }
        }
      }
    }
  }

  lemma {:induction false} ForOfFollows(q: Question, g: Binding, a: Activation, s: Stmt, labels: set<string>, b: Builder, r: Run, fuel: nat)
    requires s.ForOf? && Begun(q, g, a, s, labels, b, r) && Extends(VisitForOf(s, b).g, g)
    ensures Lands(q, g, a, b.jumps, VisitForOf(s, b), Exec(s, labels, r, a, fuel))
    decreases fuel, s, 2
  {
    GrowthChains();
    hide Extends, At, UsesTraced, Applies, Targets, ForOfRounds, Lands, Rooted;
    ExprFollows(q, g, a, s.subject, b, r);
    var b0 := VisitExpr(s.subject, b);
    var v := Eval(s.subject, r, a);
    if v.thrown {
      Elsewhere(q, g, a, b.jumps, VisitForOf(s, b), Outcome(v.run, Threw));
    } else {
      NewLabel(g, b0, LoopLabel);
      ToLabel(q, g, a, Add(b0, LoopLabel), |b0.g.nodes|, b0.flow, v.run.history);
      ForOfRoundsFollow(q, g, a, s, labels, b, b0, v.run, fuel);
    }
  }

  lemma {:induction false} ForOfRoundsFollow(q: Question, g: Binding, a: Activation, s: Stmt, labels: set<string>, b: Builder, b0: Builder, r: Run, fuel: nat)
    requires s.ForOf? && Setup(q, g, a) && Clean(q, s) && Targets(g, b.jumps) && LabelsAgree(s, labels, b.pendingLabel)
    requires Extends(VisitForOf(s, b).g, g) && b.container == a.fn && b0 == VisitExpr(s.subject, b)
    requires At(q, g, a, |b0.g.nodes|, r.history) && UsesTraced(q, g, a, r.history)
    ensures Lands(q, g, a, b.jumps, VisitForOf(s, b), ForOfRounds(s, labels, r, a, fuel))
    decreases fuel, s, 1
  {
    GrowthChains();
    hide Extends, At, UsesTraced, Applies, Rooted, Targets, Lands, StartScope, AssignFlow, EnterScope, Ask, ForOfRound;
    var loop := |b0.g.nodes|;
    var b1 := AddAntecedent(Add(b0, LoopLabel), loop, b0.flow);
    var exit := |b1.g.nodes|;
    var b2 := AddAntecedent(Add(b1, BranchLabel), exit, loop);
    var c2 := b2.(flow := loop);
    var b3 := StartScope(c2, s.scope);
    var b4 := AssignFlow(b3, s.sym, OtherSite, s.kind != Var, true);
    var b5 := VisitLoopBody(s.body, b4, exit, loop);
    var b6 := AddAntecedent(b5, loop, b5.flow);
    var after := Resume(b6, exit);
    NewLabel(g, b0, LoopLabel);
    NewLabel(g, b1, BranchLabel);
    var o := ForOfRounds(s, labels, r, a, fuel);
    if fuel == 0 {
      Elsewhere(q, g, a, b.jumps, after, o);
    } else {
      AskFollows(q, g, a, c2, r);
      var c := Ask(r, a);
      if c.thrown {
        Elsewhere(q, g, a, b.jumps, after, o);
      } else if a.oracle(r.clock).done {
        ToLabel(q, g, a, Add(b1, BranchLabel), exit, loop, c.run.history);
        StaysLanded(q, g, a, b2, b6, exit, c.run.history);
        ResumeFollows(q, g, a, b6, exit, c.run.history);
        Normally(q, g, a, b.jumps, after, o);
      } else {
        var r1 := EnterScope(c.run, s.scope, a);
        EnterFollows(q, g, a, c2, s.scope, c.run);
        ForOfRoundFollows(q, g, a, s, labels, b3, exit, loop, c.value, r1, fuel);
        var k := ForOfRound(s, c.value, r1, a, fuel);
        ExitRound(q, g, a, b.jumps, labels, b5, exit, loop, k, s.scope);
        var d := Leave(k, s.scope);
        if GoesRound(d.how, labels) {
          RoundLands(q, g, a, b5, loop, d);
          hide LandsAt;
          LandedAt(q, g, a, b6, loop, d.run.history);
          ForOfRoundsFollow(q, g, a, s, labels, b, b0, d.run, fuel - 1);
        } else if d.how.Halted? {
          Done(q, g, a, b.jumps, labels, b5, exit, loop, d);
          Elsewhere(q, g, a, b.jumps, after, d);
        } else {
          ClosedRound(q, g, a, b.jumps, labels, b5, exit, loop, b6, d);
        }
      }
    }
  }

  // What a loop's body comes to, seen from outside the body.
  ghost predicate BodyDone(q: Question, g: Binding, a: Activation, jumps: seq<JumpTarget>, labels: set<string>, r: Builder, exit: nat, next: nat, o: Outcome) {
    && UsesTraced(q, g, a, o.run.history)
    && (o.how.Normal? ==> Follows(q, g, a, r, o.run.history))
    && (GoesRound(o.how, labels) && !o.how.Normal? ==> LandsAt(q, g, a, r, next, o.run.history))
    && (LeavesLoop(o.how, labels) ==> LandsAt(q, g, a, r, exit, o.run.history))
    && (!GoesRound(o.how, labels) && !LeavesLoop(o.how, labels) ==> Lands(q, g, a, jumps, r, o))
  }

  // What happens after the body, before control goes where it goes.
  lemma RoundDone(q: Question, g: Binding, a: Activation, jumps: seq<JumpTarget>, labels: set<string>, r: Builder, exit: nat, next: nat, o: Outcome, k: Run)
    requires BodyDone(q, g, a, jumps, labels, r, exit, next, o)
    requires UsesTraced(q, g, a, k.history) && Fades(q, a, g.blindTries, o.run.history, k.history)
    ensures BodyDone(q, g, a, jumps, labels, r, exit, next, Outcome(k, o.how))
  {
    hide At, Fades;
    forall n: nat | At(q, g, a, n, o.run.history) ensures At(q, g, a, n, k.history) {
      FadeAt(q, g, a, n, o.run.history, k.history);
    }
  }

  lemma ExitRound(q: Question, g: Binding, a: Activation, jumps: seq<JumpTarget>, labels: set<string>, r: Builder, exit: nat, next: nat, o: Outcome, s: Scope)
    requires BodyDone(q, g, a, jumps, labels, r, exit, next, o)
    ensures BodyDone(q, g, a, jumps, labels, r, exit, next, Leave(o, s))
  {
    hide At, Fades, Lands;
    ExitFades(q, a, g.blindTries, o.run.history, s);
    RoundDone(q, g, a, jumps, labels, r, exit, next, o, Leave(o, s).run);
  }

  // The loop is left early, its iterator told.
  lemma ClosedRound(q: Question, g: Binding, a: Activation, jumps: seq<JumpTarget>, labels: set<string>, r: Builder, exit: nat, next: nat, after: Builder, o: Outcome)
    requires Setup(q, g, a) && BodyDone(q, g, a, jumps, labels, r, exit, next, o) && !GoesRound(o.how, labels)
    requires Extends(r.g, after.g) && after.container == a.fn
    ensures Lands(q, g, a, jumps, Resume(after, exit), Loop(CloseIterator(o, a), labels))
  {
    hide At, Fades, Lands, LandsAt, Extends, Applies, Rooted, Ask, UsesTraced;
    Done(q, g, a, jumps, labels, r, exit, next, o);
    AskFades(q, a, g.blindTries, o.run);
    AskTraced(q, g, a, o.run);
    var k := Ask(o.run, a);
    RoundDone(q, g, a, jumps, labels, r, exit, next, o, k.run);
    if k.thrown { Elsewhere(q, g, a, jumps, Resume(after, exit), Outcome(k.run, Threw)); }
    else { LoopDone(q, g, a, jumps, labels, r, after, exit, Outcome(k.run, o.how)); }
  }

  lemma Done(q: Question, g: Binding, a: Activation, jumps: seq<JumpTarget>, labels: set<string>, r: Builder, exit: nat, next: nat, o: Outcome)
    requires BodyDone(q, g, a, jumps, labels, r, exit, next, o)
    ensures UsesTraced(q, g, a, o.run.history)
  {
  }

  lemma AskTraced(q: Question, g: Binding, a: Activation, r: Run)
    requires UsesTraced(q, g, a, r.history)
    ensures UsesTraced(q, g, a, Ask(r, a).run.history)
  {
    StoresTraced(q, g, a, a.oracle(r.clock).stores, r.history);
  }

  lemma {:induction false} ForOfRoundFollows(q: Question, g: Binding, a: Activation, s: Stmt, labels: set<string>, b: Builder, exit: nat, loop: nat, v: Value, r: Run, fuel: nat)
    requires s.ForOf? && Setup(q, g, a) && Clean(q, s.body) && Targets(g, b.jumps) && IsLabel(g, exit) && IsLabel(g, loop) && loop != Dead
    requires Labeling(labels, b.pendingLabel) && Follows(q, g, a, b, r.history)
    requires Extends(VisitLoopBody(s.body, AssignFlow(b, s.sym, OtherSite, s.kind != Var, true), exit, loop).g, g)
    ensures BodyDone(q, g, a, b.jumps, labels, VisitLoopBody(s.body, AssignFlow(b, s.sym, OtherSite, s.kind != Var, true), exit, loop),
      exit, loop, ForOfRound(s, v, r, a, fuel))
    decreases fuel, s.body, 5
  {
    GrowthChains();
    hide Extends, At, UsesTraced, Applies, Targets, Lands, AssignFlow;
    var b1 := AssignFlow(b, s.sym, OtherSite, s.kind != Var, true);
    var r1 := VisitLoopBody(s.body, b1, exit, loop);
    if s.kind != Var {
      InitializeFollows(q, g, a, b, s.sym, OtherSite, true, v, r);
      var o := Initialize(s.sym, OtherSite, true, v, r, a);
      if o.how.Normal? { BodyFollows(q, g, a, s.body, b1, exit, loop, labels, o.run, fuel); }
      else { Elsewhere(q, g, a, b.jumps, r1, o); }
    } else {
      StoreFollows(q, g, a, b, s.sym, OtherSite, v, r);
      var w := StoreTo(s.sym, OtherSite, v, r, a);
      if !w.thrown { BodyFollows(q, g, a, s.body, b1, exit, loop, labels, w.run, fuel); }
      else { Elsewhere(q, g, a, b.jumps, r1, Outcome(w.run, Threw)); }
    }
  }

  lemma {:induction false} LabeledFollows(q: Question, g: Binding, a: Activation, s: Stmt, labels: set<string>, b: Builder, r: Run, fuel: nat)
    requires s.Labeled? && Begun(q, g, a, s, labels, b, r) && Extends(VisitLabeled(s, b).g, g)
    ensures Lands(q, g, a, b.jumps, VisitLabeled(s, b), Exec(s, labels, r, a, fuel))
    decreases fuel, s, 2
  {
    if IsLoop(s.body) { LabeledLoopFollows(q, g, a, s, labels, b, r, fuel); }
    else { LabeledOtherFollows(q, g, a, s, labels, b, r, fuel); }
  }

  lemma {:induction false} LabeledLoopFollows(q: Question, g: Binding, a: Activation, s: Stmt, labels: set<string>, b: Builder, r: Run, fuel: nat)
    requires s.Labeled? && IsLoop(s.body) && Begun(q, g, a, s, labels, b, r) && Extends(VisitLabeled(s, b).g, g)
    ensures Lands(q, g, a, b.jumps, VisitLabeled(s, b), Exec(s, labels, r, a, fuel))
    decreases fuel, s.body, 4
  {
    assert LabelsLoop(s);
    assert labels == {};
    assert labels + {s.tag} == {s.tag};
    hide Extends, At, UsesTraced, Applies, Rooted, Targets, Lands;
    StmtFollows(q, g, a, s.body, {s.tag}, b.(pendingLabel := s.tag), r, fuel);
  }

  lemma {:induction false} LabeledOtherFollows(q: Question, g: Binding, a: Activation, s: Stmt, labels: set<string>, b: Builder, r: Run, fuel: nat)
    requires s.Labeled? && !IsLoop(s.body) && Begun(q, g, a, s, labels, b, r) && Extends(VisitLabeled(s, b).g, g)
    ensures Lands(q, g, a, b.jumps, VisitLabeled(s, b), Exec(s, labels, r, a, fuel))
    decreases fuel, s.body, 4
  {
    GrowthChains();
    var exit := |b.g.nodes|;
    var inner := if s.body.Labeled? then labels + {s.tag} else {};
    var o := Exec(s.body, inner, r, a, fuel);
    var t := JumpTarget(s.tag, exit, Dead, true);
    var b1 := Add(b, BranchLabel).(jumps := b.jumps + [t]);
    var b2 := VisitStmt(s.body, b1);
    var b3 := AddAntecedent(b2.(jumps := b.jumps), exit, b2.flow);
    hide Extends, At, UsesTraced, Applies, Targets, Lands;
    NewLabel(g, b, BranchLabel);
    TargetsPushed(g, b.jumps, t);
    StmtFollows(q, g, a, s.body, inner, b1, r, fuel);
    StatementLeft(q, g, a, b.jumps, t, b2, b3, o);
    Landed(q, g, a, b.jumps + [t], b2, o);
    if o.how == ContinueTo(s.tag) { Elsewhere(q, g, a, b.jumps, Resume(b3, exit), o.(how := Halted)); }
  }

  lemma Landed(q: Question, g: Binding, a: Activation, jumps: seq<JumpTarget>, r: Builder, o: Outcome)
    ensures Lands(q, g, a, jumps, r, o) ==> UsesTraced(q, g, a, o.run.history)
  {
  }

  // A labeled statement's or a switch's end, or a break out of it, hands control to its exit.
  lemma StatementLeft(q: Question, g: Binding, a: Activation, jumps: seq<JumpTarget>, t: JumpTarget, b: Builder, r: Builder, o: Outcome)
    requires Setup(q, g, a) && Lands(q, g, a, jumps + [t], b, o) && (t.breakOnly <==> t.tag != "") && t.continueTo == Dead
    requires IsLabel(g, t.breakTo) && Extends(AddAntecedent(b.(jumps := jumps), t.breakTo, b.flow).g, r.g) && Extends(r.g, g)
    requires r.container == a.fn
    ensures o.how.Normal? || o.how == BreakTo(t.tag) ==>
      LandsAt(q, g, a, r, t.breakTo, o.run.history) && Lands(q, g, a, jumps, Resume(r, t.breakTo), o.(how := Normal))
    ensures !o.how.Normal? && o.how != BreakTo(t.tag) && (o.how != ContinueTo(t.tag) || t.tag == "") ==>
      Lands(q, g, a, jumps, Resume(r, t.breakTo), o)
  {
    GrowthChains();
    var b1 := AddAntecedent(b.(jumps := jumps), t.breakTo, b.flow);
    assert Extends(b.g, r.g);
    match o.how
    case Normal =>
      ToLabel(q, g, a, b.(jumps := jumps), t.breakTo, b.flow, o.run.history);
      StaysLanded(q, g, a, b1, r, t.breakTo, o.run.history);
    case BreakTo(tag) =>
      FindPushed(jumps, t, tag, false);
      if tag == t.tag { StaysLanded(q, g, a, b, r, t.breakTo, o.run.history); }
      else { LandsLater(q, g, a, jumps, b, Resume(r, t.breakTo), o); }
    case ContinueTo(tag) =>
      FindPushed(jumps, t, tag, true);
      if tag != t.tag || t.tag == "" { LandsLater(q, g, a, jumps, b, Resume(r, t.breakTo), o); }
    case _ =>
  }

  // ----- switch -----

  // The state in which clause k's body is bound.
  function CaseEntry(cases: Cases, k: nat, clause: int, pre: nat, b: Builder): Builder
    requires k < Length(cases)
    decreases k
  {
    var b1 := EnterClause(b, pre, clause);
    var b2 := VisitExpr(cases.test, Join(b1, b1.flow, b.flow));
    if k == 0 then b2 else CaseEntry(cases.rest, k - 1, clause + 1, pre, VisitStmt(cases.body, b2))
  }

  // A clause is entered from the head of the switch, past the other tests.
  lemma {:induction false} ClauseFollows(q: Question, g: Binding, a: Activation, cases: Cases, clause: int, pre: nat, b: Builder, h: History)
    requires cases.Case? && Setup(q, g, a) && At(q, g, a, pre, h) && Extends(VisitCases(cases, clause, pre, b).g, g)
    ensures var b1 := EnterClause(b, pre, clause); At(q, g, a, Join(b1, b1.flow, b.flow).flow, h)
  {
    GrowthChains();
    hide Extends, At, Applies, Rooted, EnterClause, Join;
    var b1 := EnterClause(b, pre, clause);
    var b2 := Join(b1, b1.flow, b.flow);
    ClauseLink(q, g, b, pre, clause);
    LinkAt(q, g, a, pre, b1.flow, h);
    JoinLink(q, g, b1, b1.flow, b.flow);
    LinkAt(q, g, a, b1.flow, b2.flow, h);
  }

  // Or by falling through, its test bound though it does not run.
  lemma {:induction false} FallInFollows(q: Question, g: Binding, a: Activation, cases: Cases, clause: int, pre: nat, b: Builder, h: History)
    requires cases.Case? && Setup(q, g, a) && At(q, g, a, b.flow, h) && CleanCases(q, cases)
    requires Extends(VisitCases(cases, clause, pre, b).g, g)
    ensures At(q, g, a, CaseEntry(cases, 0, clause, pre, b).flow, h)
  {
    GrowthChains();
    hide Extends, At, Applies, Rooted, EnterClause, Join;
    var b1 := EnterClause(b, pre, clause);
    var b2 := Join(b1, b1.flow, b.flow);
    JoinLink(q, g, b1, b1.flow, b.flow);
    LinkAt(q, g, a, b.flow, b2.flow, h);
    QuietLink(q, g, cases.test, b2);
    LinkAt(q, g, a, b2.flow, VisitExpr(cases.test, b2).flow, h);
  }

  lemma {:induction false} SelectFollows(q: Question, g: Binding, a: Activation, cases: Cases, clause: nat, pre: nat, b: Builder, v: Value, r: Run)
    requires Setup(q, g, a) && CleanCases(q, cases) && b.container == a.fn && Extends(VisitCases(cases, clause, pre, b).g, g)
    requires At(q, g, a, pre, r.history) && UsesTraced(q, g, a, r.history)
    ensures var sel := Select(cases, clause, v, r, a);
      && UsesTraced(q, g, a, sel.run.history)
      && (!sel.thrown && !sel.found ==> At(q, g, a, pre, sel.run.history))
      && (!sel.thrown && sel.found ==>
            clause <= sel.clause < clause + Length(cases) &&
            At(q, g, a, CaseEntry(cases, sel.clause - clause, clause, pre, b).flow, sel.run.history))
    decreases cases
  {
    GrowthChains();
    hide Extends, At, UsesTraced, Applies, Rooted, EnterClause, Join, VisitExpr, VisitStmt, Eval;
    if cases.Case? {
      var b1 := EnterClause(b, pre, clause);
      var b2 := Join(b1, b1.flow, b.flow);
      var b3 := VisitStmt(cases.body, VisitExpr(cases.test, b2));
      if cases.test == NoExpr {
        SelectFollows(q, g, a, cases.rest, clause + 1, pre, b3, v, r);
      } else {
        ClauseFollows(q, g, a, cases, clause, pre, b, r.history);
        ExprFollows(q, g, a, cases.test, b2, r);
        var t := Eval(cases.test, r, a);
        if !t.thrown && t.value != v {
          EvalFades(q, a, g.blindTries, cases.test, r);
          FadeAt(q, g, a, pre, r.history, t.run.history);
          SelectFollows(q, g, a, cases.rest, clause + 1, pre, b3, v, t.run);
        }
      }
    }
  }

  lemma {:induction false} DefaultFollows(q: Question, g: Binding, a: Activation, cases: Cases, clause: int, pre: nat, b: Builder, h: History)
    requires Setup(q, g, a) && HasDefault(cases) && Extends(VisitCases(cases, clause, pre, b).g, g) && At(q, g, a, pre, h)
    ensures DefaultClause(cases) < Length(cases)
    ensures At(q, g, a, CaseEntry(cases, DefaultClause(cases), clause, pre, b).flow, h)
    decreases cases
  {
    GrowthChains();
    hide Extends, At, Applies, Rooted, EnterClause, Join;
    var b1 := EnterClause(b, pre, clause);
    var b2 := Join(b1, b1.flow, b.flow);
    if cases.test == NoExpr {
      ClauseFollows(q, g, a, cases, clause, pre, b, h);
    } else {
      DefaultFollows(q, g, a, cases.rest, clause + 1, pre, VisitStmt(cases.body, VisitExpr(cases.test, b2)), h);
    }
  }

  lemma {:induction false} FromFollows(q: Question, g: Binding, a: Activation, cases: Cases, k: nat, clause: int, pre: nat, b: Builder, r: Run, fuel: nat)
    requires k < Length(cases) && Setup(q, g, a) && CleanCases(q, cases) && Targets(g, b.jumps)
    requires b.container == a.fn && b.pendingLabel == "" && Extends(VisitCases(cases, clause, pre, b).g, g)
    requires At(q, g, a, CaseEntry(cases, k, clause, pre, b).flow, r.history) && UsesTraced(q, g, a, r.history)
    ensures Lands(q, g, a, b.jumps, VisitCases(cases, clause, pre, b), ExecFrom(cases, k, r, a, fuel))
    decreases fuel, cases, 3
  {
    GrowthChains();
    hide Extends, At, UsesTraced, Applies, Rooted, Targets, Lands, EnterClause, Join;
    var b1 := EnterClause(b, pre, clause);
    var b2 := VisitExpr(cases.test, Join(b1, b1.flow, b.flow));
    var b3 := VisitStmt(cases.body, b2);
    var after := VisitCases(cases.rest, clause + 1, pre, b3);
    if k > 0 {
      FromFollows(q, g, a, cases.rest, k - 1, clause + 1, pre, b3, r, fuel);
    } else {
      StmtFollows(q, g, a, cases.body, {}, b2, r, fuel);
      var o := Exec(cases.body, {}, r, a, fuel);
      if !o.how.Normal? {
        LandsLater(q, g, a, b.jumps, b3, after, o);
      } else {
        Normally(q, g, a, b.jumps, b3, o);
        if cases.rest.Case? {
          FallInFollows(q, g, a, cases.rest, clause + 1, pre, b3, o.run.history);
          FromFollows(q, g, a, cases.rest, 0, clause + 1, pre, b3, o.run, fuel);
        }
      }
    }
  }

  // The clause a switch enters, or none, and what becomes of it.
  lemma {:induction false} ClausesFollow(q: Question, g: Binding, a: Activation, s: Stmt, b0: Builder, b2: Builder, v: Value, r: Run, fuel: nat)
    requires s.Switch? && Setup(q, g, a) && CleanCases(q, s.cases) && Targets(g, b2.jumps) && Follows(q, g, a, b0, r.history)
    requires b2.container == a.fn && b2.pendingLabel == "" && Extends(VisitCases(s.cases, 0, b0.flow, b2).g, g)
    ensures
      var sel := Select(s.cases, 0, v, r, a);
      && UsesTraced(q, g, a, sel.run.history)
      && (!sel.thrown ==>
            var k := if sel.found then sel.clause else DefaultClause(s.cases);
            var o := ExecFrom(s.cases, k, sel.run, a, fuel);
            && UsesTraced(q, g, a, o.run.history)
            && (if sel.found || HasDefault(s.cases) then Lands(q, g, a, b2.jumps, VisitCases(s.cases, 0, b0.flow, b2), o)
                else o.how.Normal? && At(q, g, a, b0.flow, o.run.history)))
    decreases fuel, s, 0
  {
    hide Extends, At, UsesTraced, Applies, Rooted, Targets, Lands, VisitCases, CleanCases, Select, ExecFrom, CaseEntry, HasDefault, DefaultClause;
    SelectFollows(q, g, a, s.cases, 0, b0.flow, b2, v, r);
    var sel := Select(s.cases, 0, v, r, a);
    if !sel.thrown {
      var k := if sel.found then sel.clause else DefaultClause(s.cases);
      var o := ExecFrom(s.cases, k, sel.run, a, fuel);
      if sel.found || HasDefault(s.cases) {
        if !sel.found { DefaultFollows(q, g, a, s.cases, 0, b0.flow, b2, sel.run.history); }
        FromFollows(q, g, a, s.cases, k, 0, b0.flow, b2, sel.run, fuel);
        Landed(q, g, a, b2.jumps, VisitCases(s.cases, 0, b0.flow, b2), o);
      } else {
        NoClause(s.cases, sel.run, a, fuel);
      }
    }
  }

  lemma {:induction false} NoClause(cases: Cases, r: Run, a: Activation, fuel: nat)
    requires !HasDefault(cases)
    ensures ExecFrom(cases, DefaultClause(cases), r, a, fuel) == Outcome(r, Normal)
    decreases cases
  {
    if cases.Case? { NoClause(cases.rest, r, a, fuel); }
  }

  lemma {:induction false} SwitchFollows(q: Question, g: Binding, a: Activation, s: Stmt, labels: set<string>, b: Builder, r: Run, fuel: nat)
    requires s.Switch? && Begun(q, g, a, s, labels, b, r) && Extends(VisitSwitch(s, b).g, g)
    ensures Lands(q, g, a, b.jumps, VisitSwitch(s, b), Exec(s, labels, r, a, fuel))
    decreases fuel, s, 1
  {
    GrowthChains();
    hide Extends, At, UsesTraced, Applies, Targets, Lands, StartScope, EnterScope, Select, ExecFrom, EnterClause, VisitCases;
    var bd := VisitExpr(s.discriminant, b);
    var b0 := StartScope(bd, s.scope);
    var exit := |b0.g.nodes|;
    var b1 := Add(b0, BranchLabel);
    var t := JumpTarget("", exit, Dead, false);
    var b2 := b1.(jumps := b.jumps + [t], pendingLabel := "", flow := Dead);
    var b3 := VisitCases(s.cases, 0, b0.flow, b2);
    var b4 := AddAntecedent(b3.(jumps := b.jumps), exit, b3.flow);
    var c := EnterClause(b4, b0.flow, -1);
    var b5 := if HasDefault(s.cases) then b4 else AddAntecedent(c, exit, c.flow);
    var after := Resume(b5, exit);
    assert VisitSwitch(s, b) == after;
    NewLabel(g, b0, BranchLabel);
    TargetsPushed(g, b.jumps, t);
    ExprFollows(q, g, a, s.discriminant, b, r);
    var d := Eval(s.discriminant, r, a);
    if d.thrown {
      Elsewhere(q, g, a, b.jumps, after, Outcome(d.run, Threw));
    } else {
      var r1 := EnterScope(d.run, s.scope, a);
      EnterFollows(q, g, a, bd, s.scope, d.run);
      ClausesFollow(q, g, a, s, b0, b2, d.value, r1, fuel);
      var sel := Select(s.cases, 0, d.value, r1, a);
      var k := if sel.found then sel.clause else DefaultClause(s.cases);
      var o := ExecFrom(s.cases, k, sel.run, a, fuel);
      var p := if o.how == BreakTo("") then o.(how := Normal) else o;
      if sel.thrown {
        Elsewhere(q, g, a, b.jumps, after, Outcome(sel.run, Threw));
        ExitLands(q, g, a, b.jumps, after, Outcome(sel.run, Threw), s.scope);
      } else if sel.found || HasDefault(s.cases) {
        StatementLeft(q, g, a, b.jumps, t, b3, b5, o);
        ExitLands(q, g, a, b.jumps, after, p, s.scope);
      } else {
        ClauseLink(q, g, b4, b0.flow, -1);
        LinkAt(q, g, a, b0.flow, c.flow, o.run.history);
        ToLabel(q, g, a, c, exit, c.flow, o.run.history);
        ResumeFollows(q, g, a, b5, exit, o.run.history);
        Normally(q, g, a, b.jumps, after, o);
        ExitLands(q, g, a, b.jumps, after, o, s.scope);
      }
    }
  }

  // ----- try -----

  // The try block, and its catch clause, entered from the state before the try: what the block did
  // cannot have brought about what q asks.
  lemma {:induction false} GuardedFollows(q: Question, g: Binding, a: Activation, s: Stmt, b: Builder, r: Run, fuel: nat)
    requires s.Try? && Setup(q, g, a) && Clean(q, s) && Targets(g, b.jumps) && b.pendingLabel == ""
    requires Extends(VisitCatch(s.handler, b.flow, VisitStmt(s.block, b)).g, g) && Follows(q, g, a, b, r.history)
    ensures Lands(q, g, a, b.jumps, VisitCatch(s.handler, b.flow, VisitStmt(s.block, b)), ExecGuarded(s, r, a, fuel))
    decreases fuel, s, 0
  {
    GrowthChains();
    hide Extends, At, UsesTraced, Applies, Targets, Lands, StartScope, EnterScope, Join, Disturbs;
    var b1 := VisitStmt(s.block, b);
    StmtFollows(q, g, a, s.block, {}, b, r, fuel);
    var o := Exec(s.block, {}, r, a, fuel);
    if s.handler.Catch? {
      var body := s.handler.body;
      var scope := s.handler.scope;
      var b2 := b1.(flow := b.flow);
      var b3 := StartScope(b2, scope);
      var b4 := VisitStmt(body, b3);
      var b5 := Join(b4, b1.flow, b4.flow);
      JoinLink(q, g, b4, b1.flow, b4.flow);
      Landed(q, g, a, b.jumps, b1, o);
      if o.how.Threw? {
        ExecFades(q, a, g.blindTries, s.block, {}, r, fuel);
        var r0 := Emit(o.run, Caught(r.history));
        CaughtFades(q, a, g.blindTries, r.history, o.run.history);
        CaughtTraced(q, g, a, o.run.history, r.history);
        FadeAt(q, g, a, b.flow, r.history, r0.history);
        var r1 := EnterScope(r0, scope, a);
        EnterFollows(q, g, a, b2, scope, r0);
        StmtFollows(q, g, a, body, {}, b3, r1, fuel);
        var c := Exec(body, {}, r1, a, fuel);
        BranchLands(q, g, a, b.jumps, b4, b5, c);
        ExitLands(q, g, a, b.jumps, b5, c, scope);
      } else {
        BranchLands(q, g, a, b.jumps, b1, b5, o);
      }
    }
  }

  // An abrupt completion that goes on after a finally block still lands where it did.
  lemma LandsAfter(q: Question, g: Binding, a: Activation, jumps: seq<JumpTarget>, r1: Builder, r2: Builder, o: Outcome, k: Run)
    requires Lands(q, g, a, jumps, r1, o) && !o.how.Normal? && Extends(r1.g, r2.g)
    requires UsesTraced(q, g, a, k.history) && Fades(q, a, g.blindTries, o.run.history, k.history)
    ensures Lands(q, g, a, jumps, r2, Outcome(k, o.how))
  {
    hide At, UsesTraced, Fades, Extends;
    LandsLater(q, g, a, jumps, r1, r2, o);
    match o.how
    case BreakTo(tag) =>
      var t := FindJump(jumps, tag, false);
      if t.Some? { FadeAt(q, g, a, t.value.breakTo, o.run.history, k.history); }
    case ContinueTo(tag) =>
      var t := FindJump(jumps, tag, true);
      if t.Some? { FadeAt(q, g, a, t.value.continueTo, o.run.history, k.history); }
    case _ =>
  }

  // A finally block entered on the way out, by an entry of the graph's or none.
  lemma {:induction false} WayOutFollows(q: Question, g: Binding, a: Activation, s: Stmt, h0: History, last: Stmt, b3: Builder, e: Builder, o: Outcome, fuel: nat)
    requires Setup(q, g, a) && Clean(q, last) && !Disturbs(q, last)
    requires Lands(q, g, a, b3.jumps, b3, o) && !o.how.Normal? && Targets(g, b3.jumps) && e.jumps == b3.jumps
    requires e.pendingLabel == "" && Extends(b3.g, e.g) && Extends(VisitStmt(last, e).g, g)
    requires Follows(q, g, a, e, After(o.run.history, FinallyAbrupt(s, h0)))
    ensures
      var f := Exec(last, {}, Emit(o.run, FinallyAbrupt(s, h0)), a, fuel);
      Lands(q, g, a, b3.jumps, VisitStmt(last, e).(flow := Dead),
            if f.how.Normal? then Outcome(Emit(f.run, FinallyDone(o.run.history)), o.how) else f)
      && Lands(q, g, a, b3.jumps, VisitStmt(last, e),
            if f.how.Normal? then Outcome(Emit(f.run, FinallyDone(o.run.history)), o.how) else f)
    decreases fuel, last, 4
  {
    GrowthChains();
    hide Extends, At, Applies, Rooted, Targets, Lands, Fades;
    var r1 := Emit(o.run, FinallyAbrupt(s, h0));
    var f := Exec(last, {}, r1, a, fuel);
    var b4 := VisitStmt(last, e);
    StmtFollows(q, g, a, last, {}, e, r1, fuel);
    Landed(q, g, a, b3.jumps, b4, f);
    if f.how.Normal? {
      ExecFades(q, a, g.blindTries, last, {}, r1, fuel);
      WayOutFades(q, a, g.blindTries, s, h0, o.run.history, f.run.history);
      LandsAfter(q, g, a, b3.jumps, b3, b4, o, Emit(f.run, FinallyDone(o.run.history)));
      LandsAfter(q, g, a, b3.jumps, b3, b4.(flow := Dead), o, Emit(f.run, FinallyDone(o.run.history)));
    } else {
      LandsLater(q, g, a, b3.jumps, b4, b4.(flow := Dead), f);
    }
  }

  // Where the graph enters finally from: the normal completion, which an abrupt one then bypasses, or,
  // there being none, whatever state the try was in.
  lemma {:induction false} TryFollows(q: Question, g: Binding, a: Activation, s: Stmt, labels: set<string>, b: Builder, r: Run, fuel: nat)
    requires s.Try? && Begun(q, g, a, s, labels, b, r) && Extends(VisitTry(s, b).g, g)
    ensures Lands(q, g, a, b.jumps, VisitTry(s, b), Exec(s, labels, r, a, fuel))
    decreases fuel, s, 2
  {
    if s.finalizer.NoFinally? {
      hide Extends, At, UsesTraced, Applies, Rooted, Targets, Lands, ExecGuarded;
      GuardedFollows(q, g, a, s, b, r, fuel);
    } else {
      FinallyFollows(q, g, a, s, labels, b, r, fuel);
    }
  }

  lemma {:induction false} FinallyFollows(q: Question, g: Binding, a: Activation, s: Stmt, labels: set<string>, b: Builder, r: Run, fuel: nat)
    requires s.Try? && s.finalizer.Finally? && Begun(q, g, a, s, labels, b, r) && Extends(VisitTry(s, b).g, g)
    ensures Lands(q, g, a, b.jumps, VisitTry(s, b), Exec(s, labels, r, a, fuel))
    decreases fuel, s, 1
  {
    GrowthChains();
    hide Extends, At, UsesTraced, Applies, Targets, Lands, ExecGuarded, VisitCatch, Rooted;
    var last := s.finalizer.body;
    var exc := |b.g.nodes|;
    var b1 := AddAntecedent(Add(b, BranchLabel), exc, b.flow).(exceptionTargets := b.exceptionTargets + [exc]);
    var b2 := VisitCatch(s.handler, b.flow, VisitStmt(s.block, b1));
    var b3 := b2.(exceptionTargets := b.exceptionTargets);
    var o := ExecGuarded(s, r, a, fuel);
    var h := o.run.history;
    var k := After(h, FinallyAbrupt(s, r.history));
    GuardedFollows(q, g, a, s, b1, r, fuel);
    Surroundings(q, g, a, b.jumps, b2, b3, o);
    Landed(q, g, a, b.jumps, b3, o);
    if o.how.Halted? {
      Elsewhere(q, g, a, b.jumps, VisitTry(s, b), o);
    } else if b3.flow == Dead {
      var e := Resume(b3, exc);
      if o.how.Normal? {
        Normally(q, g, a, b.jumps, b3, o);
        DeadEnd(q, g, a, h);
        assert false;
      } else {
        GuardedFades(q, a, g.blindTries, s, r, fuel);
        AbruptFades(q, a, g.blindTries, s, r.history, h);
        FadeAt(q, g, a, b.flow, r.history, k);
        NewLabel(g, b, BranchLabel);
        ToLabel(q, g, a, Add(b, BranchLabel), exc, b.flow, k);
        StaysLanded(q, g, a, b1, b3, exc, k);
        AbruptTraced(q, g, a, s, r.history, h);
        ResumeFollows(q, g, a, b3, exc, k);
        WayOutFollows(q, g, a, s, r.history, last, b3, e, o, fuel);
      }
    } else {
      var e := MarkBlind(b3, s.id);
      if o.how.Normal? {
        Normally(q, g, a, b.jumps, b3, o);
        StmtFollows(q, g, a, last, {}, e, o.run, fuel);
      } else {
        AbruptTraced(q, g, a, s, r.history, h);
        GuardedFades(q, a, g.blindTries, s, r, fuel);
        Bypassed(q, g, a, s, b1, b3, e, r.history, h);
        WayOutFollows(q, g, a, s, r.history, last, b3, e, o, fuel);
      }
    }
  }

  lemma DeadEnd(q: Question, g: Binding, a: Activation, h: History)
    ensures !At(q, g, a, Dead, h)
  {
  }

  lemma AbruptFades(q: Question, a: Activation, tries: set<nat>, s: Stmt, h0: History, h: History)
    requires Fades(q, a, tries, h0, h)
    ensures Fades(q, a, tries, h0, After(h, FinallyAbrupt(s, h0)))
  {
  }

  lemma AbruptTraced(q: Question, g: Binding, a: Activation, s: Stmt, h0: History, h: History)
    requires UsesTraced(q, g, a, h)
    ensures UsesTraced(q, g, a, After(h, FinallyAbrupt(s, h0)))
  {
  }

  lemma CaughtTraced(q: Question, g: Binding, a: Activation, h: History, h0: History)
    requires UsesTraced(q, g, a, h)
    ensures UsesTraced(q, g, a, After(h, Caught(h0)))
  {
  }

  // A finally entered on the way out, which the graph enters from the end of its try: a path passes
  // through the try, or this is a detour.
  lemma Bypassed(q: Question, g: Binding, a: Activation, s: Stmt, b: Builder, b3: Builder, e: Builder, h0: History, h: History)
    requires s.Try? && s.finalizer.Finally? && Setup(q, g, a) && Clean(q, s) && Targets(g, b.jumps) && b.pendingLabel == ""
    requires At(q, g, a, b.flow, h0) && Fades(q, a, g.blindTries, h0, h)
    requires var b2 := VisitCatch(s.handler, b.flow, VisitStmt(s.block, b)); b3.g == b2.g && b3.flow == b2.flow
    requires b3.flow != Dead && e == MarkBlind(b3, s.id) && Extends(e.g, g) && b3.container == a.fn
    requires UsesTraced(q, g, a, After(h, FinallyAbrupt(s, h0)))
    ensures Follows(q, g, a, e, After(h, FinallyAbrupt(s, h0)))
  {
    assert s.id in g.blindTries;
    GrowthChains();
    assert Extends(b3.g, g);
    hide Extends, Clean, Traced, Targets, VisitCatch, VisitStmt, UsesTraced, Applies, Rooted, Diverts;
    AbruptFades(q, a, g.blindTries, s, h0, h);
    FadeAt(q, g, a, b.flow, h0, After(h, FinallyAbrupt(s, h0)));
    if !Diverts(q, g.blindTries, s) && !q.Reached? { FinallyEntry(q, g, s, b); }
  }
}
