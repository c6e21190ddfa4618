// A path through a statement: from wherever it can be left, a walk back that nothing in it ends comes to
// the flow before it.
module Bridges {
  import opened Syntax
  import opened FlowGraph
  import opened Visit
  import opened Walks
  import opened Questions
  import opened Links
  import opened Landing
  import opened Programs
  import opened WaysOut
  import opened Completion

  // Label l, which the binder has seen reached by r, is linked to n.
  ghost predicate Feeds(q: Question, g: Binding, n: nat, r: Builder, l: nat) {
    (n != Dead ==> Antecedents(r.g, l) != []) && Link(q, g, n, l)
  }

  // Wherever exits x lead from r, n is linked to.
  ghost predicate Bridge(q: Question, g: Binding, n: nat, jumps: seq<JumpTarget>, r: Builder, x: set<Exit>) {
    && (End in x ==> Link(q, g, n, r.flow))
    && forall e, l: nat :: e in x && Goes(jumps, e, l) ==> Feeds(q, g, n, r, l)
  }

  ghost predicate Crossing(q: Question, g: Binding, s: Stmt, b: Builder) {
    Rooted(g) && Clean(q, s) && Bare(q, s) && !q.Reached? && Steady(s, g.blindTries) && Targets(g, b.jumps) && LabelSafe(s, b)
  }

  lemma LinkOn(q: Question, g: Binding, n: nat, m: nat, k: nat)
    requires Link(q, g, n, m) && Link(q, g, m, k)
    ensures Link(q, g, n, k)
  {
  }

  lemma FeedsLater(q: Question, g: Binding, n: nat, r1: Builder, r2: Builder, l: nat)
    requires Feeds(q, g, n, r1, l) && Extends(r1.g, r2.g)
    ensures Feeds(q, g, n, r2, l)
  {
    assert Antecedents(r1.g, l) <= Antecedents(r2.g, l);
  }

  lemma FeedLabel(q: Question, g: Binding, n: nat, b: Builder, l: nat, f: nat)
    requires Rooted(g) && IsLabel(g, l) && Extends(AddAntecedent(b, l, f).g, g) && Link(q, g, n, f)
    ensures Feeds(q, g, n, AddAntecedent(b, l, f), l)
  {
    var r := AddAntecedent(b, l, f);
    if n != Dead {
      assert f in Antecedents(r.g, l) && Antecedents(r.g, l) <= Antecedents(g, l);
      PassLink(q, g, f, l);
    }
  }

  lemma FeedsResume(q: Question, g: Binding, n: nat, r: Builder, l: nat)
    requires Feeds(q, g, n, r, l)
    ensures Link(q, g, n, Resume(r, l).flow)
  {
  }

  // Jumps already made stay where they are; the flow is told separately.
  lemma BridgeLater(q: Question, g: Binding, n: nat, m: nat, jumps: seq<JumpTarget>, r1: Builder, r2: Builder, x: set<Exit>)
    requires Bridge(q, g, m, jumps, r1, x) && Link(q, g, n, m) && Extends(r1.g, r2.g)
    ensures Bridge(q, g, n, jumps, r2, x - {End})
    ensures End in x ==> Link(q, g, n, r1.flow)
    ensures End in x && Link(q, g, r1.flow, r2.flow) ==> Bridge(q, g, n, jumps, r2, x)
  {
    hide Extends;
    forall e, l: nat | e in x && Goes(jumps, e, l) ensures Feeds(q, g, n, r2, l) {
      FeedsLater(q, g, m, r1, r2, l);
    }
  }

  lemma BridgeBoth(q: Question, g: Binding, n: nat, jumps: seq<JumpTarget>, r: Builder, x: set<Exit>, y: set<Exit>)
    requires Bridge(q, g, n, jumps, r, x) && Bridge(q, g, n, jumps, r, y)
    ensures Bridge(q, g, n, jumps, r, x + y)
  {
  }

  // Only falling off.
  lemma BridgeEnd(q: Question, g: Binding, n: nat, jumps: seq<JumpTarget>, r: Builder, c: bool)
    requires c ==> Link(q, g, n, r.flow)
    ensures Bridge(q, g, n, jumps, r, EndIf(c))
  {
  }

  lemma PassesAssignment(q: Question, g: Binding, b: Builder, x: Symbol, site: Site, init: bool, assign: bool)
    requires Rooted(g) && Extends(AssignFlow(b, x, site, init, assign).g, g)
    requires q.Reached? || q.sym != x || (q.Declared? && !init)
    ensures Link(q, g, b.flow, AssignFlow(b, x, site, init, assign).flow)
  {
    if b.flow != Dead {
      AssignNode(g, b, x, site, init, assign);
      PassLink(q, g, b.flow, AssignFlow(b, x, site, init, assign).flow);
    }
  }

  lemma PassesScope(q: Question, g: Binding, b: Builder, s: Scope)
    requires Rooted(g) && Extends(StartScope(b, s).g, g) && !Owns(q, s)
    ensures Link(q, g, b.flow, StartScope(b, s).flow)
  {
    if b.flow != Dead {
      StepNode(g, b, ScopeStart(b.flow, s));
      PassLink(q, g, b.flow, StartScope(b, s).flow);
    }
  }

  // ----- statements -----

  lemma {:induction false} StmtBridges(q: Question, g: Binding, s: Stmt, b: Builder)
    requires Crossing(q, g, s, b) && Extends(VisitStmt(s, b).g, g)
    ensures Bridge(q, g, b.flow, b.jumps, VisitStmt(s, b), Exits(s, OwnLabel(s, b)))
    decreases s, 4
  {
    GrowthChains();
    hide Extends, Traced, Rooted, Targets, StartScope, VisitExpr, VisitDeclare, VisitIf, VisitWhile, VisitDoWhile, VisitFor, VisitForOf, VisitLabeled, VisitJump, VisitSwitch, VisitTry;
    match s
    case Empty =>
    case Then(_, _) => ThenBridges(q, g, s, b);
    case Declare(_, _, _, _) => DeclareBridges(q, g, s, b);
    case Evaluate(e) => QuietLink(q, g, e, b);
    case Block(scope, body) =>
      PassesScope(q, g, b, scope);
      var b1 := StartScope(b, scope);
      StmtBridges(q, g, body, b1);
      BridgeLater(q, g, b.flow, b1.flow, b.jumps, VisitStmt(body, b1), VisitStmt(body, b1), Exits(body, ""));
    case If(_, _, _) => IfBridges(q, g, s, b);
    case While(_, _) => WhileBridges(q, g, s, b);
    case DoWhile(_, _) => DoWhileBridges(q, g, s, b);
    case For(_, _, _, _, _) => ForBridges(q, g, s, b);
    case ForOf(_, _, _, _, _) => ForOfBridges(q, g, s, b);
    case Labeled(_, _) => LabeledBridges(q, g, s, b);
    case Break(tag) => JumpBridges(q, g, tag, false, b);
    case Continue(tag) => JumpBridges(q, g, tag, true, b);
    case Return(e) =>
    case Throw(e) =>
    case Switch(_, _, _) => SwitchBridges(q, g, s, b);
    case Try(_, _, _, _) => TryBridges(q, g, s, b);
  }

  lemma JumpBridges(q: Question, g: Binding, tag: string, cont: bool, b: Builder)
    requires Rooted(g) && Targets(g, b.jumps) && Extends(VisitJump(tag, cont, b).g, g)
    ensures Bridge(q, g, b.flow, b.jumps, VisitJump(tag, cont, b), {if cont then Next(tag) else Out(tag)})
  {
    hide Traced;
    var t := FindJump(b.jumps, tag, cont);
    if t.Some? {
      FoundTarget(g, b.jumps, tag, cont);
      FeedLabel(q, g, b.flow, b, if cont then t.value.continueTo else t.value.breakTo, b.flow);
    }
  }

  lemma {:induction false} DeclareBridges(q: Question, g: Binding, s: Stmt, b: Builder)
    requires s.Declare? && Crossing(q, g, s, b) && Extends(VisitDeclare(s, b).g, g)
    ensures Bridge(q, g, b.flow, b.jumps, VisitDeclare(s, b), {End})
  {
    GrowthChains();
    hide Extends, Traced, VisitExpr, AssignFlow;
    var b1 := VisitExpr(s.init, b);
    var site := DeclarationSite(s.id, s.init != NoExpr);
    QuietLink(q, g, s.init, b);
    if s.kind != Var { PassesAssignment(q, g, b1, s.sym, site, true, s.init != NoExpr); }
    else if s.init != NoExpr { PassesAssignment(q, g, b1, s.sym, site, false, true); }
  }

  lemma {:induction false} ThenBridges(q: Question, g: Binding, s: Stmt, b: Builder)
    requires s.Then? && Crossing(q, g, s, b) && Extends(VisitStmt(s, b).g, g)
    ensures Bridge(q, g, b.flow, b.jumps, VisitStmt(s, b), Exits(s, ""))
    decreases s, 0
  {
    GrowthChains();
    hide Extends, Traced, Rooted, Targets, Bridge;
    var b1 := VisitStmt(s.first, b);
    var b2 := VisitStmt(s.rest, b1);
    var x := Exits(s.first, "");
    StmtBridges(q, g, s.first, b);
    BridgeLater(q, g, b.flow, b.flow, b.jumps, b1, b2, x);
    if End in x {
      StmtBridges(q, g, s.rest, b1);
      BridgeFrom(q, g, b.flow, b1.flow, b.jumps, b2, Exits(s.rest, ""));
      BridgeBoth(q, g, b.flow, b.jumps, b2, x - {End}, Exits(s.rest, ""));
    } else {
      assert x - {End} == x;
    }
  }

  lemma BridgeFrom(q: Question, g: Binding, n: nat, m: nat, jumps: seq<JumpTarget>, r: Builder, x: set<Exit>)
    requires Bridge(q, g, m, jumps, r, x) && Link(q, g, n, m)
    ensures Bridge(q, g, n, jumps, r, x)
  {
  }

  lemma {:induction false} IfBridges(q: Question, g: Binding, s: Stmt, b: Builder)
    requires s.If? && Crossing(q, g, s, b) && Extends(VisitIf(s, b).g, g)
    ensures Bridge(q, g, b.flow, b.jumps, VisitIf(s, b), Exits(s, ""))
    decreases s, 0
  {
    GrowthChains();
    hide Extends, Traced, Rooted, Targets, Bridge, Branch, Join;
    var b1 := VisitExpr(s.test, b);
    var b2 := Branch(b1, b1.flow, s.test, true);
    var b3 := VisitStmt(s.yes, b2);
    var b4 := Branch(b3, b1.flow, s.test, false);
    var b5 := VisitStmt(s.no, b4);
    var b6 := Join(b5, b3.flow, b5.flow);
    QuietLink(q, g, s.test, b);
    BranchLink(q, g, b1, b1.flow, s.test, true);
    BranchLink(q, g, b3, b1.flow, s.test, false);
    JoinLink(q, g, b5, b3.flow, b5.flow);
    StmtBridges(q, g, s.yes, b2);
    StmtBridges(q, g, s.no, b4);
    BridgeJoined(q, g, b.flow, b2.flow, b.jumps, b3, b6, Exits(s.yes, ""));
    BridgeJoined(q, g, b.flow, b4.flow, b.jumps, b5, b6, Exits(s.no, ""));
    BridgeBoth(q, g, b.flow, b.jumps, b6, Exits(s.yes, ""), Exits(s.no, ""));
  }

  // A statement whose end is joined with another's.
  lemma BridgeJoined(q: Question, g: Binding, n: nat, m: nat, jumps: seq<JumpTarget>, r1: Builder, r2: Builder, x: set<Exit>)
    requires Bridge(q, g, m, jumps, r1, x) && Link(q, g, n, m) && Extends(r1.g, r2.g) && Link(q, g, r1.flow, r2.flow)
    ensures Bridge(q, g, n, jumps, r2, x)
  {
    BridgeLater(q, g, n, m, jumps, r1, r2, x);
    if End !in x { assert x - {End} == x; }
  }

  // ----- loops -----

  lemma HeadGrows(b: Builder, test: Expr, exit: nat)
    ensures |b.g.nodes| <= |LoopTest(b, test, exit).g.nodes|
  {
    hide LoopTest;
  }

  // What a loop's body leads to, n being linked to its start.
  ghost predicate Round(q: Question, g: Binding, n: nat, jumps: seq<JumpTarget>, r: Builder, own: string, exit: nat, next: nat, y: set<Exit>) {
    && (End in y ==> Link(q, g, n, r.flow))
    && (Leaves(y, own) ==> Feeds(q, g, n, r, exit))
    && (Next("") in y || Next(own) in y ==> Feeds(q, g, n, r, next))
    && Bridge(q, g, n, jumps, r, Outer(y, own))
  }

  lemma {:induction false} BodyBridges(q: Question, g: Binding, body: Stmt, b: Builder, exit: nat, next: nat, n: nat)
    requires Rooted(g) && Clean(q, body) && Bare(q, body) && !q.Reached? && Steady(body, g.blindTries) && Targets(g, b.jumps)
    requires IsLabel(g, exit) && IsLabel(g, next) && next != Dead && exit != next
    requires Extends(VisitLoopBody(body, b, exit, next).g, g) && Link(q, g, n, b.flow)
    ensures Round(q, g, n, b.jumps, VisitLoopBody(body, b, exit, next), b.pendingLabel, exit, next, Exits(body, ""))
    decreases body, 5
  {
    hide Extends, Traced, Rooted, VisitStmt, Clean, Bare, Steady;
    var t := JumpTarget(b.pendingLabel, exit, next, false);
    var b1 := b.(jumps := b.jumps + [t], pendingLabel := "");
    TargetsPushed(g, b.jumps, t);
    StmtBridges(q, g, body, b1);
    BridgeFrom(q, g, n, b.flow, b1.jumps, VisitStmt(body, b1), Exits(body, ""));
    BodyExits(q, g, n, b.jumps, t, VisitStmt(body, b1), Exits(body, ""));
  }

  lemma BodyExits(q: Question, g: Binding, n: nat, jumps: seq<JumpTarget>, t: JumpTarget, r: Builder, y: set<Exit>)
    requires Bridge(q, g, n, jumps + [t], r, y) && !t.breakOnly && t.continueTo != Dead && t.breakTo != t.continueTo
    ensures Round(q, g, n, jumps, r.(jumps := jumps), t.tag, t.breakTo, t.continueTo, y)
  {
    hide Link;
    LoopTakes(t.tag, t.breakTo, t.continueTo, y);
    forall e, l: nat ensures Goes(jumps + [t], e, l) <==>
      if Passes(t, e) then Goes(jumps, e, l) else Takes(t, e) && l == if e.Next? then t.continueTo else t.breakTo
    {
      PushedGoes(jumps, t, e, l);
    }
    assert forall e :: e in Outer(y, t.tag) ==> Passes(t, e);
    assert Takes(t, Out("")) && Takes(t, Out(t.tag)) && Takes(t, Next("")) && Takes(t, Next(t.tag));
    var r1 := r.(jumps := jumps);
    forall e, l: nat | e in Outer(y, t.tag) && Goes(jumps, e, l) ensures Feeds(q, g, n, r1, l) {
      assert Goes(jumps + [t], e, l);
    }
    forall e | e in y && Takes(t, e) ensures Feeds(q, g, n, r1, if e.Next? then t.continueTo else t.breakTo) {
      assert Goes(jumps + [t], e, if e.Next? then t.continueTo else t.breakTo);
    }
  }

  // Left at a test, or by a break of its body.
  lemma LoopBridges(q: Question, g: Binding, n: nat, jumps: seq<JumpTarget>, r: Builder, after: Builder, own: string, exit: nat, next: nat, y: set<Exit>, tested: bool)
    requires Round(q, g, n, jumps, r, own, exit, next, y) && Extends(r.g, after.g)
    requires tested ==> Feeds(q, g, n, after, exit)
    ensures Bridge(q, g, n, jumps, Resume(after, exit), EndIf(tested || Leaves(y, own)) + Outer(y, own))
  {
    hide Extends, Traced, Link;
    var p := Resume(after, exit);
    if Leaves(y, own) { FeedsLater(q, g, n, r, after, exit); }
    if tested || Leaves(y, own) { FeedsResume(q, g, n, after, exit); }
    forall e, l: nat | e in Outer(y, own) && Goes(jumps, e, l) ensures Feeds(q, g, n, p, l) {
      FeedsLater(q, g, n, r, p, l);
    }
    BridgeEnd(q, g, n, jumps, p, tested || Leaves(y, own));
    BridgeBoth(q, g, n, jumps, p, EndIf(tested || Leaves(y, own)), Outer(y, own));
  }

  // A test at a loop's head leads to the exit, if it can be falsy, and to the body.
  lemma HeadBridges(q: Question, g: Binding, n: nat, test: Expr, b: Builder, exit: nat)
    requires Rooted(g) && (q.Undef? ==> Unguarding(q.sym, test)) && IsLabel(g, exit) && Link(q, g, n, b.flow)
    requires Extends(LoopTest(b, test, exit).g, g)
    ensures Link(q, g, n, LoopTest(b, test, exit).flow)
    ensures !AlwaysTrue(test) ==> Feeds(q, g, n, LoopTest(b, test, exit), exit)
  {
    GrowthChains();
    hide Extends, Traced, Rooted, Branch;
    var c := Branch(b, b.flow, test, false);
    var d := AddAntecedent(c, exit, c.flow);
    var b1 := if AlwaysTrue(test) then b else d;
    BranchLink(q, g, b1, b.flow, test, true);
    if !AlwaysTrue(test) {
      BranchLink(q, g, b, b.flow, test, false);
      FeedLabel(q, g, n, c, exit, c.flow);
      FeedsLater(q, g, n, d, LoopTest(b, test, exit), exit);
    }
  }

  lemma {:induction false} WhileBridges(q: Question, g: Binding, s: Stmt, b: Builder)
    requires s.While? && Crossing(q, g, s, b) && Extends(VisitWhile(s, b).g, g)
    ensures Bridge(q, g, b.flow, b.jumps, VisitWhile(s, b), Exits(s, b.pendingLabel))
    decreases s, 0
  {
    GrowthChains();
    hide Extends, Traced, Rooted, Targets, Bridge, LoopTest, VisitExpr, VisitLoopBody, AddAntecedent;
    var loop := |b.g.nodes|;
    var b1 := AddAntecedent(Add(b, LoopLabel), loop, b.flow).(flow := loop);
    var b2 := VisitExpr(s.test, b1);
    var exit := |b2.g.nodes|;
    var b3 := LoopTest(Add(b2, BranchLabel), s.test, exit);
    var b4 := VisitLoopBody(s.body, b3, exit, loop);
    var b5 := AddAntecedent(b4, loop, b4.flow);
    NewLabel(g, b, LoopLabel);
    NewLabel(g, b2, BranchLabel);
    FeedLabel(q, g, b.flow, Add(b, LoopLabel), loop, b.flow);
    QuietLink(q, g, s.test, b1);
    ExprPending(s.test, b1);
    HeadBridges(q, g, b.flow, s.test, Add(b2, BranchLabel), exit);
    BodyBridges(q, g, s.body, b3, exit, loop, b.flow);
    if !AlwaysTrue(s.test) { FeedsLater(q, g, b.flow, b3, b5, exit); }
    LoopBridges(q, g, b.flow, b.jumps, b4, b5, b.pendingLabel, exit, loop, Exits(s.body, ""), !AlwaysTrue(s.test));
  }

  lemma {:induction false} DoWhileBridges(q: Question, g: Binding, s: Stmt, b: Builder)
    requires s.DoWhile? && Crossing(q, g, s, b) && Extends(VisitDoWhile(s, b).g, g)
    ensures Bridge(q, g, b.flow, b.jumps, VisitDoWhile(s, b), Exits(s, b.pendingLabel))
    decreases s, 0
  {
    GrowthChains();
    hide Extends, Traced, Rooted, Targets, Bridge, LoopEnd, VisitExpr, VisitLoopBody, AddAntecedent;
    var loop := |b.g.nodes|;
    var b1 := AddAntecedent(Add(b, LoopLabel), loop, b.flow);
    var exit := |b1.g.nodes|;
    var next := exit + 1;
    var b2 := Add(Add(b1, BranchLabel), BranchLabel).(flow := loop);
    var b3 := VisitLoopBody(s.body, b2, exit, next);
    var b4 := AddAntecedent(b3, next, b3.flow);
    var b8 := LoopEnd(s.test, Resume(b4, next), loop, exit);
    var y, own := Exits(s.body, ""), b.pendingLabel;
    NewLabel(g, b, LoopLabel);
    NewLabel(g, b1, BranchLabel);
    NewLabel(g, Add(b1, BranchLabel), BranchLabel);
    FeedLabel(q, g, b.flow, Add(b, LoopLabel), loop, b.flow);
    BodyBridges(q, g, s.body, b2, exit, next, b.flow);
    if GoesOn(y, own) {
      if End in y { FeedLabel(q, g, b.flow, b3, next, b3.flow); }
      else { FeedsLater(q, g, b.flow, b3, b4, next); }
      FeedsResume(q, g, b.flow, b4, next);
      EndBridges(q, g, b.flow, s.test, Resume(b4, next), loop, exit);
    }
    LoopBridges(q, g, b.flow, b.jumps, b3, b8, own, exit, next, y, GoesOn(y, own) && !AlwaysTrue(s.test));
  }

  lemma EndBridges(q: Question, g: Binding, n: nat, test: Expr, b: Builder, loop: nat, exit: nat)
    requires Rooted(g) && (q.Undef? ==> Unguarding(q.sym, test)) && Quiet(q, test) && IsLabel(g, loop) && IsLabel(g, exit) && Link(q, g, n, b.flow)
    requires Extends(LoopEnd(test, b, loop, exit).g, g)
    ensures !AlwaysTrue(test) ==> Feeds(q, g, n, LoopEnd(test, b, loop, exit), exit)
  {
    GrowthChains();
    hide Extends, Traced, Rooted, Branch, VisitExpr, AddAntecedent;
    var b1 := VisitExpr(test, b);
    var b2 := Branch(b1, b1.flow, test, true);
    var b3 := AddAntecedent(b2, loop, b2.flow);
    QuietLink(q, g, test, b);
    if !AlwaysTrue(test) {
      var c := Branch(b3, b1.flow, test, false);
      BranchLink(q, g, b3, b1.flow, test, false);
      FeedLabel(q, g, n, c, exit, c.flow);
    }
  }

  lemma {:induction false} ForBridges(q: Question, g: Binding, s: Stmt, b: Builder)
    requires s.For? && Crossing(q, g, s, b) && Extends(VisitFor(s, b).g, g)
    ensures Bridge(q, g, b.flow, b.jumps, VisitFor(s, b), Exits(s, b.pendingLabel))
    decreases s, 1
  {
    GrowthChains();
    hide Extends, Traced, Rooted, Targets, Bridge, StartScope, VisitExpr, VisitLoopBody, VisitStmt, LoopTest, AddAntecedent;
    var c := StartScope(b, s.scope);
    var b0 := VisitStmt(s.start, c);
    var r := VisitFor(s, b);
    var x, y, own := Exits(s.start, ""), Exits(s.body, ""), b.pendingLabel;
    PassesScope(q, g, b, s.scope);
    StmtPending(s.start, c);
    StmtBridges(q, g, s.start, c);
    BridgeLater(q, g, b.flow, c.flow, b.jumps, b0, r, x);
    if End in x {
      RoundsBridge(q, g, s, b, b0);
      BridgeBoth(q, g, b.flow, b.jumps, r, x - {End}, EndIf(!AlwaysTrue(s.test) || Leaves(y, own)) + Outer(y, own));
      assert (x - {End}) + (EndIf(!AlwaysTrue(s.test) || Leaves(y, own)) + Outer(y, own)) == Exits(s, own);
    } else {
      assert x - {End} == x;
    }
  }

  lemma {:induction false} RoundsBridge(q: Question, g: Binding, s: Stmt, b: Builder, b0: Builder)
    requires s.For? && Crossing(q, g, s, b) && Extends(VisitFor(s, b).g, g) && End in Exits(s.start, "")
    requires b0 == VisitStmt(s.start, StartScope(b, s.scope)) && Link(q, g, b.flow, b0.flow) && b0.pendingLabel == b.pendingLabel
    ensures var y, own := Exits(s.body, ""), b.pendingLabel;
      Bridge(q, g, b.flow, b.jumps, VisitFor(s, b), EndIf(!AlwaysTrue(s.test) || Leaves(y, own)) + Outer(y, own))
    decreases s, 0
  {
    GrowthChains();
    hide Extends, Traced, Rooted, Targets, Bridge, StartScope, VisitExpr, VisitLoopBody, VisitStmt, LoopTest, AddAntecedent;
    var n, loop := b.flow, |b0.g.nodes|;
    var b1 := AddAntecedent(Add(b0, LoopLabel), loop, b0.flow).(flow := loop);
    var b2 := VisitExpr(s.test, b1);
    var exit := |b2.g.nodes|;
    var b3 := LoopTest(Add(b2, BranchLabel), s.test, exit);
    var next := |b3.g.nodes|;
    var b4 := VisitLoopBody(s.body, Add(b3, BranchLabel), exit, next);
    var b5 := AddAntecedent(b4, next, b4.flow);
    var b6 := VisitExpr(s.update, Resume(b5, next));
    var b7 := AddAntecedent(b6, loop, b6.flow);
    NewLabel(g, b0, LoopLabel);
    NewLabel(g, b2, BranchLabel);
    NewLabel(g, b3, BranchLabel);
    FeedLabel(q, g, n, Add(b0, LoopLabel), loop, b0.flow);
    QuietLink(q, g, s.test, b1);
    ExprPending(s.test, b1);
    HeadBridges(q, g, n, s.test, Add(b2, BranchLabel), exit);
    HeadGrows(Add(b2, BranchLabel), s.test, exit);
    BodyBridges(q, g, s.body, Add(b3, BranchLabel), exit, next, n);
    if !AlwaysTrue(s.test) { FeedsLater(q, g, n, b3, b7, exit); }
    LoopBridges(q, g, n, b.jumps, b4, b7, b.pendingLabel, exit, next, Exits(s.body, ""), !AlwaysTrue(s.test));
  }

  lemma {:induction false} ForOfBridges(q: Question, g: Binding, s: Stmt, b: Builder)
    requires s.ForOf? && Crossing(q, g, s, b) && Extends(VisitForOf(s, b).g, g)
    ensures Bridge(q, g, b.flow, b.jumps, VisitForOf(s, b), Exits(s, b.pendingLabel))
    decreases s, 0
  {
    GrowthChains();
    hide Extends, Traced, Rooted, Targets, Bridge, StartScope, AssignFlow, VisitExpr, VisitLoopBody, AddAntecedent;
    var n, b0 := b.flow, VisitExpr(s.subject, b);
    var loop := |b0.g.nodes|;
    var b1 := AddAntecedent(Add(b0, LoopLabel), loop, b0.flow);
    var exit := |b1.g.nodes|;
    var b2 := AddAntecedent(Add(b1, BranchLabel), exit, loop);
    var c2 := b2.(flow := loop);
    var b3 := StartScope(c2, s.scope);
    var b4 := AssignFlow(b3, s.sym, OtherSite, s.kind != Var, true);
    var b5 := VisitLoopBody(s.body, b4, exit, loop);
    var b6 := AddAntecedent(b5, loop, b5.flow);
    NewLabel(g, b0, LoopLabel);
    NewLabel(g, b1, BranchLabel);
    QuietLink(q, g, s.subject, b);
    ExprPending(s.subject, b);
    FeedLabel(q, g, n, Add(b0, LoopLabel), loop, b0.flow);
    FeedLabel(q, g, n, Add(b1, BranchLabel), exit, loop);
    PassesScope(q, g, c2, s.scope);
    PassesAssignment(q, g, b3, s.sym, OtherSite, s.kind != Var, true);
    LinkOn(q, g, loop, b3.flow, b4.flow);
    LinkOn(q, g, n, loop, b4.flow);
    BodyBridges(q, g, s.body, b4, exit, loop, n);
    FeedsLater(q, g, n, b2, b6, exit);
    LoopBridges(q, g, n, b.jumps, b5, b6, b.pendingLabel, exit, loop, Exits(s.body, ""), true);
  }

  // ----- labels and switches -----

  // A labeled statement's or a switch's end, or a break out of it, leads to its exit.
  lemma LeftBridges(q: Question, g: Binding, n: nat, jumps: seq<JumpTarget>, t: JumpTarget, b: Builder, r: Builder, x: set<Exit>)
    requires Rooted(g) && Bridge(q, g, n, jumps + [t], b, x) && (t.breakOnly <==> t.tag != "") && t.continueTo == Dead
    requires IsLabel(g, t.breakTo) && Extends(AddAntecedent(b.(jumps := jumps), t.breakTo, b.flow).g, r.g) && Extends(r.g, g)
    ensures End in x || Out(t.tag) in x ==> Link(q, g, n, Resume(r, t.breakTo).flow)
    ensures Bridge(q, g, n, jumps, Resume(r, t.breakTo), x - {End, Out(t.tag), Next(t.tag)})
    ensures t.tag == "" ==> Bridge(q, g, n, jumps, Resume(r, t.breakTo), x - {End, Out("")})
  {
    GrowthChains();
    hide Extends, Traced, Link, Rooted;
    var l0, p := t.breakTo, Resume(r, t.breakTo);
    var b1 := AddAntecedent(b.(jumps := jumps), l0, b.flow);
    forall e, l: nat | e in x && Goes(jumps + [t], e, l) ensures Feeds(q, g, n, r, l) && Feeds(q, g, n, p, l) {
      FeedsLater(q, g, n, b, r, l);
      FeedsLater(q, g, n, b, p, l);
    }
    forall e, l: nat ensures Goes(jumps + [t], e, l) <==>
      if Passes(t, e) then Goes(jumps, e, l) else Takes(t, e) && l == if e.Next? then t.continueTo else t.breakTo
    {
      PushedGoes(jumps, t, e, l);
    }
    if End in x {
      FeedLabel(q, g, n, b.(jumps := jumps), l0, b.flow);
      FeedsLater(q, g, n, b1, r, l0);
      FeedsResume(q, g, n, r, l0);
    } else if Out(t.tag) in x {
      assert Goes(jumps + [t], Out(t.tag), l0);
      FeedsResume(q, g, n, r, l0);
    }
  }

  lemma {:induction false} LabeledBridges(q: Question, g: Binding, s: Stmt, b: Builder)
    requires s.Labeled? && Crossing(q, g, s, b) && Extends(VisitLabeled(s, b).g, g)
    ensures Bridge(q, g, b.flow, b.jumps, VisitLabeled(s, b), Exits(s, ""))
    decreases s, 0
  {
    if IsLoop(s.body) {
      StmtBridges(q, g, s.body, b.(pendingLabel := s.tag));
    } else {
      GrowthChains();
      hide Extends, Traced, Rooted, Targets, Bridge, AddAntecedent;
      var exit := |b.g.nodes|;
      var t := JumpTarget(s.tag, exit, Dead, true);
      var b1 := Add(b, BranchLabel).(jumps := b.jumps + [t]);
      var b2 := VisitStmt(s.body, b1);
      var b3 := AddAntecedent(b2.(jumps := b.jumps), exit, b2.flow);
      var x := Exits(s.body, "");
      NewLabel(g, b, BranchLabel);
      TargetsPushed(g, b.jumps, t);
      StmtBridges(q, g, s.body, b1);
      LeftBridges(q, g, b.flow, b.jumps, t, b2, b3, x);
      LabeledExits(s, x);
      BridgeEnd(q, g, b.flow, b.jumps, Resume(b3, exit), End in Exits(s, ""));
      BridgeBoth(q, g, b.flow, b.jumps, Resume(b3, exit), EndIf(End in Exits(s, "")), x - {End, Out(s.tag), Next(s.tag)});
    }
  }

  lemma LabeledExits(s: Stmt, x: set<Exit>)
    requires s.Labeled? && !IsLoop(s.body) && x == Exits(s.body, "")
    ensures Exits(s, "") == EndIf(End in Exits(s, "")) + (x - {End, Out(s.tag), Next(s.tag)})
    ensures End in Exits(s, "") <==> End in x || Out(s.tag) in x
  {
  }

  // The clauses of a switch, each of them entered from its head, which n is linked to.
  lemma {:induction false} CasesBridge(q: Question, g: Binding, n: nat, cases: Cases, clause: int, pre: nat, b: Builder)
    requires Rooted(g) && CleanCases(q, cases) && !q.Reached? && (q.Undef? ==> CasesUnguarded(q.sym, cases)) && SteadyCases(cases, g.blindTries) && Targets(g, b.jumps)
    requires !CasesOpen(q.sym.scope, cases) && if q.Declared? then !CasesDeclare(q.sym, cases) else !CasesStore(q.sym, cases)
    requires b.pendingLabel == "" && Link(q, g, n, pre) && Extends(VisitCases(cases, clause, pre, b).g, g)
    ensures Bridge(q, g, n, b.jumps, VisitCases(cases, clause, pre, b), CaseExits(cases))
    decreases cases, 1
  {
    GrowthChains();
    hide Extends, Traced, Rooted, Targets, Bridge, EnterClause, Join, VisitStmt, VisitExpr;
    if cases.Case? {
      var b1 := EnterClause(b, pre, clause);
      var b2 := Join(b1, b1.flow, b.flow);
      var b3 := VisitExpr(cases.test, b2);
      var b4 := VisitStmt(cases.body, b3);
      var r := VisitCases(cases.rest, clause + 1, pre, b4);
      var x := Exits(cases.body, "");
      ClauseLink(q, g, b, pre, clause);
      JoinLink(q, g, b1, b1.flow, b.flow);
      QuietLink(q, g, cases.test, b2);
      LinkOn(q, g, n, pre, b1.flow);
      LinkOn(q, g, n, b1.flow, b2.flow);
      LinkOn(q, g, n, b2.flow, b3.flow);
      ExprPending(cases.test, b2);
      StmtBridges(q, g, cases.body, b3);
      BridgeFrom(q, g, n, b3.flow, b.jumps, b4, x);
      if cases.rest.Case? {
        StmtPending(cases.body, b3);
        BridgeLater(q, g, n, n, b.jumps, b4, r, x);
        CasesBridge(q, g, n, cases.rest, clause + 1, pre, b4);
        BridgeBoth(q, g, n, b.jumps, r, x - {End}, CaseExits(cases.rest));
      }
    } else {
      BridgeEnd(q, g, n, b.jumps, b, false);
    }
  }

  lemma {:induction false} SwitchBridges(q: Question, g: Binding, s: Stmt, b: Builder)
    requires s.Switch? && Crossing(q, g, s, b) && Extends(VisitSwitch(s, b).g, g)
    ensures Bridge(q, g, b.flow, b.jumps, VisitSwitch(s, b), Exits(s, ""))
    decreases s, 0
  {
    GrowthChains();
    hide Extends, Traced, Rooted, Targets, Bridge, StartScope, EnterClause, VisitCases, VisitExpr, AddAntecedent;
    var n, c := b.flow, VisitExpr(s.discriminant, b);
    var b0 := StartScope(c, s.scope);
    var exit := |b0.g.nodes|;
    var b1 := Add(b0, BranchLabel);
    var t := JumpTarget("", exit, Dead, false);
    var b2 := b1.(jumps := b.jumps + [t], pendingLabel := "", flow := Dead);
    var b3 := VisitCases(s.cases, 0, b0.flow, b2);
    var b4 := AddAntecedent(b3.(jumps := b.jumps), exit, b3.flow);
    var d := EnterClause(b4, b0.flow, -1);
    var b5 := if HasDefault(s.cases) then b4 else AddAntecedent(d, exit, d.flow);
    var after := Resume(b5, exit);
    ExprPending(s.discriminant, b);
    ScopePending(c, s.scope);
    assert VisitSwitch(s, b) == after;
    QuietLink(q, g, s.discriminant, b);
    PassesScope(q, g, c, s.scope);
    NewLabel(g, b0, BranchLabel);
    TargetsPushed(g, b.jumps, t);
    CasesBridge(q, g, n, s.cases, 0, b0.flow, b2);
    LeftBridges(q, g, n, b.jumps, t, b3, b5, CaseExits(s.cases));
    if !HasDefault(s.cases) {
      ClauseLink(q, g, b4, b0.flow, -1);
      LinkOn(q, g, n, b0.flow, d.flow);
      FeedLabel(q, g, n, d, exit, d.flow);
      FeedsResume(q, g, n, b5, exit);
    }
    SwitchExits(s, CaseExits(s.cases) - {End, Out("")});
    assert Exits(s, "") == EndIf(End in Exits(s, "")) + (CaseExits(s.cases) - {End, Out("")});
    BridgeEnd(q, g, n, b.jumps, after, End in Exits(s, ""));
    BridgeBoth(q, g, n, b.jumps, after, EndIf(End in Exits(s, "")), CaseExits(s.cases) - {End, Out("")});
  }

  lemma ScopePending(b: Builder, s: Scope)
    ensures StartScope(b, s).pendingLabel == b.pendingLabel
  {
  }

  // ----- try -----

  lemma {:induction false} GuardedBridges(q: Question, g: Binding, s: Stmt, b: Builder)
    requires s.Try? && Rooted(g) && !q.Reached? && Clean(q, s) && Targets(g, b.jumps) && b.pendingLabel == ""
    requires Extends(VisitCatch(s.handler, b.flow, VisitStmt(s.block, b)).g, g)
    ensures var r := VisitCatch(s.handler, b.flow, VisitStmt(s.block, b));
      && (Bare(q, s.block) && Steady(s.block, g.blindTries) ==> Bridge(q, g, b.flow, b.jumps, r, Exits(s.block, "")))
      && (s.handler.Catch? && !Owns(q, s.handler.scope) && Bare(q, s.handler.body) && Steady(s.handler.body, g.blindTries) ==>
            Bridge(q, g, b.flow, b.jumps, r, Exits(s.handler.body, "")))
    decreases s, 0
  {
    GrowthChains();
    hide Extends, Traced, Rooted, Targets, Bridge, StartScope, Join, Bare, Steady;
    var b1 := VisitStmt(s.block, b);
    if s.handler.Catch? {
      var body := s.handler.body;
      var b2 := b1.(flow := b.flow);
      var b3 := StartScope(b2, s.handler.scope);
      var b4 := VisitStmt(body, b3);
      var b5 := Join(b4, b1.flow, b4.flow);
      JoinLink(q, g, b4, b1.flow, b4.flow);
      if Bare(q, s.block) && Steady(s.block, g.blindTries) {
        StmtBridges(q, g, s.block, b);
        BridgeJoined(q, g, b.flow, b.flow, b.jumps, b1, b5, Exits(s.block, ""));
      }
      if !Owns(q, s.handler.scope) && Bare(q, body) && Steady(body, g.blindTries) {
        PassesScope(q, g, b2, s.handler.scope);
        ScopePending(b2, s.handler.scope);
        StmtBridges(q, g, body, b3);
        BridgeJoined(q, g, b.flow, b3.flow, b.jumps, b4, b5, Exits(body, ""));
      }
    } else if Bare(q, s.block) && Steady(s.block, g.blindTries) {
      StmtBridges(q, g, s.block, b);
    }
  }

  // What a finally is bound after: a try that falls off is passed from end to end.
  lemma {:induction false} FinallyEntry(q: Question, g: Binding, s: Stmt, b: Builder)
    requires s.Try? && s.finalizer.Finally? && Rooted(g) && !q.Reached? && Clean(q, s) && Targets(g, b.jumps) && b.pendingLabel == ""
    requires !Diverts(q, g.blindTries, s) && s.id in g.blindTries
    requires Extends(VisitCatch(s.handler, b.flow, VisitStmt(s.block, b)).g, g)
    ensures Link(q, g, b.flow, VisitCatch(s.handler, b.flow, VisitStmt(s.block, b)).flow)
  {
    hide Extends, Clean, Link, Bare, Steady;
    GuardedBridges(q, g, s, b);
  }

  lemma BareTry(q: Question, s: Stmt)
    requires s.Try? && Bare(q, s) && !q.Reached?
    ensures Bare(q, s.block) && (s.handler.Catch? ==> !Owns(q, s.handler.scope) && Bare(q, s.handler.body))
    ensures s.finalizer.Finally? ==> Bare(q, s.finalizer.body)
  {
  }

  // The block, and the catch, of a try nothing in which ends a walk.
  lemma {:induction false} TryGuarded(q: Question, g: Binding, s: Stmt, b: Builder)
    requires s.Try? && Rooted(g) && !q.Reached? && Clean(q, s) && Bare(q, s) && Steady(s, g.blindTries) && Targets(g, b.jumps) && b.pendingLabel == ""
    requires Extends(VisitCatch(s.handler, b.flow, VisitStmt(s.block, b)).g, g)
    ensures Bridge(q, g, b.flow, b.jumps, VisitCatch(s.handler, b.flow, VisitStmt(s.block, b)), GuardedExits(s))
    decreases s, 1
  {
    BareTry(q, s);
    hide Extends, Traced, Rooted, Targets, Bridge, VisitCatch, VisitStmt, Bare;
    GuardedBridges(q, g, s, b);
    var r := VisitCatch(s.handler, b.flow, VisitStmt(s.block, b));
    if s.handler.Catch? {
      BridgeBoth(q, g, b.flow, b.jumps, r, Exits(s.block, ""), Exits(s.handler.body, ""));
    } else {
      assert GuardedExits(s) == Exits(s.block, "");
    }
  }

  lemma NoBridge(q: Question, g: Binding, jumps: seq<JumpTarget>, r: Builder, x: set<Exit>)
    ensures Bridge(q, g, Dead, jumps, r, x)
  {
  }

  // Only the graph and the flow count.
  lemma BridgeAround(q: Question, g: Binding, n: nat, jumps: seq<JumpTarget>, r1: Builder, r2: Builder, x: set<Exit>)
    requires Bridge(q, g, n, jumps, r1, x) && r1.g.antecedents == r2.g.antecedents && r1.flow == r2.flow
    ensures Bridge(q, g, n, jumps, r2, x)
  {
    forall e, l: nat | e in x && Goes(jumps, e, l) ensures Feeds(q, g, n, r2, l) {
      assert Feeds(q, g, n, r1, l);
    }
  }

  lemma Marked(g: Binding, b: Builder, id: nat, r: Builder)
    requires Extends(MarkBlind(b, id).g, r.g) && Extends(r.g, g)
    ensures id in g.blindTries
  {
  }

  lemma {:induction false} TryBridges(q: Question, g: Binding, s: Stmt, b: Builder)
    requires s.Try? && Crossing(q, g, s, b) && Extends(VisitTry(s, b).g, g)
    ensures Bridge(q, g, b.flow, b.jumps, VisitTry(s, b), Exits(s, ""))
    decreases s, 3
  {
    if b.flow == Dead { NoBridge(q, g, b.jumps, VisitTry(s, b), Exits(s, "")); }
    else if s.finalizer.NoFinally? { TryGuarded(q, g, s, b); }
    else { FinallyBridges(q, g, s, b); }
  }

  lemma {:induction false} FinallyBridges(q: Question, g: Binding, s: Stmt, b: Builder)
    requires s.Try? && s.finalizer.Finally? && b.flow != Dead && Crossing(q, g, s, b) && Extends(VisitTry(s, b).g, g)
    ensures Bridge(q, g, b.flow, b.jumps, VisitTry(s, b), Exits(s, ""))
    decreases s, 2
  {
    GrowthChains();
    BareTry(q, s);
    hide Extends, Traced, Rooted, Targets, Bridge, VisitCatch, VisitStmt, AddAntecedent, Bare;
    var exc := |b.g.nodes|;
    var b0 := AddAntecedent(Add(b, BranchLabel), exc, b.flow);
    var b2 := VisitCatch(s.handler, b.flow, VisitStmt(s.block, b0.(exceptionTargets := b.exceptionTargets + [exc])));
    var b3 := b2.(exceptionTargets := b.exceptionTargets);
    TryGuarded(q, g, s, b0.(exceptionTargets := b.exceptionTargets + [exc]));
    BridgeAround(q, g, b.flow, b.jumps, b2, b3, GuardedExits(s));
    if b3.flow == Dead { AbruptBridges(q, g, s, b, b0, b3); } else { EndedBridges(q, g, s, b, b3); }
  }

  // A finally only an abrupt completion enters.
  lemma {:induction false} AbruptBridges(q: Question, g: Binding, s: Stmt, b: Builder, b0: Builder, b3: Builder)
    requires s.Try? && s.finalizer.Finally? && b.flow != Dead && Crossing(q, g, s, b) && b0 == AddAntecedent(Add(b, BranchLabel), |b.g.nodes|, b.flow)
    requires b3.flow == Dead && b3.jumps == b.jumps && b3.pendingLabel == "" && Bridge(q, g, b.flow, b.jumps, b3, GuardedExits(s))
    requires Extends(b0.g, b3.g) && Extends(VisitStmt(s.finalizer.body, Resume(b3, |b.g.nodes|)).g, g) && Bare(q, s.finalizer.body)
    ensures Bridge(q, g, b.flow, b.jumps, VisitStmt(s.finalizer.body, Resume(b3, |b.g.nodes|)).(flow := Dead), Exits(s, ""))
    decreases s, 1
  {
    GrowthChains();
    var n, x, last, exc := b.flow, GuardedExits(s), s.finalizer.body, |b.g.nodes|;
    assert End !in x && x - {End} == x;
    hide Extends, Traced, Rooted, Targets, Bridge, VisitStmt, AddAntecedent, Bare;
    var e := Resume(b3, exc);
    var r := VisitStmt(last, e);
    var after := r.(flow := Dead);
    BridgeLater(q, g, n, n, b.jumps, b3, after, x);
    NewLabel(g, b, BranchLabel);
    FeedLabel(q, g, n, Add(b, BranchLabel), exc, n);
    FeedsLater(q, g, n, b0, b3, exc);
    FeedsResume(q, g, n, b3, exc);
    StmtBridges(q, g, last, e);
    BridgeLater(q, g, n, e.flow, b.jumps, r, after, Exits(last, ""));
    BridgeBoth(q, g, n, b.jumps, after, x, Exits(last, "") - {End});
  }

  // One the end of the try enters.
  lemma {:induction false} EndedBridges(q: Question, g: Binding, s: Stmt, b: Builder, b3: Builder)
    requires s.Try? && s.finalizer.Finally? && Crossing(q, g, s, b) && Bare(q, s.finalizer.body)
    requires b3.flow != Dead && b3.jumps == b.jumps && b3.pendingLabel == "" && Bridge(q, g, b.flow, b.jumps, b3, GuardedExits(s))
    requires Extends(VisitStmt(s.finalizer.body, MarkBlind(b3, s.id)).g, g)
    ensures Bridge(q, g, b.flow, b.jumps, VisitStmt(s.finalizer.body, MarkBlind(b3, s.id)), Exits(s, ""))
    decreases s, 1
  {
    GrowthChains();
    hide Extends, Traced, Rooted, Targets, Bridge, VisitStmt, Bare;
    var n, x, last := b.flow, GuardedExits(s), s.finalizer.body;
    var e := MarkBlind(b3, s.id);
    var r := VisitStmt(last, e);
    Marked(g, b3, s.id, r);
    BridgeLater(q, g, n, n, b.jumps, b3, r, x);
    StmtBridges(q, g, last, e);
    BridgeFrom(q, g, n, e.flow, b.jumps, r, Exits(last, ""));
    BridgeBoth(q, g, n, b.jumps, r, x - {End}, Exits(last, ""));
  }
}
