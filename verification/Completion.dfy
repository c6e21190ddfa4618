// That the graph says exactly which statements complete, and how.
module Completion {
  import opened Syntax
  import opened FlowGraph
  import opened Visit
  import opened Programs
  import opened Liveness
  import opened WaysOut

  // No loop is out of control's reach: the binder takes the head of one for reached all the same. And
  // labels have names.
  predicate Alive(s: Stmt) {
    match s
    case Then(a, r) => Alive(a) && (if End in Exits(a, "") then Alive(r) else Loopless(r))
    case Block(_, body) => Alive(body)
    case If(_, y, n) => Alive(y) && Alive(n)
    case While(_, body) => Alive(body)
    case DoWhile(_, body) => Alive(body)
    case For(_, start, _, _, body) => Alive(start) && End in Exits(start, "") && Alive(body)
    case ForOf(_, _, _, _, body) => Alive(body)
    case Labeled(tag, body) => tag != "" && Alive(body)
    case Switch(_, _, cases) => AliveCases(cases)
    case Try(_, block, handler, finalizer) =>
      Alive(block) && (handler.Catch? ==> Alive(handler.body)) && (finalizer.Finally? ==> Alive(finalizer.body))
    case _ => true
  }

  predicate AliveCases(cases: Cases) {
    cases.Case? ==> Alive(cases.body) && AliveCases(cases.rest)
  }

  // ----- what the exits hand over -----

  predicate Goes(jumps: seq<JumpTarget>, e: Exit, l: nat) {
    !e.End? && var t := FindJump(jumps, e.tag, e.Next?);
    t.Some? && l == if e.Next? then t.value.continueTo else t.value.breakTo
  }

  predicate Sends(jumps: seq<JumpTarget>, x: set<Exit>, l: nat) {
    exists e :: e in x && Goes(jumps, e, l)
  }

  // From b, exits x have been handed to the labels they go to, and to no others.
  ghost predicate Handed(b: Builder, m: Builder, x: set<Exit>) {
    && Sane(m) && Around(b, m)
    && forall l: nat :: 0 < l < |b.g.nodes| && l !in b.exceptionTargets ==>
         (Claimed(m.g, l) <==> Claimed(b.g, l) || Sends(b.jumps, x, l))
  }

  // A statement's exits are exactly x.
  ghost predicate Completes(b: Builder, r: Builder, x: set<Exit>) {
    Handed(b, r, x) && (r.flow != Dead <==> End in x)
  }

  lemma HandedNothing(b: Builder)
    requires Sane(b)
    ensures Handed(b, b, {})
  {
  }

  lemma HandedNodes(b: Builder, m: Builder, r: Builder, x: set<Exit>)
    requires Handed(b, m, x) && r.g.antecedents == m.g.antecedents && Around(m, r)
    ensures Handed(b, r, x)
  {
    assert forall l: nat :: Claimed(r.g, l) <==> Claimed(m.g, l);
  }

  lemma HandedCalm(b: Builder, m: Builder, r: Builder, x: set<Exit>)
    requires Handed(b, m, x) && Calm(m, r)
    ensures Handed(b, r, x)
  {
    forall l: nat | 0 < l < |b.g.nodes| && l !in b.exceptionTargets ensures Claimed(r.g, l) <==> Claimed(m.g, l) {
      assert SameAt(m.g, r.g, l);
    }
  }

  lemma HandedExpr(b: Builder, m: Builder, e: Expr, x: set<Exit>)
    requires Handed(b, m, x)
    ensures Handed(b, VisitExpr(e, m), x) && (VisitExpr(e, m).flow == Dead <==> m.flow == Dead)
    ensures |m.g.nodes| <= |VisitExpr(e, m).g.nodes|
  {
    hide VisitExpr;
    ExprCalm(e, m);
    HandedCalm(b, m, VisitExpr(e, m), x);
  }

  lemma SendsBoth(jumps: seq<JumpTarget>, x: set<Exit>, y: set<Exit>, l: nat)
    ensures Sends(jumps, x + y, l) <==> Sends(jumps, x, l) || Sends(jumps, y, l)
    ensures Sends(jumps, x - {End}, l) <==> Sends(jumps, x, l)
  {
    if Sends(jumps, x, l) {
      var e :| e in x && Goes(jumps, e, l);
      assert e in x + y && e in x - {End};
    }
    if Sends(jumps, y, l) {
      var e :| e in y && Goes(jumps, e, l);
      assert e in x + y;
    }
  }

  // One part after another.
  lemma HandedOn(b: Builder, m: Builder, r: Builder, x: set<Exit>, y: set<Exit>)
    requires Handed(b, m, x) && Handed(m, r, y)
    ensures Handed(b, r, x + y) && Handed(b, r, (x - {End}) + y)
  {
    forall l: nat | 0 < l < |b.g.nodes| && l !in b.exceptionTargets
      ensures Claimed(r.g, l) <==> Claimed(b.g, l) || Sends(b.jumps, x + y, l)
      ensures Sends(b.jumps, (x - {End}) + y, l) <==> Sends(b.jumps, x + y, l)
    {
      SendsBoth(b.jumps, x, y, l);
      SendsBoth(b.jumps, x - {End}, y, l);
    }
  }

  lemma HandedAttach(b: Builder, m: Builder, l0: nat, f: nat, x: set<Exit>)
    requires Handed(b, m, x) && |b.g.nodes| <= l0 < |m.g.nodes|
    ensures Handed(b, AddAntecedent(m, l0, f), x)
    ensures Claimed(AddAntecedent(m, l0, f).g, l0) <==> Claimed(m.g, l0) || f != Dead
    ensures forall l: nat :: l != l0 ==> SameAt(m.g, AddAntecedent(m, l0, f).g, l)
  {
    var r := AddAntecedent(m, l0, f);
    OneAttached(m, l0, f);
    forall l: nat | 0 < l < |b.g.nodes| ensures Claimed(r.g, l) <==> Claimed(m.g, l) { assert SameAt(m.g, r.g, l); }
  }

  lemma HandedJoin(b: Builder, m: Builder, f1: nat, f2: nat, x: set<Exit>)
    requires Handed(b, m, x)
    ensures Handed(b, Join(m, f1, f2), x) && (Join(m, f1, f2).flow == Dead <==> f1 == Dead && f2 == Dead)
  {
    JoinCalm(m, f1, f2);
    var r := Join(m, f1, f2);
    forall l: nat | 0 < l < |b.g.nodes| ensures Claimed(r.g, l) <==> Claimed(m.g, l) { assert SameAt(m.g, r.g, l); }
  }

  // A jump looks past target t.
  predicate Passes(t: JumpTarget, e: Exit) {
    !e.End? && ((e.tag != "" && t.tag != e.tag) || (e.tag == "" && ((e.Next? && t.continueTo == Dead) || t.breakOnly)))
  }

  // It goes to t.
  predicate Takes(t: JumpTarget, e: Exit) {
    !e.End? && !Passes(t, e) && !(e.Next? && t.continueTo == Dead)
  }

  function Passing(t: JumpTarget, x: set<Exit>): set<Exit> {
    set e | e in x && Passes(t, e)
  }

  lemma PushedGoes(jumps: seq<JumpTarget>, t: JumpTarget, e: Exit, l: nat)
    ensures Goes(jumps + [t], e, l) <==>
      if Passes(t, e) then Goes(jumps, e, l) else Takes(t, e) && l == if e.Next? then t.continueTo else t.breakTo
  {
    assert (jumps + [t])[..|jumps|] == jumps;
  }

  lemma GoesInside(b: Builder, e: Exit, l: nat)
    requires Sane(b) && Goes(b.jumps, e, l)
    ensures l < |b.g.nodes|
  {
    FoundIn(b.jumps, e.tag, e.Next?);
  }

  // Of what is handed over under a target at new labels, it takes its own, and the rest goes on.
  lemma PushedSends(b: Builder, t: JumpTarget, x: set<Exit>, l: nat)
    requires Sane(b) && |b.g.nodes| <= t.breakTo && (|b.g.nodes| <= t.continueTo || t.continueTo == Dead)
    ensures 0 < l < |b.g.nodes| ==> (Sends(b.jumps + [t], x, l) <==> Sends(b.jumps, Passing(t, x), l))
    ensures l >= |b.g.nodes| ==>
      (Sends(b.jumps + [t], x, l) <==> exists e :: e in x && Takes(t, e) && l == if e.Next? then t.continueTo else t.breakTo)
  {
    forall e | e in x ensures Goes(b.jumps + [t], e, l) <==>
      if Passes(t, e) then Goes(b.jumps, e, l) else Takes(t, e) && l == if e.Next? then t.continueTo else t.breakTo
    {
      PushedGoes(b.jumps, t, e, l);
    }
    forall e | Goes(b.jumps, e, l) ensures l < |b.g.nodes| { GoesInside(b, e, l); }
    if Sends(b.jumps + [t], x, l) {
      var e :| e in x && Goes(b.jumps + [t], e, l);
      assert Passes(t, e) ==> e in Passing(t, x);
    }
    if Sends(b.jumps, Passing(t, x), l) {
      var e :| e in Passing(t, x) && Goes(b.jumps, e, l);
      assert Goes(b.jumps + [t], e, l);
    }
    if e :| e in x && Takes(t, e) && l == if e.Next? then t.continueTo else t.breakTo {
      assert Goes(b.jumps + [t], e, l);
    }
  }

  // A body under a target of its own, at labels added since.
  lemma TargetHanded(b: Builder, m: Builder, c: Builder, r: Builder, t: JumpTarget, x: set<Exit>, y: set<Exit>)
    requires Sane(b) && Handed(b, m, x) && c == m.(jumps := b.jumps + [t], pendingLabel := c.pendingLabel, flow := c.flow)
    requires |b.g.nodes| <= t.breakTo && (|b.g.nodes| <= t.continueTo || t.continueTo == Dead)
    requires Handed(c, r, y)
    ensures Handed(b, r.(jumps := b.jumps), x + Passing(t, y)) && |m.g.nodes| <= |r.g.nodes|
    ensures forall l: nat :: |b.g.nodes| <= l < |m.g.nodes| && l !in b.exceptionTargets ==>
      (Claimed(r.g, l) <==> Claimed(m.g, l) || exists e :: e in y && Takes(t, e) && l == if e.Next? then t.continueTo else t.breakTo)
  {
    assert forall i :: 0 <= i < |b.jumps| ==> c.jumps[i] == b.jumps[i];
    forall l: nat | 0 < l < |b.g.nodes| && l !in b.exceptionTargets
      ensures Claimed(r.g, l) <==> Claimed(b.g, l) || Sends(b.jumps, x + Passing(t, y), l)
    {
      PushedSends(b, t, y, l);
      SendsBoth(b.jumps, x, Passing(t, y), l);
    }
    forall l: nat | |b.g.nodes| <= l < |m.g.nodes| && l !in b.exceptionTargets
      ensures Claimed(r.g, l) <==> Claimed(m.g, l) || exists e :: e in y && Takes(t, e) && l == if e.Next? then t.continueTo else t.breakTo
    {
      PushedSends(b, t, y, l);
    }
  }

  // A loop's target: what it takes.
  lemma LoopTakes(own: string, exit: nat, next: nat, y: set<Exit>)
    requires exit != next && next != Dead
    ensures var t := JumpTarget(own, exit, next, false);
      && Passing(t, y) == Outer(y, own)
      && ((exists e :: e in y && Takes(t, e) && exit == if e.Next? then t.continueTo else t.breakTo) <==> Leaves(y, own))
      && ((exists e :: e in y && Takes(t, e) && next == if e.Next? then t.continueTo else t.breakTo) <==> Next("") in y || Next(own) in y)
  {
    var t := JumpTarget(own, exit, next, false);
    assert Takes(t, Out("")) && Takes(t, Out(own)) && Takes(t, Next("")) && Takes(t, Next(own));
  }

  lemma HandedKeeps(b: Builder, m: Builder, r: Builder, x: set<Exit>)
    requires Handed(b, m, x) && m.flow == Dead && Keeps(m, r, true)
    ensures Handed(b, r, x) && r.flow == Dead
  {
    forall l: nat | 0 < l < |b.g.nodes| ensures Claimed(r.g, l) <==> Claimed(m.g, l) { assert SameAt(m.g, r.g, l); }
  }

  lemma HandedScope(b: Builder, m: Builder, s: Scope, x: set<Exit>)
    requires Handed(b, m, x)
    ensures var r := StartScope(m, s);
      && Handed(b, r, x) && (r.flow == Dead <==> m.flow == Dead) && r.pendingLabel == m.pendingLabel && |m.g.nodes| <= |r.g.nodes|
  {
    HandedNodes(b, m, StartScope(m, s), x);
  }

  lemma HandedBranch(b: Builder, m: Builder, f: nat, test: Expr, truthy: bool, x: set<Exit>)
    requires Handed(b, m, x)
    ensures var r := Branch(m, f, test, truthy);
      && Handed(b, r, x) && (r.flow == Dead <==> f == Dead) && r.pendingLabel == m.pendingLabel && |m.g.nodes| <= |r.g.nodes|
      && r.g.antecedents == m.g.antecedents
  {
    HandedNodes(b, m, Branch(m, f, test, truthy), x);
  }

  lemma HandedFlow(b: Builder, m: Builder, f: nat, x: set<Exit>)
    requires Handed(b, m, x)
    ensures Handed(b, m.(flow := f), x)
  {
    HandedNodes(b, m, m.(flow := f), x);
  }

  lemma HandedSane(b: Builder, m: Builder, x: set<Exit>)
    requires Handed(b, m, x)
    ensures Sane(m) && m.jumps == b.jumps && m.exceptionTargets == b.exceptionTargets && |b.g.nodes| <= |m.g.nodes|
  {
  }

  lemma StmtPending(s: Stmt, b: Builder)
    ensures var r := VisitStmt(s, b);
      (b.pendingLabel == "" ==> r.pendingLabel == "") && (!StmtTakesLabel(s) ==> r.pendingLabel == b.pendingLabel)
      && |b.g.nodes| <= |r.g.nodes|
  {
    hide VisitStmt;
  }

  lemma ExprPending(e: Expr, b: Builder)
    ensures var r := VisitExpr(e, b);
      (b.pendingLabel == "" ==> r.pendingLabel == "") && (!ExprTakesLabel(e) ==> r.pendingLabel == b.pendingLabel)
      && |b.g.nodes| <= |r.g.nodes|
  {
    hide VisitExpr;
  }

  // The label a loop bound from b has.
  function OwnLabel(s: Stmt, b: Builder): string {
    if IsLoop(s) then b.pendingLabel else ""
  }

  ghost predicate Entered(s: Stmt, b: Builder) {
    Sane(b) && b.flow != Dead && Alive(s) && Tidy(s) && LabelSafe(s, b)
  }

  // A statement's exits are those the graph gives it.
  lemma {:induction false} StmtCompletes(s: Stmt, b: Builder)
    requires Entered(s, b)
    ensures Completes(b, VisitStmt(s, b), Exits(s, OwnLabel(s, b)))
    decreases s, 3
  {
    hide Extends, Grows, Visited, Sane, Calm, Handed, StartScope, VisitExpr, VisitDeclare, VisitIf, VisitWhile, VisitDoWhile, VisitFor, VisitForOf, VisitLabeled, VisitJump, VisitSwitch, VisitTry;
    HandedNothing(b);
    match s
    case Empty => NoSends(b, b);
    case Then(_, _) => ThenCompletes(s, b);
    case Declare(_, _, _, _) => DeclareCompletes(s, b);
    case Evaluate(e) =>
      HandedExpr(b, b, e, {});
      HandedFlow(b, VisitExpr(e, b), Dead, {});
      NoSends(b, VisitExpr(e, b));
      NoSends(b, VisitExpr(e, b).(flow := Dead));
    case Block(scope, body) =>
      HandedScope(b, b, scope, {});
      HandedSane(b, StartScope(b, scope), {});
      StmtCompletes(body, StartScope(b, scope));
      CompletesOn(b, StartScope(b, scope), VisitStmt(body, StartScope(b, scope)), {}, Exits(body, ""));
    case If(_, _, _) => IfCompletes(s, b);
    case While(_, _) => WhileCompletes(s, b);
    case DoWhile(_, _) => DoWhileCompletes(s, b);
    case For(_, _, _, _, _) => ForCompletes(s, b);
    case ForOf(_, _, _, _, _) => ForOfCompletes(s, b);
    case Labeled(_, _) => LabeledCompletes(s, b);
    case Break(tag) => JumpCompletes(tag, false, b);
    case Continue(tag) => JumpCompletes(tag, true, b);
    case Return(e) =>
      HandedExpr(b, b, e, {});
      HandedFlow(b, VisitExpr(e, b), Dead, {});
    case Throw(e) =>
      HandedExpr(b, b, e, {});
      HandedFlow(b, VisitExpr(e, b), Dead, {});
    case Switch(_, _, _) => SwitchCompletes(s, b);
    case Try(_, _, _, _) => TryCompletes(s, b);
  }

  // Falling off hands nothing over.
  lemma NoSends(b: Builder, r: Builder)
    requires Handed(b, r, {})
    ensures Handed(b, r, {End})
  {
    assert {End} - {End} == {};
    forall l: nat ensures Sends(b.jumps, {End}, l) <==> Sends(b.jumps, {}, l) { SendsBoth(b.jumps, {End}, {}, l); }
  }

  lemma CompletesOn(b: Builder, m: Builder, r: Builder, x: set<Exit>, y: set<Exit>)
    requires Handed(b, m, x) && Completes(m, r, y) && End !in x
    ensures Completes(b, r, x + y) && (x == {} ==> Completes(b, r, y))
  {
    HandedOn(b, m, r, x, y);
    assert {} + y == y;
  }

  lemma {:induction false} ThenCompletes(s: Stmt, b: Builder)
    requires s.Then? && Entered(s, b)
    ensures Completes(b, VisitStmt(s, b), Exits(s, ""))
    decreases s, 0
  {
    hide Extends, Grows, Visited, Sane, Calm, Handed;
    var b1 := VisitStmt(s.first, b);
    var x := Exits(s.first, "");
    StmtCompletes(s.first, b);
    StmtPending(s.first, b);
    HandedSane(b, b1, x);
    if End in x {
      var y := Exits(s.rest, "");
      StmtCompletes(s.rest, b1);
      HandedOn(b, b1, VisitStmt(s.rest, b1), x, y);
    } else {
      StmtKeeps(s.rest, b1);
      HandedKeeps(b, b1, VisitStmt(s.rest, b1), x);
    }
  }

  lemma DeclareCompletes(s: Stmt, b: Builder)
    requires s.Declare? && Sane(b) && b.flow != Dead
    ensures Completes(b, VisitDeclare(s, b), {End})
  {
    hide Extends, Grows, Visited, Sane, Calm, Handed, VisitExpr, AssignFlow;
    var b1 := VisitExpr(s.init, b);
    var site := DeclarationSite(s.id, s.init != NoExpr);
    HandedNothing(b);
    HandedExpr(b, b, s.init, {});
    HandedSane(b, b1, {});
    HandedAssign(b, b1, s.sym, site, true, s.init != NoExpr, {});
    HandedAssign(b, b1, s.sym, site, false, true, {});
    NoSends(b, VisitDeclare(s, b));
  }

  lemma HandedAssign(b: Builder, m: Builder, x: Symbol, site: Site, init: bool, assign: bool, y: set<Exit>)
    requires Handed(b, m, y)
    ensures var r := AssignFlow(m, x, site, init, assign);
      && Handed(b, r, y) && (r.flow == Dead <==> m.flow == Dead) && r.pendingLabel == m.pendingLabel && |m.g.nodes| <= |r.g.nodes|
  {
    hide AssignFlow;
    AssignCalm(m, x, site, init, assign);
    HandedCalm(b, m, AssignFlow(m, x, site, init, assign), y);
  }

  lemma {:induction false} IfCompletes(s: Stmt, b: Builder)
    requires s.If? && Entered(s, b)
    ensures Completes(b, VisitIf(s, b), Exits(s, ""))
    decreases s, 0
  {
    hide Extends, Grows, Visited, Sane, Calm, Handed, VisitExpr, VisitStmt, Branch, Join;
    var x, y := Exits(s.yes, ""), Exits(s.no, "");
    HandedNothing(b);
    HandedExpr(b, b, s.test, {});
    ExprPending(s.test, b);
    var b1 := VisitExpr(s.test, b);
    HandedBranch(b, b1, b1.flow, s.test, true, {});
    var b2 := Branch(b1, b1.flow, s.test, true);
    HandedSane(b, b2, {});
    StmtCompletes(s.yes, b2);
    StmtPending(s.yes, b2);
    var b3 := VisitStmt(s.yes, b2);
    CompletesOn(b, b2, b3, {}, x);
    HandedBranch(b, b3, b1.flow, s.test, false, x);
    var b4 := Branch(b3, b1.flow, s.test, false);
    HandedSane(b, b4, x);
    StmtCompletes(s.no, b4);
    var b5 := VisitStmt(s.no, b4);
    HandedOn(b, b4, b5, x, y);
    HandedJoin(b, b5, b3.flow, b5.flow, x + y);
  }

  lemma SendsOne(jumps: seq<JumpTarget>, e: Exit, l: nat)
    ensures Sends(jumps, {e}, l) <==> Goes(jumps, e, l)
  {
    if Goes(jumps, e, l) { assert e in {e}; }
  }

  lemma JumpCompletes(tag: string, cont: bool, b: Builder)
    requires Sane(b) && b.flow != Dead
    ensures Completes(b, VisitJump(tag, cont, b), {if cont then Next(tag) else Out(tag)})
  {
    hide Sends;
    var e := if cont then Next(tag) else Out(tag);
    var t := FindJump(b.jumps, tag, cont);
    var r := VisitJump(tag, cont, b);
    forall l: nat ensures Sends(b.jumps, {e}, l) <==> Goes(b.jumps, e, l) { SendsOne(b.jumps, e, l); }
    if t.Some? {
      var l0 := if cont then t.value.continueTo else t.value.breakTo;
      TargetReserved(b, tag, cont);
      OneAttached(b, l0, b.flow);
      forall l: nat | 0 < l < |b.g.nodes| ensures Claimed(r.g, l) <==> Claimed(b.g, l) || l == l0 {
        if l != l0 { assert SameAt(b.g, AddAntecedent(b, l0, b.flow).g, l); }
      }
    }
  }

  lemma {:induction false} LabeledCompletes(s: Stmt, b: Builder)
    requires s.Labeled? && Entered(s, b)
    ensures Completes(b, VisitLabeled(s, b), Exits(s, ""))
    decreases s, 1
  {
    hide Extends, Grows, Visited, Sane, Calm, Handed, VisitStmt, AddAntecedent, Finish, Sends;
    if IsLoop(s.body) {
      var b1 := b.(pendingLabel := s.tag);
      HandedNothing(b);
      HandedNodes(b, b, b1, {});
      HandedSane(b, b1, {});
      StmtCompletes(s.body, b1);
      CompletesOn(b, b1, VisitStmt(s.body, b1), {}, Exits(s.body, s.tag));
    } else {
      var y := Exits(s.body, "");
      var exit := |b.g.nodes|;
      var t := JumpTarget(s.tag, exit, Dead, true);
      var b1 := Add(b, BranchLabel);
      HandedNothing(b);
      HandedAdd(b, b, BranchLabel, {});
      var c := b1.(jumps := b.jumps + [t]);
      TargetSane(b, b1, c, t, {});
      StmtCompletes(s.body, c);
      var r := VisitStmt(s.body, c);
      NotTried(b, exit);
      TargetHanded(b, b1, c, r, t, {}, y);
      var b2 := r.(jumps := b.jumps);
      LabelTakes(s.tag, exit, y);
      HandedAttach(b, b2, exit, b2.flow, {} + Passing(t, y));
      var b3 := AddAntecedent(b2, exit, b2.flow);
      HandedFlow(b, b3, Finish(b3.g, exit), {} + Passing(t, y));
      FinishLive(b3.g, exit);
      HandedSame(b, Resume(b3, exit), {} + Passing(t, y), Exits(s, ""));
    }
  }

  lemma HandedAdd(b: Builder, m: Builder, n: FlowNode, x: set<Exit>)
    requires Handed(b, m, x)
    ensures Handed(b, Add(m, n), x) && !Claimed(Add(m, n).g, |m.g.nodes|)
  {
    HandedNodes(b, m, Add(m, n), x);
    assert !Claimed(m.g, |m.g.nodes|) && Add(m, n).g.antecedents == m.g.antecedents;
  }

  lemma TargetSane(b: Builder, m: Builder, c: Builder, t: JumpTarget, x: set<Exit>)
    requires Handed(b, m, x) && c == m.(jumps := b.jumps + [t], pendingLabel := c.pendingLabel, flow := c.flow)
    requires t.breakTo < |m.g.nodes| && t.continueTo < |m.g.nodes|
    ensures Sane(c)
  {
  }

  // No open try waits at a label added since.
  lemma NotTried(b: Builder, l: nat)
    requires Sane(b) && l >= |b.g.nodes|
    ensures l !in b.exceptionTargets && l > 0
  {
  }

  lemma FinishLive(g: Binding, l: nat)
    requires l != Dead
    ensures Finish(g, l) != Dead <==> Claimed(g, l)
  {
  }

  // Exits that hand over the same.
  lemma HandedSame(b: Builder, r: Builder, x: set<Exit>, y: set<Exit>)
    requires Handed(b, r, x) && x - {End} == y - {End}
    ensures Handed(b, r, y)
  {
    forall l: nat ensures Sends(b.jumps, x, l) <==> Sends(b.jumps, y, l) {
      SendsBoth(b.jumps, x, {}, l);
      SendsBoth(b.jumps, y, {}, l);
    }
  }

  // What a label that is not a loop's takes.
  lemma LabelTakes(tag: string, exit: nat, y: set<Exit>)
    requires tag != ""
    ensures var t := JumpTarget(tag, exit, Dead, true);
      && Passing(t, y) == y - {End, Out(tag), Next(tag)}
      && ((exists e :: e in y && Takes(t, e) && exit == if e.Next? then t.continueTo else t.breakTo) <==> Out(tag) in y)
  {
    var t := JumpTarget(tag, exit, Dead, true);
    assert Takes(t, Out(tag));
  }

  // ----- the exits of a loop -----

  // A loop's body, from where its test has let it in: its own exits go to exit and next, others on.
  ghost predicate BodyDone(b: Builder, m: Builder, r: Builder, exit: nat, next: nat, own: string, x: set<Exit>, y: set<Exit>) {
    && Handed(b, r, x + Outer(y, own)) && |m.g.nodes| <= |r.g.nodes|
    && (r.flow != Dead <==> End in y)
    && (Claimed(r.g, exit) <==> Claimed(m.g, exit) || Leaves(y, own))
    && (Claimed(r.g, next) <==> Claimed(m.g, next) || Next("") in y || Next(own) in y)
  }

  lemma {:induction false} BodyCompletes(body: Stmt, b: Builder, m: Builder, exit: nat, next: nat, x: set<Exit>)
    requires Sane(b) && Handed(b, m, x) && m.flow != Dead && Alive(body) && Tidy(body)
    requires |b.g.nodes| <= exit < |m.g.nodes| && |b.g.nodes| <= next < |m.g.nodes| && exit != next
    ensures BodyDone(b, m, VisitLoopBody(body, m, exit, next), exit, next, m.pendingLabel, x, Exits(body, ""))
    decreases body, 4
  {
    hide Extends, Grows, Visited, Sane, Handed, VisitStmt, Sends;
    var t := JumpTarget(m.pendingLabel, exit, next, false);
    var y := Exits(body, "");
    HandedSane(b, m, x);
    var c := m.(jumps := b.jumps + [t], pendingLabel := "");
    TargetSane(b, m, c, t, x);
    StmtCompletes(body, c);
    NotTried(b, exit);
    NotTried(b, next);
    TargetHanded(b, m, c, VisitStmt(body, c), t, x, y);
    LoopTakes(m.pendingLabel, exit, next, y);
  }

  lemma HandedTest(b: Builder, m: Builder, test: Expr, exit: nat, x: set<Exit>)
    requires Handed(b, m, x) && |b.g.nodes| <= exit < |m.g.nodes| && m.flow != Dead
    ensures var r := LoopTest(m, test, exit);
      && Handed(b, r, x) && r.flow != Dead && r.pendingLabel == m.pendingLabel && |m.g.nodes| <= |r.g.nodes|
      && (Claimed(r.g, exit) <==> Claimed(m.g, exit) || !AlwaysTrue(test))
  {
    hide Handed, Branch, AddAntecedent;
    if AlwaysTrue(test) {
      HandedBranch(b, m, m.flow, test, true, x);
    } else {
      var c := Branch(m, m.flow, test, false);
      HandedBranch(b, m, m.flow, test, false, x);
      HandedAttach(b, c, exit, c.flow, x);
      HandedBranch(b, AddAntecedent(c, exit, c.flow), m.flow, test, true, x);
    }
  }

  lemma {:induction false} WhileCompletes(s: Stmt, b: Builder)
    requires s.While? && Entered(s, b)
    ensures Completes(b, VisitWhile(s, b), Exits(s, b.pendingLabel))
    decreases s, 1
  {
    hide Extends, Grows, Visited, Sane, Calm, Handed, VisitExpr, LoopTest, VisitLoopBody, AddAntecedent, Finish, Exits;
    var y, own := Exits(s.body, ""), b.pendingLabel;
    var loop := |b.g.nodes|;
    HandedNothing(b);
    HandedAdd(b, b, LoopLabel, {});
    HandedAttach(b, Add(b, LoopLabel), loop, b.flow, {});
    var b1 := AddAntecedent(Add(b, LoopLabel), loop, b.flow);
    HandedFlow(b, b1, loop, {});
    NotTried(b, loop);
    HandedExpr(b, b1.(flow := loop), s.test, {});
    ExprPending(s.test, b1.(flow := loop));
    var b2 := VisitExpr(s.test, b1.(flow := loop));
    var exit := |b2.g.nodes|;
    HandedAdd(b, b2, BranchLabel, {});
    HandedTest(b, Add(b2, BranchLabel), s.test, exit, {});
    var b3 := LoopTest(Add(b2, BranchLabel), s.test, exit);
    BodyCompletes(s.body, b, b3, exit, loop, {});
    var b4 := VisitLoopBody(s.body, b3, exit, loop);
    HandedAttach(b, b4, loop, b4.flow, {} + Outer(y, own));
    var b5 := AddAntecedent(b4, loop, b4.flow);
    assert SameAt(b4.g, b5.g, exit);
    HandedFlow(b, b5, Finish(b5.g, exit), {} + Outer(y, own));
    FinishLive(b5.g, exit);
    WhileExits(s, own);
    HandedSame(b, Resume(b5, exit), {} + Outer(y, own), Exits(s, own));
  }

  lemma WhileExits(s: Stmt, own: string)
    requires s.While? || s.DoWhile? || s.ForOf?
    ensures Exits(s, own) - {End} == ({} + Outer(Exits(s.body, ""), own)) - {End}
    ensures s.While? ==> (End in Exits(s, own) <==> !AlwaysTrue(s.test) || Leaves(Exits(s.body, ""), own))
    ensures s.DoWhile? ==>
      (End in Exits(s, own) <==> (GoesOn(Exits(s.body, ""), own) && !AlwaysTrue(s.test)) || Leaves(Exits(s.body, ""), own))
    ensures s.ForOf? ==> End in Exits(s, own)
  {
  }

  lemma {:induction false} DoWhileCompletes(s: Stmt, b: Builder)
    requires s.DoWhile? && Entered(s, b)
    ensures Completes(b, VisitDoWhile(s, b), Exits(s, b.pendingLabel))
    decreases s, 1
  {
    hide Extends, Grows, Visited, Sane, Calm, Handed, VisitExpr, LoopEnd, VisitLoopBody, AddAntecedent, Finish, Exits;
    var y, own := Exits(s.body, ""), b.pendingLabel;
    var loop := |b.g.nodes|;
    HandedNothing(b);
    HandedAdd(b, b, LoopLabel, {});
    HandedAttach(b, Add(b, LoopLabel), loop, b.flow, {});
    var b1 := AddAntecedent(Add(b, LoopLabel), loop, b.flow);
    NotTried(b, loop);
    var exit := |b1.g.nodes|;
    HandedAdd(b, b1, BranchLabel, {});
    HandedAdd(b, Add(b1, BranchLabel), BranchLabel, {});
    var b2 := Add(Add(b1, BranchLabel), BranchLabel).(flow := loop);
    HandedFlow(b, Add(Add(b1, BranchLabel), BranchLabel), loop, {});
    assert !Claimed(b2.g, exit) && !Claimed(b2.g, exit + 1);
    BodyCompletes(s.body, b, b2, exit, exit + 1, {});
    var b3 := VisitLoopBody(s.body, b2, exit, exit + 1);
    HandedAttach(b, b3, exit + 1, b3.flow, {} + Outer(y, own));
    var b4 := AddAntecedent(b3, exit + 1, b3.flow);
    assert SameAt(b3.g, b4.g, exit);
    HandedFlow(b, b4, Finish(b4.g, exit + 1), {} + Outer(y, own));
    FinishLive(b4.g, exit + 1);
    HandedEnd(b, Resume(b4, exit + 1), s.test, loop, exit, {} + Outer(y, own));
    var b5 := LoopEnd(s.test, Resume(b4, exit + 1), loop, exit);
    HandedFlow(b, b5, Finish(b5.g, exit), {} + Outer(y, own));
    FinishLive(b5.g, exit);
    WhileExits(s, own);
    HandedSame(b, Resume(b5, exit), {} + Outer(y, own), Exits(s, own));
  }

  lemma HandedEnd(b: Builder, m: Builder, test: Expr, loop: nat, exit: nat, x: set<Exit>)
    requires Sane(b) && Handed(b, m, x) && |b.g.nodes| <= loop < exit < |m.g.nodes|
    ensures var r := LoopEnd(test, m, loop, exit);
      Handed(b, r, x) && (Claimed(r.g, exit) <==> Claimed(m.g, exit) || (m.flow != Dead && !AlwaysTrue(test)))
    decreases test, 5
  {
    hide Extends, Grows, Visited, Handed, Sane, VisitExpr, Branch, AddAntecedent;
    HandedSane(b, m, x);
    HandedExpr(b, m, test, x);
    ExprCalm(test, m);
    NotTried(b, exit);
    var b1 := VisitExpr(test, m);
    CalmAt(m, b1, exit);
    HandedBranch(b, b1, b1.flow, test, true, x);
    var b2 := Branch(b1, b1.flow, test, true);
    HandedAttach(b, b2, loop, b2.flow, x);
    var b3 := AddAntecedent(b2, loop, b2.flow);
    assert SameAt(b2.g, b3.g, exit);
    if !AlwaysTrue(test) {
      HandedBranch(b, b3, b1.flow, test, false, x);
      var c := Branch(b3, b1.flow, test, false);
      HandedAttach(b, c, exit, c.flow, x);
    }
  }

  lemma CalmAt(m: Builder, r: Builder, l: nat)
    requires Calm(m, r) && 0 < l < |m.g.nodes| && l !in m.exceptionTargets
    ensures Claimed(r.g, l) <==> Claimed(m.g, l)
  {
    assert SameAt(m.g, r.g, l);
  }

  lemma {:induction false} ForCompletes(s: Stmt, b: Builder)
    requires s.For? && Entered(s, b)
    ensures Completes(b, VisitFor(s, b), Exits(s, b.pendingLabel))
    decreases s, 1
  {
    hide Extends, Grows, Visited, Sane, Calm, Handed, VisitStmt, VisitExpr, LoopTest, VisitLoopBody, AddAntecedent, Finish, StartScope, Exits;
    var x, y, own := Exits(s.start, ""), Exits(s.body, ""), b.pendingLabel;
    HandedNothing(b);
    HandedScope(b, b, s.scope, {});
    HandedSane(b, StartScope(b, s.scope), {});
    StmtCompletes(s.start, StartScope(b, s.scope));
    StmtPending(s.start, StartScope(b, s.scope));
    var b0 := VisitStmt(s.start, StartScope(b, s.scope));
    CompletesOn(b, StartScope(b, s.scope), b0, {}, x);
    HandedSane(b, b0, x);
    var loop := |b0.g.nodes|;
    HandedAdd(b, b0, LoopLabel, x);
    HandedAttach(b, Add(b0, LoopLabel), loop, b0.flow, x);
    var b1 := AddAntecedent(Add(b0, LoopLabel), loop, b0.flow);
    HandedFlow(b, b1, loop, x);
    NotTried(b, loop);
    HandedExpr(b, b1.(flow := loop), s.test, x);
    ExprPending(s.test, b1.(flow := loop));
    var b2 := VisitExpr(s.test, b1.(flow := loop));
    var exit := |b2.g.nodes|;
    NotTried(b, exit);
    HandedAdd(b, b2, BranchLabel, x);
    HandedTest(b, Add(b2, BranchLabel), s.test, exit, x);
    var b3 := LoopTest(Add(b2, BranchLabel), s.test, exit);
    var next := |b3.g.nodes|;
    HandedAdd(b, b3, BranchLabel, x);
    var b4 := Add(b3, BranchLabel);
    assert b4.g.antecedents == b3.g.antecedents;
    BodyCompletes(s.body, b, b4, exit, next, x);
    var b5 := VisitLoopBody(s.body, b4, exit, next);
    HandedAttach(b, b5, next, b5.flow, x + Outer(y, own));
    var b6 := AddAntecedent(b5, next, b5.flow);
    assert SameAt(b5.g, b6.g, exit);
    HandedFlow(b, b6, Finish(b6.g, next), x + Outer(y, own));
    HandedSane(b, Resume(b6, next), x + Outer(y, own));
    HandedExpr(b, Resume(b6, next), s.update, x + Outer(y, own));
    ExprCalm(s.update, Resume(b6, next));
    CalmAt(Resume(b6, next), VisitExpr(s.update, Resume(b6, next)), exit);
    var b7 := VisitExpr(s.update, Resume(b6, next));
    HandedAttach(b, b7, loop, b7.flow, x + Outer(y, own));
    var b8 := AddAntecedent(b7, loop, b7.flow);
    assert SameAt(b7.g, b8.g, exit);
    HandedFlow(b, b8, Finish(b8.g, exit), x + Outer(y, own));
    FinishLive(b8.g, exit);
    ForExits(s, own);
    HandedSame(b, Resume(b8, exit), x + Outer(y, own), Exits(s, own));
  }

  lemma ForExits(s: Stmt, own: string)
    requires s.For? && End in Exits(s.start, "")
    ensures Exits(s, own) - {End} == (Exits(s.start, "") + Outer(Exits(s.body, ""), own)) - {End}
    ensures End in Exits(s, own) <==> !AlwaysTrue(s.test) || Leaves(Exits(s.body, ""), own)
  {
  }

  lemma {:induction false} ForOfCompletes(s: Stmt, b: Builder)
    requires s.ForOf? && Entered(s, b)
    ensures Completes(b, VisitForOf(s, b), Exits(s, b.pendingLabel))
    decreases s, 1
  {
    hide Extends, Grows, Visited, Sane, Calm, Handed, VisitExpr, VisitLoopBody, AddAntecedent, Finish, StartScope, AssignFlow, Exits;
    var y, own := Exits(s.body, ""), b.pendingLabel;
    HandedNothing(b);
    HandedExpr(b, b, s.subject, {});
    ExprPending(s.subject, b);
    var b0 := VisitExpr(s.subject, b);
    var loop := |b0.g.nodes|;
    NotTried(b, loop);
    HandedAdd(b, b0, LoopLabel, {});
    HandedAttach(b, Add(b0, LoopLabel), loop, b0.flow, {});
    var b1 := AddAntecedent(Add(b0, LoopLabel), loop, b0.flow);
    var exit := |b1.g.nodes|;
    NotTried(b, exit);
    HandedAdd(b, b1, BranchLabel, {});
    HandedAttach(b, Add(b1, BranchLabel), exit, loop, {});
    var b2 := AddAntecedent(Add(b1, BranchLabel), exit, loop);
    HandedFlow(b, b2, loop, {});
    HandedScope(b, b2.(flow := loop), s.scope, {});
    var b3 := StartScope(b2.(flow := loop), s.scope);
    HandedSane(b, b3, {});
    HandedAssign(b, b3, s.sym, OtherSite, s.kind != Var, true, {});
    var b4 := AssignFlow(b3, s.sym, OtherSite, s.kind != Var, true);
    BodyCompletes(s.body, b, b4, exit, loop, {});
    var b5 := VisitLoopBody(s.body, b4, exit, loop);
    HandedAttach(b, b5, loop, b5.flow, {} + Outer(y, own));
    var b6 := AddAntecedent(b5, loop, b5.flow);
    assert SameAt(b5.g, b6.g, exit);
    HandedFlow(b, b6, Finish(b6.g, exit), {} + Outer(y, own));
    FinishLive(b6.g, exit);
    StillClaimed(b2, b3, b4, s, exit);
    WhileExits(s, own);
    HandedSame(b, Resume(b6, exit), {} + Outer(y, own), Exits(s, own));
  }

  lemma StillClaimed(b2: Builder, b3: Builder, b4: Builder, s: Stmt, l: nat)
    requires s.ForOf? && Sane(b3) && 0 < l < |b2.g.nodes| && l !in b3.exceptionTargets && Claimed(b2.g, l)
    requires exists f: nat :: b3 == StartScope(b2.(flow := f), s.scope)
    requires b4 == AssignFlow(b3, s.sym, OtherSite, s.kind != Var, true)
    ensures Claimed(b4.g, l)
  {
    AssignCalm(b3, s.sym, OtherSite, s.kind != Var, true);
    CalmAt(b3, b4, l);
  }

  // ----- the exits of a switch and of a try -----

  lemma HandedClause(b: Builder, m: Builder, f: nat, clause: int, x: set<Exit>)
    requires Handed(b, m, x)
    ensures var r := EnterClause(m, f, clause);
      && Handed(b, r, x) && (r.flow == Dead <==> f == Dead) && r.pendingLabel == m.pendingLabel && |m.g.nodes| <= |r.g.nodes|
      && r.g.antecedents == m.g.antecedents
  {
    HandedNodes(b, m, EnterClause(m, f, clause), x);
  }

  lemma {:induction false} CasesComplete(cases: Cases, clause: int, pre: nat, b: Builder)
    requires Sane(b) && pre != Dead && AliveCases(cases) && TidyCases(cases) && b.pendingLabel == "" && cases.Case?
    ensures Completes(b, VisitCases(cases, clause, pre, b), CaseExits(cases))
    decreases cases, 1
  {
    hide Extends, Grows, Visited, Sane, Calm, Handed, VisitExpr, VisitStmt, EnterClause, Join;
    var y := Exits(cases.body, "");
    HandedNothing(b);
    HandedClause(b, b, pre, clause, {});
    var b1 := EnterClause(b, pre, clause);
    HandedJoin(b, b1, b1.flow, b.flow, {});
    var b2 := Join(b1, b1.flow, b.flow);
    HandedExpr(b, b2, cases.test, {});
    ExprPending(cases.test, b2);
    var b3 := VisitExpr(cases.test, b2);
    HandedSane(b, b3, {});
    StmtCompletes(cases.body, b3);
    StmtPending(cases.body, b3);
    var b4 := VisitStmt(cases.body, b3);
    CompletesOn(b, b3, b4, {}, y);
    if cases.rest.Case? {
      HandedSane(b, b4, y);
      CasesComplete(cases.rest, clause + 1, pre, b4);
      HandedOn(b, b4, VisitCases(cases.rest, clause + 1, pre, b4), y, CaseExits(cases.rest));
    }
  }

  lemma {:induction false} SwitchCompletes(s: Stmt, b: Builder)
    requires s.Switch? && Entered(s, b)
    ensures Completes(b, VisitSwitch(s, b), Exits(s, ""))
    decreases s, 1
  {
    hide Extends, Grows, Visited, Sane, Calm, Handed, VisitExpr, VisitCases, AddAntecedent, Finish, StartScope, EnterClause, Exits, Sends;
    var y := CaseExits(s.cases);
    HandedNothing(b);
    HandedExpr(b, b, s.discriminant, {});
    ExprPending(s.discriminant, b);
    HandedScope(b, VisitExpr(s.discriminant, b), s.scope, {});
    var b0 := StartScope(VisitExpr(s.discriminant, b), s.scope);
    HandedSane(b, b0, {});
    var exit := |b0.g.nodes|;
    NotTried(b, exit);
    HandedAdd(b, b0, BranchLabel, {});
    var b1 := Add(b0, BranchLabel);
    var t := JumpTarget("", exit, Dead, false);
    var c := b1.(jumps := b.jumps + [t], pendingLabel := "", flow := Dead);
    TargetSane(b, b1, c, t, {});
    var r := VisitCases(s.cases, 0, b0.flow, c);
    if s.cases.Case? {
      CasesComplete(s.cases, 0, b0.flow, c);
    } else {
      HandedNothing(c);
      NoClauses(s.cases, 0, b0.flow, c);
    }
    TargetHanded(b, b1, c, r, t, {}, y);
    SwitchTakes(exit, y);
    var x := {} + Passing(t, y);
    var b3 := r.(jumps := b.jumps);
    HandedAttach(b, b3, exit, b3.flow, x);
    var b4 := AddAntecedent(b3, exit, b3.flow);
    HandedClause(b, b4, b0.flow, -1, x);
    var d := EnterClause(b4, b0.flow, -1);
    HandedAttach(b, d, exit, d.flow, x);
    var b5 := if HasDefault(s.cases) then b4 else AddAntecedent(d, exit, d.flow);
    HandedFlow(b, b5, Finish(b5.g, exit), x);
    FinishLive(b5.g, exit);
    SwitchExits(s, x);
    HandedSame(b, Resume(b5, exit), x, Exits(s, ""));
  }

  lemma NoClauses(cases: Cases, clause: int, pre: nat, b: Builder)
    requires cases.NoCases?
    ensures VisitCases(cases, clause, pre, b) == b
  {
    hide Extends, Grows;
  }

  // What a switch takes: breaks without a label.
  lemma SwitchTakes(exit: nat, y: set<Exit>)
    ensures var t := JumpTarget("", exit, Dead, false);
      && Passing(t, y) == y - {End, Out("")}
      && ((exists e :: e in y && Takes(t, e) && exit == if e.Next? then t.continueTo else t.breakTo) <==> Out("") in y)
  {
    assert Takes(JumpTarget("", exit, Dead, false), Out(""));
  }

  lemma SwitchExits(s: Stmt, x: set<Exit>)
    requires s.Switch? && x == CaseExits(s.cases) - {End, Out("")}
    ensures x - {End} == Exits(s, "") - {End}
    ensures End in Exits(s, "") <==> End in CaseExits(s.cases) || Out("") in CaseExits(s.cases) || !HasDefault(s.cases)
  {
  }

  lemma {:induction false} CatchCompletes(handler: Catch, pre: nat, b: Builder, m: Builder, x: set<Exit>)
    requires Handed(b, m, x) && pre != Dead && (m.flow != Dead <==> End in x) && m.pendingLabel == ""
    requires handler.Catch? ==> Alive(handler.body) && Tidy(handler.body)
    ensures var y := if handler.Catch? then Exits(handler.body, "") else {};
      Completes(b, VisitCatch(handler, pre, m), x + y)
    decreases handler, 5
  {
    hide Extends, Grows, Visited, Sane, Calm, Handed, VisitStmt, StartScope, Join;
    if handler.Catch? {
      var y := Exits(handler.body, "");
      HandedFlow(b, m, pre, x);
      HandedScope(b, m.(flow := pre), handler.scope, x);
      var m1 := StartScope(m.(flow := pre), handler.scope);
      HandedSane(b, m1, x);
      StmtCompletes(handler.body, m1);
      var m2 := VisitStmt(handler.body, m1);
      HandedOn(b, m1, m2, x, y);
      HandedJoin(b, m2, m.flow, m2.flow, x + y);
    } else {
      assert x + {} == x;
    }
  }

  lemma {:induction false} TryCompletes(s: Stmt, b: Builder)
    requires s.Try? && Entered(s, b)
    ensures Completes(b, VisitTry(s, b), Exits(s, ""))
    decreases s, 2
  {
    hide Extends, Grows, Visited, Sane, Calm, Handed, VisitStmt, VisitCatch, AddAntecedent, Finish;
    HandedNothing(b);
    match s.finalizer
    case NoFinally =>
      StmtCompletes(s.block, b);
      StmtPending(s.block, b);
      CatchCompletes(s.handler, b.flow, b, VisitStmt(s.block, b), Exits(s.block, ""));
    case Finally(last) =>
      var exc := |b.g.nodes|;
      var x := Exits(s.block, "") + (if s.handler.Catch? then Exits(s.handler.body, "") else {});
      var z := Exits(last, "");
      HandedAdd(b, b, BranchLabel, {});
      HandedAttach(b, Add(b, BranchLabel), exc, b.flow, {});
      NotTried(b, exc);
      var b1 := AddAntecedent(Add(b, BranchLabel), exc, b.flow);
      var b2 := VisitStmt(s.block, b1.(exceptionTargets := b.exceptionTargets + [exc]));
      var b3 := VisitCatch(s.handler, b.flow, b2).(exceptionTargets := b.exceptionTargets);
      WatchedCompletes(s, b, b1, exc);
      HandedSane(b, b3, x);
      if b3.flow == Dead {
        FinishLive(b3.g, exc);
        HandedFlow(b, b3, Finish(b3.g, exc), x);
        HandedSane(b, Resume(b3, exc), x);
        StmtCompletes(last, Resume(b3, exc));
        var r := VisitStmt(last, Resume(b3, exc));
        HandedOn(b, Resume(b3, exc), r, x, z);
        HandedFlow(b, r, Dead, x + z);
        HandedSame(b, r.(flow := Dead), x + z, x + (z - {End}));
      } else {
        HandedNodes(b, b3, MarkBlind(b3, s.id), x);
        HandedSane(b, MarkBlind(b3, s.id), x);
        StmtCompletes(last, MarkBlind(b3, s.id));
        HandedOn(b, MarkBlind(b3, s.id), VisitStmt(last, MarkBlind(b3, s.id)), x, z);
      }
  }

  // The block and its catch, a finally waiting at exc, which is reached from before the block at least.
  lemma {:induction false} WatchedCompletes(s: Stmt, b: Builder, m: Builder, exc: nat)
    requires s.Try? && Sane(b) && Handed(b, m, {}) && exc == |b.g.nodes| < |m.g.nodes| && m.flow == b.flow != Dead
    requires Claimed(m.g, exc) && m.pendingLabel == "" && Alive(s) && Tidy(s)
    ensures
      var x := Exits(s.block, "") + (if s.handler.Catch? then Exits(s.handler.body, "") else {});
      var r := VisitCatch(s.handler, b.flow, VisitStmt(s.block, m.(exceptionTargets := b.exceptionTargets + [exc])));
      && Completes(b, r.(exceptionTargets := b.exceptionTargets), x) && r.pendingLabel == "" && Claimed(r.g, exc)
    decreases s, 1
  {
    hide VisitStmt, VisitCatch, Extends, Grows, Visited, Calm, Handed, Sane;
    var c := m.(exceptionTargets := b.exceptionTargets + [exc]);
    var y := Exits(s.block, "");
    WatchedEntered(s, b, m, exc, c);
    StmtCompletes(s.block, c);
    StmtPending(s.block, c);
    var r1 := VisitStmt(s.block, c);
    CatchCompletes(s.handler, b.flow, c, r1, y);
    StaysClaimed(s, c, exc);
    UnwatchedHanded(b, m, exc, c, VisitCatch(s.handler, b.flow, r1), y + (if s.handler.Catch? then Exits(s.handler.body, "") else {}));
  }

  lemma WatchedEntered(s: Stmt, b: Builder, m: Builder, exc: nat, c: Builder)
    requires Handed(b, m, {}) && exc < |m.g.nodes| && c == m.(exceptionTargets := b.exceptionTargets + [exc])
    ensures Sane(c)
  {
  }

  // The try no longer open.
  lemma UnwatchedHanded(b: Builder, m: Builder, exc: nat, c: Builder, r: Builder, x: set<Exit>)
    requires Sane(b) && Handed(b, m, {}) && exc == |b.g.nodes| < |m.g.nodes| && c == m.(exceptionTargets := b.exceptionTargets + [exc])
    requires Handed(c, r, x)
    ensures Handed(b, r.(exceptionTargets := b.exceptionTargets), x)
  {
    hide Sends;
    forall l: nat | 0 < l < |b.g.nodes| && l !in b.exceptionTargets
      ensures Claimed(r.g, l) <==> Claimed(b.g, l) || Sends(b.jumps, x, l)
    {
      SendsNothing(b.jumps, l);
    }
  }

  lemma SendsNothing(jumps: seq<JumpTarget>, l: nat)
    ensures !Sends(jumps, {}, l)
  {
  }

  // Predecessors are never taken away.
  lemma StaysClaimed(s: Stmt, c: Builder, l: nat)
    requires s.Try? && Claimed(c.g, l)
    ensures Claimed(VisitCatch(s.handler, c.flow, VisitStmt(s.block, c)).g, l)
    ensures c.pendingLabel == "" ==> VisitCatch(s.handler, c.flow, VisitStmt(s.block, c)).pendingLabel == ""
  {
    hide VisitStmt, VisitCatch;
    var r1 := VisitStmt(s.block, c);
    var r := VisitCatch(s.handler, c.flow, r1);
    assert Antecedents(c.g, l) <= Antecedents(r1.g, l) <= Antecedents(r.g, l);
  }

  // ----- functions -----

  lemma EnteredSane(fn: Scope, b: Builder)
    requires Sane(b)
    ensures var r := EnterFunction(fn, b); Sane(r) && r.flow != Dead && r.pendingLabel == b.pendingLabel
  {
    assert forall l: nat :: Claimed(EnterFunction(fn, b).g, l) <==> Claimed(b.g, l);
  }
}
