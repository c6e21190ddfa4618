// Where a statement's run stands when it completes: at the flow after it, or at the label its jump goes to.
module Landing {
  import opened Syntax
  import opened FlowGraph
  import opened Visit
  import opened Semantics
  import opened Walks
  import opened Questions
  import opened Fading
  import opened Links
  import opened FollowExpr

  predicate IsLabel(g: Binding, l: nat) {
    l < |g.nodes| && (g.nodes[l].BranchLabel? || g.nodes[l].LoopLabel?)
  }

  predicate Targets(g: Binding, jumps: seq<JumpTarget>) {
    forall i :: 0 <= i < |jumps| ==> IsTarget(g, jumps[i])
  }

  predicate IsTarget(g: Binding, t: JumpTarget) {
    IsLabel(g, t.breakTo) && (t.continueTo != Dead ==> IsLabel(g, t.continueTo))
  }

  // The run stands at label l, which the binder, in state r, has seen reached.
  ghost predicate LandsAt(q: Question, g: Binding, a: Activation, r: Builder, l: nat, h: History) {
    Antecedents(r.g, l) != [] && At(q, g, a, l, h)
  }

  ghost predicate Lands(q: Question, g: Binding, a: Activation, jumps: seq<JumpTarget>, r: Builder, o: Outcome) {
    && UsesTraced(q, g, a, o.run.history)
    && match o.how
       case Normal => Follows(q, g, a, r, o.run.history)
       case BreakTo(tag) =>
         var t := FindJump(jumps, tag, false);
         t.Some? ==> LandsAt(q, g, a, r, t.value.breakTo, o.run.history)
       case ContinueTo(tag) =>
         var t := FindJump(jumps, tag, true);
         t.Some? ==> LandsAt(q, g, a, r, t.value.continueTo, o.run.history)
       case _ => true
  }

  // ----- labels -----

  lemma NewLabel(g: Binding, b: Builder, n: FlowNode)
    requires Rooted(g) && Extends(Add(b, n).g, g) && (n.BranchLabel? || n.LoopLabel?)
    ensures IsLabel(g, |b.g.nodes|) && |b.g.nodes| != Dead
  {
    assert Add(b, n).g.nodes[|b.g.nodes|] == n;
  }

  // Control handed to a label.
  lemma ToLabel(q: Question, g: Binding, a: Activation, b: Builder, l: nat, f: nat, h: History)
    requires Rooted(g) && IsLabel(g, l) && Extends(AddAntecedent(b, l, f).g, g) && At(q, g, a, f, h)
    ensures LandsAt(q, g, a, AddAntecedent(b, l, f), l, h)
  {
    var r := AddAntecedent(b, l, f);
    assert f in Antecedents(r.g, l) && Antecedents(r.g, l) <= Antecedents(g, l);
    PassLink(q, g, f, l);
  }

  lemma StaysLanded(q: Question, g: Binding, a: Activation, r1: Builder, r2: Builder, l: nat, h: History)
    requires LandsAt(q, g, a, r1, l, h) && Extends(r1.g, r2.g)
    ensures LandsAt(q, g, a, r2, l, h)
  {
    assert Antecedents(r1.g, l) <= Antecedents(r2.g, l);
  }

  lemma ResumeFollows(q: Question, g: Binding, a: Activation, r: Builder, l: nat, h: History)
    requires LandsAt(q, g, a, r, l, h) && UsesTraced(q, g, a, h) && r.container == a.fn
    ensures Follows(q, g, a, Resume(r, l), h)
  {
  }

  // An abrupt completion lands in every later state of the binder.
  lemma LandsLater(q: Question, g: Binding, a: Activation, jumps: seq<JumpTarget>, r1: Builder, r2: Builder, o: Outcome)
    requires Lands(q, g, a, jumps, r1, o) && Extends(r1.g, r2.g) && !o.how.Normal?
    ensures Lands(q, g, a, jumps, r2, o)
  {
    hide Extends, At, UsesTraced;
    match o.how
    case BreakTo(tag) =>
      var t := FindJump(jumps, tag, false);
      if t.Some? { StaysLanded(q, g, a, r1, r2, t.value.breakTo, o.run.history); }
    case ContinueTo(tag) =>
      var t := FindJump(jumps, tag, true);
      if t.Some? { StaysLanded(q, g, a, r1, r2, t.value.continueTo, o.run.history); }
    case _ =>
  }

  // ----- scopes -----

  lemma EnterFollows(q: Question, g: Binding, a: Activation, b: Builder, s: Scope, r: Run)
    requires Rooted(g) && Follows(q, g, a, b, r.history) && Extends(StartScope(b, s).g, g)
    ensures Follows(q, g, a, StartScope(b, s), EnterScope(r, s, a).history)
  {
    StepNode(g, b, ScopeStart(b.flow, s));
    var m := StartScope(b, s).flow;
    if !q.Reached? {
      if Begins(q, g.nodes[m]) { BeginsTraced(q, g, m); }
      else if MarkOf(WalkOf(q), g.nodes[m]) == Pass { PassLink(q, g, b.flow, m); }
    }
  }

  lemma ExitFades(q: Question, a: Activation, tries: set<nat>, h: History, s: Scope)
    ensures Fades(q, a, tries, h, After(h, Exit(s)))
  {
  }

  lemma ExitLands(q: Question, g: Binding, a: Activation, jumps: seq<JumpTarget>, r: Builder, o: Outcome, s: Scope)
    requires Lands(q, g, a, jumps, r, o)
    ensures Lands(q, g, a, jumps, r, Leave(o, s))
  {
    hide At, Fades;
    var h := o.run.history;
    ExitFades(q, a, g.blindTries, h, s);
    forall n: nat | At(q, g, a, n, h) ensures At(q, g, a, n, After(h, Exit(s))) {
      FadeAt(q, g, a, n, h, After(h, Exit(s)));
    }
  }

  // ----- jumps -----

  lemma FindPushed(jumps: seq<JumpTarget>, t: JumpTarget, tag: string, cont: bool)
    ensures FindJump(jumps + [t], tag, cont) ==
      if tag != "" && t.tag != tag then FindJump(jumps, tag, cont)
      else if cont && t.continueTo == Dead then (if tag != "" then None else FindJump(jumps, tag, cont))
      else if tag == "" && t.breakOnly then FindJump(jumps, tag, cont)
      else Some(t)
  {
    assert (jumps + [t])[..|jumps|] == jumps;
  }

  lemma TargetsPushed(g: Binding, jumps: seq<JumpTarget>, t: JumpTarget)
    requires Targets(g, jumps) && IsTarget(g, t)
    ensures Targets(g, jumps + [t])
  {
  }

  lemma {:induction false} FoundTarget(g: Binding, jumps: seq<JumpTarget>, tag: string, cont: bool)
    requires Targets(g, jumps) && FindJump(jumps, tag, cont).Some?
    ensures var t := FindJump(jumps, tag, cont).value; IsTarget(g, t) && (cont ==> t.continueTo != Dead)
    decreases |jumps|
  {
    assert IsTarget(g, jumps[|jumps| - 1]);
    var outer := jumps[..|jumps| - 1];
    if FindJump(outer, tag, cont).Some? { FoundTarget(g, outer, tag, cont); }
  }

  lemma JumpLands(q: Question, g: Binding, a: Activation, tag: string, cont: bool, b: Builder, r: Run)
    requires Rooted(g) && Follows(q, g, a, b, r.history) && Targets(g, b.jumps)
    requires Extends(VisitJump(tag, cont, b).g, g)
    ensures Lands(q, g, a, b.jumps, VisitJump(tag, cont, b), Outcome(r, if cont then ContinueTo(tag) else BreakTo(tag)))
  {
    var t := FindJump(b.jumps, tag, cont);
    if t.Some? {
      FoundTarget(g, b.jumps, tag, cont);
      ToLabel(q, g, a, b, if cont then t.value.continueTo else t.value.breakTo, b.flow, r.history);
    }
  }

  // The labels a loop is run with are the label it takes.
  predicate Labeling(labels: set<string>, pending: string) {
    labels == if pending == "" then {} else {pending}
  }

  // What becomes of a loop body's completion.
  lemma LoopLands(q: Question, g: Binding, a: Activation, jumps: seq<JumpTarget>, t: JumpTarget, labels: set<string>, r: Builder, o: Outcome)
    requires Lands(q, g, a, jumps + [t], r, o) && Labeling(labels, t.tag) && !t.breakOnly && t.continueTo != Dead
    ensures GoesRound(o.how, labels) && !o.how.Normal? ==> LandsAt(q, g, a, r, t.continueTo, o.run.history)
    ensures LeavesLoop(o.how, labels) ==> LandsAt(q, g, a, r, t.breakTo, o.run.history)
    ensures !GoesRound(o.how, labels) && !LeavesLoop(o.how, labels) ==> Lands(q, g, a, jumps, r, o)
  {
    hide At, UsesTraced;
    match o.how
    case BreakTo(tag) => FindPushed(jumps, t, tag, false);
    case ContinueTo(tag) => FindPushed(jumps, t, tag, true);
    case _ =>
  }

  lemma TrueStays(test: Expr, r: Run, a: Activation)
    ensures AlwaysTrue(test) && test != NoExpr ==> Truthy(Eval(test, r, a).value)
  {
  }

  // A loop is left when its test is falsy.
  lemma TestLeaves(q: Question, g: Binding, a: Activation, b: Builder, test: Expr, exit: nat, after: Builder, r: Run)
    requires Setup(q, g, a) && TestRead(q, test) && IsLabel(g, exit)
    requires Extends(LoopTest(b, test, exit).g, after.g) && Extends(after.g, g)
    requires var t := Eval(test, r, a); !t.thrown && test != NoExpr && !Truthy(t.value) && At(q, g, a, b.flow, t.run.history)
    ensures LandsAt(q, g, a, after, exit, Eval(test, r, a).run.history)
  {
    GrowthChains();
    assert !AlwaysTrue(test);
    var c := Branch(b, b.flow, test, false);
    var d := AddAntecedent(c, exit, c.flow);
    hide Extends, At, Branch, Applies;
    BranchFollows(q, g, a, b, b.flow, test, false, r);
    ToLabel(q, g, a, c, exit, c.flow, Eval(test, r, a).run.history);
    StaysLanded(q, g, a, d, after, exit, Eval(test, r, a).run.history);
  }

  // Or goes round when it is truthy, or absent.
  lemma TestGoesOn(q: Question, g: Binding, a: Activation, b: Builder, test: Expr, exit: nat, r: Run)
    requires Setup(q, g, a) && TestRead(q, test) && Extends(LoopTest(b, test, exit).g, g) && b.container == a.fn
    requires var t := Eval(test, r, a);
      !t.thrown && (test == NoExpr || Truthy(t.value)) && At(q, g, a, b.flow, t.run.history) && UsesTraced(q, g, a, t.run.history)
    ensures Follows(q, g, a, LoopTest(b, test, exit), Eval(test, r, a).run.history)
  {
    GrowthChains();
    var c := Branch(b, b.flow, test, false);
    var b1 := if AlwaysTrue(test) then b else AddAntecedent(c, exit, c.flow);
    hide Extends, At, Branch, Applies, UsesTraced;
    BranchFollows(q, g, a, b1, b.flow, test, true, r);
  }
}
