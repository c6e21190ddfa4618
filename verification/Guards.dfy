// Conditions that rule undefined out of a binding: what ExcludesUndefined promises, and when it is right.
module Guards {
  import opened Syntax
  import opened FlowGraph
  import opened Semantics
  import opened Walks
  import opened Questions

  // Other code run meanwhile leaves alone what no other function stores to.
  lemma {:induction false} StoresKeep(x: Symbol, ws: seq<(Symbol, Value)>, h: History, a: Activation)
    requires x !in a.foreign
    ensures Current(x, Stores(ws, h, a), a) == Current(x, h, a)
    ensures Open(x.scope, Stores(ws, h, a)) == Open(x.scope, h)
    decreases |ws|
  {
    if ws != [] {
      var (y, v) := ws[0];
      StoresKeep(x, ws[1..], if y in a.foreign && Current(y, h, a).Holds? then After(h, ForeignStore(y, v)) else h, a);
    }
  }

  // c was evaluated, it took the branch, and x may still be undefined.
  predicate Escapes(c: Expr, x: Symbol, branch: bool, r: Run, a: Activation) {
    var v := Eval(c, r, a);
    && Own(x, a) && x !in a.foreign
    && !v.thrown && Truthy(v.value) == branch && Current(x, v.run.history, a) == Holds(Undefined)
  }

  // No run that takes this branch of c leaves x undefined.
  ghost predicate RulesOut(c: Expr, x: Symbol, branch: bool) {
    forall r: Run, a: Activation :: !Escapes(c, x, branch, r, a)
  }

  lemma NameReads(id: nat, x: Symbol, r: Run, a: Activation)
    requires Own(x, a)
    ensures var v := Eval(Name(id, x), r, a);
      && Current(x, v.run.history, a) == Current(x, r.history, a)
      && (!v.thrown ==> Current(x, v.run.history, a) == Holds(v.value))
  {
  }

  lemma ComparisonReads(c: Expr, x: Symbol, branch: bool, r: Run, a: Activation)
    requires c.Binary? && IsName(c.left, x) && Own(x, a) && x !in a.foreign
    requires ComparisonExcludes(c.op, c.right, branch)
    ensures !Escapes(c, x, branch, r, a)
  {
    NameReads(c.left.id, x, r, a);
    var l := Eval(c.left, r, a);
    assert Eval(c.right, l.run, a) == Result(l.run, c.right.value, false);
    StoresKeep(x, a.oracle(l.run.clock).stores, l.run.history, a);
  }

  lemma SwappedComparisonReads(c: Expr, x: Symbol, branch: bool, r: Run, a: Activation)
    requires c.Binary? && IsName(c.right, x) && Own(x, a) && x !in a.foreign
    requires ComparisonExcludes(c.op, c.left, branch)
    ensures !Escapes(c, x, branch, r, a)
  {
    NameReads(c.right.id, x, r, a);
    var v := Eval(c.right, r, a);
    assert Eval(c.left, r, a) == Result(r, c.left.value, false);
    StoresKeep(x, a.oracle(v.run.clock).stores, v.run.history, a);
  }

  lemma TypeOfReads(e: Expr, x: Symbol, r: Run, a: Activation)
    requires e.TypeOf? && IsName(e.arg, x) && Own(x, a)
    ensures var v := Eval(e, r, a);
      && Current(x, v.run.history, a) == Current(x, r.history, a)
      && (!v.thrown && Current(x, r.history, a) == Holds(Undefined) ==> v.value == Text("undefined"))
  {
    NameReads(e.arg.id, x, r, a);
  }

  lemma TypeTestReads(c: Expr, x: Symbol, branch: bool, r: Run, a: Activation)
    requires c.Binary? && !IsName(c.left, x) && c.right.TypeOf? && IsName(c.right.arg, x)
    requires Own(x, a) && x !in a.foreign && ExcludesUndefined(c, x, branch) && !Misread(c, x)
    ensures !Escapes(c, x, branch, r, a)
  {
    var v := Eval(c.right, r, a);
    TypeOfReads(c.right, x, r, a);
    assert Eval(c.left, r, a) == Result(r, c.left.value, false);
    StoresKeep(x, a.oracle(v.run.clock).stores, v.run.history, a);
  }

  lemma GuardReads(c: Expr, x: Symbol, branch: bool, r: Run, a: Activation)
    requires Own(x, a) && x !in a.foreign && ExcludesUndefined(c, x, branch) && !Misread(c, x)
    ensures !Escapes(c, x, branch, r, a)
  {
    match c
    case Name(id, _) => NameReads(id, x, r, a);
    case Not(arg) => NameReads(arg.id, x, r, a);
    case Binary(_, left, right) =>
      if IsName(left, x) { ComparisonReads(c, x, branch, r, a); }
      else if IsName(right, x) { SwappedComparisonReads(c, x, branch, r, a); }
      else { TypeTestReads(c, x, branch, r, a); }
    case Logical(_, left, right) =>
      TypeOfReads(right, x, r, a);
      assert Eval(left, r, a) == Result(r, left.value, false);
  }

  // A run in which x is undefined and the misread condition is falsy.
  lemma MisreadEscapes(c: Expr, x: Symbol)
    requires ExcludesUndefined(c, x, false) && Misread(c, x)
    ensures !RulesOut(c, x, false)
  {
    var choice := Choice(Number(0), false, false, [], (y: Symbol) => Undefined);
    var a := Activation(ContainerOf(x.scope), {}, (y: Symbol) => Undefined, (n: nat) => choice);
    var r := Run(After(Begin, Store(x, OtherSite, true, false, Undefined)), 0);
    NameReads(c.right.arg.id, x, r, a);
    assert Eval(c.right, r, a).value == Text("undefined");
    StoresKeep(x, [], Eval(c.right, r, a).run.history, a);
    assert Escapes(c, x, false, r, a);
  }

  // The analysis is right about exactly the conditions that are not misread.
  lemma ExclusionExact(c: Expr, x: Symbol, branch: bool)
    requires ExcludesUndefined(c, x, branch)
    ensures RulesOut(c, x, branch) <==> !Misread(c, x)
  {
    if Misread(c, x) {
      MisreadEscapes(c, x);
    } else {
      forall r: Run, a: Activation ensures !Escapes(c, x, branch, r, a) {
        if Own(x, a) && x !in a.foreign { GuardReads(c, x, branch, r, a); }
      }
    }
  }

  // No condition excludes undefined both ways.
  lemma OneBranch(c: Expr, x: Symbol)
    ensures !(ExcludesUndefined(c, x, true) && ExcludesUndefined(c, x, false))
  {
  }
}
