// The checker's memo as the checker keeps it: one log of the assignments met while open, from which each
// query takes what it depends on.
module TypeCache {
  import opened Answers

  function Elems(s: seq<Expr>): set<Expr> {
    set v | v in s
  }

  predicate Distinct(s: seq<Expr>) {
    forall i, j :: 0 <= i < j < |s| ==> s[i] != s[j]
  }

  datatype Entry = Entry(t: Type, deps: seq<Expr>)

  // Provisional answers, their assignments as sets.
  function Kepts(entries: map<Expr, Entry>): map<Expr, Kept> {
    map e | e in entries :: Kept(entries[e].t, Elems(entries[e].deps))
  }

  lemma KeptsWith(entries: map<Expr, Entry>, e: Expr, n: Entry)
    ensures Kepts(entries[e := n]) == Kepts(entries)[e := Kept(n.t, Elems(n.deps))]
  {
  }

  lemma KeptsAt(entries: map<Expr, Entry>, e: Expr)
    ensures e in Kepts(entries) <==> e in entries
    ensures e in entries ==> Kepts(entries)[e] == Kept(entries[e].t, Elems(entries[e].deps))
  {
  }

  class Checker {
    const p: Program
    var nodeTypes: map<Expr, Type>
    var provisional: map<Expr, Entry>
    var cuts: seq<Expr>
    var assigning: set<Expr>
    var depth: nat
    var steps: nat
    var exhausted: bool

    function State(): Memo
      reads this
    {
      Memo(nodeTypes, Kepts(provisional), steps, exhausted)
    }

    // What is kept is sound, each provisional answer's assignments once, and nothing is logged while no
    // assignment is open.
    ghost predicate Valid()
      reads this
    {
      && WellFormed(p) && Sound(p, State())
      && (forall e :: e in provisional ==> Distinct(provisional[e].deps))
      && (assigning == {} ==> cuts == [])
    }

    constructor (program: Program)
      requires WellFormed(program)
      ensures Valid() && p == program && State() == Memo(map[], map[], 0, false) && assigning == {} && depth == 0
    {
      p := program;
      nodeTypes, provisional, cuts, assigning, depth, steps, exhausted := map[], map[], [], {}, 0, 0, false;
    }

    method AllAssigning(vs: seq<Expr>) returns (yes: bool)
      ensures yes <==> Elems(vs) <= assigning
    {
      for i := 0 to |vs|
        invariant Elems(vs[..i]) <= assigning
      {
        if vs[i] !in assigning {
          assert vs[i] in Elems(vs);
          return false;
        }
        assert vs[..i + 1] == vs[..i] + [vs[i]];
      }
      assert vs[..|vs|] == vs;
      return true;
    }

    // The assignments logged from mark on that are still open, each once.
    method OpenFrom(mark: nat) returns (deps: seq<Expr>)
      requires mark <= |cuts|
      ensures Distinct(deps) && Elems(deps) == Elems(cuts[mark..]) * assigning
    {
      deps := [];
      var seen: set<Expr> := {};
      for i := mark to |cuts|
        invariant Distinct(deps) && seen == Elems(deps) == Elems(cuts[mark..i]) * assigning
      {
        var v := cuts[i];
        assert cuts[mark..i + 1] == cuts[mark..i] + [v];
        if v in assigning && v !in seen {
          seen := seen + {v};
          deps := deps + [v];
        }
      }
      assert cuts[mark..|cuts|] == cuts[mark..];
    }

    // The type of e. The log grows by exactly the open assignments the answer depends on, each once, unless
    // the query is given up.
    method TypeOf(e: Expr) returns (t: Type)
      requires Valid()
      modifies this
      ensures Valid() && assigning == old(assigning) && depth == old(depth) && old(cuts) <= cuts
      ensures var r := Answers.TypeOf(p, e, old(State()), old(assigning), old(depth));
        && t == r.t && State() == r.memo
        && (!r.gaveUp ==> Distinct(cuts[|old(cuts)|..]) && Elems(cuts[|old(cuts)|..]) == r.deps)
      decreases p.values - assigning, p.height(e), 3
    {
      ghost var d := AnswerRests(p, e, State(), assigning, depth);
      hide Sound;
      if e in nodeTypes { return nodeTypes[e]; }
      if e in provisional {
        var known := provisional[e];
        var reusable := AllAssigning(known.deps);
        if reusable {
          cuts := cuts + known.deps;
          return known.t;
        }
      }
      t := Compute(e);
    }

    // An answer not known, or not reusable here.
    method Compute(e: Expr) returns (t: Type)
      requires Valid() && e !in nodeTypes && (e in provisional ==> !(Elems(provisional[e].deps) <= assigning))
      modifies this
      ensures Valid() && assigning == old(assigning) && depth == old(depth) && old(cuts) <= cuts
      ensures var r := Answers.TypeOf(p, e, old(State()), old(assigning), old(depth));
        && t == r.t && State() == r.memo
        && (!r.gaveUp ==> Distinct(cuts[|old(cuts)|..]) && Elems(cuts[|old(cuts)|..]) == r.deps)
      decreases p.values - assigning, p.height(e), 2
    {
      hide Sound, Kepts, Elems;
      ghost var d := AnswerRests(p, e, State(), assigning, depth);
      NoneKept();
      SpendKeeps(p, State());
      KeptsAt(provisional, e);
      ghost var r := Answers.TypeOf(p, e, State(), assigning, depth);
      if depth == 0 { steps := 0; }
      depth := depth + 1;
      var mark := |cuts|;
      var answers := CheckExpr(e);
      depth := depth - 1;
      if exhausted {
        if depth == 0 {
          exhausted := false;
          nodeTypes := nodeTypes[e := Unanswered];
        }
        assert State() == r.memo;
        return Unanswered;
      }
      t := p.combine(e, answers);
      var deps := OpenFrom(mark);
      cuts := cuts[..mark] + deps;
      assert cuts[mark..] == deps;
      KeptsWith(provisional, e, Entry(t, deps));
      if deps != [] {
        provisional := provisional[e := Entry(t, deps)];
      } else {
        nodeTypes := nodeTypes[e := t];
      }
    }

    // What e asks, in order.
    method CheckExpr(e: Expr) returns (answers: seq<Type>)
      requires Valid() && depth > 0
      modifies this
      ensures Valid() && assigning == old(assigning) && depth == old(depth) && old(cuts) <= cuts
      ensures var r := AskFrom(p, e, 0, [], old(State()), old(assigning), old(depth));
        && answers == r.answers && State() == r.memo
        && (!exhausted ==> Elems(cuts[|old(cuts)|..]) * assigning == r.deps * assigning)
      decreases p.values - assigning, p.height(e), 1
    {
      hide Sound, Kepts, Elems;
      NoneKept();
      assert cuts[|cuts|..] == [];
      answers := [];
      ghost var deps: set<Expr> := {};
      ghost var whole := AskFrom(p, e, 0, [], State(), assigning, depth);
      var k: nat := 0;
      while p.plan(e, k, answers).Some?
        invariant k <= p.asks(e) && Valid() && assigning == old(assigning) && depth == old(depth) && old(cuts) <= cuts
        invariant var rest := AskFrom(p, e, k, answers, State(), assigning, depth);
          whole == rest.(deps := deps + rest.deps)
        invariant !exhausted ==> Elems(cuts[|old(cuts)|..]) * assigning == deps * assigning
        decreases p.asks(e) - k
      {
        ghost var was, logged := State(), cuts;
        assert k < p.asks(e) && Grounded(p, e, p.plan(e, k, answers).value);
        k := k + 1;
        match p.plan(e, k - 1, answers).value
        case Part(f) =>
          ghost var r := Answers.TypeOf(p, f, State(), assigning, depth);
          ghost var d := AnswerRests(p, f, State(), assigning, depth);
          var t := TypeOf(f);
          if !exhausted { LogAdds(old(cuts), logged, cuts, assigning, deps, r.deps); }
          answers, deps := answers + [t], deps + r.deps;
        case Value(v) =>
          ghost var r := Answers.Assigned(p, v, State(), assigning, depth);
          ghost var d := AssignedRests(p, v, State(), assigning, depth);
          var t := Assigned(v);
          if !exhausted { LogAdds(old(cuts), logged, cuts, assigning, deps, r.deps); }
          answers, deps := answers + [t], deps + r.deps;
        case Spend =>
          SpendKeeps(p, State());
          steps := steps + 1;
          if steps > p.budget { exhausted := true; }
      }
    }

    method Assigned(v: Expr) returns (t: Type)
      requires Valid() && v in p.values
      modifies this
      ensures Valid() && assigning == old(assigning) && depth == old(depth) && old(cuts) <= cuts
      ensures var r := Answers.Assigned(p, v, old(State()), old(assigning), old(depth));
        && t == r.t && State() == r.memo
        && (!r.gaveUp ==> Elems(cuts[|old(cuts)|..]) * assigning == r.deps * assigning)
      decreases p.values - assigning, 0, 0
    {
      hide Sound;
      if v in assigning {
        cuts := cuts + [v];
        return Never;
      }
      assert v in p.values - assigning;
      assigning := assigning + {v};
      t := TypeOf(v);
      assigning := assigning - {v};
      if assigning == {} { cuts := []; }
    }
  }

  lemma NoneKept()
    ensures forall s :: Elems(s) == {} <==> s == []
  {
    forall s ensures Elems(s) == {} <==> s == [] {
      if s != [] { assert s[0] in Elems(s); }
    }
  }

  // The open assignments of a log that has grown.
  lemma LogAdds(a: seq<Expr>, b: seq<Expr>, c: seq<Expr>, open: set<Expr>, deps: set<Expr>, more: set<Expr>)
    requires a <= b <= c && Elems(b[|a|..]) * open == deps * open && Elems(c[|b|..]) * open == more * open
    ensures Elems(c[|a|..]) * open == (deps + more) * open
  {
    LogGrows(a, b, c);
    hide Elems;
    var x, y := Elems(b[|a|..]), Elems(c[|b|..]);
    assert (x + y) * open == x * open + y * open;
  }

  lemma LogGrows(a: seq<Expr>, b: seq<Expr>, c: seq<Expr>)
    requires a <= b <= c
    ensures Elems(c[|a|..]) == Elems(b[|a|..]) + Elems(c[|b|..])
  {
    assert c[|a|..] == b[|a|..] + c[|b|..];
  }
}
