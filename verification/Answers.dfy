// The checker's memo of expression types: what a query answers, which open assignments its answer depends
// on, and what may be kept. A query that meets an assignment value whose own type is still being computed
// takes it to contribute nothing, and its answer depends on that assignment while it is open.
module Answers {

  type Expr = nat     // the expressions of a program, numbered

  datatype Type = Never | Unanswered | Other(id: nat)

  // What typing an expression asks, in order: the type of a part of it, the type an assigned value gives a
  // reference, a step of the flow walk.
  datatype Action = Part(expr: Expr) | Value(expr: Expr) | Spend

  datatype Option<T> = None | Some(value: T)

  // A program: what each expression asks next after so many actions and these answers, how often at most, and
  // what it makes of the answers; how deep it is, the values assigned in the program, and the steps a query may take.
  datatype Program = Program(plan: (Expr, nat, seq<Type>) -> Option<Action>, asks: Expr -> nat, combine: (Expr, seq<Type>) -> Type, height: Expr -> nat, values: set<Expr>, budget: nat)

  // Parts are inside, and values are the program's.
  ghost predicate WellFormed(p: Program) {
    forall e, k: nat, given :: p.plan(e, k, given).Some? ==> k < p.asks(e) && Grounded(p, e, p.plan(e, k, given).value)
  }

  predicate Grounded(p: Program, e: Expr, a: Action) {
    match a
    case Part(f) => p.height(f) < p.height(e)
    case Value(v) => v in p.values
    case Spend => true
  }

  datatype Kept = Kept(t: Type, deps: set<Expr>)

  // The permanent answers, the provisional ones, the steps taken in the outermost query, and whether they
  // are too many.
  datatype Memo = Memo(permanent: map<Expr, Type>, provisional: map<Expr, Kept>, steps: nat, exhausted: bool)

  // An answer, the open assignments it depends on, and whether the query was given up.
  datatype Reply = Reply(t: Type, deps: set<Expr>, memo: Memo, gaveUp: bool)

  datatype Replies = Replies(answers: seq<Type>, deps: set<Expr>, memo: Memo)

  // The type of e while the assignments in open are being computed, depth queries around it.
  function TypeOf(p: Program, e: Expr, m: Memo, open: set<Expr>, depth: nat): (r: Reply)
    requires WellFormed(p)
    decreases p.values - open, p.height(e), 2
  {
    if e in m.permanent then Reply(m.permanent[e], {}, m, false)
    else if e in m.provisional && m.provisional[e].deps <= open then
      Reply(m.provisional[e].t, m.provisional[e].deps, m, false)
    else
      var m1 := if depth == 0 then m.(steps := 0) else m;
      var r := AskFrom(p, e, 0, [], m1, open, depth + 1);
      if r.memo.exhausted then
        Reply(Unanswered, {}, if depth == 0 then r.memo.(exhausted := false, permanent := r.memo.permanent[e := Unanswered]) else r.memo, true)
      else
        var t := p.combine(e, r.answers);
        var deps := r.deps * open;
        if deps == {} then Reply(t, {}, r.memo.(permanent := r.memo.permanent[e := t]), false)
        else Reply(t, deps, r.memo.(provisional := r.memo.provisional[e := Kept(t, deps)]), false)
  }

  // What e asks from its k-th action on, and all its answers, those given first.
  function AskFrom(p: Program, e: Expr, k: nat, given: seq<Type>, m: Memo, open: set<Expr>, depth: nat): (r: Replies)
    requires WellFormed(p) && k <= p.asks(e)
    decreases p.values - open, p.height(e), 1, p.asks(e) - k
  {
    if p.plan(e, k, given).None? then Replies(given, {}, m) else
    assert k < p.asks(e) && Grounded(p, e, p.plan(e, k, given).value);
    match p.plan(e, k, given).value
    case Part(f) =>
      var r := TypeOf(p, f, m, open, depth);
      var rest := AskFrom(p, e, k + 1, given + [r.t], r.memo, open, depth);
      rest.(deps := r.deps + rest.deps)
    case Value(v) =>
      var r := Assigned(p, v, m, open, depth);
      var rest := AskFrom(p, e, k + 1, given + [r.t], r.memo, open, depth);
      rest.(deps := r.deps + rest.deps)
    case Spend => AskFrom(p, e, k + 1, given, Step(p, m), open, depth)
  }

  function Step(p: Program, m: Memo): Memo {
    m.(steps := m.steps + 1, exhausted := m.exhausted || m.steps + 1 > p.budget)
  }

  // The type an assigned value gives: nothing while it is itself being computed.
  function Assigned(p: Program, v: Expr, m: Memo, open: set<Expr>, depth: nat): (r: Reply)
    requires WellFormed(p) && v in p.values
    decreases p.values - open, 0, 0
  {
    if v in open then Reply(Never, {v}, m, false)
    else
      assert v in p.values - open;
      var r := TypeOf(p, v, m, open + {v}, depth);
      r.(deps := r.deps - {v})
  }

  // ----- what an answer rests on -----

  // How an answer was reached: from the answers of all an expression asks, with an assignment taken to
  // contribute nothing (Open), from the value of one (Closed), or given up.
  datatype Derivation =
    | Node(expr: Expr, parts: seq<Derivation>)
    | Open(value: Expr)
    | Closed(value: Expr, body: Derivation)
    | GivenUp(expr: Expr)

  function Types(p: Program, ds: seq<Derivation>): seq<Type>
    decreases ds
  {
    if ds == [] then [] else [TypeBy(p, ds[0])] + Types(p, ds[1..])
  }

  function TypeBy(p: Program, d: Derivation): Type
    decreases d
  {
    match d
    case Node(e, parts) => p.combine(e, Types(p, parts))
    case Open(_) => Never
    case Closed(_, body) => TypeBy(p, body)
    case GivenUp(_) => Unanswered
  }

  // The assignments taken to be open that no value around them closes.
  function Assumed(d: Derivation): set<Expr>
    decreases d
  {
    match d
    case Node(_, parts) => AllAssumed(parts)
    case Open(v) => {v}
    case Closed(v, body) => Assumed(body) - {v}
    case GivenUp(_) => {}
  }

  function AllAssumed(ds: seq<Derivation>): set<Expr>
    decreases ds
  {
    if ds == [] then {} else Assumed(ds[0]) + AllAssumed(ds[1..])
  }

  // d answers expression e by the program.
  ghost predicate Answers(p: Program, d: Derivation, e: Expr)
    decreases d
  {
    match d
    case Node(f, parts) => f == e && AnswersFrom(p, parts, e, 0, [])
    case GivenUp(f) => f == e
    case _ => false
  }

  // And ds answer what it asks from its k-th action on, one after another, each asked after the answers before it.
  ghost predicate AnswersFrom(p: Program, ds: seq<Derivation>, e: Expr, k: nat, given: seq<Type>)
    decreases ds, p.asks(e) - k
  {
    match p.plan(e, k, given)
    case None => ds == []
    case Some(a) =>
      k < p.asks(e) &&
      match a
      case Part(f) => ds != [] && Answers(p, ds[0], f) && AnswersFrom(p, ds[1..], e, k + 1, given + [TypeBy(p, ds[0])])
      case Value(v) => ds != [] && AnswersValue(p, ds[0], v) && AnswersFrom(p, ds[1..], e, k + 1, given + [TypeBy(p, ds[0])])
      case Spend => AnswersFrom(p, ds, e, k + 1, given)
  }

  ghost predicate AnswersValue(p: Program, d: Derivation, v: Expr)
    decreases d
  {
    match d
    case Open(w) => w == v
    case Closed(w, body) => w == v && Answers(p, body, v)
    case _ => false
  }

  ghost predicate Reached(p: Program, e: Expr, t: Type, deps: set<Expr>, d: Derivation) {
    Answers(p, d, e) && TypeBy(p, d) == t && Assumed(d) == deps
  }

  // Every permanent answer rests on no open assignment; a provisional one on exactly those it names.
  ghost predicate Sound(p: Program, m: Memo) {
    && (forall e :: e in m.permanent ==> exists d :: Reached(p, e, m.permanent[e], {}, d))
    && (forall e :: e in m.provisional ==>
         (m.provisional[e].deps != {} && exists d :: Reached(p, e, m.provisional[e].t, m.provisional[e].deps, d)))
  }

  // An answer depends only on assignments open now, and rests on exactly those it depends on; what is kept
  // stays sound.
  lemma {:induction false} AnswerRests(p: Program, e: Expr, m: Memo, open: set<Expr>, depth: nat) returns (d: Derivation)
    requires WellFormed(p) && Sound(p, m)
    ensures var r := TypeOf(p, e, m, open, depth);
      && Sound(p, r.memo) && r.deps <= open && (!r.gaveUp ==> Reached(p, e, r.t, r.deps, d))
      && (depth > 0 && (m.exhausted || r.gaveUp) ==> r.memo.exhausted)
    decreases p.values - open, p.height(e), 2
  {
    if e in m.permanent {
      d :| Reached(p, e, m.permanent[e], {}, d);
    } else if e in m.provisional && m.provisional[e].deps <= open {
      d :| Reached(p, e, m.provisional[e].t, m.provisional[e].deps, d);
    } else {
      var m1 := if depth == 0 then m.(steps := 0) else m;
      var r := AskFrom(p, e, 0, [], m1, open, depth + 1);
      var ds := AsksRest(p, e, 0, [], m1, open, depth + 1);
      if r.memo.exhausted {
        d := GivenUp(e);
        assert Reached(p, e, Unanswered, {}, d);
      } else {
        d := Node(e, ds);
        assert [] + Types(p, ds) == Types(p, ds);
        assert r.deps * open == r.deps;
        assert Reached(p, e, p.combine(e, r.answers), r.deps, d);
      }
    }
  }

  lemma {:induction false} AsksRest(p: Program, e: Expr, k: nat, given: seq<Type>, m: Memo, open: set<Expr>, depth: nat)
      returns (ds: seq<Derivation>)
    requires WellFormed(p) && Sound(p, m) && k <= p.asks(e) && depth > 0
    ensures var r := AskFrom(p, e, k, given, m, open, depth);
      && Sound(p, r.memo) && r.deps <= open && (m.exhausted ==> r.memo.exhausted)
      && (!r.memo.exhausted ==> AnswersFrom(p, ds, e, k, given) && given + Types(p, ds) == r.answers && AllAssumed(ds) == r.deps)
    decreases p.values - open, p.height(e), 1, p.asks(e) - k
  {
    hide Sound;
    if p.plan(e, k, given).None? {
      ds := [];
    } else {
      assert k < p.asks(e) && Grounded(p, e, p.plan(e, k, given).value);
      match p.plan(e, k, given).value {
        case Part(f) =>
          var r := TypeOf(p, f, m, open, depth);
          var d := AnswerRests(p, f, m, open, depth);
          var more := AsksRest(p, e, k + 1, given + [r.t], r.memo, open, depth);
          ds := [d] + more;
          FirstAnswer(p, d, more, given);
        case Value(v) =>
          var r := Assigned(p, v, m, open, depth);
          var d := AssignedRests(p, v, m, open, depth);
          var more := AsksRest(p, e, k + 1, given + [r.t], r.memo, open, depth);
          ds := [d] + more;
          FirstAnswer(p, d, more, given);
        case Spend =>
          SpendKeeps(p, m);
          ds := AsksRest(p, e, k + 1, given, Step(p, m), open, depth);
      }
    }
  }

  lemma FirstAnswer(p: Program, d: Derivation, ds: seq<Derivation>, given: seq<Type>)
    ensures ([d] + ds)[1..] == ds
    ensures given + Types(p, [d] + ds) == given + [TypeBy(p, d)] + Types(p, ds) && AllAssumed([d] + ds) == Assumed(d) + AllAssumed(ds)
  {
    assert ([d] + ds)[1..] == ds;
  }

  lemma SpendKeeps(p: Program, m: Memo)
    requires Sound(p, m)
    ensures Sound(p, Step(p, m)) && Sound(p, m.(steps := 0))
  {
  }

  lemma {:induction false} AssignedRests(p: Program, v: Expr, m: Memo, open: set<Expr>, depth: nat) returns (d: Derivation)
    requires WellFormed(p) && Sound(p, m) && v in p.values
    ensures var r := Assigned(p, v, m, open, depth);
      && Sound(p, r.memo) && r.deps <= open && (depth > 0 && (m.exhausted || r.gaveUp) ==> r.memo.exhausted)
      && (!r.gaveUp ==> AnswersValue(p, d, v) && TypeBy(p, d) == r.t && Assumed(d) == r.deps)
    decreases p.values - open, 0, 0
  {
    hide Sound;
    if v in open {
      d := Open(v);
    } else {
      assert v in p.values - open;
      var body := AnswerRests(p, v, m, open + {v}, depth);
      d := Closed(v, body);
    }
  }

  // What is asked from outside, with nothing open, one after another: queries, and flow walks with their steps
  // and the values they meet.
  function Session(p: Program, asked: seq<Action>, m: Memo): Memo
    requires WellFormed(p) && forall a :: a in asked && a.Value? ==> a.expr in p.values
    decreases |asked|
  {
    if asked == [] then m
    else
      assert asked[0] in asked && forall a :: a in asked[1..] ==> a in asked;
      Session(p, asked[1..], match asked[0]
        case Part(e) => TypeOf(p, e, m, {}, 0).memo
        case Value(v) => Assigned(p, v, m, {}, 0).memo
        case Spend => Step(p, m))
  }

  lemma {:induction false} SessionSound(p: Program, asked: seq<Action>, m: Memo)
    requires WellFormed(p) && Sound(p, m) && forall a :: a in asked && a.Value? ==> a.expr in p.values
    ensures Sound(p, Session(p, asked, m))
    decreases |asked|
  {
    hide Sound;
    if asked != [] {
      assert asked[0] in asked && forall a :: a in asked[1..] ==> a in asked;
      match asked[0] {
        case Part(e) =>
          var d := AnswerRests(p, e, m, {}, 0);
          SessionSound(p, asked[1..], TypeOf(p, e, m, {}, 0).memo);
        case Value(v) =>
          var d := AssignedRests(p, v, m, {}, 0);
          SessionSound(p, asked[1..], Assigned(p, v, m, {}, 0).memo);
        case Spend =>
          SpendKeeps(p, m);
          SessionSound(p, asked[1..], Step(p, m));
      }
    }
  }

  lemma OutermostKept(p: Program, e: Expr, m: Memo, depth: nat)
    requires WellFormed(p) && Sound(p, m)
    ensures var r := TypeOf(p, e, m, {}, depth);
      (!r.gaveUp || depth == 0) ==> e in r.memo.permanent && r.memo.permanent[e] == r.t && r.deps == {}
  {
    var d := AnswerRests(p, e, m, {}, depth);
  }
}
