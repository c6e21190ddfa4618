// What a generic call's type arguments are taken to be: matching each parameter's type against its argument's
// undoes the substitution that gave the argument its type.
module Inference {

  // Types without a union in them, but for whole ones: an Atom is a primitive, a literal, or a union of
  // such, and the type it widens to.
  datatype Type =
    | Atom(id: nat, widened: nat)
    | Param(id: nat)
    | Array(elem: Type)
    | Tuple(elems: seq<Type>)
    | Reference(decl: nat, args: seq<Type>)
    | Function(params: seq<Type>, result: Type)
    | Object(names: seq<string>, types: seq<Type>)

  type Substitution = map<nat, Type>

  // ----- substitution -----

  function Instantiate(t: Type, m: Substitution): Type
    decreases t, 1
  {
    match t
    case Atom(_, _) => t
    case Param(p) => if p in m then m[p] else t
    case Array(e) => Array(Instantiate(e, m))
    case Tuple(es) => Tuple(InstantiateAll(es, m))
    case Reference(d, args) => Reference(d, InstantiateAll(args, m))
    case Function(ps, r) => Function(InstantiateAll(ps, m), Instantiate(r, m))
    case Object(names, ts) => Object(names, InstantiateAll(ts, m))
  }

  function InstantiateAll(ts: seq<Type>, m: Substitution): (r: seq<Type>)
    ensures |r| == |ts| && forall i :: 0 <= i < |ts| ==> r[i] == Instantiate(ts[i], m)
    decreases ts, 0
  {
    if ts == [] then [] else [Instantiate(ts[0], m)] + InstantiateAll(ts[1..], m)
  }

  // The type parameters in a type.
  function Occurring(t: Type): set<nat>
    decreases t, 1
  {
    match t
    case Atom(_, _) => {}
    case Param(p) => {p}
    case Array(e) => Occurring(e)
    case Tuple(es) => OccurringIn(es)
    case Reference(_, args) => OccurringIn(args)
    case Function(ps, r) => OccurringIn(ps) + Occurring(r)
    case Object(_, ts) => OccurringIn(ts)
  }

  function OccurringIn(ts: seq<Type>): (r: set<nat>)
    ensures forall i :: 0 <= i < |ts| ==> Occurring(ts[i]) <= r
    decreases ts, 0
  {
    if ts == [] then {} else Occurring(ts[0]) + OccurringIn(ts[1..])
  }

  // A property list names each property once.
  predicate WellFormed(t: Type)
    decreases t, 1
  {
    match t
    case Array(e) => WellFormed(e)
    case Tuple(es) => AllWellFormed(es)
    case Reference(_, args) => AllWellFormed(args)
    case Function(ps, r) => AllWellFormed(ps) && WellFormed(r)
    case Object(names, ts) =>
      |names| == |ts| && (forall i, j :: 0 <= i < j < |names| ==> names[i] != names[j]) && AllWellFormed(ts)
    case _ => true
  }

  predicate AllWellFormed(ts: seq<Type>)
    decreases ts, 0
  {
    ts == [] || (WellFormed(ts[0]) && AllWellFormed(ts[1..]))
  }

  // Two substitutions give a type the same instance exactly when they agree on the parameters in it.
  lemma {:induction false} InstanceDetermines(t: Type, m: Substitution, n: Substitution)
    ensures Instantiate(t, m) == Instantiate(t, n) <==>
      forall p :: p in Occurring(t) ==> Instantiate(Param(p), m) == Instantiate(Param(p), n)
    decreases t, 1
  {
    match t
    case Atom(_, _) =>
    case Param(_) =>
    case Array(e) => InstanceDetermines(e, m, n);
    case Tuple(es) => InstancesDetermine(es, m, n);
    case Reference(_, args) => InstancesDetermine(args, m, n);
    case Function(ps, r) =>
      InstancesDetermine(ps, m, n);
      InstanceDetermines(r, m, n);
    case Object(_, ts) => InstancesDetermine(ts, m, n);
  }

  lemma {:induction false} InstancesDetermine(ts: seq<Type>, m: Substitution, n: Substitution)
    ensures InstantiateAll(ts, m) == InstantiateAll(ts, n) <==>
      forall p :: p in OccurringIn(ts) ==> Instantiate(Param(p), m) == Instantiate(Param(p), n)
    decreases ts, 0
  {
    if ts != [] {
      InstanceDetermines(ts[0], m, n);
      InstancesDetermine(ts[1..], m, n);
      var a, b := InstantiateAll(ts, m), InstantiateAll(ts, n);
      assert a == [Instantiate(ts[0], m)] + InstantiateAll(ts[1..], m);
      assert b == [Instantiate(ts[0], n)] + InstantiateAll(ts[1..], n);
      assert a[1..] == InstantiateAll(ts[1..], m) && b[1..] == InstantiateAll(ts[1..], n);
    }
  }

  // ----- matching -----

  type Candidates = map<nat, seq<Type>>

  function Of(c: Candidates, p: nat): seq<Type> {
    if p in c then c[p] else []
  }

  function Position(names: seq<string>, x: string): nat
    decreases |names|
  {
    if names == [] || names[0] == x then 0 else 1 + Position(names[1..], x)
  }

  // What matching pattern p against type a adds to the candidates for the parameters own.
  function Match(p: Type, a: Type, own: set<nat>, c: Candidates): Candidates
    decreases p, 1
  {
    match p
    case Atom(_, _) => c
    case Param(x) => if x in own then c[x := Of(c, x) + [a]] else c
    case Array(e) =>
      if a.Array? then Match(e, a.elem, own, c)
      else if a.Tuple? then MatchEach(e, a.elems, own, c)
      else c
    case Tuple(es) => if a.Tuple? && |a.elems| == |es| then MatchPairs(es, a.elems, own, c) else c
    case Reference(d, args) =>
      if a.Reference? && a.decl == d && |a.args| == |args| then MatchPairs(args, a.args, own, c) else c
    case Function(ps, r) => if a.Function? then Match(r, a.result, own, MatchPairs(ps, a.params, own, c)) else c
    case Object(names, ts) => if a.Object? then MatchProps(names, ts, a, own, c) else c
  }

  // A pattern against each of several types.
  function MatchEach(p: Type, ts: seq<Type>, own: set<nat>, c: Candidates): Candidates
    decreases p, 2, |ts|
  {
    if ts == [] then c else MatchEach(p, ts[1..], own, Match(p, ts[0], own, c))
  }

  // Pairwise, as far as there are types.
  function MatchPairs(ps: seq<Type>, ts: seq<Type>, own: set<nat>, c: Candidates): Candidates
    decreases ps, 0
  {
    if ps == [] || ts == [] then c else MatchPairs(ps[1..], ts[1..], own, Match(ps[0], ts[0], own, c))
  }

  // By name.
  function MatchProps(names: seq<string>, ps: seq<Type>, a: Type, own: set<nat>, c: Candidates): Candidates
    requires a.Object?
    decreases ps, 0
  {
    if ps == [] || names == [] then c
    else
      var i := Position(a.names, names[0]);
      MatchProps(names[1..], ps[1..], a, own, if i < |a.names| && i < |a.types| then Match(ps[0], a.types[i], own, c) else c)
  }

  // ----- what matching an instance gives -----

  // How often a parameter occurs.
  function Count(q: nat, t: Type): (n: nat)
    ensures n > 0 <==> q in Occurring(t)
    decreases t, 1
  {
    match t
    case Atom(_, _) => 0
    case Param(p) => if p == q then 1 else 0
    case Array(e) => Count(q, e)
    case Tuple(es) => CountIn(q, es)
    case Reference(_, args) => CountIn(q, args)
    case Function(ps, r) => CountIn(q, ps) + Count(q, r)
    case Object(_, ts) => CountIn(q, ts)
  }

  function CountIn(q: nat, ts: seq<Type>): (n: nat)
    ensures n > 0 <==> q in OccurringIn(ts)
    decreases ts, 0
  {
    if ts == [] then 0 else Count(q, ts[0]) + CountIn(q, ts[1..])
  }

  function Repeat(t: Type, n: nat): (r: seq<Type>)
    ensures |r| == n && forall i :: 0 <= i < n ==> r[i] == t
  {
    if n == 0 then [] else [t] + Repeat(t, n - 1)
  }

  lemma RepeatOn(t: Type, m: nat, n: nat)
    ensures Repeat(t, m) + Repeat(t, n) == Repeat(t, m + n)
  {
  }

  // q has gained n candidates, all of them what s gives it.
  predicate Gained(c: Candidates, r: Candidates, s: Substitution, q: nat, n: nat) {
    Of(r, q) == Of(c, q) + (if q in s then Repeat(s[q], n) else [])
  }

  lemma GainedOn(c: Candidates, d: Candidates, r: Candidates, s: Substitution, q: nat, m: nat, n: nat)
    requires Gained(c, d, s, q, m) && Gained(d, r, s, q, n)
    ensures Gained(c, r, s, q, m + n)
  {
    if q in s { RepeatOn(s[q], m, n); }
  }

  // Matching a pattern against its instance gives each parameter its own type once for every time it occurs.
  lemma {:induction false} MatchInstance(p: Type, s: Substitution, c: Candidates, q: nat)
    requires WellFormed(p)
    ensures Gained(c, Match(p, Instantiate(p, s), s.Keys, c), s, q, Count(q, p))
    decreases p, 1
  {
    match p
    case Atom(_, _) =>
    case Param(x) => if x in s && x == q { assert Repeat(s[q], 1) == [s[q]]; }
    case Array(e) => MatchInstance(e, s, c, q);
    case Tuple(es) => MatchInstances(es, s, c, q);
    case Reference(_, args) => MatchInstances(args, s, c, q);
    case Function(ps, r) =>
      var d := MatchPairs(ps, InstantiateAll(ps, s), s.Keys, c);
      MatchInstances(ps, s, c, q);
      MatchInstance(r, s, d, q);
      GainedOn(c, d, Match(r, Instantiate(r, s), s.Keys, d), s, q, CountIn(q, ps), Count(q, r));
    case Object(names, ts) => MatchProperties(p, 0, s, c, q);
  }

  lemma {:induction false} MatchInstances(ps: seq<Type>, s: Substitution, c: Candidates, q: nat)
    requires AllWellFormed(ps)
    ensures Gained(c, MatchPairs(ps, InstantiateAll(ps, s), s.Keys, c), s, q, CountIn(q, ps))
    decreases ps, 0
  {
    if ps != [] {
      var d := Match(ps[0], Instantiate(ps[0], s), s.Keys, c);
      MatchInstance(ps[0], s, c, q);
      MatchInstances(ps[1..], s, d, q);
      var ts := InstantiateAll(ps, s);
      assert ts == [Instantiate(ps[0], s)] + InstantiateAll(ps[1..], s);
      assert ts[1..] == InstantiateAll(ps[1..], s);
      GainedOn(c, d, MatchPairs(ps[1..], ts[1..], s.Keys, d), s, q, Count(q, ps[0]), CountIn(q, ps[1..]));
    }
  }

  lemma {:induction false} AllAt(ts: seq<Type>, k: nat)
    requires AllWellFormed(ts) && k < |ts|
    ensures WellFormed(ts[k])
    decreases ts
  {
    if k > 0 { AllAt(ts[1..], k - 1); }
  }

  lemma {:induction false} PositionOf(names: seq<string>, k: nat)
    requires k < |names| && forall i, j :: 0 <= i < j < |names| ==> names[i] != names[j]
    ensures Position(names, names[k]) == k
    decreases |names|
  {
    if k > 0 { PositionOf(names[1..], k - 1); }
  }

  // The properties from the k-th on.
  lemma {:induction false} MatchProperties(p: Type, k: nat, s: Substitution, c: Candidates, q: nat)
    requires p.Object? && WellFormed(p) && k <= |p.types|
    ensures Gained(c, MatchProps(p.names[k..], p.types[k..], Instantiate(p, s), s.Keys, c), s, q, CountIn(q, p.types[k..]))
    decreases p, 0, |p.types| - k
  {
    if k < |p.types| {
      var a, names, ts := Instantiate(p, s), p.names[k..], p.types[k..];
      assert names[0] == p.names[k] && names[1..] == p.names[k + 1..];
      assert ts[0] == p.types[k] && ts[1..] == p.types[k + 1..];
      PositionOf(p.names, k);
      AllAt(p.types, k);
      var d := Match(ts[0], Instantiate(ts[0], s), s.Keys, c);
      MatchInstance(ts[0], s, c, q);
      MatchProperties(p, k + 1, s, d, q);
      GainedOn(c, d, MatchProps(names[1..], ts[1..], a, s.Keys, d), s, q, Count(q, ts[0]), CountIn(q, ts[1..]));
    } else {
      assert p.types[k..] == [];
    }
  }

  // ----- what is inferred -----

  function Widen(t: Type): Type {
    if t.Atom? then Atom(t.widened, t.widened) else t
  }

  // The type a parameter's candidates give it: the one they all are, widened unless the parameter keeps
  // its literals, or else what join makes of them.
  function Chosen(cs: seq<Type>, keep: bool, join: seq<Type> -> Type): Type
    requires cs != []
  {
    if !AllSame(cs) then join(cs) else if keep then cs[0] else Widen(cs[0])
  }

  predicate AllSame(cs: seq<Type>) {
    forall i :: 0 <= i < |cs| ==> cs[i] == cs[0]
  }

  // The inferred types: of parameters without a candidate, unknown.
  function Inferred(c: Candidates, own: set<nat>, keep: set<nat>, unknown: Type, join: seq<Type> -> Type): Substitution {
    map q | q in own :: if Of(c, q) == [] then unknown else Chosen(Of(c, q), q in keep, join)
  }

  // Inferring from parameters' types and the types they have under s: each parameter in them has
  // candidates, all of them what s gives it.
  lemma CandidatesSame(ps: seq<Type>, s: Substitution, q: nat)
    requires AllWellFormed(ps) && q in s
    ensures var cs := Of(MatchPairs(ps, InstantiateAll(ps, s), s.Keys, map[]), q);
      cs == Repeat(s[q], CountIn(q, ps)) && AllSame(cs)
  {
    MatchInstances(ps, s, map[], q);
    assert Of(map[], q) == [];
    assert [] + Repeat(s[q], CountIn(q, ps)) == Repeat(s[q], CountIn(q, ps));
  }

  // Instantiating the parameters' types with what is inferred gives the arguments' types back exactly when
  // every parameter in them keeps its literals or stands for a type without any.
  lemma InferenceInverts(ps: seq<Type>, s: Substitution, keep: set<nat>, unknown: Type, join: seq<Type> -> Type)
    requires AllWellFormed(ps)
    ensures
      var args := InstantiateAll(ps, s);
      var m := Inferred(MatchPairs(ps, args, s.Keys, map[]), s.Keys, keep, unknown, join);
      InstantiateAll(ps, m) == args <==> forall q :: q in s && q in OccurringIn(ps) ==> q in keep || Widen(s[q]) == s[q]
  {
    var args := InstantiateAll(ps, s);
    var c := MatchPairs(ps, args, s.Keys, map[]);
    var m := Inferred(c, s.Keys, keep, unknown, join);
    InstancesDetermine(ps, m, s);
    forall q | q in s && q in OccurringIn(ps) ensures m[q] == if q in keep then s[q] else Widen(s[q]) {
      CandidatesSame(ps, s, q);
    }
    forall q | q in OccurringIn(ps) ensures
      Instantiate(Param(q), m) == Instantiate(Param(q), s) <==> (q in s ==> q in keep || Widen(s[q]) == s[q])
    {
    }
  }
}
