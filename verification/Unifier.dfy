// Matching in place: the candidates collected so far, and the matches under way.
module Unifier {
  import opened Inference

  class Unifier {
    const own: set<nat>                // the call's own type parameters
    var cands: Candidates
    var unifying: set<(Type, Type)>    // a match of the same two types inside itself adds nothing

    constructor (parameters: set<nat>)
      ensures own == parameters && cands == map[] && unifying == {}
    {
      own, cands, unifying := parameters, map[], {};
    }

    // Types have finite depth, so what is under way never comes up again inside itself.
    ghost predicate Around(p: Type)
      reads this
    {
      forall k :: k in unifying ==> p < k.0
    }

    method Unify(p: Type, a: Type)
      requires Around(p)
      modifies this
      ensures cands == Match(p, a, own, old(cands)) && unifying == old(unifying)
      decreases p, 1
    {
      var key := (p, a);
      if key in unifying { return; }
      ghost var under := unifying;
      unifying := unifying + {key};
      UnifyParts(p, a);
      unifying := unifying - {key};
      assert unifying == under;
    }

    method UnifyParts(p: Type, a: Type)
      requires forall k :: k in unifying ==> p < k.0 || k.0 == p
      modifies this
      ensures cands == Match(p, a, own, old(cands)) && unifying == old(unifying)
      decreases p, 0
    {
      match p
      case Atom(_, _) =>
      case Param(x) =>
        if x in own { cands := cands[x := (if x in cands then cands[x] else []) + [a]]; }
      case Array(e) =>
        if a.Array? {
          Unify(e, a.elem);
        } else if a.Tuple? {
          ghost var whole := MatchEach(e, a.elems, own, cands);
          for i := 0 to |a.elems|
            invariant unifying == old(unifying) && MatchEach(e, a.elems[i..], own, cands) == whole
          {
            assert a.elems[i..][1..] == a.elems[i + 1..];
            Unify(e, a.elems[i]);
          }
        }
      case Tuple(es) => if a.Tuple? && |a.elems| == |es| { UnifyPairs(p, es, a.elems); }
      case Reference(d, args) => if a.Reference? && a.decl == d && |a.args| == |args| { UnifyPairs(p, args, a.args); }
      case Function(ps, r) =>
        if a.Function? {
          UnifyPairs(p, ps, a.params);
          Unify(r, a.result);
        }
      case Object(names, ts) => if a.Object? { UnifyProps(p, a); }
    }

    method UnifyPairs(whole: Type, ps: seq<Type>, ts: seq<Type>)
      requires (forall k :: k in unifying ==> whole < k.0 || k.0 == whole) && forall i :: 0 <= i < |ps| ==> ps[i] < whole
      modifies this
      ensures cands == MatchPairs(ps, ts, own, old(cands)) && unifying == old(unifying)
      decreases ps, 0
    {
      ghost var all := MatchPairs(ps, ts, own, cands);
      for i := 0 to |ps|
        invariant unifying == old(unifying)
        invariant if i <= |ts| then MatchPairs(ps[i..], ts[i..], own, cands) == all else cands == all
      {
        if i >= |ts| { continue; }
        assert ps[i..][1..] == ps[i + 1..] && ts[i..][1..] == ts[i + 1..];
        Unify(ps[i], ts[i]);
      }
    }

    method UnifyProps(p: Type, a: Type)
      requires p.Object? && a.Object? && forall k :: k in unifying ==> p < k.0 || k.0 == p
      modifies this
      ensures cands == MatchProps(p.names, p.types, a, own, old(cands)) && unifying == old(unifying)
      decreases p.types, 0
    {
      ghost var all := MatchProps(p.names, p.types, a, own, cands);
      for i := 0 to |p.types|
        invariant unifying == old(unifying)
        invariant if i <= |p.names| then MatchProps(p.names[i..], p.types[i..], a, own, cands) == all else cands == all
      {
        if i >= |p.names| { continue; }
        assert p.types[i..][1..] == p.types[i + 1..] && p.names[i..][1..] == p.names[i + 1..];
        var at := Position(a.names, p.names[i]);
        if at < |a.names| && at < |a.types| { Unify(p.types[i], a.types[at]); }
      }
    }

    // A call's arguments against its parameters, and what that infers.
    method Infer(ps: seq<Type>, args: seq<Type>, keep: set<nat>, unknown: Type, join: seq<Type> -> Type) returns (m: Substitution)
      requires cands == map[] && unifying == {}
      modifies this
      ensures m == Inferred(MatchPairs(ps, args, own, map[]), own, keep, unknown, join)
    {
      ghost var all := MatchPairs(ps, args, own, cands);
      for i := 0 to |ps|
        invariant unifying == {}
        invariant if i <= |args| then MatchPairs(ps[i..], args[i..], own, cands) == all else cands == all
      {
        if i >= |args| { continue; }
        assert ps[i..][1..] == ps[i + 1..] && args[i..][1..] == args[i + 1..];
        Unify(ps[i], args[i]);
      }
      m := Inferred(cands, own, keep, unknown, join);
    }
  }
}
