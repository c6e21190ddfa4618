// The binder in the declaring pass, and the check of what vars hoist through once every name is known.
module Declarer {
  import opened Declarations

  class Declarer {
    var tables: seq<Table>
    var chain: seq<nat>           // the scopes from the function's to the current one
    var conflicts: seq<Conflict>
    var hoists: seq<Hoist>

    function Pass(): State
      reads this
    {
      State(tables, chain, conflicts, hoists)
    }

    constructor ()
      ensures Pass() == Started
    {
      tables, chain, conflicts, hoists := [map[]], [0], [], [];
    }

    method DeclareName(s: nat, x: string, k: Kind)
      requires Pass().Valid() && s < |tables|
      modifies this`tables, this`conflicts
      ensures Pass() == Declare(old(Pass()), s, x, k)
    {
      var known := if x in tables[s] then tables[s][x] else [];
      for i := 0 to |known|
        invariant Pass() == old(Pass()) && forall j :: 0 <= j < i ==> !Clashes(known[j], k)
      {
        if Clashes(known[i], k) {
          conflicts := conflicts + [Conflict(s, x)];
          break;
        }
      }
      tables := tables[s := tables[s][x := known + [k]]];
    }

    method DeclareHoisted(x: string)
      requires Pass().Valid()
      modifies this`tables, this`conflicts, this`hoists
      ensures Pass() == DeclareVar(old(Pass()), x)
    {
      DeclareName(chain[0], x, VarLike);
      if |chain| > 1 { hoists := hoists + [Hoist(x, chain[1..])]; }
    }

    method DeclareParams(s: nat, xs: seq<string>)
      requires Pass().Valid() && s < |tables|
      modifies this`tables, this`conflicts
      ensures Pass() == DeclareAll(old(Pass()), s, xs)
    {
      ghost var whole := DeclareAll(Pass(), s, xs);
      for i := 0 to |xs|
        invariant Pass().Valid() && s < |tables| && chain == old(chain) && hoists == old(hoists)
        invariant DeclareAll(Pass(), s, xs[i..]) == whole
      {
        assert xs[i..][0] == xs[i] && xs[i..][1..] == xs[i + 1..];
        DeclareName(s, xs[i], VarLike);
      }
    }

    method DeclareCode(c: Code)
      requires Pass().Valid()
      modifies this
      ensures Pass() == Walk(c, old(Pass()))
      decreases c
    {
      hide Declare;
      match c
      case Nothing =>
      case Both(a, b) =>
        DeclareCode(a);
        DeclareCode(b);
      case Var(x) => DeclareHoisted(x);
      case Let(x) => DeclareName(chain[|chain| - 1], x, Lexical);
      case Block(body) => DeclareScope(body, chain, [], c);
      case Catch(x, body) => DeclareScope(body, chain, [x], c);
      case Function(params, body) => DeclareScope(body, [], params, c);
    }

    // A scope of its own, inside those of outer, holding params like vars.
    method DeclareScope(body: Code, outer: seq<nat>, params: seq<string>, whole: Code)
      requires Pass().Valid() && body < whole && forall i :: 0 <= i < |outer| ==> outer[i] < |tables|
      modifies this
      ensures Pass() == Walk(body, DeclareAll(Enter(old(Pass()), outer), |old(tables)|, params)).(chain := old(chain))
      decreases whole, 0
    {
      var saved, s := chain, |tables|;
      tables, chain := tables + [map[]], outer + [s];
      DeclareParams(s, params);
      DeclareCode(body);
      chain := saved;
    }

    // A var is stopped by the innermost scope on its way up that has a lexical declaration of its name.
    method CheckHoists()
      requires Pass().Valid()
      modifies this`conflicts
      ensures conflicts == [] <==> NoConflicts(old(Pass()))
    {
      ghost var st := Pass();
      for j := 0 to |hoists|
        invariant tables == st.tables && hoists == st.hoists
        invariant conflicts == [] <==> st.conflicts == [] && forall k :: 0 <= k < j ==> !Blocked(st, st.hoists[k])
      {
        var h := hoists[j];
        var i := |h.through|;
        var blocked := false;
        while i > 0 && !blocked
          invariant 0 <= i <= |h.through|
          invariant blocked ==> i < |h.through| && h.through[i] < |tables| && Lexical in Declared(tables[h.through[i]], h.name)
          invariant !blocked ==> forall k :: i <= k < |h.through| && h.through[k] < |tables| ==> Lexical !in Declared(tables[h.through[k]], h.name)
        {
          i := i - 1;
          if h.through[i] < |tables| && h.name in tables[h.through[i]] && Lexical in tables[h.through[i]][h.name] { blocked := true; }
        }
        assert blocked <==> Blocked(st, st.hoists[j]);
        if blocked { conflicts := conflicts + [Conflict(h.through[i], h.name)]; }
      }
    }
  }

  // A program's declaration conflicts: none exactly when it has no early error of its declarations.
  method Conflicts(program: Code) returns (out: seq<Conflict>)
    ensures out == [] <==> NoEarlyErrors(Function([], program))
  {
    var d := new Declarer();
    d.DeclareCode(program);
    d.CheckHoists();
    out := d.conflicts;
    ConflictsExact(program);
  }
}
