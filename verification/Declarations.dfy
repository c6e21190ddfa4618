// The declaring pass: every name into the table of the scope that owns it, a var into its function's,
// and which of the declarations conflict.
module Declarations {

  // A program as far as it declares names. A Block is a block, a loop head with its body, or a switch body.
  datatype Code =
    | Nothing
    | Both(first: Code, rest: Code)
    | Var(name: string)
    | Let(name: string)                    // let, const, class
    | Block(body: Code)
    | Catch(param: string, body: Code)     // the clause's variable and its body share a scope
    | Function(params: seq<string>, body: Code)

  // ----- the early errors -----

  // The names declared lexically in a statement list itself.
  function LexicalNames(c: Code): seq<string> {
    match c
    case Both(a, b) => LexicalNames(a) + LexicalNames(b)
    case Let(x) => [x]
    case _ => []
  }

  // The names of its vars, those in nested statements too.
  function VarNames(c: Code): set<string> {
    match c
    case Both(a, b) => VarNames(a) + VarNames(b)
    case Var(x) => {x}
    case Block(body) => VarNames(body)
    case Catch(_, body) => VarNames(body)
    case _ => {}
  }

  predicate Unique(names: seq<string>) {
    forall i, j :: 0 <= i < j < |names| ==> names[i] != names[j]
  }

  // A scope over a statement list: no name is declared lexically twice, nor both lexically and otherwise.
  predicate ScopeFine(others: set<string>, body: Code) {
    Unique(LexicalNames(body)) && forall x :: x in LexicalNames(body) ==> x !in VarNames(body) && x !in others
  }

  // Sections 14.2.1 (blocks), 14.7.4.1 (for), 14.15.1 (try) and 15.2.1 (functions) of ECMA-262, with Annex B.3.4:
  // section 14.15.1 alone would not allow a var in the block of catch (e) to be named e; the annex does, where the
  // catch parameter is a name.
  predicate NoEarlyErrors(c: Code) {
    match c
    case Both(a, b) => NoEarlyErrors(a) && NoEarlyErrors(b)
    case Block(body) => NoEarlyErrors(body) && ScopeFine({}, body)
    case Catch(x, body) => NoEarlyErrors(body) && ScopeFine({x}, body)
    case Function(params, body) => NoEarlyErrors(body) && ScopeFine((set x | x in params), body)
    case _ => true
  }

  // ----- the pass -----

  datatype Kind = VarLike | Lexical

  type Table = map<string, seq<Kind>>

  // A var, with the scopes between its own and its function's.
  datatype Hoist = Hoist(name: string, through: seq<nat>)

  datatype Conflict = Conflict(scope: nat, name: string)

  // The scopes' tables, the scopes open from the function's inwards, and what the pass has noted.
  datatype State = State(tables: seq<Table>, chain: seq<nat>, conflicts: seq<Conflict>, hoists: seq<Hoist>) {
    predicate Valid() {
      chain != [] && forall i :: 0 <= i < |chain| ==> chain[i] < |tables|
    }
  }

  predicate Clashes(a: Kind, b: Kind) {
    a == Lexical || b == Lexical
  }

  function Declared(t: Table, x: string): seq<Kind> {
    if x in t then t[x] else []
  }

  function Declare(st: State, s: nat, x: string, k: Kind): (r: State)
    requires st.Valid() && s < |st.tables|
    ensures r.Valid()
  {
    var ds := Declared(st.tables[s], x);
    var conflicts := if exists i :: 0 <= i < |ds| && Clashes(ds[i], k) then st.conflicts + [Conflict(s, x)] else st.conflicts;
    st.(tables := st.tables[s := st.tables[s][x := ds + [k]]], conflicts := conflicts)
  }

  function DeclareVar(st: State, x: string): (r: State)
    requires st.Valid()
    ensures r.Valid() && |r.tables| == |st.tables| && r.chain == st.chain
  {
    var r := Declare(st, st.chain[0], x, VarLike);
    if |st.chain| == 1 then r else r.(hoists := r.hoists + [Hoist(x, st.chain[1..])])
  }

  function Enter(st: State, chain: seq<nat>): (r: State)
    requires forall i :: 0 <= i < |chain| ==> chain[i] < |st.tables|
    ensures r.Valid()
  {
    st.(tables := st.tables + [map[]], chain := chain + [|st.tables|])
  }

  function DeclareAll(st: State, s: nat, xs: seq<string>): (r: State)
    requires st.Valid() && s < |st.tables|
    ensures r.Valid() && |r.tables| == |st.tables| && r.chain == st.chain
    decreases |xs|
  {
    if xs == [] then st else DeclareAll(Declare(st, s, xs[0], VarLike), s, xs[1..])
  }

  function Walk(c: Code, st: State): (r: State)
    requires st.Valid()
    ensures r.Valid() && r.chain == st.chain && |st.tables| <= |r.tables|
    decreases c
  {
    match c
    case Nothing => st
    case Both(a, b) => Walk(b, Walk(a, st))
    case Var(x) => DeclareVar(st, x)
    case Let(x) => Declare(st, st.chain[|st.chain| - 1], x, Lexical)
    case Block(body) => Walk(body, Enter(st, st.chain)).(chain := st.chain)
    case Catch(x, body) => Walk(body, Declare(Enter(st, st.chain), |st.tables|, x, VarLike)).(chain := st.chain)
    case Function(params, body) => Walk(body, DeclareAll(Enter(st, []), |st.tables|, params)).(chain := st.chain)
  }

  // Whether some scope declares the hoisted name lexically.
  predicate Blocked(st: State, h: Hoist) {
    exists i :: 0 <= i < |h.through| && h.through[i] < |st.tables| && Lexical in Declared(st.tables[h.through[i]], h.name)
  }

  predicate NoConflicts(st: State) {
    st.conflicts == [] && forall i :: 0 <= i < |st.hoists| ==> !Blocked(st, st.hoists[i])
  }

  const Started: State := State([map[]], [0], [], [])

  // ----- what the tables hold -----

  function VarCount(x: string, c: Code): (n: nat)
    ensures n > 0 <==> x in VarNames(c)
  {
    match c
    case Both(a, b) => VarCount(x, a) + VarCount(x, b)
    case Var(y) => if x == y then 1 else 0
    case Block(body) => VarCount(x, body)
    case Catch(_, body) => VarCount(x, body)
    case _ => 0
  }

  // A table no two declarations of which clash.
  predicate Clean(t: Table) {
    forall x :: x in t && Lexical in t[x] ==> |t[x]| == 1
  }

  // The conflicts noted so far are those in the tables.
  predicate Noted(st: State) {
    st.conflicts == [] <==> forall i :: 0 <= i < |st.tables| ==> Clean(st.tables[i])
  }

  lemma DeclareNotes(st: State, s: nat, x: string, k: Kind)
    requires st.Valid() && s < |st.tables| && Noted(st)
    ensures Noted(Declare(st, s, x, k))
  {
    var r := Declare(st, s, x, k);
    var ds := Declared(st.tables[s], x);
    assert r.tables[s][x] == ds + [k];
    if r.conflicts == [] {
      assert Clean(st.tables[s]);
      forall i | 0 <= i < |r.tables| ensures Clean(r.tables[i]) {
        assert Clean(st.tables[i]);
        if i == s && ds != [] { assert !Clashes(ds[0], k); }
      }
    } else if st.conflicts == [] {
      var i :| 0 <= i < |ds| && Clashes(ds[i], k);
      assert (ds + [k])[i] == ds[i] && (ds + [k])[|ds|] == k;
      assert !Clean(r.tables[s]);
    } else {
      var i :| 0 <= i < |st.tables| && !Clean(st.tables[i]);
      var y :| y in st.tables[i] && Lexical in st.tables[i][y] && |st.tables[i][y]| != 1;
      assert Lexical in r.tables[i][y] && |r.tables[i][y]| != 1;
      assert !Clean(r.tables[i]);
    }
  }

  lemma {:induction false} DeclareAllNotes(st: State, s: nat, xs: seq<string>)
    requires st.Valid() && s < |st.tables| && Noted(st)
    ensures Noted(DeclareAll(st, s, xs))
    decreases |xs|
  {
    if xs != [] {
      DeclareNotes(st, s, xs[0], VarLike);
      DeclareAllNotes(Declare(st, s, xs[0], VarLike), s, xs[1..]);
    }
  }

  lemma EnterNotes(st: State, chain: seq<nat>)
    requires Noted(st) && forall i :: 0 <= i < |chain| ==> chain[i] < |st.tables|
    ensures Noted(Enter(st, chain))
  {
    var r := Enter(st, chain);
    assert Clean(r.tables[|st.tables|]);
    assert forall i :: 0 <= i < |st.tables| ==> r.tables[i] == st.tables[i];
  }

  lemma {:induction false} WalkNotes(c: Code, st: State)
    requires st.Valid() && Noted(st)
    ensures Noted(Walk(c, st))
    decreases c
  {
    hide Noted;
    match c
    case Nothing =>
    case Both(a, b) =>
      WalkNotes(a, st);
      WalkNotes(b, Walk(a, st));
    case Var(x) =>
      DeclareNotes(st, st.chain[0], x, VarLike);
      SameNotes(Declare(st, st.chain[0], x, VarLike), DeclareVar(st, x));
    case Let(x) => DeclareNotes(st, st.chain[|st.chain| - 1], x, Lexical);
    case Block(body) =>
      EnterNotes(st, st.chain);
      WalkNotes(body, Enter(st, st.chain));
      SameNotes(Walk(body, Enter(st, st.chain)), Walk(c, st));
    case Catch(x, body) =>
      EnterNotes(st, st.chain);
      DeclareNotes(Enter(st, st.chain), |st.tables|, x, VarLike);
      var st1 := Declare(Enter(st, st.chain), |st.tables|, x, VarLike);
      WalkNotes(body, st1);
      SameNotes(Walk(body, st1), Walk(c, st));
    case Function(params, body) =>
      EnterNotes(st, []);
      DeclareAllNotes(Enter(st, []), |st.tables|, params);
      var st1 := DeclareAll(Enter(st, []), |st.tables|, params);
      WalkNotes(body, st1);
      SameNotes(Walk(body, st1), Walk(c, st));
  }

  lemma SameNotes(st: State, r: State)
    requires Noted(st) && r.conflicts == st.conflicts && r.tables == st.tables
    ensures Noted(r)
  {
  }

  // Scope i of r holds what it held in st, and n more declarations of x, a lexical one among them iff lex.
  predicate Gains(st: State, r: State, i: nat, x: string, n: nat, lex: bool) {
    && i < |st.tables| && i < |r.tables|
    && |Declared(r.tables[i], x)| == |Declared(st.tables[i], x)| + n
    && (Lexical in Declared(r.tables[i], x) <==> Lexical in Declared(st.tables[i], x) || lex)
  }

  function Innermost(st: State): nat
    requires st.Valid()
  {
    st.chain[|st.chain| - 1]
  }

  function Gain(chain: seq<nat>, c: Code, i: nat, x: string): nat
    requires chain != []
  {
    (if i == chain[|chain| - 1] then multiset(LexicalNames(c))[x] else 0) + (if i == chain[0] then VarCount(x, c) else 0)
  }

  lemma DeclareGains(st: State, s: nat, y: string, k: Kind, i: nat, x: string)
    requires st.Valid() && s < |st.tables| && i < |st.tables|
    ensures var r := Declare(st, s, y, k);
      |r.tables| == |st.tables| && r.chain == st.chain
      && Gains(st, r, i, x, if i == s && x == y then 1 else 0, i == s && x == y && k == Lexical)
  {
  }

  lemma BothGain(a: Code, b: Code, st: State, i: nat, x: string)
    requires st.Valid()
    ensures Gain(st.chain, Both(a, b), i, x) == Gain(st.chain, a, i, x) + Gain(st.chain, b, i, x)
  {
  }

  lemma LeafGain(c: Code, st: State, i: nat, x: string)
    requires st.Valid()
    ensures c.Nothing? ==> Gain(st.chain, c, i, x) == 0
    ensures c.Var? ==> Gain(st.chain, c, i, x) == (if i == st.chain[0] && x == c.name then 1 else 0)
    ensures c.Let? ==> Gain(st.chain, c, i, x) == (if i == Innermost(st) && x == c.name then 1 else 0)
  {
  }

  // What is in a new scope gives the scopes around it nothing but its vars, and only in the same function.
  lemma NestedGain(body: Code, c: Code, st: State, st1: State, i: nat, x: string)
    requires st.Valid() && st1.Valid() && i < |st.tables| && Innermost(st1) == |st.tables|
    requires LexicalNames(c) == []
    requires if st1.chain[0] == st.chain[0] then VarCount(x, c) == VarCount(x, body) else st1.chain[0] == |st.tables| && VarCount(x, c) == 0
    ensures Gain(st1.chain, body, i, x) == Gain(st.chain, c, i, x)
  {
  }

  // The scopes there were gain what c declares in them itself.
  lemma {:induction false} WalkGains(c: Code, st: State, i: nat, x: string)
    requires st.Valid() && i < |st.tables|
    ensures Gains(st, Walk(c, st), i, x, Gain(st.chain, c, i, x), i == Innermost(st) && x in LexicalNames(c))
    decreases c
  {
    hide Declare, Declared, Gain;
    LeafGain(c, st, i, x);
    match c
    case Nothing =>
    case Both(a, b) =>
      WalkGains(a, st, i, x);
      WalkGains(b, Walk(a, st), i, x);
      BothGain(a, b, st, i, x);
    case Var(y) => DeclareGains(st, st.chain[0], y, VarLike, i, x);
    case Let(y) => DeclareGains(st, Innermost(st), y, Lexical, i, x);
    case Block(body) => ScopeGains(c, body, st, Enter(st, st.chain), i, x);
    case Catch(y, body) =>
      DeclareGains(Enter(st, st.chain), |st.tables|, y, VarLike, i, x);
      ScopeGains(c, body, st, Declare(Enter(st, st.chain), |st.tables|, y, VarLike), i, x);
    case Function(params, body) =>
      DeclareAllGains(Enter(st, []), |st.tables|, params, i, x);
      ScopeGains(c, body, st, DeclareAll(Enter(st, []), |st.tables|, params), i, x);
  }

  lemma {:induction false} ScopeGains(c: Code, body: Code, st: State, st1: State, i: nat, x: string)
    requires st.Valid() && st1.Valid() && i < |st.tables| && |st1.tables| == |st.tables| + 1 && body < c && LexicalNames(c) == []
    requires if c.Function? then st1.chain == [|st.tables|] && VarCount(x, c) == 0
      else st1.chain == st.chain + [|st.tables|] && VarCount(x, c) == VarCount(x, body)
    requires Gains(st, st1, i, x, 0, false) && Walk(c, st) == Walk(body, st1).(chain := st.chain)
    ensures Gains(st, Walk(c, st), i, x, Gain(st.chain, c, i, x), false)
    decreases c, 0
  {
    hide Walk, Declared, Gain;
    NestedGain(body, c, st, st1, i, x);
    WalkGains(body, st1, i, x);
  }

  lemma {:induction false} DeclareAllGains(st: State, s: nat, xs: seq<string>, i: nat, x: string)
    requires st.Valid() && s < |st.tables| && i < |st.tables|
    ensures Gains(st, DeclareAll(st, s, xs), i, x, if i == s then multiset(xs)[x] else 0, false)
    decreases |xs|
  {
    if xs != [] {
      assert xs == [xs[0]] + xs[1..];
      DeclareAllGains(Declare(st, s, xs[0], VarLike), s, xs[1..], i, x);
    }
  }

  // ----- what hoists through where -----

  // Some var noted from the given one on is named x and hoists through scope k.
  predicate Through(st: State, start: nat, x: string, k: nat) {
    exists j :: start <= j < |st.hoists| && st.hoists[j].name == x && k in st.hoists[j].through
  }

  // What c hoists through the scopes there were: its own vars, through all of them but the function's.
  ghost predicate Hoists(st: State, r: State, c: Code)
    requires st.Valid()
  {
    && st.hoists <= r.hoists
    && (forall x, k: nat :: Through(r, |st.hoists|, x, k) ==> k < |r.tables|)
    && (forall x, k: nat :: k < |st.tables| ==> (Through(r, |st.hoists|, x, k) <==> k in st.chain[1..] && x in VarNames(c)))
  }

  lemma ThroughBoth(st: State, r: State, start: nat, x: string, k: nat)
    requires st.hoists <= r.hoists && start <= |st.hoists|
    ensures Through(r, start, x, k) <==> Through(st, start, x, k) || Through(r, |st.hoists|, x, k)
  {
    if Through(st, start, x, k) {
      var j :| start <= j < |st.hoists| && st.hoists[j].name == x && k in st.hoists[j].through;
      assert r.hoists[j] == st.hoists[j];
    }
    if Through(r, start, x, k) && !Through(r, |st.hoists|, x, k) {
      var j :| start <= j < |r.hoists| && r.hoists[j].name == x && k in r.hoists[j].through;
      assert r.hoists[j] == st.hoists[j];
    }
  }

  lemma {:induction false} WalkHoists(c: Code, st: State)
    requires st.Valid()
    ensures Hoists(st, Walk(c, st), c)
    decreases c
  {
    var r := Walk(c, st);
    match c
    case Nothing =>
    case Both(a, b) =>
      var r1 := Walk(a, st);
      WalkHoists(a, st);
      WalkHoists(b, r1);
      forall x, k: nat ensures Through(r, |st.hoists|, x, k) <==> Through(r1, |st.hoists|, x, k) || Through(r, |r1.hoists|, x, k) {
        ThroughBoth(r1, r, |st.hoists|, x, k);
      }
    case Var(x) =>
      if |st.chain| > 1 {
        assert r.hoists[|st.hoists|] == Hoist(x, st.chain[1..]);
        assert forall k :: k in st.chain[1..] ==> k in st.chain;
      }
    case Let(_) =>
    case Block(body) => ScopeHoists(c, body, st, Enter(st, st.chain));
    case Catch(y, body) => ScopeHoists(c, body, st, Declare(Enter(st, st.chain), |st.tables|, y, VarLike));
    case Function(params, body) =>
      DeclareAllHoists(Enter(st, []), |st.tables|, params);
      ScopeHoists(c, body, st, DeclareAll(Enter(st, []), |st.tables|, params));
  }

  lemma {:induction false} ScopeHoists(c: Code, body: Code, st: State, st1: State)
    requires st.Valid() && st1.Valid() && body < c && |st1.tables| == |st.tables| + 1 && st1.hoists == st.hoists
    requires Walk(c, st) == Walk(body, st1).(chain := st.chain)
    requires if c.Function? then st1.chain == [|st.tables|] && VarNames(c) == {}
      else st1.chain == st.chain + [|st.tables|] && VarNames(c) == VarNames(body)
    ensures Hoists(st, Walk(c, st), c)
    decreases c, 0
  {
    hide Walk, VarNames;
    var r, r1 := Walk(c, st), Walk(body, st1);
    WalkHoists(body, st1);
    if !c.Function? { assert st1.chain[1..] == st.chain[1..] + [|st.tables|]; }
    assert forall x, k: nat :: Through(r, |st.hoists|, x, k) <==> Through(r1, |st.hoists|, x, k);
  }

  lemma {:induction false} DeclareAllHoists(st: State, s: nat, xs: seq<string>)
    requires st.Valid() && s < |st.tables|
    ensures DeclareAll(st, s, xs).hoists == st.hoists
    decreases |xs|
  {
    if xs != [] { DeclareAllHoists(Declare(st, s, xs[0], VarLike), s, xs[1..]); }
  }

  // ----- conflicts and early errors -----

  // Scope k has no clash, and no var noted from the given one on hoists through a lexical declaration in it.
  ghost predicate ScopeQuiet(st: State, start: nat, k: nat) {
    k < |st.tables| && Clean(st.tables[k]) && forall x :: Through(st, start, x, k) ==> Lexical !in Declared(st.tables[k], x)
  }

  ghost predicate NewQuiet(st: State, r: State) {
    forall k: nat :: |st.tables| <= k < |r.tables| ==> ScopeQuiet(r, |st.hoists|, k)
  }

  lemma CleanGains(st: State, r: State, k: nat)
    requires k < |st.tables| && k < |r.tables| && forall x :: Gains(st, r, k, x, 0, false)
    ensures Clean(st.tables[k]) <==> Clean(r.tables[k])
    ensures forall x :: Lexical in Declared(r.tables[k], x) <==> Lexical in Declared(st.tables[k], x)
  {
    forall x ensures Lexical in Declared(r.tables[k], x) <==> Lexical in Declared(st.tables[k], x) {
      assert Gains(st, r, k, x, 0, false);
    }
    forall x ensures |Declared(r.tables[k], x)| == |Declared(st.tables[k], x)| {
      assert Gains(st, r, k, x, 0, false);
    }
    if !Clean(st.tables[k]) {
      var x :| x in st.tables[k] && Lexical in st.tables[k][x] && |st.tables[k][x]| != 1;
      assert Lexical in Declared(r.tables[k], x) && |Declared(r.tables[k], x)| != 1;
    }
    if !Clean(r.tables[k]) {
      var x :| x in r.tables[k] && Lexical in r.tables[k][x] && |r.tables[k][x]| != 1;
      assert Lexical in Declared(st.tables[k], x) && |Declared(st.tables[k], x)| != 1;
    }
  }

  // What the first of two statement lists leaves quiet, the second does.
  lemma BothQuiet(a: Code, b: Code, st: State)
    requires st.Valid()
    ensures var r1 := Walk(a, st); var r := Walk(b, r1);
      NewQuiet(st, r) <==> NewQuiet(st, r1) && NewQuiet(r1, r)
  {
    var r1 := Walk(a, st);
    var r := Walk(b, r1);
    WalkHoists(a, st);
    WalkHoists(b, r1);
    forall k: nat | |st.tables| <= k < |r.tables| ensures ScopeQuiet(r, |st.hoists|, k) <==>
      (if k < |r1.tables| then ScopeQuiet(r1, |st.hoists|, k) else ScopeQuiet(r, |r1.hoists|, k))
    {
      forall x ensures Through(r, |st.hoists|, x, k) <==> Through(r1, |st.hoists|, x, k) || Through(r, |r1.hoists|, x, k) {
        ThroughBoth(r1, r, |st.hoists|, x, k);
      }
      if k < |r1.tables| {
        forall x ensures Gains(r1, r, k, x, 0, false) { WalkGains(b, r1, k, x); }
        CleanGains(r1, r, k);
        assert k !in st.chain[1..];
      }
    }
  }

  // The innermost scope: before its statements it holds the others, declared like vars.
  ghost predicate Fresh(st: State, others: set<string>) {
    && st.Valid()
    && (|st.chain| > 1 ==> Innermost(st) != st.chain[0])
    && forall x :: Lexical !in Declared(st.tables[Innermost(st)], x) && (Declared(st.tables[Innermost(st)], x) != [] <==> x in others)
  }

  lemma UniqueCounts(names: seq<string>)
    ensures Unique(names) <==> forall x :: multiset(names)[x] <= 1
    decreases |names|
  {
    if names != [] {
      var x, rest := names[0], names[1..];
      UniqueCounts(rest);
      assert names == [x] + rest;
      assert forall i :: 0 <= i < |rest| ==> rest[i] == names[i + 1];
      if Unique(rest) && x !in rest {
        forall i, j | 0 <= i < j < |names| ensures names[i] != names[j] {
          assert names[j] == rest[j - 1];
          if i > 0 { assert names[i] == rest[i - 1]; }
        }
      }
      assert multiset(names)[x] == 1 + multiset(rest)[x];
      assert forall y :: y != x ==> multiset(names)[y] == multiset(rest)[y];
      assert x in rest <==> multiset(rest)[x] > 0;
    }
  }

  // What the innermost scope holds of x after its statements, and whether x hoists through it.
  ghost predicate OwnHolds(body: Code, st: State, r: State, x: string)
    requires st.Valid()
  {
    var n := Innermost(st);
    && n < |r.tables|
    && (Lexical in Declared(r.tables[n], x) <==> Lexical in Declared(st.tables[n], x) || x in LexicalNames(body))
    && |Declared(r.tables[n], x)| ==
         |Declared(st.tables[n], x)| + multiset(LexicalNames(body))[x] + (if |st.chain| == 1 then VarCount(x, body) else 0)
    && (Through(r, |st.hoists|, x, n) <==> |st.chain| > 1 && x in VarNames(body))
  }

  lemma OwnGains(body: Code, st: State, x: string)
    requires st.Valid() && (|st.chain| > 1 ==> Innermost(st) != st.chain[0])
    ensures OwnHolds(body, st, Walk(body, st), x)
  {
    hide Walk, Declared, Through, LexicalNames, VarNames;
    var n := Innermost(st);
    WalkHoists(body, st);
    WalkGains(body, st, n, x);
    OwnGain(body, st, x);
    if |st.chain| > 1 { assert st.chain[1..][|st.chain| - 2] == n; }
  }

  lemma OwnGain(body: Code, st: State, x: string)
    requires st.Valid() && (|st.chain| > 1 ==> Innermost(st) != st.chain[0])
    ensures Gain(st.chain, body, Innermost(st), x) == multiset(LexicalNames(body))[x] + (if |st.chain| == 1 then VarCount(x, body) else 0)
  {
  }

  lemma QuietFine(body: Code, st: State, r: State, others: set<string>)
    requires Fresh(st, others) && ScopeQuiet(r, |st.hoists|, Innermost(st)) && forall x :: OwnHolds(body, st, r, x)
    ensures ScopeFine(others, body)
  {
    hide Through;
    var n, names := Innermost(st), LexicalNames(body);
    UniqueCounts(names);
    forall x | x in names ensures multiset(names)[x] == 1 && x !in others && x !in VarNames(body) {
      assert OwnHolds(body, st, r, x);
      assert |Declared(r.tables[n], x)| == 1 && multiset(names)[x] > 0;
    }
  }

  lemma FineQuiet(body: Code, st: State, r: State, others: set<string>)
    requires Fresh(st, others) && ScopeFine(others, body) && forall x :: OwnHolds(body, st, r, x)
    ensures ScopeQuiet(r, |st.hoists|, Innermost(st))
  {
    hide Through;
    var n, names := Innermost(st), LexicalNames(body);
    UniqueCounts(names);
    assert OwnHolds(body, st, r, "");
    forall x | x in names ensures |Declared(r.tables[n], x)| == 1 && !Through(r, |st.hoists|, x, n) {
      assert OwnHolds(body, st, r, x);
      assert multiset(names)[x] == 1 && VarCount(x, body) == 0;
    }
    forall x ensures Lexical in Declared(r.tables[n], x) ==> x in names { assert OwnHolds(body, st, r, x); }
    forall x | x in r.tables[n] && Lexical in r.tables[n][x] ensures |r.tables[n][x]| == 1 {
      assert Declared(r.tables[n], x) == r.tables[n][x];
    }
  }

  // A scope is quiet after its statements exactly when it is fine.
  lemma OwnScope(body: Code, st: State, others: set<string>)
    requires Fresh(st, others)
    ensures ScopeQuiet(Walk(body, st), |st.hoists|, Innermost(st)) <==> ScopeFine(others, body)
  {
    hide Walk, ScopeQuiet, ScopeFine, OwnHolds;
    var r := Walk(body, st);
    forall x ensures OwnHolds(body, st, r, x) { OwnGains(body, st, x); }
    if ScopeQuiet(r, |st.hoists|, Innermost(st)) { QuietFine(body, st, r, others); }
    if ScopeFine(others, body) { FineQuiet(body, st, r, others); }
  }

  lemma DeclareAllFresh(st: State, xs: seq<string>)
    requires st.Valid() && st.chain == [Innermost(st)] && st.tables[Innermost(st)] == map[]
    ensures Fresh(DeclareAll(st, Innermost(st), xs), (set x | x in xs))
  {
    var n := Innermost(st);
    forall x ensures Gains(st, DeclareAll(st, n, xs), n, x, multiset(xs)[x], false) { DeclareAllGains(st, n, xs, n, x); }
    var r := DeclareAll(st, n, xs);
    forall x ensures Lexical !in Declared(r.tables[n], x) && (Declared(r.tables[n], x) != [] <==> x in xs) {
      assert Gains(st, r, n, x, multiset(xs)[x], false);
    }
  }

  // A statement list's new scopes are quiet exactly when it has no early errors.
  lemma {:induction false} WalkConflicts(c: Code, st: State)
    requires st.Valid()
    ensures NewQuiet(st, Walk(c, st)) <==> NoEarlyErrors(c)
    decreases c
  {
    var n := |st.tables|;
    match c
    case Nothing =>
    case Both(a, b) =>
      BothQuiet(a, b, st);
      WalkConflicts(a, st);
      WalkConflicts(b, Walk(a, st));
    case Var(_) =>
    case Let(_) =>
    case Block(body) => ScopeConflicts(c, body, st, Enter(st, st.chain), {});
    case Catch(y, body) => ScopeConflicts(c, body, st, Declare(Enter(st, st.chain), n, y, VarLike), {y});
    case Function(params, body) =>
      DeclareAllFresh(Enter(st, []), params);
      DeclareAllHoists(Enter(st, []), n, params);
      ScopeConflicts(c, body, st, DeclareAll(Enter(st, []), n, params), set x | x in params);
  }

  lemma {:induction false} ScopeConflicts(c: Code, body: Code, st: State, st1: State, others: set<string>)
    requires st.Valid() && body < c && Fresh(st1, others) && |st1.tables| == |st.tables| + 1 && Innermost(st1) == |st.tables|
    requires st1.hoists == st.hoists && Walk(c, st) == Walk(body, st1).(chain := st.chain)
    ensures NewQuiet(st, Walk(c, st)) <==> NoEarlyErrors(body) && ScopeFine(others, body)
    decreases c, 0
  {
    var r, r1, n := Walk(c, st), Walk(body, st1), |st.tables|;
    WalkConflicts(body, st1);
    OwnScope(body, st1, others);
    forall k: nat ensures ScopeQuiet(r, |st.hoists|, k) <==> ScopeQuiet(r1, |st1.hoists|, k) {
      assert forall x :: Through(r, |st.hoists|, x, k) <==> Through(r1, |st1.hoists|, x, k);
    }
    if NewQuiet(st, r) {
      assert ScopeQuiet(r, |st.hoists|, n);
    }
  }

  lemma AllQuiet(st: State)
    requires Noted(st) && forall x, k: nat :: Through(st, 0, x, k) ==> k < |st.tables|
    ensures NoConflicts(st) <==> forall k: nat :: k < |st.tables| ==> ScopeQuiet(st, 0, k)
  {
    if NoConflicts(st) {
      forall k: nat | k < |st.tables| ensures ScopeQuiet(st, 0, k) {
        forall x | Through(st, 0, x, k) ensures Lexical !in Declared(st.tables[k], x) {
          var j :| 0 <= j < |st.hoists| && st.hoists[j].name == x && k in st.hoists[j].through;
          assert !Blocked(st, st.hoists[j]);
        }
      }
    }
    if forall k: nat :: k < |st.tables| ==> ScopeQuiet(st, 0, k) {
      forall i | 0 <= i < |st.tables| ensures Clean(st.tables[i]) { assert ScopeQuiet(st, 0, i); }
      forall j | 0 <= j < |st.hoists| ensures !Blocked(st, st.hoists[j]) {
        var h := st.hoists[j];
        forall i | 0 <= i < |h.through| && h.through[i] < |st.tables| ensures Lexical !in Declared(st.tables[h.through[i]], h.name) {
          assert Through(st, 0, h.name, h.through[i]) && ScopeQuiet(st, 0, h.through[i]);
        }
      }
    }
  }

  // The two passes record no conflict exactly when the program has no early error.
  lemma ConflictsExact(program: Code)
    ensures NoConflicts(Walk(program, Started)) <==> NoEarlyErrors(Function([], program))
  {
    hide Walk, ScopeQuiet;
    var r := Walk(program, Started);
    assert Clean(Started.tables[0]);
    WalkNotes(program, Started);
    WalkHoists(program, Started);
    AllQuiet(r);
    WalkConflicts(program, Started);
    OwnScope(program, Started, {});
    var none: seq<string> := [];
    assert (set x | x in none) == {};
    assert ScopeQuiet(r, 0, 0) <==> ScopeFine({}, program);
  }
}
