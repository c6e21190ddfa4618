// How statements complete, told from the program alone.
module WaysOut {
  import opened Syntax
  import opened Visit

  // ----- the exits of a statement -----

  // A way to complete that stays in the function.
  datatype Exit = End | Out(tag: string) | Next(tag: string)   // falling off, break, continue

  // The exits of its body that a loop labeled own takes itself.
  predicate TakesItself(e: Exit, own: string) {
    !e.End? && (e.tag == "" || e.tag == own)
  }

  function Outer(x: set<Exit>, own: string): set<Exit> {
    set e | e in x && !e.End? && !TakesItself(e, own)
  }

  predicate Leaves(x: set<Exit>, own: string) {
    Out("") in x || Out(own) in x
  }

  predicate GoesOn(x: set<Exit>, own: string) {
    End in x || Next("") in x || Next(own) in x
  }

  function EndIf(c: bool): set<Exit> {
    if c then {End} else {}
  }

  // The exits of s, where control reaches it; own is a loop's label.
  function Exits(s: Stmt, own: string): set<Exit>
    decreases s
  {
    match s
    case Then(a, r) =>
      var x := Exits(a, "");
      if End in x then (x - {End}) + Exits(r, "") else x
    case Evaluate(e) => EndIf(!(e.Call? && ReturnsNever(e.callee)))
    case Block(_, body) => Exits(body, "")
    case If(_, y, n) => Exits(y, "") + Exits(n, "")
    case While(t, body) =>
      var x := Exits(body, "");
      EndIf(!AlwaysTrue(t) || Leaves(x, own)) + Outer(x, own)
    case DoWhile(t, body) =>
      var x := Exits(body, "");
      EndIf((GoesOn(x, own) && !AlwaysTrue(t)) || Leaves(x, own)) + Outer(x, own)
    case For(_, start, t, _, body) =>
      var x := Exits(body, "");
      var before := Exits(start, "");
      if End in before then (before - {End}) + EndIf(!AlwaysTrue(t) || Leaves(x, own)) + Outer(x, own) else before
    case ForOf(_, _, _, _, body) => {End} + Outer(Exits(body, ""), own)
    case Labeled(tag, body) =>
      if IsLoop(body) then Exits(body, tag)
      else
        var x := Exits(body, "");
        (x - {Out(tag), Next(tag)}) + EndIf(Out(tag) in x)
    case Break(tag) => {Out(tag)}
    case Continue(tag) => {Next(tag)}
    case Return(_) => {}
    case Throw(_) => {}
    case Switch(_, _, cases) =>
      var x := CaseExits(cases);
      (x - {Out("")}) + EndIf(Out("") in x || !HasDefault(cases))
    case Try(_, block, handler, finalizer) =>
      var x := Exits(block, "") + (if handler.Catch? then Exits(handler.body, "") else {});
      if finalizer.NoFinally? then x
      else if End in x then (x - {End}) + Exits(finalizer.body, "")
      else x + (Exits(finalizer.body, "") - {End})
    case _ => {End}
  }

  // The exits of the clauses, each of them entered; only the last one falls off.
  function CaseExits(cases: Cases): set<Exit>
    decreases cases
  {
    if cases.NoCases? then {}
    else if cases.rest.NoCases? then Exits(cases.body, "")
    else (Exits(cases.body, "") - {End}) + CaseExits(cases.rest)
  }

  // ----- finally -----

  // The ways out of a try's block, and of its catch.
  function GuardedExits(s: Stmt): set<Exit>
    requires s.Try?
  {
    Exits(s.block, "") + (if s.handler.Catch? then Exits(s.handler.body, "") else {})
  }

  // Where control reaches s, each finally among the given ones has a try that can fall off. The binder
  // enters a finally from the end of its try also when only a loop out of control's reach leads there.
  predicate Steady(s: Stmt, tries: set<nat>) {
    match s
    case Then(a, r) => Steady(a, tries) && (End in Exits(a, "") ==> Steady(r, tries))
    case Block(_, body) => Steady(body, tries)
    case If(_, y, n) => Steady(y, tries) && Steady(n, tries)
    case While(_, body) => Steady(body, tries)
    case DoWhile(_, body) => Steady(body, tries)
    case For(_, start, _, _, body) => Steady(start, tries) && (End in Exits(start, "") ==> Steady(body, tries))
    case ForOf(_, _, _, _, body) => Steady(body, tries)
    case Labeled(_, body) => Steady(body, tries)
    case Switch(_, _, cases) => SteadyCases(cases, tries)
    case Try(id, block, handler, finalizer) =>
      && Steady(block, tries)
      && (handler.Catch? ==> Steady(handler.body, tries))
      && (finalizer.Finally? ==> Steady(finalizer.body, tries) && (id in tries ==> End in GuardedExits(s)))
    case _ => true
  }

  predicate SteadyCases(cases: Cases, tries: set<nat>) {
    cases.Case? ==> Steady(cases.body, tries) && SteadyCases(cases.rest, tries)
  }

  // No break or continue leaves s.
  predicate Contained(s: Stmt) {
    forall e :: e in Exits(s, "") ==> e.End?
  }
}
