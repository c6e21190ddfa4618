// The check of a whole program, end to end: what the reported and the unreported reads mean for its runs.
module Checks {
  import opened Syntax
  import opened FlowGraph
  import opened Semantics
  import opened Questions
  import opened Soundness
  import opened Walks
  import Binder
  import Programs
  import Scoping
  import Visit

  // Reports the reads of a program that are wrong, under the definite-assignment rule. A tracked read
  // it does not report is only evaluated after a value was stored; one it reports as used before its
  // declaration is only evaluated where that has not run, and throws.
  method FlowErrors(program: Stmt) returns (out: seq<Binder.Diagnostic>)
    ensures forall fn, body, a, fuel, c, p :: Witnessed(program, fn, body, a, fuel, c, p) ==>
      Answered(Unassigned(c.sym), program, body, c) && TrackedForAssignment(c.sym) && !c.written && (forall d :: d in out ==> d.access != c) ==>
        StoredSinceEntry(c.sym, p)
    ensures forall fn, body, a, fuel, c, p :: Witnessed(program, fn, body, a, fuel, c, p) ==>
      Answered(Declared(c.sym), program, body, c) && Binder.BeforeDeclaration(c) in out ==>
        !HasBeenDeclared(c.sym, p) && Load(c.sym, Run(After(p, Use(c.id, c.sym, c.written)), 0), a).thrown
  {
    var b := new Binder.Binder();
    b.BindProgram(program);
    out := b.FlowDiagnostics(true, {});
    hide Visit.VisitProgram, Witnessed, Answered, UsedBeforeDeclaration, UsedBeforeAssigned;
    var g := Visit.VisitProgram(program).g;
    forall fn, body, a, fuel, c, p | Witnessed(program, fn, body, a, fuel, c, p) && Answered(Unassigned(c.sym), program, body, c)
        && TrackedForAssignment(c.sym) && !c.written && (forall d :: d in out ==> d.access != c)
      ensures StoredSinceEntry(c.sym, p)
    {
      Unreported(program, fn, body, a, fuel, c, p, out);
    }
    forall fn, body, a, fuel, c, p | Witnessed(program, fn, body, a, fuel, c, p) && Answered(Declared(c.sym), program, body, c)
        && Binder.BeforeDeclaration(c) in out
      ensures !HasBeenDeclared(c.sym, p) && Load(c.sym, Run(After(p, Use(c.id, c.sym, c.written)), 0), a).thrown
    {
      DeadZoneReportsReal(program, fn, body, a, fuel, c, p, 0);
    }
  }

  lemma Unreported(program: Stmt, fn: Scope, body: Stmt, a: Activation, fuel: nat, c: Access, p: History, out: seq<Binder.Diagnostic>)
    requires Witnessed(program, fn, body, a, fuel, c, p) && Answered(Unassigned(c.sym), program, body, c)
    requires TrackedForAssignment(c.sym) && !c.written && forall d :: d in out ==> d.access != c
    requires var g := Visit.VisitProgram(program).g;
      && (UsedBeforeDeclaration(g, c) ==> Binder.BeforeDeclaration(c) in out)
      && (UsedBeforeAssigned(g, c) && !UsedBeforeDeclaration(g, c) ==> Binder.BeforeAssigned(c) in out)
    ensures StoredSinceEntry(c.sym, p)
  {
    hide Visit.VisitProgram, Answered, Meets, Programs.Tidy, Scoping.Scoped;
    assert Binder.BeforeDeclaration(c).access == c && Binder.BeforeAssigned(c).access == c;
    StateTraced(Unassigned(c.sym), program, fn, body, a, fuel, c, p);
    DefiniteAssignmentSound(program, fn, body, a, fuel, c, p);
  }
}
