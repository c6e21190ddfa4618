// The part of the program tree the flow graph is built from. Names are already resolved to
// symbols, and an absent child (a nil node) is NoExpr, Empty, NoCatch or NoFinally.
module Syntax {

  // The container of declarations: a module, a function (its parameters and body), or a block,
  // loop head, switch body or catch clause inside one.
  datatype Scope =
    | ModuleScope
    | FunctionScope(id: nat, parent: Scope)
    | BlockScope(id: nat, parent: Scope)

  // Block scopes belong to the nearest function around them, or to the module.
  function ContainerOf(s: Scope): Scope {
    match s
    case BlockScope(_, parent) => ContainerOf(parent)
    case _ => s
  }

  datatype VarKind = Var | Let | Const

  datatype Annotation = NoAnnotation | Annotation(name: string, nullable: bool)

  // What one declaration of a symbol is, as far as the flow checks ask.
  datatype Declaration =
    | Variable(kind: VarKind, ambient: bool, definite: bool, hasInit: bool, annotation: Annotation)
    | Parameter
    | FunctionDecl(returnsNever: bool)
    | ClassOrEnum

  datatype Symbol = Symbol(name: string, scope: Scope, declarations: seq<Declaration>)

  datatype Value =
    | Undefined
    | Null
    | Boolean(b: bool)
    | Number(n: int)
    | Text(s: string)
    | Object(id: nat)

  datatype BinaryOp = StrictEq | StrictNe | LooseEq | LooseNe | Less | Arithmetic

  datatype LogicalOp = And | Or | Nullish

  // `=`, an arithmetic compound assignment, `&&=`, `||=` and `??=`.
  datatype AssignOp = Plain | Compound | AndAssign | OrAssign | NullishAssign

  // The node a store goes through: a declaration, an assignment expression, or any other (nil, a loop).
  datatype Site =
    | DeclarationSite(id: nat, hasInit: bool)
    | AssignmentSite(id: nat, op: AssignOp)
    | OtherSite

  datatype Expr =
    | NoExpr
    | Literal(value: Value)
    | Name(id: nat, sym: Symbol)
    | Not(arg: Expr)
    | TypeOf(arg: Expr)
    | Binary(op: BinaryOp, left: Expr, right: Expr)
    | Logical(lop: LogicalOp, left: Expr, right: Expr)
    | Conditional(test: Expr, yes: Expr, no: Expr)
    | Assign(aop: AssignOp, id: nat, sym: Symbol, right: Expr)
    | Update(id: nat, sym: Symbol)
    | Member(base: Expr)
    | SetMember(base: Expr, right: Expr)
    | Call(callee: Expr, args: Expr)
    | Comma(first: Expr, second: Expr)
    | Opaque(arg: Expr)                    // any other expression, over its children
    | Closure(fn: Scope, body: Stmt)       // a function expression not called where it is written

  datatype Catch = NoCatch | Catch(scope: Scope, body: Stmt)

  datatype Finally = NoFinally | Finally(body: Stmt)

  datatype Cases = NoCases | Case(test: Expr, body: Stmt, rest: Cases)   // a NoExpr test is `default`

  datatype Stmt =
    | Empty
    | Then(first: Stmt, rest: Stmt)        // a statement list
    | Declare(kind: VarKind, sym: Symbol, init: Expr, id: nat)
    | Evaluate(expr: Expr)
    | Block(scope: Scope, body: Stmt)
    | If(test: Expr, yes: Stmt, no: Stmt)
    | While(test: Expr, body: Stmt)
    | DoWhile(test: Expr, body: Stmt)
    | For(scope: Scope, start: Stmt, test: Expr, update: Expr, body: Stmt)
    | ForOf(scope: Scope, kind: VarKind, sym: Symbol, subject: Expr, body: Stmt)
    | Labeled(tag: string, body: Stmt)
    | Break(tag: string)                 // "" for none
    | Continue(tag: string)
    | Return(expr: Expr)
    | Throw(expr: Expr)
    | Switch(scope: Scope, discriminant: Expr, cases: Cases)
    | Try(id: nat, block: Stmt, handler: Catch, finalizer: Finally)

  predicate IsLoop(s: Stmt) {
    s.While? || s.DoWhile? || s.For? || s.ForOf?
  }

  // A loop, under any number of labels.
  predicate LabelsLoop(s: Stmt) {
    IsLoop(s) || (s.Labeled? && LabelsLoop(s.body))
  }

  // Only a break leaves a loop with such a test.
  predicate AlwaysTrue(test: Expr) {
    test == NoExpr || test == Literal(Boolean(true))
  }

  // x, x.y, x.y.z and so on: a call of one gets a node of its own.
  predicate DottedName(e: Expr) {
    e.Name? || (e.Member? && DottedName(e.base))
  }

  // The same shape, as a store's receiver.
  predicate RootIdentifier(e: Expr) {
    e.Name? || (e.Member? && RootIdentifier(e.base))
  }

  // Bindings that are in scope before they may be used.
  predicate TdzKind(x: Symbol) {
    exists i :: 0 <= i < |x.declarations| && IsLexical(x.declarations[i])
  }

  predicate IsLexical(d: Declaration) {
    d.ClassOrEnum? || (d.Variable? && d.kind != Var)
  }

  // Types whose bindings may be read unassigned: undefined is among their values, or null.
  predicate ExemptFromAssignment(t: Annotation) {
    t.Annotation? && (t.name == "any" || t.name == "unknown" || t.nullable)
  }

  // Whether reads of x are checked: it has one declaration, typed and not initialized.
  predicate TrackedForAssignment(x: Symbol) {
    |x.declarations| == 1 &&
    var d := x.declarations[0];
    d.Variable? && !d.ambient && !d.definite && !d.hasInit && d.annotation.Annotation? && !ExemptFromAssignment(d.annotation)
  }

  // A call of a function every declaration of which states the return type never.
  predicate ReturnsNever(callee: Expr) {
    callee.Name? && callee.sym.declarations != [] &&
    forall i :: 0 <= i < |callee.sym.declarations| ==>
      var d := callee.sym.declarations[i]; d.FunctionDecl? && d.returnsNever
  }
}
