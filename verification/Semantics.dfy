// What running a function's body does, as ECMAScript has it: an interpreter over the history of the
// activation. Whatever the program alone does not decide (what a call returns, throws or stores
// through a closure, how often a for-of goes round) is asked of an oracle, so a statement about every
// oracle and every amount of fuel is one about every finite prefix of every execution.
module Semantics {
  import opened Syntax

  datatype Event =
    | Enter(scope: Scope, given: Symbol -> Value)   // given: what its bindings without a dead zone hold
    | Exit(scope: Scope)
    | Use(id: nat, sym: Symbol, writes: bool)        // a reference is evaluated, to read or only to store
    | Store(sym: Symbol, site: Site, init: bool, assign: bool, value: Value)
    | ForeignStore(sym: Symbol, value: Value)       // by another function, run by a call
    | Create(fn: Scope)                             // a closure over the current bindings
    | Renew(scope: Scope)                           // a for loop's bindings are copied for its next round
    | Caught(since: History)                        // a catch takes a throw; since: when its try began
    | FinallyAbrupt(of: Stmt, since: History)       // the finally of a try is entered on the way out
    | FinallyDone(from: History)                    // and completes; the way out, taken at from, goes on

  // Events that change no binding.
  predicate Silent(e: Event) {
    e.Create? || e.Renew?
  }

  datatype History = Begin | After(past: History, last: Event)

  datatype Run = Run(history: History, clock: nat)

  datatype Choice = Choice(value: Value, throws: bool, done: bool, stores: seq<(Symbol, Value)>, given: Symbol -> Value)

  // One activation: its function, the bindings of its that other functions store to, what its
  // parameters and vars hold at first, and the oracle.
  datatype Activation = Activation(fn: Scope, foreign: set<Symbol>, args: Symbol -> Value, oracle: nat -> Choice)

  datatype Result = Result(run: Run, value: Value, thrown: bool)

  datatype Completion =
    | Normal
    | BreakTo(tag: string)
    | ContinueTo(tag: string)
    | Returned
    | Threw
    | Halted                                        // out of fuel, or a state no program reaches

  datatype Outcome = Outcome(run: Run, how: Completion)

  // ----- memory -----

  datatype Cell = Uninitialized | Holds(value: Value)

  predicate Own(x: Symbol, a: Activation) {
    ContainerOf(x.scope) == a.fn
  }

  // What x's binding holds after h.
  function Current(x: Symbol, h: History, a: Activation): Cell {
    match h
    case Begin => if TdzKind(x) then Uninitialized else Holds(a.args(x))
    case After(past, Enter(s, given)) =>
      if s != x.scope then Current(x, past, a) else if TdzKind(x) then Uninitialized else Holds(given(x))
    case After(past, Store(y, _, _, _, v)) => if y == x then Holds(v) else Current(x, past, a)
    case After(past, ForeignStore(y, v)) => if y == x then Holds(v) else Current(x, past, a)
    case After(past, _) => Current(x, past, a)
  }

  function Emit(r: Run, e: Event): Run {
    r.(history := After(r.history, e))
  }

  function Stores(ws: seq<(Symbol, Value)>, h: History, a: Activation): History {
    if ws == [] then h
    else
      var (x, v) := ws[0];
      Stores(ws[1..], if x in a.foreign && Current(x, h, a).Holds? then After(h, ForeignStore(x, v)) else h, a)
  }

  // Asks the oracle; other code may run meanwhile.
  function Ask(r: Run, a: Activation): Result {
    var c := a.oracle(r.clock);
    Result(Run(Stores(c.stores, r.history, a), r.clock + 1), c.value, c.throws)
  }

  // The value a reference reads: a dead zone throws; an outer function's binding is not known here.
  function Load(x: Symbol, r: Run, a: Activation): Result {
    if !Own(x, a) then Ask(r, a)
    else match Current(x, r.history, a)
      case Uninitialized => Result(r, Undefined, true)
      case Holds(v) => Result(r, v, false)
  }

  function StoreTo(x: Symbol, site: Site, v: Value, r: Run, a: Activation): Result {
    if Own(x, a) && Current(x, r.history, a).Uninitialized? then Result(r, Undefined, true)
    else Result(Emit(r, Store(x, site, false, true, v)), v, false)
  }

  // A declaration runs once each time its scope is entered.
  function Initialize(x: Symbol, site: Site, assign: bool, v: Value, r: Run, a: Activation): Outcome {
    if Current(x, r.history, a).Holds? then Outcome(r, Halted)
    else Outcome(Emit(r, Store(x, site, true, assign, v)), Normal)
  }

  // ----- expressions -----

  predicate Truthy(v: Value) {
    !(v.Undefined? || v.Null? || v == Boolean(false) || v == Number(0) || v == Text(""))
  }

  predicate Nullish(v: Value) {
    v.Undefined? || v.Null?
  }

  function TypeName(v: Value, other: string): string {
    match v
    case Undefined => "undefined"
    case Null => "object"
    case Boolean(_) => "boolean"
    case Number(_) => "number"
    case Text(_) => "string"
    case Object(_) => other       // "object" or "function"
  }

  // Text order, by code units.
  predicate TextLess(s: string, t: string) {
    t != "" && (s == "" || s[0] < t[0] || (s[0] == t[0] && TextLess(s[1..], t[1..])))
  }

  // What a binary operator gives; guess where the operands' types do not decide it.
  function BinaryValue(op: BinaryOp, l: Value, r: Value, guess: Value): Value {
    match op
    case StrictEq => Boolean(l == r)
    case StrictNe => Boolean(l != r)
    case LooseEq => Boolean(LooselyEqual(l, r, guess))
    case LooseNe => Boolean(!LooselyEqual(l, r, guess))
    case Less => Boolean(if l.Text? && r.Text? then TextLess(l.s, r.s) else Truthy(guess))
    case Arithmetic => guess
  }

  // Values of one type are compared as they are, undefined and null equal only each other, and
  // anything else is converted first.
  predicate LooselyEqual(l: Value, r: Value, guess: Value) {
    if SameType(l, r) then l == r
    else if Nullish(l) || Nullish(r) then Nullish(l) && Nullish(r)
    else Truthy(guess)
  }

  predicate SameType(l: Value, r: Value) {
    (l.Boolean? && r.Boolean?) || (l.Number? && r.Number?) || (l.Text? && r.Text?) || (l.Object? && r.Object?)
  }

  function Eval(e: Expr, r: Run, a: Activation): Result
    decreases e, 1
  {
    match e
    case NoExpr => Result(r, Undefined, false)
    case Literal(v) => Result(r, v, false)
    case Name(id, x) => Load(x, Emit(r, Use(id, x, false)), a)
    case Not(arg) =>
      var v := Eval(arg, r, a);
      if v.thrown then v else v.(value := Boolean(!Truthy(v.value)))
    case TypeOf(arg) =>
      var v := Eval(arg, r, a);
      if v.thrown then v
      else v.(value := Text(TypeName(v.value, if a.oracle(v.run.clock).done then "function" else "object")))
    case Binary(op, left, right) =>
      var l := Eval(left, r, a);
      if l.thrown then l else
      var v := Eval(right, l.run, a);
      if v.thrown then v
      else if op.StrictEq? || op.StrictNe? then v.(value := BinaryValue(op, l.value, v.value, Undefined))
      else
        var c := Ask(v.run, a);
        c.(value := BinaryValue(op, l.value, v.value, c.value), thrown := c.thrown && (l.value.Object? || v.value.Object?))
    case Logical(op, left, right) =>
      var l := Eval(left, r, a);
      if l.thrown || !RightRuns(op, l.value) then l else Eval(right, l.run, a)
    case Conditional(test, yes, no) =>
      var t := Eval(test, r, a);
      if t.thrown then t else if Truthy(t.value) then Eval(yes, t.run, a) else Eval(no, t.run, a)
    case Assign(_, _, _, _) => EvalAssign(e, r, a)
    case Update(id, x) =>
      var v := Load(x, Emit(r, Use(id, x, false)), a);
      if v.thrown then v else
      var c := Ask(v.run, a);
      if c.thrown then c else StoreTo(x, OtherSite, c.value, c.run, a)
    case Member(o) =>
      var v := Eval(o, r, a);
      if v.thrown then v else Ask(v.run, a)
    case SetMember(o, right) =>
      var v := Eval(o, r, a);
      if v.thrown then v else
      var w := Eval(right, v.run, a);
      if w.thrown then w else Ask(w.run, a)
    case Call(callee, args) =>
      var f := Eval(callee, r, a);
      if f.thrown then f else
      var v := Eval(args, f.run, a);
      if v.thrown then v else
      var c := Ask(v.run, a);
      c.(thrown := c.thrown || ReturnsNever(callee))
    case Comma(first, second) =>
      var v := Eval(first, r, a);
      if v.thrown then v else Eval(second, v.run, a)
    case Opaque(arg) =>
      var v := Eval(arg, r, a);
      if v.thrown then v else Ask(v.run, a)
    case Closure(fn, _) => Result(Emit(r, Create(fn)), Object(r.clock), false)
  }

  predicate RightRuns(op: LogicalOp, v: Value) {
    match op
    case And => Truthy(v)
    case Or => !Truthy(v)
    case Nullish => Nullish(v)
  }

  // Whether a logical assignment stores, its target holding v.
  predicate AssignRuns(op: AssignOp, v: Value) {
    (op == AndAssign && Truthy(v)) || (op == OrAssign && !Truthy(v)) || (op == NullishAssign && Nullish(v))
  }

  // A plain assignment refers to its target last; any other reads it first.
  function EvalAssign(e: Expr, r: Run, a: Activation): Result
    requires e.Assign?
    decreases e, 0
  {
    var site := AssignmentSite(e.id, e.aop);
    if e.aop == Plain then
      var v := Eval(e.right, r, a);
      if v.thrown then v else StoreTo(e.sym, site, v.value, Emit(v.run, Use(e.id, e.sym, true)), a)
    else
      var l := Load(e.sym, Emit(r, Use(e.id, e.sym, false)), a);
      if l.thrown || (e.aop != Compound && !AssignRuns(e.aop, l.value)) then l else
      var v := Eval(e.right, l.run, a);
      if v.thrown then v
      else if e.aop != Compound then StoreTo(e.sym, site, v.value, v.run, a)
      else
        var c := Ask(v.run, a);
        if c.thrown then c else StoreTo(e.sym, site, c.value, c.run, a)
  }

  // ----- statements -----

  function EnterScope(r: Run, s: Scope, a: Activation): Run {
    Run(After(r.history, Enter(s, a.oracle(r.clock).given)), r.clock + 1)
  }

  function Leave(o: Outcome, s: Scope): Outcome {
    o.(run := Emit(o.run, Exit(s)))
  }

  // After a loop's body: does the next round start, or is the loop left?
  predicate GoesRound(c: Completion, labels: set<string>) {
    c.Normal? || c == ContinueTo("") || (c.ContinueTo? && c.tag in labels)
  }

  predicate LeavesLoop(c: Completion, labels: set<string>) {
    c == BreakTo("") || (c.BreakTo? && c.tag in labels)
  }

  function Loop(o: Outcome, labels: set<string>): Outcome {
    if LeavesLoop(o.how, labels) then o.(how := Normal) else o
  }

  // labels are those a loop is directly labeled with.
  function Exec(s: Stmt, labels: set<string>, r: Run, a: Activation, fuel: nat): Outcome
    decreases fuel, s, 1
  {
    match s
    case Empty => Outcome(r, Normal)
    case Then(first, rest) =>
      var o := Exec(first, {}, r, a, fuel);
      if o.how.Normal? then Exec(rest, {}, o.run, a, fuel) else o
    case Declare(kind, x, init, id) =>
      var v := Eval(init, r, a);
      var site := DeclarationSite(id, init != NoExpr);
      if v.thrown then Outcome(v.run, Threw)
      else if kind != Var then Initialize(x, site, init != NoExpr, v.value, v.run, a)
      else if init == NoExpr then Outcome(v.run, Normal)
      else
        var w := StoreTo(x, site, v.value, v.run, a);
        Outcome(w.run, if w.thrown then Threw else Normal)
    case Evaluate(e) =>
      var v := Eval(e, r, a);
      Outcome(v.run, if v.thrown then Threw else Normal)
    case Block(scope, body) => Leave(Exec(body, {}, EnterScope(r, scope, a), a, fuel), scope)
    case If(test, yes, no) =>
      var t := Eval(test, r, a);
      if t.thrown then Outcome(t.run, Threw) else Exec(if Truthy(t.value) then yes else no, {}, t.run, a, fuel)
    case While(test, body) =>
      if fuel == 0 then Outcome(r, Halted) else
      var t := Eval(test, r, a);
      if t.thrown then Outcome(t.run, Threw)
      else if test != NoExpr && !Truthy(t.value) then Outcome(t.run, Normal)
      else
        var o := Exec(body, {}, t.run, a, fuel);
        if GoesRound(o.how, labels) then Exec(s, labels, o.run, a, fuel - 1) else Loop(o, labels)
    case DoWhile(test, body) =>
      if fuel == 0 then Outcome(r, Halted) else
      var o := Exec(body, {}, r, a, fuel);
      if !GoesRound(o.how, labels) then Loop(o, labels) else
      var t := Eval(test, o.run, a);
      if t.thrown then Outcome(t.run, Threw)
      else if test != NoExpr && !Truthy(t.value) then Outcome(t.run, Normal)
      else Exec(s, labels, t.run, a, fuel - 1)
    case For(scope, start, _, _, _) =>
      var o := Exec(start, {}, EnterScope(r, scope, a), a, fuel);
      Leave(if o.how.Normal? then ForRounds(s, labels, Emit(o.run, Renew(scope)), a, fuel) else o, scope)
    case ForOf(_, _, _, subject, _) =>
      var v := Eval(subject, r, a);
      if v.thrown then Outcome(v.run, Threw) else ForOfRounds(s, labels, v.run, a, fuel)
    case Labeled(tag, body) =>
      if IsLoop(body) then Exec(body, labels + {tag}, r, a, fuel) else
      var o := Exec(body, if body.Labeled? then labels + {tag} else {}, r, a, fuel);
      if o.how == BreakTo(tag) then o.(how := Normal)
      else if o.how == ContinueTo(tag) && !LabelsLoop(body) then o.(how := Halted)    // an early error
      else o
    case Break(tag) => Outcome(r, BreakTo(tag))
    case Continue(tag) => Outcome(r, ContinueTo(tag))
    case Return(e) =>
      var v := Eval(e, r, a);
      Outcome(v.run, if v.thrown then Threw else Returned)
    case Throw(e) => Outcome(Eval(e, r, a).run, Threw)
    case Switch(_, _, _) => ExecSwitch(s, r, a, fuel)
    case Try(_, _, _, finalizer) =>
      var o := ExecGuarded(s, r, a, fuel);
      match finalizer
      case NoFinally => o
      case Finally(last) =>
        if o.how.Halted? then o
        else if o.how.Normal? then Exec(last, {}, o.run, a, fuel)
        else
          var f := Exec(last, {}, Emit(o.run, FinallyAbrupt(s, r.history)), a, fuel);
          if f.how.Normal? then Outcome(Emit(f.run, FinallyDone(o.run.history)), o.how) else f
  }

  function ForRounds(s: Stmt, labels: set<string>, r: Run, a: Activation, fuel: nat): Outcome
    requires s.For?
    decreases fuel, s, 0
  {
    if fuel == 0 then Outcome(r, Halted) else
    var t := Eval(s.test, r, a);
    if t.thrown then Outcome(t.run, Threw)
    else if s.test != NoExpr && !Truthy(t.value) then Outcome(t.run, Normal)
    else
      var o := Exec(s.body, {}, t.run, a, fuel);
      if !GoesRound(o.how, labels) then Loop(o, labels) else
      var u := Eval(s.update, Emit(o.run, Renew(s.scope)), a);
      if u.thrown then Outcome(u.run, Threw) else ForRounds(s, labels, u.run, a, fuel - 1)
  }

  // The loop variable is a fresh binding in each round.
  function ForOfRounds(s: Stmt, labels: set<string>, r: Run, a: Activation, fuel: nat): Outcome
    requires s.ForOf?
    decreases fuel, s, 0
  {
    if fuel == 0 then Outcome(r, Halted) else
    var c := Ask(r, a);
    if c.thrown then Outcome(c.run, Threw)
    else if a.oracle(r.clock).done then Outcome(c.run, Normal)
    else
      var o := Leave(ForOfRound(s, c.value, EnterScope(c.run, s.scope, a), a, fuel), s.scope);
      if GoesRound(o.how, labels) then ForOfRounds(s, labels, o.run, a, fuel - 1)
      else if o.how.Halted? then o
      else Loop(CloseIterator(o, a), labels)
  }

  // A loop left early lets its iterator know, which may throw; a throw under way stays as it is.
  function CloseIterator(o: Outcome, a: Activation): Outcome {
    var c := Ask(o.run, a);
    Outcome(c.run, if c.thrown then Threw else o.how)
  }

  function ForOfRound(s: Stmt, v: Value, r: Run, a: Activation, fuel: nat): Outcome
    requires s.ForOf?
    decreases fuel, s.body, 2
  {
    if s.kind != Var then
      var o := Initialize(s.sym, OtherSite, true, v, r, a);
      if o.how.Normal? then Exec(s.body, {}, o.run, a, fuel) else o
    else
      var w := StoreTo(s.sym, OtherSite, v, r, a);
      if w.thrown then Outcome(w.run, Threw) else Exec(s.body, {}, w.run, a, fuel)
  }

  // The try block, and its catch clause when the block throws.
  function ExecGuarded(s: Stmt, r: Run, a: Activation, fuel: nat): Outcome
    requires s.Try?
    decreases fuel, s, 0
  {
    var o := Exec(s.block, {}, r, a, fuel);
    match s.handler
    case NoCatch => o
    case Catch(scope, body) =>
      if !o.how.Threw? then o
      else Leave(Exec(body, {}, EnterScope(Emit(o.run, Caught(r.history)), scope, a), a, fuel), scope)
  }

  // Which clause of a switch on v is entered: the first whose test equals v, the tests run in order.
  datatype Selection = Selection(run: Run, thrown: bool, found: bool, clause: nat)

  function Select(cases: Cases, clause: nat, v: Value, r: Run, a: Activation): Selection {
    match cases
    case NoCases => Selection(r, false, false, 0)
    case Case(test, _, rest) =>
      if test == NoExpr then Select(rest, clause + 1, v, r, a) else
      var t := Eval(test, r, a);
      if t.thrown then Selection(t.run, true, false, 0)
      else if t.value == v then Selection(t.run, false, true, clause)
      else Select(rest, clause + 1, v, t.run, a)
  }

  function Length(cases: Cases): nat {
    if cases.NoCases? then 0 else 1 + Length(cases.rest)
  }

  // The default clause's position, or the end when there is none.
  function DefaultClause(cases: Cases): nat {
    if cases.NoCases? || cases.test == NoExpr then 0 else 1 + DefaultClause(cases.rest)
  }

  // The bodies from clause k on, one falling through to the next.
  function ExecFrom(cases: Cases, k: nat, r: Run, a: Activation, fuel: nat): Outcome
    decreases fuel, cases, 1
  {
    match cases
    case NoCases => Outcome(r, Normal)
    case Case(_, body, rest) =>
      if k > 0 then ExecFrom(rest, k - 1, r, a, fuel) else
      var o := Exec(body, {}, r, a, fuel);
      if o.how.Normal? then ExecFrom(rest, 0, o.run, a, fuel) else o
  }

  function ExecSwitch(s: Stmt, r: Run, a: Activation, fuel: nat): Outcome
    requires s.Switch?
    decreases fuel, s, 0
  {
    var d := Eval(s.discriminant, r, a);
    if d.thrown then Outcome(d.run, Threw) else
    var sel := Select(s.cases, 0, d.value, EnterScope(d.run, s.scope, a), a);
    if sel.thrown then Leave(Outcome(sel.run, Threw), s.scope) else
    var o := ExecFrom(s.cases, if sel.found then sel.clause else DefaultClause(s.cases), sel.run, a, fuel);
    Leave(if o.how == BreakTo("") then o.(how := Normal) else o, s.scope)
  }

  // A function's body, from its first statement.
  function Execute(body: Stmt, a: Activation, fuel: nat): Outcome {
    Exec(body, {}, Run(Begin, 0), a, fuel)
  }
}
