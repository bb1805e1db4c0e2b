/** The checked tree that lowering reads and the flat instructions it emits. */
module Syntax {
  import opened Lists
  import opened Naming

  datatype UnOp = LNot | UArith(code: nat)

  datatype BinOp = AndAnd | OrOr | EqEq | Arith(code: nat)

  /* ------------------------------ source tree ------------------------------ */

  datatype Expr =
    | Lit(n: int)
    | Ident(name: string)
    | CapRef(name: string)  // `__ctx.env.<name>`: a value captured by the running closure
    | Unary(uop: UnOp, e: Expr)
    | Binary(bop: BinOp, l: Expr, r: Expr)
    | Call(callee: string, args: List<Expr>)
    | AssignE(name: string, aop: Option<nat>, e: Expr)
    | Ternary(cond: Expr, thn: Expr, els: Expr)

  /** `e.?` / `e.!` after analysis: declare the result, ask whether it is good,
      either leave through the tail or go on with the value. */
  datatype Try = Try(setup: Stmt, ok: Expr, value: Expr, tail: Option<Stmt>)

  datatype Init = NoInit | InitExpr(e: Expr) | InitTry(t: Try)

  datatype Capture = Capture(name: string, e: Expr)

  /** The branches of a switch in order; the chain ends in the default, if any. */
  datatype Arms =
    | Default(dflt: Option<List<Stmt>>)
    | Arm(patterns: List<Expr>, body: List<Stmt>, rest: Arms)

  datatype Else = NoElse | ElseBlock(body: List<Stmt>) | ElseIf(s: Stmt)

  datatype Stmt =
    | VarDef(name: string, init: Init)
    | Assign(name: string, aop: Option<nat>, value: Expr)
    | AssignTry(name: string, aop: Option<nat>, t: Try)
    | ExprStmt(e: Expr)
    | Return(result: Option<Expr>, defers: List<Stmt>)
    | ReturnTry(t: Try, defers: List<Stmt>)
    | Break(defers: List<Stmt>)
    | Continue(defers: List<Stmt>)
    | If(cond: Expr, body: List<Stmt>, els: Else)
    | Switch(cond: Expr, arms: Arms)
    | While(cond: Expr, body: List<Stmt>)
    | DoWhile(body: List<Stmt>, cond: Expr)
    | For(start: Option<Stmt>, test: Option<Expr>, step: Option<Expr>, body: List<Stmt>)
    | Block(body: List<Stmt>)
    // a `__defer_N` closure is registered: its captures are copied here
    | DeferDef(id: string, captures: List<Capture>, body: List<Stmt>)
    // `__defer_N()`; carries the body of the closure that the name refers to
    | DeferCall(id: string, body: List<Stmt>)
    // a statement with the prelude and postlude that analysis hung on it
    | Decorated(pre: List<Stmt>, core: Option<Stmt>, post: List<Stmt>)
    // a named function inside a block, without captured values
    | LocalFn(params: List<string>, body: List<Stmt>, void: bool)

  /** The assignment target that only evaluates its right-hand side. */
  const DISCARD := "_"

  /* --------------------------- generated code (IR) -------------------------- */

  datatype CExpr =
    | CLit(n: int)
    | CIdent(c: CName)
    | CCapture(env: Option<nat>, field: string)  // field of a captured-values struct
    | CUnary(uop: UnOp, e: CExpr)
    | CBinary(bop: BinOp, l: CExpr, r: CExpr)
    | CCall(callee: string, args: List<CExpr>)
    | CAssignE(target: CName, aop: Option<nat>, e: CExpr)
    | CTernary(cond: CExpr, thn: CExpr, els: CExpr)

  datatype CField = CField(name: string, e: CExpr)

  datatype CStmt =
    | CVar(c: CName, init: Option<CExpr>)  // without initialiser: `= {0}`
    | CVarStruct(c: CName, fields: List<CField>)
    | CAssign(target: CName, aop: Option<nat>, e: CExpr)
    | CEval(x: CExpr)
    | CReturn(v: Option<CExpr>)
    | CIf(cond: CExpr, body: List<CStmt>, els: List<CStmt>)
    | CWhile(cond: CExpr, body: List<CStmt>)
    | CDoWhile(body: List<CStmt>, cond: CExpr)
    | CFor(start: List<CStmt>, test: Option<CExpr>, step: Option<CExpr>, body: List<CStmt>)
    | CBlock(body: List<CStmt>)
    | CBreak
    | CContinue
    // the function lowered for a nested function; it becomes a function of the unit
    | CNested(params: List<string>, body: List<CStmt>)

  /* -------------------------- the surrounding program ----------------------- */

  datatype Event = Event(callee: string, args: seq<int>)

  datatype CallResult = Returns(value: int, globals: map<string, int>) | NoReturn

  /** What a function body runs against: the module's globals with the C symbol
      of each, the arithmetic of the operators, and the functions it calls, which
      may read and write globals and may depend on everything that happened. */
  datatype Program = Program(
    prefix: string,
    globals: set<string>,
    symtab: map<string, string>,
    arith: (nat, int, int) -> Option<int>,
    unary: (nat, int) -> Option<int>,
    call: (string, seq<int>, map<string, int>, seq<Event>) -> CallResult)

  function GlobalSym(prefix: string, name: string): string { Symbol(prefix, "v_", name) }

  /** Every global can be found again through its C symbol. */
  ghost predicate LinksGlobals(p: Program) {
    forall g :: g in p.globals ==>
      GlobalSym(p.prefix, g) in p.symtab && p.symtab[GlobalSym(p.prefix, g)] == g
  }

  datatype Outcome =
    | Normal
    | Broke
    | Continued
    | Returned(v: Option<int>)
    | Aborted     // a callee did not return
    | OutOfFuel
    | Wrong       // no meaning: unbound or unset name, undefined operation

  datatype Ev<S> = Val(v: int, st: S) | Halt(why: Outcome, st: S)

  datatype Evs<S> = Vals(vs: seq<int>, st: S) | HaltArgs(why: Outcome, st: S)

  datatype Ans<S> = Ans(o: Outcome, st: S)

  datatype Field = Field(name: string, v: int)

  datatype Fields<S> = Rec(fs: List<Field>, st: S) | HaltFields(why: Outcome, st: S)

  function FindField(fs: List<Field>, name: string): Option<int> {
    match fs
    case Nil => None
    case Cons(f, rest) => if f.name == name then Some(f.v) else FindField(rest, name)
  }

  function Truth(b: bool): int { if b then 1 else 0 }

  function ApplyUnary(p: Program, op: UnOp, v: int): Option<int> {
    match op
    case LNot => Some(Truth(v == 0))
    case UArith(code) => p.unary(code, v)
  }

  /** Operators that always evaluate both operands. */
  function ApplyBinary(p: Program, op: BinOp, a: int, b: int): Option<int> {
    match op
    case AndAnd => Some(Truth(a != 0 && b != 0))
    case OrOr => Some(Truth(a != 0 || b != 0))
    case EqEq => Some(Truth(a == b))
    case Arith(code) => p.arith(code, a, b)
  }

  /** The left operand alone already decides `&&` or `||`. */
  predicate ShortCircuits(op: BinOp, a: int) {
    (op.AndAnd? && a == 0) || (op.OrOr? && a != 0)
  }

  function Combine(p: Program, aop: Option<nat>, old_: Option<int>, v: int): Option<int> {
    match aop
    case None => Some(v)
    case Some(code) => if old_.Some? then p.arith(code, old_.value, v) else None
  }
}
