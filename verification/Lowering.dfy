/** Lowering of checked statements to flat instructions, as a function of the
    lowering context.

    `AsWritten` is what the compiler does.  `Intended` lowers the same way, and
    picks the same C names, but keeps to the lexical scopes of the source at the
    places where the compiler's own scope list runs ahead or lags behind:
      - an initialiser is lowered after its own name has been registered;
      - what a `for` header or a try prefix declares stays registered afterwards;
      - defers stay registered when their block ends;
      - the body of a defer is lowered among the locals of the place it is
        inlined at;
      - a compound assignment from a try expression becomes a plain one;
      - in a void function the operand of `return` is left behind the defers;
      - a nested function forgets which C names its parent has taken, and inside the
        body of a defer it would still see the captured values of the defer. */
module Lowering {
  import opened Lists
  import opened Naming
  import opened Syntax

  datatype Mode = AsWritten | Intended

  datatype Local = Local(name: string, cname: string)

  datatype DeferEntry = DeferEntry(id: string, env: Option<nat>)

  /** The part of the lowering context that one function body works on. */
  datatype Ctx = Ctx(
    prefix: string,
    locals: List<Local>,       // visible locals, newest first
    decls: set<string>,        // every C name declared in this function so far
    defers: List<DeferEntry>,  // registered defer closures, newest first
    env: Option<nat>,          // captured values of the defer body being inlined
    retSeq: nat,
    switchSeq: nat,
    deferSeq: nat,
    retVoid: bool,
    hung: bool)                // a search for a free name did not end: nothing is emitted

  datatype Out = Out(ctx: Ctx, code: List<CStmt>)

  /** The numbering of temporaries only moves forward. */
  predicate Ahead(c: Ctx, c': Ctx) {
    && c.switchSeq <= c'.switchSeq && c.deferSeq <= c'.deferSeq && c.retSeq <= c'.retSeq
    && c.prefix == c'.prefix && c.retVoid == c'.retVoid && c.env == c'.env
  }

  function FindLocal(locals: List<Local>, x: string): Option<string> {
    match locals
    case Nil => None
    case Cons(l, rest) => if l.name == x then Some(l.cname) else FindLocal(rest, x)
  }

  function FindDefer(defers: List<DeferEntry>, id: string): Option<DeferEntry> {
    match defers
    case Nil => None
    case Cons(d, rest) => if d.id == id then Some(d) else FindDefer(rest, id)
  }

  function Resolve(c: Ctx, x: string): CName {
    match FindLocal(c.locals, x)
    case Some(cname) => Sym(cname)
    case None => Glob(GlobalSym(c.prefix, x))
  }

  function FreshName(c: Ctx, x: string): string { UniqueName(GlobalSym(c.prefix, x), c.decls) }

  function Register(c: Ctx, x: string): Ctx {
    var cname := FreshName(c, x);
    c.(locals := Cons(Local(x, cname), c.locals), decls := c.decls + {cname},
       hung := c.hung || NoName(GlobalSym(c.prefix, x), c.decls))
  }

  /* ------------------------------ expressions ------------------------------ */

  function LowerE(e: Expr, c: Ctx): CExpr
    decreases e
  {
    match e
    case Lit(n) => CLit(n)
    case Ident(x) => CIdent(Resolve(c, x))
    case CapRef(x) => CCapture(c.env, x)
    case Unary(op, a) => CUnary(op, LowerE(a, c))
    case Binary(op, a, b) => CBinary(op, LowerE(a, c), LowerE(b, c))
    case Call(f, args) => CCall(f, LowerArgs(args, c))
    case AssignE(x, aop, a) =>
      if x == DISCARD then LowerE(a, c) else CAssignE(Resolve(c, x), aop, LowerE(a, c))
    case Ternary(t, a, b) => CTernary(LowerE(t, c), LowerE(a, c), LowerE(b, c))
  }

  function LowerArgs(es: List<Expr>, c: Ctx): List<CExpr>
    decreases es
  {
    match es
    case Nil => Nil
    case Cons(e, rest) => Cons(LowerE(e, c), LowerArgs(rest, c))
  }

  function LowerOpt(e: Option<Expr>, c: Ctx): Option<CExpr> {
    match e
    case None => None
    case Some(x) => Some(LowerE(x, c))
  }

  function LowerCaptures(cs: List<Capture>, c: Ctx): List<CField>
    decreases cs
  {
    match cs
    case Nil => Nil
    case Cons(k, rest) => Cons(CField(k.name, LowerE(k.e, c)), LowerCaptures(rest, c))
  }

  /** `tmp == p`, one alternative of a switch branch. */
  function PatternTest(tmp: CName, e: Expr, c: Ctx): CExpr {
    CBinary(EqEq, CIdent(tmp), LowerE(e, c))
  }

  /** The alternatives after the first are chained to the left with `||`. */
  function OrChain(acc: CExpr, tmp: CName, es: List<Expr>, c: Ctx): CExpr
    decreases es
  {
    match es
    case Nil => acc
    case Cons(e, rest) => OrChain(CBinary(OrOr, acc, PatternTest(tmp, e, c)), tmp, rest, c)
  }

  /* ------------------------------- statements ------------------------------ */

  /** The end of a block drops its locals, but not its defers. */
  function BlockEnd(m: Mode, outer: Ctx, inner: Ctx): Ctx {
    inner.(locals := outer.locals, defers := if m.Intended? then outer.defers else inner.defers)
  }

  /** The end of a construct that opens a scope in the source but is lowered
      without one. */
  function ScopeEnd(m: Mode, outer: Ctx, inner: Ctx): Ctx {
    if m.Intended? then BlockEnd(m, outer, inner) else inner
  }

  /** In the context c, the scope as the source sees it from `outer`. */
  function Within(m: Mode, outer: Ctx, c: Ctx): Ctx { ScopeEnd(m, outer, c) }

  function LowerTryPrefix(m: Mode, t: Try, c: Ctx): (o: Out)
    ensures Ahead(c, o.ctx)
    decreases t, 0
  {
    var setup := Lower(m, t.setup, c);
    var tail := if t.tail.Some? then Lower(m, t.tail.value, setup.ctx) else Out(setup.ctx, Nil);
    Out(ScopeEnd(m, setup.ctx, tail.ctx),
        Append(setup.code, Single(CIf(CUnary(LNot, LowerE(t.ok, setup.ctx)), tail.code, Nil))))
  }

  /** `return v` where v is lowered in cv and the defers in c: save the value,
      run the defers, return what was saved. */
  function LowerReturn(m: Mode, v: Option<CExpr>, defers: List<Stmt>, c: Ctx): (o: Out)
    ensures Ahead(c, o.ctx)
    decreases defers, 2
  {
    if defers.Nil? then Out(c, Single(CReturn(v)))
    else if v.Some? && (!c.retVoid || m.Intended?) then
      var tmp := RetTmp(c.retSeq);
      var d := LowerList(m, defers, c.(retSeq := c.retSeq + 1));
      Out(ScopeEnd(m, c, d.ctx),
          Single(CBlock(Cons(CVar(tmp, v), Append(d.code, Single(CReturn(Some(CIdent(tmp)))))))))
    else
      var d := LowerList(m, defers, c);
      Out(ScopeEnd(m, c, d.ctx), Single(CBlock(Append(d.code, Single(CReturn(v))))))
  }

  /** `break` and `continue` behind their defers. */
  function LowerJump(m: Mode, jump: CStmt, defers: List<Stmt>, c: Ctx): (o: Out)
    ensures Ahead(c, o.ctx)
    decreases defers, 2
  {
    if defers.Nil? then Out(c, Single(jump))
    else
      var d := LowerList(m, defers, c);
      Out(ScopeEnd(m, c, d.ctx), Single(CBlock(Append(d.code, Single(jump)))))
  }

  function Lower(m: Mode, s: Stmt, c: Ctx): (o: Out)
    ensures Ahead(c, o.ctx)
    decreases s, 0
  {
    hide UniqueName;
    match s
    case VarDef(x, init) =>
      var c1 := Register(c, x);
      var target := Sym(FreshName(c, x));
      // the initialiser, as the source sees it, is not in the scope of x
      var ci := if m.Intended? then c1.(locals := c.locals) else c1;
      (match init
       case NoInit => Out(c1, Single(CVar(target, None)))
       case InitExpr(e) => Out(c1, Single(CVar(target, Some(LowerE(e, ci)))))
       case InitTry(t) =>
         var pre := LowerTryPrefix(m, t, ci);
         var value := LowerE(t.value, pre.ctx);
         var store := if m.Intended? then StoreIn(target, x, value) else LowerAssign(x, None, value, pre.ctx);
         Out(ScopeEnd(m, c1, pre.ctx),
             Cons(CVar(target, None), Single(CBlock(Append(pre.code, Single(store)))))))
    case Assign(x, aop, e) => Out(c, Single(LowerAssign(x, aop, LowerE(e, c), c)))
    case AssignTry(x, aop, t) =>
      var pre := LowerTryPrefix(m, t, c);
      var op := if m.Intended? then aop else None;
      var store := LowerAssign(x, op, LowerE(t.value, pre.ctx), Within(m, c, pre.ctx));
      Out(ScopeEnd(m, c, pre.ctx), Single(CBlock(Append(pre.code, Single(store)))))
    case ExprStmt(e) => Out(c, Single(CEval(LowerE(e, c))))
    case Return(v, ds) => LowerReturn(m, LowerOpt(v, c), ds, c)
    case ReturnTry(t, ds) =>
      var pre := LowerTryPrefix(m, t, c);
      var ret := LowerReturn(m, Some(LowerE(t.value, pre.ctx)), ds, Within(m, c, pre.ctx));
      Out(ScopeEnd(m, c, ret.ctx), Single(CBlock(Append(pre.code, ret.code))))
    case Break(ds) => LowerJump(m, CBreak, ds, c)
    case Continue(ds) => LowerJump(m, CContinue, ds, c)
    case If(e, thn, els) =>
      var a := LowerBlock(m, thn, c);
      (match els
       case NoElse => Out(a.ctx, Single(CIf(LowerE(e, c), a.code, Nil)))
       case ElseBlock(b) =>
         var o := LowerBlock(m, b, a.ctx);
         Out(o.ctx, Single(CIf(LowerE(e, c), a.code, o.code)))
       case ElseIf(s') =>
         var o := Lower(m, s', a.ctx);
         Out(ScopeEnd(m, a.ctx, o.ctx), Single(CIf(LowerE(e, c), a.code, o.code))))
    case Switch(e, arms) =>
      var tmp := SwitchTmp(c.switchSeq);
      var o := LowerArms(m, tmp, arms, c.(switchSeq := c.switchSeq + 1));
      Out(o.ctx, Single(CBlock(Cons(CVar(tmp, Some(LowerE(e, c))), o.code))))
    case While(e, body) =>
      var o := LowerBlock(m, body, c);
      Out(o.ctx, Single(CWhile(LowerE(e, c), o.code)))
    case DoWhile(body, e) =>
      var o := LowerBlock(m, body, c);
      Out(o.ctx, Single(CDoWhile(o.code, LowerE(e, c))))
    case For(start, test, step, body) =>
      var i := if start.Some? then Lower(m, start.value, c) else Out(c, Nil);
      var o := LowerBlock(m, body, i.ctx);
      Out(ScopeEnd(m, c, o.ctx), Single(CFor(i.code, LowerOpt(test, i.ctx), LowerOpt(step, i.ctx), o.code)))
    case Block(body) => LowerBlock(m, body, c)
    case DeferDef(id, captures, _) =>
      if captures.Nil? then Out(c.(defers := Cons(DeferEntry(id, None), c.defers)), Nil)
      else
        Out(c.(defers := Cons(DeferEntry(id, Some(c.deferSeq)), c.defers), deferSeq := c.deferSeq + 1),
            Single(CVarStruct(DeferEnv(c.deferSeq), LowerCaptures(captures, c))))
    case DeferCall(id, body) =>
      (match FindDefer(c.defers, id)
       case None => Out(c, Single(CEval(CCall(id, Nil))))
       case Some(d) =>
         var o := LowerBlock(m, body, DeferScope(m, d, c));
         Out(DeferEnd(m, c, o.ctx), Single(CBlock(o.code))))
    case Decorated(pre, core, post) =>
      var a := LowerList(m, pre, c);
      var b := if core.Some? then Lower(m, core.value, a.ctx) else Out(a.ctx, Nil);
      var d := LowerList(m, post, b.ctx);
      Out(d.ctx, Append(a.code, Append(b.code, d.code)))
    case LocalFn(params, body, void) =>
      var o := LowerBlock(m, body, RegisterAll(params, FunctionStart(m, c, void)));
      Out(c.(decls := if m.Intended? then c.decls else o.ctx.decls,
             switchSeq := o.ctx.switchSeq, deferSeq := o.ctx.deferSeq, hung := c.hung || o.ctx.hung),
          Single(CNested(ParamSymbols(c.prefix, params), o.code)))
  }

  /** The store of a new variable's value, unless it is the discard target. */
  function StoreIn(target: CName, x: string, e: CExpr): CStmt {
    if x == DISCARD then CEval(e) else CAssign(target, None, e)
  }

  /** The parameters of a C function carry the plain symbols. */
  function ParamSymbols(prefix: string, params: List<string>): List<string> {
    match params
    case Nil => Nil
    case Cons(x, rest) => Cons(GlobalSym(prefix, x), ParamSymbols(prefix, rest))
  }

  function LowerAssign(x: string, aop: Option<nat>, e: CExpr, c: Ctx): CStmt {
    if x == DISCARD then CEval(e) else CAssign(Resolve(c, x), aop, e)
  }

  /** The body of a defer sees its captures; the source shows it nothing else of
      the function around it. */
  function DeferScope(m: Mode, d: DeferEntry, c: Ctx): Ctx {
    if m.Intended? then c.(env := d.env, locals := Nil, defers := Nil) else c.(env := d.env)
  }

  function DeferEnd(m: Mode, outer: Ctx, inner: Ctx): Ctx {
    BlockEnd(m, outer, inner).(env := outer.env)
  }

  /** A function starts with an empty scope, no taken names and its own result; the
      captured values of a defer around it are not its own. */
  function FunctionStart(m: Mode, c: Ctx, void: bool): Ctx {
    c.(locals := Nil, decls := {}, defers := Nil, env := if m.Intended? then None else c.env, retSeq := 0,
       retVoid := void, hung := false)
  }

  function RegisterAll(params: List<string>, c: Ctx): (c': Ctx)
    ensures Ahead(c, c')
    decreases params
  {
    match params
    case Nil => c
    case Cons(x, rest) => RegisterAll(rest, Register(c, x))
  }

  function LowerList(m: Mode, ss: List<Stmt>, c: Ctx): (o: Out)
    ensures Ahead(c, o.ctx)
    decreases ss, 0
  {
    match ss
    case Nil => Out(c, Nil)
    case Cons(s, rest) =>
      var a := Lower(m, s, c);
      var b := LowerList(m, rest, a.ctx);
      Out(b.ctx, Append(a.code, b.code))
  }

  /** A block has no instruction of its own: its statements join the chain. */
  function LowerBlock(m: Mode, ss: List<Stmt>, c: Ctx): (o: Out)
    ensures Ahead(c, o.ctx)
    decreases ss, 1
  {
    var o := LowerList(m, ss, c);
    Out(BlockEnd(m, c, o.ctx), o.code)
  }

  /** A switch is a chain of ifs over the saved value; a branch without patterns
      is dropped. */
  function LowerArms(m: Mode, tmp: CName, arms: Arms, c: Ctx): (o: Out)
    ensures Ahead(c, o.ctx)
    decreases arms, 0
  {
    match arms
    case Default(None) => Out(c, Nil)
    case Default(Some(body)) => LowerBlock(m, body, c)
    case Arm(Nil, _, rest) => LowerArms(m, tmp, rest, c)
    case Arm(Cons(e, es), body, rest) =>
      var a := LowerBlock(m, body, c);
      var b := LowerArms(m, tmp, rest, a.ctx);
      Out(b.ctx, Single(CIf(OrChain(PatternTest(tmp, e, c), tmp, es, c), a.code, b.code)))
  }
}
