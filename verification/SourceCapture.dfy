/** The capture of globals, read off the source text.

    A mention of a global is captured in C where a local with the global's symbol is
    declared in the same braces or in braces around it.  Blocks of the source are no
    braces in C, while a switch, a try or an exit past defers opens some of its own.
    This module follows, through the source, which C names are in scope. */
module SourceCapture {
  import opened Lists
  import opened Naming
  import opened Syntax
  import opened Lowering
  import opened Freshness
  import opened Frames
  import opened Spelling
  import opened Scoping

  /* ----------------------- what a statement leaves in scope -------------------- */

  /** The C names that s declares in the braces it stands in. */
  function Leaves(s: Stmt, c: Ctx): set<CName>
    decreases s, 1
  {
    match s
    case VarDef(x, _) => {Sym(FreshName(c, x))}
    case Block(a) => LeavesList(a, c)
    case DeferDef(_, captures, _) => if captures.Nil? then {} else {DeferEnv(c.deferSeq)}
    case Decorated(a, core, b) =>
      var c1 := AfterList(Intended, a, c);
      LeavesList(a, c) + (LeavesOpt(core, c1) + LeavesList(b, AfterOpt(Intended, core, c1)))
    case _ => {}
  }

  function LeavesOpt(s: Option<Stmt>, c: Ctx): set<CName>
    decreases s, 2
  {
    if s.Some? then Leaves(s.value, c) else {}
  }

  function LeavesList(ss: List<Stmt>, c: Ctx): set<CName>
    decreases ss, 0
  {
    match ss
    case Nil => {}
    case Cons(s, rest) => Leaves(s, c) + LeavesList(rest, After(Intended, s, c))
  }

  /* -------------------------- no mention is captured --------------------------- */

  /** The source means a local by x, or no local in scope has the global's symbol. */
  predicate Open(x: string, c: Ctx, scope: set<CName>) {
    FindLocal(c.locals, x).Some? || Sym(GlobalSym(c.prefix, x)) !in scope
  }

  predicate OpenE(e: Expr, c: Ctx, scope: set<CName>)
    decreases e
  {
    match e
    case Ident(x) => Open(x, c, scope)
    case Unary(_, a) => OpenE(a, c, scope)
    case Binary(_, a, b) => OpenE(a, c, scope) && OpenE(b, c, scope)
    case Call(_, args) => OpenArgs(args, c, scope)
    case AssignE(x, _, a) => (x == DISCARD || Open(x, c, scope)) && OpenE(a, c, scope)
    case Ternary(q, a, b) => OpenE(q, c, scope) && OpenE(a, c, scope) && OpenE(b, c, scope)
    case _ => true
  }

  predicate OpenArgs(es: List<Expr>, c: Ctx, scope: set<CName>)
    decreases es
  {
    es.Cons? ==> OpenE(es.head, c, scope) && OpenArgs(es.tail, c, scope)
  }

  predicate OpenOpt(e: Option<Expr>, c: Ctx, scope: set<CName>) { e.Some? ==> OpenE(e.value, c, scope) }

  predicate OpenCaptures(cs: List<Capture>, c: Ctx, scope: set<CName>) {
    cs.Cons? ==> OpenE(cs.head.e, c, scope) && OpenCaptures(cs.tail, c, scope)
  }

  predicate OpenTry(t: Try, c: Ctx, scope: set<CName>)
    decreases t, 0
  {
    var c1, scope1 := After(Intended, t.setup, c), scope + Leaves(t.setup, c);
    OpenIn(t.setup, c, scope) && OpenE(t.ok, c1, scope1) && (t.tail.Some? ==> OpenIn(t.tail.value, c1, scope1))
  }

  /** Defers of an exit, behind the saved value if there is one. */
  predicate OpenExit(saved: bool, ds: List<Stmt>, c: Ctx, scope: set<CName>)
    decreases ds, 2
  {
    ds.Cons? ==>
      if saved then OpenList(ds, c.(retSeq := c.retSeq + 1), scope + {RetTmp(c.retSeq)}) else OpenList(ds, c, scope)
  }

  predicate OpenList(ss: List<Stmt>, c: Ctx, scope: set<CName>)
    decreases ss, 0
  {
    ss.Cons? ==>
      OpenIn(ss.head, c, scope) && OpenList(ss.tail, After(Intended, ss.head, c), scope + Leaves(ss.head, c))
  }

  predicate OpenArms(arms: Arms, c: Ctx, scope: set<CName>)
    decreases arms, 0
  {
    match arms
    case Default(None) => true
    case Default(Some(b)) => OpenList(b, c, scope)
    case Arm(Nil, _, rest) => OpenArms(rest, c, scope)
    case Arm(Cons(e, es), b, rest) =>
      OpenArgs(Cons(e, es), c, scope) && OpenList(b, c, scope) && OpenArms(rest, AfterBlock(Intended, b, c), scope)
  }

  /** In s, met in view c where the C names in scope are declared, no global that the
      source means has the symbol of a local in scope. */
  predicate OpenIn(s: Stmt, c: Ctx, scope: set<CName>)
    decreases s, 1
  {
    match s
    case VarDef(x, init) =>
      var c1, scope1 := InitScope(Intended, x, c), scope + {Sym(FreshName(c, x))};
      (match init
       case NoInit => true
       case InitExpr(e) => OpenE(e, c1, scope1)
       case InitTry(t) =>
         OpenTry(t, c1, scope1) && OpenE(t.value, AfterTry(Intended, t, c1), scope1 + Leaves(t.setup, c1)))
    case Assign(x, _, e) => (x == DISCARD || Open(x, c, scope)) && OpenE(e, c, scope)
    case AssignTry(x, _, t) =>
      var scope1 := scope + Leaves(t.setup, c);
      && OpenTry(t, c, scope) && OpenE(t.value, AfterTry(Intended, t, c), scope1)
      && (x == DISCARD || Open(x, c, scope1))
    case ExprStmt(e) => OpenE(e, c, scope)
    case Return(v, ds) =>
      // the operand is the initialiser of the temporary
      OpenOpt(v, c, scope) && OpenExit(v.Some?, ds, c, scope)
    case ReturnTry(t, ds) =>
      var c1, scope1 := AfterTry(Intended, t, c), scope + Leaves(t.setup, c);
      OpenTry(t, c, scope) && OpenE(t.value, c1, scope1) && OpenExit(true, ds, ScopeEnd(Intended, c, c1), scope1)
    case Break(ds) => OpenExit(false, ds, c, scope)
    case Continue(ds) => OpenExit(false, ds, c, scope)
    case If(e, a, els) =>
      var c1 := AfterBlock(Intended, a, c);
      && OpenE(e, c, scope) && OpenList(a, c, scope)
      && (match els
          case NoElse => true
          case ElseBlock(b) => OpenList(b, c1, scope)
          case ElseIf(s') => OpenIn(s', c1, scope))
    case Switch(e, arms) =>
      OpenE(e, c, scope) && OpenArms(arms, c.(switchSeq := c.switchSeq + 1), scope + {SwitchTmp(c.switchSeq)})
    case While(e, a) => OpenE(e, c, scope) && OpenList(a, c, scope)
    case DoWhile(a, e) => OpenE(e, c, scope) && OpenList(a, c, scope)
    case For(i, test, step, a) =>
      var c1, scope1 := AfterOpt(Intended, i, c), scope + LeavesOpt(i, c);
      && (i.Some? ==> OpenIn(i.value, c, scope))
      && OpenOpt(test, c1, scope1) && OpenOpt(step, c1, scope1) && OpenList(a, c1, scope1)
    case Block(a) => OpenList(a, c, scope)
    case DeferDef(_, captures, _) => OpenCaptures(captures, c, scope)
    case DeferCall(id, a) =>
      var d := FindDefer(c.defers, id);
      d.Some? ==> OpenList(a, DeferScope(Intended, d.value, c), scope)
    case Decorated(a, core, b) =>
      var c1, scope1 := AfterList(Intended, a, c), scope + LeavesList(a, c);
      && OpenList(a, c, scope) && (core.Some? ==> OpenIn(core.value, c1, scope1))
      && OpenList(b, AfterOpt(Intended, core, c1), scope1 + LeavesOpt(core, c1))
    // a nested function has a scope of its own
    case LocalFn(_, _, _) => true
  }

  /* -------------------------------- expressions -------------------------------- */

  /** A lowered expression mentions a captured global exactly if its text shows one. */
  lemma {:induction false} ExprOpen(e: Expr, c: Ctx, scope: set<CName>)
    ensures FreeE(LowerE(e, c), scope) <==> OpenE(e, c, scope)
    decreases e
  {
    match e
    case Unary(_, a) => ExprOpen(a, c, scope);
    case Binary(_, a, b) =>
      ExprOpen(a, c, scope);
      ExprOpen(b, c, scope);
    case Call(_, args) => ArgsOpen(args, c, scope);
    case AssignE(_, _, a) => ExprOpen(a, c, scope);
    case Ternary(q, a, b) =>
      ExprOpen(q, c, scope);
      ExprOpen(a, c, scope);
      ExprOpen(b, c, scope);
    case _ =>
  }

  lemma {:induction false} ArgsOpen(es: List<Expr>, c: Ctx, scope: set<CName>)
    ensures FreeArgs(LowerArgs(es, c), scope) <==> OpenArgs(es, c, scope)
    decreases es
  {
    if es.Cons? {
      ExprOpen(es.head, c, scope);
      ArgsOpen(es.tail, c, scope);
    }
  }

  lemma OptOpen(e: Option<Expr>, c: Ctx, scope: set<CName>)
    ensures FreeOpt(LowerOpt(e, c), scope) <==> OpenOpt(e, c, scope)
  {
    if e.Some? {
      ExprOpen(e.value, c, scope);
    }
  }

  lemma {:induction false} CapturesOpen(cs: List<Capture>, c: Ctx, scope: set<CName>)
    ensures FreeFields(LowerCaptures(cs, c), scope) <==> OpenCaptures(cs, c, scope)
  {
    if cs.Cons? {
      ExprOpen(cs.head.e, c, scope);
      CapturesOpen(cs.tail, c, scope);
    }
  }

  lemma {:induction false} OrChainOpen(acc: CExpr, tmp: CName, es: List<Expr>, c: Ctx, scope: set<CName>)
    requires tmp.SwitchTmp?
    ensures FreeE(OrChain(acc, tmp, es, c), scope) <==> FreeE(acc, scope) && OpenArgs(es, c, scope)
    decreases es
  {
    if es.Cons? {
      var test := PatternTest(tmp, es.head, c);
      ExprOpen(es.head, c, scope);
      assert FreeE(test, scope) <==> OpenE(es.head, c, scope) by {
        assert FreeE(CIdent(tmp), scope);
      }
      assert FreeE(CBinary(OrOr, acc, test), scope) <==> FreeE(acc, scope) && FreeE(test, scope);
      OrChainOpen(CBinary(OrOr, acc, test), tmp, es.tail, c, scope);
    }
  }

  lemma AssignOpen(x: string, aop: Option<nat>, e: CExpr, c: Ctx, scope: set<CName>)
    ensures NoCaptureIn(LowerAssign(x, aop, e, c), scope) <==>
            FreeE(e, scope) && (x == DISCARD || Open(x, c, scope))
    ensures Opens(LowerAssign(x, aop, e, c)) == {}
  {
  }

  /* ----------------------------------- chains ---------------------------------- */

  lemma {:induction false} ChainOpen(a: List<CStmt>, b: List<CStmt>, scope: set<CName>)
    ensures OpensAll(Append(a, b)) == OpensAll(a) + OpensAll(b)
    ensures NoCapture(Append(a, b), scope) <==> NoCapture(a, scope) && NoCapture(b, scope + OpensAll(a))
  {
    if a.Nil? {
      assert Append(a, b) == b && OpensAll(a) == {};
      assert scope + OpensAll(a) == scope && OpensAll(a) + OpensAll(b) == OpensAll(b);
    } else {
      var inner := scope + Opens(a.head);
      ChainOpen(a.tail, b, inner);
      assert inner + OpensAll(a.tail) == scope + OpensAll(a);
      assert Append(a, b) == Cons(a.head, Append(a.tail, b));
      ConsOpen(a.head, Append(a.tail, b), scope);
    }
  }

  lemma ConsOpen(s: CStmt, rest: List<CStmt>, scope: set<CName>)
    ensures NoCapture(Cons(s, rest), scope) <==> NoCaptureIn(s, scope) && NoCapture(rest, scope + Opens(s))
    ensures OpensAll(Cons(s, rest)) == Opens(s) + OpensAll(rest)
    ensures NoCapture(Nil, scope) && OpensAll(Nil) == {}
  {
  }

  /** Code that opens these names, and captures nothing exactly if open. */
  predicate Shows(code: List<CStmt>, scope: set<CName>, left: set<CName>, open: bool) {
    OpensAll(code) == left && (NoCapture(code, scope) <==> open)
  }

  lemma ShowsThen(a: List<CStmt>, b: List<CStmt>, scope: set<CName>, left: set<CName>, open: bool,
                  left2: set<CName>, open2: bool)
    requires Shows(a, scope, left, open) && Shows(b, scope + left, left2, open2)
    ensures Shows(Append(a, b), scope, left + left2, open && open2)
  {
    ChainOpen(a, b, scope);
  }

  lemma ShowsOne(s: CStmt, scope: set<CName>)
    ensures Shows(Single(s), scope, Opens(s), NoCaptureIn(s, scope))
  {
    ConsOpen(s, Nil, scope);
  }

  lemma ShowsCons(s: CStmt, rest: List<CStmt>, scope: set<CName>, left: set<CName>, open: bool)
    requires Shows(rest, scope + Opens(s), left, open)
    ensures Shows(Cons(s, rest), scope, Opens(s) + left, NoCaptureIn(s, scope) && open)
  {
    ConsOpen(s, rest, scope);
  }

  /* --------------------------------- statements -------------------------------- */

  lemma {:induction false} TryOpen(t: Try, c: Ctx, scope: set<CName>)
    ensures Shows(LowerTryPrefix(Intended, t, c).code, scope, Leaves(t.setup, c), OpenTry(t, c, scope))
    decreases t, 0
  {
    hide LowerE;
    var a, c1, scope1 := Lower(Intended, t.setup, c), After(Intended, t.setup, c), scope + Leaves(t.setup, c);
    StmtOpen(t.setup, c, scope);
    StmtView(Intended, t.setup, c);
    ExprOpen(t.ok, c1, scope1);
    if t.tail.Some? {
      StmtOpen(t.tail.value, c1, scope1);
    }
    var tail := LowerOptional(Intended, t.tail, c1);
    var test := CIf(CUnary(LNot, LowerE(t.ok, c1)), tail.code, Nil);
    ShowsOne(test, scope1);
    var open := OpenE(t.ok, c1, scope1) && (t.tail.Some? ==> OpenIn(t.tail.value, c1, scope1));
    ConsOpen(test, Nil, scope1);
    ShowsThen(a.code, Single(test), scope, Leaves(t.setup, c), OpenIn(t.setup, c, scope), {}, open);
  }

  lemma {:induction false} ListOpen(ss: List<Stmt>, c: Ctx, scope: set<CName>)
    ensures Shows(LowerList(Intended, ss, c).code, scope, LeavesList(ss, c), OpenList(ss, c, scope))
    decreases ss, 1
  {
    if ss.Nil? {
      ConsOpen(CBreak, Nil, scope);
    } else {
      var c1, scope1 := After(Intended, ss.head, c), scope + Leaves(ss.head, c);
      StmtOpen(ss.head, c, scope);
      StmtView(Intended, ss.head, c);
      ListOpen(ss.tail, c1, scope1);
      ShowsThen(Lower(Intended, ss.head, c).code, LowerList(Intended, ss.tail, c1).code, scope, Leaves(ss.head, c),
                OpenIn(ss.head, c, scope), LeavesList(ss.tail, c1), OpenList(ss.tail, c1, scope1));
    }
  }

  /** The chain of a switch inside the braces of its temporary. */
  lemma {:induction false} BranchesOpen(tmp: CName, arms: Arms, c: Ctx, scope: set<CName>)
    requires tmp.SwitchTmp?
    ensures NoCapture(LowerArms(Intended, tmp, arms, c).code, scope) <==> OpenArms(arms, c, scope)
    decreases arms, 0
  {
    match arms
    case Default(None) =>
    case Default(Some(b)) => ListOpen(b, c, scope);
    case Arm(Nil, _, rest) => BranchesOpen(tmp, rest, c, scope);
    case Arm(Cons(e, es), b, rest) =>
      var a, c1 := LowerBlock(Intended, b, c), AfterBlock(Intended, b, c);
      ListOpen(b, c, scope);
      ListView(Intended, b, c);
      BranchesOpen(tmp, rest, c1, scope);
      ExprOpen(e, c, scope);
      OrChainOpen(PatternTest(tmp, e, c), tmp, es, c, scope);
      ConsOpen(CIf(OrChain(PatternTest(tmp, e, c), tmp, es, c), a.code, LowerArms(Intended, tmp, rest, c1).code), Nil,
               scope);
  }

  lemma {:induction false} JumpOpen(jump: CStmt, ds: List<Stmt>, c: Ctx, scope: set<CName>)
    requires jump.CBreak? || jump.CContinue? || jump == CReturn(None)
    ensures Shows(LowerJump(Intended, jump, ds, c).code, scope, {}, OpenExit(false, ds, c, scope))
    decreases ds, 2
  {
    ShowsOne(jump, scope);
    if ds.Cons? {
      var a := LowerList(Intended, ds, c).code;
      ListOpen(ds, c, scope);
      ShowsOne(jump, scope + LeavesList(ds, c));
      ShowsThen(a, Single(jump), scope, LeavesList(ds, c), OpenList(ds, c, scope), {}, true);
      ShowsOne(CBlock(Append(a, Single(jump))), scope);
    }
  }

  lemma {:induction false} ReturnOpen(v: Option<CExpr>, ds: List<Stmt>, c: Ctx, scope: set<CName>)
    ensures Shows(LowerReturn(Intended, v, ds, c).code, scope, {},
                  FreeOpt(v, scope) && OpenExit(v.Some?, ds, c, scope))
    decreases ds, 3
  {
    if ds.Nil? {
      ShowsOne(CReturn(v), scope);
    } else if v.None? {
      JumpOpen(CReturn(None), ds, c, scope);
    } else {
      SavedOpen(v, ds, c, scope);
    }
  }

  lemma TemporaryReturned(tmp: CName, scope: set<CName>)
    requires !tmp.Glob?
    ensures NoCaptureIn(CReturn(Some(CIdent(tmp))), scope)
  {
  }

  lemma {:induction false} SavedOpen(v: Option<CExpr>, ds: List<Stmt>, c: Ctx, scope: set<CName>)
    requires v.Some? && ds.Cons?
    ensures Shows(LowerReturn(Intended, v, ds, c).code, scope, {}, FreeOpt(v, scope) && OpenExit(true, ds, c, scope))
    decreases ds, 2
  {
    hide FreeOpt;
    hide OpenList;
    hide LowerList;
    hide NoCapture;
    hide OpensAll;
    var tmp, c1 := RetTmp(c.retSeq), c.(retSeq := c.retSeq + 1);
    var inner, last := scope + {tmp}, CReturn(Some(CIdent(tmp)));
    TemporaryReturned(tmp, inner + LeavesList(ds, c1));
    var a := LowerList(Intended, ds, c1).code;
    ListOpen(ds, c1, inner);
    ShowsOne(last, inner + LeavesList(ds, c1));
    ShowsThen(a, Single(last), inner, LeavesList(ds, c1), OpenList(ds, c1, inner), {}, true);
    var body := Append(a, Single(last));
    ShowsCons(CVar(tmp, v), body, scope, LeavesList(ds, c1), OpenList(ds, c1, inner));
    TemporaryFree(v, tmp, scope);
    assert NoCaptureIn(CVar(tmp, v), scope) <==> FreeOpt(v, scope + {tmp});
    ShowsOne(CBlock(Cons(CVar(tmp, v), body)), scope);
  }

  /** A temporary in scope captures nothing. */
  lemma {:induction false} TemporaryFreeE(e: CExpr, tmp: CName, scope: set<CName>)
    requires !tmp.Sym?
    ensures FreeE(e, scope + {tmp}) <==> FreeE(e, scope)
    decreases e
  {
    match e
    case CUnary(_, a) => TemporaryFreeE(a, tmp, scope);
    case CBinary(_, a, b) =>
      TemporaryFreeE(a, tmp, scope);
      TemporaryFreeE(b, tmp, scope);
    case CCall(_, args) => TemporaryFreeArgs(args, tmp, scope);
    case CAssignE(_, _, a) => TemporaryFreeE(a, tmp, scope);
    case CTernary(q, a, b) =>
      TemporaryFreeE(q, tmp, scope);
      TemporaryFreeE(a, tmp, scope);
      TemporaryFreeE(b, tmp, scope);
    case _ =>
  }

  lemma {:induction false} TemporaryFreeArgs(es: List<CExpr>, tmp: CName, scope: set<CName>)
    requires !tmp.Sym?
    ensures FreeArgs(es, scope + {tmp}) <==> FreeArgs(es, scope)
    decreases es
  {
    if es.Cons? {
      TemporaryFreeE(es.head, tmp, scope);
      TemporaryFreeArgs(es.tail, tmp, scope);
    }
  }

  lemma TemporaryFree(v: Option<CExpr>, tmp: CName, scope: set<CName>)
    requires !tmp.Sym?
    ensures FreeOpt(v, scope + {tmp}) <==> FreeOpt(v, scope)
  {
    if v.Some? {
      TemporaryFreeE(v.value, tmp, scope);
    }
  }

  lemma {:induction false} TemporaryFreeFields(fs: List<CField>, tmp: CName, scope: set<CName>)
    requires !tmp.Sym?
    ensures FreeFields(fs, scope + {tmp}) <==> FreeFields(fs, scope)
  {
    if fs.Cons? {
      TemporaryFreeE(fs.head.e, tmp, scope);
      TemporaryFreeFields(fs.tail, tmp, scope);
    }
  }

  ghost predicate Goal(s: Stmt, c: Ctx, scope: set<CName>) {
    Shows(Lower(Intended, s, c).code, scope, Leaves(s, c), OpenIn(s, c, scope))
  }

  /** The intended code of a statement captures no global exactly if its text shows
      none captured. */
  lemma {:induction false} StmtOpen(s: Stmt, c: Ctx, scope: set<CName>)
    ensures Goal(s, c, scope)
    decreases s, 2
  {
    match s
    case VarDef(_, _) => DeclOpen(s, c, scope);
    case Assign(_, _, _) => PlainOpen(s, c, scope);
    case AssignTry(_, _, _) => AssignTryOpen(s, c, scope);
    case ExprStmt(_) => PlainOpen(s, c, scope);
    case Return(v, ds) =>
      OptOpen(v, c, scope);
      ReturnOpen(LowerOpt(v, c), ds, c, scope);
    case ReturnTry(_, _) => ReturnTryOpen(s, c, scope);
    case Break(ds) => JumpOpen(CBreak, ds, c, scope);
    case Continue(ds) => JumpOpen(CContinue, ds, c, scope);
    case If(_, _, _) => IfOpen(s, c, scope);
    case Switch(_, _) => SwitchOpen(s, c, scope);
    case While(_, _) => LoopOpen(s, c, scope);
    case DoWhile(_, _) => LoopOpen(s, c, scope);
    case For(_, _, _, _) => ForOpen(s, c, scope);
    case Block(a) => ListOpen(a, c, scope);
    case DeferDef(_, _, _) => PlainOpen(s, c, scope);
    case DeferCall(_, _) => DeferCallOpen(s, c, scope);
    case Decorated(_, _, _) => DecoratedOpen(s, c, scope);
    case LocalFn(_, _, _) => ShowsOne(Lower(Intended, s, c).code.head, scope);
  }

  lemma PlainOpen(s: Stmt, c: Ctx, scope: set<CName>)
    requires s.Assign? || s.ExprStmt? || s.DeferDef?
    ensures Goal(s, c, scope)
  {
    match s
    case Assign(x, aop, e) =>
      ExprOpen(e, c, scope);
      AssignOpen(x, aop, LowerE(e, c), c, scope);
      ShowsOne(LowerAssign(x, aop, LowerE(e, c), c), scope);
    case ExprStmt(e) =>
      ExprOpen(e, c, scope);
      ShowsOne(CEval(LowerE(e, c)), scope);
    case DeferDef(_, captures, _) =>
      if captures.Cons? {
        var env, fields := DeferEnv(c.deferSeq), LowerCaptures(captures, c);
        CapturesOpen(captures, c, scope);
        TemporaryFreeFields(fields, env, scope);
        ShowsOne(CVarStruct(env, fields), scope);
      } else {
        ConsOpen(CBreak, Nil, scope);
      }
  }

  lemma {:induction false} DeclOpen(s: Stmt, c: Ctx, scope: set<CName>)
    requires s.VarDef?
    ensures Goal(s, c, scope)
    decreases s, 0
  {
    hide FreshName;
    var x, n := s.name, Sym(FreshName(c, s.name));
    var c1, scope1 := InitScope(Intended, x, c), scope + {n};
    match s.init
    case NoInit => ShowsOne(CVar(n, None), scope);
    case InitExpr(e) =>
      ExprOpen(e, c1, scope1);
      ShowsOne(CVar(n, Some(LowerE(e, c1))), scope);
    case InitTry(t) =>
      var pre := LowerTryPrefix(Intended, t, c1);
      TryOpen(t, c1, scope1);
      TryView(Intended, t, c1);
      ExprOpen(t.value, pre.ctx, scope1 + Leaves(t.setup, c1));
      var store := StoreIn(n, x, LowerE(t.value, pre.ctx));
      BlockOpen(pre.code, store, scope1, Leaves(t.setup, c1), OpenTry(t, c1, scope1),
                OpenE(t.value, pre.ctx, scope1 + Leaves(t.setup, c1)));
      var block := CBlock(Append(pre.code, Single(store)));
      ShowsCons(CVar(n, None), Single(block), scope, {}, OpenIn(s, c, scope));
  }

  /** Braces around a prefix and one instruction behind it. */
  lemma BlockOpen(a: List<CStmt>, last: CStmt, scope: set<CName>, left: set<CName>, open: bool, open2: bool)
    requires Shows(a, scope, left, open) && Opens(last) == {} && (NoCaptureIn(last, scope + left) <==> open2)
    ensures Shows(Single(CBlock(Append(a, Single(last)))), scope, {}, open && open2)
  {
    ShowsOne(last, scope + left);
    ShowsThen(a, Single(last), scope, left, open, {}, open2);
    ShowsOne(CBlock(Append(a, Single(last))), scope);
  }

  lemma {:induction false} AssignTryOpen(s: Stmt, c: Ctx, scope: set<CName>)
    requires s.AssignTry?
    ensures Goal(s, c, scope)
    decreases s, 0
  {
    hide LowerE;
    hide FreeE;
    hide OpenE;
    hide NoCapture;
    hide OpensAll;
    var t, x := s.t, s.name;
    var pre, scope1 := LowerTryPrefix(Intended, t, c), scope + Leaves(t.setup, c);
    TryOpen(t, c, scope);
    TryView(Intended, t, c);
    ExprOpen(t.value, pre.ctx, scope1);
    var w, e := Within(Intended, c, pre.ctx), LowerE(t.value, pre.ctx);
    AssignOpen(x, s.aop, e, w, scope1);
    BlockOpen(pre.code, LowerAssign(x, s.aop, e, w), scope, Leaves(t.setup, c), OpenTry(t, c, scope),
              OpenE(t.value, pre.ctx, scope1) && (x == DISCARD || Open(x, c, scope1)));
  }

  lemma {:induction false} ReturnTryOpen(s: Stmt, c: Ctx, scope: set<CName>)
    requires s.ReturnTry?
    ensures Goal(s, c, scope)
    decreases s, 0
  {
    hide LowerE;
    hide FreeE;
    hide OpenE;
    hide NoCapture;
    hide OpensAll;
    hide LowerReturn;
    hide OpenTry;
    hide OpenExit;
    var t, ds := s.t, s.defers;
    var pre, scope1 := LowerTryPrefix(Intended, t, c), scope + Leaves(t.setup, c);
    TryOpen(t, c, scope);
    TryView(Intended, t, c);
    ExprOpen(t.value, pre.ctx, scope1);
    var v, w := Some(LowerE(t.value, pre.ctx)), Within(Intended, c, pre.ctx);
    ReturnOpen(v, ds, w, scope1);
    var ret := LowerReturn(Intended, v, ds, w).code;
    ShowsThen(pre.code, ret, scope, Leaves(t.setup, c), OpenTry(t, c, scope), {},
              FreeOpt(v, scope1) && OpenExit(true, ds, w, scope1));
    ShowsOne(CBlock(Append(pre.code, ret)), scope);
  }

  lemma {:induction false} IfOpen(s: Stmt, c: Ctx, scope: set<CName>)
    requires s.If?
    ensures Goal(s, c, scope)
    decreases s, 0
  {
    var a, c1, e := LowerBlock(Intended, s.body, c), AfterBlock(Intended, s.body, c), LowerE(s.cond, c);
    ExprOpen(s.cond, c, scope);
    ListOpen(s.body, c, scope);
    ListView(Intended, s.body, c);
    match s.els
    case NoElse =>
      ConsOpen(CBreak, Nil, scope);
      ShowsOne(CIf(e, a.code, Nil), scope);
    case ElseBlock(b) =>
      ListOpen(b, c1, scope);
      ShowsOne(CIf(e, a.code, LowerBlock(Intended, b, c1).code), scope);
    case ElseIf(z) =>
      StmtOpen(z, c1, scope);
      ShowsOne(CIf(e, a.code, Lower(Intended, z, c1).code), scope);
  }

  lemma {:induction false} SwitchOpen(s: Stmt, c: Ctx, scope: set<CName>)
    requires s.Switch?
    ensures Goal(s, c, scope)
    decreases s, 0
  {
    var tmp, c1, v := SwitchTmp(c.switchSeq), c.(switchSeq := c.switchSeq + 1), Some(LowerE(s.cond, c));
    var arms := LowerArms(Intended, tmp, s.arms, c1).code;
    ExprOpen(s.cond, c, scope);
    TemporaryFree(v, tmp, scope);
    BranchesOpen(tmp, s.arms, c1, scope + {tmp});
    ConsOpen(CVar(tmp, v), arms, scope);
    ShowsOne(CBlock(Cons(CVar(tmp, v), arms)), scope);
  }

  lemma {:induction false} LoopOpen(s: Stmt, c: Ctx, scope: set<CName>)
    requires s.While? || s.DoWhile?
    ensures Goal(s, c, scope)
    decreases s, 0
  {
    hide LowerE;
    hide FreeE;
    hide OpenE;
    hide LowerList;
    hide OpenList;
    hide NoCapture;
    hide OpensAll;
    var a, e := LowerBlock(Intended, s.body, c).code, LowerE(s.cond, c);
    ExprOpen(s.cond, c, scope);
    ListOpen(s.body, c, scope);
    ShowsOne(if s.While? then CWhile(e, a) else CDoWhile(a, e), scope);
  }

  lemma {:induction false} ForOpen(s: Stmt, c: Ctx, scope: set<CName>)
    requires s.For?
    ensures Goal(s, c, scope)
    decreases s, 0
  {
    hide LowerE;
    hide FreeE;
    hide OpenE;
    hide LowerList;
    hide OpenList;
    hide NoCapture;
    hide OpensAll;
    var i, c1, scope1 := LowerOptional(Intended, s.start, c), AfterOpt(Intended, s.start, c),
                         scope + LeavesOpt(s.start, c);
    OptionalView(Intended, s.start, c);
    ConsOpen(CBreak, Nil, scope);
    ConsOpen(CBreak, Nil, scope1);
    if s.start.Some? {
      StmtOpen(s.start.value, c, scope);
    }
    OptOpen(s.test, c1, scope1);
    OptOpen(s.step, c1, scope1);
    ListOpen(s.body, c1, scope1);
    ShowsOne(CFor(i.code, LowerOpt(s.test, c1), LowerOpt(s.step, c1), LowerBlock(Intended, s.body, c1).code), scope);
  }

  lemma {:induction false} DeferCallOpen(s: Stmt, c: Ctx, scope: set<CName>)
    requires s.DeferCall?
    ensures Goal(s, c, scope)
    decreases s, 0
  {
    var d := FindDefer(c.defers, s.id);
    if d.Some? {
      var c1 := DeferScope(Intended, d.value, c);
      ListOpen(s.body, c1, scope);
      ShowsOne(CBlock(LowerBlock(Intended, s.body, c1).code), scope);
    } else {
      assert FreeArgs(Nil, scope);
      ShowsOne(CEval(CCall(s.id, Nil)), scope);
    }
  }

  lemma {:induction false} DecoratedOpen(s: Stmt, c: Ctx, scope: set<CName>)
    requires s.Decorated?
    ensures Goal(s, c, scope)
    decreases s, 1
  {
    hide LowerE;
    hide Shows;
    var c1, scope1 := AfterList(Intended, s.pre, c), scope + LeavesList(s.pre, c);
    var a, b := LowerList(Intended, s.pre, c).code, CoreCode(s, c1);
    ListOpen(s.pre, c, scope);
    ListView(Intended, s.pre, c);
    OptionalView(Intended, s.core, c1);
    CoreOpen(s, c1, scope1);
    ShowsThen(a, b, scope, LeavesList(s.pre, c), OpenList(s.pre, c, scope), CoreLeaves(s, c1), OpenCore(s, c1, scope1));
    assert Lower(Intended, s, c).code == Append(a, b);
  }

  /** The statement itself and what follows it. */
  function CoreCode(s: Stmt, c: Ctx): List<CStmt>
    requires s.Decorated?
  {
    Append(LowerOptional(Intended, s.core, c).code, LowerList(Intended, s.post, AfterOpt(Intended, s.core, c)).code)
  }

  function CoreLeaves(s: Stmt, c: Ctx): set<CName>
    requires s.Decorated?
  {
    LeavesOpt(s.core, c) + LeavesList(s.post, AfterOpt(Intended, s.core, c))
  }

  predicate OpenCore(s: Stmt, c: Ctx, scope: set<CName>)
    requires s.Decorated?
  {
    && (s.core.Some? ==> OpenIn(s.core.value, c, scope))
    && OpenList(s.post, AfterOpt(Intended, s.core, c), scope + LeavesOpt(s.core, c))
  }

  lemma {:induction false} CoreOpen(s: Stmt, c: Ctx, scope: set<CName>)
    requires s.Decorated?
    ensures Shows(CoreCode(s, c), scope, CoreLeaves(s, c), OpenCore(s, c, scope))
    decreases s, 0
  {
    hide LowerE;
    var c2, scope2 := AfterOpt(Intended, s.core, c), scope + LeavesOpt(s.core, c);
    ConsOpen(CBreak, Nil, scope);
    if s.core.Some? {
      StmtOpen(s.core.value, c, scope);
    }
    ListOpen(s.post, c2, scope2);
    ShowsThen(LowerOptional(Intended, s.core, c).code, LowerList(Intended, s.post, c2).code, scope,
              LeavesOpt(s.core, c), s.core.Some? ==> OpenIn(s.core.value, c, scope), LeavesList(s.post, c2),
              OpenList(s.post, c2, scope2));
  }
}
