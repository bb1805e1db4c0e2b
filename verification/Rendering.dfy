/** The identifiers of generated code as C strings: every symbol in it carries the
    module's prefix, so different identifiers are different strings. */
module Rendering {
  import opened Lists
  import opened Naming
  import opened Syntax
  import opened Lowering
  import opened Freshness
  import opened Scoping
  import opened Correctness

  /* ----------------------- the identifiers of some code ------------------------ */

  function IdentsE(e: CExpr): set<CName>
    decreases e
  {
    match e
    case CIdent(c) => {c}
    case CCapture(env, _) => if env.Some? then {DeferEnv(env.value)} else {}
    case CUnary(_, a) => IdentsE(a)
    case CBinary(_, a, b) => IdentsE(a) + IdentsE(b)
    case CCall(_, args) => IdentsArgs(args)
    case CAssignE(c, _, a) => {c} + IdentsE(a)
    case CTernary(q, a, b) => IdentsE(q) + IdentsE(a) + IdentsE(b)
    case _ => {}
  }

  function IdentsArgs(es: List<CExpr>): set<CName>
    decreases es
  {
    match es
    case Nil => {}
    case Cons(e, rest) => IdentsE(e) + IdentsArgs(rest)
  }

  function IdentsOpt(e: Option<CExpr>): set<CName> { if e.Some? then IdentsE(e.value) else {} }

  function IdentsFields(fs: List<CField>): set<CName> {
    match fs
    case Nil => {}
    case Cons(f, rest) => IdentsE(f.e) + IdentsFields(rest)
  }

  /** What is mentioned or declared in the code of one function. */
  function Idents(cs: List<CStmt>): set<CName>
    decreases cs
  {
    match cs
    case Nil => {}
    case Cons(s, rest) => IdentsIn(s) + Idents(rest)
  }

  function IdentsIn(s: CStmt): set<CName>
    decreases s
  {
    match s
    case CVar(c, init) => {c} + IdentsOpt(init)
    case CVarStruct(c, fs) => {c} + IdentsFields(fs)
    case CAssign(c, _, e) => {c} + IdentsE(e)
    case CEval(e) => IdentsE(e)
    case CReturn(v) => IdentsOpt(v)
    case CIf(e, a, b) => IdentsE(e) + Idents(a) + Idents(b)
    case CWhile(e, a) => IdentsE(e) + Idents(a)
    case CDoWhile(a, e) => Idents(a) + IdentsE(e)
    case CFor(i, test, step, a) => Idents(i) + IdentsOpt(test) + IdentsOpt(step) + Idents(a)
    case CBlock(a) => Idents(a)
    case _ => {}
  }

  lemma {:induction a} AppendIdents(a: List<CStmt>, b: List<CStmt>)
    ensures Idents(Append(a, b)) == Idents(a) + Idents(b)
  {
  }

  /* ----------------------------- symbols carry the prefix ---------------------- */

  predicate Carries(p: string, c: CName) { c.Sym? || c.Glob? ==> p <= c.text }

  predicate AllCarry(p: string, ids: set<CName>) { forall c :: c in ids ==> Carries(p, c) }

  /** Every visible local has a symbol of the module. */
  predicate LocalsCarry(p: string, c: Ctx) {
    IsModulePrefix(p) && c.prefix == p && forall x :: x in CNames(c.locals) ==> p <= x
  }

  lemma SymbolCarries(p: string, x: string)
    requires IsModulePrefix(p)
    ensures p <= GlobalSym(p, x)
  {
    PrefixIsIdent(p);
    var s := p + "v_" + x;
    assert forall i :: 0 <= i < |p| ==> s[i] == p[i];
    assert forall i :: 0 <= i < |p| ==> GlobalSym(p, x)[i] == p[i];
  }

  /** A suffix, and even the end of the buffer, leaves the prefix alone. */
  lemma FreshCarries(p: string, c: Ctx, x: string)
    requires IsModulePrefix(p) && c.prefix == p
    ensures p <= FreshName(c, x)
  {
    var base := GlobalSym(p, x);
    SymbolCarries(p, x);
    forall k: nat
      ensures p <= Candidate(base, k) && p <= Variant(base, BUFFER, k)
    {
      assert base <= Candidate(base, k);
    }
  }

  lemma RegisterCarries(p: string, c: Ctx, x: string)
    requires LocalsCarry(p, c)
    ensures LocalsCarry(p, Register(c, x)) && Carries(p, Sym(FreshName(c, x)))
  {
    FreshCarries(p, c, x);
  }

  lemma {:induction false} RegisterAllCarries(p: string, xs: List<string>, c: Ctx)
    requires LocalsCarry(p, c)
    ensures LocalsCarry(p, RegisterAll(xs, c))
    decreases xs
  {
    if xs.Cons? {
      RegisterCarries(p, c, xs.head);
      RegisterAllCarries(p, xs.tail, Register(c, xs.head));
    }
  }

  lemma {:induction locals} FoundIsNamed(locals: List<Local>, x: string)
    ensures FindLocal(locals, x).Some? ==> FindLocal(locals, x).value in CNames(locals)
  {
  }

  lemma ResolveCarries(p: string, c: Ctx, x: string)
    requires LocalsCarry(p, c)
    ensures Carries(p, Resolve(c, x))
  {
    FoundIsNamed(c.locals, x);
    SymbolCarries(p, x);
  }

  lemma {:induction false} ExprCarries(p: string, e: Expr, c: Ctx)
    requires LocalsCarry(p, c)
    ensures AllCarry(p, IdentsE(LowerE(e, c)))
    decreases e
  {
    match e
    case Ident(x) => ResolveCarries(p, c, x);
    case Unary(_, a) => ExprCarries(p, a, c);
    case Binary(_, a, b) =>
      ExprCarries(p, a, c);
      ExprCarries(p, b, c);
    case Call(_, args) => ArgsCarry(p, args, c);
    case AssignE(x, _, a) =>
      ResolveCarries(p, c, x);
      ExprCarries(p, a, c);
    case Ternary(q, a, b) =>
      ExprCarries(p, q, c);
      ExprCarries(p, a, c);
      ExprCarries(p, b, c);
    case _ =>
  }

  lemma {:induction false} ArgsCarry(p: string, es: List<Expr>, c: Ctx)
    requires LocalsCarry(p, c)
    ensures AllCarry(p, IdentsArgs(LowerArgs(es, c)))
    decreases es
  {
    if es.Cons? {
      ExprCarries(p, es.head, c);
      ArgsCarry(p, es.tail, c);
    }
  }

  lemma OptCarries(p: string, e: Option<Expr>, c: Ctx)
    requires LocalsCarry(p, c)
    ensures AllCarry(p, IdentsOpt(LowerOpt(e, c)))
  {
    if e.Some? {
      ExprCarries(p, e.value, c);
    }
  }

  lemma {:induction false} CapturesCarry(p: string, cs: List<Capture>, c: Ctx)
    requires LocalsCarry(p, c)
    ensures AllCarry(p, IdentsFields(LowerCaptures(cs, c)))
  {
    if cs.Cons? {
      ExprCarries(p, cs.head.e, c);
      CapturesCarry(p, cs.tail, c);
    }
  }

  lemma {:induction false} OrChainCarries(p: string, acc: CExpr, tmp: CName, es: List<Expr>, c: Ctx)
    requires LocalsCarry(p, c) && tmp.SwitchTmp? && AllCarry(p, IdentsE(acc))
    ensures AllCarry(p, IdentsE(OrChain(acc, tmp, es, c)))
    decreases es
  {
    if es.Cons? {
      var test := PatternTest(tmp, es.head, c);
      ExprCarries(p, es.head, c);
      assert IdentsE(test) == {tmp} + IdentsE(LowerE(es.head, c));
      assert IdentsE(CBinary(OrOr, acc, test)) == IdentsE(acc) + IdentsE(test);
      OrChainCarries(p, CBinary(OrOr, acc, test), tmp, es.tail, c);
    }
  }

  /** The code carries the prefix, and the locals behind it do. */
  predicate Carrying(p: string, o: Out) { LocalsCarry(p, o.ctx) && AllCarry(p, Idents(o.code)) }

  lemma CarryThen(p: string, a: List<CStmt>, b: List<CStmt>)
    requires AllCarry(p, Idents(a)) && AllCarry(p, Idents(b))
    ensures AllCarry(p, Idents(Append(a, b)))
  {
    AppendIdents(a, b);
  }

  lemma CarryOne(p: string, s: CStmt)
    ensures Idents(Single(s)) == IdentsIn(s)
  {
    assert Idents(Nil) == {};
  }

  lemma {:induction false} TryCarries(p: string, m: Mode, t: Try, c: Ctx)
    requires LocalsCarry(p, c)
    ensures Carrying(p, LowerTryPrefix(m, t, c))
    decreases t, 0
  {
    var a := Lower(m, t.setup, c);
    StmtCarries(p, m, t.setup, c);
    ExprCarries(p, t.ok, a.ctx);
    if t.tail.Some? {
      StmtCarries(p, m, t.tail.value, a.ctx);
    }
    var tail := LowerOptional(m, t.tail, a.ctx);
    var test := CIf(CUnary(LNot, LowerE(t.ok, a.ctx)), tail.code, Nil);
    assert Idents(Nil) == {};
    CarryOne(p, test);
    CarryThen(p, a.code, Single(test));
  }

  lemma {:induction false} ListCarries(p: string, m: Mode, ss: List<Stmt>, c: Ctx)
    requires LocalsCarry(p, c)
    ensures Carrying(p, LowerList(m, ss, c)) && Carrying(p, LowerBlock(m, ss, c))
    decreases ss, 1
  {
    if ss.Cons? {
      var a := Lower(m, ss.head, c);
      StmtCarries(p, m, ss.head, c);
      ListCarries(p, m, ss.tail, a.ctx);
      CarryThen(p, a.code, LowerList(m, ss.tail, a.ctx).code);
    }
  }

  lemma {:induction false} ArmsCarries(p: string, m: Mode, tmp: CName, arms: Arms, c: Ctx)
    requires LocalsCarry(p, c) && tmp.SwitchTmp?
    ensures Carrying(p, LowerArms(m, tmp, arms, c))
    decreases arms, 0
  {
    match arms
    case Default(None) =>
    case Default(Some(b)) => ListCarries(p, m, b, c);
    case Arm(Nil, _, rest) => ArmsCarries(p, m, tmp, rest, c);
    case Arm(Cons(e, es), b, rest) =>
      var a := LowerBlock(m, b, c);
      ListCarries(p, m, b, c);
      ArmsCarries(p, m, tmp, rest, a.ctx);
      ExprCarries(p, e, c);
      OrChainCarries(p, PatternTest(tmp, e, c), tmp, es, c);
      CarryOne(p, CIf(OrChain(PatternTest(tmp, e, c), tmp, es, c), a.code, LowerArms(m, tmp, rest, a.ctx).code));
  }

  lemma {:induction false} ReturnCarries(p: string, m: Mode, v: Option<CExpr>, ds: List<Stmt>, c: Ctx)
    requires LocalsCarry(p, c) && AllCarry(p, IdentsOpt(v))
    ensures Carrying(p, LowerReturn(m, v, ds, c))
    decreases ds, 2
  {
    var saves := v.Some? && (!c.retVoid || m.Intended?);
    var c1, tmp := if saves then c.(retSeq := c.retSeq + 1) else c, RetTmp(c.retSeq);
    var last := CReturn(if saves then Some(CIdent(tmp)) else v);
    if ds.Nil? {
      CarryOne(p, CReturn(v));
    } else {
      var d := LowerList(m, ds, c1);
      ListCarries(p, m, ds, c1);
      CarryOne(p, last);
      CarryThen(p, d.code, Single(last));
      var body := Append(d.code, Single(last));
      assert Idents(Cons(CVar(tmp, v), body)) == IdentsIn(CVar(tmp, v)) + Idents(body);
      CarryOne(p, CBlock(if saves then Cons(CVar(tmp, v), body) else body));
    }
  }

  lemma {:induction false} JumpCarries(p: string, m: Mode, jump: CStmt, ds: List<Stmt>, c: Ctx)
    requires LocalsCarry(p, c) && IdentsIn(jump) == {}
    ensures Carrying(p, LowerJump(m, jump, ds, c))
    decreases ds, 2
  {
    CarryOne(p, jump);
    if ds.Cons? {
      var d := LowerList(m, ds, c);
      ListCarries(p, m, ds, c);
      CarryThen(p, d.code, Single(jump));
      CarryOne(p, CBlock(Append(d.code, Single(jump))));
    }
  }

  /** Lowering mentions and declares symbols of the module only. */
  lemma {:induction false} StmtCarries(p: string, m: Mode, s: Stmt, c: Ctx)
    requires LocalsCarry(p, c)
    ensures Carrying(p, Lower(m, s, c))
    decreases s, 1
  {
    hide FreshName;
    hide LowerE;
    match s
    case VarDef(_, _) => DeclCarries(p, m, s, c);
    case Assign(x, aop, e) =>
      ExprCarries(p, e, c);
      AssignCarries(p, x, aop, LowerE(e, c), c);
    case AssignTry(_, _, _) => TriedCarries(p, m, s, c);
    case ExprStmt(e) =>
      ExprCarries(p, e, c);
      CarryOne(p, CEval(LowerE(e, c)));
    case Return(v, ds) =>
      OptCarries(p, v, c);
      ReturnCarries(p, m, LowerOpt(v, c), ds, c);
    case ReturnTry(_, _) => TriedCarries(p, m, s, c);
    case Break(ds) => JumpCarries(p, m, CBreak, ds, c);
    case Continue(ds) => JumpCarries(p, m, CContinue, ds, c);
    case If(_, _, _) => IfCarries(p, m, s, c);
    case Switch(_, _) => SwitchCarries(p, m, s, c);
    case While(_, _) => LoopCarries(p, m, s, c);
    case DoWhile(_, _) => LoopCarries(p, m, s, c);
    case For(_, _, _, _) => ForCarries(p, m, s, c);
    case Block(a) => ListCarries(p, m, a, c);
    case DeferDef(_, captures, _) =>
      CapturesCarry(p, captures, c);
      if captures.Cons? {
        CarryOne(p, CVarStruct(DeferEnv(c.deferSeq), LowerCaptures(captures, c)));
      }
    case DeferCall(_, _) => DeferCarries(p, m, s, c);
    case Decorated(_, _, _) => DecoratedCarries(p, m, s, c);
    case LocalFn(_, _, _) => CarryOne(p, Lower(m, s, c).code.head);
  }

  lemma AssignCarries(p: string, x: string, aop: Option<nat>, e: CExpr, c: Ctx)
    requires LocalsCarry(p, c) && AllCarry(p, IdentsE(e))
    ensures AllCarry(p, IdentsIn(LowerAssign(x, aop, e, c)))
    ensures AllCarry(p, Idents(Single(LowerAssign(x, aop, e, c))))
  {
    ResolveCarries(p, c, x);
    CarryOne(p, LowerAssign(x, aop, e, c));
  }

  lemma {:induction false} DeclCarries(p: string, m: Mode, s: Stmt, c: Ctx)
    requires s.VarDef? && LocalsCarry(p, c)
    ensures Carrying(p, Lower(m, s, c))
    decreases s, 0
  {
    hide FreshName;
    hide LowerE;
    var x, n, c1 := s.name, Sym(FreshName(c, s.name)), Register(c, s.name);
    var ci := InitScope(m, x, c);
    RegisterCarries(p, c, x);
    match s.init
    case NoInit => CarryOne(p, CVar(n, None));
    case InitExpr(e) =>
      ExprCarries(p, e, ci);
      CarryOne(p, CVar(n, Some(LowerE(e, ci))));
    case InitTry(t) =>
      var pre := LowerTryPrefix(m, t, ci);
      TryCarries(p, m, t, ci);
      ExprCarries(p, t.value, pre.ctx);
      var e := LowerE(t.value, pre.ctx);
      AssignCarries(p, x, None, e, pre.ctx);
      var store := if m.Intended? then StoreIn(n, x, e) else LowerAssign(x, None, e, pre.ctx);
      CarryOne(p, store);
      CarryThen(p, pre.code, Single(store));
      var block := CBlock(Append(pre.code, Single(store)));
      CarryOne(p, block);
      assert Idents(Cons(CVar(n, None), Single(block))) == {n} + Idents(Single(block));
  }

  lemma {:induction false} TriedCarries(p: string, m: Mode, s: Stmt, c: Ctx)
    requires (s.AssignTry? || s.ReturnTry?) && LocalsCarry(p, c)
    ensures Carrying(p, Lower(m, s, c))
    decreases s, 0
  {
    hide LowerE;
    var t := s.t;
    var pre := LowerTryPrefix(m, t, c);
    var w, e := Within(m, c, pre.ctx), LowerE(t.value, pre.ctx);
    TryCarries(p, m, t, c);
    ExprCarries(p, t.value, pre.ctx);
    if s.AssignTry? {
      var op := if m.Intended? then s.aop else None;
      AssignCarries(p, s.name, op, e, w);
      var store := LowerAssign(s.name, op, e, w);
      CarryThen(p, pre.code, Single(store));
      CarryOne(p, CBlock(Append(pre.code, Single(store))));
    } else {
      ReturnCarries(p, m, Some(e), s.defers, w);
      var ret := LowerReturn(m, Some(e), s.defers, w).code;
      CarryThen(p, pre.code, ret);
      CarryOne(p, CBlock(Append(pre.code, ret)));
    }
  }

  lemma {:induction false} IfCarries(p: string, m: Mode, s: Stmt, c: Ctx)
    requires s.If? && LocalsCarry(p, c)
    ensures Carrying(p, Lower(m, s, c))
    decreases s, 0
  {
    hide LowerE;
    var a, e := LowerBlock(m, s.body, c), LowerE(s.cond, c);
    ExprCarries(p, s.cond, c);
    ListCarries(p, m, s.body, c);
    match s.els
    case NoElse =>
      assert Idents(Nil) == {};
      CarryOne(p, CIf(e, a.code, Nil));
    case ElseBlock(b) =>
      ListCarries(p, m, b, a.ctx);
      CarryOne(p, CIf(e, a.code, LowerBlock(m, b, a.ctx).code));
    case ElseIf(z) =>
      StmtCarries(p, m, z, a.ctx);
      CarryOne(p, CIf(e, a.code, Lower(m, z, a.ctx).code));
  }

  lemma {:induction false} SwitchCarries(p: string, m: Mode, s: Stmt, c: Ctx)
    requires s.Switch? && LocalsCarry(p, c)
    ensures Carrying(p, Lower(m, s, c))
    decreases s, 0
  {
    hide LowerE;
    var tmp, c1, v := SwitchTmp(c.switchSeq), c.(switchSeq := c.switchSeq + 1), Some(LowerE(s.cond, c));
    ExprCarries(p, s.cond, c);
    ArmsCarries(p, m, tmp, s.arms, c1);
    var body := Cons(CVar(tmp, v), LowerArms(m, tmp, s.arms, c1).code);
    assert Idents(body) == IdentsIn(CVar(tmp, v)) + Idents(body.tail);
    CarryOne(p, CBlock(body));
  }

  lemma {:induction false} LoopCarries(p: string, m: Mode, s: Stmt, c: Ctx)
    requires (s.While? || s.DoWhile?) && LocalsCarry(p, c)
    ensures Carrying(p, Lower(m, s, c))
    decreases s, 0
  {
    hide LowerE;
    var a, e := LowerBlock(m, s.body, c).code, LowerE(s.cond, c);
    ExprCarries(p, s.cond, c);
    ListCarries(p, m, s.body, c);
    CarryOne(p, if s.While? then CWhile(e, a) else CDoWhile(a, e));
  }

  lemma ForIdents(i: List<CStmt>, test: Option<CExpr>, step: Option<CExpr>, a: List<CStmt>)
    ensures IdentsIn(CFor(i, test, step, a)) == Idents(i) + IdentsOpt(test) + IdentsOpt(step) + Idents(a)
    ensures Idents(Nil) == {}
  {
  }

  lemma {:induction false} ForCarries(p: string, m: Mode, s: Stmt, c: Ctx)
    requires s.For? && LocalsCarry(p, c)
    ensures Carrying(p, Lower(m, s, c))
    decreases s, 0
  {
    hide Idents;
    hide IdentsIn;
    hide IdentsOpt;
    hide IdentsE;
    hide LowerList;
    hide LowerE;
    var i := LowerOptional(m, s.start, c);
    if s.start.Some? {
      StmtCarries(p, m, s.start.value, c);
    }
    OptCarries(p, s.test, i.ctx);
    OptCarries(p, s.step, i.ctx);
    ListCarries(p, m, s.body, i.ctx);
    ForIdents(i.code, LowerOpt(s.test, i.ctx), LowerOpt(s.step, i.ctx), LowerBlock(m, s.body, i.ctx).code);
    CarryOne(p, CFor(i.code, LowerOpt(s.test, i.ctx), LowerOpt(s.step, i.ctx), LowerBlock(m, s.body, i.ctx).code));
  }

  lemma {:induction false} DeferCarries(p: string, m: Mode, s: Stmt, c: Ctx)
    requires s.DeferCall? && LocalsCarry(p, c)
    ensures Carrying(p, Lower(m, s, c))
    decreases s, 0
  {
    var d := FindDefer(c.defers, s.id);
    if d.Some? {
      var c1 := DeferScope(m, d.value, c);
      ListCarries(p, m, s.body, c1);
      CarryOne(p, CBlock(LowerBlock(m, s.body, c1).code));
    } else {
      assert IdentsArgs(Nil) == {};
      CarryOne(p, CEval(CCall(s.id, Nil)));
    }
  }

  lemma {:induction false} DecoratedCarries(p: string, m: Mode, s: Stmt, c: Ctx)
    requires s.Decorated? && LocalsCarry(p, c)
    ensures Carrying(p, Lower(m, s, c))
    decreases s, 0
  {
    var a := LowerList(m, s.pre, c);
    ListCarries(p, m, s.pre, c);
    var b := LowerOptional(m, s.core, a.ctx);
    if s.core.Some? {
      StmtCarries(p, m, s.core.value, a.ctx);
    }
    var d := LowerList(m, s.post, b.ctx);
    ListCarries(p, m, s.post, b.ctx);
    CarryThen(p, b.code, d.code);
    CarryThen(p, a.code, Append(b.code, d.code));
  }

  /** Two identifiers of a function, parameters among them, are the same string in C
      exactly when they are the same, up to a local and a global of one text. */
  lemma RenderedApart(p: Program, f: Function, m: Mode, switches: nat, envs: nat, a: CName, b: CName)
    requires IsModulePrefix(p.prefix)
    requires a in Idents(Body(m, p, f, switches, envs)) + ParamScope(p, f.params)
    requires b in Idents(Body(m, p, f, switches, envs)) + ParamScope(p, f.params)
    ensures Render(a) == Render(b) <==> Plain(a) == Plain(b)
  {
    RegisterAllCarries(p.prefix, f.params, Ctx(p.prefix, Nil, {}, Nil, None, 0, switches, envs, f.void, false));
    ListCarries(p.prefix, m, f.body, BodyContext(p, f, switches, envs));
    ParamsCarry(p, f.params);
    RenderInjective(p.prefix, a, b);
  }

  lemma {:induction false} ParamsCarry(p: Program, xs: List<string>)
    requires IsModulePrefix(p.prefix)
    ensures AllCarry(p.prefix, ParamScope(p, xs))
  {
    if xs.Cons? {
      SymbolCarries(p.prefix, xs.head);
      ParamsCarry(p, xs.tail);
      assert ParamScope(p, xs) == {Sym(GlobalSym(p.prefix, xs.head))} + ParamScope(p, xs.tail);
    }
  }

  /** The symbol of a local, and of a global variable of the module, written out. */
  lemma VariableSymbol(p: string, x: string)
    requires IsModulePrefix(p)
    ensures IsIdent(x) ==> GlobalSym(p, x) == p + "v_" + x
    ensures p <= GlobalSym(p, x)
  {
    PrefixIsIdent(p);
    SymbolCarries(p, x);
    assert IsIdent(x) ==> IsIdent(p + "v_" + x);
  }
}
