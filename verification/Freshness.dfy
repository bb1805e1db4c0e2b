/** Every C name that lowering declares in a function is new: no name is declared
    twice or hides a local that is still needed. */
module Freshness {
  import opened Lists
  import opened Naming
  import opened Syntax
  import opened Lowering

  /* ---------------------------- declared C names ---------------------------- */

  function Declares(cs: List<CStmt>): set<CName>
    decreases cs, 0
  {
    match cs
    case Nil => {}
    case Cons(s, rest) => DeclaresIn(s) + Declares(rest)
  }

  function DeclaresIn(s: CStmt): set<CName>
    decreases s, 1
  {
    match s
    case CVar(c, _) => {c}
    case CVarStruct(c, _) => {c}
    case CIf(_, a, b) => Declares(a) + Declares(b)
    case CWhile(_, a) => Declares(a)
    case CDoWhile(a, _) => Declares(a)
    case CFor(i, _, _, a) => Declares(i) + Declares(a)
    case CBlock(a) => Declares(a)
    case _ => {}
  }

  /** No C name is declared twice, not even in separate braces. */
  predicate DeclaredOnce(cs: List<CStmt>)
    decreases cs, 0
  {
    match cs
    case Nil => true
    case Cons(s, rest) => OnceIn(s) && DeclaredOnce(rest) && DeclaresIn(s) !! Declares(rest)
  }

  predicate OnceIn(s: CStmt)
    decreases s, 1
  {
    match s
    case CIf(_, a, b) => DeclaredOnce(a) && DeclaredOnce(b) && Declares(a) !! Declares(b)
    case CWhile(_, a) => DeclaredOnce(a)
    case CDoWhile(a, _) => DeclaredOnce(a)
    case CFor(i, _, _, a) => DeclaredOnce(i) && DeclaredOnce(a) && Declares(i) !! Declares(a)
    case CBlock(a) => DeclaredOnce(a)
    case _ => true
  }

  lemma {:induction false} AppendDeclares(a: List<CStmt>, b: List<CStmt>)
    ensures Declares(Append(a, b)) == Declares(a) + Declares(b)
    ensures DeclaredOnce(a) && DeclaredOnce(b) && Declares(a) !! Declares(b) ==> DeclaredOnce(Append(a, b))
  {
    if a.Cons? {
      AppendDeclares(a.tail, b);
    }
  }

  /** The tree contains no nested function. */
  predicate Flat(ss: List<Stmt>)
    decreases ss, 0
  {
    match ss
    case Nil => true
    case Cons(s, rest) => FlatIn(s) && Flat(rest)
  }

  predicate FlatTry(t: Try)
    decreases t, 0
  {
    FlatIn(t.setup) && (t.tail.Some? ==> FlatIn(t.tail.value))
  }

  predicate FlatArms(arms: Arms)
    decreases arms, 0
  {
    match arms
    case Default(None) => true
    case Default(Some(b)) => Flat(b)
    case Arm(_, b, rest) => Flat(b) && FlatArms(rest)
  }

  predicate FlatIn(s: Stmt)
    decreases s, 1
  {
    match s
    case VarDef(_, InitTry(t)) => FlatTry(t)
    case AssignTry(_, _, t) => FlatTry(t)
    case Return(_, ds) => Flat(ds)
    case ReturnTry(t, ds) => FlatTry(t) && Flat(ds)
    case Break(ds) => Flat(ds)
    case Continue(ds) => Flat(ds)
    case If(_, a, NoElse) => Flat(a)
    case If(_, a, ElseBlock(b)) => Flat(a) && Flat(b)
    case If(_, a, ElseIf(s')) => Flat(a) && FlatIn(s')
    case Switch(_, arms) => FlatArms(arms)
    case While(_, a) => Flat(a)
    case DoWhile(a, _) => Flat(a)
    case For(i, _, _, a) => (i.Some? ==> FlatIn(i.value)) && Flat(a)
    case Block(a) => Flat(a)
    case DeferCall(_, a) => Flat(a)
    case Decorated(a, core, b) => Flat(a) && (core.Some? ==> FlatIn(core.value)) && Flat(b)
    case LocalFn(_, _, _) => false
    case _ => true
  }

  /* --------------------------- the lowering context ------------------------- */

  /** The C names of the function that are taken in context c. */
  predicate Used(c: Ctx, n: CName) {
    match n
    case Sym(text) => text in c.decls
    case Glob(_) => false
    case RetTmp(k) => k < c.retSeq
    case SwitchTmp(k) => k < c.switchSeq
    case DeferEnv(k) => k < c.deferSeq
  }

  predicate Grows(c: Ctx, c': Ctx) {
    && c.decls <= c'.decls
    && c.retSeq <= c'.retSeq && c.switchSeq <= c'.switchSeq && c.deferSeq <= c'.deferSeq
    && c.prefix == c'.prefix && c.retVoid == c'.retVoid && c.env == c'.env
  }

  function CNames(locals: List<Local>): set<string> {
    match locals
    case Nil => {}
    case Cons(l, rest) => {l.cname} + CNames(rest)
  }

  predicate Distinct(locals: List<Local>) {
    locals.Cons? ==> locals.head.cname !in CNames(locals.tail) && Distinct(locals.tail)
  }

  predicate EnvsBelow(defers: List<DeferEntry>, n: nat) {
    defers.Cons? ==> (defers.head.env.Some? ==> defers.head.env.value < n) && EnvsBelow(defers.tail, n)
  }

  /** What holds of every context the compiler reaches. */
  predicate GoodCtx(p: Program, c: Ctx) {
    && c.prefix == p.prefix
    && CNames(c.locals) <= c.decls
    && Distinct(c.locals)
    && EnvsBelow(c.defers, c.deferSeq)
    && (c.env.Some? ==> c.env.value < c.deferSeq)
  }

  /** Code lowered between c and c' declares exactly once, and only what is new. */
  ghost predicate Fresh(c: Ctx, c': Ctx, code: List<CStmt>) {
    && Grows(c, c')
    && DeclaredOnce(code)
    && (forall n :: n in Declares(code) ==> !Used(c, n) && Used(c', n))
  }

  lemma {:induction defers} EnvsBelowMono(defers: List<DeferEntry>, n: nat, n': nat)
    requires EnvsBelow(defers, n) && n <= n'
    ensures EnvsBelow(defers, n')
  {
  }

  lemma FreshJoin(c: Ctx, c1: Ctx, c2: Ctx, a: List<CStmt>, b: List<CStmt>)
    requires Fresh(c, c1, a) && Fresh(c1, c2, b)
    ensures Fresh(c, c2, Append(a, b))
    ensures Declares(a) !! Declares(b)
  {
    forall n | n in Declares(a)
      ensures n !in Declares(b)
    {
      assert Used(c1, n);
    }
    AppendDeclares(a, b);
  }

  lemma FreshExpr(c: Ctx, c': Ctx, code: List<CStmt>, s: CStmt)
    requires Fresh(c, c', code) && DeclaresIn(s) == {} && OnceIn(s)
    ensures Fresh(c, c', Append(code, Single(s)))
  {
    assert Declares(Single(s)) == DeclaresIn(s) + Declares(Nil) == {};
    assert DeclaredOnce(Nil) && DeclaredOnce(Single(s));
    AppendDeclares(code, Single(s));
  }

  /** One instruction that declares what the chain `inner` does. */
  lemma FreshWrap(c: Ctx, c': Ctx, inner: List<CStmt>, s: CStmt)
    requires Fresh(c, c', inner) && DeclaresIn(s) == Declares(inner) && OnceIn(s)
    ensures Fresh(c, c', Single(s))
  {
    assert Declares(Single(s)) == DeclaresIn(s) + Declares(Nil);
    assert DeclaredOnce(Single(s)) by {
      assert DeclaredOnce(Nil);
    }
  }

  /** A declaration of a new name in front of a chain. */
  lemma FreshCons(c: Ctx, c1: Ctx, c2: Ctx, s: CStmt, n: CName, code: List<CStmt>)
    requires Grows(c, c1) && Fresh(c1, c2, code)
    requires DeclaresIn(s) == {n} && OnceIn(s)
    requires !Used(c, n) && Used(c1, n)
    ensures Fresh(c, c2, Cons(s, code))
  {
    assert Declares(Cons(s, code)) == {n} + Declares(code);
  }

  lemma FreshNil(c: Ctx, c': Ctx)
    requires Grows(c, c')
    ensures Fresh(c, c', Nil)
  {
  }

  lemma RegisterGood(p: Program, c: Ctx, x: string)
    requires GoodCtx(p, c)
    ensures GoodCtx(p, Register(c, x)) && Grows(c, Register(c, x))
    ensures !Used(c, Sym(FreshName(c, x))) && Used(Register(c, x), Sym(FreshName(c, x)))
  {
  }

  lemma GoodOuter(p: Program, outer: Ctx, inner: Ctx, c: Ctx)
    requires GoodCtx(p, outer) && GoodCtx(p, inner) && Grows(outer, inner)
    requires c == inner.(locals := outer.locals) || c == inner.(locals := outer.locals, defers := outer.defers)
    ensures GoodCtx(p, c)
  {
    EnvsBelowMono(outer.defers, outer.deferSeq, inner.deferSeq);
  }

  /* ------------------------------- the theorem ------------------------------ */

  ghost predicate Stacks(m: Mode, c: Ctx, c': Ctx) {
    m.Intended? ==> IsTail(c.locals, c'.locals) && IsTail(c.defers, c'.defers)
  }

  ghost predicate Sound(p: Program, m: Mode, c: Ctx, o: Out) {
    GoodCtx(p, o.ctx) && Fresh(c, o.ctx, o.code) && Stacks(m, c, o.ctx)
  }

  lemma NilSound(p: Program, m: Mode, c: Ctx)
    requires GoodCtx(p, c)
    ensures Sound(p, m, c, Out(c, Nil))
  {
    FreshNil(c, c);
  }

  lemma ScopeEndSound(p: Program, m: Mode, c: Ctx, o: Out)
    requires GoodCtx(p, c) && Sound(p, m, c, o)
    ensures Sound(p, m, c, Out(ScopeEnd(m, c, o.ctx), o.code))
    ensures Sound(p, m, c, Out(BlockEnd(m, c, o.ctx), o.code))
  {
    GoodOuter(p, c, o.ctx, BlockEnd(m, c, o.ctx));
  }

  lemma JoinSound(p: Program, m: Mode, c: Ctx, a: Out, b: Out)
    requires Sound(p, m, c, a) && Sound(p, m, a.ctx, b)
    ensures Sound(p, m, c, Out(b.ctx, Append(a.code, b.code)))
  {
    FreshJoin(c, a.ctx, b.ctx, a.code, b.code);
    if m.Intended? {
      TailTrans(c.locals, a.ctx.locals, b.ctx.locals);
      TailTrans(c.defers, a.ctx.defers, b.ctx.defers);
    }
  }

  /** Two pieces that end up in one instruction. */
  lemma PairSound(p: Program, m: Mode, c: Ctx, a: Out, b: Out)
    requires Sound(p, m, c, a) && Sound(p, m, a.ctx, b)
    ensures Sound(p, m, c, Out(b.ctx, Append(a.code, b.code)))
    ensures Declares(Append(a.code, b.code)) == Declares(a.code) + Declares(b.code)
    ensures DeclaredOnce(a.code) && DeclaredOnce(b.code) && Declares(a.code) !! Declares(b.code)
  {
    JoinSound(p, m, c, a, b);
    FreshJoin(c, a.ctx, b.ctx, a.code, b.code);
    AppendDeclares(a.code, b.code);
  }

  lemma {:induction false} TryFresh(p: Program, m: Mode, t: Try, c: Ctx)
    requires GoodCtx(p, c) && (m.Intended? || FlatTry(t))
    ensures Sound(p, m, c, LowerTryPrefix(m, t, c))
    decreases t, 0
  {
    var setup := Lower(m, t.setup, c);
    LowerFresh(p, m, t.setup, c);
    FreshNil(setup.ctx, setup.ctx);
    if t.tail.Some? {
      LowerFresh(p, m, t.tail.value, setup.ctx);
      ScopeEndSound(p, m, setup.ctx, Lower(m, t.tail.value, setup.ctx));
    }
    var tail := if t.tail.Some? then Lower(m, t.tail.value, setup.ctx) else Out(setup.ctx, Nil);
    var check := CIf(CUnary(LNot, LowerE(t.ok, setup.ctx)), tail.code, Nil);
    var b := Out(ScopeEnd(m, setup.ctx, tail.ctx), Single(check));
    FreshWrap(setup.ctx, b.ctx, tail.code, check);
    JoinSound(p, m, c, setup, b);
  }

  lemma {:induction false} ReturnFresh(p: Program, m: Mode, v: Option<CExpr>, ds: List<Stmt>, c: Ctx)
    requires GoodCtx(p, c) && (m.Intended? || Flat(ds))
    ensures Sound(p, m, c, LowerReturn(m, v, ds, c))
    decreases ds, 2
  {
    FreshNil(c, c);
    if ds.Nil? {
      FreshWrap(c, c, Nil, CReturn(v));
    } else {
      var saves := v.Some? && (!c.retVoid || m.Intended?);
      var c1 := if saves then c.(retSeq := c.retSeq + 1) else c;
      ListFresh(p, m, ds, c1);
      var d := LowerList(m, ds, c1);
      ScopeEndSound(p, m, c1, d);
      var e := ScopeEnd(m, c1, d.ctx);
      assert e == ScopeEnd(m, c, d.ctx);
      var tmp := RetTmp(c.retSeq);
      var last := CReturn(if saves then Some(CIdent(tmp)) else v);
      FreshExpr(c1, e, d.code, last);
      var body := Append(d.code, Single(last));
      if saves {
        FreshCons(c, c1, e, CVar(tmp, v), tmp, body);
        FreshWrap(c, e, Cons(CVar(tmp, v), body), CBlock(Cons(CVar(tmp, v), body)));
      } else {
        FreshWrap(c, e, body, CBlock(body));
      }
    }
  }

  lemma {:induction false} JumpFresh(p: Program, m: Mode, jump: CStmt, ds: List<Stmt>, c: Ctx)
    requires GoodCtx(p, c) && (m.Intended? || Flat(ds))
    requires DeclaresIn(jump) == {} && OnceIn(jump)
    ensures Sound(p, m, c, LowerJump(m, jump, ds, c))
    decreases ds, 2
  {
    FreshNil(c, c);
    if ds.Nil? {
      FreshWrap(c, c, Nil, jump);
    } else {
      ListFresh(p, m, ds, c);
      var d := LowerList(m, ds, c);
      ScopeEndSound(p, m, c, d);
      var e := ScopeEnd(m, c, d.ctx);
      FreshExpr(c, e, d.code, jump);
      FreshWrap(c, e, Append(d.code, Single(jump)), CBlock(Append(d.code, Single(jump))));
    }
  }

  lemma {:induction false} ListFresh(p: Program, m: Mode, ss: List<Stmt>, c: Ctx)
    requires GoodCtx(p, c) && (m.Intended? || Flat(ss))
    ensures Sound(p, m, c, LowerList(m, ss, c))
    decreases ss, 0
  {
    match ss
    case Nil => FreshNil(c, c);
    case Cons(s, rest) =>
      var a := Lower(m, s, c);
      LowerFresh(p, m, s, c);
      ListFresh(p, m, rest, a.ctx);
      JoinSound(p, m, c, a, LowerList(m, rest, a.ctx));
  }

  lemma {:induction false} BlockFresh(p: Program, m: Mode, ss: List<Stmt>, c: Ctx)
    requires GoodCtx(p, c) && (m.Intended? || Flat(ss))
    ensures Sound(p, m, c, LowerBlock(m, ss, c))
    decreases ss, 1
  {
    ListFresh(p, m, ss, c);
    ScopeEndSound(p, m, c, LowerList(m, ss, c));
  }

  lemma {:induction false} ArmsFresh(p: Program, m: Mode, tmp: CName, arms: Arms, c: Ctx)
    requires GoodCtx(p, c) && (m.Intended? || FlatArms(arms))
    ensures Sound(p, m, c, LowerArms(m, tmp, arms, c))
    decreases arms, 0
  {
    match arms
    case Default(None) => FreshNil(c, c);
    case Default(Some(body)) => BlockFresh(p, m, body, c);
    case Arm(Nil, _, rest) => ArmsFresh(p, m, tmp, rest, c);
    case Arm(Cons(e, es), body, rest) =>
      BlockFresh(p, m, body, c);
      var a := LowerBlock(m, body, c);
      ArmsFresh(p, m, tmp, rest, a.ctx);
      BranchSound(p, m, c, a, LowerArms(m, tmp, rest, a.ctx), OrChain(PatternTest(tmp, e, c), tmp, es, c));
  }

  lemma BranchSound(p: Program, m: Mode, c: Ctx, a: Out, b: Out, e: CExpr)
    requires Sound(p, m, c, a) && Sound(p, m, a.ctx, b)
    ensures Sound(p, m, c, Out(b.ctx, Single(CIf(e, a.code, b.code))))
  {
    PairSound(p, m, c, a, b);
    FreshWrap(c, b.ctx, Append(a.code, b.code), CIf(e, a.code, b.code));
  }

  lemma WrapSound(p: Program, m: Mode, c: Ctx, o: Out, s: CStmt)
    requires Sound(p, m, c, o) && DeclaresIn(s) == Declares(o.code) && OnceIn(s)
    ensures Sound(p, m, c, Out(o.ctx, Single(s)))
  {
    FreshWrap(c, o.ctx, o.code, s);
  }

  /** Lowering keeps the context sound and declares only fresh names, once. */
  lemma {:induction false} LowerFresh(p: Program, m: Mode, s: Stmt, c: Ctx)
    requires GoodCtx(p, c) && (m.Intended? || FlatIn(s))
    ensures Sound(p, m, c, Lower(m, s, c))
    decreases s, 1
  {
    match s
    case VarDef(_, _) => VarFresh(p, m, s, c);
    case Assign(_, _, _) => SimpleFresh(p, m, s, c);
    case AssignTry(_, _, _) => AssignTryFresh(p, m, s, c);
    case ExprStmt(_) => SimpleFresh(p, m, s, c);
    case Return(v, ds) => ReturnFresh(p, m, LowerOpt(v, c), ds, c);
    case ReturnTry(t, ds) => ReturnTryFresh(p, m, t, ds, c);
    case Break(ds) => JumpFresh(p, m, CBreak, ds, c);
    case Continue(ds) => JumpFresh(p, m, CContinue, ds, c);
    case If(_, _, _) => IfFresh(p, m, s, c);
    case Switch(_, _) => SwitchFresh(p, m, s, c);
    case While(e, body) => LoopFresh(p, m, s, c);
    case DoWhile(body, e) => LoopFresh(p, m, s, c);
    case For(_, _, _, _) => ForFresh(p, m, s, c);
    case Block(body) => BlockFresh(p, m, body, c);
    case DeferDef(_, _, _) => SimpleFresh(p, m, s, c);
    case DeferCall(_, _) => DeferFresh(p, m, s, c);
    case Decorated(_, _, _) => DecoratedFresh(p, m, s, c);
    case LocalFn(_, _, _) => SimpleFresh(p, m, s, c);
  }

  lemma {:induction false} SimpleFresh(p: Program, m: Mode, s: Stmt, c: Ctx)
    requires s.Assign? || s.ExprStmt? || s.DeferDef? || s.LocalFn?
    requires GoodCtx(p, c) && (m.Intended? || FlatIn(s))
    ensures Sound(p, m, c, Lower(m, s, c))
  {
    var o := Lower(m, s, c);
    FreshNil(c, o.ctx);
    match s
    case Assign(x, aop, e) => WrapSound(p, m, c, Out(c, Nil), LowerAssign(x, aop, LowerE(e, c), c));
    case ExprStmt(e) => WrapSound(p, m, c, Out(c, Nil), CEval(LowerE(e, c)));
    case DeferDef(id, captures, _) =>
      EnvsBelowMono(c.defers, c.deferSeq, c.deferSeq + 1);
      if captures.Cons? {
        var n := DeferEnv(c.deferSeq);
        FreshNil(o.ctx, o.ctx);
        FreshCons(c, o.ctx, o.ctx, CVarStruct(n, LowerCaptures(captures, c)), n, Nil);
      }
    case LocalFn(_, _, _) =>
      EnvsBelowMono(c.defers, c.deferSeq, o.ctx.deferSeq);
      WrapSound(p, m, c, Out(o.ctx, Nil), o.code.head);
  }

  lemma {:induction false} VarFresh(p: Program, m: Mode, s: Stmt, c: Ctx)
    requires s.VarDef? && GoodCtx(p, c) && (m.Intended? || FlatIn(s))
    ensures Sound(p, m, c, Lower(m, s, c))
    decreases s, 0
  {
    hide FreshName;
    var x, o := s.name, Lower(m, s, c);
    var c1, n := Register(c, x), Sym(FreshName(c, x));
    RegisterGood(p, c, x);
    FreshNil(c1, c1);
    assert IsTail(c.locals, c1.locals.tail) && IsTail(c.locals, c1.locals) && IsTail(c.defers, c1.defers);
    if s.init.InitTry? {
      var t := s.init.t;
      var ci := if m.Intended? then c1.(locals := c.locals) else c1;
      VarTryFresh(p, m, t, x, n, c1, ci);
      var pre := LowerTryPrefix(m, t, ci);
      var body := TryStored(m, x, n, LowerE(t.value, pre.ctx), pre);
      FreshCons(c, c1, ScopeEnd(m, c1, pre.ctx), CVar(n, None), n, Single(CBlock(body)));
      assert o == Out(ScopeEnd(m, c1, pre.ctx), Cons(CVar(n, None), Single(CBlock(body))));
    } else {
      FreshCons(c, c1, c1, o.code.head, n, Nil);
      assert o == Out(c1, Cons(o.code.head, Nil));
    }
  }

  /** The store of a new variable's value behind the prefix of its try. */
  function TryStored(m: Mode, x: string, n: CName, value: CExpr, pre: Out): List<CStmt> {
    Append(pre.code, Single(if m.Intended? then StoreIn(n, x, value) else LowerAssign(x, None, value, pre.ctx)))
  }

  lemma {:induction false} VarTryFresh(p: Program, m: Mode, t: Try, x: string, n: CName, c1: Ctx, ci: Ctx)
    requires GoodCtx(p, c1) && GoodCtx(p, ci) && (m.Intended? || FlatTry(t))
    requires ci == c1 || (m.Intended? && ci == c1.(locals := ci.locals) && IsTail(ci.locals, c1.locals))
    ensures var pre := LowerTryPrefix(m, t, ci);
            var body := TryStored(m, x, n, LowerE(t.value, pre.ctx), pre);
            Sound(p, m, c1, Out(ScopeEnd(m, c1, pre.ctx), Single(CBlock(body))))
    decreases t, 1
  {
    TryFresh(p, m, t, ci);
    var pre := LowerTryPrefix(m, t, ci);
    var value := LowerE(t.value, pre.ctx);
    var body := TryStored(m, x, n, value, pre);
    var store := if m.Intended? then StoreIn(n, x, value) else LowerAssign(x, None, value, pre.ctx);
    FreshExpr(ci, pre.ctx, pre.code, store);
    GoodOuter(p, c1, pre.ctx, BlockEnd(m, c1, pre.ctx));
    FreshWrap(c1, ScopeEnd(m, c1, pre.ctx), body, CBlock(body));
  }

  lemma {:induction false} AssignTryFresh(p: Program, m: Mode, s: Stmt, c: Ctx)
    requires s.AssignTry? && GoodCtx(p, c) && (m.Intended? || FlatIn(s))
    ensures Sound(p, m, c, Lower(m, s, c))
    decreases s, 0
  {
    TryFresh(p, m, s.t, c);
    var pre := LowerTryPrefix(m, s.t, c);
    ScopeEndSound(p, m, c, pre);
    var e := ScopeEnd(m, c, pre.ctx);
    var op := if m.Intended? then s.aop else None;
    var store := LowerAssign(s.name, op, LowerE(s.t.value, pre.ctx), Within(m, c, pre.ctx));
    FreshExpr(c, e, pre.code, store);
    var body := Append(pre.code, Single(store));
    FreshWrap(c, e, body, CBlock(body));
  }

  lemma {:induction false} ReturnTryFresh(p: Program, m: Mode, t: Try, ds: List<Stmt>, c: Ctx)
    requires GoodCtx(p, c) && (m.Intended? || FlatIn(ReturnTry(t, ds)))
    ensures Sound(p, m, c, Lower(m, ReturnTry(t, ds), c))
    decreases ReturnTry(t, ds), 0
  {
    TryFresh(p, m, t, c);
    var pre := LowerTryPrefix(m, t, c);
    var w := Within(m, c, pre.ctx);
    ScopeEndSound(p, m, c, pre);
    var v := Some(LowerE(t.value, pre.ctx));
    ReturnFresh(p, m, v, ds, w);
    var ret := LowerReturn(m, v, ds, w);
    JoinSound(p, m, c, Out(w, pre.code), ret);
    var body := Append(pre.code, ret.code);
    ScopeEndSound(p, m, c, Out(ret.ctx, body));
    WrapSound(p, m, c, Out(ScopeEnd(m, c, ret.ctx), body), CBlock(body));
  }

  lemma {:induction false} IfFresh(p: Program, m: Mode, s: Stmt, c: Ctx)
    requires s.If? && GoodCtx(p, c) && (m.Intended? || FlatIn(s))
    ensures Sound(p, m, c, Lower(m, s, c))
    decreases s, 0
  {
    BlockFresh(p, m, s.body, c);
    var a := LowerBlock(m, s.body, c);
    var e := LowerE(s.cond, c);
    FreshNil(a.ctx, a.ctx);
    match s.els
    case NoElse => BranchSound(p, m, c, a, Out(a.ctx, Nil), e);
    case ElseBlock(b) =>
      BlockFresh(p, m, b, a.ctx);
      BranchSound(p, m, c, a, LowerBlock(m, b, a.ctx), e);
    case ElseIf(s') =>
      LowerFresh(p, m, s', a.ctx);
      var b := Lower(m, s', a.ctx);
      ScopeEndSound(p, m, a.ctx, b);
      BranchSound(p, m, c, a, Out(ScopeEnd(m, a.ctx, b.ctx), b.code), e);
  }

  lemma {:induction false} SwitchFresh(p: Program, m: Mode, s: Stmt, c: Ctx)
    requires s.Switch? && GoodCtx(p, c) && (m.Intended? || FlatIn(s))
    ensures Sound(p, m, c, Lower(m, s, c))
    decreases s, 0
  {
    var c1, tmp := c.(switchSeq := c.switchSeq + 1), SwitchTmp(c.switchSeq);
    ArmsFresh(p, m, tmp, s.arms, c1);
    var o := LowerArms(m, tmp, s.arms, c1);
    var decl := CVar(tmp, Some(LowerE(s.cond, c)));
    FreshCons(c, c1, o.ctx, decl, tmp, o.code);
    FreshWrap(c, o.ctx, Cons(decl, o.code), CBlock(Cons(decl, o.code)));
  }

  lemma {:induction false} LoopFresh(p: Program, m: Mode, s: Stmt, c: Ctx)
    requires s.While? || s.DoWhile?
    requires GoodCtx(p, c) && (m.Intended? || FlatIn(s))
    ensures Sound(p, m, c, Lower(m, s, c))
    decreases s, 0
  {
    BlockFresh(p, m, s.body, c);
    var o := LowerBlock(m, s.body, c);
    WrapSound(p, m, c, o, if s.While? then CWhile(LowerE(s.cond, c), o.code) else CDoWhile(o.code, LowerE(s.cond, c)));
  }

  lemma {:induction false} ForFresh(p: Program, m: Mode, s: Stmt, c: Ctx)
    requires s.For? && GoodCtx(p, c) && (m.Intended? || FlatIn(s))
    ensures Sound(p, m, c, Lower(m, s, c))
    decreases s, 0
  {
    hide LowerE;
    hide GoodCtx;
    hide Fresh;
    hide Stacks;
    NilSound(p, m, c);
    var i := if s.start.Some? then Lower(m, s.start.value, c) else Out(c, Nil);
    if s.start.Some? {
      LowerFresh(p, m, s.start.value, c);
    }
    BlockFresh(p, m, s.body, i.ctx);
    var o := LowerBlock(m, s.body, i.ctx);
    PairSound(p, m, c, i, o);
    var both := Out(o.ctx, Append(i.code, o.code));
    ScopeEndSound(p, m, c, both);
    WrapSound(p, m, c, Out(ScopeEnd(m, c, o.ctx), both.code),
              CFor(i.code, LowerOpt(s.test, i.ctx), LowerOpt(s.step, i.ctx), o.code));
  }

  lemma {:induction false} DeferFresh(p: Program, m: Mode, s: Stmt, c: Ctx)
    requires s.DeferCall? && GoodCtx(p, c) && (m.Intended? || FlatIn(s))
    ensures Sound(p, m, c, Lower(m, s, c))
    decreases s, 0
  {
    var d := FindDefer(c.defers, s.id);
    FreshNil(c, c);
    if d.None? {
      WrapSound(p, m, c, Out(c, Nil), CEval(CCall(s.id, Nil)));
    } else {
      FindDeferBelow(c.defers, s.id, c.deferSeq);
      var c1 := DeferScope(m, d.value, c);
      BlockFresh(p, m, s.body, c1);
      var o := LowerBlock(m, s.body, c1);
      EnvsBelowMono(c.defers, c.deferSeq, o.ctx.deferSeq);
      var e := DeferEnd(m, c, o.ctx);
      assert Fresh(c, e, o.code);
      FreshWrap(c, e, o.code, CBlock(o.code));
    }
  }

  lemma {:induction false} DecoratedFresh(p: Program, m: Mode, s: Stmt, c: Ctx)
    requires s.Decorated? && GoodCtx(p, c) && (m.Intended? || FlatIn(s))
    ensures Sound(p, m, c, Lower(m, s, c))
    decreases s, 0
  {
    hide LowerE;
    hide GoodCtx;
    hide Fresh;
    hide Stacks;
    ListFresh(p, m, s.pre, c);
    var a := LowerList(m, s.pre, c);
    var b := if s.core.Some? then Lower(m, s.core.value, a.ctx) else Out(a.ctx, Nil);
    NilSound(p, m, a.ctx);
    if s.core.Some? {
      LowerFresh(p, m, s.core.value, a.ctx);
    }
    ListFresh(p, m, s.post, b.ctx);
    var d := LowerList(m, s.post, b.ctx);
    JoinSound(p, m, a.ctx, b, d);
    JoinSound(p, m, c, a, Out(d.ctx, Append(b.code, d.code)));
  }

  lemma {:induction defers} FindDeferBelow(defers: List<DeferEntry>, id: string, n: nat)
    requires EnvsBelow(defers, n) && FindDefer(defers, id).Some?
    ensures FindDefer(defers, id).value.env.Some? ==> FindDefer(defers, id).value.env.value < n
  {
  }
}
