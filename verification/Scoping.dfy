/** When the compiler resolves names as the source does.

    The compiler's list of visible locals runs ahead of the lexical scopes in a
    few places, and behind a nested function it forgets which C names are taken.
    This module follows both views through the text of a function, without its
    code, and proves that the C text as written is the intended one exactly when
    the two views agree on every name that is mentioned or declared. */
module Scoping {
  import opened Lists
  import opened Naming
  import opened Syntax
  import opened Lowering
  import opened Spelling

  /* ----------------------- what a view is after a statement -------------------- */

  function AfterTry(m: Mode, t: Try, c: Ctx): Ctx
    decreases t, 0
  {
    var a := After(m, t.setup, c);
    if t.tail.Some? then ScopeEnd(m, a, After(m, t.tail.value, a)) else a
  }

  /** A value saved in front of defers takes the next number. */
  function AfterExit(m: Mode, saved: bool, ds: List<Stmt>, c: Ctx): Ctx
    decreases ds, 2
  {
    if ds.Nil? then c
    else
      var c1 := if saved && (!c.retVoid || m.Intended?) then c.(retSeq := c.retSeq + 1) else c;
      ScopeEnd(m, c, AfterList(m, ds, c1))
  }

  function AfterList(m: Mode, ss: List<Stmt>, c: Ctx): Ctx
    decreases ss, 0
  {
    match ss
    case Nil => c
    case Cons(s, rest) => AfterList(m, rest, After(m, s, c))
  }

  function AfterBlock(m: Mode, ss: List<Stmt>, c: Ctx): Ctx
    decreases ss, 1
  {
    BlockEnd(m, c, AfterList(m, ss, c))
  }

  function AfterArms(m: Mode, arms: Arms, c: Ctx): Ctx
    decreases arms, 0
  {
    match arms
    case Default(None) => c
    case Default(Some(b)) => AfterBlock(m, b, c)
    case Arm(Nil, _, rest) => AfterArms(m, rest, c)
    case Arm(Cons(_, _), b, rest) => AfterArms(m, rest, AfterBlock(m, b, c))
  }

  function AfterOpt(m: Mode, s: Option<Stmt>, c: Ctx): Ctx
    decreases s, 2
  {
    if s.Some? then After(m, s.value, c) else c
  }

  /** Where an initialiser stands: its own name is taken, and for the compiler it
      is visible as well. */
  function InitScope(m: Mode, x: string, c: Ctx): Ctx {
    if m.Intended? then Register(c, x).(locals := c.locals) else Register(c, x)
  }

  /** The view that is reached behind s: a function of the text alone. */
  function After(m: Mode, s: Stmt, c: Ctx): Ctx
    decreases s, 1
  {
    match s
    case VarDef(x, InitTry(t)) => ScopeEnd(m, Register(c, x), AfterTry(m, t, InitScope(m, x, c)))
    case VarDef(x, _) => Register(c, x)
    case AssignTry(_, _, t) => ScopeEnd(m, c, AfterTry(m, t, c))
    case Return(v, ds) => AfterExit(m, v.Some?, ds, c)
    case ReturnTry(t, ds) => ScopeEnd(m, c, AfterExit(m, true, ds, ScopeEnd(m, c, AfterTry(m, t, c))))
    case Break(ds) => AfterExit(m, false, ds, c)
    case Continue(ds) => AfterExit(m, false, ds, c)
    case If(_, a, NoElse) => AfterBlock(m, a, c)
    case If(_, a, ElseBlock(b)) => AfterBlock(m, b, AfterBlock(m, a, c))
    case If(_, a, ElseIf(s')) => var c1 := AfterBlock(m, a, c); ScopeEnd(m, c1, After(m, s', c1))
    case Switch(_, arms) => AfterArms(m, arms, c.(switchSeq := c.switchSeq + 1))
    case While(_, a) => AfterBlock(m, a, c)
    case DoWhile(a, _) => AfterBlock(m, a, c)
    case For(i, _, _, a) => ScopeEnd(m, c, AfterBlock(m, a, AfterOpt(m, i, c)))
    case Block(a) => AfterBlock(m, a, c)
    case DeferDef(id, captures, _) =>
      var env := if captures.Nil? then None else Some(c.deferSeq);
      c.(defers := Cons(DeferEntry(id, env), c.defers),
         deferSeq := if captures.Nil? then c.deferSeq else c.deferSeq + 1)
    case DeferCall(id, a) =>
      (match FindDefer(c.defers, id)
       case None => c
       case Some(d) => DeferEnd(m, c, AfterBlock(m, a, DeferScope(m, d, c))))
    case Decorated(a, core, b) => AfterList(m, b, AfterOpt(m, core, AfterList(m, a, c)))
    case LocalFn(params, a, void) =>
      var z := AfterBlock(m, a, RegisterAll(params, FunctionStart(m, c, void)));
      c.(decls := if m.Intended? then c.decls else z.decls, switchSeq := z.switchSeq, deferSeq := z.deferSeq,
         hung := c.hung || z.hung)
    case _ => c
  }

  /* --------------------------- where the views agree --------------------------- */

  /** The compiler (c) and the source (d) spell the name x alike. */
  predicate Alike(x: string, c: Ctx, d: Ctx) { Plain(Resolve(c, x)) == Plain(Resolve(d, x)) }

  predicate CleanE(e: Expr, c: Ctx, d: Ctx)
    decreases e
  {
    match e
    case Lit(_) => true
    case Ident(x) => Alike(x, c, d)
    case CapRef(_) => c.env == d.env
    case Unary(_, a) => CleanE(a, c, d)
    case Binary(_, a, b) => CleanE(a, c, d) && CleanE(b, c, d)
    case Call(_, args) => CleanArgs(args, c, d)
    case AssignE(x, _, a) => (x == DISCARD || Alike(x, c, d)) && CleanE(a, c, d)
    case Ternary(q, a, b) => CleanE(q, c, d) && CleanE(a, c, d) && CleanE(b, c, d)
  }

  predicate CleanArgs(es: List<Expr>, c: Ctx, d: Ctx)
    decreases es
  {
    es.Cons? ==> CleanE(es.head, c, d) && CleanArgs(es.tail, c, d)
  }

  predicate CleanOpt(e: Option<Expr>, c: Ctx, d: Ctx) { e.Some? ==> CleanE(e.value, c, d) }

  predicate CleanCaptures(cs: List<Capture>, c: Ctx, d: Ctx) {
    cs.Cons? ==> CleanE(cs.head.e, c, d) && CleanCaptures(cs.tail, c, d)
  }

  predicate CleanTry(t: Try, c: Ctx, d: Ctx)
    decreases t, 0
  {
    var c1, d1 := After(AsWritten, t.setup, c), After(Intended, t.setup, d);
    Clean(t.setup, c, d) && CleanE(t.ok, c1, d1) && CleanStart(t.tail, c1, d1)
  }

  /** The value of a try, stored in the new variable x behind it. */
  predicate CleanStore(x: string, n: CName, t: Try, c: Ctx, d: Ctx)
    decreases t, 1
  {
    var c1, d1 := AfterTry(AsWritten, t, c), AfterTry(Intended, t, d);
    CleanTry(t, c, d) && CleanE(t.value, c1, d1) && (x == DISCARD || Plain(Resolve(c1, x)) == n)
  }

  predicate CleanStart(s: Option<Stmt>, c: Ctx, d: Ctx)
    decreases s, 2
  {
    s.Some? ==> Clean(s.value, c, d)
  }

  /** Leaving past defers: a void function must not return a value there. */
  predicate CleanExit(saved: bool, ds: List<Stmt>, c: Ctx, d: Ctx)
    decreases ds, 2
  {
    ds.Cons? ==>
      && !(saved && c.retVoid)
      && if saved then CleanList(ds, c.(retSeq := c.retSeq + 1), d.(retSeq := d.retSeq + 1)) else CleanList(ds, c, d)
  }

  predicate CleanList(ss: List<Stmt>, c: Ctx, d: Ctx)
    decreases ss, 0
  {
    ss.Cons? ==> Clean(ss.head, c, d) && CleanList(ss.tail, After(AsWritten, ss.head, c), After(Intended, ss.head, d))
  }

  predicate CleanArms(arms: Arms, c: Ctx, d: Ctx)
    decreases arms, 0
  {
    match arms
    case Default(None) => true
    case Default(Some(b)) => CleanList(b, c, d)
    case Arm(Nil, _, rest) => CleanArms(rest, c, d)
    case Arm(Cons(e, es), b, rest) =>
      && CleanArgs(Cons(e, es), c, d) && CleanList(b, c, d)
      && CleanArms(rest, AfterBlock(AsWritten, b, c), AfterBlock(Intended, b, d))
  }

  /** Both views spell every name mentioned in s alike and give every local of s
      the same C name; both find the same defers; and none of the rewrites that
      lose something is met. */
  predicate Clean(s: Stmt, c: Ctx, d: Ctx)
    decreases s, 1
  {
    match s
    case VarDef(x, init) =>
      var c1, d1 := InitScope(AsWritten, x, c), InitScope(Intended, x, d);
      && FreshName(c, x) == FreshName(d, x)
      && (match init
          case NoInit => true
          case InitExpr(e) => CleanE(e, c1, d1)
          case InitTry(t) => CleanStore(x, Sym(FreshName(d, x)), t, c1, d1))
    case Assign(x, _, e) => (x == DISCARD || Alike(x, c, d)) && CleanE(e, c, d)
    case AssignTry(x, aop, t) =>
      var c1, d1 := AfterTry(AsWritten, t, c), AfterTry(Intended, t, d);
      && CleanTry(t, c, d) && CleanE(t.value, c1, d1)
      && (x == DISCARD || (Alike(x, c1, ScopeEnd(Intended, d, d1)) && aop.None?))
    case ExprStmt(e) => CleanE(e, c, d)
    case Return(v, ds) => CleanOpt(v, c, d) && CleanExit(v.Some?, ds, c, d)
    case ReturnTry(t, ds) =>
      var c1, d1 := AfterTry(AsWritten, t, c), AfterTry(Intended, t, d);
      CleanTry(t, c, d) && CleanE(t.value, c1, d1) && CleanExit(true, ds, c1, ScopeEnd(Intended, d, d1))
    case Break(ds) => CleanExit(false, ds, c, d)
    case Continue(ds) => CleanExit(false, ds, c, d)
    case If(e, a, els) =>
      var c1, d1 := AfterBlock(AsWritten, a, c), AfterBlock(Intended, a, d);
      && CleanE(e, c, d) && CleanList(a, c, d)
      && (match els
          case NoElse => true
          case ElseBlock(b) => CleanList(b, c1, d1)
          case ElseIf(s') => Clean(s', c1, d1))
    case Switch(e, arms) =>
      CleanE(e, c, d) && CleanArms(arms, c.(switchSeq := c.switchSeq + 1), d.(switchSeq := d.switchSeq + 1))
    case While(e, a) => CleanE(e, c, d) && CleanList(a, c, d)
    case DoWhile(a, e) => CleanE(e, c, d) && CleanList(a, c, d)
    case For(i, test, step, a) =>
      var c1, d1 := AfterOpt(AsWritten, i, c), AfterOpt(Intended, i, d);
      CleanStart(i, c, d) && CleanOpt(test, c1, d1) && CleanOpt(step, c1, d1) && CleanList(a, c1, d1)
    case Block(a) => CleanList(a, c, d)
    case DeferDef(_, captures, _) => CleanCaptures(captures, c, d)
    case DeferCall(id, a) =>
      (match (FindDefer(c.defers, id), FindDefer(d.defers, id))
       case (Some(k), Some(l)) => CleanList(a, DeferScope(AsWritten, k, c), DeferScope(Intended, l, d))
       case (k, l) => k.None? && l.None?)
    case Decorated(a, core, b) =>
      var c1, d1 := AfterList(AsWritten, a, c), AfterList(Intended, a, d);
      && CleanList(a, c, d) && CleanStart(core, c1, d1)
      && CleanList(b, AfterOpt(AsWritten, core, c1), AfterOpt(Intended, core, d1))
    case LocalFn(params, a, void) =>
      CleanList(a, RegisterAll(params, FunctionStart(AsWritten, c, void)),
                RegisterAll(params, FunctionStart(Intended, d, void)))
  }

  /* ----------------------- the views are the compiler's own -------------------- */

  lemma {:induction false} TryView(m: Mode, t: Try, c: Ctx)
    ensures LowerTryPrefix(m, t, c).ctx == AfterTry(m, t, c)
    decreases t, 0
  {
    StmtView(m, t.setup, c);
    if t.tail.Some? {
      StmtView(m, t.tail.value, After(m, t.setup, c));
    }
  }

  lemma {:induction false} ReturnView(m: Mode, v: Option<CExpr>, ds: List<Stmt>, c: Ctx)
    ensures LowerReturn(m, v, ds, c).ctx == AfterExit(m, v.Some?, ds, c)
    decreases ds, 2
  {
    ListView(m, ds, c.(retSeq := c.retSeq + 1));
    ListView(m, ds, c);
  }

  lemma {:induction false} JumpView(m: Mode, jump: CStmt, ds: List<Stmt>, c: Ctx)
    ensures LowerJump(m, jump, ds, c).ctx == AfterExit(m, false, ds, c)
    decreases ds, 2
  {
    ListView(m, ds, c);
  }

  lemma {:induction false} ListView(m: Mode, ss: List<Stmt>, c: Ctx)
    ensures LowerList(m, ss, c).ctx == AfterList(m, ss, c)
    ensures LowerBlock(m, ss, c).ctx == AfterBlock(m, ss, c)
    decreases ss, 1
  {
    if ss.Cons? {
      StmtView(m, ss.head, c);
      ListView(m, ss.tail, After(m, ss.head, c));
    }
  }

  lemma {:induction false} ArmsView(m: Mode, tmp: CName, arms: Arms, c: Ctx)
    ensures LowerArms(m, tmp, arms, c).ctx == AfterArms(m, arms, c)
    decreases arms, 0
  {
    match arms
    case Default(None) =>
    case Default(Some(b)) => ListView(m, b, c);
    case Arm(Nil, _, rest) => ArmsView(m, tmp, rest, c);
    case Arm(Cons(_, _), b, rest) =>
      ListView(m, b, c);
      ArmsView(m, tmp, rest, AfterBlock(m, b, c));
  }

  /** What is followed through the text is what lowering does to its context. */
  lemma {:induction false} StmtView(m: Mode, s: Stmt, c: Ctx)
    ensures Lower(m, s, c).ctx == After(m, s, c)
    decreases s, 1
  {
    hide LowerReturn;
    hide LowerJump;
    hide AfterExit;
    hide LowerArms;
    hide AfterArms;
    hide LowerBlock;
    hide AfterBlock;
    hide FreshName;
    hide LowerE;
    hide LowerArgs;
    hide LowerCaptures;
    hide FunctionStart;
    hide RegisterAll;
    match s
    case VarDef(_, InitTry(_)) => TriedView(m, s, c);
    case AssignTry(_, _, _) => TriedView(m, s, c);
    case Return(v, ds) => ReturnView(m, LowerOpt(v, c), ds, c);
    case ReturnTry(_, _) => TriedView(m, s, c);
    case Break(ds) => JumpView(m, CBreak, ds, c);
    case Continue(ds) => JumpView(m, CContinue, ds, c);
    case If(_, _, _) => BranchView(m, s, c);
    case Switch(_, arms) => ArmsView(m, SwitchTmp(c.switchSeq), arms, c.(switchSeq := c.switchSeq + 1));
    case While(_, a) => ListView(m, a, c);
    case DoWhile(a, _) => ListView(m, a, c);
    case For(_, _, _, _) => ChainView(m, s, c);
    case Block(a) => ListView(m, a, c);
    case DeferCall(id, a) =>
      if FindDefer(c.defers, id).Some? {
        ListView(m, a, DeferScope(m, FindDefer(c.defers, id).value, c));
      }
    case Decorated(_, _, _) => ChainView(m, s, c);
    case LocalFn(params, a, void) => ListView(m, a, RegisterAll(params, FunctionStart(m, c, void)));
    case _ =>
  }

  lemma {:induction false} BranchView(m: Mode, s: Stmt, c: Ctx)
    requires s.If?
    ensures Lower(m, s, c).ctx == After(m, s, c)
    decreases s, 0
  {
    hide LowerE;
    var c1 := AfterBlock(m, s.body, c);
    ListView(m, s.body, c);
    match s.els
    case NoElse =>
    case ElseBlock(b) => ListView(m, b, c1);
    case ElseIf(z) => StmtView(m, z, c1);
  }

  lemma {:induction false} ChainView(m: Mode, s: Stmt, c: Ctx)
    requires s.For? || s.Decorated?
    ensures Lower(m, s, c).ctx == After(m, s, c)
    decreases s, 0
  {
    hide LowerE;
    match s
    case For(i, _, _, a) =>
      if i.Some? {
        StmtView(m, i.value, c);
      }
      ListView(m, a, AfterOpt(m, i, c));
    case Decorated(a, core, b) =>
      var c1 := AfterList(m, a, c);
      ListView(m, a, c);
      if core.Some? {
        StmtView(m, core.value, c1);
      }
      ListView(m, b, AfterOpt(m, core, c1));
  }

  lemma {:induction false} TriedView(m: Mode, s: Stmt, c: Ctx)
    requires (s.VarDef? && s.init.InitTry?) || s.AssignTry? || s.ReturnTry?
    ensures Lower(m, s, c).ctx == After(m, s, c)
    decreases s, 0
  {
    hide FreshName;
    hide LowerE;
    match s
    case VarDef(x, InitTry(t)) => TryView(m, t, InitScope(m, x, c));
    case AssignTry(_, _, t) => TryView(m, t, c);
    case ReturnTry(t, ds) =>
      var pre := LowerTryPrefix(m, t, c);
      TryView(m, t, c);
      ReturnView(m, Some(LowerE(t.value, pre.ctx)), ds, ScopeEnd(m, c, pre.ctx));
  }

  /* ------------------------------- how much code ------------------------------- */

  lemma {:induction false} ListLength(ss: List<Stmt>, c: Ctx, d: Ctx)
    ensures Len(LowerList(AsWritten, ss, c).code) == Len(LowerList(Intended, ss, d).code)
    decreases ss, 0
  {
    if ss.Cons? {
      var a, b := Lower(AsWritten, ss.head, c), Lower(Intended, ss.head, d);
      StmtLength(ss.head, c, d);
      ListLength(ss.tail, a.ctx, b.ctx);
      AppendLen(a.code, LowerList(AsWritten, ss.tail, a.ctx).code);
      AppendLen(b.code, LowerList(Intended, ss.tail, b.ctx).code);
    }
  }

  lemma {:induction false} ArmsLength(tmp: CName, arms: Arms, c: Ctx, d: Ctx)
    ensures Len(LowerArms(AsWritten, tmp, arms, c).code) == Len(LowerArms(Intended, tmp, arms, d).code)
    decreases arms, 0
  {
    match arms
    case Default(Some(b)) => ListLength(b, c, d);
    case Arm(Nil, _, rest) => ArmsLength(tmp, rest, c, d);
    case _ =>
  }

  /** Most statements become one instruction. */
  lemma OneInstruction(m: Mode, s: Stmt, c: Ctx)
    requires !s.Block? && !s.Decorated? && !s.VarDef? && !s.DeferDef?
    ensures Len(Lower(m, s, c).code) == 1
  {
    hide LowerE;
    hide LowerTryPrefix;
    hide LowerArms;
    hide LowerList;
    hide LowerBlock;
  }

  /** How many instructions a statement becomes does not depend on names. */
  lemma {:induction false} StmtLength(s: Stmt, c: Ctx, d: Ctx)
    ensures Len(Lower(AsWritten, s, c).code) == Len(Lower(Intended, s, d).code)
    decreases s, 1
  {
    hide FreshName;
    hide LowerE;
    hide LowerTryPrefix;
    match s
    case Block(a) => ListLength(a, c, d);
    case Decorated(_, _, _) => DecoratedLength(s, c, d);
    case VarDef(_, _) =>
    case DeferDef(_, _, _) =>
    case _ =>
      OneInstruction(AsWritten, s, c);
      OneInstruction(Intended, s, d);
  }

  lemma {:induction false} DecoratedLength(s: Stmt, c: Ctx, d: Ctx)
    requires s.Decorated?
    ensures Len(Lower(AsWritten, s, c).code) == Len(Lower(Intended, s, d).code)
    decreases s, 0
  {
    var core := s.core;
    var c1, d1 := LowerList(AsWritten, s.pre, c), LowerList(Intended, s.pre, d);
    ListLength(s.pre, c, d);
    if core.Some? {
      StmtLength(core.value, c1.ctx, d1.ctx);
    }
    var c2 := if core.Some? then Lower(AsWritten, core.value, c1.ctx) else Out(c1.ctx, Nil);
    var d2 := if core.Some? then Lower(Intended, core.value, d1.ctx) else Out(d1.ctx, Nil);
    ListLength(s.post, c2.ctx, d2.ctx);
    var c3, d3 := LowerList(AsWritten, s.post, c2.ctx).code, LowerList(Intended, s.post, d2.ctx).code;
    AppendLen(c1.code, Append(c2.code, c3));
    AppendLen(c2.code, c3);
    AppendLen(d1.code, Append(d2.code, d3));
    AppendLen(d2.code, d3);
  }

  /* ---------------------------------- the proof --------------------------------- */

  /** The two views number temporaries alike. */
  predicate Numbered(c: Ctx, d: Ctx) {
    && c.prefix == d.prefix && c.retVoid == d.retVoid
    && c.retSeq == d.retSeq && c.switchSeq == d.switchSeq && c.deferSeq == d.deferSeq
  }

  /** The same C text exactly if clean, and then the numbering goes on alike. */
  predicate Tied(a: Out, b: Out, clean: bool) {
    && Len(a.code) == Len(b.code)
    && (Spell(a.code) == Spell(b.code) <==> clean)
    && (clean ==> Numbered(a.ctx, b.ctx))
  }

  lemma {:induction false} ExprTied(e: Expr, c: Ctx, d: Ctx)
    ensures SpellE(LowerE(e, c)) == SpellE(LowerE(e, d)) <==> CleanE(e, c, d)
    decreases e
  {
    match e
    case Unary(_, a) => ExprTied(a, c, d);
    case Binary(_, a, b) =>
      ExprTied(a, c, d);
      ExprTied(b, c, d);
    case Call(_, args) => ArgsTied(args, c, d);
    case AssignE(_, _, a) => ExprTied(a, c, d);
    case Ternary(q, a, b) =>
      ExprTied(q, c, d);
      ExprTied(a, c, d);
      ExprTied(b, c, d);
    case _ =>
  }

  lemma {:induction false} ArgsTied(es: List<Expr>, c: Ctx, d: Ctx)
    ensures SpellArgs(LowerArgs(es, c)) == SpellArgs(LowerArgs(es, d)) <==> CleanArgs(es, c, d)
    decreases es
  {
    if es.Cons? {
      ExprTied(es.head, c, d);
      ArgsTied(es.tail, c, d);
    }
  }

  lemma OptTied(e: Option<Expr>, c: Ctx, d: Ctx)
    ensures SpellOpt(LowerOpt(e, c)) == SpellOpt(LowerOpt(e, d)) <==> CleanOpt(e, c, d)
  {
    if e.Some? {
      ExprTied(e.value, c, d);
    }
  }

  lemma {:induction false} CapturesTied(cs: List<Capture>, c: Ctx, d: Ctx)
    ensures SpellFields(LowerCaptures(cs, c)) == SpellFields(LowerCaptures(cs, d)) <==> CleanCaptures(cs, c, d)
  {
    if cs.Cons? {
      ExprTied(cs.head.e, c, d);
      CapturesTied(cs.tail, c, d);
    }
  }

  lemma {:induction false} OrChainTied(acc: CExpr, acc': CExpr, tmp: CName, es: List<Expr>, c: Ctx, d: Ctx)
    requires tmp.SwitchTmp?
    ensures SpellE(OrChain(acc, tmp, es, c)) == SpellE(OrChain(acc', tmp, es, d)) <==>
            SpellE(acc) == SpellE(acc') && CleanArgs(es, c, d)
    decreases es
  {
    if es.Cons? {
      ExprTied(es.head, c, d);
      OrChainTied(CBinary(OrOr, acc, PatternTest(tmp, es.head, c)),
                  CBinary(OrOr, acc', PatternTest(tmp, es.head, d)), tmp, es.tail, c, d);
    }
  }

  /** One piece of code behind another. */
  lemma TiedThen(a: Out, b: Out, clean: bool, a2: Out, b2: Out, clean2: bool)
    requires Tied(a, b, clean) && Len(a2.code) == Len(b2.code)
    requires clean ==> Tied(a2, b2, clean2)
    ensures Tied(Out(a2.ctx, Append(a.code, a2.code)), Out(b2.ctx, Append(b.code, b2.code)), clean && clean2)
  {
    AppendLen(a.code, a2.code);
    AppendLen(b.code, b2.code);
    SpellAppend(a.code, a2.code);
    SpellAppend(b.code, b2.code);
    AppendCancel(Spell(a.code), Spell(a2.code), Spell(b.code), Spell(b2.code));
  }

  /** One instruction on each side. */
  lemma TiedOne(a: Ctx, b: Ctx, x: CStmt, y: CStmt, clean: bool)
    requires SpellIn(x) == SpellIn(y) <==> clean
    requires clean ==> Numbered(a, b)
    ensures Tied(Out(a, Single(x)), Out(b, Single(y)), clean)
  {
  }

  /** Two branches, the second one looked at only if the first is alike. */
  lemma TiedBranch(a: Ctx, b: Ctx, x: CExpr, y: CExpr, xs: List<CStmt>, ys: List<CStmt>, xs2: List<CStmt>,
                   ys2: List<CStmt>, cond: bool, thn: bool, els: bool)
    requires SpellE(x) == SpellE(y) <==> cond
    requires Spell(xs) == Spell(ys) <==> thn
    requires thn ==> (Spell(xs2) == Spell(ys2) <==> els)
    requires thn && els ==> Numbered(a, b)
    ensures Tied(Out(a, Single(CIf(x, xs, xs2))), Out(b, Single(CIf(y, ys, ys2))), cond && thn && els)
  {
    hide SpellE;
    assert SpellIn(CIf(x, xs, xs2)) == CIf(SpellE(x), Spell(xs), Spell(xs2));
    assert SpellIn(CIf(y, ys, ys2)) == CIf(SpellE(y), Spell(ys), Spell(ys2));
    TiedOne(a, b, CIf(x, xs, xs2), CIf(y, ys, ys2), cond && thn && els);
  }

  lemma TiedLast(a: Out, b: Out, clean: bool, x: CStmt, y: CStmt, same: bool)
    requires Tied(a, b, clean)
    requires SpellIn(x) == SpellIn(y) <==> same
    ensures Spell(Append(a.code, Single(x))) == Spell(Append(b.code, Single(y))) <==> clean && same
    ensures Len(Append(a.code, Single(x))) == Len(a.code) + 1 && Len(Append(b.code, Single(y))) == Len(b.code) + 1
  {
    SpellAppend(a.code, Single(x));
    SpellAppend(b.code, Single(y));
    AppendCancel(Spell(a.code), Spell(Single(x)), Spell(b.code), Spell(Single(y)));
    AppendLen(a.code, Single(x));
    AppendLen(b.code, Single(y));
  }

  /** Code of a statement that may be missing. */
  function LowerOptional(m: Mode, s: Option<Stmt>, c: Ctx): Out {
    if s.Some? then Lower(m, s.value, c) else Out(c, Nil)
  }

  lemma OptionalView(m: Mode, s: Option<Stmt>, c: Ctx)
    ensures LowerOptional(m, s, c).ctx == AfterOpt(m, s, c)
  {
    if s.Some? {
      StmtView(m, s.value, c);
    }
  }

  lemma {:induction false} OptionalTied(s: Option<Stmt>, c: Ctx, d: Ctx)
    requires Numbered(c, d)
    ensures Tied(LowerOptional(AsWritten, s, c), LowerOptional(Intended, s, d), CleanStart(s, c, d))
    decreases s, 2
  {
    if s.Some? {
      StmtTied(s.value, c, d);
    }
  }

  lemma {:induction false} TryTied(t: Try, c: Ctx, d: Ctx)
    requires Numbered(c, d)
    ensures Tied(LowerTryPrefix(AsWritten, t, c), LowerTryPrefix(Intended, t, d), CleanTry(t, c, d))
    decreases t, 0
  {
    hide LowerE;
    hide CleanE;
    hide Clean;
    hide Lower;
    hide After;
    var a, b := Lower(AsWritten, t.setup, c), Lower(Intended, t.setup, d);
    StmtTied(t.setup, c, d);
    StmtView(AsWritten, t.setup, c);
    StmtView(Intended, t.setup, d);
    var a2, b2 := LowerOptional(AsWritten, t.tail, a.ctx), LowerOptional(Intended, t.tail, b.ctx);
    var x := CIf(CUnary(LNot, LowerE(t.ok, a.ctx)), a2.code, Nil);
    var y := CIf(CUnary(LNot, LowerE(t.ok, b.ctx)), b2.code, Nil);
    var a3, b3 := Out(a2.ctx, Single(x)), Out(ScopeEnd(Intended, b.ctx, b2.ctx), Single(y));
    var clean := CleanE(t.ok, a.ctx, b.ctx) && CleanStart(t.tail, a.ctx, b.ctx);
    if Clean(t.setup, c, d) {
      ExprTied(t.ok, a.ctx, b.ctx);
      OptionalTied(t.tail, a.ctx, b.ctx);
      TiedOne(a3.ctx, b3.ctx, x, y, clean);
    }
    TiedThen(a, b, Clean(t.setup, c, d), a3, b3, clean);
  }

  lemma {:induction false} ListTied(ss: List<Stmt>, c: Ctx, d: Ctx)
    requires Numbered(c, d)
    ensures Tied(LowerList(AsWritten, ss, c), LowerList(Intended, ss, d), CleanList(ss, c, d))
    ensures Tied(LowerBlock(AsWritten, ss, c), LowerBlock(Intended, ss, d), CleanList(ss, c, d))
    decreases ss, 1
  {
    if ss.Cons? {
      var s, rest := ss.head, ss.tail;
      var a, b := Lower(AsWritten, s, c), Lower(Intended, s, d);
      StmtTied(s, c, d);
      StmtView(AsWritten, s, c);
      StmtView(Intended, s, d);
      ListLength(rest, a.ctx, b.ctx);
      if Clean(s, c, d) {
        ListTied(rest, a.ctx, b.ctx);
      }
      TiedThen(a, b, Clean(s, c, d), LowerList(AsWritten, rest, a.ctx), LowerList(Intended, rest, b.ctx),
               CleanList(rest, a.ctx, b.ctx));
    }
  }

  lemma {:induction false} ArmsTied(tmp: CName, arms: Arms, c: Ctx, d: Ctx)
    requires Numbered(c, d) && tmp.SwitchTmp?
    ensures Tied(LowerArms(AsWritten, tmp, arms, c), LowerArms(Intended, tmp, arms, d), CleanArms(arms, c, d))
    decreases arms, 0
  {
    hide LowerE;
    hide CleanE;
    hide OrChain;
    match arms
    case Default(None) =>
    case Default(Some(b)) => ListTied(b, c, d);
    case Arm(Nil, _, rest) => ArmsTied(tmp, rest, c, d);
    case Arm(Cons(e, es), body, rest) =>
      var a, b := LowerBlock(AsWritten, body, c), LowerBlock(Intended, body, d);
      var a2, b2 := LowerArms(AsWritten, tmp, rest, a.ctx), LowerArms(Intended, tmp, rest, b.ctx);
      ListTied(body, c, d);
      ListView(AsWritten, body, c);
      ListView(Intended, body, d);
      if CleanList(body, c, d) {
        ArmsTied(tmp, rest, a.ctx, b.ctx);
      }
      ExprTied(e, c, d);
      var test, test' := PatternTest(tmp, e, c), PatternTest(tmp, e, d);
      OrChainTied(test, test', tmp, es, c, d);
      TiedBranch(a2.ctx, b2.ctx, OrChain(test, tmp, es, c), OrChain(test', tmp, es, d), a.code, b.code, a2.code,
                 b2.code, CleanArgs(Cons(e, es), c, d), CleanList(body, c, d), CleanArms(rest, a.ctx, b.ctx));
  }

  lemma {:induction false} ReturnTied(v: Option<CExpr>, w: Option<CExpr>, ds: List<Stmt>, c: Ctx, d: Ctx)
    requires Numbered(c, d) && v.Some? == w.Some?
    ensures Tied(LowerReturn(AsWritten, v, ds, c), LowerReturn(Intended, w, ds, d),
                 SpellOpt(v) == SpellOpt(w) && CleanExit(v.Some?, ds, c, d))
    decreases ds, 3
  {
    if ds.Cons? {
      if v.Some? && !c.retVoid {
        SavedTied(v, w, ds, c, d);
      } else if v.Some? {
        VoidDiffers(v, w, ds, c, d);
      } else {
        JumpTied(CReturn(None), ds, c, d);
      }
    }
  }

  lemma SpellSaved(tmp: CName, v: Option<CExpr>, xs: List<CStmt>)
    ensures SpellIn(CBlock(Cons(CVar(tmp, v), xs))) == CBlock(Cons(CVar(tmp, SpellOpt(v)), Spell(xs)))
  {
    assert Spell(Cons(CVar(tmp, v), xs)) == Cons(SpellIn(CVar(tmp, v)), Spell(xs));
  }

  lemma {:induction false} SavedTied(v: Option<CExpr>, w: Option<CExpr>, ds: List<Stmt>, c: Ctx, d: Ctx)
    requires Numbered(c, d) && v.Some? && w.Some? && ds.Cons? && !c.retVoid
    ensures Tied(LowerReturn(AsWritten, v, ds, c), LowerReturn(Intended, w, ds, d),
                 SpellOpt(v) == SpellOpt(w) && CleanExit(true, ds, c, d))
    decreases ds, 2
  {
    hide LowerList;
    hide CleanList;
    hide FreshName;
    hide LowerE;
    hide CleanE;
    hide SpellE;
    var c1, d1, tmp := c.(retSeq := c.retSeq + 1), d.(retSeq := d.retSeq + 1), RetTmp(c.retSeq);
    ListTied(ds, c1, d1);
    var a, b := LowerList(AsWritten, ds, c1), LowerList(Intended, ds, d1);
    var last := CReturn(Some(CIdent(tmp)));
    TiedLast(a, b, CleanList(ds, c1, d1), last, last, true);
    SpellSaved(tmp, v, Append(a.code, Single(last)));
    SpellSaved(tmp, w, Append(b.code, Single(last)));
    TiedOne(a.ctx, ScopeEnd(Intended, d, b.ctx),
            CBlock(Cons(CVar(tmp, v), Append(a.code, Single(last)))),
            CBlock(Cons(CVar(tmp, w), Append(b.code, Single(last)))),
            SpellOpt(v) == SpellOpt(w) && CleanExit(true, ds, c, d));
  }

  /** In a void function the saved value is one instruction more. */
  lemma VoidDiffers(v: Option<CExpr>, w: Option<CExpr>, ds: List<Stmt>, c: Ctx, d: Ctx)
    requires v.Some? && w.Some? && ds.Cons? && c.retVoid
    ensures Tied(LowerReturn(AsWritten, v, ds, c), LowerReturn(Intended, w, ds, d), false)
  {
    var d1, tmp := d.(retSeq := d.retSeq + 1), RetTmp(d.retSeq);
    var a, b := LowerList(AsWritten, ds, c), LowerList(Intended, ds, d1);
    ListLength(ds, c, d1);
    var x := Append(a.code, Single(CReturn(v)));
    var y := Cons(CVar(tmp, w), Append(b.code, Single(CReturn(Some(CIdent(tmp))))));
    AppendLen(a.code, Single(CReturn(v)));
    AppendLen(b.code, Single(CReturn(Some(CIdent(tmp)))));
    assert Len(Spell(x)) != Len(Spell(y));
    TiedOne(a.ctx, ScopeEnd(Intended, d, b.ctx), CBlock(x), CBlock(y), false);
  }

  lemma {:induction false} JumpTied(jump: CStmt, ds: List<Stmt>, c: Ctx, d: Ctx)
    requires Numbered(c, d) && ds.Cons?
    ensures Tied(LowerJump(AsWritten, jump, ds, c), LowerJump(Intended, jump, ds, d), CleanList(ds, c, d))
    decreases ds, 2
  {
    ListTied(ds, c, d);
    var a, b := LowerList(AsWritten, ds, c), LowerList(Intended, ds, d);
    TiedLast(a, b, CleanList(ds, c, d), jump, jump, true);
    TiedOne(a.ctx, ScopeEnd(Intended, d, b.ctx), CBlock(Append(a.code, Single(jump))),
            CBlock(Append(b.code, Single(jump))), CleanList(ds, c, d));
  }

  ghost predicate StmtGoal(s: Stmt, c: Ctx, d: Ctx) {
    Tied(Lower(AsWritten, s, c), Lower(Intended, s, d), Clean(s, c, d))
  }

  /** A statement becomes the same C text in both views exactly if it is clean. */
  lemma {:induction false} StmtTied(s: Stmt, c: Ctx, d: Ctx)
    requires Numbered(c, d)
    ensures StmtGoal(s, c, d)
    decreases s, 1
  {
    hide LowerE;
    hide CleanE;
    hide SpellE;
    hide Spell;
    match s
    case VarDef(_, _) => DeclTied(s, c, d);
    case Assign(x, aop, e) =>
      ExprTied(e, c, d);
      TiedOne(c, d, LowerAssign(x, aop, LowerE(e, c), c), LowerAssign(x, aop, LowerE(e, d), d), Clean(s, c, d));
    case AssignTry(_, _, _) => AssignTryTied(s, c, d);
    case ExprStmt(e) =>
      ExprTied(e, c, d);
      TiedOne(c, d, CEval(LowerE(e, c)), CEval(LowerE(e, d)), Clean(s, c, d));
    case Return(v, ds) =>
      OptTied(v, c, d);
      ReturnTied(LowerOpt(v, c), LowerOpt(v, d), ds, c, d);
    case ReturnTry(_, _) => ReturnTryTied(s, c, d);
    case Break(ds) => ExitTied(CBreak, ds, c, d);
    case Continue(ds) => ExitTied(CContinue, ds, c, d);
    case If(_, _, _) => IfTied(s, c, d);
    case Switch(e, arms) => SwitchTied(s, c, d);
    case While(e, body) => LoopTied(s, c, d);
    case DoWhile(body, e) => LoopTied(s, c, d);
    case For(_, _, _, _) => ForTied(s, c, d);
    case Block(body) => ListTied(body, c, d);
    case DeferDef(_, captures, _) => DeferDefTied(s, c, d);
    case DeferCall(_, _) => DeferCallTied(s, c, d);
    case Decorated(_, _, _) => DecoratedTied(s, c, d);
    case LocalFn(_, _, _) => LocalFnTied(s, c, d);
  }

  lemma {:induction false} ExitTied(jump: CStmt, ds: List<Stmt>, c: Ctx, d: Ctx)
    requires Numbered(c, d)
    ensures Tied(LowerJump(AsWritten, jump, ds, c), LowerJump(Intended, jump, ds, d), CleanExit(false, ds, c, d))
    decreases ds, 3
  {
    if ds.Cons? {
      JumpTied(jump, ds, c, d);
    }
  }

  lemma {:induction false} DeclTied(s: Stmt, c: Ctx, d: Ctx)
    requires s.VarDef? && Numbered(c, d)
    ensures StmtGoal(s, c, d)
    decreases s, 0
  {
    hide FreshName;
    var x := s.name;
    var c1, d1 := InitScope(AsWritten, x, c), InitScope(Intended, x, d);
    var n, k := Sym(FreshName(c, x)), Sym(FreshName(d, x));
    match s.init
    case NoInit => TiedOne(c1, Register(d, x), CVar(n, None), CVar(k, None), Clean(s, c, d));
    case InitExpr(e) =>
      ExprTied(e, c1, d1);
      TiedOne(c1, Register(d, x), CVar(n, Some(LowerE(e, c1))), CVar(k, Some(LowerE(e, d1))), Clean(s, c, d));
    case InitTry(t) =>
      var a, b := LowerTryPrefix(AsWritten, t, c1), LowerTryPrefix(Intended, t, d1);
      var w, z := StoreBlock(AsWritten, x, k, t, a), StoreBlock(Intended, x, k, t, b);
      StoreTied(x, k, t, c1, d1);
      var e := ScopeEnd(Intended, Register(d, x), b.ctx);
      TiedOne(c1, d1, CVar(n, None), CVar(k, None), n == k);
      TiedThen(Out(c1, Single(CVar(n, None))), Out(d1, Single(CVar(k, None))), n == k, Out(a.ctx, Single(w)),
               Out(e, Single(z)), CleanStore(x, k, t, c1, d1));
      TryView(AsWritten, t, c1);
      TryView(Intended, t, d1);
  }

  /** The braces behind the declaration of a variable that a try initialises. */
  function StoreBlock(m: Mode, x: string, n: CName, t: Try, pre: Out): CStmt {
    var e := LowerE(t.value, pre.ctx);
    CBlock(Append(pre.code, Single(if m.Intended? then StoreIn(n, x, e) else LowerAssign(x, None, e, pre.ctx))))
  }

  lemma {:induction false} StoreTied(x: string, n: CName, t: Try, c: Ctx, d: Ctx)
    requires Numbered(c, d) && n.Sym?
    ensures var a, b := LowerTryPrefix(AsWritten, t, c), LowerTryPrefix(Intended, t, d);
            Tied(Out(a.ctx, Single(StoreBlock(AsWritten, x, n, t, a))),
                 Out(b.ctx, Single(StoreBlock(Intended, x, n, t, b))), CleanStore(x, n, t, c, d))
    decreases t, 1
  {
    hide LowerTryPrefix;
    hide CleanTry;
    hide Resolve;
    hide LowerE;
    hide CleanE;
    hide SpellE;
    TryTied(t, c, d);
    TryView(AsWritten, t, c);
    TryView(Intended, t, d);
    var a, b := LowerTryPrefix(AsWritten, t, c), LowerTryPrefix(Intended, t, d);
    ExprTied(t.value, a.ctx, b.ctx);
    var l, r := LowerAssign(x, None, LowerE(t.value, a.ctx), a.ctx), StoreIn(n, x, LowerE(t.value, b.ctx));
    var same := CleanE(t.value, a.ctx, b.ctx) && (x == DISCARD || Plain(Resolve(a.ctx, x)) == n);
    TiedLast(a, b, CleanTry(t, c, d), l, r, same);
    TiedOne(a.ctx, b.ctx, StoreBlock(AsWritten, x, n, t, a), StoreBlock(Intended, x, n, t, b),
            CleanStore(x, n, t, c, d));
  }

  lemma AssignAlike(x: string, op: Option<nat>, op': Option<nat>, e: CExpr, e': CExpr, c: Ctx, d: Ctx)
    ensures SpellIn(LowerAssign(x, op, e, c)) == SpellIn(LowerAssign(x, op', e', d)) <==>
            SpellE(e) == SpellE(e') && (x == DISCARD || (Alike(x, c, d) && op == op'))
  {
    hide SpellE;
    hide Resolve;
    var l, r := LowerAssign(x, op, e, c), LowerAssign(x, op', e', d);
    if x != DISCARD {
      assert SpellIn(l) == CAssign(Plain(Resolve(c, x)), op, SpellE(e));
      assert SpellIn(r) == CAssign(Plain(Resolve(d, x)), op', SpellE(e'));
    }
  }

  lemma {:induction false} AssignTryTied(s: Stmt, c: Ctx, d: Ctx)
    requires s.AssignTry? && Numbered(c, d)
    ensures StmtGoal(s, c, d)
    decreases s, 0
  {
    hide LowerE;
    hide CleanE;
    hide CleanTry;
    hide LowerTryPrefix;
    hide LowerAssign;
    hide Alike;
    var t, x := s.t, s.name;
    TryTied(t, c, d);
    TryView(AsWritten, t, c);
    TryView(Intended, t, d);
    var a, b := LowerTryPrefix(AsWritten, t, c), LowerTryPrefix(Intended, t, d);
    var e := ScopeEnd(Intended, d, b.ctx);
    ExprTied(t.value, a.ctx, b.ctx);
    var l, r := LowerAssign(x, None, LowerE(t.value, a.ctx), a.ctx), LowerAssign(x, s.aop, LowerE(t.value, b.ctx), e);
    var same := CleanE(t.value, a.ctx, b.ctx) && (x == DISCARD || (Alike(x, a.ctx, e) && s.aop.None?));
    AssignAlike(x, None, s.aop, LowerE(t.value, a.ctx), LowerE(t.value, b.ctx), a.ctx, e);
    TiedLast(a, b, CleanTry(t, c, d), l, r, same);
    TiedOne(a.ctx, e, CBlock(Append(a.code, Single(l))), CBlock(Append(b.code, Single(r))), Clean(s, c, d));
  }

  lemma {:induction false} ReturnTryTied(s: Stmt, c: Ctx, d: Ctx)
    requires s.ReturnTry? && Numbered(c, d)
    ensures StmtGoal(s, c, d)
    decreases s, 0
  {
    hide LowerE;
    hide CleanE;
    hide SpellE;
    var t, ds := s.t, s.defers;
    TryTied(t, c, d);
    TryView(AsWritten, t, c);
    TryView(Intended, t, d);
    var a, b := LowerTryPrefix(AsWritten, t, c), LowerTryPrefix(Intended, t, d);
    var e := ScopeEnd(Intended, d, b.ctx);
    var v, w := Some(LowerE(t.value, a.ctx)), Some(LowerE(t.value, b.ctx));
    var a2, b2 := LowerReturn(AsWritten, v, ds, a.ctx), LowerReturn(Intended, w, ds, e);
    var same := CleanE(t.value, a.ctx, b.ctx) && CleanExit(true, ds, a.ctx, e);
    if CleanTry(t, c, d) {
      ExprTied(t.value, a.ctx, b.ctx);
      ReturnTied(v, w, ds, a.ctx, e);
    }
    TiedThen(a, b, CleanTry(t, c, d), a2, b2, same);
    TiedOne(a2.ctx, ScopeEnd(Intended, d, b2.ctx), CBlock(Append(a.code, a2.code)), CBlock(Append(b.code, b2.code)),
            Clean(s, c, d));
  }

  lemma {:induction false} IfTied(s: Stmt, c: Ctx, d: Ctx)
    requires s.If? && Numbered(c, d)
    ensures StmtGoal(s, c, d)
    decreases s, 0
  {
    hide LowerE;
    hide CleanE;
    hide Spell;
    hide SpellE;
    var cond, thn := CleanE(s.cond, c, d), CleanList(s.body, c, d);
    ExprTied(s.cond, c, d);
    ListTied(s.body, c, d);
    ListView(AsWritten, s.body, c);
    ListView(Intended, s.body, d);
    var a, b := LowerBlock(AsWritten, s.body, c), LowerBlock(Intended, s.body, d);
    var x, y := LowerE(s.cond, c), LowerE(s.cond, d);
    match s.els
    case NoElse => TiedBranch(a.ctx, b.ctx, x, y, a.code, b.code, Nil, Nil, cond, thn, true);
    case ElseBlock(body) =>
      var a2, b2 := LowerBlock(AsWritten, body, a.ctx), LowerBlock(Intended, body, b.ctx);
      if thn {
        ListTied(body, a.ctx, b.ctx);
      }
      TiedBranch(a2.ctx, b2.ctx, x, y, a.code, b.code, a2.code, b2.code, cond, thn, CleanList(body, a.ctx, b.ctx));
    case ElseIf(z) =>
      var a2, b2 := Lower(AsWritten, z, a.ctx), Lower(Intended, z, b.ctx);
      if thn {
        StmtTied(z, a.ctx, b.ctx);
      }
      TiedBranch(a2.ctx, ScopeEnd(Intended, b.ctx, b2.ctx), x, y, a.code, b.code, a2.code, b2.code, cond, thn,
                 Clean(z, a.ctx, b.ctx));
  }

  lemma {:induction false} SwitchTied(s: Stmt, c: Ctx, d: Ctx)
    requires s.Switch? && Numbered(c, d)
    ensures StmtGoal(s, c, d)
    decreases s, 0
  {
    var c1, d1, tmp := c.(switchSeq := c.switchSeq + 1), d.(switchSeq := d.switchSeq + 1), SwitchTmp(c.switchSeq);
    ExprTied(s.cond, c, d);
    ArmsTied(tmp, s.arms, c1, d1);
    var a, b := LowerArms(AsWritten, tmp, s.arms, c1), LowerArms(Intended, tmp, s.arms, d1);
    var v, w := Some(LowerE(s.cond, c)), Some(LowerE(s.cond, d));
    SpellSaved(tmp, v, a.code);
    SpellSaved(tmp, w, b.code);
    TiedOne(a.ctx, b.ctx, CBlock(Cons(CVar(tmp, v), a.code)), CBlock(Cons(CVar(tmp, w), b.code)), Clean(s, c, d));
  }

  lemma {:induction false} LoopTied(s: Stmt, c: Ctx, d: Ctx)
    requires (s.While? || s.DoWhile?) && Numbered(c, d)
    ensures StmtGoal(s, c, d)
    decreases s, 0
  {
    hide LowerList;
    hide CleanList;
    hide Spell;
    hide LowerBlock;
    hide LowerE;
    hide CleanE;
    hide SpellE;
    var x, y := LowerE(s.cond, c), LowerE(s.cond, d);
    ExprTied(s.cond, c, d);
    ListTied(s.body, c, d);
    var a, b := LowerBlock(AsWritten, s.body, c), LowerBlock(Intended, s.body, d);
    assert SpellIn(CWhile(x, a.code)) == CWhile(SpellE(x), Spell(a.code));
    assert SpellIn(CWhile(y, b.code)) == CWhile(SpellE(y), Spell(b.code));
    if s.While? {
      TiedOne(a.ctx, b.ctx, CWhile(x, a.code), CWhile(y, b.code), Clean(s, c, d));
    } else {
      TiedOne(a.ctx, b.ctx, CDoWhile(a.code, x), CDoWhile(b.code, y), Clean(s, c, d));
    }
  }

  lemma SpellFor(i: List<CStmt>, test: Option<CExpr>, step: Option<CExpr>, a: List<CStmt>)
    ensures SpellIn(CFor(i, test, step, a)) == CFor(Spell(i), SpellOpt(test), SpellOpt(step), Spell(a))
  {
  }

  lemma {:induction false} ForTied(s: Stmt, c: Ctx, d: Ctx)
    requires s.For? && Numbered(c, d)
    ensures StmtGoal(s, c, d)
    decreases s, 0
  {
    hide LowerList;
    hide CleanList;
    hide LowerBlock;
    hide Spell;
    hide SpellE;
    hide LowerE;
    hide CleanE;
    hide After;
    var i := s.start;
    var a, b := LowerOptional(AsWritten, i, c), LowerOptional(Intended, i, d);
    OptionalTied(i, c, d);
    OptionalView(AsWritten, i, c);
    OptionalView(Intended, i, d);
    OptTied(s.test, a.ctx, b.ctx);
    OptTied(s.step, a.ctx, b.ctx);
    var a2, b2 := LowerBlock(AsWritten, s.body, a.ctx), LowerBlock(Intended, s.body, b.ctx);
    if CleanStart(i, c, d) {
      ListTied(s.body, a.ctx, b.ctx);
    }
    SpellFor(a.code, LowerOpt(s.test, a.ctx), LowerOpt(s.step, a.ctx), a2.code);
    SpellFor(b.code, LowerOpt(s.test, b.ctx), LowerOpt(s.step, b.ctx), b2.code);
    TiedOne(a2.ctx, ScopeEnd(Intended, d, b2.ctx),
            CFor(a.code, LowerOpt(s.test, a.ctx), LowerOpt(s.step, a.ctx), a2.code),
            CFor(b.code, LowerOpt(s.test, b.ctx), LowerOpt(s.step, b.ctx), b2.code), Clean(s, c, d));
  }

  lemma DeferDefTied(s: Stmt, c: Ctx, d: Ctx)
    requires s.DeferDef? && Numbered(c, d)
    ensures StmtGoal(s, c, d)
  {
    var a, b, k := Lower(AsWritten, s, c), Lower(Intended, s, d), s.captures;
    CapturesTied(k, c, d);
    if k.Cons? {
      var env := DeferEnv(c.deferSeq);
      TiedOne(a.ctx, b.ctx, CVarStruct(env, LowerCaptures(k, c)), CVarStruct(env, LowerCaptures(k, d)),
              CleanCaptures(k, c, d));
    }
  }

  lemma {:induction false} DeferCallTied(s: Stmt, c: Ctx, d: Ctx)
    requires s.DeferCall? && Numbered(c, d)
    ensures StmtGoal(s, c, d)
    decreases s, 0
  {
    var k, l := FindDefer(c.defers, s.id), FindDefer(d.defers, s.id);
    var a, b := Lower(AsWritten, s, c), Lower(Intended, s, d);
    if k.Some? && l.Some? {
      ListTied(s.body, DeferScope(AsWritten, k.value, c), DeferScope(Intended, l.value, d));
    }
    TiedOne(a.ctx, b.ctx, a.code.head, b.code.head, Clean(s, c, d));
  }

  lemma {:induction false} DecoratedTied(s: Stmt, c: Ctx, d: Ctx)
    requires s.Decorated? && Numbered(c, d)
    ensures StmtGoal(s, c, d)
    decreases s, 0
  {
    var a, b := LowerList(AsWritten, s.pre, c), LowerList(Intended, s.pre, d);
    ListTied(s.pre, c, d);
    ListView(AsWritten, s.pre, c);
    ListView(Intended, s.pre, d);
    var a2, b2 := LowerOptional(AsWritten, s.core, a.ctx), LowerOptional(Intended, s.core, b.ctx);
    OptionalView(AsWritten, s.core, a.ctx);
    OptionalView(Intended, s.core, b.ctx);
    var a3, b3 := LowerList(AsWritten, s.post, a2.ctx), LowerList(Intended, s.post, b2.ctx);
    if s.core.Some? {
      StmtLength(s.core.value, a.ctx, b.ctx);
    }
    ListLength(s.post, a2.ctx, b2.ctx);
    var clean, clean2 := CleanStart(s.core, a.ctx, b.ctx), CleanList(s.post, a2.ctx, b2.ctx);
    AppendLen(a2.code, a3.code);
    AppendLen(b2.code, b3.code);
    if CleanList(s.pre, c, d) {
      OptionalTied(s.core, a.ctx, b.ctx);
      if clean {
        ListTied(s.post, a2.ctx, b2.ctx);
      }
      TiedThen(a2, b2, clean, a3, b3, clean2);
    }
    TiedThen(a, b, CleanList(s.pre, c, d), Out(a3.ctx, Append(a2.code, a3.code)),
             Out(b3.ctx, Append(b2.code, b3.code)), clean && clean2);
  }

  lemma {:induction false} LocalFnTied(s: Stmt, c: Ctx, d: Ctx)
    requires s.LocalFn? && Numbered(c, d)
    ensures StmtGoal(s, c, d)
    decreases s, 0
  {
    hide FreshName;
    hide RegisterAll;
    hide LowerList;
    hide CleanList;
    hide Spell;
    hide LowerBlock;
    hide LowerE;
    hide CleanE;
    hide SpellE;
    var c0, d0 := FunctionStart(AsWritten, c, s.void), FunctionStart(Intended, d, s.void);
    var c1, d1 := RegisterAll(s.params, c0), RegisterAll(s.params, d0);
    RegisterSame(s.params, c0, d0);
    ListTied(s.body, c1, d1);
    var a, b := LowerBlock(AsWritten, s.body, c1), LowerBlock(Intended, s.body, d1);
    var params, z, y := ParamSymbols(c.prefix, s.params), Lower(AsWritten, s, c).ctx, Lower(Intended, s, d).ctx;
    TiedOne(z, y, CNested(params, a.code), CNested(params, b.code), Clean(s, c, d));
  }

  lemma {:induction false} RegisterSame(xs: List<string>, c: Ctx, d: Ctx)
    requires Numbered(c, d)
    ensures Numbered(RegisterAll(xs, c), RegisterAll(xs, d))
    decreases xs
  {
    if xs.Cons? {
      RegisterSame(xs.tail, Register(c, xs.head), Register(d, xs.head));
    }
  }
}
