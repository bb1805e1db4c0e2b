/** What a `return` in the body of a defer becomes.  The source leaves the closure;
    the body is inlined, so the C code leaves the function. */
module DeferReturns {
  import opened Lists
  import opened Naming
  import opened Syntax
  import opened SourceSemantics
  import opened TargetSemantics
  import opened Lowering
  import opened Freshness
  import opened Frames
  import opened Relation
  import opened Containment
  import opened Simulation

  /* -------------------------- returns in generated code ------------------------ */

  predicate HasReturn(cs: List<CStmt>)
    decreases cs
  {
    cs.Cons? && (HasReturnIn(cs.head) || HasReturn(cs.tail))
  }

  predicate HasReturnIn(s: CStmt)
    decreases s
  {
    match s
    case CReturn(_) => true
    case CIf(_, a, b) => HasReturn(a) || HasReturn(b)
    case CWhile(_, a) => HasReturn(a)
    case CDoWhile(a, _) => HasReturn(a)
    case CFor(i, _, _, a) => HasReturn(i) || HasReturn(a)
    case CBlock(a) => HasReturn(a)
    case _ => false
  }

  lemma {:induction a} AppendReturn(a: List<CStmt>, b: List<CStmt>)
    ensures HasReturn(Append(a, b)) <==> HasReturn(a) || HasReturn(b)
  {
  }

  lemma ConsReturn(s: CStmt, cs: List<CStmt>)
    ensures HasReturn(Cons(s, cs)) <==> HasReturnIn(s) || HasReturn(cs)
    ensures !HasReturn(Nil)
  {
  }

  /* --------------------------- defers called in scope -------------------------- */

  /** The defers that can be called behind s, where ids can be called in front. */
  function IdsAfter(s: Stmt, ids: set<string>): set<string>
    decreases s, 1
  {
    match s
    case DeferDef(id, _, _) => ids + {id}
    case Decorated(a, core, b) =>
      var ids1 := IdsAfterList(a, ids);
      IdsAfterList(b, if core.Some? then IdsAfter(core.value, ids1) else ids1)
    case _ => ids
  }

  function IdsAfterList(ss: List<Stmt>, ids: set<string>): set<string>
    decreases ss, 0
  {
    match ss
    case Nil => ids
    case Cons(s, rest) => IdsAfterList(rest, IdsAfter(s, ids))
  }

  /** Every call of a defer stands where the defer is in scope. */
  predicate CallsInScope(ss: List<Stmt>, ids: set<string>)
    decreases ss, 0
  {
    ss.Cons? ==> CallsIn(ss.head, ids) && CallsInScope(ss.tail, IdsAfter(ss.head, ids))
  }

  predicate CallsInTry(t: Try, ids: set<string>)
    decreases t, 0
  {
    CallsIn(t.setup, ids) && (t.tail.Some? ==> CallsIn(t.tail.value, IdsAfter(t.setup, ids)))
  }

  predicate CallsInArms(arms: Arms, ids: set<string>)
    decreases arms, 0
  {
    match arms
    case Default(None) => true
    case Default(Some(b)) => CallsInScope(b, ids)
    case Arm(_, b, rest) => CallsInScope(b, ids) && CallsInArms(rest, ids)
  }

  predicate CallsIn(s: Stmt, ids: set<string>)
    decreases s, 1
  {
    match s
    case VarDef(_, InitTry(t)) => CallsInTry(t, ids)
    case AssignTry(_, _, t) => CallsInTry(t, ids)
    case Return(_, ds) => CallsInScope(ds, ids)
    case ReturnTry(t, ds) => CallsInTry(t, ids) && CallsInScope(ds, ids)
    case Break(ds) => CallsInScope(ds, ids)
    case Continue(ds) => CallsInScope(ds, ids)
    case If(_, a, NoElse) => CallsInScope(a, ids)
    case If(_, a, ElseBlock(b)) => CallsInScope(a, ids) && CallsInScope(b, ids)
    case If(_, a, ElseIf(s')) => CallsInScope(a, ids) && CallsIn(s', ids)
    case Switch(_, arms) => CallsInArms(arms, ids)
    case While(_, a) => CallsInScope(a, ids)
    case DoWhile(a, _) => CallsInScope(a, ids)
    case For(i, _, _, a) =>
      && (i.Some? ==> CallsIn(i.value, ids))
      && CallsInScope(a, if i.Some? then IdsAfter(i.value, ids) else ids)
    case Block(a) => CallsInScope(a, ids)
    case DeferCall(id, a) => id in ids && CallsInScope(a, {})
    case Decorated(a, core, b) =>
      var ids1 := IdsAfterList(a, ids);
      && CallsInScope(a, ids) && (core.Some? ==> CallsIn(core.value, ids1))
      && CallsInScope(b, if core.Some? then IdsAfter(core.value, ids1) else ids1)
    case _ => true
  }

  predicate Knows(c: Ctx, ids: set<string>) { forall id :: id in ids ==> FindDefer(c.defers, id).Some? }

  ghost predicate Keeps(c: Ctx, c': Ctx) {
    forall id :: FindDefer(c.defers, id).Some? ==> FindDefer(c'.defers, id).Some?
  }

  /** The code o, lowered from context c, returns exactly if the source is not
      contained; the defers in scope behind it are found. */
  ghost predicate Answers(c: Ctx, o: Out, ids: set<string>, contained: bool) {
    Keeps(c, o.ctx) && Knows(o.ctx, ids) && (HasReturn(o.code) <==> !contained)
  }

  /* --------------------------------- the theorem ------------------------------- */

  lemma {:induction false} TryReturns(m: Mode, t: Try, c: Ctx, ids: set<string>)
    requires Knows(c, ids) && CallsInTry(t, ids)
    ensures Answers(c, LowerTryPrefix(m, t, c), IdsAfter(t.setup, ids), ContainedTry(t, false))
    ensures ids <= IdsAfter(t.setup, ids)
    decreases t, 0
  {
    var a := Lower(m, t.setup, c);
    StmtReturns(m, t.setup, c, ids);
    if t.tail.Some? {
      StmtReturns(m, t.tail.value, a.ctx, IdsAfter(t.setup, ids));
    }
    var tail := if t.tail.Some? then Lower(m, t.tail.value, a.ctx) else Out(a.ctx, Nil);
    var check := CIf(CUnary(LNot, LowerE(t.ok, a.ctx)), tail.code, Nil);
    AppendReturn(a.code, Single(check));
    ConsReturn(check, Nil);
    IdsGrow(t.setup, ids);
  }

  lemma {:induction false} IdsGrow(s: Stmt, ids: set<string>)
    ensures ids <= IdsAfter(s, ids)
    decreases s, 1
  {
    if s.Decorated? {
      var ids1 := IdsAfterList(s.pre, ids);
      IdsGrowList(s.pre, ids);
      if s.core.Some? {
        IdsGrow(s.core.value, ids1);
      }
      IdsGrowList(s.post, if s.core.Some? then IdsAfter(s.core.value, ids1) else ids1);
    }
  }

  lemma {:induction false} IdsGrowList(ss: List<Stmt>, ids: set<string>)
    ensures ids <= IdsAfterList(ss, ids)
    decreases ss, 0
  {
    if ss.Cons? {
      IdsGrow(ss.head, ids);
      IdsGrowList(ss.tail, IdsAfter(ss.head, ids));
    }
  }

  lemma {:induction false} ListReturns(m: Mode, ss: List<Stmt>, c: Ctx, ids: set<string>)
    requires Knows(c, ids) && CallsInScope(ss, ids)
    ensures Answers(c, LowerList(m, ss, c), IdsAfterList(ss, ids), Contained(ss, false))
    ensures Answers(c, LowerBlock(m, ss, c), ids, Contained(ss, false))
    decreases ss, 1
  {
    if ss.Cons? {
      var a := Lower(m, ss.head, c);
      StmtReturns(m, ss.head, c, ids);
      ListReturns(m, ss.tail, a.ctx, IdsAfter(ss.head, ids));
      AppendReturn(a.code, LowerList(m, ss.tail, a.ctx).code);
      IdsGrowList(ss, ids);
    }
  }

  lemma {:induction false} ArmsReturn(m: Mode, tmp: CName, arms: Arms, c: Ctx, ids: set<string>)
    requires Knows(c, ids) && CallsInArms(arms, ids)
    ensures Answers(c, LowerArms(m, tmp, arms, c), ids, ContainedArms(arms, false))
    decreases arms, 0
  {
    hide LowerBlock;
    hide LowerE;
    hide FreshName;
    match arms
    case Default(None) =>
    case Default(Some(b)) => ListReturns(m, b, c, ids);
    case Arm(Nil, _, rest) => ArmsReturn(m, tmp, rest, c, ids);
    case Arm(Cons(e, es), b, rest) =>
      var o := LowerBlock(m, b, c);
      ListReturns(m, b, c, ids);
      ArmsReturn(m, tmp, rest, o.ctx, ids);
      ConsReturn(CIf(OrChain(PatternTest(tmp, e, c), tmp, es, c), o.code, LowerArms(m, tmp, rest, o.ctx).code), Nil);
  }

  lemma {:induction false} JumpReturns(m: Mode, jump: CStmt, ds: List<Stmt>, c: Ctx, ids: set<string>)
    requires Knows(c, ids) && CallsInScope(ds, ids) && (jump.CBreak? || jump.CContinue?)
    ensures Answers(c, LowerJump(m, jump, ds, c), ids, Contained(ds, false))
    decreases ds, 2
  {
    ListReturns(m, ds, c, ids);
    AppendReturn(LowerList(m, ds, c).code, Single(jump));
    IdsGrowList(ds, ids);
  }

  lemma {:induction false} ExitReturns(m: Mode, v: Option<CExpr>, ds: List<Stmt>, c: Ctx, ids: set<string>)
    requires Knows(c, ids) && CallsInScope(ds, ids)
    ensures Answers(c, LowerReturn(m, v, ds, c), ids, false)
    decreases ds, 2
  {
    var saves := v.Some? && (!c.retVoid || m.Intended?);
    var c1 := if saves then c.(retSeq := c.retSeq + 1) else c;
    var last := CReturn(if saves then Some(CIdent(RetTmp(c.retSeq))) else v);
    ListReturns(m, ds, c1, ids);
    var body := Append(LowerList(m, ds, c1).code, Single(last));
    AppendReturn(LowerList(m, ds, c1).code, Single(last));
    ConsReturn(last, Nil);
    ConsReturn(CVar(RetTmp(c.retSeq), v), body);
    IdsGrowList(ds, ids);
  }

  /** The code of a statement contains a `return` of the function exactly when the
      statement is not contained. */
  lemma {:induction false} StmtReturns(m: Mode, s: Stmt, c: Ctx, ids: set<string>)
    requires Knows(c, ids) && CallsIn(s, ids)
    ensures Answers(c, Lower(m, s, c), IdsAfter(s, ids), ContainedIn(s, false))
    decreases s, 1
  {
    hide LowerBlock;
    hide HasReturn;
    hide OrChain;
    hide FreshName;
    hide LowerE;
    hide LowerTryPrefix;
    hide LowerReturn;
    hide LowerJump;
    hide LowerArms;
    match s
    case VarDef(_, InitTry(_)) => StoreReturns(m, s, c, ids);
    case AssignTry(_, _, _) => StoreReturns(m, s, c, ids);
    case Return(v, ds) => ExitReturns(m, LowerOpt(v, c), ds, c, ids);
    case ReturnTry(_, _) => ReturnTryReturns(m, s, c, ids);
    case Break(ds) => JumpReturns(m, CBreak, ds, c, ids);
    case Continue(ds) => JumpReturns(m, CContinue, ds, c, ids);
    case If(_, a, els) => BranchReturns(m, s, c, ids);
    case Switch(_, _) => SwitchReturns(m, s, c, ids);
    case While(e, a) =>
      ListReturns(m, a, c, ids);
      ConsReturn(CWhile(LowerE(e, c), LowerBlock(m, a, c).code), Nil);
    case DoWhile(a, e) =>
      ListReturns(m, a, c, ids);
      ConsReturn(CDoWhile(LowerBlock(m, a, c).code, LowerE(e, c)), Nil);
    case For(_, _, _, _) => LoopReturns(m, s, c, ids);
    case Block(a) => ListReturns(m, a, c, ids);
    case DeferCall(id, a) =>
      var c1 := DeferScope(m, FindDefer(c.defers, id).value, c);
      ListReturns(m, a, c1, {});
      ConsReturn(CBlock(LowerBlock(m, a, c1).code), Nil);
    case Decorated(_, _, _) => DecoratedReturns(m, s, c, ids);
    case _ => PlainReturns(m, s, c, ids);
  }

  lemma PlainReturns(m: Mode, s: Stmt, c: Ctx, ids: set<string>)
    requires (s.VarDef? && !s.init.InitTry?) || s.Assign? || s.ExprStmt? || s.DeferDef? || s.LocalFn?
    requires Knows(c, ids)
    ensures Answers(c, Lower(m, s, c), IdsAfter(s, ids), true)
  {
    hide FreshName;
    hide LowerE;
    var o := Lower(m, s, c);
    if o.code.Cons? {
      ConsReturn(o.code.head, Nil);
      assert o.code == Single(o.code.head);
    }
    assert Keeps(c, o.ctx);
  }

  lemma {:induction false} ReturnTryReturns(m: Mode, s: Stmt, c: Ctx, ids: set<string>)
    requires s.ReturnTry? && Knows(c, ids) && CallsIn(s, ids)
    ensures Answers(c, Lower(m, s, c), ids, false)
    decreases s, 0
  {
    var pre := LowerTryPrefix(m, s.t, c);
    var v, w := Some(LowerE(s.t.value, pre.ctx)), Within(m, c, pre.ctx);
    TryReturns(m, s.t, c, ids);
    ExitReturns(m, v, s.defers, w, ids);
    var ret := LowerReturn(m, v, s.defers, w).code;
    AppendReturn(pre.code, ret);
    ConsReturn(CBlock(Append(pre.code, ret)), Nil);
  }

  lemma {:induction false} SwitchReturns(m: Mode, s: Stmt, c: Ctx, ids: set<string>)
    requires s.Switch? && Knows(c, ids) && CallsIn(s, ids)
    ensures Answers(c, Lower(m, s, c), ids, ContainedIn(s, false))
    decreases s, 0
  {
    var tmp, c1 := SwitchTmp(c.switchSeq), c.(switchSeq := c.switchSeq + 1);
    ArmsReturn(m, tmp, s.arms, c1, ids);
    var body := Cons(CVar(tmp, Some(LowerE(s.cond, c))), LowerArms(m, tmp, s.arms, c1).code);
    ConsReturn(body.head, body.tail);
    ConsReturn(CBlock(body), Nil);
  }

  lemma {:induction false} StoreReturns(m: Mode, s: Stmt, c: Ctx, ids: set<string>)
    requires (s.VarDef? && s.init.InitTry?) || s.AssignTry?
    requires Knows(c, ids) && CallsIn(s, ids)
    ensures Answers(c, Lower(m, s, c), ids, ContainedIn(s, false))
    decreases s, 0
  {
    hide FreshName;
    if s.AssignTry? {
      var pre := LowerTryPrefix(m, s.t, c);
      var op := if m.Intended? then s.aop else None;
      TryReturns(m, s.t, c, ids);
      var store := LowerAssign(s.name, op, LowerE(s.t.value, pre.ctx), Within(m, c, pre.ctx));
      AppendReturn(pre.code, Single(store));
      ConsReturn(store, Nil);
      ConsReturn(CBlock(Append(pre.code, Single(store))), Nil);
    } else {
      var t, x, c1 := s.init.t, s.name, Register(c, s.name);
      var ci := if m.Intended? then c1.(locals := c.locals) else c1;
      var pre := LowerTryPrefix(m, t, ci);
      var e := LowerE(t.value, pre.ctx);
      TryReturns(m, t, ci, ids);
      var store := if m.Intended? then StoreIn(Sym(FreshName(c, x)), x, e) else LowerAssign(x, None, e, pre.ctx);
      AppendReturn(pre.code, Single(store));
      var block := CBlock(Append(pre.code, Single(store)));
      ConsReturn(CVar(Sym(FreshName(c, x)), None), Single(block));
      ConsReturn(block, Nil);
      ConsReturn(store, Nil);
    }
  }

  lemma {:induction false} BranchReturns(m: Mode, s: Stmt, c: Ctx, ids: set<string>)
    requires s.If? && Knows(c, ids) && CallsIn(s, ids)
    ensures Answers(c, Lower(m, s, c), ids, ContainedIn(s, false))
    decreases s, 0
  {
    var a := LowerBlock(m, s.body, c);
    ListReturns(m, s.body, c, ids);
    match s.els
    case NoElse => ConsReturn(CIf(LowerE(s.cond, c), a.code, Nil), Nil);
    case ElseBlock(b) =>
      ListReturns(m, b, a.ctx, ids);
      ConsReturn(CIf(LowerE(s.cond, c), a.code, LowerBlock(m, b, a.ctx).code), Nil);
    case ElseIf(z) =>
      StmtReturns(m, z, a.ctx, ids);
      ConsReturn(CIf(LowerE(s.cond, c), a.code, Lower(m, z, a.ctx).code), Nil);
  }

  lemma {:induction false} LoopReturns(m: Mode, s: Stmt, c: Ctx, ids: set<string>)
    requires s.For? && Knows(c, ids) && CallsIn(s, ids)
    ensures Answers(c, Lower(m, s, c), ids, ContainedIn(s, false))
    decreases s, 0
  {
    var i := if s.start.Some? then Lower(m, s.start.value, c) else Out(c, Nil);
    if s.start.Some? {
      StmtReturns(m, s.start.value, c, ids);
    }
    ListReturns(m, s.body, i.ctx, if s.start.Some? then IdsAfter(s.start.value, ids) else ids);
    var body := LowerBlock(m, s.body, i.ctx).code;
    ConsReturn(CFor(i.code, LowerOpt(s.test, i.ctx), LowerOpt(s.step, i.ctx), body), Nil);
    if s.start.Some? {
      IdsGrow(s.start.value, ids);
    }
  }

  lemma {:induction false} DecoratedReturns(m: Mode, s: Stmt, c: Ctx, ids: set<string>)
    requires s.Decorated? && Knows(c, ids) && CallsIn(s, ids)
    ensures Answers(c, Lower(m, s, c), IdsAfter(s, ids), ContainedIn(s, false))
    decreases s, 0
  {
    var a := LowerList(m, s.pre, c);
    var ids1 := IdsAfterList(s.pre, ids);
    ListReturns(m, s.pre, c, ids);
    var b := if s.core.Some? then Lower(m, s.core.value, a.ctx) else Out(a.ctx, Nil);
    if s.core.Some? {
      StmtReturns(m, s.core.value, a.ctx, ids1);
    }
    var d := LowerList(m, s.post, b.ctx);
    ListReturns(m, s.post, b.ctx, if s.core.Some? then IdsAfter(s.core.value, ids1) else ids1);
    AppendReturn(b.code, d.code);
    AppendReturn(a.code, Append(b.code, d.code));
  }

  /** The inlined body of a defer contains a `return` of the enclosing function
      exactly when the body is not contained. */
  lemma InlinedReturns(m: Mode, id: string, body: List<Stmt>, c: Ctx)
    requires FindDefer(c.defers, id).Some? && CallsInScope(body, {})
    ensures HasReturn(Lower(m, DeferCall(id, body), c).code) <==> !Contained(body, false)
  {
    StmtReturns(m, DeferCall(id, body), c, {id});
  }

  /** If the body of a defer returns, the source call goes on behind it, but the
      inlined code leaves the enclosing function, with the value of the body. */
  lemma ReturnLeavesCaller(p: Program, x: Stmt, c: Ctx, s: Src, t: Tgt, f: Freeze, fuel: nat)
    requires x.DeferCall? && Related(p, c, s, t, f) && Contained(x.body, true)
    requires FindClosure(s.clos, x.id).Some?
    ensures var fields := FindClosure(s.clos, x.id).value.fields;
            var a := ExecList(p, x.body, s.(vars := Nil, clos := Nil, caps := fields), fuel);
            a.o.Returned? ==>
              && Exec(p, x, s, fuel).o == Normal
              && RunList(p, Lower(Intended, x, c).code, t, fuel).o == a.o
  {
    var fields := FindClosure(s.clos, x.id).value.fields;
    ClosFind(c.defers, s.clos, t.env, x.id);
    var d := FindDefer(c.defers, x.id).value;
    FindDeferBelow(c.defers, x.id, c.deferSeq);
    var c1, s1 := DeferScope(Intended, d, c), s.(vars := Nil, clos := Nil, caps := fields);
    InlineStart(p, d, fields, c, s, t, f);
    InlinedShape(p, x, c, s, t, fuel);
    hide Related;
    hide Exec;
    hide Lower;
    hide LowerList;
    hide RunList;
    hide ExecList;
    SimBlock(p, x.body, c1, s1, t, FreezeScope(c, t.env), fuel, true);
  }

  /** The two ways of calling the body of a defer. */
  lemma InlinedShape(p: Program, x: Stmt, c: Ctx, s: Src, t: Tgt, fuel: nat)
    requires x.DeferCall? && FindClosure(s.clos, x.id).Some? && FindDefer(c.defers, x.id).Some?
    ensures var fields := FindClosure(s.clos, x.id).value.fields;
            Exec(p, x, s, fuel).o ==
            ClosureOutcome(ExecList(p, x.body, s.(vars := Nil, clos := Nil, caps := fields), fuel).o)
    ensures var d := FindDefer(c.defers, x.id).value;
            RunList(p, Lower(Intended, x, c).code, t, fuel).o ==
            RunList(p, LowerBlock(Intended, x.body, DeferScope(Intended, d, c)).code, t, fuel).o
  {
    hide LowerList;
    hide ExecList;
    var b := LowerBlock(Intended, x.body, DeferScope(Intended, FindDefer(c.defers, x.id).value, c));
    assert Lower(Intended, x, c).code == Single(CBlock(b.code));
    RunSingle(p, CBlock(b.code), t, fuel);
  }
}