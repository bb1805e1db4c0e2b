/** Lowering that keeps to the source's scopes preserves meaning: for every
    statement, every state and every number of loop rounds, the generated code
    ends the same way, with the same trace, globals and variables. */
module Simulation {
  import opened Lists
  import opened Naming
  import opened Syntax
  import opened SourceSemantics
  import opened TargetSemantics
  import opened Lowering
  import opened Freshness
  import opened Frames
  import opened Relation
  import opened ExprSimulation
  import opened Containment

  type Freeze = map<CName, Value>

  /* --------------------------- matching statements --------------------------- */

  /** Unless the source has no meaning, both sides end with the same outcome; the
      scopes open before are related again, and if control goes on, so are the
      scopes opened meanwhile. */
  ghost predicate Match(p: Program, c: Ctx, c': Ctx, f: Freeze, s: Src, a: Ans<Src>, b: Ans<Tgt>) {
    || a.o.Wrong?
    || (a.o == b.o && Related(p, c, PopTo(a.st, s), b.st, f) && (a.o.Normal? ==> Related(p, c', a.st, b.st, f)))
  }

  lemma {:induction false} RunAppend(p: Program, a: List<CStmt>, b: List<CStmt>, t: Tgt, fuel: nat)
    ensures RunList(p, Append(a, b), t, fuel) ==
            (var r := RunList(p, a, t, fuel); if r.o.Normal? then RunList(p, b, r.st, fuel) else r)
  {
    if a.Cons? {
      RunAppend(p, a.tail, b, Run(p, a.head, t, fuel).st, fuel);
    }
  }

  lemma RunCons(p: Program, c: CStmt, rest: List<CStmt>, t: Tgt, fuel: nat)
    ensures var a := Run(p, c, t, fuel);
            RunList(p, Cons(c, rest), t, fuel) == if a.o.Normal? then RunList(p, rest, a.st, fuel) else a
  {
  }

  lemma RunSingle(p: Program, c: CStmt, t: Tgt, fuel: nat)
    ensures RunList(p, Single(c), t, fuel) == Run(p, c, t, fuel)
  {
    var a := Run(p, c, t, fuel);
    assert RunList(p, Nil, a.st, fuel) == Ans(Normal, a.st);
  }

  /** Nothing declared on either side: the outcome alone decides. */
  lemma MatchFlat(p: Program, c: Ctx, f: Freeze, s: Src, a: Ans<Src>, b: Ans<Tgt>)
    requires GoodCtx(p, c) && Len(s.vars) == Len(c.locals) && Len(s.clos) == Len(c.defers)
    requires a.o.Wrong? || (a.o == b.o && Related(p, c, a.st, b.st, f))
    ensures Match(p, c, c, f, s, a, b)
  {
    if !a.o.Wrong? {
      RelatedDepth(p, c, a.st, b.st, f);
      PopNothing(a.st, s);
    }
  }

  /** One piece of code after another. */
  lemma MatchThen(p: Program, c: Ctx, c1: Ctx, c2: Ctx, f: Freeze, s: Src,
                  a: Ans<Src>, b: Ans<Tgt>, a2: Ans<Src>, b2: Ans<Tgt>)
    requires GoodCtx(p, c) && FrozenOk(c, f) && Len(s.vars) == Len(c.locals) && Len(s.clos) == Len(c.defers)
    requires IsTail(c.locals, c1.locals) && IsTail(c.defers, c1.defers) && c.env == c1.env
    requires Match(p, c, c1, f, s, a, b)
    requires a.o.Normal? && b.o.Normal? && Related(p, c1, a.st, b.st, f) ==> Match(p, c1, c2, f, a.st, a2, b2)
    ensures Match(p, c, c2, f, s, if a.o.Normal? then a2 else a, if b.o.Normal? then b2 else b)
  {
    if a.o.Normal? && !a2.o.Wrong? {
      RelatedDepth(p, c1, a.st, b.st, f);
      TailLen(c.locals, c1.locals);
      TailLen(c.defers, c1.defers);
      RelatedPop(p, c, c1, s, PopTo(a2.st, a.st), b2.st, f);
      KeepKeep(a2.st.vars, Len(a.st.vars), Len(s.vars));
      KeepKeep(a2.st.clos, Len(a.st.clos), Len(s.clos));
    }
  }

  /** The end of a source scope; in C the chain simply goes on. */
  lemma MatchPop(p: Program, c: Ctx, c': Ctx, e: Ctx, f: Freeze, s: Src, a: Ans<Src>, b: Ans<Tgt>)
    requires Match(p, c, c', f, s, a, b)
    requires Grows(c, e) && GoodCtx(p, e) && e.locals == c.locals && e.defers == c.defers
    ensures Match(p, c, e, f, s, Ans(a.o, PopTo(a.st, s)), b)
  {
    if !a.o.Wrong? {
      KeepKeep(a.st.vars, Len(s.vars), Len(s.vars));
      KeepKeep(a.st.clos, Len(s.clos), Len(s.clos));
      RelatedGrow(p, c, e, PopTo(a.st, s), b.st, f);
    }
  }

  /** The end of a source scope that is in braces in C too. */
  lemma MatchBraces(p: Program, c: Ctx, c': Ctx, e: Ctx, f: Freeze, s: Src, a: Ans<Src>, t: Tgt, b: Ans<Tgt>,
          d: set<CName>)
    requires Match(p, c, c', f, s, a, b)
    requires Grows(c, e) && GoodCtx(p, e) && e.locals == c.locals && e.defers == c.defers
    requires Framed(t, b.st, d) && forall n :: n in d ==> !Used(c, n)
    ensures Match(p, c, e, f, s, Ans(a.o, PopTo(a.st, s)), Ans(b.o, PopBrace(b.st, t)))
  {
    if !a.o.Wrong? {
      RelatedBrace(p, c, PopTo(a.st, s), t, b.st, f, d);
      RelatedGrow(p, c, e, PopTo(a.st, s), PopBrace(b.st, t), f);
      KeepKeep(a.st.vars, Len(s.vars), Len(s.vars));
      KeepKeep(a.st.clos, Len(s.clos), Len(s.clos));
    }
  }

  lemma MatchGrow(p: Program, c: Ctx, c': Ctx, e: Ctx, f: Freeze, s: Src, a: Ans<Src>, b: Ans<Tgt>)
    requires Match(p, c, c', f, s, a, b)
    requires Grows(c', e) && GoodCtx(p, e) && e.locals == c'.locals && e.defers == c'.defers
    ensures Match(p, c, e, f, s, a, b)
  {
    if a.o.Normal? {
      RelatedGrow(p, c', e, a.st, b.st, f);
    }
  }

  /** A statement lowered later, in the same scope, matches from the earlier context too. */
  lemma MatchBase(p: Program, c: Ctx, c1: Ctx, c': Ctx, f: Freeze, s: Src, a: Ans<Src>, b: Ans<Tgt>)
    requires Match(p, c1, c', f, s, a, b)
    requires GoodCtx(p, c) && FrozenOk(c, f)
    requires c1.locals == c.locals && c1.defers == c.defers && c1.env == c.env
    ensures Match(p, c, c', f, s, a, b)
  {
  }

  /* ------------------------------ declarations ------------------------------ */

  /** Storing in a name that no local, closure or global uses. */
  lemma SetAside(p: Program, c: Ctx, s: Src, t: Tgt, f: Freeze, n: CName, v: Value)
    requires Related(p, c, s, t, f) && !Used(c, n)
    ensures Related(p, c, s, t.(env := Update(t.env, n, v)), f)
  {
    var t' := t.(env := Update(t.env, n, v));
    forall d | d != n
      ensures Lookup(t'.env, d) == Lookup(t.env, d)
    {
      LookupUpdate(t.env, n, v, d);
    }
    RelatedElsewhere(p, c, s, t, t', f);
  }

  lemma StaysBound(p: Program, e: CExpr, n: CName, t: Tgt)
    requires Lookup(t.env, n).Some?
    ensures Lookup(EvalC(p, e, t).st.env, n).Some?
  {
    EvalSame(p, e, t);
    SameUnbound(EvalC(p, e, t).st.env, t.env, n);
  }

  /** `T n = e;` for a new name n. */
  lemma DeclareSim(p: Program, e: Expr, c: Ctx, s: Src, t: Tgt, f: Freeze, n: CName, fuel: nat)
    requires Related(p, c, s, t, f) && !Used(c, n)
    ensures var a, b := Eval(p, e, s), Run(p, CVar(n, Some(LowerE(e, c))), t, fuel);
            (a.Halt? && a.why.Wrong?)
            || (a.Halt? && b.o == a.why && !b.o.Normal? && Related(p, c, a.st, b.st, f))
            || (a.Val? && b.o.Normal? && Related(p, c, a.st, b.st, f) && Lookup(b.st.env, n) == Some(Int(a.v)))
  {
    var t1 := Push(n, Unset, t);
    RelatedPush(p, c, s, t, f, n, Unset);
    EvalSim(p, e, c, s, t1, f);
    var a, b := Eval(p, e, s), EvalC(p, LowerE(e, c), t1);
    if a.Val? {
      StaysBound(p, LowerE(e, c), n, t1);
      SetAside(p, c, a.st, b.st, f, n, Int(a.v));
      LookupUpdate(b.st.env, n, Int(a.v), n);
    }
  }

  /** The source declares x once its C variable holds the value. */
  lemma DeclareLocal(p: Program, x: string, v: Option<int>, c: Ctx, s: Src, t: Tgt, f: Freeze)
    requires Related(p, c, s, t, f)
    requires SlotOk(v, Lookup(t.env, Sym(FreshName(c, x))))
    ensures Related(p, Register(c, x), Declare(x, v, s), t, f)
  {
    RegisterGood(p, c, x);
  }

  /* ---------------------------------- exits --------------------------------- */

  predicate Jumps(jump: CStmt, o: Outcome, f: Freeze) {
    match jump
    case CBreak => o == Broke
    case CContinue => o == Continued
    case CReturn(None) => o == Returned(None)
    case CReturn(Some(CIdent(n))) => n in f && f[n].Int? && o == Returned(Some(f[n].i))
    case _ => false
  }

  lemma JumpRuns(p: Program, o: Outcome, jump: CStmt, c: Ctx, s: Src, t: Tgt, f: Freeze, fuel: nat)
    requires Related(p, c, s, t, f) && Jumps(jump, o, f)
    ensures Run(p, jump, t, fuel) == Ans(o, t)
  {
    assert Frozen(f, t.env);
  }

  /** A list of defers followed by the jump itself. */
  lemma {:induction false} ExitSim(p: Program, o: Outcome, jump: CStmt, ds: List<Stmt>, c: Ctx, s: Src, t: Tgt,
          f: Freeze, fuel: nat, ret: bool)
    requires Related(p, c, s, t, f) && Contained(ds, ret) && Jumps(jump, o, f)
    ensures var d := LowerList(Intended, ds, c);
            Match(p, c, BlockEnd(Intended, c, d.ctx), f, s, ExitWith(p, o, ds, s, fuel),
                  RunList(p, Append(d.code, Single(jump)), t, fuel))
    decreases fuel, ds, 1
  {
    hide Related;
    hide GoodCtx;
    hide Exec;
    hide LowerList;
    RelatedCtx(p, c, s, t, f);
    RelatedDepth(p, c, s, t, f);
    var d := LowerList(Intended, ds, c);
    ListFresh(p, Intended, ds, c);
    ScopeEndSound(p, Intended, c, d);
    SimList(p, ds, c, s, t, f, fuel, ret);
    RunAppend(p, d.code, Single(jump), t, fuel);
    var a, b := ExecList(p, ds, s, fuel), RunList(p, d.code, t, fuel);
    var e := BlockEnd(Intended, c, d.ctx);
    MatchPop(p, c, d.ctx, e, f, s, a, b);
    if a.o.Normal? {
      RunSingle(p, jump, b.st, fuel);
      JumpRuns(p, o, jump, d.ctx, a.st, b.st, f, fuel);
      KeepKeep(a.st.vars, Len(s.vars), Len(s.vars));
      KeepKeep(a.st.clos, Len(s.clos), Len(s.clos));
    }
  }

  /** `{ ...; jump }` */
  lemma {:induction false} JumpSim(p: Program, o: Outcome, jump: CStmt, ds: List<Stmt>, c: Ctx, s: Src, t: Tgt,
          f: Freeze, fuel: nat, ret: bool)
    requires Related(p, c, s, t, f) && Contained(ds, ret) && Jumps(jump, o, f)
    requires jump.CBreak? || jump.CContinue? || jump.CReturn?
    ensures var d := LowerJump(Intended, jump, ds, c);
            Match(p, c, d.ctx, f, s, ExitWith(p, o, ds, s, fuel), RunList(p, d.code, t, fuel))
    decreases fuel, ds, 3
  {
    RelatedDepth(p, c, s, t, f);
    var out := LowerJump(Intended, jump, ds, c);
    JumpFresh(p, Intended, jump, ds, c);
    if ds.Nil? {
      RunSingle(p, jump, t, fuel);
      assert Frozen(f, t.env);
      assert Run(p, jump, t, fuel) == Ans(o, t);
      ExitNil(p, o, s, fuel);
      MatchFlat(p, c, f, s, Ans(o, s), Ans(o, t));
    } else {
      ExitSim(p, o, jump, ds, c, s, t, f, fuel, ret);
      ExitPops(p, o, ds, s, fuel);
      BlockCodeSim(p, c, out, Append(LowerList(Intended, ds, c).code, Single(jump)), ExitWith(p, o, ds, s, fuel), s, t,
              f, fuel);
    }
  }

  /** Code that was matched without braces is matched in braces as well, when the
      source scope has already been left. */
  lemma BlockCodeSim(p: Program, c: Ctx, out: Out, body: List<CStmt>, a: Ans<Src>, s: Src, t: Tgt, f: Freeze, fuel: nat)
    requires Related(p, c, s, t, f) && Sound(p, Intended, c, out) && out.code == Single(CBlock(body))
    requires out.ctx.locals == c.locals && out.ctx.defers == c.defers
    requires Match(p, c, out.ctx, f, s, a, RunList(p, body, t, fuel))
    ensures Match(p, c, out.ctx, f, s, Ans(a.o, PopTo(a.st, s)), RunList(p, out.code, t, fuel))
    ensures PopTo(a.st, s) == a.st ==> Match(p, c, out.ctx, f, s, a, RunList(p, out.code, t, fuel))
  {
    var b := RunList(p, body, t, fuel);
    ListFramed(p, body, t, fuel);
    assert Declares(out.code) == Declares(body) by {
      assert Declares(out.code) == DeclaresIn(CBlock(body)) + Declares(Nil);
    }
    MatchBraces(p, c, out.ctx, out.ctx, f, s, a, t, b, Declares(body));
    RunSingle(p, CBlock(body), t, fuel);
  }

  lemma ExitNil(p: Program, o: Outcome, s: Src, fuel: nat)
    ensures ExitWith(p, o, Nil, s, fuel) == Ans(o, s)
  {
    assert ExecList(p, Nil, s, fuel) == Ans(Normal, s);
    PopNothing(s, s);
  }

  lemma ExitPops(p: Program, o: Outcome, ds: List<Stmt>, s: Src, fuel: nat)
    ensures var a := ExitWith(p, o, ds, s, fuel); PopTo(a.st, s) == a.st
  {
    var a := ExecList(p, ds, s, fuel);
    KeepKeep(a.st.vars, Len(s.vars), Len(s.vars));
    KeepKeep(a.st.clos, Len(s.clos), Len(s.clos));
  }

  /** The outcome of `return v` once v has been evaluated in the inner scope. */
  function ReturnRun(p: Program, a: Ev<Src>, ds: List<Stmt>, s0: Src, fuel: nat): Ans<Src> {
    if a.Halt? then Ans(a.why, PopTo(a.st, s0)) else ExitWith(p, Returned(Some(a.v)), ds, PopTo(a.st, s0), fuel)
  }

  lemma ReturnPops(p: Program, a: Ev<Src>, ds: List<Stmt>, s0: Src, fuel: nat)
    ensures var r := ReturnRun(p, a, ds, s0, fuel); PopTo(r.st, s0) == r.st
  {
    var s1 := PopTo(a.st, s0);
    KeepKeep(a.st.vars, Len(s0.vars), Len(s0.vars));
    KeepKeep(a.st.clos, Len(s0.clos), Len(s0.clos));
    if a.Val? {
      ExitPops(p, Returned(Some(a.v)), ds, s1, fuel);
      var r := ReturnRun(p, a, ds, s0, fuel);
      KeptLen(s1, s0);
      KeptLen(r.st, s1);
      KeptLen(r.st, s0);
    }
  }

  /** `return v` where v was lowered in the wider scope cv: the value is taken
      before any defer runs, the defers run once and in order, then it is returned. */
  lemma {:induction false} ReturnSim(p: Program, v: Expr, ds: List<Stmt>, cv: Ctx, c: Ctx, s0: Src, s: Src, t: Tgt,
          f: Freeze, fuel: nat, ret: bool)
    requires Related(p, cv, s, t, f) && Related(p, c, PopTo(s, s0), t, f)
    requires Contained(ds, ret) && SameDepth(s0, PopTo(s, s0))
    requires IsTail(c.locals, cv.locals) && IsTail(c.defers, cv.defers)
    requires c == cv.(locals := c.locals, defers := c.defers)
    ensures var d := LowerReturn(Intended, Some(LowerE(v, cv)), ds, c);
            Match(p, c, d.ctx, f, s0, ReturnRun(p, Eval(p, v, s), ds, s0, fuel), RunList(p, d.code, t, fuel))
    decreases fuel, ds, 5
  {
    hide Related;
    hide Eval;
    hide LowerE;
    hide LowerList;
    RelatedCtx(p, c, PopTo(s, s0), t, f);
    if ds.Nil? {
      ReturnPlainSim(p, v, cv, c, s0, s, t, f, fuel);
    } else {
      var le := LowerE(v, cv);
      var n, c1 := RetTmp(c.retSeq), c.(retSeq := c.retSeq + 1);
      var body := Cons(CVar(n, Some(le)), Append(LowerList(Intended, ds, c1).code, Single(CReturn(Some(CIdent(n))))));
      var d := LowerReturn(Intended, Some(le), ds, c);
      assert d == Out(BlockEnd(Intended, c, LowerList(Intended, ds, c1).ctx), Single(CBlock(body)));
      ReturnFresh(p, Intended, Some(le), ds, c);
      ReturnSavedSim(p, v, ds, cv, c, s0, s, t, f, fuel, ret);
      ReturnPops(p, Eval(p, v, s), ds, s0, fuel);
      var src := ReturnRun(p, Eval(p, v, s), ds, s0, fuel);
      assert PopTo(src.st, PopTo(s, s0)) == PopTo(src.st, s0);
      BlockCodeSim(p, c, d, body, src, PopTo(s, s0), t, f, fuel);
    }
  }

  /** Inside the braces: save, run the defers, return what was saved. */
  lemma {:induction false} ReturnSavedSim(p: Program, v: Expr, ds: List<Stmt>, cv: Ctx, c: Ctx, s0: Src, s: Src,
          t: Tgt, f: Freeze, fuel: nat, ret: bool)
    requires Related(p, cv, s, t, f) && Related(p, c, PopTo(s, s0), t, f)
    requires Contained(ds, ret) && SameDepth(s0, PopTo(s, s0))
    requires IsTail(c.locals, cv.locals) && IsTail(c.defers, cv.defers)
    requires c == cv.(locals := c.locals, defers := c.defers)
    ensures var n, c1 := RetTmp(c.retSeq), c.(retSeq := c.retSeq + 1);
            var tail := Append(LowerList(Intended, ds, c1).code, Single(CReturn(Some(CIdent(n)))));
            var a, z := ReturnRun(p, Eval(p, v, s), ds, s0, fuel),
                    RunList(p, Cons(CVar(n, Some(LowerE(v, cv))), tail), t, fuel);
            a.o.Wrong? || (a.o == z.o && !a.o.Normal? && Related(p, c, a.st, z.st, f))
    decreases fuel, ds, 4
  {
    hide Related;
    hide Eval;
    hide EvalC;
    hide LowerE;
    hide LowerList;
    hide Run;
    var n, c1 := RetTmp(c.retSeq), c.(retSeq := c.retSeq + 1);
    var decl := CVar(n, Some(LowerE(v, cv)));
    RelatedCtx(p, c, PopTo(s, s0), t, f);
    DeclareSim(p, v, cv, s, t, f, n, fuel);
    var a, b := Eval(p, v, s), Run(p, decl, t, fuel);
    if !(a.Halt? && a.why.Wrong?) {
      RelatedDepth(p, c, PopTo(s, s0), t, f);
      RelatedPop(p, c, cv, s0, a.st, b.st, f);
      if a.Val? {
        SavedDefersSim(p, a.v, n, ds, c, c1, PopTo(a.st, s0), b.st, f, fuel, ret);
      }
    }
  }

  lemma {:induction false} SavedDefersSim(p: Program, v: int, n: CName, ds: List<Stmt>, c: Ctx, c1: Ctx, s: Src,
          t: Tgt, f: Freeze, fuel: nat, ret: bool)
    requires Related(p, c, s, t, f) && Contained(ds, ret)
    requires n == RetTmp(c.retSeq) && c1 == c.(retSeq := c.retSeq + 1) && Lookup(t.env, n) == Some(Int(v))
    ensures var tail := Append(LowerList(Intended, ds, c1).code, Single(CReturn(Some(CIdent(n)))));
            var a, z := ExitWith(p, Returned(Some(v)), ds, s, fuel), RunList(p, tail, t, fuel);
            a.o.Wrong? || (a.o == z.o && !a.o.Normal? && Related(p, c, a.st, z.st, f))
    decreases fuel, ds, 3
  {
    RelatedGrow(p, c, c1, s, t, f);
    RelatedFreeze(p, c1, s, t, f, n, Int(v));
    ReturnDefersSim(p, v, n, ds, c, c1, s, t, f, fuel, ret);
  }

  lemma {:induction false} ReturnDefersSim(p: Program, v: int, n: CName, ds: List<Stmt>, c: Ctx, c1: Ctx, s: Src,
          t: Tgt, f: Freeze, fuel: nat, ret: bool)
    requires Related(p, c, s, t, f) && Related(p, c1, s, t, f[n := Int(v)]) && Contained(ds, ret)
    requires !Used(c, n) && c1.locals == c.locals && c1.defers == c.defers && c1.env == c.env
    ensures var tail := Append(LowerList(Intended, ds, c1).code, Single(CReturn(Some(CIdent(n)))));
            var a, z := ExitWith(p, Returned(Some(v)), ds, s, fuel), RunList(p, tail, t, fuel);
            a.o.Wrong? || (a.o == z.o && !a.o.Normal? && Related(p, c, a.st, z.st, f))
    decreases fuel, ds, 2
  {
    assert n !in f;
    var tail := Append(LowerList(Intended, ds, c1).code, Single(CReturn(Some(CIdent(n)))));
    var a, z := ExitWith(p, Returned(Some(v)), ds, s, fuel), RunList(p, tail, t, fuel);
    ExitSim(p, Returned(Some(v)), CReturn(Some(CIdent(n))), ds, c1, s, t, f[n := Int(v)], fuel, ret);
    ExitPops(p, Returned(Some(v)), ds, s, fuel);
    ExitNeverNormal(p, Returned(Some(v)), ds, s, fuel);
    if !a.o.Wrong? {
      RelatedThaw(p, c1, a.st, z.st, f, n, Int(v));
      RelatedShrink(p, c, c1, a.st, z.st, f);
    }
  }

  lemma RelatedShrink(p: Program, c: Ctx, c1: Ctx, s: Src, t: Tgt, f: Freeze)
    requires Related(p, c1, s, t, f) && GoodCtx(p, c) && FrozenOk(c, f)
    requires c1.locals == c.locals && c1.defers == c.defers && c1.env == c.env
    ensures Related(p, c, s, t, f)
  {
  }

  lemma ExitNeverNormal(p: Program, o: Outcome, ds: List<Stmt>, s: Src, fuel: nat)
    requires !o.Normal?
    ensures !ExitWith(p, o, ds, s, fuel).o.Normal?
  {
  }

  lemma ReturnPlainSim(p: Program, v: Expr, cv: Ctx, c: Ctx, s0: Src, s: Src, t: Tgt, f: Freeze, fuel: nat)
    requires Related(p, cv, s, t, f) && Related(p, c, PopTo(s, s0), t, f)
    requires SameDepth(s0, PopTo(s, s0))
    requires IsTail(c.locals, cv.locals) && IsTail(c.defers, cv.defers)
    requires c == cv.(locals := c.locals, defers := c.defers)
    ensures var a := Eval(p, v, s);
            Match(p, c, c, f, s0,
                  ReturnRun(p, a, Nil, s0, fuel),
                  RunList(p, Single(CReturn(Some(LowerE(v, cv)))), t, fuel))
  {
    var le := LowerE(v, cv);
    RelatedDepth(p, c, PopTo(s, s0), t, f);
    EvalSim(p, v, cv, s, t, f);
    RunSingle(p, CReturn(Some(le)), t, fuel);
    var a, b := Eval(p, v, s), EvalC(p, le, t);
    if !(a.Halt? && a.why.Wrong?) {
      RelatedPop(p, c, cv, s0, a.st, b.st, f);
      var s1 := PopTo(a.st, s0);
      KeepKeep(a.st.vars, Len(s0.vars), Len(s0.vars));
      KeepKeep(a.st.clos, Len(s0.clos), Len(s0.clos));
      RelatedDepth(p, c, s1, b.st, f);
      if a.Val? {
        ExitNil(p, Returned(Some(a.v)), s1, fuel);
      }
    }
  }

  /* ----------------------------------- try ---------------------------------- */

  lemma {:induction false} TrySim(p: Program, y: Try, c: Ctx, s: Src, t: Tgt, f: Freeze, fuel: nat, ret: bool)
    requires Related(p, c, s, t, f) && ContainedTry(y, ret)
    ensures var o := LowerTryPrefix(Intended, y, c);
            Match(p, c, o.ctx, f, s, TryPrefix(p, y, s, fuel), RunList(p, o.code, t, fuel))
    decreases fuel, y, 1
  {
    hide Related;
    hide GoodCtx;
    hide Exec;
    hide Lower;
    hide LowerE;
    hide Eval;
    RelatedCtx(p, c, s, t, f);
    var setup := Lower(Intended, y.setup, c);
    LowerFresh(p, Intended, y.setup, c);
    SimStmt(p, y.setup, c, s, t, f, fuel, ret);
    RelatedDepth(p, c, s, t, f);
    var a, b := Exec(p, y.setup, s, fuel), RunList(p, setup.code, t, fuel);
    var tail := if y.tail.Some? then Lower(Intended, y.tail.value, setup.ctx) else Out(setup.ctx, Nil);
    var e := ScopeEnd(Intended, setup.ctx, tail.ctx);
    var check := CIf(CUnary(LNot, LowerE(y.ok, setup.ctx)), tail.code, Nil);
    RunAppend(p, setup.code, Single(check), t, fuel);
    if a.o.Normal? && b.o.Normal? && Related(p, setup.ctx, a.st, b.st, f) {
      CheckSim(p, y, setup.ctx, a.st, b.st, f, fuel, ret);
      MatchThen(p, c, setup.ctx, e, f, s, a, b, AfterSetup(p, y, a.st, fuel), RunList(p, Single(check), b.st, fuel));
    }
  }

  /** What follows the setup: ask for success, leave on failure. */
  function AfterSetup(p: Program, y: Try, s: Src, fuel: nat): Ans<Src> {
    match Eval(p, y.ok, s)
    case Halt(why, s') => Ans(why, s')
    case Val(v, s') =>
      if v != 0 then Ans(Normal, s')
      else
        match y.tail
        case None => Ans(Normal, s')
        case Some(tail) =>
          var b := Exec(p, tail, s', fuel);
          if b.o.Normal? then Ans(Normal, PopTo(b.st, s')) else b
  }

  lemma {:induction false} CheckSim(p: Program, y: Try, c: Ctx, s: Src, t: Tgt, f: Freeze, fuel: nat, ret: bool)
    requires Related(p, c, s, t, f) && ContainedTry(y, ret)
    ensures var tail := if y.tail.Some? then Lower(Intended, y.tail.value, c) else Out(c, Nil);
            Match(p, c, ScopeEnd(Intended, c, tail.ctx), f, s, AfterSetup(p, y, s, fuel),
                  RunList(p, Single(CIf(CUnary(LNot, LowerE(y.ok, c)), tail.code, Nil)), t, fuel))
    decreases fuel, y, 0
  {
    hide Related;
    hide Exec;
    hide Lower;
    hide LowerE;
    hide Eval;
    var tail := if y.tail.Some? then Lower(Intended, y.tail.value, c) else Out(c, Nil);
    var e := ScopeEnd(Intended, c, tail.ctx);
    var cond := CUnary(LNot, LowerE(y.ok, c));
    RunSingle(p, CIf(cond, tail.code, Nil), t, fuel);
    RelatedDepth(p, c, s, t, f);
    RelatedCtx(p, c, s, t, f);
    EvalSim(p, y.ok, c, s, t, f);
    var r, rc := Eval(p, y.ok, s), EvalC(p, LowerE(y.ok, c), t);
    if y.tail.Some? {
      LowerFresh(p, Intended, y.tail.value, c);
      ScopeEndSound(p, Intended, c, tail);
    }
    if r.Halt? {
      if !r.why.Wrong? {
        RelatedDepth(p, c, r.st, rc.st, f);
        PopNothing(r.st, s);
      }
    } else {
      RelatedDepth(p, c, r.st, rc.st, f);
      if r.v != 0 {
        assert EvalC(p, cond, t) == Val(0, rc.st);
        assert RunBraces(p, Nil, rc.st, fuel) == Ans(Normal, rc.st);
        MatchFlat(p, c, f, s, Ans(Normal, r.st), Ans(Normal, rc.st));
        MatchGrow(p, c, c, e, f, s, Ans(Normal, r.st), Ans(Normal, rc.st));
      } else if y.tail.Some? {
        assert EvalC(p, cond, t) == Val(1, rc.st);
        SimStmt(p, y.tail.value, c, r.st, rc.st, f, fuel, ret);
        var a, b := Exec(p, y.tail.value, r.st, fuel), RunList(p, tail.code, rc.st, fuel);
        ListFramed(p, tail.code, rc.st, fuel);
        MatchBraces(p, c, tail.ctx, e, f, r.st, a, rc.st, b, Declares(tail.code));
        KeepKeep(a.st.vars, Len(s.vars), Len(s.vars));
        KeepKeep(a.st.clos, Len(s.clos), Len(s.clos));
        assert PopTo(PopTo(a.st, r.st), s) == PopTo(a.st, s);
      } else {
        assert EvalC(p, cond, t) == Val(1, rc.st);
        assert RunBraces(p, Nil, rc.st, fuel) == Ans(Normal, rc.st);
        MatchFlat(p, c, f, s, Ans(Normal, r.st), Ans(Normal, rc.st));
      }
    }
  }

  /** The success value, in the scope the try was written in. */
  lemma TryValueSim(p: Program, y: Try, c: Ctx, s: Src, a: Ans<Src>, t1: Tgt, f: Freeze, fuel: nat)
    requires GoodCtx(p, c) && FrozenOk(c, f)
    requires Len(s.vars) == Len(c.locals) && Len(s.clos) == Len(c.defers)
    requires Related(p, LowerTryPrefix(Intended, y, c).ctx, a.st, t1, f)
    ensures var o := LowerTryPrefix(Intended, y, c);
            var r, rc := Eval(p, y.value, a.st), EvalC(p, LowerE(y.value, o.ctx), t1);
            MatchE(p, o.ctx, f, r, rc) &&
            (!(r.Halt? && r.why.Wrong?) ==>
              && Related(p, c, PopTo(r.st, s), rc.st, f)
              && Related(p, BlockEnd(Intended, c, o.ctx), PopTo(r.st, s), rc.st, f)
              && SameDepth(PopTo(r.st, s), s)
              && PopTo(PopTo(r.st, s), s) == PopTo(r.st, s))
  {
    var o := LowerTryPrefix(Intended, y, c);
    TryFresh(p, Intended, y, c);
    ScopeEndSound(p, Intended, c, o);
    EvalSim(p, y.value, o.ctx, a.st, t1, f);
    var r, rc := Eval(p, y.value, a.st), EvalC(p, LowerE(y.value, o.ctx), t1);
    if !(r.Halt? && r.why.Wrong?) {
      RelatedPop(p, c, o.ctx, s, r.st, rc.st, f);
      RelatedGrow(p, c, BlockEnd(Intended, c, o.ctx), PopTo(r.st, s), rc.st, f);
      RelatedDepth(p, c, PopTo(r.st, s), rc.st, f);
      KeepKeep(r.st.vars, Len(s.vars), Len(s.vars));
      KeepKeep(r.st.clos, Len(s.clos), Len(s.clos));
    }
  }

  /** `{ prefix; last }` around a try: enough to match what follows success. */
  lemma {:induction false} TryBlock(p: Program, y: Try, c: Ctx, out: Out, last: List<CStmt>, src: Ans<Src>,
                                    s: Src, t: Tgt, f: Freeze, fuel: nat, ret: bool)
    requires Related(p, c, s, t, f) && ContainedTry(y, ret) && Sound(p, Intended, c, out)
    requires out.code == Single(CBlock(Append(LowerTryPrefix(Intended, y, c).code, last)))
    requires out.ctx.locals == c.locals && out.ctx.defers == c.defers
    requires PopTo(src.st, s) == src.st
    requires var pre := LowerTryPrefix(Intended, y, c);
             var a, b := TryPrefix(p, y, s, fuel), RunList(p, pre.code, t, fuel);
             && (a.o.Normal? && Related(p, pre.ctx, a.st, b.st, f) ==>
                   Match(p, c, out.ctx, f, s, src, RunList(p, last, b.st, fuel)))
             && (!a.o.Normal? ==> src == Ans(a.o, PopTo(a.st, s)))
    ensures Match(p, c, out.ctx, f, s, src, RunList(p, out.code, t, fuel))
    decreases fuel, y, 2
  {
    var pre := LowerTryPrefix(Intended, y, c);
    TrySim(p, y, c, s, t, f, fuel, ret);
    var a, b := TryPrefix(p, y, s, fuel), RunList(p, pre.code, t, fuel);
    var body := Append(pre.code, last);
    RunAppend(p, pre.code, last, t, fuel);
    assert Match(p, c, out.ctx, f, s, src, RunList(p, body, t, fuel));
    BlockCodeSim(p, c, out, body, src, s, t, f, fuel);
  }

  /* ------------------------------ the statements ----------------------------- */

  lemma {:induction false} SimList(p: Program, ss: List<Stmt>, c: Ctx, s: Src, t: Tgt, f: Freeze, fuel: nat, ret: bool)
    requires Related(p, c, s, t, f) && Contained(ss, ret)
    ensures var o := LowerList(Intended, ss, c);
            Match(p, c, o.ctx, f, s, ExecList(p, ss, s, fuel), RunList(p, o.code, t, fuel))
    decreases fuel, ss, 0
  {
    RelatedDepth(p, c, s, t, f);
    match ss
    case Nil =>
      PopNothing(s, s);
    case Cons(x, rest) =>
      var o := Lower(Intended, x, c);
      LowerFresh(p, Intended, x, c);
      SimStmt(p, x, c, s, t, f, fuel, ret);
      var a, b := Exec(p, x, s, fuel), RunList(p, o.code, t, fuel);
      var r := LowerList(Intended, rest, o.ctx);
      RunAppend(p, o.code, r.code, t, fuel);
      if a.o.Normal? && b.o.Normal? && Related(p, o.ctx, a.st, b.st, f) {
        SimList(p, rest, o.ctx, a.st, b.st, f, fuel, ret);
        MatchThen(p, c, o.ctx, r.ctx, f, s, a, b, ExecList(p, rest, a.st, fuel), RunList(p, r.code, b.st, fuel));
      }
  }

  /** A block: a scope in the source, plain code in C. */
  lemma {:induction false} SimBlock(p: Program, ss: List<Stmt>, c: Ctx, s: Src, t: Tgt, f: Freeze, fuel: nat, ret: bool)
    requires Related(p, c, s, t, f) && Contained(ss, ret)
    ensures var o := LowerBlock(Intended, ss, c);
            Match(p, c, o.ctx, f, s, ExecScope(p, ss, s, fuel), RunList(p, o.code, t, fuel))
    decreases fuel, ss, 1
  {
    var o := LowerList(Intended, ss, c);
    ListFresh(p, Intended, ss, c);
    ScopeEndSound(p, Intended, c, o);
    SimList(p, ss, c, s, t, f, fuel, ret);
    MatchPop(p, c, o.ctx, BlockEnd(Intended, c, o.ctx), f, s, ExecList(p, ss, s, fuel), RunList(p, o.code, t, fuel));
  }

  /** The body of a branch or loop: a scope in the source, braces in C. */
  lemma {:induction false} SimBody(p: Program, ss: List<Stmt>, c: Ctx, s: Src, t: Tgt, f: Freeze, fuel: nat, ret: bool)
    requires Related(p, c, s, t, f) && Contained(ss, ret)
    ensures var o := LowerBlock(Intended, ss, c);
            Match(p, c, o.ctx, f, s, ExecScope(p, ss, s, fuel), RunBraces(p, o.code, t, fuel))
    decreases fuel, ss, 1
  {
    var o := LowerList(Intended, ss, c);
    ListFresh(p, Intended, ss, c);
    ScopeEndSound(p, Intended, c, o);
    SimList(p, ss, c, s, t, f, fuel, ret);
    ListFramed(p, o.code, t, fuel);
    MatchBraces(p, c, o.ctx, BlockEnd(Intended, c, o.ctx), f, s, ExecList(p, ss, s, fuel), t,
                RunList(p, o.code, t, fuel), Declares(o.code));
  }

  lemma {:induction false} SimStmt(p: Program, x: Stmt, c: Ctx, s: Src, t: Tgt, f: Freeze, fuel: nat, ret: bool)
    requires Related(p, c, s, t, f) && ContainedIn(x, ret)
    ensures var o := Lower(Intended, x, c);
            Match(p, c, o.ctx, f, s, Exec(p, x, s, fuel), RunList(p, o.code, t, fuel))
    decreases fuel, x, 2
  {
    hide Related;
    hide Eval;
    hide EvalC;
    hide LowerE;
    RelatedCtx(p, c, s, t, f);
    match x
    case VarDef(_, NoInit) => SimDeclare(p, x, c, s, t, f, fuel);
    case VarDef(_, InitExpr(_)) => SimDeclare(p, x, c, s, t, f, fuel);
    case VarDef(_, InitTry(_)) => SimVarTry(p, x, c, s, t, f, fuel, ret);
    case Assign(_, _, _) => SimAssign(p, x, c, s, t, f, fuel);
    case AssignTry(_, _, _) => SimAssignTry(p, x, c, s, t, f, fuel, ret);
    case ExprStmt(_) => SimAssign(p, x, c, s, t, f, fuel);
    case Return(_, _) => SimReturn(p, x, c, s, t, f, fuel, ret);
    case ReturnTry(_, _) => SimReturnTry(p, x, c, s, t, f, fuel, ret);
    case Break(ds) => JumpSim(p, Broke, CBreak, ds, c, s, t, f, fuel, ret);
    case Continue(ds) => JumpSim(p, Continued, CContinue, ds, c, s, t, f, fuel, ret);
    case If(_, _, _) => SimIf(p, x, c, s, t, f, fuel, ret);
    case Switch(_, _) => SimSwitch(p, x, c, s, t, f, fuel, ret);
    case While(_, _) => SimWhile(p, x, c, s, t, f, fuel, ret);
    case DoWhile(_, _) => SimDoWhile(p, x, c, s, t, f, fuel, ret);
    case For(_, _, _, _) => SimFor(p, x, c, s, t, f, fuel, ret);
    case Block(body) => SimBlock(p, body, c, s, t, f, fuel, ret);
    case DeferDef(_, _, _) => SimDeferDef(p, x, c, s, t, f, fuel);
    case DeferCall(_, _) => SimDeferCall(p, x, c, s, t, f, fuel);
    case Decorated(_, _, _) => SimDecorated(p, x, c, s, t, f, fuel, ret);
    case LocalFn(_, _, _) => SimLocalFn(p, x, c, s, t, f, fuel);
  }

  lemma SimLocalFn(p: Program, x: Stmt, c: Ctx, s: Src, t: Tgt, f: Freeze, fuel: nat)
    requires x.LocalFn? && Related(p, c, s, t, f)
    ensures var o := Lower(Intended, x, c);
            Match(p, c, o.ctx, f, s, Exec(p, x, s, fuel), RunList(p, o.code, t, fuel))
  {
    LowerFresh(p, Intended, x, c);
    RelatedDepth(p, c, s, t, f);
    PopNothing(s, s);
    var o := Lower(Intended, x, c);
    RunSingle(p, o.code.head, t, fuel);
    RelatedGrow(p, c, o.ctx, s, t, f);
  }

  lemma SimDeclare(p: Program, x: Stmt, c: Ctx, s: Src, t: Tgt, f: Freeze, fuel: nat)
    requires x.VarDef? && !x.init.InitTry? && Related(p, c, s, t, f)
    ensures var o := Lower(Intended, x, c);
            Match(p, c, o.ctx, f, s, Exec(p, x, s, fuel), RunList(p, o.code, t, fuel))
  {
    var n, c1 := Sym(FreshName(c, x.name)), Register(c, x.name);
    RegisterGood(p, c, x.name);
    RelatedDepth(p, c, s, t, f);
    RunSingle(p, Lower(Intended, x, c).code.head, t, fuel);
    match x.init
    case NoInit =>
      var t1 := Push(n, Int(0), t);
      RelatedPush(p, c, s, t, f, n, Int(0));
      DeclareLocal(p, x.name, None, c, s, t1, f);
      DeclaredPops(x.name, None, s, s);
    case InitExpr(e) =>
      LowerSameLocals(e, c, c1.(locals := c.locals));
      DeclareSim(p, e, c, s, t, f, n, fuel);
      var a, b := Eval(p, e, s), Run(p, CVar(n, Some(LowerE(e, c))), t, fuel);
      if !(a.Halt? && a.why.Wrong?) {
        RelatedDepth(p, c, a.st, b.st, f);
        PopNothing(a.st, s);
        if a.Val? {
          DeclareLocal(p, x.name, Some(a.v), c, a.st, b.st, f);
          DeclaredPops(x.name, Some(a.v), a.st, s);
        }
      }
  }

  lemma DeclaredPops(x: string, v: Option<int>, s1: Src, s: Src)
    requires SameDepth(s1, s)
    ensures PopTo(Declare(x, v, s1), s) == s1
  {
    PopNothing(s1, s);
  }

  /** Expressions only depend on the visible locals and the captured values. */
  lemma {:induction false} LowerSameLocals(e: Expr, c: Ctx, c': Ctx)
    requires c.locals == c'.locals && c.env == c'.env && c.prefix == c'.prefix
    ensures LowerE(e, c) == LowerE(e, c')
    decreases e
  {
    match e
    case Unary(_, a) => LowerSameLocals(a, c, c');
    case Binary(_, a, b) =>
      LowerSameLocals(a, c, c');
      LowerSameLocals(b, c, c');
    case Call(_, args) => LowerSameArgs(args, c, c');
    case AssignE(_, _, a) => LowerSameLocals(a, c, c');
    case Ternary(q, a, b) =>
      LowerSameLocals(q, c, c');
      LowerSameLocals(a, c, c');
      LowerSameLocals(b, c, c');
    case _ =>
  }

  lemma {:induction false} LowerSameArgs(es: List<Expr>, c: Ctx, c': Ctx)
    requires c.locals == c'.locals && c.env == c'.env && c.prefix == c'.prefix
    ensures LowerArgs(es, c) == LowerArgs(es, c')
    decreases es
  {
    if es.Cons? {
      LowerSameLocals(es.head, c, c');
      LowerSameArgs(es.tail, c, c');
    }
  }

  /** `var v = e.?;`: v is declared first, bound only on success. */
  lemma {:induction false} SimVarTry(p: Program, x: Stmt, c: Ctx, s: Src, t: Tgt, f: Freeze, fuel: nat, ret: bool)
    requires x.VarDef? && x.init.InitTry? && Related(p, c, s, t, f) && ContainedIn(x, ret)
    ensures var o := Lower(Intended, x, c);
            Match(p, c, o.ctx, f, s, Exec(p, x, s, fuel), RunList(p, o.code, t, fuel))
    decreases fuel, x, 1
  {
    var y := x.init.t;
    var n, c1 := Sym(FreshName(c, x.name)), Register(c, x.name);
    var ci := c1.(locals := c.locals);
    RegisterGood(p, c, x.name);
    RelatedDepth(p, c, s, t, f);
    var t1 := Push(n, Int(0), t);
    RelatedPush(p, c, s, t, f, n, Int(0));
    RelatedGrow(p, c, ci, s, t1, f);
    RelatedFreeze(p, ci, s, t1, f, n, Int(0));
    var g := f[n := Int(0)];
    var pre := LowerTryPrefix(Intended, y, ci);
    TryFresh(p, Intended, y, ci);
    ScopeEndSound(p, Intended, ci, pre);
    TrySim(p, y, ci, s, t1, g, fuel, ret);
    var a, b := TryPrefix(p, y, s, fuel), RunList(p, pre.code, t1, fuel);
    var store := StoreIn(n, x.name, LowerE(y.value, pre.ctx));
    var body := Append(pre.code, Single(store));
    RunAppend(p, pre.code, Single(store), t1, fuel);
    var src := ExecTry(p, y, s, fuel);
    var z := RunList(p, body, t1, fuel);
    if a.o.Normal? {
      TryValueSim(p, y, ci, s, a, b.st, g, fuel);
      StoreFresh(p, x.name, y, ci, s, a, b.st, f, n, fuel);
    }
    assert (src.Halt? && src.why.Wrong?)
      || (&& Related(p, ci, src.st, z.st, f)
          && (src.Halt? ==> z.o == src.why && !z.o.Normal?)
          && (src.Val? ==> z.o.Normal? && SlotOk(Bound(x.name, src.v), Lookup(z.st.env, n)))) by {
      if !a.o.Normal? && !a.o.Wrong? {
        assert n !in f;
        RelatedThaw(p, ci, PopTo(a.st, s), z.st, f, n, Int(0));
      }
    }
    VarTryBraces(p, x, c, s, t, f, fuel, src, z);
  }

  /** What a new variable holds after success; the discard target holds nothing. */
  function Bound(x: string, v: int): Option<int> { if x == DISCARD then None else Some(v) }

  /** Binding the success value to the new variable. */
  lemma StoreFresh(p: Program, x: string, y: Try, c: Ctx, s: Src, a: Ans<Src>, t1: Tgt, f: Freeze, n: CName, fuel: nat)
    requires GoodCtx(p, c) && FrozenOk(c, f) && n !in f && n.Sym?
    requires n.text in c.decls && n.text !in CNames(c.locals)
    requires Len(s.vars) == Len(c.locals) && Len(s.clos) == Len(c.defers)
    requires Related(p, LowerTryPrefix(Intended, y, c).ctx, a.st, t1, f[n := Int(0)])
    ensures var o := LowerTryPrefix(Intended, y, c);
            var r := Eval(p, y.value, a.st);
            var z := RunList(p, Single(StoreIn(n, x, LowerE(y.value, o.ctx))), t1, fuel);
            || (r.Halt? && r.why.Wrong?)
            || (r.Halt? && z.o == r.why && !z.o.Normal? && Related(p, c, PopTo(r.st, s), z.st, f))
            || (r.Val? && z.o.Normal? && Related(p, c, PopTo(r.st, s), z.st, f)
                && SlotOk(Bound(x, r.v), Lookup(z.st.env, n)))
  {
    hide Eval;
    hide LowerE;
    hide LowerTryPrefix;
    var g := f[n := Int(0)];
    var o := LowerTryPrefix(Intended, y, c);
    assert FrozenOk(c, g);
    TryValueSim(p, y, c, s, a, t1, g, fuel);
    var store := StoreIn(n, x, LowerE(y.value, o.ctx));
    RunSingle(p, store, t1, fuel);
    var r, rc := Eval(p, y.value, a.st), EvalC(p, LowerE(y.value, o.ctx), t1);
    if !(r.Halt? && r.why.Wrong?) {
      var s1 := PopTo(r.st, s);
      assert n in g;
      RelatedThaw(p, c, s1, rc.st, f, n, Int(0));
      if r.Val? && x != DISCARD {
        BindOutside(p, c, s1, rc.st, f, n, r.v);
      }
    }
  }

  lemma BindOutside(p: Program, c: Ctx, s: Src, t: Tgt, f: Freeze, n: CName, v: int)
    requires Related(p, c, s, t, f) && n !in f && n.Sym? && n.text !in CNames(c.locals)
    requires Lookup(t.env, n).Some?
    ensures var t' := t.(env := Update(t.env, n, Int(v)));
            Related(p, c, s, t', f) && Lookup(t'.env, n) == Some(Int(v))
  {
    var t' := t.(env := Update(t.env, n, Int(v)));
    forall d
      ensures Lookup(t'.env, d) == if d == n then Some(Int(v)) else Lookup(t.env, d)
    {
      LookupUpdate(t.env, n, Int(v), d);
    }
    AgreeElsewhere(c.locals, s.vars, t.env, t'.env);
    ClosElsewhere(c.defers, s.clos, t.env, t'.env, c.deferSeq);
  }

  /** Closing the braces around the store, then declaring the variable. */
  lemma {:induction false} VarTryBraces(p: Program, x: Stmt, c: Ctx, s: Src, t: Tgt, f: Freeze, fuel: nat,
          src: Ev<Src>, z: Ans<Tgt>)
    requires x.VarDef? && x.init.InitTry? && Related(p, c, s, t, f)
    requires src == ExecTry(p, x.init.t, s, fuel)
    requires var n := Sym(FreshName(c, x.name));
             var ci := Register(c, x.name).(locals := c.locals);
             var pre := LowerTryPrefix(Intended, x.init.t, ci);
             && z == RunList(p, Append(pre.code, Single(StoreIn(n, x.name, LowerE(x.init.t.value, pre.ctx)))),
                     Push(n, Int(0), t), fuel)
             && ((src.Halt? && src.why.Wrong?)
                 || (&& Related(p, ci, src.st, z.st, f)
                     && (src.Halt? ==> z.o == src.why && !z.o.Normal?)
                     && (src.Val? ==> z.o.Normal? && SlotOk(Bound(x.name, src.v), Lookup(z.st.env, n)))))
    ensures var o := Lower(Intended, x, c);
            Match(p, c, o.ctx, f, s, Exec(p, x, s, fuel), RunList(p, o.code, t, fuel))
  {
    hide FreshName;
    hide LowerE;
    hide StoreIn;
    hide Eval;
    hide EvalC;
    hide LoopC;
    hide Loop;
    var y := x.init.t;
    var n, c1 := Sym(FreshName(c, x.name)), Register(c, x.name);
    var ci := c1.(locals := c.locals);
    var pre := LowerTryPrefix(Intended, y, ci);
    var body := Append(pre.code, Single(StoreIn(n, x.name, LowerE(y.value, pre.ctx))));
    var o := Lower(Intended, x, c);
    assert o == Out(BlockEnd(Intended, c1, pre.ctx), Cons(CVar(n, None), Single(CBlock(body))));
    LowerFresh(p, Intended, x, c);
    var t1 := Push(n, Int(0), t);
    RunSingle(p, CBlock(body), t1, fuel);
    RunCons(p, CVar(n, None), Single(CBlock(body)), t, fuel);
    var u := PopBrace(z.st, t1);
    assert RunList(p, o.code, t, fuel) == Ans(z.o, u);
    if !(src.Halt? && src.why.Wrong?) {
      TryPops(p, y, s, fuel);
      VarTryPopped(p, x, c, t, f, fuel, src.st, z.st);
      RelatedDepth(p, c, s, t, f);
      RelatedDepth(p, c, src.st, u, f);
      if src.Val? {
        var v := Bound(x.name, src.v);
        DeclareLocal(p, x.name, v, c, src.st, u, f);
        DeclaredPops(x.name, v, src.st, s);
        RegisterGood(p, c, x.name);
        TryFresh(p, Intended, y, ci);
        RelatedGrow(p, c1, o.ctx, Declare(x.name, v, src.st), u, f);
      }
    }
  }

  lemma VarTryPopped(p: Program, x: Stmt, c: Ctx, t: Tgt, f: Freeze, fuel: nat, s': Src, z: Tgt)
    requires x.VarDef? && x.init.InitTry? && GoodCtx(p, c) && FrozenOk(c, f)
    requires var n := Sym(FreshName(c, x.name));
             var ci := Register(c, x.name).(locals := c.locals);
             var pre := LowerTryPrefix(Intended, x.init.t, ci);
             && z == RunList(p, Append(pre.code, Single(StoreIn(n, x.name, LowerE(x.init.t.value, pre.ctx)))),
                     Push(n, Int(0), t), fuel).st
             && Related(p, ci, s', z, f)
    ensures var n := Sym(FreshName(c, x.name));
            var u := PopBrace(z, Push(n, Int(0), t));
            Related(p, c, s', u, f) && Lookup(u.env, n) == Lookup(z.env, n)
  {
    var y := x.init.t;
    var n, c1 := Sym(FreshName(c, x.name)), Register(c, x.name);
    var ci := c1.(locals := c.locals);
    RegisterGood(p, c, x.name);
    TryFresh(p, Intended, y, ci);
    var pre := LowerTryPrefix(Intended, y, ci);
    var store := StoreIn(n, x.name, LowerE(y.value, pre.ctx));
    var body := Append(pre.code, Single(store));
    var t1 := Push(n, Int(0), t);
    ListFramed(p, body, t1, fuel);
    FreshExpr(ci, pre.ctx, pre.code, store);
    assert n !in Declares(body) by {
      assert Used(ci, n);
    }
    RelatedBrace(p, ci, s', t1, z, f, Declares(body));
    LookupKeep(z.env, Len(t1.env), n);
    RelatedShrink(p, c, ci, s', PopBrace(z, t1), f);
  }

  lemma SimAssign(p: Program, x: Stmt, c: Ctx, s: Src, t: Tgt, f: Freeze, fuel: nat)
    requires x.Assign? || x.ExprStmt?
    requires Related(p, c, s, t, f)
    ensures var o := Lower(Intended, x, c);
            Match(p, c, o.ctx, f, s, Exec(p, x, s, fuel), RunList(p, o.code, t, fuel))
  {
    hide Related;
    hide Store;
    hide StoreC;
    RelatedDepth(p, c, s, t, f);
    RelatedCtx(p, c, s, t, f);
    var o := Lower(Intended, x, c);
    RunSingle(p, o.code.head, t, fuel);
    var e := if x.Assign? then x.value else x.e;
    EvalSim(p, e, c, s, t, f);
    var r, rc := Eval(p, e, s), EvalC(p, LowerE(e, c), t);
    if x.Assign? && x.name != DISCARD && r.Val? {
      StoreSim(p, x.name, x.aop, r.v, c, r.st, rc.st, f);
    }
    MatchFlat(p, c, f, s, Exec(p, x, s, fuel), RunList(p, o.code, t, fuel));
  }

  /** `x = e.?;`: the target is untouched on failure. */
  lemma {:induction false} SimAssignTry(p: Program, x: Stmt, c: Ctx, s: Src, t: Tgt, f: Freeze, fuel: nat, ret: bool)
    requires x.AssignTry? && Related(p, c, s, t, f) && ContainedIn(x, ret)
    ensures var o := Lower(Intended, x, c);
            Match(p, c, o.ctx, f, s, Exec(p, x, s, fuel), RunList(p, o.code, t, fuel))
    decreases fuel, x, 1
  {
    var pre := LowerTryPrefix(Intended, x.t, c);
    var w := BlockEnd(Intended, c, pre.ctx);
    var store := LowerAssign(x.name, x.aop, LowerE(x.t.value, pre.ctx), w);
    var o := Out(w, Single(CBlock(Append(pre.code, Single(store)))));
    assert Lower(Intended, x, c) == o;
    LowerFresh(p, Intended, x, c);
    AssignTryPops(p, x, s, fuel);
    var a, b := TryPrefix(p, x.t, s, fuel), RunList(p, pre.code, t, fuel);
    if a.o.Normal? && Related(p, pre.ctx, a.st, b.st, f) {
      SimTryStore(p, x, c, s, a, t, b.st, f, fuel);
    }
    TryBlock(p, x.t, c, o, Single(store), Exec(p, x, s, fuel), s, t, f, fuel, ret);
  }

  /** What an assignment does once the value of its try is known. */
  function StoreRun(p: Program, x: Stmt, r: Ev<Src>, s: Src): Ans<Src>
    requires x.AssignTry?
  {
    if r.Halt? then Ans(r.why, PopTo(r.st, s))
    else if x.name == DISCARD then Ans(Normal, PopTo(r.st, s))
    else AsStmt(Store(p, x.name, x.aop, r.v, PopTo(r.st, s)))
  }

  lemma StoreShape(p: Program, x: Stmt, s: Src, fuel: nat)
    requires x.AssignTry? && TryPrefix(p, x.t, s, fuel).o.Normal?
    ensures Exec(p, x, s, fuel) == StoreRun(p, x, Eval(p, x.t.value, TryPrefix(p, x.t, s, fuel).st), s)
  {
    hide Eval;
    hide TryPrefix;
    hide Store;
  }

  lemma SimTryStore(p: Program, x: Stmt, c: Ctx, s: Src, a: Ans<Src>, t: Tgt, t1: Tgt, f: Freeze, fuel: nat)
    requires x.AssignTry? && Related(p, c, s, t, f)
    requires a == TryPrefix(p, x.t, s, fuel) && a.o.Normal?
    requires Related(p, LowerTryPrefix(Intended, x.t, c).ctx, a.st, t1, f)
    ensures var pre := LowerTryPrefix(Intended, x.t, c);
            var w := BlockEnd(Intended, c, pre.ctx);
            var store := LowerAssign(x.name, x.aop, LowerE(x.t.value, pre.ctx), w);
            Match(p, c, w, f, s, Exec(p, x, s, fuel), RunList(p, Single(store), t1, fuel))
  {
    hide Related;
    hide GoodCtx;
    hide FrozenOk;
    hide Exec;
    hide Eval;
    hide LowerE;
    hide LowerTryPrefix;
    hide TryPrefix;
    var pre := LowerTryPrefix(Intended, x.t, c);
    var w := BlockEnd(Intended, c, pre.ctx);
    var store := LowerAssign(x.name, x.aop, LowerE(x.t.value, pre.ctx), w);
    RunSingle(p, store, t1, fuel);
    RelatedDepth(p, c, s, t, f);
    RelatedCtx(p, c, s, t, f);
    TryValueSim(p, x.t, c, s, a, t1, f, fuel);
    var r, rc := Eval(p, x.t.value, a.st), EvalC(p, LowerE(x.t.value, pre.ctx), t1);
    StoreShape(p, x, s, fuel);
    AssignTryPops(p, x, s, fuel);
    var src, z := Exec(p, x, s, fuel), Run(p, store, t1, fuel);
    if r.Val? && x.name != DISCARD {
      StoreSim(p, x.name, x.aop, r.v, w, PopTo(r.st, s), rc.st, f);
    }
    if !src.o.Wrong? {
      assert src.o == z.o && Related(p, w, src.st, z.st, f);
      RelatedDepth(p, w, src.st, z.st, f);
      RelatedPop(p, c, w, s, src.st, z.st, f);
    }
  }

  lemma {:induction false} SimReturn(p: Program, x: Stmt, c: Ctx, s: Src, t: Tgt, f: Freeze, fuel: nat, ret: bool)
    requires x.Return? && Related(p, c, s, t, f) && ContainedIn(x, ret)
    ensures var o := Lower(Intended, x, c);
            Match(p, c, o.ctx, f, s, Exec(p, x, s, fuel), RunList(p, o.code, t, fuel))
    decreases fuel, x, 1
  {
    RelatedDepth(p, c, s, t, f);
    PopNothing(s, s);
    match x.result
    case None =>
      assert LowerReturn(Intended, None, x.defers, c) == LowerJump(Intended, CReturn(None), x.defers, c);
      JumpSim(p, Returned(None), CReturn(None), x.defers, c, s, t, f, fuel, ret);
    case Some(e) =>
      ReturnSim(p, e, x.defers, c, c, s, s, t, f, fuel, ret);
      var a := Eval(p, e, s);
      EvalSim(p, e, c, s, t, f);
      if !(a.Halt? && a.why.Wrong?) {
        RelatedDepth(p, c, a.st, EvalC(p, LowerE(e, c), t).st, f);
        PopNothing(a.st, s);
      }
  }

  lemma {:induction false} SimReturnTry(p: Program, x: Stmt, c: Ctx, s: Src, t: Tgt, f: Freeze, fuel: nat, ret: bool)
    requires x.ReturnTry? && Related(p, c, s, t, f) && ContainedIn(x, ret)
    ensures var o := Lower(Intended, x, c);
            Match(p, c, o.ctx, f, s, Exec(p, x, s, fuel), RunList(p, o.code, t, fuel))
    decreases fuel, x, 1
  {
    var pre := LowerTryPrefix(Intended, x.t, c);
    var w := BlockEnd(Intended, c, pre.ctx);
    var r := LowerReturn(Intended, Some(LowerE(x.t.value, pre.ctx)), x.defers, w);
    var o := Out(BlockEnd(Intended, c, r.ctx), Single(CBlock(Append(pre.code, r.code))));
    assert Lower(Intended, x, c) == o;
    LowerFresh(p, Intended, x, c);
    ReturnTryPops(p, x, s, fuel);
    var a, b := TryPrefix(p, x.t, s, fuel), RunList(p, pre.code, t, fuel);
    if a.o.Normal? && Related(p, pre.ctx, a.st, b.st, f) {
      SimTryReturn(p, x, c, s, a, t, b.st, f, fuel, ret);
    }
    TryBlock(p, x.t, c, o, r.code, Exec(p, x, s, fuel), s, t, f, fuel, ret);
  }

  lemma {:induction false} SimTryReturn(p: Program, x: Stmt, c: Ctx, s: Src, a: Ans<Src>, t: Tgt, t1: Tgt, f: Freeze,
          fuel: nat, ret: bool)
    requires x.ReturnTry? && Related(p, c, s, t, f) && ContainedIn(x, ret)
    requires a == TryPrefix(p, x.t, s, fuel) && a.o.Normal?
    requires Related(p, LowerTryPrefix(Intended, x.t, c).ctx, a.st, t1, f)
    ensures var pre := LowerTryPrefix(Intended, x.t, c);
            var r := LowerReturn(Intended, Some(LowerE(x.t.value, pre.ctx)), x.defers, BlockEnd(Intended, c, pre.ctx));
            Match(p, c, BlockEnd(Intended, c, r.ctx), f, s, Exec(p, x, s, fuel), RunList(p, r.code, t1, fuel))
    decreases fuel, x, 0
  {
    var pre := LowerTryPrefix(Intended, x.t, c);
    var w := BlockEnd(Intended, c, pre.ctx);
    var v := Some(LowerE(x.t.value, pre.ctx));
    var r := LowerReturn(Intended, v, x.defers, w);
    TryFresh(p, Intended, x.t, c);
    ScopeEndSound(p, Intended, c, pre);
    ReturnFresh(p, Intended, v, x.defers, w);
    RelatedDepth(p, c, s, t, f);
    RelatedPop(p, c, pre.ctx, s, a.st, t1, f);
    RelatedGrow(p, c, w, PopTo(a.st, s), t1, f);
    RelatedDepth(p, w, PopTo(a.st, s), t1, f);
    ReturnSim(p, x.t.value, x.defers, pre.ctx, w, s, a.st, t1, f, fuel, ret);
    var src := ReturnRun(p, Eval(p, x.t.value, a.st), x.defers, s, fuel);
    assert Exec(p, x, s, fuel) == src;
    assert BlockEnd(Intended, c, r.ctx) == r.ctx;
    MatchBase(p, c, w, r.ctx, f, s, src, RunList(p, r.code, t1, fuel));
  }

  /** A try leaves no scope of its own behind. */
  lemma TryPops(p: Program, y: Try, s: Src, fuel: nat)
    ensures var r := ExecTry(p, y, s, fuel); PopTo(r.st, s) == r.st
  {
    var a := TryPrefix(p, y, s, fuel);
    var z := if a.o.Normal? then Eval(p, y.value, a.st).st else a.st;
    assert ExecTry(p, y, s, fuel).st == PopTo(z, s);
    KeepKeep(z.vars, Len(s.vars), Len(s.vars));
    KeepKeep(z.clos, Len(s.clos), Len(s.clos));
  }

  lemma AssignTryPops(p: Program, x: Stmt, s: Src, fuel: nat)
    requires x.AssignTry?
    ensures var a := Exec(p, x, s, fuel); PopTo(a.st, s) == a.st
  {
    var r := ExecTry(p, x.t, s, fuel);
    TryPops(p, x.t, s, fuel);
    KeptLen(r.st, s);
    if r.Val? && x.name != DISCARD {
      var q := Store(p, x.name, x.aop, r.v, r.st);
      if q.Val? {
        SetSlotLen(r.st.vars, x.name, q.v);
      }
      KeptLen(q.st, s);
    }
  }

  lemma ReturnTryPops(p: Program, x: Stmt, s: Src, fuel: nat)
    requires x.ReturnTry?
    ensures var a := Exec(p, x, s, fuel); PopTo(a.st, s) == a.st
  {
    var r := ExecTry(p, x.t, s, fuel);
    TryPops(p, x.t, s, fuel);
    KeptLen(r.st, s);
    if r.Val? {
      var z := ExitWith(p, Returned(Some(r.v)), x.defers, r.st, fuel);
      ExitPops(p, Returned(Some(r.v)), x.defers, r.st, fuel);
      KeptLen(z.st, r.st);
      KeptLen(z.st, s);
    }
  }

  /** The else part of an if, lowered after the then part. */
  function LowerElse(els: Else, c: Ctx): Out {
    match els
    case NoElse => Out(c, Nil)
    case ElseBlock(b) => LowerBlock(Intended, b, c)
    case ElseIf(y) => var o := Lower(Intended, y, c); Out(BlockEnd(Intended, c, o.ctx), o.code)
  }

  function ElseRun(p: Program, els: Else, s: Src, fuel: nat): Ans<Src> {
    match els
    case NoElse => Ans(Normal, s)
    case ElseBlock(b) => ExecScope(p, b, s, fuel)
    case ElseIf(y) => var a := Exec(p, y, s, fuel); Ans(a.o, PopTo(a.st, s))
  }

  predicate ContainedElse(els: Else, ret: bool) {
    match els
    case NoElse => true
    case ElseBlock(b) => Contained(b, ret)
    case ElseIf(y) => ContainedIn(y, ret)
  }

  lemma {:induction false} SimElse(p: Program, els: Else, c: Ctx, s: Src, t: Tgt, f: Freeze, fuel: nat, ret: bool)
    requires Related(p, c, s, t, f) && ContainedElse(els, ret)
    ensures var o := LowerElse(els, c);
            Match(p, c, o.ctx, f, s, ElseRun(p, els, s, fuel), RunBraces(p, o.code, t, fuel))
    decreases fuel, els, 3
  {
    RelatedDepth(p, c, s, t, f);
    match els
    case NoElse =>
      PopNothing(s, s);
      assert RunBraces(p, Nil, t, fuel) == Ans(Normal, t);
    case ElseBlock(b) => SimBody(p, b, c, s, t, f, fuel, ret);
    case ElseIf(y) =>
      var o := Lower(Intended, y, c);
      LowerFresh(p, Intended, y, c);
      ScopeEndSound(p, Intended, c, o);
      SimStmt(p, y, c, s, t, f, fuel, ret);
      ListFramed(p, o.code, t, fuel);
      MatchBraces(p, c, o.ctx, BlockEnd(Intended, c, o.ctx), f, s, Exec(p, y, s, fuel), t,
                  RunList(p, o.code, t, fuel), Declares(o.code));
  }

  lemma {:induction false} ElseFresh(p: Program, els: Else, c: Ctx, ret: bool)
    requires GoodCtx(p, c) && ContainedElse(els, ret)
    ensures Sound(p, Intended, c, LowerElse(els, c))
    ensures LowerElse(els, c).ctx.locals == c.locals && LowerElse(els, c).ctx.defers == c.defers
  {
    match els
    case NoElse => FreshNil(c, c);
    case ElseBlock(b) => BlockFresh(p, Intended, b, c);
    case ElseIf(y) =>
      LowerFresh(p, Intended, y, c);
      ScopeEndSound(p, Intended, c, Lower(Intended, y, c));
  }

  lemma {:induction false} SimIf(p: Program, x: Stmt, c: Ctx, s: Src, t: Tgt, f: Freeze, fuel: nat, ret: bool)
    requires x.If? && Related(p, c, s, t, f) && ContainedIn(x, ret)
    ensures var o := Lower(Intended, x, c);
            Match(p, c, o.ctx, f, s, Exec(p, x, s, fuel), RunList(p, o.code, t, fuel))
    decreases fuel, x, 1
  {
    var a := LowerBlock(Intended, x.body, c);
    var b := LowerElse(x.els, a.ctx);
    var i := CIf(LowerE(x.cond, c), a.code, b.code);
    assert Lower(Intended, x, c) == Out(b.ctx, Single(i));
    assert ContainedElse(x.els, ret) && Contained(x.body, ret);
    assert Exec(p, x, s, fuel) == BranchRun(p, x, Eval(p, x.cond, s), fuel);
    BlockFresh(p, Intended, x.body, c);
    ElseFresh(p, x.els, a.ctx, ret);
    RunSingle(p, i, t, fuel);
    EvalSim(p, x.cond, c, s, t, f);
    SimBranch(p, x, c, s, t, f, fuel, ret);
  }

  function BranchRun(p: Program, x: Stmt, r: Ev<Src>, fuel: nat): Ans<Src>
    requires x.If?
  {
    match r
    case Halt(why, s) => Ans(why, s)
    case Val(v, s) => if v != 0 then ExecScope(p, x.body, s, fuel) else ElseRun(p, x.els, s, fuel)
  }

  lemma {:induction false} SimBranch(p: Program, x: Stmt, c: Ctx, s: Src, t: Tgt, f: Freeze, fuel: nat, ret: bool)
    requires x.If? && Related(p, c, s, t, f) && Contained(x.body, ret) && ContainedElse(x.els, ret)
    ensures var a := LowerBlock(Intended, x.body, c);
            var b := LowerElse(x.els, a.ctx);
            Match(p, c, b.ctx, f, s, BranchRun(p, x, Eval(p, x.cond, s), fuel),
                  Run(p, CIf(LowerE(x.cond, c), a.code, b.code), t, fuel))
    decreases fuel, x, 0
  {
    hide Exec;
    hide Lower;
    hide LowerE;
    var a := LowerBlock(Intended, x.body, c);
    var b := LowerElse(x.els, a.ctx);
    BlockFresh(p, Intended, x.body, c);
    ElseFresh(p, x.els, a.ctx, ret);
    RelatedDepth(p, c, s, t, f);
    EvalSim(p, x.cond, c, s, t, f);
    var r, rc := Eval(p, x.cond, s), EvalC(p, LowerE(x.cond, c), t);
    if r.Halt? && r.why.Wrong? {
    } else {
      RelatedDepth(p, c, r.st, rc.st, f);
      PopNothing(r.st, s);
      if r.Val? && r.v != 0 {
        SimBody(p, x.body, c, r.st, rc.st, f, fuel, ret);
        MatchGrow(p, c, a.ctx, b.ctx, f, r.st, ExecScope(p, x.body, r.st, fuel), RunBraces(p, a.code, rc.st, fuel));
      } else if r.Val? {
        RelatedGrow(p, c, a.ctx, r.st, rc.st, f);
        SimElse(p, x.els, a.ctx, r.st, rc.st, f, fuel, ret);
        MatchBase(p, c, a.ctx, b.ctx, f, r.st, ElseRun(p, x.els, r.st, fuel), RunBraces(p, b.code, rc.st, fuel));
      }
    }
  }

  /** The if-chain over the saved value of a switch. */
  lemma {:induction false} SimArms(p: Program, v: int, tmp: CName, arms: Arms, c: Ctx, s: Src, t: Tgt, f: Freeze,
          fuel: nat, ret: bool)
    requires Related(p, c, s, t, f) && ContainedArms(arms, ret)
    requires tmp in f && f[tmp] == Int(v)
    ensures var o := LowerArms(Intended, tmp, arms, c);
            Match(p, c, o.ctx, f, s, Select(p, v, arms, s, fuel), RunList(p, o.code, t, fuel))
    decreases fuel, arms, 2
  {
    hide Related;
    hide GoodCtx;
    hide FrozenOk;
    RelatedDepth(p, c, s, t, f);
    RelatedCtx(p, c, s, t, f);
    PopNothing(s, s);
    match arms
    case Default(None) =>
    case Default(Some(body)) => SimBlock(p, body, c, s, t, f, fuel, ret);
    case Arm(Nil, _, rest) => SimArms(p, v, tmp, rest, c, s, t, f, fuel, ret);
    case Arm(Cons(e, es), body, rest) =>
      var a := LowerBlock(Intended, body, c);
      BlockFresh(p, Intended, body, c);
      var b := LowerArms(Intended, tmp, rest, a.ctx);
      ArmsFresh(p, Intended, tmp, rest, a.ctx);
      ArmsFresh(p, Intended, tmp, arms, c);
      var cond := OrChain(PatternTest(tmp, e, c), tmp, es, c);
      RunSingle(p, CIf(cond, a.code, b.code), t, fuel);
      BranchSim(p, v, tmp, e, es, c, s, t, f);
      var r, rc := Matches(p, v, Cons(e, es), s), EvalC(p, cond, t);
      if r.Halt? && r.why.Wrong? {
      } else {
        RelatedDepth(p, c, r.st, rc.st, f);
        PopNothing(r.st, s);
        if r.Val? && r.v != 0 {
          SimBody(p, body, c, r.st, rc.st, f, fuel, ret);
          ArmsLevel(tmp, rest, a.ctx);
          MatchGrow(p, c, a.ctx, b.ctx, f, r.st, ExecScope(p, body, r.st, fuel), RunBraces(p, a.code, rc.st, fuel));
        } else if r.Val? {
          RelatedGrow(p, c, a.ctx, r.st, rc.st, f);
          SimArms(p, v, tmp, rest, a.ctx, r.st, rc.st, f, fuel, ret);
          ArmsLevel(tmp, rest, a.ctx);
          var x, z := Select(p, v, rest, r.st, fuel), RunList(p, b.code, rc.st, fuel);
          MatchBase(p, c, a.ctx, b.ctx, f, r.st, x, z);
          ListFramed(p, b.code, rc.st, fuel);
          SelectPops(p, v, rest, r.st, fuel);
          assert forall n :: n in Declares(b.code) ==> !Used(c, n) by {
            assert Grows(c, a.ctx);
          }
          MatchBraces(p, c, b.ctx, b.ctx, f, r.st, x, rc.st, z, Declares(b.code));
        }
      }
  }

  /** A switch opens no scope that outlives it. */
  lemma {:induction false} ArmsLevel(tmp: CName, arms: Arms, c: Ctx)
    ensures var o := LowerArms(Intended, tmp, arms, c).ctx; o.locals == c.locals && o.defers == c.defers
    decreases arms
  {
    match arms
    case Default(_) =>
    case Arm(Nil, _, rest) => ArmsLevel(tmp, rest, c);
    case Arm(Cons(_, _), body, rest) => ArmsLevel(tmp, rest, LowerBlock(Intended, body, c).ctx);
  }

  lemma {:induction false} SelectPops(p: Program, v: int, arms: Arms, s: Src, fuel: nat)
    ensures var a := Select(p, v, arms, s, fuel); PopTo(a.st, s) == a.st
    decreases arms
  {
    PopNothing(s, s);
    match arms
    case Default(None) =>
    case Default(Some(body)) => ScopePops(p, body, s, fuel);
    case Arm(es, body, rest) =>
      MatchesDepth(p, v, es, s);
      var r := Matches(p, v, es, s);
      PopNothing(r.st, s);
      ScopePops(p, body, r.st, fuel);
      SelectPops(p, v, rest, r.st, fuel);
  }

  lemma ScopePops(p: Program, ss: List<Stmt>, s: Src, fuel: nat)
    ensures var a := ExecScope(p, ss, s, fuel); PopTo(a.st, s) == a.st
  {
    var a := ExecList(p, ss, s, fuel);
    KeepKeep(a.st.vars, Len(s.vars), Len(s.vars));
    KeepKeep(a.st.clos, Len(s.clos), Len(s.clos));
  }

  lemma SwitchShape(p: Program, x: Stmt, c: Ctx, s: Src, fuel: nat)
    requires x.Switch?
    ensures var n := SwitchTmp(c.switchSeq);
            var arms := LowerArms(Intended, n, x.arms, c.(switchSeq := c.switchSeq + 1));
            Lower(Intended, x, c) == Out(arms.ctx, Single(CBlock(Cons(CVar(n, Some(LowerE(x.cond, c))), arms.code))))
    ensures var r := Eval(p, x.cond, s);
            Exec(p, x, s, fuel) == if r.Halt? then Ans(r.why, r.st) else Select(p, r.v, x.arms, r.st, fuel)
  {
    hide Eval;
    hide LowerE;
    hide LowerArms;
    hide Select;
  }

  lemma {:induction false} SimSwitch(p: Program, x: Stmt, c: Ctx, s: Src, t: Tgt, f: Freeze, fuel: nat, ret: bool)
    requires x.Switch? && Related(p, c, s, t, f) && ContainedIn(x, ret)
    ensures var o := Lower(Intended, x, c);
            Match(p, c, o.ctx, f, s, Exec(p, x, s, fuel), RunList(p, o.code, t, fuel))
    decreases fuel, x, 1
  {
    hide Related;
    hide Exec;
    hide Lower;
    hide LowerE;
    hide LowerArms;
    hide Eval;
    hide Select;
    RelatedCtx(p, c, s, t, f);
    RelatedDepth(p, c, s, t, f);
    var c1, n := c.(switchSeq := c.switchSeq + 1), SwitchTmp(c.switchSeq);
    var arms, decl := LowerArms(Intended, n, x.arms, c1), CVar(n, Some(LowerE(x.cond, c)));
    var o := Out(arms.ctx, Single(CBlock(Cons(decl, arms.code))));
    SwitchShape(p, x, c, s, fuel);
    LowerFresh(p, Intended, x, c);
    ArmsFresh(p, Intended, n, x.arms, c1);
    ArmsLevel(n, x.arms, c1);
    DeclareSim(p, x.cond, c, s, t, f, n, fuel);
    var r, b := Eval(p, x.cond, s), Run(p, decl, t, fuel);
    var src, z := Exec(p, x, s, fuel), RunList(p, Cons(decl, arms.code), t, fuel);
    RunCons(p, decl, arms.code, t, fuel);
    EvalDepth(p, x.cond, s);
    if !(r.Halt? && r.why.Wrong?) {
      PopNothing(r.st, s);
      if r.Val? {
        SwitchRest(p, r.v, n, x.arms, c, r.st, b.st, f, fuel, ret);
        SelectPops(p, r.v, x.arms, r.st, fuel);
      }
      BlockCodeSim(p, c, o, Cons(decl, arms.code), src, s, t, f, fuel);
    }
  }

  /** The branches, once the value is saved. */
  lemma {:induction false} SwitchRest(p: Program, v: int, n: CName, arms: Arms, c: Ctx, s: Src, t: Tgt, f: Freeze,
          fuel: nat, ret: bool)
    requires Related(p, c, s, t, f) && ContainedArms(arms, ret)
    requires n == SwitchTmp(c.switchSeq) && Lookup(t.env, n) == Some(Int(v))
    ensures var o := LowerArms(Intended, n, arms, c.(switchSeq := c.switchSeq + 1));
            Match(p, c, o.ctx, f, s, Select(p, v, arms, s, fuel), RunList(p, o.code, t, fuel))
    decreases fuel, arms, 3
  {
    hide Related;
    hide LowerArms;
    hide Select;
    RelatedCtx(p, c, s, t, f);
    var c1 := c.(switchSeq := c.switchSeq + 1);
    var o := LowerArms(Intended, n, arms, c1);
    RelatedGrow(p, c, c1, s, t, f);
    RelatedFreeze(p, c1, s, t, f, n, Int(v));
    SimArms(p, v, n, arms, c1, s, t, f[n := Int(v)], fuel, ret);
    assert !Used(c, n) && n !in f;
    var src, z := Select(p, v, arms, s, fuel), RunList(p, o.code, t, fuel);
    MatchThaw(p, c1, o.ctx, f, n, Int(v), s, src, z);
    MatchBase(p, c, c1, o.ctx, f, s, src, z);
  }

  lemma MatchThaw(p: Program, c: Ctx, c': Ctx, f: Freeze, n: CName, v: Value, s: Src, a: Ans<Src>, b: Ans<Tgt>)
    requires Match(p, c, c', f[n := v], s, a, b) && n !in f
    ensures Match(p, c, c', f, s, a, b)
  {
    if !a.o.Wrong? {
      RelatedThaw(p, c, PopTo(a.st, s), b.st, f, n, v);
      if a.o.Normal? {
        RelatedThaw(p, c', a.st, b.st, f, n, v);
      }
    }
  }

  /* ---------------------------------- loops ---------------------------------- */

  lemma OptSim(p: Program, e: Option<Expr>, d: int, c: Ctx, s: Src, t: Tgt, f: Freeze)
    requires Related(p, c, s, t, f)
    ensures MatchE(p, c, f, if e.Some? then Eval(p, e.value, s) else Val(d, s),
                   if LowerOpt(e, c).Some? then EvalC(p, LowerOpt(e, c).value, t) else Val(d, t))
  {
    if e.Some? {
      EvalSim(p, e.value, c, s, t, f);
    }
  }

  lemma {:induction false} SimLoop(p: Program, test: Option<Expr>, step: Option<Expr>, body: List<Stmt>, c: Ctx,
          s: Src, t: Tgt, f: Freeze, fuel: nat, ret: bool)
    requires Related(p, c, s, t, f) && Contained(body, ret)
    ensures var code := LowerBlock(Intended, body, c).code;
            var a := Loop(p, test, step, body, s, fuel);
            var b := LoopC(p, LowerOpt(test, c), LowerOpt(step, c), code, t, fuel);
            a.o.Wrong? || (a.o == b.o && Related(p, c, a.st, b.st, f))
    decreases fuel, body, 3
  {
    hide Exec;
    hide Run;
    hide Lower;
    hide Eval;
    hide EvalC;
    hide Related;
    hide ExecScope;
    hide RunBraces;
    hide LowerBlock;
    hide LowerE;
    if fuel > 0 {
      var o := LowerBlock(Intended, body, c);
      OptSim(p, test, 1, c, s, t, f);
      var r := if test.Some? then Eval(p, test.value, s) else Val(1, s);
      var rc := if LowerOpt(test, c).Some? then EvalC(p, LowerOpt(test, c).value, t) else Val(1, t);
      if r.Val? && r.v != 0 {
        SimBody(p, body, c, r.st, rc.st, f, fuel, ret);
        var a, b := ExecScope(p, body, r.st, fuel), RunBraces(p, o.code, rc.st, fuel);
        ScopePops(p, body, r.st, fuel);
        if a.o.Normal? || a.o.Continued? {
          OptSim(p, step, 0, c, a.st, b.st, f);
          var q := if step.Some? then Eval(p, step.value, a.st) else Val(0, a.st);
          var qc := if LowerOpt(step, c).Some? then EvalC(p, LowerOpt(step, c).value, b.st) else Val(0, b.st);
          if q.Val? {
            SimLoop(p, test, step, body, c, q.st, qc.st, f, fuel - 1, ret);
          }
        }
      }
    }
  }

  lemma {:induction false} SimRepeat(p: Program, body: List<Stmt>, test: Expr, c: Ctx, s: Src, t: Tgt, f: Freeze,
          fuel: nat, ret: bool)
    requires Related(p, c, s, t, f) && Contained(body, ret)
    ensures var code := LowerBlock(Intended, body, c).code;
            var a := RepeatLoop(p, body, test, s, fuel);
            var b := RepeatC(p, code, LowerE(test, c), t, fuel);
            a.o.Wrong? || (a.o == b.o && Related(p, c, a.st, b.st, f))
    decreases fuel, body, 3
  {
    hide Exec;
    hide Run;
    hide Lower;
    hide Eval;
    hide EvalC;
    hide Related;
    hide ExecScope;
    hide RunBraces;
    hide LowerBlock;
    hide LowerE;
    if fuel > 0 {
      var o := LowerBlock(Intended, body, c);
      SimBody(p, body, c, s, t, f, fuel, ret);
      var a, b := ExecScope(p, body, s, fuel), RunBraces(p, o.code, t, fuel);
      ScopePops(p, body, s, fuel);
      if a.o.Normal? || a.o.Continued? {
        EvalSim(p, test, c, a.st, b.st, f);
        var r, rc := Eval(p, test, a.st), EvalC(p, LowerE(test, c), b.st);
        if r.Val? && r.v != 0 {
          SimRepeat(p, body, test, c, r.st, rc.st, f, fuel - 1, ret);
        }
      }
    }
  }

  lemma {:induction false} SimWhile(p: Program, x: Stmt, c: Ctx, s: Src, t: Tgt, f: Freeze, fuel: nat, ret: bool)
    requires x.While? && Related(p, c, s, t, f) && ContainedIn(x, ret)
    ensures var o := Lower(Intended, x, c);
            Match(p, c, o.ctx, f, s, Exec(p, x, s, fuel), RunList(p, o.code, t, fuel))
    decreases fuel, x, 1
  {
    var o := Lower(Intended, x, c);
    BlockFresh(p, Intended, x.body, c);
    RelatedDepth(p, c, s, t, f);
    RunSingle(p, o.code.head, t, fuel);
    SimLoop(p, Some(x.cond), None, x.body, c, s, t, f, fuel, ret);
    MatchFlat(p, c, f, s, Exec(p, x, s, fuel), RunList(p, o.code, t, fuel));
    MatchGrow(p, c, c, o.ctx, f, s, Exec(p, x, s, fuel), RunList(p, o.code, t, fuel));
  }

  lemma {:induction false} SimDoWhile(p: Program, x: Stmt, c: Ctx, s: Src, t: Tgt, f: Freeze, fuel: nat, ret: bool)
    requires x.DoWhile? && Related(p, c, s, t, f) && ContainedIn(x, ret)
    ensures var o := Lower(Intended, x, c);
            Match(p, c, o.ctx, f, s, Exec(p, x, s, fuel), RunList(p, o.code, t, fuel))
    decreases fuel, x, 1
  {
    var o := Lower(Intended, x, c);
    BlockFresh(p, Intended, x.body, c);
    RelatedDepth(p, c, s, t, f);
    RunSingle(p, o.code.head, t, fuel);
    SimRepeat(p, x.body, x.cond, c, s, t, f, fuel, ret);
    MatchFlat(p, c, f, s, Exec(p, x, s, fuel), RunList(p, o.code, t, fuel));
    MatchGrow(p, c, c, o.ctx, f, s, Exec(p, x, s, fuel), RunList(p, o.code, t, fuel));
  }

  function LowerStart(start: Option<Stmt>, c: Ctx): Out {
    if start.Some? then Lower(Intended, start.value, c) else Out(c, Nil)
  }

  function StartRun(p: Program, start: Option<Stmt>, s: Src, fuel: nat): Ans<Src> {
    if start.Some? then Exec(p, start.value, s, fuel) else Ans(Normal, s)
  }

  /** A for loop before its scope is left: header, then rounds. */
  function ForRun(p: Program, x: Stmt, s: Src, fuel: nat): Ans<Src>
    requires x.For?
  {
    var a := StartRun(p, x.start, s, fuel);
    if a.o.Normal? then Loop(p, x.test, x.step, x.body, a.st, fuel) else a
  }

  function ForRunC(p: Program, start: List<CStmt>, test: Option<CExpr>, step: Option<CExpr>, body: List<CStmt>, t: Tgt,
          fuel: nat): Ans<Tgt> {
    var b := RunList(p, start, t, fuel);
    if b.o.Normal? then LoopC(p, test, step, body, b.st, fuel) else b
  }

  lemma ForFramed(p: Program, start: List<CStmt>, test: Option<CExpr>, step: Option<CExpr>, body: List<CStmt>, t: Tgt,
          fuel: nat)
    ensures Framed(t, ForRunC(p, start, test, step, body, t, fuel).st, Declares(start))
  {
    ListFramed(p, start, t, fuel);
    var b := RunList(p, start, t, fuel);
    LoopFramed(p, test, step, body, b.st, fuel);
    FramedTrans(t, b.st, LoopC(p, test, step, body, b.st, fuel).st, Declares(start), {});
    assert Declares(start) + {} == Declares(start);
  }

  lemma {:induction false} SimRounds(p: Program, x: Stmt, c: Ctx, s: Src, t: Tgt, f: Freeze, fuel: nat, ret: bool)
    requires x.For? && Related(p, c, s, t, f) && ContainedIn(x, ret)
    ensures var i := LowerStart(x.start, c);
            var body := LowerBlock(Intended, x.body, i.ctx).code;
            Match(p, c, i.ctx, f, s, ForRun(p, x, s, fuel),
                  ForRunC(p, i.code, LowerOpt(x.test, i.ctx), LowerOpt(x.step, i.ctx), body, t, fuel))
    decreases fuel, x, 0
  {
    var i := LowerStart(x.start, c);
    RelatedDepth(p, c, s, t, f);
    PopNothing(s, s);
    if x.start.Some? {
      LowerFresh(p, Intended, x.start.value, c);
      SimStmt(p, x.start.value, c, s, t, f, fuel, ret);
    }
    var a, b := StartRun(p, x.start, s, fuel), RunList(p, i.code, t, fuel);
    assert Match(p, c, i.ctx, f, s, a, b);
    if a.o.Normal? && b.o.Normal? && Related(p, i.ctx, a.st, b.st, f) {
      SimLoop(p, x.test, x.step, x.body, i.ctx, a.st, b.st, f, fuel, ret);
      RelatedDepth(p, i.ctx, a.st, b.st, f);
      var body := LowerBlock(Intended, x.body, i.ctx).code;
      var a1, b1 := Loop(p, x.test, x.step, x.body, a.st, fuel),
              LoopC(p, LowerOpt(x.test, i.ctx), LowerOpt(x.step, i.ctx), body, b.st, fuel);
      MatchFlat(p, i.ctx, f, a.st, a1, b1);
      MatchThen(p, c, i.ctx, i.ctx, f, s, a, b, a1, b1);
    }
  }

  /** `for`: what the header declares lives as long as the loop. */
  lemma {:induction false} SimFor(p: Program, x: Stmt, c: Ctx, s: Src, t: Tgt, f: Freeze, fuel: nat, ret: bool)
    requires x.For? && Related(p, c, s, t, f) && ContainedIn(x, ret)
    ensures var o := Lower(Intended, x, c);
            Match(p, c, o.ctx, f, s, Exec(p, x, s, fuel), RunList(p, o.code, t, fuel))
    decreases fuel, x, 1
  {
    var i := LowerStart(x.start, c);
    var body := LowerBlock(Intended, x.body, i.ctx);
    var e := BlockEnd(Intended, c, body.ctx);
    var loop := CFor(i.code, LowerOpt(x.test, i.ctx), LowerOpt(x.step, i.ctx), body.code);
    var a, b := ForRun(p, x, s, fuel), ForRunC(p, i.code, loop.test, loop.step, body.code, t, fuel);
    assert Lower(Intended, x, c) == Out(e, Single(loop));
    ForShape(p, x, s, loop, t, fuel);
    RunSingle(p, loop, t, fuel);
    LowerFresh(p, Intended, x, c);
    StartFresh(p, x.start, c);
    SimRounds(p, x, c, s, t, f, fuel, ret);
    ForFramed(p, i.code, loop.test, loop.step, body.code, t, fuel);
    MatchBraces(p, c, i.ctx, e, f, s, a, t, b, Declares(i.code));
  }

  lemma StartFresh(p: Program, start: Option<Stmt>, c: Ctx)
    requires GoodCtx(p, c)
    ensures Sound(p, Intended, c, LowerStart(start, c))
  {
    FreshNil(c, c);
    if start.Some? {
      LowerFresh(p, Intended, start.value, c);
    }
  }

  lemma ForShape(p: Program, x: Stmt, s: Src, loop: CStmt, t: Tgt, fuel: nat)
    requires x.For? && loop.CFor?
    ensures var a := ForRun(p, x, s, fuel); Exec(p, x, s, fuel) == Ans(a.o, PopTo(a.st, s))
    ensures var b := ForRunC(p, loop.start, loop.test, loop.step, loop.body, t, fuel);
            Run(p, loop, t, fuel) == Ans(b.o, PopBrace(b.st, t))
  {
    if x.start.None? {
      LoopDepth(p, x.test, x.step, x.body, s, fuel);
    }
  }

  lemma {:induction false} LoopDepth(p: Program, test: Option<Expr>, step: Option<Expr>, body: List<Stmt>, s: Src,
          fuel: nat)
    ensures var a := Loop(p, test, step, body, s, fuel); PopTo(a.st, s) == a.st
    decreases fuel
  {
    PopNothing(s, s);
    if fuel > 0 {
      if test.Some? {
        EvalDepth(p, test.value, s);
      }
      var r := if test.Some? then Eval(p, test.value, s) else Val(1, s);
      PopNothing(r.st, s);
      ScopePops(p, body, r.st, fuel);
      var a := ExecScope(p, body, r.st, fuel);
      if step.Some? {
        EvalDepth(p, step.value, a.st);
      }
      var q := if step.Some? then Eval(p, step.value, a.st) else Val(0, a.st);
      LoopDepth(p, test, step, body, q.st, fuel - 1);
      var z := Loop(p, test, step, body, q.st, fuel - 1);
      KeptLen(a.st, s);
      KeptLen(q.st, s);
      KeptLen(z.st, q.st);
      KeptLen(z.st, s);
    }
  }

  /** A state is its own remainder exactly when it is no deeper. */
  lemma KeptLen(a: Src, s: Src)
    ensures PopTo(a, s) == a <==> Len(a.vars) <= Len(s.vars) && Len(a.clos) <= Len(s.clos)
  {
    KeepLen(a.vars, Len(s.vars));
    KeepLen(a.clos, Len(s.clos));
  }

  /* ---------------------------------- defers --------------------------------- */

  lemma SimCaptures(p: Program, x: Stmt, c: Ctx, s: Src, t: Tgt, f: Freeze, fuel: nat)
    requires x.DeferDef? && x.captures.Cons? && Related(p, c, s, t, f)
    ensures var o := Lower(Intended, x, c);
            Match(p, c, o.ctx, f, s, Exec(p, x, s, fuel), RunList(p, o.code, t, fuel))
  {
    hide Related;
    hide Eval;
    hide LowerE;
    RelatedCtx(p, c, s, t, f);
    var o := Lower(Intended, x, c);
    SimpleFresh(p, Intended, x, c);
    RelatedDepth(p, c, s, t, f);
    var n := DeferEnv(c.deferSeq);
    var decl := CVarStruct(n, LowerCaptures(x.captures, c));
    RunSingle(p, decl, t, fuel);
    CaptureSim(p, x.captures, c, s, t, f, fuel);
    var r, b := EvalCaptures(p, x.captures, s), Run(p, decl, t, fuel);
    if !(r.HaltFields? && r.why.Wrong?) {
      RelatedDepth(p, c, r.st, b.st, f);
      PopNothing(r.st, s);
      if r.Rec? {
        ClosurePops(Closure(x.id, r.fs), r.st, s);
        RelatedClosure(p, c, o.ctx, x.id, r.fs, r.st, b.st, f);
      }
    }
  }

  /** Registration copies the captured values into a struct of its own. */
  lemma SimDeferDef(p: Program, x: Stmt, c: Ctx, s: Src, t: Tgt, f: Freeze, fuel: nat)
    requires x.DeferDef? && Related(p, c, s, t, f)
    ensures var o := Lower(Intended, x, c);
            Match(p, c, o.ctx, f, s, Exec(p, x, s, fuel), RunList(p, o.code, t, fuel))
  {
    var o := Lower(Intended, x, c);
    SimpleFresh(p, Intended, x, c);
    RelatedDepth(p, c, s, t, f);
    if x.captures.Nil? {
      PopNothing(s, s);
      ClosurePops(Closure(x.id, Nil), s, s);
    } else {
      SimCaptures(p, x, c, s, t, f, fuel);
    }
  }

  lemma ClosurePops(k: Closure, s1: Src, s: Src)
    requires SameDepth(s1, s)
    ensures PopTo(s1.(clos := Cons(k, s1.clos)), s) == s1
  {
    PopNothing(s1, s);
  }

  lemma CaptureSim(p: Program, cs: List<Capture>, c: Ctx, s: Src, t: Tgt, f: Freeze, fuel: nat)
    requires Related(p, c, s, t, f)
    ensures var n := DeferEnv(c.deferSeq);
            var r, b := EvalCaptures(p, cs, s), Run(p, CVarStruct(n, LowerCaptures(cs, c)), t, fuel);
            || (r.HaltFields? && r.why.Wrong?)
            || (r.HaltFields? && b.o == r.why && !b.o.Normal? && Related(p, c, r.st, b.st, f))
            || (r.Rec? && b.o.Normal? && Related(p, c, r.st, b.st, f) && Lookup(b.st.env, n) == Some(Struct(r.fs)))
  {
    var n, fs := DeferEnv(c.deferSeq), LowerCaptures(cs, c);
    var t1 := Push(n, Unset, t);
    RelatedPush(p, c, s, t, f, n, Unset);
    CapturesSim(p, cs, c, s, t1, f);
    var r, rc := EvalCaptures(p, cs, s), EvalFields(p, fs, t1);
    if r.Rec? {
      EvalFieldsSame(p, fs, t1);
      SameUnbound(rc.st.env, t1.env, n);
      SetAside(p, c, r.st, rc.st, f, n, Struct(r.fs));
      LookupUpdate(rc.st.env, n, Struct(r.fs), n);
    }
  }

  lemma RelatedClosure(p: Program, c: Ctx, c': Ctx, id: string, fs: List<Field>, s: Src, t: Tgt, f: Freeze)
    requires Related(p, c, s, t, f) && GoodCtx(p, c')
    requires Lookup(t.env, DeferEnv(c.deferSeq)) == Some(Struct(fs))
    requires c' == c.(defers := Cons(DeferEntry(id, Some(c.deferSeq)), c.defers), deferSeq := c.deferSeq + 1)
    ensures Related(p, c', s.(clos := Cons(Closure(id, fs), s.clos)), t, f)
  {
  }

  /** Inlining the body of a defer: the locals of the place it is inlined at are
      neither seen nor changed by it. */
  lemma {:induction false} SimDeferCall(p: Program, x: Stmt, c: Ctx, s: Src, t: Tgt, f: Freeze, fuel: nat)
    requires x.DeferCall? && Related(p, c, s, t, f) && ContainedIn(x, true)
    ensures var o := Lower(Intended, x, c);
            Match(p, c, o.ctx, f, s, Exec(p, x, s, fuel), RunList(p, o.code, t, fuel))
    decreases fuel, x, 1
  {
    ClosFind(c.defers, s.clos, t.env, x.id);
    if FindClosure(s.clos, x.id).Some? {
      var d := FindDefer(c.defers, x.id).value;
      var b := LowerBlock(Intended, x.body, DeferScope(Intended, d, c));
      var o := Out(DeferEnd(Intended, c, b.ctx), Single(CBlock(b.code)));
      assert Lower(Intended, x, c) == o;
      LowerFresh(p, Intended, x, c);
      SimInlined(p, x, c, s, t, f, fuel);
      var e := Exec(p, x, s, fuel);
      PopNothing(e.st, s);
      assert Match(p, c, c, f, s, e, RunList(p, b.code, t, fuel));
      MatchGrow(p, c, c, o.ctx, f, s, e, RunList(p, b.code, t, fuel));
      BlockCodeSim(p, c, o, b.code, e, s, t, f, fuel);
    } else {
      CalledByName(p, x, c, s, t, f, fuel);
    }
  }

  /** A call of a name that no defer in scope has. */
  lemma CalledByName(p: Program, x: Stmt, c: Ctx, s: Src, t: Tgt, f: Freeze, fuel: nat)
    requires x.DeferCall? && Related(p, c, s, t, f)
    requires FindClosure(s.clos, x.id).None? && FindDefer(c.defers, x.id).None?
    ensures var o := Lower(Intended, x, c);
            Match(p, c, o.ctx, f, s, Exec(p, x, s, fuel), RunList(p, o.code, t, fuel))
  {
    var call := CCall(x.id, Nil);
    assert Lower(Intended, x, c) == Out(c, Single(CEval(call)));
    assert EvalC(p, call, t) == InvokeC(p, x.id, [], t) by {
      assert EvalArgsC(p, Nil, t) == Vals([], t);
    }
    RunSingle(p, CEval(call), t, fuel);
    RelatedDepth(p, c, s, t, f);
    InvokeSim(p, x.id, [], c, s, t, f);
    MatchFlat(p, c, f, s, Exec(p, x, s, fuel), RunList(p, Single(CEval(call)), t, fuel));
  }

  lemma InlineStart(p: Program, d: DeferEntry, fields: List<Field>, c: Ctx, s: Src, t: Tgt, f: Freeze)
    requires Related(p, c, s, t, f) && Captured(d.env, fields, t.env) && (d.env.Some? ==> d.env.value < c.deferSeq)
    ensures Related(p, DeferScope(Intended, d, c), s.(vars := Nil, clos := Nil, caps := fields), t,
                    FreezeScope(c, t.env))
  {
    FreezeScopeHolds(c, t.env);
  }

  /** The inlined body runs like the closure call, and the caller's scope is as
      it was. */
  lemma {:induction false} SimInlined(p: Program, x: Stmt, c: Ctx, s: Src, t: Tgt, f: Freeze, fuel: nat)
    requires x.DeferCall? && Related(p, c, s, t, f) && ContainedIn(x, true)
    requires FindClosure(s.clos, x.id).Some? && FindDefer(c.defers, x.id).Some?
    requires Captured(FindDefer(c.defers, x.id).value.env, FindClosure(s.clos, x.id).value.fields, t.env)
    ensures var b := LowerBlock(Intended, x.body, DeferScope(Intended, FindDefer(c.defers, x.id).value, c));
            var e, z := Exec(p, x, s, fuel), RunList(p, b.code, t, fuel);
            e.st.vars == s.vars && e.st.clos == s.clos &&
            (e.o.Wrong? || (e.o == z.o && Related(p, c, e.st, z.st, f)))
    decreases fuel, x, 0
  {
    var fields := FindClosure(s.clos, x.id).value.fields;
    var d := FindDefer(c.defers, x.id).value;
    FindDeferBelow(c.defers, x.id, c.deferSeq);
    var c1, s1 := DeferScope(Intended, d, c), s.(vars := Nil, clos := Nil, caps := fields);
    var e, body := Exec(p, x, s, fuel), ExecList(p, x.body, s1, fuel);
    assert e == Ans(ClosureOutcome(body.o), body.st.(vars := s.vars, clos := s.clos, caps := s.caps));
    hide Exec;
    hide ExecList;
    hide RunList;
    hide LowerList;
    var g := FreezeScope(c, t.env);
    InlineStart(p, d, fields, c, s, t, f);
    ListFresh(p, Intended, x.body, c1);
    ListStays(p, x.body, s1, fuel);
    SimList(p, x.body, c1, s1, t, g, fuel, false);
    var b := LowerList(Intended, x.body, c1);
    var a, z := ExecList(p, x.body, s1, fuel), RunList(p, b.code, t, fuel);
    if !e.o.Wrong? {
      ListFramed(p, b.code, t, fuel);
      CallerUnchanged(p, c, s, t, z.st, e.st, Declares(b.code), f);
    }
  }

  lemma FreezeScopeHolds(c: Ctx, env: List<Bind>)
    ensures Frozen(FreezeScope(c, env), env)
  {
  }

  /** Everything the function has declared so far, as it is now. */
  function FreezeScope(c: Ctx, env: List<Bind>): Freeze {
    map n | n in BoundNames(env) && Used(c, n) && Lookup(env, n).Some? :: Lookup(env, n).value
  }

  /** If an inlined body froze the whole scope of its caller, the caller goes on
      where it was, with the new globals and trace. */
  lemma CallerUnchanged(p: Program, c: Ctx, s: Src, t: Tgt, t': Tgt, s': Src, d: set<CName>, f: Freeze)
    requires Related(p, c, s, t, f)
    requires Framed(t, t', d) && (forall n :: n in d ==> !Used(c, n))
    requires Frozen(FreezeScope(c, t.env), t'.env)
    requires s' == s.(globals := t'.globals, trace := t'.trace)
    ensures Related(p, c, s', t', f)
  {
    var g := FreezeScope(c, t.env);
    forall n | Used(c, n)
      ensures Lookup(t'.env, n) == Lookup(t.env, n)
    {
      BoundIffFound(t.env, n);
      if Lookup(t.env, n).Some? {
        assert n in g;
      } else {
        LookupKeep(t'.env, Len(t.env), n);
        SameUnbound(Keep(t'.env, Len(t.env)), t.env, n);
      }
    }
    RelatedElsewhere(p, c, s, t, t'.(globals := t.globals, trace := t.trace), f);
  }

  /* ---------------------------- prelude, postlude ---------------------------- */

  lemma {:induction false} SimDecorated(p: Program, x: Stmt, c: Ctx, s: Src, t: Tgt, f: Freeze, fuel: nat, ret: bool)
    requires x.Decorated? && Related(p, c, s, t, f) && ContainedIn(x, ret)
    ensures var o := Lower(Intended, x, c);
            Match(p, c, o.ctx, f, s, Exec(p, x, s, fuel), RunList(p, o.code, t, fuel))
    decreases fuel, x, 1
  {
    hide Related;
    RelatedCtx(p, c, s, t, f);
    RelatedDepth(p, c, s, t, f);
    var a := LowerList(Intended, x.pre, c);
    ListFresh(p, Intended, x.pre, c);
    var b := if x.core.Some? then Lower(Intended, x.core.value, a.ctx) else Out(a.ctx, Nil);
    if x.core.Some? {
      LowerFresh(p, Intended, x.core.value, a.ctx);
    }
    var d := LowerList(Intended, x.post, b.ctx);
    RunAppend(p, a.code, Append(b.code, d.code), t, fuel);
    SimList(p, x.pre, c, s, t, f, fuel, ret);
    var s1, t1 := ExecList(p, x.pre, s, fuel), RunList(p, a.code, t, fuel);
    if s1.o.Normal? && t1.o.Normal? && Related(p, a.ctx, s1.st, t1.st, f) {
      RunAppend(p, b.code, d.code, t1.st, fuel);
      SimCore(p, x, a.ctx, s1.st, t1.st, f, fuel, ret);
      MatchThen(p, c, a.ctx, d.ctx, f, s, s1, t1, CoreRun(p, x.core, x.post, s1.st, fuel),
                RunList(p, Append(b.code, d.code), t1.st, fuel));
    }
  }

  function CoreRun(p: Program, core: Option<Stmt>, post: List<Stmt>, s: Src, fuel: nat): Ans<Src> {
    var b := if core.Some? then Exec(p, core.value, s, fuel) else Ans(Normal, s);
    if !b.o.Normal? then b else ExecList(p, post, b.st, fuel)
  }

  lemma {:induction false} SimCore(p: Program, z: Stmt, c: Ctx, s: Src, t: Tgt, f: Freeze, fuel: nat, ret: bool)
    requires z.Decorated? && Related(p, c, s, t, f) && ContainedIn(z, ret)
    ensures var b := if z.core.Some? then Lower(Intended, z.core.value, c) else Out(c, Nil);
            var d := LowerList(Intended, z.post, b.ctx);
            Match(p, c, d.ctx, f, s, CoreRun(p, z.core, z.post, s, fuel), RunList(p, Append(b.code, d.code), t, fuel))
    decreases fuel, z, 0
  {
    var core, post := z.core, z.post;
    RelatedDepth(p, c, s, t, f);
    PopNothing(s, s);
    match core
    case None => SimList(p, post, c, s, t, f, fuel, ret);
    case Some(x) =>
      var b := Lower(Intended, x, c);
      LowerFresh(p, Intended, x, c);
      var d := LowerList(Intended, post, b.ctx);
      RunAppend(p, b.code, d.code, t, fuel);
      SimStmt(p, x, c, s, t, f, fuel, ret);
      var s1, t1 := Exec(p, x, s, fuel), RunList(p, b.code, t, fuel);
      if s1.o.Normal? && t1.o.Normal? && Related(p, b.ctx, s1.st, t1.st, f) {
        SimList(p, post, b.ctx, s1.st, t1.st, f, fuel, ret);
        MatchThen(p, c, b.ctx, d.ctx, f, s, s1, t1, ExecList(p, post, s1.st, fuel), RunList(p, d.code, t1.st, fuel));
      }
  }
}
