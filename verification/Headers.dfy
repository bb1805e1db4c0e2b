/** How the writer prints `for` headers.  It prints all of a list of instructions,
    except in a header: there it prints only the first, and only if that is a
    declaration or an assignment. */
module Headers {
  import opened Lists
  import opened Naming
  import opened Syntax
  import opened SourceSemantics
  import opened TargetSemantics
  import opened Lowering
  import opened Spelling
  import opened Scoping
  import opened Correctness

  /** Stands in for the target of an assignment, which the writer looks for in a
      field that only declarations fill. */
  const HEADER_TARGET := "clux_v_i"

  /** The header as printed.  A declaration loses its `= {0}`: its variable has no
      value, as if initialised by itself. */
  function HeaderText(start: List<CStmt>): List<CStmt> {
    match start
    case Cons(CVar(n, None), _) => Single(CVar(n, Some(CIdent(n))))
    case Cons(CVar(n, Some(e)), _) => Single(CVar(n, Some(e)))
    case Cons(CAssign(_, op, e), _) => Single(CAssign(Sym(HEADER_TARGET), op, e))
    case _ => Nil
  }

  /** The code as it stands in the C file. */
  function Written(cs: List<CStmt>): List<CStmt>
    decreases cs
  {
    match cs
    case Nil => Nil
    case Cons(s, rest) => Cons(WrittenIn(s), Written(rest))
  }

  function WrittenIn(s: CStmt): CStmt
    decreases s
  {
    match s
    case CIf(e, a, b) => CIf(e, Written(a), Written(b))
    case CWhile(e, a) => CWhile(e, Written(a))
    case CDoWhile(a, e) => CDoWhile(Written(a), e)
    case CFor(i, test, step, a) => CFor(HeaderText(i), test, step, Written(a))
    case CBlock(a) => CBlock(Written(a))
    case CNested(params, a) => CNested(params, Written(a))
    case _ => s
  }

  /* ------------------------- when the writer keeps the code -------------------- */

  predicate Headed(cs: List<CStmt>)
    decreases cs
  {
    cs.Cons? ==> HeadedIn(cs.head) && Headed(cs.tail)
  }

  /** Every header is empty or one initialised declaration (or stores to the very
      name that stands in for the others). */
  predicate HeadedIn(s: CStmt)
    decreases s
  {
    match s
    case CIf(_, a, b) => Headed(a) && Headed(b)
    case CWhile(_, a) => Headed(a)
    case CDoWhile(a, _) => Headed(a)
    case CFor(i, _, _, a) => KeptHeader(i) && Headed(a)
    case CBlock(a) => Headed(a)
    case CNested(_, a) => Headed(a)
    case _ => true
  }

  predicate KeptHeader(start: List<CStmt>) {
    start.Cons? ==>
      && start.tail.Nil?
      && ((start.head.CVar? && start.head.init.Some?)
          || (start.head.CAssign? && start.head.target == Sym("clux_v_i")))
  }

  /** The file holds the code that was lowered exactly if all headers are kept. */
  lemma {:induction false} WrittenExactly(cs: List<CStmt>)
    ensures Written(cs) == cs <==> Headed(cs)
    decreases cs
  {
    if cs.Cons? {
      WrittenExactlyIn(cs.head);
      WrittenExactly(cs.tail);
    }
  }

  lemma {:induction false} WrittenExactlyIn(s: CStmt)
    ensures WrittenIn(s) == s <==> HeadedIn(s)
    decreases s
  {
    match s
    case CIf(_, a, b) =>
      WrittenExactly(a);
      WrittenExactly(b);
    case CWhile(_, a) => WrittenExactly(a);
    case CDoWhile(a, _) => WrittenExactly(a);
    case CFor(i, _, _, a) =>
      assert HeaderText(i) == i <==> KeptHeader(i);
      WrittenExactly(a);
    case CBlock(a) => WrittenExactly(a);
    case CNested(_, a) => WrittenExactly(a);
    case _ =>
  }

  /* ------------------------------ seen from the source ------------------------- */

  predicate PlainHeadersTry(t: Try)
    decreases t, 0
  {
    PlainHeadersIn(t.setup) && PlainHeadersOpt(t.tail)
  }

  predicate PlainHeadersOpt(s: Option<Stmt>)
    decreases s, 2
  {
    s.Some? ==> PlainHeadersIn(s.value)
  }

  predicate PlainHeaders(ss: List<Stmt>)
    decreases ss, 0
  {
    ss.Cons? ==> PlainHeadersIn(ss.head) && PlainHeaders(ss.tail)
  }

  predicate PlainHeadersArms(arms: Arms)
    decreases arms, 0
  {
    match arms
    case Default(None) => true
    case Default(Some(b)) => PlainHeaders(b)
    case Arm(_, b, rest) => PlainHeaders(b) && PlainHeadersArms(rest)
  }

  /** Every `for` header in s is empty or an initialised declaration without a try. */
  predicate PlainHeadersIn(s: Stmt)
    decreases s, 1
  {
    match s
    case VarDef(_, InitTry(t)) => PlainHeadersTry(t)
    case AssignTry(_, _, t) => PlainHeadersTry(t)
    case Return(_, ds) => PlainHeaders(ds)
    case ReturnTry(t, ds) => PlainHeadersTry(t) && PlainHeaders(ds)
    case Break(ds) => PlainHeaders(ds)
    case Continue(ds) => PlainHeaders(ds)
    case If(_, a, NoElse) => PlainHeaders(a)
    case If(_, a, ElseBlock(b)) => PlainHeaders(a) && PlainHeaders(b)
    case If(_, a, ElseIf(s')) => PlainHeaders(a) && PlainHeadersIn(s')
    case Switch(_, arms) => PlainHeadersArms(arms)
    case While(_, a) => PlainHeaders(a)
    case DoWhile(a, _) => PlainHeaders(a)
    case For(i, _, _, a) => (i.Some? ==> i.value.VarDef? && i.value.init.InitExpr?) && PlainHeaders(a)
    case Block(a) => PlainHeaders(a)
    case DeferCall(_, a) => PlainHeaders(a)
    case Decorated(a, core, b) => PlainHeaders(a) && PlainHeadersOpt(core) && PlainHeaders(b)
    case LocalFn(_, a, _) => PlainHeaders(a)
    case _ => true
  }

  lemma {:induction false} HeadedAppend(a: List<CStmt>, b: List<CStmt>)
    ensures Headed(Append(a, b)) <==> Headed(a) && Headed(b)
  {
    if a.Cons? {
      HeadedAppend(a.tail, b);
    }
  }

  lemma HeadedOne(s: CStmt)
    ensures Headed(Single(s)) <==> HeadedIn(s)
  {
    assert Headed(Nil);
  }

  lemma HeadedLast(a: List<CStmt>, s: CStmt)
    requires Headed(a) && HeadedIn(s)
    ensures Headed(Append(a, Single(s))) && Headed(Single(CBlock(Append(a, Single(s)))))
  {
    HeadedAppend(a, Single(s));
    HeadedOne(s);
    HeadedOne(CBlock(Append(a, Single(s))));
  }

  lemma HeadedDeclared(n: CName, v: Option<CExpr>, a: List<CStmt>)
    requires Headed(a)
    ensures Headed(Cons(CVar(n, v), a)) && Headed(Single(CBlock(Cons(CVar(n, v), a))))
  {
    HeadedOne(CBlock(Cons(CVar(n, v), a)));
  }

  lemma {:induction false} TryHeaded(m: Mode, t: Try, c: Ctx)
    requires PlainHeadersTry(t)
    ensures Headed(LowerTryPrefix(m, t, c).code)
    decreases t, 0
  {
    hide Lower;
    hide LowerE;
    var a := Lower(m, t.setup, c);
    StmtHeaded(m, t.setup, c);
    var tail := LowerOptional(m, t.tail, a.ctx);
    OptHeaded(m, t.tail, a.ctx);
    HeadedLast(a.code, CIf(CUnary(LNot, LowerE(t.ok, a.ctx)), tail.code, Nil));
  }

  lemma {:induction false} OptHeaded(m: Mode, s: Option<Stmt>, c: Ctx)
    requires PlainHeadersOpt(s)
    ensures Headed(LowerOptional(m, s, c).code)
    decreases s, 2
  {
    if s.Some? {
      StmtHeaded(m, s.value, c);
    }
  }

  lemma {:induction false} ReturnHeaded(m: Mode, v: Option<CExpr>, ds: List<Stmt>, c: Ctx)
    requires PlainHeaders(ds)
    ensures Headed(LowerReturn(m, v, ds, c).code)
    decreases ds, 2
  {
    hide LowerList;
    HeadedOne(CReturn(v));
    if ds.Cons? {
      var c1, last := c.(retSeq := c.retSeq + 1), CReturn(Some(CIdent(RetTmp(c.retSeq))));
      ListHeaded(m, ds, c1);
      ListHeaded(m, ds, c);
      HeadedLast(LowerList(m, ds, c1).code, last);
      HeadedLast(LowerList(m, ds, c).code, CReturn(v));
      HeadedDeclared(RetTmp(c.retSeq), v, Append(LowerList(m, ds, c1).code, Single(last)));
    }
  }

  lemma {:induction false} JumpHeaded(m: Mode, jump: CStmt, ds: List<Stmt>, c: Ctx)
    requires PlainHeaders(ds) && (jump.CBreak? || jump.CContinue?)
    ensures Headed(LowerJump(m, jump, ds, c).code)
    decreases ds, 2
  {
    hide LowerList;
    HeadedOne(jump);
    if ds.Cons? {
      ListHeaded(m, ds, c);
      HeadedLast(LowerList(m, ds, c).code, jump);
    }
  }

  lemma {:induction false} ListHeaded(m: Mode, ss: List<Stmt>, c: Ctx)
    requires PlainHeaders(ss)
    ensures Headed(LowerList(m, ss, c).code)
    decreases ss, 1
  {
    hide Lower;
    if ss.Cons? {
      var a := Lower(m, ss.head, c);
      StmtHeaded(m, ss.head, c);
      ListHeaded(m, ss.tail, a.ctx);
      HeadedAppend(a.code, LowerList(m, ss.tail, a.ctx).code);
    }
  }

  lemma {:induction false} ArmsHeaded(m: Mode, tmp: CName, arms: Arms, c: Ctx)
    requires PlainHeadersArms(arms)
    ensures Headed(LowerArms(m, tmp, arms, c).code)
    decreases arms, 0
  {
    hide LowerList;
    hide OrChain;
    match arms
    case Default(None) =>
    case Default(Some(b)) => ListHeaded(m, b, c);
    case Arm(Nil, _, rest) => ArmsHeaded(m, tmp, rest, c);
    case Arm(Cons(e, es), b, rest) =>
      var a := LowerBlock(m, b, c);
      var z := LowerArms(m, tmp, rest, a.ctx);
      ListHeaded(m, b, c);
      ArmsHeaded(m, tmp, rest, a.ctx);
      HeadedOne(CIf(OrChain(PatternTest(tmp, e, c), tmp, es, c), a.code, z.code));
  }

  /** From plain headers come headers that the writer keeps. */
  lemma {:induction false} StmtHeaded(m: Mode, s: Stmt, c: Ctx)
    requires PlainHeadersIn(s)
    ensures Headed(Lower(m, s, c).code)
    decreases s, 1
  {
    hide LowerE;
    hide LowerTryPrefix;
    hide LowerArms;
    hide LowerList;
    hide LowerReturn;
    hide LowerJump;
    hide LowerCaptures;
    hide FreshName;
    match s
    case VarDef(x, InitTry(_)) => TriedHeaded(m, s, c);
    case AssignTry(_, _, _) => TriedHeaded(m, s, c);
    case Return(v, ds) => ReturnHeaded(m, LowerOpt(v, c), ds, c);
    case ReturnTry(_, _) => TriedHeaded(m, s, c);
    case Break(ds) => JumpHeaded(m, CBreak, ds, c);
    case Continue(ds) => JumpHeaded(m, CContinue, ds, c);
    case If(_, _, _) => BranchHeaded(m, s, c);
    case Switch(e, arms) =>
      var c1, tmp := c.(switchSeq := c.switchSeq + 1), SwitchTmp(c.switchSeq);
      ArmsHeaded(m, tmp, arms, c1);
      HeadedDeclared(tmp, Some(LowerE(e, c)), LowerArms(m, tmp, arms, c1).code);
    case While(e, a) =>
      ListHeaded(m, a, c);
      HeadedOne(CWhile(LowerE(e, c), LowerBlock(m, a, c).code));
    case DoWhile(a, e) =>
      ListHeaded(m, a, c);
      HeadedOne(CDoWhile(LowerBlock(m, a, c).code, LowerE(e, c)));
    case For(i, test, step, a) =>
      var h := LowerOptional(m, i, c);
      ListHeaded(m, a, h.ctx);
      HeadedOne(CFor(h.code, LowerOpt(test, h.ctx), LowerOpt(step, h.ctx), LowerBlock(m, a, h.ctx).code));
    case Block(a) => ListHeaded(m, a, c);
    case DeferCall(id, a) =>
      if FindDefer(c.defers, id).Some? {
        var c1 := DeferScope(m, FindDefer(c.defers, id).value, c);
        ListHeaded(m, a, c1);
        HeadedOne(CBlock(LowerBlock(m, a, c1).code));
      }
    case Decorated(_, _, _) => DecoratedHeaded(m, s, c);
    case LocalFn(params, a, void) =>
      var c1 := RegisterAll(params, FunctionStart(m, c, void));
      ListHeaded(m, a, c1);
      HeadedOne(CNested(ParamSymbols(c.prefix, params), LowerBlock(m, a, c1).code));
    case _ =>
      var code := Lower(m, s, c).code;
      if code.Cons? {
        HeadedOne(code.head);
      }
  }

  lemma {:induction false} TriedHeaded(m: Mode, s: Stmt, c: Ctx)
    requires PlainHeadersIn(s) && ((s.VarDef? && s.init.InitTry?) || s.AssignTry? || s.ReturnTry?)
    ensures Headed(Lower(m, s, c).code)
    decreases s, 0
  {
    hide LowerE;
    hide LowerTryPrefix;
    hide LowerReturn;
    hide FreshName;
    match s
    case VarDef(x, InitTry(t)) =>
      var pre := LowerTryPrefix(m, t, InitScope(m, x, c));
      var n, e := Sym(FreshName(c, x)), LowerE(t.value, pre.ctx);
      TryHeaded(m, t, InitScope(m, x, c));
      HeadedLast(pre.code, if m.Intended? then StoreIn(n, x, e) else LowerAssign(x, None, e, pre.ctx));
    case AssignTry(x, aop, t) =>
      var pre := LowerTryPrefix(m, t, c);
      TryHeaded(m, t, c);
      HeadedLast(pre.code, LowerAssign(x, if m.Intended? then aop else None, LowerE(t.value, pre.ctx),
                                       Within(m, c, pre.ctx)));
    case ReturnTry(t, ds) =>
      var pre := LowerTryPrefix(m, t, c);
      var c1 := ScopeEnd(m, c, pre.ctx);
      var ret := LowerReturn(m, Some(LowerE(t.value, pre.ctx)), ds, c1);
      TryHeaded(m, t, c);
      ReturnHeaded(m, Some(LowerE(t.value, pre.ctx)), ds, c1);
      HeadedAppend(pre.code, ret.code);
      HeadedOne(CBlock(Append(pre.code, ret.code)));
  }

  lemma {:induction false} BranchHeaded(m: Mode, s: Stmt, c: Ctx)
    requires PlainHeadersIn(s) && s.If?
    ensures Headed(Lower(m, s, c).code)
    decreases s, 0
  {
    hide LowerE;
    hide LowerList;
    var a := LowerBlock(m, s.body, c);
    ListHeaded(m, s.body, c);
    match s.els
    case NoElse => HeadedOne(CIf(LowerE(s.cond, c), a.code, Nil));
    case ElseBlock(b) =>
      ListHeaded(m, b, a.ctx);
      HeadedOne(CIf(LowerE(s.cond, c), a.code, LowerBlock(m, b, a.ctx).code));
    case ElseIf(z) =>
      StmtHeaded(m, z, a.ctx);
      HeadedOne(CIf(LowerE(s.cond, c), a.code, Lower(m, z, a.ctx).code));
  }

  lemma {:induction false} DecoratedHeaded(m: Mode, s: Stmt, c: Ctx)
    requires PlainHeadersIn(s) && s.Decorated?
    ensures Headed(Lower(m, s, c).code)
    decreases s, 0
  {
    hide LowerList;
    var a := LowerList(m, s.pre, c);
    var b := LowerOptional(m, s.core, a.ctx);
    var d := LowerList(m, s.post, b.ctx);
    ListHeaded(m, s.pre, c);
    OptHeaded(m, s.core, a.ctx);
    ListHeaded(m, s.post, b.ctx);
    HeadedAppend(b.code, d.code);
    HeadedAppend(a.code, Append(b.code, d.code));
  }

  lemma {:induction false} SpellHeaded(cs: List<CStmt>)
    requires Headed(cs)
    ensures Headed(Spell(cs))
    decreases cs
  {
    if cs.Cons? {
      SpellHeadedIn(cs.head);
      SpellHeaded(cs.tail);
    }
  }

  lemma {:induction false} SpellHeadedIn(s: CStmt)
    requires HeadedIn(s)
    ensures HeadedIn(SpellIn(s))
    decreases s
  {
    match s
    case CIf(_, a, b) =>
      SpellHeaded(a);
      SpellHeaded(b);
    case CWhile(_, a) => SpellHeaded(a);
    case CDoWhile(a, _) => SpellHeaded(a);
    case CFor(i, _, _, a) =>
      SpellHeaded(a);
      if i.Cons? {
        assert Spell(i) == Single(SpellIn(i.head));
      }
    case CBlock(a) => SpellHeaded(a);
    case CNested(_, a) => SpellHeaded(a);
    case _ =>
  }

  /** A function with plain headers reaches the C file as it was lowered. */
  lemma PlainHeadersWritten(m: Mode, p: Program, f: Function, switches: nat, envs: nat)
    requires PlainHeaders(f.body)
    ensures Written(Text(m, p, f, switches, envs)) == Text(m, p, f, switches, envs)
  {
    ListHeaded(m, f.body, BodyContext(p, f, switches, envs));
    SpellHeaded(Body(m, p, f, switches, envs));
    WrittenExactly(Text(m, p, f, switches, envs));
  }

  /** So the C file means what the source means. */
  lemma FilePreservesMeaning(p: Program, f: Function, switches: nat, envs: nat,
                             args: List<int>, globals: map<string, int>, trace: seq<Event>, fuel: nat)
    requires WellFormed(p, f, switches, envs) && CleanFunction(p, f, switches, envs) && PlainHeaders(f.body)
    requires Len(f.params) == Len(args)
    ensures var r := CallSource(p, f, args, globals, trace, fuel);
            var code := Emitted(p, f, switches, envs);
            code.Some? ==> r.o.Wrong? || CallC(p, f, Written(code.value), args, globals, trace, fuel) == r
  {
    hide WellFormed;
    hide CleanFunction;
    hide CallSource;
    hide CallC;
    hide Text;
    hide Written;
    hide PlainHeaders;
    CompiledPreservesMeaning(p, f, switches, envs, args, globals, trace, fuel);
    PlainHeadersWritten(AsWritten, p, f, switches, envs);
  }

  /** `for (x = 1; 0;) {}` sets x.  The assignment is lowered, but the file stores to
      a name that is declared nowhere. */
  lemma AssignmentInHeader(p: Program, x: string, c: Ctx, s: Src, t: Tgt, fuel: nat)
    requires fuel > 0 && x != DISCARD && ReadVar(p, x, s).Some?
    requires Lookup(t.env, Sym("clux_v_i")).None? && "clux_v_i" !in p.symtab
    ensures var loop := For(Some(Assign(x, None, Lit(1))), Some(Lit(0)), None, Nil);
            var code := Lower(AsWritten, loop, c).code;
            && Exec(p, loop, s, fuel).o == Normal
            && code == Single(CFor(Single(CAssign(Resolve(c, x), None, CLit(1))), Some(CLit(0)), None, Nil))
            && RunList(p, Written(code), t, fuel).o == Wrong
  {
    hide Resolve;
    var i := Assign(x, None, Lit(1));
    var loop := For(Some(i), Some(Lit(0)), None, Nil);
    var ci := CAssign(Resolve(c, x), None, CLit(1));
    assert Lower(AsWritten, i, c) == Out(c, Single(ci));
    assert LowerBlock(AsWritten, Nil, c) == Out(c, Nil);
    var cloop := CFor(Single(ci), Some(CLit(0)), None, Nil);
    assert Lower(AsWritten, loop, c) == Out(c, Single(cloop));
    var wi := CAssign(Sym(HEADER_TARGET), None, CLit(1));
    assert Written(Single(cloop)) == Single(CFor(Single(wi), Some(CLit(0)), None, Nil));
    assert EvalC(p, CLit(1), t) == Val(1, t);
    assert Run(p, wi, t, fuel).o == Wrong;
    assert RunList(p, Single(wi), t, fuel).o == Wrong;
    assert Run(p, CFor(Single(wi), Some(CLit(0)), None, Nil), t, fuel).o == Wrong;
  }

  /** A declaration without initialiser is printed in a header without its zero, too. */
  lemma UnsetInHeader(p: Program, n: CName, t: Tgt, fuel: nat)
    requires n.Sym?
    ensures RunList(p, Single(CVar(n, None)), t, fuel) == Ans(Normal, Push(n, Int(0), t))
    ensures RunList(p, HeaderText(Single(CVar(n, None))), t, fuel).o == Wrong
  {
    assert Run(p, CVar(n, None), t, fuel) == Ans(Normal, Push(n, Int(0), t));
    assert RunList(p, Nil, Push(n, Int(0), t), fuel) == Ans(Normal, Push(n, Int(0), t));
    assert EvalC(p, CIdent(n), Push(n, Unset, t)).Halt?;
    assert Run(p, CVar(n, Some(CIdent(n))), t, fuel).o == Wrong;
  }

  /** `for (f(); 0;) {}` calls f.  The call is lowered, but it is not in the file. */
  lemma CallInHeader(p: Program, f: string, c: Ctx)
    ensures var loop := For(Some(ExprStmt(Call(f, Nil))), Some(Lit(0)), None, Nil);
            var code := Lower(AsWritten, loop, c).code;
            && code == Single(CFor(Single(CEval(CCall(f, Nil))), Some(CLit(0)), None, Nil))
            && Written(code) == Single(CFor(Nil, Some(CLit(0)), None, Nil))
  {
    var i, ci := ExprStmt(Call(f, Nil)), CEval(CCall(f, Nil));
    assert LowerE(Call(f, Nil), c) == CCall(f, LowerArgs(Nil, c));
    var loop, cloop := For(Some(i), Some(Lit(0)), None, Nil), CFor(Single(ci), Some(CLit(0)), None, Nil);
    assert Lower(AsWritten, i, c) == Out(c, Single(ci));
    assert LowerBlock(AsWritten, Nil, c) == Out(c, Nil);
    assert Lower(AsWritten, loop, c) == Out(c, Single(cloop));
    assert WrittenIn(cloop) == CFor(Nil, Some(CLit(0)), None, Nil);
    assert Written(Single(cloop)) == Cons(WrittenIn(cloop), Written(Nil));
  }
}
