/** The lowering context as the compiler keeps it: one object whose lists and
    counters every step updates.  Each method is proved to do to the object, and to
    emit, exactly what the function of the same purpose in Lowering says. */
module LoweringContext {
  import opened Lists
  import opened Naming
  import opened Syntax
  import opened Lowering
  import opened Freshness
  import opened Correctness

  /** A branch of a switch before the branches are chained. */
  datatype Branch = Branch(cond: CExpr, body: List<CStmt>)

  /** Each branch is the else part of the one before it. */
  function Chained(branches: seq<Branch>, last: List<CStmt>): List<CStmt> {
    if branches == [] then last
    else Single(CIf(branches[0].cond, branches[0].body, Chained(branches[1..], last)))
  }

  lemma {:induction false} ChainedSnoc(branches: seq<Branch>, b: Branch, last: List<CStmt>)
    ensures Chained(branches + [b], last) == Chained(branches, Single(CIf(b.cond, b.body, last)))
  {
    if branches == [] {
      assert ([b])[1..] == [];
    } else {
      assert (branches + [b])[1..] == branches[1..] + [b];
      ChainedSnoc(branches[1..], b, last);
    }
  }

  class LowerCtx {
    const prefix: string
    var locals: List<Local>
    var localDecls: List<Local>
    var defers: List<DeferEntry>
    var ctxEnv: Option<nat>
    var retSeq: nat
    var switchSeq: nat
    var deferSeq: nat
    var retVoid: bool
    var hung: bool

    constructor (prefix: string)
      ensures View() == Ctx(prefix, Nil, {}, Nil, None, 0, 0, 0, true, false)
    {
      this.prefix := prefix;
      locals, localDecls, defers, ctxEnv := Nil, Nil, Nil, None;
      retSeq, switchSeq, deferSeq, retVoid, hung := 0, 0, 0, true, false;
    }

    function View(): Ctx
      reads this
    {
      Ctx(prefix, locals, CNames(localDecls), defers, ctxEnv, retSeq, switchSeq, deferSeq, retVoid, hung)
    }

    /** Declared in this function before? */
    method Clashes(buf: string) returns (clash: bool)
      ensures clash <==> buf in CNames(localDecls)
    {
      var o := localDecls;
      while o.Cons?
        invariant buf in CNames(localDecls) <==> buf in CNames(o)
        decreases o
      {
        if o.head.cname == buf {
          return true;
        }
        o := o.tail;
      }
      return false;
    }

    /** The search for a free name, in the buffer the compiler uses.  The compiler
        goes on until it finds one; a search that has tried more names than are
        taken never ends, and is given up here. */
    method UniqueCname(base: string) returns (buf: string, found: bool)
      ensures buf == UniqueName(base, CNames(localDecls))
      ensures found <==> !Stuck(base, BUFFER, CNames(localDecls))
    {
      buf := base;
      var suffix, clash := 2, true;
      ghost var taken := CNames(localDecls);
      StuckWithinTaken(base, BUFFER, taken);
      while clash && suffix <= |CNames(localDecls)| + 3
        invariant 2 <= suffix <= |taken| + 4
        invariant buf == (if suffix == 2 then base else Variant(base, BUFFER, suffix - 1))
        invariant suffix > 2 ==> base in taken
        invariant forall k :: 2 <= k < suffix - 1 ==> Variant(base, BUFFER, k) in taken
        invariant !clash ==> buf !in taken && suffix <= |taken| + 3
        decreases clash, |taken| + 4 - suffix
      {
        clash := Clashes(buf);
        if clash {
          buf := Variant(base, BUFFER, suffix);
          suffix := suffix + 1;
        }
      }
      found := !clash;
      if clash {
        assert FirstVariant(base, BUFFER, 2, |taken| + 2, taken).None?;
        buf := Candidate(base, FirstFree(base, 2, CNames(localDecls)));
      } else if suffix > 2 {
        FirstVariantIs(base, suffix - 1, |taken| + 2, taken);
      }
    }

    method RegisterLocal(x: string)
      modifies this`locals, this`localDecls, this`hung
      ensures View() == Register(old(View()), x)
      ensures hung <==> old(hung) || Stuck(GlobalSym(prefix, x), BUFFER, old(CNames(localDecls)))
    {
      hide GlobalSym;
      hide UniqueName;
      hide Stuck;
      hide NoName;
      var cname, found := UniqueCname(GlobalSym(prefix, x));
      StuckWithinTaken(GlobalSym(prefix, x), BUFFER, CNames(localDecls));
      hung := hung || !found;
      ghost var taken := CNames(localDecls);
      locals := Cons(Local(x, cname), locals);
      localDecls := Cons(Local(x, cname), localDecls);
      assert CNames(localDecls) == taken + {cname};
    }

    method LookupLocalCname(x: string) returns (r: Option<string>)
      ensures r == FindLocal(locals, x)
    {
      var l := locals;
      while l.Cons?
        invariant FindLocal(locals, x) == FindLocal(l, x)
        decreases l
      {
        if l.head.name == x {
          return Some(l.head.cname);
        }
        l := l.tail;
      }
      return None;
    }

    method FindDeferEntry(id: string) returns (r: Option<DeferEntry>)
      ensures r == FindDefer(defers, id)
    {
      var d := defers;
      while d.Cons?
        invariant FindDefer(defers, id) == FindDefer(d, id)
        decreases d
      {
        if d.head.id == id {
          return Some(d.head);
        }
        d := d.tail;
      }
      return None;
    }

    /* ----------------------------- statement lists ----------------------------- */

    method LowerAstList(ss: List<Stmt>) returns (code: List<CStmt>)
      modifies this
      ensures Out(View(), code) == LowerList(AsWritten, ss, old(View()))
      decreases ss, 0
    {
      code := Nil;
      var s := ss;
      while s.Cons?
        invariant s == ss || s < ss
        invariant var o := LowerList(AsWritten, s, View());
                  LowerList(AsWritten, ss, old(View())) == Out(o.ctx, Append(code, o.code))
        decreases s
      {
        ghost var before, tail := View(), LowerList(AsWritten, s.tail, Lower(AsWritten, s.head, View()).ctx);
        var st := LowerStmt(s.head);
        AppendAssoc(code, st, tail.code);
        code := Append(code, st);
        s := s.tail;
      }
      AppendNil(code);
    }

    /** What a block declares is forgotten at its end. */
    method LowerBlockNode(ss: List<Stmt>) returns (code: List<CStmt>)
      modifies this
      ensures Out(View(), code) == LowerBlock(AsWritten, ss, old(View()))
      decreases ss, 1
    {
      var saved := locals;
      code := LowerAstList(ss);
      locals := saved;
    }

    method LowerTryPrefixNode(t: Try) returns (code: List<CStmt>)
      modifies this
      ensures Out(View(), code) == LowerTryPrefix(AsWritten, t, old(View()))
      decreases t, 0
    {
      code := LowerStmt(t.setup);
      var ok := LowerE(t.ok, View());
      var tail := Nil;
      if t.tail.Some? {
        tail := LowerStmt(t.tail.value);
      }
      code := Append(code, Single(CIf(CUnary(LNot, ok), tail, Nil)));
    }

    /** The entry: prelude, statement, postlude. */
    method LowerStmt(s: Stmt) returns (code: List<CStmt>)
      modifies this
      ensures Out(View(), code) == Lower(AsWritten, s, old(View()))
      decreases s, 2
    {
      if s.Decorated? {
        var a := LowerAstList(s.pre);
        var b := Nil;
        if s.core.Some? {
          b := LowerStmt(s.core.value);
        }
        var d := LowerAstList(s.post);
        code := Append(a, Append(b, d));
      } else {
        code := LowerStmtCore(s);
      }
    }

    method LowerStmtCore(s: Stmt) returns (code: List<CStmt>)
      requires !s.Decorated?
      modifies this
      ensures Out(View(), code) == Lower(AsWritten, s, old(View()))
      decreases s, 1
    {
      match s
      case VarDef(x, init) => code := LowerVarDef(s);
      case Assign(x, aop, e) => code := Single(LowerAssign(x, aop, LowerE(e, View()), View()));
      case AssignTry(x, aop, t) =>
        code := LowerTryPrefixNode(t);
        // the operator of the assignment is not carried over
        code := Single(CBlock(Append(code, Single(LowerAssign(x, None, LowerE(t.value, View()), View())))));
      case ExprStmt(e) => code := Single(CEval(LowerE(e, View())));
      case Return(v, ds) => code := LowerReturnNode(LowerOpt(v, View()), ds);
      case ReturnTry(t, ds) =>
        var pre := LowerTryPrefixNode(t);
        code := LowerReturnNode(Some(LowerE(t.value, View())), ds);
        code := Single(CBlock(Append(pre, code)));
      case Break(ds) => code := LowerJumpNode(CBreak, ds);
      case Continue(ds) => code := LowerJumpNode(CContinue, ds);
      case If(e, thn, els) => code := LowerIf(s);
      case Switch(e, arms) => code := LowerSwitch(s);
      case While(e, body) =>
        var x := LowerE(e, View());
        code := LowerBlockNode(body);
        code := Single(CWhile(x, code));
      case DoWhile(body, e) =>
        var x := LowerE(e, View());
        code := LowerBlockNode(body);
        code := Single(CDoWhile(code, x));
      case For(start, test, step, body) => code := LowerFor(s);
      case Block(body) => code := LowerBlockNode(body);
      case DeferDef(id, captures, _) => code := RegisterDefer(s);
      case DeferCall(id, body) => code := InlineDefer(s);
      case LocalFn(params, body, _) => code := LowerLocalFn(s);
    }

    method LowerVarDef(s: Stmt) returns (code: List<CStmt>)
      requires s.VarDef?
      modifies this
      ensures Out(View(), code) == Lower(AsWritten, s, old(View()))
      decreases s, 0
    {
      RegisterLocal(s.name);
      var cname := LookupLocalCname(s.name);
      var target := Sym(cname.value);
      match s.init
      case NoInit => code := Single(CVar(target, None));
      case InitExpr(e) => code := Single(CVar(target, Some(LowerE(e, View()))));
      case InitTry(t) =>
        var pre := LowerTryPrefixNode(t);
        var store := LowerAssign(s.name, None, LowerE(t.value, View()), View());
        code := Cons(CVar(target, None), Single(CBlock(Append(pre, Single(store)))));
    }

    method LowerReturnNode(v: Option<CExpr>, ds: List<Stmt>) returns (code: List<CStmt>)
      modifies this
      ensures Out(View(), code) == LowerReturn(AsWritten, v, ds, old(View()))
      decreases ds, 2
    {
      if ds.Nil? {
        return Single(CReturn(v));
      }
      if v.Some? && !retVoid {
        var tmp := RetTmp(retSeq);
        retSeq := retSeq + 1;
        var clean := LowerAstList(ds);
        code := Single(CBlock(Cons(CVar(tmp, v), Append(clean, Single(CReturn(Some(CIdent(tmp))))))));
      } else {
        var clean := LowerAstList(ds);
        code := Single(CBlock(Append(clean, Single(CReturn(v)))));
      }
    }

    method LowerJumpNode(jump: CStmt, ds: List<Stmt>) returns (code: List<CStmt>)
      modifies this
      ensures Out(View(), code) == LowerJump(AsWritten, jump, ds, old(View()))
      decreases ds, 2
    {
      code := Single(jump);
      if ds.Cons? {
        code := LowerAstList(ds);
        code := Single(CBlock(Append(code, Single(jump))));
      }
    }

    method LowerIf(s: Stmt) returns (code: List<CStmt>)
      requires s.If?
      modifies this
      ensures Out(View(), code) == Lower(AsWritten, s, old(View()))
      decreases s, 0
    {
      var x := LowerE(s.cond, View());
      var thn := LowerBlockNode(s.body);
      var els := Nil;
      match s.els
      case NoElse => code := Single(CIf(x, thn, Nil));
      case ElseBlock(body) =>
        els := LowerBlockNode(body);
        code := Single(CIf(x, thn, els));
      case ElseIf(s') =>
        els := LowerStmt(s');
        code := Single(CIf(x, thn, els));
    }

    method LowerFor(s: Stmt) returns (code: List<CStmt>)
      requires s.For?
      modifies this
      ensures Out(View(), code) == Lower(AsWritten, s, old(View()))
      decreases s, 0
    {
      var init := Nil;
      if s.start.Some? {
        init := LowerStmt(s.start.value);
      }
      var test, step := LowerOpt(s.test, View()), LowerOpt(s.step, View());
      code := LowerBlockNode(s.body);
      code := Single(CFor(init, test, step, code));
    }

    /** `tmp == p1 || tmp == p2 ...` for the patterns of one branch. */
    method LowerPatterns(tmp: CName, e: Expr, es: List<Expr>) returns (cond: CExpr)
      ensures cond == OrChain(PatternTest(tmp, e, View()), tmp, es, View())
    {
      cond := PatternTest(tmp, e, View());
      var rest := es;
      while rest.Cons?
        invariant OrChain(cond, tmp, rest, View()) == OrChain(PatternTest(tmp, e, View()), tmp, es, View())
        decreases rest
      {
        cond := CBinary(OrOr, cond, PatternTest(tmp, rest.head, View()));
        rest := rest.tail;
      }
    }

    method LowerSwitch(s: Stmt) returns (code: List<CStmt>)
      requires s.Switch?
      modifies this
      ensures Out(View(), code) == Lower(AsWritten, s, old(View()))
      decreases s, 0
    {
      var x := LowerE(s.cond, View());
      var tmp := SwitchTmp(switchSeq);
      switchSeq := switchSeq + 1;
      code := LowerCases(tmp, s.arms);
      code := Single(CBlock(Cons(CVar(tmp, Some(x)), code)));
    }

    method LowerCases(tmp: CName, arms: Arms) returns (code: List<CStmt>)
      modifies this
      ensures Out(View(), code) == LowerArms(AsWritten, tmp, arms, old(View()))
      decreases arms, 0
    {
      var branches: seq<Branch> := [];
      var rest := arms;
      while rest.Arm?
        invariant rest == arms || rest < arms
        invariant var o := LowerArms(AsWritten, tmp, rest, View());
                  LowerArms(AsWritten, tmp, arms, old(View())) == Out(o.ctx, Chained(branches, o.code))
        decreases rest
      {
        if rest.patterns.Cons? {
          var cond := LowerPatterns(tmp, rest.patterns.head, rest.patterns.tail);
          var body := LowerBlockNode(rest.body);
          ChainedSnoc(branches, Branch(cond, body), LowerArms(AsWritten, tmp, rest.rest, View()).code);
          branches := branches + [Branch(cond, body)];
        }
        rest := rest.rest;
      }
      ghost var o := LowerArms(AsWritten, tmp, rest, View());
      code := Nil;
      if rest.dflt.Some? {
        code := LowerBlockNode(rest.dflt.value);
      }
      assert Out(View(), code) == o;
      var k := |branches|;
      assert branches[..k] == branches;
      while k > 0
        invariant 0 <= k <= |branches| && Chained(branches[..k], code) == Chained(branches, o.code)
        invariant View() == o.ctx
      {
        k := k - 1;
        assert branches[..k + 1] == branches[..k] + [branches[k]];
        ChainedSnoc(branches[..k], branches[k], code);
        code := Single(CIf(branches[k].cond, branches[k].body, code));
      }
      assert branches[..0] == [];
    }

    /** The captured values are copied into a struct where the defer is registered. */
    method RegisterDefer(s: Stmt) returns (code: List<CStmt>)
      requires s.DeferDef?
      modifies this
      ensures Out(View(), code) == Lower(AsWritten, s, old(View()))
    {
      if s.captures.Nil? {
        defers := Cons(DeferEntry(s.id, None), defers);
        return Nil;
      }
      code := Single(CVarStruct(DeferEnv(deferSeq), LowerCaptures(s.captures, View())));
      defers := Cons(DeferEntry(s.id, Some(deferSeq)), defers);
      deferSeq := deferSeq + 1;
    }

    method InlineDefer(s: Stmt) returns (code: List<CStmt>)
      requires s.DeferCall?
      modifies this
      ensures Out(View(), code) == Lower(AsWritten, s, old(View()))
      decreases s, 0
    {
      var d := FindDeferEntry(s.id);
      if d.None? {
        return Single(CEval(CCall(s.id, Nil)));
      }
      var saved := ctxEnv;
      ctxEnv := d.value.env;
      code := LowerBlockNode(s.body);
      ctxEnv := saved;
      code := Single(CBlock(code));
    }

    /** A nested function starts over, with its own result; the list of taken names is
        not restored. */
    method LowerLocalFn(s: Stmt) returns (code: List<CStmt>)
      requires s.LocalFn?
      modifies this
      ensures Out(View(), code) == Lower(AsWritten, s, old(View()))
      decreases s, 0
    {
      hide LowerBlock;
      hide RegisterAll;
      var savedLocals, savedDefers, savedRetSeq, savedVoid := locals, defers, retSeq, retVoid;
      var savedHung := hung;
      var body := LowerNestedBody(s.params, s.body, s.void);
      locals, defers, retSeq, retVoid := savedLocals, savedDefers, savedRetSeq, savedVoid;
      hung := savedHung || hung;
      code := Single(CNested(ParamSymbols(prefix, s.params), body));
    }

    /** The nested function itself, with the scopes and the result of a new one. */
    method LowerNestedBody(params: List<string>, body: List<Stmt>, void: bool) returns (code: List<CStmt>)
      modifies this
      ensures Out(View(), code) ==
              LowerBlock(AsWritten, body, RegisterAll(params, FunctionStart(AsWritten, old(View()), void)))
      decreases body, 2
    {
      locals, localDecls, defers, retSeq, retVoid, hung := Nil, Nil, Nil, 0, void, false;
      assert View() == FunctionStart(AsWritten, old(View()), void);
      RegisterParams(params);
      code := LowerBlockNode(body);
    }

    method RegisterParams(params: List<string>)
      modifies this`locals, this`localDecls, this`hung
      ensures View() == RegisterAll(params, old(View()))
    {
      var rest := params;
      while rest.Cons?
        invariant RegisterAll(rest, View()) == RegisterAll(params, old(View()))
        decreases rest
      {
        RegisterLocal(rest.head);
        rest := rest.tail;
      }
    }

    /** A function of the module: fresh scopes, then the body.  What it emits is the
        code that the theorems of Correctness are about. */
    method LowerFunction(ghost p: Program, f: Function) returns (code: List<CStmt>)
      requires p.prefix == prefix && ctxEnv == None && !hung
      modifies this
      ensures code == Body(AsWritten, p, f, old(switchSeq), old(deferSeq))
      ensures View() == LowerBlock(AsWritten, f.body, BodyContext(p, f, old(switchSeq), old(deferSeq))).ctx
      ensures ctxEnv == None
    {
      locals, localDecls, defers, retVoid, retSeq := Nil, Nil, Nil, f.void, 0;
      RegisterParams(f.params);
      code := LowerBlockNode(f.body);
    }
  }
}
