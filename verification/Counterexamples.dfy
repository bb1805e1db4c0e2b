/** What the compiler emits when one of the conditions of the main theorem is not
    met: small programs whose generated code means something else. */
module Counterexamples {
  import opened Lists
  import opened Naming
  import opened Syntax
  import opened SourceSemantics
  import opened TargetSemantics
  import opened Lowering
  import opened Freshness
  import opened Frames
  import opened Spelling
  import opened Containment
  import opened Correctness

  /** `var x = x;` reads the outer x in the source.  The local is registered
      before its initialiser is lowered, so the C code reads the new variable
      before it has a value. */
  lemma OwnNameInInitialiser(p: Program, x: string, c: Ctx, s: Src, t: Tgt, fuel: nat)
    requires ReadVar(p, x, s).Some?
    ensures Exec(p, VarDef(x, InitExpr(Ident(x))), s, fuel) == Ans(Normal, Declare(x, ReadVar(p, x, s), s))
    ensures RunList(p, Lower(AsWritten, VarDef(x, InitExpr(Ident(x))), c).code, t, fuel).o == Wrong
  {
    var n := Sym(FreshName(c, x));
    assert Resolve(Register(c, x), x) == n;
    assert Lower(AsWritten, VarDef(x, InitExpr(Ident(x))), c).code == Single(CVar(n, Some(CIdent(n))));
    assert EvalC(p, CIdent(n), Push(n, Unset, t)).Halt?;
  }

  /** `for (var x = 1; 0;) {}  return x;` returns the outer x in the source.  The
      name of the header stays registered, so the C code asks for a variable that
      went out of scope with the braces of the loop. */
  lemma NameOfForHeader(p: Program, x: string, c: Ctx, s: Src, t: Tgt, fuel: nat)
    requires fuel > 0 && ReadVar(p, x, s).Some?
    requires FreshName(c, x) !in p.symtab && Lookup(t.env, Sym(FreshName(c, x))).None?
    ensures var loop := For(Some(VarDef(x, InitExpr(Lit(1)))), Some(Lit(0)), None, Nil);
            var ss := Cons(loop, Single(Return(Some(Ident(x)), Nil)));
            && ExecList(p, ss, s, fuel).o == Returned(ReadVar(p, x, s))
            && RunList(p, LowerList(AsWritten, ss, c).code, t, fuel).o == Wrong
  {
    hide FreshName;
    HeaderSource(p, x, s, fuel);
    HeaderTarget(p, Sym(FreshName(c, x)), t, fuel);
    var init, ret := VarDef(x, InitExpr(Lit(1))), Return(Some(Ident(x)), Nil);
    var loop := For(Some(init), Some(Lit(0)), None, Nil);
    var n, c1 := Sym(FreshName(c, x)), Register(c, x);
    assert Resolve(c1, x) == n;
    var cinit, cret := CVar(n, Some(CLit(1))), CReturn(Some(CIdent(n)));
    var cloop := CFor(Single(cinit), Some(CLit(0)), None, Nil);
    assert Lower(AsWritten, init, c) == Out(c1, Single(cinit));
    assert LowerList(AsWritten, Nil, c1) == Out(c1, Nil);
    assert LowerBlock(AsWritten, Nil, c1) == Out(c1, Nil);
    assert Lower(AsWritten, loop, c) == Out(c1, Single(cloop));
    assert Lower(AsWritten, ret, c1) == Out(c1, Single(cret));
    LowerOne(AsWritten, ret, c1, c1, cret);
    LowerMore(AsWritten, loop, Single(ret), c, c1, cloop, Out(c1, Single(cret)));
  }

  lemma HeaderSource(p: Program, x: string, s: Src, fuel: nat)
    requires fuel > 0 && ReadVar(p, x, s).Some?
    ensures var loop := For(Some(VarDef(x, InitExpr(Lit(1)))), Some(Lit(0)), None, Nil);
            ExecList(p, Cons(loop, Single(Return(Some(Ident(x)), Nil))), s, fuel).o == Returned(ReadVar(p, x, s))
  {
    var init, ret := VarDef(x, InitExpr(Lit(1))), Return(Some(Ident(x)), Nil);
    var loop := For(Some(init), Some(Lit(0)), None, Nil);
    var s1 := Declare(x, Some(1), s);
    assert Exec(p, init, s, fuel) == Ans(Normal, s1);
    assert Eval(p, Lit(0), s1) == Val(0, s1);
    assert Loop(p, Some(Lit(0)), None, Nil, s1, fuel) == Ans(Normal, s1);
    KeepAll(s.vars);
    KeepAll(s.clos);
    assert Keep(s1.vars, Len(s.vars)) == s.vars;
    assert PopTo(s1, s) == s;
    assert Exec(p, loop, s, fuel) == Ans(Normal, s);
    ReturnsName(p, x, s, fuel);
  }

  lemma HeaderTarget(p: Program, n: CName, t: Tgt, fuel: nat)
    requires fuel > 0 && n.Sym? && n.text !in p.symtab && Lookup(t.env, n).None?
    ensures var loop := CFor(Single(CVar(n, Some(CLit(1)))), Some(CLit(0)), None, Nil);
            RunList(p, Cons(loop, Single(CReturn(Some(CIdent(n))))), t, fuel).o == Wrong
  {
    var cinit, cret := CVar(n, Some(CLit(1))), CReturn(Some(CIdent(n)));
    var cloop := CFor(Single(cinit), Some(CLit(0)), None, Nil);
    var t1 := Push(n, Int(1), t);
    assert Run(p, cinit, t, fuel) == Ans(Normal, t1);
    assert RunList(p, Nil, t1, fuel) == Ans(Normal, t1);
    assert RunList(p, Single(cinit), t, fuel) == Ans(Normal, t1);
    assert EvalC(p, CLit(0), t1) == Val(0, t1);
    assert LoopC(p, Some(CLit(0)), None, Nil, t1, fuel) == Ans(Normal, t1);
    KeepAll(t.env);
    assert Keep(t1.env, Len(t.env)) == t.env;
    assert PopBrace(t1, t) == t;
    assert Run(p, cloop, t, fuel) == Ans(Normal, t);
    assert Run(p, cret, t, fuel).o == Wrong;
    assert RunList(p, Single(cret), t, fuel).o == Wrong;
  }

  /** Chains of statements that each become one instruction. */
  lemma LowerOne(m: Mode, x: Stmt, c: Ctx, c1: Ctx, i: CStmt)
    requires Lower(m, x, c) == Out(c1, Single(i))
    ensures LowerList(m, Single(x), c) == Out(c1, Single(i))
  {
    assert LowerList(m, Nil, c1) == Out(c1, Nil);
    AppendNil(Single(i));
  }

  lemma LowerMore(m: Mode, x: Stmt, rest: List<Stmt>, c: Ctx, c1: Ctx, i: CStmt, o: Out)
    requires Lower(m, x, c) == Out(c1, Single(i)) && LowerList(m, rest, c1) == o
    ensures LowerList(m, Cons(x, rest), c) == Out(o.ctx, Cons(i, o.code))
  {
    assert Append(Single(i), o.code) == Cons(i, Append(Nil, o.code));
  }

  lemma KeepAll<T>(xs: List<T>)
    ensures Keep(xs, Len(xs)) == xs
  {
  }

  /** `{ var g = 1; }  return g;` with a global g.  The block is flattened and the
      first local g is spelled like the global, so C returns the local. */
  lemma LocalSpelledLikeGlobal(p: Program, g: string, c: Ctx, s: Src, t: Tgt, fuel: nat)
    requires g in p.globals && g in s.globals && FindSlot(s.vars, g).None?
    requires c.prefix == p.prefix && FindLocal(c.locals, g).None? && GlobalSym(p.prefix, g) !in c.decls
    ensures var ss := Cons(Block(Single(VarDef(g, InitExpr(Lit(1))))), Single(Return(Some(Ident(g)), Nil)));
            var code := LowerList(AsWritten, ss, c).code;
            && ExecList(p, ss, s, fuel).o == Returned(Some(s.globals[g]))
            && RunList(p, Spell(code), t, fuel).o == Returned(Some(1))
            && LowerList(Intended, ss, c).code == code && !NoCapture(code, BoundNames(t.env))
  {
    CapturedSource(p, g, s, fuel);
    var decl, ret := VarDef(g, InitExpr(Lit(1))), Return(Some(Ident(g)), Nil);
    var block := Block(Single(decl));
    var base := GlobalSym(p.prefix, g);
    var cdecl, cret := CVar(Sym(base), Some(CLit(1))), CReturn(Some(CIdent(Glob(base))));
    CapturedCode(p, g, c, AsWritten);
    CapturedCode(p, g, c, Intended);
    hide LowerList;
    CapturedTarget(p, base, t, fuel);
    assert !NoCaptureIn(cret, BoundNames(t.env) + {Sym(base)});
    assert !NoCapture(Single(cret), BoundNames(t.env) + Opens(cdecl));
  }

  lemma CapturedTarget(p: Program, base: string, t: Tgt, fuel: nat)
    ensures var code := Cons(CVar(Sym(base), Some(CLit(1))), Single(CReturn(Some(CIdent(Glob(base))))));
            RunList(p, Spell(code), t, fuel).o == Returned(Some(1))
  {
    var cdecl, cret := CVar(Sym(base), Some(CLit(1))), CReturn(Some(CIdent(Glob(base))));
    var tret := CReturn(Some(CIdent(Sym(base))));
    assert Spell(Cons(cdecl, Single(cret))) == Cons(cdecl, Single(tret)) by {
      assert SpellIn(cret) == tret && SpellIn(cdecl) == cdecl;
      assert Spell(Single(cret)) == Single(tret);
    }
    var t1 := Push(Sym(base), Int(1), t);
    assert Run(p, cdecl, t, fuel) == Ans(Normal, t1);
    assert Run(p, tret, t1, fuel).o == Returned(Some(1));
    assert RunList(p, Single(tret), t1, fuel) == Run(p, tret, t1, fuel);
  }

  lemma CapturedCode(p: Program, g: string, c: Ctx, m: Mode)
    requires c.prefix == p.prefix && FindLocal(c.locals, g).None? && GlobalSym(p.prefix, g) !in c.decls
    ensures var ss := Cons(Block(Single(VarDef(g, InitExpr(Lit(1))))), Single(Return(Some(Ident(g)), Nil)));
            var base := GlobalSym(p.prefix, g);
            LowerList(m, ss, c).code ==
            Cons(CVar(Sym(base), Some(CLit(1))), Single(CReturn(Some(CIdent(Glob(base))))))
  {
    var decl, ret := VarDef(g, InitExpr(Lit(1))), Return(Some(Ident(g)), Nil);
    var block := Block(Single(decl));
    var base, c1 := GlobalSym(p.prefix, g), Register(c, g);
    assert FreshName(c, g) == base;
    var cdecl, cret := CVar(Sym(base), Some(CLit(1))), CReturn(Some(CIdent(Glob(base))));
    assert Lower(m, decl, c) == Out(c1, Single(cdecl));
    LowerOne(m, decl, c, c1, cdecl);
    var c2 := BlockEnd(m, c, c1);
    assert LowerBlock(m, Single(decl), c) == Out(c2, Single(cdecl));
    assert Lower(m, block, c) == Out(c2, Single(cdecl));
    assert Resolve(c2, g) == Glob(base);
    assert Lower(m, ret, c2) == Out(c2, Single(cret));
    LowerOne(m, ret, c2, c2, cret);
    LowerMore(m, block, Single(ret), c, c2, cdecl, Out(c2, Single(cret)));
  }

  lemma CapturedSource(p: Program, g: string, s: Src, fuel: nat)
    requires ReadVar(p, g, s).Some?
    ensures ExecList(p, Cons(Block(Single(VarDef(g, InitExpr(Lit(1))))), Single(Return(Some(Ident(g)), Nil))), s,
                     fuel).o == Returned(ReadVar(p, g, s))
  {
    var decl, ret := VarDef(g, InitExpr(Lit(1))), Return(Some(Ident(g)), Nil);
    var block := Block(Single(decl));
    var s1 := Declare(g, Some(1), s);
    assert Exec(p, decl, s, fuel) == Ans(Normal, s1);
    assert ExecList(p, Nil, s1, fuel) == Ans(Normal, s1);
    assert ExecList(p, Single(decl), s, fuel) == Ans(Normal, s1);
    KeepAll(s.vars);
    KeepAll(s.clos);
    assert Keep(s1.vars, Len(s.vars)) == s.vars;
    assert PopTo(s1, s) == s;
    assert ExecScope(p, Single(decl), s, fuel) == Ans(Normal, s);
    assert Exec(p, block, s, fuel) == Ans(Normal, s);
    ReturnsName(p, g, s, fuel);
  }

  /** `var g = 2; return g;` with a global g hides the global, but captures no
      mention of it: the main theorem covers the function. */
  lemma HarmlessShadow(p: Program, g: string)
    requires LinksGlobals(p)
    ensures var f := Function(Nil, Cons(VarDef(g, InitExpr(Lit(2))), Single(Return(Some(Ident(g)), Nil))), false);
            WellFormed(p, f, 0, 0) && CleanFunction(p, f, 0, 0)
  {
    var decl, ret := VarDef(g, InitExpr(Lit(2))), Return(Some(Ident(g)), Nil);
    var body := Cons(decl, Single(ret));
    var f := Function(Nil, body, false);
    var c := BodyContext(p, f, 0, 0);
    var n, c1 := Sym(GlobalSym(p.prefix, g)), Register(c, g);
    assert FreshName(c, g) == GlobalSym(p.prefix, g);
    var cdecl, cret := CVar(n, Some(CLit(2))), CReturn(Some(CIdent(n)));
    forall m: Mode
      ensures LowerBlock(m, body, c).code == Cons(cdecl, Single(cret))
    {
      assert Lower(m, decl, c) == Out(c1, Single(cdecl));
      assert Resolve(c1, g) == n;
      assert Lower(m, ret, c1) == Out(c1, Single(cret));
      LowerOne(m, ret, c1, c1, cret);
      LowerMore(m, decl, Single(ret), c, c1, cdecl, Out(c1, Single(cret)));
    }
    assert Body(Intended, p, f, 0, 0) == Cons(cdecl, Single(cret));
    var scope := ParamScope(p, Nil);
    assert NoCaptureIn(cret, scope + {n}) && NoCaptureIn(cdecl, scope);
    assert NoCapture(Single(cret), scope + Opens(cdecl)) by {
      assert NoCapture(Nil, scope + Opens(cdecl) + Opens(cret));
    }
    assert ContainedIn(decl, true) && ContainedIn(ret, true) by {
      assert Contained(Nil, true);
    }
    assert Contained(Single(ret), true);
    AsWrittenIffClean(p, f, 0, 0);
    CaptureFromText(p, f, 0, 0);
  }

  lemma ReturnsName(p: Program, x: string, s: Src, fuel: nat)
    requires ReadVar(p, x, s).Some?
    ensures ExecList(p, Single(Return(Some(Ident(x)), Nil)), s, fuel).o == Returned(ReadVar(p, x, s))
  {
    var ret := Return(Some(Ident(x)), Nil);
    assert Eval(p, Ident(x), s) == Val(ReadVar(p, x, s).value, s);
    assert ExecScope(p, Nil, s, fuel).o == Normal;
    assert Exec(p, ret, s, fuel).o == Returned(ReadVar(p, x, s));
    assert ExecList(p, Single(ret), s, fuel) == Exec(p, ret, s, fuel);
  }

  /** `var x = 1; func () {} if (1) { { var x = 2; } return x; }` returns 1 in the
      source.  Lowering the nested function empties the set of taken names, so the
      second x gets the C name of the first; its block is flattened into the braces
      of the branch, and C returns 2. */
  lemma NestedFunctionForgetsNames(p: Program, x: string, c: Ctx, s: Src, t: Tgt, fuel: nat)
    requires GlobalSym(c.prefix, x) !in c.decls
    ensures var branch := Cons(Block(Single(VarDef(x, InitExpr(Lit(2))))), Single(Return(Some(Ident(x)), Nil)));
            var ss := Cons(VarDef(x, InitExpr(Lit(1))),
                      Cons(LocalFn(Nil, Nil, true), Single(If(Lit(1), branch, NoElse))));
            var code := LowerList(AsWritten, ss, c).code;
            && ExecList(p, ss, s, fuel).o == Returned(Some(1))
            && RunList(p, Spell(code), t, fuel).o == Returned(Some(2))
            && !DeclaredOnce(code)
  {
    NestedSource(p, x, s, fuel);
    var code := NestedCode(x, c);
    var n := Sym(GlobalSym(c.prefix, x));
    NestedTarget(p, n, t, fuel);
    var v2, cret := CVar(n, Some(CLit(2))), CReturn(Some(CIdent(n)));
    var i := code.tail.tail.head;
    assert n in Declares(Cons(v2, Single(cret)));
    assert n in DeclaresIn(i) && n in Declares(Single(i)) && n in Declares(code.tail);
    assert Spell(code) == code by {
      assert SpellIn(cret) == cret && SpellIn(v2) == v2;
      assert Spell(Cons(v2, Single(cret))) == Cons(v2, Single(cret));
      assert SpellIn(i) == i;
      assert Spell(code.tail) == code.tail;
    }
  }

  lemma NestedSource(p: Program, x: string, s: Src, fuel: nat)
    ensures var branch := Cons(Block(Single(VarDef(x, InitExpr(Lit(2))))), Single(Return(Some(Ident(x)), Nil)));
            var ss := Cons(VarDef(x, InitExpr(Lit(1))),
                      Cons(LocalFn(Nil, Nil, true), Single(If(Lit(1), branch, NoElse))));
            ExecList(p, ss, s, fuel).o == Returned(Some(1))
  {
    var branch := Cons(Block(Single(VarDef(x, InitExpr(Lit(2))))), Single(Return(Some(Ident(x)), Nil)));
    var d1, fn, cond := VarDef(x, InitExpr(Lit(1))), LocalFn(Nil, Nil, true), If(Lit(1), branch, NoElse);
    var s1 := Declare(x, Some(1), s);
    BranchReturnsOuter(p, x, s1, fuel);
    assert Exec(p, d1, s, fuel) == Ans(Normal, s1);
    assert Exec(p, fn, s1, fuel) == Ans(Normal, s1);
    assert ExecList(p, Single(cond), s1, fuel) == Exec(p, cond, s1, fuel);
    assert ExecList(p, Cons(fn, Single(cond)), s1, fuel) == ExecList(p, Single(cond), s1, fuel);
  }

  lemma NestedCode(x: string, c: Ctx) returns (code: List<CStmt>)
    requires GlobalSym(c.prefix, x) !in c.decls
    ensures var branch := Cons(Block(Single(VarDef(x, InitExpr(Lit(2))))), Single(Return(Some(Ident(x)), Nil)));
            var ss := Cons(VarDef(x, InitExpr(Lit(1))),
                      Cons(LocalFn(Nil, Nil, true), Single(If(Lit(1), branch, NoElse))));
            var n := Sym(GlobalSym(c.prefix, x));
            && code == LowerList(AsWritten, ss, c).code
            && code == Cons(CVar(n, Some(CLit(1))), Cons(CNested(Nil, Nil),
                 Single(CIf(CLit(1), Cons(CVar(n, Some(CLit(2))), Single(CReturn(Some(CIdent(n))))), Nil))))
  {
    var branch := Cons(Block(Single(VarDef(x, InitExpr(Lit(2))))), Single(Return(Some(Ident(x)), Nil)));
    var d1, fn, cond := VarDef(x, InitExpr(Lit(1))), LocalFn(Nil, Nil, true), If(Lit(1), branch, NoElse);
    var n, c1 := Sym(GlobalSym(c.prefix, x)), Register(c, x);
    assert FreshName(c, x) == n.text;
    var v1, cfn := CVar(n, Some(CLit(1))), CNested(Nil, Nil);
    assert Lower(AsWritten, d1, c) == Out(c1, Single(v1));
    var f := FunctionStart(AsWritten, c1, true);
    assert LowerList(AsWritten, Nil, f) == Out(f, Nil);
    assert LowerBlock(AsWritten, Nil, RegisterAll(Nil, f)) == Out(f, Nil);
    var c2 := c1.(decls := {});
    assert Lower(AsWritten, fn, c1) == Out(c2, Single(cfn));
    var c3 := BranchCode(x, c2);
    var i := CIf(CLit(1), Cons(CVar(n, Some(CLit(2))), Single(CReturn(Some(CIdent(n))))), Nil);
    LowerOne(AsWritten, cond, c2, c3, i);
    LowerMore(AsWritten, fn, Single(cond), c1, c2, cfn, Out(c3, Single(i)));
    LowerMore(AsWritten, d1, Cons(fn, Single(cond)), c, c1, v1, Out(c3, Cons(cfn, Single(i))));
    code := Cons(v1, Cons(cfn, Single(i)));
  }

  lemma BranchReturnsOuter(p: Program, x: string, s: Src, fuel: nat)
    requires ReadVar(p, x, s).Some?
    ensures var branch := Cons(Block(Single(VarDef(x, InitExpr(Lit(2))))), Single(Return(Some(Ident(x)), Nil)));
            Exec(p, If(Lit(1), branch, NoElse), s, fuel).o == Returned(ReadVar(p, x, s))
  {
    var d, ret := VarDef(x, InitExpr(Lit(2))), Return(Some(Ident(x)), Nil);
    var block := Block(Single(d));
    var s1 := Declare(x, Some(2), s);
    assert Exec(p, d, s, fuel) == Ans(Normal, s1);
    assert ExecList(p, Nil, s1, fuel) == Ans(Normal, s1);
    assert ExecList(p, Single(d), s, fuel) == Ans(Normal, s1);
    KeepAll(s.vars);
    KeepAll(s.clos);
    assert Keep(s1.vars, Len(s.vars)) == s.vars;
    assert PopTo(s1, s) == s;
    assert ExecScope(p, Single(d), s, fuel) == Ans(Normal, s);
    assert Exec(p, block, s, fuel) == Ans(Normal, s);
    ReturnsName(p, x, s, fuel);
    assert ExecList(p, Cons(block, Single(ret)), s, fuel) == ExecList(p, Single(ret), s, fuel);
    assert Eval(p, Lit(1), s) == Val(1, s);
  }

  /** With no name taken the inner x is named like the outer one. */
  lemma BranchCode(x: string, c: Ctx) returns (c': Ctx)
    requires c.decls == {}
    ensures var n := Sym(GlobalSym(c.prefix, x));
            var branch := Cons(Block(Single(VarDef(x, InitExpr(Lit(2))))), Single(Return(Some(Ident(x)), Nil)));
            FindLocal(c.locals, x) == Some(n.text) ==>
              Lower(AsWritten, If(Lit(1), branch, NoElse), c) ==
              Out(c', Single(CIf(CLit(1), Cons(CVar(n, Some(CLit(2))), Single(CReturn(Some(CIdent(n))))), Nil)))
  {
    var d, ret := VarDef(x, InitExpr(Lit(2))), Return(Some(Ident(x)), Nil);
    var block := Block(Single(d));
    var n, c3 := Sym(GlobalSym(c.prefix, x)), Register(c, x);
    assert FreshName(c, x) == n.text;
    var v2, cret := CVar(n, Some(CLit(2))), CReturn(Some(CIdent(n)));
    assert Lower(AsWritten, d, c) == Out(c3, Single(v2));
    LowerOne(AsWritten, d, c, c3, v2);
    var c4 := BlockEnd(AsWritten, c, c3);
    assert LowerBlock(AsWritten, Single(d), c) == Out(c4, Single(v2));
    assert Lower(AsWritten, block, c) == Out(c4, Single(v2));
    c' := BlockEnd(AsWritten, c, c4);
    if FindLocal(c.locals, x) == Some(n.text) {
      assert Resolve(c4, x) == n;
      assert Lower(AsWritten, ret, c4) == Out(c4, Single(cret));
      LowerOne(AsWritten, ret, c4, c4, cret);
      LowerMore(AsWritten, block, Single(ret), c, c4, v2, Out(c4, Single(cret)));
    }
  }

  lemma NestedTarget(p: Program, n: CName, t: Tgt, fuel: nat)
    requires n.Sym?
    ensures var i := CIf(CLit(1), Cons(CVar(n, Some(CLit(2))), Single(CReturn(Some(CIdent(n))))), Nil);
            RunList(p, Cons(CVar(n, Some(CLit(1))), Cons(CNested(Nil, Nil), Single(i))), t, fuel).o == Returned(Some(2))
  {
    var v1, v2, cret := CVar(n, Some(CLit(1))), CVar(n, Some(CLit(2))), CReturn(Some(CIdent(n)));
    var i := CIf(CLit(1), Cons(v2, Single(cret)), Nil);
    var t1 := Push(n, Int(1), t);
    var t2 := Push(n, Int(2), t1);
    assert Run(p, v1, t, fuel) == Ans(Normal, t1);
    assert Run(p, v2, t1, fuel) == Ans(Normal, t2);
    assert Run(p, cret, t2, fuel).o == Returned(Some(2));
    assert RunList(p, Single(cret), t2, fuel) == Run(p, cret, t2, fuel);
    assert RunList(p, Cons(v2, Single(cret)), t1, fuel).o == Returned(Some(2));
    assert EvalC(p, CLit(1), t1) == Val(1, t1);
    assert Run(p, i, t1, fuel).o == Returned(Some(2));
    assert RunList(p, Single(i), t1, fuel) == Run(p, i, t1, fuel);
    assert RunList(p, Cons(CNested(Nil, Nil), Single(i)), t1, fuel) == RunList(p, Single(i), t1, fuel);
  }

  /** `x += e.?` is lowered to a plain assignment: the operator is lost. */
  lemma CompoundFromTry(p: Program, x: string, op: nat, t: Try, c: Ctx)
    requires x != DISCARD
    ensures Lower(AsWritten, AssignTry(x, Some(op), t), c) == Lower(AsWritten, AssignTry(x, None, t), c)
    ensures Lower(Intended, AssignTry(x, Some(op), t), c) != Lower(Intended, AssignTry(x, None, t), c)
  {
    var pre := LowerTryPrefix(Intended, t, c);
    var w := Within(Intended, c, pre.ctx);
    var e := LowerE(t.value, pre.ctx);
    AppendCancel(pre.code, Single(LowerAssign(x, Some(op), e, w)), pre.code, Single(LowerAssign(x, None, e, w)));
  }

  /** In a void function `return f();` behind a defer that calls g: the source
      calls f before g, the C code g before f. */
  lemma VoidReturnAfterDefers(p: Program, f: string, g: string, c: Ctx, s: Src, t: Tgt, fuel: nat)
    requires c.retVoid && f != g && s.trace == t.trace
    requires forall h, vs, gl, tr :: p.call(h, vs, gl, tr).Returns?
    ensures var ret := Return(Some(Call(f, Nil)), Single(ExprStmt(Call(g, Nil))));
            && Exec(p, ret, s, fuel).st.trace == s.trace + [Event(f, [])] + [Event(g, [])]
            && RunList(p, Lower(AsWritten, ret, c).code, t, fuel).st.trace == s.trace + [Event(g, [])] + [Event(f, [])]
  {
    var d := ExprStmt(Call(g, Nil));
    var ds := Single(d);
    var ret := Return(Some(Call(f, Nil)), ds);
    var r := Eval(p, Call(f, Nil), s);
    assert EvalArgs(p, Nil, s) == Vals([], s);
    assert r.Val? && r.st.trace == s.trace + [Event(f, [])];
    var r2 := Eval(p, Call(g, Nil), r.st);
    assert EvalArgs(p, Nil, r.st) == Vals([], r.st);
    assert r2.Val? && r2.st.trace == r.st.trace + [Event(g, [])];
    assert Exec(p, d, r.st, fuel) == Ans(Normal, r2.st);
    assert ExecList(p, Nil, r2.st, fuel) == Ans(Normal, r2.st);
    assert ExecList(p, ds, r.st, fuel) == Ans(Normal, r2.st);
    assert ExecScope(p, ds, r.st, fuel) == Ans(Normal, PopTo(r2.st, r.st));
    assert Exec(p, ret, s, fuel) == ExitWith(p, Returned(Some(r.v)), ds, r.st, fuel);
    // C
    var cd, cr := CEval(CCall(g, Nil)), CReturn(Some(CCall(f, Nil)));
    assert LowerE(Call(g, Nil), c) == CCall(g, Nil);
    assert Lower(AsWritten, d, c) == Out(c, Single(cd));
    LowerOne(AsWritten, d, c, c, cd);
    assert Append(Single(cd), Single(cr)) == Cons(cd, Append(Nil, Single(cr)));
    assert LowerE(Call(f, Nil), c) == CCall(f, Nil);
    var block := CBlock(Cons(cd, Single(cr)));
    assert Lower(AsWritten, ret, c).code == Single(block);
    var q := EvalC(p, CCall(g, Nil), t);
    assert EvalArgsC(p, Nil, t) == Vals([], t);
    assert q.Val? && q.st.trace == t.trace + [Event(g, [])];
    var q2 := EvalC(p, CCall(f, Nil), q.st);
    assert EvalArgsC(p, Nil, q.st) == Vals([], q.st);
    assert q2.Val? && q2.st.trace == q.st.trace + [Event(f, [])];
    assert Run(p, cd, t, fuel) == Ans(Normal, q.st);
    assert Run(p, cr, q.st, fuel) == Ans(Returned(Some(q2.v)), q2.st);
    assert RunList(p, Single(cr), q.st, fuel) == Run(p, cr, q.st, fuel);
    assert RunList(p, Cons(cd, Single(cr)), t, fuel) == Run(p, cr, q.st, fuel);
    assert Run(p, block, t, fuel).st == PopBrace(q2.st, t);
    assert RunList(p, Single(block), t, fuel).st == Run(p, block, t, fuel).st;
  }

  /** A defer body is inlined where it is called: a `return` in it only ends the
      closure in the source, but leaves the whole function in C. */
  lemma ReturnInDeferBody(p: Program, id: string, c: Ctx, s: Src, t: Tgt, fuel: nat)
    ensures var body := Single(Return(None, Nil));
            var ss := Cons(DeferDef(id, Nil, body), Single(DeferCall(id, body)));
            && ExecList(p, ss, s, fuel).o == Normal
            && RunList(p, LowerList(AsWritten, ss, c).code, t, fuel).o == Returned(None)
  {
    hide RunList;
    hide ExecList;
    hide Exec;
    hide Run;
    ReturningSource(p, id, s, fuel);
    var ret := Return(None, Nil);
    var body := Single(ret);
    var def, call := DeferDef(id, Nil, body), DeferCall(id, body);
    var k := DeferEntry(id, None);
    var c1 := c.(defers := Cons(k, c.defers));
    assert Lower(AsWritten, def, c) == Out(c1, Nil);
    assert FindDefer(c1.defers, id) == Some(k);
    var ci := DeferScope(AsWritten, k, c1);
    var cr := CReturn(None);
    assert Lower(AsWritten, ret, ci) == Out(ci, Single(cr));
    LowerOne(AsWritten, ret, ci, ci, cr);
    assert LowerBlock(AsWritten, body, ci).code == Single(cr);
    var block := CBlock(Single(cr));
    assert Lower(AsWritten, call, c1).code == Single(block);
    var c2 := Lower(AsWritten, call, c1).ctx;
    LowerOne(AsWritten, call, c1, c2, block);
    assert LowerList(AsWritten, Cons(def, Single(call)), c).code == Append(Nil, Single(block));
    ReturningTarget(p, t, fuel);
  }

  lemma ReturningTarget(p: Program, t: Tgt, fuel: nat)
    ensures RunList(p, Single(CBlock(Single(CReturn(None)))), t, fuel).o == Returned(None)
  {
    var cr := CReturn(None);
    assert RunList(p, Single(cr), t, fuel).o == Returned(None);
    assert Run(p, CBlock(Single(cr)), t, fuel).o == Returned(None);
  }

  lemma ReturningSource(p: Program, id: string, s: Src, fuel: nat)
    ensures var body := Single(Return(None, Nil));
            ExecList(p, Cons(DeferDef(id, Nil, body), Single(DeferCall(id, body))), s, fuel).o == Normal
  {
    var ret := Return(None, Nil);
    var body := Single(ret);
    var def, call := DeferDef(id, Nil, body), DeferCall(id, body);
    var s1 := s.(clos := Cons(Closure(id, Nil), s.clos));
    assert EvalCaptures(p, Nil, s) == Rec(Nil, s);
    assert Exec(p, def, s, fuel) == Ans(Normal, s1);
    var si := s1.(vars := Nil, clos := Nil, caps := Nil);
    assert ExecScope(p, Nil, si, fuel).o == Normal;
    assert Exec(p, ret, si, fuel).o == Returned(None);
    assert ExecList(p, body, si, fuel).o == Returned(None);
    assert FindClosure(s1.clos, id) == Some(Closure(id, Nil));
    assert Exec(p, call, s1, fuel).o == Normal;
    var s2 := Exec(p, call, s1, fuel).st;
    assert ExecList(p, Nil, s2, fuel).o == Normal;
    assert ExecList(p, Single(call), s1, fuel).o == Normal;
  }

  /** `{ defer d: g(); }  d();` calls whatever d names behind the block.  The compiler
      has not forgotten the defer and inlines its body, which calls g. */
  lemma DeferOutlivesBlock(p: Program, id: string, g: string, c: Ctx, s: Src, t: Tgt, fuel: nat)
    requires FindClosure(s.clos, id).None? && FindDefer(c.defers, id).None? && s.trace == t.trace
    requires forall h, vs, gl, tr :: p.call(h, vs, gl, tr).Returns?
    ensures var body := Single(ExprStmt(Call(g, Nil)));
            var block, call := Block(Single(DeferDef(id, Nil, body))), DeferCall(id, body);
            var c1 := Lower(AsWritten, block, c).ctx;
            && Exec(p, block, s, fuel) == Ans(Normal, s) && Lower(AsWritten, block, c).code == Nil
            && Exec(p, call, s, fuel).st.trace == s.trace + [Event(id, [])]
            && RunList(p, Lower(AsWritten, call, c1).code, t, fuel).st.trace == s.trace + [Event(g, [])]
            && Lower(Intended, call, Lower(Intended, block, c).ctx).code == Single(CEval(CCall(id, Nil)))
  {
    var body := Single(ExprStmt(Call(g, Nil)));
    var def, call := DeferDef(id, Nil, body), DeferCall(id, body);
    var k := DeferEntry(id, None);
    BlockDefines(p, def, s, fuel);
    forall m: Mode
      ensures Lower(m, Block(Single(def)), c) == Out(BlockEnd(m, c, c.(defers := Cons(k, c.defers))), Nil)
    {
      var c1 := c.(defers := Cons(k, c.defers));
      assert Lower(m, def, c) == Out(c1, Nil);
      assert LowerList(m, Nil, c1) == Out(c1, Nil);
      assert LowerList(m, Single(def), c) == Out(c1, Nil);
      assert LowerBlock(m, Single(def), c) == Out(BlockEnd(m, c, c1), Nil);
    }
    assert Exec(p, call, s, fuel).st.trace == s.trace + [Event(id, [])];
    var c1 := Lower(AsWritten, Block(Single(def)), c).ctx;
    assert FindDefer(c1.defers, id) == Some(k);
    CallInlined(p, g, id, k, c1, t, fuel);
  }

  lemma BlockDefines(p: Program, def: Stmt, s: Src, fuel: nat)
    requires def.DeferDef? && def.captures.Nil?
    ensures Exec(p, Block(Single(def)), s, fuel) == Ans(Normal, s)
  {
    var s1 := s.(clos := Cons(Closure(def.id, Nil), s.clos));
    assert EvalCaptures(p, Nil, s) == Rec(Nil, s);
    assert Exec(p, def, s, fuel) == Ans(Normal, s1);
    assert ExecList(p, Nil, s1, fuel) == Ans(Normal, s1);
    assert ExecList(p, Single(def), s, fuel) == Ans(Normal, s1);
    KeepAll(s.vars);
    KeepAll(s.clos);
    assert PopTo(s1, s) == s;
  }

  /** The inlined body of a defer that calls g. */
  lemma CallInlined(p: Program, g: string, id: string, k: DeferEntry, c: Ctx, t: Tgt, fuel: nat)
    requires FindDefer(c.defers, id) == Some(k)
    requires forall h, vs, gl, tr :: p.call(h, vs, gl, tr).Returns?
    ensures var call := DeferCall(id, Single(ExprStmt(Call(g, Nil))));
            RunList(p, Lower(AsWritten, call, c).code, t, fuel).st.trace == t.trace + [Event(g, [])]
  {
    var x, cx := ExprStmt(Call(g, Nil)), CEval(CCall(g, Nil));
    var ci := DeferScope(AsWritten, k, c);
    assert LowerE(Call(g, Nil), ci) == CCall(g, Nil);
    assert Lower(AsWritten, x, ci) == Out(ci, Single(cx));
    LowerOne(AsWritten, x, ci, ci, cx);
    assert LowerBlock(AsWritten, Single(x), ci).code == Single(cx);
    var block := CBlock(Single(cx));
    assert Lower(AsWritten, DeferCall(id, Single(x)), c).code == Single(block);
    var q := EvalC(p, CCall(g, Nil), t);
    assert EvalArgsC(p, Nil, t) == Vals([], t);
    assert q.Val? && q.st.trace == t.trace + [Event(g, [])];
    assert Run(p, cx, t, fuel) == Ans(Normal, q.st);
    assert RunList(p, Nil, q.st, fuel) == Ans(Normal, q.st);
    assert RunList(p, Single(cx), t, fuel) == Ans(Normal, q.st);
    assert Run(p, block, t, fuel).st == PopBrace(q.st, t);
    assert RunList(p, Single(block), t, fuel).st == Run(p, block, t, fuel).st;
  }

  /** In the body of a defer a name that is not captured means a global; where the
      body is inlined, the compiler finds the local of that name instead. */
  lemma DeferBodySeesLocals(x: string, id: string, k: DeferEntry, c: Ctx)
    requires FindDefer(c.defers, id) == Some(k) && FindLocal(c.locals, x).Some?
    ensures var call := DeferCall(id, Single(ExprStmt(Ident(x))));
            && Lower(AsWritten, call, c).code ==
               Single(CBlock(Single(CEval(CIdent(Sym(FindLocal(c.locals, x).value))))))
            && Lower(Intended, call, c).code == Single(CBlock(Single(CEval(CIdent(Glob(GlobalSym(c.prefix, x)))))))
  {
    var st := ExprStmt(Ident(x));
    forall m: Mode
      ensures Lower(m, DeferCall(id, Single(st)), c).code ==
              Single(CBlock(Single(CEval(CIdent(Resolve(DeferScope(m, k, c), x))))))
    {
      var ci := DeferScope(m, k, c);
      var cx := CEval(CIdent(Resolve(ci, x)));
      assert Lower(m, st, ci) == Out(ci, Single(cx));
      LowerOne(m, st, ci, ci, cx);
      assert LowerBlock(m, Single(st), ci).code == Single(cx);
    }
  }

  /** A function nested in the body of a defer would still see the captured values of
      the defer. */
  lemma NestedSeesCaptures(x: string, k: nat, c: Ctx)
    requires c.env == Some(k)
    ensures var fn := LocalFn(Nil, Single(Return(Some(CapRef(x)), Nil)), false);
            && Lower(AsWritten, fn, c).code == Single(CNested(Nil, Single(CReturn(Some(CCapture(Some(k), x))))))
            && Lower(Intended, fn, c).code == Single(CNested(Nil, Single(CReturn(Some(CCapture(None, x))))))
  {
    NestedReturn(AsWritten, x, c);
    NestedReturn(Intended, x, c);
  }

  lemma NestedReturn(m: Mode, x: string, c: Ctx)
    ensures Lower(m, LocalFn(Nil, Single(Return(Some(CapRef(x)), Nil)), false), c).code ==
            Single(CNested(Nil, Single(CReturn(Some(CCapture(if m.Intended? then None else c.env, x))))))
  {
    hide LowerList;
    var ret, ci := Return(Some(CapRef(x)), Nil), FunctionStart(m, c, false);
    var cr := CReturn(Some(CCapture(ci.env, x)));
    assert RegisterAll(Nil, ci) == ci && ParamSymbols(c.prefix, Nil) == Nil;
    assert Lower(m, ret, ci) == Out(ci, Single(cr));
    LowerOne(m, ret, ci, ci, cr);
  }

  /** A declaration without initialiser starts at zero in C, in both modes. */
  lemma UnsetIsZero(m: Mode, p: Program, x: string, c: Ctx, t: Tgt, fuel: nat)
    ensures var r := RunList(p, Lower(m, VarDef(x, NoInit), c).code, t, fuel);
            r.o == Normal && Lookup(r.st.env, Sym(FreshName(c, x))) == Some(Int(0))
    ensures Lower(m, VarDef(x, NoInit), c).code == Single(CVar(Sym(FreshName(c, x)), None))
  {
    hide FreshName;
    var n := Sym(FreshName(c, x));
    assert Lower(m, VarDef(x, NoInit), c).code == Single(CVar(n, None));
    assert Run(p, CVar(n, None), t, fuel) == Ans(Normal, Push(n, Int(0), t));
    assert RunList(p, Nil, Push(n, Int(0), t), fuel) == Ans(Normal, Push(n, Int(0), t));
  }

  /** `_` is no variable: what is assigned to it is evaluated and dropped. */
  lemma Underscore(m: Mode, x: string, aop: Option<nat>, e: Expr, c: Ctx)
    ensures Lower(m, Assign(x, aop, e), c).code ==
            Single(if x == "_" then CEval(LowerE(e, c)) else CAssign(Resolve(c, x), aop, LowerE(e, c)))
    ensures LowerE(AssignE(x, aop, e), c) ==
            if x == "_" then LowerE(e, c) else CAssignE(Resolve(c, x), aop, LowerE(e, c))
  {
  }
}
