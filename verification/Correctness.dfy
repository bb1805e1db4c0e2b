/** Functions as a whole: a call of the generated function does what a call of the
    source function does. */
module Correctness {
  import opened Lists
  import opened Naming
  import opened Syntax
  import opened SourceSemantics
  import opened TargetSemantics
  import opened Lowering
  import opened Freshness
  import opened Frames
  import opened Relation
  import opened Containment
  import opened Simulation
  import opened Spelling
  import opened Scoping
  import opened SourceCapture

  datatype Function = Function(params: List<string>, body: List<Stmt>, void: bool)

  /* -------------------------------- one call -------------------------------- */

  /** The context in which the body of a function is lowered; the numbering of
      temporaries goes on from the functions lowered before. */
  function BodyContext(p: Program, f: Function, switches: nat, envs: nat): Ctx {
    RegisterAll(f.params, Ctx(p.prefix, Nil, {}, Nil, None, 0, switches, envs, f.void, false))
  }

  function Body(m: Mode, p: Program, f: Function, switches: nat, envs: nat): List<CStmt> {
    LowerBlock(m, f.body, BodyContext(p, f, switches, envs)).code
  }

  /** The body as C reads it. */
  function Text(m: Mode, p: Program, f: Function, switches: nat, envs: nat): List<CStmt> {
    Spell(Body(m, p, f, switches, envs))
  }

  function BindParams(params: List<string>, args: List<int>, vars: List<Slot>): List<Slot>
    requires Len(params) == Len(args)
  {
    match params
    case Nil => vars
    case Cons(x, rest) => BindParams(rest, args.tail, Cons(Slot(x, Some(args.head)), vars))
  }

  /** The C parameters carry the plain symbols of the source parameters. */
  function BindParamsC(p: Program, params: List<string>, args: List<int>, env: List<Bind>): List<Bind>
    requires Len(params) == Len(args)
  {
    match params
    case Nil => env
    case Cons(x, rest) =>
      BindParamsC(p, rest, args.tail, Cons(Bind(Sym(GlobalSym(p.prefix, x)), Int(args.head)), env))
  }

  datatype Result = Result(o: Outcome, globals: map<string, int>, trace: seq<Event>)

  function CallSource(p: Program, f: Function, args: List<int>, globals: map<string, int>, trace: seq<Event>,
          fuel: nat): Result
    requires Len(f.params) == Len(args)
  {
    var a := ExecScope(p, f.body, Src(BindParams(f.params, args, Nil), Nil, Nil, globals, trace), fuel);
    Result(a.o, a.st.globals, a.st.trace)
  }

  function CallC(p: Program, f: Function, code: List<CStmt>, args: List<int>, globals: map<string, int>,
          trace: seq<Event>, fuel: nat): Result
    requires Len(f.params) == Len(args)
  {
    var b := RunList(p, code, Tgt(BindParamsC(p, f.params, args, Nil), globals, trace), fuel);
    Result(b.o, b.st.globals, b.st.trace)
  }

  /* -------------------------------- parameters ------------------------------- */

  function Symbols(p: Program, xs: List<string>): set<string> {
    match xs
    case Nil => {}
    case Cons(x, rest) => {GlobalSym(p.prefix, x)} + Symbols(p, rest)
  }

  /** No two parameters have the same symbol. */
  predicate SeparateParams(p: Program, xs: List<string>) {
    xs.Cons? ==> GlobalSym(p.prefix, xs.head) !in Symbols(p, xs.tail) && SeparateParams(p, xs.tail)
  }

  /** Parameters declared before xs, newest first, as the compiler lists them. */
  function PlainLocals(p: Program, xs: List<string>, before: List<Local>): List<Local> {
    match xs
    case Nil => before
    case Cons(x, rest) => PlainLocals(p, rest, Cons(Local(x, GlobalSym(p.prefix, x)), before))
  }

  lemma {:induction false} LocalsTail(p: Program, xs: List<string>, c: Ctx)
    ensures IsTail(c.locals, RegisterAll(xs, c).locals)
    ensures Len(RegisterAll(xs, c).locals) == Len(c.locals) + Len(xs)
    decreases xs
  {
    if xs.Cons? {
      var c1 := Register(c, xs.head);
      LocalsTail(p, xs.tail, c1);
      assert IsTail(c.locals, c1.locals);
      TailTrans(c.locals, c1.locals, RegisterAll(xs, c).locals);
    }
  }

  lemma {:induction false} PlainTail(p: Program, xs: List<string>, before: List<Local>)
    ensures IsTail(before, PlainLocals(p, xs, before))
    ensures Len(PlainLocals(p, xs, before)) == Len(before) + Len(xs)
  {
    if xs.Cons? {
      var l := Cons(Local(xs.head, GlobalSym(p.prefix, xs.head)), before);
      PlainTail(p, xs.tail, l);
      assert IsTail(before, l);
      TailTrans(before, l, PlainLocals(p, xs, before));
    }
  }

  /** The body finds every parameter under the name it has in the C signature
      exactly when no two parameters share a symbol (nor one with a taken name). */
  lemma {:induction false} ParamsLineUp(p: Program, xs: List<string>, c: Ctx)
    requires c.prefix == p.prefix
    ensures RegisterAll(xs, c).locals == PlainLocals(p, xs, c.locals) <==>
            SeparateParams(p, xs) && Symbols(p, xs) !! c.decls
    decreases xs
  {
    if xs.Cons? {
      var x := xs.head;
      var c1, base := Register(c, x), GlobalSym(p.prefix, x);
      ParamsLineUp(p, xs.tail, c1);
      var l := Cons(Local(x, base), c.locals);
      if base !in c.decls {
        assert c1.locals == l && c1.decls == c.decls + {base};
      } else {
        LocalsTail(p, xs.tail, c1);
        PlainTail(p, xs.tail, l);
        if RegisterAll(xs, c).locals == PlainLocals(p, xs, c.locals) {
          TailLen(c1.locals, RegisterAll(xs, c).locals);
          TailLen(l, PlainLocals(p, xs, c.locals));
          assert false;
        }
      }
    }
  }

  /* --------------------------- the call as a whole --------------------------- */

  /** After the parameters are bound, both sides are related. */
  lemma {:induction false} ParamsRelated(p: Program, xs: List<string>, args: List<int>, c: Ctx, s: Src, t: Tgt)
    requires Len(xs) == Len(args) && Related(p, c, s, t, map[])
    requires SeparateParams(p, xs) && Symbols(p, xs) !! c.decls
    ensures Related(p, RegisterAll(xs, c), s.(vars := BindParams(xs, args, s.vars)),
            t.(env := BindParamsC(p, xs, args, t.env)), map[])
    decreases xs
  {
    if xs.Cons? {
      var x := xs.head;
      var n := Sym(GlobalSym(p.prefix, x));
      var c1, s1, t1 := Register(c, x), Declare(x, Some(args.head), s), Push(n, Int(args.head), t);
      RegisterGood(p, c, x);
      RelatedPush(p, c, s, t, map[], n, Int(args.head));
      AgreeVarsPush(c.locals, s.vars, t1.env, x, GlobalSym(p.prefix, x), args.head);
      assert Related(p, c1, s1, t1, map[]) by {
        ClosElsewhere(c.defers, s.clos, t.env, t1.env, c.deferSeq);
      }
      ParamsRelated(p, xs.tail, args.tail, c1, s1, t1);
      assert BindParams(xs, args, s.vars) == BindParams(xs.tail, args.tail, s1.vars);
      assert BindParamsC(p, xs, args, t.env) == BindParamsC(p, xs.tail, args.tail, t1.env);
    }
  }

  lemma AgreeVarsPush(locals: List<Local>, vars: List<Slot>, env: List<Bind>, x: string, cname: string, v: int)
    requires AgreeVars(locals, vars, env) && Lookup(env, Sym(cname)) == Some(Int(v))
    ensures AgreeVars(Cons(Local(x, cname), locals), Cons(Slot(x, Some(v)), vars), env)
  {
  }

  /** The names in scope where the body of a C function starts. */
  function ParamScope(p: Program, xs: List<string>): set<CName> {
    set x | x in Symbols(p, xs) :: Sym(x)
  }

  lemma {:induction false} ParamsInScope(p: Program, xs: List<string>, args: List<int>, env: List<Bind>)
    requires Len(xs) == Len(args)
    ensures BoundNames(BindParamsC(p, xs, args, env)) == BoundNames(env) + ParamScope(p, xs)
    decreases xs
  {
    if xs.Cons? {
      var n := Sym(GlobalSym(p.prefix, xs.head));
      ParamsInScope(p, xs.tail, args.tail, Cons(Bind(n, Int(args.head)), env));
      assert ParamScope(p, xs) == {n} + ParamScope(p, xs.tail);
    }
  }

  /** No global that the body means has the symbol of a local in scope in C. */
  predicate NothingCaptured(p: Program, f: Function, switches: nat, envs: nat) {
    OpenList(f.body, BodyContext(p, f, switches, envs), ParamScope(p, f.params))
  }

  /** What the source text shows about captures is what happens in the code. */
  lemma CaptureFromText(p: Program, f: Function, switches: nat, envs: nat)
    ensures NothingCaptured(p, f, switches, envs) <==>
            NoCapture(Body(Intended, p, f, switches, envs), ParamScope(p, f.params))
  {
    ListOpen(f.body, BodyContext(p, f, switches, envs), ParamScope(p, f.params));
  }

  /** What a function must satisfy to be lowered faithfully: parameters with
      symbols of their own, no `return` in the body of a defer, and no local in
      whose C scope a global of the same spelling is meant. */
  ghost predicate WellFormed(p: Program, f: Function, switches: nat, envs: nat) {
    && LinksGlobals(p)
    && SeparateParams(p, f.params)
    && Contained(f.body, true)
    && NothingCaptured(p, f, switches, envs)
  }

  lemma StartRelated(p: Program, f: Function, switches: nat, envs: nat, args: List<int>, globals: map<string, int>,
          trace: seq<Event>)
    requires LinksGlobals(p) && SeparateParams(p, f.params) && Len(f.params) == Len(args)
    ensures Related(p, BodyContext(p, f, switches, envs),
            Src(BindParams(f.params, args, Nil), Nil, Nil, globals, trace),
                    Tgt(BindParamsC(p, f.params, args, Nil), globals, trace), map[])
  {
    var c := Ctx(p.prefix, Nil, {}, Nil, None, 0, switches, envs, f.void, false);
    var s, t := Src(Nil, Nil, Nil, globals, trace), Tgt(Nil, globals, trace);
    assert Related(p, c, s, t, map[]);
    ParamsRelated(p, f.params, args, c, s, t);
  }

  /** The intended code of a function means what the function means: whatever the
      arguments, the globals, what happened before, and however long loops run. */
  lemma IntendedPreservesMeaning(p: Program, f: Function, switches: nat, envs: nat,
                                 args: List<int>, globals: map<string, int>, trace: seq<Event>, fuel: nat)
    requires WellFormed(p, f, switches, envs) && Len(f.params) == Len(args)
    ensures var r := CallSource(p, f, args, globals, trace, fuel);
            r.o.Wrong? || CallC(p, f, Text(Intended, p, f, switches, envs), args, globals, trace, fuel) == r
  {
    var c := BodyContext(p, f, switches, envs);
    var s := Src(BindParams(f.params, args, Nil), Nil, Nil, globals, trace);
    var t := Tgt(BindParamsC(p, f.params, args, Nil), globals, trace);
    StartRelated(p, f, switches, envs, args, globals, trace);
    SimBlock(p, f.body, c, s, t, map[], fuel, true);
    ParamsInScope(p, f.params, args, Nil);
    assert BoundNames(t.env) == ParamScope(p, f.params);
    CaptureFromText(p, f, switches, envs);
    TextRuns(p, Body(Intended, p, f, switches, envs), t, fuel);
  }

  /** The views of compiler and source agree throughout the function. */
  predicate CleanFunction(p: Program, f: Function, switches: nat, envs: nat) {
    var c := BodyContext(p, f, switches, envs);
    CleanList(f.body, c, c)
  }

  /** The text that the compiler produces for f is the intended one exactly for the
      clean functions. */
  lemma AsWrittenIffClean(p: Program, f: Function, switches: nat, envs: nat)
    ensures Text(AsWritten, p, f, switches, envs) == Text(Intended, p, f, switches, envs) <==>
            CleanFunction(p, f, switches, envs)
  {
    var c := BodyContext(p, f, switches, envs);
    ListTied(f.body, c, c);
  }

  /** What reaches the C file: nothing, if a search for a name never ended. */
  function Emitted(p: Program, f: Function, switches: nat, envs: nat): Option<List<CStmt>> {
    if LowerBlock(AsWritten, f.body, BodyContext(p, f, switches, envs)).ctx.hung then None
    else Some(Text(AsWritten, p, f, switches, envs))
  }

  /** The compiler is correct on these functions: what it emits for one means what
      the function means. */
  lemma CompiledPreservesMeaning(p: Program, f: Function, switches: nat, envs: nat,
                                 args: List<int>, globals: map<string, int>, trace: seq<Event>, fuel: nat)
    requires WellFormed(p, f, switches, envs) && CleanFunction(p, f, switches, envs) && Len(f.params) == Len(args)
    ensures var r := CallSource(p, f, args, globals, trace, fuel);
            var code := Emitted(p, f, switches, envs);
            code.Some? ==> r.o.Wrong? || CallC(p, f, code.value, args, globals, trace, fuel) == r
  {
    AsWrittenIffClean(p, f, switches, envs);
    IntendedPreservesMeaning(p, f, switches, envs, args, globals, trace, fuel);
  }

  /* ------------------------------ nested functions ----------------------------- */

  /** A nested function is lowered like a function of the module that comes next;
      only inside the body of a defer would the compiler still see its captures. */
  lemma NestedIsFunction(m: Mode, p: Program, g: Function, c: Ctx)
    requires c.prefix == p.prefix && (m.Intended? || c.env.None?)
    ensures Lower(m, LocalFn(g.params, g.body, g.void), c).code ==
            Single(CNested(ParamSymbols(p.prefix, g.params), Body(m, p, g, c.switchSeq, c.deferSeq)))
  {
    assert FunctionStart(m, c, g.void) ==
           Ctx(p.prefix, Nil, {}, Nil, None, 0, c.switchSeq, c.deferSeq, g.void, false);
  }

  /** So the main theorem holds of the code of a nested function that is clean where
      it stands, be the function around it clean or not. */
  lemma NestedPreservesMeaning(p: Program, g: Function, c: Ctx, d: Ctx,
                               args: List<int>, globals: map<string, int>, trace: seq<Event>, fuel: nat)
    requires c.prefix == p.prefix && Numbered(c, d) && Clean(LocalFn(g.params, g.body, g.void), c, d)
    requires WellFormed(p, g, c.switchSeq, c.deferSeq) && Len(g.params) == Len(args)
    ensures var code := Lower(AsWritten, LocalFn(g.params, g.body, g.void), c).code;
            && code.Cons? && code.head.CNested?
            && (var r := CallSource(p, g, args, globals, trace, fuel);
                r.o.Wrong? || CallC(p, g, Spell(code.head.body), args, globals, trace, fuel) == r)
  {
    hide ExecScope;
    hide RunList;
    hide LowerE;
    hide Contained;
    hide CleanList;
    var fn := LocalFn(g.params, g.body, g.void);
    StmtTied(fn, c, d);
    NestedIsFunction(Intended, p, g, d);
    var a, b := Lower(AsWritten, fn, c).code.head, Lower(Intended, fn, d).code.head;
    assert Spell(Single(a)) == Single(SpellIn(a)) && Spell(Single(b)) == Single(SpellIn(b));
    assert Spell(a.body) == Text(Intended, p, g, c.switchSeq, c.deferSeq);
    IntendedPreservesMeaning(p, g, c.switchSeq, c.deferSeq, args, globals, trace, fuel);
  }

  /* --------------------------------- declarations ------------------------------ */

  /** No C name is declared twice in the intended code, nor in the code of a clean
      function, nor in any function without nested functions, whatever the source
      calls its locals; and none hides a parameter. */
  lemma NoRedeclaration(p: Program, f: Function, m: Mode, switches: nat, envs: nat)
    requires m.Intended? || Flat(f.body) || CleanFunction(p, f, switches, envs)
    ensures var code := Body(m, p, f, switches, envs);
            && DeclaredOnce(code)
            && forall n :: n in Declares(code) && n.Sym? ==> n.text !in BodyContext(p, f, switches, envs).decls
  {
    var c := BodyContext(p, f, switches, envs);
    var k := if m.Intended? || Flat(f.body) then m else Intended;
    ParamsGood(p, f.params, Ctx(p.prefix, Nil, {}, Nil, None, 0, switches, envs, f.void, false));
    BlockFresh(p, k, f.body, c);
    forall n | n in Declares(Body(k, p, f, switches, envs)) && n.Sym?
      ensures n.text !in c.decls
    {
      assert !Used(c, n);
    }
    if k != m {
      AsWrittenIffClean(p, f, switches, envs);
      SpellDeclares(Body(m, p, f, switches, envs));
      SpellDeclares(Body(k, p, f, switches, envs));
    }
  }

  lemma {:induction false} ParamsGood(p: Program, xs: List<string>, c: Ctx)
    requires GoodCtx(p, c)
    ensures GoodCtx(p, RegisterAll(xs, c))
    decreases xs
  {
    if xs.Cons? {
      RegisterGood(p, c, xs.head);
      ParamsGood(p, xs.tail, Register(c, xs.head));
    }
  }
}
