/** The functions nested in a function: which ones its code brings along, and what
    calls of them do. */
module NestedFunctions {
  import opened Lists
  import opened Naming
  import opened Syntax
  import opened SourceSemantics
  import opened TargetSemantics
  import opened Lowering
  import opened Spelling
  import opened Scoping
  import opened Correctness

  /* ------------------------------ where they stand ----------------------------- */

  /** A nested function and the numbers that temporaries have reached there. */
  datatype Site = Site(fn: Function, switches: nat, envs: nat)

  function SitesTry(t: Try, c: Ctx): seq<Site>
    decreases t, 0
  {
    Sites(t.setup, c) + SitesOpt(t.tail, After(Intended, t.setup, c))
  }

  function SitesExit(saved: bool, ds: List<Stmt>, c: Ctx): seq<Site>
    decreases ds, 2
  {
    SitesList(ds, if saved then c.(retSeq := c.retSeq + 1) else c)
  }

  function SitesList(ss: List<Stmt>, c: Ctx): seq<Site>
    decreases ss, 0
  {
    match ss
    case Nil => []
    case Cons(s, rest) => Sites(s, c) + SitesList(rest, After(Intended, s, c))
  }

  function SitesArms(arms: Arms, c: Ctx): seq<Site>
    decreases arms, 0
  {
    match arms
    case Default(None) => []
    case Default(Some(b)) => SitesList(b, c)
    case Arm(Nil, _, rest) => SitesArms(rest, c)
    case Arm(Cons(_, _), b, rest) => SitesList(b, c) + SitesArms(rest, AfterBlock(Intended, b, c))
  }

  function SitesOpt(s: Option<Stmt>, c: Ctx): seq<Site>
    decreases s, 2
  {
    if s.Some? then Sites(s.value, c) else []
  }

  /** The nested functions in the text of s, at any depth and in order; those in the
      body of a defer once for every call of it. */
  function Sites(s: Stmt, c: Ctx): seq<Site>
    decreases s, 1
  {
    match s
    case VarDef(x, InitTry(t)) => SitesTry(t, InitScope(Intended, x, c))
    case AssignTry(_, _, t) => SitesTry(t, c)
    case Return(v, ds) => SitesExit(v.Some?, ds, c)
    case ReturnTry(t, ds) =>
      SitesTry(t, c) + SitesExit(true, ds, ScopeEnd(Intended, c, AfterTry(Intended, t, c)))
    case Break(ds) => SitesExit(false, ds, c)
    case Continue(ds) => SitesExit(false, ds, c)
    case If(_, a, NoElse) => SitesList(a, c)
    case If(_, a, ElseBlock(b)) => SitesList(a, c) + SitesList(b, AfterBlock(Intended, a, c))
    case If(_, a, ElseIf(s')) => SitesList(a, c) + Sites(s', AfterBlock(Intended, a, c))
    case Switch(_, arms) => SitesArms(arms, c.(switchSeq := c.switchSeq + 1))
    case While(_, a) => SitesList(a, c)
    case DoWhile(a, _) => SitesList(a, c)
    case For(i, _, _, a) => SitesOpt(i, c) + SitesList(a, AfterOpt(Intended, i, c))
    case Block(a) => SitesList(a, c)
    case DeferCall(id, a) =>
      (match FindDefer(c.defers, id)
       case None => []
       case Some(d) => SitesList(a, DeferScope(Intended, d, c)))
    case Decorated(a, core, b) =>
      var c1 := AfterList(Intended, a, c);
      SitesList(a, c) + SitesOpt(core, c1) + SitesList(b, AfterOpt(Intended, core, c1))
    case LocalFn(params, a, void) =>
      [Site(Function(params, a, void), c.switchSeq, c.deferSeq)] +
      SitesList(a, RegisterAll(params, FunctionStart(Intended, c, void)))
    case _ => []
  }

  /** The functions nested in f. */
  function NestedIn(p: Program, f: Function, switches: nat, envs: nat): seq<Site> {
    SitesList(f.body, BodyContext(p, f, switches, envs))
  }

  /** The functions that code adds to the unit, in the order of its text. */
  function Brings(cs: List<CStmt>): seq<CStmt>
    decreases cs
  {
    match cs
    case Nil => []
    case Cons(s, rest) => BringsIn(s) + Brings(rest)
  }

  function BringsIn(s: CStmt): seq<CStmt>
    decreases s
  {
    match s
    case CIf(_, a, b) => Brings(a) + Brings(b)
    case CWhile(_, a) => Brings(a)
    case CDoWhile(a, _) => Brings(a)
    case CFor(i, _, _, a) => Brings(i) + Brings(a)
    case CBlock(a) => Brings(a)
    case CNested(_, a) => [s] + Brings(a)
    case _ => []
  }

  /* --------------------------- one C function for each ------------------------- */

  function SiteCode(p: Program, x: Site): CStmt {
    CNested(ParamSymbols(p.prefix, x.fn.params), Body(Intended, p, x.fn, x.switches, x.envs))
  }

  /** One function after the other is that of the next site. */
  predicate Matches(p: Program, fns: seq<CStmt>, sites: seq<Site>) {
    |fns| == |sites| && forall i :: 0 <= i < |fns| ==> fns[i] == SiteCode(p, sites[i])
  }

  lemma {:induction false} MatchesThen(p: Program, a: seq<CStmt>, b: seq<CStmt>, x: seq<Site>, y: seq<Site>)
    requires Matches(p, a, x) && Matches(p, b, y)
    ensures Matches(p, a + b, x + y)
  {
    hide SiteCode;
  }

  lemma {:induction false} BringsAppend(a: List<CStmt>, b: List<CStmt>)
    ensures Brings(Append(a, b)) == Brings(a) + Brings(b)
  {
    if a.Cons? {
      BringsAppend(a.tail, b);
    }
  }

  lemma BringsOne(s: CStmt)
    ensures Brings(Single(s)) == BringsIn(s)
  {
    assert Brings(Single(s)) == BringsIn(s) + Brings(Nil);
  }

  lemma BringsLast(a: List<CStmt>, s: CStmt)
    requires BringsIn(s) == []
    ensures Brings(Append(a, Single(s))) == Brings(a)
    ensures Brings(Single(CBlock(Append(a, Single(s))))) == Brings(a)
  {
    BringsAppend(a, Single(s));
    BringsOne(s);
    BringsOne(CBlock(Append(a, Single(s))));
  }

  /** The prefix of the module's symbols never changes. */
  lemma SamePrefix(s: Stmt, c: Ctx)
    ensures After(Intended, s, c).prefix == c.prefix
  {
    StmtView(Intended, s, c);
  }

  lemma {:induction false} TrySites(p: Program, t: Try, c: Ctx)
    requires c.prefix == p.prefix
    ensures Matches(p, Brings(LowerTryPrefix(Intended, t, c).code), SitesTry(t, c))
    decreases t, 0
  {
    hide Lower;
    hide Sites;
    hide After;
    hide SiteCode;
    hide LowerE;
    var a := Lower(Intended, t.setup, c);
    StmtSites(p, t.setup, c);
    StmtView(Intended, t.setup, c);
    var tail := LowerOptional(Intended, t.tail, a.ctx);
    OptSites(p, t.tail, a.ctx);
    var test := CIf(CUnary(LNot, LowerE(t.ok, a.ctx)), tail.code, Nil);
    BringsOne(test);
    assert BringsIn(test) == Brings(tail.code) + Brings(Nil);
    assert BringsIn(test) == Brings(tail.code);
    BringsAppend(a.code, Single(test));
    MatchesThen(p, Brings(a.code), Brings(tail.code), Sites(t.setup, c), SitesOpt(t.tail, a.ctx));
  }

  lemma {:induction false} OptSites(p: Program, s: Option<Stmt>, c: Ctx)
    requires c.prefix == p.prefix
    ensures Matches(p, Brings(LowerOptional(Intended, s, c).code), SitesOpt(s, c))
    decreases s, 2
  {
    if s.Some? {
      StmtSites(p, s.value, c);
    }
  }

  lemma {:induction false} ReturnSites(p: Program, v: Option<CExpr>, ds: List<Stmt>, c: Ctx)
    requires c.prefix == p.prefix
    ensures Matches(p, Brings(LowerReturn(Intended, v, ds, c).code), SitesExit(v.Some?, ds, c))
    decreases ds, 2
  {
    hide SiteCode;
    hide LowerList;
    BringsOne(CReturn(v));
    if ds.Cons? {
      if v.Some? {
        var tmp, last := RetTmp(c.retSeq), CReturn(Some(CIdent(RetTmp(c.retSeq))));
        var o := LowerList(Intended, ds, c.(retSeq := c.retSeq + 1));
        ListSites(p, ds, c.(retSeq := c.retSeq + 1));
        BringsLast(o.code, last);
        BringsDeclared(tmp, v, Append(o.code, Single(last)));
      } else {
        ListSites(p, ds, c);
        BringsLast(LowerList(Intended, ds, c).code, CReturn(v));
      }
    }
  }

  /** A declaration in front brings nothing. */
  lemma BringsDeclared(tmp: CName, v: Option<CExpr>, a: List<CStmt>)
    ensures Brings(Single(CBlock(Cons(CVar(tmp, v), a)))) == Brings(a)
  {
    BringsOne(CBlock(Cons(CVar(tmp, v), a)));
    BringsFirst(CVar(tmp, v), a);
  }

  lemma BringsFirst(s: CStmt, a: List<CStmt>)
    requires BringsIn(s) == []
    ensures Brings(Cons(s, a)) == Brings(a)
  {
    assert Brings(Cons(s, a)) == BringsIn(s) + Brings(a);
  }

  lemma {:induction false} JumpSites(p: Program, jump: CStmt, ds: List<Stmt>, c: Ctx)
    requires c.prefix == p.prefix && (jump.CBreak? || jump.CContinue?)
    ensures Matches(p, Brings(LowerJump(Intended, jump, ds, c).code), SitesExit(false, ds, c))
    decreases ds, 2
  {
    hide SiteCode;
    hide LowerList;
    BringsOne(jump);
    if ds.Cons? {
      ListSites(p, ds, c);
      BringsLast(LowerList(Intended, ds, c).code, jump);
    }
  }

  lemma {:induction false} ListSites(p: Program, ss: List<Stmt>, c: Ctx)
    requires c.prefix == p.prefix
    ensures Matches(p, Brings(LowerList(Intended, ss, c).code), SitesList(ss, c))
    decreases ss, 1
  {
    hide Lower;
    hide Sites;
    hide After;
    hide SiteCode;
    if ss.Cons? {
      var a := Lower(Intended, ss.head, c);
      StmtSites(p, ss.head, c);
      StmtView(Intended, ss.head, c);
      ListSites(p, ss.tail, a.ctx);
      BringsAppend(a.code, LowerList(Intended, ss.tail, a.ctx).code);
      MatchesThen(p, Brings(a.code), Brings(LowerList(Intended, ss.tail, a.ctx).code), Sites(ss.head, c),
                  SitesList(ss.tail, a.ctx));
    }
  }

  lemma {:induction false} ArmsSites(p: Program, tmp: CName, arms: Arms, c: Ctx)
    requires c.prefix == p.prefix
    ensures Matches(p, Brings(LowerArms(Intended, tmp, arms, c).code), SitesArms(arms, c))
    decreases arms, 0
  {
    hide SiteCode;
    hide LowerList;
    hide SitesList;
    hide OrChain;
    match arms
    case Default(None) =>
    case Default(Some(b)) => ListSites(p, b, c);
    case Arm(Nil, _, rest) => ArmsSites(p, tmp, rest, c);
    case Arm(Cons(e, es), b, rest) =>
      var a := LowerBlock(Intended, b, c);
      var z := LowerArms(Intended, tmp, rest, a.ctx);
      ListSites(p, b, c);
      ListView(Intended, b, c);
      ArmsSites(p, tmp, rest, a.ctx);
      BringsOne(CIf(OrChain(PatternTest(tmp, e, c), tmp, es, c), a.code, z.code));
      MatchesThen(p, Brings(a.code), Brings(z.code), SitesList(b, c), SitesArms(rest, a.ctx));
  }

  ghost predicate SitesGoal(p: Program, s: Stmt, c: Ctx) {
    Matches(p, Brings(Lower(Intended, s, c).code), Sites(s, c))
  }

  /** The intended code of a statement brings exactly the functions nested in it. */
  lemma {:induction false} StmtSites(p: Program, s: Stmt, c: Ctx)
    requires c.prefix == p.prefix
    ensures SitesGoal(p, s, c)
    decreases s, 1
  {
    hide LowerE;
    hide LowerTryPrefix;
    hide LowerArms;
    hide LowerList;
    hide SitesTry;
    hide SitesArms;
    hide SitesList;
    hide SiteCode;
    hide FreshName;
    match s
    case VarDef(_, InitTry(_)) => TriedSites(p, s, c);
    case AssignTry(_, _, _) => TriedSites(p, s, c);
    case Return(v, ds) => ReturnSites(p, LowerOpt(v, c), ds, c);
    case ReturnTry(_, _) => TriedSites(p, s, c);
    case Break(ds) => JumpSites(p, CBreak, ds, c);
    case Continue(ds) => JumpSites(p, CContinue, ds, c);
    case If(_, _, _) => BranchSites(p, s, c);
    case Switch(e, arms) =>
      var c1, tmp := c.(switchSeq := c.switchSeq + 1), SwitchTmp(c.switchSeq);
      ArmsSites(p, tmp, arms, c1);
      BringsDeclared(tmp, Some(LowerE(e, c)), LowerArms(Intended, tmp, arms, c1).code);
    case While(e, a) =>
      ListSites(p, a, c);
      BringsOne(CWhile(LowerE(e, c), LowerBlock(Intended, a, c).code));
    case DoWhile(a, e) =>
      ListSites(p, a, c);
      BringsOne(CDoWhile(LowerBlock(Intended, a, c).code, LowerE(e, c)));
    case For(_, _, _, _) => ForSites(p, s, c);
    case Block(a) =>
      ListSites(p, a, c);
      assert Lower(Intended, s, c).code == LowerList(Intended, a, c).code;
      assert Sites(s, c) == SitesList(a, c);
    case DeferCall(_, _) => DeferCallSites(p, s, c);
    case Decorated(_, _, _) => DecoratedSites(p, s, c);
    case LocalFn(_, _, _) => LocalFnSites(p, s, c);
    case _ => PlainSites(p, s, c);
  }

  lemma PlainSites(p: Program, s: Stmt, c: Ctx)
    requires (s.VarDef? && !s.init.InitTry?) || s.Assign? || s.ExprStmt? || s.DeferDef?
    ensures SitesGoal(p, s, c)
  {
    hide LowerE;
    hide LowerCaptures;
    hide FreshName;
    var code := Lower(Intended, s, c).code;
    if code.Cons? {
      BringsFirst(code.head, Nil);
    }
  }

  lemma {:induction false} TriedSites(p: Program, s: Stmt, c: Ctx)
    requires c.prefix == p.prefix && ((s.VarDef? && s.init.InitTry?) || s.AssignTry? || s.ReturnTry?)
    ensures SitesGoal(p, s, c)
    decreases s, 0
  {
    hide LowerE;
    hide SitesTry;
    hide SitesExit;
    hide SiteCode;
    hide FreshName;
    match s
    case VarDef(x, InitTry(t)) =>
      var c1 := InitScope(Intended, x, c);
      var pre := LowerTryPrefix(Intended, t, c1);
      TrySites(p, t, c1);
      var store := StoreIn(Sym(FreshName(c, x)), x, LowerE(t.value, pre.ctx));
      BringsLast(pre.code, store);
      BringsFirst(CVar(Sym(FreshName(c, x)), None), Single(CBlock(Append(pre.code, Single(store)))));
    case AssignTry(x, aop, t) =>
      var pre := LowerTryPrefix(Intended, t, c);
      TrySites(p, t, c);
      BringsLast(pre.code, LowerAssign(x, aop, LowerE(t.value, pre.ctx), Within(Intended, c, pre.ctx)));
    case ReturnTry(t, ds) =>
      var pre := LowerTryPrefix(Intended, t, c);
      var c1 := ScopeEnd(Intended, c, pre.ctx);
      var ret := LowerReturn(Intended, Some(LowerE(t.value, pre.ctx)), ds, c1);
      TrySites(p, t, c);
      TryView(Intended, t, c);
      ReturnSites(p, Some(LowerE(t.value, pre.ctx)), ds, c1);
      BringsAppend(pre.code, ret.code);
      BringsOne(CBlock(Append(pre.code, ret.code)));
      MatchesThen(p, Brings(pre.code), Brings(ret.code), SitesTry(t, c), SitesExit(true, ds, c1));
  }

  lemma {:induction false} DeferCallSites(p: Program, s: Stmt, c: Ctx)
    requires c.prefix == p.prefix && s.DeferCall?
    ensures SitesGoal(p, s, c)
    decreases s, 0
  {
    hide SiteCode;
    hide SitesList;
    hide LowerList;
    match FindDefer(c.defers, s.id)
    case None =>
      assert Lower(Intended, s, c).code == Single(CEval(CCall(s.id, Nil)));
      BringsOne(CEval(CCall(s.id, Nil)));
    case Some(d) =>
      var c1 := DeferScope(Intended, d, c);
      var o := LowerBlock(Intended, s.body, c1);
      ListSites(p, s.body, c1);
      assert Lower(Intended, s, c).code == Single(CBlock(o.code));
      BringsOne(CBlock(o.code));
      assert Sites(s, c) == SitesList(s.body, c1);
  }

  lemma {:induction false} BranchSites(p: Program, s: Stmt, c: Ctx)
    requires c.prefix == p.prefix && s.If?
    ensures SitesGoal(p, s, c)
    decreases s, 0
  {
    hide LowerE;
    hide SiteCode;
    hide SitesList;
    hide LowerList;
    var a := LowerBlock(Intended, s.body, c);
    ListSites(p, s.body, c);
    ListView(Intended, s.body, c);
    match s.els
    case NoElse =>
      BringsOne(CIf(LowerE(s.cond, c), a.code, Nil));
      assert Brings(a.code) + Brings(Nil) == Brings(a.code);
    case ElseBlock(b) =>
      var o := LowerBlock(Intended, b, a.ctx);
      ListSites(p, b, a.ctx);
      BringsOne(CIf(LowerE(s.cond, c), a.code, o.code));
      MatchesThen(p, Brings(a.code), Brings(o.code), SitesList(s.body, c), SitesList(b, a.ctx));
    case ElseIf(z) =>
      var o := Lower(Intended, z, a.ctx);
      StmtSites(p, z, a.ctx);
      BringsOne(CIf(LowerE(s.cond, c), a.code, o.code));
      MatchesThen(p, Brings(a.code), Brings(o.code), SitesList(s.body, c), Sites(z, a.ctx));
  }

  lemma {:induction false} ForSites(p: Program, s: Stmt, c: Ctx)
    requires c.prefix == p.prefix && s.For?
    ensures SitesGoal(p, s, c)
    decreases s, 0
  {
    hide LowerE;
    hide LowerOpt;
    hide SiteCode;
    hide SitesList;
    hide SitesOpt;
    hide LowerList;
    var i := LowerOptional(Intended, s.start, c);
    OptSites(p, s.start, c);
    OptionalView(Intended, s.start, c);
    var o := LowerBlock(Intended, s.body, i.ctx);
    ListSites(p, s.body, i.ctx);
    BringsOne(CFor(i.code, LowerOpt(s.test, i.ctx), LowerOpt(s.step, i.ctx), o.code));
    MatchesThen(p, Brings(i.code), Brings(o.code), SitesOpt(s.start, c), SitesList(s.body, i.ctx));
  }

  lemma {:induction false} DecoratedSites(p: Program, s: Stmt, c: Ctx)
    requires c.prefix == p.prefix && s.Decorated?
    ensures SitesGoal(p, s, c)
    decreases s, 0
  {
    hide Brings;
    hide Matches;
    hide SiteCode;
    hide SitesList;
    hide SitesOpt;
    hide LowerList;
    var a := LowerList(Intended, s.pre, c);
    ListSites(p, s.pre, c);
    ListView(Intended, s.pre, c);
    var b := LowerOptional(Intended, s.core, a.ctx);
    OptSites(p, s.core, a.ctx);
    OptionalView(Intended, s.core, a.ctx);
    var d := LowerList(Intended, s.post, b.ctx);
    ListSites(p, s.post, b.ctx);
    BringsAppend(a.code, Append(b.code, d.code));
    BringsAppend(b.code, d.code);
    ThreeMatch(p, Brings(a.code), Brings(b.code), Brings(d.code), SitesList(s.pre, c), SitesOpt(s.core, a.ctx),
               SitesList(s.post, b.ctx));
  }

  lemma {:induction false} ThreeMatch(p: Program, a: seq<CStmt>, b: seq<CStmt>, d: seq<CStmt>, x: seq<Site>,
                                      y: seq<Site>, z: seq<Site>)
    requires Matches(p, a, x) && Matches(p, b, y) && Matches(p, d, z)
    ensures Matches(p, a + (b + d), x + y + z)
  {
    hide SiteCode;
    MatchesThen(p, a, b, x, y);
    MatchesThen(p, a + b, d, x + y, z);
    assert a + (b + d) == a + b + d;
  }

  lemma {:induction false} LocalFnSites(p: Program, s: Stmt, c: Ctx)
    requires c.prefix == p.prefix && s.LocalFn?
    ensures SitesGoal(p, s, c)
    decreases s, 0
  {
    hide SitesList;
    hide LowerList;
    hide RegisterAll;
    var g, c1 := Function(s.params, s.body, s.void), RegisterAll(s.params, FunctionStart(Intended, c, s.void));
    var x := Site(g, c.switchSeq, c.deferSeq);
    NestedIsFunction(Intended, p, g, c);
    ListSites(p, s.body, c1);
    var code := LowerBlock(Intended, s.body, c1).code;
    BringsOne(SiteCode(p, x));
    MatchesThen(p, [SiteCode(p, x)], Brings(code), [x], SitesList(s.body, c1));
  }

  /* ------------------------------- and its meaning ----------------------------- */

  lemma {:induction false} SpellBrings(cs: List<CStmt>)
    ensures var a, b := Brings(Spell(cs)), Brings(cs);
            |a| == |b| && forall i :: 0 <= i < |a| ==> a[i] == SpellIn(b[i])
    decreases cs
  {
    if cs.Cons? {
      SpellBringsIn(cs.head);
      SpellBrings(cs.tail);
    }
  }

  lemma {:induction false} SpellBringsIn(s: CStmt)
    ensures var a, b := BringsIn(SpellIn(s)), BringsIn(s);
            |a| == |b| && forall i :: 0 <= i < |a| ==> a[i] == SpellIn(b[i])
    decreases s
  {
    match s
    case CIf(_, a, b) =>
      SpellBrings(a);
      SpellBrings(b);
    case CWhile(_, a) => SpellBrings(a);
    case CDoWhile(a, _) => SpellBrings(a);
    case CFor(i, _, _, a) =>
      SpellBrings(i);
      SpellBrings(a);
    case CBlock(a) => SpellBrings(a);
    case CNested(_, a) => SpellBrings(a);
    case _ =>
  }

  /** What is emitted for a clean function brings one C function for each function
      nested in it, at whatever depth and in the same order: the intended text of
      that function with its parameters. */
  lemma EveryNestedEmitted(p: Program, f: Function, switches: nat, envs: nat)
    requires CleanFunction(p, f, switches, envs) && Emitted(p, f, switches, envs).Some?
    ensures var fns, sites := Brings(Emitted(p, f, switches, envs).value), NestedIn(p, f, switches, envs);
            && |fns| == |sites|
            && forall i :: 0 <= i < |fns| ==>
                 fns[i] == CNested(ParamSymbols(p.prefix, sites[i].fn.params),
                                   Text(Intended, p, sites[i].fn, sites[i].switches, sites[i].envs))
  {
    hide Brings;
    hide SitesList;
    hide CleanList;
    hide Body;
    AsWrittenIffClean(p, f, switches, envs);
    StartPrefix(p, f, switches, envs);
    ListSites(p, f.body, BodyContext(p, f, switches, envs));
    SpellBrings(Body(Intended, p, f, switches, envs));
  }

  lemma StartPrefix(p: Program, f: Function, switches: nat, envs: nat)
    ensures BodyContext(p, f, switches, envs).prefix == p.prefix
    ensures Body(Intended, p, f, switches, envs) ==
            LowerList(Intended, f.body, BodyContext(p, f, switches, envs)).code
  {
  }

  /** A call of a C function as it was emitted, by its own list of parameters. */
  function BindTexts(texts: List<string>, args: List<int>, env: List<Bind>): List<Bind>
    requires Len(texts) == Len(args)
  {
    match texts
    case Nil => env
    case Cons(x, rest) => BindTexts(rest, args.tail, Cons(Bind(Sym(x), Int(args.head)), env))
  }

  function CallEmitted(p: Program, fn: CStmt, args: List<int>, globals: map<string, int>, trace: seq<Event>,
          fuel: nat): Result
    requires fn.CNested? && Len(fn.params) == Len(args)
  {
    var b := RunList(p, fn.body, Tgt(BindTexts(fn.params, args, Nil), globals, trace), fuel);
    Result(b.o, b.st.globals, b.st.trace)
  }

  lemma {:induction false} ParamsBound(p: Program, xs: List<string>, args: List<int>, env: List<Bind>)
    requires Len(xs) == Len(args)
    ensures Len(ParamSymbols(p.prefix, xs)) == Len(args)
    ensures BindTexts(ParamSymbols(p.prefix, xs), args, env) == BindParamsC(p, xs, args, env)
    decreases xs
  {
    if xs.Cons? {
      ParamsBound(p, xs.tail, args.tail, Cons(Bind(Sym(GlobalSym(p.prefix, xs.head)), Int(args.head)), env));
    }
  }

  /** And so calls of the emitted nested functions do what calls of the nested
      functions do, wherever these stand in a clean function. */
  lemma EveryNestedPreservesMeaning(p: Program, f: Function, switches: nat, envs: nat, i: nat,
                                    args: List<int>, globals: map<string, int>, trace: seq<Event>, fuel: nat)
    requires CleanFunction(p, f, switches, envs) && i < |NestedIn(p, f, switches, envs)|
    requires var x := NestedIn(p, f, switches, envs)[i];
             WellFormed(p, x.fn, x.switches, x.envs) && Len(x.fn.params) == Len(args)
    ensures var x, code := NestedIn(p, f, switches, envs)[i], Emitted(p, f, switches, envs);
            var r := CallSource(p, x.fn, args, globals, trace, fuel);
            code.Some? ==>
              var fns := Brings(code.value);
              && i < |fns| && fns[i].CNested? && Len(fns[i].params) == Len(args)
              && (r.o.Wrong? || CallEmitted(p, fns[i], args, globals, trace, fuel) == r)
  {
    hide Brings;
    hide CallSource;
    hide RunList;
    hide BindTexts;
    hide BindParamsC;
    hide Text;
    hide WellFormed;
    hide CleanFunction;
    hide NestedIn;
    var x := NestedIn(p, f, switches, envs)[i];
    IntendedPreservesMeaning(p, x.fn, x.switches, x.envs, args, globals, trace, fuel);
    ParamsBound(p, x.fn.params, args, Nil);
    if Emitted(p, f, switches, envs).Some? {
      EveryNestedEmitted(p, f, switches, envs);
    }
  }
}
