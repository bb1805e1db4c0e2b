/** Lowered expressions do what the source expressions do: same value, same
    effects, same order. */
module ExprSimulation {
  import opened Lists
  import opened Naming
  import opened Syntax
  import opened SourceSemantics
  import opened TargetSemantics
  import opened Lowering
  import opened Freshness
  import opened Frames
  import opened Relation

  /** Unless the source has no meaning, both sides end alike and stay related. */
  ghost predicate MatchE(p: Program, c: Ctx, f: map<CName, Value>, a: Ev<Src>, b: Ev<Tgt>) {
    || (a.Halt? && a.why.Wrong?)
    || (a.Halt? && b.Halt? && a.why == b.why && !a.why.Normal? && Related(p, c, a.st, b.st, f))
    || (a.Val? && b.Val? && a.v == b.v && Related(p, c, a.st, b.st, f))
  }

  ghost predicate MatchArgs(p: Program, c: Ctx, f: map<CName, Value>, a: Evs<Src>, b: Evs<Tgt>) {
    || (a.HaltArgs? && a.why.Wrong?)
    || (a.HaltArgs? && b.HaltArgs? && a.why == b.why && !a.why.Normal? && Related(p, c, a.st, b.st, f))
    || (a.Vals? && b.Vals? && a.vs == b.vs && Related(p, c, a.st, b.st, f))
  }

  ghost predicate MatchFields(p: Program, c: Ctx, f: map<CName, Value>, a: Fields<Src>, b: Fields<Tgt>) {
    || (a.HaltFields? && a.why.Wrong?)
    || (a.HaltFields? && b.HaltFields? && a.why == b.why && !a.why.Normal? && Related(p, c, a.st, b.st, f))
    || (a.Rec? && b.Rec? && a.fs == b.fs && Related(p, c, a.st, b.st, f))
  }

  lemma ReadSim(p: Program, x: string, c: Ctx, s: Src, t: Tgt, f: map<CName, Value>)
    requires Related(p, c, s, t, f)
    ensures ReadVar(p, x, s).Some? ==> Read(p, Resolve(c, x), t) == ReadVar(p, x, s)
  {
    AgreeFind(c.locals, s.vars, t.env, x);
  }

  lemma StoreSim(p: Program, x: string, aop: Option<nat>, v: int, c: Ctx, s: Src, t: Tgt, f: map<CName, Value>)
    requires Related(p, c, s, t, f)
    ensures MatchE(p, c, f, Store(p, x, aop, v, s), StoreC(p, Resolve(c, x), aop, v, t))
  {
    var a, b := Store(p, x, aop, v, s), StoreC(p, Resolve(c, x), aop, v, t);
    if a.Val? {
      ReadSim(p, x, c, s, t, f);
      AgreeFind(c.locals, s.vars, t.env, x);
      if FindSlot(s.vars, x).Some? {
        var n := Resolve(c, x);
        forall d
          ensures Lookup(Update(t.env, n, Int(a.v)), d) == if d == n then Some(Int(a.v)) else Lookup(t.env, d)
        {
          LookupUpdate(t.env, n, Int(a.v), d);
        }
        AgreeSet(c.locals, s.vars, t.env, x, a.v);
        ClosElsewhere(c.defers, s.clos, t.env, b.st.env, c.deferSeq);
      }
    }
  }

  lemma CapRefSim(p: Program, x: string, c: Ctx, s: Src, t: Tgt, f: map<CName, Value>)
    requires Related(p, c, s, t, f)
    ensures FindField(s.caps, x).Some? ==> ReadField(c.env, x, t) == FindField(s.caps, x)
  {
  }

  lemma {:induction false} EvalSim(p: Program, e: Expr, c: Ctx, s: Src, t: Tgt, f: map<CName, Value>)
    requires Related(p, c, s, t, f)
    ensures MatchE(p, c, f, Eval(p, e, s), EvalC(p, LowerE(e, c), t))
    decreases e
  {
    hide Related;
    hide Store;
    hide StoreC;
    hide Resolve;
    match e
    case Lit(_) =>
    case Ident(x) => ReadSim(p, x, c, s, t, f);
    case CapRef(x) => CapRefSim(p, x, c, s, t, f);
    case Unary(op, a) => EvalSim(p, a, c, s, t, f);
    case Binary(op, a, b) =>
      EvalSim(p, a, c, s, t, f);
      var l, lc := Eval(p, a, s), EvalC(p, LowerE(a, c), t);
      if l.Val? && !ShortCircuits(op, l.v) {
        EvalSim(p, b, c, l.st, lc.st, f);
      }
    case Call(g, args) =>
      ArgsSim(p, args, c, s, t, f);
      var r, rc := EvalArgs(p, args, s), EvalArgsC(p, LowerArgs(args, c), t);
      if r.Vals? {
        InvokeSim(p, g, r.vs, c, r.st, rc.st, f);
      }
    case AssignE(x, aop, a) =>
      EvalSim(p, a, c, s, t, f);
      var r, rc := Eval(p, a, s), EvalC(p, LowerE(a, c), t);
      if r.Val? && x != DISCARD {
        StoreSim(p, x, aop, r.v, c, r.st, rc.st, f);
      }
    case Ternary(q, a, b) =>
      EvalSim(p, q, c, s, t, f);
      var r, rc := Eval(p, q, s), EvalC(p, LowerE(q, c), t);
      if r.Val? {
        EvalSim(p, a, c, r.st, rc.st, f);
        EvalSim(p, b, c, r.st, rc.st, f);
      }
  }

  lemma InvokeSim(p: Program, g: string, vs: seq<int>, c: Ctx, s: Src, t: Tgt, f: map<CName, Value>)
    requires Related(p, c, s, t, f)
    ensures MatchE(p, c, f, Invoke(p, g, vs, s), InvokeC(p, g, vs, t))
  {
  }

  lemma {:induction false} ArgsSim(p: Program, es: List<Expr>, c: Ctx, s: Src, t: Tgt, f: map<CName, Value>)
    requires Related(p, c, s, t, f)
    ensures MatchArgs(p, c, f, EvalArgs(p, es, s), EvalArgsC(p, LowerArgs(es, c), t))
    decreases es
  {
    if es.Cons? {
      EvalSim(p, es.head, c, s, t, f);
      var r, rc := Eval(p, es.head, s), EvalC(p, LowerE(es.head, c), t);
      if r.Val? {
        ArgsSim(p, es.tail, c, r.st, rc.st, f);
      }
    }
  }

  lemma {:induction false} CapturesSim(p: Program, cs: List<Capture>, c: Ctx, s: Src, t: Tgt, f: map<CName, Value>)
    requires Related(p, c, s, t, f)
    ensures MatchFields(p, c, f, EvalCaptures(p, cs, s), EvalFields(p, LowerCaptures(cs, c), t))
    decreases cs
  {
    if cs.Cons? {
      EvalSim(p, cs.head.e, c, s, t, f);
      var r, rc := Eval(p, cs.head.e, s), EvalC(p, LowerE(cs.head.e, c), t);
      if r.Val? {
        CapturesSim(p, cs.tail, c, r.st, rc.st, f);
      }
    }
  }

  /* --------------------------- switch alternatives -------------------------- */

  /** What a `||` chain does after its first alternative gave r. */
  function MoreTests(p: Program, tmp: CName, es: List<Expr>, c: Ctx, r: Ev<Tgt>): Ev<Tgt>
    decreases es
  {
    if r.Halt? then r
    else
      match es
      case Nil => r
      case Cons(e, rest) =>
        if r.v != 0 then MoreTests(p, tmp, rest, c, Val(1, r.st))
        else MoreTests(p, tmp, rest, c, BoolOf(EvalC(p, PatternTest(tmp, e, c), r.st)))
  }

  function BoolOf(r: Ev<Tgt>): Ev<Tgt> {
    if r.Halt? then r else Val(Truth(r.v != 0), r.st)
  }

  lemma {:induction false} OrChainRuns(p: Program, acc: CExpr, tmp: CName, es: List<Expr>, c: Ctx, t: Tgt)
    ensures EvalC(p, OrChain(acc, tmp, es, c), t) == MoreTests(p, tmp, es, c, EvalC(p, acc, t))
    decreases es
  {
    if es.Cons? {
      var test := PatternTest(tmp, es.head, c);
      OrChainRuns(p, CBinary(OrOr, acc, test), tmp, es.tail, c, t);
      var l := EvalC(p, acc, t);
      var both := EvalC(p, CBinary(OrOr, acc, test), t);
      if l.Halt? {
        assert both == l;
      } else if l.v != 0 {
        assert both == Val(1, l.st);
      } else {
        assert both == BoolOf(EvalC(p, test, l.st));
      }
    }
  }

  lemma {:induction es} MoreTestsDone(p: Program, tmp: CName, es: List<Expr>, c: Ctx, t: Tgt)
    ensures MoreTests(p, tmp, es, c, Val(1, t)) == Val(1, t)
  {
  }

  /** One comparison with the saved value. */
  lemma TestSim(p: Program, v: int, tmp: CName, e: Expr, c: Ctx, s: Src, t: Tgt, f: map<CName, Value>)
    requires Related(p, c, s, t, f) && tmp in f && f[tmp] == Int(v)
    ensures var a := Eval(p, e, s);
            var b := EvalC(p, PatternTest(tmp, e, c), t);
            MatchE(p, c, f, if a.Halt? then a else Val(Truth(a.v == v), a.st), b)
  {
    EvalSim(p, e, c, s, t, f);
    assert Lookup(t.env, tmp) == Some(Int(v));
    assert EvalC(p, CIdent(tmp), t) == Val(v, t);
  }

  lemma {:induction false} MatchesSim(p: Program, v: int, tmp: CName, es: List<Expr>, c: Ctx, s: Src, t: Tgt,
          f: map<CName, Value>)
    requires Related(p, c, s, t, f) && tmp in f && f[tmp] == Int(v)
    ensures MatchE(p, c, f, Matches(p, v, es, s), MoreTests(p, tmp, es, c, Val(0, t)))
    decreases es
  {
    if es.Cons? {
      TestSim(p, v, tmp, es.head, c, s, t, f);
      var a, b := Eval(p, es.head, s), EvalC(p, PatternTest(tmp, es.head, c), t);
      if a.Val? && a.v == v {
        MoreTestsDone(p, tmp, es.tail, c, b.st);
      } else if a.Val? {
        MatchesSim(p, v, tmp, es.tail, c, a.st, b.st, f);
      }
    }
  }

  /** The condition of a branch holds exactly when one of its patterns matches;
      patterns after the first match are not evaluated. */
  lemma BranchSim(p: Program, v: int, tmp: CName, e: Expr, es: List<Expr>, c: Ctx, s: Src, t: Tgt, f: map<CName, Value>)
    requires Related(p, c, s, t, f) && tmp in f && f[tmp] == Int(v)
    ensures MatchE(p, c, f, Matches(p, v, Cons(e, es), s), EvalC(p, OrChain(PatternTest(tmp, e, c), tmp, es, c), t))
  {
    OrChainRuns(p, PatternTest(tmp, e, c), tmp, es, c, t);
    TestSim(p, v, tmp, e, c, s, t, f);
    var a, b := Eval(p, e, s), EvalC(p, PatternTest(tmp, e, c), t);
    if a.Val? && a.v == v {
      MoreTestsDone(p, tmp, es, c, b.st);
    } else if a.Val? {
      MatchesSim(p, v, tmp, es, c, a.st, b.st, f);
    }
  }
}
