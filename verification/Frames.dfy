/** Running generated code pushes declarations and updates values; it never
    removes or renames what was in scope before. */
module Frames {
  import opened Lists
  import opened Naming
  import opened Syntax
  import opened TargetSemantics
  import opened Freshness

  predicate SameNames(a: List<Bind>, b: List<Bind>) {
    match (a, b)
    case (Nil, Nil) => true
    case (Cons(x, xs), Cons(y, ys)) => x.c == y.c && SameNames(xs, ys)
    case _ => false
  }

  /** The names declared on top of the oldest k bindings. */
  function TopNames(env: List<Bind>, k: nat): set<CName> {
    if Len(env) <= k then {} else {env.head.c} + TopNames(env.tail, k)
  }

  /** From t to t' only names in d were declared, and none of t's were lost. */
  predicate Framed(t: Tgt, t': Tgt, d: set<CName>) {
    && Len(t.env) <= Len(t'.env)
    && SameNames(Keep(t'.env, Len(t.env)), t.env)
    && TopNames(t'.env, Len(t.env)) <= d
  }

  function BoundNames(env: List<Bind>): set<CName> {
    match env
    case Nil => {}
    case Cons(b, rest) => {b.c} + BoundNames(rest)
  }

  lemma {:induction env} BoundIffFound(env: List<Bind>, n: CName)
    ensures n in BoundNames(env) <==> Lookup(env, n).Some?
  {
  }

  lemma {:induction env} LookupUpdate(env: List<Bind>, c: CName, v: Value, d: CName)
    ensures Lookup(Update(env, c, v), d) == if d == c && Lookup(env, c).Some? then Some(v) else Lookup(env, d)
  {
  }

  lemma {:induction env} UpdateSame(env: List<Bind>, c: CName, v: Value)
    ensures SameNames(Update(env, c, v), env)
  {
    SameRefl(env);
  }

  lemma {:induction a} SameRefl(a: List<Bind>)
    ensures SameNames(a, a)
  {
  }

  lemma {:induction false} SameTrans(a: List<Bind>, b: List<Bind>, c: List<Bind>)
    requires SameNames(a, b) && SameNames(b, c)
    ensures SameNames(a, c)
  {
    if a.Cons? {
      SameTrans(a.tail, b.tail, c.tail);
    }
  }

  lemma {:induction false} SameLen(a: List<Bind>, b: List<Bind>)
    requires SameNames(a, b)
    ensures Len(a) == Len(b)
  {
    if a.Cons? {
      SameLen(a.tail, b.tail);
    }
  }

  lemma {:induction false} SameKeep(a: List<Bind>, b: List<Bind>, k: nat)
    requires SameNames(a, b)
    ensures SameNames(Keep(a, k), Keep(b, k))
    ensures TopNames(a, k) == TopNames(b, k)
  {
    SameLen(a, b);
    if Len(a) > k {
      SameKeep(a.tail, b.tail, k);
    }
  }

  lemma {:induction false} SameUnbound(a: List<Bind>, b: List<Bind>, n: CName)
    requires SameNames(a, b)
    ensures Lookup(a, n).None? <==> Lookup(b, n).None?
  {
    if a.Cons? {
      SameUnbound(a.tail, b.tail, n);
    }
  }

  lemma {:induction env} LookupKeep(env: List<Bind>, k: nat, n: CName)
    requires n !in TopNames(env, k)
    ensures Lookup(env, n) == Lookup(Keep(env, k), n)
  {
  }

  lemma {:induction env} TopNamesSplit(env: List<Bind>, n: nat, k: nat)
    requires k <= n
    ensures TopNames(env, k) == TopNames(env, n) + TopNames(Keep(env, n), k)
  {
  }

  lemma NothingOnTop(env: List<Bind>, k: nat)
    requires Len(env) <= k
    ensures Keep(env, k) == env && TopNames(env, k) == {}
  {
  }

  lemma FramedSame(t: Tgt, t': Tgt)
    requires SameNames(t'.env, t.env)
    ensures Framed(t, t', {})
  {
    SameLen(t'.env, t.env);
  }

  lemma FramedTrans(t: Tgt, t1: Tgt, t2: Tgt, d1: set<CName>, d2: set<CName>)
    requires Framed(t, t1, d1) && Framed(t1, t2, d2)
    ensures Framed(t, t2, d1 + d2)
  {
    var k, n := Len(t.env), Len(t1.env);
    KeepKeep(t2.env, n, k);
    SameKeep(Keep(t2.env, n), t1.env, k);
    SameTrans(Keep(t2.env, k), Keep(t1.env, k), t.env);
    TopNamesSplit(t2.env, n, k);
  }

  lemma FramedPush(t: Tgt, c: CName, v: Value)
    ensures Framed(t, Push(c, v, t), {c})
  {
    SameRefl(t.env);
    NothingOnTop(t.env, Len(t.env));
  }

  lemma FramedPop(t: Tgt, t': Tgt, d: set<CName>)
    requires Framed(t, t', d)
    ensures Framed(t, PopBrace(t', t), {})
    ensures SameNames(PopBrace(t', t).env, t.env)
  {
    FramedSame(t, PopBrace(t', t));
  }

  lemma {:induction false} EvalSame(p: Program, e: CExpr, t: Tgt)
    ensures SameNames(EvalC(p, e, t).st.env, t.env)
    decreases e
  {
    SameRefl(t.env);
    match e
    case CUnary(op, a) => EvalSame(p, a, t);
    case CBinary(op, a, b) =>
      EvalSame(p, a, t);
      var l := EvalC(p, a, t);
      EvalSame(p, b, l.st);
      SameTrans(EvalC(p, b, l.st).st.env, l.st.env, t.env);
    case CCall(f, args) => EvalArgsSame(p, args, t);
    case CAssignE(c, aop, a) =>
      EvalSame(p, a, t);
      var r := EvalC(p, a, t);
      if r.Val? {
        StoreSame(p, c, aop, r.v, r.st);
        SameTrans(StoreC(p, c, aop, r.v, r.st).st.env, r.st.env, t.env);
      }
    case CTernary(c, a, b) =>
      EvalSame(p, c, t);
      var r := EvalC(p, c, t);
      EvalSame(p, a, r.st);
      EvalSame(p, b, r.st);
      SameTrans(EvalC(p, a, r.st).st.env, r.st.env, t.env);
      SameTrans(EvalC(p, b, r.st).st.env, r.st.env, t.env);
    case _ =>
  }

  lemma StoreSame(p: Program, c: CName, aop: Option<nat>, v: int, t: Tgt)
    ensures SameNames(StoreC(p, c, aop, v, t).st.env, t.env)
  {
    SameRefl(t.env);
    match Combine(p, aop, Read(p, c, t), v)
    case None =>
    case Some(w) => UpdateSame(t.env, c, Int(w));
  }

  lemma {:induction false} EvalArgsSame(p: Program, es: List<CExpr>, t: Tgt)
    ensures SameNames(EvalArgsC(p, es, t).st.env, t.env)
    decreases es
  {
    SameRefl(t.env);
    if es.Cons? {
      EvalSame(p, es.head, t);
      var r := EvalC(p, es.head, t);
      EvalArgsSame(p, es.tail, r.st);
      SameTrans(EvalArgsC(p, es.tail, r.st).st.env, r.st.env, t.env);
    }
  }

  lemma {:induction false} EvalFieldsSame(p: Program, fs: List<CField>, t: Tgt)
    ensures SameNames(EvalFields(p, fs, t).st.env, t.env)
  {
    SameRefl(t.env);
    if fs.Cons? {
      EvalSame(p, fs.head.e, t);
      var r := EvalC(p, fs.head.e, t);
      EvalFieldsSame(p, fs.tail, r.st);
      SameTrans(EvalFields(p, fs.tail, r.st).st.env, r.st.env, t.env);
    }
  }

  lemma EvalFramed(p: Program, e: CExpr, t: Tgt)
    ensures Framed(t, EvalC(p, e, t).st, {})
  {
    EvalSame(p, e, t);
    FramedSame(t, EvalC(p, e, t).st);
  }

  /** The names that an instruction brings into the scope it stands in. */
  function Opens(c: CStmt): (r: set<CName>)
    ensures r <= DeclaresIn(c)
  {
    match c
    case CVar(x, _) => {x}
    case CVarStruct(x, _) => {x}
    case _ => {}
  }

  lemma {:induction false} RunFramed(p: Program, c: CStmt, t: Tgt, fuel: nat)
    ensures Framed(t, Run(p, c, t, fuel).st, Opens(c))
    decreases fuel, c, 0
  {
    SameRefl(t.env);
    FramedSame(t, t);
    match c
    case CVar(x, None) => FramedPush(t, x, Int(0));
    case CVar(x, Some(e)) =>
      var t1 := Push(x, Unset, t);
      FramedPush(t, x, Unset);
      EvalSame(p, e, t1);
      var r := EvalC(p, e, t1);
      InitFramed(t, t1, r.st, x, if r.Val? then Int(r.v) else Unset);
    case CVarStruct(x, fs) =>
      var t1 := Push(x, Unset, t);
      FramedPush(t, x, Unset);
      EvalFieldsSame(p, fs, t1);
      var r := EvalFields(p, fs, t1);
      InitFramed(t, t1, r.st, x, if r.Rec? then Struct(r.fs) else Unset);
    case CAssign(x, aop, e) => EvalFramed(p, CAssignE(x, aop, e), t);
    case CEval(e) => EvalFramed(p, e, t);
    case CReturn(None) =>
    case CReturn(Some(e)) => EvalFramed(p, e, t);
    case CIf(e, thn, els) =>
      EvalFramed(p, e, t);
      var r := EvalC(p, e, t);
      BracesFramed(p, thn, r.st, fuel);
      BracesFramed(p, els, r.st, fuel);
      FramedTrans(t, r.st, RunBraces(p, thn, r.st, fuel).st, {}, {});
      FramedTrans(t, r.st, RunBraces(p, els, r.st, fuel).st, {}, {});
    case CWhile(e, body) => LoopFramed(p, Some(e), None, body, t, fuel);
    case CDoWhile(body, e) => RepeatFramed(p, body, e, t, fuel);
    case CFor(start, test, step, body) =>
      ListFramed(p, start, t, fuel);
      var a := RunList(p, start, t, fuel);
      LoopFramed(p, test, step, body, a.st, fuel);
      var b := LoopC(p, test, step, body, a.st, fuel);
      FramedTrans(t, a.st, b.st, Declares(start), {});
      FramedPop(t, a.st, Declares(start));
      FramedPop(t, b.st, Declares(start) + {});
    case CBlock(body) => BracesFramed(p, body, t, fuel);
    case CBreak =>
    case CContinue =>
    case CNested(_, _) =>
  }

  lemma InitFramed(t: Tgt, t1: Tgt, t2: Tgt, x: CName, v: Value)
    requires Framed(t, t1, {x}) && SameNames(t2.env, t1.env)
    ensures Framed(t, t2, {x}) && Framed(t, t2.(env := Update(t2.env, x, v)), {x})
  {
    FramedSame(t1, t2);
    FramedTrans(t, t1, t2, {x}, {});
    UpdateSame(t2.env, x, v);
    var t3 := t2.(env := Update(t2.env, x, v));
    FramedSame(t2, t3);
    FramedTrans(t, t2, t3, {x}, {});
    assert {x} + {} == {x};
  }

  lemma {:induction false} ListFramed(p: Program, cs: List<CStmt>, t: Tgt, fuel: nat)
    ensures Framed(t, RunList(p, cs, t, fuel).st, Declares(cs))
    decreases fuel, cs, 0
  {
    SameRefl(t.env);
    FramedSame(t, t);
    if cs.Cons? {
      RunFramed(p, cs.head, t, fuel);
      var a := Run(p, cs.head, t, fuel);
      if a.o.Normal? {
        ListFramed(p, cs.tail, a.st, fuel);
        FramedTrans(t, a.st, RunList(p, cs.tail, a.st, fuel).st, Opens(cs.head), Declares(cs.tail));
      }
    }
  }

  lemma {:induction false} BracesFramed(p: Program, cs: List<CStmt>, t: Tgt, fuel: nat)
    ensures Framed(t, RunBraces(p, cs, t, fuel).st, {})
    ensures SameNames(RunBraces(p, cs, t, fuel).st.env, t.env)
    decreases fuel, cs, 1
  {
    ListFramed(p, cs, t, fuel);
    FramedPop(t, RunList(p, cs, t, fuel).st, Declares(cs));
  }

  lemma OptFramed(p: Program, e: Option<CExpr>, d: int, t: Tgt)
    ensures Framed(t, (if e.Some? then EvalC(p, e.value, t) else Val(d, t)).st, {})
  {
    SameRefl(t.env);
    FramedSame(t, t);
    if e.Some? {
      EvalFramed(p, e.value, t);
    }
  }

  lemma {:induction false} LoopFramed(p: Program, test: Option<CExpr>, step: Option<CExpr>, body: List<CStmt>, t: Tgt,
          fuel: nat)
    ensures Framed(t, LoopC(p, test, step, body, t, fuel).st, {})
    decreases fuel, body, 2
  {
    SameRefl(t.env);
    FramedSame(t, t);
    if fuel > 0 {
      OptFramed(p, test, 1, t);
      var r := if test.Some? then EvalC(p, test.value, t) else Val(1, t);
      BracesFramed(p, body, r.st, fuel);
      var a := RunBraces(p, body, r.st, fuel);
      FramedTrans(t, r.st, a.st, {}, {});
      OptFramed(p, step, 0, a.st);
      var q := if step.Some? then EvalC(p, step.value, a.st) else Val(0, a.st);
      FramedTrans(t, a.st, q.st, {} + {}, {});
      LoopFramed(p, test, step, body, q.st, fuel - 1);
      FramedTrans(t, q.st, LoopC(p, test, step, body, q.st, fuel - 1).st, {} + {} + {}, {});
    }
  }

  lemma {:induction false} RepeatFramed(p: Program, body: List<CStmt>, test: CExpr, t: Tgt, fuel: nat)
    ensures Framed(t, RepeatC(p, body, test, t, fuel).st, {})
    decreases fuel, body, 2
  {
    SameRefl(t.env);
    FramedSame(t, t);
    if fuel > 0 {
      BracesFramed(p, body, t, fuel);
      var a := RunBraces(p, body, t, fuel);
      EvalFramed(p, test, a.st);
      var r := EvalC(p, test, a.st);
      FramedTrans(t, a.st, r.st, {}, {});
      RepeatFramed(p, body, test, r.st, fuel - 1);
      FramedTrans(t, r.st, RepeatC(p, body, test, r.st, fuel - 1).st, {} + {}, {});
    }
  }
}
