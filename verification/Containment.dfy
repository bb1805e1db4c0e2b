/** Which statements can only be left through their end: the bodies of defers,
    whose code is inlined where they are called, must be of this kind. */
module Containment {
  import opened Lists
  import opened Syntax
  import opened SourceSemantics

  /** No `return` where returns are not allowed (ret is false inside the body of
      a defer, whose code is inlined into the function). */
  predicate Contained(ss: List<Stmt>, ret: bool)
    decreases ss, 0
  {
    match ss
    case Nil => true
    case Cons(s, rest) => ContainedIn(s, ret) && Contained(rest, ret)
  }

  predicate ContainedTry(t: Try, ret: bool)
    decreases t, 0
  {
    ContainedIn(t.setup, ret) && (t.tail.Some? ==> ContainedIn(t.tail.value, ret))
  }

  predicate ContainedArms(arms: Arms, ret: bool)
    decreases arms, 0
  {
    match arms
    case Default(None) => true
    case Default(Some(b)) => Contained(b, ret)
    // a branch without patterns is never entered
    case Arm(Nil, _, rest) => ContainedArms(rest, ret)
    case Arm(Cons(_, _), b, rest) => Contained(b, ret) && ContainedArms(rest, ret)
  }

  predicate ContainedIn(s: Stmt, ret: bool)
    decreases s, 1
  {
    match s
    case VarDef(_, InitTry(t)) => ContainedTry(t, ret)
    case AssignTry(_, _, t) => ContainedTry(t, ret)
    case Return(_, ds) => ret && Contained(ds, ret)
    case ReturnTry(t, ds) => ret && ContainedTry(t, ret) && Contained(ds, ret)
    case Break(ds) => Contained(ds, ret)
    case Continue(ds) => Contained(ds, ret)
    case If(_, a, NoElse) => Contained(a, ret)
    case If(_, a, ElseBlock(b)) => Contained(a, ret) && Contained(b, ret)
    case If(_, a, ElseIf(s')) => Contained(a, ret) && ContainedIn(s', ret)
    case Switch(_, arms) => ContainedArms(arms, ret)
    case While(_, a) => Contained(a, ret)
    case DoWhile(a, _) => Contained(a, ret)
    case For(i, _, _, a) => (i.Some? ==> ContainedIn(i.value, ret)) && Contained(a, ret)
    case Block(a) => Contained(a, ret)
    case DeferCall(_, a) => Contained(a, false)
    case Decorated(a, core, b) => Contained(a, ret) && (core.Some? ==> ContainedIn(core.value, ret))
            && Contained(b, ret)
    case _ => true
  }

  lemma {:induction false} EvalNeverReturns(p: Program, e: Expr, s: Src)
    ensures Eval(p, e, s).Halt? ==> Eval(p, e, s).why.Wrong? || Eval(p, e, s).why.Aborted?
    decreases e
  {
    match e
    case Unary(_, a) => EvalNeverReturns(p, a, s);
    case Binary(_, a, b) =>
      EvalNeverReturns(p, a, s);
      EvalNeverReturns(p, b, Eval(p, a, s).st);
    case Call(_, args) => ArgsNeverReturn(p, args, s);
    case AssignE(_, _, a) => EvalNeverReturns(p, a, s);
    case Ternary(q, a, b) =>
      EvalNeverReturns(p, q, s);
      EvalNeverReturns(p, a, Eval(p, q, s).st);
      EvalNeverReturns(p, b, Eval(p, q, s).st);
    case _ =>
  }

  lemma {:induction false} ArgsNeverReturn(p: Program, es: List<Expr>, s: Src)
    ensures EvalArgs(p, es, s).HaltArgs? ==> EvalArgs(p, es, s).why.Wrong? || EvalArgs(p, es, s).why.Aborted?
    decreases es
  {
    if es.Cons? {
      EvalNeverReturns(p, es.head, s);
      ArgsNeverReturn(p, es.tail, Eval(p, es.head, s).st);
    }
  }

  lemma {:induction false} CapturesNeverReturn(p: Program, cs: List<Capture>, s: Src)
    ensures EvalCaptures(p, cs, s).HaltFields? ==>
            EvalCaptures(p, cs, s).why.Wrong? || EvalCaptures(p, cs, s).why.Aborted?
    decreases cs
  {
    if cs.Cons? {
      EvalNeverReturns(p, cs.head.e, s);
      CapturesNeverReturn(p, cs.tail, Eval(p, cs.head.e, s).st);
    }
  }

  lemma {:induction false} MatchesNeverReturn(p: Program, v: int, es: List<Expr>, s: Src)
    ensures Matches(p, v, es, s).Halt? ==> Matches(p, v, es, s).why.Wrong? || Matches(p, v, es, s).why.Aborted?
    decreases es
  {
    if es.Cons? {
      EvalNeverReturns(p, es.head, s);
      MatchesNeverReturn(p, v, es.tail, Eval(p, es.head, s).st);
    }
  }

  lemma {:induction false} TryStays(p: Program, t: Try, s: Src, fuel: nat)
    requires ContainedTry(t, false)
    ensures !TryPrefix(p, t, s, fuel).o.Returned?
    ensures ExecTry(p, t, s, fuel).Halt? ==> !ExecTry(p, t, s, fuel).why.Returned?
    decreases fuel, t, 0
  {
    StmtStays(p, t.setup, s, fuel);
    var a := Exec(p, t.setup, s, fuel);
    EvalNeverReturns(p, t.ok, a.st);
    var r := Eval(p, t.ok, a.st);
    if t.tail.Some? {
      StmtStays(p, t.tail.value, r.st, fuel);
    }
    EvalNeverReturns(p, t.value, TryPrefix(p, t, s, fuel).st);
  }

  lemma {:induction false} ListStays(p: Program, ss: List<Stmt>, s: Src, fuel: nat)
    requires Contained(ss, false)
    ensures !ExecList(p, ss, s, fuel).o.Returned?
    decreases fuel, ss, 0
  {
    if ss.Cons? {
      StmtStays(p, ss.head, s, fuel);
      ListStays(p, ss.tail, Exec(p, ss.head, s, fuel).st, fuel);
    }
  }

  lemma {:induction false} ExitStays(p: Program, o: Outcome, ds: List<Stmt>, s: Src, fuel: nat)
    requires Contained(ds, false) && !o.Returned?
    ensures !ExitWith(p, o, ds, s, fuel).o.Returned?
    decreases fuel, ds, 1
  {
    ListStays(p, ds, s, fuel);
  }

  lemma {:induction false} ArmsStay(p: Program, v: int, arms: Arms, s: Src, fuel: nat)
    requires ContainedArms(arms, false)
    ensures !Select(p, v, arms, s, fuel).o.Returned?
    decreases fuel, arms, 0
  {
    match arms
    case Default(None) =>
    case Default(Some(body)) => ListStays(p, body, s, fuel);
    case Arm(es, body, rest) =>
      MatchesNeverReturn(p, v, es, s);
      var r := Matches(p, v, es, s);
      if es.Cons? {
        ListStays(p, body, r.st, fuel);
      }
      ArmsStay(p, v, rest, r.st, fuel);
  }

  lemma {:induction false} LoopStays(p: Program, test: Option<Expr>, step: Option<Expr>, body: List<Stmt>, s: Src,
          fuel: nat)
    requires Contained(body, false)
    ensures !Loop(p, test, step, body, s, fuel).o.Returned?
    decreases fuel, body, 1
  {
    if fuel > 0 {
      if test.Some? {
        EvalNeverReturns(p, test.value, s);
      }
      var r := if test.Some? then Eval(p, test.value, s) else Val(1, s);
      ListStays(p, body, r.st, fuel);
      var a := ExecScope(p, body, r.st, fuel);
      if step.Some? {
        EvalNeverReturns(p, step.value, a.st);
      }
      var q := if step.Some? then Eval(p, step.value, a.st) else Val(0, a.st);
      LoopStays(p, test, step, body, q.st, fuel - 1);
    }
  }

  lemma {:induction false} RepeatStays(p: Program, body: List<Stmt>, test: Expr, s: Src, fuel: nat)
    requires Contained(body, false)
    ensures !RepeatLoop(p, body, test, s, fuel).o.Returned?
    decreases fuel, body, 1
  {
    if fuel > 0 {
      ListStays(p, body, s, fuel);
      var a := ExecScope(p, body, s, fuel);
      EvalNeverReturns(p, test, a.st);
      RepeatStays(p, body, test, Eval(p, test, a.st).st, fuel - 1);
    }
  }

  lemma {:induction false} StmtStays(p: Program, c: Stmt, s: Src, fuel: nat)
    requires ContainedIn(c, false)
    ensures !Exec(p, c, s, fuel).o.Returned?
    decreases fuel, c, 1
  {
    match c
    case VarDef(_, NoInit) =>
    case VarDef(_, InitExpr(e)) => EvalNeverReturns(p, e, s);
    case VarDef(_, InitTry(t)) => TryStays(p, t, s, fuel);
    case Assign(_, _, e) => EvalNeverReturns(p, e, s);
    case AssignTry(_, _, t) => TryStays(p, t, s, fuel);
    case ExprStmt(e) => EvalNeverReturns(p, e, s);
    case Break(ds) => ExitStays(p, Broke, ds, s, fuel);
    case Continue(ds) => ExitStays(p, Continued, ds, s, fuel);
    case If(e, thn, els) =>
      EvalNeverReturns(p, e, s);
      var r := Eval(p, e, s);
      ListStays(p, thn, r.st, fuel);
      match els {
        case NoElse =>
        case ElseBlock(b) => ListStays(p, b, r.st, fuel);
        case ElseIf(c') => StmtStays(p, c', r.st, fuel);
      }
    case Switch(e, arms) =>
      EvalNeverReturns(p, e, s);
      var r := Eval(p, e, s);
      if r.Val? {
        ArmsStay(p, r.v, arms, r.st, fuel);
      }
    case While(e, body) => LoopStays(p, Some(e), None, body, s, fuel);
    case DoWhile(body, e) => RepeatStays(p, body, e, s, fuel);
    case For(start, test, step, body) =>
      if start.Some? {
        StmtStays(p, start.value, s, fuel);
        LoopStays(p, test, step, body, Exec(p, start.value, s, fuel).st, fuel);
      } else {
        LoopStays(p, test, step, body, s, fuel);
      }
    case Block(body) => ListStays(p, body, s, fuel);
    case DeferDef(_, captures, _) => CapturesNeverReturn(p, captures, s);
    case DeferCall(_, _) =>
    case Decorated(pre, core, post) =>
      ListStays(p, pre, s, fuel);
      var a := ExecList(p, pre, s, fuel);
      if core.Some? {
        StmtStays(p, core.value, a.st, fuel);
      }
      var b := if core.Some? then Exec(p, core.value, a.st, fuel) else a;
      ListStays(p, post, b.st, fuel);
    case LocalFn(_, _, _) =>
    case Return(_, _) =>
    case ReturnTry(_, _) =>
  }

  /* ---------------- evaluation leaves the depth of scopes alone --------------- */

  lemma {:induction vars} SetSlotLen(vars: List<Slot>, x: string, v: int)
    ensures Len(SetSlot(vars, x, v)) == Len(vars)
  {
  }

  lemma {:induction false} EvalDepth(p: Program, e: Expr, s: Src)
    ensures Len(Eval(p, e, s).st.vars) == Len(s.vars) && Eval(p, e, s).st.clos == s.clos
    decreases e
  {
    match e
    case Unary(_, a) => EvalDepth(p, a, s);
    case Binary(_, a, b) =>
      EvalDepth(p, a, s);
      EvalDepth(p, b, Eval(p, a, s).st);
    case Call(_, args) => ArgsDepth(p, args, s);
    case AssignE(x, aop, a) =>
      EvalDepth(p, a, s);
      var r := Eval(p, a, s);
      if r.Val? && Store(p, x, aop, r.v, r.st).Val? {
        SetSlotLen(r.st.vars, x, Store(p, x, aop, r.v, r.st).v);
      }
    case Ternary(q, a, b) =>
      EvalDepth(p, q, s);
      EvalDepth(p, a, Eval(p, q, s).st);
      EvalDepth(p, b, Eval(p, q, s).st);
    case _ =>
  }

  lemma {:induction false} ArgsDepth(p: Program, es: List<Expr>, s: Src)
    ensures Len(EvalArgs(p, es, s).st.vars) == Len(s.vars) && EvalArgs(p, es, s).st.clos == s.clos
    decreases es
  {
    if es.Cons? {
      EvalDepth(p, es.head, s);
      ArgsDepth(p, es.tail, Eval(p, es.head, s).st);
    }
  }

  lemma {:induction false} MatchesDepth(p: Program, v: int, es: List<Expr>, s: Src)
    ensures Len(Matches(p, v, es, s).st.vars) == Len(s.vars) && Matches(p, v, es, s).st.clos == s.clos
    decreases es
  {
    if es.Cons? {
      EvalDepth(p, es.head, s);
      MatchesDepth(p, v, es.tail, Eval(p, es.head, s).st);
    }
  }
}
