/** C text and what it binds.  The generated code keeps apart the locals and the
    globals that the source means; its text does not, and C decides by its own
    scopes.  A mention of a global is captured where a local with the same
    spelling is in scope, be it from a block that lowering flattened. */
module Spelling {
  import opened Lists
  import opened Naming
  import opened Syntax
  import opened TargetSemantics
  import opened Freshness
  import opened Frames

  /* --------------------------------- C text -------------------------------- */

  function SpellE(e: CExpr): CExpr
    decreases e
  {
    match e
    case CIdent(c) => CIdent(Plain(c))
    case CUnary(op, a) => CUnary(op, SpellE(a))
    case CBinary(op, a, b) => CBinary(op, SpellE(a), SpellE(b))
    case CCall(f, args) => CCall(f, SpellArgs(args))
    case CAssignE(c, aop, a) => CAssignE(Plain(c), aop, SpellE(a))
    case CTernary(q, a, b) => CTernary(SpellE(q), SpellE(a), SpellE(b))
    case _ => e
  }

  function SpellArgs(es: List<CExpr>): List<CExpr>
    decreases es
  {
    match es
    case Nil => Nil
    case Cons(e, rest) => Cons(SpellE(e), SpellArgs(rest))
  }

  function SpellOpt(e: Option<CExpr>): Option<CExpr> {
    match e
    case None => None
    case Some(x) => Some(SpellE(x))
  }

  function SpellFields(fs: List<CField>): List<CField> {
    match fs
    case Nil => Nil
    case Cons(f, rest) => Cons(CField(f.name, SpellE(f.e)), SpellFields(rest))
  }

  /** The code as its text reads: the same identifier for a local and a global
      that are spelled alike. */
  function Spell(cs: List<CStmt>): (r: List<CStmt>)
    ensures Len(r) == Len(cs)
    decreases cs
  {
    match cs
    case Nil => Nil
    case Cons(s, rest) => Cons(SpellIn(s), Spell(rest))
  }

  function SpellIn(s: CStmt): CStmt
    decreases s
  {
    match s
    case CVar(c, init) => CVar(c, SpellOpt(init))
    case CVarStruct(c, fs) => CVarStruct(c, SpellFields(fs))
    case CAssign(c, aop, e) => CAssign(Plain(c), aop, SpellE(e))
    case CEval(e) => CEval(SpellE(e))
    case CReturn(v) => CReturn(SpellOpt(v))
    case CIf(e, a, b) => CIf(SpellE(e), Spell(a), Spell(b))
    case CWhile(e, a) => CWhile(SpellE(e), Spell(a))
    case CDoWhile(a, e) => CDoWhile(Spell(a), SpellE(e))
    case CFor(i, test, step, a) => CFor(Spell(i), SpellOpt(test), SpellOpt(step), Spell(a))
    case CBlock(a) => CBlock(Spell(a))
    case CBreak => s
    case CContinue => s
    case CNested(params, a) => CNested(params, Spell(a))
  }

  lemma {:induction a} SpellAppend(a: List<CStmt>, b: List<CStmt>)
    ensures Spell(Append(a, b)) == Append(Spell(a), Spell(b))
  {
  }

  /** The text declares what the code declares. */
  lemma {:induction false} SpellDeclares(cs: List<CStmt>)
    ensures Declares(Spell(cs)) == Declares(cs) && (DeclaredOnce(Spell(cs)) <==> DeclaredOnce(cs))
    decreases cs, 0
  {
    if cs.Cons? {
      SpellDeclaresIn(cs.head);
      SpellDeclares(cs.tail);
    }
  }

  lemma {:induction false} SpellDeclaresIn(s: CStmt)
    ensures DeclaresIn(SpellIn(s)) == DeclaresIn(s) && (OnceIn(SpellIn(s)) <==> OnceIn(s))
    decreases s, 1
  {
    match s
    case CIf(_, a, b) =>
      SpellDeclares(a);
      SpellDeclares(b);
    case CWhile(_, a) => SpellDeclares(a);
    case CDoWhile(a, _) => SpellDeclares(a);
    case CFor(i, _, _, a) =>
      SpellDeclares(i);
      SpellDeclares(a);
    case CBlock(a) => SpellDeclares(a);
    case _ =>
  }

  /* ---------------------------- name resolution of C ------------------------- */

  /** What C takes an identifier for where the names in scope are declared. */
  function BindName(c: CName, scope: set<CName>): CName {
    if c.Sym? && c !in scope then Glob(c.text) else c
  }

  function BindE(e: CExpr, scope: set<CName>): CExpr
    decreases e
  {
    match e
    case CIdent(c) => CIdent(BindName(c, scope))
    case CUnary(op, a) => CUnary(op, BindE(a, scope))
    case CBinary(op, a, b) => CBinary(op, BindE(a, scope), BindE(b, scope))
    case CCall(f, args) => CCall(f, BindArgs(args, scope))
    case CAssignE(c, aop, a) => CAssignE(BindName(c, scope), aop, BindE(a, scope))
    case CTernary(q, a, b) => CTernary(BindE(q, scope), BindE(a, scope), BindE(b, scope))
    case _ => e
  }

  function BindArgs(es: List<CExpr>, scope: set<CName>): List<CExpr>
    decreases es
  {
    match es
    case Nil => Nil
    case Cons(e, rest) => Cons(BindE(e, scope), BindArgs(rest, scope))
  }

  function BindOpt(e: Option<CExpr>, scope: set<CName>): Option<CExpr> {
    match e
    case None => None
    case Some(x) => Some(BindE(x, scope))
  }

  function BindFields(fs: List<CField>, scope: set<CName>): List<CField> {
    match fs
    case Nil => Nil
    case Cons(f, rest) => Cons(CField(f.name, BindE(f.e, scope)), BindFields(rest, scope))
  }

  function OpensAll(cs: List<CStmt>): set<CName> {
    match cs
    case Nil => {}
    case Cons(s, rest) => Opens(s) + OpensAll(rest)
  }

  /** The code with every identifier taken for what C scoping binds it to.  A
      nested function is a function of the unit and resolved on its own. */
  function BindAll(cs: List<CStmt>, scope: set<CName>): List<CStmt>
    decreases cs
  {
    match cs
    case Nil => Nil
    case Cons(s, rest) => Cons(BindIn(s, scope), BindAll(rest, scope + Opens(s)))
  }

  function BindIn(s: CStmt, scope: set<CName>): CStmt
    decreases s
  {
    match s
    // a variable is in scope in its own initialiser
    case CVar(c, init) => CVar(c, BindOpt(init, scope + {c}))
    case CVarStruct(c, fs) => CVarStruct(c, BindFields(fs, scope + {c}))
    case CAssign(c, aop, e) => CAssign(BindName(c, scope), aop, BindE(e, scope))
    case CEval(e) => CEval(BindE(e, scope))
    case CReturn(v) => CReturn(BindOpt(v, scope))
    case CIf(e, a, b) => CIf(BindE(e, scope), BindAll(a, scope), BindAll(b, scope))
    case CWhile(e, a) => CWhile(BindE(e, scope), BindAll(a, scope))
    case CDoWhile(a, e) => CDoWhile(BindAll(a, scope), BindE(e, scope))
    case CFor(i, test, step, a) =>
      var inner := scope + OpensAll(i);
      CFor(BindAll(i, scope), BindOpt(test, inner), BindOpt(step, inner), BindAll(a, inner))
    case CBlock(a) => CBlock(BindAll(a, scope))
    case CBreak => s
    case CContinue => s
    case CNested(params, _) => CNested(params, Nil)
  }

  /* ------------------------------ no global captured ------------------------- */

  predicate Free(c: CName, scope: set<CName>) { c.Glob? ==> Sym(c.text) !in scope }

  predicate FreeE(e: CExpr, scope: set<CName>)
    decreases e
  {
    match e
    case CIdent(c) => Free(c, scope)
    case CUnary(_, a) => FreeE(a, scope)
    case CBinary(_, a, b) => FreeE(a, scope) && FreeE(b, scope)
    case CCall(_, args) => FreeArgs(args, scope)
    case CAssignE(c, _, a) => Free(c, scope) && FreeE(a, scope)
    case CTernary(q, a, b) => FreeE(q, scope) && FreeE(a, scope) && FreeE(b, scope)
    case _ => true
  }

  predicate FreeArgs(es: List<CExpr>, scope: set<CName>)
    decreases es
  {
    es.Cons? ==> FreeE(es.head, scope) && FreeArgs(es.tail, scope)
  }

  predicate FreeOpt(e: Option<CExpr>, scope: set<CName>) { e.Some? ==> FreeE(e.value, scope) }

  predicate FreeFields(fs: List<CField>, scope: set<CName>) {
    fs.Cons? ==> FreeE(fs.head.e, scope) && FreeFields(fs.tail, scope)
  }

  /** No mention of a global stands where its symbol is declared as a local. */
  predicate NoCapture(cs: List<CStmt>, scope: set<CName>)
    decreases cs
  {
    cs.Cons? ==> NoCaptureIn(cs.head, scope) && NoCapture(cs.tail, scope + Opens(cs.head))
  }

  predicate NoCaptureIn(s: CStmt, scope: set<CName>)
    decreases s
  {
    match s
    case CVar(c, init) => FreeOpt(init, scope + {c})
    case CVarStruct(c, fs) => FreeFields(fs, scope + {c})
    case CAssign(c, _, e) => Free(c, scope) && FreeE(e, scope)
    case CEval(e) => FreeE(e, scope)
    case CReturn(v) => FreeOpt(v, scope)
    case CIf(e, a, b) => FreeE(e, scope) && NoCapture(a, scope) && NoCapture(b, scope)
    case CWhile(e, a) => FreeE(e, scope) && NoCapture(a, scope)
    case CDoWhile(a, e) => NoCapture(a, scope) && FreeE(e, scope)
    case CFor(i, test, step, a) =>
      var inner := scope + OpensAll(i);
      NoCapture(i, scope) && FreeOpt(test, inner) && FreeOpt(step, inner) && NoCapture(a, inner)
    case CBlock(a) => NoCapture(a, scope)
    case _ => true
  }

  lemma {:induction false} ExprBinds(e: CExpr, scope: set<CName>)
    ensures BindE(SpellE(e), scope) == BindE(e, scope) <==> FreeE(e, scope)
    decreases e
  {
    match e
    case CUnary(_, a) => ExprBinds(a, scope);
    case CBinary(_, a, b) =>
      ExprBinds(a, scope);
      ExprBinds(b, scope);
    case CCall(_, args) => ArgsBind(args, scope);
    case CAssignE(_, _, a) => ExprBinds(a, scope);
    case CTernary(q, a, b) =>
      ExprBinds(q, scope);
      ExprBinds(a, scope);
      ExprBinds(b, scope);
    case _ =>
  }

  lemma {:induction false} ArgsBind(es: List<CExpr>, scope: set<CName>)
    ensures BindArgs(SpellArgs(es), scope) == BindArgs(es, scope) <==> FreeArgs(es, scope)
    decreases es
  {
    if es.Cons? {
      ExprBinds(es.head, scope);
      ArgsBind(es.tail, scope);
    }
  }

  lemma OptBinds(e: Option<CExpr>, scope: set<CName>)
    ensures BindOpt(SpellOpt(e), scope) == BindOpt(e, scope) <==> FreeOpt(e, scope)
  {
    if e.Some? {
      ExprBinds(e.value, scope);
    }
  }

  lemma {:induction false} FieldsBind(fs: List<CField>, scope: set<CName>)
    ensures BindFields(SpellFields(fs), scope) == BindFields(fs, scope) <==> FreeFields(fs, scope)
  {
    if fs.Cons? {
      ExprBinds(fs.head.e, scope);
      FieldsBind(fs.tail, scope);
    }
  }

  lemma {:induction cs} SpellOpens(cs: List<CStmt>)
    ensures OpensAll(Spell(cs)) == OpensAll(cs)
  {
  }

  /** C binds every identifier of the text to what the source means exactly when no
      mention of a global is captured. */
  lemma {:induction false} CapturedExactly(cs: List<CStmt>, scope: set<CName>)
    ensures BindAll(Spell(cs), scope) == BindAll(cs, scope) <==> NoCapture(cs, scope)
    decreases cs, 0
  {
    if cs.Cons? {
      CapturedInExactly(cs.head, scope);
      CapturedExactly(cs.tail, scope + Opens(cs.head));
    }
  }

  lemma {:induction false} CapturedInExactly(s: CStmt, scope: set<CName>)
    ensures BindIn(SpellIn(s), scope) == BindIn(s, scope) <==> NoCaptureIn(s, scope)
    decreases s, 1
  {
    match s
    case CVar(c, init) => OptBinds(init, scope + {c});
    case CVarStruct(c, fs) => FieldsBind(fs, scope + {c});
    case CAssign(_, _, e) => ExprBinds(e, scope);
    case CEval(e) => ExprBinds(e, scope);
    case CReturn(v) => OptBinds(v, scope);
    case CIf(e, a, b) =>
      ExprBinds(e, scope);
      CapturedExactly(a, scope);
      CapturedExactly(b, scope);
    case CWhile(e, a) =>
      ExprBinds(e, scope);
      CapturedExactly(a, scope);
    case CDoWhile(a, e) =>
      ExprBinds(e, scope);
      CapturedExactly(a, scope);
    case CFor(i, test, step, a) =>
      var inner := scope + OpensAll(i);
      SpellOpens(i);
      CapturedExactly(i, scope);
      OptBinds(test, inner);
      OptBinds(step, inner);
      CapturedExactly(a, inner);
    case CBlock(a) => CapturedExactly(a, scope);
    case _ =>
  }

  /* ----------------------- running what the text binds to --------------------- */

  lemma {:induction false} SameBound(a: List<Bind>, b: List<Bind>)
    requires SameNames(a, b)
    ensures BoundNames(a) == BoundNames(b)
  {
    if a.Cons? {
      SameBound(a.tail, b.tail);
    }
  }

  lemma EvalBound(p: Program, e: CExpr, t: Tgt)
    ensures BoundNames(EvalC(p, e, t).st.env) == BoundNames(t.env)
  {
    EvalSame(p, e, t);
    SameBound(EvalC(p, e, t).st.env, t.env);
  }

  lemma NameRuns(p: Program, c: CName, t: Tgt)
    ensures var c' := BindName(c, BoundNames(t.env));
            && Binding(t.env, c') == Binding(t.env, c) && Read(p, c', t) == Read(p, c, t)
            && forall aop, v :: StoreC(p, c', aop, v, t) == StoreC(p, c, aop, v, t)
  {
    BoundIffFound(t.env, c);
  }

  lemma {:induction false} ExprRuns(p: Program, e: CExpr, t: Tgt)
    ensures EvalC(p, BindE(e, BoundNames(t.env)), t) == EvalC(p, e, t)
    decreases e
  {
    var scope := BoundNames(t.env);
    match e
    case CIdent(c) => NameRuns(p, c, t);
    case CUnary(_, a) => ExprRuns(p, a, t);
    case CBinary(_, a, b) =>
      ExprRuns(p, a, t);
      EvalBound(p, a, t);
      ExprRuns(p, b, EvalC(p, a, t).st);
    case CCall(_, args) => ArgsRun(p, args, t);
    case CAssignE(c, _, a) =>
      ExprRuns(p, a, t);
      EvalBound(p, a, t);
      NameRuns(p, c, EvalC(p, a, t).st);
    case CTernary(q, a, b) =>
      ExprRuns(p, q, t);
      EvalBound(p, q, t);
      ExprRuns(p, a, EvalC(p, q, t).st);
      ExprRuns(p, b, EvalC(p, q, t).st);
    case _ =>
  }

  lemma {:induction false} ArgsRun(p: Program, es: List<CExpr>, t: Tgt)
    ensures EvalArgsC(p, BindArgs(es, BoundNames(t.env)), t) == EvalArgsC(p, es, t)
    decreases es
  {
    if es.Cons? {
      ExprRuns(p, es.head, t);
      EvalBound(p, es.head, t);
      ArgsRun(p, es.tail, EvalC(p, es.head, t).st);
    }
  }

  lemma {:induction false} FieldsRun(p: Program, fs: List<CField>, t: Tgt)
    ensures EvalFields(p, BindFields(fs, BoundNames(t.env)), t) == EvalFields(p, fs, t)
  {
    if fs.Cons? {
      ExprRuns(p, fs.head.e, t);
      EvalBound(p, fs.head.e, t);
      FieldsRun(p, fs.tail, EvalC(p, fs.head.e, t).st);
    }
  }

  lemma {:induction env} BoundSplit(env: List<Bind>, k: nat)
    ensures BoundNames(env) == TopNames(env, k) + BoundNames(Keep(env, k))
  {
  }

  /** What can be in scope behind an instruction that goes on: what was in scope
      before, and what it declares. */
  lemma ScopeAfter(p: Program, s: CStmt, t: Tgt, fuel: nat)
    ensures var a := Run(p, s, t, fuel);
            a.o.Normal? ==> BoundNames(a.st.env) == BoundNames(t.env) + Opens(s)
  {
    var a := Run(p, s, t, fuel);
    RunFramed(p, s, t, fuel);
    BoundSplit(a.st.env, Len(t.env));
    SameBound(Keep(a.st.env, Len(t.env)), t.env);
    if a.o.Normal? && Opens(s) != {} {
      DeclaredIsBound(p, s, t, fuel);
    }
  }

  lemma DeclaredIsBound(p: Program, s: CStmt, t: Tgt, fuel: nat)
    requires (s.CVar? || s.CVarStruct?) && Run(p, s, t, fuel).o.Normal?
    ensures s.c in BoundNames(Run(p, s, t, fuel).st.env)
  {
    var t1 := Push(s.c, Unset, t);
    BoundIffFound(Run(p, s, t, fuel).st.env, s.c);
    match s
    case CVar(x, None) =>
    case CVar(x, Some(e)) =>
      var r := EvalC(p, e, t1);
      EvalSame(p, e, t1);
      SameUnbound(r.st.env, t1.env, x);
      if r.Val? {
        LookupUpdate(r.st.env, x, Int(r.v), x);
      }
    case CVarStruct(x, fs) =>
      var r := EvalFields(p, fs, t1);
      EvalFieldsSame(p, fs, t1);
      SameUnbound(r.st.env, t1.env, x);
      if r.Rec? {
        LookupUpdate(r.st.env, x, Struct(r.fs), x);
      }
  }

  lemma BracesScope(p: Program, cs: List<CStmt>, t: Tgt, fuel: nat)
    ensures BoundNames(RunBraces(p, cs, t, fuel).st.env) == BoundNames(t.env)
  {
    BracesFramed(p, cs, t, fuel);
    SameBound(RunBraces(p, cs, t, fuel).st.env, t.env);
  }

  lemma {:induction false} ScopeAfterAll(p: Program, cs: List<CStmt>, t: Tgt, fuel: nat)
    ensures var a := RunList(p, cs, t, fuel);
            a.o.Normal? ==> BoundNames(a.st.env) == BoundNames(t.env) + OpensAll(cs)
  {
    if cs.Cons? {
      ScopeAfter(p, cs.head, t, fuel);
      ScopeAfterAll(p, cs.tail, Run(p, cs.head, t, fuel).st, fuel);
    }
  }

  /** C scoping decides what runs: code and the same code with its identifiers
      resolved from the text behave alike. */
  lemma {:induction false} ListRuns(p: Program, cs: List<CStmt>, t: Tgt, fuel: nat)
    ensures RunList(p, BindAll(cs, BoundNames(t.env)), t, fuel) == RunList(p, cs, t, fuel)
    decreases fuel, cs, 0
  {
    if cs.Cons? {
      StmtRuns(p, cs.head, t, fuel);
      ScopeAfter(p, cs.head, t, fuel);
      ListRuns(p, cs.tail, Run(p, cs.head, t, fuel).st, fuel);
    }
  }

  lemma {:induction false} StmtRuns(p: Program, s: CStmt, t: Tgt, fuel: nat)
    ensures Run(p, BindIn(s, BoundNames(t.env)), t, fuel) == Run(p, s, t, fuel)
    decreases fuel, s, 1
  {
    var scope := BoundNames(t.env);
    match s
    case CVar(c, None) =>
    case CVar(c, Some(e)) =>
      assert BoundNames(Push(c, Unset, t).env) == scope + {c};
      ExprRuns(p, e, Push(c, Unset, t));
    case CVarStruct(c, fs) =>
      assert BoundNames(Push(c, Unset, t).env) == scope + {c};
      FieldsRun(p, fs, Push(c, Unset, t));
    case CAssign(c, aop, e) => ExprRuns(p, CAssignE(c, aop, e), t);
    case CEval(e) => ExprRuns(p, e, t);
    case CReturn(None) =>
    case CReturn(Some(e)) => ExprRuns(p, e, t);
    case CIf(e, a, b) =>
      ExprRuns(p, e, t);
      EvalBound(p, e, t);
      ListRuns(p, a, EvalC(p, e, t).st, fuel);
      ListRuns(p, b, EvalC(p, e, t).st, fuel);
    case CWhile(e, a) => LoopRuns(p, Some(e), None, a, t, fuel);
    case CDoWhile(a, e) => RepeatRuns(p, a, e, t, fuel);
    case CFor(i, test, step, a) =>
      ListRuns(p, i, t, fuel);
      ScopeAfterAll(p, i, t, fuel);
      LoopRuns(p, test, step, a, RunList(p, i, t, fuel).st, fuel);
    case CBlock(a) => ListRuns(p, a, t, fuel);
    case _ =>
  }

  lemma OptRuns(p: Program, e: Option<CExpr>, d: int, t: Tgt)
    ensures var e' := BindOpt(e, BoundNames(t.env));
            (if e'.Some? then EvalC(p, e'.value, t) else Val(d, t)) ==
                    (if e.Some? then EvalC(p, e.value, t) else Val(d, t))
    ensures BoundNames((if e.Some? then EvalC(p, e.value, t) else Val(d, t)).st.env) == BoundNames(t.env)
  {
    if e.Some? {
      ExprRuns(p, e.value, t);
      EvalBound(p, e.value, t);
    }
  }

  lemma {:induction false} LoopRuns(p: Program, test: Option<CExpr>, step: Option<CExpr>, body: List<CStmt>, t: Tgt,
          fuel: nat)
    ensures var scope := BoundNames(t.env);
            LoopC(p, BindOpt(test, scope), BindOpt(step, scope), BindAll(body, scope), t, fuel) ==
                    LoopC(p, test, step, body, t, fuel)
    decreases fuel, body, 2
  {
    if fuel > 0 {
      OptRuns(p, test, 1, t);
      var r := if test.Some? then EvalC(p, test.value, t) else Val(1, t);
      ListRuns(p, body, r.st, fuel);
      BracesScope(p, body, r.st, fuel);
      var a := RunBraces(p, body, r.st, fuel);
      OptRuns(p, step, 0, a.st);
      var q := if step.Some? then EvalC(p, step.value, a.st) else Val(0, a.st);
      LoopRuns(p, test, step, body, q.st, fuel - 1);
    }
  }

  lemma {:induction false} RepeatRuns(p: Program, body: List<CStmt>, test: CExpr, t: Tgt, fuel: nat)
    ensures var scope := BoundNames(t.env);
            RepeatC(p, BindAll(body, scope), BindE(test, scope), t, fuel) == RepeatC(p, body, test, t, fuel)
    decreases fuel, body, 2
  {
    if fuel > 0 {
      ListRuns(p, body, t, fuel);
      BracesScope(p, body, t, fuel);
      var a := RunBraces(p, body, t, fuel);
      ExprRuns(p, test, a.st);
      EvalBound(p, test, a.st);
      RepeatRuns(p, body, test, EvalC(p, test, a.st).st, fuel - 1);
    }
  }

  /** Where no global is captured, the C text runs like the instructions that keep
      locals and globals apart. */
  lemma TextRuns(p: Program, cs: List<CStmt>, t: Tgt, fuel: nat)
    requires NoCapture(cs, BoundNames(t.env))
    ensures RunList(p, Spell(cs), t, fuel) == RunList(p, cs, t, fuel)
  {
    ListRuns(p, cs, t, fuel);
    ListRuns(p, Spell(cs), t, fuel);
    CapturedExactly(cs, BoundNames(t.env));
  }
}
