/** When a scoped source state and a flat C state mean the same. */
module Relation {
  import opened Lists
  import opened Naming
  import opened Syntax
  import opened SourceSemantics
  import opened TargetSemantics
  import opened Lowering
  import opened Freshness
  import opened Frames

  /** A set source variable has its value in C; an unset one is zero there. */
  predicate SlotOk(v: Option<int>, w: Option<Value>) { w == Some(Int(if v.Some? then v.value else 0)) }

  predicate AgreeVars(locals: List<Local>, vars: List<Slot>, env: List<Bind>) {
    match (locals, vars)
    case (Nil, Nil) => true
    case (Cons(l, ls), Cons(b, bs)) =>
      l.name == b.name && SlotOk(b.val, Lookup(env, Sym(l.cname))) && AgreeVars(ls, bs, env)
    case _ => false
  }

  /** The captured values of a closure are the struct that was built when it
      was registered. */
  predicate Captured(env: Option<nat>, fields: List<Field>, binds: List<Bind>) {
    match env
    case None => fields == Nil
    case Some(k) => Lookup(binds, DeferEnv(k)) == Some(Struct(fields))
  }

  predicate AgreeClos(defers: List<DeferEntry>, clos: List<Closure>, env: List<Bind>) {
    match (defers, clos)
    case (Nil, Nil) => true
    case (Cons(d, ds), Cons(k, ks)) => d.id == k.id && Captured(d.env, k.fields, env) && AgreeClos(ds, ks, env)
    case _ => false
  }

  /** C variables outside the current scope that must not change meanwhile. */
  predicate Frozen(f: map<CName, Value>, env: List<Bind>) {
    forall n :: n in f ==> Lookup(env, n) == Some(f[n])
  }

  predicate FrozenOk(c: Ctx, f: map<CName, Value>) {
    forall n :: n in f ==> Used(c, n) && (n.Sym? ==> n.text !in CNames(c.locals))
  }

  ghost predicate Related(p: Program, c: Ctx, s: Src, t: Tgt, f: map<CName, Value>) {
    && LinksGlobals(p)
    && GoodCtx(p, c)
    && AgreeVars(c.locals, s.vars, t.env)
    && AgreeClos(c.defers, s.clos, t.env)
    && Captured(c.env, s.caps, t.env)
    && s.globals == t.globals
    && s.trace == t.trace
    && Frozen(f, t.env)
    && FrozenOk(c, f)
  }

  /* ------------------------- variables and closures ------------------------- */

  lemma {:induction false} AgreeFind(locals: List<Local>, vars: List<Slot>, env: List<Bind>, x: string)
    requires AgreeVars(locals, vars, env)
    ensures FindLocal(locals, x).Some? <==> FindSlot(vars, x).Some?
    ensures FindSlot(vars, x).Some? ==>
      && FindLocal(locals, x).value in CNames(locals)
      && SlotOk(FindSlot(vars, x).value.val, Lookup(env, Sym(FindLocal(locals, x).value)))
  {
    if locals.Cons? && locals.head.name != x {
      AgreeFind(locals.tail, vars.tail, env, x);
    }
  }

  lemma {:induction false} AgreeElsewhere(locals: List<Local>, vars: List<Slot>, env: List<Bind>, env': List<Bind>)
    requires AgreeVars(locals, vars, env)
    requires forall x :: x in CNames(locals) ==> Lookup(env', Sym(x)) == Lookup(env, Sym(x))
    ensures AgreeVars(locals, vars, env')
  {
    if locals.Cons? {
      AgreeElsewhere(locals.tail, vars.tail, env, env');
    }
  }

  lemma {:induction false} ClosElsewhere(defers: List<DeferEntry>, clos: List<Closure>, env: List<Bind>,
          env': List<Bind>, n: nat)
    requires AgreeClos(defers, clos, env) && EnvsBelow(defers, n)
    requires forall k: nat :: k < n ==> Lookup(env', DeferEnv(k)) == Lookup(env, DeferEnv(k))
    ensures AgreeClos(defers, clos, env')
  {
    if defers.Cons? {
      ClosElsewhere(defers.tail, clos.tail, env, env', n);
    }
  }

  lemma {:induction false} AgreeSet(locals: List<Local>, vars: List<Slot>, env: List<Bind>, x: string, w: int)
    requires AgreeVars(locals, vars, env) && Distinct(locals) && FindLocal(locals, x).Some?
    ensures AgreeVars(locals, SetSlot(vars, x, w), Update(env, Sym(FindLocal(locals, x).value), Int(w)))
  {
    AgreeFind(locals, vars, env, x);
    var n := Sym(FindLocal(locals, x).value);
    var env' := Update(env, n, Int(w));
    forall d
      ensures Lookup(env', d) == if d == n && Lookup(env, n).Some? then Some(Int(w)) else Lookup(env, d)
    {
      LookupUpdate(env, n, Int(w), d);
    }
    if locals.head.name == x {
      AgreeElsewhere(locals.tail, vars.tail, env, env');
    } else {
      AgreeSet(locals.tail, vars.tail, env, x, w);
      AgreeFind(locals.tail, vars.tail, env, x);
    }
  }

  lemma {:induction false} AgreeLens(locals: List<Local>, vars: List<Slot>, env: List<Bind>)
    requires AgreeVars(locals, vars, env)
    ensures Len(vars) == Len(locals)
  {
    if locals.Cons? {
      AgreeLens(locals.tail, vars.tail, env);
    }
  }

  lemma {:induction false} ClosLens(defers: List<DeferEntry>, clos: List<Closure>, env: List<Bind>)
    requires AgreeClos(defers, clos, env)
    ensures Len(clos) == Len(defers)
  {
    if defers.Cons? {
      ClosLens(defers.tail, clos.tail, env);
    }
  }

  lemma {:induction false} AgreeTail(short: List<Local>, long: List<Local>, vars: List<Slot>, env: List<Bind>)
    requires AgreeVars(long, vars, env) && IsTail(short, long)
    ensures AgreeVars(short, Keep(vars, Len(short)), env)
  {
    AgreeLens(long, vars, env);
    TailLen(short, long);
    if short != long {
      TailLen(short, long.tail);
      AgreeTail(short, long.tail, vars.tail, env);
    }
  }

  lemma {:induction false} ClosTail(short: List<DeferEntry>, long: List<DeferEntry>, clos: List<Closure>,
          env: List<Bind>)
    requires AgreeClos(long, clos, env) && IsTail(short, long)
    ensures AgreeClos(short, Keep(clos, Len(short)), env)
  {
    ClosLens(long, clos, env);
    TailLen(short, long);
    if short != long {
      TailLen(short, long.tail);
      ClosTail(short, long.tail, clos.tail, env);
    }
  }

  lemma {:induction false} ClosFind(defers: List<DeferEntry>, clos: List<Closure>, env: List<Bind>, id: string)
    requires AgreeClos(defers, clos, env)
    ensures FindDefer(defers, id).Some? <==> FindClosure(clos, id).Some?
    ensures FindClosure(clos, id).Some? ==>
            Captured(FindDefer(defers, id).value.env, FindClosure(clos, id).value.fields, env)
  {
    if defers.Cons? && defers.head.id != id {
      ClosFind(defers.tail, clos.tail, env, id);
    }
  }

  /* ----------------------------- moving states ------------------------------ */

  /** A C state that agrees on every taken name is related to the same source. */
  lemma RelatedElsewhere(p: Program, c: Ctx, s: Src, t: Tgt, t': Tgt, f: map<CName, Value>)
    requires Related(p, c, s, t, f)
    requires t'.globals == t.globals && t'.trace == t.trace
    requires forall n :: Used(c, n) ==> Lookup(t'.env, n) == Lookup(t.env, n)
    ensures Related(p, c, s, t', f)
  {
    forall x | x in CNames(c.locals)
      ensures Lookup(t'.env, Sym(x)) == Lookup(t.env, Sym(x))
    {
      assert Used(c, Sym(x));
    }
    forall k: nat | k < c.deferSeq
      ensures Lookup(t'.env, DeferEnv(k)) == Lookup(t.env, DeferEnv(k))
    {
      assert Used(c, DeferEnv(k));
    }
    AgreeElsewhere(c.locals, s.vars, t.env, t'.env);
    ClosElsewhere(c.defers, s.clos, t.env, t'.env, c.deferSeq);
  }

  /** A new C name can be declared without disturbing the relation. */
  lemma RelatedPush(p: Program, c: Ctx, s: Src, t: Tgt, f: map<CName, Value>, n: CName, v: Value)
    requires Related(p, c, s, t, f) && !Used(c, n)
    ensures Related(p, c, s, Push(n, v, t), f)
  {
    RelatedElsewhere(p, c, s, t, Push(n, v, t), f);
  }

  /** The context may have taken more names and used more numbers meanwhile. */
  lemma RelatedGrow(p: Program, c: Ctx, c': Ctx, s: Src, t: Tgt, f: map<CName, Value>)
    requires Related(p, c, s, t, f) && Grows(c, c') && GoodCtx(p, c')
    requires c'.locals == c.locals && c'.defers == c.defers
    ensures Related(p, c', s, t, f)
  {
  }

  lemma RelatedFreeze(p: Program, c: Ctx, s: Src, t: Tgt, f: map<CName, Value>, n: CName, v: Value)
    requires Related(p, c, s, t, f) && Used(c, n) && (n.Sym? ==> n.text !in CNames(c.locals))
    requires Lookup(t.env, n) == Some(v)
    ensures Related(p, c, s, t, f[n := v])
  {
  }

  lemma RelatedThaw(p: Program, c: Ctx, s: Src, t: Tgt, f: map<CName, Value>, n: CName, v: Value)
    requires Related(p, c, s, t, f[n := v]) && n !in f
    ensures Related(p, c, s, t, f)
  {
    assert forall m :: m in f ==> m in f[n := v] && f[n := v][m] == f[m];
  }

  predicate SameDepth(a: Src, b: Src) {
    Len(a.vars) == Len(b.vars) && Len(a.clos) == Len(b.clos)
  }

  lemma RelatedDepth(p: Program, c: Ctx, s: Src, t: Tgt, f: map<CName, Value>)
    requires Related(p, c, s, t, f)
    ensures Len(s.vars) == Len(c.locals) && Len(s.clos) == Len(c.defers)
  {
    AgreeLens(c.locals, s.vars, t.env);
    ClosLens(c.defers, s.clos, t.env);
  }

  lemma RelatedCtx(p: Program, c: Ctx, s: Src, t: Tgt, f: map<CName, Value>)
    requires Related(p, c, s, t, f)
    ensures GoodCtx(p, c) && FrozenOk(c, f)
  {
  }

  /** Dropping the newest scopes of the source. */
  lemma RelatedPop(p: Program, c: Ctx, c': Ctx, s: Src, s': Src, t': Tgt, f: map<CName, Value>)
    requires Related(p, c', s', t', f)
    requires GoodCtx(p, c) && FrozenOk(c, f) && c.env == c'.env
    requires IsTail(c.locals, c'.locals) && IsTail(c.defers, c'.defers)
    requires Len(s.vars) == Len(c.locals) && Len(s.clos) == Len(c.defers)
    ensures Related(p, c, PopTo(s', s), t', f)
  {
    AgreeTail(c.locals, c'.locals, s'.vars, t'.env);
    ClosTail(c.defers, c'.defers, s'.clos, t'.env);
  }

  /** Leaving braces in C. */
  lemma RelatedBrace(p: Program, c: Ctx, s': Src, t: Tgt, t': Tgt, f: map<CName, Value>, d: set<CName>)
    requires Related(p, c, s', t', f) && Framed(t, t', d)
    requires forall n :: n in d ==> !Used(c, n)
    ensures Related(p, c, s', PopBrace(t', t), f)
  {
    var u := PopBrace(t', t);
    forall n | Used(c, n)
      ensures Lookup(u.env, n) == Lookup(t'.env, n)
    {
      LookupKeep(t'.env, Len(t.env), n);
    }
    RelatedElsewhere(p, c, s', t', u, f);
  }

  lemma PopNothing(s': Src, s: Src)
    requires SameDepth(s', s)
    ensures PopTo(s', s) == s'
  {
  }
}
