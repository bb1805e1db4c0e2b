/** A condition that a reader can check on the source text alone: such functions are
    clean, so that the compiler emits the intended text for them.

    The compiler's list of names runs ahead of the scopes of the source behind a
    `for` header, a try prefix or a list of defers, and in an initialiser; its list
    of defers behind every block.  Such names and defers are lost track of here,
    until they are declared anew, and a tame function does not mention them. */
module Tame {
  import opened Lists
  import opened Naming
  import opened Syntax
  import opened Lowering
  import opened Freshness
  import opened Spelling
  import opened Scoping
  import opened Correctness

  /* ------------------------- what the text leaves behind ----------------------- */

  function NamesTry(t: Try): set<string>
    decreases t, 0
  {
    Names(t.setup) + NamesOpt(t.tail)
  }

  function NamesList(ss: List<Stmt>): set<string>
    decreases ss, 0
  {
    if ss.Nil? then {} else Names(ss.head) + NamesList(ss.tail)
  }

  function NamesOpt(s: Option<Stmt>): set<string>
    decreases s, 2
  {
    if s.Some? then Names(s.value) else {}
  }

  /** The names that the compiler still lists behind s, apart from earlier ones. */
  function Names(s: Stmt): set<string>
    decreases s, 1
  {
    match s
    case VarDef(x, InitTry(t)) => {x} + NamesTry(t)
    case VarDef(x, _) => {x}
    case AssignTry(_, _, t) => NamesTry(t)
    case Return(_, ds) => NamesList(ds)
    case ReturnTry(t, ds) => NamesTry(t) + NamesList(ds)
    case Break(ds) => NamesList(ds)
    case Continue(ds) => NamesList(ds)
    case If(_, _, ElseIf(s')) => Names(s')
    case For(i, _, _, _) => NamesOpt(i)
    case Decorated(a, core, b) => NamesList(a) + NamesOpt(core) + NamesList(b)
    case _ => {}
  }

  function DefersTry(t: Try): set<string>
    decreases t, 0
  {
    Defers(t.setup) + DefersOpt(t.tail)
  }

  function DefersList(ss: List<Stmt>): set<string>
    decreases ss, 0
  {
    if ss.Nil? then {} else Defers(ss.head) + DefersList(ss.tail)
  }

  function DefersOpt(s: Option<Stmt>): set<string>
    decreases s, 2
  {
    if s.Some? then Defers(s.value) else {}
  }

  function DefersArms(arms: Arms): set<string>
    decreases arms, 0
  {
    match arms
    case Default(None) => {}
    case Default(Some(b)) => DefersList(b)
    case Arm(_, b, rest) => DefersList(b) + DefersArms(rest)
  }

  /** The defers registered anywhere in s: the compiler keeps them all. */
  function Defers(s: Stmt): set<string>
    decreases s, 1
  {
    match s
    case VarDef(_, InitTry(t)) => DefersTry(t)
    case AssignTry(_, _, t) => DefersTry(t)
    case Return(_, ds) => DefersList(ds)
    case ReturnTry(t, ds) => DefersTry(t) + DefersList(ds)
    case Break(ds) => DefersList(ds)
    case Continue(ds) => DefersList(ds)
    case If(_, a, NoElse) => DefersList(a)
    case If(_, a, ElseBlock(b)) => DefersList(a) + DefersList(b)
    case If(_, a, ElseIf(s')) => DefersList(a) + Defers(s')
    case Switch(_, arms) => DefersArms(arms)
    case While(_, a) => DefersList(a)
    case DoWhile(a, _) => DefersList(a)
    case For(i, _, _, a) => DefersOpt(i) + DefersList(a)
    case Block(a) => DefersList(a)
    case DeferDef(id, _, _) => {id}
    case DeferCall(_, a) => DefersList(a)
    case Decorated(a, core, b) => DefersList(a) + DefersOpt(core) + DefersList(b)
    case _ => {}
  }

  /* ------------------------------ what is lost track of ------------------------ */

  /** What a reader keeps in mind at a point of the text: the names and defers that
      the compiler may find elsewhere than the source, and all that it may find. */
  datatype Trail = Trail(lost: set<string>, lostDefers: set<string>, listed: set<string>, registered: set<string>)

  /** Behind a construct that ends a scope in the source. */
  function Ended(names: set<string>, defers: set<string>, h: Trail): Trail {
    Trail(h.lost + names, h.lostDefers + defers, h.listed + names, h.registered + defers)
  }

  /** Behind a declaration of x, which both find, and within its initialiser. */
  function Declared(x: string, h: Trail): Trail { h.(lost := h.lost - {x}, listed := h.listed + {x}) }

  function Initialising(x: string, h: Trail): Trail { h.(lost := h.lost + {x}, listed := h.listed + {x}) }

  function Registered(id: string, h: Trail): Trail {
    h.(lostDefers := h.lostDefers - {id}, registered := h.registered + {id})
  }

  /** In the body of a defer, where the source sees nothing of the function around. */
  function InDefer(h: Trail): Trail { h.(lost := h.listed, lostDefers := h.registered) }

  function PastTry(t: Try, h: Trail): Trail
    decreases t, 0
  {
    Ended(NamesOpt(t.tail), DefersOpt(t.tail), Past(t.setup, h))
  }

  function PastList(ss: List<Stmt>, h: Trail): Trail
    decreases ss, 0
  {
    if ss.Nil? then h else PastList(ss.tail, Past(ss.head, h))
  }

  function PastOpt(s: Option<Stmt>, h: Trail): Trail
    decreases s, 2
  {
    if s.Some? then Past(s.value, h) else h
  }

  function PastBlock(ss: List<Stmt>, h: Trail): Trail { Ended({}, DefersList(ss), h) }

  /** The trail behind s. */
  function Past(s: Stmt, h: Trail): Trail
    decreases s, 1
  {
    match s
    case VarDef(x, InitTry(t)) => Ended(NamesTry(t), DefersTry(t), Declared(x, h))
    case VarDef(x, _) => Declared(x, h)
    case DeferDef(id, _, _) => Registered(id, h)
    case Decorated(a, core, b) => PastList(b, PastOpt(core, PastList(a, h)))
    case _ => Ended(Names(s), Defers(s), h)
  }

  /* --------------------------------- mentions ---------------------------------- */

  function Mentions(e: Expr): set<string>
    decreases e
  {
    match e
    case Ident(x) => {x}
    case Unary(_, a) => Mentions(a)
    case Binary(_, a, b) => Mentions(a) + Mentions(b)
    case Call(_, args) => MentionsArgs(args)
    case AssignE(x, _, a) => Target(x) + Mentions(a)
    case Ternary(q, a, b) => Mentions(q) + Mentions(a) + Mentions(b)
    case _ => {}
  }

  function MentionsArgs(es: List<Expr>): set<string>
    decreases es
  {
    if es.Nil? then {} else Mentions(es.head) + MentionsArgs(es.tail)
  }

  function MentionsOpt(e: Option<Expr>): set<string> { if e.Some? then Mentions(e.value) else {} }

  function MentionsCaptures(cs: List<Capture>): set<string> {
    if cs.Nil? then {} else Mentions(cs.head.e) + MentionsCaptures(cs.tail)
  }

  function Target(x: string): set<string> { if x == DISCARD then {} else {x} }

  /* ------------------------------- tame functions ------------------------------ */

  predicate TameTry(void: bool, t: Try, h: Trail)
    decreases t, 0
  {
    var h1 := Past(t.setup, h);
    TameIn(void, t.setup, h) && Mentions(t.ok) !! h1.lost && TameOpt(void, t.tail, h1)
  }

  predicate TameExit(void: bool, saved: bool, ds: List<Stmt>, h: Trail)
    decreases ds, 2
  {
    ds.Cons? ==> !(saved && void) && TameList(void, ds, h)
  }

  predicate TameList(void: bool, ss: List<Stmt>, h: Trail)
    decreases ss, 0
  {
    ss.Cons? ==> TameIn(void, ss.head, h) && TameList(void, ss.tail, Past(ss.head, h))
  }

  predicate TameOpt(void: bool, s: Option<Stmt>, h: Trail)
    decreases s, 2
  {
    s.Some? ==> TameIn(void, s.value, h)
  }

  predicate TameArms(void: bool, arms: Arms, h: Trail)
    decreases arms, 0
  {
    match arms
    case Default(None) => true
    case Default(Some(b)) => TameList(void, b, h)
    case Arm(es, b, rest) =>
      MentionsArgs(es) !! h.lost && TameList(void, b, h) && TameArms(void, rest, PastBlock(b, h))
  }

  /** Nothing that was lost track of is mentioned in s: no initialiser mentions its
      own name, nothing mentions what a header, a try or a defer declared before, and
      the body of a defer mentions only captured values, its own names, and globals
      without a namesake among the locals.  There is no nested function, no compound
      assignment of a try, and no void function returns a value past its defers. */
  predicate TameIn(void: bool, s: Stmt, h: Trail)
    decreases s, 1
  {
    match s
    case VarDef(_, NoInit) => true
    case VarDef(x, InitExpr(e)) => Mentions(e) !! h.lost + {x}
    case VarDef(x, InitTry(t)) =>
      var h1 := Initialising(x, h);
      TameTry(void, t, h1) && Mentions(t.value) !! PastTry(t, h1).lost && (x == DISCARD || x !in NamesTry(t))
    case Assign(x, _, e) => Target(x) !! h.lost && Mentions(e) !! h.lost
    case AssignTry(x, aop, t) =>
      && TameTry(void, t, h) && Mentions(t.value) !! PastTry(t, h).lost
      && (x == DISCARD || (x !in h.lost + NamesTry(t) && aop.None?))
    case ExprStmt(e) => Mentions(e) !! h.lost
    case Return(v, ds) => MentionsOpt(v) !! h.lost && TameExit(void, v.Some?, ds, h)
    case ReturnTry(t, ds) =>
      && TameTry(void, t, h) && Mentions(t.value) !! PastTry(t, h).lost
      && TameExit(void, true, ds, Ended(NamesTry(t), DefersTry(t), h))
    case Break(ds) => TameExit(void, false, ds, h)
    case Continue(ds) => TameExit(void, false, ds, h)
    case If(e, a, els) =>
      && Mentions(e) !! h.lost && TameList(void, a, h)
      && (match els
          case NoElse => true
          case ElseBlock(b) => TameList(void, b, PastBlock(a, h))
          case ElseIf(s') => TameIn(void, s', PastBlock(a, h)))
    case Switch(e, arms) => Mentions(e) !! h.lost && TameArms(void, arms, h)
    case While(e, a) => Mentions(e) !! h.lost && TameList(void, a, h)
    case DoWhile(a, e) => Mentions(e) !! h.lost && TameList(void, a, h)
    case For(i, test, step, a) =>
      var h1 := PastOpt(i, h);
      && TameOpt(void, i, h) && MentionsOpt(test) !! h1.lost && MentionsOpt(step) !! h1.lost
      && TameList(void, a, h1)
    case Block(a) => TameList(void, a, h)
    case DeferDef(_, captures, _) => MentionsCaptures(captures) !! h.lost
    case DeferCall(id, a) => id !in h.lostDefers && TameList(void, a, InDefer(h))
    case Decorated(a, core, b) =>
      var h1 := PastList(a, h);
      TameList(void, a, h) && TameOpt(void, core, h1) && TameList(void, b, PastOpt(core, h1))
    case LocalFn(_, _, _) => false
  }

  function ParamNames(xs: List<string>): set<string> {
    if xs.Nil? then {} else {xs.head} + ParamNames(xs.tail)
  }

  predicate TameFunction(f: Function) { TameList(f.void, f.body, Trail({}, {}, ParamNames(f.params), {})) }

  /* -------------------------- the trail is the compiler's ---------------------- */

  /** Both find the same except for what is lost, and the trail misses nothing. */
  ghost predicate Follows(c: Ctx, d: Ctx, h: Trail) {
    && (forall x :: x !in h.lost ==> FindLocal(c.locals, x) == FindLocal(d.locals, x))
    && (forall id :: id !in h.lostDefers ==> FindDefer(c.defers, id) == FindDefer(d.defers, id))
    && (forall x :: FindLocal(c.locals, x).Some? ==> x in h.listed)
    && (forall id :: FindDefer(c.defers, id).Some? ==> id in h.registered)
  }

  /** The same numbers, taken names and captured values. */
  predicate Level(c: Ctx, d: Ctx) { Numbered(c, d) && c.decls == d.decls && c.env == d.env }

  /** The lists only grew by these. */
  ghost predicate Wider(c: Ctx, c': Ctx, names: set<string>, defers: set<string>) {
    && (forall x :: x !in names ==> FindLocal(c'.locals, x) == FindLocal(c.locals, x))
    && (forall id :: id !in defers ==> FindDefer(c'.defers, id) == FindDefer(c.defers, id))
  }

  lemma WiderThen(a: Ctx, b: Ctx, c: Ctx, n: set<string>, d: set<string>, n': set<string>, d': set<string>)
    requires Wider(a, b, n, d) && Wider(b, c, n', d')
    ensures Wider(a, c, n + n', d + d')
  {
  }

  lemma {:induction false} TryWider(t: Try, c: Ctx)
    ensures Wider(c, AfterTry(AsWritten, t, c), NamesTry(t), DefersTry(t))
    decreases t, 0
  {
    var c1 := After(AsWritten, t.setup, c);
    StmtWider(t.setup, c);
    OptWider(t.tail, c1);
    WiderThen(c, c1, AfterOpt(AsWritten, t.tail, c1), Names(t.setup), Defers(t.setup), NamesOpt(t.tail),
              DefersOpt(t.tail));
  }

  lemma {:induction false} OptWider(s: Option<Stmt>, c: Ctx)
    ensures Wider(c, AfterOpt(AsWritten, s, c), NamesOpt(s), DefersOpt(s))
    decreases s, 2
  {
    if s.Some? {
      StmtWider(s.value, c);
    }
  }

  lemma {:induction false} ExitWider(saved: bool, ds: List<Stmt>, c: Ctx)
    ensures Wider(c, AfterExit(AsWritten, saved, ds, c), NamesList(ds), DefersList(ds))
    decreases ds, 2
  {
    hide AfterList;
    ListWider(ds, c.(retSeq := c.retSeq + 1));
    ListWider(ds, c);
  }

  lemma {:induction false} ListWider(ss: List<Stmt>, c: Ctx)
    ensures Wider(c, AfterList(AsWritten, ss, c), NamesList(ss), DefersList(ss))
    ensures Wider(c, AfterBlock(AsWritten, ss, c), {}, DefersList(ss))
    decreases ss, 1
  {
    if ss.Cons? {
      var c1 := After(AsWritten, ss.head, c);
      StmtWider(ss.head, c);
      ListWider(ss.tail, c1);
      WiderThen(c, c1, AfterList(AsWritten, ss.tail, c1), Names(ss.head), Defers(ss.head), NamesList(ss.tail),
                DefersList(ss.tail));
    }
  }

  lemma {:induction false} ArmsWider(arms: Arms, c: Ctx)
    ensures Wider(c, AfterArms(AsWritten, arms, c), {}, DefersArms(arms))
    decreases arms, 0
  {
    match arms
    case Default(None) =>
    case Default(Some(b)) => ListWider(b, c);
    case Arm(Nil, _, rest) => ArmsWider(rest, c);
    case Arm(Cons(_, _), b, rest) =>
      var c1 := AfterBlock(AsWritten, b, c);
      ListWider(b, c);
      ArmsWider(rest, c1);
      WiderThen(c, c1, AfterArms(AsWritten, rest, c1), {}, DefersList(b), {}, DefersArms(rest));
  }

  /** What the compiler has listed behind s. */
  lemma {:induction false} StmtWider(s: Stmt, c: Ctx)
    ensures Wider(c, After(AsWritten, s, c), Names(s), Defers(s))
    decreases s, 1
  {
    hide FreshName;
    hide NamesList;
    hide DefersList;
    hide DefersArms;
    hide DefersTry;
    hide NamesTry;
    hide AfterTry;
    hide AfterBlock;
    hide AfterArms;
    hide AfterExit;
    match s
    case VarDef(x, InitTry(t)) =>
      TryWider(t, Register(c, x));
      WiderThen(c, Register(c, x), AfterTry(AsWritten, t, Register(c, x)), {x}, {}, NamesTry(t), DefersTry(t));
    case AssignTry(_, _, t) => TryWider(t, c);
    case Return(v, ds) => ExitWider(v.Some?, ds, c);
    case ReturnTry(t, ds) =>
      var c1 := AfterTry(AsWritten, t, c);
      TryWider(t, c);
      ExitWider(true, ds, c1);
      WiderThen(c, c1, AfterExit(AsWritten, true, ds, c1), NamesTry(t), DefersTry(t), NamesList(ds), DefersList(ds));
    case Break(ds) => ExitWider(false, ds, c);
    case Continue(ds) => ExitWider(false, ds, c);
    case If(_, _, _) => BranchWider(s, c);
    case Switch(_, arms) => ArmsWider(arms, c.(switchSeq := c.switchSeq + 1));
    case While(_, a) => ListWider(a, c);
    case DoWhile(a, _) => ListWider(a, c);
    case For(i, _, _, a) =>
      var c1 := AfterOpt(AsWritten, i, c);
      OptWider(i, c);
      ListWider(a, c1);
      WiderThen(c, c1, AfterBlock(AsWritten, a, c1), NamesOpt(i), DefersOpt(i), {}, DefersList(a));
    case Block(a) => ListWider(a, c);
    case DeferCall(id, a) =>
      if FindDefer(c.defers, id).Some? {
        ListWider(a, DeferScope(AsWritten, FindDefer(c.defers, id).value, c));
      }
    case Decorated(_, _, _) => DecoratedWider(s, c);
    case _ =>
  }

  lemma {:induction false} BranchWider(s: Stmt, c: Ctx)
    requires s.If?
    ensures Wider(c, After(AsWritten, s, c), Names(s), Defers(s))
    decreases s, 0
  {
    var c1 := AfterBlock(AsWritten, s.body, c);
    ListWider(s.body, c);
    match s.els
    case NoElse =>
    case ElseBlock(b) =>
      ListWider(b, c1);
      WiderThen(c, c1, AfterBlock(AsWritten, b, c1), {}, DefersList(s.body), {}, DefersList(b));
    case ElseIf(z) =>
      StmtWider(z, c1);
      WiderThen(c, c1, After(AsWritten, z, c1), {}, DefersList(s.body), Names(z), Defers(z));
  }

  lemma {:induction false} DecoratedWider(s: Stmt, c: Ctx)
    requires s.Decorated?
    ensures Wider(c, After(AsWritten, s, c), Names(s), Defers(s))
    decreases s, 0
  {
    var c1 := AfterList(AsWritten, s.pre, c);
    var c2 := AfterOpt(AsWritten, s.core, c1);
    ListWider(s.pre, c);
    OptWider(s.core, c1);
    ListWider(s.post, c2);
    WiderThen(c, c1, c2, NamesList(s.pre), DefersList(s.pre), NamesOpt(s.core), DefersOpt(s.core));
    WiderThen(c, c2, AfterList(AsWritten, s.post, c2), NamesList(s.pre) + NamesOpt(s.core),
              DefersList(s.pre) + DefersOpt(s.core), NamesList(s.post), DefersList(s.post));
  }

  lemma {:induction false} ArmsRestore(arms: Arms, d: Ctx)
    ensures var d' := AfterArms(Intended, arms, d); d'.locals == d.locals && d'.defers == d.defers
    decreases arms
  {
    match arms
    case Default(_) =>
    case Arm(Nil, _, rest) => ArmsRestore(rest, d);
    case Arm(Cons(_, _), b, rest) => ArmsRestore(rest, AfterBlock(Intended, b, d));
  }

  /** Most statements end every scope that they open in the source. */
  lemma Restores(s: Stmt, d: Ctx)
    requires !s.VarDef? && !s.DeferDef? && !s.Decorated?
    ensures var d' := After(Intended, s, d); d'.locals == d.locals && d'.defers == d.defers
  {
    hide AfterArms;
    hide AfterList;
    hide AfterTry;
    hide RegisterAll;
    if s.Switch? {
      ArmsRestore(s.arms, d.(switchSeq := d.switchSeq + 1));
    }
  }

  lemma EndedFollows(c: Ctx, d: Ctx, h: Trail, c': Ctx, d': Ctx, names: set<string>, defers: set<string>)
    requires Follows(c, d, h) && Wider(c, c', names, defers)
    requires d'.locals == d.locals && d'.defers == d.defers
    ensures Follows(c', d', Ended(names, defers, h))
  {
  }

  lemma StmtFollows(s: Stmt, c: Ctx, d: Ctx, h: Trail)
    requires Follows(c, d, h) && !s.VarDef? && !s.DeferDef? && !s.Decorated?
    ensures Follows(After(AsWritten, s, c), After(Intended, s, d), Past(s, h))
  {
    hide Follows;
    hide After;
    StmtWider(s, c);
    Restores(s, d);
    EndedFollows(c, d, h, After(AsWritten, s, c), After(Intended, s, d), Names(s), Defers(s));
  }

  lemma BlockFollows(ss: List<Stmt>, c: Ctx, d: Ctx, h: Trail)
    requires Follows(c, d, h)
    ensures Follows(AfterBlock(AsWritten, ss, c), AfterBlock(Intended, ss, d), PastBlock(ss, h))
  {
    hide Follows;
    ListWider(ss, c);
    EndedFollows(c, d, h, AfterBlock(AsWritten, ss, c), AfterBlock(Intended, ss, d), {}, DefersList(ss));
  }

  /* -------------------------------- tame is clean ------------------------------ */

  lemma NameAlike(x: string, c: Ctx, d: Ctx, h: Trail)
    requires Level(c, d) && Follows(c, d, h) && x !in h.lost
    ensures Alike(x, c, d)
  {
  }

  lemma {:induction false} ExprClean(e: Expr, c: Ctx, d: Ctx, h: Trail)
    requires Level(c, d) && Follows(c, d, h) && Mentions(e) !! h.lost
    ensures CleanE(e, c, d)
    decreases e
  {
    hide Follows;
    match e
    case Lit(_) =>
    case Ident(x) => NameAlike(x, c, d, h);
    case CapRef(_) =>
    case Unary(_, a) => ExprClean(a, c, d, h);
    case Binary(_, a, b) =>
      ExprClean(a, c, d, h);
      ExprClean(b, c, d, h);
    case Call(_, args) => ArgsClean(args, c, d, h);
    case AssignE(x, _, a) =>
      ExprClean(a, c, d, h);
      if x != DISCARD {
        NameAlike(x, c, d, h);
      }
    case Ternary(q, a, b) =>
      ExprClean(q, c, d, h);
      ExprClean(a, c, d, h);
      ExprClean(b, c, d, h);
  }

  lemma {:induction false} ArgsClean(es: List<Expr>, c: Ctx, d: Ctx, h: Trail)
    requires Level(c, d) && Follows(c, d, h) && MentionsArgs(es) !! h.lost
    ensures CleanArgs(es, c, d)
    decreases es
  {
    if es.Cons? {
      ExprClean(es.head, c, d, h);
      ArgsClean(es.tail, c, d, h);
    }
  }

  lemma OptClean(e: Option<Expr>, c: Ctx, d: Ctx, h: Trail)
    requires Level(c, d) && Follows(c, d, h) && MentionsOpt(e) !! h.lost
    ensures CleanOpt(e, c, d)
  {
    if e.Some? {
      ExprClean(e.value, c, d, h);
    }
  }

  lemma {:induction false} CapturesClean(cs: List<Capture>, c: Ctx, d: Ctx, h: Trail)
    requires Level(c, d) && Follows(c, d, h) && MentionsCaptures(cs) !! h.lost
    ensures CleanCaptures(cs, c, d)
  {
    if cs.Cons? {
      ExprClean(cs.head.e, c, d, h);
      CapturesClean(cs.tail, c, d, h);
    }
  }

  /** Two views between which the text was followed. */
  ghost predicate Kept(c: Ctx, d: Ctx, h: Trail) { Level(c, d) && Follows(c, d, h) }

  lemma {:induction false} TryClean(void: bool, t: Try, c: Ctx, d: Ctx, h: Trail)
    requires Kept(c, d, h) && c.retVoid == void && TameTry(void, t, h)
    ensures CleanTry(t, c, d) && Kept(AfterTry(AsWritten, t, c), AfterTry(Intended, t, d), PastTry(t, h))
    decreases t, 0
  {
    hide Follows;
    hide After;
    hide Clean;
    hide CleanE;
    hide TameIn;
    hide Past;
    var c1, d1, h1 := After(AsWritten, t.setup, c), After(Intended, t.setup, d), Past(t.setup, h);
    StmtClean(void, t.setup, c, d, h);
    SameResult(t.setup, c);
    ExprClean(t.ok, c1, d1, h1);
    OptionalClean(void, t.tail, c1, d1, h1);
    OptWider(t.tail, c1);
    EndedFollows(c1, d1, h1, AfterOpt(AsWritten, t.tail, c1), AfterTry(Intended, t, d), NamesOpt(t.tail),
                 DefersOpt(t.tail));
  }

  /** Whether the function has a result stays as it is. */
  lemma SameResult(s: Stmt, c: Ctx)
    ensures After(AsWritten, s, c).retVoid == c.retVoid
  {
    StmtView(AsWritten, s, c);
  }

  lemma {:induction false} OptionalClean(void: bool, s: Option<Stmt>, c: Ctx, d: Ctx, h: Trail)
    requires Kept(c, d, h) && c.retVoid == void && TameOpt(void, s, h)
    ensures CleanStart(s, c, d) && Kept(AfterOpt(AsWritten, s, c), AfterOpt(Intended, s, d), PastOpt(s, h))
    decreases s, 2
  {
    if s.Some? {
      StmtClean(void, s.value, c, d, h);
    }
  }

  lemma {:induction false} ExitClean(void: bool, saved: bool, ds: List<Stmt>, c: Ctx, d: Ctx, h: Trail)
    requires Kept(c, d, h) && c.retVoid == void && TameExit(void, saved, ds, h)
    ensures CleanExit(saved, ds, c, d)
    ensures Level(AfterExit(AsWritten, saved, ds, c), AfterExit(Intended, saved, ds, d))
    decreases ds, 2
  {
    hide Follows;
    hide AfterList;
    hide CleanList;
    hide TameList;
    if ds.Cons? {
      if saved {
        var c1, d1 := c.(retSeq := c.retSeq + 1), d.(retSeq := d.retSeq + 1);
        Renumbered(c, d, h, c1, d1);
        ListClean(void, ds, c1, d1, h);
      } else {
        ListClean(void, ds, c, d, h);
      }
    }
  }

  lemma Renumbered(c: Ctx, d: Ctx, h: Trail, c': Ctx, d': Ctx)
    requires Follows(c, d, h) && c'.locals == c.locals && d'.locals == d.locals
    requires c'.defers == c.defers && d'.defers == d.defers
    ensures Follows(c', d', h)
  {
  }

  lemma {:induction false} ListClean(void: bool, ss: List<Stmt>, c: Ctx, d: Ctx, h: Trail)
    requires Kept(c, d, h) && c.retVoid == void && TameList(void, ss, h)
    ensures CleanList(ss, c, d)
    ensures Kept(AfterList(AsWritten, ss, c), AfterList(Intended, ss, d), PastList(ss, h))
    ensures Kept(AfterBlock(AsWritten, ss, c), AfterBlock(Intended, ss, d), PastBlock(ss, h))
    decreases ss, 1
  {
    hide Follows;
    hide After;
    hide Clean;
    hide TameIn;
    hide Past;
    BlockFollows(ss, c, d, h);
    if ss.Cons? {
      StmtClean(void, ss.head, c, d, h);
      SameResult(ss.head, c);
      ListClean(void, ss.tail, After(AsWritten, ss.head, c), After(Intended, ss.head, d), Past(ss.head, h));
    }
    BlockLevel(ss, c, d);
  }

  lemma BlockLevel(ss: List<Stmt>, c: Ctx, d: Ctx)
    requires Level(AfterList(AsWritten, ss, c), AfterList(Intended, ss, d))
    ensures Level(AfterBlock(AsWritten, ss, c), AfterBlock(Intended, ss, d))
  {
  }

  lemma {:induction false} ArmsClean(void: bool, arms: Arms, c: Ctx, d: Ctx, h: Trail)
    requires Kept(c, d, h) && c.retVoid == void && TameArms(void, arms, h)
    ensures CleanArms(arms, c, d)
    ensures Level(AfterArms(AsWritten, arms, c), AfterArms(Intended, arms, d))
    decreases arms, 0
  {
    hide Follows;
    match arms
    case Default(None) =>
    case Default(Some(b)) => ListClean(void, b, c, d, h);
    case Arm(Nil, b, rest) =>
      EndedFollows(c, d, h, c, d, {}, DefersList(b));
      ArmsClean(void, rest, c, d, PastBlock(b, h));
    case Arm(Cons(e, es), b, rest) =>
      ArgsClean(Cons(e, es), c, d, h);
      ListClean(void, b, c, d, h);
      ListView(AsWritten, b, c);
      ArmsClean(void, rest, AfterBlock(AsWritten, b, c), AfterBlock(Intended, b, d), PastBlock(b, h));
  }

  ghost predicate TameGoal(s: Stmt, c: Ctx, d: Ctx, h: Trail) {
    && Clean(s, c, d)
    && Level(After(AsWritten, s, c), After(Intended, s, d))
    && Follows(After(AsWritten, s, c), After(Intended, s, d), Past(s, h))
  }

  /** A statement that mentions nothing lost is clean. */
  lemma {:induction false} StmtClean(void: bool, s: Stmt, c: Ctx, d: Ctx, h: Trail)
    requires Kept(c, d, h) && c.retVoid == void && TameIn(void, s, h)
    ensures TameGoal(s, c, d, h)
    decreases s, 1
  {
    hide Follows;
    hide CleanE;
    hide FreshName;
    hide CleanList;
    hide CleanArms;
    hide CleanExit;
    hide TameList;
    hide TameArms;
    hide TameExit;
    hide AfterBlock;
    hide AfterArms;
    hide AfterExit;
    if !s.VarDef? && !s.DeferDef? && !s.Decorated? {
      StmtFollows(s, c, d, h);
    }
    match s
    case VarDef(_, _) => DeclClean(void, s, c, d, h);
    case Assign(x, _, e) =>
      ExprClean(e, c, d, h);
      if x != DISCARD {
        NameAlike(x, c, d, h);
      }
    case AssignTry(_, _, _) => AssignTryClean(void, s, c, d, h);
    case ExprStmt(e) => ExprClean(e, c, d, h);
    case Return(v, ds) =>
      OptClean(v, c, d, h);
      ExitClean(void, v.Some?, ds, c, d, h);
    case ReturnTry(_, _) => ReturnTryClean(void, s, c, d, h);
    case Break(ds) => ExitClean(void, false, ds, c, d, h);
    case Continue(ds) => ExitClean(void, false, ds, c, d, h);
    case If(_, _, _) => BranchClean(void, s, c, d, h);
    case Switch(e, arms) =>
      var c1, d1 := c.(switchSeq := c.switchSeq + 1), d.(switchSeq := d.switchSeq + 1);
      ExprClean(e, c, d, h);
      Renumbered(c, d, h, c1, d1);
      ArmsClean(void, arms, c1, d1, h);
    case While(e, a) =>
      ExprClean(e, c, d, h);
      ListClean(void, a, c, d, h);
    case DoWhile(a, e) =>
      ExprClean(e, c, d, h);
      ListClean(void, a, c, d, h);
    case For(_, _, _, _) => ForClean(void, s, c, d, h);
    case Block(a) => ListClean(void, a, c, d, h);
    case DeferDef(id, captures, _) =>
      CapturesClean(captures, c, d, h);
      RegisteredFollows(s, c, d, h);
    case DeferCall(_, _) => DeferCallClean(void, s, c, d, h);
    case Decorated(_, _, _) => DecoratedClean(void, s, c, d, h);
  }

  lemma RegisteredFollows(s: Stmt, c: Ctx, d: Ctx, h: Trail)
    requires s.DeferDef? && Kept(c, d, h)
    ensures Follows(After(AsWritten, s, c), After(Intended, s, d), Registered(s.id, h))
  {
  }

  /** Behind a declaration, and in its initialiser. */
  lemma DeclaredFollows(x: string, c: Ctx, d: Ctx, h: Trail)
    requires Kept(c, d, h)
    ensures FreshName(c, x) == FreshName(d, x)
    ensures Kept(Register(c, x), Register(d, x), Declared(x, h))
    ensures Kept(InitScope(AsWritten, x, c), InitScope(Intended, x, d), Initialising(x, h))
  {
    hide FreshName;
    assert FreshName(c, x) == FreshName(d, x) by { SameFresh(x, c, d); }
  }

  lemma SameFresh(x: string, c: Ctx, d: Ctx)
    requires Level(c, d)
    ensures FreshName(c, x) == FreshName(d, x)
  {
    hide UniqueName;
  }

  lemma {:induction false} DeclClean(void: bool, s: Stmt, c: Ctx, d: Ctx, h: Trail)
    requires s.VarDef? && Kept(c, d, h) && c.retVoid == void && TameIn(void, s, h)
    ensures TameGoal(s, c, d, h)
    decreases s, 0
  {
    hide Follows;
    hide CleanE;
    hide CleanTry;
    hide AfterTry;
    hide TameTry;
    hide FreshName;
    var x := s.name;
    var c1, d1, h1 := InitScope(AsWritten, x, c), InitScope(Intended, x, d), Initialising(x, h);
    DeclaredFollows(x, c, d, h);
    match s.init
    case NoInit =>
    case InitExpr(e) => ExprClean(e, c1, d1, h1);
    case InitTry(t) =>
      StoreClean(void, x, t, c, d, h);
      assert Clean(s, c, d);
  }

  lemma {:induction false} StoreClean(void: bool, x: string, t: Try, c: Ctx, d: Ctx, h: Trail)
    requires Kept(c, d, h) && c.retVoid == void && TameIn(void, VarDef(x, InitTry(t)), h)
    ensures var c1, d1 := InitScope(AsWritten, x, c), InitScope(Intended, x, d);
            var c2, d2 := AfterTry(AsWritten, t, c1), ScopeEnd(Intended, Register(d, x), AfterTry(Intended, t, d1));
            && CleanStore(x, Sym(FreshName(d, x)), t, c1, d1) && Level(c2, d2)
            && Follows(c2, d2, Past(VarDef(x, InitTry(t)), h))
    decreases t, 1
  {
    hide Follows;
    hide CleanE;
    hide CleanTry;
    hide AfterTry;
    hide TameTry;
    hide FreshName;
    var c1, d1, h1 := InitScope(AsWritten, x, c), InitScope(Intended, x, d), Initialising(x, h);
    var c2, d2 := AfterTry(AsWritten, t, c1), AfterTry(Intended, t, d1);
    DeclaredFollows(x, c, d, h);
    TryClean(void, t, c1, d1, h1);
    ExprClean(t.value, c2, d2, PastTry(t, h1));
    TryWider(t, c1);
    assert x == DISCARD || FindLocal(c2.locals, x) == FindLocal(c1.locals, x) == Some(FreshName(d, x));
    EndedFollows(c1, Register(d, x), Declared(x, h), c2, ScopeEnd(Intended, Register(d, x), d2), NamesTry(t),
                 DefersTry(t));
  }

  lemma {:induction false} AssignTryClean(void: bool, s: Stmt, c: Ctx, d: Ctx, h: Trail)
    requires s.AssignTry? && Kept(c, d, h) && c.retVoid == void && TameIn(void, s, h)
    ensures Clean(s, c, d) && Level(After(AsWritten, s, c), After(Intended, s, d))
    decreases s, 0
  {
    hide CleanE;
    hide CleanTry;
    hide AfterTry;
    hide TameTry;
    var t, x := s.t, s.name;
    var c2, d2 := AfterTry(AsWritten, t, c), AfterTry(Intended, t, d);
    TryClean(void, t, c, d, h);
    ExprClean(t.value, c2, d2, PastTry(t, h));
    TryWider(t, c);
    if x != DISCARD {
      assert FindLocal(c2.locals, x) == FindLocal(c.locals, x) == FindLocal(d.locals, x);
    }
  }

  lemma {:induction false} ReturnTryClean(void: bool, s: Stmt, c: Ctx, d: Ctx, h: Trail)
    requires s.ReturnTry? && Kept(c, d, h) && c.retVoid == void && TameIn(void, s, h)
    ensures Clean(s, c, d) && Level(After(AsWritten, s, c), After(Intended, s, d))
    decreases s, 0
  {
    hide Follows;
    hide CleanE;
    hide CleanTry;
    hide AfterTry;
    hide AfterExit;
    hide TameTry;
    hide TameExit;
    var t, ds := s.t, s.defers;
    var c2, d2 := AfterTry(AsWritten, t, c), AfterTry(Intended, t, d);
    var d3 := ScopeEnd(Intended, d, d2);
    TryClean(void, t, c, d, h);
    TryView(AsWritten, t, c);
    ExprClean(t.value, c2, d2, PastTry(t, h));
    TryWider(t, c);
    EndedFollows(c, d, h, c2, d3, NamesTry(t), DefersTry(t));
    ExitClean(void, true, ds, c2, d3, Ended(NamesTry(t), DefersTry(t), h));
  }

  lemma {:induction false} BranchClean(void: bool, s: Stmt, c: Ctx, d: Ctx, h: Trail)
    requires s.If? && Kept(c, d, h) && c.retVoid == void && TameIn(void, s, h)
    ensures Clean(s, c, d) && Level(After(AsWritten, s, c), After(Intended, s, d))
    decreases s, 0
  {
    hide Follows;
    hide CleanE;
    hide CleanList;
    hide TameList;
    hide AfterBlock;
    var c1, d1, h1 := AfterBlock(AsWritten, s.body, c), AfterBlock(Intended, s.body, d), PastBlock(s.body, h);
    ExprClean(s.cond, c, d, h);
    ListClean(void, s.body, c, d, h);
    ListView(AsWritten, s.body, c);
    match s.els
    case NoElse =>
    case ElseBlock(b) => ListClean(void, b, c1, d1, h1);
    case ElseIf(z) => StmtClean(void, z, c1, d1, h1);
  }

  lemma {:induction false} ForClean(void: bool, s: Stmt, c: Ctx, d: Ctx, h: Trail)
    requires s.For? && Kept(c, d, h) && c.retVoid == void && TameIn(void, s, h)
    ensures Clean(s, c, d) && Level(After(AsWritten, s, c), After(Intended, s, d))
    decreases s, 0
  {
    hide Follows;
    hide CleanE;
    hide CleanList;
    hide TameList;
    hide AfterOpt;
    hide AfterBlock;
    hide TameOpt;
    var c1, d1, h1 := AfterOpt(AsWritten, s.start, c), AfterOpt(Intended, s.start, d), PastOpt(s.start, h);
    OptionalClean(void, s.start, c, d, h);
    OptionalView(AsWritten, s.start, c);
    OptClean(s.test, c1, d1, h1);
    OptClean(s.step, c1, d1, h1);
    ListClean(void, s.body, c1, d1, h1);
  }

  lemma {:induction false} DeferCallClean(void: bool, s: Stmt, c: Ctx, d: Ctx, h: Trail)
    requires s.DeferCall? && Kept(c, d, h) && c.retVoid == void && TameIn(void, s, h)
    ensures Clean(s, c, d) && Level(After(AsWritten, s, c), After(Intended, s, d))
    decreases s, 0
  {
    hide CleanE;
    hide CleanList;
    hide TameList;
    hide AfterBlock;
    var k := FindDefer(c.defers, s.id);
    assert k == FindDefer(d.defers, s.id);
    if k.Some? {
      var c1, d1 := DeferScope(AsWritten, k.value, c), DeferScope(Intended, k.value, d);
      assert Follows(c1, d1, InDefer(h));
      ListClean(void, s.body, c1, d1, InDefer(h));
    }
  }

  lemma {:induction false} DecoratedClean(void: bool, s: Stmt, c: Ctx, d: Ctx, h: Trail)
    requires s.Decorated? && Kept(c, d, h) && c.retVoid == void && TameIn(void, s, h)
    ensures TameGoal(s, c, d, h)
    decreases s, 0
  {
    hide Follows;
    hide CleanList;
    hide TameList;
    hide AfterOpt;
    hide AfterList;
    hide TameOpt;
    hide PastList;
    hide PastOpt;
    var c1, d1, h1 := AfterList(AsWritten, s.pre, c), AfterList(Intended, s.pre, d), PastList(s.pre, h);
    ListClean(void, s.pre, c, d, h);
    ListView(AsWritten, s.pre, c);
    OptionalClean(void, s.core, c1, d1, h1);
    OptionalView(AsWritten, s.core, c1);
    ListClean(void, s.post, AfterOpt(AsWritten, s.core, c1), AfterOpt(Intended, s.core, d1), PastOpt(s.core, h1));
  }

  lemma {:induction false} ParamsListed(xs: List<string>, c: Ctx)
    ensures forall x :: FindLocal(RegisterAll(xs, c).locals, x).Some? ==>
                          x in ParamNames(xs) || FindLocal(c.locals, x).Some?
    ensures RegisterAll(xs, c).defers == c.defers
    decreases xs
  {
    if xs.Cons? {
      ParamsListed(xs.tail, Register(c, xs.head));
    }
  }

  /** For a tame function the compiler emits the intended text. */
  lemma TameIsClean(p: Program, f: Function, switches: nat, envs: nat)
    requires TameFunction(f)
    ensures CleanFunction(p, f, switches, envs)
  {
    hide TameList;
    hide CleanList;
    var c := BodyContext(p, f, switches, envs);
    ParamsListed(f.params, Ctx(p.prefix, Nil, {}, Nil, None, 0, switches, envs, f.void, false));
    ListClean(f.void, f.body, c, c, Trail({}, {}, ParamNames(f.params), {}));
  }

  /** Two loops over a variable of the same name are tame; mentioning it behind them
      is not. */
  lemma LoopsAreTame(x: string)
    ensures var loop := For(Some(VarDef(x, InitExpr(Lit(0)))), Some(Ident(x)), Some(AssignE(x, None, Lit(1))), Nil);
            && TameFunction(Function(Nil, Cons(loop, Single(loop)), false))
            && !TameFunction(Function(Nil, Cons(loop, Single(Return(Some(Ident(x)), Nil))), false))
  {
    var init, step := VarDef(x, InitExpr(Lit(0))), AssignE(x, None, Lit(1));
    var loop := For(Some(init), Some(Ident(x)), Some(step), Nil);
    var h := Trail({}, {}, {}, {});
    var h2 := Past(loop, h);
    assert Names(init) == {x} && Mentions(step) <= {x} && Mentions(Ident(x)) == {x};
    assert NamesOpt(Some(init)) == Names(init);
    assert Names(loop) == {x} && x in h2.lost;
    assert TameIn(false, loop, h) && TameIn(false, loop, h2) by {
      assert TameList(false, Nil, Past(init, h)) && TameList(false, Nil, Past(init, h2));
    }
    assert TameList(false, Single(loop), h2);
    assert TameList(false, Cons(loop, Single(loop)), h);
    var ret := Return(Some(Ident(x)), Nil);
    assert !TameIn(false, ret, h2);
    assert !TameList(false, Single(ret), h2);
    assert ParamNames(Nil) == {};
  }
}
