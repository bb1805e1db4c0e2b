/** What the compiler has listed behind a statement, exactly, as a reader would count
    it on the text: the names it would find, newest first, the defers, and the
    numbers of its temporaries. */
module ListedNames {
  import opened Lists
  import opened Naming
  import opened Syntax
  import opened Lowering
  import opened Scoping

  datatype Listing = Listing(
    names: List<string>, defers: List<string>, rets: nat, switches: nat, envs: nat, void: bool)

  function LocalNames(ls: List<Local>): List<string> {
    match ls
    case Nil => Nil
    case Cons(l, rest) => Cons(l.name, LocalNames(rest))
  }

  function DeferNames(ds: List<DeferEntry>): List<string> {
    match ds
    case Nil => Nil
    case Cons(d, rest) => Cons(d.id, DeferNames(rest))
  }

  function ListingOf(c: Ctx): Listing {
    Listing(LocalNames(c.locals), DeferNames(c.defers), c.retSeq, c.switchSeq, c.deferSeq, c.retVoid)
  }

  predicate Has(xs: List<string>, x: string) { xs.Cons? && (xs.head == x || Has(xs.tail, x)) }

  function Reversed(xs: List<string>, onto: List<string>): List<string> {
    match xs
    case Nil => onto
    case Cons(x, rest) => Reversed(rest, Cons(x, onto))
  }

  /* ------------------------------- read off the text --------------------------- */

  function BehindTry(t: Try, l: Listing): Listing
    decreases t, 0
  {
    BehindOpt(t.tail, Behind(t.setup, l))
  }

  /** A value is saved in front of defers, unless there is none to return. */
  function BehindExit(value: bool, ds: List<Stmt>, l: Listing): Listing
    decreases ds, 2
  {
    if ds.Nil? then l else BehindList(ds, if value && !l.void then l.(rets := l.rets + 1) else l)
  }

  function BehindList(ss: List<Stmt>, l: Listing): Listing
    decreases ss, 0
  {
    match ss
    case Nil => l
    case Cons(s, rest) => BehindList(rest, Behind(s, l))
  }

  /** A block gives back the names, and nothing else. */
  function BehindBlock(ss: List<Stmt>, l: Listing): Listing
    decreases ss, 1
  {
    BehindList(ss, l).(names := l.names)
  }

  function BehindArms(arms: Arms, l: Listing): Listing
    decreases arms, 0
  {
    match arms
    case Default(None) => l
    case Default(Some(b)) => BehindBlock(b, l)
    case Arm(patterns, b, rest) => BehindArms(rest, if patterns.Nil? then l else BehindBlock(b, l))
  }

  function BehindOpt(s: Option<Stmt>, l: Listing): Listing
    decreases s, 2
  {
    if s.Some? then Behind(s.value, l) else l
  }

  function Behind(s: Stmt, l: Listing): Listing
    decreases s, 1
  {
    match s
    case VarDef(x, InitTry(t)) => BehindTry(t, l.(names := Cons(x, l.names)))
    case VarDef(x, _) => l.(names := Cons(x, l.names))
    case AssignTry(_, _, t) => BehindTry(t, l)
    case Return(v, ds) => BehindExit(v.Some?, ds, l)
    case ReturnTry(t, ds) => BehindExit(true, ds, BehindTry(t, l))
    case Break(ds) => BehindExit(false, ds, l)
    case Continue(ds) => BehindExit(false, ds, l)
    case If(_, a, NoElse) => BehindBlock(a, l)
    case If(_, a, ElseBlock(b)) => BehindBlock(b, BehindBlock(a, l))
    case If(_, a, ElseIf(s')) => Behind(s', BehindBlock(a, l))
    case Switch(_, arms) => BehindArms(arms, l.(switches := l.switches + 1))
    case While(_, a) => BehindBlock(a, l)
    case DoWhile(a, _) => BehindBlock(a, l)
    case For(i, _, _, a) => BehindBlock(a, BehindOpt(i, l))
    case Block(a) => BehindBlock(a, l)
    case DeferDef(id, captures, _) =>
      l.(defers := Cons(id, l.defers), envs := if captures.Nil? then l.envs else l.envs + 1)
    case DeferCall(id, a) => if Has(l.defers, id) then BehindBlock(a, l) else l
    case Decorated(a, core, b) => BehindList(b, BehindOpt(core, BehindList(a, l)))
    case LocalFn(params, a, void) =>
      var z := BehindList(a, Listing(Reversed(params, Nil), Nil, 0, l.switches, l.envs, void));
      l.(switches := z.switches, envs := z.envs)
    case _ => l
  }

  /* ---------------------------- it is what is listed --------------------------- */

  lemma {:induction false} DeferListed(ds: List<DeferEntry>, id: string)
    ensures FindDefer(ds, id).Some? <==> Has(DeferNames(ds), id)
  {
    if ds.Cons? {
      DeferListed(ds.tail, id);
    }
  }

  lemma {:induction false} ParamsListed(xs: List<string>, c: Ctx)
    ensures ListingOf(RegisterAll(xs, c)) == ListingOf(c).(names := Reversed(xs, LocalNames(c.locals)))
    decreases xs
  {
    hide FreshName;
    if xs.Cons? {
      ParamsListed(xs.tail, Register(c, xs.head));
    }
  }

  lemma {:induction false} TryListed(t: Try, c: Ctx)
    ensures ListingOf(AfterTry(AsWritten, t, c)) == BehindTry(t, ListingOf(c))
    decreases t, 0
  {
    StmtListed(t.setup, c);
    OptListed(t.tail, After(AsWritten, t.setup, c));
  }

  lemma {:induction false} OptListed(s: Option<Stmt>, c: Ctx)
    ensures ListingOf(AfterOpt(AsWritten, s, c)) == BehindOpt(s, ListingOf(c))
    decreases s, 2
  {
    if s.Some? {
      StmtListed(s.value, c);
    }
  }

  lemma {:induction false} ExitListed(value: bool, ds: List<Stmt>, c: Ctx)
    ensures ListingOf(AfterExit(AsWritten, value, ds, c)) == BehindExit(value, ds, ListingOf(c))
    decreases ds, 2
  {
    hide AfterList;
    hide BehindList;
    ListListed(ds, c.(retSeq := c.retSeq + 1));
    ListListed(ds, c);
  }

  lemma {:induction false} ListListed(ss: List<Stmt>, c: Ctx)
    ensures ListingOf(AfterList(AsWritten, ss, c)) == BehindList(ss, ListingOf(c))
    ensures ListingOf(AfterBlock(AsWritten, ss, c)) == BehindBlock(ss, ListingOf(c))
    decreases ss, 1
  {
    if ss.Cons? {
      StmtListed(ss.head, c);
      ListListed(ss.tail, After(AsWritten, ss.head, c));
    }
  }

  lemma {:induction false} ArmsListed(arms: Arms, c: Ctx)
    ensures ListingOf(AfterArms(AsWritten, arms, c)) == BehindArms(arms, ListingOf(c))
    decreases arms, 0
  {
    match arms
    case Default(None) =>
    case Default(Some(b)) => ListListed(b, c);
    case Arm(Nil, _, rest) => ArmsListed(rest, c);
    case Arm(Cons(_, _), b, rest) =>
      ListListed(b, c);
      ArmsListed(rest, AfterBlock(AsWritten, b, c));
  }

  /** The listing behind s is a function of its text and of the listing before it: it
      ignores the ends of headers, tries, defer lists and, for defers, of blocks. */
  lemma {:induction false} StmtListed(s: Stmt, c: Ctx)
    ensures ListingOf(After(AsWritten, s, c)) == Behind(s, ListingOf(c))
    decreases s, 1
  {
    hide FreshName;
    hide AfterTry;
    hide BehindTry;
    hide AfterExit;
    hide BehindExit;
    hide AfterArms;
    hide BehindArms;
    hide AfterBlock;
    hide BehindBlock;
    match s
    case VarDef(x, InitTry(t)) => TryListed(t, Register(c, x));
    case AssignTry(_, _, t) => TryListed(t, c);
    case Return(v, ds) => ExitListed(v.Some?, ds, c);
    case ReturnTry(t, ds) =>
      TryListed(t, c);
      ExitListed(true, ds, AfterTry(AsWritten, t, c));
    case Break(ds) => ExitListed(false, ds, c);
    case Continue(ds) => ExitListed(false, ds, c);
    case If(_, _, _) => BranchListed(s, c);
    case Switch(_, arms) => ArmsListed(arms, c.(switchSeq := c.switchSeq + 1));
    case While(_, a) => ListListed(a, c);
    case DoWhile(a, _) => ListListed(a, c);
    case For(i, _, _, a) =>
      OptListed(i, c);
      ListListed(a, AfterOpt(AsWritten, i, c));
    case Block(a) => ListListed(a, c);
    case DeferCall(_, _) => DeferCallListed(s, c);
    case Decorated(_, _, _) => DecoratedListed(s, c);
    case LocalFn(_, _, _) => LocalFnListed(s, c);
    case _ =>
  }

  lemma {:induction false} BranchListed(s: Stmt, c: Ctx)
    requires s.If?
    ensures ListingOf(After(AsWritten, s, c)) == Behind(s, ListingOf(c))
    decreases s, 0
  {
    hide AfterBlock;
    hide BehindBlock;
    var c1 := AfterBlock(AsWritten, s.body, c);
    ListListed(s.body, c);
    match s.els
    case NoElse =>
    case ElseBlock(b) => ListListed(b, c1);
    case ElseIf(z) => StmtListed(z, c1);
  }

  lemma {:induction false} DeferCallListed(s: Stmt, c: Ctx)
    requires s.DeferCall?
    ensures ListingOf(After(AsWritten, s, c)) == Behind(s, ListingOf(c))
    decreases s, 0
  {
    hide AfterList;
    hide BehindList;
    DeferListed(c.defers, s.id);
    if FindDefer(c.defers, s.id).Some? {
      ListListed(s.body, DeferScope(AsWritten, FindDefer(c.defers, s.id).value, c));
    }
  }

  lemma {:induction false} DecoratedListed(s: Stmt, c: Ctx)
    requires s.Decorated?
    ensures ListingOf(After(AsWritten, s, c)) == Behind(s, ListingOf(c))
    decreases s, 0
  {
    var c1 := AfterList(AsWritten, s.pre, c);
    ListListed(s.pre, c);
    OptListed(s.core, c1);
    ListListed(s.post, AfterOpt(AsWritten, s.core, c1));
  }

  lemma {:induction false} LocalFnListed(s: Stmt, c: Ctx)
    requires s.LocalFn?
    ensures ListingOf(After(AsWritten, s, c)) == Behind(s, ListingOf(c))
    decreases s, 0
  {
    hide AfterList;
    hide BehindList;
    var c1 := FunctionStart(AsWritten, c, s.void);
    ParamsListed(s.params, c1);
    ListListed(s.body, RegisterAll(s.params, c1));
  }
}
