/** When lowering ends: the search for a free C name always stops in functions whose
    names are short enough for the number of locals they declare. */
module Emission {
  import opened Lists
  import opened Naming
  import opened Syntax
  import opened Lowering
  import opened Scoping
  import opened Correctness

  function RegisteredTry(t: Try): seq<string>
    decreases t, 0
  {
    Registered(t.setup) + if t.tail.Some? then Registered(t.tail.value) else []
  }

  function RegisteredList(ss: List<Stmt>): seq<string>
    decreases ss, 0
  {
    match ss
    case Nil => []
    case Cons(s, rest) => Registered(s) + RegisteredList(rest)
  }

  function RegisteredArms(arms: Arms): seq<string>
    decreases arms, 0
  {
    match arms
    case Default(None) => []
    case Default(Some(b)) => RegisteredList(b)
    case Arm(Nil, _, rest) => RegisteredArms(rest)
    case Arm(Cons(_, _), b, rest) => RegisteredList(b) + RegisteredArms(rest)
  }

  function Listed(xs: List<string>): seq<string> {
    match xs
    case Nil => []
    case Cons(x, rest) => [x] + Listed(rest)
  }

  /** The names of all locals that lowering s registers, once per registration. */
  function Registered(s: Stmt): seq<string>
    decreases s, 1
  {
    match s
    case VarDef(x, InitTry(t)) => [x] + RegisteredTry(t)
    case VarDef(x, _) => [x]
    case AssignTry(_, _, t) => RegisteredTry(t)
    case Return(_, ds) => RegisteredList(ds)
    case ReturnTry(t, ds) => RegisteredTry(t) + RegisteredList(ds)
    case Break(ds) => RegisteredList(ds)
    case Continue(ds) => RegisteredList(ds)
    case If(_, a, NoElse) => RegisteredList(a)
    case If(_, a, ElseBlock(b)) => RegisteredList(a) + RegisteredList(b)
    case If(_, a, ElseIf(s')) => RegisteredList(a) + Registered(s')
    case Switch(_, arms) => RegisteredArms(arms)
    case While(_, a) => RegisteredList(a)
    case DoWhile(a, _) => RegisteredList(a)
    case For(i, _, _, a) => (if i.Some? then Registered(i.value) else []) + RegisteredList(a)
    case Block(a) => RegisteredList(a)
    case DeferCall(_, a) => RegisteredList(a)
    case Decorated(a, core, b) =>
      RegisteredList(a) + ((if core.Some? then Registered(core.value) else []) + RegisteredList(b))
    case LocalFn(params, a, _) => Listed(params) + RegisteredList(a)
    case _ => []
  }

  /** Symbol, underscore and the suffixes up to n + 2 fit into the buffer. */
  predicate HasRoom(prefix: string, x: string, n: nat) { |GlobalSym(prefix, x)| + 1 + |Dec(n + 2)| <= BUFFER }

  predicate AllHaveRoom(prefix: string, xs: seq<string>, n: nat) { forall x :: x in xs ==> HasRoom(prefix, x, n) }

  /** From c to c' no search hung, and at most k names were taken. */
  predicate Calm(c: Ctx, c': Ctx, k: nat) {
    c'.prefix == c.prefix && !c'.hung && |c'.decls| <= |c.decls| + k
  }

  lemma RegisterCalm(x: string, c: Ctx, n: nat)
    requires !c.hung && |c.decls| <= n && HasRoom(c.prefix, x, n)
    ensures Calm(c, Register(c, x), 1)
  {
    var base := GlobalSym(c.prefix, x);
    DecLenMono(|c.decls| + 2, n + 2);
    RoomEnough(base, c.decls);
    StuckWithinTaken(base, BUFFER, c.decls);
  }

  lemma {:induction false} RegisterAllCalm(xs: List<string>, c: Ctx, n: nat)
    requires !c.hung && |c.decls| + |Listed(xs)| <= n && AllHaveRoom(c.prefix, Listed(xs), n)
    ensures Calm(c, RegisterAll(xs, c), |Listed(xs)|)
    decreases xs
  {
    if xs.Cons? {
      RegisterCalm(xs.head, c, n);
      RegisterAllCalm(xs.tail, Register(c, xs.head), n);
    }
  }

  lemma {:induction false} TryCalm(t: Try, c: Ctx, n: nat)
    requires !c.hung && |c.decls| + |RegisteredTry(t)| <= n && AllHaveRoom(c.prefix, RegisteredTry(t), n)
    ensures Calm(c, AfterTry(AsWritten, t, c), |RegisteredTry(t)|)
    decreases t, 0
  {
    StmtCalm(t.setup, c, n);
    if t.tail.Some? {
      StmtCalm(t.tail.value, After(AsWritten, t.setup, c), n);
    }
  }

  lemma {:induction false} ListCalm(ss: List<Stmt>, c: Ctx, n: nat)
    requires !c.hung && |c.decls| + |RegisteredList(ss)| <= n && AllHaveRoom(c.prefix, RegisteredList(ss), n)
    ensures Calm(c, AfterList(AsWritten, ss, c), |RegisteredList(ss)|)
    ensures Calm(c, AfterBlock(AsWritten, ss, c), |RegisteredList(ss)|)
    decreases ss, 1
  {
    if ss.Cons? {
      StmtCalm(ss.head, c, n);
      ListCalm(ss.tail, After(AsWritten, ss.head, c), n);
    }
  }

  lemma {:induction false} ArmsCalm(arms: Arms, c: Ctx, n: nat)
    requires !c.hung && |c.decls| + |RegisteredArms(arms)| <= n && AllHaveRoom(c.prefix, RegisteredArms(arms), n)
    ensures Calm(c, AfterArms(AsWritten, arms, c), |RegisteredArms(arms)|)
    decreases arms, 0
  {
    match arms
    case Default(None) =>
    case Default(Some(b)) => ListCalm(b, c, n);
    case Arm(Nil, _, rest) => ArmsCalm(rest, c, n);
    case Arm(Cons(_, _), b, rest) =>
      ListCalm(b, c, n);
      ArmsCalm(rest, AfterBlock(AsWritten, b, c), n);
  }

  lemma {:induction false} ExitCalm(saved: bool, ds: List<Stmt>, c: Ctx, n: nat)
    requires !c.hung && |c.decls| + |RegisteredList(ds)| <= n && AllHaveRoom(c.prefix, RegisteredList(ds), n)
    ensures Calm(c, AfterExit(AsWritten, saved, ds, c), |RegisteredList(ds)|)
    decreases ds, 2
  {
    ListCalm(ds, c, n);
    ListCalm(ds, c.(retSeq := c.retSeq + 1), n);
  }

  /** No search hangs in a statement whose names have room for n suffixes, where at
      most n names are taken in the end. */
  lemma {:induction false} StmtCalm(s: Stmt, c: Ctx, n: nat)
    requires !c.hung && |c.decls| + |Registered(s)| <= n && AllHaveRoom(c.prefix, Registered(s), n)
    ensures Calm(c, After(AsWritten, s, c), |Registered(s)|)
    decreases s, 1
  {
    hide Register;
    match s
    case VarDef(x, init) =>
      RegisterCalm(x, c, n);
      if init.InitTry? {
        TryCalm(init.t, Register(c, x), n);
      }
    case AssignTry(_, _, t) => TryCalm(t, c, n);
    case Return(v, ds) => ExitCalm(v.Some?, ds, c, n);
    case ReturnTry(t, ds) =>
      TryCalm(t, c, n);
      ExitCalm(true, ds, AfterTry(AsWritten, t, c), n);
    case Break(ds) => ExitCalm(false, ds, c, n);
    case Continue(ds) => ExitCalm(false, ds, c, n);
    case If(_, a, els) =>
      ListCalm(a, c, n);
      match els {
        case NoElse =>
        case ElseBlock(b) => ListCalm(b, AfterBlock(AsWritten, a, c), n);
        case ElseIf(s') => StmtCalm(s', AfterBlock(AsWritten, a, c), n);
      }
    case Switch(_, arms) => ArmsCalm(arms, c.(switchSeq := c.switchSeq + 1), n);
    case While(_, a) => ListCalm(a, c, n);
    case DoWhile(a, _) => ListCalm(a, c, n);
    case For(_, _, _, _) => ChainCalm(s, c, n);
    case Block(a) => ListCalm(a, c, n);
    case DeferCall(id, a) =>
      if FindDefer(c.defers, id).Some? {
        ListCalm(a, DeferScope(AsWritten, FindDefer(c.defers, id).value, c), n);
      }
    case Decorated(_, _, _) => ChainCalm(s, c, n);
    case LocalFn(params, a, void) =>
      var c0 := FunctionStart(AsWritten, c, void);
      RegisterAllCalm(params, c0, n);
      ListCalm(a, RegisterAll(params, c0), n);
    case _ =>
  }

  lemma {:induction false} ChainCalm(s: Stmt, c: Ctx, n: nat)
    requires s.For? || s.Decorated?
    requires !c.hung && |c.decls| + |Registered(s)| <= n && AllHaveRoom(c.prefix, Registered(s), n)
    ensures Calm(c, After(AsWritten, s, c), |Registered(s)|)
    decreases s, 0
  {
    match s
    case For(i, _, _, a) =>
      if i.Some? {
        StmtCalm(i.value, c, n);
      }
      ListCalm(a, AfterOpt(AsWritten, i, c), n);
    case Decorated(a, core, b) =>
      var c1 := AfterList(AsWritten, a, c);
      ListCalm(a, c, n);
      if core.Some? {
        StmtCalm(core.value, c1, n);
      }
      ListCalm(b, AfterOpt(AsWritten, core, c1), n);
  }

  /** A function reaches the C file if every name in it leaves room for as many
      suffixes as the function registers locals. */
  lemma ShortNamesEmitted(p: Program, f: Function, switches: nat, envs: nat)
    requires var xs := Listed(f.params) + RegisteredList(f.body); AllHaveRoom(p.prefix, xs, |xs|)
    ensures Emitted(p, f, switches, envs).Some?
  {
    var n := |Listed(f.params) + RegisteredList(f.body)|;
    RegisterAllCalm(f.params, Ctx(p.prefix, Nil, {}, Nil, None, 0, switches, envs, f.void, false), n);
    var c := BodyContext(p, f, switches, envs);
    ListCalm(f.body, c, n);
    ListView(AsWritten, f.body, c);
  }
}
