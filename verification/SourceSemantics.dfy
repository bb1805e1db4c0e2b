/** What the checked tree means: lexical scopes, closures that copy what they
    capture, effectful expressions.  Fuel bounds the iterations of each loop. */
module SourceSemantics {
  import opened Lists
  import opened Syntax

  datatype Slot = Slot(name: string, val: Option<int>)

  datatype Closure = Closure(id: string, fields: List<Field>)

  /** Newest declarations first; caps are the captured values of the running closure. */
  datatype Src = Src(
    vars: List<Slot>,
    clos: List<Closure>,
    caps: List<Field>,
    globals: map<string, int>,
    trace: seq<Event>)

  function FindSlot(vars: List<Slot>, x: string): Option<Slot> {
    match vars
    case Nil => None
    case Cons(b, rest) => if b.name == x then Some(b) else FindSlot(rest, x)
  }

  function SetSlot(vars: List<Slot>, x: string, v: int): List<Slot> {
    match vars
    case Nil => Nil
    case Cons(b, rest) => if b.name == x then Cons(Slot(x, Some(v)), rest) else Cons(b, SetSlot(rest, x, v))
  }

  function FindClosure(clos: List<Closure>, id: string): Option<Closure> {
    match clos
    case Nil => None
    case Cons(c, rest) => if c.id == id then Some(c) else FindClosure(rest, id)
  }

  function ReadVar(p: Program, x: string, s: Src): Option<int> {
    match FindSlot(s.vars, x)
    case Some(b) => b.val
    case None => if x in p.globals && x in s.globals then Some(s.globals[x]) else None
  }

  /** `x = v` or `x op= v`; the value of the expression is what was stored. */
  function Store(p: Program, x: string, aop: Option<nat>, v: int, s: Src): Ev<Src> {
    match Combine(p, aop, ReadVar(p, x, s), v)
    case None => Halt(Wrong, s)
    case Some(w) =>
      if FindSlot(s.vars, x).Some? then Val(w, s.(vars := SetSlot(s.vars, x, w)))
      else if x in p.globals && x in s.globals then Val(w, s.(globals := s.globals[x := w]))
      else Halt(Wrong, s)
  }

  function Lift(r: Option<int>, s: Src): Ev<Src> {
    match r
    case None => Halt(Wrong, s)
    case Some(v) => Val(v, s)
  }

  function Invoke(p: Program, f: string, vs: seq<int>, s: Src): Ev<Src> {
    var s' := s.(trace := s.trace + [Event(f, vs)]);
    match p.call(f, vs, s.globals, s.trace)
    case Returns(v, g) => Val(v, s'.(globals := g))
    case NoReturn => Halt(Aborted, s')
  }

  function Eval(p: Program, e: Expr, s: Src): Ev<Src>
    decreases e
  {
    match e
    case Lit(n) => Val(n, s)
    case Ident(x) => Lift(ReadVar(p, x, s), s)
    case CapRef(x) => Lift(FindField(s.caps, x), s)
    case Unary(op, a) =>
      var r := Eval(p, a, s);
      if r.Halt? then r else Lift(ApplyUnary(p, op, r.v), r.st)
    case Binary(op, a, b) =>
      var l := Eval(p, a, s);
      if l.Halt? then l
      else if ShortCircuits(op, l.v) then Val(Truth(op.OrOr?), l.st)
      else
        var r := Eval(p, b, l.st);
        if r.Halt? then r else Lift(ApplyBinary(p, op, l.v, r.v), r.st)
    case Call(f, args) =>
      (match EvalArgs(p, args, s)
       case HaltArgs(why, s') => Halt(why, s')
       case Vals(vs, s') => Invoke(p, f, vs, s'))
    case AssignE(x, aop, a) =>
      var r := Eval(p, a, s);
      if r.Halt? || x == DISCARD then r else Store(p, x, aop, r.v, r.st)
    case Ternary(c, a, b) =>
      var r := Eval(p, c, s);
      if r.Halt? then r else if r.v != 0 then Eval(p, a, r.st) else Eval(p, b, r.st)
  }

  function EvalArgs(p: Program, es: List<Expr>, s: Src): Evs<Src>
    decreases es
  {
    match es
    case Nil => Vals([], s)
    case Cons(e, rest) =>
      var r := Eval(p, e, s);
      if r.Halt? then HaltArgs(r.why, r.st)
      else
        match EvalArgs(p, rest, r.st)
        case HaltArgs(why, s') => HaltArgs(why, s')
        case Vals(vs, s') => Vals([r.v] + vs, s')
  }

  function EvalCaptures(p: Program, cs: List<Capture>, s: Src): Fields<Src>
    decreases cs
  {
    match cs
    case Nil => Rec(Nil, s)
    case Cons(c, rest) =>
      var r := Eval(p, c.e, s);
      if r.Halt? then HaltFields(r.why, r.st)
      else
        match EvalCaptures(p, rest, r.st)
        case HaltFields(why, s') => HaltFields(why, s')
        case Rec(fs, s') => Rec(Cons(Field(c.name, r.v), fs), s')
  }

  /** Leave the scopes that were opened since `outer`. */
  function PopTo(s: Src, outer: Src): Src {
    s.(vars := Keep(s.vars, Len(outer.vars)), clos := Keep(s.clos, Len(outer.clos)))
  }

  function Declare(x: string, v: Option<int>, s: Src): Src {
    s.(vars := Cons(Slot(x, v), s.vars))
  }

  /** The value of a try expression, back in the scope it was written in. */
  function ExecTry(p: Program, t: Try, s: Src, fuel: nat): Ev<Src>
    decreases fuel, t, 1
  {
    var a := TryPrefix(p, t, s, fuel);
    if !a.o.Normal? then Halt(a.o, PopTo(a.st, s))
    else
      match Eval(p, t.value, a.st)
      case Halt(why, s') => Halt(why, PopTo(s', s))
      case Val(v, s') => Val(v, PopTo(s', s))
  }

  /** Run the setup, ask for success; on failure run the tail.  Analysis only makes
      tails that leave; behind any other, and without one, the value is taken. */
  function TryPrefix(p: Program, t: Try, s: Src, fuel: nat): Ans<Src>
    decreases fuel, t, 0
  {
    var a := Exec(p, t.setup, s, fuel);
    if !a.o.Normal? then a
    else
      match Eval(p, t.ok, a.st)
      case Halt(why, s') => Ans(why, s')
      case Val(v, s') =>
        if v != 0 then Ans(Normal, s')
        else
          match t.tail
          case None => Ans(Normal, s')
          case Some(tail) =>
            var b := Exec(p, tail, s', fuel);
            if b.o.Normal? then Ans(Normal, PopTo(b.st, s')) else b
  }

  /** Exits run their defers in chain order, after the value is known. */
  function ExitWith(p: Program, o: Outcome, defers: List<Stmt>, s: Src, fuel: nat): Ans<Src>
    decreases fuel, defers, 2
  {
    var a := ExecScope(p, defers, s, fuel);
    if a.o.Normal? then Ans(o, a.st) else a
  }

  function Exec(p: Program, c: Stmt, s: Src, fuel: nat): Ans<Src>
    decreases fuel, c, 0
  {
    match c
    case VarDef(x, NoInit) => Ans(Normal, Declare(x, None, s))
    case VarDef(x, InitExpr(e)) =>
      (match Eval(p, e, s)
       case Halt(why, s') => Ans(why, s')
       case Val(v, s') => Ans(Normal, Declare(x, Some(v), s')))
    case VarDef(x, InitTry(t)) =>
      (match ExecTry(p, t, s, fuel)
       case Halt(why, s') => Ans(why, s')
       // the discard target is declared, but holds nothing
       case Val(v, s') => Ans(Normal, Declare(x, if x == DISCARD then None else Some(v), s')))
    case Assign(x, aop, e) =>
      (match Eval(p, e, s)
       case Halt(why, s') => Ans(why, s')
       case Val(v, s') => if x == DISCARD then Ans(Normal, s') else AsStmt(Store(p, x, aop, v, s')))
    case AssignTry(x, aop, t) =>
      (match ExecTry(p, t, s, fuel)
       case Halt(why, s') => Ans(why, s')
       case Val(v, s') => if x == DISCARD then Ans(Normal, s') else AsStmt(Store(p, x, aop, v, s')))
    case ExprStmt(e) => AsStmt(Eval(p, e, s))
    case Return(None, ds) => ExitWith(p, Returned(None), ds, s, fuel)
    case Return(Some(e), ds) =>
      (match Eval(p, e, s)
       case Halt(why, s') => Ans(why, s')
       case Val(v, s') => ExitWith(p, Returned(Some(v)), ds, s', fuel))
    case ReturnTry(t, ds) =>
      (match ExecTry(p, t, s, fuel)
       case Halt(why, s') => Ans(why, s')
       case Val(v, s') => ExitWith(p, Returned(Some(v)), ds, s', fuel))
    case Break(ds) => ExitWith(p, Broke, ds, s, fuel)
    case Continue(ds) => ExitWith(p, Continued, ds, s, fuel)
    case If(e, thn, els) =>
      (match Eval(p, e, s)
       case Halt(why, s') => Ans(why, s')
       case Val(v, s') =>
         if v != 0 then ExecScope(p, thn, s', fuel)
         else
           match els
           case NoElse => Ans(Normal, s')
           case ElseBlock(b) => ExecScope(p, b, s', fuel)
           case ElseIf(c') => var a := Exec(p, c', s', fuel); Ans(a.o, PopTo(a.st, s')))
    case Switch(e, arms) =>
      (match Eval(p, e, s)
       case Halt(why, s') => Ans(why, s')
       case Val(v, s') => Select(p, v, arms, s', fuel))
    case While(e, body) => Loop(p, Some(e), None, body, s, fuel)
    case DoWhile(body, e) => RepeatLoop(p, body, e, s, fuel)
    case For(start, test, step, body) =>
      (match start
       case None => Loop(p, test, step, body, s, fuel)
       case Some(c') =>
         var a := Exec(p, c', s, fuel);
         var b := if a.o.Normal? then Loop(p, test, step, body, a.st, fuel) else a;
         Ans(b.o, PopTo(b.st, s)))
    case Block(body) => ExecScope(p, body, s, fuel)
    case DeferDef(id, captures, _) =>
      (match EvalCaptures(p, captures, s)
       case HaltFields(why, s') => Ans(why, s')
       case Rec(fs, s') => Ans(Normal, s'.(clos := Cons(Closure(id, fs), s'.clos))))
    case DeferCall(id, body) =>
      (match FindClosure(s.clos, id)
       // a name that no defer in scope has is that of a function
       case None => AsStmt(Invoke(p, id, [], s))
       case Some(c') =>
         var a := ExecList(p, body, s.(vars := Nil, clos := Nil, caps := c'.fields), fuel);
         Ans(ClosureOutcome(a.o), a.st.(vars := s.vars, clos := s.clos, caps := s.caps)))
    case Decorated(pre, core, post) =>
      var a := ExecList(p, pre, s, fuel);
      if !a.o.Normal? then a
      else
        var b := if core.Some? then Exec(p, core.value, a.st, fuel) else a;
        if !b.o.Normal? then b else ExecList(p, post, b.st, fuel)
    case LocalFn(_, _, _) => Ans(Normal, s)
  }

  function AsStmt(r: Ev<Src>): Ans<Src> {
    match r
    case Halt(why, s) => Ans(why, s)
    case Val(_, s) => Ans(Normal, s)
  }

  /** A return only leaves the closure itself. */
  function ClosureOutcome(o: Outcome): Outcome {
    match o
    case Returned(_) => Normal
    case Broke => Wrong
    case Continued => Wrong
    case _ => o
  }

  function ExecList(p: Program, cs: List<Stmt>, s: Src, fuel: nat): Ans<Src>
    decreases fuel, cs, 0
  {
    match cs
    case Nil => Ans(Normal, s)
    case Cons(c, rest) =>
      var a := Exec(p, c, s, fuel);
      if a.o.Normal? then ExecList(p, rest, a.st, fuel) else a
  }

  function ExecScope(p: Program, cs: List<Stmt>, s: Src, fuel: nat): Ans<Src>
    decreases fuel, cs, 1
  {
    var a := ExecList(p, cs, s, fuel);
    Ans(a.o, PopTo(a.st, s))
  }

  /** Patterns are tried left to right and only until one equals v. */
  function Matches(p: Program, v: int, patterns: List<Expr>, s: Src): Ev<Src>
    decreases patterns
  {
    match patterns
    case Nil => Val(0, s)
    case Cons(e, rest) =>
      match Eval(p, e, s)
      case Halt(why, s') => Halt(why, s')
      case Val(w, s') => if w == v then Val(1, s') else Matches(p, v, rest, s')
  }

  function Select(p: Program, v: int, arms: Arms, s: Src, fuel: nat): Ans<Src>
    decreases fuel, arms, 2
  {
    match arms
    case Default(None) => Ans(Normal, s)
    case Default(Some(body)) => ExecScope(p, body, s, fuel)
    case Arm(patterns, body, rest) =>
      match Matches(p, v, patterns, s)
      case Halt(why, s') => Ans(why, s')
      case Val(hit, s') =>
        if hit != 0 then ExecScope(p, body, s', fuel) else Select(p, v, rest, s', fuel)
  }

  /** `while` and the rounds of `for`; the test may be missing. */
  function Loop(p: Program, test: Option<Expr>, step: Option<Expr>, body: List<Stmt>, s: Src, fuel: nat): Ans<Src>
    decreases fuel, body, 2
  {
    if fuel == 0 then Ans(OutOfFuel, s)
    else
      match if test.Some? then Eval(p, test.value, s) else Val(1, s)
      case Halt(why, s') => Ans(why, s')
      case Val(v, s') =>
        if v == 0 then Ans(Normal, s')
        else
          var a := ExecScope(p, body, s', fuel);
          if a.o.Broke? then Ans(Normal, a.st)
          else if !a.o.Normal? && !a.o.Continued? then a
          else
            match if step.Some? then Eval(p, step.value, a.st) else Val(0, a.st)
            case Halt(why, s'') => Ans(why, s'')
            case Val(_, s'') => Loop(p, test, step, body, s'', fuel - 1)
  }

  function RepeatLoop(p: Program, body: List<Stmt>, test: Expr, s: Src, fuel: nat): Ans<Src>
    decreases fuel, body, 2
  {
    if fuel == 0 then Ans(OutOfFuel, s)
    else
      var a := ExecScope(p, body, s, fuel);
      if a.o.Broke? then Ans(Normal, a.st)
      else if !a.o.Normal? && !a.o.Continued? then a
      else
        match Eval(p, test, a.st)
        case Halt(why, s') => Ans(why, s')
        case Val(v, s') => if v == 0 then Ans(Normal, s') else RepeatLoop(p, body, test, s', fuel - 1)
  }
}
