/** What the generated instructions mean as C: braces open scopes, a declared
    name is in scope in its own initialiser but not yet set there, a plain
    declaration starts at zero, locals hide globals. */
module TargetSemantics {
  import opened Lists
  import opened Naming
  import opened Syntax

  datatype Value = Int(i: int) | Struct(fields: List<Field>) | Unset

  datatype Bind = Bind(c: CName, v: Value)

  datatype Tgt = Tgt(env: List<Bind>, globals: map<string, int>, trace: seq<Event>)

  function Lookup(env: List<Bind>, c: CName): Option<Value> {
    match env
    case Nil => None
    case Cons(b, rest) => if b.c == c then Some(b.v) else Lookup(rest, c)
  }

  function Update(env: List<Bind>, c: CName, v: Value): List<Bind> {
    match env
    case Nil => Nil
    case Cons(b, rest) => if b.c == c then Cons(Bind(c, v), rest) else Cons(b, Update(rest, c, v))
  }

  function Push(c: CName, v: Value, t: Tgt): Tgt {
    t.(env := Cons(Bind(c, v), t.env))
  }

  /** The variable that c names.  A global of the source is never looked for among
      the local variables; see Spelling for C, which cannot tell them apart. */
  function Binding(env: List<Bind>, c: CName): Option<Value> {
    if c.Glob? then None else Lookup(env, c)
  }

  predicate IsGlobal(p: Program, c: CName, t: Tgt) {
    (c.Sym? || c.Glob?) && c.text in p.symtab && p.symtab[c.text] in t.globals
  }

  function Read(p: Program, c: CName, t: Tgt): Option<int> {
    match Binding(t.env, c)
    case Some(Int(i)) => Some(i)
    case Some(_) => None
    case None => if IsGlobal(p, c, t) then Some(t.globals[p.symtab[c.text]]) else None
  }

  function StoreC(p: Program, c: CName, aop: Option<nat>, v: int, t: Tgt): Ev<Tgt> {
    match Combine(p, aop, Read(p, c, t), v)
    case None => Halt(Wrong, t)
    case Some(w) =>
      if Binding(t.env, c).Some? then Val(w, t.(env := Update(t.env, c, Int(w))))
      else if IsGlobal(p, c, t) then Val(w, t.(globals := t.globals[p.symtab[c.text] := w]))
      else Halt(Wrong, t)
  }

  function LiftC(r: Option<int>, t: Tgt): Ev<Tgt> {
    match r
    case None => Halt(Wrong, t)
    case Some(v) => Val(v, t)
  }

  function InvokeC(p: Program, f: string, vs: seq<int>, t: Tgt): Ev<Tgt> {
    var t' := t.(trace := t.trace + [Event(f, vs)]);
    match p.call(f, vs, t.globals, t.trace)
    case Returns(v, g) => Val(v, t'.(globals := g))
    case NoReturn => Halt(Aborted, t')
  }

  function ReadField(env: Option<nat>, x: string, t: Tgt): Option<int> {
    match env
    case None => None
    case Some(k) =>
      match Lookup(t.env, DeferEnv(k))
      case Some(Struct(fs)) => FindField(fs, x)
      case _ => None
  }

  function EvalC(p: Program, e: CExpr, t: Tgt): Ev<Tgt>
    decreases e
  {
    match e
    case CLit(n) => Val(n, t)
    case CIdent(c) => LiftC(Read(p, c, t), t)
    case CCapture(env, x) => LiftC(ReadField(env, x, t), t)
    case CUnary(op, a) =>
      var r := EvalC(p, a, t);
      if r.Halt? then r else LiftC(ApplyUnary(p, op, r.v), r.st)
    case CBinary(op, a, b) =>
      var l := EvalC(p, a, t);
      if l.Halt? then l
      else if ShortCircuits(op, l.v) then Val(Truth(op.OrOr?), l.st)
      else
        var r := EvalC(p, b, l.st);
        if r.Halt? then r else LiftC(ApplyBinary(p, op, l.v, r.v), r.st)
    case CCall(f, args) =>
      (match EvalArgsC(p, args, t)
       case HaltArgs(why, t') => Halt(why, t')
       case Vals(vs, t') => InvokeC(p, f, vs, t'))
    case CAssignE(c, aop, a) =>
      var r := EvalC(p, a, t);
      if r.Halt? then r else StoreC(p, c, aop, r.v, r.st)
    case CTernary(c, a, b) =>
      var r := EvalC(p, c, t);
      if r.Halt? then r else if r.v != 0 then EvalC(p, a, r.st) else EvalC(p, b, r.st)
  }

  function EvalArgsC(p: Program, es: List<CExpr>, t: Tgt): Evs<Tgt>
    decreases es
  {
    match es
    case Nil => Vals([], t)
    case Cons(e, rest) =>
      var r := EvalC(p, e, t);
      if r.Halt? then HaltArgs(r.why, r.st)
      else
        match EvalArgsC(p, rest, r.st)
        case HaltArgs(why, t') => HaltArgs(why, t')
        case Vals(vs, t') => Vals([r.v] + vs, t')
  }

  function EvalFields(p: Program, fs: List<CField>, t: Tgt): Fields<Tgt>
    decreases fs
  {
    match fs
    case Nil => Rec(Nil, t)
    case Cons(f, rest) =>
      var r := EvalC(p, f.e, t);
      if r.Halt? then HaltFields(r.why, r.st)
      else
        match EvalFields(p, rest, r.st)
        case HaltFields(why, t') => HaltFields(why, t')
        case Rec(vs, t') => Rec(Cons(Field(f.name, r.v), vs), t')
  }

  /** Leave the braces that were entered in state `outer`. */
  function PopBrace(t: Tgt, outer: Tgt): Tgt {
    t.(env := Keep(t.env, Len(outer.env)))
  }

  function AsStmtC(r: Ev<Tgt>): Ans<Tgt> {
    match r
    case Halt(why, t) => Ans(why, t)
    case Val(_, t) => Ans(Normal, t)
  }

  function Run(p: Program, c: CStmt, t: Tgt, fuel: nat): Ans<Tgt>
    decreases fuel, c, 0
  {
    match c
    case CVar(x, None) => Ans(Normal, Push(x, Int(0), t))
    case CVar(x, Some(e)) =>
      (match EvalC(p, e, Push(x, Unset, t))
       case Halt(why, t') => Ans(why, t')
       case Val(v, t') => Ans(Normal, t'.(env := Update(t'.env, x, Int(v)))))
    case CVarStruct(x, fs) =>
      (match EvalFields(p, fs, Push(x, Unset, t))
       case HaltFields(why, t') => Ans(why, t')
       case Rec(vs, t') => Ans(Normal, t'.(env := Update(t'.env, x, Struct(vs)))))
    case CAssign(x, aop, e) => AsStmtC(EvalC(p, CAssignE(x, aop, e), t))
    case CEval(e) => AsStmtC(EvalC(p, e, t))
    case CReturn(None) => Ans(Returned(None), t)
    case CReturn(Some(e)) =>
      (match EvalC(p, e, t)
       case Halt(why, t') => Ans(why, t')
       case Val(v, t') => Ans(Returned(Some(v)), t'))
    case CIf(e, thn, els) =>
      (match EvalC(p, e, t)
       case Halt(why, t') => Ans(why, t')
       case Val(v, t') => if v != 0 then RunBraces(p, thn, t', fuel) else RunBraces(p, els, t', fuel))
    case CWhile(e, body) => LoopC(p, Some(e), None, body, t, fuel)
    case CDoWhile(body, e) => RepeatC(p, body, e, t, fuel)
    case CFor(start, test, step, body) =>
      var a := RunList(p, start, t, fuel);
      var b := if a.o.Normal? then LoopC(p, test, step, body, a.st, fuel) else a;
      Ans(b.o, PopBrace(b.st, t))
    case CBlock(body) => RunBraces(p, body, t, fuel)
    case CBreak => Ans(Broke, t)
    case CContinue => Ans(Continued, t)
    case CNested(_, _) => Ans(Normal, t)
  }

  function RunList(p: Program, cs: List<CStmt>, t: Tgt, fuel: nat): Ans<Tgt>
    decreases fuel, cs, 0
  {
    match cs
    case Nil => Ans(Normal, t)
    case Cons(c, rest) =>
      var a := Run(p, c, t, fuel);
      if a.o.Normal? then RunList(p, rest, a.st, fuel) else a
  }

  function RunBraces(p: Program, cs: List<CStmt>, t: Tgt, fuel: nat): Ans<Tgt>
    decreases fuel, cs, 1
  {
    var a := RunList(p, cs, t, fuel);
    Ans(a.o, PopBrace(a.st, t))
  }

  function LoopC(p: Program, test: Option<CExpr>, step: Option<CExpr>, body: List<CStmt>, t: Tgt, fuel: nat): Ans<Tgt>
    decreases fuel, body, 2
  {
    if fuel == 0 then Ans(OutOfFuel, t)
    else
      match if test.Some? then EvalC(p, test.value, t) else Val(1, t)
      case Halt(why, t') => Ans(why, t')
      case Val(v, t') =>
        if v == 0 then Ans(Normal, t')
        else
          var a := RunBraces(p, body, t', fuel);
          if a.o.Broke? then Ans(Normal, a.st)
          else if !a.o.Normal? && !a.o.Continued? then a
          else
            match if step.Some? then EvalC(p, step.value, a.st) else Val(0, a.st)
            case Halt(why, t'') => Ans(why, t'')
            case Val(_, t'') => LoopC(p, test, step, body, t'', fuel - 1)
  }

  function RepeatC(p: Program, body: List<CStmt>, test: CExpr, t: Tgt, fuel: nat): Ans<Tgt>
    decreases fuel, body, 2
  {
    if fuel == 0 then Ans(OutOfFuel, t)
    else
      var a := RunBraces(p, body, t, fuel);
      if a.o.Broke? then Ans(Normal, a.st)
      else if !a.o.Normal? && !a.o.Continued? then a
      else
        match EvalC(p, test, a.st)
        case Halt(why, t') => Ans(why, t')
        case Val(v, t') => if v == 0 then Ans(Normal, t') else RepeatC(p, body, test, t', fuel - 1)
  }
}
