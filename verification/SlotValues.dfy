/** Values behind the types of OptionalSlots: what an expression evaluates to has the
    type that the language gives it, and so the one that inference finds. */
module SlotValues {
  import opened Lists
  import opened OptionalSlots

  datatype Value =
    | Number(type_: string, n: int)
    | Text(bytes: seq<int>)
    | Ref(target: Value)
    | Row(es: seq<Value>)
    | View(es: seq<Value>)
    | Pack(fields: List<Value>)
    | Record(id: nat, fields: List<Value>)
    | Missing
    | Present(v: Value)
    | Code(result: Value)  // a function, by what a call of it gives

  predicate HasType(env: Env, v: Value, t: Type)
    decreases v
  {
    match Strip(t)
    case Scalar(name) => v.Number? && v.type_ == name
    case Str => v.Text?
    case Ptr(b) => v.Ref? && HasType(env, v.target, b)
    case Array(e) => v.Row? && forall i :: 0 <= i < |v.es| ==> HasType(env, v.es[i], e)
    case Slice(e) => v.View? && forall i :: 0 <= i < |v.es| ==> HasType(env, v.es[i], e)
    case Tuple(ts) => v.Pack? && AllTyped(env, v.fields, ts)
    case Struct(id) => v.Record? && v.id == id && id in env.structs && FieldsTyped(env, v.fields, env.structs[id])
    case Opt(b) => v.Missing? || (v.Present? && HasType(env, v.v, b))
    case Func(r) => v.Code? && HasType(env, v.result, r)
    case Qual(_) => false
  }

  predicate AllTyped(env: Env, vs: List<Value>, ts: List<Type>)
    decreases vs
  {
    match (vs, ts)
    case (Nil, Nil) => true
    case (Cons(v, ws), Cons(t, us)) => HasType(env, v, t) && AllTyped(env, ws, us)
    case _ => false
  }

  predicate FieldsTyped(env: Env, vs: List<Value>, fs: List<Var>)
    decreases vs
  {
    match (vs, fs)
    case (Nil, Nil) => true
    case (Cons(v, ws), Cons(f, gs)) => HasType(env, v, f.ty) && FieldsTyped(env, ws, gs)
    case _ => false
  }

  /* ---------------------------------- running ---------------------------------- */

  datatype Bound = Bound(name: string, v: Value)

  /** Variables, newest first; functions; and what is left open: the outcome of
      operators on numbers, of constructors and of conversions. */
  datatype State = State(
    locals: List<Bound>, globals: List<Bound>, funcs: map<string, Value>, refs: map<nat, Value>,
    negate: int -> int, operate: (int, int) -> int, made: Type -> Option<Value>,
    converted: (Value, Type) -> Option<Value>)

  function Variable(vars: List<Bound>, x: string): Option<Value> {
    match vars
    case Nil => None
    case Cons(b, rest) => if b.name == x then Some(b.v) else Variable(rest, x)
  }

  function Item(vs: List<Value>, i: int): Option<Value> {
    if vs.Nil? || i < 0 then None else if i == 0 then Some(vs.head) else Item(vs.tail, i - 1)
  }

  function Field(vs: List<Value>, fs: List<Var>, x: string): Option<Value> {
    if vs.Nil? || fs.Nil? then None else if fs.head.name == x then Some(vs.head) else Field(vs.tail, fs.tail, x)
  }

  function Chars(bytes: seq<int>): seq<Value> { seq(|bytes|, i requires 0 <= i < |bytes| => Number("u8", bytes[i])) }

  /** What an expression evaluates to; nothing, if that is an error at run time.  A
      local hides a global and a function of its name. */
  function Eval(env: Env, st: State, n: Node): Option<Value>
    decreases n
  {
    match n.e
    case IntLit(v, suffix) =>
      Some(Number(if suffix in ["i8", "i16", "i64", "u8", "u16", "u32", "u64", "usize"] then suffix else "i32", v))
    case FloatLit(suffix) => Some(Number(if suffix == "f32" then "f32" else "f64", 0))
    case BoolLit => Some(Number("bool", 0))
    case StringLit => Some(Text([]))
    case CharLit => Some(Number("u8", 0))
    case NilLit => Some(Missing)
    case Ident(x) =>
      var l, g := Variable(st.locals, x), Variable(st.globals, x);
      if l.Some? then l else if g.Some? then g else if x in st.funcs then Some(st.funcs[x]) else None
    case FuncRef(fid, _) => if fid in st.refs then Some(st.refs[fid]) else None
    case Take(a) => Eval(env, st, a)
    case Deref(a) =>
      (match Eval(env, st, a)
       case Some(Ref(v)) => Some(v)
       case _ => None)
    case Addr(a) =>
      (match Eval(env, st, a)
       case Some(v) => Some(Ref(v))
       case None => None)
    case Index(obj, at) =>
      (match (Eval(env, st, obj), Eval(env, st, at))
       case (Some(Row(es)), Some(Number(_, i))) => if 0 <= i < |es| then Some(es[i]) else None
       case (Some(View(es)), Some(Number(_, i))) => if 0 <= i < |es| then Some(es[i]) else None
       case (Some(Pack(vs)), Some(Number(_, i))) => Item(vs, i)
       case _ => None)
    case Member(obj, field) =>
      (match Eval(env, st, obj)
       case Some(Record(id, vs)) => if id in env.structs then Field(vs, env.structs[id], field) else None
       case _ => None)
    case SliceOf(obj) =>
      (match Eval(env, st, obj)
       case Some(Row(es)) => Some(View(es))
       case Some(View(es)) => Some(View(es))
       case Some(Text(bytes)) => Some(View(Chars(bytes)))
       case _ => None)
    case Construct(ty) => st.made(ty)
    case Ternary(q, a, b) =>
      (match Eval(env, st, q)
       case Some(Number(_, i)) => if i != 0 then Eval(env, st, a) else Eval(env, st, b)
       case _ => None)
    case Unwrap(a) =>
      (match Eval(env, st, a)
       case Some(Present(v)) => Some(v)
       case _ => None)
    case Unary(a) =>
      (match Eval(env, st, a)
       case Some(Number(t, i)) => Some(Number(t, st.negate(i)))
       case _ => None)
    case Binary(op, l, r) =>
      (match (Eval(env, st, l), Eval(env, st, r))
       case (Some(Number(t, i)), Some(Number(_, k))) =>
         Some(Number(if op.Arith? then t else "bool", st.operate(i, k)))
       case (Some(v), Some(w)) => if op.Arith? then None else Some(Number("bool", if v == w then 1 else 0))
       case _ => None)
    case As(a, ty) =>
      (match Eval(env, st, a)
       case Some(v) => st.converted(v, ty)
       case None => None)
    case LenOf(a) =>
      (match Eval(env, st, a)
       case Some(_) => Some(Number("usize", 0))
       case None => None)
    case Call(callee, _) =>
      (match Eval(env, st, callee)
       case Some(Code(v)) => Some(v)
       case _ => None)
  }

  /* --------------------------------- soundness --------------------------------- */

  predicate VarsTyped(env: Env, bs: List<Bound>, vs: List<Var>) {
    match (bs, vs)
    case (Nil, Nil) => true
    case (Cons(b, cs), Cons(v, ws)) => b.name == v.name && HasType(env, b.v, v.ty) && VarsTyped(env, cs, ws)
    case _ => false
  }

  /** A function that declares no result gives void. */
  predicate FuncTyped(env: Env, v: Value, ret: Option<Type>) {
    v.Code? && HasType(env, v.result, if ret.Some? then ret.value else Scalar("void"))
  }

  ghost predicate StateTyped(env: Env, st: State) {
    && VarsTyped(env, st.locals, env.locals)
    && VarsTyped(env, st.globals, env.globals)
    && st.funcs.Keys == env.funcs.Keys && (forall f :: f in st.funcs ==> FuncTyped(env, st.funcs[f], env.funcs[f]))
    && st.refs.Keys == env.refs.Keys && (forall f :: f in st.refs ==> FuncTyped(env, st.refs[f], env.refs[f]))
    && (forall t :: st.made(t).Some? ==> HasType(env, st.made(t).value, t))
    && (forall v, t :: st.converted(v, t).Some? ==> HasType(env, st.converted(v, t).value, t))
  }

  lemma {:induction false} VariableTyped(env: Env, bs: List<Bound>, vs: List<Var>, x: string)
    requires VarsTyped(env, bs, vs)
    ensures Variable(bs, x).Some? <==> Find(vs, x).Some?
    ensures Variable(bs, x).Some? ==> HasType(env, Variable(bs, x).value, Find(vs, x).value)
    decreases bs
  {
    if bs.Cons? && bs.head.name != x {
      VariableTyped(env, bs.tail, vs.tail, x);
    }
  }

  lemma {:induction false} ItemTyped(env: Env, vs: List<Value>, ts: List<Type>, i: int)
    requires AllTyped(env, vs, ts) && Item(vs, i).Some?
    ensures Nth(ts, i).Some? && HasType(env, Item(vs, i).value, Nth(ts, i).value)
    decreases vs
  {
    if i > 0 {
      ItemTyped(env, vs.tail, ts.tail, i - 1);
    }
  }

  lemma {:induction false} FieldTyped(env: Env, vs: List<Value>, fs: List<Var>, x: string)
    requires FieldsTyped(env, vs, fs) && Field(vs, fs, x).Some?
    ensures Find(fs, x).Some? && HasType(env, Field(vs, fs, x).value, Find(fs, x).value)
    decreases vs
  {
    if fs.head.name != x {
      FieldTyped(env, vs.tail, fs.tail, x);
    }
  }

  /** What an expression evaluates to has the type that the language gives it. */
  lemma {:induction false} TypeSound(env: Env, st: State, n: Node)
    requires StateTyped(env, st) && TypeOf(env, n).Some? && Eval(env, st, n).Some?
    ensures HasType(env, Eval(env, st, n).value, TypeOf(env, n).value)
    decreases n, 1
  {
    hide VarsTyped;
    hide AllTyped;
    hide FieldsTyped;
    hide FuncTyped;
    match n.e
    case Ident(x) => IdentSound(env, st, n, x);
    case FuncRef(fid, _) => CodeTyped(env, st.refs[fid], env.refs[fid]);
    case Take(a) => TypeSound(env, st, a);
    case Index(_, _) => PartSound(env, st, n);
    case Member(_, _) => PartSound(env, st, n);
    case SliceOf(_) => PartSound(env, st, n);
    case Ternary(_, a, b) =>
      if Eval(env, st, a).Some? {
        TypeSound(env, st, a);
      }
      if Eval(env, st, b).Some? {
        TypeSound(env, st, b);
      }
    case Deref(_) => UnwrapSound(env, st, n);
    case Addr(_) => UnwrapSound(env, st, n);
    case Unwrap(_) => UnwrapSound(env, st, n);
    case Call(_, _) => UnwrapSound(env, st, n);
    case Unary(_) => NumberSound(env, st, n);
    case Binary(_, _, _) => NumberSound(env, st, n);
    case _ =>
  }

  lemma {:induction false} UnwrapSound(env: Env, st: State, n: Node)
    requires n.e.Deref? || n.e.Addr? || n.e.Unwrap? || n.e.Call?
    requires StateTyped(env, st) && TypeOf(env, n).Some? && Eval(env, st, n).Some?
    ensures HasType(env, Eval(env, st, n).value, TypeOf(env, n).value)
    decreases n, 0
  {
    hide StateTyped;
    hide AllTyped;
    hide FieldsTyped;
    match n.e
    case Deref(a) => TypeSound(env, st, a);
    case Addr(a) => TypeSound(env, st, a);
    case Unwrap(a) => TypeSound(env, st, a);
    case Call(callee, _) => TypeSound(env, st, callee);
  }

  lemma {:induction false} NumberSound(env: Env, st: State, n: Node)
    requires n.e.Unary? || n.e.Binary?
    requires StateTyped(env, st) && TypeOf(env, n).Some? && Eval(env, st, n).Some?
    ensures HasType(env, Eval(env, st, n).value, TypeOf(env, n).value)
    decreases n, 0
  {
    hide StateTyped;
    TypeSound(env, st, if n.e.Unary? then n.e.e else n.e.l);
  }

  lemma CodeTyped(env: Env, v: Value, ret: Option<Type>)
    requires FuncTyped(env, v, ret)
    ensures HasType(env, v, FuncType(ret))
  {
  }

  lemma IdentSound(env: Env, st: State, n: Node, x: string)
    requires n.e == Ident(x) && StateTyped(env, st) && TypeOf(env, n).Some? && Eval(env, st, n).Some?
    ensures HasType(env, Eval(env, st, n).value, TypeOf(env, n).value)
  {
    hide FuncTyped;
    hide HasType;
    VariableTyped(env, st.locals, env.locals, x);
    VariableTyped(env, st.globals, env.globals, x);
    if x in st.funcs {
      CodeTyped(env, st.funcs[x], env.funcs[x]);
    }
  }

  lemma {:induction false} PartSound(env: Env, st: State, n: Node)
    requires n.e.Index? || n.e.Member? || n.e.SliceOf?
    requires StateTyped(env, st) && TypeOf(env, n).Some? && Eval(env, st, n).Some?
    ensures HasType(env, Eval(env, st, n).value, TypeOf(env, n).value)
    decreases n, 0
  {
    hide StateTyped;
    hide AllTyped;
    hide FieldsTyped;
    TypeSound(env, st, n.e.obj);
    var v := Eval(env, st, n.e.obj).value;
    if n.e.Index? && v.Pack? {
      ItemTyped(env, v.fields, Strip(TypeOf(env, n.e.obj).value).elems, Eval(env, st, n.e.at).value.n);
    }
    if n.e.Member? {
      FieldTyped(env, v.fields, env.structs[v.id], n.e.field);
    }
  }

  /** So the type that inference finds is that of the value. */
  lemma InferredSound(env: Env, st: State, n: Node)
    requires StateTyped(env, st) && NotesRight(env, n) && TypeOf(env, n).Some?
    requires Infer(env, n).Some? && Eval(env, st, n).Some?
    ensures HasType(env, Eval(env, st, n).value, Infer(env, n).value)
  {
    InferenceExact(env, n);
    TypeSound(env, st, n);
  }

  /* -------------------------------- what is stored ----------------------------- */

  /** What the lowered expression of n puts into its slot. */
  function Stored(env: Env, st: State, n: Node, c: CExpr): Option<Value>
    decreases c
  {
    match c
    case CValue(_, _) => Eval(env, st, n)
    case CNone(_) => Some(Missing)
    case CSome(_, e) => var v := Stored(env, st, n, e); if v.Some? then Some(Present(v.value)) else None
    case CError => None
  }

  /** Whenever the lowered value has the type of its slot, the slot gets what it
      should: nil as missing, a whole value as it is, a payload wrapped once. */
  lemma SlotHolds(site: Site, env: Env, st: State, t: Type, n: Node)
    requires SlotOf(site, env, t) && Admitted(env, t, n) && NotesRight(env, n)
    requires Fits(LowerAt(site, env, t, n), t) && Eval(env, st, n).Some?
    ensures Stored(env, st, n, LowerAt(site, env, t, n)) ==
            Some(if n.e.NilLit? then Missing
                 else if Whole(env, t, n) then Eval(env, st, n).value
                 else Present(Eval(env, st, n).value))
  {
    hide Infer;
    hide TypeOf;
    hide Blind;
    hide Eval;
    SlotTypeKept(site, env, t, n);
    if site.InAssign? {
      InferenceExact(env, site.target);
    }
    if n.e.NilLit? {
      NilUntyped(env, n);
    }
    if Strip(t).Opt? {
      NotItsPayload(t);
    }
  }
}
