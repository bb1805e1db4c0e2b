/** Values that go into slots of an optional type: initialisers, assignments,
    results and fields.  The compiler wraps a plain value into `some` by looking at
    the type that it infers for the value.  Inference is a recursion of its own over
    the checked tree, with what analysis has noted as a last resort. */
module OptionalSlots {
  import opened Lists

  datatype Type =
    | Scalar(name: string)
    | Str
    | Ptr(base: Type)
    | Array(elem: Type)
    | Slice(elem: Type)
    | Tuple(elems: List<Type>)
    | Struct(id: nat)
    | Opt(inner: Type)
    | Func(ret: Type)
    | Qual(sub: Type)  // const or volatile

  const BOOL := Scalar("bool")
  const VOID := Scalar("void")
  const U8 := Scalar("u8")
  const USIZE := Scalar("usize")

  /** The type without its outer qualifiers. */
  function Strip(t: Type): (r: Type)
    ensures !r.Qual?
  {
    if t.Qual? then Strip(t.sub) else t
  }

  datatype Op = Compare | Logic | Arith

  datatype Expr =
    | IntLit(value: int, suffix: string)
    | FloatLit(suffix: string)
    | BoolLit
    | StringLit
    | CharLit
    | NilLit
    | Ident(name: string)
    | FuncRef(fid: nat, name: string)
    | Take(e: Node)
    | Deref(e: Node)
    | Addr(e: Node)
    | Index(obj: Node, at: Node)
    | Member(obj: Node, field: string)
    | SliceOf(obj: Node)
    | Construct(ty: Type)
    | Ternary(cond: Node, thn: Node, els: Node)
    | Unwrap(e: Node)
    | Unary(e: Node)
    | Binary(op: Op, l: Node, r: Node)
    | As(e: Node, ty: Type)
    | LenOf(e: Node)
    | Call(callee: Node, args: List<Node>)

  /** An expression with the type that analysis has noted on it, if any. */
  datatype Node = Node(e: Expr, noted: Option<Type>)

  datatype Var = Var(name: string, ty: Type)

  /** Visible locals and globals, newest first; the fields of structs; the declared
      results of functions, by name and by number. */
  datatype Env = Env(
    locals: List<Var>,
    globals: List<Var>,
    structs: map<nat, List<Var>>,
    funcs: map<string, Option<Type>>,
    refs: map<nat, Option<Type>>)

  function Find(vars: List<Var>, x: string): Option<Type> {
    match vars
    case Nil => None
    case Cons(v, rest) => if v.name == x then Some(v.ty) else Find(rest, x)
  }

  /** Locals hide globals. */
  function FindVar(env: Env, x: string): Option<Type> {
    var l := Find(env.locals, x);
    if l.Some? then l else Find(env.globals, x)
  }

  function FuncType(ret: Option<Type>): Type { Func(if ret.Some? then ret.value else VOID) }

  function Nth(ts: List<Type>, i: int): Option<Type> {
    match ts
    case Nil => None
    case Cons(t, rest) => if i == 0 then Some(t) else Nth(rest, i - 1)
  }

  const INTS := {"i8", "i16", "i64", "u8", "u16", "u32", "u64", "usize"}

  /* -------------------------------- the language ------------------------------- */

  /** The type of an expression by the rules of the language; none if it has none. */
  function TypeOf(env: Env, n: Node): Option<Type>
    decreases n
  {
    match n.e
    case IntLit(_, suffix) => Some(Scalar(if suffix in INTS then suffix else "i32"))
    case FloatLit(suffix) => Some(Scalar(if suffix == "f32" then "f32" else "f64"))
    case BoolLit => Some(BOOL)
    case StringLit => Some(Str)
    case CharLit => Some(U8)
    case NilLit => None
    case Ident(x) =>
      var v := FindVar(env, x);
      if v.Some? then v else if x in env.funcs then Some(FuncType(env.funcs[x])) else None
    case FuncRef(fid, _) => if fid in env.refs then Some(FuncType(env.refs[fid])) else None
    case Take(e) => TypeOf(env, e)
    case Deref(e) =>
      var t := TypeOf(env, e);
      if t.Some? && Strip(t.value).Ptr? then Some(Strip(t.value).base) else None
    case Addr(e) =>
      var t := TypeOf(env, e);
      if t.Some? then Some(Ptr(t.value)) else None
    case Index(obj, at) =>
      var t := TypeOf(env, obj);
      if t.None? || TypeOf(env, at).None? then None
      else
        (match Strip(t.value)
         case Array(elem) => Some(elem)
         case Slice(elem) => Some(elem)
         // the fields of a tuple are told apart by a literal
         case Tuple(elems) => if at.e.IntLit? then Nth(elems, at.e.value) else None
         case _ => None)
    case Member(obj, field) =>
      var t := TypeOf(env, obj);
      if t.Some? && Strip(t.value).Struct? && Strip(t.value).id in env.structs then
        Find(env.structs[Strip(t.value).id], field)
      else None
    case SliceOf(obj) =>
      var t := TypeOf(env, obj);
      if t.None? then None
      else
        (match Strip(t.value)
         case Array(elem) => Some(Slice(elem))
         case Slice(elem) => Some(Slice(elem))
         case Str => Some(Slice(Qual(U8)))
         case _ => None)
    case Construct(ty) => Some(ty)
    case Ternary(cond, a, b) =>
      if TypeOf(env, cond).Some? && TypeOf(env, a) == TypeOf(env, b) then TypeOf(env, a) else None
    case Unwrap(e) =>
      var t := TypeOf(env, e);
      if t.Some? && Strip(t.value).Opt? then Some(Strip(t.value).inner) else None
    case Unary(e) => TypeOf(env, e)
    case Binary(op, l, r) =>
      if TypeOf(env, l).None? || TypeOf(env, l) != TypeOf(env, r) then None
      else if op.Arith? then TypeOf(env, l) else Some(BOOL)
    case As(e, ty) => if TypeOf(env, e).Some? then Some(ty) else None
    case LenOf(e) => if TypeOf(env, e).Some? then Some(USIZE) else None
    case Call(callee, args) =>
      var t := TypeOf(env, callee);
      if t.Some? && Strip(t.value).Func? && Typed(env, args) then Some(Strip(t.value).ret) else None
  }

  predicate Typed(env: Env, ns: List<Node>)
    decreases ns
  {
    ns.Cons? ==> TypeOf(env, ns.head).Some? && Typed(env, ns.tail)
  }

  /* --------------------------------- inference --------------------------------- */

  /** What the back end finds out from the shape of an expression. */
  function InferCore(env: Env, e: Expr): Option<Type>
    decreases e
  {
    match e
    case IntLit(_, suffix) => Some(Scalar(if suffix in INTS then suffix else "i32"))
    case FloatLit(suffix) => Some(Scalar(if suffix == "f32" then "f32" else "f64"))
    case BoolLit => Some(BOOL)
    case StringLit => Some(Str)
    case CharLit => Some(U8)
    case NilLit => None
    case Ident(x) => FindVar(env, x)
    case FuncRef(fid, _) => if fid in env.refs then Some(FuncType(env.refs[fid])) else None
    case Take(a) => Infer(env, a)
    // a qualified pointer is not looked through
    case Deref(a) =>
      var t := Infer(env, a);
      if t.Some? && t.value.Ptr? then Some(t.value.base) else None
    case Addr(a) =>
      var t := Infer(env, a);
      if t.Some? then Some(Ptr(t.value)) else None
    case Index(obj, at) =>
      var t := Infer(env, obj);
      if t.None? then None
      else
        (match Strip(t.value)
         case Array(elem) => Some(elem)
         case Slice(elem) => Some(elem)
         case Tuple(elems) => Nth(elems, if at.e.IntLit? then at.e.value else 0)
         case _ => None)
    case Member(obj, field) =>
      var t := Infer(env, obj);
      if t.Some? && Strip(t.value).Struct? && Strip(t.value).id in env.structs then
        Find(env.structs[Strip(t.value).id], field)
      else None
    case SliceOf(obj) =>
      var t := Infer(env, obj);
      if t.None? then None
      else
        (match Strip(t.value)
         case Array(elem) => Some(Slice(elem))
         case Slice(_) => Some(Strip(t.value))
         case Str => Some(Slice(Qual(U8)))
         case _ => None)
    case Construct(ty) => Some(ty)
    case Ternary(_, a, b) =>
      var t := Infer(env, a);
      if t.Some? then t else Infer(env, b)
    // a qualified option is not looked through
    case Unwrap(a) =>
      var t := Infer(env, a);
      if t.Some? && t.value.Opt? then Some(t.value.inner) else None
    case Unary(a) => Infer(env, a)
    case Binary(op, l, r) =>
      if !op.Arith? then Some(BOOL)
      else
        var t := Infer(env, l);
        if t.Some? then t else Infer(env, r)
    case As(_, ty) => Some(ty)
    case LenOf(_) => Some(USIZE)
    case Call(callee, _) =>
      var t := Infer(env, callee);
      if t.Some? && Strip(t.value).Func? then Some(Strip(t.value).ret)
      else
        (match callee.e
         case FuncRef(fid, _) => if fid in env.refs then env.refs[fid] else None
         case Ident(x) => if x in env.funcs then env.funcs[x] else None
         case _ => None)
  }

  /** Kinds of nodes for which the note of analysis is not consulted. */
  predicate NoteIgnored(e: Expr) { e.SliceOf? || e.Construct? || e.FuncRef? || e.NilLit? }

  function Infer(env: Env, n: Node): Option<Type>
    decreases n
  {
    var t := InferCore(env, n.e);
    if t.Some? then t else if NoteIgnored(n.e) then None else n.noted
  }

  /** Inference finds nothing: no usable note, and a name that is neither a local nor
      a global variable, a qualified pointer or option that would have to be looked
      through, or an operand of which nothing is found. */
  predicate Blind(env: Env, n: Node)
    decreases n
  {
    (n.noted.None? || NoteIgnored(n.e)) &&
    match n.e
    case NilLit => true
    case Ident(x) => FindVar(env, x).None?
    case FuncRef(fid, _) => fid !in env.refs
    case Take(a) => Blind(env, a)
    case Deref(a) => Blind(env, a) || !TypeOf(env, a).Some? || !TypeOf(env, a).value.Ptr?
    case Addr(a) => Blind(env, a)
    case Index(obj, _) => Blind(env, obj)
    case Member(obj, _) => Blind(env, obj)
    case SliceOf(obj) => Blind(env, obj)
    case Ternary(_, a, b) => Blind(env, a) && Blind(env, b)
    case Unwrap(a) => Blind(env, a) || !TypeOf(env, a).Some? || !TypeOf(env, a).value.Opt?
    case Unary(a) => Blind(env, a)
    case Binary(op, l, r) => op.Arith? && Blind(env, l) && Blind(env, r)
    case Call(callee, _) =>
      // a declared function is found by its name, unless it declares no result
      Blind(env, callee) && !(callee.e.Ident? && callee.e.name in env.funcs && env.funcs[callee.e.name].Some?)
    case _ => false
  }

  /** What analysis has noted is right, here and below. */
  predicate NotesRight(env: Env, n: Node)
    decreases n
  {
    && (n.noted.Some? ==> n.noted == TypeOf(env, n))
    && match n.e
       case Take(a) => NotesRight(env, a)
       case Deref(a) => NotesRight(env, a)
       case Addr(a) => NotesRight(env, a)
       case Index(obj, _) => NotesRight(env, obj)
       case Member(obj, _) => NotesRight(env, obj)
       case SliceOf(obj) => NotesRight(env, obj)
       case Ternary(_, a, b) => NotesRight(env, a) && NotesRight(env, b)
       case Unwrap(a) => NotesRight(env, a)
       case Unary(a) => NotesRight(env, a)
       case Binary(_, l, r) => NotesRight(env, l) && NotesRight(env, r)
       case Call(callee, _) => NotesRight(env, callee)
       case _ => true
  }

  /** Inference is never wrong: it finds the type of the expression, or nothing, and
      nothing exactly for the blind expressions. */
  lemma {:induction false} InferenceExact(env: Env, n: Node)
    requires TypeOf(env, n).Some? && NotesRight(env, n)
    ensures Infer(env, n) == if Blind(env, n) then None else TypeOf(env, n)
    decreases n
  {
    match n.e
    case Take(a) => InferenceExact(env, a);
    case Deref(a) => InferenceExact(env, a);
    case Addr(a) => InferenceExact(env, a);
    case Index(obj, _) => InferenceExact(env, obj);
    case Member(obj, _) => InferenceExact(env, obj);
    case SliceOf(obj) => InferenceExact(env, obj);
    case Ternary(_, a, b) =>
      InferenceExact(env, a);
      InferenceExact(env, b);
    case Unwrap(a) => InferenceExact(env, a);
    case Unary(a) => InferenceExact(env, a);
    case Binary(_, l, r) =>
      InferenceExact(env, l);
      InferenceExact(env, r);
    case Call(callee, _) => InferenceExact(env, callee);
    case _ =>
  }

  /* --------------------------------- lowering ---------------------------------- */

  /** A lowered expression: the type its C text has, and the type that is written on
      the node itself, which most nodes do not carry; or none, after an error. */
  datatype CExpr =
    | CValue(ty: Type, tag: Option<Type>)
    | CNone(ty: Type)
    | CSome(ty: Type, e: CExpr)
    | CError

  /** Nil on its own cannot be lowered. */
  function LowerValue(env: Env, n: Node): CExpr {
    match TypeOf(env, n)
    case None => CError
    case Some(ty) => CValue(ty, if n.e.Construct? || n.e.SliceOf? then Some(ty) else None)
  }

  predicate TaggedOption(c: CExpr) { c.CValue? && c.tag.Some? && c.tag.value.Opt? }

  /** The lowered expression has the C type of a slot of type t. */
  predicate Fits(c: CExpr, t: Type)
    decreases c
  {
    match c
    case CValue(ty, _) => Strip(ty) == Strip(t)
    case CNone(ty) => ty == t && Strip(t).Opt?
    case CSome(ty, e) => ty == t && Strip(t).Opt? && Fits(e, Strip(t).inner)
    case CError => false
  }

  predicate StartsWith(s: string, p: string) { |p| <= |s| && s[..|p|] == p }

  /** Generated clone functions return the whole value. */
  predicate IsClone(n: Node) {
    && n.e.Call?
    && (n.e.callee.e.Ident? || n.e.callee.e.FuncRef?)
    && (n.e.callee.e.name == "__deep_clone" || StartsWith(n.e.callee.e.name, "__clone"))
  }

  predicate InferredOption(env: Env, n: Node) { Infer(env, n).Some? && Strip(Infer(env, n).value).Opt? }

  /** An assignment knows its slot only through the target. */
  datatype Site = InVar | InAssign(target: Node) | InReturn | InField

  /* ---------------------- the four places, branch by branch -------------------- */

  function LowerInit(env: Env, t: Type, n: Node): CExpr {
    if n.e.NilLit? && Strip(t).Opt? then CNone(t)
    else if Strip(t).Opt? && !InferredOption(env, n) && !IsClone(n) then
      var v := LowerValue(env, n);
      if TaggedOption(v) then v else CSome(t, v)
    else LowerValue(env, n)
  }

  /** The type of the slot is the one inferred for the target. */
  function LowerAssigned(env: Env, target: Node, n: Node): CExpr {
    match Infer(env, target)
    case None => LowerValue(env, n)
    case Some(t) =>
      if n.e.NilLit? && Strip(t).Opt? then CNone(t)
      else if Strip(t).Opt? then
        if IsClone(n) then LowerValue(env, n)
        else if !InferredOption(env, n) then CSome(t, LowerValue(env, n))
        else LowerValue(env, n)
      else LowerValue(env, n)
  }

  function LowerReturned(env: Env, t: Type, n: Node): CExpr {
    if n.e.NilLit? && Strip(t).Opt? then CNone(t)
    else if Strip(t).Opt? && !InferredOption(env, n) && !IsClone(n) then CSome(t, LowerValue(env, n))
    else LowerValue(env, n)
  }

  function LowerField(env: Env, t: Type, n: Node): CExpr {
    if Strip(t).Opt? then
      if n.e.NilLit? then CNone(t)
      else if IsClone(n) then LowerValue(env, n)
      else if !InferredOption(env, n) then CSome(t, LowerValue(env, n))
      else LowerValue(env, n)
    else LowerValue(env, n)
  }

  function LowerAt(site: Site, env: Env, t: Type, n: Node): CExpr {
    match site
    case InVar => LowerInit(env, t, n)
    case InAssign(target) => LowerAssigned(env, target, n)
    case InReturn => LowerReturned(env, t, n)
    case InField => LowerField(env, t, n)
  }

  /* ----------------------------------- results --------------------------------- */

  /** The value has the type of the slot. */
  predicate Whole(env: Env, t: Type, n: Node) { TypeOf(env, n).Some? && Strip(TypeOf(env, n).value) == Strip(t) }

  /** The value has the type below the option of the slot. */
  predicate Payload(env: Env, t: Type, n: Node) {
    Strip(t).Opt? && TypeOf(env, n).Some? && Strip(TypeOf(env, n).value) == Strip(Strip(t).inner)
  }

  /** What analysis lets into a slot: nil into an optional one, a value of the
      slot's type, or the payload of an optional one. */
  predicate Admitted(env: Env, t: Type, n: Node) {
    if n.e.NilLit? then Strip(t).Opt? else Whole(env, t, n) || Payload(env, t, n)
  }

  /** The place is a slot of type t; the target of an assignment has that type. */
  predicate SlotOf(site: Site, env: Env, t: Type) {
    site.InAssign? ==> TypeOf(env, site.target) == Some(t) && NotesRight(env, site.target)
  }

  /** Inference finds nothing about the target, so the slot has no known type. */
  predicate Unseen(site: Site, env: Env) { site.InAssign? && Blind(env, site.target) }

  /** A node that carries an option type is inferred to have one. */
  lemma TaggedIsInferred(env: Env, n: Node)
    requires TaggedOption(LowerValue(env, n))
    ensures InferredOption(env, n)
  {
    if n.e.SliceOf? {
      assert TypeOf(env, n).None? || TypeOf(env, n).value.Slice?;
    } else {
      assert InferCore(env, n.e) == Some(n.e.ty);
    }
  }

  lemma NilUntyped(env: Env, n: Node)
    requires n.e.NilLit?
    ensures TypeOf(env, n).None?
  {
  }

  /** The lowered value has the type of the slot exactly
        - for nil, unless the target is unseen;
        - for a whole value, if the slot is not optional, inference sees the value's
          type, it is a clone call, or the target is unseen;
        - for a payload, if the target is seen, it is no clone call and, should it be
          an option itself, inference does not see that.
      All places do the same, other than an assignment to an unseen target. */
  lemma SlotTypeKept(site: Site, env: Env, t: Type, n: Node)
    requires SlotOf(site, env, t) && Admitted(env, t, n) && NotesRight(env, n)
    ensures Fits(LowerAt(site, env, t, n), t) <==>
            if Unseen(site, env) then Whole(env, t, n)
            else
              || n.e.NilLit?
              || (Whole(env, t, n) && (!Strip(t).Opt? || !Blind(env, n) || IsClone(n)))
              || (Payload(env, t, n) && !IsClone(n) && (Strip(Strip(t).inner).Opt? ==> Blind(env, n)))
    ensures !Unseen(site, env) ==> LowerAt(site, env, t, n) == LowerAt(InReturn, env, t, n)
  {
    hide Infer;
    hide TypeOf;
    hide Blind;
    hide NotesRight;
    if site.InAssign? {
      InferenceExact(env, site.target);
    }
    if n.e.NilLit? {
      NilUntyped(env, n);
    } else {
      InferenceExact(env, n);
      var v := LowerValue(env, n);
      if TaggedOption(v) {
        TaggedIsInferred(env, n);
      }
      assert Fits(v, t) <==> Whole(env, t, n);
      if Strip(t).Opt? {
        NotItsPayload(t);
        assert Fits(CSome(t, v), t) <==> Payload(env, t, n);
      }
    }
  }

  /** No type is its own payload. */
  lemma NotItsPayload(t: Type)
    requires Strip(t).Opt?
    ensures Strip(Strip(t).inner) != Strip(t)
  {
    StripSmaller(Strip(t).inner);
  }

  lemma {:induction false} StripSmaller(t: Type)
    ensures Strip(t) == t || Strip(t) < t
    decreases t
  {
    if t.Qual? {
      StripSmaller(t.sub);
    }
  }

  /** In particular, every slot `?T` whose T is no option, known as such, gets a
      value of type `?T` wherever analysis has noted the type of the value, and the
      value is not a clone of a payload. */
  lemma NotedSlotKept(site: Site, env: Env, t: Type, n: Node)
    requires SlotOf(site, env, t) && Admitted(env, t, n) && NotesRight(env, n) && n.noted.Some?
    requires Strip(t).Opt? && !Strip(Strip(t).inner).Opt?
    ensures Fits(LowerAt(site, env, t, n), t) <==>
            Whole(env, t, n) || (!Unseen(site, env) && (n.e.NilLit? || !IsClone(n)))
  {
    SlotTypeKept(site, env, t, n);
    if Whole(env, t, n) && !n.e.NilLit? {
      NotItsPayload(t);
      NotedOptionSeen(env, n);
    }
  }

  /** An option with a note is blind only where its slice would be taken. */
  lemma NotedOptionSeen(env: Env, n: Node)
    requires TypeOf(env, n).Some? && n.noted.Some? && Strip(TypeOf(env, n).value).Opt?
    ensures !Blind(env, n)
  {
  }

  /** A variable without a declared type takes the inferred one, and then its
      initialiser fits; it has none exactly where inference is blind. */
  lemma UndeclaredSlot(env: Env, n: Node)
    requires TypeOf(env, n).Some? && NotesRight(env, n)
    ensures Infer(env, n).None? <==> Blind(env, n)
    ensures Infer(env, n).Some? ==> Admitted(env, Infer(env, n).value, n) &&
                                    Fits(LowerInit(env, Infer(env, n).value, n), Infer(env, n).value)
  {
    InferenceExact(env, n);
  }

  /** A local of type `?T` for a slot `??T` is passed on unwrapped. */
  lemma NestedOptionNotWrapped(site: Site, env: Env, x: string, inner: Type)
    requires FindVar(env, x) == Some(Opt(inner)) && SlotOf(site, env, Opt(Opt(inner)))
    ensures var n, t := Node(Ident(x), None), Opt(Opt(inner));
            Admitted(env, t, n) && NotesRight(env, n) && !Fits(LowerAt(site, env, t, n), t)
  {
    var n, t := Node(Ident(x), None), Opt(Opt(inner));
    assert TypeOf(env, n) == Some(Opt(inner));
    NotItsPayload(t);
    SlotTypeKept(site, env, t, n);
  }

  /** `*p` for a qualified pointer p to an option, without a note. */
  function Behind(p: string): Node { Node(Deref(Node(Ident(p), None)), None) }

  lemma BehindIsBlind(env: Env, p: string, t: Type)
    requires FindVar(env, p) == Some(Qual(Ptr(t)))
    ensures TypeOf(env, Behind(p)) == Some(t) && NotesRight(env, Behind(p)) && Blind(env, Behind(p))
  {
    var q := Node(Ident(p), None);
    assert TypeOf(env, q) == Some(Qual(Ptr(t))) && Strip(Qual(Ptr(t))) == Ptr(t);
  }

  /** As a value: inference finds nothing, and the option is wrapped again. */
  lemma UnknownWrappedTwice(site: Site, env: Env, p: string, inner: Type)
    requires FindVar(env, p) == Some(Qual(Ptr(Opt(inner)))) && !inner.Opt? && !inner.Qual?
    requires SlotOf(site, env, Opt(inner)) && !Unseen(site, env)
    ensures var n, t := Behind(p), Opt(inner);
            && Admitted(env, t, n) && NotesRight(env, n) && !Fits(LowerAt(site, env, t, n), t)
            && Fits(LowerAt(site, env, t, n.(noted := Some(t))), t)
  {
    var n, t := Behind(p), Opt(inner);
    BehindIsBlind(env, p, t);
    NotItsPayload(t);
    SlotTypeKept(site, env, t, n);
    var z := n.(noted := Some(t));
    assert TypeOf(env, z) == Some(t);
    SlotTypeKept(site, env, t, z);
  }

  /** As a target: the slot is not known to be optional, so `*p = 5` stores the plain
      value, where the same slot elsewhere would get an option.  With a note on the
      target the assignment is right as well. */
  lemma UnseenTargetUnwrapped(env: Env, p: string, n: Node, inner: Type)
    requires FindVar(env, p) == Some(Qual(Ptr(Opt(inner)))) && !inner.Opt? && !inner.Qual?
    requires TypeOf(env, n) == Some(inner) && NotesRight(env, n) && !IsClone(n)
    ensures var t, target := Opt(inner), Behind(p);
            && SlotOf(InAssign(target), env, t) && Admitted(env, t, n)
            && !Fits(LowerAt(InAssign(target), env, t, n), t)
            && Fits(LowerAt(InAssign(target.(noted := Some(t))), env, t, n), t) && Fits(LowerAt(InVar, env, t, n), t)
  {
    var t, target := Opt(inner), Behind(p);
    BehindIsBlind(env, p, t);
    NotItsPayload(t);
    SlotTypeKept(InAssign(target), env, t, n);
    SlotTypeKept(InVar, env, t, n);
    var seen := target.(noted := Some(t));
    assert TypeOf(env, seen) == Some(t);
    SlotTypeKept(InAssign(seen), env, t, n);
  }

  /* ------------------------- what the names and literals mean ------------------- */

  /** A local is found first, whatever globals there are; a global if there is no
      local of its name.  Inference and the language agree on that. */
  lemma LocalsFirst(env: Env, x: string)
    ensures var n := Node(Ident(x), None);
            && (Find(env.locals, x).Some? ==> Infer(env, n) == TypeOf(env, n) == Find(env.locals, x))
            && (Find(env.locals, x).None? && Find(env.globals, x).Some? ==>
                  Infer(env, n) == TypeOf(env, n) == Find(env.globals, x))
  {
  }

  /** Of several variables of one name the newest counts. */
  lemma {:induction false} NewestFirst(newer: List<Var>, v: Var, older: List<Var>)
    ensures Find(Append(newer, Cons(v, older)), v.name) ==
            if Find(newer, v.name).Some? then Find(newer, v.name) else Some(v.ty)
    ensures Find(newer, v.name).Some? <==> Among(v.name, newer)
  {
    if newer.Cons? {
      NewestFirst(newer.tail, v, older);
    }
  }

  predicate Among(x: string, vars: List<Var>) { vars.Cons? && (vars.head.name == x || Among(x, vars.tail)) }

  /** A local payload that hides a global option is wrapped at all four places, and a
      local option that hides a global payload is passed on as it is. */
  lemma HiddenGlobal(site: Site, env: Env, x: string, inner: Type)
    requires !inner.Opt? && !inner.Qual?
    requires SlotOf(site, env, Opt(inner)) && !Unseen(site, env)
    ensures var n, t := Node(Ident(x), None), Opt(inner);
            && (Find(env.locals, x) == Some(inner) && Find(env.globals, x) == Some(t) ==>
                  LowerAt(site, env, t, n) == CSome(t, CValue(inner, None)) && Fits(LowerAt(site, env, t, n), t))
            && (Find(env.locals, x) == Some(t) && Find(env.globals, x) == Some(inner) ==>
                  LowerAt(site, env, t, n) == CValue(t, None) && Fits(LowerAt(site, env, t, n), t))
  {
    hide Blind;
    var n, t := Node(Ident(x), None), Opt(inner);
    LocalsFirst(env, x);
    if site.InAssign? {
      InferenceExact(env, site.target);
    }
    if Find(env.locals, x).Some? {
      assert LowerValue(env, n) == CValue(Find(env.locals, x).value, None);
    }
  }

  /** An integer literal has the type of its suffix, if that is one of eight. */
  lemma IntegerLiterals(env: Env, v: int, suffix: string)
    ensures var n := Node(IntLit(v, suffix), None);
            && Infer(env, n) == TypeOf(env, n)
            && Infer(env, n) == Some(Scalar(
                 if || suffix == "i8" || suffix == "i16" || suffix == "i64" || suffix == "u8"
                    || suffix == "u16" || suffix == "u32" || suffix == "u64" || suffix == "usize"
                 then suffix else "i32"))
  {
  }

  /** The other literals, and what has a type of its own. */
  lemma OwnTypes(env: Env, e: Node, x: string, fid: nat)
    ensures Infer(env, Node(BoolLit, None)) == Some(Scalar("bool"))
    ensures Infer(env, Node(CharLit, None)) == Some(Scalar("u8"))
    ensures Infer(env, Node(LenOf(e), None)) == Some(Scalar("usize"))
    ensures fid in env.refs && env.refs[fid].None? ==>
              Infer(env, Node(FuncRef(fid, x), None)) == Some(Func(Scalar("void")))
    ensures fid in env.refs && env.refs[fid].Some? ==>
              Infer(env, Node(FuncRef(fid, x), None)) == Some(Func(env.refs[fid].value))
  {
  }

  /** The fields of a tuple are counted from 0. */
  lemma {:induction false} FieldAt(before: List<Type>, t: Type, after: List<Type>)
    ensures Nth(Append(before, Cons(t, after)), Len(before)) == Some(t)
    decreases before
  {
    if before.Cons? {
      FieldAt(before.tail, t, after);
    }
  }

  /** The calls that return a clone of the whole value, by the name of the callee. */
  lemma CloneNames(n: Node, f: string, args: List<Node>)
    requires n.e == Call(Node(Ident(f), None), args)
    ensures IsClone(n) <==> f == "__deep_clone" || (|f| >= 7 && f[..7] == "__clone")
  {
  }
}
