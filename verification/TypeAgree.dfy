/** When two types are the same type in C, by rules on the type graph alone, and what
    the answers of the mapping say about that. */
module TypeAgree {
  import opened Lists
  import opened Naming
  import opened TypeMap
  import opened TypeTable
  import opened TypeUnit

  /* ---------------------------------- the rules -------------------------------- */

  /** Void, possibly qualified or as the integer of an enum. */
  predicate IsVoid(g: Graph, t: nat)
    requires WellFounded(g) && t in g.types
    decreases g.rank[t]
  {
    assert DescOk(g, t);
    match g.types[t]
    case Void => true
    case Qualified(b) => assert b in Parts(g.types[t]); IsVoid(g, b)
    case Enum(Some(u)) => assert u in Parts(g.types[t]); IsVoid(g, u)
    case _ => false
  }

  /** Qualifiers do not count, an enum is its integer, `opaque` is a pointer to void,
      structs, tuples and unions are only themselves, and everything else agrees part
      by part. */
  predicate Agree(g: Graph, t: nat, u: nat)
    requires WellFounded(g) && t in g.types && u in g.types
    decreases g.rank[t] + g.rank[u]
  {
    var a, b := g.types[t], g.types[u];
    assert DescOk(g, t) && DescOk(g, u);
    assert forall c :: c in Parts(a) ==> g.rank[c] < g.rank[t];
    assert forall c :: c in Parts(b) ==> g.rank[c] < g.rank[u];
    if a.Qualified? then assert a.base in Parts(a); Agree(g, a.base, u)
    else if b.Qualified? then assert b.base in Parts(b); Agree(g, t, b.base)
    else if a.Enum? && a.underlying.Some? then assert a.underlying.value in Parts(a); Agree(g, a.underlying.value, u)
    else if b.Enum? && b.underlying.Some? then assert b.underlying.value in Parts(b); Agree(g, t, b.underlying.value)
    else
      match (a, b)
      case (Scalar(j), Scalar(k)) => j == k
      case (Void, Void) => true
      case (Str, Str) => true
      case (Opaque, Opaque) => true
      case (Opaque, Pointer(y)) => assert y in Parts(b); IsVoid(g, y)
      case (Pointer(x), Opaque) => assert x in Parts(a); IsVoid(g, x)
      case (Pointer(x), Pointer(y)) => assert x in Parts(a) && y in Parts(b); Agree(g, x, y)
      case (Array(x, m), Array(y, n)) => assert x in Parts(a) && y in Parts(b); m == n && Agree(g, x, y)
      case (Slice(x), Slice(y)) => assert x in Parts(a) && y in Parts(b); Agree(g, x, y)
      case (Optional(x), Optional(y)) => assert x in Parts(a) && y in Parts(b); Agree(g, x, y)
      case (Func(ps, r), Func(qs, s)) =>
        assert r in Parts(a) && s in Parts(b);
        && |ps| == |qs| && Agree(g, r, s)
        && forall i :: 0 <= i < |ps| ==> assert ps[i] in Parts(a) && qs[i] in Parts(b); Agree(g, ps[i], qs[i])
      case (Nominal(_, _), Nominal(_, _)) => t == u
      case (Enum(_), Enum(_)) => t == u
      case (Other, Other) => t == u
      case _ => false
  }

  lemma {:induction false} VoidErased(g: Graph, t: nat)
    requires WellFounded(g) && t in g.types
    ensures IsVoid(g, t) <==> Erase(g, t) == EVoid
    decreases g.rank[t]
  {
    assert DescOk(g, t);
    match g.types[t]
    case Qualified(b) =>
      assert b in Parts(g.types[t]);
      VoidErased(g, b);
    case Enum(Some(u)) =>
      assert u in Parts(g.types[t]);
      VoidErased(g, u);
    case _ =>
  }

  /** The rules and erasure say the same. */
  lemma {:induction false} AgreeErased(g: Graph, t: nat, u: nat)
    requires WellFounded(g) && t in g.types && u in g.types
    ensures Agree(g, t, u) <==> Erase(g, t) == Erase(g, u)
    decreases g.rank[t] + g.rank[u]
  {
    var a, b := g.types[t], g.types[u];
    assert DescOk(g, t) && DescOk(g, u);
    if a.Qualified? {
      assert a.base in Parts(a);
      AgreeErased(g, a.base, u);
    } else if b.Qualified? {
      assert b.base in Parts(b);
      AgreeErased(g, t, b.base);
    } else if a.Enum? && a.underlying.Some? {
      assert a.underlying.value in Parts(a);
      AgreeErased(g, a.underlying.value, u);
    } else if b.Enum? && b.underlying.Some? {
      assert b.underlying.value in Parts(b);
      AgreeErased(g, t, b.underlying.value);
    } else {
      AgreePlain(g, t, u);
    }
  }

  lemma {:induction false} AgreePlain(g: Graph, t: nat, u: nat)
    requires WellFounded(g) && t in g.types && u in g.types && DescOk(g, t) && DescOk(g, u)
    requires !g.types[t].Qualified? && !g.types[u].Qualified?
    requires !(g.types[t].Enum? && g.types[t].underlying.Some?) && !(g.types[u].Enum? && g.types[u].underlying.Some?)
    ensures Agree(g, t, u) <==> Erase(g, t) == Erase(g, u)
    decreases g.rank[t] + g.rank[u], 1
  {
    var a, b := g.types[t], g.types[u];
    match (a, b)
    case (Opaque, Pointer(_)) => AgreePointer(g, t, u);
    case (Pointer(_), Opaque) => AgreePointer(g, t, u);
    case (Pointer(_), Pointer(_)) => AgreePointer(g, t, u);
    case (Array(x, _), Array(y, _)) => AgreeElement(g, t, u, x, y);
    case (Slice(x), Slice(y)) => AgreeElement(g, t, u, x, y);
    case (Optional(x), Optional(y)) => AgreeElement(g, t, u, x, y);
    case (Func(_, _), Func(_, _)) => AgreeFunc(g, t, u);
    case _ =>
  }

  lemma {:induction false} AgreeElement(g: Graph, t: nat, u: nat, x: nat, y: nat)
    requires WellFounded(g) && t in g.types && u in g.types && DescOk(g, t) && DescOk(g, u)
    requires match (g.types[t], g.types[u])
             case (Array(e, _), Array(f, _)) => e == x && f == y
             case (Slice(e), Slice(f)) => e == x && f == y
             case (Optional(e), Optional(f)) => e == x && f == y
             case _ => false
    ensures Agree(g, t, u) <==> Erase(g, t) == Erase(g, u)
    decreases g.rank[t] + g.rank[u], 0
  {
    assert x in Parts(g.types[t]) && y in Parts(g.types[u]);
    AgreeErased(g, x, y);
  }

  lemma {:induction false} AgreePointer(g: Graph, t: nat, u: nat)
    requires WellFounded(g) && t in g.types && u in g.types && DescOk(g, t) && DescOk(g, u)
    requires g.types[t].Opaque? || g.types[t].Pointer?
    requires g.types[u].Opaque? || g.types[u].Pointer?
    ensures Agree(g, t, u) <==> Erase(g, t) == Erase(g, u)
    decreases g.rank[t] + g.rank[u], 0
  {
    var a, b := g.types[t], g.types[u];
    if a.Pointer? {
      assert a.base in Parts(a);
      VoidErased(g, a.base);
    }
    if b.Pointer? {
      assert b.base in Parts(b);
      VoidErased(g, b.base);
    }
    if a.Pointer? && b.Pointer? {
      AgreeErased(g, a.base, b.base);
    }
  }

  lemma {:induction false} AgreeFunc(g: Graph, t: nat, u: nat)
    requires WellFounded(g) && t in g.types && u in g.types && DescOk(g, t) && DescOk(g, u)
    requires g.types[t].Func? && g.types[u].Func?
    ensures Agree(g, t, u) <==> Erase(g, t) == Erase(g, u)
    decreases g.rank[t] + g.rank[u], 0
  {
    var a, b := g.types[t], g.types[u];
    assert a.ret in Parts(a) && b.ret in Parts(b);
    AgreeErased(g, a.ret, b.ret);
    if |a.params| == |b.params| {
      forall i | 0 <= i < |a.params|
        ensures a.params[i] in Parts(a) && b.params[i] in Parts(b)
        ensures Agree(g, a.params[i], b.params[i]) <==> Erase(g, t).params[i] == Erase(g, u).params[i]
      {
        assert a.params[i] in Parts(a) && b.params[i] in Parts(b);
        AgreeErased(g, a.params[i], b.params[i]);
      }
    }
  }

  /* --------------------------------- the answers ------------------------------- */

  /** Two answers of the mapping, however much was mapped between them, are the same
      text exactly when the types agree. */
  lemma AnswersAgree(g: Graph, p: string, a: Table, b: Table, t: nat, m: Name, u: nat, n: Name)
    requires TableOk(g, b) && Grew(a, b) && t in g.types && u in g.types && IsModulePrefix(p)
    requires Names(g, a, m, t) && Names(g, b, n, u)
    ensures RenderType(p, m) == RenderType(p, n) <==> Agree(g, t, u)
  {
    AnswersQuotient(g, p, a, b, t, m, u, n);
    AgreeErased(g, t, u);
  }

  /** A scalar of the language. */
  datatype ScalarType = Integer(signed: bool, bits: nat) | Size | Boolean | Float | Double

  /** The scalars in the order in which they are numbered. */
  const NUMBERED := [Integer(true, 32), Integer(false, 32), Size, Boolean, Float, Double, Integer(false, 8),
                     Integer(true, 8), Integer(false, 16), Integer(true, 16), Integer(false, 64), Integer(true, 64)]

  function ScalarText(s: ScalarType): string {
    match s
    case Integer(signed, bits) => (if signed then "int" else "uint") + Dec(bits) + "_t"
    case Size => "size_t"
    case Boolean => "bool"
    case Float => "float"
    case Double => "double"
  }

  /** The text s names the type t in C: it is built up as the type is.  Generated
      structs are numbered after a type of the same kind that agrees with t. */
  ghost predicate Spells(g: Graph, p: string, s: string, t: nat)
    requires WellFounded(g) && t in g.types
    decreases g.rank[t]
  {
    assert DescOk(g, t);
    match g.types[t]
    case Scalar(k) => k < |NUMBERED| && s == ScalarText(NUMBERED[k])
    case Void => s == "void"
    case Str => s == "struct clux_str"
    case Opaque => s == "void *"
    case Qualified(b) => assert b in Parts(g.types[t]); Spells(g, p, s, b)
    case Enum(Some(u)) => assert u in Parts(g.types[t]); Spells(g, p, s, u)
    case Pointer(b) =>
      assert b in Parts(g.types[t]);
      |s| >= 2 && s[|s| - 2..] == " *" && Spells(g, p, s[..|s| - 2], b)
    case Nominal(StructType, _) => s == StructText(p, "s_", t)
    case Nominal(TupleType, _) => s == StructText(p, "tu_", t)
    case Nominal(UnionType, _) => s == StructText(p, "u_", t)
    case Nominal(CUnionType, _) => s == StructText(p, "cu_", t)
    case Array(_, _) => exists o :: SharedText(g, p, s, "a_", o, t) && g.types[o].Array?
    case Slice(_) => exists o :: SharedText(g, p, s, "sl_", o, t) && g.types[o].Slice?
    case Optional(_) => exists o :: SharedText(g, p, s, "opt_", o, t) && g.types[o].Optional?
    case Func(_, _) => exists k: nat :: s == StructText(p, "sig_", k)
    case _ => false
  }

  /** A generated struct that was numbered after o, which agrees with t. */
  predicate SharedText(g: Graph, p: string, s: string, tag: string, o: nat, t: nat)
    requires WellFounded(g) && t in g.types
  {
    o in g.types && Agree(g, o, t) && s == StructText(p, tag, o)
  }

  lemma ScalarTexts(k: nat)
    requires k < |SCALARS|
    ensures k < |NUMBERED| && SCALARS[k] == ScalarText(NUMBERED[k])
  {
    Digits();
  }

  lemma Digits()
    ensures Dec(8) == "8" && Dec(16) == "16" && Dec(32) == "32" && Dec(64) == "64"
  {
    assert Dec(1) == "1" && Dec(3) == "3" && Dec(6) == "6";
    assert Dec(16) == Dec(1) + [Digit(6)] && Dec(32) == Dec(3) + [Digit(2)] && Dec(64) == Dec(6) + [Digit(4)];
  }

  function StructText(p: string, tag: string, n: nat): string { "struct " + p + tag + Dec(n) }

  /** The names of generated structs, written out. */
  lemma StructTexts(p: string, n: Name)
    ensures n.NArray? ==> RenderType(p, n) == StructText(p, "a_", n.id)
    ensures n.NSlice? ==> RenderType(p, n) == StructText(p, "sl_", n.id)
    ensures n.NOptional? ==> RenderType(p, n) == StructText(p, "opt_", n.id)
    ensures n.NSig? ==> RenderType(p, n) == StructText(p, "sig_", n.seqNo)
    ensures n.NNominal? ==> RenderType(p, n) == StructText(p,
      match n.kind case StructType => "s_" case TupleType => "tu_" case UnionType => "u_" case CUnionType => "cu_",
      n.id)
  {
    if !n.NScalar? && !n.NVoid? && !n.NStr? && !n.NPointer? {
      assert RenderType(p, n) == "struct " + p + Tail(n);
    }
  }

  /** The answer for a type spells it: in particular that for an enum, or for a
      qualified type, is the name of what is below. */
  lemma {:induction false} AnswerSpelled(g: Graph, p: string, s: Table, r: Name, t: nat)
    requires WellFounded(g) && TableOk(g, s) && t in g.types && Names(g, s, r, t)
    ensures Spells(g, p, RenderType(p, r), t)
    decreases g.rank[t]
  {
    hide Inv;
    hide StructText;
    hide Agree;
    assert DescOk(g, t);
    Erasures(g, s.types, s.signatures, s.meaning, r);
    match g.types[t]
    case Scalar(k) => ScalarTexts(k);
    case Qualified(b) =>
      assert b in Parts(g.types[t]);
      AnswerSpelled(g, p, s, r, b);
    case Enum(Some(u)) =>
      assert u in Parts(g.types[t]);
      AnswerSpelled(g, p, s, r, u);
    case Pointer(b) =>
      assert b in Parts(g.types[t]);
      AnswerSpelled(g, p, s, r.base, b);
      var text := RenderType(p, r);
      assert text[..|text| - 2] == RenderType(p, r.base);
    case Array(_, _) => SharedSpelled(g, p, s, r, t);
    case Slice(_) => SharedSpelled(g, p, s, r, t);
    case Optional(_) => SharedSpelled(g, p, s, r, t);
    case Func(_, _) => StructTexts(p, r);
    case Nominal(_, _) => StructTexts(p, r);
    case Opaque => Erasures(g, s.types, s.signatures, s.meaning, r.base);
    case Enum(None) => assert false;
    case Other => assert false;
    case _ =>
  }

  lemma SharedSpelled(g: Graph, p: string, s: Table, r: Name, t: nat)
    requires WellFounded(g) && TableOk(g, s) && t in g.types && Names(g, s, r, t)
    requires g.types[t].Array? || g.types[t].Slice? || g.types[t].Optional?
    ensures Spells(g, p, RenderType(p, r), t)
  {
    hide Agree;
    hide RenderType;
    hide StructText;
    hide Inv;
    Erasures(g, s.types, s.signatures, s.meaning, r);
    var o := NumberedAfter(g, s, r);
    assert DescOk(g, t);
    assert Erase(g, o) == Erase(g, t);
    AgreeErased(g, o, t);
    var tag := if r.NArray? then "a_" else if r.NSlice? then "sl_" else "opt_";
    StructTexts(p, r);
    assert SharedText(g, p, RenderType(p, r), tag, o, t);
  }

  /** The type that a shared struct in use is numbered after. */
  lemma NumberedAfter(g: Graph, s: Table, r: Name) returns (o: nat)
    requires WellFounded(g) && TableOk(g, s) && Live(s.types, |s.meaning|, r)
    requires r.NArray? || r.NSlice? || r.NOptional?
    ensures o in g.types && Denote(g, s.meaning, r) == Erase(g, o)
    ensures match r
            case NArray(id) => id == o && g.types[o].Array?
            case NSlice(id) => id == o && g.types[o].Slice?
            case NOptional(id) => id == o && g.types[o].Optional?
            case _ => false
  {
    hide Erase;
    var kind := if r.NArray? then KArray else if r.NSlice? then KSlice else KOptional;
    var e :| e in s.types && e.kind == kind && e.name == r;
    assert EntryOk(g, s.types, s.meaning, e);
    o := e.src;
  }

  /* ---------------------------------- the table -------------------------------- */

  /** A struct, tuple or union is entered as what it is. */
  lemma NominalEntry(g: Graph, s: Table, e: Entry)
    requires TableOk(g, s) && e in s.types && e.src in g.types && g.types[e.src].Nominal?
    ensures e.kind == match g.types[e.src].kind
                      case StructType => KStruct case TupleType => KStruct case UnionType => KUnion
                      case CUnionType => KCUnion
  {
    assert EntryOk(g, s.types, s.meaning, e);
  }

  /** The members that have a type, in order. */
  function Typed(members: seq<Member>, n: nat): seq<nat>
    requires n <= |members|
    ensures forall i :: 0 <= i < |Typed(members, n)| ==>
                          Typed(members, n)[i] < n && members[Typed(members, n)[i]].ty.Some?
  {
    if n == 0 then [] else Typed(members, n - 1) + if members[n - 1].ty.Some? then [n - 1] else []
  }

  /** Once complete, a struct, tuple or union has one field for each member with a
      type, in order, spelled after the member or, in a tuple, after its place. */
  lemma FieldTexts(g: Graph, s: Table, id: nat, i: nat)
    requires WellFounded(g) && Complete(g, s, id)
    ensures var d := g.types[id];
            var ms, fs := Typed(d.members, |d.members|), s.fields[id];
            && |fs| == |ms|
            && (i < |ms| ==>
                  && d.members[ms[i]].ty.value in g.types
                  && Names(g, s, fs[i].ty, d.members[ms[i]].ty.value)
                  && fs[i].name == match d.kind
                                   case StructType => "clux_f_" + d.members[ms[i]].name
                                   case TupleType => "clux_f_" + Dec(ms[i])
                                   case UnionType => "clux_m_" + d.members[ms[i]].name
                                   case CUnionType => "clux_m_" + d.members[ms[i]].name)
  {
    FieldTextsUpTo(g, s, g.types[id].kind, g.types[id].members, |g.types[id].members|, s.fields[id], i);
  }

  lemma {:induction false} FieldTextsUpTo(g: Graph, s: Table, kind: NominalKind, members: seq<Member>, n: nat,
          fs: seq<CField>, i: nat)
    requires WellFounded(g) && n <= |members| && FieldsOk(g, s, kind, members, n, fs)
    ensures var ms := Typed(members, n);
            && |fs| == |ms|
            && (i < |ms| ==>
                  && members[ms[i]].ty.value in g.types
                  && Names(g, s, fs[i].ty, members[ms[i]].ty.value)
                  && fs[i].name == match kind
                                   case StructType => "clux_f_" + members[ms[i]].name
                                   case TupleType => "clux_f_" + Dec(ms[i])
                                   case UnionType => "clux_m_" + members[ms[i]].name
                                   case CUnionType => "clux_m_" + members[ms[i]].name)
    decreases n
  {
    hide Names;
    if n > 0 {
      if members[n - 1].ty.None? {
        FieldTextsUpTo(g, s, kind, members, n - 1, fs, i);
      } else {
        FieldTextsUpTo(g, s, kind, members, n - 1, fs[..|fs| - 1], i);
      }
    }
  }
}
