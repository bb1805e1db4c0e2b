/** Interning of C types.  `MapType` walks a type graph that may be cyclic, keeps
    one table of the C types made so far, and gives two types the same C name
    exactly when they are the same after erasure: qualifiers stripped, enums
    replaced by their integer, `opaque` read as pointer to void. */
module TypeMap {
  import opened Lists
  import opened Naming

  /* -------------------------------- type graphs ------------------------------ */

  datatype NominalKind = StructType | TupleType | UnionType | CUnionType

  datatype Member = Member(name: string, ty: Option<nat>)

  /** One type; other types are referred to by their id. */
  datatype Desc =
    | Scalar(k: nat)
    | Void
    | Str
    | Opaque
    | Qualified(base: nat)  // const or volatile
    | Enum(underlying: Option<nat>)
    | Nominal(kind: NominalKind, members: seq<Member>)
    | Array(elem: nat, len: nat)
    | Pointer(base: nat)
    | Slice(elem: nat)
    | Optional(inner: nat)
    | Func(params: seq<nat>, ret: nat)
    | Other

  /** The C names of the scalar types. */
  const SCALARS := ["int32_t", "uint32_t", "size_t", "bool", "float", "double",
                    "uint8_t", "int8_t", "uint16_t", "int16_t", "uint64_t", "int64_t"]

  datatype Graph = Graph(types: map<nat, Desc>, rank: map<nat, nat>)

  /** Types that a type refers to other than through members. */
  function Parts(d: Desc): set<nat> {
    match d
    case Qualified(b) => {b}
    case Enum(Some(u)) => {u}
    case Array(e, _) => {e}
    case Pointer(b) => {b}
    case Slice(e) => {e}
    case Optional(i) => {i}
    case Func(ps, r) => (set i | i in ps) + {r}
    case _ => {}
  }

  predicate DescOk(g: Graph, t: nat)
    requires t in g.types && t in g.rank
  {
    var d := g.types[t];
    && (d.Scalar? ==> d.k < |SCALARS|)
    && (forall c :: c in Parts(d) ==> c in g.types && c in g.rank && g.rank[c] < g.rank[t])
    && (d.Nominal? ==> forall i :: 0 <= i < |d.members| && d.members[i].ty.Some? ==> d.members[i].ty.value in g.types)
  }

  /** Every reference leads to a type, and every cycle passes through a nominal
      type: the rank falls along all other references. */
  predicate WellFounded(g: Graph) {
    g.rank.Keys == g.types.Keys && forall t :: t in g.types ==> DescOk(g, t)
  }

  /** Every type has a C form. */
  predicate Supported(g: Graph) {
    forall t :: t in g.types ==>
      && !g.types[t].Other?
      && (g.types[t].Enum? ==> g.types[t].underlying.Some?)
      && (g.types[t].Nominal? && g.types[t].kind.TupleType? ==>
            forall i :: 0 <= i < |g.types[t].members| ==> g.types[t].members[i].ty.Some?)
  }

  /* --------------------------------- erasure --------------------------------- */

  /** A type as C sees it; nominal types are known by their id. */
  datatype Erased =
    | EScalar(k: nat)
    | EVoid
    | EStr
    | ENominal(kind: NominalKind, id: nat)
    | EArray(elem: Erased, len: nat)
    | EPointer(base: Erased)
    | ESlice(elem: Erased)
    | EOptional(inner: Erased)
    | EFunc(params: seq<Erased>, ret: Erased)
    | EOther(id: nat)

  function Erase(g: Graph, t: nat): Erased
    requires WellFounded(g) && t in g.types
    decreases g.rank[t]
  {
    var d := g.types[t];
    assert DescOk(g, t);
    match d
    case Scalar(k) => EScalar(k)
    case Void => EVoid
    case Str => EStr
    case Opaque => EPointer(EVoid)
    case Qualified(b) => assert b in Parts(d); Erase(g, b)
    case Enum(Some(u)) => assert u in Parts(d); Erase(g, u)
    case Enum(None) => EOther(t)
    case Nominal(kind, _) => ENominal(kind, t)
    case Array(e, len) => assert e in Parts(d); EArray(Erase(g, e), len)
    case Pointer(b) => assert b in Parts(d); EPointer(Erase(g, b))
    case Slice(e) => assert e in Parts(d); ESlice(Erase(g, e))
    case Optional(i) => assert i in Parts(d); EOptional(Erase(g, i))
    case Func(ps, r) =>
      assert r in Parts(d);
      EFunc(seq(|ps|, i requires 0 <= i < |ps| => assert ps[i] in Parts(d); Erase(g, ps[i])), Erase(g, r))
    case Other => EOther(t)
  }

  /* ---------------------------------- C names -------------------------------- */

  datatype Name =
    | NScalar(k: nat)
    | NVoid
    | NStr
    | NNominal(kind: NominalKind, id: nat)
    | NArray(id: nat)
    | NSlice(id: nat)
    | NOptional(id: nat)
    | NPointer(base: Name)
    | NSig(seqNo: nat)

  function KindTag(kind: NominalKind): string {
    match kind
    case StructType => "s_"
    case TupleType => "tu_"
    case UnionType => "u_"
    case CUnionType => "cu_"
  }

  /** What follows the prefix in the name of a generated struct. */
  function Tail(n: Name): string
    requires n.NNominal? || n.NArray? || n.NSlice? || n.NOptional? || n.NSig?
  {
    match n
    case NNominal(kind, id) => KindTag(kind) + Dec(id)
    case NArray(id) => "a_" + Dec(id)
    case NSlice(id) => "sl_" + Dec(id)
    case NOptional(id) => "opt_" + Dec(id)
    case NSig(k) => "sig_" + Dec(k)
  }

  function RenderType(p: string, n: Name): string {
    match n
    case NScalar(k) => if k < |SCALARS| then SCALARS[k] else "?"
    case NVoid => "void"
    case NStr => "struct clux_str"
    case NPointer(b) => RenderType(p, b) + " *"
    case _ => "struct " + p + Tail(n)
  }

  predicate ScalarsOk(n: Name) {
    match n
    case NScalar(k) => k < |SCALARS|
    case NPointer(b) => ScalarsOk(b)
    case _ => true
  }

  lemma TailInjective(m: Name, n: Name)
    requires m.NNominal? || m.NArray? || m.NSlice? || m.NOptional? || m.NSig?
    requires n.NNominal? || n.NArray? || n.NSlice? || n.NOptional? || n.NSig?
    requires Tail(m) == Tail(n)
    ensures m == n
  {
    var a, b := Tail(m), Tail(n);
    assert a[0] == b[0] && a[1] == b[1];
    var k := if m.NNominal? then |KindTag(m.kind)| else if m.NArray? then 2 else if m.NSlice? then 3 else 4;
    assert a[k..] == b[k..];
    match m
    case NNominal(kind, id) =>
      assert n.NNominal? && n.kind == kind;
      assert a[k..] == Dec(id) && b[k..] == Dec(n.id);
      DecInjective(id, n.id);
    case NArray(id) =>
      assert a[k..] == Dec(id) && b[k..] == Dec(n.id);
      DecInjective(id, n.id);
    case NSlice(id) =>
      assert a[k..] == Dec(id) && b[k..] == Dec(n.id);
      DecInjective(id, n.id);
    case NOptional(id) =>
      assert a[k..] == Dec(id) && b[k..] == Dec(n.id);
      DecInjective(id, n.id);
    case NSig(j) =>
      assert a[k..] == Dec(j) && b[k..] == Dec(n.seqNo);
      DecInjective(j, n.seqNo);
  }

  lemma ScalarSpelling(k: nat)
    requires k < |SCALARS|
    ensures SCALARS[k] != "void" && SCALARS[k] != []
    ensures SCALARS[k][|SCALARS[k]| - 1] != '*' && !("struct " <= SCALARS[k])
    ensures forall j :: 0 <= j < |SCALARS| && SCALARS[j] == SCALARS[k] ==> j == k
  {
    assert SCALARS[0][0] == 'i' && SCALARS[0][3] == '3';
    assert SCALARS[1][4] == '3' && SCALARS[1][0] == 'u';
    assert SCALARS[2][0] == 's' && SCALARS[2][1] == 'i';
    assert SCALARS[3][0] == 'b' && SCALARS[4][0] == 'f' && SCALARS[5][0] == 'd';
    assert SCALARS[6][0] == 'u' && SCALARS[6][4] == '8';
    assert SCALARS[7][0] == 'i' && SCALARS[7][3] == '8';
    assert SCALARS[8][0] == 'u' && SCALARS[8][4] == '1';
    assert SCALARS[9][0] == 'i' && SCALARS[9][3] == '1';
    assert SCALARS[10][0] == 'u' && SCALARS[10][4] == '6';
    assert SCALARS[11][0] == 'i' && SCALARS[11][3] == '6';
    assert "void"[0] == 'v' && "struct "[0] == 's' && "struct "[1] == 't';
  }

  /** The first and last characters tell apart the ways a name is spelled. */
  lemma RenderShape(p: string, n: Name)
    requires IsModulePrefix(p) && ScalarsOk(n)
    ensures RenderType(p, n) != []
    ensures n.NPointer? <==> RenderType(p, n)[|RenderType(p, n)| - 1] == '*'
    ensures !n.NPointer? ==> (("struct " <= RenderType(p, n)) <==> !n.NScalar? && !n.NVoid?)
  {
    var s := RenderType(p, n);
    match n
    case NScalar(k) => ScalarSpelling(k);
    case NVoid => assert "struct "[0] == 's' && s[0] == 'v';
    case NStr => assert s[14] == 'r' && s[..7] == "struct ";
    case NPointer(b) =>
    case _ =>
      var t := Tail(n);
      assert s[|s| - 1] == t[|t| - 1];
      LastIsDigit(n);
      assert s[..7] == "struct ";
  }

  lemma LastIsDigit(n: Name)
    requires n.NNominal? || n.NArray? || n.NSlice? || n.NOptional? || n.NSig?
    ensures Tail(n) != [] && IsDigit(Tail(n)[|Tail(n)| - 1])
  {
    var d := match n case NNominal(_, id) => Dec(id) case NArray(id) => Dec(id) case NSlice(id) => Dec(id)
                    case NOptional(id) => Dec(id) case NSig(k) => Dec(k);
    assert Tail(n)[|Tail(n)| - 1] == d[|d| - 1];
  }

  /** Comparing C names as strings is comparing them as names. */
  lemma {:induction false} RenderTypeInjective(p: string, m: Name, n: Name)
    requires IsModulePrefix(p) && ScalarsOk(m) && ScalarsOk(n)
    ensures RenderType(p, m) == RenderType(p, n) <==> m == n
  {
    RenderShape(p, m);
    RenderShape(p, n);
    var a, b := RenderType(p, m), RenderType(p, n);
    if a == b {
      if m.NPointer? {
        assert a[..|a| - 2] == RenderType(p, m.base) && b[..|b| - 2] == RenderType(p, n.base);
        RenderTypeInjective(p, m.base, n.base);
      } else if m.NScalar? || m.NVoid? {
        SpelledPlainly(p, m, n);
      } else {
        SpelledAsStruct(p, m, n);
      }
    }
  }

  lemma SpelledPlainly(p: string, m: Name, n: Name)
    requires ScalarsOk(m) && ScalarsOk(n) && (m.NScalar? || m.NVoid?) && (n.NScalar? || n.NVoid?)
    requires RenderType(p, m) == RenderType(p, n)
    ensures m == n
  {
    if m.NScalar? {
      ScalarSpelling(m.k);
    }
    if n.NScalar? {
      ScalarSpelling(n.k);
    }
  }

  lemma SpelledAsStruct(p: string, m: Name, n: Name)
    requires IsModulePrefix(p) && !m.NScalar? && !m.NVoid? && !m.NPointer? && !n.NScalar? && !n.NVoid? && !n.NPointer?
    requires RenderType(p, m) == RenderType(p, n)
    ensures m == n
  {
    var a, b := RenderType(p, m), RenderType(p, n);
    if m.NStr? || n.NStr? {
      assert |"struct clux_str"| == 15;
    } else {
      assert a[7 + |p|..] == Tail(m) && b[7 + |p|..] == Tail(n);
      TailInjective(m, n);
    }
  }
}
