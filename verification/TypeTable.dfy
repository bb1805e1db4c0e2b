/** The table of C types that one compilation unit grows while types are mapped. */
module TypeTable {
  import opened Lists
  import opened Naming
  import opened TypeMap

  datatype CKind = KStr | KStruct | KArray | KPointer | KSlice | KOptional | KCUnion | KUnion | KFunc

  /** One C type: the source type it was made for, its name and, for the types
      that are shared by structure, the name of its element and its length. */
  datatype Entry = Entry(src: nat, kind: CKind, name: Name, elem: Option<Name>, len: nat)

  datatype Signature = Signature(params: seq<Name>, ret: Name)

  datatype CField = CField(name: string, ty: Name)

  function KindOf(kind: NominalKind): CKind {
    match kind
    case StructType => KStruct
    case TupleType => KStruct
    case UnionType => KUnion
    case CUnionType => KCUnion
  }

  function FieldName(kind: NominalKind, name: string, i: nat): string {
    match kind
    case StructType => "clux_f_" + name
    case TupleType => "clux_f_" + Dec(i)
    case _ => "clux_m_" + name
  }

  /* ------------------------------ what names mean ---------------------------- */

  /** The erased type a C name stands for; sigs gives the meaning of signatures. */
  ghost function Denote(g: Graph, sigs: seq<Erased>, n: Name): Erased
    requires WellFounded(g)
  {
    match n
    case NScalar(k) => EScalar(k)
    case NVoid => EVoid
    case NStr => EStr
    case NNominal(kind, id) => ENominal(kind, id)
    case NArray(id) => if id in g.types then Erase(g, id) else EVoid
    case NSlice(id) => if id in g.types then Erase(g, id) else EVoid
    case NOptional(id) => if id in g.types then Erase(g, id) else EVoid
    case NPointer(b) => EPointer(Denote(g, sigs, b))
    case NSig(k) => if k < |sigs| then sigs[k] else EVoid
  }

  /** An entry of this name, from which the unit will declare it. */
  predicate Entered(types: seq<Entry>, kind: CKind, n: Name) {
    exists e :: e in types && e.kind == kind && e.name == n
  }

  /** Names in use: all but scalars and void are in the table. */
  predicate Live(types: seq<Entry>, sigs: nat, n: Name) {
    match n
    case NArray(_) => Entered(types, KArray, n)
    case NSlice(_) => Entered(types, KSlice, n)
    case NOptional(_) => Entered(types, KOptional, n)
    case NPointer(b) => Entered(types, KPointer, n) && Live(types, sigs, b)
    case NSig(k) => k < sigs && Entered(types, KFunc, n)
    case NNominal(kind, _) => Entered(types, KindOf(kind), n)
    case NStr => Entered(types, KStr, n)
    case NScalar(k) => k < |SCALARS|
    case NVoid => true
  }

  predicate Shared(k: CKind) { k == KArray || k == KPointer || k == KSlice || k == KOptional }

  ghost predicate EntryOk(g: Graph, types: seq<Entry>, sigs: seq<Erased>, e: Entry)
    requires WellFounded(g)
  {
    && e.src in g.types
    && (e.elem.Some? ==> Shared(e.kind) && Live(types, |sigs|, e.elem.value))
    && match (e.kind, g.types[e.src])
       case (KStr, Str) => e.name == NStr
       case (KPointer, Opaque) => e.name == NPointer(NVoid) && e.elem.None?
       case (KPointer, Pointer(b)) =>
         && e.elem.Some? && e.name == NPointer(e.elem.value)
         && b in g.types && Denote(g, sigs, e.elem.value) == Erase(g, b)
       case (KArray, Array(b, len)) =>
         && e.elem.Some? && e.name == NArray(e.src) && e.len == len
         && b in g.types && Denote(g, sigs, e.elem.value) == Erase(g, b)
       case (KSlice, Slice(b)) =>
         e.elem.Some? && e.name == NSlice(e.src) && b in g.types && Denote(g, sigs, e.elem.value) == Erase(g, b)
       case (KOptional, Optional(b)) =>
         e.elem.Some? && e.name == NOptional(e.src) && b in g.types && Denote(g, sigs, e.elem.value) == Erase(g, b)
       case (_, Nominal(kind, _)) => e.kind == KindOf(kind) && e.name == NNominal(kind, e.src)
       case (KFunc, Func(_, _)) => e.name.NSig? && e.name.seqNo < |sigs| && sigs[e.name.seqNo] == Erase(g, e.src)
       case _ => false
  }

  /** Entries that are shared by structure agree on nothing twice. */
  predicate SameShape(a: Entry, b: Entry) {
    Shared(a.kind) && a.kind == b.kind && a.elem.Some? && a.elem == b.elem && (a.kind == KArray ==> a.len == b.len)
  }

  predicate OnePerShape(types: seq<Entry>) {
    forall i, k :: 0 <= i < k < |types| ==> !SameShape(types[i], types[k])
  }

  ghost function Meanings(g: Graph, sigs: seq<Erased>, ns: seq<Name>): (r: seq<Erased>)
    requires WellFounded(g)
    ensures |r| == |ns|
  {
    seq(|ns|, i requires 0 <= i < |ns| => Denote(g, sigs, ns[i]))
  }

  predicate AllLive(types: seq<Entry>, sigs: nat, ns: seq<Name>) {
    forall i :: 0 <= i < |ns| ==> Live(types, sigs, ns[i])
  }

  ghost predicate SignatureOk(g: Graph, types: seq<Entry>, sigs: seq<Erased>, s: Signature, m: Erased)
    requires WellFounded(g)
  {
    && AllLive(types, |sigs|, s.params) && Live(types, |sigs|, s.ret)
    && m == EFunc(Meanings(g, sigs, s.params), Denote(g, sigs, s.ret))
  }

  /** What holds of the table between any two steps. */
  ghost predicate Inv(g: Graph, types: seq<Entry>, signatures: seq<Signature>, sigs: seq<Erased>) {
    && WellFounded(g)
    && |signatures| == |sigs|
    && (forall e :: e in types ==> EntryOk(g, types, sigs, e))
    && OnePerShape(types)
    && (forall k :: 0 <= k < |sigs| ==> SignatureOk(g, types, sigs, signatures[k], sigs[k]))
    && (forall i, k :: 0 <= i < k < |signatures| ==> signatures[i] != signatures[k])
  }

  /* ------------------------------ growing the table -------------------------- */

  predicate Extends(a: seq<Entry>, b: seq<Entry>) { forall e :: e in a ==> e in b }

  lemma {:induction false} LiveGrows(types: seq<Entry>, types': seq<Entry>, k: nat, k': nat, n: Name)
    requires Live(types, k, n) && Extends(types, types') && k <= k'
    ensures Live(types', k', n)
  {
    if n.NPointer? {
      LiveGrows(types, types', k, k', n.base);
    }
  }

  lemma {:induction false} DenoteGrows(g: Graph, types: seq<Entry>, sigs: seq<Erased>, sigs': seq<Erased>, n: Name)
    requires WellFounded(g) && Live(types, |sigs|, n) && sigs <= sigs'
    ensures Denote(g, sigs', n) == Denote(g, sigs, n)
  {
    if n.NPointer? {
      DenoteGrows(g, types, sigs, sigs', n.base);
    }
  }

  lemma EntryGrows(g: Graph, types: seq<Entry>, types': seq<Entry>, sigs: seq<Erased>, sigs': seq<Erased>, e: Entry)
    requires WellFounded(g) && EntryOk(g, types, sigs, e) && Extends(types, types') && sigs <= sigs'
    ensures EntryOk(g, types', sigs', e)
  {
    if e.elem.Some? {
      LiveGrows(types, types', |sigs|, |sigs'|, e.elem.value);
      DenoteGrows(g, types, sigs, sigs', e.elem.value);
    }
  }

  lemma SignatureGrows(g: Graph, types: seq<Entry>, types': seq<Entry>, sigs: seq<Erased>, sigs': seq<Erased>,
          s: Signature, m: Erased)
    requires WellFounded(g) && SignatureOk(g, types, sigs, s, m) && Extends(types, types') && sigs <= sigs'
    ensures SignatureOk(g, types', sigs', s, m)
  {
    NamesGrow(g, types, types', sigs, sigs', s.params);
    LiveGrows(types, types', |sigs|, |sigs'|, s.ret);
    DenoteGrows(g, types, sigs, sigs', s.ret);
  }

  lemma NamesGrow(g: Graph, types: seq<Entry>, types': seq<Entry>, sigs: seq<Erased>, sigs': seq<Erased>, ns: seq<Name>)
    requires WellFounded(g) && AllLive(types, |sigs|, ns) && Extends(types, types') && sigs <= sigs'
    ensures AllLive(types', |sigs'|, ns) && Meanings(g, sigs', ns) == Meanings(g, sigs, ns)
  {
    forall i | 0 <= i < |ns|
      ensures Live(types', |sigs'|, ns[i]) && Denote(g, sigs', ns[i]) == Denote(g, sigs, ns[i])
    {
      LiveGrows(types, types', |sigs|, |sigs'|, ns[i]);
      DenoteGrows(g, types, sigs, sigs', ns[i]);
    }
  }

  lemma AddEntry(g: Graph, types: seq<Entry>, signatures: seq<Signature>, sigs: seq<Erased>, e: Entry)
    requires Inv(g, types, signatures, sigs) && EntryOk(g, types, sigs, e)
    requires forall o :: o in types ==> !SameShape(e, o)
    ensures Inv(g, [e] + types, signatures, sigs) && Extends(types, [e] + types)
  {
    var types' := [e] + types;
    forall o | o in types'
      ensures EntryOk(g, types', sigs, o)
    {
      EntryGrows(g, types, types', sigs, sigs, o);
    }
    forall k | 0 <= k < |sigs|
      ensures SignatureOk(g, types', sigs, signatures[k], sigs[k])
    {
      SignatureGrows(g, types, types', sigs, sigs, signatures[k], sigs[k]);
    }
  }

  lemma AddSignature(g: Graph, types: seq<Entry>, signatures: seq<Signature>, sigs: seq<Erased>, s: Signature,
          m: Erased)
    requires Inv(g, types, signatures, sigs) && SignatureOk(g, types, sigs, s, m) && s !in signatures
    ensures Inv(g, types, signatures + [s], sigs + [m])
  {
    var sigs' := sigs + [m];
    forall o | o in types
      ensures EntryOk(g, types, sigs', o)
    {
      EntryGrows(g, types, types, sigs, sigs', o);
    }
    forall k | 0 <= k < |sigs'|
      ensures SignatureOk(g, types, sigs', (signatures + [s])[k], sigs'[k])
    {
      if k < |sigs| {
        SignatureGrows(g, types, types, sigs, sigs', signatures[k], sigs[k]);
      } else {
        SignatureGrows(g, types, types, sigs, sigs', s, m);
      }
    }
  }

  /* ------------------------------- the quotient ------------------------------ */

  /** Names in use that mean the same are the same. */
  lemma {:induction false} Canonical(g: Graph, types: seq<Entry>, signatures: seq<Signature>, sigs: seq<Erased>,
          m: Name, n: Name)
    requires Inv(g, types, signatures, sigs) && Live(types, |sigs|, m) && Live(types, |sigs|, n)
    requires Denote(g, sigs, m) == Denote(g, sigs, n)
    ensures m == n
    decreases Denote(g, sigs, m)
  {
    Erasures(g, types, signatures, sigs, m);
    Erasures(g, types, signatures, sigs, n);
    match m
    case NPointer(b) => Canonical(g, types, signatures, sigs, b, n.base);
    case NSig(i) => CanonicalSig(g, types, signatures, sigs, i, n.seqNo);
    case NArray(_) => CanonicalShared(g, types, signatures, sigs, m, n, KArray);
    case NSlice(_) => CanonicalShared(g, types, signatures, sigs, m, n, KSlice);
    case NOptional(_) => CanonicalShared(g, types, signatures, sigs, m, n, KOptional);
    case _ =>
  }

  /** The kind of name shows in its meaning. */
  lemma Erasures(g: Graph, types: seq<Entry>, signatures: seq<Signature>, sigs: seq<Erased>, n: Name)
    requires Inv(g, types, signatures, sigs) && Live(types, |sigs|, n)
    ensures var d := Denote(g, sigs, n);
            && (n.NScalar? <==> d.EScalar?) && (n.NVoid? <==> d.EVoid?) && (n.NStr? <==> d.EStr?)
            && (n.NNominal? <==> d.ENominal?) && (n.NArray? <==> d.EArray?) && (n.NSlice? <==> d.ESlice?)
            && (n.NOptional? <==> d.EOptional?) && (n.NPointer? <==> d.EPointer?) && (n.NSig? <==> d.EFunc?)
  {
    match n
    case NArray(_) => var e :| e in types && e.kind == KArray && e.name == n; assert EntryOk(g, types, sigs, e);
    case NSlice(_) => var e :| e in types && e.kind == KSlice && e.name == n; assert EntryOk(g, types, sigs, e);
    case NOptional(_) => var e :| e in types && e.kind == KOptional && e.name == n; assert EntryOk(g, types, sigs, e);
    case NSig(k) => assert SignatureOk(g, types, sigs, signatures[k], sigs[k]);
    case _ =>
  }

  lemma {:induction false} CanonicalShared(g: Graph, types: seq<Entry>, signatures: seq<Signature>, sigs: seq<Erased>,
          m: Name, n: Name, kind: CKind)
    requires Inv(g, types, signatures, sigs) && Live(types, |sigs|, m) && Live(types, |sigs|, n)
    requires Denote(g, sigs, m) == Denote(g, sigs, n)
    requires match kind case KArray => m.NArray? && n.NArray? case KSlice => m.NSlice? && n.NSlice?
                        case KOptional => m.NOptional? && n.NOptional? case _ => false
    ensures m == n
    decreases Denote(g, sigs, m), 0
  {
    var a :| a in types && a.kind == kind && a.name == m;
    var b :| b in types && b.kind == kind && b.name == n;
    assert EntryOk(g, types, sigs, a) && EntryOk(g, types, sigs, b);
    Canonical(g, types, signatures, sigs, a.elem.value, b.elem.value);
    OneEntry(types, a, b);
  }

  lemma OneEntry(types: seq<Entry>, a: Entry, b: Entry)
    requires OnePerShape(types) && a in types && b in types && SameShape(a, b)
    ensures a == b
  {
    var i, k :| 0 <= i < |types| && types[i] == a && 0 <= k < |types| && types[k] == b;
    assert SameShape(types[k], types[i]);
    assert i == k;
  }

  lemma {:induction false} CanonicalSig(g: Graph, types: seq<Entry>, signatures: seq<Signature>, sigs: seq<Erased>,
          i: nat, k: nat)
    requires Inv(g, types, signatures, sigs) && i < |sigs| && k < |sigs| && sigs[i] == sigs[k]
    ensures i == k
    decreases sigs[i], 0
  {
    var s, t := signatures[i], signatures[k];
    assert SignatureOk(g, types, sigs, s, sigs[i]) && SignatureOk(g, types, sigs, t, sigs[k]);
    Canonical(g, types, signatures, sigs, s.ret, t.ret);
    assert |s.params| == |t.params|;
    forall j | 0 <= j < |s.params|
      ensures s.params[j] == t.params[j]
    {
      assert sigs[i].params[j] == Denote(g, sigs, s.params[j]);
      assert sigs[k].params[j] == Denote(g, sigs, t.params[j]);
      Canonical(g, types, signatures, sigs, s.params[j], t.params[j]);
    }
    assert s == t;
  }

  /** Two mapped types have the same C name, as a string, exactly when they have
      the same erasure. */
  lemma Quotient(g: Graph, types: seq<Entry>, signatures: seq<Signature>, sigs: seq<Erased>, p: string,
                 t: nat, m: Name, u: nat, n: Name)
    requires Inv(g, types, signatures, sigs) && t in g.types && u in g.types && IsModulePrefix(p)
    requires Live(types, |sigs|, m) && Denote(g, sigs, m) == Erase(g, t)
    requires Live(types, |sigs|, n) && Denote(g, sigs, n) == Erase(g, u)
    ensures RenderType(p, m) == RenderType(p, n) <==> Erase(g, t) == Erase(g, u)
  {
    LiveScalars(types, |sigs|, m);
    LiveScalars(types, |sigs|, n);
    RenderTypeInjective(p, m, n);
    if Erase(g, t) == Erase(g, u) {
      Canonical(g, types, signatures, sigs, m, n);
    }
  }

  lemma {:induction n} LiveScalars(types: seq<Entry>, sigs: nat, n: Name)
    requires Live(types, sigs, n)
    ensures ScalarsOk(n)
  {
  }

  /* -------------------------------- termination ------------------------------ */

  predicate Tabled(types: seq<Entry>, id: nat) {
    exists e :: e in types && e.src == id && e.name.NNominal?
  }

  /** Nominal types that have no entry yet. */
  ghost function Unmapped(g: Graph, types: seq<Entry>): set<nat> {
    set id | id in g.types && g.types[id].Nominal? && !Tabled(types, id)
  }

  lemma UnmappedShrinks(g: Graph, types: seq<Entry>, types': seq<Entry>)
    requires Extends(types, types')
    ensures Unmapped(g, types') <= Unmapped(g, types)
    ensures |Unmapped(g, types')| <= |Unmapped(g, types)|
    ensures (exists id :: id in Unmapped(g, types) && Tabled(types', id)) ==>
            |Unmapped(g, types')| < |Unmapped(g, types)|
  {
    var a, b := Unmapped(g, types), Unmapped(g, types');
    assert b <= a;
    SubsetSize(b, a);
    if id :| id in a && Tabled(types', id) {
      SubsetSize(b, a - {id});
    }
  }
}
