/** `map_type` as the compiler runs it: recursion over the type graph that updates
    the table of the unit in place. */
module TypeUnit {
  import opened Lists
  import opened Naming
  import opened TypeMap
  import opened TypeTable

  /** The table as a value; meaning says what each signature stands for. */
  datatype Table = Table(
    types: seq<Entry>, signatures: seq<Signature>, fields: map<nat, seq<CField>>, meaning: seq<Erased>)

  ghost predicate TableOk(g: Graph, s: Table) {
    && Inv(g, s.types, s.signatures, s.meaning)
    && forall id :: Tabled(s.types, id) ==> id in s.fields
  }

  /** Entries stay; so do the field lists of nominal types that had an entry. */
  predicate Grew(a: Table, b: Table) {
    && Extends(a.types, b.types)
    && a.meaning <= b.meaning
    && forall id :: Tabled(a.types, id) && id in a.fields ==> id in b.fields && b.fields[id] == a.fields[id]
  }

  /** The name r is in use and stands for t. */
  ghost predicate Names(g: Graph, s: Table, r: Name, t: nat)
    requires WellFounded(g) && t in g.types
  {
    Live(s.types, |s.meaning|, r) && Denote(g, s.meaning, r) == Erase(g, t)
  }

  /** The fields of the first n members: each in order, under its C name, with the
      C name of its type. */
  ghost predicate FieldsOk(g: Graph, s: Table, kind: NominalKind, members: seq<Member>, n: nat, fs: seq<CField>)
    requires WellFounded(g) && n <= |members|
  {
    if n == 0 then fs == []
    else if members[n - 1].ty.None? then FieldsOk(g, s, kind, members, n - 1, fs)
    else
      && fs != []
      && fs[|fs| - 1].name == FieldName(kind, members[n - 1].name, n - 1)
      && members[n - 1].ty.value in g.types && Names(g, s, fs[|fs| - 1].ty, members[n - 1].ty.value)
      && FieldsOk(g, s, kind, members, n - 1, fs[..|fs| - 1])
  }

  ghost predicate Complete(g: Graph, s: Table, id: nat)
    requires WellFounded(g)
  {
    && id in g.types && g.types[id].Nominal? && id in s.fields
    && FieldsOk(g, s, g.types[id].kind, g.types[id].members, |g.types[id].members|, s.fields[id])
  }

  /** All nominal types entered since `before` have all their fields. */
  ghost predicate NewComplete(g: Graph, before: Table, s: Table)
    requires WellFounded(g)
  {
    forall id :: Tabled(s.types, id) && !Tabled(before.types, id) ==> Complete(g, s, id)
  }

  ghost predicate AllComplete(g: Graph, s: Table)
    requires WellFounded(g)
  {
    forall id :: Tabled(s.types, id) ==> Complete(g, s, id)
  }

  lemma {:induction false} FieldsGrow(g: Graph, a: Table, b: Table, kind: NominalKind, members: seq<Member>, n: nat,
          fs: seq<CField>)
    requires WellFounded(g) && n <= |members| && Grew(a, b) && FieldsOk(g, a, kind, members, n, fs)
    ensures FieldsOk(g, b, kind, members, n, fs)
  {
    if n > 0 {
      if members[n - 1].ty.None? {
        FieldsGrow(g, a, b, kind, members, n - 1, fs);
      } else {
        NameGrows(g, a, b, fs[|fs| - 1].ty, members[n - 1].ty.value);
        FieldsGrow(g, a, b, kind, members, n - 1, fs[..|fs| - 1]);
      }
    }
  }

  lemma NameGrows(g: Graph, a: Table, b: Table, r: Name, t: nat)
    requires WellFounded(g) && t in g.types && Grew(a, b) && Names(g, a, r, t)
    ensures Names(g, b, r, t)
  {
    LiveGrows(a.types, b.types, |a.meaning|, |b.meaning|, r);
    DenoteGrows(g, a.types, a.meaning, b.meaning, r);
  }

  /** Two answers of the mapping, however much was mapped between them: their C
      names are the same string exactly when the types have the same erasure.  The
      hypotheses are what MapType ensures of the answers and of the table. */
  lemma AnswersQuotient(g: Graph, p: string, a: Table, b: Table, t: nat, m: Name, u: nat, n: Name)
    requires TableOk(g, b) && Grew(a, b) && t in g.types && u in g.types && IsModulePrefix(p)
    requires Names(g, a, m, t) && Names(g, b, n, u)
    ensures RenderType(p, m) == RenderType(p, n) <==> Erase(g, t) == Erase(g, u)
  {
    NameGrows(g, a, b, m, t);
    Quotient(g, b.types, b.signatures, b.meaning, p, t, m, u, n);
  }

  lemma CompleteGrows(g: Graph, a: Table, b: Table, id: nat)
    requires WellFounded(g) && Grew(a, b) && Complete(g, a, id) && Tabled(a.types, id)
    ensures Complete(g, b, id)
  {
    FieldsGrow(g, a, b, g.types[id].kind, g.types[id].members, |g.types[id].members|, a.fields[id]);
  }

  lemma TabledGrows(a: Table, b: Table, id: nat)
    requires Extends(a.types, b.types) && Tabled(a.types, id)
    ensures Tabled(b.types, id)
  {
  }

  lemma GrewNothing(g: Graph, s: Table)
    requires WellFounded(g)
    ensures Grew(s, s) && NewComplete(g, s, s)
  {
  }

  lemma GrewThen(g: Graph, a: Table, b: Table, c: Table)
    requires TableOk(g, a) && Grew(a, b) && Grew(b, c)
    ensures Grew(a, c)
    ensures NewComplete(g, a, b) && NewComplete(g, b, c) ==> NewComplete(g, a, c)
  {
    forall id | Tabled(a.types, id)
      ensures Tabled(b.types, id)
    {
      TabledGrows(a, b, id);
    }
    if NewComplete(g, a, b) && NewComplete(g, b, c) {
      forall id | Tabled(c.types, id) && !Tabled(a.types, id)
        ensures Complete(g, c, id)
      {
        if Tabled(b.types, id) {
          CompleteGrows(g, b, c, id);
        }
      }
    }
  }

  /** An entry that stands for one type stands for it under its name. */
  lemma EntryNames(g: Graph, s: Table, e: Entry, t: nat)
    requires TableOk(g, s) && e in s.types && t in g.types
    requires e.src == t || (Shared(e.kind) && e.elem.Some? && ShapeOf(g, s, e.kind, e.elem.value, e.len, t))
    ensures Names(g, s, e.name, t)
  {
    assert EntryOk(g, s.types, s.meaning, e);
    assert DescOk(g, t) && DescOk(g, e.src);
    if e.src == t {
      EntryOwn(g, s, e);
    } else {
      EntryShared(g, s, e, t);
    }
  }

  lemma EntryOwn(g: Graph, s: Table, e: Entry)
    requires WellFounded(g) && EntryOk(g, s.types, s.meaning, e) && e in s.types && DescOk(g, e.src)
    ensures Names(g, s, e.name, e.src)
  {
  }

  lemma EntryShared(g: Graph, s: Table, e: Entry, t: nat)
    requires WellFounded(g) && EntryOk(g, s.types, s.meaning, e) && e in s.types && t in g.types
    requires DescOk(g, t) && DescOk(g, e.src) && Shared(e.kind) && e.elem.Some?
    requires ShapeOf(g, s, e.kind, e.elem.value, e.len, t)
    ensures Names(g, s, e.name, t)
  {
    EntryOwn(g, s, e);
  }

  /** t is a shared type of this kind over the element that el names. */
  ghost predicate ShapeOf(g: Graph, s: Table, kind: CKind, el: Name, len: nat, t: nat)
    requires WellFounded(g) && t in g.types
  {
    match (kind, g.types[t])
    case (KPointer, Pointer(b)) => b in g.types && Names(g, s, el, b)
    case (KArray, Array(b, n)) => b in g.types && Names(g, s, el, b) && n == len
    case (KSlice, Slice(b)) => b in g.types && Names(g, s, el, b)
    case (KOptional, Optional(b)) => b in g.types && Names(g, s, el, b)
    case _ => false
  }

  /** What a new entry for a shared type is called. */
  function SharedName(kind: CKind, el: Name, t: nat): Name {
    match kind
    case KPointer => NPointer(el)
    case KArray => NArray(t)
    case KSlice => NSlice(t)
    case _ => NOptional(t)
  }

  lemma AddEntryOk(g: Graph, s: Table, e: Entry, fields: map<nat, seq<CField>>)
    requires TableOk(g, s) && EntryOk(g, s.types, s.meaning, e) && forall o :: o in s.types ==> !SameShape(e, o)
    requires (!e.name.NNominal? && fields == s.fields) || (!Tabled(s.types, e.src) && fields == s.fields[e.src := []])
    ensures var s' := s.(types := [e] + s.types, fields := fields);
            TableOk(g, s') && Grew(s, s') && (!e.name.NNominal? ==> NewComplete(g, s, s'))
            && (forall id :: Tabled(s'.types, id) ==> Tabled(s.types, id) || (e.name.NNominal? && id == e.src))
  {
    AddEntry(g, s.types, s.signatures, s.meaning, e);
    var types' := [e] + s.types;
    forall id | Tabled(types', id)
      ensures Tabled(s.types, id) || (e.name.NNominal? && id == e.src)
    {
      var o :| o in types' && o.src == id && o.name.NNominal?;
      assert o == e || o in s.types;
    }
  }

  /** The entry for a shared type whose element is mapped but which is new. */
  lemma AddShared(g: Graph, s: Table, kind: CKind, el: Name, len: nat, t: nat)
    requires TableOk(g, s) && t in g.types && ShapeOf(g, s, kind, el, len, t)
    requires forall e :: e in s.types ==> !(e.kind == kind && e.elem == Some(el) && (kind == KArray ==> e.len == len))
    ensures var e := Entry(t, kind, SharedName(kind, el, t), Some(el), len);
            var s' := s.(types := [e] + s.types);
            TableOk(g, s') && Grew(s, s') && NewComplete(g, s, s') && Names(g, s', e.name, t)
  {
    var e := Entry(t, kind, SharedName(kind, el, t), Some(el), len);
    assert DescOk(g, t);
    AddEntryOk(g, s, e, s.fields);
    EntryNames(g, s.(types := [e] + s.types), e, t);
  }

  /** Another entry for the name of a function type. */
  lemma AddFunc(g: Graph, s: Table, k: nat, t: nat)
    requires TableOk(g, s) && t in g.types && g.types[t].Func? && k < |s.meaning| && s.meaning[k] == Erase(g, t)
    ensures var s' := s.(types := [Entry(t, KFunc, NSig(k), None, 0)] + s.types);
            TableOk(g, s') && Grew(s, s') && NewComplete(g, s, s') && Names(g, s', NSig(k), t)
  {
    var e := Entry(t, KFunc, NSig(k), None, 0);
    AddEntryOk(g, s, e, s.fields);
  }

  /** The entry of a nominal type, still without fields. */
  lemma AddNominal(g: Graph, s: Table, t: nat)
    requires TableOk(g, s) && t in g.types && g.types[t].Nominal? && !Tabled(s.types, t)
    ensures var n := NNominal(g.types[t].kind, t);
            var s' := s.(types := [Entry(t, KindOf(g.types[t].kind), n, None, 0)] + s.types,
                    fields := s.fields[t := []]);
            && TableOk(g, s') && Grew(s, s') && Names(g, s', n, t) && Tabled(s'.types, t)
            && (forall id :: Tabled(s'.types, id) && id != t ==> Tabled(s.types, id))
            && |Unmapped(g, s'.types)| < |Unmapped(g, s.types)|
  {
    var e := Entry(t, KindOf(g.types[t].kind), NNominal(g.types[t].kind, t), None, 0);
    AddEntryOk(g, s, e, s.fields[t := []]);
    assert e in [e] + s.types;
    UnmappedShrinks(g, s.types, [e] + s.types);
    assert t in Unmapped(g, s.types);
  }

  /** All names in a list stand for their types, and go on doing so. */
  ghost predicate NamesAll(g: Graph, s: Table, names: seq<Name>, ps: seq<nat>)
    requires WellFounded(g) && |names| <= |ps|
  {
    forall k :: 0 <= k < |names| ==> ps[k] in g.types && Names(g, s, names[k], ps[k])
  }

  lemma NamesAllGrow(g: Graph, a: Table, b: Table, names: seq<Name>, ps: seq<nat>)
    requires WellFounded(g) && |names| <= |ps| && Grew(a, b) && NamesAll(g, a, names, ps)
    ensures NamesAll(g, b, names, ps)
  {
    forall k | 0 <= k < |names|
      ensures Names(g, b, names[k], ps[k])
    {
      NameGrows(g, a, b, names[k], ps[k]);
    }
  }

  /** One more field of the nominal type t. */
  lemma AddField(g: Graph, s: Table, t: nat, i: nat, ft: Name)
    requires TableOk(g, s) && t in g.types && g.types[t].Nominal? && Tabled(s.types, t) && i < |g.types[t].members|
    requires var m := g.types[t].members[i]; m.ty.Some? && m.ty.value in g.types && Names(g, s, ft, m.ty.value)
    requires FieldsOk(g, s, g.types[t].kind, g.types[t].members, i, s.fields[t])
    ensures var d := g.types[t];
            var s' := s.(fields := s.fields[t := s.fields[t] + [CField(FieldName(d.kind, d.members[i].name, i), ft)]]);
            && TableOk(g, s') && FieldsOk(g, s', d.kind, d.members, i + 1, s'.fields[t])
            && (forall id :: id != t && Tabled(s.types, id) && Complete(g, s, id) ==> Complete(g, s', id))
  {
    var d := g.types[t];
    var s' := s.(fields := s.fields[t := s.fields[t] + [CField(FieldName(d.kind, d.members[i].name, i), ft)]]);
    assert s'.fields[t][..|s'.fields[t]| - 1] == s.fields[t];
    SameFields(g, s, s', d.kind, d.members, i, s.fields[t]);
    forall id | id != t && Tabled(s.types, id) && Complete(g, s, id)
      ensures Complete(g, s', id)
    {
      SameFields(g, s, s', g.types[id].kind, g.types[id].members, |g.types[id].members|, s.fields[id]);
    }
  }

  lemma {:induction false} SameFields(g: Graph, a: Table, b: Table, kind: NominalKind, members: seq<Member>, n: nat,
          fs: seq<CField>)
    requires WellFounded(g) && n <= |members| && a.types == b.types && a.meaning == b.meaning
    requires FieldsOk(g, a, kind, members, n, fs)
    ensures FieldsOk(g, b, kind, members, n, fs)
  {
    if n > 0 {
      SameFields(g, a, b, kind, members, n - 1, if members[n - 1].ty.None? then fs else fs[..|fs| - 1]);
    }
  }

  /** What the loop over the members of t keeps: everything entered since `start`
      is complete, t up to member i. */
  ghost predicate Filling(g: Graph, start: Table, s: Table, t: nat, i: nat)
    requires WellFounded(g)
  {
    && TableOk(g, s) && Grew(start, s) && !Tabled(start.types, t)
    && t in g.types && g.types[t].Nominal? && Tabled(s.types, t) && t in s.fields && i <= |g.types[t].members|
    && Names(g, s, NNominal(g.types[t].kind, t), t)
    && FieldsOk(g, s, g.types[t].kind, g.types[t].members, i, s.fields[t])
    && |Unmapped(g, s.types)| < |Unmapped(g, start.types)|
    && forall id :: Tabled(s.types, id) && !Tabled(start.types, id) && id != t ==> Complete(g, s, id)
  }

  lemma FillingStart(g: Graph, start: Table, s: Table, t: nat)
    requires WellFounded(g) && TableOk(g, start) && t in g.types && g.types[t].Nominal? && !Tabled(start.types, t)
    requires var e := Entry(t, KindOf(g.types[t].kind), NNominal(g.types[t].kind, t), None, 0);
             s == start.(types := [e] + start.types, fields := start.fields[t := []])
    ensures Filling(g, start, s, t, 0)
  {
    AddNominal(g, start, t);
  }

  lemma FillingSkip(g: Graph, start: Table, s: Table, t: nat, i: nat)
    requires WellFounded(g) && Filling(g, start, s, t, i) && i < |g.types[t].members| && g.types[t].members[i].ty.None?
    ensures Filling(g, start, s, t, i + 1)
  {
  }

  /** A member was mapped. */
  lemma FillingMapped(g: Graph, start: Table, a: Table, b: Table, t: nat, i: nat)
    requires WellFounded(g) && TableOk(g, start) && Filling(g, start, a, t, i) && TableOk(g, b) && Grew(a, b)
    requires NewComplete(g, a, b)
    ensures Filling(g, start, b, t, i)
  {
    GrewThen(g, start, a, b);
    FieldsGrow(g, a, b, g.types[t].kind, g.types[t].members, i, a.fields[t]);
    TabledGrows(a, b, t);
    UnmappedShrinks(g, a.types, b.types);
    NameGrows(g, a, b, NNominal(g.types[t].kind, t), t);
    MembersKept(g, start, a, b, t);
  }

  /** Its field was added. */
  lemma FillingField(g: Graph, start: Table, s: Table, s': Table, t: nat, i: nat, ft: Name)
    requires WellFounded(g) && Filling(g, start, s, t, i) && i < |g.types[t].members|
    requires var m := g.types[t].members[i]; m.ty.Some? && m.ty.value in g.types && Names(g, s, ft, m.ty.value)
    requires var f := CField(FieldName(g.types[t].kind, g.types[t].members[i].name, i), ft);
             s' == s.(fields := s.fields[t := s.fields[t] + [f]])
    ensures Filling(g, start, s', t, i + 1)
  {
    AddField(g, s, t, i, ft);
  }

  lemma FillingDone(g: Graph, start: Table, s: Table, t: nat)
    requires WellFounded(g) && TableOk(g, start) && t in g.types && g.types[t].Nominal?
    requires Filling(g, start, s, t, |g.types[t].members|)
    ensures NewComplete(g, start, s)
  {
  }

  class Unit {
    const g: Graph
    var types: seq<Entry>
    var signatures: seq<Signature>
    var fields: map<nat, seq<CField>>
    var failed: bool
    ghost var meaning: seq<Erased>

    ghost function View(): Table
      reads this
    {
      Table(types, signatures, fields, meaning)
    }

    ghost predicate Valid()
      reads this
    {
      WellFounded(g) && TableOk(g, View()) && (Supported(g) ==> !failed)
    }

    constructor (g: Graph)
      requires WellFounded(g)
      ensures Valid() && types == [] && this.g == g && AllComplete(g, View())
    {
      this.g := g;
      types, signatures, fields, failed, meaning := [], [], map[], false, [];
    }

    /* -------------------------------- the look-ups ------------------------------- */

    method FindType(src: nat, kind: CKind) returns (r: Option<Entry>)
      ensures r.Some? ==> r.value in types && r.value.src == src && r.value.kind == kind
      ensures r.None? ==> forall e :: e in types ==> !(e.src == src && e.kind == kind)
    {
      var i := 0;
      while i < |types|
        invariant 0 <= i <= |types|
        invariant forall k :: 0 <= k < i ==> !(types[k].src == src && types[k].kind == kind)
      {
        if types[i].src == src && types[i].kind == kind {
          return Some(types[i]);
        }
        i := i + 1;
      }
      return None;
    }

    method FindStructuralType(kind: CKind, elem: Name, len: nat) returns (r: Option<Entry>)
      ensures r.Some? ==> r.value in types && r.value.kind == kind && r.value.elem == Some(elem)
      ensures r.Some? && kind == KArray ==> r.value.len == len
      ensures r.None? ==> forall e :: e in types ==>
        !(e.kind == kind && e.elem == Some(elem) && (kind == KArray ==> e.len == len))
    {
      var i := 0;
      while i < |types|
        invariant 0 <= i <= |types|
        invariant forall k :: 0 <= k < i ==>
          !(types[k].kind == kind && types[k].elem == Some(elem) && (kind == KArray ==> types[k].len == len))
      {
        var it := types[i];
        if it.kind == kind && (kind != KArray || it.len == len) && it.elem == Some(elem) {
          return Some(it);
        }
        i := i + 1;
      }
      return None;
    }

    /** The number of the signature with these types; a new one if there is none. */
    method SignatureFor(params: seq<Name>, ret: Name, ghost t: nat) returns (k: nat)
      requires Valid() && t in g.types && AllLive(types, |meaning|, params) && Live(types, |meaning|, ret)
      requires Erase(g, t) == EFunc(Meanings(g, meaning, params), Denote(g, meaning, ret))
      modifies this`signatures, this`meaning
      ensures Valid() && Grew(old(View()), View()) && NewComplete(g, old(View()), View())
      ensures k < |meaning| && meaning[k] == Erase(g, t)
    {
      hide Live;
      hide Denote;
      hide EntryOk;
      hide Complete;
      var s := Signature(params, ret);
      k := 0;
      while k < |signatures|
        invariant 0 <= k <= |signatures| && forall i :: 0 <= i < k ==> signatures[i] != s
      {
        if signatures[k] == s {
          assert SignatureOk(g, types, meaning, signatures[k], meaning[k]);
          return;
        }
        k := k + 1;
      }
      AddSignature(g, types, signatures, meaning, s, Erase(g, t));
      signatures, meaning := signatures + [s], meaning + [Erase(g, t)];
    }

    /* --------------------------------- the mapping ------------------------------- */

    /** The C name of t.  It stands for the erasure of t, whatever has been mapped
        before; names handed out earlier keep their meaning; every nominal type
        met on the way ends up with all its fields. */
    method MapType(t: nat) returns (r: Option<Name>)
      requires Valid() && t in g.types
      modifies this
      ensures Valid() && Grew(old(View()), View())
      ensures r.Some? ==> Names(g, View(), r.value, t) && NewComplete(g, old(View()), View())
      ensures r.Some? && old(AllComplete(g, View())) ==> AllComplete(g, View())
      ensures Supported(g) ==> r.Some?
      decreases |Unmapped(g, types)|, g.rank[t], 3
    {
      var s := t;
      assert DescOk(g, s);
      while g.types[s].Qualified?
        invariant s in g.types && Erase(g, s) == Erase(g, t) && g.rank[s] <= g.rank[t] && DescOk(g, s)
        decreases g.rank[s]
      {
        assert g.types[s].base in Parts(g.types[s]);
        s := g.types[s].base;
      }
      r := MapStripped(s);
      if r.Some? && old(AllComplete(g, View())) {
        forall id | Tabled(types, id)
          ensures Complete(g, View(), id)
        {
          if old(Tabled(types, id)) {
            CompleteGrows(g, old(View()), View(), id);
          }
        }
      }
    }

    method MapStripped(t: nat) returns (r: Option<Name>)
      requires Valid() && t in g.types && !g.types[t].Qualified?
      modifies this
      ensures Valid() && Grew(old(View()), View())
      ensures r.Some? ==> Names(g, View(), r.value, t) && NewComplete(g, old(View()), View())
      ensures Supported(g) ==> r.Some?
      decreases |Unmapped(g, types)|, g.rank[t], 2
    {
      assert DescOk(g, t);
      match g.types[t]
      case Scalar(k) => return Some(NScalar(k));
      case Void => return Some(NVoid);
      case Str =>
        MapPlain(t, KStr, NStr);
        return Some(NStr);
      case Opaque =>
        MapPlain(t, KPointer, NPointer(NVoid));
        return Some(NPointer(NVoid));
      case Enum(None) => return None;
      case Enum(Some(u)) =>
        assert u in Parts(g.types[t]);
        r := MapType(u);
      case Nominal(_, _) => r := MapNominal(t);
      case Array(e, len) =>
        assert e in Parts(g.types[t]);
        r := MapShared(t, KArray, e, len);
      case Pointer(b) =>
        assert b in Parts(g.types[t]);
        r := MapShared(t, KPointer, b, 0);
      case Slice(e) =>
        assert e in Parts(g.types[t]);
        r := MapShared(t, KSlice, e, 0);
      case Optional(i) =>
        assert i in Parts(g.types[t]);
        r := MapShared(t, KOptional, i, 0);
      case Func(_, _) => r := MapFunc(t);
      case Other =>
        failed := true;
        return None;
    }

    /** `str` and `opaque`: one entry, a fixed name. */
    method MapPlain(t: nat, kind: CKind, name: Name)
      requires Valid() && t in g.types
      requires (kind == KStr && g.types[t].Str? && name == NStr) || (kind == KPointer && g.types[t].Opaque? && name ==
              NPointer(NVoid))
      modifies this`types
      ensures Valid() && Grew(old(View()), View()) && NewComplete(g, old(View()), View())
      ensures Live(types, |meaning|, name)
    {
      var cached := FindType(t, kind);
      assert cached.Some? ==> EntryOk(g, types, meaning, cached.value);
      if cached.None? {
        var e := Entry(t, kind, name, None, 0);
        AddEntryOk(g, View(), e, fields);
        types := [e] + types;
      }
    }

    /** Arrays, pointers, slices and options are shared between all types with the
        same element; the element may itself enter the shared type first. */
    method MapShared(t: nat, kind: CKind, elem: nat, len: nat) returns (r: Option<Name>)
      requires Valid() && t in g.types && elem in g.types && g.rank[elem] < g.rank[t]
      requires match (kind, g.types[t])
               case (KPointer, Pointer(b)) => b == elem && len == 0
               case (KArray, Array(b, n)) => b == elem && n == len
               case (KSlice, Slice(b)) => b == elem && len == 0
               case (KOptional, Optional(b)) => b == elem && len == 0
               case _ => false
      modifies this
      ensures Valid() && Grew(old(View()), View())
      ensures r.Some? ==> Names(g, View(), r.value, t) && NewComplete(g, old(View()), View())
      ensures Supported(g) ==> r.Some?
      decreases |Unmapped(g, types)|, g.rank[t], 0
    {
      hide Inv;
      hide Erase;
      hide Names;
      hide Extends;
      hide NewComplete;
      hide SharedName;
      GrewNothing(g, View());
      var cached := FindType(t, kind);
      if cached.Some? {
        EntryNames(g, View(), cached.value, t);
        return Some(cached.value.name);
      }
      var el := MapType(elem);
      if el.None? {
        return None;
      }
      var dup := FindStructuralType(kind, el.value, len);
      if dup.Some? {
        EntryNames(g, View(), dup.value, t);
        return Some(dup.value.name);
      }
      ghost var mid := View();
      AddShared(g, mid, kind, el.value, len, t);
      var e := Entry(t, kind, SharedName(kind, el.value, t), Some(el.value), len);
      types := [e] + types;
      GrewThen(g, old(View()), mid, View());
      return Some(e.name);
    }

    /** Structs, tuples and unions are entered before their members are mapped, so
        that a cycle finds them. */
    method MapNominal(t: nat) returns (r: Option<Name>)
      requires Valid() && t in g.types && g.types[t].Nominal?
      modifies this
      ensures Valid() && Grew(old(View()), View())
      ensures r.Some? ==> Names(g, View(), r.value, t) && NewComplete(g, old(View()), View())
      ensures Supported(g) ==> r.Some?
      decreases |Unmapped(g, types)|, g.rank[t], 0
    {
      hide Inv;
      hide Erase;
      hide Names;
      hide Extends;
      hide NewComplete;
      hide FieldsOk;
      hide Complete;
      GrewNothing(g, View());
      assert DescOk(g, t);
      var kind, members := g.types[t].kind, g.types[t].members;
      var cached := FindType(t, KindOf(kind));
      if cached.Some? {
        EntryNames(g, View(), cached.value, t);
        return Some(cached.value.name);
      }
      ghost var start := View();
      NotTabled(g, start, t);
      var e := Entry(t, KindOf(kind), NNominal(kind, t), None, 0);
      types, fields := [e] + types, fields[t := []];
      FillingStart(g, start, View(), t);
      var i := 0;
      while i < |members|
        invariant 0 <= i <= |members|
        invariant Valid() && Filling(g, start, View(), t, i)
      {
        ghost var before := View();
        if members[i].ty.None? {
          if kind.TupleType? {
            return None;
          }
          FillingSkip(g, start, before, t, i);
        } else {
          var ft := MapType(members[i].ty.value);
          if ft.None? {
            GrewThen(g, start, before, View());
            return None;
          }
          ghost var mid := View();
          FillingMapped(g, start, before, mid, t, i);
          fields := fields[t := fields[t] + [CField(FieldName(kind, members[i].name, i), ft.value)]];
          FillingField(g, start, mid, View(), t, i, ft.value);
        }
        i := i + 1;
      }
      FillingDone(g, start, View(), t);
      return Some(e.name);
    }

    method MapFunc(t: nat) returns (r: Option<Name>)
      requires Valid() && t in g.types && g.types[t].Func?
      modifies this
      ensures Valid() && Grew(old(View()), View())
      ensures r.Some? ==> Names(g, View(), r.value, t) && NewComplete(g, old(View()), View())
      ensures Supported(g) ==> r.Some?
      decreases |Unmapped(g, types)|, g.rank[t], 1
    {
      hide Inv;
      hide Erase;
      hide Names;
      hide Extends;
      hide NewComplete;
      hide EntryOk;
      hide Complete;
      hide Meanings;
      GrewNothing(g, View());
      assert DescOk(g, t);
      var cached := FindType(t, KFunc);
      if cached.Some? {
        EntryNames(g, View(), cached.value, t);
        return Some(cached.value.name);
      }
      ghost var start := View();
      var ps := g.types[t].params;
      var names := MapParams(t);
      if names.None? {
        return None;
      }
      assert g.types[t].ret in Parts(g.types[t]);
      ghost var before := View();
      UnmappedShrinks(g, start.types, types);
      var ret := MapType(g.types[t].ret);
      ghost var mapped := View();
      GrewThen(g, start, before, mapped);
      if ret.None? {
        return None;
      }
      NamesAllGrow(g, before, mapped, names.value, ps);
      FuncMeaning(g, mapped, t, names.value, ret.value);
      var k := SignatureFor(names.value, ret.value, t);
      ghost var mid := View();
      GrewThen(g, start, mapped, mid);
      AddFunc(g, mid, k, t);
      types := [Entry(t, KFunc, NSig(k), None, 0)] + types;
      GrewThen(g, start, mid, View());
      return Some(NSig(k));
    }

    method MapParams(t: nat) returns (r: Option<seq<Name>>)
      requires Valid() && t in g.types && g.types[t].Func?
      modifies this
      ensures Valid() && Grew(old(View()), View())
      ensures r.Some? ==> |r.value| == |g.types[t].params| && NamesAll(g, View(), r.value, g.types[t].params)
      ensures r.Some? ==> NewComplete(g, old(View()), View())
      ensures Supported(g) ==> r.Some?
      decreases |Unmapped(g, types)|, g.rank[t], 0
    {
      hide Inv;
      hide Erase;
      hide Names;
      hide Extends;
      hide NewComplete;
      GrewNothing(g, View());
      assert DescOk(g, t);
      ghost var start := View();
      var ps := g.types[t].params;
      var names: seq<Name> := [];
      while |names| < |ps|
        invariant |names| <= |ps| && Valid() && Grew(start, View()) && NewComplete(g, start, View())
        invariant NamesAll(g, View(), names, ps)
        decreases |ps| - |names|
      {
        assert ps[|names|] in Parts(g.types[t]);
        ghost var before := View();
        UnmappedShrinks(g, start.types, types);
        var n := MapType(ps[|names|]);
        GrewThen(g, start, before, View());
        if n.None? {
          return None;
        }
        NamesAllGrow(g, before, View(), names, ps);
        names := names + [n.value];
      }
      return Some(names);
    }
  }

  lemma NotTabled(g: Graph, s: Table, t: nat)
    requires TableOk(g, s) && t in g.types && g.types[t].Nominal?
    requires forall e :: e in s.types ==> !(e.src == t && e.kind == KindOf(g.types[t].kind))
    ensures !Tabled(s.types, t)
  {
    forall e | e in s.types
      ensures e.src == t ==> e.kind == KindOf(g.types[t].kind)
    {
      assert EntryOk(g, s.types, s.meaning, e);
    }
  }

  lemma FuncMeaning(g: Graph, s: Table, t: nat, names: seq<Name>, ret: Name)
    requires TableOk(g, s) && t in g.types && g.types[t].Func? && |names| == |g.types[t].params|
    requires NamesAll(g, s, names, g.types[t].params)
    requires g.types[t].ret in g.types && Names(g, s, ret, g.types[t].ret)
    ensures AllLive(s.types, |s.meaning|, names) && Live(s.types, |s.meaning|, ret)
    ensures Erase(g, t) == EFunc(Meanings(g, s.meaning, names), Denote(g, s.meaning, ret))
  {
    assert Erase(g, t).params == Meanings(g, s.meaning, names);
  }

  /** While t is being filled, the other nominal types stay complete. */
  lemma MembersKept(g: Graph, start: Table, a: Table, b: Table, t: nat)
    requires TableOk(g, a) && TableOk(g, b) && Grew(a, b) && Extends(start.types, a.types)
    requires forall id :: Tabled(a.types, id) && !Tabled(start.types, id) && id != t ==> Complete(g, a, id)
    requires NewComplete(g, a, b)
    ensures forall id :: Tabled(b.types, id) && !Tabled(start.types, id) && id != t ==> Complete(g, b, id)
  {
    forall id | Tabled(b.types, id) && !Tabled(start.types, id) && id != t
      ensures Complete(g, b, id)
    {
      if Tabled(a.types, id) {
        CompleteGrows(g, a, b, id);
      }
    }
  }
}
