/** Typedefs for C function pointers: every function type at the C boundary gets
    one, emitted after those it mentions. */
module FfiTypedefs {

  /** A use of a type: its qualifiers are kept apart. */
  datatype TypeUse = TypeUse(isConst: bool, id: nat)

  datatype FType =
    | Void
    | Basic(name: string)
    | Str
    | Opaque
    | Pointer(base: TypeUse)
    | Aggregate(name: string, hasStr: bool)
    | Enum(underlying: TypeUse)
    | CFunc(ret: TypeUse, params: seq<TypeUse>, variadic: bool)
    | Other

  datatype Types = Types(types: map<nat, FType>, rank: map<nat, nat>)

  /** The text of a C type. */
  datatype CType =
    | CVoid
    | CBase(name: string)
    | CTag(n: nat)
    | CPtrTo(base: CType)    // the base followed by `*`
    | CConst(base: CType)    // `const` followed by the base

  datatype Typedef = Typedef(tag: nat, ret: CType, params: seq<CType>, variadic: bool)

  function Uses(t: FType): seq<TypeUse> {
    match t
    case Pointer(b) => [b]
    case Enum(u) => [u]
    case CFunc(r, ps, _) => [r] + ps
    case _ => []
  }

  /** No function type contains itself. */
  predicate Acyclic(g: Types) {
    g.rank.Keys == g.types.Keys &&
    forall t :: t in g.types ==> forall u :: u in Uses(g.types[t]) ==> u.id in g.types && g.rank[u.id] < g.rank[t]
  }

  predicate StartsConst(c: CType) {
    match c
    case CConst(_) => true
    case CPtrTo(b) => StartsConst(b)
    case _ => false
  }

  function WithConst(isConst: bool, c: CType): CType {
    if !isConst || c == CVoid || StartsConst(c) then c else CConst(c)
  }

  /** A pointer to an opaque pointer is that pointer itself. */
  function PointerTo(c: CType): CType {
    if c == CPtrTo(CVoid) || c == CConst(CPtrTo(CVoid)) then c else CPtrTo(c)
  }

  const STR := CConst(CPtrTo(CBase("char")))

  /** The C text of a use, given the tags of the function types below it. */
  function Form(g: Types, tags: map<nat, nat>, u: TypeUse): CType
    requires Acyclic(g) && u.id in g.types
    decreases g.rank[u.id]
  {
    var t := g.types[u.id];
    WithConst(u.isConst,
      match t
      case Void => CVoid
      case Basic(name) => CBase(name)
      case Str => STR
      case Opaque => CPtrTo(CVoid)
      case Pointer(b) => assert b in Uses(t); PointerTo(Form(g, tags, b))
      case Aggregate(name, _) => CBase(name)
      case Enum(b) => assert b in Uses(t); Form(g, tags, b)
      case CFunc(_, _, _) => if u.id in tags then CTag(tags[u.id]) else CVoid
      case Other => CVoid)
  }

  function Forms(g: Types, tags: map<nat, nat>, us: seq<TypeUse>): (r: seq<CType>)
    requires Acyclic(g) && forall u :: u in us ==> u.id in g.types
    ensures |r| == |us|
  {
    seq(|us|, i requires 0 <= i < |us| => Form(g, tags, us[i]))
  }

  /** The function type that the text of a use names, if any, has a tag. */
  predicate Tagged(g: Types, tags: map<nat, nat>, u: TypeUse)
    requires Acyclic(g) && u.id in g.types
    decreases g.rank[u.id]
  {
    match g.types[u.id]
    case Pointer(b) => assert b in Uses(g.types[u.id]); Tagged(g, tags, b)
    case Enum(b) => assert b in Uses(g.types[u.id]); Tagged(g, tags, b)
    case CFunc(_, _, _) => u.id in tags
    case _ => true
  }

  /** The tags a text mentions. */
  function Mentions(c: CType): set<nat> {
    match c
    case CTag(n) => {n}
    case CPtrTo(b) => Mentions(b)
    case CConst(b) => Mentions(b)
    case _ => {}
  }

  predicate MentionsOnly(d: Typedef, known: set<nat>) {
    Mentions(d.ret) <= known && forall i :: 0 <= i < |d.params| ==> Mentions(d.params[i]) <= known
  }

  function TagsOf(texts: seq<Typedef>): set<nat> { set d | d in texts :: d.tag }

  /** Each typedef is emitted once and only mentions typedefs before it. */
  predicate InOrder(texts: seq<Typedef>) {
    && (forall i, k :: 0 <= i < k < |texts| ==> texts[i].tag != texts[k].tag)
    && forall i :: 0 <= i < |texts| ==> MentionsOnly(texts[i], TagsOf(texts[..i]))
  }

  /** The type can be written in C. */
  predicate Supported(g: Types, u: TypeUse)
    requires Acyclic(g) && u.id in g.types
    decreases g.rank[u.id]
  {
    var t := g.types[u.id];
    match t
    case Other => false
    case Aggregate(_, hasStr) => !hasStr
    case CFunc(_, ps, variadic) =>
      !(variadic && ps == []) && forall v :: v in Uses(t) ==> Supported(g, v)
    case _ => forall v :: v in Uses(t) ==> Supported(g, v)
  }

  /* ---------------------------------- lemmas ---------------------------------- */

  lemma {:induction false} FormStable(g: Types, tags: map<nat, nat>, tags': map<nat, nat>, u: TypeUse)
    requires Acyclic(g) && u.id in g.types && Tagged(g, tags, u)
    requires forall t :: t in tags ==> t in tags' && tags'[t] == tags[t]
    ensures Tagged(g, tags', u) && Form(g, tags', u) == Form(g, tags, u)
    decreases g.rank[u.id]
  {
    var t := g.types[u.id];
    match t
    case Pointer(b) =>
      assert b in Uses(t);
      FormStable(g, tags, tags', b);
    case Enum(b) =>
      assert b in Uses(t);
      FormStable(g, tags, tags', b);
    case _ =>
  }

  lemma FormsStable(g: Types, tags: map<nat, nat>, tags': map<nat, nat>, us: seq<TypeUse>)
    requires Acyclic(g) && forall u :: u in us ==> u.id in g.types && Tagged(g, tags, u)
    requires forall t :: t in tags ==> t in tags' && tags'[t] == tags[t]
    ensures Forms(g, tags', us) == Forms(g, tags, us) && forall u :: u in us ==> Tagged(g, tags', u)
  {
    forall u | u in us
      ensures Tagged(g, tags', u) && Form(g, tags', u) == Form(g, tags, u)
    {
      FormStable(g, tags, tags', u);
    }
  }

  lemma QualifiedForm(g: Types, tags: map<nat, nat>, u: TypeUse)
    requires Acyclic(g) && u.id in g.types
    ensures Form(g, tags, u) == WithConst(u.isConst, Form(g, tags, TypeUse(false, u.id)))
    ensures Tagged(g, tags, u) == Tagged(g, tags, TypeUse(false, u.id))
  {
  }

  /** The first n of these uses can be written in C. */
  predicate AllSupported(g: Types, us: seq<TypeUse>, n: nat)
    requires Acyclic(g) && n <= |us|
  {
    forall k :: 0 <= k < n ==> us[k].id in g.types && Supported(g, us[k])
  }

  /** A function type is supported if its result and parameters are. */
  lemma SupportedFunction(g: Types, t: nat)
    requires Acyclic(g) && t in g.types && g.types[t].CFunc?
    ensures g.types[t].ret.id in g.types
    ensures Supported(g, TypeUse(false, t)) <==>
            && Supported(g, g.types[t].ret) && AllSupported(g, g.types[t].params, |g.types[t].params|)
            && !(g.types[t].variadic && g.types[t].params == [])
  {
    var f := g.types[t];
    assert f.ret in Uses(f) && forall v :: v in f.params ==> v in Uses(f);
    assert forall v :: v in Uses(f) <==> v == f.ret || v in f.params;
  }

  lemma SupportedUses(g: Types, t: nat)
    requires Acyclic(g) && t in g.types
    ensures forall c, u :: u in Uses(g.types[t]) && Supported(g, TypeUse(c, t)) ==> Supported(g, u)
    ensures forall c, d :: Supported(g, TypeUse(c, t)) == Supported(g, TypeUse(d, t))
  {
  }

  lemma MoreTags(texts: seq<Typedef>, d: Typedef)
    requires InOrder(texts) && d.tag !in TagsOf(texts) && MentionsOnly(d, TagsOf(texts))
    ensures InOrder(texts + [d]) && TagsOf(texts + [d]) == TagsOf(texts) + {d.tag}
  {
    var texts' := texts + [d];
    forall i | 0 <= i < |texts'|
      ensures MentionsOnly(texts'[i], TagsOf(texts'[..i]))
    {
      assert texts'[..i] == texts[..i];
      assert i == |texts| ==> texts[..i] == texts;
    }
    assert forall x :: x in texts' <==> x in texts || x == d;
    forall k | 0 <= k < |texts|
      ensures texts[k].tag in TagsOf(texts)
    {
      assert texts[k] in texts;
    }
  }

  lemma PrefixTags(a: seq<Typedef>, b: seq<Typedef>)
    requires a <= b
    ensures TagsOf(a) <= TagsOf(b)
  {
    assert forall x :: x in a ==> x in b;
  }

  predicate Kept(a: map<nat, nat>, b: map<nat, nat>) { forall t :: t in a ==> t in b && b[t] == a[t] }

  /** The typedef of t is there, with the texts of its result and parameters. */
  predicate Emitted(g: Types, tags: map<nat, nat>, texts: seq<Typedef>, t: nat)
    requires Acyclic(g) && t in tags && t in g.types && g.types[t].CFunc?
  {
    var f := g.types[t];
    && (forall u :: u in Uses(f) ==> Tagged(g, tags, u))
    && tags[t] in TagsOf(texts)
    && forall d :: d in texts && d.tag == tags[t] ==>
         assert f.ret in Uses(f) && forall u :: u in f.params ==> u in Uses(f);
         d == Typedef(tags[t], Form(g, tags, f.ret), Forms(g, tags, f.params), f.variadic)
  }

  /** open: function types met whose typedef is not finished yet. */
  ghost predicate TableOk(g: Types, tags: map<nat, nat>, texts: seq<Typedef>, ffiSeq: nat, open: set<nat>) {
    && Acyclic(g) && InOrder(texts)
    && (forall t :: t in tags ==> t in g.types && g.types[t].CFunc? && tags[t] < ffiSeq)
    && (forall t, u :: t in tags && u in tags && tags[t] == tags[u] ==> t == u)
    && (forall t :: t in tags && t !in open ==> Emitted(g, tags, texts, t) && Supported(g, TypeUse(false, t)))
    && (forall t :: t in open && t in tags ==> tags[t] !in TagsOf(texts))
    && (forall n :: n in TagsOf(texts) ==> n < ffiSeq)
  }

  lemma EmittedStable(g: Types, tags: map<nat, nat>, tags': map<nat, nat>, texts: seq<Typedef>, t: nat)
    requires Acyclic(g) && t in tags && t in g.types && g.types[t].CFunc? && Emitted(g, tags, texts, t)
    requires Kept(tags, tags')
    ensures Emitted(g, tags', texts, t)
  {
    var f := g.types[t];
    assert f.ret in Uses(f) && forall u :: u in f.params ==> u in Uses(f);
    FormsStable(g, tags, tags', Uses(f));
    FormsStable(g, tags, tags', f.params);
    FormStable(g, tags, tags', f.ret);
  }

  lemma SupportedAlready(g: Types, tags: map<nat, nat>, texts: seq<Typedef>, ffiSeq: nat, open: set<nat>, t: nat)
    requires TableOk(g, tags, texts, ffiSeq, open) && t in tags && t !in open
    ensures Supported(g, TypeUse(false, t))
  {
  }

  lemma KnownTag(g: Types, tags: map<nat, nat>, texts: seq<Typedef>, ffiSeq: nat, open: set<nat>, t: nat)
    requires TableOk(g, tags, texts, ffiSeq, open) && t in tags && t !in open
    ensures tags[t] in TagsOf(texts)
  {
    assert Emitted(g, tags, texts, t);
  }

  /** A function type gets its tag before anything below it is looked at. */
  lemma OpenOne(g: Types, tags: map<nat, nat>, texts: seq<Typedef>, ffiSeq: nat, open: set<nat>, t: nat)
    requires TableOk(g, tags, texts, ffiSeq, open) && t in g.types && g.types[t].CFunc? && t !in tags && t !in open
    ensures TableOk(g, tags[t := ffiSeq], texts, ffiSeq + 1, open + {t})
  {
    var tags' := tags[t := ffiSeq];
    forall s | s in tags' && s !in open + {t}
      ensures Emitted(g, tags', texts, s) && Supported(g, TypeUse(false, s))
    {
      EmittedStable(g, tags, tags', texts, s);
    }
  }

  predicate ParamsDone(g: Types, tags: map<nat, nat>, texts: seq<Typedef>, us: seq<TypeUse>, cs: seq<CType>)
    requires Acyclic(g)
  {
    |us| == |cs| && forall i :: 0 <= i < |us| ==>
      us[i].id in g.types && Tagged(g, tags, us[i]) && cs[i] == Form(g, tags, us[i]) && Mentions(cs[i]) <= TagsOf(texts)
  }

  lemma ParamsStay(g: Types, tags: map<nat, nat>, tags': map<nat, nat>, texts: seq<Typedef>, texts': seq<Typedef>,
          us: seq<TypeUse>, cs: seq<CType>)
    requires Acyclic(g) && ParamsDone(g, tags, texts, us, cs) && Kept(tags, tags') && texts <= texts'
    ensures ParamsDone(g, tags', texts', us, cs)
  {
    PrefixTags(texts, texts');
    forall i | 0 <= i < |us|
      ensures Tagged(g, tags', us[i]) && cs[i] == Form(g, tags', us[i])
    {
      FormStable(g, tags, tags', us[i]);
    }
  }

  /** The finished typedef is the one its type asks for. */
  lemma FinishedOne(g: Types, tags: map<nat, nat>, texts: seq<Typedef>, t: nat, ret: CType, params: seq<CType>)
    requires Acyclic(g) && t in g.types && g.types[t].CFunc? && t in tags && tags[t] !in TagsOf(texts)
    requires g.types[t].ret.id in g.types && Tagged(g, tags, g.types[t].ret) && ret == Form(g, tags, g.types[t].ret)
    requires ParamsDone(g, tags, texts, g.types[t].params, params)
    ensures Emitted(g, tags, texts + [Typedef(tags[t], ret, params, g.types[t].variadic)], t)
  {
    hide Form;
    hide Tagged;
    hide ParamsDone;
    hide Mentions;
    var f := g.types[t];
    var d := Typedef(tags[t], ret, params, f.variadic);
    assert d in texts + [d];
    ParamsForms(g, tags, texts, f.params, params);
    assert forall e :: e in texts ==> e.tag in TagsOf(texts);
  }

  lemma ParamsForms(g: Types, tags: map<nat, nat>, texts: seq<Typedef>, us: seq<TypeUse>, cs: seq<CType>)
    requires Acyclic(g) && ParamsDone(g, tags, texts, us, cs)
    ensures forall u :: u in us ==> u.id in g.types && Tagged(g, tags, u)
    ensures cs == Forms(g, tags, us)
  {
    forall u | u in us
      ensures u.id in g.types && Tagged(g, tags, u)
    {
      var i :| 0 <= i < |us| && us[i] == u;
    }
  }

  /** It does not disturb the others. */
  lemma OthersEmitted(g: Types, tags: map<nat, nat>, texts: seq<Typedef>, d: Typedef, s: nat)
    requires Acyclic(g) && s in g.types && g.types[s].CFunc? && s in tags && Emitted(g, tags, texts, s)
    requires d.tag != tags[s]
    ensures Emitted(g, tags, texts + [d], s)
  {
    PrefixTags(texts, texts + [d]);
  }

  /** The typedef of t is complete. */
  lemma Finish(g: Types, tags: map<nat, nat>, texts: seq<Typedef>, ffiSeq: nat, open: set<nat>, t: nat, ret: CType,
          params: seq<CType>)
    requires t in g.types && g.types[t].CFunc? && t in tags && t !in open && TableOk(g, tags, texts, ffiSeq, open + {t})
    requires g.types[t].ret.id in g.types && Tagged(g, tags, g.types[t].ret) && ret == Form(g, tags, g.types[t].ret)
    requires Mentions(ret) <= TagsOf(texts) && ParamsDone(g, tags, texts, g.types[t].params, params)
    requires Supported(g, TypeUse(false, t))
    ensures TableOk(g, tags, texts + [Typedef(tags[t], ret, params, g.types[t].variadic)], ffiSeq, open)
    ensures tags[t] in TagsOf(texts + [Typedef(tags[t], ret, params, g.types[t].variadic)])
  {
    hide Form;
    hide Tagged;
    hide Emitted;
    var d := Typedef(tags[t], ret, params, g.types[t].variadic);
    assert t in open + {t};
    MoreTags(texts, d);
    FinishedOne(g, tags, texts, t, ret, params);
    forall s | s in tags && s !in open
      ensures Emitted(g, tags, texts + [d], s) && Supported(g, TypeUse(false, s))
    {
      if s != t {
        OthersEmitted(g, tags, texts, d, s);
      }
    }
  }

  /** The part of the lowering context that the boundary types grow. */
  class FfiUnit {
    const g: Types
    var tags: map<nat, nat>      // function types met, with the number in their tag
    var texts: seq<Typedef>      // emitted typedefs
    var ffiSeq: nat

    constructor (g: Types)
      requires Acyclic(g)
      ensures Valid({}) && this.g == g && texts == []
    {
      this.g := g;
      tags, texts, ffiSeq := map[], [], 0;
    }

    ghost predicate Valid(open: set<nat>)
      reads this
    {
      Acyclic(g) && TableOk(g, tags, texts, ffiSeq, open)
    }

    /** The C text of a use of a type; the typedefs it needs are emitted. */
    method FfiCType(u: TypeUse, ghost open: set<nat>) returns (ok: bool, c: CType)
      requires Valid(open) && u.id in g.types && forall t :: t in open ==> t in g.types && g.rank[u.id] < g.rank[t]
      modifies this
      ensures ok ==> Valid(open) && Tagged(g, tags, u) && c == Form(g, tags, u) && Mentions(c) <= TagsOf(texts)
      ensures ok ==> Kept(old(tags), tags) && old(texts) <= texts
      ensures ok ==> forall t :: t in open ==> (t in tags <==> t in old(tags))
      ensures ok <==> Supported(g, u)
      decreases g.rank[u.id], 3
    {
      SupportedUses(g, u.id);
      ok, c := FfiCTypeCore(u.id, open);
      QualifiedForm(g, tags, u);
      c := WithConst(u.isConst, c);
    }

    /** The same without the qualifiers of this use. */
    method FfiCTypeCore(id: nat, ghost open: set<nat>) returns (ok: bool, c: CType)
      requires Valid(open) && id in g.types && forall t :: t in open ==> t in g.types && g.rank[id] < g.rank[t]
      modifies this
      ensures ok ==> Valid(open) && Tagged(g, tags, TypeUse(false, id)) && c == Form(g, tags, TypeUse(false, id))
      ensures ok ==> Mentions(c) <= TagsOf(texts)
      ensures ok ==> Kept(old(tags), tags) && old(texts) <= texts
      ensures ok ==> forall t :: t in open ==> (t in tags <==> t in old(tags))
      ensures ok <==> Supported(g, TypeUse(false, id))
      decreases g.rank[id], 2
    {
      SupportedUses(g, id);
      var t := g.types[id];
      match t
      case Void => return true, CVoid;
      case Basic(name) => return true, CBase(name);
      case Str => return true, STR;
      case Opaque => return true, CPtrTo(CVoid);
      case Pointer(b) =>
        assert b in Uses(t);
        ok, c := FfiCType(b, open);
        c := PointerTo(c);
      case Aggregate(name, hasStr) => return !hasStr, CBase(name);
      case Enum(b) =>
        assert b in Uses(t);
        ok, c := FfiCType(b, open);
      case CFunc(_, _, _) =>
        var n;
        ok, n := CfuncTypedef(id, open);
        c := CTag(n);
      case Other => return false, CVoid;
    }

    /** The tag of a function type; its typedef is emitted behind those of the
        function types in its parameters and result. */
    method CfuncTypedef(t: nat, ghost open: set<nat>) returns (ok: bool, tag: nat)
      requires Valid(open) && t in g.types && g.types[t].CFunc? && t !in open
      requires forall o :: o in open ==> o in g.types && g.rank[t] < g.rank[o]
      modifies this
      ensures ok ==> Valid(open) && t in tags && tag == tags[t] && tag in TagsOf(texts)
      ensures ok ==> Kept(old(tags), tags) && old(texts) <= texts
      ensures ok ==> forall o :: o in open ==> (o in tags <==> o in old(tags))
      ensures ok <==> Supported(g, TypeUse(false, t))
      decreases g.rank[t], 1
    {
      hide Form;
      hide Tagged;
      hide TableOk;
      hide ParamsDone;
      hide Mentions;
      SupportedFunction(g, t);
      if t in tags {
        SupportedAlready(g, tags, texts, ffiSeq, open, t);
        KnownTag(g, tags, texts, ffiSeq, open, t);
        ok, tag := true, tags[t];
        return;
      }
      tag := ffiSeq;
      ffiSeq := ffiSeq + 1;
      OpenOne(g, tags, texts, ffiSeq - 1, open, t);
      tags := tags[t := tag];
      var f := g.types[t];
      ghost var open' := open + {t};
      assert f.ret in Uses(f);
      var ret;
      ok, ret := FfiCType(f.ret, open');
      if !ok {
        return;
      }
      ghost var tags1, texts1 := tags, texts;
      var params;
      ok, params := FfiParams(t, open');
      if !ok || (f.params == [] && f.variadic) {
        ok := false;
        return;
      }
      FormStable(g, tags1, tags, f.ret);
      PrefixTags(texts1, texts);
      assert Mentions(ret) <= TagsOf(texts);
      Finish(g, tags, texts, ffiSeq, open, t, ret, params);
      texts := texts + [Typedef(tag, ret, params, f.variadic)];
    }

    method FfiParams(t: nat, ghost open: set<nat>) returns (ok: bool, params: seq<CType>)
      requires Valid(open) && t in g.types && g.types[t].CFunc?
      requires forall o :: o in open ==> o in g.types && g.rank[t] <= g.rank[o]
      modifies this
      ensures ok ==> Valid(open) && ParamsDone(g, tags, texts, g.types[t].params, params)
      ensures ok ==> Kept(old(tags), tags) && old(texts) <= texts
      ensures ok ==> forall o :: o in open ==> (o in tags <==> o in old(tags))
      ensures ok <==> AllSupported(g, g.types[t].params, |g.types[t].params|)
      decreases g.rank[t], 0
    {
      hide Form;
      hide Tagged;
      hide TableOk;
      hide Mentions;
      hide Supported;
      var us := g.types[t].params;
      ok, params := true, [];
      while |params| < |us|
        invariant |params| <= |us| && ok && Valid(open) && ParamsDone(g, tags, texts, us[..|params|], params)
        invariant AllSupported(g, us, |params|)
        invariant Kept(old(tags), tags) && old(texts) <= texts
        invariant forall o :: o in open ==> (o in tags <==> o in old(tags))
        decreases |us| - |params|
      {
        var i := |params|;
        ghost var tags0, texts0 := tags, texts;
        assert us[i] in Uses(g.types[t]);
        var c;
        ok, c := FfiCType(us[i], open);
        if !ok {
          return;
        }
        ParamsStay(g, tags0, tags, texts0, texts, us[..i], params);
        params := params + [c];
      }
      assert us[..|params|] == us;
    }
  }
}
