/** The C text of boundary types, read back: what stands in front of a type, what it
    is made of and how many `*` follow can be said from the type alone. */
module FfiText {
  import opened Lists
  import opened Naming
  import opened FfiTypedefs

  /* ---------------------------------- the text --------------------------------- */

  function TagText(prefix: string, n: nat): string { prefix + "cfn_" + Dec(n) }

  function Text(prefix: string, c: CType): string {
    match c
    case CVoid => "void"
    case CBase(name) => name
    case CTag(n) => TagText(prefix, n)
    case CPtrTo(b) => Text(prefix, b) + " *"
    case CConst(b) => "const " + Text(prefix, b)
  }

  /* -------------------------------- read from the type ------------------------- */

  datatype Base = Nothing | Named(name: string) | Function(id: nat)

  /** What the pointers and enums of a use lead to in the end. */
  function Bottom(g: Types, u: TypeUse): Base
    requires Acyclic(g) && u.id in g.types
    decreases g.rank[u.id]
  {
    match g.types[u.id]
    case Basic(name) => Named(name)
    case Str => Named("char")
    case Aggregate(name, _) => Named(name)
    case CFunc(_, _, _) => Function(u.id)
    case Pointer(b) => assert b in Uses(g.types[u.id]); Bottom(g, b)
    case Enum(b) => assert b in Uses(g.types[u.id]); Bottom(g, b)
    case _ => Nothing
  }

  /** How many pointers are passed on the way; a string and an opaque pointer are one
      themselves. */
  function Depth(g: Types, u: TypeUse): nat
    requires Acyclic(g) && u.id in g.types
    decreases g.rank[u.id]
  {
    match g.types[u.id]
    case Str => 1
    case Opaque => 1
    case Pointer(b) => assert b in Uses(g.types[u.id]); 1 + Depth(g, b)
    case Enum(b) => assert b in Uses(g.types[u.id]); Depth(g, b)
    case _ => 0
  }

  /** `const` stands somewhere on the way, other than on a plain void; the characters
      of a string are const. */
  predicate SomeConst(g: Types, u: TypeUse)
    requires Acyclic(g) && u.id in g.types
    decreases g.rank[u.id]
  {
    || (u.isConst && !(Bottom(g, u).Nothing? && Depth(g, u) == 0))
    || match g.types[u.id]
       case Str => true
       case Pointer(b) => assert b in Uses(g.types[u.id]); SomeConst(g, b)
       case Enum(b) => assert b in Uses(g.types[u.id]); SomeConst(g, b)
       case _ => false
  }

  /** Pointers to void do not add up. */
  function StarCount(g: Types, u: TypeUse): nat
    requires Acyclic(g) && u.id in g.types
  {
    if Bottom(g, u).Nothing? && Depth(g, u) > 1 then 1 else Depth(g, u)
  }

  function Stars(n: nat): string { if n == 0 then "" else Stars(n - 1) + " *" }

  function BaseText(prefix: string, tags: map<nat, nat>, b: Base): string {
    match b
    case Nothing => "void"
    case Named(name) => name
    case Function(id) => if id in tags then TagText(prefix, tags[id]) else "void"
  }

  /** At most one `const`, then the base, then the stars. */
  function Spelled(prefix: string, tags: map<nat, nat>, g: Types, u: TypeUse): string
    requires Acyclic(g) && u.id in g.types
  {
    (if SomeConst(g, u) then "const " else "") + BaseText(prefix, tags, Bottom(g, u)) + Stars(StarCount(g, u))
  }

  /* --------------------------- the answers read like that ---------------------- */

  /** How the text of the answer is built up. */
  ghost predicate Reads(prefix: string, c: CType, isConst: bool, base: string, isVoid: bool, stars: nat) {
    && Text(prefix, c) == (if isConst then "const " else "") + base + Stars(stars)
    && (StartsConst(c) <==> isConst)
    && (c == CVoid <==> isVoid && stars == 0)
    && (c == CPtrTo(CVoid) || c == CConst(CPtrTo(CVoid)) <==> isVoid && stars == 1)
    && (isVoid ==> stars <= 1 && base == "void")
  }

  lemma StarsMore(n: nat)
    ensures Stars(n + 1) == Stars(n) + " *"
  {
  }

  lemma ReadsPointer(prefix: string, c: CType, isConst: bool, base: string, isVoid: bool, stars: nat)
    requires Reads(prefix, c, isConst, base, isVoid, stars)
    ensures Reads(prefix, PointerTo(c), isConst, base, isVoid, if isVoid && stars == 1 then 1 else stars + 1)
  {
    if !(isVoid && stars == 1) {
      StarsMore(stars);
      assert Text(prefix, CPtrTo(c)) == Text(prefix, c) + " *";
      var front := (if isConst then "const " else "") + base;
      assert (front + Stars(stars)) + " *" == front + (Stars(stars) + " *");
    }
  }

  lemma ReadsConst(prefix: string, c: CType, isConst: bool, base: string, isVoid: bool, stars: nat, more: bool)
    requires Reads(prefix, c, isConst, base, isVoid, stars)
    ensures Reads(prefix, WithConst(more, c), isConst || (more && !(isVoid && stars == 0)), base, isVoid, stars)
  {
    if more && !(isVoid && stars == 0) && !isConst {
      assert Text(prefix, CConst(c)) == "const " + Text(prefix, c);
      assert Text(prefix, c) == "" + base + Stars(stars);
      assert "const " + ("" + base + Stars(stars)) == "const " + base + Stars(stars);
    }
  }

  lemma {:induction false} FormReads(prefix: string, g: Types, tags: map<nat, nat>, u: TypeUse)
    requires Acyclic(g) && u.id in g.types && Tagged(g, tags, u) && !EndsInOther(g, u)
    ensures Reads(prefix, Form(g, tags, u), SomeConst(g, u), BaseText(prefix, tags, Bottom(g, u)),
                  Bottom(g, u).Nothing?, StarCount(g, u))
    decreases g.rank[u.id]
  {
    hide Reads;
    hide PointerTo;
    var t := g.types[u.id];
    var plain := Form(g, tags, TypeUse(false, u.id));
    QualifiedForm(g, tags, u);
    var base, isVoid := BaseText(prefix, tags, Bottom(g, u)), Bottom(g, u).Nothing?;
    match t
    case Pointer(b) =>
      assert b in Uses(t);
      FormReads(prefix, g, tags, b);
      PointerReads(prefix, g, tags, u, b);
    case Enum(b) =>
      assert b in Uses(t);
      FormReads(prefix, g, tags, b);
      ReadsConst(prefix, plain, SomeConst(g, b), base, isVoid, StarCount(g, u), u.isConst);
    case Str => StringReads(prefix, g, tags, u);
    case Opaque => OpaqueReads(prefix, g, tags, u);
    case Other => assert false;
    case _ =>
      PlainReads(prefix, plain, base, isVoid);
      ReadsConst(prefix, plain, false, base, isVoid, 0, u.isConst);
  }

  lemma PointerReads(prefix: string, g: Types, tags: map<nat, nat>, u: TypeUse, b: TypeUse)
    requires Acyclic(g) && u.id in g.types && b.id in g.types && g.types[u.id] == Pointer(b)
    requires Reads(prefix, Form(g, tags, b), SomeConst(g, b), BaseText(prefix, tags, Bottom(g, b)),
                   Bottom(g, b).Nothing?, StarCount(g, b))
    ensures Reads(prefix, Form(g, tags, u), SomeConst(g, u), BaseText(prefix, tags, Bottom(g, u)),
                  Bottom(g, u).Nothing?, StarCount(g, u))
  {
    hide Reads;
    hide PointerTo;
    assert b in Uses(g.types[u.id]);
    var c, base, isVoid := Form(g, tags, b), BaseText(prefix, tags, Bottom(g, b)), Bottom(g, b).Nothing?;
    ReadsPointer(prefix, c, SomeConst(g, b), base, isVoid, StarCount(g, b));
    ReadsConst(prefix, PointerTo(c), SomeConst(g, b), base, isVoid, StarCount(g, u), u.isConst);
  }

  lemma PlainReads(prefix: string, c: CType, base: string, isVoid: bool)
    requires c == CVoid || c.CBase? || c.CTag?
    requires base == Text(prefix, c) && isVoid == (c == CVoid)
    ensures Reads(prefix, c, false, base, isVoid, 0)
  {
  }

  lemma StringReads(prefix: string, g: Types, tags: map<nat, nat>, u: TypeUse)
    requires Acyclic(g) && u.id in g.types && g.types[u.id].Str?
    ensures Reads(prefix, Form(g, tags, u), SomeConst(g, u), BaseText(prefix, tags, Bottom(g, u)),
                  Bottom(g, u).Nothing?, StarCount(g, u))
  {
    assert Stars(1) == Stars(0) + " *";
    assert Text(prefix, STR) == "const " + (Text(prefix, CBase("char")) + " *");
    assert Reads(prefix, STR, true, "char", false, 1);
    ReadsConst(prefix, STR, true, "char", false, 1, u.isConst);
  }

  lemma OpaqueReads(prefix: string, g: Types, tags: map<nat, nat>, u: TypeUse)
    requires Acyclic(g) && u.id in g.types && g.types[u.id].Opaque?
    ensures Reads(prefix, Form(g, tags, u), SomeConst(g, u), BaseText(prefix, tags, Bottom(g, u)),
                  Bottom(g, u).Nothing?, StarCount(g, u))
  {
    assert Stars(1) == Stars(0) + " *";
    assert Text(prefix, CPtrTo(CVoid)) == Text(prefix, CVoid) + " *";
    assert Reads(prefix, CPtrTo(CVoid), false, "void", true, 1);
    ReadsConst(prefix, CPtrTo(CVoid), false, "void", true, 1, u.isConst);
  }

  /** A type without a C form stands at the end. */
  predicate EndsInOther(g: Types, u: TypeUse)
    requires Acyclic(g) && u.id in g.types
    decreases g.rank[u.id]
  {
    match g.types[u.id]
    case Pointer(b) => assert b in Uses(g.types[u.id]); EndsInOther(g, b)
    case Enum(b) => assert b in Uses(g.types[u.id]); EndsInOther(g, b)
    case Other => true
    case _ => false
  }

  lemma {:induction false} SupportedEnds(g: Types, u: TypeUse)
    requires Acyclic(g) && u.id in g.types && Supported(g, u)
    ensures !EndsInOther(g, u)
    decreases g.rank[u.id]
  {
    match g.types[u.id]
    case Pointer(b) =>
      assert b in Uses(g.types[u.id]);
      SupportedEnds(g, b);
    case Enum(b) =>
      assert b in Uses(g.types[u.id]);
      SupportedEnds(g, b);
    case _ =>
  }

  /** The text of a use that has one, as it can be read off the type. */
  lemma AnswerText(prefix: string, g: Types, tags: map<nat, nat>, u: TypeUse)
    requires Acyclic(g) && u.id in g.types && Tagged(g, tags, u) && Supported(g, u)
    ensures Text(prefix, Form(g, tags, u)) == Spelled(prefix, tags, g, u)
  {
    SupportedEnds(g, u);
    FormReads(prefix, g, tags, u);
  }

  /** So a const pointer and a pointer to something const are the same text. */
  lemma ConstsMerge(prefix: string, g: Types, tags: map<nat, nat>, p: TypeUse, q: TypeUse, b: nat)
    requires Acyclic(g) && p.id in g.types && q.id in g.types && b in g.types
    requires g.types[p.id] == Pointer(TypeUse(false, b)) && g.types[q.id] == Pointer(TypeUse(true, b))
    requires Tagged(g, tags, p) && Supported(g, p) && !g.types[b].Void? && p.isConst && !q.isConst
    requires Bottom(g, TypeUse(false, b)) != Nothing || Depth(g, TypeUse(false, b)) > 0
    ensures Text(prefix, Form(g, tags, p)) == Text(prefix, Form(g, tags, q))
  {
    var plain, hard := TypeUse(false, b), TypeUse(true, b);
    assert Uses(g.types[p.id]) == [plain] && Uses(g.types[q.id]) == [hard];
    assert plain in Uses(g.types[p.id]) && hard in Uses(g.types[q.id]);
    SupportedUses(g, b);
    assert Supported(g, plain) && Tagged(g, tags, plain);
    QualifiedForm(g, tags, hard);
    assert Supported(g, q) && Tagged(g, tags, q);
    AnswerText(prefix, g, tags, p);
    AnswerText(prefix, g, tags, q);
    assert Bottom(g, plain) == Bottom(g, hard) && Depth(g, plain) == Depth(g, hard);
    assert Bottom(g, p) == Bottom(g, plain) && Depth(g, p) == 1 + Depth(g, plain);
    assert Bottom(g, q) == Bottom(g, hard) && Depth(g, q) == 1 + Depth(g, hard);
    assert SomeConst(g, p);
    assert SomeConst(g, hard);
    assert SomeConst(g, q);
  }

  /* ---------------------------------- typedefs --------------------------------- */

  function Listed(params: seq<string>): string {
    if params == [] then ""
    else if |params| == 1 then params[0]
    else Listed(params[..|params| - 1]) + ", " + params[|params| - 1]
  }

  /** The emitted line. */
  function Line(tag: string, ret: string, params: seq<string>, variadic: bool): string {
    "typedef " + ret + " (*" + tag + ")(" +
    (if params == [] then "void" else Listed(params) + if variadic then ", ..." else "") + ");"
  }

  /** The line written out, for any number of parameters. */
  lemma Lines(tag: string, ret: string, params: seq<string>, p: string, variadic: bool)
    ensures Line(tag, ret, [], variadic) == "typedef " + ret + " (*" + tag + ")(void);"
    ensures Line(tag, ret, params + [p], false) ==
            "typedef " + ret + " (*" + tag + ")(" + Listed(params + [p]) + ");"
    ensures Line(tag, ret, params + [p], true) ==
            "typedef " + ret + " (*" + tag + ")(" + Listed(params + [p]) + ", ...);"
    ensures Listed(params + [p]) == if params == [] then p else Listed(params) + ", " + p
  {
    assert (params + [p])[..|params|] == params;
    var front, all := "typedef " + ret + " (*" + tag + ")(", Listed(params + [p]);
    assert front + (all + ", ...") + ");" == front + all + ", ...);";
    assert front + (all + "") + ");" == front + all + ");";
    assert front + "void" + ");" == front + "void);";
    assert "typedef " + ret + " (*" + tag + ")(void);" == front + "void);";
  }

  function TypedefText(prefix: string, d: Typedef): string {
    Line(TagText(prefix, d.tag), Text(prefix, d.ret),
         seq(|d.params|, i requires 0 <= i < |d.params| => Text(prefix, d.params[i])), d.variadic)
  }

  /** The line that the typedef of a function type must be. */
  function SpelledTypedef(prefix: string, g: Types, tags: map<nat, nat>, t: nat): string
    requires Acyclic(g) && t in g.types && g.types[t].CFunc? && t in tags
  {
    var f := g.types[t];
    assert f.ret in Uses(f) && forall u :: u in f.params ==> u in Uses(f);
    Line(TagText(prefix, tags[t]), Spelled(prefix, tags, g, f.ret),
         seq(|f.params|, i requires 0 <= i < |f.params| => Spelled(prefix, tags, g, f.params[i])), f.variadic)
  }

  /** Every finished function type has its line among the typedefs, and what its
      result and parameters lead to, if function types, is defined by a line before. */
  lemma TypedefLines(prefix: string, g: Types, tags: map<nat, nat>, texts: seq<Typedef>, ffiSeq: nat, t: nat)
    requires TableOk(g, tags, texts, ffiSeq, {}) && t in tags
    ensures exists i :: 0 <= i < |texts| && IsLineOf(prefix, g, tags, texts, i, t)
  {
    hide Form;
    hide Bottom;
    hide Supported;
    hide InOrder;
    hide TypedefText;
    hide SpelledTypedef;
    hide DefinedBefore;
    var i := LineAt(g, tags, texts, ffiSeq, t);
    LineText(prefix, g, tags, texts, ffiSeq, i, t);
    forall u | u in Uses(g.types[t])
      ensures u.id in g.types && UseReady(g, tags, texts, i, u)
    {
      if Bottom(g, u).Function? {
        UseDefined(g, tags, texts, ffiSeq, i, t, u, Bottom(g, u).id);
      }
    }
    assert IsLineOf(prefix, g, tags, texts, i, t);
  }

  lemma LineAt(g: Types, tags: map<nat, nat>, texts: seq<Typedef>, ffiSeq: nat, t: nat) returns (i: nat)
    requires TableOk(g, tags, texts, ffiSeq, {}) && t in tags
    ensures i < |texts| && texts[i].tag == tags[t] && t in g.types && g.types[t].CFunc?
  {
    hide Form;
    hide Supported;
    assert Emitted(g, tags, texts, t);
    var d :| d in texts && d.tag == tags[t];
    i :| 0 <= i < |texts| && texts[i] == d;
  }

  /** A function type that this use leads to is defined before line i. */
  predicate UseReady(g: Types, tags: map<nat, nat>, texts: seq<Typedef>, i: nat, u: TypeUse)
    requires Acyclic(g) && u.id in g.types && i <= |texts|
  {
    Bottom(g, u).Function? ==> DefinedBefore(tags, texts, i, Bottom(g, u).id)
  }

  predicate DefinedBefore(tags: map<nat, nat>, texts: seq<Typedef>, i: nat, k: nat)
    requires i <= |texts|
  {
    k in tags && exists j :: 0 <= j < i && texts[j].tag == tags[k]
  }

  ghost predicate IsLineOf(prefix: string, g: Types, tags: map<nat, nat>, texts: seq<Typedef>, i: nat, t: nat)
    requires Acyclic(g) && i < |texts|
  {
    && t in g.types && g.types[t].CFunc? && t in tags
    && TypedefText(prefix, texts[i]) == SpelledTypedef(prefix, g, tags, t)
    && forall u :: u in Uses(g.types[t]) ==> u.id in g.types && UseReady(g, tags, texts, i, u)
  }

  /** The typedef with the tag of t, and what it mentions. */
  lemma TypedefAt(g: Types, tags: map<nat, nat>, texts: seq<Typedef>, ffiSeq: nat, i: nat, t: nat)
    requires TableOk(g, tags, texts, ffiSeq, {}) && t in tags && i < |texts| && texts[i].tag == tags[t]
    ensures t in g.types && g.types[t].CFunc?
    ensures var f := g.types[t];
            && (forall u :: u in Uses(f) ==> u.id in g.types && Tagged(g, tags, u) && Supported(g, u))
            && f.ret in Uses(f) && (forall u :: u in f.params ==> u in Uses(f))
            && texts[i] == Typedef(tags[t], Form(g, tags, f.ret), Forms(g, tags, f.params), f.variadic)
            && MentionsOnly(texts[i], TagsOf(texts[..i]))
  {
    hide Form;
    hide Mentions;
    assert Emitted(g, tags, texts, t) && Supported(g, TypeUse(false, t));
    var f := g.types[t];
    assert f.ret in Uses(f) && forall u :: u in f.params ==> u in Uses(f);
    assert texts[i] in texts;
  }

  lemma LineText(prefix: string, g: Types, tags: map<nat, nat>, texts: seq<Typedef>, ffiSeq: nat, i: nat, t: nat)
    requires TableOk(g, tags, texts, ffiSeq, {}) && t in tags && i < |texts| && texts[i].tag == tags[t]
    ensures TypedefText(prefix, texts[i]) == SpelledTypedef(prefix, g, tags, t)
  {
    hide Line;
    hide Text;
    hide Spelled;
    hide Form;
    hide Supported;
    hide InOrder;
    hide Emitted;
    hide Tagged;
    var f, d := g.types[t], texts[i];
    TypedefAt(g, tags, texts, ffiSeq, i, t);
    AnswerText(prefix, g, tags, f.ret);
    var a := seq(|d.params|, i requires 0 <= i < |d.params| => Text(prefix, d.params[i]));
    var b := seq(|f.params|, i requires 0 <= i < |f.params| => Spelled(prefix, tags, g, f.params[i]));
    forall k | 0 <= k < |f.params|
      ensures a[k] == b[k]
    {
      AnswerText(prefix, g, tags, f.params[k]);
    }
    assert a == b;
  }

  lemma {:induction false} MentionsBottom(g: Types, tags: map<nat, nat>, u: TypeUse, k: nat)
    requires Acyclic(g) && u.id in g.types && Tagged(g, tags, u) && Bottom(g, u) == Function(k)
    ensures k in tags && tags[k] in Mentions(Form(g, tags, u))
    decreases g.rank[u.id]
  {
    match g.types[u.id]
    case Pointer(b) =>
      assert b in Uses(g.types[u.id]);
      MentionsBottom(g, tags, b, k);
    case Enum(b) =>
      assert b in Uses(g.types[u.id]);
      MentionsBottom(g, tags, b, k);
    case _ =>
  }

  lemma UseDefined(g: Types, tags: map<nat, nat>, texts: seq<Typedef>, ffiSeq: nat, i: nat, t: nat, u: TypeUse, k: nat)
    requires TableOk(g, tags, texts, ffiSeq, {}) && t in tags && i < |texts| && texts[i].tag == tags[t]
    requires t in g.types && u in Uses(g.types[t]) && u.id in g.types && Bottom(g, u) == Function(k)
    ensures DefinedBefore(tags, texts, i, k)
  {
    hide Form;
    hide Supported;
    hide Mentions;
    hide InOrder;
    hide Emitted;
    hide Tagged;
    hide Bottom;
    var f, d := g.types[t], texts[i];
    TypedefAt(g, tags, texts, ffiSeq, i, t);
    MentionsBottom(g, tags, u, k);
    if u != f.ret {
      var j :| 0 <= j < |f.params| && f.params[j] == u;
      assert d.params[j] == Form(g, tags, u);
    }
    TagBefore(texts, i, tags[k]);
  }

  lemma TagBefore(texts: seq<Typedef>, i: nat, n: nat)
    requires i <= |texts| && n in TagsOf(texts[..i])
    ensures exists j :: 0 <= j < i && texts[j].tag == n
  {
    var e :| e in texts[..i] && e.tag == n;
    var j :| 0 <= j < i && texts[j] == e;
  }

  /* ---------------------------------- refusals --------------------------------- */

  /** An aggregate with a string in it stands at the end. */
  predicate EndsInText(g: Types, u: TypeUse)
    requires Acyclic(g) && u.id in g.types
    decreases g.rank[u.id]
  {
    match g.types[u.id]
    case Pointer(b) => assert b in Uses(g.types[u.id]); EndsInText(g, b)
    case Enum(b) => assert b in Uses(g.types[u.id]); EndsInText(g, b)
    case Aggregate(_, hasStr) => hasStr
    case _ => false
  }

  /** What is refused, function types aside: an aggregate with a string, whether it is
      passed itself or through pointers, and a type without a C form. */
  lemma {:induction false} RefusedExactly(g: Types, u: TypeUse)
    requires Acyclic(g) && u.id in g.types && !Bottom(g, u).Function?
    ensures Supported(g, u) <==> !EndsInText(g, u) && !EndsInOther(g, u)
    decreases g.rank[u.id]
  {
    match g.types[u.id]
    case Pointer(b) =>
      assert Uses(g.types[u.id]) == [b] && b in Uses(g.types[u.id]);
      RefusedExactly(g, b);
    case Enum(b) =>
      assert Uses(g.types[u.id]) == [b] && b in Uses(g.types[u.id]);
      RefusedExactly(g, b);
    case _ =>
  }
}
