/** What the equality helpers do: the text that is emitted for each, and that a call
    of a registered one finds all it needs and decides equality. */
module EqCode {
  import opened Lists
  import opened EqHelpers

  /* ---------------------------------- values ----------------------------------- */

  /** Values as the language compares them: strings by their contents, options and
      unions by tag and payload, structs and arrays part by part, all else as bytes. */
  datatype Value =
    | Bytes(b: int)
    | Text(s: string)
    | Record(fs: seq<Value>)
    | Items(es: seq<Value>)
    | Maybe(v: Option<Value>)
    | Tagged(tag: nat, payload: Option<Value>)

  predicate HasType(g: Types, t: nat, v: Value)
    decreases v
  {
    t in g.types &&
    match g.types[t]
    case StructT(true, _) => v.Bytes?
    case StructT(false, fs) => v.Record? && |v.fs| == |fs| && forall i :: 0 <= i < |fs| ==> HasType(g, fs[i], v.fs[i])
    case UnionT(tags, fs) =>
      && v.Tagged? && |tags| == |fs|
      && (v.tag !in tags ==> v.payload.None?)
      && (v.tag in tags ==> v.payload.Some?)
      && forall i :: 0 <= i < |tags| && tags[i] == v.tag && v.payload.Some? ==> HasType(g, fs[i], v.payload.value)
    case ArrayT(e, len) => v.Items? && |v.es| == len && forall i :: 0 <= i < |v.es| ==> HasType(g, e, v.es[i])
    case OptionT(e) => v.Maybe? && (v.v.Some? ==> HasType(g, e, v.v.value))
    case StrT => v.Text?
    case Leaf => v.Bytes?
  }

  /* ------------------------------- the emitted code ---------------------------- */

  /** How two values of a type are compared inside a helper. */
  datatype Cmp = CallHelper | StrEq | MemCmp

  function CmpOf(c: CType): Cmp {
    match c
    case StrT => StrEq
    case ArrayT(_, _) => CallHelper
    case OptionT(_) => CallHelper
    case UnionT(_, _) => CallHelper
    case StructT(bitfield, _) => if bitfield then MemCmp else CallHelper
    case Leaf => MemCmp
  }

  /** The helpers in the order of their definitions; strCmp: the string comparison
      is emitted. */
  datatype Code = Code(g: Types, helpers: seq<nat>, strCmp: bool)

  /** Where among the first n the helper of t is defined. */
  function Defined(helpers: seq<nat>, n: nat, t: nat): Option<nat>
    requires n <= |helpers|
  {
    if n == 0 then None else if helpers[n - 1] == t then Some(n - 1) else Defined(helpers, n - 1, t)
  }

  /** One comparison in a helper that sees the first n definitions; none if it calls
      something that is not defined. */
  function RunCmp(u: Code, n: nat, t: nat, a: Value, b: Value): Option<bool>
    requires n <= |u.helpers|
    decreases n, 1, 0
  {
    if t !in u.g.types then None
    else
      match CmpOf(u.g.types[t])
      case StrEq => if u.strCmp then Some(a == b) else None
      case MemCmp => Some(a == b)
      case CallHelper => RunHelper(u, n, t, a, b)
  }

  function RunHelper(u: Code, n: nat, t: nat, a: Value, b: Value): Option<bool>
    requires n <= |u.helpers|
    decreases n, 0, 0
  {
    match Defined(u.helpers, n, t)
    case None => None
    case Some(k) => if t in u.g.types && k < n then RunBody(u, k, u.g.types[t], a, b) else None
  }

  function RunBody(u: Code, n: nat, c: CType, a: Value, b: Value): Option<bool>
    requires n <= |u.helpers|
    decreases n, 3, 0
  {
    match (c, a, b)
    case (StructT(_, fs), Record(xs), Record(ys)) => if |xs| == |ys| == |fs| then RunFields(u, n, fs, xs, ys) else None
    case (ArrayT(e, _), Items(xs), Items(ys)) => if |xs| == |ys| then RunElements(u, n, e, xs, ys) else None
    case (OptionT(e), Maybe(x), Maybe(y)) =>
      if x.Some? != y.Some? then Some(false)
      else if x.None? then Some(true)
      else RunCmp(u, n, e, x.value, y.value)
    case (UnionT(tags, fs), Tagged(j, x), Tagged(k, y)) =>
      if j != k then Some(false)
      else if x.Some? && y.Some? && |tags| == |fs| then RunSwitch(u, n, tags, fs, j, x.value, y.value)
      else Some(true)
    case _ => Some(false)
  }

  /** `c1 && c2 && ...`; without fields true. */
  function RunFields(u: Code, n: nat, fs: seq<nat>, xs: seq<Value>, ys: seq<Value>): Option<bool>
    requires n <= |u.helpers| && |xs| == |ys| == |fs|
    decreases n, 2, |fs|
  {
    if fs == [] then Some(true)
    else
      var r := RunCmp(u, n, fs[0], xs[0], ys[0]);
      if r == Some(true) then RunFields(u, n, fs[1..], xs[1..], ys[1..]) else r
  }

  /** The loop over the elements returns at the first difference. */
  function RunElements(u: Code, n: nat, e: nat, xs: seq<Value>, ys: seq<Value>): Option<bool>
    requires n <= |u.helpers| && |xs| == |ys|
    decreases n, 2, |xs|
  {
    if xs == [] then Some(true)
    else
      var r := RunCmp(u, n, e, xs[0], ys[0]);
      if r == Some(true) then RunElements(u, n, e, xs[1..], ys[1..]) else r
  }

  /** The switch over the tag; a tag without a case is not looked into. */
  function RunSwitch(u: Code, n: nat, tags: seq<nat>, fs: seq<nat>, tag: nat, x: Value, y: Value): Option<bool>
    requires n <= |u.helpers| && |tags| == |fs|
    decreases n, 2, |tags|
  {
    if tags == [] then Some(true)
    else if tags[0] == tag then RunCmp(u, n, fs[0], x, y)
    else RunSwitch(u, n, tags[1..], fs[1..], tag, x, y)
  }

  /* --------------------------------- it decides -------------------------------- */

  /** What a helper compares parts of type f with is defined before position n. */
  predicate Ready(u: Code, n: nat, f: nat)
    requires n <= |u.helpers|
  {
    && f in u.g.types
    && (CmpOf(u.g.types[f]).CallHelper? ==> f in u.helpers[..n])
    && (CmpOf(u.g.types[f]).StrEq? ==> u.strCmp)
  }

  /** Every helper finds all that it calls among those before it: the fields of a
      struct and the members of a union, the element of an array or an option. */
  predicate CallsReady(u: Code) { forall i :: 0 <= i < |u.helpers| ==> BodyReady(u, i) }

  predicate BodyReady(u: Code, i: nat)
    requires i < |u.helpers|
  {
    u.helpers[i] in u.g.types &&
    match u.g.types[u.helpers[i]]
    case StructT(bitfield, fs) => !bitfield && forall k :: 0 <= k < |fs| ==> Ready(u, i, fs[k])
    case UnionT(_, fs) => forall k :: 0 <= k < |fs| ==> Ready(u, i, fs[k])
    case ArrayT(e, _) => Ready(u, i, e)
    case OptionT(e) => Ready(u, i, e)
    case _ => false
  }

  lemma {:induction false} DefinedThere(helpers: seq<nat>, n: nat, t: nat)
    requires n <= |helpers| && t in helpers[..n]
    ensures Defined(helpers, n, t).Some?
    ensures var k := Defined(helpers, n, t).value; k < n && helpers[k] == t
  {
    if helpers[n - 1] != t {
      assert helpers[..n] == helpers[..n - 1] + [helpers[n - 1]];
      DefinedThere(helpers, n - 1, t);
    }
  }

  lemma {:induction false} CmpDecides(u: Code, n: nat, f: nat, a: Value, b: Value)
    requires CallsReady(u) && n <= |u.helpers| && Ready(u, n, f) && HasType(u.g, f, a) && HasType(u.g, f, b)
    ensures RunCmp(u, n, f, a, b) == Some(a == b)
    decreases n, 1, 0
  {
    if CmpOf(u.g.types[f]).CallHelper? {
      HelperDecides(u, n, f, a, b);
    }
  }

  /** A registered helper, called on two values of its type, runs through and says
      whether they are equal. */
  lemma {:induction false} HelperDecides(u: Code, n: nat, t: nat, a: Value, b: Value)
    requires CallsReady(u) && n <= |u.helpers| && t in u.helpers[..n]
    requires HasType(u.g, t, a) && HasType(u.g, t, b)
    ensures RunHelper(u, n, t, a, b) == Some(a == b)
    decreases n, 0, 0
  {
    DefinedThere(u.helpers, n, t);
    var k := Defined(u.helpers, n, t).value;
    assert BodyReady(u, k);
    match u.g.types[t]
    case StructT(_, fs) => FieldsDecide(u, k, fs, a.fs, b.fs);
    case UnionT(tags, fs) =>
      if a.tag == b.tag && a.payload.Some? && b.payload.Some? {
        SwitchDecides(u, k, tags, fs, a.tag, a.payload.value, b.payload.value);
      }
    case ArrayT(e, _) => ElementsDecide(u, k, e, a.es, b.es);
    case OptionT(e) =>
      if a.v.Some? && b.v.Some? {
        CmpDecides(u, k, e, a.v.value, b.v.value);
      }
    case _ =>
  }

  lemma {:induction false} FieldsDecide(u: Code, n: nat, fs: seq<nat>, xs: seq<Value>, ys: seq<Value>)
    requires CallsReady(u) && n <= |u.helpers| && |xs| == |ys| == |fs|
    requires forall i :: 0 <= i < |fs| ==>
      Ready(u, n, fs[i]) && HasType(u.g, fs[i], xs[i]) && HasType(u.g, fs[i], ys[i])
    ensures RunFields(u, n, fs, xs, ys) == Some(xs == ys)
    decreases n, 2, |fs|
  {
    if fs != [] {
      CmpDecides(u, n, fs[0], xs[0], ys[0]);
      FieldsDecide(u, n, fs[1..], xs[1..], ys[1..]);
      assert xs == [xs[0]] + xs[1..] && ys == [ys[0]] + ys[1..];
    }
  }

  lemma {:induction false} ElementsDecide(u: Code, n: nat, e: nat, xs: seq<Value>, ys: seq<Value>)
    requires CallsReady(u) && n <= |u.helpers| && |xs| == |ys| && Ready(u, n, e)
    requires forall i :: 0 <= i < |xs| ==> HasType(u.g, e, xs[i]) && HasType(u.g, e, ys[i])
    ensures RunElements(u, n, e, xs, ys) == Some(xs == ys)
    decreases n, 2, |xs|
  {
    if xs != [] {
      CmpDecides(u, n, e, xs[0], ys[0]);
      ElementsDecide(u, n, e, xs[1..], ys[1..]);
      assert xs == [xs[0]] + xs[1..] && ys == [ys[0]] + ys[1..];
    }
  }

  lemma {:induction false} SwitchDecides(u: Code, n: nat, tags: seq<nat>, fs: seq<nat>, tag: nat, x: Value, y: Value)
    requires CallsReady(u) && n <= |u.helpers| && |tags| == |fs| && tag in tags
    requires forall i :: 0 <= i < |fs| ==> Ready(u, n, fs[i])
    requires forall i :: 0 <= i < |tags| && tags[i] == tag ==> HasType(u.g, fs[i], x) && HasType(u.g, fs[i], y)
    ensures RunSwitch(u, n, tags, fs, tag, x, y) == Some(x == y)
    decreases n, 2, |tags|
  {
    if tags[0] == tag {
      CmpDecides(u, n, fs[0], x, y);
    } else {
      SwitchDecides(u, n, tags[1..], fs[1..], tag, x, y);
    }
  }

  /* ------------------------------- as registered ------------------------------- */

  /** Registration leaves a list whose helpers find all that they call. */
  lemma RegisteredReady(g: Types, helpers: seq<nat>, strCmp: bool)
    requires Acyclic(g) && Emittable(g, helpers) && (ComparesStr(g, Elements(helpers)) ==> strCmp)
    ensures CallsReady(Code(g, helpers, strCmp))
  {
    var u := Code(g, helpers, strCmp);
    forall i | 0 <= i < |helpers|
      ensures BodyReady(u, i)
    {
      assert PartsBefore(g, helpers, i) && NeedsHelper(g, helpers[i]);
      var parts := Parts(g.types[helpers[i]]);
      forall k | 0 <= k < |parts|
        ensures Ready(u, i, parts[k])
      {
        PartReady(u, i, k);
      }
      match g.types[helpers[i]]
      case ArrayT(e, _) => assert parts[0] == e;
      case OptionT(e) => assert parts[0] == e;
      case _ =>
    }
  }

  lemma PartReady(u: Code, i: nat, k: nat)
    requires Acyclic(u.g) && i < |u.helpers| && PartsBefore(u.g, u.helpers, i)
    requires ComparesStr(u.g, Elements(u.helpers)) ==> u.strCmp
    requires k < |Parts(u.g.types[u.helpers[i]])|
    ensures Ready(u, i, Parts(u.g.types[u.helpers[i]])[k])
  {
    var t := u.helpers[i];
    var f := Parts(u.g.types[t])[k];
    if NeedsHelper(u.g, f) {
      var j :| 0 <= j < i && u.helpers[j] == f;
      assert u.helpers[..i][j] == f;
    }
    if u.g.types[f].StrT? {
      assert HasStrPart(u.g, t, |Parts(u.g.types[t])|);
      assert t in Elements(u.helpers);
    }
  }

  /** The helper of a t compares a string itself. */
  predicate ComparesStrIn(g: Types, t: nat) {
    t in g.types &&
    match g.types[t]
    case StructT(bitfield, fs) => !bitfield && exists k :: 0 <= k < |fs| && IsStr(g, fs[k])
    case UnionT(_, fs) => exists k :: 0 <= k < |fs| && IsStr(g, fs[k])
    case ArrayT(e, _) => IsStr(g, e)
    case OptionT(e) => IsStr(g, e)
    case _ => false
  }

  predicate IsStr(g: Types, t: nat) { t in g.types && g.types[t].StrT? }

  /** The string comparison is asked for by the helpers that call it, and no others. */
  lemma StrCmpWanted(g: Types, ts: set<nat>)
    requires forall t :: t in ts ==> NeedsHelper(g, t)
    ensures ComparesStr(g, ts) <==> exists t :: t in ts && ComparesStrIn(g, t)
  {
    forall t | t in ts
      ensures HasStrPart(g, t, |Parts(g.types[t])|) <==> ComparesStrIn(g, t)
    {
      var parts := Parts(g.types[t]);
      match g.types[t]
      case ArrayT(e, _) => assert parts[0] == e;
      case OptionT(e) => assert parts[0] == e;
      case _ =>
    }
  }

  /** In a unit that `==` was lowered for, comparing two values of a type that has
      members, elements or a payload runs through and decides equality. */
  method CompareRegistered(unit: EqUnit, t: nat)
    requires unit.Valid() && t in unit.g.types
    modifies unit
    ensures unit.Valid()
    ensures CmpOf(unit.g.types[t]).CallHelper? ==>
      forall a, b :: HasType(unit.g, t, a) && HasType(unit.g, t, b) ==>
        RunHelper(Code(unit.g, unit.helpers, unit.usesStrCmp), |unit.helpers|, t, a, b) == Some(a == b)
  {
    unit.EqRegister(t);
    if CmpOf(unit.g.types[t]).CallHelper? {
      var u := Code(unit.g, unit.helpers, unit.usesStrCmp);
      RegisteredReady(unit.g, unit.helpers, unit.usesStrCmp);
      assert u.helpers[..|u.helpers|] == u.helpers;
      forall a, b | HasType(unit.g, t, a) && HasType(unit.g, t, b)
        ensures RunHelper(u, |u.helpers|, t, a, b) == Some(a == b)
      {
        HelperDecides(u, |u.helpers|, t, a, b);
      }
    }
  }
}
