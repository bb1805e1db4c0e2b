/** Registration of equality helpers: which types need one, and in which order the
    helpers are emitted. */
module EqHelpers {

  /** A C type; the types of fields and elements are given by their ids. */
  datatype CType =
    | StructT(bitfield: bool, fields: seq<nat>)
    | UnionT(tags: seq<nat>, fields: seq<nat>)  // the members with a payload
    | ArrayT(elem: nat, len: nat)
    | OptionT(elem: nat)
    | StrT
    | Leaf  // scalars, pointers, slices, functions: compared by bytes

  datatype Types = Types(types: map<nat, CType>, rank: map<nat, nat>)

  /** The types contained by value, in order, if equality goes member by member. */
  function Parts(c: CType): seq<nat> {
    match c
    case StructT(bitfield, fields) => if bitfield then [] else fields
    case UnionT(_, fields) => fields
    case ArrayT(e, _) => [e]
    case OptionT(e) => [e]
    case _ => []
  }

  predicate NeedsHelper(g: Types, t: nat) {
    t in g.types && match g.types[t]
                    case StructT(bitfield, _) => !bitfield
                    case UnionT(_, _) => true
                    case ArrayT(_, _) => true
                    case OptionT(_) => true
                    case _ => false
  }

  /** No type contains itself by value, and the tags of a union are its own. */
  predicate Acyclic(g: Types) {
    && g.rank.Keys == g.types.Keys
    && (forall t :: t in g.types ==> forall i :: 0 <= i < |Parts(g.types[t])| ==>
          Parts(g.types[t])[i] in g.types && g.rank[Parts(g.types[t])[i]] < g.rank[t])
    && forall t :: t in g.types && g.types[t].UnionT? ==> TagsOk(g.types[t])
  }

  predicate TagsOk(c: CType)
    requires c.UnionT?
  {
    && |c.tags| == |c.fields|
    && forall i, k :: 0 <= i < k < |c.tags| ==> c.tags[i] != c.tags[k]
  }

  /* ------------------------------- what is needed ------------------------------ */

  /** The types whose helpers comparing a t needs. */
  function Reach(g: Types, t: nat): set<nat>
    requires Acyclic(g) && t in g.types
    decreases g.rank[t], 0
  {
    if !NeedsHelper(g, t) then {} else {t} + ReachParts(g, t, |Parts(g.types[t])|)
  }

  /** Those that the first n parts of t need. */
  function ReachParts(g: Types, t: nat, n: nat): set<nat>
    requires Acyclic(g) && t in g.types && n <= |Parts(g.types[t])|
    decreases g.rank[t], 0, n
  {
    if n == 0 then {} else ReachParts(g, t, n - 1) + Reach(g, Parts(g.types[t])[n - 1])
  }

  predicate HasStrPart(g: Types, t: nat, n: nat)
    requires t in g.types && n <= |Parts(g.types[t])|
  {
    exists i :: 0 <= i < n && Parts(g.types[t])[i] in g.types && g.types[Parts(g.types[t])[i]].StrT?
  }

  /** A string is compared inside the helper of one of these types. */
  predicate ComparesStr(g: Types, ts: set<nat>) {
    exists t :: t in ts && t in g.types && HasStrPart(g, t, |Parts(g.types[t])|)
  }

  predicate Contains(list: seq<nat>, t: nat, n: nat)
    requires n <= |list|
  {
    exists i :: 0 <= i < n && list[i] == t
  }

  /** Helpers only call helpers emitted before them, and each is emitted once. */
  predicate Emittable(g: Types, list: seq<nat>) {
    && (forall i, k :: 0 <= i < k < |list| ==> list[i] != list[k])
    && (forall i :: 0 <= i < |list| ==> NeedsHelper(g, list[i]))
    && forall i :: 0 <= i < |list| ==> PartsBefore(g, list, i)
  }

  predicate PartsBefore(g: Types, list: seq<nat>, i: nat)
    requires i < |list|
  {
    list[i] in g.types &&
    forall k :: 0 <= k < |Parts(g.types[list[i]])| && NeedsHelper(g, Parts(g.types[list[i]])[k]) ==>
      Contains(list, Parts(g.types[list[i]])[k], i)
  }

  lemma {:induction false} ReachRank(g: Types, t: nat, c: nat)
    requires Acyclic(g) && t in g.types && c in Reach(g, t)
    ensures NeedsHelper(g, c) && g.rank[c] <= g.rank[t]
    ensures c != t ==> g.rank[c] < g.rank[t]
    decreases g.rank[t], 0
  {
    if c != t {
      ReachPartsRank(g, t, |Parts(g.types[t])|, c);
    }
  }

  lemma {:induction false} ReachPartsRank(g: Types, t: nat, n: nat, c: nat)
    requires Acyclic(g) && t in g.types && n <= |Parts(g.types[t])| && c in ReachParts(g, t, n)
    ensures NeedsHelper(g, c) && g.rank[c] < g.rank[t]
    decreases g.rank[t], 0, n
  {
    var d := Parts(g.types[t])[n - 1];
    if c in Reach(g, d) {
      ReachRank(g, d, c);
    } else {
      ReachPartsRank(g, t, n - 1, c);
    }
  }

  /** In an emittable list everything a helper needs, however deep, precedes it. */
  lemma {:induction false} NeedsPrecede(g: Types, list: seq<nat>, i: nat, c: nat)
    requires Acyclic(g) && Emittable(g, list) && i < |list| && list[i] in g.types && c in Reach(g, list[i])
    ensures Contains(list, c, i + 1)
    ensures c != list[i] ==> Contains(list, c, i)
    decreases i, 1
  {
    if c == list[i] {
      assert list[i] == c;
    } else {
      PartsPrecede(g, list, i, |Parts(g.types[list[i]])|, c);
    }
  }

  lemma {:induction false} PartsPrecede(g: Types, list: seq<nat>, i: nat, n: nat, c: nat)
    requires Acyclic(g) && Emittable(g, list) && i < |list| && list[i] in g.types
    requires n <= |Parts(g.types[list[i]])| && c in ReachParts(g, list[i], n)
    ensures Contains(list, c, i)
    decreases i, 0, n
  {
    var d := Parts(g.types[list[i]])[n - 1];
    if c in Reach(g, d) {
      assert PartsBefore(g, list, i) && NeedsHelper(g, d);
      var k :| 0 <= k < i && list[k] == d;
      NeedsPrecede(g, list, k, c);
      var j :| 0 <= j < k + 1 && list[j] == c;
    } else {
      PartsPrecede(g, list, i, n - 1, c);
    }
  }

  ghost function Elements(list: seq<nat>): set<nat> { set t | t in list }

  /** A registered type has everything it needs registered. */
  lemma Registered(g: Types, list: seq<nat>, t: nat)
    requires Acyclic(g) && Emittable(g, list) && t in g.types && t in list
    ensures Reach(g, t) <= Elements(list)
  {
    var i :| 0 <= i < |list| && list[i] == t;
    forall c | c in Reach(g, t)
      ensures c in list
    {
      NeedsPrecede(g, list, i, c);
    }
  }

  lemma EmittableMore(g: Types, list: seq<nat>, t: nat)
    requires Emittable(g, list) && NeedsHelper(g, t) && t !in list
    requires forall k :: 0 <= k < |Parts(g.types[t])| && NeedsHelper(g, Parts(g.types[t])[k]) ==>
               Parts(g.types[t])[k] in list
    ensures Emittable(g, list + [t])
  {
    var list' := list + [t];
    forall i | 0 <= i < |list'|
      ensures PartsBefore(g, list', i)
    {
      forall k | 0 <= k < |Parts(g.types[list'[i]])| && NeedsHelper(g, Parts(g.types[list'[i]])[k])
        ensures Contains(list', Parts(g.types[list'[i]])[k], i)
      {
        var d := Parts(g.types[list'[i]])[k];
        if i < |list| {
          assert PartsBefore(g, list, i);
          var j :| 0 <= j < i && list[j] == d;
          assert list'[j] == d;
        } else {
          var j :| 0 <= j < |list| && list[j] == d;
          assert list'[j] == d;
        }
      }
    }
  }

  lemma ComparesUnion(g: Types, a: set<nat>, b: set<nat>)
    ensures ComparesStr(g, a + b) <==> ComparesStr(g, a) || ComparesStr(g, b)
  {
  }

  /** The part of the compilation unit that registration updates. */
  class EqUnit {
    const g: Types
    var helpers: seq<nat>
    var usesStrCmp: bool

    constructor (g: Types)
      requires Acyclic(g)
      ensures Valid() && this.g == g && helpers == [] && !usesStrCmp
    {
      this.g := g;
      helpers, usesStrCmp := [], false;
    }

    ghost predicate Valid()
      reads this
    {
      Acyclic(g) && Emittable(g, helpers) && (ComparesStr(g, Elements(helpers)) ==> usesStrCmp)
    }

    /** Appended at the end, unless already there. */
    method AddEqHelper(t: nat)
      modifies this`helpers
      ensures helpers == if t in old(helpers) then old(helpers) else old(helpers) + [t]
    {
      var i := 0;
      while i < |helpers|
        invariant 0 <= i <= |helpers| && helpers == old(helpers) && t !in helpers[..i]
      {
        if helpers[i] == t {
          return;
        }
        i := i + 1;
      }
      assert helpers[..i] == helpers;
      helpers := helpers + [t];
    }

    /** After registering t the list holds exactly what it held and what t needs,
        still in an order that can be emitted; the string comparison is requested
        exactly when it was before or one of the types t needs compares a string. */
    method EqRegister(t: nat)
      requires Valid() && t in g.types
      modifies this
      ensures Valid() && old(helpers) <= helpers
      ensures Elements(helpers) == old(Elements(helpers)) + Reach(g, t)
      ensures usesStrCmp <==> old(usesStrCmp) || ComparesStr(g, Reach(g, t))
      decreases g.rank[t]
    {
      hide Reach;
      hide ReachParts;
      hide ComparesStr;
      hide HasStrPart;
      hide Emittable;
      NoParts(g, t);
      if !NeedsHelper(g, t) {
        assert Elements(helpers) == old(Elements(helpers)) + {};
        return;
      }
      var i := 0;
      while i < |helpers|
        invariant 0 <= i <= |helpers| && helpers == old(helpers) && t !in helpers[..i]
      {
        if helpers[i] == t {
          Registered(g, helpers, t);
          ComparesUnion(g, Elements(helpers), Reach(g, t));
          assert Elements(helpers) + Reach(g, t) == Elements(helpers);
          return;
        }
        i := i + 1;
      }
      assert helpers[..i] == helpers;
      var parts := Parts(g.types[t]);
      var k := 0;
      while k < |parts|
        invariant 0 <= k <= |parts| && Acyclic(g) && Emittable(g, helpers) && old(helpers) <= helpers
        invariant Elements(helpers) == old(Elements(helpers)) + ReachParts(g, t, k)
        invariant ComparesStr(g, Elements(helpers)) ==> usesStrCmp
        invariant usesStrCmp <==> old(usesStrCmp) || ComparesStr(g, ReachParts(g, t, k)) || HasStrPart(g, t, k)
      {
        NextPart(g, t, k);
        if g.types[parts[k]].StrT? {
          usesStrCmp := true;
        }
        EqRegister(parts[k]);
        k := k + 1;
      }
      NotBelowItself(g, t);
      assert t !in Elements(helpers);
      AddReached(g, old(helpers), helpers, t);
      AddEqHelper(t);
    }
  }

  lemma NoParts(g: Types, t: nat)
    requires Acyclic(g) && t in g.types
    ensures ReachParts(g, t, 0) == {} && !ComparesStr(g, {}) && !HasStrPart(g, t, 0)
    ensures !NeedsHelper(g, t) ==> Reach(g, t) == {}
  {
  }

  lemma NextPart(g: Types, t: nat, k: nat)
    requires Acyclic(g) && t in g.types && k < |Parts(g.types[t])|
    ensures var d := Parts(g.types[t])[k];
            && ReachParts(g, t, k + 1) == ReachParts(g, t, k) + Reach(g, d)
            && (ComparesStr(g, ReachParts(g, t, k + 1)) <==>
                    ComparesStr(g, ReachParts(g, t, k)) || ComparesStr(g, Reach(g, d)))
            && (HasStrPart(g, t, k + 1) <==> HasStrPart(g, t, k) || g.types[d].StrT?)
  {
    var d := Parts(g.types[t])[k];
    StrParts(g, t, k);
    ComparesUnion(g, ReachParts(g, t, k), Reach(g, d));
  }

  lemma NotBelowItself(g: Types, t: nat)
    requires Acyclic(g) && t in g.types
    ensures t !in ReachParts(g, t, |Parts(g.types[t])|)
  {
    if t in ReachParts(g, t, |Parts(g.types[t])|) {
      ReachPartsRank(g, t, |Parts(g.types[t])|, t);
    }
  }

  lemma StrParts(g: Types, t: nat, k: nat)
    requires t in g.types && k < |Parts(g.types[t])| && Parts(g.types[t])[k] in g.types
    ensures HasStrPart(g, t, k + 1) <==> HasStrPart(g, t, k) || g.types[Parts(g.types[t])[k]].StrT?
  {
  }

  lemma {:induction false} PartReached(g: Types, t: nat, n: nat, k: nat)
    requires Acyclic(g) && t in g.types && k < n <= |Parts(g.types[t])| && NeedsHelper(g, Parts(g.types[t])[k])
    ensures Parts(g.types[t])[k] in ReachParts(g, t, n)
  {
    if k < n - 1 {
      PartReached(g, t, n - 1, k);
    }
  }

  /** All parts are registered; t itself comes last. */
  lemma AddReached(g: Types, before: seq<nat>, list: seq<nat>, t: nat)
    requires Acyclic(g) && Emittable(g, list) && NeedsHelper(g, t) && t !in list
    requires Elements(list) == Elements(before) + ReachParts(g, t, |Parts(g.types[t])|)
    ensures Emittable(g, list + [t])
    ensures Elements(list + [t]) == Elements(before) + Reach(g, t)
    ensures ComparesStr(g, Reach(g, t)) <==>
            ComparesStr(g, ReachParts(g, t, |Parts(g.types[t])|)) || HasStrPart(g, t, |Parts(g.types[t])|)
    ensures ComparesStr(g, Elements(list + [t])) <==>
            ComparesStr(g, Elements(list)) || HasStrPart(g, t, |Parts(g.types[t])|)
  {
    var ps := Parts(g.types[t]);
    forall k | 0 <= k < |ps| && NeedsHelper(g, ps[k])
      ensures ps[k] in list
    {
      PartReached(g, t, |ps|, k);
    }
    EmittableMore(g, list, t);
    assert Elements(list + [t]) == Elements(list) + {t};
    ComparesUnion(g, {t}, ReachParts(g, t, |ps|));
    ComparesUnion(g, Elements(list), {t});
    assert ComparesStr(g, {t}) <==> HasStrPart(g, t, |ps|);
  }
}
