/** Two passes over the finished unit: which function objects are needed, and
    whether every call has a target. */
module CallAudit {
  import opened Lists

  /** What a node of an expression tree is, as far as these passes care. */
  datatype Kind = CallTo(name: Option<string>) | FuncObj(name: Option<string>) | Plain

  datatype Expr = Expr(
    kind: Kind,
    lhs: Option<Expr>, rhs: Option<Expr>, high: Option<Expr>,
    args: List<Expr>, inits: List<Expr>,
    setup: List<Stmt>, tail: List<Stmt>)  // statements of a try expression

  datatype Stmt = Stmt(
    expr: Option<Expr>, lhs: Option<Expr>, update: Option<Expr>,
    init: List<Stmt>, body: List<Stmt>, elseBody: List<Stmt>)

  datatype Function = Function(name: string, obj: string, body: List<Stmt>, cleanup: List<Stmt>)

  datatype Unit = Unit(
    functions: seq<Function>,
    globals: seq<Option<Expr>>,  // initialisers
    eqHelpers: seq<string>,      // name tails of the types with an equality helper
    externs: seq<string>)

  /* ------------------------------ what is visited ------------------------------ */

  function VisitOpt(e: Option<Expr>): seq<Kind>
    decreases e
  {
    if e.Some? then Visit(e.value) else []
  }

  /** The nodes of an expression in the order in which both passes look at them. */
  function Visit(e: Expr): seq<Kind>
    decreases e
  {
    [e.kind] + VisitOpt(e.lhs) + VisitOpt(e.rhs) + VisitOpt(e.high) + VisitAll(e.args) + VisitAll(e.inits)
  }

  function VisitAll(es: List<Expr>): seq<Kind>
    decreases es
  {
    match es
    case Nil => []
    case Cons(e, rest) => Visit(e) + VisitAll(rest)
  }

  function VisitStmts(ss: List<Stmt>): seq<Kind>
    decreases ss
  {
    match ss
    case Nil => []
    case Cons(s, rest) =>
      VisitOpt(s.expr) + VisitOpt(s.lhs) + VisitOpt(s.update)
      + VisitStmts(s.init) + VisitStmts(s.body) + VisitStmts(s.elseBody) + VisitStmts(rest)
  }

  function VisitFunctions(fs: seq<Function>, n: nat): seq<Kind>
    requires n <= |fs|
  {
    if n == 0 then [] else VisitFunctions(fs, n - 1) + VisitStmts(fs[n - 1].body) + VisitStmts(fs[n - 1].cleanup)
  }

  function VisitGlobals(gs: seq<Option<Expr>>, n: nat): seq<Kind>
    requires n <= |gs|
  {
    if n == 0 then [] else VisitGlobals(gs, n - 1) + VisitOpt(gs[n - 1])
  }

  function VisitUnit(u: Unit): seq<Kind> {
    VisitFunctions(u.functions, |u.functions|) + VisitGlobals(u.globals, |u.globals|)
  }

  /* --------------------------- what is there in all ---------------------------- */

  function AllOpt(e: Option<Expr>): seq<Kind>
    decreases e
  {
    if e.Some? then AllIn(e.value) else []
  }

  /** Every node, those inside the statements of try expressions too. */
  function AllIn(e: Expr): seq<Kind>
    decreases e
  {
    [e.kind] + AllOpt(e.lhs) + AllOpt(e.rhs) + AllOpt(e.high) + AllArgs(e.args) + AllArgs(e.inits)
    + (AllStmts(e.setup) + AllStmts(e.tail))
  }

  function AllArgs(es: List<Expr>): seq<Kind>
    decreases es
  {
    match es
    case Nil => []
    case Cons(e, rest) => AllIn(e) + AllArgs(rest)
  }

  function AllStmts(ss: List<Stmt>): seq<Kind>
    decreases ss
  {
    match ss
    case Nil => []
    case Cons(s, rest) =>
      AllOpt(s.expr) + AllOpt(s.lhs) + AllOpt(s.update)
      + AllStmts(s.init) + AllStmts(s.body) + AllStmts(s.elseBody) + AllStmts(rest)
  }

  /* ---------------------- what hides in try expressions ------------------------ */

  function HiddenOpt(e: Option<Expr>): seq<Kind>
    decreases e
  {
    if e.Some? then Hidden(e.value) else []
  }

  /** The nodes inside the statements of try expressions, at any depth. */
  function Hidden(e: Expr): seq<Kind>
    decreases e
  {
    HiddenOpt(e.lhs) + HiddenOpt(e.rhs) + HiddenOpt(e.high) + HiddenAll(e.args) + HiddenAll(e.inits)
    + (AllStmts(e.setup) + AllStmts(e.tail))
  }

  function HiddenAll(es: List<Expr>): seq<Kind>
    decreases es
  {
    match es
    case Nil => []
    case Cons(e, rest) => Hidden(e) + HiddenAll(rest)
  }

  function HiddenStmts(ss: List<Stmt>): seq<Kind>
    decreases ss
  {
    match ss
    case Nil => []
    case Cons(s, rest) =>
      HiddenOpt(s.expr) + HiddenOpt(s.lhs) + HiddenOpt(s.update)
      + HiddenStmts(s.init) + HiddenStmts(s.body) + HiddenStmts(s.elseBody) + HiddenStmts(rest)
  }

  function HiddenFunctions(fs: seq<Function>, n: nat): seq<Kind>
    requires n <= |fs|
  {
    if n == 0 then [] else HiddenFunctions(fs, n - 1) + HiddenStmts(fs[n - 1].body) + HiddenStmts(fs[n - 1].cleanup)
  }

  function HiddenGlobals(gs: seq<Option<Expr>>, n: nat): seq<Kind>
    requires n <= |gs|
  {
    if n == 0 then [] else HiddenGlobals(gs, n - 1) + HiddenOpt(gs[n - 1])
  }

  function HiddenUnit(u: Unit): seq<Kind> {
    HiddenFunctions(u.functions, |u.functions|) + HiddenGlobals(u.globals, |u.globals|)
  }

  lemma {:induction false} ExprSeenOrHidden(e: Expr, k: Kind)
    ensures k in AllIn(e) <==> k in Visit(e) || k in Hidden(e)
    decreases e
  {
    OptSeenOrHidden(e.lhs, k);
    OptSeenOrHidden(e.rhs, k);
    OptSeenOrHidden(e.high, k);
    ArgsSeenOrHidden(e.args, k);
    ArgsSeenOrHidden(e.inits, k);
  }

  lemma {:induction false} OptSeenOrHidden(e: Option<Expr>, k: Kind)
    ensures k in AllOpt(e) <==> k in VisitOpt(e) || k in HiddenOpt(e)
    decreases e
  {
    if e.Some? {
      ExprSeenOrHidden(e.value, k);
    }
  }

  lemma {:induction false} ArgsSeenOrHidden(es: List<Expr>, k: Kind)
    ensures k in AllArgs(es) <==> k in VisitAll(es) || k in HiddenAll(es)
    decreases es
  {
    if es.Cons? {
      ExprSeenOrHidden(es.head, k);
      ArgsSeenOrHidden(es.tail, k);
    }
  }

  lemma {:induction false} StmtsSeenOrHidden(ss: List<Stmt>, k: Kind)
    ensures k in AllStmts(ss) <==> k in VisitStmts(ss) || k in HiddenStmts(ss)
    decreases ss
  {
    if ss.Cons? {
      var s := ss.head;
      OptSeenOrHidden(s.expr, k);
      OptSeenOrHidden(s.lhs, k);
      OptSeenOrHidden(s.update, k);
      StmtsSeenOrHidden(s.init, k);
      StmtsSeenOrHidden(s.body, k);
      StmtsSeenOrHidden(s.elseBody, k);
      StmtsSeenOrHidden(ss.tail, k);
    }
  }

  function AllInFunctions(fs: seq<Function>, n: nat): seq<Kind>
    requires n <= |fs|
  {
    if n == 0 then [] else AllInFunctions(fs, n - 1) + AllStmts(fs[n - 1].body) + AllStmts(fs[n - 1].cleanup)
  }

  function AllInGlobals(gs: seq<Option<Expr>>, n: nat): seq<Kind>
    requires n <= |gs|
  {
    if n == 0 then [] else AllInGlobals(gs, n - 1) + AllOpt(gs[n - 1])
  }

  function AllInUnit(u: Unit): seq<Kind> {
    AllInFunctions(u.functions, |u.functions|) + AllInGlobals(u.globals, |u.globals|)
  }

  /** Every node of a unit is either visited by both passes or sits in the statements
      of a try expression (a kind of node may occur in both places). */
  lemma SeenOrHidden(u: Unit, k: Kind)
    ensures k in AllInUnit(u) <==> k in VisitUnit(u) || k in HiddenUnit(u)
  {
    FunctionsSeenOrHidden(u, |u.functions|, k);
    GlobalsSeenOrHidden(u, |u.globals|, k);
  }

  lemma {:induction false} FunctionsSeenOrHidden(u: Unit, n: nat, k: Kind)
    requires n <= |u.functions|
    ensures k in AllInFunctions(u.functions, n) <==>
            k in VisitFunctions(u.functions, n) || k in HiddenFunctions(u.functions, n)
  {
    if n > 0 {
      FunctionsSeenOrHidden(u, n - 1, k);
      StmtsSeenOrHidden(u.functions[n - 1].body, k);
      StmtsSeenOrHidden(u.functions[n - 1].cleanup, k);
    }
  }

  lemma {:induction false} GlobalsSeenOrHidden(u: Unit, n: nat, k: Kind)
    requires n <= |u.globals|
    ensures k in AllInGlobals(u.globals, n) <==>
            k in VisitGlobals(u.globals, n) || k in HiddenGlobals(u.globals, n)
  {
    if n > 0 {
      GlobalsSeenOrHidden(u, n - 1, k);
      OptSeenOrHidden(u.globals[n - 1], k);
    }
  }

  /** What is there in all: the node itself and what is in each of its parts. */
  lemma ExprParts(e: Expr, k: Kind)
    ensures k in AllIn(e) <==>
            || k == e.kind
            || (e.lhs.Some? && k in AllIn(e.lhs.value))
            || (e.rhs.Some? && k in AllIn(e.rhs.value))
            || (e.high.Some? && k in AllIn(e.high.value))
            || k in AllArgs(e.args) || k in AllArgs(e.inits) || k in AllStmts(e.setup) || k in AllStmts(e.tail)
  {
  }

  lemma ListParts(e: Expr, es: List<Expr>, s: Stmt, ss: List<Stmt>, k: Kind)
    ensures k in AllArgs(Cons(e, es)) <==> k in AllIn(e) || k in AllArgs(es)
    ensures k in AllStmts(Cons(s, ss)) <==>
            || (s.expr.Some? && k in AllIn(s.expr.value))
            || (s.lhs.Some? && k in AllIn(s.lhs.value))
            || (s.update.Some? && k in AllIn(s.update.value))
            || k in AllStmts(s.init) || k in AllStmts(s.body) || k in AllStmts(s.elseBody) || k in AllStmts(ss)
  {
  }

  /** And in the unit: the bodies and cleanups of its functions, the initialisers. */
  lemma UnitParts(u: Unit, k: Kind)
    ensures k in AllInUnit(u) <==>
            || (exists i :: 0 <= i < |u.functions| &&
                            (k in AllStmts(u.functions[i].body) || k in AllStmts(u.functions[i].cleanup)))
            || (exists i :: 0 <= i < |u.globals| && u.globals[i].Some? && k in AllIn(u.globals[i].value))
  {
    FunctionParts(u.functions, |u.functions|, k);
    GlobalParts(u.globals, |u.globals|, k);
  }

  lemma {:induction false} FunctionParts(fs: seq<Function>, n: nat, k: Kind)
    requires n <= |fs|
    ensures k in AllInFunctions(fs, n) <==>
            exists i :: 0 <= i < n && (k in AllStmts(fs[i].body) || k in AllStmts(fs[i].cleanup))
  {
    if n > 0 {
      FunctionParts(fs, n - 1, k);
    }
  }

  lemma {:induction false} GlobalParts(gs: seq<Option<Expr>>, n: nat, k: Kind)
    requires n <= |gs|
    ensures k in AllInGlobals(gs, n) <==> exists i :: 0 <= i < n && gs[i].Some? && k in AllIn(gs[i].value)
  {
    if n > 0 {
      GlobalParts(gs, n - 1, k);
    }
  }

  /** A call in the statements of a try expression is there but is not seen. */
  lemma TryHides(k: Kind)
    requires k != Plain
    ensures var inner := Expr(k, None, None, None, Nil, Nil, Nil, Nil);
            var outer := Expr(Plain, None, None, None, Nil, Nil, Single(Stmt(Some(inner), None, None, Nil, Nil, Nil)),
                    Nil);
            k in AllIn(outer) && k !in Visit(outer) && k in Hidden(outer)
  {
    var inner := Expr(k, None, None, None, Nil, Nil, Nil, Nil);
    var ss := Single(Stmt(Some(inner), None, None, Nil, Nil, Nil));
    assert AllIn(inner)[0] == k;
    assert AllOpt(Some(inner))[0] == k;
    assert AllStmts(ss)[0] == k;
  }

  /* ------------------------------- missing targets ----------------------------- */

  const HELPERS := ["clux_bf_get", "clux_bf_set", "clux_bf_load", "clux_bf_store", "clux_bf_mask", "clux_assert",
                    "clux_panic_none", "clux_str_eq", "clux_str_from_c", "clux_slice_at", "clux_slice_range",
                    "clux_union_at", "clux_union_at_lvalue", "clux_index_check", "malloc", "calloc", "realloc",
                    "free", "memcpy", "memset", "memcmp", "strlen", "abort", "printf", "fflush", "strncmp",
                    "clux_panic", "_Exit"]

  /** Something of this name can be called. */
  predicate Known(u: Unit, name: string) {
    || name in HELPERS
    || "clux_bf_make_" <= name
    || ("clux_eq_" <= name && name[8..] in u.eqHelpers)
    || name in u.externs
    || exists i :: 0 <= i < |u.functions| && u.functions[i].name == name
  }

  /** What can be called without being defined in the unit: the helpers of the runtime
      and what it uses of the C library, the makers of bit fields, the registered
      equality helpers, and extern symbols. */
  predicate Callable(u: Unit, name: string) {
    || name == "clux_bf_get" || name == "clux_bf_set" || name == "clux_bf_load" || name == "clux_bf_store"
    || name == "clux_bf_mask" || name == "clux_assert" || name == "clux_panic_none" || name == "clux_str_eq"
    || name == "clux_str_from_c" || name == "clux_slice_at" || name == "clux_slice_range"
    || name == "clux_union_at" || name == "clux_union_at_lvalue" || name == "clux_index_check"
    || name == "malloc" || name == "calloc" || name == "realloc" || name == "free" || name == "memcpy"
    || name == "memset" || name == "memcmp" || name == "strlen" || name == "abort" || name == "printf"
    || name == "fflush" || name == "strncmp" || name == "clux_panic" || name == "_Exit"
    || (|name| >= 13 && name[..13] == "clux_bf_make_")
    || (exists t :: t in u.eqHelpers && name == "clux_eq_" + t)
    || name in u.externs
  }

  /** A name is known exactly if it is callable or a function of the unit. */
  lemma KnownExactly(u: Unit, name: string)
    ensures Known(u, name) <==> Callable(u, name) || exists f :: f in u.functions && f.name == name
  {
    assert "clux_eq_" <= name ==> name == "clux_eq_" + name[8..];
    forall t | t in u.eqHelpers && name == "clux_eq_" + t
      ensures "clux_eq_" <= name && name[8..] == t
    {
    }
  }

  method UnitHasFunction(u: Unit, name: string) returns (r: bool)
    ensures r <==> exists i :: 0 <= i < |u.functions| && u.functions[i].name == name
  {
    for i := 0 to |u.functions|
      invariant forall k :: 0 <= k < i ==> u.functions[k].name != name
    {
      if u.functions[i].name == name {
        return true;
      }
    }
    return false;
  }

  method UnitHasEqHelper(u: Unit, name: string) returns (r: bool)
    ensures r <==> "clux_eq_" <= name && name[8..] in u.eqHelpers
  {
    if !("clux_eq_" <= name) {
      return false;
    }
    for i := 0 to |u.eqHelpers|
      invariant name[8..] !in u.eqHelpers[..i]
    {
      if name[8..] == u.eqHelpers[i] {
        return true;
      }
    }
    assert u.eqHelpers[..|u.eqHelpers|] == u.eqHelpers;
    return false;
  }

  method CallTargetKnown(u: Unit, name: Option<string>) returns (r: bool)
    ensures r <==> (name.Some? ==> Known(u, name.value))
  {
    if name.None? {
      return true;
    }
    for i := 0 to |HELPERS|
      invariant name.value !in HELPERS[..i]
    {
      if HELPERS[i] == name.value {
        return true;
      }
    }
    assert HELPERS[..|HELPERS|] == HELPERS;
    if "clux_bf_make_" <= name.value {
      return true;
    }
    var eq := UnitHasEqHelper(u, name.value);
    if eq || name.value in u.externs {
      return true;
    }
    r := UnitHasFunction(u, name.value);
  }

  predicate Unknown(u: Unit, k: Kind) { k.CallTo? && k.name.Some? && !Known(u, k.name.value) }

  /** The first call that has no target. */
  function FirstUnknown(u: Unit, ks: seq<Kind>): Option<string> {
    if ks == [] then None
    else if Unknown(u, ks[0]) then ks[0].name
    else FirstUnknown(u, ks[1..])
  }

  /** None: every call has a target.  Otherwise the name of a call that occurs and
      has none, and no such call comes before it. */
  lemma {:induction false} FirstUnknownMeaning(u: Unit, ks: seq<Kind>)
    ensures FirstUnknown(u, ks).None? <==> forall i :: 0 <= i < |ks| ==> !Unknown(u, ks[i])
    ensures FirstUnknown(u, ks).Some? ==>
              exists i :: 0 <= i < |ks| && Unknown(u, ks[i]) && ks[i].name == FirstUnknown(u, ks)
                && forall k :: 0 <= k < i ==> !Unknown(u, ks[k])
  {
    if ks != [] && !Unknown(u, ks[0]) {
      FirstUnknownMeaning(u, ks[1..]);
      if FirstUnknown(u, ks).Some? {
        var i :| 0 <= i < |ks[1..]| && Unknown(u, ks[1..][i]) && ks[1..][i].name == FirstUnknown(u, ks)
                 && forall k :: 0 <= k < i ==> !Unknown(u, ks[1..][k]);
        assert Unknown(u, ks[i + 1]);
        assert forall k :: 0 < k < i + 1 ==> ks[k] == ks[1..][k - 1];
      } else {
        assert forall k :: 0 < k < |ks| ==> ks[k] == ks[1..][k - 1];
      }
    }
  }

  /** When nothing is reported, every call of the unit has a target exactly if every
      call inside try expressions has one. */
  lemma ReportCovers(u: Unit)
    requires FirstUnknown(u, VisitUnit(u)).None?
    ensures (forall k :: k in AllInUnit(u) ==> !Unknown(u, k)) <==> (forall k :: k in HiddenUnit(u) ==> !Unknown(u, k))
  {
    FirstUnknownMeaning(u, VisitUnit(u));
    forall k: Kind
      ensures k in AllInUnit(u) <==> k in VisitUnit(u) || k in HiddenUnit(u)
    {
      SeenOrHidden(u, k);
    }
    forall k | k in VisitUnit(u)
      ensures !Unknown(u, k)
    {
      var i :| 0 <= i < |VisitUnit(u)| && VisitUnit(u)[i] == k;
    }
  }

  lemma {:induction false} FirstUnknownAppend(u: Unit, a: seq<Kind>, b: seq<Kind>)
    ensures FirstUnknown(u, a + b) == if FirstUnknown(u, a).Some? then FirstUnknown(u, a) else FirstUnknown(u, b)
  {
    if a == [] {
      assert a + b == b;
    } else {
      assert (a + b)[1..] == a[1..] + b;
      FirstUnknownAppend(u, a[1..], b);
    }
  }

  /** One look after the others: the first answer counts. */
  function Else(a: Option<string>, b: Option<string>): Option<string> { if a.Some? then a else b }

  lemma FirstInExpr(u: Unit, e: Expr)
    ensures FirstUnknown(u, Visit(e)) ==
            if Unknown(u, e.kind) then e.kind.name
            else Else(FirstUnknown(u, VisitOpt(e.lhs)),
                    Else(FirstUnknown(u, VisitOpt(e.rhs)), Else(FirstUnknown(u, VisitOpt(e.high)),
                 Else(FirstUnknown(u, VisitAll(e.args)), FirstUnknown(u, VisitAll(e.inits))))))
  {
    var k, l, r, h, a, i := [e.kind], VisitOpt(e.lhs), VisitOpt(e.rhs), VisitOpt(e.high), VisitAll(e.args),
            VisitAll(e.inits);
    FirstUnknownAppend(u, k + l + r + h + a, i);
    FirstUnknownAppend(u, k + l + r + h, a);
    FirstUnknownAppend(u, k + l + r, h);
    FirstUnknownAppend(u, k + l, r);
    FirstUnknownAppend(u, k, l);
    assert k[1..] == [];
  }

  lemma FirstInStmts(u: Unit, s: Stmt, rest: List<Stmt>)
    ensures FirstUnknown(u, VisitStmts(Cons(s, rest))) ==
            Else(FirstUnknown(u, VisitOpt(s.expr)),
                    Else(FirstUnknown(u, VisitOpt(s.lhs)), Else(FirstUnknown(u, VisitOpt(s.update)),
            Else(FirstUnknown(u, VisitStmts(s.init)), Else(FirstUnknown(u, VisitStmts(s.body)),
            Else(FirstUnknown(u, VisitStmts(s.elseBody)), FirstUnknown(u, VisitStmts(rest))))))))
  {
    var a, b, c, d, e, f, g := VisitOpt(s.expr), VisitOpt(s.lhs), VisitOpt(s.update), VisitStmts(s.init),
                               VisitStmts(s.body), VisitStmts(s.elseBody), VisitStmts(rest);
    FirstUnknownAppend(u, a + b + c + d + e + f, g);
    FirstUnknownAppend(u, a + b + c + d + e, f);
    FirstUnknownAppend(u, a + b + c + d, e);
    FirstUnknownAppend(u, a + b + c, d);
    FirstUnknownAppend(u, a + b, c);
    FirstUnknownAppend(u, a, b);
  }

  method MissingCallInOpt(u: Unit, e: Option<Expr>) returns (m: Option<string>)
    ensures m == FirstUnknown(u, VisitOpt(e))
    decreases e
  {
    if e.None? {
      return None;
    }
    m := MissingCallInExpr(u, e.value);
  }

  method MissingCallInExpr(u: Unit, x: Expr) returns (m: Option<string>)
    ensures m == FirstUnknown(u, Visit(x))
    decreases x
  {
    FirstInExpr(u, x);
    if x.kind.CallTo? {
      var known := CallTargetKnown(u, x.kind.name);
      if !known {
        return x.kind.name;
      }
    }
    m := MissingCallInOpt(u, x.lhs);
    if m.Some? { return; }
    m := MissingCallInOpt(u, x.rhs);
    if m.Some? { return; }
    m := MissingCallInOpt(u, x.high);
    if m.Some? { return; }
    m := MissingCallInList(u, x.args);
    if m.Some? { return; }
    m := MissingCallInList(u, x.inits);
  }

  method MissingCallInList(u: Unit, es: List<Expr>) returns (m: Option<string>)
    ensures m == FirstUnknown(u, VisitAll(es))
    decreases es
  {
    var e := es;
    while e.Cons?
      invariant e == es || e < es
      invariant FirstUnknown(u, VisitAll(es)) == FirstUnknown(u, VisitAll(e))
      decreases e
    {
      FirstUnknownAppend(u, Visit(e.head), VisitAll(e.tail));
      m := MissingCallInExpr(u, e.head);
      if m.Some? { return; }
      e := e.tail;
    }
    return None;
  }

  method MissingCallInStmts(u: Unit, ss: List<Stmt>) returns (m: Option<string>)
    ensures m == FirstUnknown(u, VisitStmts(ss))
    decreases ss
  {
    var s := ss;
    while s.Cons?
      invariant s == ss || s < ss
      invariant FirstUnknown(u, VisitStmts(ss)) == FirstUnknown(u, VisitStmts(s))
      decreases s
    {
      FirstInStmts(u, s.head, s.tail);
      m := MissingCallInOpt(u, s.head.expr);
      if m.Some? { return; }
      m := MissingCallInOpt(u, s.head.lhs);
      if m.Some? { return; }
      m := MissingCallInOpt(u, s.head.update);
      if m.Some? { return; }
      m := MissingCallInStmts(u, s.head.init);
      if m.Some? { return; }
      m := MissingCallInStmts(u, s.head.body);
      if m.Some? { return; }
      m := MissingCallInStmts(u, s.head.elseBody);
      if m.Some? { return; }
      s := s.tail;
    }
    return None;
  }

  method MissingInFunctions(u: Unit) returns (m: Option<string>)
    ensures m == FirstUnknown(u, VisitFunctions(u.functions, |u.functions|))
  {
    hide Known;
    hide VisitStmts;
    for i := 0 to |u.functions|
      invariant FirstUnknown(u, VisitFunctions(u.functions, i)).None?
    {
      var f := u.functions[i];
      FirstInFunctions(u, i);
      m := MissingCallInStmts(u, f.body);
      if m.Some? { return; }
      m := MissingCallInStmts(u, f.cleanup);
      if m.Some? { return; }
    }
    return None;
  }

  method MissingInGlobals(u: Unit) returns (m: Option<string>)
    ensures m == FirstUnknown(u, VisitGlobals(u.globals, |u.globals|))
  {
    hide Known;
    hide VisitOpt;
    for i := 0 to |u.globals|
      invariant FirstUnknown(u, VisitGlobals(u.globals, i)).None?
    {
      FirstInGlobals(u, i);
      m := MissingCallInOpt(u, u.globals[i]);
      if m.Some? { return; }
    }
    return None;
  }

  /** Nothing is reported exactly when every visited call has a target; what is
      reported is the first visited call that has none. */
  method FindMissingCall(u: Unit) returns (m: Option<string>)
    ensures m == FirstUnknown(u, VisitUnit(u))
    ensures m.None? <==> forall k :: k in VisitUnit(u) && k.CallTo? && k.name.Some? ==> Known(u, k.name.value)
    ensures m.Some? ==> CallTo(m) in VisitUnit(u) && !Known(u, m.value)
  {
    FirstUnknownMeaning(u, VisitUnit(u));
    FirstUnknownAppend(u, VisitFunctions(u.functions, |u.functions|), VisitGlobals(u.globals, |u.globals|));
    m := MissingInFunctions(u);
    if m.None? {
      m := MissingInGlobals(u);
    }
  }

  /** Function i settles the matter if it holds an unknown call and none before does. */
  lemma FirstInFunctions(u: Unit, i: nat)
    requires i < |u.functions|
    ensures var f := u.functions[i];
            FirstUnknown(u, VisitFunctions(u.functions, i + 1)) ==
            Else(FirstUnknown(u, VisitFunctions(u.functions, i)),
                    Else(FirstUnknown(u, VisitStmts(f.body)), FirstUnknown(u, VisitStmts(f.cleanup))))
    ensures FirstUnknown(u, VisitFunctions(u.functions, i + 1)).Some? ==>
            FirstUnknown(u, VisitFunctions(u.functions, |u.functions|)) ==
                    FirstUnknown(u, VisitFunctions(u.functions, i + 1))
  {
    var f, a := u.functions[i], VisitFunctions(u.functions, i);
    FirstUnknownAppend(u, a + VisitStmts(f.body), VisitStmts(f.cleanup));
    FirstUnknownAppend(u, a, VisitStmts(f.body));
    FunctionsStay(u, i + 1, |u.functions|);
  }

  lemma {:induction false} FunctionsStay(u: Unit, i: nat, n: nat)
    requires i <= n <= |u.functions|
    ensures FirstUnknown(u, VisitFunctions(u.functions, i)).Some? ==>
            FirstUnknown(u, VisitFunctions(u.functions, n)) == FirstUnknown(u, VisitFunctions(u.functions, i))
    decreases n
  {
    if i < n {
      FunctionsStay(u, i, n - 1);
      var f, a := u.functions[n - 1], VisitFunctions(u.functions, n - 1);
      FirstUnknownAppend(u, a + VisitStmts(f.body), VisitStmts(f.cleanup));
      FirstUnknownAppend(u, a, VisitStmts(f.body));
    }
  }

  lemma {:induction false} FirstInGlobals(u: Unit, i: nat)
    requires i < |u.globals|
    ensures FirstUnknown(u, VisitGlobals(u.globals, i + 1)) ==
            Else(FirstUnknown(u, VisitGlobals(u.globals, i)), FirstUnknown(u, VisitOpt(u.globals[i])))
    ensures FirstUnknown(u, VisitGlobals(u.globals, i + 1)).Some? ==>
            FirstUnknown(u, VisitGlobals(u.globals, |u.globals|)) == FirstUnknown(u, VisitGlobals(u.globals, i + 1))
  {
    FirstUnknownAppend(u, VisitGlobals(u.globals, i), VisitOpt(u.globals[i]));
    GlobalsStay(u, i + 1, |u.globals|);
  }

  lemma {:induction false} GlobalsStay(u: Unit, i: nat, n: nat)
    requires i <= n <= |u.globals|
    ensures FirstUnknown(u, VisitGlobals(u.globals, i)).Some? ==>
            FirstUnknown(u, VisitGlobals(u.globals, n)) == FirstUnknown(u, VisitGlobals(u.globals, i))
    decreases n
  {
    if i < n {
      GlobalsStay(u, i, n - 1);
      FirstUnknownAppend(u, VisitGlobals(u.globals, n - 1), VisitOpt(u.globals[n - 1]));
    }
  }

  /* ------------------------------- function objects ---------------------------- */

  /** The first function with this object; the others are never marked. */
  predicate FirstWithObject(fs: seq<Function>, k: nat) {
    k < |fs| && forall i :: 0 <= i < k ==> fs[i].obj != fs[k].obj
  }

  /** The marks after the given nodes were seen. */
  function Marked(fs: seq<Function>, used: seq<bool>, ks: seq<Kind>): (r: seq<bool>)
    requires |used| == |fs|
    ensures |r| == |fs|
  {
    seq(|fs|, k requires 0 <= k < |fs| => used[k] || (FirstWithObject(fs, k) && FuncObj(Some(fs[k].obj)) in ks))
  }

  lemma MarkedThen(fs: seq<Function>, used: seq<bool>, a: seq<Kind>, b: seq<Kind>)
    requires |used| == |fs|
    ensures Marked(fs, Marked(fs, used, a), b) == Marked(fs, used, a + b)
  {
  }

  lemma MarkedNothing(fs: seq<Function>, used: seq<bool>)
    requires |used| == |fs|
    ensures Marked(fs, used, []) == used
  {
  }

  lemma MarkedFromNothing(fs: seq<Function>, used: seq<bool>, ks: seq<Kind>)
    requires |used| == |fs| && forall k :: 0 <= k < |fs| ==> !used[k]
    ensures forall k :: 0 <= k < |fs| ==>
      (Marked(fs, used, ks)[k] <==> FirstWithObject(fs, k) && FuncObj(Some(fs[k].obj)) in ks)
  {
  }

  /** An object that is mentioned somewhere goes unmarked, for the first function of
      its name, exactly if it is mentioned inside try expressions only. */
  lemma MarksCover(u: Unit, k: nat)
    requires FirstWithObject(u.functions, k) && FuncObj(Some(u.functions[k].obj)) in AllInUnit(u)
    ensures var obj := FuncObj(Some(u.functions[k].obj));
            !Marked(u.functions, seq(|u.functions|, _ => false), VisitUnit(u))[k] <==>
            obj in HiddenUnit(u) && obj !in VisitUnit(u)
  {
    SeenOrHidden(u, FuncObj(Some(u.functions[k].obj)));
  }

  /** The functions of a unit with their `object_used` flags. */
  class Optimizer {
    const u: Unit
    const used: array<bool>

    constructor (u: Unit)
      ensures this.u == u && used.Length == |u.functions| && fresh(used)
    {
      this.u := u;
      used := new bool[|u.functions|];
    }

    method MarkObject(obj: Option<string>)
      requires used.Length == |u.functions|
      modifies used
      ensures used[..] == Marked(u.functions, old(used[..]), [FuncObj(obj)])
    {
      if obj.None? {
        assert used[..] == Marked(u.functions, used[..], [FuncObj(None)]);
        return;
      }
      for i := 0 to |u.functions|
        invariant used[..] == old(used[..])
        invariant forall k :: 0 <= k < i ==> u.functions[k].obj != obj.value
      {
        if u.functions[i].obj == obj.value {
          used[i] := true;
          assert used[..] == Marked(u.functions, old(used[..]), [FuncObj(obj)]);
          return;
        }
      }
      assert used[..] == Marked(u.functions, old(used[..]), [FuncObj(obj)]);
    }

    method ScanOpt(e: Option<Expr>)
      requires used.Length == |u.functions|
      modifies used
      ensures used[..] == Marked(u.functions, old(used[..]), VisitOpt(e))
      decreases e
    {
      if e.Some? {
        ScanExpr(e.value);
      } else {
        MarkedNothing(u.functions, used[..]);
      }
    }

    method ScanExpr(e: Expr)
      requires used.Length == |u.functions|
      modifies used
      ensures used[..] == Marked(u.functions, old(used[..]), Visit(e))
      decreases e
    {
      ghost var fs, v := u.functions, used[..];
      ghost var k, l, r, h, a := [e.kind], VisitOpt(e.lhs), VisitOpt(e.rhs), VisitOpt(e.high), VisitAll(e.args);
      if e.kind.FuncObj? {
        MarkObject(e.kind.name);
      }
      assert used[..] == Marked(fs, v, k);
      ScanOpt(e.lhs);
      MarkedThen(fs, v, k, l);
      ScanOpt(e.rhs);
      MarkedThen(fs, v, k + l, r);
      ScanOpt(e.high);
      MarkedThen(fs, v, k + l + r, h);
      ScanAll(e.args);
      MarkedThen(fs, v, k + l + r + h, a);
      ScanAll(e.inits);
      MarkedThen(fs, v, k + l + r + h + a, VisitAll(e.inits));
    }

    method ScanAll(es: List<Expr>)
      requires used.Length == |u.functions|
      modifies used
      ensures used[..] == Marked(u.functions, old(used[..]), VisitAll(es))
      decreases es
    {
      var it := es;
      while it.Cons?
        invariant it == es || it < es
        invariant Marked(u.functions, used[..], VisitAll(it)) == Marked(u.functions, old(used[..]), VisitAll(es))
        decreases it
      {
        MarkedThen(u.functions, used[..], Visit(it.head), VisitAll(it.tail));
        ScanExpr(it.head);
        it := it.tail;
      }
      MarkedNothing(u.functions, used[..]);
    }

    method ScanStmts(ss: List<Stmt>)
      requires used.Length == |u.functions|
      modifies used
      ensures used[..] == Marked(u.functions, old(used[..]), VisitStmts(ss))
      decreases ss, 1
    {
      var it := ss;
      while it.Cons?
        invariant it == ss || it < ss
        invariant Marked(u.functions, used[..], VisitStmts(it)) == Marked(u.functions, old(used[..]), VisitStmts(ss))
        decreases it
      {
        ghost var v, own := used[..], VisitOwn(it.head);
        MarkedThen(u.functions, v, own, VisitStmts(it.tail));
        assert VisitStmts(it) == own + VisitStmts(it.tail);
        ScanStmt(it.head);
        it := it.tail;
      }
      MarkedNothing(u.functions, used[..]);
    }

    ghost function VisitOwn(s: Stmt): seq<Kind> {
      VisitOpt(s.expr) + VisitOpt(s.lhs) + VisitOpt(s.update)
      + VisitStmts(s.init) + VisitStmts(s.body) + VisitStmts(s.elseBody)
    }

    method ScanStmt(s: Stmt)
      requires used.Length == |u.functions|
      modifies used
      ensures used[..] == Marked(u.functions, old(used[..]), VisitOwn(s))
      decreases s, 0
    {
      ghost var fs, v := u.functions, used[..];
      ghost var a, b, c, d, e := VisitOpt(s.expr), VisitOpt(s.lhs), VisitOpt(s.update), VisitStmts(s.init),
              VisitStmts(s.body);
      ScanOpt(s.expr);
      ScanOpt(s.lhs);
      MarkedThen(fs, v, a, b);
      ScanOpt(s.update);
      MarkedThen(fs, v, a + b, c);
      ScanStmts(s.init);
      MarkedThen(fs, v, a + b + c, d);
      ScanStmts(s.body);
      MarkedThen(fs, v, a + b + c + d, e);
      ScanStmts(s.elseBody);
      MarkedThen(fs, v, a + b + c + d + e, VisitStmts(s.elseBody));
    }

    method ScanFunctions()
      requires used.Length == |u.functions|
      modifies used
      ensures used[..] == Marked(u.functions, old(used[..]), VisitFunctions(u.functions, |u.functions|))
    {
      hide Marked;
      hide VisitStmts;
      ghost var fs, v := u.functions, used[..];
      MarkedNothing(fs, v);
      for i := 0 to |u.functions|
        invariant used[..] == Marked(fs, v, VisitFunctions(fs, i))
      {
        ghost var seen := VisitFunctions(fs, i);
        ScanStmts(u.functions[i].body);
        MarkedThen(fs, v, seen, VisitStmts(fs[i].body));
        ScanStmts(u.functions[i].cleanup);
        MarkedThen(fs, v, seen + VisitStmts(fs[i].body), VisitStmts(fs[i].cleanup));
      }
    }

    method ScanGlobals()
      requires used.Length == |u.functions|
      modifies used
      ensures used[..] == Marked(u.functions, old(used[..]), VisitGlobals(u.globals, |u.globals|))
    {
      hide Marked;
      hide VisitOpt;
      ghost var fs, v := u.functions, used[..];
      MarkedNothing(fs, v);
      for i := 0 to |u.globals|
        invariant used[..] == Marked(fs, v, VisitGlobals(u.globals, i))
      {
        ScanOpt(u.globals[i]);
        MarkedThen(fs, v, VisitGlobals(u.globals, i), VisitOpt(u.globals[i]));
      }
    }

    /** A function's object is kept exactly if it is the first of its name and the
        object is mentioned in a visited place. */
    method Optimize()
      requires used.Length == |u.functions|
      modifies used
      ensures forall k :: 0 <= k < |u.functions| ==>
        (used[k] <==> (forall i :: 0 <= i < k ==> u.functions[i].obj != u.functions[k].obj) &&
                      FuncObj(Some(u.functions[k].obj)) in VisitUnit(u))
    {
      for i := 0 to used.Length
        invariant forall k :: 0 <= k < i ==> !used[k]
      {
        used[i] := false;
      }
      ghost var fs, v := u.functions, used[..];
      ScanFunctions();
      ScanGlobals();
      MarkedThen(fs, v, VisitFunctions(fs, |fs|), VisitGlobals(u.globals, |u.globals|));
      MarkedFromNothing(fs, v, VisitUnit(u));
      assert forall k :: 0 <= k < used.Length ==> used[k] == used[..][k];
    }
  }
}
