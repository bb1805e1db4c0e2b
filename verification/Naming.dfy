/** C names: how module symbols are spelled and how locals get a name that is
    unique in their function. */
module Naming {
  import opened Lists

  predicate IsDigit(c: char) { '0' <= c <= '9' }

  predicate IsHex(c: char) { IsDigit(c) || 'a' <= c <= 'f' }

  /** Characters a C identifier may hold (`$` is the usual extension). */
  predicate IsIdentChar(c: char) {
    'a' <= c <= 'z' || 'A' <= c <= 'Z' || IsDigit(c) || c == '_' || c == '$'
  }

  predicate IsIdent(s: string) { forall i :: 0 <= i < |s| ==> IsIdentChar(s[i]) }

  function Digit(d: nat): (c: char)
    requires d < 10
  {
    "0123456789"[d]
  }

  lemma DigitInjective(a: nat, b: nat)
    requires a < 10 && b < 10 && Digit(a) == Digit(b)
    ensures a == b
  {
  }

  /** `%u` and `%zu`. */
  function Dec(n: nat): (s: string)
    ensures s != [] && forall i :: 0 <= i < |s| ==> IsDigit(s[i])
  {
    if n < 10 then [Digit(n)] else Dec(n / 10) + [Digit(n % 10)]
  }

  lemma {:induction false} DecInjective(a: nat, b: nat)
    requires Dec(a) == Dec(b)
    ensures a == b
  {
    if a < 10 && b < 10 {
      DigitInjective(a, b);
    } else if a >= 10 && b >= 10 {
      var s, t := Dec(a), Dec(b);
      assert s[|s| - 1] == Digit(a % 10) && t[|t| - 1] == Digit(b % 10);
      assert s[..|s| - 1] == Dec(a / 10) && t[..|t| - 1] == Dec(b / 10);
      DigitInjective(a % 10, b % 10);
      DecInjective(a / 10, b / 10);
    }
  }

  /** Every character outside the identifier alphabet becomes `_`. */
  function Sanitize(s: string): (r: string)
    ensures |r| == |s| && IsIdent(r)
    ensures IsIdent(s) ==> r == s
  {
    seq(|s|, i requires 0 <= i < |s| => if IsIdentChar(s[i]) then s[i] else '_')
  }

  /** The symbol of an entity of this module: prefix, kind and name. */
  function Symbol(prefix: string, kind: string, name: string): (r: string)
    ensures IsIdent(r)
  {
    Sanitize(prefix + kind + name)
  }

  /** `clux_<tag>_` with a four-digit hexadecimal tag. */
  predicate IsModulePrefix(p: string) {
    && |p| == 10
    && p[..5] == "clux_"
    && (forall i :: 5 <= i < 9 ==> IsHex(p[i]))
    && p[9] == '_'
  }

  const KINDS := {"fn_", "v_", "obj_", "fnval_", "mock_"}

  /** Within a module, kind and name can be read back from the symbol. */
  lemma SymbolInjective(p: string, k: string, n: string, k': string, n': string)
    requires IsModulePrefix(p) && k in KINDS && k' in KINDS
    requires IsIdent(n) && IsIdent(n')
    requires Symbol(p, k, n) == Symbol(p, k', n')
    ensures k == k' && n == n'
  {
    PrefixIsIdent(p);
    assert IsIdent(p + k + n) && IsIdent(p + k' + n');
    assert p + k + n == p + k' + n';
    var a, b := k + n, k' + n';
    assert a == (p + k + n)[10..] && b == (p + k' + n')[10..];
    assert k <= a && k' <= b;
    assert a == b;
    assert a[0] == k[0] && b[0] == k'[0];
    if k[0] == 'f' {
      assert a[2] == k[2] && b[2] == k'[2];
    }
    assert k == k';
    assert n == a[|k|..] && n' == b[|k'|..];
  }

  lemma PrefixIsIdent(p: string)
    requires IsModulePrefix(p)
    ensures IsIdent(p)
  {
    forall i | 0 <= i < |p|
      ensures IsIdentChar(p[i])
    {
      if i < 5 {
        assert p[i] == p[..5][i];
      }
    }
  }

  /* ---------------------- names of the generated code ---------------------- */

  /** The identifiers of a lowered function body.  A global is told apart from a
      local of the same spelling, as in the source; in C text both read alike. */
  datatype CName =
    | Sym(text: string)   // a local
    | Glob(text: string)  // a global
    | RetTmp(n: nat)
    | SwitchTmp(n: nat)
    | DeferEnv(n: nat)

  function Render(c: CName): string {
    match c
    case Sym(text) => text
    case Glob(text) => text
    case RetTmp(n) => "clux_ret_" + Dec(n)
    case SwitchTmp(n) => "clux_switch_" + Dec(n)
    case DeferEnv(n) => "clux_defer_env_" + Dec(n)
  }

  /** What is left of the difference in C. */
  function Plain(c: CName): CName {
    match c
    case Glob(text) => Sym(text)
    case _ => c
  }

  /** A temporary is never spelled like a symbol of the module. */
  lemma TemporaryIsNoSymbol(p: string, c: CName)
    requires IsModulePrefix(p) && !c.Sym? && !c.Glob?
    ensures !(p <= Render(c))
  {
    var s := Render(c);
    match c
    case RetTmp(_) => assert s[5] == 'r' && !IsHex('r');
    case SwitchTmp(_) => assert s[5] == 's' && !IsHex('s');
    case DeferEnv(_) => assert s[9] == 'r';
  }

  /** Different identifiers are spelled differently, except for a local and a
      global of the same text, given that symbols carry the module prefix. */
  lemma RenderInjective(p: string, a: CName, b: CName)
    requires IsModulePrefix(p)
    requires a.Sym? || a.Glob? ==> p <= a.text
    requires b.Sym? || b.Glob? ==> p <= b.text
    ensures Render(a) == Render(b) <==> Plain(a) == Plain(b)
  {
    var s, t := Render(a), Render(b);
    if (a.Sym? || a.Glob?) && !b.Sym? && !b.Glob? {
      TemporaryIsNoSymbol(p, b);
    } else if !a.Sym? && !a.Glob? && (b.Sym? || b.Glob?) {
      TemporaryIsNoSymbol(p, a);
    } else if s == t {
      match a
      case Sym(_) =>
      case Glob(_) =>
      case RetTmp(n) =>
        assert s[5] == 'r' && b.RetTmp?;
        assert Dec(n) == s[9..] && Dec(b.n) == t[9..];
        DecInjective(n, b.n);
      case SwitchTmp(n) =>
        assert s[5] == 's' && b.SwitchTmp?;
        assert Dec(n) == s[12..] && Dec(b.n) == t[12..];
        DecInjective(n, b.n);
      case DeferEnv(n) =>
        assert s[5] == 'd' && b.DeferEnv?;
        assert Dec(n) == s[15..] && Dec(b.n) == t[15..];
        DecInjective(n, b.n);
    }
  }

  /* --------------------------- unique local names --------------------------- */

  function Candidate(base: string, k: nat): string { base + "_" + Dec(k) }

  lemma CandidateInjective(base: string, j: nat, k: nat)
    requires Candidate(base, j) == Candidate(base, k)
    ensures j == k
  {
    var n := |base| + 1;
    assert Candidate(base, j)[n..] == Dec(j) && Candidate(base, k)[n..] == Dec(k);
    DecInjective(j, k);
  }

  lemma LaterCandidatesDiffer(base: string, k: nat)
    ensures !IsCandidateFrom(base, k + 1, Candidate(base, k))
  {
    forall j: nat | k + 1 <= j
      ensures Candidate(base, k) != Candidate(base, j)
    {
      if Candidate(base, k) == Candidate(base, j) {
        CandidateInjective(base, k, j);
      }
    }
  }

  ghost predicate IsCandidateFrom(base: string, k: nat, c: string) {
    exists j: nat :: k <= j && c == Candidate(base, j)
  }

  /** The taken names that a search starting at suffix k can still run into. */
  ghost function Obstacles(base: string, k: nat, taken: set<string>): (r: set<string>)
    ensures r <= taken
  {
    set c | c in taken && IsCandidateFrom(base, k, c)
  }

  lemma ObstaclesShrink(base: string, k: nat, taken: set<string>)
    requires Candidate(base, k) in taken
    ensures Obstacles(base, k + 1, taken) < Obstacles(base, k, taken)
  {
    var big, small := Obstacles(base, k, taken), Obstacles(base, k + 1, taken);
    assert IsCandidateFrom(base, k, Candidate(base, k));
    LaterCandidatesDiffer(base, k);
    assert Candidate(base, k) in big && Candidate(base, k) !in small;
    forall c | c in small
      ensures c in big
    {
      var j: nat :| k + 1 <= j && c == Candidate(base, j);
    }
  }

  /** The first suffix, from k on, whose candidate is free. */
  function FirstFree(base: string, k: nat, taken: set<string>): (j: nat)
    ensures j >= k && Candidate(base, j) !in taken
    ensures forall i :: k <= i < j ==> Candidate(base, i) in taken
    decreases Obstacles(base, k, taken)
  {
    if Candidate(base, k) in taken then
      ObstaclesShrink(base, k, taken);
      FirstFree(base, k + 1, taken)
    else k
  }

  /** The search looks at no more candidates than there are taken names, plus one. */
  lemma {:induction false} FirstFreeBound(base: string, k: nat, taken: set<string>)
    ensures FirstFree(base, k, taken) <= k + |Obstacles(base, k, taken)|
    ensures FirstFree(base, k, taken) <= k + |taken|
    decreases Obstacles(base, k, taken)
  {
    var here := Obstacles(base, k, taken);
    SubsetSize(here, taken);
    if Candidate(base, k) in taken {
      ObstaclesShrink(base, k, taken);
      var next := Obstacles(base, k + 1, taken);
      FirstFreeBound(base, k + 1, taken);
      assert IsCandidateFrom(base, k, Candidate(base, k));
      assert Candidate(base, k) in here;
      LaterCandidatesDiffer(base, k);
      SubsetSize(next, here - {Candidate(base, k)});
    }
  }

  lemma {:induction false} SubsetSize<T>(a: set<T>, b: set<T>)
    requires a <= b
    ensures |a| <= |b|
  {
    assert b == a + (b - a);
  }

  /* -------------------- the fixed buffer behind the search ------------------- */

  /** The characters that fit into the buffer of the search, without terminator. */
  const BUFFER: nat := 511

  /** `snprintf` into a buffer keeps what fits before the terminator. */
  function Truncated(s: string, cap: nat): (r: string)
    ensures |r| <= cap && r <= s
  {
    if |s| <= cap then s else s[..cap]
  }

  /** The candidate with suffix k as the buffer holds it. */
  function Variant(base: string, cap: nat, k: nat): string { Truncated(Candidate(base, k), cap) }

  /** No suffix, however large, leads to a free name. */
  ghost predicate Stuck(base: string, cap: nat, taken: set<string>) {
    base in taken && forall k: nat :: 2 <= k ==> Variant(base, cap, k) in taken
  }

  /** The first suffix from k to last whose candidate is free. */
  function FirstVariant(base: string, cap: nat, k: nat, last: nat, taken: set<string>): (r: Option<nat>)
    ensures r.Some? ==> k <= r.value <= last && Variant(base, cap, r.value) !in taken
    ensures r.Some? ==> forall i :: k <= i < r.value ==> Variant(base, cap, i) in taken
    ensures r.None? ==> forall i :: k <= i <= last ==> Variant(base, cap, i) in taken
    decreases last + 1 - k
  {
    if k > last then None
    else if Variant(base, cap, k) in taken then FirstVariant(base, cap, k + 1, last, taken)
    else Some(k)
  }

  /** Whether the search can go on for ever, from the tries that decide it. */
  predicate NoName(base: string, taken: set<string>) {
    base in taken && FirstVariant(base, BUFFER, 2, |taken| + 2, taken).None?
  }

  /** The name a declaration gets: its own symbol, or the first free variant.  If
      the search cannot end nothing is emitted, and any free name will do here. */
  function UniqueName(base: string, taken: set<string>): (r: string)
    ensures r !in taken
    ensures base !in taken ==> r == base
  {
    if base !in taken then base
    else
      match FirstVariant(base, BUFFER, 2, |taken| + 2, taken)
      case Some(k) => Variant(base, BUFFER, k)
      case None => Candidate(base, FirstFree(base, 2, taken))
  }

  function Pow10(r: nat): nat { if r == 0 then 1 else 10 * Pow10(r - 1) }

  lemma {:induction false} DecLen(k: nat, r: nat)
    requires r >= 1
    ensures |Dec(k)| <= r <==> k < Pow10(r)
    decreases r
  {
    if r == 1 {
      assert Pow10(1) == 10 * Pow10(0);
    } else if k >= 10 {
      DecLen(k / 10, r - 1);
    } else {
      PowPositive(r - 1);
    }
  }

  lemma {:induction false} PowPositive(r: nat)
    ensures Pow10(r) >= 1
  {
    if r > 0 {
      PowPositive(r - 1);
    }
  }

  /** The number that the first r digits of k spell. */
  function Lead(k: nat, r: nat): nat { if |Dec(k)| <= r || k < 10 then k else Lead(k / 10, r) }

  lemma {:induction false} LeadPrefix(k: nat, r: nat)
    requires 1 <= r <= |Dec(k)| && k >= 1
    ensures Dec(k)[..r] == Dec(Lead(k, r)) && |Dec(Lead(k, r))| == r && Lead(k, r) >= 1
  {
    if |Dec(k)| > r {
      var s := Dec(k / 10);
      assert Dec(k) == s + [Digit(k % 10)];
      LeadPrefix(k / 10, r);
      assert Dec(k)[..r] == s[..r];
    } else {
      assert Dec(k)[..r] == Dec(k);
    }
  }

  /** With room for r digits the buffer holds a candidate with at most r digits as
      it is, and cuts any other down to one of those. */
  lemma VariantCut(base: string, cap: nat, k: nat)
    requires cap >= |base| + 2 && k >= 1
    ensures var r := cap - |base| - 1;
            && (k < Pow10(r) ==> Variant(base, cap, k) == Candidate(base, k))
            && (k >= Pow10(r) ==> 1 <= Lead(k, r) < Pow10(r) && Variant(base, cap, k) == Candidate(base, Lead(k, r)))
            && (k >= Pow10(r) && r > 1 ==> Lead(k, r) >= 2)
  {
    var r := cap - |base| - 1;
    DecLen(k, r);
    if k >= Pow10(r) {
      LeadPrefix(k, r);
      DecLen(Lead(k, r), r);
      assert Candidate(base, k)[..cap] == base + "_" + Dec(k)[..r];
      if r > 1 {
        DecLen(Lead(k, r), 1);
      }
    }
  }

  /** Without room for a digit all candidates are cut down to the same text. */
  lemma VariantSame(base: string, cap: nat, k: nat)
    requires cap <= |base| + 1
    ensures Variant(base, cap, k) == Truncated(base + "_", cap)
  {
    assert Candidate(base, k) == (base + "_") + Dec(k);
    assert Candidate(base, k)[..cap] == (base + "_")[..cap];
  }

  /** The search cannot end exactly when the symbol is taken and so are all texts
      that the buffer has room for behind it. */
  lemma StuckExactly(base: string, cap: nat, taken: set<string>)
    ensures Stuck(base, cap, taken) <==>
            base in taken &&
            if cap <= |base| + 1 then Truncated(base + "_", cap) in taken
            else
              var r := cap - |base| - 1;
              forall k: nat :: (if r == 1 then 1 else 2) <= k < Pow10(r) ==> Candidate(base, k) in taken
  {
    if cap <= |base| + 1 {
      VariantSame(base, cap, 2);
      forall k: nat | 2 <= k
        ensures Variant(base, cap, k) == Truncated(base + "_", cap)
      {
        VariantSame(base, cap, k);
      }
    } else {
      var r := cap - |base| - 1;
      var low := if r == 1 then 1 else 2;
      if Stuck(base, cap, taken) {
        forall k: nat | low <= k < Pow10(r)
          ensures Candidate(base, k) in taken
        {
          if k == 1 {
            DigitAfterTen(base, cap);
          } else {
            VariantCut(base, cap, k);
          }
        }
      }
      if base in taken && forall k: nat :: low <= k < Pow10(r) ==> Candidate(base, k) in taken {
        forall k: nat | 2 <= k
          ensures Variant(base, cap, k) in taken
        {
          VariantCut(base, cap, k);
        }
      }
    }
  }

  /** With room for one digit, suffix 10 reads like suffix 1. */
  lemma DigitAfterTen(base: string, cap: nat)
    requires cap == |base| + 2
    ensures Variant(base, cap, 10) == Candidate(base, 1)
  {
    assert Dec(10) == Dec(1) + [Digit(0)];
    assert Candidate(base, 10)[..cap] == Candidate(base, 1);
  }

  /** The search ends, if it ends at all, within one try more than there are taken
      names; so looking at no more than these decides it. */
  lemma StuckWithinTaken(base: string, cap: nat, taken: set<string>)
    ensures Stuck(base, cap, taken) <==> base in taken && FirstVariant(base, cap, 2, |taken| + 2, taken).None?
    ensures cap == BUFFER ==> (Stuck(base, cap, taken) <==> NoName(base, taken))
  {
    var last := |taken| + 2;
    if base in taken && FirstVariant(base, cap, 2, last, taken).None? {
      forall k: nat | 2 <= k
        ensures Variant(base, cap, k) in taken
      {
        if cap <= |base| + 1 {
          VariantSame(base, cap, k);
          VariantSame(base, cap, 2);
        } else {
          CutWithinTaken(base, cap, k, taken);
        }
      }
    }
  }

  lemma CutWithinTaken(base: string, cap: nat, k: nat, taken: set<string>)
    requires cap >= |base| + 2 && k >= 2
    requires forall i :: 2 <= i <= |taken| + 2 ==> Variant(base, cap, i) in taken
    ensures Variant(base, cap, k) in taken
  {
    var r := cap - |base| - 1;
    var free := FirstFree(base, 2, taken);
    FirstFreeBound(base, 2, taken);
    VariantCut(base, cap, free);
    assert Pow10(r) <= |taken| + 2;
    VariantCut(base, cap, k);
    if k > |taken| + 2 {
      var j := Lead(k, r);
      if j >= 2 {
        VariantCut(base, cap, j);
      } else {
        assert r == 1 && Pow10(1) == 10 * Pow10(0);
        DigitAfterTen(base, cap);
      }
    }
  }

  lemma {:induction false} DecLenMono(j: nat, k: nat)
    requires j <= k
    ensures |Dec(j)| <= |Dec(k)|
  {
    DecLen(k, |Dec(k)|);
    DecLen(j, |Dec(k)|);
  }

  lemma FirstVariantIs(base: string, k: nat, last: nat, taken: set<string>)
    requires 2 <= k <= last && Variant(base, BUFFER, k) !in taken
    requires forall i :: 2 <= i < k ==> Variant(base, BUFFER, i) in taken
    ensures FirstVariant(base, BUFFER, 2, last, taken) == Some(k)
  {
    hide Variant;
  }

  /** Where the largest suffix it can need fits, the search finds the first free
      candidate, after at most one more try than there are taken names, and
      nothing is cut. */
  lemma RoomEnough(base: string, taken: set<string>)
    requires |base| + 1 + |Dec(|taken| + 2)| <= BUFFER
    ensures !Stuck(base, BUFFER, taken)
    ensures UniqueName(base, taken) == if base in taken then Candidate(base, FirstFree(base, 2, taken)) else base
    ensures FirstFree(base, 2, taken) <= |taken| + 2
  {
    var free := FirstFree(base, 2, taken);
    FirstFreeBound(base, 2, taken);
    forall k: nat | 2 <= k <= free
      ensures Variant(base, BUFFER, k) == Candidate(base, k)
    {
      DecLenMono(k, |taken| + 2);
    }
    assert Variant(base, BUFFER, free) !in taken;
    if base in taken {
      FirstVariantIs(base, free, |taken| + 2, taken);
    }
  }

  /* ----------------------------- the texts written out -------------------------- */

  /** The number that decimal digits spell. */
  function DecimalValue(s: string): int {
    if s == "" then 0 else 10 * DecimalValue(s[..|s| - 1]) + (s[|s| - 1] as int - '0' as int)
  }

  /** A number is written in decimal, without leading zeros. */
  lemma {:induction false} DecValue(n: nat)
    ensures DecimalValue(Dec(n)) == n && (n > 0 ==> Dec(n)[0] != '0')
    decreases n
  {
    var s := Dec(n);
    if n < 10 {
      assert s[..0] == "" && DecimalValue("") == 0;
      assert s[0] == Digit(n);
    } else {
      DecValue(n / 10);
      assert s[..|s| - 1] == Dec(n / 10) && s[|s| - 1] == Digit(n % 10);
    }
  }

  /** What becomes of each character of a symbol. */
  lemma SanitizedChars(s: string, i: nat)
    requires i < |s|
    ensures Sanitize(s)[i] ==
            if || 'a' <= s[i] <= 'z' || 'A' <= s[i] <= 'Z' || '0' <= s[i] <= '9' || s[i] == '_' || s[i] == '$'
            then s[i] else '_'
  {
  }

  lemma TemporaryTexts(n: nat)
    ensures Render(RetTmp(n)) == "clux_ret_" + Dec(n)
    ensures Render(SwitchTmp(n)) == "clux_switch_" + Dec(n)
    ensures Render(DeferEnv(n)) == "clux_defer_env_" + Dec(n)
  {
  }

  /** A candidate as it stands in a buffer of 512 bytes. */
  function Suffixed(base: string, k: nat): string {
    var s := base + "_" + Dec(k);
    if |s| < 512 then s else s[..511]
  }

  /** The first declaration of a name gets the plain symbol; a later one the first
      number from 2 on that leads to a free text, if there is one. */
  lemma UniqueText(base: string, taken: set<string>)
    requires !Stuck(base, BUFFER, taken)
    ensures base !in taken ==> UniqueName(base, taken) == base
    ensures base in taken ==>
      exists k: nat :: 2 <= k && UniqueName(base, taken) == Suffixed(base, k) && Suffixed(base, k) !in taken
                       && forall i :: 2 <= i < k ==> Suffixed(base, i) in taken
  {
    StuckWithinTaken(base, BUFFER, taken);
    forall k: nat
      ensures Variant(base, BUFFER, k) == Suffixed(base, k)
    {
    }
    if base in taken {
      var k := FirstVariant(base, BUFFER, 2, |taken| + 2, taken).value;
      assert UniqueName(base, taken) == Suffixed(base, k);
    }
  }

  /** With a symbol of 510 characters the third declaration is searched for without
      end, with one of 511 the second. */
  lemma LongSymbols(base: string, taken: set<string>)
    requires base in taken
    ensures |base| == 510 ==> (Stuck(base, BUFFER, taken) <==> base + "_" in taken)
    ensures |base| == 511 ==> Stuck(base, BUFFER, taken)
    ensures |base| == 510 && base + "_" !in taken ==> UniqueName(base, taken) == base + "_"
  {
    StuckExactly(base, BUFFER, taken);
    if |base| >= 510 {
      VariantSame(base, BUFFER, 2);
    }
    assert |base| == 511 ==> Truncated(base + "_", BUFFER) == base;
    assert |base| == 510 ==> Truncated(base + "_", BUFFER) == base + "_";
    if |base| == 510 && base + "_" !in taken {
      FirstVariantIs(base, 2, |taken| + 2, taken);
    }
  }
}
