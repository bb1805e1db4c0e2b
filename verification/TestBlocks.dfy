/** The top-level declarations of a program as a linked list that is rewritten in
    place: a normal build unlinks the test blocks, a test build replaces each by a
    function. */
module TestBlocks {
  import opened Lists
  import opened Naming

  datatype NodeKind = TestBlock | FuncDef | OtherDecl

  class Node {
    const kind: NodeKind
    const name: string
    const body: int  // the code, of which nothing is looked at here
    var next: Node?

    constructor (kind: NodeKind, name: string, body: int, next: Node?)
      ensures this.kind == kind && this.name == name && this.body == body && this.next == next
    {
      this.kind, this.name, this.body, this.next := kind, name, body, next;
    }
  }

  /** head leads to exactly these nodes in this order. */
  ghost predicate IsChain(head: Node?, nodes: seq<Node>)
    reads nodes
  {
    && (if nodes == [] then head == null else head == nodes[0] && nodes[|nodes| - 1].next == null)
    && (forall i :: 0 <= i < |nodes| - 1 ==> nodes[i].next == nodes[i + 1])
    && (forall i, k :: 0 <= i < k < |nodes| ==> nodes[i] != nodes[k])
  }

  function LastOf(nodes: seq<Node>): Node? { if nodes == [] then null else nodes[|nodes| - 1] }

  function HeadOf(nodes: seq<Node>): Node? { if nodes == [] then null else nodes[0] }

  /* ------------------------------ the two rewritings --------------------------- */

  /** The declarations other than tests, in order. */
  function WithoutTests(nodes: seq<Node>): seq<Node> {
    if nodes == [] then []
    else
      var rest, last := WithoutTests(nodes[..|nodes| - 1]), nodes[|nodes| - 1];
      if last.kind.TestBlock? then rest else rest + [last]
  }

  /** What the tests are called, in order. */
  function TestNames(nodes: seq<Node>): seq<string> {
    if nodes == [] then []
    else
      var rest, last := TestNames(nodes[..|nodes| - 1]), nodes[|nodes| - 1];
      if last.kind.TestBlock? then rest + [last.name] else rest
  }

  function TestFunctionName(k: nat): string { "__clux_test_" + Dec(k) }

  /** after is before with each test replaced: the k-th by the function
      `__clux_test_k` with the same body. */
  predicate TestsReplaced(before: seq<Node>, after: seq<Node>) {
    |before| == |after| &&
    forall i :: 0 <= i < |before| ==>
      if before[i].kind.TestBlock? then
        && after[i].kind.FuncDef?
        && after[i].name == "__clux_test_" + Dec(|TestNames(before[..i])|)
        && after[i].body == before[i].body
      else after[i] == before[i]
  }

  /** A program without tests is left alone; after the rewriting of a test build
      nothing is left to strip. */
  lemma {:induction false} NothingToStrip(nodes: seq<Node>)
    requires forall i :: 0 <= i < |nodes| ==> !nodes[i].kind.TestBlock?
    ensures WithoutTests(nodes) == nodes && TestNames(nodes) == []
  {
    if nodes != [] {
      NothingToStrip(nodes[..|nodes| - 1]);
      assert nodes == nodes[..|nodes| - 1] + [nodes[|nodes| - 1]];
    }
  }

  lemma ReplacedHasNoTests(before: seq<Node>, after: seq<Node>)
    requires TestsReplaced(before, after)
    ensures WithoutTests(after) == after
  {
    forall i | 0 <= i < |after|
      ensures !after[i].kind.TestBlock?
    {
      assert before[i].kind.TestBlock? || after[i] == before[i];
    }
    NothingToStrip(after);
  }

  lemma {:induction false} TestCountGrows(nodes: seq<Node>, i: nat, k: nat)
    requires i <= k <= |nodes|
    ensures |TestNames(nodes[..i])| <= |TestNames(nodes[..k])|
    ensures i < k && nodes[i].kind.TestBlock? ==> |TestNames(nodes[..i])| < |TestNames(nodes[..k])|
    decreases k
  {
    if i < k {
      assert nodes[..k][..k - 1] == nodes[..k - 1];
      TestCountGrows(nodes, i, k - 1);
    }
  }

  /** Different tests become functions with different names. */
  lemma TestFunctionsDiffer(before: seq<Node>, after: seq<Node>, i: nat, k: nat)
    requires TestsReplaced(before, after) && i < k < |before|
    requires before[i].kind.TestBlock? && before[k].kind.TestBlock?
    ensures after[i].name != after[k].name
  {
    TestCountGrows(before, i, k);
    var a, b := |TestNames(before[..i])|, |TestNames(before[..k])|;
    if after[i].name == after[k].name {
      assert after[i].name[12..] == Dec(a) && after[k].name[12..] == Dec(b);
      DecInjective(a, b);
    }
  }

  /** The name of the i-th declaration, if a test, is the one reported for it. */
  lemma {:induction false} NameReported(nodes: seq<Node>, i: nat, k: nat)
    requires i < k <= |nodes| && nodes[i].kind.TestBlock?
    ensures var n := |TestNames(nodes[..i])|;
            n < |TestNames(nodes[..k])| && TestNames(nodes[..k])[n] == nodes[i].name
    decreases k
  {
    assert nodes[..k][..k - 1] == nodes[..k - 1];
    if i < k - 1 {
      NameReported(nodes, i, k - 1);
    }
  }

  /** A declaration that is no test is kept, behind those that were before it. */
  lemma {:induction false} DeclarationKept(nodes: seq<Node>, i: nat, k: nat)
    requires i < k <= |nodes| && !nodes[i].kind.TestBlock?
    ensures var n := |WithoutTests(nodes[..i])|;
            n < |WithoutTests(nodes[..k])| && WithoutTests(nodes[..k])[n] == nodes[i]
    decreases k
  {
    assert nodes[..k][..k - 1] == nodes[..k - 1];
    if i < k - 1 {
      DeclarationKept(nodes, i, k - 1);
    }
  }

  /** Every node is either kept or counted as a test, and what is kept is no test. */
  lemma {:induction false} KeptOrTest(nodes: seq<Node>)
    ensures |WithoutTests(nodes)| + |TestNames(nodes)| == |nodes|
    ensures forall n :: n in WithoutTests(nodes) ==> n in nodes && !n.kind.TestBlock?
  {
    if nodes != [] {
      KeptOrTest(nodes[..|nodes| - 1]);
      assert nodes == nodes[..|nodes| - 1] + [nodes[|nodes| - 1]];
    }
  }

  class ProgramAst {
    var funcs: Node?
    var funcsLast: Node?
    ghost var nodes: seq<Node>

    ghost predicate Valid()
      reads this, nodes
    {
      IsChain(funcs, nodes) && funcsLast == LastOf(nodes)
    }

    constructor ()
      ensures Valid() && nodes == []
    {
      funcs, funcsLast, nodes := null, null, [];
    }

    /** s is the next declaration to look at, prev the last of those behind it. */
    ghost predicate At(done: seq<Node>, todo: seq<Node>, prev: Node?, s: Node?)
      reads this, done, todo
    {
      && prev == LastOf(done) && s == HeadOf(todo)
      && IsChain(funcs, done + todo) && funcsLast == LastOf(done + todo)
    }

    /** What follows prev, or starts the list if there is no prev. */
    method Link(prev: Node?, to: Node?)
      modifies this`funcs, if prev == null then {} else {prev}
      ensures if prev == null then funcs == to else prev.next == to && funcs == old(funcs)
    {
      if prev != null {
        prev.next := to;
      } else {
        funcs := to;
      }
    }

    /** At the beginning. */
    lemma Start()
      requires Valid()
      ensures At([], nodes[0..], null, funcs)
    {
      assert nodes[0..] == nodes && [] + nodes == nodes;
    }

    /** Leaves s where it is. */
    lemma Step(done: seq<Node>, todo: seq<Node>, prev: Node?, s: Node)
      requires todo != [] && At(done, todo, prev, s)
      ensures At(done + [s], todo[1..], s, s.next)
    {
      var list := done + todo;
      assert todo == [s] + todo[1..] && (done + [s]) + todo[1..] == list;
      assert list[|done|] == s && (|todo| > 1 ==> list[|done| + 1] == todo[1]);
    }

    /** Takes s out of the list. */
    method Unlink(ghost done: seq<Node>, ghost todo: seq<Node>, prev: Node?, s: Node) returns (next: Node?)
      requires todo != [] && At(done, todo, prev, s)
      modifies this`funcs, this`funcsLast, if prev == null then {} else {prev}
      ensures At(done, todo[1..], prev, next)
    {
      Step(done, todo, prev, s);
      next := s.next;
      assert todo == [s] + todo[1..];
      ghost var list := done + todo;
      assert done != [] ==> list[|done| - 1] == prev;
      Link(prev, next);
      funcsLast := if funcsLast == s then prev else funcsLast;
      forall k | 0 <= k < |list|
        ensures LeadsOn(list, |done|, next, k)
      {
        assert list[k] == prev <==> k == |done| - 1;
      }
      Unlinked(list, done, s, todo[1..], next, funcs);
      assert |todo| > 1 ==> list[|list| - 1] == (done + todo[1..])[|list| - 2];
    }

    /** Puts fn, which already leads to what follows s, in the place of s. */
    method Replace(ghost done: seq<Node>, ghost todo: seq<Node>, prev: Node?, s: Node, fn: Node)
      requires todo != [] && At(done, todo, prev, s) && fn !in done + todo && fn.next == s.next
      modifies this`funcs, this`funcsLast, if prev == null then {} else {prev}
      ensures At(done + [fn], todo[1..], fn, fn.next) && fn.next == old(s.next)
    {
      Step(done, todo, prev, s);
      assert todo == [s] + todo[1..];
      ghost var list, next := done + todo, s.next;
      assert done != [] ==> list[|done| - 1] == prev;
      Link(prev, fn);
      funcsLast := if funcsLast == s then fn else funcsLast;
      forall k | 0 <= k < |list|
        ensures LeadsOn(list, |done|, fn, k)
      {
        assert list[k] == prev <==> k == |done| - 1;
      }
      Relinked(list, done, s, todo[1..], fn, funcs);
      assert |todo| > 1 ==> list[|list| - 1] == (done + [fn] + todo[1..])[|list| - 1];
    }

    /** A normal build: the test blocks are unlinked, nothing else moves. */
    method StripTestBlocks()
      requires Valid()
      modifies this, nodes
      ensures Valid() && nodes == WithoutTests(old(nodes))
    {
      hide IsChain;
      ghost var all, i := nodes, 0;
      var prev: Node?, s := null, funcs;
      Start();
      assert WithoutTests(all[..i]) == [];
      while s != null
        invariant 0 <= i <= |all| && At(WithoutTests(all[..i]), all[i..], prev, s)
        invariant prev != null ==> prev in all
        decreases |all| - i
      {
        ghost var kept, todo := WithoutTests(all[..i]), all[i..];
        assert todo[1..] == all[i + 1..] && all[..i + 1][..i] == all[..i] && s == all[i];
        if !s.kind.TestBlock? {
          Step(kept, todo, prev, s);
          prev, s := s, s.next;
        } else {
          s := Unlink(kept, todo, prev, s);
        }
        i := i + 1;
      }
      assert all[..i] == all && WithoutTests(all) + all[i..] == WithoutTests(all);
      nodes := WithoutTests(all);
    }

    /** A test build: each test block is replaced, in its place, by a function. */
    method PrepareTests() returns (names: seq<string>)
      requires Valid()
      modifies this, nodes
      ensures Valid() && TestsReplaced(old(nodes), nodes)
      ensures forall i :: 0 <= i < |nodes| && old(nodes)[i].kind.TestBlock? ==> fresh(nodes[i])
      ensures names == TestNames(old(nodes))
    {
      hide IsChain;
      hide TestsReplaced;
      hide TestNames;
      hide Dec;
      ghost var all, i := nodes, 0;
      NoneReplaced(all);
      ghost var done: seq<Node> := [];
      names := [];
      var seqNo := 0;
      var prev: Node?, s := null, funcs;
      Start();
      while s != null
        invariant 0 <= i <= |all| && |done| == i && At(done, all[i..], prev, s)
        invariant seqNo == |names| && names == TestNames(all[..i])
        invariant TestsReplaced(all[..i], done)
        invariant forall k :: 0 <= k < i ==> if all[k].kind.TestBlock? then fresh(done[k]) else done[k] == all[k]
        decreases |all| - i
      {
        ghost var todo := all[i..];
        assert todo[1..] == all[i + 1..] && all[..i + 1][..i] == all[..i] && s == all[i];
        if !s.kind.TestBlock? {
          Step(done, todo, prev, s);
          ReplacedMore(all, done, i, s);
          done := done + [s];
          prev, s := s, s.next;
        } else {
          var fn := new Node(FuncDef, TestFunctionName(seqNo), s.body, s.next);
          seqNo := seqNo + 1;
          names := names + [s.name];
          Replace(done, todo, prev, s, fn);
          ReplacedMore(all, done, i, fn);
          done := done + [fn];
          prev, s := fn, fn.next;
        }
        i := i + 1;
      }
      assert all[..i] == all && done + all[i..] == done;
      nodes := done;
    }
  }

  lemma NoneReplaced(all: seq<Node>)
    ensures TestsReplaced(all[..0], []) && TestNames(all[..0]) == []
  {
  }

  lemma ReplacedMore(all: seq<Node>, done: seq<Node>, i: nat, n: Node)
    requires i < |all| && |done| == i && TestsReplaced(all[..i], done)
    requires if all[i].kind.TestBlock? then n.kind.FuncDef? && n.name == "__clux_test_" + Dec(|TestNames(all[..i])|)
            && n.body == all[i].body
             else n == all[i]
    ensures TestsReplaced(all[..i + 1], done + [n])
    ensures TestNames(all[..i + 1]) == TestNames(all[..i]) + if all[i].kind.TestBlock? then [all[i].name] else []
  {
    assert all[..i + 1][..i] == all[..i];
    forall k | 0 <= k <= i
      ensures all[..i + 1][..k] == all[..k] && (k < i ==> all[..i][..k] == all[..k])
    {
    }
  }

  ghost predicate LeadsOn(list: seq<Node>, k: nat, to: Node?, i: nat)
    requires i < |list|
    reads list
  {
    list[i].next == if i == k - 1 then to else if i + 1 < |list| then list[i + 1] else null
  }

  /** The nodes of a chain in which the one before position k was made to lead to
      `to` instead of to the node at k. */
  ghost predicate Redirected(list: seq<Node>, k: nat, to: Node?)
    reads list
  {
    && (forall i, j :: 0 <= i < j < |list| ==> list[i] != list[j])
    && forall i :: 0 <= i < |list| ==> LeadsOn(list, k, to, i)
  }

  lemma UnlinkedAt(list: seq<Node>, kept: seq<Node>, s: Node, rest: seq<Node>, next: Node?, i: nat)
    requires list == kept + ([s] + rest) && Redirected(list, |kept|, next) && next == HeadOf(rest) && i < |kept + rest|
    ensures (kept + rest)[i].next == if i + 1 < |kept + rest| then (kept + rest)[i + 1] else null
  {
    var short := kept + rest;
    if i < |kept| {
      assert short[i] == list[i];
      assert LeadsOn(list, |kept|, next, i);
      assert i + 1 < |kept| ==> short[i + 1] == list[i + 1];
      assert i + 1 == |kept| && rest != [] ==> short[i + 1] == rest[0];
    } else {
      assert short[i] == list[i + 1] && LeadsOn(list, |kept|, next, i + 1);
      assert i + 1 < |short| ==> short[i + 1] == list[i + 2];
    }
  }

  lemma RelinkedAt(list: seq<Node>, done: seq<Node>, s: Node, rest: seq<Node>, fn: Node, i: nat)
    requires list == done + ([s] + rest) && Redirected(list, |done|, fn) && fn.next == HeadOf(rest) && i < |list|
    ensures (done + [fn] + rest)[i].next == if i + 1 < |list| then (done + [fn] + rest)[i + 1] else null
  {
    var long := done + [fn] + rest;
    if i < |done| {
      assert long[i] == list[i];
      assert LeadsOn(list, |done|, fn, i);
      assert long[i + 1] == if i + 1 < |done| then list[i + 1] else fn;
    } else if i == |done| {
      assert long[i] == fn && (rest != [] ==> long[i + 1] == rest[0]);
    } else {
      assert long[i] == list[i] && LeadsOn(list, |done|, fn, i);
      assert i + 1 < |long| ==> long[i + 1] == list[i + 1];
    }
  }

  /** The chain after s was taken out behind kept. */
  lemma Unlinked(list: seq<Node>, kept: seq<Node>, s: Node, rest: seq<Node>, next: Node?, funcs: Node?)
    requires list == kept + ([s] + rest) && Redirected(list, |kept|, next) && next == HeadOf(rest)
    requires funcs == if kept == [] then next else list[0]
    ensures IsChain(funcs, kept + rest)
  {
    var short := kept + rest;
    forall i | 0 <= i < |short| - 1
      ensures short[i].next == short[i + 1]
    {
      UnlinkedAt(list, kept, s, rest, next, i);
    }
    if short != [] {
      UnlinkedAt(list, kept, s, rest, next, |short| - 1);
    }
    forall i | 0 <= i < |short|
      ensures short[i] == list[if i < |kept| then i else i + 1]
    {
    }
  }

  /** The chain after s was replaced by fn behind done. */
  lemma Relinked(list: seq<Node>, done: seq<Node>, s: Node, rest: seq<Node>, fn: Node, funcs: Node?)
    requires list == done + ([s] + rest) && Redirected(list, |done|, fn) && fn !in list && fn.next == HeadOf(rest)
    requires funcs == if done == [] then fn else list[0]
    ensures IsChain(funcs, done + [fn] + rest)
  {
    var long := done + [fn] + rest;
    forall i | 0 <= i < |long| - 1
      ensures long[i].next == long[i + 1]
    {
      RelinkedAt(list, done, s, rest, fn, i);
    }
    RelinkedAt(list, done, s, rest, fn, |long| - 1);
    forall i | 0 <= i < |long|
      ensures long[i] == if i == |done| then fn else list[i]
    {
    }
  }
}
