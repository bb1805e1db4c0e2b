/** Singly linked chains.  The compiler threads its syntax trees, scopes and
    instruction lists through `next` pointers; here such a chain is a value. */
module Lists {

  datatype Option<+T> = None | Some(value: T)

  datatype List<+T> = Nil | Cons(head: T, tail: List<T>)

  function Len<T>(xs: List<T>): nat {
    match xs
    case Nil => 0
    case Cons(_, rest) => 1 + Len(rest)
  }

  function Append<T>(xs: List<T>, ys: List<T>): List<T> {
    match xs
    case Nil => ys
    case Cons(x, rest) => Cons(x, Append(rest, ys))
  }

  function Single<T>(x: T): List<T> { Cons(x, Nil) }

  /** The last n entries of a chain whose newest entry is at the head: what is
      left of a scope after the declarations of an inner block are dropped. */
  function Keep<T>(xs: List<T>, n: nat): List<T> {
    if Len(xs) <= n then xs else Keep(xs.tail, n)
  }

  /** The whole chain `short` is the older part of `long`. */
  predicate IsTail<T(==)>(short: List<T>, long: List<T>) {
    short == long || (long.Cons? && IsTail(short, long.tail))
  }

  lemma {:induction xs} AppendNil<T>(xs: List<T>)
    ensures Append(xs, Nil) == xs
  {
  }

  lemma {:induction xs} AppendAssoc<T>(xs: List<T>, ys: List<T>, zs: List<T>)
    ensures Append(Append(xs, ys), zs) == Append(xs, Append(ys, zs))
  {
  }

  lemma {:induction xs} AppendLen<T>(xs: List<T>, ys: List<T>)
    ensures Len(Append(xs, ys)) == Len(xs) + Len(ys)
  {
  }

  lemma {:induction false} AppendCancel<T>(xs: List<T>, ys: List<T>, xs': List<T>, ys': List<T>)
    requires Len(xs) == Len(xs')
    ensures Append(xs, ys) == Append(xs', ys') <==> xs == xs' && ys == ys'
  {
    if xs.Cons? {
      AppendCancel(xs.tail, ys, xs'.tail, ys');
    }
  }

  lemma {:induction xs} KeepLen<T>(xs: List<T>, n: nat)
    ensures Len(Keep(xs, n)) == if Len(xs) <= n then Len(xs) else n
  {
  }

  lemma {:induction xs} KeepKeep<T>(xs: List<T>, n: nat, k: nat)
    requires k <= n
    ensures Keep(Keep(xs, n), k) == Keep(xs, k)
  {
    KeepLen(xs, n);
  }

  lemma {:induction long} TailLen<T>(short: List<T>, long: List<T>)
    requires IsTail(short, long)
    ensures Len(short) <= Len(long)
    ensures Keep(long, Len(short)) == short
  {
  }

  lemma {:induction c} TailTrans<T>(a: List<T>, b: List<T>, c: List<T>)
    requires IsTail(a, b) && IsTail(b, c)
    ensures IsTail(a, c)
  {
  }
}
