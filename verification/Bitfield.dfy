/** Bit fields packed into 64-bit words, little end first, possibly across a word
    boundary: the constant constructor and the run-time read. */
module Bitfield {

  /* ------------------------------ 64-bit words ------------------------------ */

  /** A machine word by its bits, the lowest first. */
  type Word = s: seq<bool> | |s| == 64 witness seq(64, k => false)

  function Zero(): Word { seq(64, k => false) }

  function And(a: Word, b: Word): Word { seq(64, k requires 0 <= k < 64 => a[k] && b[k]) }

  function Or(a: Word, b: Word): Word { seq(64, k requires 0 <= k < 64 => a[k] || b[k]) }

  function Not(a: Word): Word { seq(64, k requires 0 <= k < 64 => !a[k]) }

  /** Shifts; C leaves a shift by 64 or more undefined. */
  function Shl(a: Word, n: nat): Word
    requires n < 64
  {
    seq(64, k requires 0 <= k < 64 => k >= n && a[k - n])
  }

  function Shr(a: Word, n: nat): Word
    requires n < 64
  {
    seq(64, k requires 0 <= k < 64 => k + n < 64 && a[k + n])
  }

  function Mask(width: nat): Word { seq(64, k => k < width) }

  /* -------------------------------- as numbers ------------------------------- */

  function Pow2(n: nat): (r: nat)
    ensures r >= 1
  {
    if n == 0 then 1 else 2 * Pow2(n - 1)
  }

  function Num(bits: seq<bool>): nat {
    if bits == [] then 0 else (if bits[0] then 1 else 0) + 2 * Num(bits[1..])
  }

  lemma {:induction false} NumBound(bits: seq<bool>)
    ensures Num(bits) < Pow2(|bits|)
  {
    if bits != [] {
      NumBound(bits[1..]);
    }
  }

  lemma {:induction false} NumZero(bits: seq<bool>)
    requires forall k :: 0 <= k < |bits| ==> !bits[k]
    ensures Num(bits) == 0
  {
    if bits != [] {
      NumZero(bits[1..]);
    }
  }

  lemma {:induction false} NumOnes(bits: seq<bool>)
    requires forall k :: 0 <= k < |bits| ==> bits[k]
    ensures Num(bits) == Pow2(|bits|) - 1
  {
    if bits != [] {
      NumOnes(bits[1..]);
    }
  }

  /** x * 2^n, by doubling. */
  function Scaled(x: nat, n: nat): nat {
    if n == 0 then x else 2 * Scaled(x, n - 1)
  }

  lemma {:induction false} ScaledIs(x: nat, n: nat)
    ensures Scaled(x, n) == x * Pow2(n)
  {
    if n > 0 {
      ScaledIs(x, n - 1);
      Doubled(x, Pow2(n - 1));
    }
  }

  lemma Doubled(x: int, p: int)
    ensures x * (2 * p) == 2 * (x * p)
  {
  }

  lemma {:induction n} ScaledSum(x: nat, y: nat, n: nat)
    ensures Scaled(x + y, n) == Scaled(x, n) + Scaled(y, n)
  {
  }

  lemma {:induction false} NumAppend(a: seq<bool>, b: seq<bool>)
    ensures Num(a + b) == Num(a) + Scaled(Num(b), |a|)
  {
    if a == [] {
      assert a + b == b;
    } else {
      assert (a + b)[1..] == a[1..] + b;
      NumAppend(a[1..], b);
    }
  }

  lemma MulMono(a: int, b: int, m: nat)
    ensures a <= b ==> a * m <= b * m
  {
    if a <= b {
      assert b * m == a * m + (b - a) * m;
    }
  }

  lemma Remainder(q: int, m: int, r: int)
    requires 0 <= r < m
    ensures (q * m + r) % m == r && (q * m + r) / m == q
  {
    var x := q * m + r;
    var d := x / m - q;
    assert x == m * (x / m) + x % m;
    assert m * (x / m) == q * m + d * m;
    MulMono(1, d, m);
    MulMono(d, -1, m);
  }

  lemma NumSplit(s: seq<bool>, n: nat)
    requires n <= |s|
    ensures Num(s) == Num(s[..n]) + Scaled(Num(s[n..]), n)
  {
    assert s == s[..n] + s[n..];
    NumAppend(s[..n], s[n..]);
  }

  lemma NumPadded(s: seq<bool>, n: nat)
    requires n <= |s| && forall k :: n <= k < |s| ==> !s[k]
    ensures Num(s) == Num(s[..n])
  {
    NumSplit(s, n);
    NumZero(s[n..]);
    ScaledIs(0, n);
  }

  /** The low bits are the value modulo a power of two. */
  lemma NumLow(v: seq<bool>, width: nat)
    requires width <= |v|
    ensures Num(v[..width]) == Num(v) % Pow2(width)
  {
    NumSplit(v, width);
    NumBound(v[..width]);
    ScaledIs(Num(v[width..]), width);
    Remainder(Num(v[width..]), Pow2(width), Num(v[..width]));
  }

  /** The mask is `(1 << width) - 1`, or all ones when that shift is not allowed. */
  lemma MaskValue(width: nat)
    ensures Num(Mask(width)) == if width >= 64 then Pow2(64) - 1 else Pow2(width) - 1
  {
    var m := Mask(width);
    if width >= 64 {
      NumOnes(m);
    } else {
      NumPadded(m, width);
      NumOnes(m[..width]);
    }
  }

  /* --------------------------------- the stream ------------------------------ */

  /** Bit i of the stream lives in word i / wordBits at position i % wordBits. */
  function Stream(words: seq<Word>, wordBits: nat): (r: seq<bool>)
    requires 0 < wordBits <= 64
    ensures |r| == |words| * wordBits
  {
    seq(|words| * wordBits, i requires 0 <= i < |words| * wordBits =>
      StreamIndex(i, |words|, wordBits);
      words[i / wordBits][i % wordBits])
  }

  lemma StreamIndex(i: nat, n: nat, wordBits: nat)
    requires 0 < wordBits <= 64 && i < n * wordBits
    ensures 0 <= i / wordBits < n && 0 <= i % wordBits < 64
  {
    MulMono(n, i / wordBits, wordBits);
  }

  /** Position b of word j is bit j * wordBits + b of the stream. */
  lemma StreamAt(words: seq<Word>, wordBits: nat, j: nat, b: nat)
    requires 0 < wordBits <= 64 && j < |words| && b < wordBits
    ensures j * wordBits + b < |words| * wordBits
    ensures Stream(words, wordBits)[j * wordBits + b] == words[j][b]
  {
    assert j * wordBits + wordBits == (j + 1) * wordBits <= |words| * wordBits;
    Remainder(j, wordBits, b);
  }

  /** What writing a field should do: bits [offset, offset + width) become the low
      bits of the value, every other bit of every word stays. */
  function Packed(words: seq<Word>, wordBits: nat, offset: nat, width: nat, value: Word): (r: seq<Word>)
    requires width <= 64
    ensures |r| == |words|
  {
    seq(|words|, j requires 0 <= j < |words| =>
      seq(64, b requires 0 <= b < 64 =>
        if b < wordBits && offset <= j * wordBits + b < offset + width then value[j * wordBits + b - offset]
        else words[j][b]))
  }

  /** What reading a field should give: its bits, extended with zeros. */
  function FieldOf(words: seq<Word>, wordBits: nat, offset: nat, width: nat): Word
    requires 0 < wordBits <= 64 && offset + width <= |words| * wordBits
  {
    seq(64, k requires 0 <= k < 64 => k < width && Stream(words, wordBits)[offset + k])
  }

  /* ----------------------------- the compiler's way --------------------------- */

  function Blend(word: Word, bits: Word, mask: Word): Word {
    Or(And(word, Not(mask)), And(bits, mask))
  }

  function Min(a: nat, b: nat): nat { if a < b then a else b }

  /** The words after the masked writes to one or two of them. */
  function PackWords(words: seq<Word>, wordBits: nat, offset: nat, width: nat, value: Word): (r: seq<Word>)
    requires 0 < wordBits <= 64 && width <= 64 && offset < |words| * wordBits && offset + width <= |words| * wordBits
    ensures |r| == |words|
  {
    var v := And(value, Mask(width));
    var idx, sh := offset / wordBits, offset % wordBits;
    StreamIndex(offset, |words|, wordBits);
    var lo := words[idx := Blend(words[idx], Shl(v, sh), Shl(Mask(Min(width, wordBits - sh)), sh))];
    if sh + width > wordBits then
      NextWord(|words|, wordBits, offset, width);
      lo[idx + 1 := Blend(lo[idx + 1], Shr(v, wordBits - sh), Mask(sh + width - wordBits))]
    else lo
  }

  lemma NextWord(n: nat, wordBits: nat, offset: nat, width: nat)
    requires 0 < wordBits <= 64 && width <= 64 && offset + width <= n * wordBits
    requires offset % wordBits + width > wordBits
    ensures offset / wordBits + 1 < n && wordBits - offset % wordBits < 64
  {
    var idx := offset / wordBits;
    assert offset == idx * wordBits + offset % wordBits;
    MulMono(n, idx + 1, wordBits);
  }

  /** Which bits of word j belong to the field. */
  lemma FieldPlace(wordBits: nat, offset: nat, width: nat, j: nat, b: nat)
    requires 0 < wordBits && b < wordBits
    ensures var idx, sh := offset / wordBits, offset % wordBits;
            && (j < idx ==> j * wordBits + b < offset)
            && (j == idx ==> j * wordBits + b - offset == b - sh)
            && (j == idx + 1 ==> j * wordBits + b - offset == b + wordBits - sh)
            && (j >= idx + 2 ==> j * wordBits + b - offset >= 2 * wordBits - sh)
  {
    var idx, sh := offset / wordBits, offset % wordBits;
    assert offset == idx * wordBits + sh;
    MulMono(j + 1, idx, wordBits);
    MulMono(idx + 2, j, wordBits);
  }

  lemma PackWordAt(words: seq<Word>, wordBits: nat, offset: nat, width: nat, value: Word, j: nat, b: nat)
    requires 0 < wordBits <= 64 && width <= 64 && offset < |words| * wordBits && offset + width <= |words| * wordBits
    requires offset % wordBits + width <= 2 * wordBits && j < |words| && b < 64
    ensures PackWords(words, wordBits, offset, width, value)[j][b] ==
            Packed(words, wordBits, offset, width, value)[j][b]
  {
    var idx, sh := offset / wordBits, offset % wordBits;
    StreamIndex(offset, |words|, wordBits);
    if b < wordBits {
      FieldPlace(wordBits, offset, width, j, b);
    }
    if sh + width > wordBits {
      NextWord(|words|, wordBits, offset, width);
    }
  }

  /** The field lies in n words. */
  predicate Fits(n: nat, wordBits: nat, offset: nat, width: nat) {
    offset < n * wordBits && offset + width <= n * wordBits
  }

  /** The masked writes do what they should, for all words and values. */
  ghost predicate PacksRight(n: nat, wordBits: nat, offset: nat, width: nat)
    requires 0 < wordBits <= 64 && width <= 64 && Fits(n, wordBits, offset, width)
  {
    forall words: seq<Word>, value: Word | |words| == n ::
      PackWords(words, wordBits, offset, width, value) == Packed(words, wordBits, offset, width, value)
  }

  /** They do exactly when the field fits into the word it starts in and the next
      one. */
  lemma PackExact(n: nat, wordBits: nat, offset: nat, width: nat)
    requires 0 < wordBits <= 64 && width <= 64 && Fits(n, wordBits, offset, width)
    ensures PacksRight(n, wordBits, offset, width) <==> offset % wordBits + width <= 2 * wordBits
  {
    if offset % wordBits + width <= 2 * wordBits {
      forall words: seq<Word>, value: Word | |words| == n
        ensures PackWords(words, wordBits, offset, width, value) == Packed(words, wordBits, offset, width, value)
      {
        PackIsPacked(words, wordBits, offset, width, value);
      }
    } else {
      var words := seq(n, _ => Zero());
      PackTooWide(words, wordBits, offset, width);
    }
  }

  /** A field over three words owns the lowest bit of the third. */
  lemma ThirdWord(n: nat, wordBits: nat, offset: nat, width: nat)
    requires 0 < wordBits && offset + width <= n * wordBits && offset % wordBits + width > 2 * wordBits
    ensures var k := offset / wordBits + 2; k < n && offset <= k * wordBits < offset + width
  {
    var idx := offset / wordBits;
    assert offset == idx * wordBits + offset % wordBits;
    assert (idx + 2) * wordBits == idx * wordBits + 2 * wordBits;
    MulMono(n, idx + 2, wordBits);
  }

  lemma ThirdUntouched(words: seq<Word>, wordBits: nat, offset: nat, width: nat, value: Word, k: nat)
    requires 0 < wordBits <= 64 && width <= 64 && offset < |words| * wordBits && offset + width <= |words| * wordBits
    requires k < |words| && k == offset / wordBits + 2
    ensures PackWords(words, wordBits, offset, width, value)[k] == words[k]
  {
    hide Blend;
    hide Mask;
    hide And;
    hide Shl;
    hide Shr;
    var v, idx, sh := And(value, Mask(width)), offset / wordBits, offset % wordBits;
    StreamIndex(offset, |words|, wordBits);
    var lo := words[idx := Blend(words[idx], Shl(v, sh), Shl(Mask(Min(width, wordBits - sh)), sh))];
    assert lo[k] == words[k];
  }

  /** It loses what belongs there. */
  lemma PackTooWide(words: seq<Word>, wordBits: nat, offset: nat, width: nat)
    requires 0 < wordBits <= 64 && width <= 64 && offset < |words| * wordBits && offset + width <= |words| * wordBits
    requires offset % wordBits + width > 2 * wordBits && forall j :: 0 <= j < |words| ==> words[j] == Zero()
    ensures PackWords(words, wordBits, offset, width, Mask(64)) != Packed(words, wordBits, offset, width, Mask(64))
  {
    hide PackWords;
    var k := offset / wordBits + 2;
    ThirdWord(|words|, wordBits, offset, width);
    ThirdUntouched(words, wordBits, offset, width, Mask(64), k);
    assert Packed(words, wordBits, offset, width, Mask(64))[k][0];
  }

  /** At whatever offset a field stands, it is written right exactly if it is at
      most one bit wider than a word.  The parser refuses it before that. */
  lemma PackAnywhere(wordBits: nat, width: nat)
    requires 0 < wordBits <= 64 && width <= 64
    ensures (forall n, offset | Fits(n, wordBits, offset, width) :: PacksRight(n, wordBits, offset, width)) <==>
            width <= wordBits + 1
  {
    hide PacksRight;
    if width <= wordBits + 1 {
      forall n, offset | Fits(n, wordBits, offset, width)
        ensures PacksRight(n, wordBits, offset, width)
      {
        PackExact(n, wordBits, offset, width);
      }
    } else {
      StickingOut(wordBits, width);
    }
  }

  /** At the last bit of a word, a wider field reaches into a third one. */
  lemma StickingOut(wordBits: nat, width: nat)
    requires 0 < wordBits <= 64 && wordBits + 1 < width <= 64
    ensures Fits(width + 1, wordBits, wordBits - 1, width) && !PacksRight(width + 1, wordBits, wordBits - 1, width)
  {
    hide PacksRight;
    MulMono(1, wordBits, width);
    assert (width + 1) * wordBits == wordBits * width + wordBits;
    PackExact(width + 1, wordBits, wordBits - 1, width);
    Remainder(0, wordBits, wordBits - 1);
  }

  lemma PackIsPacked(words: seq<Word>, wordBits: nat, offset: nat, width: nat, value: Word)
    requires 0 < wordBits <= 64 && width <= 64 && offset < |words| * wordBits && offset + width <= |words| * wordBits
    requires offset % wordBits + width <= 2 * wordBits
    ensures PackWords(words, wordBits, offset, width, value) == Packed(words, wordBits, offset, width, value)
  {
    var a, b := PackWords(words, wordBits, offset, width, value), Packed(words, wordBits, offset, width, value);
    forall j | 0 <= j < |words|
      ensures a[j] == b[j]
    {
      forall k | 0 <= k < 64
        ensures a[j][k] == b[j][k]
      {
        PackWordAt(words, wordBits, offset, width, value, j, k);
      }
    }
  }

  method BfPack(words: array<Word>, wordBits: nat, offset: nat, width: nat, value: Word)
    requires 0 < wordBits <= 64 && width <= 64
    requires offset < words.Length * wordBits && offset + width <= words.Length * wordBits
    modifies words
    ensures words[..] == PackWords(old(words[..]), wordBits, offset, width, value)
    ensures offset % wordBits + width <= 2 * wordBits ==>
              words[..] == Packed(old(words[..]), wordBits, offset, width, value)
  {
    ghost var before := words[..];
    var v := And(value, Mask(width));
    var idx, sh := offset / wordBits, offset % wordBits;
    StreamIndex(offset, words.Length, wordBits);
    var lobits := if width < wordBits - sh then width else wordBits - sh;
    var loMask := Shl(Mask(lobits), sh);
    words[idx] := Or(And(words[idx], Not(loMask)), And(Shl(v, sh), loMask));
    if sh + width > wordBits {
      NextWord(words.Length, wordBits, offset, width);
      var hiMask := Mask(sh + width - wordBits);
      words[idx + 1] := Or(And(words[idx + 1], Not(hiMask)), And(Shr(v, wordBits - sh), hiMask));
    }
    if sh + width <= 2 * wordBits {
      PackIsPacked(before, wordBits, offset, width, value);
    }
  }

  /** The masked reads of the word a field starts in and, if it goes on, the next. */
  function ReadWords(words: seq<Word>, wordBits: nat, idx: nat, sh: nat, width: nat): Word
    requires sh < wordBits <= 64 && width <= 64
    requires idx < |words| && (sh + width > wordBits ==> idx + 1 < |words|)
  {
    var lo := And(words[idx], Mask(wordBits));
    var v := if sh != 0 then Shr(lo, sh) else lo;
    And(if sh + width > wordBits then Or(v, Shl(And(words[idx + 1], Mask(wordBits)), wordBits - sh)) else v,
        Mask(width))
  }

  /** The masked word, shifted down or up. */
  lemma LowBit(word: Word, wordBits: nat, sh: nat, k: nat)
    requires sh < wordBits <= 64 && k < 64
    ensures var lo := And(word, Mask(wordBits));
            (if sh != 0 then Shr(lo, sh) else lo)[k] == (sh + k < wordBits && word[sh + k])
  {
  }

  lemma HighBit(word: Word, wordBits: nat, up: nat, k: nat)
    requires wordBits <= 64 && up < 64 && k < 64
    ensures Shl(And(word, Mask(wordBits)), up)[k] == (up <= k < up + wordBits && word[k - up])
  {
  }

  /** Bit k of what is read. */
  lemma ReadBit(words: seq<Word>, wordBits: nat, idx: nat, sh: nat, width: nat, k: nat)
    requires sh < wordBits <= 64 && width <= 64 && k < 64 && sh + width <= 2 * wordBits
    requires idx < |words| && (sh + width > wordBits ==> idx + 1 < |words|)
    ensures ReadWords(words, wordBits, idx, sh, width)[k] ==
            (k < width && if sh + k < wordBits then words[idx][sh + k] else words[idx + 1][sh + k - wordBits])
  {
    hide Shl;
    hide Shr;
    LowBit(words[idx], wordBits, sh, k);
    if sh + width > wordBits {
      HighBit(words[idx + 1], wordBits, wordBits - sh, k);
    }
  }

  lemma ReadIsField(words: seq<Word>, wordBits: nat, offset: nat, idx: nat, sh: nat, width: nat)
    requires sh < wordBits <= 64 && width <= 64 && offset == idx * wordBits + sh && offset + width <= |words| * wordBits
    requires idx < |words| && (sh + width > wordBits ==> idx + 1 < |words|) && sh + width <= 2 * wordBits
    ensures ReadWords(words, wordBits, idx, sh, width) == FieldOf(words, wordBits, offset, width)
  {
    hide Stream;
    hide ReadWords;
    var a, b := ReadWords(words, wordBits, idx, sh, width), FieldOf(words, wordBits, offset, width);
    forall k | 0 <= k < 64
      ensures a[k] == b[k]
    {
      ReadBit(words, wordBits, idx, sh, width, k);
      if k < width {
        FieldBit(words, wordBits, offset, width, idx, sh, k);
      }
    }
  }

  /** The run-time read: one or two loads of wordBits bits each. */
  method BfGet(words: seq<Word>, wordBits: nat, offset: nat, width: nat) returns (v: Word)
    requires 0 < wordBits <= 64 && width <= 64
    requires offset < |words| * wordBits && offset + width <= |words| * wordBits
    ensures offset % wordBits + width <= 2 * wordBits ==> v == FieldOf(words, wordBits, offset, width)
  {
    hide And;
    hide Or;
    hide Shl;
    hide Shr;
    hide Mask;
    hide FieldOf;
    var idx, sh := offset / wordBits, offset % wordBits;
    StreamIndex(offset, |words|, wordBits);
    var lo := And(words[idx], Mask(wordBits));
    v := if sh != 0 then Shr(lo, sh) else lo;
    if sh + width > wordBits {
      NextWord(|words|, wordBits, offset, width);
      var hi := And(words[idx + 1], Mask(wordBits));
      v := Or(v, Shl(hi, wordBits - sh));
    }
    v := And(v, Mask(width));
    if sh + width <= 2 * wordBits {
      ReadIsField(words, wordBits, offset, idx, sh, width);
    }
  }

  /** Bit k of a field comes from the word it starts in or from the next one. */
  lemma FieldBit(words: seq<Word>, wordBits: nat, offset: nat, width: nat, idx: nat, sh: nat, k: nat)
    requires 0 < wordBits <= 64 && width <= 64 && offset + width <= |words| * wordBits && k < width
    requires offset == idx * wordBits + sh && sh < wordBits && sh + width <= 2 * wordBits
    ensures if sh + k < wordBits
            then idx < |words| && Stream(words, wordBits)[offset + k] == words[idx][sh + k]
            else idx + 1 < |words| && Stream(words, wordBits)[offset + k] == words[idx + 1][sh + k - wordBits]
  {
    if sh + k < wordBits {
      StreamBit(words, wordBits, offset + k, idx, sh + k);
    } else {
      assert (idx + 1) * wordBits == idx * wordBits + wordBits;
      StreamBit(words, wordBits, offset + k, idx + 1, sh + k - wordBits);
    }
  }

  lemma StreamBit(words: seq<Word>, wordBits: nat, i: nat, j: nat, b: nat)
    requires 0 < wordBits <= 64 && i < |words| * wordBits && i == j * wordBits + b && b < wordBits
    ensures j < |words| && Stream(words, wordBits)[i] == words[j][b]
  {
    MulMono(|words|, j, wordBits);
    StreamAt(words, wordBits, j, b);
  }

  /* ---------------------------- laws of the fields --------------------------- */

  datatype BitField = BitField(offset: nat, width: nat)

  predicate Disjoint(a: BitField, b: BitField) {
    a.offset + a.width <= b.offset || b.offset + b.width <= a.offset
  }

  /** Writing a field overwrites one stretch of the stream. */
  lemma PackedStream(words: seq<Word>, wordBits: nat, f: BitField, value: Word, i: nat)
    requires 0 < wordBits <= 64 && f.width <= 64 && i < |words| * wordBits
    ensures Stream(Packed(words, wordBits, f.offset, f.width, value), wordBits)[i]
            == if f.offset <= i < f.offset + f.width then value[i - f.offset] else Stream(words, wordBits)[i]
  {
    var j, b := i / wordBits, i % wordBits;
    StreamIndex(i, |words|, wordBits);
    assert i == j * wordBits + b;
    StreamAt(words, wordBits, j, b);
    StreamAt(Packed(words, wordBits, f.offset, f.width, value), wordBits, j, b);
  }

  /** Reading back gives the value modulo 2^width; disjoint fields read as before. */
  lemma ReadBack(words: seq<Word>, wordBits: nat, f: BitField, g: BitField, value: Word)
    requires 0 < wordBits <= 64 && f.width <= 64 && g.width <= 64
    requires f.offset + f.width <= |words| * wordBits && g.offset + g.width <= |words| * wordBits
    ensures var packed := Packed(words, wordBits, f.offset, f.width, value);
            && Num(FieldOf(packed, wordBits, f.offset, f.width)) == Num(value) % Pow2(f.width)
            && (Disjoint(f, g) ==>
                  FieldOf(packed, wordBits, g.offset, g.width) == FieldOf(words, wordBits, g.offset, g.width))
  {
    var packed := Packed(words, wordBits, f.offset, f.width, value);
    forall k | 0 <= k < 64
      ensures k < f.width ==> FieldOf(packed, wordBits, f.offset, f.width)[k] == value[k]
      ensures Disjoint(f, g) ==>
        FieldOf(packed, wordBits, g.offset, g.width)[k] == FieldOf(words, wordBits, g.offset, g.width)[k]
    {
      if k < f.width {
        PackedStream(words, wordBits, f, value, f.offset + k);
      }
      if k < g.width {
        PackedStream(words, wordBits, f, value, g.offset + k);
      }
    }
    var r := FieldOf(packed, wordBits, f.offset, f.width);
    assert r[..f.width] == value[..f.width];
    NumPadded(r, f.width);
    NumLow(value, f.width);
  }

  lemma DisjointPacksCommute(words: seq<Word>, wordBits: nat, f: BitField, v: Word, g: BitField, w: Word)
    requires f.width <= 64 && g.width <= 64 && Disjoint(f, g)
    ensures Packed(Packed(words, wordBits, f.offset, f.width, v), wordBits, g.offset, g.width, w)
         == Packed(Packed(words, wordBits, g.offset, g.width, w), wordBits, f.offset, f.width, v)
  {
    var a := Packed(Packed(words, wordBits, f.offset, f.width, v), wordBits, g.offset, g.width, w);
    var b := Packed(Packed(words, wordBits, g.offset, g.width, w), wordBits, f.offset, f.width, v);
    forall j | 0 <= j < |words|
      ensures a[j] == b[j]
    {
      forall k | 0 <= k < 64
        ensures a[j][k] == b[j][k]
      {
      }
    }
  }

  /* --------------------------- the constant constructor ---------------------- */

  /** Bits of the words from wordBits up are clear. */
  predicate Tidy(words: seq<Word>, wordBits: nat) {
    forall j, b :: 0 <= j < |words| && wordBits <= b < 64 ==> !words[j][b]
  }

  /** The fields lie in n words and each spans at most two of them. */
  predicate Layout(fields: seq<BitField>, n: nat, wordBits: nat)
    requires 0 < wordBits
  {
    forall i :: 0 <= i < |fields| ==>
      && fields[i].width <= 64
      && fields[i].offset < n * wordBits && fields[i].offset + fields[i].width <= n * wordBits
      && fields[i].offset % wordBits + fields[i].width <= 2 * wordBits
  }

  predicate AllDisjoint(fields: seq<BitField>) {
    forall i, k :: 0 <= i < k < |fields| ==> Disjoint(fields[i], fields[k])
  }

  /* ------------------------ how the fields come to lie there ------------------ */

  /** A field as it is written down: `name: width`. */
  datatype FieldDecl = FieldDecl(name: string, width: nat)

  datatype Storage = Refused | Storage(fields: seq<BitField>, wordCount: nat)

  const MAX_FIELDS := 128
  const UINT32_MAX := 0xFFFF_FFFF

  /** The bits in front of field n. */
  function Before(decls: seq<FieldDecl>, n: nat): nat
    requires n <= |decls|
  {
    if n == 0 then 0 else Before(decls, n - 1) + decls[n - 1].width
  }

  /** The first n fields have widths from one bit to a word and different names. */
  predicate Sound(decls: seq<FieldDecl>, wordBits: nat, n: nat)
    requires n <= |decls|
  {
    && (forall i :: 0 <= i < n ==> 0 < decls[i].width <= wordBits)
    && (forall i, k :: 0 <= i < k < n ==> decls[i].name != decls[k].name)
  }

  /** What the parser lets through. */
  predicate Declarable(decls: seq<FieldDecl>, wordBits: nat) {
    0 < |decls| <= 128 && Sound(decls, wordBits, |decls|)
  }

  /** The fields lie one behind the other. */
  predicate Consecutive(fields: seq<BitField>, decls: seq<FieldDecl>, n: nat)
    requires n <= |decls|
  {
    |fields| == n && forall i :: 0 <= i < n ==> fields[i] == BitField(Before(decls, i), decls[i].width)
  }

  lemma {:induction false} BeforeMono(decls: seq<FieldDecl>, i: nat, n: nat)
    requires i < n <= |decls|
    ensures Before(decls, i) + decls[i].width <= Before(decls, n)
  {
    if i < n - 1 {
      BeforeMono(decls, i, n - 1);
    }
  }

  lemma {:induction false} BeforeBound(decls: seq<FieldDecl>, wordBits: nat, n: nat)
    requires n <= |decls| && forall i :: 0 <= i < n ==> decls[i].width <= wordBits
    ensures Before(decls, n) <= n * wordBits
  {
    if n > 0 {
      BeforeBound(decls, wordBits, n - 1);
    }
  }

  /** Fields one behind the other never overlap, lie in the storage, and none
      reaches into a third word. */
  lemma {:induction false} ConsecutiveLayout(fields: seq<BitField>, decls: seq<FieldDecl>, n: nat, wordBits: nat)
    requires 0 < wordBits <= 64 && Declarable(decls, wordBits) && Consecutive(fields, decls, |decls|)
    requires Before(decls, |decls|) <= n * wordBits
    ensures Layout(fields, n, wordBits) && AllDisjoint(fields)
    ensures forall i :: 0 <= i < |fields| ==>
      Fits(n, wordBits, fields[i].offset, fields[i].width) &&
      PacksRight(n, wordBits, fields[i].offset, fields[i].width)
  {
    hide PacksRight;
    forall i | 0 <= i < |fields|
      ensures Fits(n, wordBits, fields[i].offset, fields[i].width) && fields[i].width <= wordBits
      ensures PacksRight(n, wordBits, fields[i].offset, fields[i].width)
    {
      BeforeMono(decls, i, |decls|);
      PackExact(n, wordBits, fields[i].offset, fields[i].width);
    }
    forall i, k | 0 <= i < k < |fields|
      ensures Disjoint(fields[i], fields[k])
    {
      BeforeMono(decls, i, k);
    }
  }

  /** The parser's loop over the fields: a bit field gets its storage exactly if it
      is declarable, each field behind the last one, in as few words as hold them. */
  method LayOut(decls: seq<FieldDecl>, wordBits: nat) returns (r: Storage)
    requires 0 < wordBits <= 64
    ensures r.Storage? <==> Declarable(decls, wordBits)
    ensures r.Storage? ==>
              && Consecutive(r.fields, decls, |decls|)
              && Layout(r.fields, r.wordCount, wordBits) && AllDisjoint(r.fields)
              && (r.wordCount - 1) * wordBits < Before(decls, |decls|) <= r.wordCount * wordBits
  {
    hide Layout;
    hide AllDisjoint;
    hide Consecutive;
    hide Sound;
    var fields: seq<BitField>, total := [], 0;
    NoneYet(decls, wordBits);
    while |fields| < |decls|
      invariant |fields| <= |decls| && |fields| <= MAX_FIELDS
      invariant Consecutive(fields, decls, |fields|)
      invariant total == Before(decls, |fields|)
      invariant Sound(decls, wordBits, |fields|)
    {
      var d := decls[|fields|];
      if |fields| >= MAX_FIELDS || d.width == 0 || d.width > wordBits {
        NotSound(decls, wordBits, |fields|);
        return Refused;
      }
      var taken := NameTaken(decls, |fields|, d.name);
      if taken {
        NotSound(decls, wordBits, |fields|);
        return Refused;
      }
      SizeBound(decls, wordBits, |fields|);
      NextSound(decls, wordBits, |fields|);
      NextConsecutive(fields, decls);
      assert total + d.width <= UINT32_MAX;  // the parser's check for an overflow never fires
      fields, total := fields + [BitField(total, d.width)], total + d.width;
    }
    if |fields| == 0 {
      return Refused;
    }
    var words := (total + wordBits - 1) / wordBits;
    RoundUp(total, wordBits);
    ConsecutiveLayout(fields, decls, words, wordBits);
    return Storage(fields, words);
  }

  lemma {:induction false} NextSound(decls: seq<FieldDecl>, wordBits: nat, n: nat)
    requires n < |decls| && Sound(decls, wordBits, n) && 0 < decls[n].width <= wordBits
    requires !exists i :: 0 <= i < n && decls[i].name == decls[n].name
    ensures Sound(decls, wordBits, n + 1)
  {
  }

  lemma {:induction false} NotSound(decls: seq<FieldDecl>, wordBits: nat, n: nat)
    requires n < |decls|
    ensures !(0 < decls[n].width <= wordBits) ==> !Sound(decls, wordBits, |decls|)
    ensures (exists i :: 0 <= i < n && decls[i].name == decls[n].name) ==> !Sound(decls, wordBits, |decls|)
  {
  }

  lemma {:induction false} NoneYet(decls: seq<FieldDecl>, wordBits: nat)
    ensures Consecutive([], decls, 0) && Sound(decls, wordBits, 0)
  {
  }

  lemma {:induction false} NextConsecutive(fields: seq<BitField>, decls: seq<FieldDecl>)
    requires |fields| < |decls| && Consecutive(fields, decls, |fields|)
    ensures var f := BitField(Before(decls, |fields|), decls[|fields|].width);
            Consecutive(fields + [f], decls, |fields| + 1)
  {
  }

  lemma {:induction false} SizeBound(decls: seq<FieldDecl>, wordBits: nat, n: nat)
    requires wordBits <= 64 && n < MAX_FIELDS && n <= |decls| && Sound(decls, wordBits, n)
    ensures Before(decls, n) <= MAX_FIELDS * 64
  {
    BeforeBound(decls, wordBits, n);
    MulMono(wordBits, 64, n);
  }

  lemma RoundUp(total: nat, wordBits: nat)
    requires wordBits > 0
    ensures var n := (total + wordBits - 1) / wordBits;
            0 <= n && (n - 1) * wordBits < total <= n * wordBits
  {
    var t := total + wordBits - 1;
    assert t == t / wordBits * wordBits + t % wordBits;
  }

  /** The scan for an earlier field of the same name. */
  method NameTaken(decls: seq<FieldDecl>, n: nat, name: string) returns (taken: bool)
    requires n <= |decls|
    ensures taken <==> exists i :: 0 <= i < n && decls[i].name == name
  {
    for i := 0 to n
      invariant forall k :: 0 <= k < i ==> decls[k].name != name
    {
      if decls[i].name == name {
        return true;
      }
    }
    return false;
  }

  /** The number that the first n initialisers describe. */
  function FieldSum(fields: seq<BitField>, values: seq<Word>, n: nat): nat
    requires n <= |fields| && n <= |values|
  {
    if n == 0 then 0
    else
      var f := fields[n - 1];
      FieldSum(fields, values, n - 1) + (Num(values[n - 1]) % Pow2(f.width)) * Pow2(f.offset)
  }

  /** Nothing is set where a later field goes. */
  predicate Untouched(words: seq<Word>, wordBits: nat, f: BitField)
    requires 0 < wordBits <= 64
  {
    forall i :: f.offset <= i < f.offset + f.width && i < |words| * wordBits ==> !Stream(words, wordBits)[i]
  }

  lemma NumBehind(a: seq<bool>, x: seq<bool>, y: seq<bool>, d: nat)
    requires Num(x) == Num(y) + d
    ensures Num(a + x) == Num(a + y) + Scaled(d, |a|)
  {
    hide Num;
    hide Scaled;
    NumAppend(a, x);
    NumAppend(a, y);
    ScaledSum(Num(y), d, |a|);
  }

  lemma NumSplice(a: seq<bool>, z: seq<bool>, v: seq<bool>, b: seq<bool>)
    requires |z| == |v| && forall i :: 0 <= i < |z| ==> !z[i]
    ensures Num(a + (v + b)) == Num(a + (z + b)) + Scaled(Num(v), |a|)
  {
    NumAppend(v, b);
    NumAppend(z, b);
    NumZero(z);
    NumBehind(a, v + b, z + b, Num(v));
  }

  /** Writing into clear bits adds the value, shifted to its place. */
  lemma PackAdds(words: seq<Word>, wordBits: nat, f: BitField, value: Word)
    requires 0 < wordBits <= 64 && f.width <= 64 && f.offset + f.width <= |words| * wordBits
    requires Untouched(words, wordBits, f)
    ensures Num(Stream(Packed(words, wordBits, f.offset, f.width, value), wordBits))
            == Num(Stream(words, wordBits)) + (Num(value) % Pow2(f.width)) * Pow2(f.offset)
  {
    var s, t := Stream(words, wordBits), Stream(Packed(words, wordBits, f.offset, f.width, value), wordBits);
    var v := value[..f.width];
    var a, z, b := s[..f.offset], s[f.offset..f.offset + f.width], s[f.offset + f.width..];
    assert s == a + (z + b);
    forall i | 0 <= i < |s|
      ensures t[i] == (a + (v + b))[i]
    {
      PackedStream(words, wordBits, f, value, i);
    }
    assert t == a + (v + b);
    NumSplice(a, z, v, b);
    NumLow(value, f.width);
    ScaledIs(Num(v), f.offset);
  }

  lemma StillUntouched(words: seq<Word>, wordBits: nat, f: BitField, value: Word, g: BitField)
    requires 0 < wordBits <= 64 && f.width <= 64 && Disjoint(f, g) && Untouched(words, wordBits, g)
    ensures Untouched(Packed(words, wordBits, f.offset, f.width, value), wordBits, g)
  {
    forall i | g.offset <= i < g.offset + g.width && i < |words| * wordBits
      ensures !Stream(Packed(words, wordBits, f.offset, f.width, value), wordBits)[i]
    {
      PackedStream(words, wordBits, f, value, i);
    }
  }

  lemma ZeroStart(words: seq<Word>, wordBits: nat, fields: seq<BitField>)
    requires 0 < wordBits <= 64 && forall j :: 0 <= j < |words| ==> words[j] == Zero()
    ensures Num(Stream(words, wordBits)) == 0 && Packable(words, wordBits, fields, 0)
  {
    var s := Stream(words, wordBits);
    forall i | 0 <= i < |s|
      ensures !s[i]
    {
      StreamIndex(i, |words|, wordBits);
    }
    NumZero(s);
  }

  /** The words of a constructor with constant values; extra values are ignored.
      Read as one number they are the sum of the fields, and the mask in front of
      each initialiser never changes a word. */
  method ConstantWords(fields: seq<BitField>, values: seq<Word>, wordCount: nat,
          wordBits: nat) returns (inits: seq<Word>)
    requires 0 < wordBits <= 64 && Layout(fields, wordCount, wordBits) && AllDisjoint(fields)
    ensures |inits| == wordCount && Tidy(inits, wordBits)
    ensures Num(Stream(inits, wordBits)) == FieldSum(fields, values, Min(|fields|, |values|))
    ensures forall j :: 0 <= j < |inits| ==> Num(inits[j]) < Pow2(wordBits)
  {
    var words := new Word[wordCount](_ => Zero());
    ZeroStart(words[..], wordBits, fields);
    var i := 0;
    while i < |values|
      invariant 0 <= i <= |values| && i <= |fields|
      invariant Packable(words[..], wordBits, fields, i)
      invariant Num(Stream(words[..], wordBits)) == FieldSum(fields, values, i)
    {
      if i >= |fields| {
        break;
      }
      PackNext(words[..], wordBits, fields, values, i);
      BfPack(words, wordBits, fields[i].offset, fields[i].width, values[i]);
      i := i + 1;
    }
    inits := MaskedWords(words, wordBits);
    forall j | 0 <= j < |inits|
      ensures Num(inits[j]) < Pow2(wordBits)
    {
      TidyBound(inits[j], wordBits);
    }
  }

  /** The initialisers of the storage words. */
  method MaskedWords(words: array<Word>, wordBits: nat) returns (inits: seq<Word>)
    requires Tidy(words[..], wordBits)
    ensures inits == words[..]
  {
    inits := [];
    var k := 0;
    while k < words.Length
      invariant 0 <= k <= words.Length && inits == words[..k]
    {
      var w := And(words[k], Mask(wordBits));
      assert words[..][k] == words[k];
      assert w == words[k];
      inits := inits + [w];
      k := k + 1;
    }
  }

  predicate Packable(words: seq<Word>, wordBits: nat, fields: seq<BitField>, n: nat)
    requires 0 < wordBits <= 64
  {
    Tidy(words, wordBits) && forall k :: n <= k < |fields| ==> Untouched(words, wordBits, fields[k])
  }

  lemma PackNext(words: seq<Word>, wordBits: nat, fields: seq<BitField>, values: seq<Word>, i: nat)
    requires 0 < wordBits <= 64 && Layout(fields, |words|, wordBits) && AllDisjoint(fields)
    requires i < |fields| && i < |values| && Packable(words, wordBits, fields, i)
    requires Num(Stream(words, wordBits)) == FieldSum(fields, values, i)
    ensures var words' := Packed(words, wordBits, fields[i].offset, fields[i].width, values[i]);
            Packable(words', wordBits, fields, i + 1) && Num(Stream(words', wordBits)) ==
                    FieldSum(fields, values, i + 1)
  {
    PackAdds(words, wordBits, fields[i], values[i]);
    forall k | i < k < |fields|
      ensures Untouched(Packed(words, wordBits, fields[i].offset, fields[i].width, values[i]), wordBits, fields[k])
    {
      StillUntouched(words, wordBits, fields[i], values[i], fields[k]);
    }
  }

  lemma TidyBound(w: Word, wordBits: nat)
    requires wordBits <= 64 && forall b :: wordBits <= b < 64 ==> !w[b]
    ensures Num(w) < Pow2(wordBits)
  {
    NumPadded(w, wordBits);
    NumBound(w[..wordBits]);
  }
}
