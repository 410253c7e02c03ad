/** The bitmap allocator: blocks of 64 words of 64 bits. */
module EfsBitmap {
  import opened Basics

  const FULL: nat := 0xFFFF_FFFF_FFFF_FFFF

  // ----- Bits of a word -----

  predicate Bit(w: nat, k: nat) {
    if k == 0 then w % 2 == 1 else Bit(w / 2, k - 1)
  }

  function Pow2(k: nat): (r: nat)
    ensures r >= 1
  {
    if k == 0 then 1 else 2 * Pow2(k - 1)
  }

  /** `trailing_ones` */
  function TrailingOnes(w: nat): nat {
    if w % 2 == 0 then 0 else TrailingOnes(w / 2) + 1
  }

  lemma {:induction false} LowestClear(w: nat, k: nat)
    requires k <= TrailingOnes(w)
    ensures Bit(w, k) <==> k < TrailingOnes(w)
  {
    if k > 0 { LowestClear(w / 2, k - 1); }
  }

  /** Setting a clear bit with `|= 1 << k` is an addition. */
  lemma {:induction false} SetBit(w: nat, k: nat, j: nat)
    requires !Bit(w, k)
    ensures Bit(w + Pow2(k), j) <==> j == k || Bit(w, j)
  {
    if k == 0 {
      assert (w + 1) / 2 == w / 2;
    } else {
      assert (w + 2 * Pow2(k - 1)) / 2 == w / 2 + Pow2(k - 1);
      if j > 0 { SetBit(w / 2, k - 1, j - 1); }
    }
  }

  lemma {:induction false} SetBitBelow(w: nat, k: nat, n: nat)
    requires !Bit(w, k) && k < n && w < Pow2(n)
    ensures w + Pow2(k) < Pow2(n)
  {
    if k > 0 {
      Halves(w, Pow2(n - 1));
      SetBitBelow(w / 2, k - 1, n - 1);
      assert w / 2 + Pow2(k - 1) + 1 <= Pow2(n - 1);
    } else {
      Halves(w, Pow2(n - 1));
    }
  }

  lemma Halves(w: nat, m: nat)
    requires w < 2 * m
    ensures w / 2 < m && w == 2 * (w / 2) + w % 2
  {
  }

  lemma {:induction false} BitAtMost(w: nat, k: nat)
    requires Bit(w, k)
    ensures Pow2(k) <= w
  {
    if k > 0 { BitAtMost(w / 2, k - 1); }
  }

  lemma ClearBit(w: nat, k: nat, j: nat)
    requires Bit(w, k) && Pow2(k) <= w
    ensures Bit(w - Pow2(k), j) <==> j != k && Bit(w, j)
  {
    ClearedBit(w, k);
    SetBit(w - Pow2(k), k, j);
  }

  lemma {:induction false} ClearedBit(w: nat, k: nat)
    requires Bit(w, k) && Pow2(k) <= w
    ensures !Bit(w - Pow2(k), k)
  {
    if k > 0 {
      BitAtMost(w / 2, k - 1);
      assert (w - 2 * Pow2(k - 1)) / 2 == w / 2 - Pow2(k - 1);
      ClearedBit(w / 2, k - 1);
    }
  }

  lemma {:induction false} OnesBits(n: nat, k: nat)
    requires k < n
    ensures Bit(Pow2(n) - 1, k)
  {
    assert (Pow2(n) - 1) / 2 == Pow2(n - 1) - 1;
    if k > 0 { OnesBits(n - 1, k - 1); }
  }

  lemma {:induction false} OnesOnly(w: nat, n: nat)
    requires w < Pow2(n) && n <= TrailingOnes(w)
    ensures w == Pow2(n) - 1
  {
    if n > 0 { OnesOnly(w / 2, n - 1); }
  }

  lemma Pow64()
    ensures Pow2(64) == FULL + 1
  {
    assert Pow2(8) == 0x100;
    assert Pow2(16) == 0x1_0000;
    assert Pow2(24) == 0x100_0000;
    assert Pow2(32) == 0x1_0000_0000;
    assert Pow2(40) == 0x100_0000_0000;
    assert Pow2(48) == 0x1_0000_0000_0000;
    assert Pow2(56) == 0x100_0000_0000_0000;
  }

  /** A word that is not full has a clear bit where its trailing ones end. */
  lemma FreeInWord(w: nat)
    requires w < FULL
    ensures TrailingOnes(w) < 64 && !Bit(w, TrailingOnes(w)) && forall k :: 0 <= k < TrailingOnes(w) ==> Bit(w, k)
    ensures w + Pow2(TrailingOnes(w)) <= FULL
  {
    Pow64();
    if TrailingOnes(w) >= 64 { OnesOnly(w, 64); }
    LowestClear(w, TrailingOnes(w));
    forall k | 0 <= k < TrailingOnes(w) ensures Bit(w, k) { LowestClear(w, k); }
    SetBitBelow(w, TrailingOnes(w), 64);
  }

  lemma FullWord(k: nat)
    requires k < 64
    ensures Bit(FULL, k)
  {
    Pow64();
    OnesBits(64, k);
  }

  // ----- Bits of a bitmap -----

  ghost predicate BitmapOk(blocks: seq<seq<nat>>) {
    && (forall b :: 0 <= b < |blocks| ==> |blocks[b]| == 64)
    && (forall b, w :: 0 <= b < |blocks| && 0 <= w < |blocks[b]| ==> blocks[b][w] <= FULL)
  }

  /** `decomposition`: bit `i` is bit `i % 64` of word `i % 4096 / 64` of block `i / 4096`. */
  predicate IsSet(blocks: seq<seq<nat>>, i: nat)
    requires BitmapOk(blocks) && i < 4096 * |blocks|
  {
    Bit(blocks[i / 4096][i % 4096 / 64], i % 64)
  }

  /** Bit `i` is at `(b, w, k)`. */
  ghost predicate At(i: nat, b: nat, w: nat, k: nat) {
    i == 4096 * b + 64 * w + k && w < 64 && k < 64
  }

  lemma Decomposed(i: nat)
    ensures At(i, i / 4096, i % 4096 / 64, i % 64)
  {
  }

  lemma Composed(i: nat, b: nat, w: nat, k: nat)
    requires At(i, b, w, k)
    ensures i / 4096 == b && i % 4096 / 64 == w && i % 64 == k
  {
  }

  /** One word replaced. */
  function WithBits(blocks: seq<seq<nat>>, b: nat, w: nat, v: nat): seq<seq<nat>>
    requires b < |blocks| && w < |blocks[b]|
  {
    var words: seq<nat> := blocks[b][w := v];
    blocks[b := words]
  }

  lemma Replaced(blocks: seq<seq<nat>>, i: nat, b: nat, w: nat, k: nat, v: nat)
    requires BitmapOk(blocks) && i < 4096 * |blocks| && At(i, b, w, k) && v <= FULL
    requires forall j: nat :: j < 64 && j != k ==> Bit(v, j) == Bit(blocks[b][w], j)
    ensures BitmapOk(WithBits(blocks, b, w, v))
    ensures forall j: nat :: j < 4096 * |blocks| && j != i ==> IsSet(WithBits(blocks, b, w, v), j) == IsSet(blocks, j)
    ensures IsSet(WithBits(blocks, b, w, v), i) == Bit(v, k)
  {
    Composed(i, b, w, k);
    forall j: nat | j < 4096 * |blocks| && j != i ensures IsSet(WithBits(blocks, b, w, v), j) == IsSet(blocks, j) {
      Decomposed(j);
    }
  }

  lemma Before(blocks: seq<seq<nat>>, i: nat, b: nat, w: nat, k: nat, j: nat)
    requires BitmapOk(blocks) && i < 4096 * |blocks| && At(i, b, w, k) && j < i
    requires forall b' :: 0 <= b' < b ==> Filled(blocks[b'], 64)
    requires Filled(blocks[b], w) && forall k' :: 0 <= k' < k ==> Bit(blocks[b][w], k')
    ensures IsSet(blocks, j)
  {
    Decomposed(j);
    InOrder(j, j / 4096, j % 4096 / 64, j % 64, i, b, w, k);
    FullWord(j % 64);
  }

  lemma InOrder(j: nat, b': nat, w': nat, k': nat, i: nat, b: nat, w: nat, k: nat)
    requires At(j, b', w', k') && At(i, b, w, k) && j < i
    ensures b' < b || (b' == b && w' < w) || (b' == b && w' == w && k' < k)
  {
  }

  ghost predicate Filled(words: seq<nat>, n: nat) {
    n <= |words| && forall w :: 0 <= w < n ==> words[w] == FULL
  }

  class Bitmap {
    var blocks: seq<seq<nat>>

    constructor (n: nat)
      ensures BitmapOk(blocks) && |blocks| == n && forall i :: 0 <= i < 4096 * n ==> !IsSet(blocks, i)
    {
      blocks := seq(n, i => seq(64, j => 0));
      new;
      forall i: nat | i < 4096 * n ensures !IsSet(blocks, i) { ZeroWord(i % 64); }
    }

    constructor Load(blocks: seq<seq<nat>>)
      ensures this.blocks == blocks
    {
      this.blocks := blocks;
    }

    /** The first word of a block that is not full. */
    method FindWord(words: seq<nat>) returns (w: nat)
      ensures w <= |words| && Filled(words, w) && (w < |words| ==> words[w] != FULL)
    {
      w := 0;
      while w < |words| && words[w] == FULL
        invariant w <= |words| && Filled(words, w)
      {
        w := w + 1;
      }
    }

    /** Sets and returns the lowest clear bit; fails if there is none. */
    method Alloc() returns (r: Option<nat>)
      requires BitmapOk(blocks)
      modifies this
      ensures BitmapOk(blocks) && |blocks| == |old(blocks)|
      ensures r.None? ==> blocks == old(blocks) && forall j: nat :: j < 4096 * |blocks| ==> IsSet(old(blocks), j)
      ensures r.Some? ==>
                && r.value < 4096 * |blocks| && !IsSet(old(blocks), r.value)
                && (forall j: nat :: j < r.value ==> IsSet(old(blocks), j))
                && (forall j: nat :: j < 4096 * |blocks| ==> (IsSet(blocks, j) <==> j == r.value || IsSet(old(blocks), j)))
    {
      var b := 0;
      while b < |blocks|
        invariant b <= |blocks| && blocks == old(blocks)
        invariant forall b' :: 0 <= b' < b ==> Filled(blocks[b'], 64)
      {
        var w := FindWord(blocks[b]);
        if w < 64 {
          var i := AllocAt(b, w);
          return Some(i);
        }
        b := b + 1;
      }
      forall j: nat | j < 4096 * |blocks| ensures IsSet(blocks, j) {
        Decomposed(j);
        FullWord(j % 64);
      }
      r := None;
    }

    method AllocAt(b: nat, w: nat) returns (i: nat)
      requires BitmapOk(blocks) && b < |blocks| && w < 64 && blocks[b][w] != FULL
      requires Filled(blocks[b], w) && forall b' :: 0 <= b' < b ==> Filled(blocks[b'], 64)
      modifies this
      ensures BitmapOk(blocks) && |blocks| == |old(blocks)| && i < 4096 * |blocks|
      ensures !IsSet(old(blocks), i) && forall j: nat :: j < i ==> IsSet(old(blocks), j)
      ensures forall j: nat :: j < 4096 * |blocks| ==> (IsSet(blocks, j) <==> j == i || IsSet(old(blocks), j))
    {
      var v := blocks[b][w];
      var k := TrailingOnes(v);
      FreeInWord(v);
      i := 4096 * b + 64 * w + k;
      Composed(i, b, w, k);
      forall j: nat | j < i ensures IsSet(blocks, j) { Before(blocks, i, b, w, k, j); }
      forall j: nat ensures Bit(v + Pow2(k), j) <==> j == k || Bit(v, j) { SetBit(v, k, j); }
      Replaced(blocks, i, b, w, k, v + Pow2(k));
      blocks := WithBits(blocks, b, w, v + Pow2(k));
    }

    /** Clears a set bit; the code asserts that it is set. */
    method Dealloc(i: nat)
      requires BitmapOk(blocks) && i < 4096 * |blocks| && IsSet(blocks, i)
      modifies this
      ensures BitmapOk(blocks) && |blocks| == |old(blocks)|
      ensures forall j: nat :: j < 4096 * |blocks| ==> (IsSet(blocks, j) <==> j != i && IsSet(old(blocks), j))
    {
      var b, w, k := i / 4096, i % 4096 / 64, i % 64;
      Decomposed(i);
      var v := blocks[b][w];
      BitAtMost(v, k);
      forall j: nat ensures Bit(v - Pow2(k), j) <==> j != k && Bit(v, j) { ClearBit(v, k, j); }
      Replaced(blocks, i, b, w, k, v - Pow2(k));
      blocks := WithBits(blocks, b, w, v - Pow2(k));
    }
  }

  lemma {:induction false} ZeroWord(k: nat)
    ensures !Bit(0, k)
  {
    if k > 0 { ZeroWord(k - 1); }
  }
}
