/** Small shared vocabulary. */
module Basics {

  datatype Option<+T> = None | Some(value: T)

  datatype Result<+R, +E> = Success(value: R) | Failure(error: E)

  /** `n * size` by repeated addition: the start of block `n` among blocks of `size` elements. */
  function Times(n: nat, size: nat): nat {
    if n == 0 then 0 else Times(n - 1, size) + size
  }

  lemma {:induction false} TimesIsProduct(n: nat, size: nat)
    ensures Times(n, size) == n * size
  {
    if n > 0 { TimesIsProduct(n - 1, size); }
  }

  /** Blocks do not overlap. */
  lemma {:induction false} TimesBelow(i: nat, n: nat, size: nat)
    requires i < n
    ensures Times(i, size) + size <= Times(n, size)
  {
    if i < n - 1 { TimesBelow(i, n - 1, size); }
  }

  lemma TimesApart(i: nat, j: nat, size: nat)
    requires i != j
    ensures Times(i, size) + size <= Times(j, size) || Times(j, size) + size <= Times(i, size)
  {
    if i < j { TimesBelow(i, j, size); } else { TimesBelow(j, i, size); }
  }

  lemma {:induction false} TimesAtLeast(n: nat, size: nat)
    requires size > 0
    ensures n <= Times(n, size)
  {
    if n > 0 { TimesAtLeast(n - 1, size); }
  }

  /** Division finds the block of an element, the remainder its place inside. */
  lemma TimesDiv(c: nat, size: nat)
    requires size > 0
    ensures Times(c / size, size) + c % size == c
  {
    TimesIsProduct(c / size, size);
  }

  /** An element belongs to one block only. */
  lemma TimesUnique(c: nat, n: nat, size: nat)
    requires size > 0 && Times(n, size) <= c < Times(n, size) + size
    ensures c / size == n && c % size == c - Times(n, size)
  {
    TimesDiv(c, size);
    if c / size != n { TimesApart(c / size, n, size); }
  }
}
