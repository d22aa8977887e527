/** The few facts about multiplication and division the other modules need. */
module Arithmetic {
  lemma MulMonotone(a: int, b: int, c: nat)
    requires a <= b
    ensures a * c <= b * c
  {
  }

  lemma MulCancel(a: int, b: int, c: nat)
    requires a * c < b * c
    ensures a < b
  {
    if b <= a { MulMonotone(b, a, c); }
  }

  lemma MulNext(a: int, c: int)
    ensures (a + 1) * c == a * c + c
  {
  }

  /** `k` lies in block `k / size` when `k` is below `blocks * size`. */
  lemma BlockInRange(k: nat, size: nat, blocks: nat)
    requires k < blocks * size
    ensures size > 0 && k / size < blocks
  {
    if size > 0 {
      assert (k / size) * size <= k;
      MulCancel(k / size, blocks, size);
    }
  }

  lemma BlockOf(k: nat, size: nat, block: nat, offset: nat)
    requires offset < size && k == block * size + offset
    ensures k / size == block && k % size == offset
  {
    assert k == (k / size) * size + k % size;
    assert (k / size) * size < (block + 1) * size;
    MulCancel(k / size, block + 1, size);
    assert block * size < (k / size + 1) * size;
    MulCancel(block, k / size + 1, size);
  }
}
