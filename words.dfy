/**
 * 32-bit bus words and the masked write that every memory-mapped handler of the
 * driver performs (MAME's COMBINE_DATA): the bits selected by the byte-lane mask
 * take the new data, every other bit keeps the old contents.
 */
module Words {

  type Word = bv32

  /** COMBINE_DATA(&dest): (dest & ~mask) | (data & mask). */
  function Combine(dest: Word, data: Word, mask: Word): (r: Word)
    ensures r & mask == data & mask
    ensures r & !mask == dest & !mask
  {
    (dest & !mask) | (data & mask)
  }

  /** The two halves of Combine's contract determine the result bit for bit. */
  lemma CombineUnique(dest: Word, data: Word, mask: Word, r: Word)
    requires r & mask == data & mask
    requires r & !mask == dest & !mask
    ensures r == Combine(dest, data, mask)
  {
    assert r == (r & mask) | (r & !mask);
  }

  /** A full-width write replaces the word; an empty mask leaves it alone. */
  lemma CombineExtremes(dest: Word, data: Word)
    ensures Combine(dest, data, 0xffff_ffff) == data
    ensures Combine(dest, data, 0) == dest
  {
  }
}
