/**
 * Sixteen-bit register words and the bit-fields that overlay them.
 *
 * The driver names the bits of a register by laying a packed struct of
 * bit-fields over the `uint16_t` word.  Here a field is an explicit
 * (offset, width) pair and access is an explicit mask/shift pair, so that no
 * compiler's bit-field allocation rule is involved.  Offsets and widths are
 * themselves 16-bit values: the solver then reasons about every shift as a
 * plain bit-vector operation.
 */
module Bits {

  /** One register word (`uint16_t`). */
  type Word = bv16

  /** One byte (`uint8_t`). */
  type Byte = bv8

  /** The low `width` bits set: `Mask(1) == 1`, `Mask(5) == 0x1F`, `Mask(16) == 0xFFFF`. */
  function Mask(width: Word): Word
    requires width <= 16
  {
    ((1 as Word) << width) - 1
  }

  /** A bit-field: `width` bits of a word starting at bit `offset` (bit 0 is the least significant). */
  datatype Field = Field(offset: Word, width: Word)
  {
    /** The field lies inside one 16-bit word. */
    predicate Valid()
    {
      End() <= 16
    }

    /** The first bit position after the field. */
    function End(): nat
    {
      offset as nat + width as nat
    }
  }

  /** The bits of a word that field `f` owns, in place. */
  function InPlace(f: Field): Word
    requires f.Valid()
  {
    Mask(f.width) << f.offset
  }

  /** Reads field `f` of `w`, as `reg->refined.F` does. */
  function Get(w: Word, f: Field): Word
    requires f.Valid()
  {
    (w & InPlace(f)) >> f.offset
  }

  /**
   * Writes `v` into field `f` of `w`, as `reg->refined.F = v` does: the bits
   * of `v` beyond the field's width are dropped, as for an unsigned C
   * bit-field, and every bit outside the field is kept.
   */
  function Set(w: Word, f: Field, v: Word): Word
    requires f.Valid()
  {
    (w & !InPlace(f)) | ((v & Mask(f.width)) << f.offset)
  }

  /** A value read from a field has no bit set beyond the field's width. */
  lemma GetFitsWidth(w: Word, f: Field)
    requires f.Valid()
    ensures Get(w, f) & !Mask(f.width) == 0
  {
    FitsWidth(w, f.offset, f.width);
  }

  lemma FitsWidth(w: Word, offset: Word, width: Word)
    requires offset as nat + width as nat <= 16
    ensures ((w & (Mask(width) << offset)) >> offset) & !Mask(width) == 0
  {
  }

  /**
   * Reading a field after writing `v` into it gives `v` truncated to the
   * field's width, and the write keeps every bit of the word outside the
   * field.
   */
  lemma GetAfterSet(w: Word, f: Field, v: Word)
    requires f.Valid()
    ensures Get(Set(w, f, v), f) == v & Mask(f.width)
    ensures Set(w, f, v) & !InPlace(f) == w & !InPlace(f)
  {
    var o := f.offset;
    if o == 0 { GetAfterSetAt0(w, f, v); }
    else if o == 1 { GetAfterSetAt1(w, f, v); }
    else if o == 2 { GetAfterSetAt2(w, f, v); }
    else if o == 3 { GetAfterSetAt3(w, f, v); }
    else if o == 4 { GetAfterSetAt4(w, f, v); }
    else if o == 5 { GetAfterSetAt5(w, f, v); }
    else if o == 6 { GetAfterSetAt6(w, f, v); }
    else if o == 7 { GetAfterSetAt7(w, f, v); }
    else if o == 8 { GetAfterSetAt8(w, f, v); }
    else if o == 9 { GetAfterSetAt9(w, f, v); }
    else if o == 10 { GetAfterSetAt10(w, f, v); }
    else if o == 11 { GetAfterSetAt11(w, f, v); }
    else if o == 12 { GetAfterSetAt12(w, f, v); }
    else if o == 13 { GetAfterSetAt13(w, f, v); }
    else if o == 14 { GetAfterSetAt14(w, f, v); }
    else if o == 15 { GetAfterSetAt15(w, f, v); }
    else { GetAfterSetAt16(w, f, v); }
  }

  // `GetAfterSet` for one offset at a time: with the offset a constant the
  // shifts are fixed, and a single lemma for a symbolic offset is too costly
  // for the solver.

  lemma GetAfterSetAt0(w: Word, f: Field, v: Word)
    requires f.Valid() && f.offset == 0
    ensures Get(Set(w, f, v), f) == v & Mask(f.width)
    ensures Set(w, f, v) & !InPlace(f) == w & !InPlace(f)
  {
  }

  lemma GetAfterSetAt1(w: Word, f: Field, v: Word)
    requires f.Valid() && f.offset == 1
    ensures Get(Set(w, f, v), f) == v & Mask(f.width)
    ensures Set(w, f, v) & !InPlace(f) == w & !InPlace(f)
  {
  }

  lemma GetAfterSetAt2(w: Word, f: Field, v: Word)
    requires f.Valid() && f.offset == 2
    ensures Get(Set(w, f, v), f) == v & Mask(f.width)
    ensures Set(w, f, v) & !InPlace(f) == w & !InPlace(f)
  {
  }

  lemma GetAfterSetAt3(w: Word, f: Field, v: Word)
    requires f.Valid() && f.offset == 3
    ensures Get(Set(w, f, v), f) == v & Mask(f.width)
    ensures Set(w, f, v) & !InPlace(f) == w & !InPlace(f)
  {
  }

  lemma GetAfterSetAt4(w: Word, f: Field, v: Word)
    requires f.Valid() && f.offset == 4
    ensures Get(Set(w, f, v), f) == v & Mask(f.width)
    ensures Set(w, f, v) & !InPlace(f) == w & !InPlace(f)
  {
  }

  lemma GetAfterSetAt5(w: Word, f: Field, v: Word)
    requires f.Valid() && f.offset == 5
    ensures Get(Set(w, f, v), f) == v & Mask(f.width)
    ensures Set(w, f, v) & !InPlace(f) == w & !InPlace(f)
  {
  }

  lemma GetAfterSetAt6(w: Word, f: Field, v: Word)
    requires f.Valid() && f.offset == 6
    ensures Get(Set(w, f, v), f) == v & Mask(f.width)
    ensures Set(w, f, v) & !InPlace(f) == w & !InPlace(f)
  {
  }

  lemma GetAfterSetAt7(w: Word, f: Field, v: Word)
    requires f.Valid() && f.offset == 7
    ensures Get(Set(w, f, v), f) == v & Mask(f.width)
    ensures Set(w, f, v) & !InPlace(f) == w & !InPlace(f)
  {
  }

  lemma GetAfterSetAt8(w: Word, f: Field, v: Word)
    requires f.Valid() && f.offset == 8
    ensures Get(Set(w, f, v), f) == v & Mask(f.width)
    ensures Set(w, f, v) & !InPlace(f) == w & !InPlace(f)
  {
  }

  lemma GetAfterSetAt9(w: Word, f: Field, v: Word)
    requires f.Valid() && f.offset == 9
    ensures Get(Set(w, f, v), f) == v & Mask(f.width)
    ensures Set(w, f, v) & !InPlace(f) == w & !InPlace(f)
  {
  }

  lemma GetAfterSetAt10(w: Word, f: Field, v: Word)
    requires f.Valid() && f.offset == 10
    ensures Get(Set(w, f, v), f) == v & Mask(f.width)
    ensures Set(w, f, v) & !InPlace(f) == w & !InPlace(f)
  {
  }

  lemma GetAfterSetAt11(w: Word, f: Field, v: Word)
    requires f.Valid() && f.offset == 11
    ensures Get(Set(w, f, v), f) == v & Mask(f.width)
    ensures Set(w, f, v) & !InPlace(f) == w & !InPlace(f)
  {
  }

  lemma GetAfterSetAt12(w: Word, f: Field, v: Word)
    requires f.Valid() && f.offset == 12
    ensures Get(Set(w, f, v), f) == v & Mask(f.width)
    ensures Set(w, f, v) & !InPlace(f) == w & !InPlace(f)
  {
  }

  lemma GetAfterSetAt13(w: Word, f: Field, v: Word)
    requires f.Valid() && f.offset == 13
    ensures Get(Set(w, f, v), f) == v & Mask(f.width)
    ensures Set(w, f, v) & !InPlace(f) == w & !InPlace(f)
  {
  }

  lemma GetAfterSetAt14(w: Word, f: Field, v: Word)
    requires f.Valid() && f.offset == 14
    ensures Get(Set(w, f, v), f) == v & Mask(f.width)
    ensures Set(w, f, v) & !InPlace(f) == w & !InPlace(f)
  {
  }

  lemma GetAfterSetAt15(w: Word, f: Field, v: Word)
    requires f.Valid() && f.offset == 15
    ensures Get(Set(w, f, v), f) == v & Mask(f.width)
    ensures Set(w, f, v) & !InPlace(f) == w & !InPlace(f)
  {
  }

  lemma GetAfterSetAt16(w: Word, f: Field, v: Word)
    requires f.Valid() && f.offset == 16
    ensures Get(Set(w, f, v), f) == v & Mask(f.width)
    ensures Set(w, f, v) & !InPlace(f) == w & !InPlace(f)
  {
  }
}
