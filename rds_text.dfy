/**
 * Where an RDS text segment lands in the driver's fixed text buffers.
 *
 * Radiotext in type 2A groups carries four characters per group and in type
 * 2B groups two, at the segment address in the low four bits of block B; the
 * programme service name in type 0 groups carries two characters at the
 * two-bit segment address (section 3.1.5.3 and 3.1.5.1 of EN 50067).  The
 * driver keeps the assembled text in `rds_buffer2A[65]`, `rds_buffer2B[33]`
 * and `rds_buffer0A[9]`.  The functions below give the slice of the buffer a
 * segment occupies; their contracts show that the address widths keep every
 * segment inside the buffer with the last byte left for the terminating
 * zero, and the lemmas show that distinct addresses write distinct slices
 * and that together they cover the whole text area.
 */
module RdsText {
  import opened Bits
  import opened RdsBlockB

  /** Declared sizes of the text buffers, terminator included. */
  const RDS_BUFFER_2A_SIZE: nat := 65
  const RDS_BUFFER_2B_SIZE: nat := 33
  const RDS_BUFFER_0A_SIZE: nat := 9

  /** The characters `start` to `start + length - 1` of a text buffer. */
  datatype Segment = Segment(start: nat, length: nat)
  {
    function End(): nat
    {
      start + length
    }

    predicate Holds(p: nat)
    {
      start <= p < End()
    }
  }

  /** The slice of `rds_buffer2A` that a type 2A group with block B `w` fills. */
  function Segment2A(w: Word): (s: Segment)
    ensures s.length == 4
    ensures s.start % 4 == 0
    ensures s.End() <= RDS_BUFFER_2A_SIZE - 1
  {
    Segment(4 * DecodeGroup2(w).address as nat, 4)
  }

  /** The slice of `rds_buffer2B` that a type 2B group with block B `w` fills. */
  function Segment2B(w: Word): (s: Segment)
    ensures s.length == 2
    ensures s.start % 2 == 0
    ensures s.End() <= RDS_BUFFER_2B_SIZE - 1
  {
    Segment(2 * DecodeGroup2(w).address as nat, 2)
  }

  /** The slice of `rds_buffer0A` that a type 0 group with block B `w` fills. */
  function Segment0A(w: Word): (s: Segment)
    ensures s.length == 2
    ensures s.start % 2 == 0
    ensures s.End() <= RDS_BUFFER_0A_SIZE - 1
  {
    Segment(2 * DecodeGroup0(w).address as nat, 2)
  }

  /** Two type 2A groups with different segment addresses fill disjoint slices. */
  lemma Segments2ADisjoint(w1: Word, w2: Word)
    requires DecodeGroup2(w1).address != DecodeGroup2(w2).address
    ensures Segment2A(w1).End() <= Segment2A(w2).start || Segment2A(w2).End() <= Segment2A(w1).start
  {
  }

  /** Two type 2B groups with different segment addresses fill disjoint slices. */
  lemma Segments2BDisjoint(w1: Word, w2: Word)
    requires DecodeGroup2(w1).address != DecodeGroup2(w2).address
    ensures Segment2B(w1).End() <= Segment2B(w2).start || Segment2B(w2).End() <= Segment2B(w1).start
  {
  }

  /** Two type 0 groups with different segment addresses fill disjoint slices. */
  lemma Segments0ADisjoint(w1: Word, w2: Word)
    requires DecodeGroup0(w1).address != DecodeGroup0(w2).address
    ensures Segment0A(w1).End() <= Segment0A(w2).start || Segment0A(w2).End() <= Segment0A(w1).start
  {
  }

  /** Every text position of `rds_buffer2A` before the terminator is filled by the 2A group whose address is `p / 4`. */
  lemma Segments2ACover(p: nat)
    requires p < RDS_BUFFER_2A_SIZE - 1
    ensures Segment2A((p / 4) as Word).Holds(p)
  {
    AddressOfGroup2((p / 4) as Word);
  }

  /** Every text position of `rds_buffer2B` before the terminator is filled by the 2B group whose address is `p / 2`. */
  lemma Segments2BCover(p: nat)
    requires p < RDS_BUFFER_2B_SIZE - 1
    ensures Segment2B((p / 2) as Word).Holds(p)
  {
    AddressOfGroup2((p / 2) as Word);
  }

  /** Every text position of `rds_buffer0A` before the terminator is filled by the type 0 group whose address is `p / 2`. */
  lemma Segments0ACover(p: nat)
    requires p < RDS_BUFFER_0A_SIZE - 1
    ensures Segment0A((p / 2) as Word).Holds(p)
  {
    AddressOfGroup0((p / 2) as Word);
  }
}
