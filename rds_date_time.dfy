/**
 * The clock-time and date of an RDS type 4A group (`bk_rds_date_time`).
 *
 * The overlay lays seven fields, least-significant bit first, over six raw
 * bytes read as one little-endian 48-bit number: the local time offset (5
 * bits), its sign (1), the UTC minute split into its low 2 and high 4 bits,
 * the UTC hour split into its low 4 bits and its top bit, and the 17-bit
 * Modified Julian Day, 34 bits in all.  The minute and hour are split so that
 * no `uint8_t` field straddles a byte boundary; `Minute` and `Hour` put them
 * back together.  The `uint32_t` MJD field, bits 17 to 33, still spans bytes
 * 2 to 4 and crosses its 32-bit unit.
 *
 * Section 3.1.5.6 of EN 50067 places the same data in blocks 2 to 4 of the
 * group: MJD in bits 1-0 of block B and 15-1 of block C, the hour in bit 0 of
 * block C and bits 15-12 of block D, then the minute, the offset sign and the
 * offset in the rest of block D.  `MatchesBlocks` shows that the overlay reads
 * exactly these values when the raw bytes hold blocks D, C and B in that order,
 * each low byte first.
 */
module RdsDateTime {
  import opened Bits

  /** The seven fields of `bk_rds_date_time.refined`. */
  datatype DateTime = DateTime(
    offset: bv5, offsetSense: bv1, minute1: bv2, minute2: bv4, hour1: bv4, hour2: bv1, mjd: bv17)

  /** The six raw bytes as one number, `raw[0]` least significant. */
  function Container(raw: seq<Byte>): bv48
    requires |raw| == 6
  {
    raw[0] as bv48 | (raw[1] as bv48 << 8) | (raw[2] as bv48 << 16)
    | (raw[3] as bv48 << 24) | (raw[4] as bv48 << 32) | (raw[5] as bv48 << 40)
  }

  /** The fields in place: the inverse of `Fields` on the low 34 bits. */
  function Pack(t: DateTime): bv48
  {
    t.offset as bv48 | (t.offsetSense as bv48 << 5) | (t.minute1 as bv48 << 6) | (t.minute2 as bv48 << 8)
    | (t.hour1 as bv48 << 12) | (t.hour2 as bv48 << 16) | (t.mjd as bv48 << 17)
  }

  /** Reads the seven fields of a 48-bit container; the fields hold its low 34 bits, no more and no less. */
  function Fields(x: bv48): (t: DateTime)
    ensures Pack(t) == x & 0x3_FFFF_FFFF
  {
    DateTime(
      (x & 0x1F) as bv5, ((x >> 5) & 1) as bv1, ((x >> 6) & 3) as bv2, ((x >> 8) & 0xF) as bv4,
      ((x >> 12) & 0xF) as bv4, ((x >> 16) & 1) as bv1, ((x >> 17) & 0x1FFFF) as bv17)
  }

  /** No two fields share a bit: each survives packing and reading back. */
  lemma FieldsIndependent(t: DateTime)
    ensures Fields(Pack(t)) == t
  {
  }

  /**
   * Reads the fields of the overlay from the raw bytes: together they hold
   * exactly the low 34 bits of the bytes read as one little-endian number.
   */
  function Decode(raw: seq<Byte>): (t: DateTime)
    requires |raw| == 6
    ensures Pack(t) == Container(raw) & 0x3_FFFF_FFFF
  {
    Fields(Container(raw))
  }

  /** The UTC minute, from its high and low parts. */
  function Minute(t: DateTime): (m: nat)
    ensures m < 64
    ensures m % 4 == t.minute1 as nat && m / 4 == t.minute2 as nat
  {
    t.minute2 as nat * 4 + t.minute1 as nat
  }

  /** The UTC hour, from its top bit and low part. */
  function Hour(t: DateTime): (h: nat)
    ensures h < 32
    ensures h % 16 == t.hour1 as nat && h / 16 == t.hour2 as nat
  {
    t.hour2 as nat * 16 + t.hour1 as nat
  }

  /** The Modified Julian Day. */
  function Mjd(t: DateTime): (d: nat)
    ensures d < 0x20000
  {
    t.mjd as nat
  }

  /** The local time offset in half-hours: its magnitude is below 32 and a set sign bit makes it negative. */
  function LocalOffset(t: DateTime): (o: int)
    ensures -32 < o < 32
    ensures o < 0 ==> t.offsetSense == 1
    ensures o > 0 ==> t.offsetSense == 0
    ensures (if o < 0 then -o else o) == t.offset as int
  {
    if t.offsetSense == 1 then -(t.offset as int) else t.offset as int
  }

  /** The raw bytes holding blocks D, C and B of a group, in that order, each low byte first. */
  function BlocksRaw(b: Word, c: Word, d: Word): (raw: seq<Byte>)
    ensures |raw| == 6
  {
    [(d & 0xFF) as Byte, (d >> 8) as Byte, (c & 0xFF) as Byte, (c >> 8) as Byte,
     (b & 0xFF) as Byte, (b >> 8) as Byte]
  }

  /** Blocks B, C and D side by side as one 48-bit number, block D least significant. */
  function Join(b: Word, c: Word, d: Word): bv48
  {
    (b as bv48 << 32) | (c as bv48 << 16) | d as bv48
  }

  /** Read from blocks B, C and D laid out as `BlocksRaw`, the overlay gives the EN 50067 clock-time fields. */
  lemma MatchesBlocks(b: Word, c: Word, d: Word)
    ensures Container(BlocksRaw(b, c, d)) == Join(b, c, d)
    ensures Decode(BlocksRaw(b, c, d)).offset as Word == d & 0x1F
    ensures Decode(BlocksRaw(b, c, d)).offsetSense as Word == (d >> 5) & 1
    ensures (Decode(BlocksRaw(b, c, d)).minute2 as Word << 2) | Decode(BlocksRaw(b, c, d)).minute1 as Word
         == (d >> 6) & 0x3F
    ensures (Decode(BlocksRaw(b, c, d)).hour2 as Word << 4) | Decode(BlocksRaw(b, c, d)).hour1 as Word
         == ((c & 1) << 4) | (d >> 12)
    ensures Decode(BlocksRaw(b, c, d)).mjd as bv32 == ((b & 3) as bv32 << 15) | (c as bv32 >> 1)
  {
    ContainerOfBlocks(b, c, d);
    OffsetOfBlocks(b, c, d);
    SenseOfBlocks(b, c, d);
    MinuteOfBlocks(b, c, d);
    HourOfBlocks(b, c, d);
    MjdOfBlocks(b, c, d);
  }

  // `MatchesBlocks` one field at a time: a single lemma with all of its
  // ensures clauses is too costly for the solver.

  lemma ContainerOfBlocks(b: Word, c: Word, d: Word)
    ensures Container(BlocksRaw(b, c, d)) == Join(b, c, d)
  {
  }

  lemma OffsetOfBlocks(b: Word, c: Word, d: Word)
    ensures ((Join(b, c, d) & 0x1F) as bv5) as Word == d & 0x1F
  {
  }

  lemma SenseOfBlocks(b: Word, c: Word, d: Word)
    ensures (((Join(b, c, d) >> 5) & 1) as bv1) as Word == (d >> 5) & 1
  {
  }

  lemma MinuteOfBlocks(b: Word, c: Word, d: Word)
    ensures ((((Join(b, c, d) >> 8) & 0xF) as bv4) as Word << 2) | (((Join(b, c, d) >> 6) & 3) as bv2) as Word
         == (d >> 6) & 0x3F
  {
  }

  lemma HourOfBlocks(b: Word, c: Word, d: Word)
    ensures ((((Join(b, c, d) >> 16) & 1) as bv1) as Word << 4) | (((Join(b, c, d) >> 12) & 0xF) as bv4) as Word
         == ((c & 1) << 4) | (d >> 12)
  {
  }

  lemma MjdOfBlocks(b: Word, c: Word, d: Word)
    ensures (((Join(b, c, d) >> 17) & 0x1FFFF) as bv17) as bv32 == ((b & 3) as bv32 << 15) | (c as bv32 >> 1)
  {
  }
}
