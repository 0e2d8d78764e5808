/**
 * The registers the driver reads back from the BK1086/88: the status word
 * 0Ah, the read-channel and RDS error counts 0Bh, and the plain low/high byte
 * split that overlays the identification words 00h and 01h, the reserved test
 * words 08h and 09h and the `word16_to_bytes` helper union.
 *
 * Each overlay is laid out and checked as in `ConfigRegisters`: the fields
 * have the declared widths and tile the word, decoding loses no bit, and no
 * two fields share a bit.
 */
module StatusRegisters {
  import opened Bits
  import opened Layout

  // ---------------------------------------------------------------------
  // Register 0Ah: status and RSSI (bk_reg0a)

  const RSSI := Field(0, 8)
  const ST := Field(8, 1)
  const BLERA := Field(9, 2)
  const RDSS := Field(11, 1)
  const AFCRL := Field(12, 1)
  const SF_BL := Field(13, 1)
  const STC := Field(14, 1)
  const RDSR := Field(15, 1)

  /** The fields of `bk_reg0a`, in declaration order. */
  const Reg0AFields := [RSSI, ST, BLERA, RDSS, AFCRL, SF_BL, STC, RDSR]

  /** `bk_reg0a` read field by field. */
  datatype Reg0A = Reg0A(
    rssi: bv8, stereo: bv1, blockAErrors: bv2, rdsSynchronized: bv1, afcRail: bv1,
    seekFailBandLimit: bv1, seekTuneComplete: bv1, rdsReady: bv1)

  /** The fields of `bk_reg0a` have the declared widths, and laid out in order they tile the word. */
  lemma Reg0ALayout()
    ensures Widths(Reg0AFields) == [8, 1, 2, 1, 1, 1, 1, 1]
    ensures Tiles(Reg0AFields)
  {
    Reg0AWidths();
    Reg0ATiles();
  }

  // The two halves of `Reg0ALayout`, proved apart: one lemma stating both is
  // too costly for the solver.

  lemma Reg0AWidths()
    ensures Widths(Reg0AFields) == [8, 1, 2, 1, 1, 1, 1, 1]
  {
  }

  lemma Reg0ATiles()
    ensures Tiles(Reg0AFields)
  {
    var fs := Reg0AFields;
    forall i | 0 < i < |fs|
      ensures fs[i].offset as nat == fs[i - 1].End()
    {
      assert i in {1, 2, 3, 4, 5, 6, 7};
    }
  }

  /** The word whose fields hold the components of `r`. */
  function Encode0A(r: Reg0A): Word
  {
    var w := Set(0, RSSI, r.rssi as Word);
    var w := Set(w, ST, r.stereo as Word);
    var w := Set(w, BLERA, r.blockAErrors as Word);
    var w := Set(w, RDSS, r.rdsSynchronized as Word);
    var w := Set(w, AFCRL, r.afcRail as Word);
    var w := Set(w, SF_BL, r.seekFailBandLimit as Word);
    var w := Set(w, STC, r.seekTuneComplete as Word);
    Set(w, RDSR, r.rdsReady as Word)
  }

  /** Reads every field of `w`; no bit of `w` is outside a field, so `w` is rebuilt from them. */
  function Decode0A(w: Word): (r: Reg0A)
    ensures Encode0A(r) == w
  {
    Reg0A(
      Get(w, RSSI) as bv8, Get(w, ST) as bv1, Get(w, BLERA) as bv2, Get(w, RDSS) as bv1,
      Get(w, AFCRL) as bv1, Get(w, SF_BL) as bv1, Get(w, STC) as bv1, Get(w, RDSR) as bv1)
  }

  /** No two fields of `bk_reg0a` share a bit: each component survives encoding unchanged. */
  lemma Reg0AFieldsIndependent(r: Reg0A)
    ensures Decode0A(Encode0A(r)) == r
  {
  }
  /**
   * The status word 0x8C50 reads as RSSI 0x50, mono, block A error level 2,
   * RDS synchronized, AFC not railed, no seek failure, seek/tune not complete
   * and an RDS group ready.
   */
  lemma StatusExample()
    ensures Decode0A(0x8C50) == Reg0A(0x50, 0, 2, 1, 0, 0, 0, 1)
  {
  }

  // ---------------------------------------------------------------------
  // Register 0Bh: read channel and RDS block error levels (bk_reg0b)

  const READCHAN := Field(0, 10)
  const BLERD := Field(10, 2)
  const BLERC := Field(12, 2)
  const BLERB := Field(14, 2)

  /** The fields of `bk_reg0b`, in declaration order. */
  const Reg0BFields := [READCHAN, BLERD, BLERC, BLERB]

  /** `bk_reg0b` read field by field. */
  datatype Reg0B = Reg0B(readChannel: bv10, blockDErrors: bv2, blockCErrors: bv2, blockBErrors: bv2)

  /** The fields of `bk_reg0b` have the declared widths, and laid out in order they tile the word. */
  lemma Reg0BLayout()
    ensures Widths(Reg0BFields) == [10, 2, 2, 2]
    ensures Tiles(Reg0BFields)
  {
    Reg0BWidths();
    Reg0BTiles();
  }

  // The two halves of `Reg0BLayout`, proved apart: one lemma stating both is
  // too costly for the solver.

  lemma Reg0BWidths()
    ensures Widths(Reg0BFields) == [10, 2, 2, 2]
  {
  }

  lemma Reg0BTiles()
    ensures Tiles(Reg0BFields)
  {
    var fs := Reg0BFields;
    forall i | 0 < i < |fs|
      ensures fs[i].offset as nat == fs[i - 1].End()
    {
      assert i in {1, 2, 3};
    }
  }

  /** The word whose fields hold the components of `r`. */
  function Encode0B(r: Reg0B): Word
  {
    var w := Set(0, READCHAN, r.readChannel as Word);
    var w := Set(w, BLERD, r.blockDErrors as Word);
    var w := Set(w, BLERC, r.blockCErrors as Word);
    Set(w, BLERB, r.blockBErrors as Word)
  }

  /** Reads every field of `w`; no bit of `w` is outside a field, so `w` is rebuilt from them. */
  function Decode0B(w: Word): (r: Reg0B)
    ensures Encode0B(r) == w
  {
    Reg0B(
      Get(w, READCHAN) as bv10, Get(w, BLERD) as bv2, Get(w, BLERC) as bv2, Get(w, BLERB) as bv2)
  }

  /** No two fields of `bk_reg0b` share a bit: each component survives encoding unchanged. */
  lemma Reg0BFieldsIndependent(r: Reg0B)
    ensures Decode0B(Encode0B(r)) == r
  {
  }
  // ---------------------------------------------------------------------
  // Low and high byte of a word (bk_reg00, bk_reg01, bk_reg08, bk_reg09, word16_to_bytes)

  const LOW_BYTE := Field(0, 8)
  const HIGH_BYTE := Field(8, 8)

  /** The fields of `word16_to_bytes`, in declaration order. */
  const WordBytesFields := [LOW_BYTE, HIGH_BYTE]

  /** `word16_to_bytes` read field by field. */
  datatype WordBytes = WordBytes(lowByte: bv8, highByte: bv8)

  /** The fields of `word16_to_bytes` have the declared widths, and laid out in order they tile the word. */
  lemma WordBytesLayout()
    ensures Widths(WordBytesFields) == [8, 8]
    ensures Tiles(WordBytesFields)
  {
    WordBytesWidths();
    WordBytesTiles();
  }

  // The two halves of `WordBytesLayout`, proved apart: one lemma stating both is
  // too costly for the solver.

  lemma WordBytesWidths()
    ensures Widths(WordBytesFields) == [8, 8]
  {
  }

  lemma WordBytesTiles()
    ensures Tiles(WordBytesFields)
  {
    var fs := WordBytesFields;
    forall i | 0 < i < |fs|
      ensures fs[i].offset as nat == fs[i - 1].End()
    {
      assert i in {1};
    }
  }

  /** The word whose fields hold the components of `r`. */
  function EncodeBytes(r: WordBytes): Word
  {
    var w := Set(0, LOW_BYTE, r.lowByte as Word);
    Set(w, HIGH_BYTE, r.highByte as Word)
  }

  /** Reads every field of `w`; no bit of `w` is outside a field, so `w` is rebuilt from them. */
  function DecodeBytes(w: Word): (r: WordBytes)
    ensures EncodeBytes(r) == w
  {
    WordBytes(
      Get(w, LOW_BYTE) as bv8, Get(w, HIGH_BYTE) as bv8)
  }

  /** No two fields of `word16_to_bytes` share a bit: each component survives encoding unchanged. */
  lemma WordBytesFieldsIndependent(r: WordBytes)
    ensures DecodeBytes(EncodeBytes(r)) == r
  {
  }
  /**
   * The byte split is the base-256 digit split of the word: the high byte is
   * the quotient and the low byte the remainder of division by 256, and the
   * word is `highByte * 256 + lowByte`.
   */
  lemma BytesAreDigits(w: Word)
    ensures DecodeBytes(w).lowByte as Word == w % 0x100
    ensures DecodeBytes(w).highByte as Word == w / 0x100
    ensures w == DecodeBytes(w).highByte as Word * 0x100 + DecodeBytes(w).lowByte as Word
  {
    LowByteIsRemainder(w);
    HighByteIsQuotient(w);
    WordFromDigits(w);
  }

  // The three facts of `BytesAreDigits`, proved apart: one lemma stating all
  // of them is too costly for the solver.

  lemma LowByteIsRemainder(w: Word)
    ensures DecodeBytes(w).lowByte as Word == w % 0x100
  {
  }

  lemma HighByteIsQuotient(w: Word)
    ensures DecodeBytes(w).highByte as Word == w / 0x100
  {
  }

  lemma WordFromDigits(w: Word)
    ensures w == DecodeBytes(w).highByte as Word * 0x100 + DecodeBytes(w).lowByte as Word
  {
  }
}
