/**
 * Block B of an RDS group, as the driver reads it from register 0Dh, and its
 * three overlays (`bk_rds_blockb`): `group0` for type 0 groups, `group2` for
 * type 2 groups, and `refined` for the rest.
 *
 * Each view is checked as the register overlays are (declared widths, tiling,
 * lossless decoding, independent fields).  The lemmas at the end show that the
 * three views agree on the fields every group carries and that these sit
 * where section 3.1.3 of EN 50067 puts them in block 2: group type code in
 * bits 15-12, version B0 in bit 11, TP in bit 10 and PTY in bits 9-5.
 */
module RdsBlockB {
  import opened Bits
  import opened Layout

  // ---------------------------------------------------------------------
  // Type 0 groups (bk_rds_blockb.group0)

  const G0_ADDRESS := Field(0, 2)
  const G0_DI := Field(2, 1)
  const G0_MS := Field(3, 1)
  const G0_TA := Field(4, 1)
  const G0_PTY := Field(5, 5)
  const G0_TP := Field(10, 1)
  const G0_VERSION := Field(11, 1)
  const G0_GROUP_TYPE := Field(12, 4)

  /** The fields of `group0`, in declaration order. */
  const Group0Fields := [G0_ADDRESS, G0_DI, G0_MS, G0_TA, G0_PTY, G0_TP, G0_VERSION, G0_GROUP_TYPE]

  /** `group0` read field by field. */
  datatype Group0 = Group0(
    address: bv2, decoderControl: bv1, musicSpeech: bv1, trafficAnnouncement: bv1,
    programType: bv5, trafficProgram: bv1, versionCode: bv1, groupType: bv4)

  /** The fields of `group0` have the declared widths, and laid out in order they tile the word. */
  lemma Group0Layout()
    ensures Widths(Group0Fields) == [2, 1, 1, 1, 5, 1, 1, 4]
    ensures Tiles(Group0Fields)
  {
    Group0Widths();
    Group0Tiles();
  }

  // The two halves of `Group0Layout`, proved apart: one lemma stating both is
  // too costly for the solver.

  lemma Group0Widths()
    ensures Widths(Group0Fields) == [2, 1, 1, 1, 5, 1, 1, 4]
  {
  }

  lemma Group0Tiles()
    ensures Tiles(Group0Fields)
  {
    var fs := Group0Fields;
    forall i | 0 < i < |fs|
      ensures fs[i].offset as nat == fs[i - 1].End()
    {
      assert i in {1, 2, 3, 4, 5, 6, 7};
    }
  }

  /** The word whose fields hold the components of `r`. */
  function EncodeGroup0(r: Group0): Word
  {
    var w := Set(0, G0_ADDRESS, r.address as Word);
    var w := Set(w, G0_DI, r.decoderControl as Word);
    var w := Set(w, G0_MS, r.musicSpeech as Word);
    var w := Set(w, G0_TA, r.trafficAnnouncement as Word);
    var w := Set(w, G0_PTY, r.programType as Word);
    var w := Set(w, G0_TP, r.trafficProgram as Word);
    var w := Set(w, G0_VERSION, r.versionCode as Word);
    Set(w, G0_GROUP_TYPE, r.groupType as Word)
  }

  /** Reads every field of `w`; no bit of `w` is outside a field, so `w` is rebuilt from them. */
  function DecodeGroup0(w: Word): (r: Group0)
    ensures EncodeGroup0(r) == w
  {
    Group0(
      Get(w, G0_ADDRESS) as bv2, Get(w, G0_DI) as bv1, Get(w, G0_MS) as bv1, Get(w, G0_TA) as bv1,
      Get(w, G0_PTY) as bv5, Get(w, G0_TP) as bv1, Get(w, G0_VERSION) as bv1,
      Get(w, G0_GROUP_TYPE) as bv4)
  }

  /** No two fields of `group0` share a bit: each component survives encoding unchanged. */
  lemma Group0FieldsIndependent(r: Group0)
    ensures DecodeGroup0(EncodeGroup0(r)) == r
  {
  }
  // ---------------------------------------------------------------------
  // Type 2 groups (bk_rds_blockb.group2)

  const G2_ADDRESS := Field(0, 4)
  const G2_TEXT_AB := Field(4, 1)
  const G2_PTY := Field(5, 5)
  const G2_TP := Field(10, 1)
  const G2_VERSION := Field(11, 1)
  const G2_GROUP_TYPE := Field(12, 4)

  /** The fields of `group2`, in declaration order. */
  const Group2Fields := [G2_ADDRESS, G2_TEXT_AB, G2_PTY, G2_TP, G2_VERSION, G2_GROUP_TYPE]

  /** `group2` read field by field. */
  datatype Group2 = Group2(
    address: bv4, textAB: bv1, programType: bv5, trafficProgram: bv1, versionCode: bv1,
    groupType: bv4)

  /** The fields of `group2` have the declared widths, and laid out in order they tile the word. */
  lemma Group2Layout()
    ensures Widths(Group2Fields) == [4, 1, 5, 1, 1, 4]
    ensures Tiles(Group2Fields)
  {
    Group2Widths();
    Group2Tiles();
  }

  // The two halves of `Group2Layout`, proved apart: one lemma stating both is
  // too costly for the solver.

  lemma Group2Widths()
    ensures Widths(Group2Fields) == [4, 1, 5, 1, 1, 4]
  {
  }

  lemma Group2Tiles()
    ensures Tiles(Group2Fields)
  {
    var fs := Group2Fields;
    forall i | 0 < i < |fs|
      ensures fs[i].offset as nat == fs[i - 1].End()
    {
      assert i in {1, 2, 3, 4, 5};
    }
  }

  /** The word whose fields hold the components of `r`. */
  function EncodeGroup2(r: Group2): Word
  {
    var w := Set(0, G2_ADDRESS, r.address as Word);
    var w := Set(w, G2_TEXT_AB, r.textAB as Word);
    var w := Set(w, G2_PTY, r.programType as Word);
    var w := Set(w, G2_TP, r.trafficProgram as Word);
    var w := Set(w, G2_VERSION, r.versionCode as Word);
    Set(w, G2_GROUP_TYPE, r.groupType as Word)
  }

  /** Reads every field of `w`; no bit of `w` is outside a field, so `w` is rebuilt from them. */
  function DecodeGroup2(w: Word): (r: Group2)
    ensures EncodeGroup2(r) == w
  {
    Group2(
      Get(w, G2_ADDRESS) as bv4, Get(w, G2_TEXT_AB) as bv1, Get(w, G2_PTY) as bv5,
      Get(w, G2_TP) as bv1, Get(w, G2_VERSION) as bv1, Get(w, G2_GROUP_TYPE) as bv4)
  }

  /** No two fields of `group2` share a bit: each component survives encoding unchanged. */
  lemma Group2FieldsIndependent(r: Group2)
    ensures DecodeGroup2(EncodeGroup2(r)) == r
  {
  }
  // ---------------------------------------------------------------------
  // Any group (bk_rds_blockb.refined)

  const B_CONTENT := Field(0, 4)
  const B_TEXT_AB := Field(4, 1)
  const B_PTY := Field(5, 5)
  const B_TP := Field(10, 1)
  const B_VERSION := Field(11, 1)
  const B_GROUP_TYPE := Field(12, 4)

  /** The fields of `refined`, in declaration order. */
  const BlockBFields := [B_CONTENT, B_TEXT_AB, B_PTY, B_TP, B_VERSION, B_GROUP_TYPE]

  /** `refined` read field by field. */
  datatype BlockB = BlockB(
    content: bv4, textAB: bv1, programType: bv5, trafficProgram: bv1, versionCode: bv1,
    groupType: bv4)

  /** The fields of `refined` have the declared widths, and laid out in order they tile the word. */
  lemma BlockBLayout()
    ensures Widths(BlockBFields) == [4, 1, 5, 1, 1, 4]
    ensures Tiles(BlockBFields)
  {
    BlockBWidths();
    BlockBTiles();
  }

  // The two halves of `BlockBLayout`, proved apart: one lemma stating both is
  // too costly for the solver.

  lemma BlockBWidths()
    ensures Widths(BlockBFields) == [4, 1, 5, 1, 1, 4]
  {
  }

  lemma BlockBTiles()
    ensures Tiles(BlockBFields)
  {
    var fs := BlockBFields;
    forall i | 0 < i < |fs|
      ensures fs[i].offset as nat == fs[i - 1].End()
    {
      assert i in {1, 2, 3, 4, 5};
    }
  }

  /** The word whose fields hold the components of `r`. */
  function EncodeBlockB(r: BlockB): Word
  {
    var w := Set(0, B_CONTENT, r.content as Word);
    var w := Set(w, B_TEXT_AB, r.textAB as Word);
    var w := Set(w, B_PTY, r.programType as Word);
    var w := Set(w, B_TP, r.trafficProgram as Word);
    var w := Set(w, B_VERSION, r.versionCode as Word);
    Set(w, B_GROUP_TYPE, r.groupType as Word)
  }

  /** Reads every field of `w`; no bit of `w` is outside a field, so `w` is rebuilt from them. */
  function DecodeBlockB(w: Word): (r: BlockB)
    ensures EncodeBlockB(r) == w
  {
    BlockB(
      Get(w, B_CONTENT) as bv4, Get(w, B_TEXT_AB) as bv1, Get(w, B_PTY) as bv5,
      Get(w, B_TP) as bv1, Get(w, B_VERSION) as bv1, Get(w, B_GROUP_TYPE) as bv4)
  }

  /** No two fields of `refined` share a bit: each component survives encoding unchanged. */
  lemma BlockBFieldsIndependent(r: BlockB)
    ensures DecodeBlockB(EncodeBlockB(r)) == r
  {
  }
  /** The group type code is bits 15-12 of block B in every view. */
  lemma GroupTypeAgrees(w: Word)
    ensures DecodeGroup0(w).groupType as Word == w >> 12
    ensures DecodeGroup2(w).groupType as Word == w >> 12
    ensures DecodeBlockB(w).groupType as Word == w >> 12
  {
    GroupTypeOfGroup0(w);
    GroupTypeOfGroup2(w);
    GroupTypeOfBlockB(w);
  }

  /** The version code B0 is bit 11 of block B in every view. */
  lemma VersionAgrees(w: Word)
    ensures DecodeGroup0(w).versionCode as Word == (w >> 11) & 1
    ensures DecodeGroup2(w).versionCode as Word == (w >> 11) & 1
    ensures DecodeBlockB(w).versionCode as Word == (w >> 11) & 1
  {
    VersionOfGroup0(w);
    VersionOfGroup2(w);
    VersionOfBlockB(w);
  }

  /** The traffic programme flag TP is bit 10 of block B in every view. */
  lemma TrafficProgramAgrees(w: Word)
    ensures DecodeGroup0(w).trafficProgram as Word == (w >> 10) & 1
    ensures DecodeGroup2(w).trafficProgram as Word == (w >> 10) & 1
    ensures DecodeBlockB(w).trafficProgram as Word == (w >> 10) & 1
  {
    TrafficProgramOfGroup0(w);
    TrafficProgramOfGroup2(w);
    TrafficProgramOfBlockB(w);
  }

  /** The programme type PTY is bits 9-5 of block B in every view. */
  lemma ProgramTypeAgrees(w: Word)
    ensures DecodeGroup0(w).programType as Word == (w >> 5) & 0x1F
    ensures DecodeGroup2(w).programType as Word == (w >> 5) & 0x1F
    ensures DecodeBlockB(w).programType as Word == (w >> 5) & 0x1F
  {
    ProgramTypeOfGroup0(w);
    ProgramTypeOfGroup2(w);
    ProgramTypeOfBlockB(w);
  }

  /**
   * The type 2 segment address is bits 3-0 and the text A/B flag bit 4, the
   * same bits `refined` calls content and text A/B; the type 0 segment address
   * is bits 1-0, the low two bits of the type 2 address.
   */
  lemma AddressesAgree(w: Word)
    ensures DecodeGroup2(w).address as Word == w & 0xF
    ensures DecodeGroup2(w).address == DecodeBlockB(w).content
    ensures DecodeGroup2(w).textAB as Word == (w >> 4) & 1
    ensures DecodeBlockB(w).textAB as Word == (w >> 4) & 1
    ensures DecodeGroup2(w).textAB == DecodeBlockB(w).textAB
    ensures DecodeGroup0(w).address as Word == w & 0x3
  {
    AddressOfGroup2(w);
    ContentOfBlockB(w);
    TextABOfGroup2(w);
    TextABOfBlockB(w);
    TextABOfBoth(w);
    AddressOfGroup0(w);
  }

  // The agreement lemmas above, one field of one view at a time: a single
  // lemma with all of these ensures clauses is too costly for the solver.

  lemma GroupTypeOfGroup0(w: Word)
    ensures DecodeGroup0(w).groupType as Word == w >> 12
  {
  }

  lemma GroupTypeOfGroup2(w: Word)
    ensures DecodeGroup2(w).groupType as Word == w >> 12
  {
  }

  lemma GroupTypeOfBlockB(w: Word)
    ensures DecodeBlockB(w).groupType as Word == w >> 12
  {
  }

  lemma VersionOfGroup0(w: Word)
    ensures DecodeGroup0(w).versionCode as Word == (w >> 11) & 1
  {
  }

  lemma VersionOfGroup2(w: Word)
    ensures DecodeGroup2(w).versionCode as Word == (w >> 11) & 1
  {
  }

  lemma VersionOfBlockB(w: Word)
    ensures DecodeBlockB(w).versionCode as Word == (w >> 11) & 1
  {
  }

  lemma TrafficProgramOfGroup0(w: Word)
    ensures DecodeGroup0(w).trafficProgram as Word == (w >> 10) & 1
  {
  }

  lemma TrafficProgramOfGroup2(w: Word)
    ensures DecodeGroup2(w).trafficProgram as Word == (w >> 10) & 1
  {
  }

  lemma TrafficProgramOfBlockB(w: Word)
    ensures DecodeBlockB(w).trafficProgram as Word == (w >> 10) & 1
  {
  }

  lemma ProgramTypeOfGroup0(w: Word)
    ensures DecodeGroup0(w).programType as Word == (w >> 5) & 0x1F
  {
  }

  lemma ProgramTypeOfGroup2(w: Word)
    ensures DecodeGroup2(w).programType as Word == (w >> 5) & 0x1F
  {
  }

  lemma ProgramTypeOfBlockB(w: Word)
    ensures DecodeBlockB(w).programType as Word == (w >> 5) & 0x1F
  {
  }

  lemma AddressOfGroup2(w: Word)
    ensures DecodeGroup2(w).address as Word == w & 0xF
  {
  }

  lemma ContentOfBlockB(w: Word)
    ensures DecodeBlockB(w).content as Word == w & 0xF
  {
  }

  lemma TextABOfGroup2(w: Word)
    ensures DecodeGroup2(w).textAB as Word == (w >> 4) & 1
  {
  }

  lemma TextABOfBlockB(w: Word)
    ensures DecodeBlockB(w).textAB as Word == (w >> 4) & 1
  {
  }

  lemma TextABOfBoth(w: Word)
    ensures DecodeGroup2(w).textAB == DecodeBlockB(w).textAB
  {
  }

  lemma AddressOfGroup0(w: Word)
    ensures DecodeGroup0(w).address as Word == w & 0x3
  {
  }
}
