/**
 * The configuration registers 02h to 07h of the BK1086/88 and their overlays.
 *
 * Each overlay is a table of named fields with the offsets that
 * least-significant-bit-first contiguous allocation, in declaration order,
 * gives them, and a view datatype with one component per field, typed by the
 * field's width.  For each register NN:
 *   - `RegNNLayout`: the table has the declared widths and tiles the word;
 *   - `DecodeNN`: reads every field, and re-encoding the view gives the word
 *     back, so no bit lies outside a field;
 *   - `RegNNFieldsIndependent`: encoding a view and reading it back gives the
 *     view, so no two fields share a bit;
 *   - `RegNNWriteIsolation`: writing one field through the overlay stores the
 *     value truncated to the field's width and leaves every sibling field
 *     bit-for-bit as it was.
 * Register 04h declares seventeen bits of fields; see `Reg04DeclaredCannotTile`.
 */
module ConfigRegisters {
  import opened Bits
  import opened Layout

  // ---------------------------------------------------------------------
  // Register 02h: power configuration (bk_reg02)

  const ENABLE := Field(0, 1)
  const SNR_REF := Field(1, 5)
  const DISABLE := Field(6, 1)
  const SKAFCRL := Field(7, 1)
  const SEEK := Field(8, 1)
  const SEEKUP := Field(9, 1)
  const SKMODE := Field(10, 1)
  const STEREO := Field(11, 1)
  const MONO := Field(12, 1)
  const MUTER := Field(13, 1)
  const MUTEL := Field(14, 1)
  const DSMUTE := Field(15, 1)

  /** The fields of `bk_reg02`, in declaration order. */
  const Reg02Fields := [ENABLE, SNR_REF, DISABLE, SKAFCRL, SEEK, SEEKUP, SKMODE, STEREO, MONO, MUTER, MUTEL, DSMUTE]

  /** `bk_reg02` read field by field. */
  datatype Reg02 = Reg02(
    enable: bv1, snrRef: bv5, disable: bv1, skAfcRail: bv1, seek: bv1, seekUp: bv1, skMode: bv1,
    stereo: bv1, mono: bv1, muteR: bv1, muteL: bv1, dsMute: bv1)

  /** The fields of `bk_reg02` have the declared widths, and laid out in order they tile the word. */
  lemma Reg02Layout()
    ensures Widths(Reg02Fields) == [1, 5, 1, 1, 1, 1, 1, 1, 1, 1, 1, 1]
    ensures Tiles(Reg02Fields)
  {
    Reg02Widths();
    Reg02Tiles();
  }

  // The two halves of `Reg02Layout`, proved apart: one lemma stating both is
  // too costly for the solver.

  lemma Reg02Widths()
    ensures Widths(Reg02Fields) == [1, 5, 1, 1, 1, 1, 1, 1, 1, 1, 1, 1]
  {
  }

  lemma Reg02Tiles()
    ensures Tiles(Reg02Fields)
  {
    var fs := Reg02Fields;
    forall i | 0 < i < |fs|
      ensures fs[i].offset as nat == fs[i - 1].End()
    {
      assert i in {1, 2, 3, 4, 5, 6, 7, 8, 9, 10, 11};
    }
  }

  /** The word whose fields hold the components of `r`. */
  function Encode02(r: Reg02): Word
  {
    var w := Set(0, ENABLE, r.enable as Word);
    var w := Set(w, SNR_REF, r.snrRef as Word);
    var w := Set(w, DISABLE, r.disable as Word);
    var w := Set(w, SKAFCRL, r.skAfcRail as Word);
    var w := Set(w, SEEK, r.seek as Word);
    var w := Set(w, SEEKUP, r.seekUp as Word);
    var w := Set(w, SKMODE, r.skMode as Word);
    var w := Set(w, STEREO, r.stereo as Word);
    var w := Set(w, MONO, r.mono as Word);
    var w := Set(w, MUTER, r.muteR as Word);
    var w := Set(w, MUTEL, r.muteL as Word);
    Set(w, DSMUTE, r.dsMute as Word)
  }

  /** Reads every field of `w`; no bit of `w` is outside a field, so `w` is rebuilt from them. */
  function Decode02(w: Word): (r: Reg02)
    ensures Encode02(r) == w
  {
    Reg02(
      Get(w, ENABLE) as bv1, Get(w, SNR_REF) as bv5, Get(w, DISABLE) as bv1,
      Get(w, SKAFCRL) as bv1, Get(w, SEEK) as bv1, Get(w, SEEKUP) as bv1, Get(w, SKMODE) as bv1,
      Get(w, STEREO) as bv1, Get(w, MONO) as bv1, Get(w, MUTER) as bv1, Get(w, MUTEL) as bv1,
      Get(w, DSMUTE) as bv1)
  }

  /** No two fields of `bk_reg02` share a bit: each component survives encoding unchanged. */
  lemma Reg02FieldsIndependent(r: Reg02)
    ensures Decode02(Encode02(r)) == r
  {
  }

  /** `r` with field number `i` of `Reg02Fields` replaced by the low bits of `v` that fit its width. */
  function With02(r: Reg02, i: nat, v: Word): Reg02
    requires i < 12
  {
    match i
    case 0 => r.(enable := (v % 0x2) as bv1)
    case 1 => r.(snrRef := (v % 0x20) as bv5)
    case 2 => r.(disable := (v % 0x2) as bv1)
    case 3 => r.(skAfcRail := (v % 0x2) as bv1)
    case 4 => r.(seek := (v % 0x2) as bv1)
    case 5 => r.(seekUp := (v % 0x2) as bv1)
    case 6 => r.(skMode := (v % 0x2) as bv1)
    case 7 => r.(stereo := (v % 0x2) as bv1)
    case 8 => r.(mono := (v % 0x2) as bv1)
    case 9 => r.(muteR := (v % 0x2) as bv1)
    case 10 => r.(muteL := (v % 0x2) as bv1)
    case _ => r.(dsMute := (v % 0x2) as bv1)
  }

  /**
   * Writing field `i` of `bk_reg02` through the overlay stores `v` truncated to
   * the field's width in that field and leaves every other field as it was.
   */
  lemma Reg02WriteIsolation(w: Word, i: nat, v: Word)
    requires i < 12
    ensures Decode02(Set(w, Reg02Fields[i], v)) == With02(Decode02(w), i, v)
  {
    var fs := Reg02Fields;
    if i == 0 {
      assert fs[i] == ENABLE;
      Reg02WriteEnable(w, v);
    } else if i == 1 {
      assert fs[i] == SNR_REF;
      Reg02WriteSnrRef(w, v);
    } else if i == 2 {
      assert fs[i] == DISABLE;
      Reg02WriteDisable(w, v);
    } else if i == 3 {
      assert fs[i] == SKAFCRL;
      Reg02WriteSkafcrl(w, v);
    } else if i == 4 {
      assert fs[i] == SEEK;
      Reg02WriteSeek(w, v);
    } else if i == 5 {
      assert fs[i] == SEEKUP;
      Reg02WriteSeekup(w, v);
    } else if i == 6 {
      assert fs[i] == SKMODE;
      Reg02WriteSkmode(w, v);
    } else if i == 7 {
      assert fs[i] == STEREO;
      Reg02WriteStereo(w, v);
    } else if i == 8 {
      assert fs[i] == MONO;
      Reg02WriteMono(w, v);
    } else if i == 9 {
      assert fs[i] == MUTER;
      Reg02WriteMuter(w, v);
    } else if i == 10 {
      assert fs[i] == MUTEL;
      Reg02WriteMutel(w, v);
    } else {
      assert fs[i] == DSMUTE;
      Reg02WriteDsmute(w, v);
    }
  }

  // `Reg02WriteIsolation` one field at a time: a single lemma with all of
  // these ensures clauses is too costly for the solver.

  lemma Reg02WriteEnable(w: Word, v: Word)
    ensures Decode02(Set(w, ENABLE, v)) == Decode02(w).(enable := (v % 0x2) as bv1)
  {
  }

  lemma Reg02WriteSnrRef(w: Word, v: Word)
    ensures Decode02(Set(w, SNR_REF, v)) == Decode02(w).(snrRef := (v % 0x20) as bv5)
  {
  }

  lemma Reg02WriteDisable(w: Word, v: Word)
    ensures Decode02(Set(w, DISABLE, v)) == Decode02(w).(disable := (v % 0x2) as bv1)
  {
  }

  lemma Reg02WriteSkafcrl(w: Word, v: Word)
    ensures Decode02(Set(w, SKAFCRL, v)) == Decode02(w).(skAfcRail := (v % 0x2) as bv1)
  {
  }

  lemma Reg02WriteSeek(w: Word, v: Word)
    ensures Decode02(Set(w, SEEK, v)) == Decode02(w).(seek := (v % 0x2) as bv1)
  {
  }

  lemma Reg02WriteSeekup(w: Word, v: Word)
    ensures Decode02(Set(w, SEEKUP, v)) == Decode02(w).(seekUp := (v % 0x2) as bv1)
  {
  }

  lemma Reg02WriteSkmode(w: Word, v: Word)
    ensures Decode02(Set(w, SKMODE, v)) == Decode02(w).(skMode := (v % 0x2) as bv1)
  {
  }

  lemma Reg02WriteStereo(w: Word, v: Word)
    ensures Decode02(Set(w, STEREO, v)) == Decode02(w).(stereo := (v % 0x2) as bv1)
  {
  }

  lemma Reg02WriteMono(w: Word, v: Word)
    ensures Decode02(Set(w, MONO, v)) == Decode02(w).(mono := (v % 0x2) as bv1)
  {
  }

  lemma Reg02WriteMuter(w: Word, v: Word)
    ensures Decode02(Set(w, MUTER, v)) == Decode02(w).(muteR := (v % 0x2) as bv1)
  {
  }

  lemma Reg02WriteMutel(w: Word, v: Word)
    ensures Decode02(Set(w, MUTEL, v)) == Decode02(w).(muteL := (v % 0x2) as bv1)
  {
  }

  lemma Reg02WriteDsmute(w: Word, v: Word)
    ensures Decode02(Set(w, DSMUTE, v)) == Decode02(w).(dsMute := (v % 0x2) as bv1)
  {
  }
  // ---------------------------------------------------------------------
  // Register 03h: channel (bk_reg03); tuned frequency = band floor + CHAN * spacing

  const CHAN := Field(0, 15)
  const TUNE := Field(15, 1)

  /** The fields of `bk_reg03`, in declaration order. */
  const Reg03Fields := [CHAN, TUNE]

  /** `bk_reg03` read field by field. */
  datatype Reg03 = Reg03(chan: bv15, tune: bv1)

  /** The fields of `bk_reg03` have the declared widths, and laid out in order they tile the word. */
  lemma Reg03Layout()
    ensures Widths(Reg03Fields) == [15, 1]
    ensures Tiles(Reg03Fields)
  {
    Reg03Widths();
    Reg03Tiles();
  }

  // The two halves of `Reg03Layout`, proved apart: one lemma stating both is
  // too costly for the solver.

  lemma Reg03Widths()
    ensures Widths(Reg03Fields) == [15, 1]
  {
  }

  lemma Reg03Tiles()
    ensures Tiles(Reg03Fields)
  {
    var fs := Reg03Fields;
    forall i | 0 < i < |fs|
      ensures fs[i].offset as nat == fs[i - 1].End()
    {
      assert i in {1};
    }
  }

  /** The word whose fields hold the components of `r`. */
  function Encode03(r: Reg03): Word
  {
    var w := Set(0, CHAN, r.chan as Word);
    Set(w, TUNE, r.tune as Word)
  }

  /** Reads every field of `w`; no bit of `w` is outside a field, so `w` is rebuilt from them. */
  function Decode03(w: Word): (r: Reg03)
    ensures Encode03(r) == w
  {
    Reg03(
      Get(w, CHAN) as bv15, Get(w, TUNE) as bv1)
  }

  /** No two fields of `bk_reg03` share a bit: each component survives encoding unchanged. */
  lemma Reg03FieldsIndependent(r: Reg03)
    ensures Decode03(Encode03(r)) == r
  {
  }

  /** `r` with field number `i` of `Reg03Fields` replaced by the low bits of `v` that fit its width. */
  function With03(r: Reg03, i: nat, v: Word): Reg03
    requires i < 2
  {
    match i
    case 0 => r.(chan := (v % 0x8000) as bv15)
    case _ => r.(tune := (v % 0x2) as bv1)
  }

  /**
   * Writing field `i` of `bk_reg03` through the overlay stores `v` truncated to
   * the field's width in that field and leaves every other field as it was.
   */
  lemma Reg03WriteIsolation(w: Word, i: nat, v: Word)
    requires i < 2
    ensures Decode03(Set(w, Reg03Fields[i], v)) == With03(Decode03(w), i, v)
  {
    var fs := Reg03Fields;
    if i == 0 {
      assert fs[i] == CHAN;
      Reg03WriteChan(w, v);
    } else {
      assert fs[i] == TUNE;
      Reg03WriteTune(w, v);
    }
  }

  // `Reg03WriteIsolation` one field at a time: a single lemma with all of
  // these ensures clauses is too costly for the solver.

  lemma Reg03WriteChan(w: Word, v: Word)
    ensures Decode03(Set(w, CHAN, v)) == Decode03(w).(chan := (v % 0x8000) as bv15)
  {
  }

  lemma Reg03WriteTune(w: Word, v: Word)
    ensures Decode03(Set(w, TUNE, v)) == Decode03(w).(tune := (v % 0x2) as bv1)
  {
  }
  // ---------------------------------------------------------------------
  // Register 04h: system configuration 1 (bk_reg04), as declared

  /**
   * The widths `bk_reg04` declares, in order: GPIO1, GPIO2, GPIO3, BLNDADJ,
   * TCPILOT, AGCD, DE, RDSEN, AFCINV, STCIEN, RDSIEN.  They add up to 17.
   */
  const Reg04DeclaredWidths: seq<nat> := [2, 2, 2, 3, 2, 1, 1, 1, 1, 1, 1]

  /** The declared fields of `bk_reg04` laid out in order: RDSIEN lands on bit 16. */
  const Reg04DeclaredFields := [
    Field(0, 2), Field(2, 2), Field(4, 2), Field(6, 3), Field(9, 2), Field(11, 1),
    Field(12, 1), Field(13, 1), Field(14, 1), Field(15, 1), Field(16, 1)]

  /**
   * As declared, `bk_reg04` cannot overlay its 16-bit word: no table of
   * fields with the declared widths tiles a word, and the contiguous layout
   * places RDSIEN outside it.
   */
  lemma Reg04DeclaredCannotTile(fs: seq<Field>)
    requires Widths(fs) == Reg04DeclaredWidths
    ensures !Tiles(fs)
  {
    if Tiles(fs) {
      WidthsSumTo16(fs);
      Reg04DeclaredSum();
      assert false;
    }
  }

  lemma Reg04DeclaredSum()
    ensures Sum(Reg04DeclaredWidths) == 17
  {
    var ws := Reg04DeclaredWidths;
    assert Sum(ws[..1]) == 2;
    assert ws[..2][..1] == ws[..1];
    assert Sum(ws[..2]) == 4;
    assert ws[..3][..2] == ws[..2];
    assert Sum(ws[..3]) == 6;
    assert ws[..4][..3] == ws[..3];
    assert Sum(ws[..4]) == 9;
    assert ws[..5][..4] == ws[..4];
    assert Sum(ws[..5]) == 11;
    assert ws[..6][..5] == ws[..5];
    assert Sum(ws[..6]) == 12;
    assert ws[..7][..6] == ws[..6];
    assert Sum(ws[..7]) == 13;
    assert ws[..8][..7] == ws[..7];
    assert Sum(ws[..8]) == 14;
    assert ws[..9][..8] == ws[..8];
    assert Sum(ws[..9]) == 15;
    assert ws[..10][..9] == ws[..9];
    assert Sum(ws[..10]) == 16;
    assert ws[..11][..10] == ws[..10];
    assert Sum(ws[..11]) == 17;
    assert ws[..11] == ws;
  }

  /** The declared layout is contiguous from bit 0, but its last field, RDSIEN, is bit 16. */
  lemma Reg04DeclaredLayout()
    ensures Widths(Reg04DeclaredFields) == Reg04DeclaredWidths
    ensures Reg04DeclaredFields[0].offset == 0 && Contiguous(Reg04DeclaredFields)
    ensures Reg04DeclaredFields[10] == Field(16, 1) && !Reg04DeclaredFields[10].Valid()
  {
    var fs := Reg04DeclaredFields;
    forall i | 0 < i < |fs|
      ensures fs[i].offset as nat == fs[i - 1].End()
    {
      assert i in {1, 2, 3, 4, 5, 6, 7, 8, 9, 10};
    }
  }

  // ---------------------------------------------------------------------
  // Register 04h with TCPILOT one bit wide, the reading under which it tiles

  const GPIO1 := Field(0, 2)
  const GPIO2 := Field(2, 2)
  const GPIO3 := Field(4, 2)
  const BLNDADJ := Field(6, 3)
  const TCPILOT := Field(9, 1)
  const AGCD := Field(10, 1)
  const DE := Field(11, 1)
  const RDSEN := Field(12, 1)
  const AFCINV := Field(13, 1)
  const STCIEN := Field(14, 1)
  const RDSIEN := Field(15, 1)

  /** The fields of `bk_reg04`, in declaration order. */
  const Reg04Fields := [GPIO1, GPIO2, GPIO3, BLNDADJ, TCPILOT, AGCD, DE, RDSEN, AFCINV, STCIEN, RDSIEN]

  /** `bk_reg04` read field by field. */
  datatype Reg04 = Reg04(
    gpio1: bv2, gpio2: bv2, gpio3: bv2, blendAdjust: bv3, tcPilot: bv1, agcDisable: bv1,
    deEmphasis: bv1, rdsEnable: bv1, afcInvert: bv1, stcInterrupt: bv1, rdsInterrupt: bv1)

  /** With TCPILOT one bit wide, the fields of `bk_reg04` laid out in order tile the word. */
  lemma Reg04Layout()
    ensures Widths(Reg04Fields) == [2, 2, 2, 3, 1, 1, 1, 1, 1, 1, 1]
    ensures Tiles(Reg04Fields)
  {
    Reg04Widths();
    Reg04Tiles();
  }

  // The two halves of `Reg04Layout`, proved apart: one lemma stating both is
  // too costly for the solver.

  lemma Reg04Widths()
    ensures Widths(Reg04Fields) == [2, 2, 2, 3, 1, 1, 1, 1, 1, 1, 1]
  {
  }

  lemma Reg04Tiles()
    ensures Tiles(Reg04Fields)
  {
    var fs := Reg04Fields;
    forall i | 0 < i < |fs|
      ensures fs[i].offset as nat == fs[i - 1].End()
    {
      assert i in {1, 2, 3, 4, 5, 6, 7, 8, 9, 10};
    }
  }

  /** The word whose fields hold the components of `r`. */
  function Encode04(r: Reg04): Word
  {
    var w := Set(0, GPIO1, r.gpio1 as Word);
    var w := Set(w, GPIO2, r.gpio2 as Word);
    var w := Set(w, GPIO3, r.gpio3 as Word);
    var w := Set(w, BLNDADJ, r.blendAdjust as Word);
    var w := Set(w, TCPILOT, r.tcPilot as Word);
    var w := Set(w, AGCD, r.agcDisable as Word);
    var w := Set(w, DE, r.deEmphasis as Word);
    var w := Set(w, RDSEN, r.rdsEnable as Word);
    var w := Set(w, AFCINV, r.afcInvert as Word);
    var w := Set(w, STCIEN, r.stcInterrupt as Word);
    Set(w, RDSIEN, r.rdsInterrupt as Word)
  }

  /** Reads every field of `w`; no bit of `w` is outside a field, so `w` is rebuilt from them. */
  function Decode04(w: Word): (r: Reg04)
    ensures Encode04(r) == w
  {
    Reg04(
      Get(w, GPIO1) as bv2, Get(w, GPIO2) as bv2, Get(w, GPIO3) as bv2, Get(w, BLNDADJ) as bv3,
      Get(w, TCPILOT) as bv1, Get(w, AGCD) as bv1, Get(w, DE) as bv1, Get(w, RDSEN) as bv1,
      Get(w, AFCINV) as bv1, Get(w, STCIEN) as bv1, Get(w, RDSIEN) as bv1)
  }

  /** No two fields of `bk_reg04` share a bit: each component survives encoding unchanged. */
  lemma Reg04FieldsIndependent(r: Reg04)
    ensures Decode04(Encode04(r)) == r
  {
  }

  /** `r` with field number `i` of `Reg04Fields` replaced by the low bits of `v` that fit its width. */
  function With04(r: Reg04, i: nat, v: Word): Reg04
    requires i < 11
  {
    match i
    case 0 => r.(gpio1 := (v % 0x4) as bv2)
    case 1 => r.(gpio2 := (v % 0x4) as bv2)
    case 2 => r.(gpio3 := (v % 0x4) as bv2)
    case 3 => r.(blendAdjust := (v % 0x8) as bv3)
    case 4 => r.(tcPilot := (v % 0x2) as bv1)
    case 5 => r.(agcDisable := (v % 0x2) as bv1)
    case 6 => r.(deEmphasis := (v % 0x2) as bv1)
    case 7 => r.(rdsEnable := (v % 0x2) as bv1)
    case 8 => r.(afcInvert := (v % 0x2) as bv1)
    case 9 => r.(stcInterrupt := (v % 0x2) as bv1)
    case _ => r.(rdsInterrupt := (v % 0x2) as bv1)
  }

  /**
   * Writing field `i` of `bk_reg04` through the overlay stores `v` truncated to
   * the field's width in that field and leaves every other field as it was.
   */
  lemma Reg04WriteIsolation(w: Word, i: nat, v: Word)
    requires i < 11
    ensures Decode04(Set(w, Reg04Fields[i], v)) == With04(Decode04(w), i, v)
  {
    var fs := Reg04Fields;
    if i == 0 {
      assert fs[i] == GPIO1;
      Reg04WriteGpio1(w, v);
    } else if i == 1 {
      assert fs[i] == GPIO2;
      Reg04WriteGpio2(w, v);
    } else if i == 2 {
      assert fs[i] == GPIO3;
      Reg04WriteGpio3(w, v);
    } else if i == 3 {
      assert fs[i] == BLNDADJ;
      Reg04WriteBlndadj(w, v);
    } else if i == 4 {
      assert fs[i] == TCPILOT;
      Reg04WriteTcpilot(w, v);
    } else if i == 5 {
      assert fs[i] == AGCD;
      Reg04WriteAgcd(w, v);
    } else if i == 6 {
      assert fs[i] == DE;
      Reg04WriteDe(w, v);
    } else if i == 7 {
      assert fs[i] == RDSEN;
      Reg04WriteRdsen(w, v);
    } else if i == 8 {
      assert fs[i] == AFCINV;
      Reg04WriteAfcinv(w, v);
    } else if i == 9 {
      assert fs[i] == STCIEN;
      Reg04WriteStcien(w, v);
    } else {
      assert fs[i] == RDSIEN;
      Reg04WriteRdsien(w, v);
    }
  }

  // `Reg04WriteIsolation` one field at a time: a single lemma with all of
  // these ensures clauses is too costly for the solver.

  lemma Reg04WriteGpio1(w: Word, v: Word)
    ensures Decode04(Set(w, GPIO1, v)) == Decode04(w).(gpio1 := (v % 0x4) as bv2)
  {
  }

  lemma Reg04WriteGpio2(w: Word, v: Word)
    ensures Decode04(Set(w, GPIO2, v)) == Decode04(w).(gpio2 := (v % 0x4) as bv2)
  {
  }

  lemma Reg04WriteGpio3(w: Word, v: Word)
    ensures Decode04(Set(w, GPIO3, v)) == Decode04(w).(gpio3 := (v % 0x4) as bv2)
  {
  }

  lemma Reg04WriteBlndadj(w: Word, v: Word)
    ensures Decode04(Set(w, BLNDADJ, v)) == Decode04(w).(blendAdjust := (v % 0x8) as bv3)
  {
  }

  lemma Reg04WriteTcpilot(w: Word, v: Word)
    ensures Decode04(Set(w, TCPILOT, v)) == Decode04(w).(tcPilot := (v % 0x2) as bv1)
  {
  }

  lemma Reg04WriteAgcd(w: Word, v: Word)
    ensures Decode04(Set(w, AGCD, v)) == Decode04(w).(agcDisable := (v % 0x2) as bv1)
  {
  }

  lemma Reg04WriteDe(w: Word, v: Word)
    ensures Decode04(Set(w, DE, v)) == Decode04(w).(deEmphasis := (v % 0x2) as bv1)
  {
  }

  lemma Reg04WriteRdsen(w: Word, v: Word)
    ensures Decode04(Set(w, RDSEN, v)) == Decode04(w).(rdsEnable := (v % 0x2) as bv1)
  {
  }

  lemma Reg04WriteAfcinv(w: Word, v: Word)
    ensures Decode04(Set(w, AFCINV, v)) == Decode04(w).(afcInvert := (v % 0x2) as bv1)
  {
  }

  lemma Reg04WriteStcien(w: Word, v: Word)
    ensures Decode04(Set(w, STCIEN, v)) == Decode04(w).(stcInterrupt := (v % 0x2) as bv1)
  {
  }

  lemma Reg04WriteRdsien(w: Word, v: Word)
    ensures Decode04(Set(w, RDSIEN, v)) == Decode04(w).(rdsInterrupt := (v % 0x2) as bv1)
  {
  }
  // ---------------------------------------------------------------------
  // Register 05h: system configuration 2 (bk_reg05)

  const VOLUME := Field(0, 5)
  const SPACE := Field(5, 2)
  const BAND := Field(7, 2)
  const SEEKTH := Field(9, 7)

  /** The fields of `bk_reg05`, in declaration order. */
  const Reg05Fields := [VOLUME, SPACE, BAND, SEEKTH]

  /** `bk_reg05` read field by field. */
  datatype Reg05 = Reg05(volume: bv5, space: bv2, band: bv2, seekThreshold: bv7)

  /** The fields of `bk_reg05` have the declared widths, and laid out in order they tile the word. */
  lemma Reg05Layout()
    ensures Widths(Reg05Fields) == [5, 2, 2, 7]
    ensures Tiles(Reg05Fields)
  {
    Reg05Widths();
    Reg05Tiles();
  }

  // The two halves of `Reg05Layout`, proved apart: one lemma stating both is
  // too costly for the solver.

  lemma Reg05Widths()
    ensures Widths(Reg05Fields) == [5, 2, 2, 7]
  {
  }

  lemma Reg05Tiles()
    ensures Tiles(Reg05Fields)
  {
    var fs := Reg05Fields;
    forall i | 0 < i < |fs|
      ensures fs[i].offset as nat == fs[i - 1].End()
    {
      assert i in {1, 2, 3};
    }
  }

  /** The word whose fields hold the components of `r`. */
  function Encode05(r: Reg05): Word
  {
    var w := Set(0, VOLUME, r.volume as Word);
    var w := Set(w, SPACE, r.space as Word);
    var w := Set(w, BAND, r.band as Word);
    Set(w, SEEKTH, r.seekThreshold as Word)
  }

  /** Reads every field of `w`; no bit of `w` is outside a field, so `w` is rebuilt from them. */
  function Decode05(w: Word): (r: Reg05)
    ensures Encode05(r) == w
  {
    Reg05(
      Get(w, VOLUME) as bv5, Get(w, SPACE) as bv2, Get(w, BAND) as bv2, Get(w, SEEKTH) as bv7)
  }

  /** No two fields of `bk_reg05` share a bit: each component survives encoding unchanged. */
  lemma Reg05FieldsIndependent(r: Reg05)
    ensures Decode05(Encode05(r)) == r
  {
  }

  /** `r` with field number `i` of `Reg05Fields` replaced by the low bits of `v` that fit its width. */
  function With05(r: Reg05, i: nat, v: Word): Reg05
    requires i < 4
  {
    match i
    case 0 => r.(volume := (v % 0x20) as bv5)
    case 1 => r.(space := (v % 0x4) as bv2)
    case 2 => r.(band := (v % 0x4) as bv2)
    case _ => r.(seekThreshold := (v % 0x80) as bv7)
  }

  /**
   * Writing field `i` of `bk_reg05` through the overlay stores `v` truncated to
   * the field's width in that field and leaves every other field as it was.
   */
  lemma Reg05WriteIsolation(w: Word, i: nat, v: Word)
    requires i < 4
    ensures Decode05(Set(w, Reg05Fields[i], v)) == With05(Decode05(w), i, v)
  {
    var fs := Reg05Fields;
    if i == 0 {
      assert fs[i] == VOLUME;
      Reg05WriteVolume(w, v);
    } else if i == 1 {
      assert fs[i] == SPACE;
      Reg05WriteSpace(w, v);
    } else if i == 2 {
      assert fs[i] == BAND;
      Reg05WriteBand(w, v);
    } else {
      assert fs[i] == SEEKTH;
      Reg05WriteSeekth(w, v);
    }
  }

  // `Reg05WriteIsolation` one field at a time: a single lemma with all of
  // these ensures clauses is too costly for the solver.

  lemma Reg05WriteVolume(w: Word, v: Word)
    ensures Decode05(Set(w, VOLUME, v)) == Decode05(w).(volume := (v % 0x20) as bv5)
  {
  }

  lemma Reg05WriteSpace(w: Word, v: Word)
    ensures Decode05(Set(w, SPACE, v)) == Decode05(w).(space := (v % 0x4) as bv2)
  {
  }

  lemma Reg05WriteBand(w: Word, v: Word)
    ensures Decode05(Set(w, BAND, v)) == Decode05(w).(band := (v % 0x4) as bv2)
  {
  }

  lemma Reg05WriteSeekth(w: Word, v: Word)
    ensures Decode05(Set(w, SEEKTH, v)) == Decode05(w).(seekThreshold := (v % 0x80) as bv7)
  {
  }
  // ---------------------------------------------------------------------
  // Register 06h: system configuration 3 (bk_reg06)

  const SKCNT := Field(0, 4)
  const SKSNR := Field(4, 7)
  const CLKSEL := Field(11, 1)
  const SMUTEA := Field(12, 2)
  const SMUTER := Field(14, 2)

  /** The fields of `bk_reg06`, in declaration order. */
  const Reg06Fields := [SKCNT, SKSNR, CLKSEL, SMUTEA, SMUTER]

  /** `bk_reg06` read field by field. */
  datatype Reg06 = Reg06(
    seekImpulseCount: bv4, seekSnr: bv7, clockSelect: bv1, softmuteAttenuation: bv2,
    softmuteRate: bv2)

  /** The fields of `bk_reg06` have the declared widths, and laid out in order they tile the word. */
  lemma Reg06Layout()
    ensures Widths(Reg06Fields) == [4, 7, 1, 2, 2]
    ensures Tiles(Reg06Fields)
  {
    Reg06Widths();
    Reg06Tiles();
  }

  // The two halves of `Reg06Layout`, proved apart: one lemma stating both is
  // too costly for the solver.

  lemma Reg06Widths()
    ensures Widths(Reg06Fields) == [4, 7, 1, 2, 2]
  {
  }

  lemma Reg06Tiles()
    ensures Tiles(Reg06Fields)
  {
    var fs := Reg06Fields;
    forall i | 0 < i < |fs|
      ensures fs[i].offset as nat == fs[i - 1].End()
    {
      assert i in {1, 2, 3, 4};
    }
  }

  /** The word whose fields hold the components of `r`. */
  function Encode06(r: Reg06): Word
  {
    var w := Set(0, SKCNT, r.seekImpulseCount as Word);
    var w := Set(w, SKSNR, r.seekSnr as Word);
    var w := Set(w, CLKSEL, r.clockSelect as Word);
    var w := Set(w, SMUTEA, r.softmuteAttenuation as Word);
    Set(w, SMUTER, r.softmuteRate as Word)
  }

  /** Reads every field of `w`; no bit of `w` is outside a field, so `w` is rebuilt from them. */
  function Decode06(w: Word): (r: Reg06)
    ensures Encode06(r) == w
  {
    Reg06(
      Get(w, SKCNT) as bv4, Get(w, SKSNR) as bv7, Get(w, CLKSEL) as bv1, Get(w, SMUTEA) as bv2,
      Get(w, SMUTER) as bv2)
  }

  /** No two fields of `bk_reg06` share a bit: each component survives encoding unchanged. */
  lemma Reg06FieldsIndependent(r: Reg06)
    ensures Decode06(Encode06(r)) == r
  {
  }

  /** `r` with field number `i` of `Reg06Fields` replaced by the low bits of `v` that fit its width. */
  function With06(r: Reg06, i: nat, v: Word): Reg06
    requires i < 5
  {
    match i
    case 0 => r.(seekImpulseCount := (v % 0x10) as bv4)
    case 1 => r.(seekSnr := (v % 0x80) as bv7)
    case 2 => r.(clockSelect := (v % 0x2) as bv1)
    case 3 => r.(softmuteAttenuation := (v % 0x4) as bv2)
    case _ => r.(softmuteRate := (v % 0x4) as bv2)
  }

  /**
   * Writing field `i` of `bk_reg06` through the overlay stores `v` truncated to
   * the field's width in that field and leaves every other field as it was.
   */
  lemma Reg06WriteIsolation(w: Word, i: nat, v: Word)
    requires i < 5
    ensures Decode06(Set(w, Reg06Fields[i], v)) == With06(Decode06(w), i, v)
  {
    var fs := Reg06Fields;
    if i == 0 {
      assert fs[i] == SKCNT;
      Reg06WriteSkcnt(w, v);
    } else if i == 1 {
      assert fs[i] == SKSNR;
      Reg06WriteSksnr(w, v);
    } else if i == 2 {
      assert fs[i] == CLKSEL;
      Reg06WriteClksel(w, v);
    } else if i == 3 {
      assert fs[i] == SMUTEA;
      Reg06WriteSmutea(w, v);
    } else {
      assert fs[i] == SMUTER;
      Reg06WriteSmuter(w, v);
    }
  }

  // `Reg06WriteIsolation` one field at a time: a single lemma with all of
  // these ensures clauses is too costly for the solver.

  lemma Reg06WriteSkcnt(w: Word, v: Word)
    ensures Decode06(Set(w, SKCNT, v)) == Decode06(w).(seekImpulseCount := (v % 0x10) as bv4)
  {
  }

  lemma Reg06WriteSksnr(w: Word, v: Word)
    ensures Decode06(Set(w, SKSNR, v)) == Decode06(w).(seekSnr := (v % 0x80) as bv7)
  {
  }

  lemma Reg06WriteClksel(w: Word, v: Word)
    ensures Decode06(Set(w, CLKSEL, v)) == Decode06(w).(clockSelect := (v % 0x2) as bv1)
  {
  }

  lemma Reg06WriteSmutea(w: Word, v: Word)
    ensures Decode06(Set(w, SMUTEA, v)) == Decode06(w).(softmuteAttenuation := (v % 0x4) as bv2)
  {
  }

  lemma Reg06WriteSmuter(w: Word, v: Word)
    ensures Decode06(Set(w, SMUTER, v)) == Decode06(w).(softmuteRate := (v % 0x4) as bv2)
  {
  }
  // ---------------------------------------------------------------------
  // Register 07h: test 1 (bk_reg07); RESERVED is carried as an opaque field

  const FMGAIN := Field(0, 3)
  const STGAIN := Field(3, 5)
  const IMPTH := Field(8, 2)
  const BPDE := Field(10, 1)
  const IMPEN := Field(11, 1)
  const SIQ := Field(12, 1)
  const MODE := Field(13, 1)
  const RESERVED := Field(14, 2)

  /** The fields of `bk_reg07`, in declaration order. */
  const Reg07Fields := [FMGAIN, STGAIN, IMPTH, BPDE, IMPEN, SIQ, MODE, RESERVED]

  /** `bk_reg07` read field by field. */
  datatype Reg07 = Reg07(
    fmGain: bv3, stereoGain: bv5, impulseThreshold: bv2, bypassDeEmphasis: bv1, impulseRemove: bv1,
    swapIq: bv1, mode: bv1, reserved: bv2)

  /** The fields of `bk_reg07` have the declared widths, and laid out in order they tile the word. */
  lemma Reg07Layout()
    ensures Widths(Reg07Fields) == [3, 5, 2, 1, 1, 1, 1, 2]
    ensures Tiles(Reg07Fields)
  {
    Reg07Widths();
    Reg07Tiles();
  }

  // The two halves of `Reg07Layout`, proved apart: one lemma stating both is
  // too costly for the solver.

  lemma Reg07Widths()
    ensures Widths(Reg07Fields) == [3, 5, 2, 1, 1, 1, 1, 2]
  {
  }

  lemma Reg07Tiles()
    ensures Tiles(Reg07Fields)
  {
    var fs := Reg07Fields;
    forall i | 0 < i < |fs|
      ensures fs[i].offset as nat == fs[i - 1].End()
    {
      assert i in {1, 2, 3, 4, 5, 6, 7};
    }
  }

  /** The word whose fields hold the components of `r`. */
  function Encode07(r: Reg07): Word
  {
    var w := Set(0, FMGAIN, r.fmGain as Word);
    var w := Set(w, STGAIN, r.stereoGain as Word);
    var w := Set(w, IMPTH, r.impulseThreshold as Word);
    var w := Set(w, BPDE, r.bypassDeEmphasis as Word);
    var w := Set(w, IMPEN, r.impulseRemove as Word);
    var w := Set(w, SIQ, r.swapIq as Word);
    var w := Set(w, MODE, r.mode as Word);
    Set(w, RESERVED, r.reserved as Word)
  }

  /** Reads every field of `w`; no bit of `w` is outside a field, so `w` is rebuilt from them. */
  function Decode07(w: Word): (r: Reg07)
    ensures Encode07(r) == w
  {
    Reg07(
      Get(w, FMGAIN) as bv3, Get(w, STGAIN) as bv5, Get(w, IMPTH) as bv2, Get(w, BPDE) as bv1,
      Get(w, IMPEN) as bv1, Get(w, SIQ) as bv1, Get(w, MODE) as bv1, Get(w, RESERVED) as bv2)
  }

  /** No two fields of `bk_reg07` share a bit: each component survives encoding unchanged. */
  lemma Reg07FieldsIndependent(r: Reg07)
    ensures Decode07(Encode07(r)) == r
  {
  }

  /** `r` with field number `i` of `Reg07Fields` replaced by the low bits of `v` that fit its width. */
  function With07(r: Reg07, i: nat, v: Word): Reg07
    requires i < 8
  {
    match i
    case 0 => r.(fmGain := (v % 0x8) as bv3)
    case 1 => r.(stereoGain := (v % 0x20) as bv5)
    case 2 => r.(impulseThreshold := (v % 0x4) as bv2)
    case 3 => r.(bypassDeEmphasis := (v % 0x2) as bv1)
    case 4 => r.(impulseRemove := (v % 0x2) as bv1)
    case 5 => r.(swapIq := (v % 0x2) as bv1)
    case 6 => r.(mode := (v % 0x2) as bv1)
    case _ => r.(reserved := (v % 0x4) as bv2)
  }

  /**
   * Writing field `i` of `bk_reg07` through the overlay stores `v` truncated to
   * the field's width in that field and leaves every other field as it was.
   */
  lemma Reg07WriteIsolation(w: Word, i: nat, v: Word)
    requires i < 8
    ensures Decode07(Set(w, Reg07Fields[i], v)) == With07(Decode07(w), i, v)
  {
    var fs := Reg07Fields;
    if i == 0 {
      assert fs[i] == FMGAIN;
      Reg07WriteFmgain(w, v);
    } else if i == 1 {
      assert fs[i] == STGAIN;
      Reg07WriteStgain(w, v);
    } else if i == 2 {
      assert fs[i] == IMPTH;
      Reg07WriteImpth(w, v);
    } else if i == 3 {
      assert fs[i] == BPDE;
      Reg07WriteBpde(w, v);
    } else if i == 4 {
      assert fs[i] == IMPEN;
      Reg07WriteImpen(w, v);
    } else if i == 5 {
      assert fs[i] == SIQ;
      Reg07WriteSiq(w, v);
    } else if i == 6 {
      assert fs[i] == MODE;
      Reg07WriteMode(w, v);
    } else {
      assert fs[i] == RESERVED;
      Reg07WriteReserved(w, v);
    }
  }

  // `Reg07WriteIsolation` one field at a time: a single lemma with all of
  // these ensures clauses is too costly for the solver.

  lemma Reg07WriteFmgain(w: Word, v: Word)
    ensures Decode07(Set(w, FMGAIN, v)) == Decode07(w).(fmGain := (v % 0x8) as bv3)
  {
  }

  lemma Reg07WriteStgain(w: Word, v: Word)
    ensures Decode07(Set(w, STGAIN, v)) == Decode07(w).(stereoGain := (v % 0x20) as bv5)
  {
  }

  lemma Reg07WriteImpth(w: Word, v: Word)
    ensures Decode07(Set(w, IMPTH, v)) == Decode07(w).(impulseThreshold := (v % 0x4) as bv2)
  {
  }

  lemma Reg07WriteBpde(w: Word, v: Word)
    ensures Decode07(Set(w, BPDE, v)) == Decode07(w).(bypassDeEmphasis := (v % 0x2) as bv1)
  {
  }

  lemma Reg07WriteImpen(w: Word, v: Word)
    ensures Decode07(Set(w, IMPEN, v)) == Decode07(w).(impulseRemove := (v % 0x2) as bv1)
  {
  }

  lemma Reg07WriteSiq(w: Word, v: Word)
    ensures Decode07(Set(w, SIQ, v)) == Decode07(w).(swapIq := (v % 0x2) as bv1)
  {
  }

  lemma Reg07WriteMode(w: Word, v: Word)
    ensures Decode07(Set(w, MODE, v)) == Decode07(w).(mode := (v % 0x2) as bv1)
  {
  }

  lemma Reg07WriteReserved(w: Word, v: Word)
    ensures Decode07(Set(w, RESERVED, v)) == Decode07(w).(reserved := (v % 0x4) as bv2)
  {
  }
  // ---------------------------------------------------------------------
  // Bits the register comments name

  /**
   * The bits the comments name as "SEEK 02h[8]", "SKMODE 02h[10]" and
   * "TUNE 03h[15]" are owned by those fields, and by no other field.
   */
  lemma CommentedBitsOwned()
    ensures Tiles(Reg02Fields) && Reg02Fields[Owner(Reg02Fields, 8)] == SEEK
    ensures Tiles(Reg02Fields) && Reg02Fields[Owner(Reg02Fields, 10)] == SKMODE
    ensures Tiles(Reg03Fields) && Reg03Fields[Owner(Reg03Fields, 15)] == TUNE
  {
    Reg02Layout();
    Reg03Layout();
    OwnerUnique(Reg02Fields, 8, 4);
    OwnerUnique(Reg02Fields, 10, 6);
    OwnerUnique(Reg03Fields, 15, 1);
  }
}
