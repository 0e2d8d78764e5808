/**
 * The driver's register file: seventeen sixteen-bit shadow words, one per
 * device register 00h to 10h, that the driver edits in memory and transfers
 * to and from the chip in bulk.  The overlay pointers `reg00` to `reg0f`
 * alias the words at their register numbers, so writing a field through an
 * overlay pointer rewrites one field of one word.
 */
module ShadowRegisters {
  import opened Bits
  import opened Layout
  import opened ConfigRegisters

  /** Number of shadow words (`shadowRegisters[17]`). */
  const REGISTER_COUNT: nat := 17

  /** The highest register number `setShadownRegister` accepts. */
  const LAST_SETTABLE: Byte := 0x0F

  /** Register numbers of the configuration overlays. */
  const REG02: nat := 0x02
  const REG03: nat := 0x03
  const REG04: nat := 0x04
  const REG05: nat := 0x05
  const REG06: nat := 0x06
  const REG07: nat := 0x07

  class BK108X {
    /** `shadowRegisters`: the in-memory copy of the device registers. */
    var shadowRegisters: array<Word>

    /** The register file has its seventeen words. */
    predicate Valid()
      reads this
    {
      shadowRegisters.Length == REGISTER_COUNT
    }

    /**
     * A driver object with its register file.  The C array starts with
     * whatever the object's storage held; here it starts as zeros.
     */
    constructor ()
      ensures Valid()
      ensures fresh(shadowRegisters)
      ensures forall k :: 0 <= k < REGISTER_COUNT ==> shadowRegisters[k] == 0
    {
      shadowRegisters := new Word[REGISTER_COUNT](_ => 0);
    }

    /**
     * `getShadownRegister`: the shadow word of register `r`, as stored; word
     * 10h, which `SetShadownRegister` never writes, can still be read.
     */
    function GetShadownRegister(r: Byte): (v: Word)
      requires Valid()
      requires r as nat < REGISTER_COUNT
      reads this, shadowRegisters
      ensures v == shadowRegisters[r as nat]
    {
      shadowRegisters[r]
    }

    /**
     * `setShadownRegister`: stores `v` as the shadow word of register `r`
     * when `r` is at most 0Fh, and otherwise changes nothing.  Word 10h is
     * therefore never written here.
     */
    method SetShadownRegister(r: Byte, v: Word)
      requires Valid()
      modifies shadowRegisters
      ensures Valid()
      ensures r > LAST_SETTABLE ==> shadowRegisters[..] == old(shadowRegisters[..])
      ensures r <= LAST_SETTABLE ==> shadowRegisters[..] == old(shadowRegisters[..])[r as nat := v]
      ensures r <= LAST_SETTABLE ==> GetShadownRegister(r) == v
      ensures shadowRegisters[0x10] == old(shadowRegisters[0x10])
    {
      if r > LAST_SETTABLE {
        return;
      }
      shadowRegisters[r] := v;
    }

    /**
     * A write through an overlay pointer: field `f` of register `r` becomes
     * `v`, truncated to the field's width, and every other bit of the register
     * file stays as it was.  The pointers `reg00` to `reg0f` reach registers
     * 00h to 0Fh only.
     */
    method SetField(r: nat, f: Field, v: Word)
      requires Valid()
      requires r <= LAST_SETTABLE as nat
      requires f.Valid()
      modifies shadowRegisters
      ensures shadowRegisters[..] == old(shadowRegisters[..])[r := Set(old(shadowRegisters[r]), f, v)]
    {
      shadowRegisters[r] := Set(shadowRegisters[r], f, v);
    }

    /**
     * `reg02->refined.F = v` for field number `i` of the overlay: that field of
     * the register becomes `v` truncated to its width, its other fields and
     * every other register stay as they were.
     */
    method SetReg02Field(i: nat, v: Word)
      requires Valid()
      requires i < |Reg02Fields|
      modifies shadowRegisters
      ensures Decode02(shadowRegisters[REG02]) == With02(old(Decode02(shadowRegisters[REG02])), i, v)
      ensures forall k :: 0 <= k < REGISTER_COUNT && k != REG02 ==> shadowRegisters[k] == old(shadowRegisters[k])
    {
      Reg02Layout();
      AllValid(Reg02Fields, i);
      Reg02WriteIsolation(shadowRegisters[REG02], i, v);
      SetField(REG02, Reg02Fields[i], v);
    }

    /**
     * `reg03->refined.F = v` for field number `i` of the overlay: that field of
     * the register becomes `v` truncated to its width, its other fields and
     * every other register stay as they were.
     */
    method SetReg03Field(i: nat, v: Word)
      requires Valid()
      requires i < |Reg03Fields|
      modifies shadowRegisters
      ensures Decode03(shadowRegisters[REG03]) == With03(old(Decode03(shadowRegisters[REG03])), i, v)
      ensures forall k :: 0 <= k < REGISTER_COUNT && k != REG03 ==> shadowRegisters[k] == old(shadowRegisters[k])
    {
      Reg03Layout();
      AllValid(Reg03Fields, i);
      Reg03WriteIsolation(shadowRegisters[REG03], i, v);
      SetField(REG03, Reg03Fields[i], v);
    }

    /**
     * `reg04->refined.F = v` for field number `i` of the overlay: that field of
     * the register becomes `v` truncated to its width, its other fields and
     * every other register stay as they were.
     */
    method SetReg04Field(i: nat, v: Word)
      requires Valid()
      requires i < |Reg04Fields|
      modifies shadowRegisters
      ensures Decode04(shadowRegisters[REG04]) == With04(old(Decode04(shadowRegisters[REG04])), i, v)
      ensures forall k :: 0 <= k < REGISTER_COUNT && k != REG04 ==> shadowRegisters[k] == old(shadowRegisters[k])
    {
      Reg04Layout();
      AllValid(Reg04Fields, i);
      Reg04WriteIsolation(shadowRegisters[REG04], i, v);
      SetField(REG04, Reg04Fields[i], v);
    }

    /**
     * `reg05->refined.F = v` for field number `i` of the overlay: that field of
     * the register becomes `v` truncated to its width, its other fields and
     * every other register stay as they were.
     */
    method SetReg05Field(i: nat, v: Word)
      requires Valid()
      requires i < |Reg05Fields|
      modifies shadowRegisters
      ensures Decode05(shadowRegisters[REG05]) == With05(old(Decode05(shadowRegisters[REG05])), i, v)
      ensures forall k :: 0 <= k < REGISTER_COUNT && k != REG05 ==> shadowRegisters[k] == old(shadowRegisters[k])
    {
      Reg05Layout();
      AllValid(Reg05Fields, i);
      Reg05WriteIsolation(shadowRegisters[REG05], i, v);
      SetField(REG05, Reg05Fields[i], v);
    }

    /**
     * `reg06->refined.F = v` for field number `i` of the overlay: that field of
     * the register becomes `v` truncated to its width, its other fields and
     * every other register stay as they were.
     */
    method SetReg06Field(i: nat, v: Word)
      requires Valid()
      requires i < |Reg06Fields|
      modifies shadowRegisters
      ensures Decode06(shadowRegisters[REG06]) == With06(old(Decode06(shadowRegisters[REG06])), i, v)
      ensures forall k :: 0 <= k < REGISTER_COUNT && k != REG06 ==> shadowRegisters[k] == old(shadowRegisters[k])
    {
      Reg06Layout();
      AllValid(Reg06Fields, i);
      Reg06WriteIsolation(shadowRegisters[REG06], i, v);
      SetField(REG06, Reg06Fields[i], v);
    }

    /**
     * `reg07->refined.F = v` for field number `i` of the overlay: that field of
     * the register becomes `v` truncated to its width, its other fields and
     * every other register stay as they were.
     */
    method SetReg07Field(i: nat, v: Word)
      requires Valid()
      requires i < |Reg07Fields|
      modifies shadowRegisters
      ensures Decode07(shadowRegisters[REG07]) == With07(old(Decode07(shadowRegisters[REG07])), i, v)
      ensures forall k :: 0 <= k < REGISTER_COUNT && k != REG07 ==> shadowRegisters[k] == old(shadowRegisters[k])
    {
      Reg07Layout();
      AllValid(Reg07Fields, i);
      Reg07WriteIsolation(shadowRegisters[REG07], i, v);
      SetField(REG07, Reg07Fields[i], v);
    }
  }
}
