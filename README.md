# BK1086/88 FM receiver driver: register data layer

This project is a Dafny model of the data layer of the BK108X Arduino driver
for the BK1086/BK1088 broadcast receiver. All of it is declared in `BK108X.h`.
The model covers:

- the shadow register file: seventeen 16-bit words, with the bounds-checked
  setter and the overlay pointers that alias single words;
- the bit-field overlays of registers 00h to 0Bh;
- the three overlays of RDS block B;
- the split clock-time/date layout of RDS group 4A;
- the FM band and channel-spacing tables;
- the sizes of the RDS text buffers.

Fields are laid out least-significant bit first, each one starting where the
previous one ends. This is also the layout of the positional comments at
BK108X.h:295-297, for example "SEEK 02h[8]" and "TUNE 03h[15]". Field access
is written as an explicit mask and shift over a `bv16` word, so no compiler's
bit-field allocation rule is involved.

The files:

- `bits.dfy` (module `Bits`): words and bytes, and the `Field` (offset, width) type with `Get`/`Set`.
- `layout.dfy` (module `Layout`): what it means for an overlay to tile its
  word, and what tiling implies: prefix-sum offsets, disjoint fields, and one
  owner per bit.
- `config_registers.dfy` (module `ConfigRegisters`): overlays 02h to 07h. Each
  has its layout, a lossless decode, independent fields and write isolation.
  This file also holds the as-declared register 04h (see Findings).
- `status_registers.dfy` (module `StatusRegisters`): the 0Ah status word, the
  0Bh read-channel and error levels, and the low/high byte split used by 00h,
  01h, 08h, 09h and `word16_to_bytes`.
- `rds_block_b.dfy` (module `RdsBlockB`): the `group0`, `group2` and `refined`
  views, and where they agree.
- `rds_text.dfy` (module `RdsText`): the buffer slice each text segment
  address selects.
- `rds_date_time.dfy` (module `RdsDateTime`): the group 4A overlay and its
  match with the block layout of EN 50067.
- `tuning.dfy` (module `Tuning`): the band tables and the rule
  "frequency = band floor + CHAN * spacing".
- `shadow_registers.dfy` (module `ShadowRegisters`): the class `BK108X` with
  its `shadowRegisters` array.

Frequencies are in units of 10 kHz, as in the tables (8750 is 87.50 MHz).

Two consequences of the declarations are easy to get wrong:

- **Status word 0x8C50.** Under the declared `bk_reg0a` layout this word has
  bits 15, 11, 10, 6 and 4 set, so bit 12 (AFCRL) is 0. `StatusExample`
  states the whole decoding: RSSI 0x50, BLERA 2, RDSS 1, RDSR 1, all else 0.
- **Type 2B text addresses.** `group2.address` is 4 bits wide, and
  `rds_buffer2B[33]` holds 16 two-character segments plus a terminator.
  Section 3.1.5.3 of EN 50067 gives version B groups the same 4-bit text
  segment address as version A, so the model takes all 16 addresses.

## Model

| member | source | states |
|---|---|---|
| `Bits.GetFitsWidth` | BK108X.h:101-118 | Reading a field through an overlay, as `reg02->refined.SNR_REF` does, gives a value with no bit set beyond the field's width. |
| `Bits.GetAfterSet` | BK108X.h:101-118 | Assigning v to a field through an overlay and reading it back gives v modulo 2^width, as for an unsigned C bit-field, and the assignment keeps every bit of the word outside the field. |
| `Layout.OffsetIsPrefixSum` | BK108X.h:381 | In a layout allocated from bit 0 upward with no gaps, each field's offset equals the total width of the fields declared before it. |
| `Layout.WidthsSumTo16` | BK108X.h:381 | The declared widths of an overlay that tiles its word add up to exactly 16. |
| `Layout.Disjoint` | BK108X.h:381 | Of two fields in such a layout, the one declared first ends at or before the start of the other, so they share no bit. |
| `Layout.AllValid` | BK108X.h:381 | Every field of a tiling overlay lies inside the 16-bit word. |
| `Layout.Owner` | BK108X.h:381 | Every bit 0 to 15 of a tiling overlay's word lies inside some field. |
| `Layout.OwnerUnique` | BK108X.h:381 | No field other than `Owner`'s holds that bit: each bit has exactly one owning field. |
| `ConfigRegisters.Reg02Layout` | BK108X.h:101-118 | `bk_reg02` has twelve fields of widths 1,5,1,1,1,1,1,1,1,1,1,1, and laid out in order they tile the word. |
| `ConfigRegisters.Decode02` | BK108X.h:101-118 | Reading all twelve fields of a word and writing them back into a zero word rebuilds that word, so no bit lies outside a field. |
| `ConfigRegisters.Reg02FieldsIndependent` | BK108X.h:101-118 | Writing a whole `bk_reg02` view and reading it back returns the view, so no two fields share a bit. |
| `ConfigRegisters.Reg02WriteIsolation` | BK108X.h:104-115 | Writing field i through the overlay stores v modulo 2^width in that field (get after set gives the masked value), and the other eleven fields are unchanged. |
| `ConfigRegisters.CommentedBitsOwned` | BK108X.h:296-297 | The bits the comments call SEEK 02h[8], SKMODE 02h[10] and TUNE 03h[15] are owned by those fields and by no other field. |
| `ConfigRegisters.Reg03Layout` | BK108X.h:126-133 | CHAN has 15 bits (bits 0-14) and TUNE has 1 bit (bit 15), and together they tile the word. |
| `ConfigRegisters.Decode03` | BK108X.h:126-133 | Decoding `bk_reg03` loses no bit of the word. |
| `ConfigRegisters.Reg03FieldsIndependent` | BK108X.h:126-133 | CHAN and TUNE share no bit. |
| `ConfigRegisters.Reg03WriteIsolation` | BK108X.h:129-130 | Setting CHAN to c stores c mod 2^15 and leaves TUNE unchanged; setting TUNE leaves CHAN unchanged. |
| `ConfigRegisters.Reg04DeclaredCannotTile` | BK108X.h:153-169 | No layout whose fields have the declared widths of `bk_reg04` can tile a 16-bit word (the as-written half of the finding). |
| `ConfigRegisters.Reg04DeclaredLayout` | BK108X.h:156-166 | Laid out in order, the declared fields of `bk_reg04` are contiguous from bit 0, but RDSIEN lands on bit 16, outside the word. |
| `ConfigRegisters.Reg04Layout` | BK108X.h:153-169 | With TCPILOT one bit wide, the eleven fields of `bk_reg04` tile the word (the corrected half of the finding). |
| `ConfigRegisters.Decode04` | BK108X.h:153-169 | Decoding the corrected `bk_reg04` loses no bit. |
| `ConfigRegisters.Reg04FieldsIndependent` | BK108X.h:153-169 | The corrected `bk_reg04` fields share no bit. |
| `ConfigRegisters.Reg04WriteIsolation` | BK108X.h:156-166 | Writing one field of the corrected `bk_reg04` stores the value truncated to its width and leaves the other ten fields unchanged. |
| `ConfigRegisters.Reg05Layout` | BK108X.h:195-204 | VOLUME 5, SPACE 2, BAND 2 and SEEKTH 7 bits tile the word. |
| `ConfigRegisters.Decode05` | BK108X.h:195-204 | Decoding `bk_reg05` loses no bit. |
| `ConfigRegisters.Reg05FieldsIndependent` | BK108X.h:195-204 | The `bk_reg05` fields share no bit. |
| `ConfigRegisters.Reg05WriteIsolation` | BK108X.h:198-201 | Writing one `bk_reg05` field stores the value truncated to its width and leaves the other three fields unchanged. |
| `ConfigRegisters.Reg06Layout` | BK108X.h:231-241 | SKCNT 4, SKSNR 7, CLKSEL 1, SMUTEA 2 and SMUTER 2 bits tile the word. |
| `ConfigRegisters.Decode06` | BK108X.h:231-241 | Decoding `bk_reg06` loses no bit. |
| `ConfigRegisters.Reg06FieldsIndependent` | BK108X.h:231-241 | The `bk_reg06` fields share no bit. |
| `ConfigRegisters.Reg06WriteIsolation` | BK108X.h:234-238 | Writing one `bk_reg06` field stores the value truncated to its width and leaves the other four fields unchanged. |
| `ConfigRegisters.Reg07Layout` | BK108X.h:247-260 | FMGAIN 3, STGAIN 5, IMPTH 2, BPDE, IMPEN, SIQ, MODE 1 and RESERVED 2 bits tile the word. |
| `ConfigRegisters.Decode07` | BK108X.h:247-260 | Decoding `bk_reg07` loses no bit. |
| `ConfigRegisters.Reg07FieldsIndependent` | BK108X.h:247-260 | The `bk_reg07` fields share no bit. |
| `ConfigRegisters.Reg07WriteIsolation` | BK108X.h:250-257 | Writing one `bk_reg07` field stores the value truncated to its width and leaves the other seven fields, RESERVED included, unchanged. |
| `StatusRegisters.Reg0ALayout` | BK108X.h:307-320 | RSSI (8 bits), ST, BLERA (2 bits), RDSS, AFCRL, SF_BL, STC and RDSR tile the status word, at bits 0-7, 8, 9-10, 11, 12, 13, 14 and 15. |
| `StatusRegisters.Decode0A` | BK108X.h:307-320 | Decoding the status word loses no bit. |
| `StatusRegisters.Reg0AFieldsIndependent` | BK108X.h:307-320 | The status fields share no bit. |
| `StatusRegisters.StatusExample` | BK108X.h:310-317 | 0x8C50 decodes to RSSI 0x50, ST 0, BLERA 2, RDSS 1, AFCRL 0, SF_BL 0, STC 0 and RDSR 1. |
| `StatusRegisters.Reg0BLayout` | BK108X.h:336-345 | READCHAN (10 bits), BLERD, BLERC and BLERB (2 bits each) tile the word. |
| `StatusRegisters.Decode0B` | BK108X.h:336-345 | Decoding `bk_reg0b` loses no bit. |
| `StatusRegisters.Reg0BFieldsIndependent` | BK108X.h:336-345 | The `bk_reg0b` fields share no bit. |
| `StatusRegisters.WordBytesLayout` | BK108X.h:452-459 | `lowByte` and `highByte`, 8 bits each, tile the word, as in `bk_reg00`, `bk_reg01`, `bk_reg08`, `bk_reg09` and `word16_to_bytes`. |
| `StatusRegisters.DecodeBytes` | BK108X.h:74-94 | Splitting a word into its two bytes loses no bit. |
| `StatusRegisters.WordBytesFieldsIndependent` | BK108X.h:452-459 | Joining two bytes and splitting the result gives the same two bytes back. |
| `StatusRegisters.BytesAreDigits` | BK108X.h:452-459 | The low byte is the word mod 256 and the high byte is the word div 256, and word = high * 256 + low. |
| `RdsBlockB.Group0Layout` | BK108X.h:394-402 | In `group0`, address 2, DI, MS and TA 1 each, PTY 5, TP, B0 and group type 4 bits tile block B. |
| `RdsBlockB.DecodeGroup0` | BK108X.h:394-402 | The `group0` view loses no bit of block B. |
| `RdsBlockB.Group0FieldsIndependent` | BK108X.h:394-402 | The `group0` fields share no bit. |
| `RdsBlockB.Group2Layout` | BK108X.h:403-411 | In `group2`, address 4, text A/B 1, PTY 5, TP, B0 and group type 4 bits tile block B. |
| `RdsBlockB.DecodeGroup2` | BK108X.h:403-411 | The `group2` view loses no bit of block B. |
| `RdsBlockB.Group2FieldsIndependent` | BK108X.h:403-411 | The `group2` fields share no bit. |
| `RdsBlockB.BlockBLayout` | BK108X.h:412-420 | In `refined`, content 4, text A/B 1, PTY 5, TP, B0 and group type 4 bits tile block B. |
| `RdsBlockB.DecodeBlockB` | BK108X.h:412-420 | The `refined` view loses no bit of block B. |
| `RdsBlockB.BlockBFieldsIndependent` | BK108X.h:412-420 | The `refined` fields share no bit. |
| `RdsBlockB.GroupTypeAgrees` | BK108X.h:401-419 | All three views read the group type as bits 15-12 of block B. |
| `RdsBlockB.VersionAgrees` | BK108X.h:400-418 | All three views read the version code B0 as bit 11. |
| `RdsBlockB.TrafficProgramAgrees` | BK108X.h:399-417 | All three views read TP as bit 10. |
| `RdsBlockB.ProgramTypeAgrees` | BK108X.h:398-416 | All three views read PTY as bits 9-5. |
| `RdsBlockB.AddressesAgree` | BK108X.h:394-414 | The `group2` address is bits 3-0, the same bits as `refined.content`. The text A/B flag is bit 4 in both views, so they agree. The `group0` address is bits 1-0. |
| `RdsText.Segment2A` | BK108X.h:497 | A 2A segment is 4 characters at offset 4 * address. Its end is at most 64, inside `rds_buffer2A[65]` with the last byte left for the terminator. |
| `RdsText.Segment2B` | BK108X.h:498 | A 2B segment is 2 characters at offset 2 * address. Its end is at most 32, inside `rds_buffer2B[33]` with a terminator byte left. |
| `RdsText.Segment0A` | BK108X.h:499 | A type 0 segment is 2 characters at offset 2 * address (2-bit address). Its end is at most 8, inside `rds_buffer0A[9]` with a terminator byte left. |
| `RdsText.Segments2ADisjoint` | BK108X.h:405 | 2A groups with different segment addresses write disjoint slices. |
| `RdsText.Segments2BDisjoint` | BK108X.h:405 | 2B groups with different segment addresses write disjoint slices. |
| `RdsText.Segments0ADisjoint` | BK108X.h:394 | Type 0 groups with different segment addresses write disjoint slices. |
| `RdsText.Segments2ACover` | BK108X.h:497 | Every text position 0 to 63 of `rds_buffer2A` is written by some 2A segment address. |
| `RdsText.Segments2BCover` | BK108X.h:498 | Every text position 0 to 31 of `rds_buffer2B` is written by some 2B segment address. |
| `RdsText.Segments0ACover` | BK108X.h:499 | Every text position 0 to 7 of `rds_buffer0A` is written by some type 0 segment address. |
| `RdsDateTime.Fields` | BK108X.h:434-446 | The seven fields of `bk_rds_date_time` hold exactly the low 34 bits of the six raw bytes. |
| `RdsDateTime.Decode` | BK108X.h:434-446 | Reading `refined` from `raw[6]`: the seven fields together hold exactly the low 34 bits of the six bytes, `raw[0]` least significant. |
| `RdsDateTime.FieldsIndependent` | BK108X.h:434-446 | The date/time fields share no bit. |
| `RdsDateTime.Minute` | BK108X.h:439-440 | minute = minute2 * 4 + minute1, which is below 64. `minute1` and `minute2` are its remainder and quotient by 4. |
| `RdsDateTime.Hour` | BK108X.h:441-442 | hour = hour2 * 16 + hour1, which is below 32. `hour1` and `hour2` are its remainder and quotient by 16. |
| `RdsDateTime.Mjd` | BK108X.h:443 | The Modified Julian Day is below 2^17. |
| `RdsDateTime.LocalOffset` | BK108X.h:437-438 | The local offset has magnitude `offset`, below 32. It is negative only when `offset_sense` is 1 and positive only when it is 0. |
| `RdsDateTime.MatchesBlocks` | BK108X.h:427-446 | With the raw bytes holding blocks D, C and B, low byte first, the fields give the EN 50067 positions: offset D[4:0], sign D[5], minute D[11:6], hour C[0] followed by D[15:12], and MJD B[1:0] followed by C[15:1]. |
| `Tuning.TablesWellFormed` | BK108X.h:491-493 | For every BAND value the start is below the end, and every spacing is positive. |
| `Tuning.Frequency` | BK108X.h:123 | The frequency of channel c lies on the band's channel grid: at or above the band floor, a whole number of spacings above it, and exactly c spacings. |
| `Tuning.MaxChannel` | BK108X.h:491-493 | The highest channel of a band is the last one whose frequency is at or below the band ceiling. |
| `Tuning.Channel` | BK108X.h:123 | The channel of frequency f is the last channel whose frequency is at or below f. |
| `Tuning.MaxChannelFitsChan` | BK108X.h:129 | Every band's highest channel fits the 15-bit CHAN field. |
| `Tuning.MonotoneFrequency` | BK108X.h:123 | A higher channel has a frequency at least as high. |
| `Tuning.ChannelRoundTrip` | BK108X.h:123 | A channel of the band has its frequency inside the band and below 2^16, fits CHAN, and the frequency converts back to that channel. |
| `Tuning.FrequencyRoundTrip` | BK108X.h:123 | A frequency inside the band and on the channel grid is the frequency of a channel of the band. |
| `Tuning.TunedFrequency` | BK108X.h:123-129 | For every CHAN value, the frequency that CHAN of register 03h and BAND and SPACE of register 05h select is at or above the band floor and converts back to CHAN. |
| `Tuning.TunedFrequencyInBand` | BK108X.h:123-129 | When CHAN of register 03h is within the band that BAND and SPACE of register 05h select, the tuned frequency lies inside that band and converts back to CHAN. |
| `ShadowRegisters.BK108X.constructor` | BK108X.h:471 | A new driver object has a fresh 17-word register file. |
| `ShadowRegisters.BK108X.GetShadownRegister` | BK108X.h:547 | Returns the stored shadow word of register r as it is, word 10h included, which `setShadownRegister` never writes. |
| `ShadowRegisters.BK108X.SetShadownRegister` | BK108X.h:557-562 | For r > 0Fh no word changes. For r <= 0Fh exactly word r becomes v, and a following `getShadownRegister(r)` returns v. Word 10h never changes. |
| `ShadowRegisters.BK108X.SetField` | BK108X.h:474-489 | A write through an overlay pointer, to one of registers 00h to 0Fh, rewrites one field of one word and nothing else. |
| `ShadowRegisters.BK108X.SetReg02Field` | BK108X.h:476 | A write of a `reg02` field changes just that field of word 02h, truncated to its width. All other words are unchanged. |
| `ShadowRegisters.BK108X.SetReg03Field` | BK108X.h:477 | The same for `reg03` and word 03h. |
| `ShadowRegisters.BK108X.SetReg04Field` | BK108X.h:478 | The same for `reg04` (corrected layout) and word 04h. |
| `ShadowRegisters.BK108X.SetReg05Field` | BK108X.h:479 | The same for `reg05` and word 05h. |
| `ShadowRegisters.BK108X.SetReg06Field` | BK108X.h:480 | The same for `reg06` and word 06h. |
| `ShadowRegisters.BK108X.SetReg07Field` | BK108X.h:481 | The same for `reg07` and word 07h. |

## Left out

- I2C transfers and the Wire dependency (`getAllRegisters`, `setAllRegisters`, `getStatus`) are bus I/O. They are declared but their bodies are not in the header.
- Reset, power-up/down, oscillator start-up and the delays around them are left out. This is GPIO timing.
- Seek and tune polling (`waitAndFinishTune`, `seek` with its callback) is left out, as are the interrupt pins. This depends on device feedback.
- The bodies of `setFrequency`, `setVolume`, `getRdsText*`, `getRdsTime` and the other declared methods are left out. They are in a source file that is not part of this model, and no control flow is invented for them. The RDS text functions give only where a segment lands, following EN 50067, not how the driver assembles, clears or terminates the text. The `rds_time[20]` string buffer is not modelled.
- Chip behaviour described in comments is left out, for example STC and SF/BL being cleared when SEEK or TUNE go low.
- Compiler bit-field allocation (the straddling rules in the comment above `bk_rds_blockb`) is left out. Every overlay uses the contiguous least-significant-bit-first layout, which is the one the positional comments at BK108X.h:295-297 use (SKMODE 02h[10], SEEK 02h[8], TUNE 03h[15]). A compiler that keeps each `uint8_t` field inside one byte would move every field that crosses bit 8 (`BAND` in 05h, `SKSNR` in 06h, `BLNDADJ` in 04h, `programType` in block B), and with it every field declared after it. In 05h, `SEEKTH` would then end past bit 15. The same holds for the `uint32_t` field `mjd` of `bk_rds_date_time` (bits 17 to 33): it crosses its 32-bit unit, and a compiler that does not let a field do so would move it to bit 32, outside `raw[6]`.
- Register comments that give other positions are set aside, for example "BAND 05h[7:6]" and "CHAN 03h[9:0]" at BK108X.h:325-326. They contradict the declared layout.
- The band and spacing tables in the comment above `bk_reg05` (BK108X.h:176-191) are set aside, both the AM and the FM columns. The FM columns contradict the arrays: BAND 0 is listed as "FULL 64~108" but `startBand[0]` is 8750, and SPACE 0 as 10 kHz but `fmSpace[0]` is 20 (200 kHz). The model follows the `startBand`/`endBand`/`fmSpace` arrays at BK108X.h:491-493.
- Byte order: the byte members (`lowByte` and `highByte`, RSSI as the low byte of 0Ah, `raw[0]` of `bk_rds_date_time` as the least significant byte) are plain `uint8_t` members overlaid on a wider value, so their meaning depends on the target's byte order. The model assumes a little-endian target.
- `bk_reg08`, `bk_reg09` and `bk_reg07.RESERVED` are carried as opaque bits. They are given no meaning.
- `ShadowRegisters.BK108X.constructor`: the C array is not initialised by the class. The model starts it as zeros.
- `ShadowRegisters.BK108X.GetShadownRegister` requires a register number below 17. The source does not check, and a larger number reads outside the array. `REG11` and `REG12` name such numbers.
- `RdsDateTime.MatchesBlocks` assumes the raw bytes hold blocks D, C and B, in that order. How the driver fills them is not part of this model.

## Findings

| source | as written | input that shows it | evidently intended | confidence | as-written member | corrected member |
|---|---|---|---|---|---|---|
| BK108X.h:156-166 | The `bk_reg04` fields declare 2+2+2+3+2+1+1+1+1+1+1 = 17 bits over a 16-bit word. | Any write to RDSIEN: in declaration order it lands on bit 16, the low bit of the next shadow word (05h, VOLUME). | All eleven fields fit register 04h. One declared width is one bit too many; the model takes TCPILOT as one bit wide. | Defect: high. Which width is wrong: low. Not executed. | `ConfigRegisters.Reg04DeclaredCannotTile` | `ConfigRegisters.Reg04Layout` |
