/**
 * FM band limits, channel spacing and the channel/frequency rule.
 *
 * Frequencies are in units of 10 kHz (8750 is 87.50 MHz).  The band index is
 * the two-bit BAND field of register 05h and the spacing index its two-bit
 * SPACE field; both index four-entry tables.  Register 03h documents the
 * rule "tuned frequency = band floor + CHAN * spacing".
 */
module Tuning {
  import opened Bits
  import opened ConfigRegisters

  /** Lower band limits `startBand`, by BAND value. */
  const StartBand: seq<nat> := [8750, 7600, 7600, 6400]

  /** Upper band limits `endBand`, by BAND value. */
  const EndBand: seq<nat> := [10800, 10800, 9000, 10800]

  /** Channel spacings `fmSpace`, by SPACE value. */
  const FmSpace: seq<nat> := [20, 10, 5, 1]

  /** Every band is a non-empty range and every spacing a positive step. */
  lemma TablesWellFormed(band: nat, space: nat)
    requires band < 4 && space < 4
    ensures StartBand[band] < EndBand[band]
    ensures FmSpace[space] > 0
  {
  }

  /**
   * The frequency of channel `channel` in band `band` at spacing `space`: it
   * lies on the band's channel grid, `channel` steps above the band floor.
   */
  function Frequency(band: nat, space: nat, channel: nat): (f: nat)
    requires band < 4 && space < 4
    ensures StartBand[band] <= f
    ensures (f - StartBand[band]) % FmSpace[space] == 0
    ensures (f - StartBand[band]) / FmSpace[space] == channel
  {
    StepsOfSpacing(channel, FmSpace[space]);
    StartBand[band] + channel * FmSpace[space]
  }

  /** `n` steps of one of the table's spacings are a multiple of it, and `n` of them. */
  lemma StepsOfSpacing(n: nat, d: nat)
    requires d in FmSpace
    ensures (n * d) % d == 0
    ensures (n * d) / d == n
  {
  }

  /** The highest channel of band `band` at spacing `space`: the last one at or below the band ceiling. */
  function MaxChannel(band: nat, space: nat): (c: nat)
    requires band < 4 && space < 4
    ensures Frequency(band, space, c) <= EndBand[band]
    ensures EndBand[band] < Frequency(band, space, c + 1)
  {
    (EndBand[band] - StartBand[band]) / FmSpace[space]
  }

  /** The channel at or just below frequency `f`: the one whose frequency is the last not above `f`. */
  function Channel(band: nat, space: nat, f: nat): (c: nat)
    requires band < 4 && space < 4
    requires StartBand[band] <= f
    ensures Frequency(band, space, c) <= f < Frequency(band, space, c + 1)
  {
    (f - StartBand[band]) / FmSpace[space]
  }

  /** No band holds more channels than the fifteen-bit CHAN field can count. */
  lemma MaxChannelFitsChan(band: nat, space: nat)
    requires band < 4 && space < 4
    ensures MaxChannel(band, space) < 0x8000
  {
    assert MaxChannel(band, space) <= EndBand[band] - StartBand[band];
  }

  /**
   * A channel of the band lands inside the band, fits CHAN and the sixteen-bit
   * frequency variables, and converting its frequency back gives the channel.
   */
  lemma ChannelRoundTrip(band: nat, space: nat, channel: nat)
    requires band < 4 && space < 4
    requires channel <= MaxChannel(band, space)
    ensures StartBand[band] <= Frequency(band, space, channel) <= EndBand[band]
    ensures Frequency(band, space, channel) < 0x10000
    ensures channel < 0x8000
    ensures Channel(band, space, Frequency(band, space, channel)) == channel
  {
    MaxChannelFitsChan(band, space);
    MonotoneFrequency(band, space, channel, MaxChannel(band, space));
  }

  /**
   * A frequency of the band that lies on the channel grid is the frequency of
   * a channel of the band.
   */
  lemma FrequencyRoundTrip(band: nat, space: nat, f: nat)
    requires band < 4 && space < 4
    requires StartBand[band] <= f <= EndBand[band]
    requires (f - StartBand[band]) % FmSpace[space] == 0
    ensures Channel(band, space, f) <= MaxChannel(band, space)
    ensures Frequency(band, space, Channel(band, space, f)) == f
  {
  }

  /** Higher channels have higher frequencies. */
  lemma MonotoneFrequency(band: nat, space: nat, c1: nat, c2: nat)
    requires band < 4 && space < 4
    requires c1 <= c2
    ensures Frequency(band, space, c1) <= Frequency(band, space, c2)
  {
    var d := FmSpace[space];
    assert c2 * d == c1 * d + (c2 - c1) * d;
  }

  /**
   * The frequency registers 03h and 05h select: the BAND and SPACE fields of
   * register 05h pick the table entries and the CHAN field of register 03h the
   * channel.  The rule is computed in unbounded arithmetic: for a CHAN beyond
   * the band the result can exceed the driver's `uint16_t` frequencies (CHAN
   * 7FFFh with BAND 0 and SPACE 0 gives 664090).  Only channels of the band
   * are proved below 2^16, by `ChannelRoundTrip`.
   */
  function TunedFrequency(reg03: Word, reg05: Word): (f: nat)
    ensures StartBand[Decode05(reg05).band] <= f
    ensures Channel(Decode05(reg05).band as nat, Decode05(reg05).space as nat, f) == Decode03(reg03).chan as nat
  {
    var r5 := Decode05(reg05);
    Frequency(r5.band as nat, r5.space as nat, Decode03(reg03).chan as nat)
  }

  /**
   * A CHAN value within the selected band tunes a frequency inside that band,
   * and converting that frequency back gives the CHAN value.
   */
  lemma TunedFrequencyInBand(reg03: Word, reg05: Word)
    requires Decode03(reg03).chan as nat <= MaxChannel(Decode05(reg05).band as nat, Decode05(reg05).space as nat)
    ensures StartBand[Decode05(reg05).band] <= TunedFrequency(reg03, reg05) <= EndBand[Decode05(reg05).band]
    ensures Channel(Decode05(reg05).band as nat, Decode05(reg05).space as nat, TunedFrequency(reg03, reg05))
         == Decode03(reg03).chan as nat
  {
    var r5 := Decode05(reg05);
    ChannelRoundTrip(r5.band as nat, r5.space as nat, Decode03(reg03).chan as nat);
  }
}
