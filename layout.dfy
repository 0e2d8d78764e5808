/**
 * How the fields of one overlay share its word.
 *
 * A register overlay lists its bit-fields in declaration order; they are laid
 * out least-significant bit first, each starting where the previous one ends.
 * An overlay TILES its word when that layout starts at bit 0, uses no
 * zero-width field and ends exactly at bit 16.  The lemmas below show what
 * tiling buys: each field's offset is the sum of the widths declared before
 * it, no two fields share a bit, and every bit of the word belongs to
 * exactly one field.
 */
module Layout {
  import opened Bits

  /** The declared widths, in declaration order. */
  function Widths(fs: seq<Field>): (ws: seq<nat>)
    ensures |ws| == |fs|
    ensures forall i :: 0 <= i < |fs| ==> ws[i] == fs[i].width as nat
  {
    if fs == [] then [] else Widths(fs[..|fs| - 1]) + [fs[|fs| - 1].width as nat]
  }

  /** The sum of a list of widths. */
  function Sum(ws: seq<nat>): nat
  {
    if ws == [] then 0 else Sum(ws[..|ws| - 1]) + ws[|ws| - 1]
  }

  /** Each field starts at the bit where the field declared before it ends. */
  predicate Contiguous(fs: seq<Field>)
  {
    forall i :: 0 < i < |fs| ==> fs[i].offset as nat == fs[i - 1].End()
  }

  /** The fields, in declaration order, cover bits 0 to 15 with no gap, no overlap and no spill. */
  predicate Tiles(fs: seq<Field>)
  {
    && |fs| > 0
    && fs[0].offset == 0
    && Contiguous(fs)
    && fs[|fs| - 1].End() == 16
    && (forall i :: 0 <= i < |fs| ==> fs[i].width > 0)
  }

  /** Field `i` starts after all the fields declared before it: its offset is their total width. */
  lemma {:induction false} OffsetIsPrefixSum(fs: seq<Field>, i: nat)
    requires |fs| > 0 && fs[0].offset == 0 && Contiguous(fs)
    requires i < |fs|
    ensures fs[i].offset as nat == Sum(Widths(fs)[..i])
  {
    if i > 0 {
      OffsetIsPrefixSum(fs, i - 1);
      var ws := Widths(fs);
      assert ws[..i][..i - 1] == ws[..i - 1];
    }
  }

  /** A tiling overlay's declared widths add up to exactly sixteen bits. */
  lemma WidthsSumTo16(fs: seq<Field>)
    requires Tiles(fs)
    ensures Sum(Widths(fs)) == 16
  {
    var n := |fs|;
    OffsetIsPrefixSum(fs, n - 1);
    var ws := Widths(fs);
    assert ws[..n] == ws;
    assert ws[..n][..n - 1] == ws[..n - 1];
  }

  /** Of two fields of a contiguous layout, the one declared first ends before the other starts. */
  lemma {:induction false} Disjoint(fs: seq<Field>, i: nat, j: nat)
    requires Contiguous(fs)
    requires i < j < |fs|
    ensures fs[i].End() <= fs[j].offset as nat
  {
    if i < j - 1 {
      Disjoint(fs, i, j - 1);
    }
  }

  /** Every field of a tiling overlay lies inside the word. */
  lemma AllValid(fs: seq<Field>, i: nat)
    requires Tiles(fs)
    requires i < |fs|
    ensures fs[i].Valid()
  {
    var last := |fs| - 1;
    if i < last {
      Disjoint(fs, i, last);
    }
  }

  /**
   * The field of a tiling overlay that owns bit `b`, searching from field
   * `i` on (`i` starts at or below `b`).
   */
  function OwnerFrom(fs: seq<Field>, b: nat, i: nat): (j: nat)
    requires Tiles(fs)
    requires b < 16
    requires i < |fs| && fs[i].offset as nat <= b
    ensures i <= j < |fs|
    ensures fs[j].offset as nat <= b < fs[j].End()
    decreases |fs| - i
  {
    if b < fs[i].End() then i else OwnerFrom(fs, b, i + 1)
  }

  /** The field of a tiling overlay that owns bit `b` of the word. */
  function Owner(fs: seq<Field>, b: nat): (j: nat)
    requires Tiles(fs)
    requires b < 16
    ensures j < |fs|
    ensures fs[j].offset as nat <= b < fs[j].End()
  {
    OwnerFrom(fs, b, 0)
  }

  /** No other field of a tiling overlay holds the bit that `Owner` names. */
  lemma OwnerUnique(fs: seq<Field>, b: nat, k: nat)
    requires Tiles(fs)
    requires b < 16
    requires k < |fs| && fs[k].offset as nat <= b < fs[k].End()
    ensures k == Owner(fs, b)
  {
    var j := Owner(fs, b);
    if k < j {
      Disjoint(fs, k, j);
    } else if j < k {
      Disjoint(fs, j, k);
    }
  }
}
