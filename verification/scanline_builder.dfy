/**
 * The background fetch pipeline of ppu/scanline-image-builder.go. Each
 * visible dot runs one step of a nine-state cycle: fetch the nametable
 * byte (the tile index), the attribute byte (the palette), then the low and
 * high pattern planes of the tile's row, each in two cycles (address, then
 * read); the step that reaches `stateFetchesDone` turns the two planes into
 * the tile row's eight colours and moves on to the next tile.
 */
module ScanlineImageBuilder {
  import opened Wrappers
  import opened PpuAddressSpace
  import Ppu
  import VRegister

  /** `state`, in the order of Go's constants. */
  datatype State =
    | FetchNametableFirstCycle
    | FetchNametableSecondCycle
    | FetchAttrtableFirstCycle
    | FetchAttrtableSecondCycle
    | FetchPatternTableLowPlaneFirstCycle
    | FetchPatternTableLowPlaneSecondCycle
    | FetchPatternTableHighPlaneFirstCycle
    | FetchPatternTableHighPlaneSecondCycle
    | FetchesDone

  /** The number Go gives a state. */
  function Index(s: State): (r: nat)
    ensures r < 9
  {
    match s
    case FetchNametableFirstCycle => 0
    case FetchNametableSecondCycle => 1
    case FetchAttrtableFirstCycle => 2
    case FetchAttrtableSecondCycle => 3
    case FetchPatternTableLowPlaneFirstCycle => 4
    case FetchPatternTableLowPlaneSecondCycle => 5
    case FetchPatternTableHighPlaneFirstCycle => 6
    case FetchPatternTableHighPlaneSecondCycle => 7
    case FetchesDone => 8
  }

  /** The state numbered `n`. */
  function StateOf(n: nat): (r: State)
    requires n < 9
    ensures Index(r) == n
  {
    if n == 0 then FetchNametableFirstCycle
    else if n == 1 then FetchNametableSecondCycle
    else if n == 2 then FetchAttrtableFirstCycle
    else if n == 3 then FetchAttrtableSecondCycle
    else if n == 4 then FetchPatternTableLowPlaneFirstCycle
    else if n == 5 then FetchPatternTableLowPlaneSecondCycle
    else if n == 6 then FetchPatternTableHighPlaneFirstCycle
    else if n == 7 then FetchPatternTableHighPlaneSecondCycle
    else FetchesDone
  }

  /** Numbering the states loses nothing: the number names the state. */
  lemma IndexRoundTrip(s: State)
    ensures StateOf(Index(s)) == s
  {
  }

  /** `state.Next`: the state numbered one more, and the first after the last. */
  function Next(s: State): (r: State)
    ensures Index(r) == (Index(s) + 1) % 9
  {
    if s == FetchesDone then FetchNametableFirstCycle else StateOf(Index(s) + 1)
  }

  /** `k` applications of `Next`. */
  function Iterate(s: State, k: nat): State
    decreases k
  {
    if k == 0 then s else Iterate(Next(s), k - 1)
  }

  /** `k` applications of `Next` move `k` places round the cycle of nine states. */
  lemma {:induction false} IterateIndex(s: State, k: nat)
    ensures Index(Iterate(s, k)) == (Index(s) + k) % 9
    decreases k
  {
    if k > 0 {
      IterateIndex(Next(s), k - 1);
      StepRound(Index(s), k);
    }
  }

  /** One step round the cycle of nine and `k - 1` more make `k`. */
  lemma StepRound(i: nat, k: nat)
    requires i < 9 && k > 0
    ensures ((i + 1) % 9 + (k - 1)) % 9 == (i + k) % 9
  {
    if i == 8 {
      assert (i + k) % 9 == ((k - 1) + 9) % 9 == (k - 1) % 9;
    }
  }

  /** `Next` has period nine: `k` steps return to the start exactly when `k` is a multiple of nine. */
  lemma NextPeriodNine(s: State, k: nat)
    ensures Iterate(s, k) == s <==> k % 9 == 0
  {
    IterateIndex(s, k);
    IndexRoundTrip(s);
    IndexRoundTrip(Iterate(s, k));
  }

  /** `state.String`: the constant's Go name. */
  function StateName(s: State): (r: string)
    ensures |r| > 10 && r[..10] == "stateFetch"
  {
    match s
    case FetchNametableFirstCycle => "stateFetchNametableFirstCycle"
    case FetchNametableSecondCycle => "stateFetchNametableSecondCycle"
    case FetchAttrtableFirstCycle => "stateFetchAttrtableFirstCycle"
    case FetchAttrtableSecondCycle => "stateFetchAttrtableSecondCycle"
    case FetchPatternTableLowPlaneFirstCycle => "stateFetchPatternTableLowPlaneFirstCycle"
    case FetchPatternTableLowPlaneSecondCycle => "stateFetchPatternTableLowPlaneSecondCycle"
    case FetchPatternTableHighPlaneFirstCycle => "stateFetchPatternTableHighPlaneFirstCycle"
    case FetchPatternTableHighPlaneSecondCycle => "stateFetchPatternTableHighPlaneSecondCycle"
    case FetchesDone => "stateFetchesDone"
  }

  /** The state number a name spells, read from its length and its eleventh and twenty-third letters. */
  function IndexOfName(x: string): nat
    requires |x| > 22
  {
    if |x| == 29 then (if x[10] == 'N' then 0 else 2)
    else if |x| == 30 then (if x[10] == 'N' then 1 else 3)
    else if |x| == 40 then 4
    else if |x| == 41 then (if x[22] == 'L' then 5 else 6)
    else 7
  }

  /** Each name spells its own state's number. */
  lemma IndexOfStateName(s: State)
    requires s != FetchesDone
    ensures |StateName(s)| > 22 && IndexOfName(StateName(s)) == Index(s)
  {
    match s
    case FetchNametableFirstCycle =>
    case FetchNametableSecondCycle =>
    case FetchAttrtableFirstCycle =>
    case FetchAttrtableSecondCycle =>
    case FetchPatternTableLowPlaneFirstCycle =>
    case FetchPatternTableLowPlaneSecondCycle =>
    case FetchPatternTableHighPlaneFirstCycle =>
    case FetchPatternTableHighPlaneSecondCycle =>
  }

  /** Different states print differently. */
  lemma StateNamesDistinct(s: State, t: State)
    requires s != t
    ensures StateName(s) != StateName(t)
  {
    if s != FetchesDone && t != FetchesDone {
      IndexOfStateName(s);
      IndexOfStateName(t);
      IndexRoundTrip(s);
      IndexRoundTrip(t);
    }
  }

  /**
   * The state after one fetching step: `Next`, and `Next` once more when
   * that reaches `FetchesDone`, so that the cycle a scanline sees has eight
   * states.
   */
  function StepState(s: State): State {
    var n := Next(s);
    if n == FetchesDone then Next(n) else n
  }

  /** The state after `k` fetching steps from the start of a scanline. */
  function StepsFromStart(k: nat): State
    decreases k
  {
    if k == 0 then FetchNametableFirstCycle else StepState(StepsFromStart(k - 1))
  }

  /**
   * Stepping from the start of a scanline, the state after `k` steps is the
   * one numbered `k mod 8`; `FetchesDone` is never the state between steps.
   */
  lemma {:induction false} StepsFromStartIndex(k: nat)
    ensures Index(StepsFromStart(k)) == k % 8
    decreases k
  {
    if k > 0 {
      StepsFromStartIndex(k - 1);
      StepStateIndex(StepsFromStart(k - 1));
      assert k % 8 == ((k - 1) % 8 + 1) % 8;
    }
  }

  /** Between steps the states 0-7 follow each other in a cycle of eight. */
  lemma StepStateIndex(s: State)
    requires Index(s) < 8
    ensures Index(StepState(s)) == (Index(s) + 1) % 8
  {
  }

  /** The nametable byte address of tile (`coarseX`, `coarseY`) in nametable `nametable`. */
  function NametableFetchAddress(nametable: bv16, coarseY: bv16, coarseX: bv16): bv16 {
    ((0x08 | nametable) << 10) | (coarseY << 5) | coarseX
  }

  /**
   * The fetch address is the `NametableAddress` of the loopy register word
   * holding the same nametable and coarse coordinates.
   */
  lemma NametableFetchMatchesVRegister(nametable: bv16, coarseY: bv16, coarseX: bv16)
    requires nametable <= 3 && coarseY < 32 && coarseX < 32
    ensures var v := (nametable << 10) | (coarseY << 5) | coarseX;
            && VRegister.CoarseXOf(v) == coarseX && VRegister.CoarseYOf(v) == coarseY && VRegister.NametableOf(v) == nametable
            && NametableFetchAddress(nametable, coarseY, coarseX) == VRegister.NametableAddressOf(v)
  {
    var v := (nametable << 10) | (coarseY << 5) | coarseX;
    WordFields(nametable, coarseY, coarseX);
    assert VRegister.TopBit(v) == 0 by {
      WordFields(nametable, coarseY, coarseX);
    }
  }

  /** A word built from a nametable and coarse coordinates has those fields, and fine Y and bit 15 clear. */
  lemma WordFields(nametable: bv16, coarseY: bv16, coarseX: bv16)
    requires nametable <= 3 && coarseY < 32 && coarseX < 32
    ensures var v := (nametable << 10) | (coarseY << 5) | coarseX;
            && VRegister.CoarseXOf(v) == coarseX && VRegister.CoarseYOf(v) == coarseY && VRegister.NametableOf(v) == nametable
            && VRegister.TopBit(v) == 0 && v & 0x0C00 == nametable << 10
  {
  }

  /**
   * Go's unsigned divisions by 8, 16 and 32, remainder by 2 and product by
   * 8 are the shifts and mask the functions below are written with.
   */
  lemma ShiftsAreGoDivisions(x: bv16)
    ensures x >> 3 == x / 8 && x >> 4 == x / 16 && x >> 5 == x / 32
    ensures x & 1 == x % 2 && (x >> 5) << 3 == (x / 32) * 8
  {
  }

  /**
   * The attribute byte address for the pixel at `dot` of `scanline`: one
   * byte per 32x32-pixel block, after the 960 tile bytes of the nametable;
   * the block column is `(dot - 1) / 32`, the block row `scanline / 32`.
   */
  function AttrFetchAddress(nametable: bv16, dot: bv16, scanline: bv16): bv16 {
    ((0x08 | nametable) << 10) + 0x3C0 + ((dot - 1) >> 5) + ((scanline >> 5) << 3)
  }

  /**
   * For an on-screen pixel, the attribute address is the
   * `AttrTableAddress` of the register word whose coarse coordinates are
   * the pixel's tile.
   */
  lemma AttrFetchMatchesVRegister(nametable: bv16, dot: bv16, scanline: bv16)
    requires nametable <= 3 && 1 <= dot <= 256 && scanline < 240
    ensures var v := (nametable << 10) | ((scanline >> 3) << 5) | ((dot - 1) >> 3);
            AttrFetchAddress(nametable, dot, scanline) == VRegister.AttrTableAddressOf(v)
  {
    AttrFetchBlocks(nametable, dot, scanline);
    AttrTableOfWord(nametable, scanline >> 3, (dot - 1) >> 3);
  }

  /** The attribute fetch address, as the bit fields of its block. */
  lemma AttrFetchBlocks(nametable: bv16, dot: bv16, scanline: bv16)
    requires nametable <= 3 && 1 <= dot <= 256 && scanline < 240
    ensures AttrFetchAddress(nametable, dot, scanline)
            == 0x23C0 | (nametable << 10) | (((scanline >> 3) >> 2) << 3) | (((dot - 1) >> 3) >> 2)
  {
    var tx, ty := (dot - 1) >> 3, scanline >> 3;
    assert (dot - 1) >> 5 == tx >> 2 && scanline >> 5 == ty >> 2 && tx >> 2 < 8 && ty >> 2 < 8;
    AttrSum(nametable, tx >> 2, ty >> 2);
  }

  /** The attribute address of a word built from a nametable and a tile, as the same bit fields. */
  lemma AttrTableOfWord(nametable: bv16, tileY: bv16, tileX: bv16)
    requires nametable <= 3 && tileY < 32 && tileX < 32
    ensures VRegister.AttrTableAddressOf((nametable << 10) | (tileY << 5) | tileX)
            == 0x23C0 | (nametable << 10) | ((tileY >> 2) << 3) | (tileX >> 2)
  {
    WordFields(nametable, tileY, tileX);
  }

  /** Adding the block offsets to the attribute table base sets disjoint bits. */
  lemma AttrSum(nametable: bv16, blockX: bv16, blockY: bv16)
    requires nametable <= 3 && blockX < 8 && blockY < 8
    ensures ((0x08 | nametable) << 10) + 0x3C0 + blockX + (blockY << 3) == 0x23C0 | (nametable << 10) | (blockY << 3) | blockX
  {
  }

  /** A pattern-table plane address: 16 bytes per tile, one per row, the high plane 8 bytes after the low. */
  function PatternAddress(tileIndex: bv8, fineY: bv8, high: bool): (r: bv16)
    ensures r < 0x1100 && !Faults(r)
  {
    (tileIndex as bv16) * 16 + fineY as bv16 + (if high then 8 else 0)
  }

  /** A pattern address holds the tile's row `fineY` of the chosen plane. */
  lemma PatternAddressLayout(tileIndex: bv8, fineY: bv8, high: bool)
    requires fineY < 8
    ensures PatternAddress(tileIndex, fineY, high) / 16 == tileIndex as bv16
    ensures PatternAddress(tileIndex, fineY, high) % 8 == fineY as bv16
    ensures (PatternAddress(tileIndex, fineY, high) & 0x08 != 0) <==> high
  {
  }

  /**
   * Inside a frame (nametable 0-3, coarse coordinates on the 32x30 grid,
   * pattern table at 0 or 0x1000) none of the three fetch addresses falls in
   * the range the bus cannot serve.
   */
  lemma FetchAddressesReadable(nametable: bv16, coarseY: bv16, coarseX: bv16, dot: bv16, scanline: bv16,
                               tileIndex: bv8, fineY: bv8, patternTable: bv16, high: bool)
    requires nametable <= 3 && coarseY < 30 && coarseX < 32 && 1 <= dot <= 256 && scanline < 240
    requires patternTable == 0 || patternTable == 0x1000
    ensures !Faults(NametableFetchAddress(nametable, coarseY, coarseX))
    ensures !Faults(AttrFetchAddress(nametable, dot, scanline))
    ensures !Faults(PatternAddress(tileIndex, fineY, high) | patternTable)
  {
    assert NametableFetchAddress(nametable, coarseY, coarseX) < 0x3000;
    assert AttrFetchAddress(nametable, dot, scanline) < 0x3000 by {
      assert (dot - 1) >> 5 <= 7 && (scanline >> 5) << 3 <= 56;
    }
    assert PatternAddress(tileIndex, fineY, high) | patternTable < 0x2000;
  }

  /**
   * The palette as written: with tile column `(dot - 1) / 8` and tile row
   * `scanline / 8`, bit `tileY mod 2` and bit `tileX mod 2` pick a shift of
   * 0 to 3 bits into the attribute byte.
   */
  function PaletteIdAsWritten(attrTableByte: bv8, dot: bv16, scanline: bv16): (r: bv8)
    ensures r <= 3
  {
    var tileX := (dot - 1) >> 3;
    var tileY := scanline >> 3;
    var attrTableByteX := tileX & 1;
    var attrTableByteY := tileY & 1;
    (attrTableByte >> (((attrTableByteY << 1) | attrTableByteX) as bv8)) & 0x03
  }

  /**
   * The palette of the pixel's tile: the attribute byte holds four 2-bit
   * palettes, one per 2x2-tile quadrant of its 4x4-tile block (top left in
   * bits 0-1, top right 2-3, bottom left 4-5, bottom right 6-7).
   */
  function PaletteId(attrTableByte: bv8, dot: bv16, scanline: bv16): (r: bv8)
    ensures r <= 3
  {
    var quadrantX := ((dot - 1) >> 4) & 1;
    var quadrantY := (scanline >> 4) & 1;
    (attrTableByte >> ((((quadrantY << 1) | quadrantX) << 1) as bv8)) & 0x03
  }

  /** The attribute byte giving each quadrant its palette. */
  function AttributeByte(topLeft: bv8, topRight: bv8, bottomLeft: bv8, bottomRight: bv8): bv8 {
    (topLeft & 0x03) | ((topRight & 0x03) << 2) | ((bottomLeft & 0x03) << 4) | ((bottomRight & 0x03) << 6)
  }

  /** Every pixel reads back the palette of its own quadrant. */
  lemma PaletteOfQuadrant(topLeft: bv8, topRight: bv8, bottomLeft: bv8, bottomRight: bv8, dot: bv16, scanline: bv16)
    requires topLeft <= 3 && topRight <= 3 && bottomLeft <= 3 && bottomRight <= 3
    ensures var right := ((dot - 1) >> 4) & 1 == 1;
            var bottom := (scanline >> 4) & 1 == 1;
            PaletteId(AttributeByte(topLeft, topRight, bottomLeft, bottomRight), dot, scanline) ==
              if bottom then (if right then bottomRight else bottomLeft) else (if right then topRight else topLeft)
  {
    var a := AttributeByte(topLeft, topRight, bottomLeft, bottomRight);
    assert a & 0x03 == topLeft && (a >> 2) & 0x03 == topRight;
    assert (a >> 4) & 0x03 == bottomLeft && (a >> 6) & 0x03 == bottomRight;
  }

  /** The quadrant is the `AttrTableBytePart` of the register word for the pixel's tile. */
  lemma PaletteIdMatchesVRegister(attrTableByte: bv8, dot: bv16, scanline: bv16)
    requires 1 <= dot <= 256 && scanline < 240
    ensures var v := ((scanline >> 3) << 5) | ((dot - 1) >> 3);
            PaletteId(attrTableByte, dot, scanline) == (attrTableByte >> ((VRegister.AttrTableBytePartOf(v) << 1) as bv8)) & 0x03
  {
    var tx, ty := (dot - 1) >> 3, scanline >> 3;
    var v := (ty << 5) | tx;
    assert VRegister.CoarseXOf(v) == tx && VRegister.CoarseYOf(v) == ty;
  }

  /**
   * The palette as written disagrees with the quadrant layout: with the top
   * left quadrant on palette 2 and the top right on palette 1 (byte 0x06),
   * the second tile of the first row (dot 9) gets palette 3, which no
   * quadrant holds, where its quadrant says 2.
   */
  lemma PaletteIdAsWrittenMisreads()
    ensures AttributeByte(2, 1, 0, 0) == 0x06
    ensures PaletteIdAsWritten(0x06, 9, 0) == 3
    ensures PaletteId(0x06, 9, 0) == 2
  {
  }

  /** Bit `shift` of a plane byte; a shift of 8 or more shifts every bit out, as Go's `>>` does. */
  function PlaneBit(plane: bv8, shift: bv8): (r: bv8)
    ensures r <= 1
  {
    if shift >= 8 then 0 else (plane >> shift) & 0x01
  }

  /** The colour number of pixel `i` of a tile row, from bit `7 - i` of each plane. */
  function ColorIndex(lo: bv8, hi: bv8, i: nat): (r: bv8)
    requires i < 8
    ensures r <= 3
  {
    var shift := 7 - (i as bv8);
    (PlaneBit(hi, shift) << 1) | PlaneBit(lo, shift)
  }

  /** The scanline's pixels are the tile decoder's pixels. */
  lemma ColorIndexIsTilePixel(lo: bv8, hi: bv8, i: nat)
    requires i < 8
    ensures ColorIndex(lo, hi, i) == Ppu.Pixel(lo, hi, i)
    ensures Ppu.Row(lo, hi)[i] == ColorIndex(lo, hi, i)
  {
    var shift := 7 - (i as bv8);
    assert shift < 8;
    var l, h := (lo >> shift) & 0x01, (hi >> shift) & 0x01;
    assert l <= 1 && h <= 1;
    assert (h << 1) | l == (h << 1) + l;
  }

  /**
   * A colour in a returned slice: an entry of `nesPalette` (the byte read
   * from palette memory) or an entry of the four-colour `pixelMap`.
   */
  datatype Color = NesColor(index: bv8) | PixelMapColor(index: bv8)

  /** The palette-memory address of colour `colorIdx` of palette `paletteId`, as a byte sum then widened. */
  function PaletteEntryAddress(paletteId: bv8, colorIdx: bv8): (r: bv16)
    ensures 0x3F00 <= r <= 0x3FFF && !Faults(r)
  {
    0x3F00 + ((paletteId * 4 + colorIdx) as bv16)
  }

  /** The eight colours of a tile row with palette `paletteId`, leftmost first. */
  function TileColors(mem: Stores, paletteId: bv8, lo: bv8, hi: bv8): (r: seq<Color>)
    requires Sized(mem)
    ensures |r| == 8
  {
    seq(8, i requires 0 <= i < 8 => NesColor(ReadStores(mem, PaletteEntryAddress(paletteId, ColorIndex(lo, hi, i)))))
  }

  /**
   * A non-zero colour number gives the bus's background colour for that
   * palette and number; colour 0 reads entry `paletteId * 4`, which the
   * bus keeps apart from the shared backdrop at 0x3F00.
   */
  lemma TileColorsAreBackgroundColors(b: Bus, paletteId: bv8, lo: bv8, hi: bv8, i: nat)
    requires b.Valid() && paletteId <= 3 && i < 8
    ensures var c := ColorIndex(lo, hi, i);
            c != 0 ==> TileColors(b.Contents(), paletteId, lo, hi)[i] == NesColor(b.GetBackgroundColor(paletteId, c))
  {
    var c := ColorIndex(lo, hi, i);
    if c != 0 {
      assert PaletteEntryAddress(paletteId, c) == 0x3F00 + (paletteId * 4 + c) as bv16;
    }
  }

  /**
   * The colour loop as written: index `i` shifts the planes by `7 - i` as a
   * signed integer, which is negative from the ninth entry on, where Go
   * panics.
   */
  function ColorLoopAsWritten(mem: Stores, paletteId: bv8, lo: bv8, hi: bv8, i: nat, count: nat): Result<seq<Color>>
    requires Sized(mem)
    decreases count - i
  {
    if i >= count then Ok([])
    else if 7 - i < 0 then Err(NegativeShift)
    else
      var color := NesColor(ReadStores(mem, PaletteEntryAddress(paletteId, ColorIndex(lo, hi, i))));
      match ColorLoopAsWritten(mem, paletteId, lo, hi, i + 1, count)
      case Ok(rest) => Ok([color] + rest)
      case Err(e) => Err(e)
  }

  /** Over a slice of eight the loop as written produces the tile row's colours. */
  lemma {:induction false} ColorLoopAsWrittenOverEight(mem: Stores, paletteId: bv8, lo: bv8, hi: bv8, i: nat)
    requires Sized(mem) && i <= 8
    ensures ColorLoopAsWritten(mem, paletteId, lo, hi, i, 8) == Ok(TileColors(mem, paletteId, lo, hi)[i..])
    decreases 8 - i
  {
    var colors := TileColors(mem, paletteId, lo, hi);
    if i < 8 {
      ColorLoopAsWrittenOverEight(mem, paletteId, lo, hi, i + 1);
      assert colors[i] == NesColor(ReadStores(mem, PaletteEntryAddress(paletteId, ColorIndex(lo, hi, i))));
      assert colors[i..] == [colors[i]] + colors[i + 1..];
    } else {
      assert colors[i..] == [];
    }
  }

  /** Over a longer slice (the `fineX` branch) the loop as written always panics. */
  lemma {:induction false} ColorLoopAsWrittenPanics(mem: Stores, paletteId: bv8, lo: bv8, hi: bv8, i: nat, count: nat)
    requires Sized(mem) && i <= 8 < count
    ensures ColorLoopAsWritten(mem, paletteId, lo, hi, i, count) == Err(NegativeShift)
    decreases 8 - i
  {
    if i < 8 {
      ColorLoopAsWrittenPanics(mem, paletteId, lo, hi, i + 1, count);
    }
  }

  /** Extra pixel `i`, as a `pixelMap` colour; the byte-typed shift `7 - i` wraps past 7 and then shifts everything out. */
  function ExtraPixel(lo: bv8, hi: bv8, i: bv8): Color {
    var shift := 7 - i;
    PixelMapColor((PlaneBit(hi, shift) << 1) | PlaneBit(lo, shift))
  }

  /** The `fineX` extra pixels of the next fetch. */
  function ExtraColors(lo: bv8, hi: bv8, fineX: bv8): (r: seq<Color>)
    ensures |r| == fineX as nat
  {
    seq(fineX as nat, i requires 0 <= i < fineX as nat => ExtraPixel(lo, hi, i as bv8))
  }

  /** The extra pixels are the row's pixels from the left, and those past the eighth are colour 0. */
  lemma ExtraColorsArePixels(lo: bv8, hi: bv8, fineX: bv8, i: nat)
    requires i < fineX as nat
    ensures i < 8 ==> ExtraColors(lo, hi, fineX)[i] == PixelMapColor(ColorIndex(lo, hi, i))
    ensures i >= 8 ==> ExtraColors(lo, hi, fineX)[i] == PixelMapColor(0)
  {
    WrappedShift(i);
  }

  /** Go's byte-typed `7 - i`: the shift of pixel `i` below 8, and 8 or more past it. */
  lemma WrappedShift(i: nat)
    requires i < 256
    ensures i < 8 ==> 7 - i as bv8 == (7 - i) as bv8
    ensures i >= 8 ==> 7 - i as bv8 >= 8
  {
    if i < 8 {
      assert i == 0 || i == 1 || i == 2 || i == 3 || i == 4 || i == 5 || i == 6 || i == 7;
    } else {
      var b := i as bv8;
      assert 8 <= b;
    }
  }

  /** The fields a fetch writes: the address of the next read and the bytes read so far for the tile. */
  datatype Latches = Latches(
    currentAddr: bv16,
    tileIndex: bv8,
    lowBitPlane: bv8,
    highBitPlane: bv8,
    paletteId: bv8)

  /** The builder's fields, as one value. */
  datatype Builder = Builder(
    nametable: bv16,
    state: State,
    fineX: bv8,
    fineY: bv8,
    coarseX: bv16,
    coarseY: bv16,
    scanline: bv16,
    latches: Latches,
    patternTable: bv16)

  /** `RunStep`'s guard: only scanlines 0-239 and dots 1-256 fetch. */
  predicate Idle(b: Builder, dot: bv16) {
    b.scanline >= 240 || dot == 0 || dot > 256
  }

  /** The states that read the bus at `currentAddr`. */
  predicate ReadsCurrentAddr(s: State) {
    s.FetchNametableSecondCycle? || s.FetchAttrtableSecondCycle?
    || s.FetchPatternTableLowPlaneSecondCycle? || s.FetchPatternTableHighPlaneSecondCycle?
  }

  /** The first cycles of the fetches: the ones that compute the address of the next read. */
  predicate SetsAddress(s: State) {
    s.FetchNametableFirstCycle? || s.FetchAttrtableFirstCycle?
    || s.FetchPatternTableLowPlaneFirstCycle? || s.FetchPatternTableHighPlaneFirstCycle?
  }

  /** The branch that also fetches the next tile's first pixels. */
  predicate FetchesExtra(b: Builder, dot: bv16) {
    dot == 239 && b.fineX > 0
  }

  /** Every address a step reads is one the bus can serve. */
  predicate ReadsInRange(b: Builder, dot: bv16) {
    Idle(b, dot) || (
      && (ReadsCurrentAddr(b.state) ==> !Faults(b.latches.currentAddr))
      && (b.state.FetchPatternTableHighPlaneSecondCycle? && FetchesExtra(b, dot) ==>
            !Faults(NametableFetchAddress(b.nametable, b.coarseY, b.coarseX))))
  }

  /**
   * The latches after the fetch of `b.state`: a first cycle computes the
   * address of the next read, a second cycle reads the byte there into the
   * latch its state names, and the attribute byte is reduced to the palette
   * of the current quadrant.
   */
  function Fetch(b: Builder, mem: Stores, dot: bv16): (r: Latches)
    requires Sized(mem) && ReadsInRange(b, dot) && !Idle(b, dot)
    ensures b.latches.paletteId <= 3 ==> r.paletteId <= 3
  {
    var l := b.latches;
    match b.state
    case FetchNametableFirstCycle => l.(currentAddr := NametableFetchAddress(b.nametable, b.coarseY, b.coarseX))
    case FetchNametableSecondCycle => l.(tileIndex := ReadStores(mem, l.currentAddr))
    case FetchAttrtableFirstCycle => l.(currentAddr := AttrFetchAddress(b.nametable, dot, b.scanline))
    case FetchAttrtableSecondCycle => l.(paletteId := PaletteId(ReadStores(mem, l.currentAddr), dot, b.scanline))
    case FetchPatternTableLowPlaneFirstCycle => l.(currentAddr := PatternAddress(l.tileIndex, b.fineY, false) | b.patternTable)
    case FetchPatternTableLowPlaneSecondCycle => l.(lowBitPlane := ReadStores(mem, l.currentAddr))
    case FetchPatternTableHighPlaneFirstCycle => l.(currentAddr := PatternAddress(l.tileIndex, b.fineY, true) | b.patternTable)
    case FetchPatternTableHighPlaneSecondCycle => l.(highBitPlane := ReadStores(mem, l.currentAddr))
    case FetchesDone => l
  }

  /**
   * The colours of a finished fetch: the tile row's eight colours, followed,
   * in the `fineX` branch, by the extra pixels fetched from the tile at the
   * same coarse position.
   */
  function StepColors(b: Builder, mem: Stores, dot: bv16): (r: seq<Color>)
    requires Sized(mem) && (FetchesExtra(b, dot) ==> !Faults(NametableFetchAddress(b.nametable, b.coarseY, b.coarseX)))
    ensures |r| == if FetchesExtra(b, dot) then 8 + b.fineX as nat else 8
    ensures r[..8] == TileColors(mem, b.latches.paletteId, b.latches.lowBitPlane, b.latches.highBitPlane)
  {
    var main := TileColors(mem, b.latches.paletteId, b.latches.lowBitPlane, b.latches.highBitPlane);
    if FetchesExtra(b, dot) then
      var tileIndex := ReadStores(mem, NametableFetchAddress(b.nametable, b.coarseY, b.coarseX));
      var lo := ReadStores(mem, PatternAddress(tileIndex, b.fineY, false));
      var hi := ReadStores(mem, PatternAddress(tileIndex, b.fineY, true));
      main + ExtraColors(lo, hi, b.fineX)
    else
      main
  }

  /** What one `RunStep` leaves and returns. */
  datatype StepResult = StepResult(next: Builder, colors: Option<seq<Color>>)

  /**
   * One `RunStep` on the builder's fields: outside the visible area nothing;
   * otherwise the state's fetch and the state's advance, and on reaching
   * `FetchesDone` the colours, the state's reset and the next column.
   */
  function Step(b: Builder, mem: Stores, dot: bv16): StepResult
    requires Sized(mem) && ReadsInRange(b, dot)
  {
    if Idle(b, dot) then StepResult(b, None)
    else
      var f := b.(latches := Fetch(b, mem, dot), state := Next(b.state));
      if f.state != FetchesDone then StepResult(f, None)
      else StepResult(f.(state := Next(f.state), coarseX := f.coarseX + 1), Some(StepColors(f, mem, dot)))
  }

  /**
   * Outside the visible area a step changes nothing and returns nothing;
   * otherwise the state moves on by `StepState`, and colours come out, with
   * a move to the next tile, exactly on the step that ends a fetch cycle.
   */
  lemma StepSchedule(b: Builder, mem: Stores, dot: bv16)
    requires Sized(mem) && ReadsInRange(b, dot)
    ensures Idle(b, dot) ==> Step(b, mem, dot) == StepResult(b, None)
    ensures !Idle(b, dot) ==> Step(b, mem, dot).next.state == StepState(b.state)
    ensures Step(b, mem, dot).colors.Some? <==> !Idle(b, dot) && b.state == FetchPatternTableHighPlaneSecondCycle
    ensures Step(b, mem, dot).next.coarseX == if Step(b, mem, dot).colors.Some? then b.coarseX + 1 else b.coarseX
  {
    if !Idle(b, dot) {
      DoneFollowsHighPlane(b.state);
      var f := b.(latches := Fetch(b, mem, dot), state := Next(b.state));
      assert Step(b, mem, dot).colors.Some? <==> f.state == FetchesDone;
    }
  }

  /** Only the second cycle of the high plane fetch leads to `FetchesDone`. */
  lemma DoneFollowsHighPlane(s: State)
    ensures Next(s) == FetchesDone <==> s == FetchPatternTableHighPlaneSecondCycle
  {
    match s {
      case FetchNametableFirstCycle =>
      case FetchNametableSecondCycle =>
      case FetchAttrtableFirstCycle =>
      case FetchAttrtableSecondCycle =>
      case FetchPatternTableLowPlaneFirstCycle =>
      case FetchPatternTableLowPlaneSecondCycle =>
      case FetchPatternTableHighPlaneFirstCycle =>
      case FetchPatternTableHighPlaneSecondCycle =>
      case FetchesDone =>
    }
  }

  /**
   * A step returns eight colours, or eight plus `fineX` in the extra-fetch
   * branch; the frame position and the scroll never change, and the palette
   * stays below 4.
   */
  lemma StepKeepsFrame(b: Builder, mem: Stores, dot: bv16)
    requires Sized(mem) && ReadsInRange(b, dot)
    ensures var r := Step(b, mem, dot);
            r.colors.Some? ==> |r.colors.value| == (if FetchesExtra(b, dot) then 8 + b.fineX as nat else 8)
    ensures Step(b, mem, dot).next.(state := b.state, coarseX := b.coarseX, latches := b.latches) == b
    ensures b.latches.paletteId <= 3 ==> Step(b, mem, dot).next.latches.paletteId <= 3
  {
  }

  /**
   * Stepping a scanline from dot 1, the step at dot `k` returns colours
   * exactly when `k` is a multiple of 8; in particular dot 239 never does,
   * so the `fineX` branch is never taken on that schedule.
   */
  lemma ColorsEveryEighthDot(k: nat)
    requires k >= 1
    ensures StepsFromStart(k - 1) == FetchPatternTableHighPlaneSecondCycle <==> k % 8 == 0
  {
    StepsFromStartIndex(k - 1);
    IndexRoundTrip(StepsFromStart(k - 1));
    var q := (k - 1) / 8;
    assert k - 1 == 8 * q + (k - 1) % 8;
    assert (k - 1) % 8 == 7 <==> k == 8 * (q + 1);
    assert k == 8 * (q + 1) <==> k % 8 == 0;
  }

  /** The pixel row a (fineY, coarseY) pair designates, widened so that it cannot wrap. */
  function PixelRow(fineY: bv8, coarseY: bv16): bv32 {
    ((coarseY as bv32) << 3) + fineY as bv32
  }

  /** The fine and coarse Y after `SetNewScanlineState`: one more fine row, carrying into coarse Y at 8. */
  function NextRow(fineY: bv8, coarseY: bv16): (bv8, bv16) {
    var f := fineY + 1;
    if f == 8 then (0, coarseY + 1) else (f, coarseY)
  }

  /** Each new scanline moves one pixel row down, and the fine Y stays below 8. */
  lemma NextRowAdvancesPixelRow(fineY: bv8, coarseY: bv16)
    requires fineY < 8 && coarseY < 0xFFFF
    ensures NextRow(fineY, coarseY).0 < 8
    ensures PixelRow(NextRow(fineY, coarseY).0, NextRow(fineY, coarseY).1) == PixelRow(fineY, coarseY) + 1
  {
    var (f, c) := NextRow(fineY, coarseY);
    if fineY == 7 {
      assert f == 0 && c == coarseY + 1;
      CarryIntoCoarseRow(coarseY);
    } else {
      assert f == fineY + 1 && c == coarseY;
      NextFineRow(fineY, coarseY);
    }
  }

  /** The last fine row of a tile row is followed by the first fine row of the next one. */
  lemma CarryIntoCoarseRow(coarseY: bv16)
    requires coarseY < 0xFFFF
    ensures PixelRow(0, coarseY + 1) == PixelRow(7, coarseY) + 1
  {
  }

  /** Within a tile row, the next fine row is the next pixel row. */
  lemma NextFineRow(fineY: bv8, coarseY: bv16)
    requires fineY < 7
    ensures PixelRow(fineY + 1, coarseY) == PixelRow(fineY, coarseY) + 1
  {
  }

  /** `scanlineImageBuilder`. */
  class ScanlineImageBuilder {
    const bus: Bus

    var nametable: bv16
    var state: State
    var fineX: bv8
    var fineY: bv8

    var coarseX: bv16
    var coarseY: bv16
    var scanline: bv16

    var currentAddr: bv16
    var tileIndex: bv8
    var lowBitPlane: bv8
    var highBitPlane: bv8
    var paletteId: bv8

    var patternTable: bv16

    /** The fields as a value. */
    function Fields(): Builder
      reads this
    {
      Builder(nametable, state, fineX, fineY, coarseX, coarseY, scanline,
              Latches(currentAddr, tileIndex, lowBitPlane, highBitPlane, paletteId), patternTable)
    }

    /** The bus is well formed, fine Y stays below 8 and the palette below 4. */
    ghost predicate Valid()
      reads this, bus
    {
      bus.Valid() && fineY < 8 && paletteId <= 3
    }

    /** `newScanlineImageBuilder`: every field zero, the first state. */
    constructor(bus: Bus)
      requires bus.Valid()
      ensures Valid() && this.bus == bus
      ensures Fields() == Builder(0, FetchNametableFirstCycle, 0, 0, 0, 0, 0, Latches(0, 0, 0, 0, 0), 0)
    {
      this.bus := bus;
      nametable := 0;
      state := FetchNametableFirstCycle;
      fineX, fineY := 0, 0;
      coarseX, coarseY, scanline := 0, 0, 0;
      currentAddr := 0;
      tileIndex, lowBitPlane, highBitPlane, paletteId := 0, 0, 0, 0;
      patternTable := 0;
    }

    /** `SetNewFrameState`: back to scanline 0 and the first column; the `fineY` argument is not used. */
    method SetNewFrameState(coarseY: bv8, fineY: bv8, patternTable: bv16)
      requires Valid()
      modifies this
      ensures Valid()
      ensures Fields() == old(Fields()).(scanline := 0, coarseY := coarseY as bv16, coarseX := 0, patternTable := patternTable)
    {
      this.scanline := 0;
      this.coarseY := coarseY as bv16;
      this.coarseX := 0;
      this.patternTable := patternTable;
    }

    /**
     * `SetNewScanlineState`: a new scanline restarts the fetch cycle at the
     * first column, one pixel row further down.
     */
    method SetNewScanlineState(scanline: bv16, fineX: bv8)
      requires Valid()
      modifies this
      ensures Valid()
      ensures (fineY, coarseY) == NextRow(old(fineY), old(coarseY))
      ensures Fields() == old(Fields()).(fineX := fineX, scanline := scanline, state := FetchNametableFirstCycle,
                                         coarseX := 0, fineY := fineY, coarseY := coarseY)
    {
      this.fineX := fineX;
      this.scanline := scanline;
      state := FetchNametableFirstCycle;
      coarseX := 0;
      AdvanceRow();
    }

    /** The end of `SetNewScanlineState`: one more fine row, carrying into coarse Y at 8. */
    method AdvanceRow()
      requires Valid()
      modifies this
      ensures Valid()
      ensures (fineY, coarseY) == NextRow(old(fineY), old(coarseY))
      ensures Fields() == old(Fields()).(fineY := fineY, coarseY := coarseY)
    {
      fineY := fineY + 1;
      if fineY == 8 {
        fineY := 0;
        coarseY := coarseY + 1;
      }
    }

    /**
     * `RunStep`: the step `Step` describes, done on the fields: the fetch of
     * the current state, the state's advance, and on reaching
     * `FetchesDone` the colours, the state's reset and the next column.
     */
    method RunStep(dot: bv16) returns (colors: Option<seq<Color>>)
      requires Valid() && ReadsInRange(Fields(), dot)
      modifies this
      ensures Valid()
      ensures Fields() == Step(old(Fields()), bus.Contents(), dot).next
      ensures colors == Step(old(Fields()), bus.Contents(), dot).colors
    {
      if scanline >= 240 || dot == 0 || dot > 256 {
        return None;
      }
      ghost var b, mem := Fields(), bus.Contents();
      FetchCurrentState(dot);
      state := Next(state);
      ghost var f := Fields();
      assert f == b.(latches := Fetch(b, mem, dot), state := Next(b.state));
      if state != FetchesDone {
        return None;
      }
      DoneFollowsHighPlane(b.state);
      var out := FinishTile(dot);
      return Some(out);
    }

    /** The end of a fetch cycle: the colours, then the state's reset and the next column. */
    method FinishTile(dot: bv16) returns (out: seq<Color>)
      requires Valid() && state == FetchesDone
      requires FetchesExtra(Fields(), dot) ==> !Faults(NametableFetchAddress(nametable, coarseY, coarseX))
      modifies this
      ensures Valid()
      ensures out == StepColors(old(Fields()), bus.Contents(), dot)
      ensures Fields() == old(Fields()).(state := Next(FetchesDone), coarseX := old(coarseX) + 1)
    {
      out := FinishedColors(dot);
      state := Next(state);
      coarseX := coarseX + 1;
    }

    /**
     * The `switch` of `RunStep`: the fetch the current state calls for,
     * on the latches only.
     */
    method FetchCurrentState(dot: bv16)
      requires Valid() && ReadsInRange(Fields(), dot) && !Idle(Fields(), dot)
      modifies this
      ensures Valid()
      ensures Fields() == old(Fields()).(latches := Fetch(old(Fields()), bus.Contents(), dot))
    {
      if SetsAddress(state) {
        FetchAddress(dot);
      } else {
        FetchByte(dot);
      }
    }

    /** The first cycle of each fetch: the address of the byte to read. */
    method FetchAddress(dot: bv16)
      requires Valid() && !Idle(Fields(), dot) && SetsAddress(state)
      modifies this
      ensures Valid()
      ensures Fields() == old(Fields()).(latches := Fetch(old(Fields()), bus.Contents(), dot))
    {
      match state {
        case FetchNametableFirstCycle =>
          currentAddr := NametableFetchAddress(nametable, coarseY, coarseX);
        case FetchAttrtableFirstCycle =>
          currentAddr := AttrFetchAddress(nametable, dot, scanline);
        case FetchPatternTableLowPlaneFirstCycle =>
          currentAddr := PatternAddress(tileIndex, fineY, false) | patternTable;
        case FetchPatternTableHighPlaneFirstCycle =>
          currentAddr := PatternAddress(tileIndex, fineY, true) | patternTable;
      }
    }

    /** The second cycle of each fetch: the byte at `currentAddr`, into the latch the state names. */
    method FetchByte(dot: bv16)
      requires Valid() && ReadsInRange(Fields(), dot) && !Idle(Fields(), dot) && !SetsAddress(state)
      modifies this
      ensures Valid()
      ensures Fields() == old(Fields()).(latches := Fetch(old(Fields()), bus.Contents(), dot))
    {
      if state.FetchNametableSecondCycle? || state.FetchAttrtableSecondCycle? {
        FetchTileByte(dot);
      } else {
        FetchPlaneByte(dot);
      }
    }

    /** The second cycles of the nametable and attribute fetches: the tile index, or the palette of the quadrant. */
    method FetchTileByte(dot: bv16)
      requires Valid() && ReadsInRange(Fields(), dot) && !Idle(Fields(), dot)
      requires state.FetchNametableSecondCycle? || state.FetchAttrtableSecondCycle?
      modifies this
      ensures Valid()
      ensures Fields() == old(Fields()).(latches := Fetch(old(Fields()), bus.Contents(), dot))
    {
      if state.FetchNametableSecondCycle? {
        tileIndex := bus.Read(currentAddr);
      } else {
        var attrTableByte := bus.Read(currentAddr);
        paletteId := PaletteId(attrTableByte, dot, scanline);
      }
    }

    /** The second cycles of the pattern fetches: one bit plane of the tile row; nothing once the fetches are done. */
    method FetchPlaneByte(dot: bv16)
      requires Valid() && ReadsInRange(Fields(), dot) && !Idle(Fields(), dot)
      requires state.FetchPatternTableLowPlaneSecondCycle? || state.FetchPatternTableHighPlaneSecondCycle? || state.FetchesDone?
      modifies this
      ensures Valid()
      ensures Fields() == old(Fields()).(latches := Fetch(old(Fields()), bus.Contents(), dot))
    {
      if state.FetchPatternTableLowPlaneSecondCycle? {
        lowBitPlane := bus.Read(currentAddr);
      } else if state.FetchPatternTableHighPlaneSecondCycle? {
        highBitPlane := bus.Read(currentAddr);
      }
    }

    /**
     * The colour slice of a finished fetch: in the `fineX` branch the extra
     * pixels first (entries 8 on), then the tile row (entries 0-7).
     */
    method FinishedColors(dot: bv16) returns (out: seq<Color>)
      requires Valid()
      requires FetchesExtra(Fields(), dot) ==> !Faults(NametableFetchAddress(nametable, coarseY, coarseX))
      ensures out == StepColors(Fields(), bus.Contents(), dot)
    {
      if dot == 239 && fineX > 0 {
        var addr := NametableFetchAddress(nametable, coarseY, coarseX);
        var nextTileIndex := bus.Read(addr);
        var lo := bus.Read(PatternAddress(nextTileIndex, fineY, false));
        var hi := bus.Read(PatternAddress(nextTileIndex, fineY, true));
        var extra := ExtraPixels(lo, hi, fineX);
        out := TileRowColors(lowBitPlane, highBitPlane);
        out := out + extra;
      } else {
        out := TileRowColors(lowBitPlane, highBitPlane);
      }
    }

    /** The colour loop over the tile row: one palette read per pixel. */
    method TileRowColors(lo: bv8, hi: bv8) returns (out: seq<Color>)
      requires Valid()
      ensures out == TileColors(bus.Contents(), paletteId, lo, hi)
    {
      ghost var row := TileColors(bus.Contents(), paletteId, lo, hi);
      out := [];
      for i := 0 to 8
        invariant |out| == i
        invariant forall k :: 0 <= k < i ==> out[k] == row[k]
      {
        var colorIdx := ColorIndex(lo, hi, i);
        var addr := PaletteEntryAddress(paletteId, colorIdx);
        out := out + [NesColor(bus.Read(addr))];
      }
      assert out == row;
    }
  }

  /** The first colour loop: `fineX` pixels of the next tile, through `pixelMap`. */
  method ExtraPixels(lo: bv8, hi: bv8, fineX: bv8) returns (out: seq<Color>)
    ensures out == ExtraColors(lo, hi, fineX)
  {
    out := [];
    for k := 0 to fineX as int
      invariant out == ExtraColors(lo, hi, fineX)[..k]
    {
      var i := k as bv8;
      var shift := 7 - i;
      var h := PlaneBit(hi, shift);
      var l := PlaneBit(lo, shift);
      out := out + [PixelMapColor((h << 1) | l)];
    }
  }
}
