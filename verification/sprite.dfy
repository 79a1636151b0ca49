/** The Dxyn sprite blit on the 64x32 row-major screen: each set bit of each
    sprite row XOR-toggles one pixel, coordinates wrap around both edges, and
    a collision is reported when a toggle switched a lit pixel off. */
module Sprite {
  import opened Words

  const ScreenWidth: nat := 64
  const ScreenHeight: nat := 32
  const ScreenSize: nat := ScreenWidth * ScreenHeight

  /** The masks `0b1000_0000 >> col` for col = 0..7. */
  const ColumnMask: seq<nat> := [0x80, 0x40, 0x20, 0x10, 0x08, 0x04, 0x02, 0x01]

  /** Bit `col` of a sprite row, most significant first: whether
      `pixels & (0b1000_0000 >> col)` is non-zero. */
  predicate PixelBit(pixels: u8, col: nat)
    requires col < 8
  {
    (pixels as int / ColumnMask[col]) % 2 == 1
  }

  /** `PixelBit` is the source's mask test `pixels & (0b1000_0000 >> col) != 0`,
      for every byte `b` (as a bit pattern). */
  lemma PixelBitIsMask(b: bv8, col: nat)
    requires col < 8
    ensures PixelBit(b as int as u8, col) <==> b & ((0x80 as bv8) >> col) != 0
  {
    MaskIsShift(b, col);
    LowBit(BitDown(b, col));
    ShiftToColumn(b, col);
  }

  /** Row byte `b` shifted right so that bit `col` (from the left) is lowest. */
  function BitDown(b: bv8, col: nat): bv8
    requires col < 8
  {
    match col
    case 0 => b >> 7
    case 1 => b >> 6
    case 2 => b >> 5
    case 3 => b >> 4
    case 4 => b >> 3
    case 5 => b >> 2
    case 6 => b >> 1
    case 7 => b
  }

  /** Testing bit `col` with the mask is testing the lowest bit of `BitDown`. */
  lemma MaskIsShift(b: bv8, col: nat)
    requires col < 8
    ensures (b & ((0x80 as bv8) >> col) != 0) == (BitDown(b, col) & 1 == 1)
  {
  }

  /** Shifting right by k is dividing by 2^k. */
  lemma ShiftsDivide(b: bv8)
    ensures (b >> 7) as int == b as int / 0x80 && (b >> 6) as int == b as int / 0x40
    ensures (b >> 5) as int == b as int / 0x20 && (b >> 4) as int == b as int / 0x10
    ensures (b >> 3) as int == b as int / 0x08 && (b >> 2) as int == b as int / 0x04
    ensures (b >> 1) as int == b as int / 0x02
  {
  }

  lemma ShiftToColumn(b: bv8, col: nat)
    requires col < 8
    ensures BitDown(b, col) as int == b as int / ColumnMask[col]
  {
    ShiftsDivide(b);
  }

  /** `& 1` keeps the remainder modulo 2. */
  lemma LowBit(b: bv8)
    ensures (b & 1) as int == b as int % 2
  {
  }

  /** Index in the row-major screen of the pixel under sprite bit
      (row, col) when the sprite is drawn at (vx, vy); both coordinates wrap. */
  function PixelIndex(vx: u8, vy: u8, row: nat, col: nat): (p: nat)
    ensures p < ScreenSize
  {
    (vx as int + col) % ScreenWidth + ScreenWidth * ((vy as int + row) % ScreenHeight)
  }

  /** The screen and the collision flag after the blit has visited the first
      `k` sprite bits, row by row and within a row from the left. */
  function DrawPrefix(screen: seq<bool>, sprite: seq<u8>, vx: u8, vy: u8, k: nat): (r: (seq<bool>, bool))
    requires |screen| == ScreenSize && k <= 8 * |sprite|
    ensures |r.0| == ScreenSize
    decreases k
  {
    if k == 0 then (screen, false)
    else
      var (s, flipped) := DrawPrefix(screen, sprite, vx, vy, k - 1);
      var row, col := (k - 1) / 8, (k - 1) % 8;
      if PixelBit(sprite[row], col) then
        var p := PixelIndex(vx, vy, row, col);
        (s[p := !s[p]], flipped || s[p])
      else (s, flipped)
  }

  /** One more step of the blit: bit `col` of row `row`. */
  lemma DrawPrefixNext(screen: seq<bool>, sprite: seq<u8>, vx: u8, vy: u8, row: nat, col: nat)
    requires |screen| == ScreenSize && row < |sprite| && col < 8
    ensures var (s, flipped) := DrawPrefix(screen, sprite, vx, vy, 8 * row + col);
      var p := PixelIndex(vx, vy, row, col);
      DrawPrefix(screen, sprite, vx, vy, 8 * row + col + 1) ==
        if PixelBit(sprite[row], col) then (s[p := !s[p]], flipped || s[p]) else (s, flipped)
  {
    RowColumn(row, col);
  }

  /** Step 8 * row + col of the blit visits bit `col` of row `row`. */
  lemma RowColumn(row: nat, col: nat)
    requires col < 8
    ensures (8 * row + col) / 8 == row && (8 * row + col) % 8 == col
  {
  }

  /** The whole blit of `sprite` at (vx, vy): the new screen and whether a
      lit pixel was switched off. */
  function DrawSprite(screen: seq<bool>, sprite: seq<u8>, vx: u8, vy: u8): (r: (seq<bool>, bool))
    requires |screen| == ScreenSize
    ensures |r.0| == ScreenSize
  {
    DrawPrefix(screen, sprite, vx, vy, 8 * |sprite|)
  }

  /** The sprite column that lands on pixel `p` when drawing at column `vx`. */
  function ColumnAt(vx: u8, p: nat): nat
  {
    (p % ScreenWidth - vx as int) % ScreenWidth
  }

  /** The sprite row that lands on pixel `p` when drawing at row `vy`. */
  function RowAt(vy: u8, p: nat): nat
  {
    (p / ScreenWidth - vy as int) % ScreenHeight
  }

  /** Pixel `p` lies under a set sprite bit among the first `k` visited. */
  predicate HitBefore(sprite: seq<u8>, vx: u8, vy: u8, p: nat, k: nat)
  {
    var row, col := RowAt(vy, p), ColumnAt(vx, p);
    col < 8 && row < |sprite| && 8 * row + col < k && PixelBit(sprite[row], col)
  }

  /** Pixel `p` lies under a set bit of the sprite. */
  predicate Covers(sprite: seq<u8>, vx: u8, vy: u8, p: nat)
  {
    HitBefore(sprite, vx, vy, p, 8 * |sprite|)
  }

  /** Column `w` is `col` columns right of `vx`, with wrap-around, exactly
      when the wrapped offset of `w` from `vx` is `col`. */
  lemma ColumnOffset(vx: u8, col: nat, w: nat)
    requires col < 8 && w < ScreenWidth
    ensures w == (vx as int + col) % ScreenWidth <==> (w - vx as int) % ScreenWidth == col
  {
    var a := (vx as int + col) % ScreenWidth;
    var q := (vx as int + col) / ScreenWidth;
    assert vx as int + col == ScreenWidth * q + a;
    assert a - vx as int == col - ScreenWidth * q;
    if (w - vx as int) % ScreenWidth == col {
      var q' := (w - vx as int) / ScreenWidth;
      assert w - vx as int == ScreenWidth * q' + col;
      assert vx as int + col == ScreenWidth * (-q') + w;
    }
  }

  /** Row `h` is `row` rows below `vy`, with wrap-around, exactly when the
      wrapped offset of `h` from `vy` is `row`. */
  lemma RowOffset(vy: u8, row: nat, h: nat)
    requires row < ScreenHeight && h < ScreenHeight
    ensures h == (vy as int + row) % ScreenHeight <==> (h - vy as int) % ScreenHeight == row
  {
    var a := (vy as int + row) % ScreenHeight;
    var q := (vy as int + row) / ScreenHeight;
    assert vy as int + row == ScreenHeight * q + a;
    assert a - vy as int == row - ScreenHeight * q;
    if (h - vy as int) % ScreenHeight == row {
      var q' := (h - vy as int) / ScreenHeight;
      assert h - vy as int == ScreenHeight * q' + row;
      assert vy as int + row == ScreenHeight * (-q') + h;
    }
  }

  /** A screen index is determined by its column and its row. */
  lemma IndexParts(p: nat, w: nat, h: nat)
    requires w < ScreenWidth
    ensures p == w + ScreenWidth * h <==> (p % ScreenWidth == w && p / ScreenWidth == h)
  {
  }

  /** Sprite bit (row, col) lands on pixel `p` exactly when `p`'s wrapped
      offsets from (vx, vy) are (col, row): at most 8 columns and 32 rows
      never wrap onto each other. */
  lemma LandsAt(vx: u8, vy: u8, row: nat, col: nat, p: nat)
    requires row < ScreenHeight && col < 8 && p < ScreenSize
    ensures PixelIndex(vx, vy, row, col) == p <==> (RowAt(vy, p) == row && ColumnAt(vx, p) == col)
  {
    var w, h := (vx as int + col) % ScreenWidth, (vy as int + row) % ScreenHeight;
    IndexParts(p, w, h);
    ColumnOffset(vx, col, p % ScreenWidth);
    RowOffset(vy, row, p / ScreenWidth);
  }

  /** Visiting bit k - 1 adds exactly the pixel under it (when set) to the
      pixels hit so far, and that pixel was not hit before. */
  lemma HitStep(sprite: seq<u8>, vx: u8, vy: u8, k: nat, p: nat)
    requires 0 < k <= 8 * |sprite| && |sprite| <= ScreenHeight && p < ScreenSize
    ensures var row, col := (k - 1) / 8, (k - 1) % 8;
      HitBefore(sprite, vx, vy, p, k) ==
        (HitBefore(sprite, vx, vy, p, k - 1) ||
         (PixelBit(sprite[row], col) && p == PixelIndex(vx, vy, row, col)))
    ensures p == PixelIndex(vx, vy, (k - 1) / 8, (k - 1) % 8) ==> !HitBefore(sprite, vx, vy, p, k - 1)
  {
    LandsAt(vx, vy, (k - 1) / 8, (k - 1) % 8, p);
  }

  /** After the first k bits, a pixel is toggled exactly when it was hit. */
  lemma {:induction false} DrawPrefixPixel(screen: seq<bool>, sprite: seq<u8>, vx: u8, vy: u8, k: nat, p: nat)
    requires |screen| == ScreenSize && k <= 8 * |sprite| && |sprite| <= ScreenHeight && p < ScreenSize
    ensures DrawPrefix(screen, sprite, vx, vy, k).0[p] == (screen[p] != HitBefore(sprite, vx, vy, p, k))
    decreases k
  {
    if k > 0 {
      DrawPrefixPixel(screen, sprite, vx, vy, k - 1, p);
      HitStep(sprite, vx, vy, k, p);
    }
  }

  /** After the first k bits, the flag says whether some hit pixel was lit
      on the original screen. */
  lemma {:induction false} DrawPrefixCollision(screen: seq<bool>, sprite: seq<u8>, vx: u8, vy: u8, k: nat)
    requires |screen| == ScreenSize && k <= 8 * |sprite| && |sprite| <= ScreenHeight
    ensures DrawPrefix(screen, sprite, vx, vy, k).1 <==>
              exists p :: 0 <= p < ScreenSize && HitBefore(sprite, vx, vy, p, k) && screen[p]
    decreases k
  {
    if k > 0 {
      DrawPrefixCollision(screen, sprite, vx, vy, k - 1);
      var row, col := (k - 1) / 8, (k - 1) % 8;
      var q := PixelIndex(vx, vy, row, col);
      DrawPrefixPixel(screen, sprite, vx, vy, k - 1, q);
      forall p | 0 <= p < ScreenSize
        ensures HitBefore(sprite, vx, vy, p, k) ==
                  (HitBefore(sprite, vx, vy, p, k - 1) || (PixelBit(sprite[row], col) && p == q))
      {
        HitStep(sprite, vx, vy, k, p);
      }
      HitStep(sprite, vx, vy, k, q);
    }
  }

  /** The blit XOR-toggles exactly the pixels under set sprite bits, and the
      flag is set exactly when one of them was lit. */
  lemma DrawSpriteEffect(screen: seq<bool>, sprite: seq<u8>, vx: u8, vy: u8)
    requires |screen| == ScreenSize && |sprite| <= ScreenHeight
    ensures forall p :: 0 <= p < ScreenSize ==>
              DrawSprite(screen, sprite, vx, vy).0[p] == (screen[p] != Covers(sprite, vx, vy, p))
    ensures DrawSprite(screen, sprite, vx, vy).1 <==>
              exists p :: 0 <= p < ScreenSize && Covers(sprite, vx, vy, p) && screen[p]
  {
    forall p | 0 <= p < ScreenSize
      ensures DrawSprite(screen, sprite, vx, vy).0[p] == (screen[p] != Covers(sprite, vx, vy, p))
    {
      DrawPrefixPixel(screen, sprite, vx, vy, 8 * |sprite|, p);
    }
    DrawPrefixCollision(screen, sprite, vx, vy, 8 * |sprite|);
  }

  /** Drawing the same sprite twice at the same place restores the screen;
      the second blit reports a collision exactly when the first one lit a
      pixel that had been dark. */
  lemma DrawTwiceRestores(screen: seq<bool>, sprite: seq<u8>, vx: u8, vy: u8)
    requires |screen| == ScreenSize && |sprite| <= ScreenHeight
    ensures var once := DrawSprite(screen, sprite, vx, vy);
      var twice := DrawSprite(once.0, sprite, vx, vy);
      twice.0 == screen &&
      (twice.1 <==> exists p :: 0 <= p < ScreenSize && Covers(sprite, vx, vy, p) && !screen[p])
  {
    var once := DrawSprite(screen, sprite, vx, vy);
    DrawSpriteEffect(screen, sprite, vx, vy);
    DrawSpriteEffect(once.0, sprite, vx, vy);
    var twice := DrawSprite(once.0, sprite, vx, vy);
    assert forall p :: 0 <= p < ScreenSize ==> twice.0[p] == screen[p];
  }

  /** A pixel is covered exactly when some set sprite bit (row, col) lands on
      it at `((vx + col) % 64) + 64 * ((vy + row) % 32)`. */
  lemma CoversLandsAt(sprite: seq<u8>, vx: u8, vy: u8, p: nat)
    requires |sprite| <= ScreenHeight && p < ScreenSize
    ensures Covers(sprite, vx, vy, p) <==>
              exists row, col :: 0 <= row < |sprite| && 0 <= col < 8 && PixelBit(sprite[row], col) &&
                                 p == PixelIndex(vx, vy, row, col)
  {
    if Covers(sprite, vx, vy, p) {
      var row, col := RowAt(vy, p), ColumnAt(vx, p);
      LandsAt(vx, vy, row, col, p);
    }
    forall row, col | 0 <= row < |sprite| && 0 <= col < 8 && PixelBit(sprite[row], col) &&
                      p == PixelIndex(vx, vy, row, col)
      ensures Covers(sprite, vx, vy, p)
    {
      LandsAt(vx, vy, row, col, p);
    }
  }

  /** Drawing 8 columns at column 60 wraps to columns 60..63 and then 0..3. */
  lemma WrapsAtRightEdge()
    ensures forall col :: 0 <= col < 8 ==> PixelIndex(60, 0, 0, col) == [60, 61, 62, 63, 0, 1, 2, 3][col]
  {
  }
}
