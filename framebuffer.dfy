/** The framebuffer and the sprite-drawing engine. */
module Framebuffer {
  import opened Arch

  /** A frame as rows of cells; `frame[r][c]` is the pixel at row `r`, column `c`. */
  type Frame = seq<seq<uint32>>

  /** A `DisplayHeight` x `DisplayWidth` grid whose cells are 0 or 1. */
  predicate IsFrame(f: Frame) {
    && |f| == DisplayHeight
    && forall r :: 0 <= r < |f| ==>
         |f[r]| == DisplayWidth && forall c :: 0 <= c < |f[r]| ==> f[r][c] <= 1
  }

  /** The all-zero frame. */
  function Blank(): (f: Frame)
    ensures IsFrame(f)
    ensures forall r, c :: 0 <= r < DisplayHeight && 0 <= c < DisplayWidth ==> f[r][c] == 0
  {
    seq(DisplayHeight, _ => seq(DisplayWidth, _ => 0))
  }

  /** Two frames that agree on every cell are equal. */
  lemma SameCells(f: Frame, g: Frame)
    requires IsFrame(f) && IsFrame(g)
    requires forall r, c :: 0 <= r < DisplayHeight && 0 <= c < DisplayWidth ==> f[r][c] == g[r][c]
    ensures f == g
  {
    forall r | 0 <= r < DisplayHeight
      ensures f[r] == g[r]
    {
      assert forall c :: 0 <= c < DisplayWidth ==> f[r][c] == g[r][c];
    }
  }

  /** Bit `7 - b` of a sprite row, the bit drawn at column offset `b` (most significant bit first). */
  predicate BitSet(s: uint8, b: int)
    requires 0 <= b < 8
  {
    (s as bv8) & ((1 as bv8) << (7 - b)) != 0
  }

  /**
   * Cell (`r`, `c`) is flipped when drawing `sprite` from the already wrapped
   * start (`sx`, `sy`): it lies in sprite row `r - sy` and column offset
   * `c - sx`, that bit is set, and the cell is on the screen. Rows below the
   * bottom edge and columns past the right edge are clipped, never wrapped.
   */
  predicate Flips(sprite: seq<uint8>, sx: int, sy: int, r: int, c: int) {
    && 0 <= sy <= r < DisplayHeight && r - sy < |sprite|
    && 0 <= sx <= c < DisplayWidth && c - sx < 8
    && BitSet(sprite[r - sy], c - sx)
  }

  /** The frame after drawing: every flipped cell is XOR-ed with 1, every other cell is kept. */
  function Drawn(f: Frame, sprite: seq<uint8>, sx: int, sy: int): (g: Frame)
    requires IsFrame(f)
    ensures IsFrame(g)
  {
    seq(DisplayHeight, r requires 0 <= r < DisplayHeight =>
      seq(DisplayWidth, c requires 0 <= c < DisplayWidth =>
        if Flips(sprite, sx, sy, r, c) then 1 - f[r][c] else f[r][c]))
  }

  /** Drawing flips a lit pixel off at (`r`, `c`). */
  predicate Erased(f: Frame, sprite: seq<uint8>, sx: int, sy: int, r: int, c: int)
    requires IsFrame(f)
  {
    0 <= r < DisplayHeight && 0 <= c < DisplayWidth && Flips(sprite, sx, sy, r, c) && f[r][c] == 1
  }

  /** The collision CHIP-8 reports: some pixel that was on is turned off by the draw. */
  predicate Erases(f: Frame, sprite: seq<uint8>, sx: int, sy: int)
    requires IsFrame(f)
  {
    exists r, c | 0 <= r < DisplayHeight && 0 <= c < DisplayWidth :: Erased(f, sprite, sx, sy, r, c)
  }

  /** Drawing the same sprite at the same place twice gives back the original frame. */
  lemma DrawTwiceRestores(f: Frame, sprite: seq<uint8>, sx: int, sy: int)
    requires IsFrame(f)
    ensures Drawn(Drawn(f, sprite, sx, sy), sprite, sx, sy) == f
  {
    var g := Drawn(Drawn(f, sprite, sx, sy), sprite, sx, sy);
    SameCells(g, f);
  }

  /**
   * No wrap-around inside a sprite: the cells above the start row and left
   * of the start column are untouched, and so is every cell not flipped.
   */
  lemma DrawClips(f: Frame, sprite: seq<uint8>, sx: int, sy: int, r: int, c: int)
    requires IsFrame(f) && 0 <= r < DisplayHeight && 0 <= c < DisplayWidth
    requires r < sy || c < sx || r >= sy + |sprite| || c >= sx + 8
    ensures Drawn(f, sprite, sx, sy)[r][c] == f[r][c]
  {
  }

  /** On a blank frame nothing is erased, and exactly the flipped cells end up lit. */
  lemma DrawOnBlank(sprite: seq<uint8>, sx: int, sy: int)
    ensures !Erases(Blank(), sprite, sx, sy)
    ensures forall r, c :: 0 <= r < DisplayHeight && 0 <= c < DisplayWidth ==>
              Drawn(Blank(), sprite, sx, sy)[r][c] == if Flips(sprite, sx, sy, r, c) then 1 else 0
  {
  }

  /** Every pixel of `f` is lit. */
  predicate AllLit(f: Frame)
    requires IsFrame(f)
  {
    forall r, c :: 0 <= r < DisplayHeight && 0 <= c < DisplayWidth ==> f[r][c] == 1
  }

  /** On a frame with every pixel lit, any flipped pixel is a collision. */
  lemma DrawOnFull(f: Frame, sprite: seq<uint8>, sx: int, sy: int, r: int, c: int)
    requires IsFrame(f) && AllLit(f)
    requires 0 <= r < DisplayHeight && 0 <= c < DisplayWidth && Flips(sprite, sx, sy, r, c)
    ensures Erases(f, sprite, sx, sy)
  {
    assert Erased(f, sprite, sx, sy, r, c);
  }

  /** `Framebuffer`: the pixel grid, updated in place. */
  class Framebuffer {
    const frame: array2<uint32>

    ghost predicate Valid()
      reads frame
    {
      && frame.Length0 == DisplayHeight && frame.Length1 == DisplayWidth
      && forall r, c :: 0 <= r < DisplayHeight && 0 <= c < DisplayWidth ==> frame[r, c] <= 1
    }

    /** `Framebuffer::new`: every pixel is off. */
    constructor ()
      ensures Valid() && fresh(frame)
      ensures GetFrame() == Blank()
    {
      frame := new uint32[DisplayHeight, DisplayWidth]((_, _) => 0);
      new;
      SameCells(GetFrame(), Blank());
    }

    /** `get_frame`: a snapshot of the grid. */
    function GetFrame(): (f: Frame)
      requires Valid()
      reads frame
      ensures IsFrame(f)
      ensures forall r, c :: 0 <= r < DisplayHeight && 0 <= c < DisplayWidth ==> f[r][c] == frame[r, c]
    {
      seq(DisplayHeight, r requires 0 <= r < DisplayHeight reads frame =>
        seq(DisplayWidth, c requires 0 <= c < DisplayWidth reads frame => frame[r, c]))
    }

    /** `clear`: every pixel is turned off. */
    method Clear()
      requires Valid()
      modifies frame
      ensures Valid()
      ensures GetFrame() == Blank()
    {
      forall r, c | 0 <= r < DisplayHeight && 0 <= c < DisplayWidth {
        frame[r, c] := 0;
      }
      SameCells(GetFrame(), Blank());
    }

    /**
     * `draw_sprite`: the start position wraps around the screen, then each
     * sprite row is XOR-ed into the grid, clipping at the bottom and right
     * edges. The result reports whether any lit pixel was turned off (see
     * `CollisionAsWritten` for the flag the source computes).
     */
    method DrawSprite(sprite: seq<uint8>, startX: uint32, startY: uint32) returns (collision: bool)
      requires Valid()
      modifies frame
      ensures Valid()
      ensures GetFrame() == Drawn(old(GetFrame()), sprite, startX as int % DisplayWidth, startY as int % DisplayHeight)
      ensures collision == Erases(old(GetFrame()), sprite, startX as int % DisplayWidth, startY as int % DisplayHeight)
    {
      ghost var f0 := GetFrame();
      collision := false;
      // The start position wraps.
      var sx := startX as int % DisplayWidth;
      var sy := startY as int % DisplayHeight;
      var n := 0;
      while n < |sprite|
        invariant Valid()
        invariant 0 <= n <= |sprite| && sy + n <= DisplayHeight
        invariant forall r, c :: 0 <= r < DisplayHeight && 0 <= c < DisplayWidth ==>
                    frame[r, c] == if r < sy + n && Flips(sprite, sx, sy, r, c) then 1 - f0[r][c] else f0[r][c]
        invariant collision <==> exists r, c | 0 <= r < sy + n && 0 <= c < DisplayWidth :: Erased(f0, sprite, sx, sy, r, c)
      {
        // Rows below the bottom edge are clipped.
        if sy + n >= DisplayHeight {
          break;
        }
        collision := DrawRow(f0, sprite, sx, sy, n, sy + n, collision);
        n := n + 1;
      }
      SameCells(GetFrame(), Drawn(f0, sprite, sx, sy));
    }

    /**
     * The inner loop of `draw_sprite`: sprite row `n` is XOR-ed into screen
     * row `sy + n` from column `sx` on, clipping at the right edge; the
     * collision flag is raised when a lit pixel is turned off.
     */
    method DrawRow(ghost f0: Frame, sprite: seq<uint8>, sx: int, sy: int, n: int, frameY: int, collision: bool)
      returns (collision': bool)
      requires Valid() && IsFrame(f0)
      requires 0 <= sx < DisplayWidth && 0 <= sy && 0 <= n < |sprite| && frameY == sy + n < DisplayHeight
      requires forall c :: 0 <= c < DisplayWidth ==> frame[frameY, c] == f0[frameY][c]
      modifies frame
      ensures Valid()
      ensures forall r, c :: 0 <= r < DisplayHeight && 0 <= c < DisplayWidth ==>
                frame[r, c] == if r == frameY && Flips(sprite, sx, sy, r, c) then 1 - old(frame[r, c]) else old(frame[r, c])
      ensures collision' <==> collision || exists c | 0 <= c < DisplayWidth :: Erased(f0, sprite, sx, sy, frameY, c)
    {
      collision' := collision;
      // A pixel of this row that was turned off, once there is one.
      ghost var wc := 0;
      var b := 0;
      while b < 8
        invariant Valid()
        invariant 0 <= b <= 8 && sx + b <= DisplayWidth
        invariant forall r, c :: 0 <= r < DisplayHeight && 0 <= c < DisplayWidth ==>
                    frame[r, c] == if r == frameY && c < sx + b && Flips(sprite, sx, sy, r, c)
                                   then 1 - old(frame[r, c]) else old(frame[r, c])
        invariant collision ==> collision'
        invariant collision' ==> collision || (0 <= wc < DisplayWidth && Erased(f0, sprite, sx, sy, frameY, wc))
        invariant !collision' ==> forall c :: 0 <= c < sx + b ==> !Erased(f0, sprite, sx, sy, frameY, c)
      {
        var frameX := sx + b;
        // Columns past the right edge are clipped.
        if frameX >= DisplayWidth {
          break;
        }
        assert Flips(sprite, sx, sy, frameY, frameX) == BitSet(sprite[n], b);
        if BitSet(sprite[n], b) {
          var frameBit := frame[frameY, frameX];
          if frameBit == 1 {
            wc := frameX;
          }
          collision' := collision' || frameBit == 1;
          frame[frameY, frameX] := 1 - frameBit;
        }
        b := b + 1;
      }
    }
  }

  /** The draw flips no cell in row `top` or below it. */
  predicate QuietFrom(sprite: seq<uint8>, sx: int, sy: int, top: int) {
    forall r, c :: top <= r < DisplayHeight && 0 <= c < DisplayWidth ==> !Flips(sprite, sx, sy, r, c)
  }

  /**
   * The collision flag as the source computes it: reset at entry, then
   * overwritten at every flipped pixel, in drawing order, with whether that
   * pixel was lit. `RowsFlag` continues from sprite row `n` with the flag so far.
   */
  function CollisionAsWritten(f: Frame, sprite: seq<uint8>, startX: uint32, startY: uint32): (raised: bool)
    requires IsFrame(f)
    ensures QuietFrom(sprite, startX as int % DisplayWidth, startY as int % DisplayHeight, 0) ==> !raised
  {
    RowsFlagQuiet(f, sprite, startX as int % DisplayWidth, startY as int % DisplayHeight, 0, false);
    RowsFlag(f, sprite, startX as int % DisplayWidth, startY as int % DisplayHeight, 0, false)
  }

  function RowsFlag(f: Frame, sprite: seq<uint8>, sx: int, sy: int, n: nat, flag: bool): bool
    requires IsFrame(f) && 0 <= sx < DisplayWidth && 0 <= sy < DisplayHeight
    decreases |sprite| - n
  {
    if n >= |sprite| || sy + n >= DisplayHeight then flag
    else RowsFlag(f, sprite, sx, sy, n + 1, ColsFlag(f, sprite[n], sx, sy + n, 0, flag))
  }

  /** The flag after the columns from offset `b` on of one sprite row drawn at `row`. */
  function ColsFlag(f: Frame, s: uint8, sx: int, row: int, b: nat, flag: bool): bool
    requires IsFrame(f) && 0 <= sx < DisplayWidth && 0 <= row < DisplayHeight
    decreases 8 - b
  {
    if b >= 8 || sx + b >= DisplayWidth then flag
    else ColsFlag(f, s, sx, row, b + 1, if BitSet(s, b) then f[row][sx + b] == 1 else flag)
  }

  /** The row loop as written leaves the flag alone when no cell from row `sy + n` down flips. */
  lemma {:induction false} RowsFlagQuiet(f: Frame, sprite: seq<uint8>, sx: int, sy: int, n: nat, flag: bool)
    requires IsFrame(f) && 0 <= sx < DisplayWidth && 0 <= sy < DisplayHeight
    ensures QuietFrom(sprite, sx, sy, sy + n) ==> RowsFlag(f, sprite, sx, sy, n, flag) == flag
    decreases |sprite| - n
  {
    if n < |sprite| && sy + n < DisplayHeight && QuietFrom(sprite, sx, sy, sy + n) {
      forall b | 0 <= b < 8 && sx + b < DisplayWidth
        ensures !BitSet(sprite[n], b)
      {
        assert !Flips(sprite, sx, sy, sy + n, sx + b);
      }
      ColsFlagQuiet(f, sprite[n], sx, sy + n, 0, flag);
      RowsFlagQuiet(f, sprite, sx, sy, n + 1, flag);
    }
  }

  /** The column loop as written leaves the flag alone when no visible bit from offset `b` on is set. */
  lemma {:induction false} ColsFlagQuiet(f: Frame, s: uint8, sx: int, row: int, b: nat, flag: bool)
    requires IsFrame(f) && 0 <= sx < DisplayWidth && 0 <= row < DisplayHeight
    ensures (forall b' :: b <= b' < 8 && sx + b' < DisplayWidth ==> !BitSet(s, b')) ==>
              ColsFlag(f, s, sx, row, b, flag) == flag
    decreases 8 - b
  {
    if b < 8 && sx + b < DisplayWidth {
      ColsFlagQuiet(f, s, sx, row, b + 1, flag);
    }
  }

  /**
   * The flag the source reports is never a false alarm: when it is raised,
   * some lit pixel was indeed turned off.
   */
  lemma CollisionAsWrittenSound(f: Frame, sprite: seq<uint8>, startX: uint32, startY: uint32)
    requires IsFrame(f)
    ensures CollisionAsWritten(f, sprite, startX, startY) ==>
              Erases(f, sprite, startX as int % DisplayWidth, startY as int % DisplayHeight)
  {
    RowsFlagSound(f, sprite, startX as int % DisplayWidth, startY as int % DisplayHeight, 0, false);
  }

  lemma {:induction false} RowsFlagSound(f: Frame, sprite: seq<uint8>, sx: int, sy: int, n: nat, flag: bool)
    requires IsFrame(f) && 0 <= sx < DisplayWidth && 0 <= sy < DisplayHeight
    ensures RowsFlag(f, sprite, sx, sy, n, flag) ==> flag || Erases(f, sprite, sx, sy)
    decreases |sprite| - n
  {
    if n < |sprite| && sy + n < DisplayHeight {
      var flag' := ColsFlag(f, sprite[n], sx, sy + n, 0, flag);
      ColsFlagSound(f, sprite, sx, sy, n, sy + n, 0, flag);
      RowsFlagSound(f, sprite, sx, sy, n + 1, flag');
    }
  }

  lemma {:induction false} ColsFlagSound(f: Frame, sprite: seq<uint8>, sx: int, sy: int, n: nat, row: int, b: nat, flag: bool)
    requires IsFrame(f) && 0 <= sx < DisplayWidth && 0 <= sy
    requires n < |sprite| && row == sy + n < DisplayHeight
    ensures ColsFlag(f, sprite[n], sx, row, b, flag) ==>
              flag || exists c | 0 <= c < DisplayWidth :: Erased(f, sprite, sx, sy, row, c)
    decreases 8 - b
  {
    if b < 8 && sx + b < DisplayWidth {
      assert Flips(sprite, sx, sy, row, sx + b) == BitSet(sprite[n], b);
      var flag' := if BitSet(sprite[n], b) then f[row][sx + b] == 1 else flag;
      ColsFlagSound(f, sprite, sx, sy, n, row, b + 1, flag');
      if flag' && !flag {
        assert Erased(f, sprite, sx, sy, row, sx + b);
      }
    }
  }

  /**
   * On a frame with every pixel lit, the flag the source computes is right:
   * it is raised exactly when the draw flips some pixel.
   */
  lemma CollisionAsWrittenOnFull(f: Frame, sprite: seq<uint8>, startX: uint32, startY: uint32)
    requires IsFrame(f) && AllLit(f)
    ensures CollisionAsWritten(f, sprite, startX, startY) <==>
              Erases(f, sprite, startX as int % DisplayWidth, startY as int % DisplayHeight)
  {
    var sx, sy := startX as int % DisplayWidth, startY as int % DisplayHeight;
    CollisionAsWrittenSound(f, sprite, startX, startY);
    if Erases(f, sprite, sx, sy) {
      assert ErasesFrom(f, sprite, sx, sy, sy);
      RowsFlagFull(f, sprite, sx, sy, 0, false);
    }
  }

  /** Drawing flips a lit pixel off in row `row`. */
  predicate ErasesRow(f: Frame, sprite: seq<uint8>, sx: int, sy: int, row: int)
    requires IsFrame(f)
  {
    exists c | sx <= c < DisplayWidth :: Erased(f, sprite, sx, sy, row, c)
  }

  /** A row that erases nothing can be dropped from `ErasesFrom`. */
  lemma ErasesFromNext(f: Frame, sprite: seq<uint8>, sx: int, sy: int, row: int)
    requires IsFrame(f) && 0 <= sx && ErasesFrom(f, sprite, sx, sy, row) && !ErasesRow(f, sprite, sx, sy, row)
    ensures ErasesFrom(f, sprite, sx, sy, row + 1)
  {
    var r, c :| row <= r < DisplayHeight && 0 <= c < DisplayWidth && Erased(f, sprite, sx, sy, r, c);
    assert r != row;
  }

  /** One turn of the row loop: the columns of sprite row `n` update the flag to `flag'`. */
  lemma RowsFlagStep(f: Frame, sprite: seq<uint8>, sx: int, sy: int, n: nat, flag: bool, flag': bool)
    requires IsFrame(f) && 0 <= sx < DisplayWidth && 0 <= sy < DisplayHeight
    requires n < |sprite| && sy + n < DisplayHeight
    requires flag' == ColsFlag(f, sprite[n], sx, sy + n, 0, flag)
    ensures RowsFlag(f, sprite, sx, sy, n, flag) == RowsFlag(f, sprite, sx, sy, n + 1, flag')
  {
  }

  /** Below the sprite's last row, or below the screen, nothing is erased. */
  lemma ErasesFromPast(f: Frame, sprite: seq<uint8>, sx: int, sy: int, top: int)
    requires IsFrame(f) && (top >= sy + |sprite| || top >= DisplayHeight)
    ensures !ErasesFrom(f, sprite, sx, sy, top)
  {
  }

  /** Drawing flips a lit pixel off in row `top` or below it. */
  predicate ErasesFrom(f: Frame, sprite: seq<uint8>, sx: int, sy: int, top: int)
    requires IsFrame(f)
  {
    exists r, c | top <= r < DisplayHeight && 0 <= c < DisplayWidth :: Erased(f, sprite, sx, sy, r, c)
  }

  lemma {:induction false} RowsFlagFull(f: Frame, sprite: seq<uint8>, sx: int, sy: int, n: nat, flag: bool)
    requires IsFrame(f) && AllLit(f) && 0 <= sx < DisplayWidth && 0 <= sy < DisplayHeight
    requires flag || ErasesFrom(f, sprite, sx, sy, sy + n)
    ensures RowsFlag(f, sprite, sx, sy, n, flag)
    decreases |sprite| - n
  {
    if n < |sprite| && sy + n < DisplayHeight {
      var row := sy + n;
      var flag' := ColsFlag(f, sprite[n], sx, row, 0, flag);
      if flag || ErasesRow(f, sprite, sx, sy, row) {
        ColsFlagFull(f, sprite, sx, sy, n, row, 0, flag);
        RowsFlagFull(f, sprite, sx, sy, n + 1, flag');
      } else {
        ErasesFromNext(f, sprite, sx, sy, row);
        RowsFlagFull(f, sprite, sx, sy, n + 1, flag');
      }
      RowsFlagStep(f, sprite, sx, sy, n, flag, flag');
    } else {
      ErasesFromPast(f, sprite, sx, sy, sy + n);
    }
  }

  lemma {:induction false} ColsFlagFull(f: Frame, sprite: seq<uint8>, sx: int, sy: int, n: nat, row: int, b: nat, flag: bool)
    requires IsFrame(f) && AllLit(f) && 0 <= sx < DisplayWidth && 0 <= sy
    requires n < |sprite| && row == sy + n < DisplayHeight
    requires flag || exists c | sx + b <= c < DisplayWidth :: Erased(f, sprite, sx, sy, row, c)
    ensures ColsFlag(f, sprite[n], sx, row, b, flag)
    decreases 8 - b
  {
    if b < 8 && sx + b < DisplayWidth {
      assert Flips(sprite, sx, sy, row, sx + b) == BitSet(sprite[n], b);
      var flag' := if BitSet(sprite[n], b) then f[row][sx + b] == 1 else flag;
      if !flag' {
        var c :| sx + b <= c < DisplayWidth && Erased(f, sprite, sx, sy, row, c);
        assert c != sx + b;
      }
      ColsFlagFull(f, sprite, sx, sy, n, row, b + 1, flag');
    }
  }

  /** The frame with only the top-left pixel lit. */
  function TopLeftLit(): (f: Frame)
    ensures IsFrame(f)
    ensures f[0][0] == 1 && f[0][1] == 0
  {
    seq(DisplayHeight, r requires 0 <= r < DisplayHeight =>
      seq(DisplayWidth, c requires 0 <= c < DisplayWidth => if r == 0 && c == 0 then 1 else 0))
  }

  /**
   * The collision the source misses: the two-pixel sprite row 0xC0 drawn at
   * (0, 0) over a frame whose pixel (0, 0) is lit and (0, 1) is not turns
   * (0, 0) off, yet the flag is overwritten by the unlit (0, 1) and ends false.
   */
  lemma CollisionMissed()
    ensures Erases(TopLeftLit(), [0xC0], 0, 0)
    ensures !CollisionAsWritten(TopLeftLit(), [0xC0], 0, 0)
  {
    var f := TopLeftLit();
    var s: uint8 := 0xC0;
    assert BitSet(s, 0) && BitSet(s, 1);
    assert !BitSet(s, 2) && !BitSet(s, 3) && !BitSet(s, 4) && !BitSet(s, 5) && !BitSet(s, 6) && !BitSet(s, 7);
    assert Erased(f, [s], 0, 0, 0, 0);
    assert ColsFlag(f, s, 0, 0, 2, false) == false by {
      assert ColsFlag(f, s, 0, 0, 6, false) == false;
      assert ColsFlag(f, s, 0, 0, 4, false) == false;
    }
    assert ColsFlag(f, s, 0, 0, 0, false) == false;
    assert RowsFlag(f, [s], 0, 0, 1, false) == false;
  }
}
