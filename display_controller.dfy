/**
 * The controller-screen canvas (DisplayController.java): a 128×64
 * monochrome image and its packing into the 1024 bytes the draw-image
 * message carries. Byte (y/8)·128 + x holds the eight pixels of column x in
 * the row group starting at 8·(y/8), the top one in bit 0. The canvas is an
 * array of pixels, `true` for black, row by row.
 */
module DisplayControllers {
  const DISPLAY_WIDTH: int := 128
  const DISPLAY_HEIGHT: int := 64
  const CANVAS_SIZE: int := DISPLAY_WIDTH * DISPLAY_HEIGHT
  /** `(DISPLAY_WIDTH * DISPLAY_HEIGHT) / 8`. */
  const DATA_SIZE: int := 1024

  predicate OnCanvas(x: int, y: int) { 0 <= x < DISPLAY_WIDTH && 0 <= y < DISPLAY_HEIGHT }

  /** Where pixel (x, y) sits in the row-by-row canvas. */
  function PixelIndex(x: int, y: int): (i: int)
    requires OnCanvas(x, y)
    ensures 0 <= i < CANVAS_SIZE
  {
    y * DISPLAY_WIDTH + x
  }

  /** `1 << b` for a bit position of a byte. */
  function Mask(b: nat): (m: bv8)
    requires b < 8
    ensures m == (1 as bv8) << b && m != 0
  {
    if b == 0 then 0x01 else if b == 1 then 0x02 else if b == 2 then 0x04 else if b == 3 then 0x08
    else if b == 4 then 0x10 else if b == 5 then 0x20 else if b == 6 then 0x40 else 0x80
  }

  /** Bit `b` of a byte. */
  predicate Bit(v: bv8, b: nat)
    requires b < 8
  {
    v & Mask(b) != 0
  }

  /** The byte holding the first `n` pixels, downward from row `top`, of column `x`. */
  function ColumnByte(canvas: seq<bool>, x: int, top: int, n: nat): bv8
    requires |canvas| == CANVAS_SIZE && 0 <= x < DISPLAY_WIDTH && 0 <= top && top + n <= DISPLAY_HEIGHT && n <= 8
  {
    if n == 0 then 0
    else
      var below := if canvas[PixelIndex(x, top + n - 1)] then Mask(n - 1) else 0;
      ColumnByte(canvas, x, top, n - 1) | below
  }

  /** The packed screen: byte i is column i % 128 of row group i / 128. */
  function Packed(canvas: seq<bool>): (data: seq<bv8>)
    requires |canvas| == CANVAS_SIZE
    ensures |data| == DATA_SIZE
  {
    seq(DATA_SIZE, i requires 0 <= i < DATA_SIZE => ColumnByte(canvas, i % DISPLAY_WIDTH, (i / DISPLAY_WIDTH) * 8, 8))
  }

  /** Setting bit k only changes bit k. */
  lemma OrBit(v: bv8, k: nat, on: bool, b: nat)
    requires k < 8 && b < 8
    ensures Bit(v | (if on then Mask(k) else 0), b) == ((b == k && on) || Bit(v, b))
  {
    var m := if on then Mask(k) else 0;
    assert (v | m) & Mask(b) == (v & Mask(b)) | (m & Mask(b));
    if b != k {
      MasksDisjoint(k, b);
    } else if on {
      assert m & Mask(b) == Mask(b);
    }
  }

  lemma MasksDisjoint(k: nat, b: nat)
    requires k < 8 && b < 8 && k != b
    ensures Mask(k) & Mask(b) == 0
  {
  }

  /** Bit b of a partial column byte is pixel b of the column, and bits not yet filled are clear. */
  lemma {:induction false} ColumnBit(canvas: seq<bool>, x: int, top: int, n: nat, b: nat)
    requires |canvas| == CANVAS_SIZE && 0 <= x < DISPLAY_WIDTH && 0 <= top && top + n <= DISPLAY_HEIGHT && n <= 8
    requires b < 8
    ensures Bit(ColumnByte(canvas, x, top, n), b) <==> b < n && canvas[PixelIndex(x, top + b)]
  {
    if n == 0 {
      assert ColumnByte(canvas, x, top, n) == 0;
    } else {
      ColumnBit(canvas, x, top, n - 1, b);
      OrBit(ColumnByte(canvas, x, top, n - 1), n - 1, canvas[PixelIndex(x, top + n - 1)], b);
    }
  }

  /** The slot of pixel (x, y): the byte index and the bit within it. */
  function Slot(x: int, y: int): (slot: (int, int))
    requires OnCanvas(x, y)
    ensures 0 <= slot.0 < DATA_SIZE && 0 <= slot.1 < 8
  {
    ((y / 8) * DISPLAY_WIDTH + x, y % 8)
  }

  /** Bit y % 8 of byte (y/8)·128 + x is set exactly when pixel (x, y) is black. */
  lemma PackedBit(canvas: seq<bool>, x: int, y: int)
    requires |canvas| == CANVAS_SIZE && OnCanvas(x, y)
    ensures Bit(Packed(canvas)[Slot(x, y).0], Slot(x, y).1) <==> canvas[PixelIndex(x, y)]
  {
    var i := Slot(x, y).0;
    assert i % DISPLAY_WIDTH == x && i / DISPLAY_WIDTH == y / 8;
    ColumnBit(canvas, x, (y / 8) * 8, 8, y % 8);
    assert (y / 8) * 8 + y % 8 == y;
  }

  /** Distinct pixels land in distinct (byte, bit) slots, so none overwrites another. */
  lemma SlotsDistinct(x1: int, y1: int, x2: int, y2: int)
    requires OnCanvas(x1, y1) && OnCanvas(x2, y2)
    ensures Slot(x1, y1) == Slot(x2, y2) ==> x1 == x2 && y1 == y2
  {
    if Slot(x1, y1) == Slot(x2, y2) {
      var i := Slot(x1, y1).0;
      assert i % DISPLAY_WIDTH == x1 && i / DISPLAY_WIDTH == y1 / 8;
      assert i % DISPLAY_WIDTH == x2 && i / DISPLAY_WIDTH == y2 / 8;
      assert y1 == (y1 / 8) * 8 + y1 % 8 && y2 == (y2 / 8) * 8 + y2 % 8;
    }
  }

  /** Every bit of every byte is some pixel's slot: the packing uses all 1024·8 bits. */
  lemma SlotsCover(i: int, b: int)
    requires 0 <= i < DATA_SIZE && 0 <= b < 8
    ensures OnCanvas(i % DISPLAY_WIDTH, (i / DISPLAY_WIDTH) * 8 + b)
    ensures Slot(i % DISPLAY_WIDTH, (i / DISPLAY_WIDTH) * 8 + b) == (i, b)
  {
  }

  /** An all-white canvas packs to 1024 zero bytes. */
  lemma {:induction false} WhitePacksToZero(canvas: seq<bool>)
    requires |canvas| == CANVAS_SIZE && forall p :: 0 <= p < CANVAS_SIZE ==> !canvas[p]
    ensures forall i :: 0 <= i < DATA_SIZE ==> Packed(canvas)[i] == 0
  {
    forall i | 0 <= i < DATA_SIZE
      ensures Packed(canvas)[i] == 0
    {
      WhiteColumn(canvas, i % DISPLAY_WIDTH, (i / DISPLAY_WIDTH) * 8, 8);
    }
  }

  lemma {:induction false} WhiteColumn(canvas: seq<bool>, x: int, top: int, n: nat)
    requires |canvas| == CANVAS_SIZE && 0 <= x < DISPLAY_WIDTH && 0 <= top && top + n <= DISPLAY_HEIGHT && n <= 8
    requires forall p :: 0 <= p < CANVAS_SIZE ==> !canvas[p]
    ensures ColumnByte(canvas, x, top, n) == 0
  {
    if n > 0 {
      WhiteColumn(canvas, x, top, n - 1);
      assert !canvas[PixelIndex(x, top + n - 1)];
    }
  }

  class DisplayController {
    /** The image's pixels, row by row; `true` is black. */
    var pixels: array<bool>
    /** Whether the current drawing colour is black. */
    var currentBlack: bool

    ghost predicate Valid()
      reads this
    {
      pixels.Length == CANVAS_SIZE
    }

    /** A white canvas with black as the drawing colour. */
    constructor ()
      ensures Valid() && fresh(pixels) && currentBlack
      ensures forall p :: 0 <= p < CANVAS_SIZE ==> !pixels[p]
    {
      pixels := new bool[CANVAS_SIZE](p => false);
      currentBlack := true;
    }

    /** `setColor`: only black and white are told apart on this display. */
    method SetColor(black: bool)
      modifies this
      ensures currentBlack == black && pixels == old(pixels)
    {
      currentBlack := black;
    }

    /** `clear()`: every pixel white; the drawing colour is kept. */
    method Clear()
      requires Valid()
      modifies pixels
      ensures forall p :: 0 <= p < CANVAS_SIZE ==> !pixels[p]
    {
      forall p | 0 <= p < pixels.Length {
        pixels[p] := false;
      }
    }

    /**
     * `fillRectangle(x, y, w, h)`: the pixels with x ≤ px < x+w and
     * y ≤ py < y+h that lie on the canvas take the current colour; the rest
     * keep theirs.
     */
    method FillRectangle(x: int, y: int, width: int, height: int)
      requires Valid()
      modifies pixels
      ensures forall px, py :: OnCanvas(px, py) ==>
        pixels[PixelIndex(px, py)] ==
          if x <= px < x + width && y <= py < y + height then currentBlack else old(pixels[PixelIndex(px, py)])
    {
      forall p | 0 <= p < pixels.Length && x <= p % DISPLAY_WIDTH < x + width && y <= p / DISPLAY_WIDTH < y + height {
        pixels[p] := currentBlack;
      }
      forall px, py | OnCanvas(px, py)
        ensures pixels[PixelIndex(px, py)] ==
          if x <= px < x + width && y <= py < y + height then currentBlack else old(pixels[PixelIndex(px, py)])
      {
        var p := PixelIndex(px, py);
        assert p % DISPLAY_WIDTH == px && p / DISPLAY_WIDTH == py;
      }
    }

    /** The inner loop of `toByteArray()`: the eight pixels of column x from row `top` down, top pixel in bit 0. */
    method PackColumn(x: int, top: int) returns (pixelByte: bv8)
      requires Valid() && 0 <= x < DISPLAY_WIDTH && 0 <= top && top % 8 == 0 && top < DISPLAY_HEIGHT
      ensures pixelByte == ColumnByte(pixels[..], x, top, 8)
    {
      pixelByte := 0;
      var bit := 0;
      while bit < 8 && top + bit < DISPLAY_HEIGHT
        invariant 0 <= bit <= 8 && top + bit <= DISPLAY_HEIGHT
        invariant pixelByte == ColumnByte(pixels[..], x, top, bit)
      {
        assert pixels[..][PixelIndex(x, top + bit)] == pixels[PixelIndex(x, top + bit)];
        if pixels[PixelIndex(x, top + bit)] {
          pixelByte := pixelByte | Mask(bit);
        } else {
          assert pixelByte | 0 == pixelByte;
        }
        bit := bit + 1;
      }
    }

    /** `toByteArray()`: the canvas packed column byte by column byte, row group by row group. */
    method ToByteArray() returns (data: array<bv8>)
      requires Valid()
      ensures fresh(data) && data[..] == Packed(pixels[..])
    {
      data := new bv8[DATA_SIZE];
      var dataIndex := 0;
      var y := 0;
      while y < DISPLAY_HEIGHT
        invariant 0 <= y <= DISPLAY_HEIGHT && y % 8 == 0
        invariant dataIndex == (y / 8) * DISPLAY_WIDTH
        invariant forall i :: 0 <= i < dataIndex ==>
          data[i] == ColumnByte(pixels[..], i % DISPLAY_WIDTH, (i / DISPLAY_WIDTH) * 8, 8)
      {
        var x := 0;
        while x < DISPLAY_WIDTH
          invariant 0 <= x <= DISPLAY_WIDTH
          invariant dataIndex == (y / 8) * DISPLAY_WIDTH + x
          invariant forall i :: 0 <= i < dataIndex ==>
            data[i] == ColumnByte(pixels[..], i % DISPLAY_WIDTH, (i / DISPLAY_WIDTH) * 8, 8)
        {
          var pixelByte := PackColumn(x, y);
          assert dataIndex % DISPLAY_WIDTH == x && (dataIndex / DISPLAY_WIDTH) * 8 == y;
          data[dataIndex] := pixelByte;
          dataIndex := dataIndex + 1;
          x := x + 1;
        }
        y := y + 8;
      }
      assert data[..] == Packed(pixels[..]);
    }
  }

  /** A freshly constructed canvas, packed: 1024 zero bytes. */
  method BlankCanvasBytes() returns (data: array<bv8>)
    ensures data.Length == DATA_SIZE && forall i :: 0 <= i < DATA_SIZE ==> data[i] == 0
  {
    var canvas := new DisplayController();
    data := canvas.ToByteArray();
    WhitePacksToZero(canvas.pixels[..]);
  }
}
