/**
 What the header of a screenshot calls for (artifacts/product-integration/capture_native_audit.py),
 after the PNG Specification (Second Edition), sections 6.1, 8 and 11.2.2.
 */
module PngHeader {
  import opened ByteStrings
  import opened Facts
  import opened Outcomes
  import opened PngChunks
  import opened PngImage

  /** The header chunk's payload as the specification lays it out. */
  function HeaderBytes(h: Header): (b: Bytes)
    ensures |b| == 13
  {
    BigEndian(h.width, 4) + BigEndian(h.height, 4) + [h.depth, h.color, h.compression, h.filtering, h.interlace]
  }

  /** Reading a header chunk gives the header that was written, and every payload is one header's. */
  lemma HeaderRoundTrip(h: Header, payload: Bytes)
    requires |payload| == 13
    ensures ReadHeader(payload) == h <==> payload == HeaderBytes(h)
  {
    var read := ReadHeader(payload);
    assert payload == payload[0..4] + payload[4..8] + payload[8..];
    assert HeaderBytes(read) == payload;
    WordRange();
    if payload == HeaderBytes(h) {
      assert payload[0..4] == BigEndian(h.width, 4) && payload[4..8] == BigEndian(h.height, 4);
      ReadWordAt(payload, 0, h.width);
      ReadWordAt(payload, 4, h.height);
    }
  }

  /** Bits 0, 1 and 2 of the colour type: a palette is used, colour is used, an alpha channel is used. */
  datatype ColorType = ColorType(palette: bool, color: bool, alpha: bool)

  function ColorByte(t: ColorType): Byte {
    (if t.palette then 1 else 0) + (if t.color then 2 else 0) + (if t.alpha then 4 else 0)
  }

  /** A palette index is one sample, a colour is three, grey is one, and alpha one more. */
  function Samples(t: ColorType): nat {
    (if t.color && !t.palette then 3 else 1) + if t.alpha then 1 else 0
  }

  /**
   Exactly the specified colour types have an allowed depth: those with a palette use colour
   and no alpha. Their pixels have as many samples as their bits say, of 8 or 16 bits, or of
   a power of two below, which needs one sample.
   */
  lemma ColorsExact(t: ColorType, depth: Byte)
    ensures DepthAllowed(ColorByte(t), depth) <==>
              && (t.palette ==> t.color && !t.alpha)
              && (depth == 8 || (depth == 16 && !t.palette) || (depth in {1, 2, 4} && Samples(t) == 1))
    ensures DepthAllowed(ColorByte(t), depth) ==> Channels(ColorByte(t)) == Samples(t)
  {
  }

  lemma NoOtherColors(color: Byte, depth: Byte)
    requires DepthAllowed(color, depth)
    ensures exists t :: color == ColorByte(t)
  {
    var t := ColorType(color % 2 == 1, color / 2 % 2 == 1, color / 4 == 1);
    assert color == ColorByte(t);
  }

  /** The depths of the colour type. */
  predicate DepthFits(t: ColorType, depth: Byte) {
    depth == 8 || (depth == 16 && !t.palette) || (depth in {1, 2, 4} && Samples(t) == 1)
  }

  /**
   The headers that are let through: a colour type that exists, with one of its depths and
   its palette, the one compression and the one filter method, one of the two interlace
   methods, and sides of 16 to 16384 pixels.
   */
  lemma SupportedExactly(h: Header, palette: bool)
    ensures Supported(h, palette) <==>
              && (exists t :: h.color == ColorByte(t) && (t.palette ==> t.color && !t.alpha && palette)
                              && DepthFits(t, h.depth))
              && h.compression == 0 && h.filtering == 0 && (h.interlace == 0 || h.interlace == 1)
              && 16 <= h.width <= 16384 && 16 <= h.height <= 16384
  {
    if DepthAllowed(h.color, h.depth) {
      NoOtherColors(h.color, h.depth);
    }
    forall t | h.color == ColorByte(t) ensures DepthAllowed(h.color, h.depth) <==>
      (t.palette ==> t.color && !t.alpha) && DepthFits(t, h.depth)
    {
      ColorsExact(t, h.depth);
    }
  }

  /** A picture that is not interlaced is one line for each row, with all its pixels. */
  lemma PlainRows(h: Header, t: ColorType)
    requires h.interlace == 0 && h.color == ColorByte(t) && DepthAllowed(h.color, h.depth)
    requires h.width > 0 && h.height > 0
    ensures RowsFor(h) == [Rows(h.height, LineSize(h.width, Samples(t) * h.depth))]
  {
    ColorsExact(t, h.depth);
    WholeArea(h.width, h.height);
    VisitsAre(h.width, 0, 1);
    VisitsAre(h.height, 0, 1);
    var p := Pass(0, 0, 1, 1);
    assert Columns(h.width, p) == h.width && Lines(h.height, p) == h.height;
    assert PassesOf(h) == [p] && [p][1..] == [];
    assert RowsOf(h.width, h.height, Samples(t) * h.depth, [p])
        == [Rows(h.height, LineSize(h.width, Samples(t) * h.depth))] + [];
  }

  /** An interlaced one has the lines of the seven passes. */
  lemma InterlacedRows(h: Header, t: ColorType)
    requires h.interlace == 1 && h.color == ColorByte(t) && DepthAllowed(h.color, h.depth)
    ensures RowsFor(h) == RowsOf(h.width, h.height, Samples(t) * h.depth, ADAM7)
  {
    ColorsExact(t, h.depth);
  }

  /** In either case each pixel lies in exactly one of the passes whose lines are demanded. */
  lemma EachPixelOnce(h: Header, column: nat, row: nat)
    requires h.interlace <= 1
    ensures exists i: nat :: i < |PassesOf(h)| && Covers(PassesOf(h)[i], column, row)
    ensures forall i: nat, j: nat | i < j < |PassesOf(h)| ::
              !(Covers(PassesOf(h)[i], column, row) && Covers(PassesOf(h)[j], column, row))
  {
    if h.interlace == 1 {
      forall i: nat | i < 7 ensures Covers(ADAM7[i], column, row) <==> i == PassOf(column, row) {
        PassesPartition(column, row, i);
      }
      assert Covers(PassesOf(h)[PassOf(column, row)], column, row);
    } else {
      assert Covers(PassesOf(h)[0], column, row);
    }
  }

  /**
   A screenshot as windows give it, not interlaced, eight bits with alpha: it must decode to
   its height times the bytes of a line, four for each pixel and one for the filter.
   */
  lemma PlainScreenshot(inflate: Inflater, width: Word, height: Word, palette: bool, compressed: Bytes)
    requires 16 <= width <= 16384 && 16 <= height <= 16384
    ensures var h := Header(width, height, 8, 6, 0, 0, 0);
      var size := height * (4 * width + 1);
      PictureValid(inflate, h, palette, compressed) <==>
        size <= MAX_RAW && DecodesTo(inflate(compressed, size + 1), [Rows(height, 4 * width + 1)])
  {
    var h, t := Header(width, height, 8, 6, 0, 0, 0), ColorType(false, true, true);
    assert ColorByte(t) == 6 && Samples(t) == 4;
    PlainRows(h, t);
    assert LineSize(width, 32) == 4 * width + 1;
    var rows := [Rows(height, 4 * width + 1)];
    assert rows[1..] == [] && Total(rows) == height * (4 * width + 1);
  }
}
