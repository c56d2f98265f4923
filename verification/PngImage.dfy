/**
 The second half of `png_evidence` (artifacts/product-integration/capture_native_audit.py):
 header checks, Adam7 pass sizes and the scanline walk, after the PNG Specification (Second
 Edition), sections 8.2 and 9.2. Decompression is a parameter.
 */
module PngImage {
  import opened ByteStrings
  import opened Facts
  import opened Outcomes
  import opened PngChunks

  const MAX_RAW: nat := 512 * 1024 * 1024

  datatype Header = Header(
    width: Word, height: Word, depth: Byte, color: Byte, compression: Byte, filtering: Byte, interlace: Byte)

  datatype Pass = Pass(x: nat, y: nat, dx: nat, dy: nat)

  /** Equal scanlines: how many, and the bytes of one with its filter byte. */
  datatype Rows = Rows(lines: nat, size: nat)

  datatype Inflated = Inflated(raw: Bytes, eof: bool, unused: bool, unconsumed: bool)

  const ADAM7: seq<Pass> := [
    Pass(0, 0, 8, 8), Pass(4, 0, 8, 8), Pass(0, 4, 4, 8), Pass(2, 0, 4, 4),
    Pass(0, 2, 2, 4), Pass(1, 0, 2, 2), Pass(0, 1, 1, 2)]

  // ---------------------------------------------------------------- pass sizes

  function Max0(n: int): nat { if n > 0 then n else 0 }

  /** How many of the positions below `n` a pass visits, starting at `start` with step `step`. */
  function Visits(n: nat, start: nat, step: nat): (count: nat)
    requires step > 0
  {
    Max0((n - start + step - 1) / step)
  }

  predicate OnGrid(at: nat, start: nat, step: nat)
    requires step > 0
  {
    at >= start && (at - start) % step == 0
  }

  /** One visit for each whole step, and one more when the rest reaches the start. */
  lemma VisitsAre(n: nat, start: nat, step: nat)
    requires start < step
    ensures Visits(n, start, step) == n / step + if n % step > start then 1 else 0
  {
    var q, r := n / step, n % step;
    assert n == q * step + r;
    if r > start {
      Distribute(q, 1, step);
      DivisionIs(n - start + step - 1, step, q + 1, r - start - 1);
    } else {
      DivisionIs(n - start + step - 1, step, q, r - start + step - 1);
    }
  }

  /** The count is exact: the k-th visited position is below `n` just when k is below the count. */
  lemma VisitsExact(n: nat, start: nat, step: nat, k: nat)
    requires start < step
    ensures k < Visits(n, start, step) <==> start + k * step < n
    ensures OnGrid(start + k * step, start, step) && k * step / step == k
  {
    var q, r := n / step, n % step;
    assert n == q * step + r;
    VisitsAre(n, start, step);
    DivisionIs(k * step, step, k, 0);
    if k < q {
      MultipleLeq(k + 1, q, step);
      Distribute(k, 1, step);
    } else if k > q {
      MultipleLeq(q + 1, k, step);
      Distribute(q, 1, step);
    }
  }

  lemma GridMod(at: nat, start: nat, step: nat)
    requires start < step
    ensures OnGrid(at, start, step) <==> at % step == start
    ensures OnGrid(at, start, step) ==> at == start + (at - start) / step * step
  {
    if at % step == start {
      DivisionIs(at - start, step, at / step, 0);
    } else if OnGrid(at, start, step) {
      DivisionIs(at, step, (at - start) / step, start);
    }
  }

  lemma HalfStep(n: nat, step: nat)
    requires step > 0
    ensures var q, r := n / (2 * step), n % (2 * step);
      if r < step then n / step == 2 * q && n % step == r else n / step == 2 * q + 1 && n % step == r - step
  {
    var q, r := n / (2 * step), n % (2 * step);
    assert n == 2 * q * step + r;
    if r < step {
      DivisionIs(n, step, 2 * q, r);
    } else {
      Distribute(2 * q, 1, step);
      DivisionIs(n, step, 2 * q + 1, r - step);
    }
  }

  /** A grid splits into the two grids of twice its step. */
  lemma VisitsSplit(n: nat, step: nat)
    requires step > 0
    ensures Visits(n, 0, 2 * step) + Visits(n, step, 2 * step) == Visits(n, 0, step)
  {
    HalfStep(n, step);
    VisitsAre(n, 0, 2 * step);
    VisitsAre(n, step, 2 * step);
    VisitsAre(n, 0, step);
  }

  function Columns(w: nat, p: Pass): nat
    requires p.dx > 0
  {
    Visits(w, p.x, p.dx)
  }

  function Lines(h: nat, p: Pass): nat
    requires p.dy > 0
  {
    Visits(h, p.y, p.dy)
  }

  /** The pixel belongs to the pass. */
  predicate Covers(p: Pass, column: nat, row: nat)
    requires p.dx > 0 && p.dy > 0
  {
    OnGrid(column, p.x, p.dx) && OnGrid(row, p.y, p.dy)
  }

  function PassOf(column: nat, row: nat): (i: nat)
    ensures i < 7
  {
    if row % 2 == 1 then 6
    else if column % 2 == 1 then 5
    else if row % 4 == 2 then 4
    else if column % 4 == 2 then 3
    else if row % 8 == 4 then 2
    else if column % 8 == 4 then 1
    else 0
  }

  /** Each pixel lies in exactly one of the seven passes. */
  lemma PassesPartition(column: nat, row: nat, i: nat)
    requires i < 7
    ensures Covers(ADAM7[i], column, row) <==> i == PassOf(column, row)
  {
    var p := ADAM7[i];
    GridMod(column, p.x, p.dx);
    GridMod(row, p.y, p.dy);
    Residues(column);
    Residues(row);
  }

  lemma Residues(n: nat)
    ensures n % 4 == n % 8 % 4 && n % 2 == n % 8 % 2
  {
    var q, r := n / 8, n % 8;
    DivisionIs(n, 4, 2 * q + r / 4, r % 4);
    DivisionIs(n, 2, 4 * q + r / 2, r % 2);
  }

  /** The pixel at a place in the reduced image of a pass. */
  function PixelAt(p: Pass, i: nat, j: nat): (nat, nat) {
    (p.x + i * p.dx, p.y + j * p.dy)
  }

  lemma PassSteps(n: nat)
    requires n < 7
    ensures ADAM7[n].x < ADAM7[n].dx && ADAM7[n].y < ADAM7[n].dy
  {
  }

  /** A place is in a pass's reduced image just when its pixel is in the picture, and the pixel gives the place back. */
  lemma PlaceHasPixel(w: nat, h: nat, n: nat, i: nat, j: nat)
    requires n < 7
    ensures var p := ADAM7[n];
      var (c, r) := PixelAt(p, i, j);
      && (i < Columns(w, p) && j < Lines(h, p) <==> c < w && r < h)
      && Covers(p, c, r) && (c - p.x) / p.dx == i && (r - p.y) / p.dy == j
  {
    PassSteps(n);
    var p := ADAM7[n];
    VisitsExact(w, p.x, p.dx, i);
    VisitsExact(h, p.y, p.dy, j);
  }

  /** Each pixel of the picture has its place in the reduced image of its pass. */
  lemma PixelHasPlace(w: nat, h: nat, c: nat, r: nat)
    requires c < w && r < h
    ensures var p := ADAM7[PassOf(c, r)];
      var i, j := (c - p.x) / p.dx, (r - p.y) / p.dy;
      0 <= i < Columns(w, p) && 0 <= j < Lines(h, p) && PixelAt(p, i, j) == (c, r)
  {
    var n := PassOf(c, r);
    var p := ADAM7[n];
    PassesPartition(c, r, n);
    PassSteps(n);
    GridMod(c, p.x, p.dx);
    GridMod(r, p.y, p.dy);
    PlaceHasPixel(w, h, n, (c - p.x) / p.dx, (r - p.y) / p.dy);
  }

  function Area(w: nat, h: nat, p: Pass): nat
    requires p.dx > 0 && p.dy > 0
  {
    Columns(w, p) * Lines(h, p)
  }

  /** Two passes double the resolution of both axes: first the columns, then the lines. */
  lemma ResolutionDoubles(w: nat, h: nat, step: nat)
    requires step > 0
    ensures Area(w, h, Pass(0, 0, 2 * step, 2 * step)) + Area(w, h, Pass(step, 0, 2 * step, 2 * step))
          + Area(w, h, Pass(0, step, step, 2 * step)) == Area(w, h, Pass(0, 0, step, step))
  {
    VisitsSplit(w, step);
    VisitsSplit(h, step);
    Distribute(Visits(w, 0, 2 * step), Visits(w, step, 2 * step), Visits(h, 0, 2 * step));
    Distribute(Visits(h, 0, 2 * step), Visits(h, step, 2 * step), Visits(w, 0, step));
  }

  function AreaSum(w: nat, h: nat, ps: seq<Pass>): nat
    requires forall p <- ps :: p.dx > 0 && p.dy > 0
  {
    if ps == [] then 0 else AreaSum(w, h, ps[..|ps| - 1]) + Area(w, h, ps[|ps| - 1])
  }

  lemma AddTwo(w: nat, h: nat, n: nat, step: nat)
    requires step > 0 && 1 <= n && n + 2 <= 7
    requires ADAM7[n] == Pass(step, 0, 2 * step, 2 * step) && ADAM7[n + 1] == Pass(0, step, step, 2 * step)
    requires AreaSum(w, h, ADAM7[..n]) == Area(w, h, Pass(0, 0, 2 * step, 2 * step))
    ensures AreaSum(w, h, ADAM7[..n + 2]) == Area(w, h, Pass(0, 0, step, step))
  {
    var passes := ADAM7;
    assert passes[..n + 1][..n] == passes[..n] && passes[..n + 2][..n + 1] == passes[..n + 1];
    ResolutionDoubles(w, h, step);
  }

  /** The passes' areas sum to the picture's. */
  lemma AreasSum(w: nat, h: nat)
    ensures AreaSum(w, h, ADAM7) == w * h
  {
    var passes := ADAM7;
    assert passes[..1][..0] == [];
    assert AreaSum(w, h, ADAM7[..1]) == Area(w, h, Pass(0, 0, 8, 8));
    AddTwo(w, h, 1, 4);
    AddTwo(w, h, 3, 2);
    AddTwo(w, h, 5, 1);
    assert ADAM7[..7] == ADAM7;
    WholeArea(w, h);
  }

  lemma WholeArea(w: nat, h: nat)
    ensures Area(w, h, Pass(0, 0, 1, 1)) == w * h
  {
  }

  // ---------------------------------------------------------------- scanlines

  function Channels(color: Byte): nat {
    if color == 2 then 3 else if color == 4 then 2 else if color == 6 then 4 else 1
  }

  /** Bytes of one scanline: the filter byte and the bits rounded up. */
  function LineSize(columns: nat, bits: nat): (size: nat)
    ensures size >= 1 && columns * bits <= 8 * (size - 1) < columns * bits + 8
  {
    (columns * bits + 7) / 8 + 1
  }

  /** The scanlines of the passes; empty passes have none. */
  function RowsOf(w: nat, h: nat, bits: nat, passes: seq<Pass>): (rows: seq<Rows>)
    requires forall p <- passes :: p.dx > 0 && p.dy > 0
    ensures forall r <- rows :: r.lines > 0 && r.size > 0
  {
    if passes == [] then []
    else
      var p := passes[0];
      var rest := RowsOf(w, h, bits, passes[1..]);
      if Columns(w, p) > 0 && Lines(h, p) > 0 then [Rows(Lines(h, p), LineSize(Columns(w, p), bits))] + rest else rest
  }

  function Total(rows: seq<Rows>): nat {
    if rows == [] then 0 else rows[0].lines * rows[0].size + Total(rows[1..])
  }

  /** Where line `line` of group `n` begins. */
  function LineStart(rows: seq<Rows>, n: nat, line: nat): nat
    requires n < |rows|
  {
    Total(rows[..n]) + line * rows[n].size
  }

  ghost predicate FiltersValid(raw: Bytes, rows: seq<Rows>)
    requires |raw| == Total(rows) && forall r <- rows :: r.size > 0
  {
    forall n, line | 0 <= n < |rows| && 0 <= line < rows[n].lines :: FilterAt(raw, LineStart(rows, n, line))
  }

  lemma {:induction false} TotalSplit(a: seq<Rows>, b: seq<Rows>)
    ensures Total(a + b) == Total(a) + Total(b)
  {
    if a == [] {
      assert a + b == b;
    } else {
      assert (a + b)[1..] == a[1..] + b;
      TotalSplit(a[1..], b);
    }
  }

  lemma TotalStep(rows: seq<Rows>, n: nat)
    requires n < |rows|
    ensures Total(rows[..n + 1]) == Total(rows[..n]) + rows[n].lines * rows[n].size
    ensures Total(rows[..n + 1]) <= Total(rows)
  {
    assert rows[..n + 1] == rows[..n] + [rows[n]];
    TotalSplit(rows[..n], [rows[n]]);
    assert rows == rows[..n + 1] + rows[n + 1..];
    TotalSplit(rows[..n + 1], rows[n + 1..]);
  }

  lemma LineInRange(rows: seq<Rows>, n: nat, line: nat)
    requires n < |rows| && line < rows[n].lines && rows[n].size > 0
    ensures LineStart(rows, n, line) + rows[n].size <= Total(rows[..n + 1]) <= Total(rows)
  {
    TotalStep(rows, n);
    Distribute(line, 1, rows[n].size);
    MultipleLeq(line + 1, rows[n].lines, rows[n].size);
  }

  predicate FilterAt(raw: Bytes, at: nat) {
    at < |raw| && raw[at] <= 4
  }

  /** The lines of one pass. */
  method CheckLines(raw: Bytes, rows: seq<Rows>, n: nat) returns (ok: bool, offset: nat)
    requires n < |rows| && |raw| == Total(rows) && rows[n].size > 0
    ensures ok <==> forall l | 0 <= l < rows[n].lines :: FilterAt(raw, LineStart(rows, n, l))
    ensures ok ==> offset == Total(rows[..n + 1])
  {
    offset := Total(rows[..n]);
    var size := rows[n].size;
    for line := 0 to rows[n].lines
      invariant offset == LineStart(rows, n, line)
      invariant forall l | 0 <= l < line :: FilterAt(raw, LineStart(rows, n, l))
    {
      LineInRange(rows, n, line);
      if raw[offset] > 4 {
        assert !FilterAt(raw, LineStart(rows, n, line));
        return false, offset;
      }
      Distribute(line, 1, size);
      offset := offset + size;
    }
    TotalStep(rows, n);
    ok := true;
  }

  /** The scanline walk: it reads filter bytes only, in range, and ends where the data ends. */
  method CheckFilters(raw: Bytes, rows: seq<Rows>) returns (ok: bool, offset: nat)
    requires |raw| == Total(rows) && forall r <- rows :: r.size > 0
    ensures ok <==> FiltersValid(raw, rows)
    ensures ok ==> offset == |raw|
  {
    offset := 0;
    for n := 0 to |rows|
      invariant offset == Total(rows[..n])
      invariant forall m, l | 0 <= m < n && 0 <= l < rows[m].lines :: FilterAt(raw, LineStart(rows, m, l))
    {
      ok, offset := CheckLines(raw, rows, n);
      if !ok {
        return;
      }
    }
    assert rows[..|rows|] == rows;
    ok := true;
  }

  method Scanlines(w: nat, h: nat, bits: nat, passes: seq<Pass>) returns (rows: seq<Rows>, expected: nat)
    requires forall p <- passes :: p.dx > 0 && p.dy > 0
    ensures rows == RowsOf(w, h, bits, passes) && expected == Total(rows)
  {
    rows, expected := [], 0;
    for n := 0 to |passes|
      invariant RowsOf(w, h, bits, passes) == rows + RowsOf(w, h, bits, passes[n..])
      invariant expected == Total(rows)
    {
      var columns, lines := Columns(w, passes[n]), Lines(h, passes[n]);
      if columns > 0 && lines > 0 {
        var row := Rows(lines, LineSize(columns, bits));
        TotalSplit(rows, [row]);
        rows, expected := rows + [row], expected + row.lines * row.size;
      }
    }
  }

  // ---------------------------------------------------------------- the whole check

  function ReadHeader(payload: Bytes): Header
    requires |payload| == 13
  {
    Header(ReadWord(payload, 0), ReadWord(payload, 4), payload[8], payload[9], payload[10], payload[11], payload[12])
  }

  predicate DepthAllowed(color: Byte, depth: Byte) {
    match color
    case 0 => depth in {1, 2, 4, 8, 16}
    case 3 => depth in {1, 2, 4, 8}
    case 2 => depth in {8, 16}
    case 4 => depth in {8, 16}
    case 6 => depth in {8, 16}
    case _ => false
  }

  predicate Supported(h: Header, palette: bool) {
    && 16 <= h.width <= 16384 && 16 <= h.height <= 16384 && DepthAllowed(h.color, h.depth)
    && h.compression == 0 && h.filtering == 0 && h.interlace <= 1 && (h.color == 3 ==> palette)
  }

  function PassesOf(h: Header): (passes: seq<Pass>)
    ensures forall p <- passes :: p.dx > 0 && p.dy > 0
  {
    if h.interlace == 0 then [Pass(0, 0, 1, 1)] else ADAM7
  }

  function RowsFor(h: Header): (rows: seq<Rows>)
    ensures forall r <- rows :: r.lines > 0 && r.size > 0
  {
    RowsOf(h.width, h.height, Channels(h.color) * h.depth, PassesOf(h))
  }

  type Inflater = (Bytes, nat) -> Option<Inflated>

  /** The decoded image has exactly the size the header calls for and valid filter bytes. */
  ghost predicate DecodesTo(inflated: Option<Inflated>, rows: seq<Rows>)
    requires forall r <- rows :: r.size > 0
  {
    match inflated
    case None => false
    case Some(z) => |z.raw| == Total(rows) && z.eof && !z.unused && !z.unconsumed && FiltersValid(z.raw, rows)
  }

  ghost predicate PictureValid(inflate: Inflater, h: Header, palette: bool, compressed: Bytes) {
    var rows := RowsFor(h);
    Supported(h, palette) && Total(rows) <= MAX_RAW && DecodesTo(inflate(compressed, Total(rows) + 1), rows)
  }

  ghost predicate ImageValid(inflate: Inflater, cs: seq<Chunk>)
    requires Grammar(cs)
  {
    PictureValid(inflate, ReadHeader(cs[0].payload), Has(cs, PLTE), Image(cs))
  }

  ghost predicate IsScreenshot(crc: Checksum, inflate: Inflater, data: Bytes, cs: seq<Chunk>) {
    IsPng(crc, data, cs) && ImageValid(inflate, cs)
  }

  method CheckDecoded(inflated: Option<Inflated>, rows: seq<Rows>) returns (error: Option<Error>)
    requires forall r <- rows :: r.size > 0
    ensures error == None <==> DecodesTo(inflated, rows)
  {
    if inflated.None? {
      return Some(InvalidImage);
    }
    var z := inflated.value;
    if |z.raw| != Total(rows) || !z.eof || z.unused || z.unconsumed {
      return Some(InvalidImage);
    }
    var ok, _ := CheckFilters(z.raw, rows);
    return if ok then None else Some(InvalidFilter);
  }

  /** The part after the chunk loop. */
  method CheckPicture(inflate: Inflater, h: Header, palette: bool, compressed: Bytes)
    returns (r: Result<(Word, Word), Error>)
    ensures r.Ok? <==> PictureValid(inflate, h, palette, compressed)
    ensures r.Ok? ==> r.value == (h.width, h.height)
  {
    if !Supported(h, palette) {
      return Err(UnsupportedHeader);
    }
    var rows, expected := Scanlines(h.width, h.height, Channels(h.color) * h.depth, PassesOf(h));
    if expected > MAX_RAW {
      return Err(TooLarge);
    }
    var error := CheckDecoded(inflate(compressed, expected + 1), rows);
    return if error.Some? then Err(error.value) else Ok((h.width, h.height));
  }

  /** A file passes exactly when it is the encoding of a chunk list in the grammar whose image is valid. */
  method PngEvidence(crc: Checksum, inflate: Inflater, data: Bytes) returns (r: Result<(Word, Word), Error>)
    ensures r.Ok? <==> exists cs: seq<Chunk> :: IsScreenshot(crc, inflate, data, cs)
    ensures forall cs: seq<Chunk> :: IsScreenshot(crc, inflate, data, cs) && r.Ok? ==>
              var h := ReadHeader(cs[0].payload); r.value == (h.width, h.height)
  {
    GrammarIsExact(crc, data);
    var st := ReadChunks(crc, data);
    if st.Err? {
      return Err(st.error);
    }
    ghost var cs := AcceptedIsEncoded(crc, data);
    EncodedIsAccepted(crc, data, cs);
    r := CheckPicture(inflate, ReadHeader(st.value.header.value), st.value.palette, st.value.compressed);
    assert r.Ok? ==> IsScreenshot(crc, inflate, data, cs);
  }
}
