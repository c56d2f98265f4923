/**
 The chunk loop of `png_evidence` (artifacts/product-integration/capture_native_audit.py),
 after the PNG Specification (Second Edition), sections 5.3 and 5.6.

 The checksum is a parameter. `Scan` is the loop, with its order flags; `Grammar` says which
 chunk lists are a PNG file without any flag; the two are proved to agree.
 */
module PngChunks {
  import opened ByteStrings
  import opened Outcomes

  type Word = x: int | 0 <= x < 0x1_0000_0000
  type Checksum = Bytes -> Word

  const SIGNATURE: Bytes := [0x89, 0x50, 0x4E, 0x47, 0x0D, 0x0A, 0x1A, 0x0A]
  const IHDR: Bytes := [73, 72, 68, 82]
  const PLTE: Bytes := [80, 76, 84, 69]
  const IDAT: Bytes := [73, 68, 65, 84]
  const IEND: Bytes := [73, 69, 78, 68]

  datatype Chunk = Chunk(kind: Bytes, payload: Bytes)

  datatype Error =
    | NotPng | Truncated | InvalidChunk | ChecksumMismatch | NoHeaderFirst | InvalidHeader | InvalidPalette
    | NoncontiguousImage | InvalidEnd | UnknownCritical | Incomplete | UnsupportedHeader | TooLarge
    | InvalidImage | InvalidFilter

  // ---------------------------------------------------------------- bytes and chunks

  lemma WordRange()
    ensures Pow256(4) == 0x1_0000_0000
  {
    assert Pow256(2) == 65536;
  }

  function ReadWord(data: Bytes, i: nat): (w: Word)
    requires i + 4 <= |data|
    ensures BigEndian(w, 4) == data[i..i + 4]
  {
    WordRange();
    ByteStrings.BytesRoundTrip(data[i..i + 4]);
    FromBigEndian(data[i..i + 4])
  }

  predicate Letters(kind: Bytes) {
    forall i | 0 <= i < |kind| :: 65 <= kind[i] <= 90 || 97 <= kind[i] <= 122
  }

  /** What the encoding can carry: a four-letter kind and a length that fits its field. */
  predicate Encodable(c: Chunk) {
    |c.kind| == 4 && Letters(c.kind) && |c.payload| < 0x1_0000_0000
  }

  function Encode(crc: Checksum, c: Chunk): (b: Bytes)
    requires Encodable(c)
  {
    BigEndian(|c.payload|, 4) + c.kind + c.payload + BigEndian(crc(c.kind + c.payload), 4)
  }

  function EncodeAll(crc: Checksum, cs: seq<Chunk>): Bytes
    requires forall c <- cs :: Encodable(c)
  {
    if cs == [] then [] else Encode(crc, cs[0]) + EncodeAll(crc, cs[1..])
  }

  /** The chunk at `offset` and where it ends, as the loop reads it. */
  function ParseChunk(crc: Checksum, data: Bytes, offset: nat): (r: Result<(Chunk, nat), Error>)
    requires offset <= |data|
    ensures r.Ok? ==> offset + 12 <= r.value.1 <= |data|
  {
    if offset + 12 > |data| then Err(Truncated)
    else
      var length := ReadWord(data, offset);
      var kind := data[offset + 4..offset + 8];
      var end := offset + 12 + length;
      if end > |data| || !Letters(kind) then Err(InvalidChunk)
      else
        var payload := data[offset + 8..end - 4];
        if crc(kind + payload) != ReadWord(data, end - 4) then Err(ChecksumMismatch)
        else Ok((Chunk(kind, payload), end))
  }

  // ---------------------------------------------------------------- the loop

  datatype State = State(
    header: Option<Bytes>, compressed: Bytes, ended: bool, sawIdat: bool, leftIdat: bool, palette: bool)

  const START := State(None, [], false, false, false, false)

  predicate Ancillary(kind: Bytes) {
    |kind| > 0 && kind[0] / 32 % 2 == 1
  }

  /** The loop's order checks on one chunk; `last` says that it ends the file. */
  function Step(st: State, c: Chunk, last: bool): Result<State, Error> {
    if st.header == None && c.kind != IHDR then Err(NoHeaderFirst)
    else
      var next :=
        if c.kind == IHDR then
          if st.header != None || |c.payload| != 13 then Err(InvalidHeader)
          else Ok(st.(header := Some(c.payload)))
        else if c.kind == PLTE then
          if st.palette || st.sawIdat || |c.payload| == 0 || |c.payload| > 768 || |c.payload| % 3 != 0
          then Err(InvalidPalette)
          else Ok(st.(palette := true))
        else if c.kind == IDAT then
          if st.leftIdat then Err(NoncontiguousImage)
          else Ok(st.(compressed := st.compressed + c.payload, sawIdat := true))
        else if c.kind == IEND then
          if |c.payload| > 0 || !last || !st.sawIdat then Err(InvalidEnd)
          else Ok(st.(ended := true))
        else if !Ancillary(c.kind) then Err(UnknownCritical)
        else Ok(st);
      match next
      case Err(e) => Err(e)
      case Ok(st') => Ok(st'.(leftIdat := st'.leftIdat || (st'.sawIdat && c.kind != IDAT)))
  }

  function Scan(crc: Checksum, data: Bytes, offset: nat, st: State): Result<State, Error>
    requires offset <= |data|
    decreases |data| - offset
  {
    if offset == |data| then
      if st.ended && st.header.Some? then Ok(st) else Err(Incomplete)
    else
      match ParseChunk(crc, data, offset)
      case Err(e) => Err(e)
      case Ok((c, end)) =>
        match Step(st, c, end == |data|)
        case Err(e) => Err(e)
        case Ok(st') => Scan(crc, data, end, st')
  }

  /** `offset` only grows, so the loop ends. */
  method ReadChunks(crc: Checksum, data: Bytes) returns (r: Result<State, Error>)
    ensures r == if |data| < 8 || data[..8] != SIGNATURE then Err(NotPng) else Scan(crc, data, 8, START)
  {
    if |data| < 8 || data[..8] != SIGNATURE {
      return Err(NotPng);
    }
    var offset, st := 8, START;
    while offset < |data|
      invariant offset <= |data|
      invariant Scan(crc, data, offset, st) == Scan(crc, data, 8, START)
      decreases |data| - offset
    {
      var parsed := ParseChunk(crc, data, offset);
      if parsed.Err? {
        return Err(parsed.error);
      }
      var next := Step(st, parsed.value.0, parsed.value.1 == |data|);
      if next.Err? {
        return Err(next.error);
      }
      st, offset := next.value, parsed.value.1;
    }
    if !st.ended || st.header.None? {
      return Err(Incomplete);
    }
    return Ok(st);
  }

  // ---------------------------------------------------------------- parsing inverts encoding

  lemma ReadWordAt(data: Bytes, i: nat, w: Word)
    requires i + 4 <= |data| && data[i..i + 4] == BigEndian(w, 4)
    ensures ReadWord(data, i) == w
  {
    WordRange();
    NumberRoundTrip(w, 4);
  }

  /** An encoded chunk is read back, wherever it stands. */
  lemma ParseInvertsEncode(crc: Checksum, data: Bytes, offset: nat, c: Chunk, rest: Bytes)
    requires Encodable(c) && offset <= |data| && data[offset..] == Encode(crc, c) + rest
    ensures ParseChunk(crc, data, offset) == Ok((c, offset + |Encode(crc, c)|))
    ensures data[offset + |Encode(crc, c)|..] == rest
  {
    var n := |c.payload|;
    var s := data[offset..];
    var end := offset + 12 + n;
    assert forall k | 0 <= k < |s| :: s[k] == data[offset + k];
    assert data[offset..offset + 4] == BigEndian(n, 4);
    ReadWordAt(data, offset, n);
    assert data[offset + 4..offset + 8] == c.kind;
    assert data[offset + 8..end - 4] == c.payload;
    assert data[end - 4..end] == BigEndian(crc(c.kind + c.payload), 4);
    ReadWordAt(data, end - 4, crc(c.kind + c.payload));
    assert data[end..] == s[12 + n..] == rest;
  }

  /** And whatever is read is an encoded chunk. */
  lemma EncodeInvertsParse(crc: Checksum, data: Bytes, offset: nat)
    requires offset <= |data| && ParseChunk(crc, data, offset).Ok?
    ensures var (c, end) := ParseChunk(crc, data, offset).value;
      Encodable(c) && data[offset..end] == Encode(crc, c)
  {
    var (c, end) := ParseChunk(crc, data, offset).value;
    assert data[offset..end] == data[offset..offset + 4] + data[offset + 4..offset + 8]
      + data[offset + 8..end - 4] + data[end - 4..end];
  }

  /** Two chunk lists with one encoding are one list. */
  lemma {:induction false} EncodingIsInjective(crc: Checksum, a: seq<Chunk>, b: seq<Chunk>)
    requires (forall c <- a :: Encodable(c)) && (forall c <- b :: Encodable(c))
    requires EncodeAll(crc, a) == EncodeAll(crc, b)
    ensures a == b
  {
    var data := EncodeAll(crc, a);
    if a != [] && b != [] {
      ParseInvertsEncode(crc, data, 0, a[0], EncodeAll(crc, a[1..]));
      ParseInvertsEncode(crc, data, 0, b[0], EncodeAll(crc, b[1..]));
      EncodingIsInjective(crc, a[1..], b[1..]);
      assert a == [a[0]] + a[1..] && b == [b[0]] + b[1..];
    }
  }

  /** The loop over a list of chunks instead of bytes. */
  function Fold(st: State, cs: seq<Chunk>): Result<State, Error>
    decreases |cs|
  {
    if cs == [] then
      if st.ended && st.header.Some? then Ok(st) else Err(Incomplete)
    else
      match Step(st, cs[0], |cs| == 1)
      case Err(e) => Err(e)
      case Ok(st') => Fold(st', cs[1..])
  }

  lemma FirstChunk(crc: Checksum, data: Bytes, offset: nat, cs: seq<Chunk>) returns (end: nat)
    requires cs != [] && (forall c <- cs :: Encodable(c)) && offset <= |data| && data[offset..] == EncodeAll(crc, cs)
    ensures ParseChunk(crc, data, offset) == Ok((cs[0], end))
    ensures data[end..] == EncodeAll(crc, cs[1..]) && (|cs| == 1 <==> end == |data|)
  {
    end := offset + |Encode(crc, cs[0])|;
    ParseInvertsEncode(crc, data, offset, cs[0], EncodeAll(crc, cs[1..]));
    assert |data[end..]| == |EncodeAll(crc, cs[1..])|;
  }

  lemma OneMoreChunk(crc: Checksum, data: Bytes, offset: nat, end: nat, c: Chunk, rest: seq<Chunk>)
    requires offset <= end <= |data| && Encodable(c) && data[offset..end] == Encode(crc, c)
    requires (forall c <- rest :: Encodable(c)) && data[end..] == EncodeAll(crc, rest)
    ensures (forall d <- [c] + rest :: Encodable(d)) && data[offset..] == EncodeAll(crc, [c] + rest)
  {
    assert ([c] + rest)[1..] == rest;
    assert data[offset..] == data[offset..end] + data[end..];
  }

  /** On encoded chunks the loop checks exactly those chunks. */
  lemma {:induction false} ScanIsFold(crc: Checksum, data: Bytes, offset: nat, st: State, cs: seq<Chunk>)
    requires (forall c <- cs :: Encodable(c)) && offset <= |data| && data[offset..] == EncodeAll(crc, cs)
    ensures Scan(crc, data, offset, st) == Fold(st, cs)
    decreases |cs|
  {
    if cs != [] {
      var end := FirstChunk(crc, data, offset, cs);
      var next := Step(st, cs[0], |cs| == 1);
      if next.Ok? {
        ScanIsFold(crc, data, end, next.value, cs[1..]);
      }
    } else {
      assert offset == |data|;
    }
  }

  /** What the loop accepts is a list of encoded chunks. */
  lemma {:induction false} ScanReadsChunks(crc: Checksum, data: Bytes, offset: nat, st: State) returns (cs: seq<Chunk>)
    requires offset <= |data| && Scan(crc, data, offset, st).Ok?
    ensures (forall c <- cs :: Encodable(c)) && data[offset..] == EncodeAll(crc, cs)
    decreases |data| - offset
  {
    if offset == |data| {
      cs := [];
    } else {
      var (c, end) := ParseChunk(crc, data, offset).value;
      EncodeInvertsParse(crc, data, offset);
      cs := ScanReadsChunks(crc, data, end, Step(st, c, end == |data|).value);
      OneMoreChunk(crc, data, offset, end, c, cs);
      cs := [c] + cs;
    }
  }

  // ---------------------------------------------------------------- the grammar

  ghost predicate Has(cs: seq<Chunk>, kind: Bytes) {
    exists i | 0 <= i < |cs| :: cs[i].kind == kind
  }

  /** The image data was interrupted. */
  ghost predicate LeftImage(cs: seq<Chunk>) {
    exists i, j | 0 <= i < j < |cs| :: cs[i].kind == IDAT && cs[j].kind != IDAT
  }

  /** The image data of all chunks. */
  function Image(cs: seq<Chunk>): Bytes {
    if cs == [] then []
    else Image(cs[..|cs| - 1]) + if cs[|cs| - 1].kind == IDAT then cs[|cs| - 1].payload else []
  }

  /** The chunk orders of a PNG file: nothing here is a flag of the loop. */
  ghost predicate Grammar(cs: seq<Chunk>) {
    && cs != []
    && (forall i | 0 <= i < |cs| :: cs[i].kind == IHDR <==> i == 0)
    && |cs[0].payload| == 13
    && (forall i | 0 <= i < |cs| :: cs[i].kind == IEND <==> i == |cs| - 1)
    && cs[|cs| - 1].payload == []
    && Has(cs, IDAT)
    && (forall i, j, k | 0 <= i < j < k < |cs| :: cs[i].kind == IDAT && cs[k].kind == IDAT ==> cs[j].kind == IDAT)
    && (forall i, j | 0 <= i < j < |cs| :: cs[j].kind == PLTE ==> cs[i].kind != PLTE && cs[i].kind != IDAT)
    && (forall i | 0 <= i < |cs| && cs[i].kind == PLTE :: 1 <= |cs[i].payload| <= 768 && |cs[i].payload| % 3 == 0)
    && (forall i | 0 <= i < |cs| :: cs[i].kind in {IHDR, PLTE, IDAT, IEND} || Ancillary(cs[i].kind))
  }

  /** What the loop requires of a chunk that comes after `done`. */
  ghost predicate Fits(done: seq<Chunk>, c: Chunk, last: bool) {
    && (c.kind == IHDR <==> done == [])
    && (c.kind == IHDR ==> |c.payload| == 13)
    && (c.kind == PLTE ==> !Has(done, PLTE) && !Has(done, IDAT) && 1 <= |c.payload| <= 768 && |c.payload| % 3 == 0)
    && (c.kind == IDAT ==> !LeftImage(done))
    && (c.kind == IEND ==> c.payload == [] && last && Has(done, IDAT))
    && (c.kind in {IHDR, PLTE, IDAT, IEND} || Ancillary(c.kind))
  }

  /** The flags say what they stand for. */
  ghost predicate Describes(st: State, done: seq<Chunk>) {
    && st.header == (if done == [] then None else Some(done[0].payload))
    && st.compressed == Image(done)
    && (st.sawIdat <==> Has(done, IDAT)) && (st.palette <==> Has(done, PLTE)) && (st.ended <==> Has(done, IEND))
    && (st.leftIdat <==> LeftImage(done))
  }

  lemma HasGrows(done: seq<Chunk>, c: Chunk, kind: Bytes)
    ensures Has(done + [c], kind) <==> Has(done, kind) || c.kind == kind
  {
    var more := done + [c];
    if Has(done, kind) {
      var i :| 0 <= i < |done| && done[i].kind == kind;
      assert more[i].kind == kind;
    }
    assert more[|done|] == c;
  }

  lemma LeftGrows(done: seq<Chunk>, c: Chunk)
    ensures LeftImage(done + [c]) <==> LeftImage(done) || (Has(done, IDAT) && c.kind != IDAT)
  {
    var more := done + [c];
    if LeftImage(done) {
      var i, j :| 0 <= i < j < |done| && done[i].kind == IDAT && done[j].kind != IDAT;
      assert more[i].kind == IDAT && more[j].kind != IDAT;
    }
    if Has(done, IDAT) && c.kind != IDAT {
      var i :| 0 <= i < |done| && done[i].kind == IDAT;
      assert more[i].kind == IDAT && more[|done|].kind != IDAT;
    }
    if LeftImage(more) {
      var i, j :| 0 <= i < j < |more| && more[i].kind == IDAT && more[j].kind != IDAT;
      assert done[i].kind == IDAT;
    }
  }

  lemma StepFits(st: State, done: seq<Chunk>, c: Chunk, last: bool)
    requires Describes(st, done)
    ensures Step(st, c, last).Ok? <==> Fits(done, c, last)
    ensures Step(st, c, last).Ok? ==> Describes(Step(st, c, last).value, done + [c])
  {
    HasGrows(done, c, IDAT);
    HasGrows(done, c, PLTE);
    HasGrows(done, c, IEND);
    LeftGrows(done, c);
    assert (done + [c])[..|done|] == done;
  }

  ghost predicate FitsAt(cs: seq<Chunk>, k: nat)
    requires k < |cs|
  {
    Fits(cs[..k], cs[k], k == |cs| - 1)
  }

  /** The loop accepts the chunks from `n` on when each fits what came before it. */
  lemma {:induction false} FoldFits(st: State, cs: seq<Chunk>, n: nat)
    requires n <= |cs| && Describes(st, cs[..n])
    ensures Fold(st, cs[n..]).Ok? <==> (forall k | n <= k < |cs| :: FitsAt(cs, k)) && cs != [] && Has(cs, IEND)
    ensures Fold(st, cs[n..]).Ok? ==> Describes(Fold(st, cs[n..]).value, cs)
    decreases |cs| - n
  {
    if n == |cs| {
      assert cs[..n] == cs;
    } else {
      StepFits(st, cs[..n], cs[n], n == |cs| - 1);
      var next := Step(st, cs[n], n == |cs| - 1);
      assert next.Ok? <==> FitsAt(cs, n);
      assert cs[n..][1..] == cs[n + 1..] && cs[n..][0] == cs[n];
      if next.Ok? {
        assert cs[..n + 1] == cs[..n] + [cs[n]];
        FoldFits(next.value, cs, n + 1);
      }
    }
  }

  lemma GrammarFits(cs: seq<Chunk>)
    requires Grammar(cs)
    ensures Has(cs, IEND) && forall k | 0 <= k < |cs| :: FitsAt(cs, k)
  {
    assert cs[|cs| - 1].kind == IEND;
    forall k | 0 <= k < |cs| ensures FitsAt(cs, k) {
      var done := cs[..k];
      assert forall i | 0 <= i < k :: done[i] == cs[i];
      if cs[k].kind == IEND {
        var i :| 0 <= i < |cs| && cs[i].kind == IDAT;
        assert done[i].kind == IDAT;
      }
    }
  }

  lemma FitsAreGrammar(cs: seq<Chunk>)
    requires cs != [] && Has(cs, IEND) && forall k | 0 <= k < |cs| :: FitsAt(cs, k)
    ensures Grammar(cs)
  {
    assert FitsAt(cs, 0);
    forall i | 0 <= i < |cs|
      ensures cs[i].kind == IHDR <==> i == 0
      ensures cs[i].kind == IEND ==> i == |cs| - 1 && cs[i].payload == [] && Has(cs, IDAT)
      ensures cs[i].kind == PLTE ==> 1 <= |cs[i].payload| <= 768 && |cs[i].payload| % 3 == 0
      ensures cs[i].kind in {IHDR, PLTE, IDAT, IEND} || Ancillary(cs[i].kind)
    {
      assert FitsAt(cs, i);
      if cs[i].kind == IEND {
        var d :| 0 <= d < i && cs[..i][d].kind == IDAT;
        assert cs[d].kind == IDAT;
      }
    }
    forall i, j, k | 0 <= i < j < k < |cs| && cs[i].kind == IDAT && cs[k].kind == IDAT ensures cs[j].kind == IDAT {
      assert FitsAt(cs, k);
      assert cs[..k][i] == cs[i] && cs[..k][j] == cs[j];
    }
    forall i, j | 0 <= i < j < |cs| && cs[j].kind == PLTE ensures cs[i].kind != PLTE && cs[i].kind != IDAT {
      assert FitsAt(cs, j);
      assert cs[..j][i] == cs[i];
    }
  }

  /** Bytes the loop accepts are exactly the signature and the encoding of a list in the grammar. */
  ghost predicate IsPng(crc: Checksum, data: Bytes, cs: seq<Chunk>) {
    (forall c <- cs :: Encodable(c)) && data == SIGNATURE + EncodeAll(crc, cs) && Grammar(cs)
  }

  predicate Accepts(crc: Checksum, data: Bytes) {
    |data| >= 8 && data[..8] == SIGNATURE && Scan(crc, data, 8, START).Ok?
  }

  /** An encoded list in the grammar is accepted, with its header, palette and image data. */
  lemma EncodedIsAccepted(crc: Checksum, data: Bytes, cs: seq<Chunk>)
    requires IsPng(crc, data, cs)
    ensures Accepts(crc, data) && Describes(Scan(crc, data, 8, START).value, cs)
  {
    assert data[..8] == SIGNATURE && data[8..] == EncodeAll(crc, cs);
    ScanIsFold(crc, data, 8, START, cs);
    GrammarFits(cs);
    assert cs[0..] == cs && Describes(START, cs[..0]);
    FoldFits(START, cs, 0);
  }

  /** And nothing else is accepted. */
  lemma AcceptedIsEncoded(crc: Checksum, data: Bytes) returns (cs: seq<Chunk>)
    requires Accepts(crc, data)
    ensures IsPng(crc, data, cs)
  {
    cs := ScanReadsChunks(crc, data, 8, START);
    assert data == data[..8] + data[8..];
    ScanIsFold(crc, data, 8, START, cs);
    assert cs[0..] == cs && Describes(START, cs[..0]);
    FoldFits(START, cs, 0);
    FitsAreGrammar(cs);
  }

  /** The accepted language, exactly; and a file has one reading. */
  lemma GrammarIsExact(crc: Checksum, data: Bytes)
    ensures Accepts(crc, data) <==> exists cs: seq<Chunk> :: IsPng(crc, data, cs)
    ensures forall a: seq<Chunk>, b: seq<Chunk> :: IsPng(crc, data, a) && IsPng(crc, data, b) ==> a == b
  {
    if Accepts(crc, data) {
      var cs := AcceptedIsEncoded(crc, data);
      assert IsPng(crc, data, cs);
    }
    forall cs: seq<Chunk> | IsPng(crc, data, cs) ensures Accepts(crc, data) {
      EncodedIsAccepted(crc, data, cs);
    }
    forall a: seq<Chunk>, b: seq<Chunk> | IsPng(crc, data, a) && IsPng(crc, data, b) ensures a == b {
      assert data[8..] == EncodeAll(crc, a) == EncodeAll(crc, b);
      EncodingIsInjective(crc, a, b);
    }
  }
}
