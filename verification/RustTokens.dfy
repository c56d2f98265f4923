/**
 What `rust_code_projection` masks (artifacts/cloud-agent/cloud_agent.py), said without the
 scanner: where a comment or literal stands and how far it goes. A text is a list of pieces,
 each a code character, a comment or a literal, and the projection blanks exactly the latter.
 */
module RustTokens {
  import opened Outcomes
  import opened RustProjection

  // ---------------------------------------------------------------- comments and literals

  /** A character of a literal: a backslash takes the next character with it. */
  datatype Unit = Plain(c: char) | Escaped(c: char)

  function UnitText(u: Unit): string {
    match u
    case Plain(c) => [c]
    case Escaped(c) => ['\\', c]
  }

  function UnitsText(units: seq<Unit>): string {
    if units == [] then [] else UnitText(units[0]) + UnitsText(units[1..])
  }

  predicate UnitsOk(units: seq<Unit>, quote: char) {
    forall u <- units :: u.Plain? ==> u.c != '\\' && u.c != quote
  }

  /** A line comment from `i` to just before the end of its line. */
  predicate LineCommentAt(s: string, i: nat, e: nat) {
    && Pair(s, i, '/', '/') && i + 2 <= e <= |s|
    && (forall k | i + 2 <= k < e :: s[k] != '\n') && (e == |s| || s[e] == '\n')
  }

  /** A block comment: an opening and one nested body, which ends with the closing. */
  ghost predicate NestedCommentAt(s: string, i: nat, e: nat) {
    Pair(s, i, '/', '*') && exists b: Body :: Proper(b) && At(s, i + 2, Render(b)) && e == i + 2 + |Render(b)|
  }

  /** A block comment that is never closed goes to the end of the text. */
  ghost predicate OpenCommentAt(s: string, i: nat, e: nat) {
    Pair(s, i, '/', '*') && e == |s| && forall b: Body | Proper(b) :: !At(s, i + 2, Render(b))
  }

  /** `r` or `br`, at most 255 hashes and a quote; the text of the raw string begins at `from`. */
  predicate RawPrefixAt(s: string, i: nat, byte: bool, hashes: nat, from: nat) {
    var start := if byte then i + 2 else i + 1;
    && (if byte then Pair(s, i, 'b', 'r') else i < |s| && s[i] == 'r')
    && hashes <= MAX_HASHES && from == start + hashes + 1 <= |s| && s[from - 1] == '"'
    && forall k | start <= k < start + hashes :: s[k] == '#'
  }

  ghost predicate FreeOfClosing(s: string, from: nat, to: nat, hashes: nat) {
    forall k: nat | from <= k < to :: !Closes(s, k, hashes)
  }

  /** A raw string ends with its first quote that has as many hashes. */
  ghost predicate RawStringAt(s: string, i: nat, e: nat) {
    exists byte, hashes: nat, from: nat, q: nat ::
      && RawPrefixAt(s, i, byte, hashes, from) && from <= q
      && FreeOfClosing(s, from, q, hashes) && Closes(s, q, hashes) && e == q + 1 + hashes
  }

  ghost predicate OpenRawAt(s: string, i: nat, e: nat) {
    e == |s| && exists byte, hashes: nat, from: nat ::
      RawPrefixAt(s, i, byte, hashes, from) && FreeOfClosing(s, from, |s|, hashes)
  }

  /** A quote or `b` and a quote; the text of the string begins at `from`. */
  predicate QuoteAt(s: string, i: nat, from: nat) {
    || (i < |s| && s[i] == '"' && from == i + 1)
    || (Pair(s, i, 'b', '"') && from == i + 2)
  }

  /** A string ends with its first quote that no backslash takes. */
  ghost predicate StringAt(s: string, i: nat, e: nat) {
    exists from: nat, units ::
      && QuoteAt(s, i, from) && UnitsOk(units, '"') && At(s, from, UnitsText(units))
      && e == from + |UnitsText(units)| + 1 && e <= |s| && s[e - 1] == '"'
  }

  /** Or, without one, at the end of the text, which may be a backslash with nothing behind it. */
  ghost predicate OpenStringAt(s: string, i: nat, e: nat) {
    e == |s| && exists from: nat, units :: QuoteAt(s, i, from) && UnitsToEnd(s, from, units)
  }

  ghost predicate UnitsToEnd(s: string, from: nat, units: seq<Unit>) {
    var c := from + |UnitsText(units)|;
    UnitsOk(units, '"') && At(s, from, UnitsText(units)) && (c == |s| || (c + 1 == |s| && s[c] == '\\'))
  }

  /** A character literal is closed within its window and line; otherwise the quote is a lifetime. */
  ghost predicate CharAt(s: string, i: nat, e: nat) {
    i < |s| && s[i] == '\'' && exists units ::
      && UnitsOk(units, '\'') && '\n' !in UnitsText(units) && At(s, i + 1, UnitsText(units))
      && e == i + |UnitsText(units)| + 2 && e <= |s| && e <= i + WINDOW && s[e - 1] == '\''
  }

  /** One comment or literal, from `i` to just before `e`. */
  ghost predicate MaskedAt(s: string, i: nat, e: nat) {
    || LineCommentAt(s, i, e) || NestedCommentAt(s, i, e) || OpenCommentAt(s, i, e)
    || RawStringAt(s, i, e) || OpenRawAt(s, i, e)
    || StringAt(s, i, e) || OpenStringAt(s, i, e) || CharAt(s, i, e)
  }

  // ---------------------------------------------------------------- literals with escapes

  lemma UnitsAt(s: string, i: nat, units: seq<Unit>)
    requires units != [] && At(s, i, UnitsText(units))
    ensures At(s, i, UnitText(units[0])) && At(s, i + |UnitText(units[0])|, UnitsText(units[1..]))
  {
    assert UnitsText(units) == UnitText(units[0]) + UnitsText(units[1..]);
    AtConcat(s, i, UnitText(units[0]), UnitsText(units[1..]));
  }

  lemma UnitAt(s: string, i: nat, u: Unit)
    ensures At(s, i, UnitText(u)) <==>
              match u case Plain(c) => i < |s| && s[i] == c case Escaped(c) => Pair(s, i, '\\', c)
  {
    if u.Escaped? {
      AtPair(s, i, '\\', u.c);
    } else {
      assert UnitText(u)[0] == u.c;
    }
  }

  lemma {:induction false} StringSkips(s: string, i: nat, units: seq<Unit>)
    requires UnitsOk(units, '"') && At(s, i, UnitsText(units))
    ensures i + |UnitsText(units)| <= |s| && StringEnd(s, i, false) == StringEnd(s, i + |UnitsText(units)|, false)
    decreases |units|
  {
    if units != [] {
      UnitsAt(s, i, units);
      UnitAt(s, i, units[0]);
      assert units[0] in units;
      StringSkips(s, i + |UnitText(units[0])|, units[1..]);
    }
  }

  lemma {:induction false} CharSkips(s: string, i: nat, limit: nat, units: seq<Unit>)
    requires UnitsOk(units, '\'') && At(s, i, UnitsText(units)) && '\n' !in UnitsText(units)
    requires i + |UnitsText(units)| <= limit <= |s|
    ensures CharEnd(s, i, limit, false) == CharEnd(s, i + |UnitsText(units)|, limit, false)
    decreases |units|
  {
    if units != [] {
      UnitsAt(s, i, units);
      UnitAt(s, i, units[0]);
      assert units[0] in units;
      var text := UnitText(units[0]);
      assert UnitsText(units) == text + UnitsText(units[1..]);
      assert forall c <- text :: c in UnitsText(units);
      assert s[i] == text[0];
      if units[0].Escaped? {
        assert s[i + 1] == text[1];
      }
      CharSkips(s, i + |text|, limit, units[1..]);
    }
  }

  lemma UnitsLonger(s: string, i: nat, u: Unit, units: seq<Unit>)
    requires At(s, i, UnitText(u)) && At(s, i + |UnitText(u)|, UnitsText(units))
    ensures At(s, i, UnitsText([u] + units)) && |UnitsText([u] + units)| == |UnitText(u)| + |UnitsText(units)|
  {
    assert ([u] + units)[1..] == units;
    AtConcat(s, i, UnitText(u), UnitsText(units));
  }

  /** What a string's scan passes over from `i`: its units, then the quote, or the end of the text. */
  ghost predicate StringSplit(s: string, i: nat, e: nat, units: seq<Unit>) {
    var c := i + |UnitsText(units)|;
    if e == c + 1 && c < |s| && s[c] == '"' then UnitsOk(units, '"') && At(s, i, UnitsText(units))
    else e == |s| && UnitsToEnd(s, i, units)
  }

  lemma SplitLonger(s: string, i: nat, e: nat, u: Unit, units: seq<Unit>)
    requires At(s, i, UnitText(u)) && (u.Plain? ==> u.c != '\\' && u.c != '"')
    requires StringSplit(s, i + |UnitText(u)|, e, units)
    ensures StringSplit(s, i, e, [u] + units)
  {
    UnitsLonger(s, i, u, units);
  }

  lemma StringStep(s: string, i: nat, u: Unit)
    requires i < |s| && s[i] != '"' && (s[i] == '\\' ==> i + 1 < |s|)
    requires u == if s[i] == '\\' then Escaped(s[i + 1]) else Plain(s[i])
    ensures At(s, i, UnitText(u)) && i + |UnitText(u)| <= |s|
    ensures StringEnd(s, i, false) == StringEnd(s, i + |UnitText(u)|, false)
  {
    UnitAt(s, i, u);
  }

  lemma {:induction false} StringUnits(s: string, i: nat) returns (units: seq<Unit>)
    requires i <= |s|
    ensures StringSplit(s, i, StringEnd(s, i, false), units)
    decreases |s| - i
  {
    units := [];
    if i < |s| && s[i] != '"' && !(s[i] == '\\' && i + 1 == |s|) {
      var u := if s[i] == '\\' then Escaped(s[i + 1]) else Plain(s[i]);
      StringStep(s, i, u);
      units := StringUnits(s, i + |UnitText(u)|);
      SplitLonger(s, i, StringEnd(s, i, false), u, units);
      units := [u] + units;
    }
  }

  lemma {:induction false} CharUnits(s: string, i: nat, limit: nat) returns (units: seq<Unit>)
    requires limit <= |s| && CharEnd(s, i, limit, false).Some?
    ensures UnitsOk(units, '\'') && At(s, i, UnitsText(units)) && '\n' !in UnitsText(units)
    ensures CharEnd(s, i, limit, false) == Some(i + |UnitsText(units)|)
    decreases limit - i
  {
    units := [];
    if s[i] != '\'' {
      var u := if s[i] == '\\' then Escaped(s[i + 1]) else Plain(s[i]);
      units := CharUnits(s, i + |UnitText(u)|, limit);
      UnitAt(s, i, u);
      UnitsLonger(s, i, u, units);
      assert UnitsText([u] + units) == UnitText(u) + UnitsText(units) by { assert ([u] + units)[1..] == units; }
      units := [u] + units;
    }
  }

  // ---------------------------------------------------------------- each is what the scanner finds

  lemma LineExact(s: string, i: nat, e: nat)
    requires Pair(s, i, '/', '/')
    ensures LineEnd(s, i + 2) == e <==> LineCommentAt(s, i, e)
  {
  }

  lemma CommentExact(s: string, i: nat, e: nat)
    requires Pair(s, i, '/', '*')
    ensures BlockEnd(s, i + 2, 1) == e <==> NestedCommentAt(s, i, e) || OpenCommentAt(s, i, e)
  {
    var close := BlockClose(s, i + 2, 1);
    CommentIsNested(s, i, e);
    if close.Some? {
      CommentIsNested(s, i, close.value);
    }
    forall b: Body | Proper(b) ensures At(s, i + 2, Render(b)) ==> close == Some(i + 2 + |Render(b)|) {
      if At(s, i + 2, Render(b)) {
        BodySkipped(s, i + 2, b, 0);
      }
    }
  }

  /** A raw string opens exactly where its prefix stands. */
  lemma RawOpens(s: string, i: nat, byte: bool, hashes: nat, from: nat)
    requires i < |s|
    ensures RawPrefixAt(s, i, byte, hashes, from) <==>
              RawOpen(s, i) == Some((hashes, from)) && (byte <==> s[i] == 'b')
  {
    var start := if byte then i + 2 else i + 1;
    if RawPrefixAt(s, i, byte, hashes, from) {
      assert HashRun(s, start) == hashes;
    }
  }

  lemma {:induction false} FirstClosing(s: string, from: nat, to: nat, hashes: nat)
    requires from <= to <= |s| && FreeOfClosing(s, from, to, hashes)
    requires Closes(s, to, hashes) || to == |s|
    ensures RawEnd(s, from, hashes) == (if to == |s| then to else to + 1 + hashes)
    decreases |s| - from
  {
    if from < to {
      assert !Closes(s, from, hashes);
      FirstClosing(s, from + 1, to, hashes);
    }
  }

  lemma RawExact(s: string, i: nat, e: nat)
    requires i < |s| && RawOpen(s, i).Some?
    ensures var (hashes, from) := RawOpen(s, i).value;
      RawEnd(s, from, hashes) == e <==> RawStringAt(s, i, e) || OpenRawAt(s, i, e)
  {
    var (hashes, from) := RawOpen(s, i).value;
    RawOpens(s, i, s[i] == 'b', hashes, from);
    if RawEnd(s, from, hashes) == e {
      RawSplits(s, i, s[i] == 'b', hashes, from);
    }
    if RawStringAt(s, i, e) {
      var byte, h: nat, f: nat, q: nat :|
        && RawPrefixAt(s, i, byte, h, f) && f <= q
        && FreeOfClosing(s, f, q, h) && Closes(s, q, h) && e == q + 1 + h;
      RawOpens(s, i, byte, h, f);
      FirstClosing(s, f, q, h);
    }
    if OpenRawAt(s, i, e) {
      var byte, h: nat, f: nat :| RawPrefixAt(s, i, byte, h, f) && FreeOfClosing(s, f, |s|, h);
      RawOpens(s, i, byte, h, f);
      FirstClosing(s, f, |s|, h);
    }
  }

  lemma RawSplits(s: string, i: nat, byte: bool, hashes: nat, from: nat)
    requires RawPrefixAt(s, i, byte, hashes, from)
    ensures var e := RawEnd(s, from, hashes); RawStringAt(s, i, e) || OpenRawAt(s, i, e)
  {
    var e := RawEnd(s, from, hashes);
    var q := e - 1 - hashes;
    if q >= from && Closes(s, q, hashes) {
      assert FreeOfClosing(s, from, q, hashes);
      assert RawStringAt(s, i, e);
    } else {
      assert FreeOfClosing(s, from, |s|, hashes);
      assert OpenRawAt(s, i, e);
    }
  }

  lemma StringIsFound(s: string, i: nat, from: nat)
    requires QuoteAt(s, i, from)
    ensures var e := StringEnd(s, from, false); StringAt(s, i, e) || OpenStringAt(s, i, e)
  {
    var units := StringUnits(s, from);
    var e, c := StringEnd(s, from, false), from + |UnitsText(units)|;
    if e == c + 1 && c < |s| && s[c] == '"' {
      assert StringAt(s, i, e);
    } else {
      assert OpenStringAt(s, i, e);
    }
  }

  lemma ClosedIsScanned(s: string, i: nat, from: nat, e: nat)
    requires QuoteAt(s, i, from) && StringAt(s, i, e)
    ensures StringEnd(s, from, false) == e
  {
    var f: nat, units :|
      && QuoteAt(s, i, f) && UnitsOk(units, '"') && At(s, f, UnitsText(units))
      && e == f + |UnitsText(units)| + 1 && e <= |s| && s[e - 1] == '"';
    StringSkips(s, from, units);
  }

  lemma EndIsScanned(s: string, from: nat, units: seq<Unit>)
    requires UnitsToEnd(s, from, units)
    ensures StringEnd(s, from, false) == |s|
  {
    StringSkips(s, from, units);
  }

  lemma StringExact(s: string, i: nat, from: nat, e: nat)
    requires QuoteAt(s, i, from)
    ensures StringEnd(s, from, false) == e <==> StringAt(s, i, e) || OpenStringAt(s, i, e)
  {
    StringIsFound(s, i, from);
    if StringAt(s, i, e) {
      ClosedIsScanned(s, i, from, e);
    }
    if OpenStringAt(s, i, e) {
      var f: nat, units :| QuoteAt(s, i, f) && UnitsToEnd(s, f, units);
      EndIsScanned(s, from, units);
    }
  }

  lemma CharExact(s: string, i: nat, e: nat)
    requires i < |s| && s[i] == '\''
    ensures CharEnd(s, i + 1, Min(|s|, i + WINDOW), false) == Some(e - 1) <==> CharAt(s, i, e)
  {
    var limit := Min(|s|, i + WINDOW);
    if CharEnd(s, i + 1, limit, false) == Some(e - 1) {
      var units := CharUnits(s, i + 1, limit);
    }
    if CharAt(s, i, e) {
      var units :|
        && UnitsOk(units, '\'') && '\n' !in UnitsText(units) && At(s, i + 1, UnitsText(units))
        && e == i + |UnitsText(units)| + 2 && e <= |s| && e <= i + WINDOW && s[e - 1] == '\'';
      CharSkips(s, i + 1, limit, units);
    }
  }

  /** The scanner masks from `i` to `e` exactly when one comment or literal stands there, with this extent. */
  lemma MaskIsToken(s: string, i: nat, e: nat)
    requires i < |s|
    ensures MaskEnd(s, i) == Some(e) <==> MaskedAt(s, i, e)
  {
    RawPrefixes(s, i);
    if Pair(s, i, '/', '/') {
      LineExact(s, i, e);
    } else if Pair(s, i, '/', '*') {
      CommentExact(s, i, e);
    } else if RawOpen(s, i).Some? {
      RawExact(s, i, e);
    } else if Pair(s, i, 'b', '"') {
      StringExact(s, i, i + 2, e);
    } else if s[i] == '"' {
      StringExact(s, i, i + 1, e);
    } else if s[i] == '\'' {
      CharExact(s, i, e);
    }
  }

  lemma RawPrefixes(s: string, i: nat)
    requires i < |s|
    ensures RawOpen(s, i).None? ==> forall byte, hashes: nat, from: nat :: !RawPrefixAt(s, i, byte, hashes, from)
  {
    forall byte, hashes: nat, from: nat ensures RawPrefixAt(s, i, byte, hashes, from) ==> RawOpen(s, i).Some? {
      RawOpens(s, i, byte, hashes, from);
    }
  }

  // ---------------------------------------------------------------- token lists

  /** No comment or literal begins at `i`. */
  ghost predicate CodeAt(s: string, i: nat) {
    i < |s| && forall e: nat :: !MaskedAt(s, i, e)
  }

  /** A code character, or the text of one comment or literal. */
  datatype Piece = Piece(text: string, masked: bool)

  /** The piece stands at `i`; code is where no comment or literal begins. */
  ghost predicate PieceAt(s: string, i: nat, p: Piece) {
    var e := i + |p.text|;
    && e <= |s| && s[i..e] == p.text
    && if p.masked then MaskedAt(s, i, e) else e == i + 1 && CodeAt(s, i)
  }

  /** The pieces stand one after the other from `i` to `end`, as `stands` says of each. */
  ghost predicate Chain(stands: (nat, Piece) -> bool, i: nat, end: nat, pieces: seq<Piece>)
    decreases |pieces|
  {
    if pieces == [] then i == end
    else stands(i, pieces[0]) && Chain(stands, i + |pieces[0].text|, end, pieces[1..])
  }

  /** The text is these pieces. */
  ghost predicate PiecesOf(s: string, pieces: seq<Piece>) {
    Chain((k: nat, p: Piece) => PieceAt(s, k, p), 0, |s|, pieces)
  }

  function TextOf(pieces: seq<Piece>): string {
    if pieces == [] then [] else pieces[0].text + TextOf(pieces[1..])
  }

  /** The same text with the comments and literals blanked. */
  function Blanked(pieces: seq<Piece>): string {
    if pieces == [] then []
    else (if pieces[0].masked then Blank(pieces[0].text) else pieces[0].text) + Blanked(pieces[1..])
  }

  lemma CodeIsKept(s: string, i: nat)
    requires i < |s|
    ensures CodeAt(s, i) <==> MaskEnd(s, i) == None
  {
    forall e: nat ensures MaskEnd(s, i) == Some(e) <==> MaskedAt(s, i, e) {
      MaskIsToken(s, i, e);
    }
  }

  /** The projection with the masks that `ends` gives. */
  function ProjectBy(s: string, ends: nat -> Option<nat>, i: nat): string
    requires i <= |s|
    decreases |s| - i
  {
    if i == |s| then []
    else
      match ends(i)
      case Some(e) => if i < e <= |s| then Blank(s[i..e]) + ProjectBy(s, ends, e) else []
      case None => [s[i]] + ProjectBy(s, ends, i + 1)
  }

  lemma {:induction false} ProjectIsBy(s: string, ends: nat -> Option<nat>, i: nat)
    requires i <= |s| && forall k: nat | k < |s| :: ends(k) == MaskEnd(s, k)
    ensures Project(s, i) == ProjectBy(s, ends, i)
    decreases |s| - i
  {
    if i < |s| {
      match MaskEnd(s, i)
      case Some(e) => ProjectIsBy(s, ends, e);
      case None => ProjectIsBy(s, ends, i + 1);
    }
  }

  /** A piece, as those masks have it. */
  ghost predicate Scanned(s: string, ends: nat -> Option<nat>, i: nat, p: Piece) {
    var e := i + |p.text|;
    && i < e <= |s| && s[i..e] == p.text
    && ends(i) == (if p.masked then Some(e) else None)
    && (!p.masked ==> e == i + 1)
  }

  lemma SuffixIs(s: string, i: nat, e: nat)
    requires i <= e <= |s|
    ensures s[i..] == s[i..e] + s[e..]
    ensures e == i + 1 ==> s[i..e] == [s[i]]
  {
  }

  lemma ByMask(s: string, ends: nat -> Option<nat>, i: nat, e: nat)
    requires i < e <= |s| && ends(i) == Some(e)
    ensures ProjectBy(s, ends, i) == Blank(s[i..e]) + ProjectBy(s, ends, e)
  {
  }

  lemma ByCode(s: string, ends: nat -> Option<nat>, i: nat)
    requires i < |s| && ends(i) == None
    ensures ProjectBy(s, ends, i) == [s[i]] + ProjectBy(s, ends, i + 1)
  {
  }

  lemma ScannedProjects(s: string, ends: nat -> Option<nat>, i: nat, p: Piece)
    requires Scanned(s, ends, i, p)
    ensures var e := i + |p.text|;
      && s[i..] == p.text + s[e..]
      && ProjectBy(s, ends, i) == (if p.masked then Blank(p.text) else p.text) + ProjectBy(s, ends, e)
  {
    SuffixIs(s, i, i + |p.text|);
    if p.masked {
      ByMask(s, ends, i, i + |p.text|);
    } else {
      ByCode(s, ends, i);
    }
  }

  lemma {:induction false} ChainProjects(
    s: string, ends: nat -> Option<nat>, stands: (nat, Piece) -> bool, i: nat, pieces: seq<Piece>)
    requires forall k: nat, p | stands(k, p) :: Scanned(s, ends, k, p)
    requires i <= |s| && Chain(stands, i, |s|, pieces)
    ensures s[i..] == TextOf(pieces) && ProjectBy(s, ends, i) == Blanked(pieces)
    decreases |pieces|
  {
    if pieces != [] {
      assert Scanned(s, ends, i, pieces[0]);
      ScannedProjects(s, ends, i, pieces[0]);
      ChainProjects(s, ends, stands, i + |pieces[0].text|, pieces[1..]);
    }
  }

  lemma {:induction false} ChainExists(
    s: string, ends: nat -> Option<nat>, stands: (nat, Piece) -> bool, i: nat) returns (pieces: seq<Piece>)
    requires forall k: nat, p | Scanned(s, ends, k, p) :: stands(k, p)
    requires i <= |s| && forall k: nat | k < |s| && ends(k).Some? :: k < ends(k).value <= |s|
    ensures Chain(stands, i, |s|, pieces)
    decreases |s| - i
  {
    pieces := [];
    if i < |s| {
      var e := if ends(i).Some? then ends(i).value else i + 1;
      var p := Piece(s[i..e], ends(i).Some?);
      assert Scanned(s, ends, i, p);
      var rest := ChainExists(s, ends, stands, e);
      pieces := [p] + rest;
      assert pieces[1..] == rest;
    }
  }

  lemma MaskedIsInside(s: string, i: nat, e: nat)
    requires MaskedAt(s, i, e)
    ensures i < |s|
  {
  }

  /** A piece stands where the scanner's masks have it. */
  lemma PieceScanned(s: string, ends: nat -> Option<nat>, i: nat, p: Piece)
    requires forall k: nat | k < |s| :: ends(k) == MaskEnd(s, k)
    ensures PieceAt(s, i, p) <==> Scanned(s, ends, i, p)
  {
    var e := i + |p.text|;
    if p.masked {
      if MaskedAt(s, i, e) {
        MaskedIsInside(s, i, e);
      }
      if i < |s| {
        MaskIsToken(s, i, e);
      }
    } else if i < |s| {
      CodeIsKept(s, i);
    }
  }

  /** The projection of a text is its pieces with exactly the comments and literals blanked. */
  lemma ProjectsPieces(s: string, pieces: seq<Piece>)
    requires PiecesOf(s, pieces)
    ensures s == TextOf(pieces) && Project(s, 0) == Blanked(pieces)
  {
    var ends := (k: nat) => if k < |s| then MaskEnd(s, k) else None;
    var stands := (k: nat, p: Piece) => PieceAt(s, k, p);
    forall k: nat, p | stands(k, p) ensures Scanned(s, ends, k, p) {
      PieceScanned(s, ends, k, p);
    }
    ProjectIsBy(s, ends, 0);
    ChainProjects(s, ends, stands, 0, pieces);
    assert s[0..] == s;
  }

  /** Every text is such a list. */
  lemma PiecesExist(s: string) returns (pieces: seq<Piece>)
    ensures PiecesOf(s, pieces)
  {
    var ends := (k: nat) => if k < |s| then MaskEnd(s, k) else None;
    var stands := (k: nat, p: Piece) => PieceAt(s, k, p);
    forall k: nat, p | Scanned(s, ends, k, p) ensures stands(k, p) {
      PieceScanned(s, ends, k, p);
    }
    pieces := ChainExists(s, ends, stands, 0);
  }

  /** So an output is the projection exactly when it is the text's pieces, so blanked. */
  lemma ProjectionIsPieces(s: string, out: string)
    ensures out == Project(s, 0) <==> exists pieces :: PiecesOf(s, pieces) && out == Blanked(pieces)
  {
    forall pieces | PiecesOf(s, pieces) ensures Project(s, 0) == Blanked(pieces) {
      ProjectsPieces(s, pieces);
    }
    var pieces := PiecesExist(s);
    assert PiecesOf(s, pieces) && Project(s, 0) == Blanked(pieces);
  }

  /** A slash alone, and any character but a slash, a quote, `r` and `b`, is code. */
  lemma OrdinaryIsCode(s: string, i: nat)
    requires i < |s| && s[i] !in {'r', 'b', '"', '\''}
    requires s[i] == '/' ==> !Pair(s, i, '/', '/') && !Pair(s, i, '/', '*')
    ensures CodeAt(s, i)
  {
    CodeIsKept(s, i);
  }
}
