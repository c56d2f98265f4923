/**
 The masking lexer `rust_code_projection` (artifacts/cloud-agent/cloud_agent.py): comments
 and literals of a Rust source are blanked, everything else stays where it is.

 `MaskEnd` says where the mask that starts at a position ends, `Project` is the output, and
 the method with the source's loops computes it.
 */
module RustProjection {
  import opened Outcomes

  const WINDOW: nat := 16
  const MAX_HASHES: nat := 255

  // ---------------------------------------------------------------- where each construct ends

  predicate Pair(s: string, i: nat, a: char, b: char) {
    i + 1 < |s| && s[i] == a && s[i + 1] == b
  }

  /** The first newline from `i`, or the end. */
  function LineEnd(s: string, i: nat): (e: nat)
    requires i <= |s|
    ensures i <= e <= |s| && (forall k | i <= k < e :: s[k] != '\n') && (e < |s| ==> s[e] == '\n')
    decreases |s| - i
  {
    if i == |s| || s[i] == '\n' then i else LineEnd(s, i + 1)
  }

  /** Where `depth` open block comments are all closed, if they are. */
  function BlockClose(s: string, i: nat, depth: nat): (close: Option<nat>)
    requires i <= |s|
    ensures close.Some? ==> i <= close.value <= |s|
    ensures close.Some? && depth > 0 ==> i < close.value && s[close.value - 1] == '/'
    decreases |s| - i
  {
    if depth == 0 then Some(i)
    else if i == |s| then None
    else if Pair(s, i, '/', '*') then BlockClose(s, i + 2, depth + 1)
    else if Pair(s, i, '*', '/') then BlockClose(s, i + 2, depth - 1)
    else BlockClose(s, i + 1, depth)
  }

  /** That place, or the end. */
  function BlockEnd(s: string, i: nat, depth: nat): (e: nat)
    requires i <= |s|
    ensures i <= e <= |s|
  {
    match BlockClose(s, i, depth)
    case Some(e) => e
    case None => |s|
  }

  function HashRun(s: string, i: nat): (n: nat)
    requires i <= |s|
    ensures i + n <= |s| && (forall k | i <= k < i + n :: s[k] == '#') && (i + n < |s| ==> s[i + n] != '#')
    decreases |s| - i
  {
    if i == |s| || s[i] != '#' then 0 else 1 + HashRun(s, i + 1)
  }

  /** The number of hashes of the raw string opened at `i`, and where its text begins. */
  function RawOpen(s: string, i: nat): (open: Option<(nat, nat)>)
    requires i < |s|
    ensures open.Some? ==> i + 2 <= open.value.1 <= |s| && s[open.value.1 - 1] == '"'
  {
    if s[i] != 'r' && !Pair(s, i, 'b', 'r') then None
    else
      var start := if s[i] == 'r' then i + 1 else i + 2;
      var hashes := HashRun(s, start);
      var quote := start + hashes;
      if hashes <= MAX_HASHES && quote < |s| && s[quote] == '"' then Some((hashes, quote + 1)) else None
  }

  /** A quote followed by that many hashes. */
  predicate Closes(s: string, i: nat, hashes: nat) {
    i + hashes < |s| && s[i] == '"' && forall k | i < k <= i + hashes :: s[k] == '#'
  }

  /** Just after the first such closing from `i`, or the end. */
  function RawEnd(s: string, i: nat, hashes: nat): (e: nat)
    requires i <= |s|
    ensures i <= e <= |s|
    ensures e < |s| ==> i <= e - 1 - hashes && Closes(s, e - 1 - hashes, hashes)
    ensures forall k | i <= k && k + hashes + 1 < e :: !Closes(s, k, hashes)
    decreases |s| - i
  {
    if i == |s| then i
    else if Closes(s, i, hashes) then i + hashes + 1
    else RawEnd(s, i + 1, hashes)
  }

  /** Just after the first unescaped double quote from `i`, or the end. */
  function StringEnd(s: string, i: nat, escaped: bool): (e: nat)
    requires i <= |s|
    ensures i <= e <= |s|
    ensures e < |s| ==> i < e && s[e - 1] == '"'
    decreases |s| - i
  {
    if i == |s| then i
    else if escaped then StringEnd(s, i + 1, false)
    else if s[i] == '\\' then StringEnd(s, i + 1, true)
    else if s[i] == '"' then i + 1
    else StringEnd(s, i + 1, false)
  }

  /** The first unescaped single quote from `i`, below `limit` and on this line. */
  function CharEnd(s: string, i: nat, limit: nat, escaped: bool): (closing: Option<nat>)
    requires limit <= |s|
    ensures closing.Some? ==> i <= closing.value < limit && s[closing.value] == '\''
    decreases limit - i
  {
    if i >= limit || s[i] == '\n' then None
    else if escaped then CharEnd(s, i + 1, limit, false)
    else if s[i] == '\\' then CharEnd(s, i + 1, limit, true)
    else if s[i] == '\'' then Some(i)
    else CharEnd(s, i + 1, limit, false)
  }

  function Min(a: nat, b: nat): nat { if a < b then a else b }

  /** Where the mask that starts at `i` ends; `None` when the position is kept. */
  function MaskEnd(s: string, i: nat): (end: Option<nat>)
    requires i < |s|
    ensures end.Some? ==> i < end.value <= |s|
  {
    if Pair(s, i, '/', '/') then Some(LineEnd(s, i + 2))
    else if Pair(s, i, '/', '*') then Some(BlockEnd(s, i + 2, 1))
    else if RawOpen(s, i).Some? then
      var (hashes, text) := RawOpen(s, i).value;
      Some(RawEnd(s, text, hashes))
    else if Pair(s, i, 'b', '"') then Some(StringEnd(s, i + 2, false))
    else if s[i] == '"' then Some(StringEnd(s, i + 1, false))
    else if s[i] == '\'' then
      var closing := CharEnd(s, i + 1, Min(|s|, i + WINDOW), false);
      if closing.Some? then Some(closing.value + 1) else None
    else None
  }

  function Blank(t: string): (r: string) {
    seq(|t|, k requires 0 <= k < |t| => if t[k] == '\n' then '\n' else ' ')
  }

  /** The output from position `i` on. */
  function Project(s: string, i: nat): (r: string)
    requires i <= |s|
    ensures |r| == |s| - i
    decreases |s| - i
  {
    if i == |s| then []
    else
      match MaskEnd(s, i)
      case Some(e) => Blank(s[i..e]) + Project(s, e)
      case None => [s[i]] + Project(s, i + 1)
  }

  // ---------------------------------------------------------------- the source's loops

  method SkipBlockComment(s: string, start: nat) returns (index: nat)
    requires start <= |s|
    ensures index == BlockEnd(s, start, 1)
  {
    index := start;
    var depth := 1;
    while index < |s| && depth > 0
      invariant index <= |s|
      invariant BlockEnd(s, start, 1) == BlockEnd(s, index, depth)
      decreases |s| - index
    {
      if Pair(s, index, '/', '*') {
        depth := depth + 1;
        index := index + 2;
      } else if Pair(s, index, '*', '/') {
        depth := depth - 1;
        index := index + 2;
      } else {
        index := index + 1;
      }
    }
  }

  method SkipString(s: string, start: nat) returns (index: nat)
    requires start <= |s|
    ensures index == StringEnd(s, start, false)
  {
    index := start;
    var escaped := false;
    while index < |s|
      invariant index <= |s|
      invariant StringEnd(s, start, false) == StringEnd(s, index, escaped)
    {
      var character := s[index];
      index := index + 1;
      if escaped {
        escaped := false;
      } else if character == '\\' {
        escaped := true;
      } else if character == '"' {
        return;
      }
    }
  }

  method FindCharEnd(s: string, start: nat, limit: nat) returns (closing: Option<nat>)
    requires start <= limit <= |s|
    ensures closing == CharEnd(s, start, limit, false)
  {
    var cursor := start;
    var escaped := false;
    while cursor < limit && s[cursor] != '\n'
      invariant cursor <= limit
      invariant CharEnd(s, start, limit, false) == CharEnd(s, cursor, limit, escaped)
    {
      var character := s[cursor];
      if escaped {
        escaped := false;
      } else if character == '\\' {
        escaped := true;
      } else if character == '\'' {
        return Some(cursor);
      }
      cursor := cursor + 1;
    }
    return None;
  }

  /** The end of the mask at `index`, found with the loops above. */
  method FindMaskEnd(s: string, index: nat) returns (end: Option<nat>)
    requires index < |s|
    ensures end == MaskEnd(s, index)
  {
    if Pair(s, index, '/', '/') {
      return Some(LineEnd(s, index + 2));
    }
    if Pair(s, index, '/', '*') {
      var e := SkipBlockComment(s, index + 2);
      return Some(e);
    }
    var raw := RawOpen(s, index);
    if raw.Some? {
      return Some(RawEnd(s, raw.value.1, raw.value.0));
    }
    var prefix := if Pair(s, index, 'b', '"') then 1 else 0;
    if s[index + prefix] == '"' {
      var e := SkipString(s, index + prefix + 1);
      return Some(e);
    }
    if s[index] == '\'' {
      var closing := FindCharEnd(s, index + 1, Min(|s|, index + WINDOW));
      if closing.Some? {
        return Some(closing.value + 1);
      }
    }
    return None;
  }

  /** Up to `copied` the output is written; from there to `i` it is the source; from `i` it is still to come. */
  ghost predicate OnTrack(s: string, output: string, copied: nat, i: nat) {
    var all := Project(s, 0);
    && copied <= i <= |s| == |all|
    && output == all[..copied] && s[copied..i] == all[copied..i] && Project(s, i) == all[i..]
  }

  lemma SuffixSplits(all: string, i: nat, a: string, b: string)
    requires i <= |all| && all[i..] == a + b
    ensures i + |a| <= |all| && all[i..i + |a|] == a && all[i + |a|..] == b
  {
    assert all[i..i + |a|] == all[i..][..|a|];
    assert all[i + |a|..] == all[i..][|a|..];
  }

  lemma SliceGrows(t: string, i: nat, j: nat, k: nat)
    requires i <= j <= k <= |t|
    ensures t[i..j] + t[j..k] == t[i..k] && t[..i] + t[i..j] == t[..j]
  {
  }

  lemma KeepStep(s: string, output: string, copied: nat, i: nat)
    requires OnTrack(s, output, copied, i) && i < |s| && MaskEnd(s, i) == None
    ensures OnTrack(s, output, copied, i + 1)
  {
    var all := Project(s, 0);
    SuffixSplits(all, i, [s[i]], Project(s, i + 1));
    SliceGrows(all, copied, i, i + 1);
    SliceGrows(s, copied, i, i + 1);
    assert s[i..i + 1] == [s[i]];
  }

  lemma MaskStep(s: string, output: string, copied: nat, i: nat, e: nat)
    requires OnTrack(s, output, copied, i) && i < |s| && MaskEnd(s, i) == Some(e)
    ensures OnTrack(s, output + s[copied..i] + Blank(s[i..e]), e, e)
  {
    var all := Project(s, 0);
    SuffixSplits(all, i, Blank(s[i..e]), Project(s, e));
    SliceGrows(all, copied, i, e);
    SliceGrows(all, i, e, e);
  }

  method RustCodeProjection(source: string) returns (projected: string)
    ensures projected == Project(source, 0)
  {
    var output: string := "";
    var copiedThrough: nat, index: nat := 0, 0;
    assert Project(source, 0) == Project(source, 0)[0..];
    while index < |source|
      invariant OnTrack(source, output, copiedThrough, index)
    {
      var end := FindMaskEnd(source, index);
      if end.Some? {
        MaskStep(source, output, copiedThrough, index, end.value);
        output := output + source[copiedThrough..index] + Blank(source[index..end.value]);
        copiedThrough, index := end.value, end.value;
      } else {
        KeepStep(source, output, copiedThrough, index);
        index := index + 1;
      }
    }
    projected := output + source[copiedThrough..];
    ghost var all := Project(source, 0);
    assert source[copiedThrough..] == source[copiedThrough..index] && all[..index] == all;
    SliceGrows(all, copiedThrough, index, index);
  }

  // ---------------------------------------------------------------- what is kept

  /** Scanning from `i` comes to `k` and keeps it. */
  ghost predicate Kept(s: string, i: nat, k: nat)
    requires i <= |s|
    decreases |s| - i
  {
    if i == |s| || k < i then false
    else
      match MaskEnd(s, i)
      case Some(e) => Kept(s, e, k)
      case None => k == i || Kept(s, i + 1, k)
  }

  lemma ConcatAt(a: string, b: string, k: nat)
    requires k < |a| + |b|
    ensures (a + b)[k] == if k < |a| then a[k] else b[k - |a|]
  {
  }

  lemma BlankAt(s: string, i: nat, e: nat, k: nat)
    requires i <= k < e <= |s|
    ensures Blank(s[i..e])[k - i] == if s[k] == '\n' then '\n' else ' '
  {
    assert s[i..e][k - i] == s[k];
  }

  /** Each position is kept or blanked. */
  lemma {:induction false} ProjectAt(s: string, i: nat, k: nat)
    requires i <= k < |s|
    ensures Project(s, i)[k - i] == if Kept(s, i, k) || s[k] == '\n' then s[k] else ' '
    decreases |s| - i
  {
    match MaskEnd(s, i)
    case Some(e) =>
      ConcatAt(Blank(s[i..e]), Project(s, e), k - i);
      if k >= e {
        ProjectAt(s, e, k);
        assert Kept(s, i, k) == Kept(s, e, k);
      } else {
        KeptFrom(s, e, k);
        assert !Kept(s, i, k);
        BlankAt(s, i, e, k);
      }
    case None =>
      ConcatAt([s[i]], Project(s, i + 1), k - i);
      if k > i { ProjectAt(s, i + 1, k); }
  }

  lemma {:induction false} KeptFrom(s: string, i: nat, k: nat)
    requires i <= |s|
    ensures Kept(s, i, k) ==> i <= k < |s| && MaskEnd(s, k) == None
    decreases |s| - i
  {
    if i < |s| {
      match MaskEnd(s, i)
      case Some(e) => KeptFrom(s, e, k);
      case None => KeptFrom(s, i + 1, k);
    }
  }

  /** A mask never ends in a backslash, unless the file or the line ends there. */
  lemma MaskLast(s: string, i: nat)
    requires i < |s| && MaskEnd(s, i).Some? && MaskEnd(s, i).value < |s| && s[MaskEnd(s, i).value] != '\n'
    ensures s[MaskEnd(s, i).value - 1] != '\\'
  {
  }

  /** So a backslash right before a kept position is itself kept. */
  lemma {:induction false} BackslashKept(s: string, i: nat, k: nat)
    requires i < k < |s| && Kept(s, i, k) && s[k] != '\n' && s[k - 1] == '\\'
    ensures Kept(s, i, k - 1)
    decreases |s| - i
  {
    match MaskEnd(s, i)
    case Some(e) =>
      KeptFrom(s, e, k);
      if e == k { MaskLast(s, i); } else { BackslashKept(s, e, k); }
    case None => if k > i + 1 { BackslashKept(s, i + 1, k); }
  }

  // ---------------------------------------------------------------- escapes

  /** An odd run of backslashes, not reaching below `from`, ends just before `c`. */
  ghost predicate Odd(s: string, from: nat, c: nat)
    requires c <= |s|
    decreases c
  {
    c > from && s[c - 1] == '\\' && !Odd(s, from, c - 1)
  }

  ghost predicate Unescaped(s: string, from: nat, c: nat, quote: char) {
    c < |s| && s[c] == quote && !Odd(s, from, c)
  }

  /** A string ends at its first double quote after an even run of backslashes. */
  lemma {:induction false} StringEndExact(s: string, from: nat, i: nat)
    requires from <= i <= |s|
    ensures var e := StringEnd(s, i, Odd(s, from, i));
      && (forall k | i <= k < e - 1 :: !Unescaped(s, from, k, '"'))
      && (if i < e && Unescaped(s, from, e - 1, '"') then true else e == |s|)
    decreases |s| - i
  {
    if i < |s| && !Unescaped(s, from, i, '"') {
      StringEndExact(s, from, i + 1);
    }
  }

  /**
   A character literal closes at the first single quote after an even run, if that comes
   before `limit` and on this line.
   */
  lemma {:induction false} CharEndExact(s: string, from: nat, i: nat, limit: nat)
    requires from <= i && limit <= |s|
    requires i <= |s|
    ensures match CharEnd(s, i, limit, Odd(s, from, i))
      case Some(c) => Unescaped(s, from, c, '\'') && i <= c < limit
         && (forall k | i <= k < c :: s[k] != '\n' && !Unescaped(s, from, k, '\''))
      case None => forall c | i <= c < limit && Unescaped(s, from, c, '\'') :: exists k | i <= k < c :: s[k] == '\n'
    decreases limit - i
  {
    if i < limit && s[i] != '\n' && !Unescaped(s, from, i, '\'') {
      CharEndExact(s, from, i + 1, limit);
    }
  }

  // ---------------------------------------------------------------- the projection's contract

  /** Each position of `out` is the source's where the scan kept it or a line ends, and blank elsewhere. */
  ghost predicate Masks(s: string, out: string) {
    && |out| == |s|
    && forall k | 0 <= k < |s| :: out[k] == if Kept(s, 0, k) || s[k] == '\n' then s[k] else ' '
  }

  lemma ProjectMasks(s: string)
    ensures Masks(s, Project(s, 0))
  {
    forall k | 0 <= k < |s| ensures Project(s, 0)[k] == if Kept(s, 0, k) || s[k] == '\n' then s[k] else ' ' {
      ProjectAt(s, 0, k);
    }
  }

  /** A visible position of the output was kept by the scan, which found nothing to mask there. */
  lemma VisibleKept(s: string, out: string, k: nat)
    requires Masks(s, out) && k < |s| && out[k] != ' ' && out[k] != '\n'
    ensures Kept(s, 0, k) && s[k] == out[k] && MaskEnd(s, k) == None
  {
    KeptFrom(s, 0, k);
  }

  lemma NoQuoteLeft(s: string, out: string, k: nat)
    requires Masks(s, out) && k < |s|
    ensures out[k] != '"'
  {
    if out[k] == '"' {
      VisibleKept(s, out, k);
    }
  }

  lemma NoCommentLeft(s: string, out: string, k: nat)
    requires Masks(s, out) && k < |s|
    ensures !Pair(out, k, '/', '/') && !Pair(out, k, '/', '*')
  {
    if Pair(out, k, '/', '/') || Pair(out, k, '/', '*') {
      VisibleKept(s, out, k);
    }
  }

  /** Between two kept positions, escapes read the same in the output as in the source. */
  lemma {:induction false} OddSame(s: string, out: string, from: nat, c: nat)
    requires Masks(s, out) && c < |s| && Kept(s, 0, c) && s[c] != '\n'
    ensures Odd(out, from, c) == Odd(s, from, c)
    decreases c
  {
    if c > from && s[c - 1] == '\\' {
      BackslashKept(s, 0, c);
      OddSame(s, out, from, c - 1);
    }
  }

  /** A lifetime quote left visible has no closing quote in the output either. */
  lemma LifetimeStaysOpen(s: string, out: string, k: nat)
    requires Masks(s, out) && k < |s| && out[k] == '\''
    ensures CharEnd(out, k + 1, Min(|s|, k + WINDOW), false) == None
  {
    var limit := Min(|s|, k + WINDOW);
    VisibleKept(s, out, k);
    var closing := CharEnd(out, k + 1, limit, false);
    if closing.Some? {
      var c := closing.value;
      CharEndExact(out, k + 1, k + 1, limit);
      VisibleKept(s, out, c);
      OddSame(s, out, k + 1, c);
      CharEndExact(s, k + 1, k + 1, limit);
      assert Unescaped(s, k + 1, c, '\'');
      assert false;
    }
  }

  lemma NothingToMask(s: string, out: string, k: nat)
    requires Masks(s, out) && k < |s|
    ensures MaskEnd(out, k) == None
  {
    NoCommentLeft(s, out, k);
    NoQuoteLeft(s, out, k);
    if RawOpen(out, k).Some? {
      NoQuoteLeft(s, out, RawOpen(out, k).value.1 - 1);
    }
    if Pair(out, k, 'b', '"') {
      NoQuoteLeft(s, out, k + 1);
    }
    if out[k] == '\'' {
      LifetimeStaysOpen(s, out, k);
    }
  }

  lemma {:induction false} NoMaskIsIdentity(t: string, i: nat)
    requires i <= |t| && forall k | i <= k < |t| :: MaskEnd(t, k) == None
    ensures Project(t, i) == t[i..]
    decreases |t| - i
  {
    if i < |t| {
      NoMaskIsIdentity(t, i + 1);
    }
  }

  /** Length and newlines stay, and every position is unchanged or blanked. */
  lemma PositionsKept(s: string)
    ensures var out := Project(s, 0);
      && |out| == |s|
      && (forall k | 0 <= k < |s| :: out[k] == s[k] || out[k] == ' ')
      && (forall k | 0 <= k < |s| :: s[k] == '\n' <==> out[k] == '\n')
  {
    ProjectMasks(s);
  }

  /** No quote, line comment or block comment is left. */
  lemma NothingLeft(s: string)
    ensures var out := Project(s, 0);
      forall k | 0 <= k < |out| :: out[k] != '"' && !Pair(out, k, '/', '/') && !Pair(out, k, '/', '*')
  {
    ProjectMasks(s);
    var out := Project(s, 0);
    forall k | 0 <= k < |out| ensures out[k] != '"' && !Pair(out, k, '/', '/') && !Pair(out, k, '/', '*') {
      NoQuoteLeft(s, out, k);
      NoCommentLeft(s, out, k);
    }
  }

  lemma DropConcat(a: string, b: string, n: nat)
    requires |a| <= n <= |a| + |b|
    ensures (a + b)[n..] == b[n - |a|..]
  {
  }

  /** The output from a kept position on is what scanning from that position gives. */
  lemma {:induction false} ScanReaches(s: string, i: nat, k: nat)
    requires i <= k < |s| && Kept(s, i, k)
    ensures Project(s, i)[k - i..] == Project(s, k)
    decreases |s| - i
  {
    match MaskEnd(s, i)
    case Some(e) =>
      KeptFrom(s, e, k);
      ScanReaches(s, e, k);
      DropConcat(Blank(s[i..e]), Project(s, e), k - i);
    case None =>
      if k > i {
        ScanReaches(s, i + 1, k);
        DropConcat([s[i]], Project(s, i + 1), k - i);
      }
  }

  lemma SameText(s: string, out: string, i: nat, j: nat)
    requires Masks(s, out) && i <= j <= |s| && forall k | i <= k < j :: out[k] != ' '
    ensures out[i..j] == s[i..j]
  {
    assert forall k | i <= k < j :: out[k] == s[k];
    assert |out[i..j]| == |s[i..j]|;
  }

  /**
   Text of the output with no blank in it stands the same, at the same place, in the source.
   The scan came to each of its characters and kept it, so nothing was masked in between and
   scanning from any of them goes on in the same way.
   */
  lemma NoTokenManufactured(s: string, i: nat, j: nat)
    requires i <= j <= |s| && forall k | i <= k < j :: Project(s, 0)[k] != ' '
    ensures Project(s, 0)[i..j] == s[i..j]
    ensures forall k | i <= k < j && s[k] != '\n' ::
              Kept(s, 0, k) && MaskEnd(s, k) == None && Project(s, 0)[k..] == Project(s, k)
  {
    ProjectMasks(s);
    var out := Project(s, 0);
    SameText(s, out, i, j);
    forall k | i <= k < j && s[k] != '\n'
      ensures Kept(s, 0, k) && MaskEnd(s, k) == None && Project(s, 0)[k..] == Project(s, k)
    {
      VisibleKept(s, out, k);
      KeptFrom(s, 0, k);
      ScanReaches(s, 0, k);
    }
  }

  /** Projecting twice is projecting once. */
  lemma Idempotent(s: string)
    ensures Project(Project(s, 0), 0) == Project(s, 0)
  {
    var out := Project(s, 0);
    ProjectMasks(s);
    forall k | 0 <= k < |out| ensures MaskEnd(out, k) == None {
      NothingToMask(s, out, k);
    }
    NoMaskIsIdentity(out, 0);
  }

  // ---------------------------------------------------------------- nested comments

  /** What follows an opening: text and whole comments, up to the matching close. */
  datatype Body = Close | Text(c: char, rest: Body) | Nest(inner: Body, rest: Body)

  function Render(b: Body): (r: string)
    ensures |r| >= 2
  {
    match b
    case Close => ['*', '/']
    case Text(c, rest) => [c] + Render(rest)
    case Nest(inner, rest) => ['/', '*'] + (Render(inner) + Render(rest))
  }

  /** No character of the text opens or closes a comment with what follows it. */
  predicate Proper(b: Body) {
    match b
    case Close => true
    case Text(c, rest) => Proper(rest) && !(c == '/' && Render(rest)[0] == '*') && !(c == '*' && Render(rest)[0] == '/')
    case Nest(inner, rest) => Proper(inner) && Proper(rest)
  }

  ghost predicate At(s: string, i: nat, r: string) {
    i + |r| <= |s| && forall k | 0 <= k < |r| :: s[i + k] == r[k]
  }

  lemma AtConcat(s: string, i: nat, a: string, b: string)
    ensures At(s, i, a + b) <==> At(s, i, a) && At(s, i + |a|, b)
  {
    if At(s, i, a + b) {
      forall k | 0 <= k < |a| ensures s[i + k] == a[k] {
        assert (a + b)[k] == a[k];
      }
      forall k | 0 <= k < |b| ensures s[i + |a| + k] == b[k] {
        assert (a + b)[|a| + k] == b[k];
      }
    }
  }

  lemma AtPair(s: string, i: nat, a: char, b: char)
    ensures At(s, i, [a, b]) <==> Pair(s, i, a, b)
  {
    var r := [a, b];
    assert r[0] == a && r[1] == b;
  }

  lemma TextAt(s: string, i: nat, c: char, rest: Body)
    requires Proper(Text(c, rest)) && At(s, i, Render(Text(c, rest)))
    ensures i + 1 < |s| && s[i] == c && At(s, i + 1, Render(rest))
    ensures !Pair(s, i, '/', '*') && !Pair(s, i, '*', '/')
  {
    AtConcat(s, i, [c], Render(rest));
    assert s[i] == [c][0] && s[i + 1] == Render(rest)[0];
  }

  lemma NestAt(s: string, i: nat, inner: Body, rest: Body)
    requires At(s, i, Render(Nest(inner, rest)))
    ensures Pair(s, i, '/', '*') && At(s, i + 2, Render(inner)) && At(s, i + 2 + |Render(inner)|, Render(rest))
  {
    AtConcat(s, i, ['/', '*'], Render(inner) + Render(rest));
    AtConcat(s, i + 2, Render(inner), Render(rest));
    AtPair(s, i, '/', '*');
  }

  /** A properly nested comment is skipped exactly, at any depth. */
  lemma {:induction false} BodySkipped(s: string, i: nat, b: Body, depth: nat)
    requires Proper(b) && At(s, i, Render(b))
    ensures BlockClose(s, i, depth + 1) == BlockClose(s, i + |Render(b)|, depth)
    decreases b
  {
    match b
    case Close => AtPair(s, i, '*', '/');
    case Text(c, rest) =>
      TextAt(s, i, c, rest);
      BodySkipped(s, i + 1, rest, depth);
    case Nest(inner, rest) =>
      NestAt(s, i, inner, rest);
      BodySkipped(s, i + 2, inner, depth + 1);
      BodySkipped(s, i + 2 + |Render(inner)|, rest, depth);
  }

  /** Bodies, one for each open comment, the innermost first. */
  function RenderAll(bodies: seq<Body>): string {
    if bodies == [] then [] else Render(bodies[0]) + RenderAll(bodies[1..])
  }

  ghost predicate NestedTo(s: string, i: nat, e: nat, bodies: seq<Body>) {
    (forall b <- bodies :: Proper(b)) && At(s, i, RenderAll(bodies)) && e == i + |RenderAll(bodies)|
  }

  lemma NestStep(s: string, i: nat, e: nat, bodies: seq<Body>)
    requires |bodies| >= 2 && Pair(s, i, '/', '*') && NestedTo(s, i + 2, e, bodies)
    ensures NestedTo(s, i, e, [Nest(bodies[0], bodies[1])] + bodies[2..])
  {
    var nested := [Nest(bodies[0], bodies[1])] + bodies[2..];
    var first, second, rest := Render(bodies[0]), Render(bodies[1]), RenderAll(bodies[2..]);
    assert nested[1..] == bodies[2..] && bodies[1..][1..] == bodies[2..];
    assert RenderAll(bodies) == first + (second + rest);
    assert RenderAll(nested) == ['/', '*'] + (first + second) + rest;
    assert RenderAll(nested) == ['/', '*'] + RenderAll(bodies);
    AtPair(s, i, '/', '*');
    AtConcat(s, i, ['/', '*'], RenderAll(bodies));
  }

  lemma CloseStep(s: string, i: nat, e: nat, bodies: seq<Body>)
    requires Pair(s, i, '*', '/') && NestedTo(s, i + 2, e, bodies)
    ensures NestedTo(s, i, e, [Close] + bodies)
  {
    assert ([Close] + bodies)[1..] == bodies;
    AtPair(s, i, '*', '/');
    AtConcat(s, i, ['*', '/'], RenderAll(bodies));
  }

  lemma TextStep(s: string, i: nat, e: nat, bodies: seq<Body>)
    requires |bodies| >= 1 && i < |s| && NestedTo(s, i + 1, e, bodies)
    requires !Pair(s, i, '/', '*') && !Pair(s, i, '*', '/')
    ensures NestedTo(s, i, e, [Text(s[i], bodies[0])] + bodies[1..])
  {
    var longer := [Text(s[i], bodies[0])] + bodies[1..];
    assert longer[1..] == bodies[1..];
    assert RenderAll(longer) == [s[i]] + RenderAll(bodies);
    AtConcat(s, i, [s[i]], RenderAll(bodies));
    assert s[i + 1] == RenderAll(bodies)[0] == Render(bodies[0])[0];
  }

  /** Where `depth` open comments all close, the skipped text is that many properly nested bodies. */
  lemma {:induction false} SkippedIsNested(s: string, i: nat, depth: nat) returns (bodies: seq<Body>)
    requires i <= |s| && BlockClose(s, i, depth).Some?
    ensures |bodies| == depth && NestedTo(s, i, BlockClose(s, i, depth).value, bodies)
    decreases |s| - i
  {
    var e := BlockClose(s, i, depth).value;
    if depth == 0 {
      bodies := [];
    } else if Pair(s, i, '/', '*') {
      bodies := SkippedIsNested(s, i + 2, depth + 1);
      NestStep(s, i, e, bodies);
      bodies := [Nest(bodies[0], bodies[1])] + bodies[2..];
    } else if Pair(s, i, '*', '/') {
      bodies := SkippedIsNested(s, i + 2, depth - 1);
      CloseStep(s, i, e, bodies);
      bodies := [Close] + bodies;
    } else {
      bodies := SkippedIsNested(s, i + 1, depth);
      TextStep(s, i, e, bodies);
      bodies := [Text(s[i], bodies[0])] + bodies[1..];
    }
  }

  /** A block comment closes at `e` exactly when it is an opening and one properly nested body. */
  lemma CommentIsNested(s: string, i: nat, e: nat)
    requires Pair(s, i, '/', '*')
    ensures BlockClose(s, i + 2, 1) == Some(e) <==>
            exists b: Body :: Proper(b) && At(s, i + 2, Render(b)) && e == i + 2 + |Render(b)|
  {
    if BlockClose(s, i + 2, 1) == Some(e) {
      var bodies := SkippedIsNested(s, i + 2, 1);
      assert RenderAll(bodies[1..]) == [];
      assert RenderAll(bodies) == Render(bodies[0]);
      assert Proper(bodies[0]);
    }
    forall b: Body | Proper(b) && At(s, i + 2, Render(b)) && e == i + 2 + |Render(b)|
      ensures BlockClose(s, i + 2, 1) == Some(e)
    {
      BodySkipped(s, i + 2, b, 0);
    }
  }
}
