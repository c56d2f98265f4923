/**
 The host's reader of the container's stdout: the inner loop of `DockerExecutor._run`
 (artifacts/codeagent-launcher/docker_executor.py).

 Bytes arrive in chunks of at most 65536; complete lines are split off and handled, the
 rest stays buffered. Parsing a line is a parameter, and so is which helper threads have
 ended by the time a message is handled.
 */
module FrameReader {
  import opened ByteStrings
  import opened Facts
  import opened Outcomes

  const MAX_FRAME: nat := 6 * 1024 * 1024
  const READ_SIZE: nat := 65536
  const NEWLINE: Byte := 10
  const MAX_TRACE: nat := 16384
  const MAX_TRACES: nat := 512 * 1024
  const MAX_CHECKS: nat := 3

  type Line = Bytes

  /**
   The id of a source candidate is a number: the code compares with `!=`, so a boolean or a
   float that equals the number is the number.
   */
  datatype Message =
    | ModelRequest
    | ProviderTrace(size: nat)
    | SourceCandidate(id: Option<int>)
    | ResultFrame(bytes: Bytes)
    | Failed(code: nat)
    | Unknown
    | Malformed

  datatype Error =
    | DockerOutputLimit | ParallelRequestDenied | TraceLimit | CompilerProtocolInvalid
    | DuplicateResult | ProviderOutputLimit | ProviderFailed(code: nat) | ProtocolInvalid

  datatype Action = StartRelay(thread: nat) | StartCheck(id: int) | AcceptResult(bytes: Bytes) | KeepTrace(size: nat)

  /**
   `relay` and `checker` are the latest helper threads, numbered by the message that started
   them; `live` are all threads still running; `log` is what the host has done.
   */
  datatype Host = Host(
    handled: nat, relay: Option<nat>, checker: Option<nat>, live: set<nat>,
    checks: nat, traceBytes: nat, result: Option<Bytes>, log: seq<Action>)

  /** What does not depend on the stream: the parser, the job's limits, and the other threads. */
  datatype Env = Env(parse: Line -> Message, hasChecker: bool, maxOutput: nat, ended: nat -> set<nat>)

  const START := Host(0, None, None, {}, 0, 0, None, [])

  // ---------------------------------------------------------------- handling one message

  function Handle(env: Env, h: Host, line: Line): Result<Host, Error> {
    var live := h.live - env.ended(h.handled);
    var n := h.handled;
    var next := h.(handled := n + 1, live := live);
    match env.parse(line)
    case ModelRequest =>
      if h.relay.Some? && h.relay.value in live then Err(ParallelRequestDenied)
      else Ok(next.(relay := Some(n), live := live + {n}, log := h.log + [StartRelay(n)]))
    case ProviderTrace(size) =>
      if size > MAX_TRACE || h.traceBytes + size > MAX_TRACES then Err(TraceLimit)
      else Ok(next.(traceBytes := h.traceBytes + size, log := h.log + [KeepTrace(size)]))
    case SourceCandidate(id) =>
      if !env.hasChecker || id != Some(h.checks) || h.checks >= MAX_CHECKS
         || (h.checker.Some? && h.checker.value in live)
      then Err(CompilerProtocolInvalid)
      else Ok(next.(checks := h.checks + 1, checker := Some(n),
                        live := live + {n}, log := h.log + [StartCheck(h.checks)]))
    case ResultFrame(bytes) =>
      if h.result.Some? then Err(DuplicateResult)
      else if |bytes| > env.maxOutput then Err(ProviderOutputLimit)
      else Ok(next.(result := Some(bytes), log := h.log + [AcceptResult(bytes)]))
    case Failed(code) => Err(ProviderFailed(code))
    case Unknown => Err(ProtocolInvalid)
    case Malformed => Err(ProtocolInvalid)
  }

  /** Handles lines in order up to the first error. */
  function HandleLines(env: Env, h: Host, lines: seq<Line>): Result<Host, Error>
    decreases |lines|
  {
    if lines == [] then Ok(h)
    else
      match Handle(env, h, lines[0])
      case Err(e) => Err(e)
      case Ok(h') => HandleLines(env, h', lines[1..])
  }

  /** The host after the lines it handles: all of them, or those before the first error. */
  function HostAfter(env: Env, h: Host, lines: seq<Line>): Host
    decreases |lines|
  {
    if lines == [] then h
    else
      match Handle(env, h, lines[0])
      case Err(_) => h
      case Ok(h') => HostAfter(env, h', lines[1..])
  }

  lemma {:induction false} AllHandled(env: Env, h: Host, lines: seq<Line>)
    ensures HandleLines(env, h, lines).Ok? ==> HandleLines(env, h, lines).value == HostAfter(env, h, lines)
    decreases |lines|
  {
    if lines != [] && Handle(env, h, lines[0]).Ok? {
      AllHandled(env, Handle(env, h, lines[0]).value, lines[1..]);
    }
  }

  /** That is the host after the longest beginning without an error. */
  lemma {:induction false} HostAfterIsLongest(env: Env, h: Host, lines: seq<Line>) returns (n: nat)
    ensures n <= |lines| && HandleLines(env, h, lines[..n]) == Ok(HostAfter(env, h, lines))
    ensures n == |lines| || Handle(env, HostAfter(env, h, lines), lines[n]).Err?
    ensures HandleLines(env, h, lines).Ok? <==> n == |lines|
    decreases |lines|
  {
    if lines == [] || Handle(env, h, lines[0]).Err? {
      n := 0;
    } else {
      n := HostAfterIsLongest(env, Handle(env, h, lines[0]).value, lines[1..]);
      n := n + 1;
      assert lines[..n][1..] == lines[1..][..n - 1];
    }
  }

  // ---------------------------------------------------------------- splitting at newlines

  /** The first newline from `i`, or the length when there is none. */
  function NewlineFrom(s: Bytes, i: nat): (k: nat)
    requires i <= |s|
    ensures i <= k <= |s| && (forall j | i <= j < k :: s[j] != NEWLINE) && (k < |s| ==> s[k] == NEWLINE)
    decreases |s| - i
  {
    if i == |s| || s[i] == NEWLINE then i else NewlineFrom(s, i + 1)
  }

  function FirstNewline(s: Bytes): (k: nat)
    ensures k <= |s| && (forall j | 0 <= j < k :: s[j] != NEWLINE) && (k < |s| ==> s[k] == NEWLINE)
  {
    NewlineFrom(s, 0)
  }

  /** The complete lines of a stream, and what follows the last newline. */
  function Lines(s: Bytes): seq<Line>
    decreases |s|
  {
    var k := FirstNewline(s);
    if k == |s| then [] else [s[..k]] + Lines(s[k + 1..])
  }

  function Tail(s: Bytes): Bytes
    decreases |s|
  {
    var k := FirstNewline(s);
    if k == |s| then s else Tail(s[k + 1..])
  }

  lemma FirstNewlineUnique(s: Bytes, k: nat)
    requires k <= |s| && (forall i | 0 <= i < k :: s[i] != NEWLINE) && (k < |s| ==> s[k] == NEWLINE)
    ensures FirstNewline(s) == k
  {
  }

  function Join(lines: seq<Line>): Bytes {
    if lines == [] then [] else lines[0] + [NEWLINE] + Join(lines[1..])
  }

  lemma JoinCons(line: Line, lines: seq<Line>)
    ensures Join([line] + lines) == line + [NEWLINE] + Join(lines)
  {
    assert ([line] + lines)[1..] == lines;
  }

  lemma SplitAt(s: Bytes, k: nat)
    requires k < |s| && s[k] == NEWLINE
    ensures s[..k] + [NEWLINE] + s[k + 1..] == s
  {
  }

  /** `Lines` and `Tail` are the newline split: joining them gives the stream back. */
  lemma {:induction false} SplitIsExact(s: Bytes)
    ensures Join(Lines(s)) + Tail(s) == s
    decreases |s|
  {
    var k := FirstNewline(s);
    if k < |s| {
      var line, rest := s[..k], s[k + 1..];
      SplitIsExact(rest);
      JoinCons(line, Lines(rest));
      Associate(line + [NEWLINE], Join(Lines(rest)), Tail(rest));
      SplitAt(s, k);
    }
  }

  /** And no line, finished or not, holds a newline. */
  lemma {:induction false} LinesHoldNoNewline(s: Bytes)
    ensures (forall line <- Lines(s) :: NEWLINE !in line) && NEWLINE !in Tail(s)
    decreases |s|
  {
    var k := FirstNewline(s);
    if k < |s| {
      LinesHoldNoNewline(s[k + 1..]);
    }
  }

  lemma NewlineInPrefix(s: Bytes, t: Bytes)
    requires FirstNewline(s) < |s|
    ensures var k := FirstNewline(s);
      FirstNewline(s + t) == k && (s + t)[..k] == s[..k] && (s + t)[k + 1..] == s[k + 1..] + t
  {
    var k, longer := FirstNewline(s), s + t;
    assert longer[..|s|] == s;
    assert forall i | 0 <= i <= k :: longer[i] == s[i];
    FirstNewlineUnique(longer, k);
  }

  /** Splitting a longer stream only continues from the unfinished line. */
  lemma {:induction false} SplitAppend(s: Bytes, t: Bytes)
    ensures Lines(s + t) == Lines(s) + Lines(Tail(s) + t)
    ensures Tail(s + t) == Tail(Tail(s) + t)
    decreases |s|
  {
    var k := FirstNewline(s);
    if k < |s| {
      var rest := s[k + 1..];
      NewlineInPrefix(s, t);
      SplitAppend(rest, t);
      Associate([s[..k]], Lines(rest), Lines(Tail(rest) + t));
    }
  }

  lemma {:induction false} HandleAppend(env: Env, h: Host, first: seq<Line>, second: seq<Line>)
    ensures HandleLines(env, h, first + second) ==
            match HandleLines(env, h, first)
            case Err(e) => Err(e)
            case Ok(h') => HandleLines(env, h', second)
    ensures HostAfter(env, h, first + second) ==
            match HandleLines(env, h, first)
            case Err(_) => HostAfter(env, h, first)
            case Ok(h') => HostAfter(env, h', second)
    decreases |first|
  {
    if first == [] {
      assert first + second == second;
    } else {
      assert (first + second)[1..] == first[1..] + second;
      match Handle(env, h, first[0])
      case Err(e) =>
      case Ok(h') => HandleAppend(env, h', first[1..], second);
    }
  }

  // ---------------------------------------------------------------- reading in chunks

  function Concat(chunks: seq<Bytes>): Bytes {
    if chunks == [] then [] else Concat(chunks[..|chunks| - 1]) + chunks[|chunks| - 1]
  }

  /** No line of the stream, finished or not, is longer than the limit. */
  ghost predicate FramesWithin(s: Bytes, limit: int) {
    (forall line <- Lines(s) :: |line| <= limit) && |Tail(s)| <= limit
  }

  /** The stream's lines were handled up to the first error, which is reported, or all of them. */
  ghost predicate Handled(env: Env, s: Bytes, error: Option<Error>, host: Host, buffered: Bytes) {
    && host == HostAfter(env, START, Lines(s))
    && match HandleLines(env, START, Lines(s))
       case Err(e) => error == Some(e)
       case Ok(_) => error == None && buffered == Tail(s)
  }

  class StdoutReader {
    const env: Env
    var buffered: Bytes
    var host: Host

    constructor (env: Env)
      ensures buffered == [] && host == START && this.env == env
    {
      this.env := env;
      buffered, host := [], START;
    }

    /** One `os.read`: the buffer grows, is checked, and gives up its complete lines. */
    method Feed(chunk: Bytes) returns (error: Option<Error>)
      modifies this
      ensures var all := old(buffered) + chunk;
        if |all| > MAX_FRAME then error == Some(DockerOutputLimit)
        else
          match HandleLines(env, old(host), Lines(all))
          case Err(e) => error == Some(e)
          case Ok(h) => error == None && host == h && buffered == Tail(all)
      ensures host == if |old(buffered) + chunk| > MAX_FRAME then old(host)
                      else HostAfter(env, old(host), Lines(old(buffered) + chunk))
    {
      buffered := buffered + chunk;
      ghost var all, start := buffered, host;
      if |buffered| > MAX_FRAME {
        return Some(DockerOutputLimit);
      }
      var k := FirstNewline(buffered);
      while k < |buffered|
        invariant k == FirstNewline(buffered)
        invariant HandleLines(env, start, Lines(all)) == HandleLines(env, host, Lines(buffered))
        invariant HostAfter(env, start, Lines(all)) == HostAfter(env, host, Lines(buffered))
        invariant Tail(all) == Tail(buffered)
        decreases |buffered|
      {
        var line := buffered[..k];
        buffered := buffered[k + 1..];
        var handled := Handle(env, host, line);
        if handled.Err? {
          return Some(handled.error);
        }
        host := handled.value;
        k := FirstNewline(buffered);
      }
      return None;
    }

    /** All reads until the first error. */
    method ReadAll(chunks: seq<Bytes>) returns (error: Option<Error>)
      requires buffered == [] && host == START
      requires forall c <- chunks :: |c| <= READ_SIZE
      modifies this
      ensures FramesWithin(Concat(chunks), MAX_FRAME - READ_SIZE) ==>
        Handled(env, Concat(chunks), error, host, buffered)
      ensures error != Some(DockerOutputLimit) ==> Handled(env, Concat(chunks), error, host, buffered)
    {
      var i := 0;
      while i < |chunks|
        invariant 0 <= i <= |chunks|
        invariant HandleLines(env, START, Lines(Concat(chunks[..i]))) == Ok(host)
        invariant buffered == Tail(Concat(chunks[..i]))
      {
        OneMoreChunk(env, chunks, i);
        error := Feed(chunks[i]);
        if error.Some? {
          return;
        }
        i := i + 1;
      }
      assert chunks[..i] == chunks;
      AllHandled(env, START, Lines(Concat(chunks)));
      return None;
    }
  }

  /** What one more chunk adds, and what its error means for the whole stream. */
  lemma OneMoreChunk(env: Env, chunks: seq<Bytes>, i: nat)
    requires i < |chunks| && |chunks[i]| <= READ_SIZE
    requires HandleLines(env, START, Lines(Concat(chunks[..i]))).Ok?
    ensures var h := HandleLines(env, START, Lines(Concat(chunks[..i]))).value;
      var all := Tail(Concat(chunks[..i])) + chunks[i];
      && HandleLines(env, START, Lines(Concat(chunks[..i + 1]))) == HandleLines(env, h, Lines(all))
      && Tail(Concat(chunks[..i + 1])) == Tail(all)
      && (HandleLines(env, h, Lines(all)).Err? ==>
            && HandleLines(env, START, Lines(Concat(chunks))) == HandleLines(env, h, Lines(all))
            && HostAfter(env, START, Lines(Concat(chunks))) == HostAfter(env, h, Lines(all)))
      && (FramesWithin(Concat(chunks), MAX_FRAME - READ_SIZE) ==> |all| <= MAX_FRAME)
  {
    var before := Concat(chunks[..i]);
    assert chunks[..i + 1][..i] == chunks[..i];
    SplitAppend(before, chunks[i]);
    HandleAppend(env, START, Lines(before), Lines(Tail(before) + chunks[i]));
    var rest := ConcatSplit(chunks, i + 1);
    SplitAppend(before + chunks[i], rest);
    HandleAppend(env, START, Lines(before + chunks[i]), Lines(Tail(before + chunks[i]) + rest));
    if FramesWithin(Concat(chunks), MAX_FRAME - READ_SIZE) {
      var later := ConcatSplit(chunks, i);
      SplitAppend(before, later);
      UnfinishedLine(before, later, MAX_FRAME - READ_SIZE);
    }
  }

  /** A stream is what the first reads gave, followed by the rest. */
  lemma {:induction false} ConcatSplit(chunks: seq<Bytes>, n: nat) returns (rest: Bytes)
    requires n <= |chunks|
    ensures Concat(chunks) == Concat(chunks[..n]) + rest
    decreases |chunks|
  {
    if n == |chunks| {
      assert chunks[..n] == chunks;
      rest := [];
    } else {
      var most := chunks[..|chunks| - 1];
      assert most[..n] == chunks[..n];
      rest := ConcatSplit(most, n);
      rest := rest + chunks[|chunks| - 1];
    }
  }

  /** The unfinished line of a prefix is the beginning of a line of the whole stream. */
  lemma UnfinishedLine(s: Bytes, t: Bytes, limit: int)
    requires FramesWithin(s + t, limit)
    ensures |Tail(s)| <= limit
  {
    SplitAppend(s, t);
    LinesHoldNoNewline(s);
    var u := Tail(s) + t;
    var k := FirstNewline(u);
    assert forall i | 0 <= i < |Tail(s)| :: u[i] == Tail(s)[i];
    assert k >= |Tail(s)|;
    if k < |u| {
      assert Lines(u)[0] == u[..k];
      assert u[..k] in Lines(s + t);
    }
  }

  // ---------------------------------------------------------------- what any stream can make the host do

  function CheckIds(log: seq<Action>): seq<int> {
    if log == [] then []
    else CheckIds(log[..|log| - 1]) + if log[|log| - 1].StartCheck? then [log[|log| - 1].id] else []
  }

  function Results(log: seq<Action>): seq<Bytes> {
    if log == [] then []
    else Results(log[..|log| - 1]) + if log[|log| - 1].AcceptResult? then [log[|log| - 1].bytes] else []
  }

  function Relays(log: seq<Action>): set<nat> {
    set i | 0 <= i < |log| && log[i].StartRelay? :: log[i].thread
  }

  /** Checks are numbered from 0 in order. */
  ghost predicate ChecksInv(h: Host) {
    && h.checks <= MAX_CHECKS && |CheckIds(h.log)| == h.checks
    && forall i | 0 <= i < h.checks :: CheckIds(h.log)[i] == i
  }

  /** At most one result, small enough, is kept. */
  ghost predicate ResultsInv(env: Env, h: Host) {
    && Results(h.log) == (if h.result.Some? then [h.result.value] else [])
    && (h.result.Some? ==> |h.result.value| <= env.maxOutput)
  }

  /** Only the latest relay can still be running. */
  ghost predicate RelayInv(h: Host) {
    && (forall t <- Relays(h.log) + h.live :: t < h.handled)
    && (forall t <- h.live * Relays(h.log) :: h.relay == Some(t))
  }

  /** What one more entry adds to each reading of the log. */
  lemma LogGrows(log: seq<Action>, action: Action)
    ensures CheckIds(log + [action]) == CheckIds(log) + if action.StartCheck? then [action.id] else []
    ensures Results(log + [action]) == Results(log) + if action.AcceptResult? then [action.bytes] else []
    ensures Relays(log + [action]) == Relays(log) + if action.StartRelay? then {action.thread} else {}
  {
    var longer := log + [action];
    assert longer[..|longer| - 1] == log;
    forall t <- Relays(log) ensures t in Relays(longer) {
      var i :| 0 <= i < |log| && log[i].StartRelay? && log[i].thread == t;
      assert longer[i] == log[i];
    }
    assert longer[|log|] == action;
  }

  /** Every handled message is logged as one action, and the counters follow the log. */
  lemma Logged(env: Env, h: Host, line: Line) returns (a: Action)
    requires Handle(env, h, line).Ok?
    ensures var h' := Handle(env, h, line).value;
      && h'.log == h.log + [a]
      && h'.checks == h.checks + (if a.StartCheck? then 1 else 0)
      && (a.StartCheck? ==> a.id == h.checks < MAX_CHECKS)
      && h'.result == (if a.AcceptResult? then Some(a.bytes) else h.result)
      && (a.AcceptResult? ==> h.result == None && |a.bytes| <= env.maxOutput)
  {
    match env.parse(line)
    case ModelRequest => a := StartRelay(h.handled);
    case ProviderTrace(size) => a := KeepTrace(size);
    case SourceCandidate(_) => a := StartCheck(h.checks);
    case ResultFrame(bytes) => a := AcceptResult(bytes);
    case _ =>
  }

  lemma HandleKeepsCounts(env: Env, h: Host, line: Line)
    requires ChecksInv(h) && ResultsInv(env, h) && Handle(env, h, line).Ok?
    ensures ChecksInv(Handle(env, h, line).value) && ResultsInv(env, Handle(env, h, line).value)
  {
    var a := Logged(env, h, line);
    LogGrows(h.log, a);
  }

  lemma HandleKeepsRelay(env: Env, h: Host, line: Line)
    requires RelayInv(h) && Handle(env, h, line).Ok?
    ensures RelayInv(Handle(env, h, line).value)
  {
    match env.parse(line)
    case ModelRequest => LogGrows(h.log, StartRelay(h.handled));
    case ProviderTrace(size) => LogGrows(h.log, KeepTrace(size));
    case SourceCandidate(_) => LogGrows(h.log, StartCheck(h.checks));
    case ResultFrame(bytes) => LogGrows(h.log, AcceptResult(bytes));
    case _ =>
  }

  lemma {:induction false} StreamInv(env: Env, h: Host, lines: seq<Line>)
    requires ChecksInv(h) && ResultsInv(env, h) && RelayInv(h) && HandleLines(env, h, lines).Ok?
    ensures var after := HandleLines(env, h, lines).value; ChecksInv(after) && ResultsInv(env, after) && RelayInv(after)
    decreases |lines|
  {
    if lines != [] {
      HandleKeepsCounts(env, h, lines[0]);
      HandleKeepsRelay(env, h, lines[0]);
      StreamInv(env, Handle(env, h, lines[0]).value, lines[1..]);
    }
  }

  /**
   Over any stream, up to its first error if it has one: at most one result is accepted and
   it is within the output limit, source candidates are accepted only as 0, 1, 2 in order,
   and two relays never run at once.
   */
  lemma StreamIsBounded(env: Env, lines: seq<Line>)
    ensures var h := HostAfter(env, START, lines);
      && |Results(h.log)| <= 1 && (forall r <- Results(h.log) :: |r| <= env.maxOutput)
      && CheckIds(h.log) <= [0, 1, 2]
      && |h.live * Relays(h.log)| <= 1
  {
    var n := HostAfterIsLongest(env, START, lines);
    StreamInv(env, START, lines[..n]);
    OneRelay(HostAfter(env, START, lines));
  }

  lemma OneRelay(h: Host)
    requires RelayInv(h)
    ensures |h.live * Relays(h.log)| <= 1
  {
    if h.live * Relays(h.log) != {} {
      assert h.live * Relays(h.log) == {h.relay.value};
    }
  }
}
