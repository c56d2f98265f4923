/**
 Which streams the host accepts (artifacts/codeagent-launcher/docker_executor.py), said of the
 whole stream: message by message and without the host's state.
 */
module FrameStream {
  import opened ByteStrings
  import opened FrameReader
  import opened Outcomes

  function MessageAt(env: Env, lines: seq<Line>, k: nat): Message
    requires k < |lines|
  {
    env.parse(lines[k])
  }

  /** The thread that message `t` started has ended before message `n` would be handled next. */
  ghost predicate Over(env: Env, t: nat, n: nat) {
    exists i: nat :: t < i < n && t in env.ended(i)
  }

  function TraceBytes(env: Env, lines: seq<Line>): nat {
    if lines == [] then 0
    else
      var m := env.parse(lines[|lines| - 1]);
      TraceBytes(env, lines[..|lines| - 1]) + if m.ProviderTrace? then m.size else 0
  }

  function Candidates(env: Env, lines: seq<Line>): nat {
    if lines == [] then 0
    else Candidates(env, lines[..|lines| - 1]) + if env.parse(lines[|lines| - 1]).SourceCandidate? then 1 else 0
  }

  /** Every earlier message of this kind started a thread that has ended. */
  ghost predicate RelaysOver(env: Env, lines: seq<Line>, k: nat)
    requires k < |lines|
  {
    forall j | 0 <= j < k && MessageAt(env, lines, j).ModelRequest? :: Over(env, j, k + 1)
  }

  ghost predicate ChecksOver(env: Env, lines: seq<Line>, k: nat)
    requires k < |lines|
  {
    forall j | 0 <= j < k && MessageAt(env, lines, j).SourceCandidate? :: Over(env, j, k + 1)
  }

  /** A message that the stream may have here. */
  ghost predicate Fits(env: Env, lines: seq<Line>, k: nat)
    requires k < |lines|
  {
    match MessageAt(env, lines, k)
    case ModelRequest => RelaysOver(env, lines, k)
    case ProviderTrace(size) => size <= MAX_TRACE && TraceBytes(env, lines[..k + 1]) <= MAX_TRACES
    case SourceCandidate(id) =>
      && env.hasChecker && id == Some(Candidates(env, lines[..k])) && Candidates(env, lines[..k]) < MAX_CHECKS
      && ChecksOver(env, lines, k)
    case ResultFrame(bytes) =>
      |bytes| <= env.maxOutput && forall j | 0 <= j < k :: !MessageAt(env, lines, j).ResultFrame?
    case Failed(_) => false
    case Unknown => false
    case Malformed => false
  }

  /** The error that belongs to a message that does not fit. */
  ghost predicate Blames(env: Env, lines: seq<Line>, k: nat, error: Error)
    requires k < |lines|
  {
    match MessageAt(env, lines, k)
    case ModelRequest => error == ParallelRequestDenied
    case ProviderTrace(_) => error == TraceLimit
    case SourceCandidate(_) => error == CompilerProtocolInvalid
    case ResultFrame(_) =>
      if exists j :: 0 <= j < k && MessageAt(env, lines, j).ResultFrame? then error == DuplicateResult
      else error == ProviderOutputLimit
    case Failed(code) => error == ProviderFailed(code)
    case Unknown => error == ProtocolInvalid
    case Malformed => error == ProtocolInvalid
  }

  /** What the host does for message `k`. */
  function ActionFor(env: Env, lines: seq<Line>, k: nat): Action
    requires k < |lines|
  {
    match MessageAt(env, lines, k)
    case ModelRequest => StartRelay(k)
    case ProviderTrace(size) => KeepTrace(size)
    case SourceCandidate(_) => StartCheck(Candidates(env, lines[..k]))
    case ResultFrame(bytes) => AcceptResult(bytes)
    case _ => KeepTrace(0)
  }

  /** The index of the latest message of a kind. */
  ghost predicate IsLatest(env: Env, lines: seq<Line>, found: Option<nat>, kind: Message -> bool) {
    match found
    case None => forall j | 0 <= j < |lines| :: !kind(MessageAt(env, lines, j))
    case Some(t) =>
      t < |lines| && kind(MessageAt(env, lines, t)) && forall j | t < j < |lines| :: !kind(MessageAt(env, lines, j))
  }

  predicate IsRequest(m: Message) { m.ModelRequest? }
  predicate IsCandidate(m: Message) { m.SourceCandidate? }

  ghost predicate ThreadsOf(env: Env, lines: seq<Line>, h: Host) {
    && IsLatest(env, lines, h.relay, IsRequest) && IsLatest(env, lines, h.checker, IsCandidate)
    && forall t: nat :: t in h.live <==>
         && t < |lines| && !Over(env, t, |lines|)
         && (IsRequest(MessageAt(env, lines, t)) || IsCandidate(MessageAt(env, lines, t)))
  }

  /** Of each kind only the latest thread can be running. */
  ghost predicate OthersOver(env: Env, lines: seq<Line>, h: Host) {
    && (forall j | 0 <= j < |lines| && IsRequest(MessageAt(env, lines, j)) && h.relay != Some(j) ::
          Over(env, j, |lines|))
    && (forall j | 0 <= j < |lines| && IsCandidate(MessageAt(env, lines, j)) && h.checker != Some(j) ::
          Over(env, j, |lines|))
  }

  ghost predicate ResultOf(env: Env, lines: seq<Line>, h: Host) {
    match h.result
    case None => forall j | 0 <= j < |lines| :: !MessageAt(env, lines, j).ResultFrame?
    case Some(bytes) => exists j :: 0 <= j < |lines| && MessageAt(env, lines, j) == ResultFrame(bytes)
  }

  /** The host after these lines, all of which fit. */
  ghost predicate HostOf(env: Env, lines: seq<Line>, h: Host) {
    && h.handled == |lines| && h.traceBytes == TraceBytes(env, lines) && h.checks == Candidates(env, lines)
    && ThreadsOf(env, lines, h) && OthersOver(env, lines, h) && ResultOf(env, lines, h)
    && |h.log| == |lines| && forall k | 0 <= k < |lines| :: h.log[k] == ActionFor(env, lines, k)
  }

  lemma OverGrows(env: Env, t: nat, n: nat)
    requires t < n
    ensures Over(env, t, n + 1) <==> Over(env, t, n) || t in env.ended(n)
  {
    if Over(env, t, n) {
      var i: nat :| t < i < n && t in env.ended(i);
      assert i < n + 1;
    }
  }

  lemma OneFits(env: Env, lines: seq<Line>, h: Host)
    requires lines != [] && HostOf(env, lines[..|lines| - 1], h)
    ensures var last := |lines| - 1;
      Handle(env, h, lines[last]).Ok? <==> Fits(env, lines, last)
  {
    var before, last := lines[..|lines| - 1], |lines| - 1;
    assert lines[..last + 1] == lines;
    forall j | 0 <= j < last ensures MessageAt(env, lines, j) == MessageAt(env, before, j) {
      OverGrows(env, j, last);
    }
    RelayFits(env, lines, h);
  }

  lemma RelayFits(env: Env, lines: seq<Line>, h: Host)
    requires lines != [] && HostOf(env, lines[..|lines| - 1], h)
    ensures var last := |lines| - 1; var live := h.live - env.ended(last);
      && (RelaysOver(env, lines, last) <==> !(h.relay.Some? && h.relay.value in live))
      && (ChecksOver(env, lines, last) <==> !(h.checker.Some? && h.checker.value in live))
  {
    var before, last := lines[..|lines| - 1], |lines| - 1;
    forall j | 0 <= j < last
      ensures MessageAt(env, lines, j) == MessageAt(env, before, j)
      ensures Over(env, j, last + 1) <==> Over(env, j, last) || j in env.ended(last)
    {
      OverGrows(env, j, last);
    }
  }

  lemma OneBlamed(env: Env, lines: seq<Line>, h: Host)
    requires lines != [] && HostOf(env, lines[..|lines| - 1], h)
    ensures var r := Handle(env, h, lines[|lines| - 1]); r.Err? ==> Blames(env, lines, |lines| - 1, r.error)
  {
    var before, last := lines[..|lines| - 1], |lines| - 1;
    assert forall j | 0 <= j < last :: MessageAt(env, lines, j) == MessageAt(env, before, j);
  }

  /** The host goes on being the host of the lines. */
  lemma ThreadsGrow(env: Env, lines: seq<Line>, h: Host)
    requires lines != [] && HostOf(env, lines[..|lines| - 1], h) && Handle(env, h, lines[|lines| - 1]).Ok?
    ensures var h' := Handle(env, h, lines[|lines| - 1]).value; ThreadsOf(env, lines, h')
  {
    var before, last := lines[..|lines| - 1], |lines| - 1;
    assert forall j | 0 <= j < last :: MessageAt(env, lines, j) == MessageAt(env, before, j);
    forall t: nat | t < last ensures Over(env, t, last + 1) <==> Over(env, t, last) || t in env.ended(last) {
      OverGrows(env, t, last);
    }
    assert !Over(env, last, last + 1);
  }

  lemma OthersStayOver(env: Env, lines: seq<Line>, h: Host)
    requires lines != [] && HostOf(env, lines[..|lines| - 1], h) && Handle(env, h, lines[|lines| - 1]).Ok?
    ensures var h' := Handle(env, h, lines[|lines| - 1]).value; OthersOver(env, lines, h')
  {
    var before, last := lines[..|lines| - 1], |lines| - 1;
    forall j | 0 <= j < last
      ensures MessageAt(env, lines, j) == MessageAt(env, before, j)
      ensures Over(env, j, last + 1) <==> Over(env, j, last) || j in env.ended(last)
    {
      OverGrows(env, j, last);
    }
    RelayFits(env, lines, h);
    OneFits(env, lines, h);
  }

  lemma ResultGrows(env: Env, lines: seq<Line>, h: Host)
    requires lines != [] && HostOf(env, lines[..|lines| - 1], h) && Handle(env, h, lines[|lines| - 1]).Ok?
    ensures var h' := Handle(env, h, lines[|lines| - 1]).value; ResultOf(env, lines, h')
  {
    var before, last := lines[..|lines| - 1], |lines| - 1;
    assert forall j | 0 <= j < last :: MessageAt(env, lines, j) == MessageAt(env, before, j);
    if h.result.Some? {
      var j :| 0 <= j < last && MessageAt(env, before, j) == ResultFrame(h.result.value);
      assert MessageAt(env, lines, j) == ResultFrame(h.result.value);
    } else if env.parse(lines[last]).ResultFrame? {
      assert MessageAt(env, lines, last) == env.parse(lines[last]);
    }
  }

  lemma LogGrowsBy(env: Env, lines: seq<Line>, h: Host)
    requires lines != [] && HostOf(env, lines[..|lines| - 1], h) && Handle(env, h, lines[|lines| - 1]).Ok?
    ensures var h' := Handle(env, h, lines[|lines| - 1]).value;
      && |h'.log| == |lines| && forall k | 0 <= k < |lines| :: h'.log[k] == ActionFor(env, lines, k)
  {
    var before, last := lines[..|lines| - 1], |lines| - 1;
    forall k | 0 <= k < last ensures ActionFor(env, lines, k) == ActionFor(env, before, k) {
      assert before[..k] == lines[..k];
    }
  }

  /** A stream is handled without an error exactly when every message fits, and the host did what they ask, in order. */
  lemma {:induction false} StreamHandled(env: Env, lines: seq<Line>)
    ensures HandleLines(env, START, lines).Ok? <==> forall k | 0 <= k < |lines| :: Fits(env, lines, k)
    ensures HandleLines(env, START, lines).Ok? ==> HostOf(env, lines, HandleLines(env, START, lines).value)
    decreases |lines|
  {
    if lines != [] {
      var before, last := lines[..|lines| - 1], |lines| - 1;
      StreamHandled(env, before);
      SameFits(env, lines, before);
      assert before + [lines[last]] == lines;
      HandleAppend(env, START, before, [lines[last]]);
      if HandleLines(env, START, before).Ok? {
        var h := HandleLines(env, START, before).value;
        OneFits(env, lines, h);
        if Handle(env, h, lines[last]).Ok? {
          ThreadsGrow(env, lines, h);
          OthersStayOver(env, lines, h);
          ResultGrows(env, lines, h);
          LogGrowsBy(env, lines, h);
        }
      }
    }
  }

  /** Whether a message fits depends on what came before it. */
  lemma SameFits(env: Env, lines: seq<Line>, before: seq<Line>)
    requires before <= lines
    ensures forall k | 0 <= k < |before| :: Fits(env, before, k) <==> Fits(env, lines, k)
  {
    forall k | 0 <= k < |before| ensures Fits(env, before, k) <==> Fits(env, lines, k) {
      assert before[..k] == lines[..k] && before[..k + 1] == lines[..k + 1];
      assert forall j | 0 <= j <= k :: MessageAt(env, lines, j) == MessageAt(env, before, j);
    }
  }

  lemma SameBlames(env: Env, lines: seq<Line>, before: seq<Line>, k: nat, error: Error)
    requires before <= lines && k < |before|
    ensures Blames(env, before, k, error) <==> Blames(env, lines, k, error)
  {
    assert forall j | 0 <= j <= k :: MessageAt(env, lines, j) == MessageAt(env, before, j);
  }

  /** Otherwise the error is that of the first message that does not fit, and the host is that of those before it. */
  lemma {:induction false} FirstMisfit(env: Env, lines: seq<Line>) returns (k: nat)
    requires HandleLines(env, START, lines).Err?
    ensures k < |lines| && !Fits(env, lines, k) && forall j | 0 <= j < k :: Fits(env, lines, j)
    ensures Blames(env, lines, k, HandleLines(env, START, lines).error)
    ensures HostOf(env, lines[..k], HostAfter(env, START, lines))
    decreases |lines|
  {
    var before, last := lines[..|lines| - 1], |lines| - 1;
    assert before + [lines[last]] == lines;
    HandleAppend(env, START, before, [lines[last]]);
    StreamHandled(env, before);
    SameFits(env, lines, before);
    if HandleLines(env, START, before).Ok? {
      k := last;
      var h := HandleLines(env, START, before).value;
      OneFits(env, lines, h);
      OneBlamed(env, lines, h);
      AllHandled(env, START, before);
    } else {
      k := FirstMisfit(env, before);
      SameBlames(env, lines, before, k, HandleLines(env, START, lines).error);
      assert before[..k] == lines[..k];
    }
  }
}
