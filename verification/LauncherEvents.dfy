/** Progress events by cursor (`list_events` in artifacts/codeagent-launcher/codeagent_launcher.py). */
module LauncherEvents {
  import opened Launcher

  datatype Page = Page(events: seq<Event>, cursor: nat, hasMore: bool)

  function Matching(events: seq<Event>, after: nat): seq<Event> {
    if events == [] then []
    else if events[0].sequence > after then [events[0]] + Matching(events[1..], after)
    else Matching(events[1..], after)
  }

  function ListPage(events: seq<Event>, after: nat, limit: nat): Page {
    var matching := Matching(events, after);
    var page := if |matching| <= limit then matching else matching[..limit];
    Page(page, if page == [] then after else page[|page| - 1].sequence, |matching| > |page|)
  }

  lemma {:induction false} MatchingIsSuffix(events: seq<Event>, first: nat, after: nat)
    requires forall i | 0 <= i < |events| :: events[i].sequence == first + i + 1
    ensures Matching(events, after) ==
            if after <= first then events else if after - first <= |events| then events[after - first..] else []
    decreases |events|
  {
    if events != [] {
      MatchingIsSuffix(events[1..], first + 1, after);
      if after <= first {
        assert [events[0]] + events[1..] == events;
      }
    }
  }

  /** A page is the stretch of the log right after the cursor. */
  lemma PageIsSlice(events: seq<Event>, after: nat, limit: nat)
    requires LogInv(events) && after <= |events| && limit >= 1
    ensures var p := ListPage(events, after, limit);
      && after <= p.cursor <= |events|
      && p.events == events[after..p.cursor]
      && (p.hasMore <==> p.cursor < |events|)
      && (after < |events| ==> after < p.cursor)
  {
    MatchingIsSuffix(events, 0, after);
    var rest := events[after..];
    assert Matching(events, after) == rest;
    var n := if |rest| <= limit then |rest| else limit;
    assert rest[..n] == events[after..after + n];
    assert ListPage(events, after, limit).events == rest[..n];
    if n > 0 {
      assert rest[..n][n - 1] == events[after + n - 1];
    }
  }

  /** One poll: the log as it was at that moment, and the page limit the client chose. */
  datatype Poll = Poll(log: seq<Event>, limit: nat)

  datatype Follower = Follower(seen: seq<Event>, cursor: nat)

  function Follow(polls: seq<Poll>): Follower {
    if polls == [] then Follower([], 0)
    else
      var before := Follow(polls[..|polls| - 1]);
      var poll := polls[|polls| - 1];
      var page := ListPage(poll.log, before.cursor, poll.limit);
      Follower(before.seen + page.events, page.cursor)
  }

  ghost predicate GrowingLog(polls: seq<Poll>) {
    && (forall i | 0 <= i < |polls| :: LogInv(polls[i].log) && 1 <= polls[i].limit <= MAX_EVENT_PAGE_SIZE)
    && (forall i, j | 0 <= i <= j < |polls| :: polls[i].log <= polls[j].log)
  }

  /**
   A client that follows cursors, with any limits, while events are still being added,
   has seen exactly the first `cursor` events of the log: each once, in order.
   */
  lemma {:induction false} FollowingSeesEachOnce(polls: seq<Poll>)
    requires GrowingLog(polls) && polls != []
    ensures var f := Follow(polls); var log := polls[|polls| - 1].log;
      && f.cursor <= |log|
      && f.seen == log[..f.cursor]
    ensures !ListPage(polls[|polls| - 1].log, Follow(polls[..|polls| - 1]).cursor, polls[|polls| - 1].limit).hasMore
            ==> Follow(polls).seen == polls[|polls| - 1].log
  {
    var n := |polls| - 1;
    var before := Follow(polls[..n]);
    var log := polls[n].log;
    if n > 0 {
      FollowingSeesEachOnce(polls[..n]);
      assert polls[n - 1].log <= log;
      SamePrefix(polls[n - 1].log, log, before.cursor);
    }
    PageIsSlice(log, before.cursor, polls[n].limit);
    SliceJoins(log, before.cursor, Follow(polls).cursor);
  }

  lemma SamePrefix(shorter: seq<Event>, longer: seq<Event>, n: nat)
    requires shorter <= longer && n <= |shorter|
    ensures shorter[..n] == longer[..n]
  {
  }

  lemma SliceJoins(log: seq<Event>, a: nat, b: nat)
    requires a <= b <= |log|
    ensures log[..a] + log[a..b] == log[..b]
    ensures b == |log| ==> log[..b] == log
  {
  }
}
