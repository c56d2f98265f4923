/**
 Runs of the Docker admission protocol put together event by event: the worlds that some
 run reaches from a given world.
 */
module DockerRuns {
  import opened DockerAdmission

  ghost predicate Reaches(w: World, w': World, rule: Rule) {
    exists ws :: Runs(ws, w, rule) && ws[|ws| - 1] == w'
  }

  ghost predicate Reachable(w: World, rule: Rule) {
    exists start :: Init(start) && Reaches(start, w, rule)
  }

  /** A set of worlds that is closed under the events of the rule. */
  ghost predicate Closed(good: World -> bool, rule: Rule) {
    forall w: World, e: Event {:trigger good(w), Effect(w, e)} |
      good(w) && Enabled(w, e) && Allows(rule, w, e) :: good(Effect(w, e))
  }

  lemma RunGrows(ws: seq<World>, w: World, e: Event, rule: Rule)
    requires Runs(ws, w, rule) && Enabled(ws[|ws| - 1], e) && Allows(rule, ws[|ws| - 1], e)
    ensures Runs(ws + [Effect(ws[|ws| - 1], e)], w, rule)
  {
    var last := Effect(ws[|ws| - 1], e);
    var more := ws + [last];
    forall i: nat | i + 1 < |more| ensures NextAt(more, i, rule) {
      if i + 1 < |ws| {
        assert NextAt(ws, i, rule);
      } else {
        assert Next(ws[i], last, rule);
      }
    }
  }

  lemma ReachesMore(w: World, v: World, e: Event, rule: Rule)
    requires Reaches(w, v, rule) && Enabled(v, e) && Allows(rule, v, e)
    ensures Reaches(w, Effect(v, e), rule)
  {
    var ws :| Runs(ws, w, rule) && ws[|ws| - 1] == v;
    RunGrows(ws, w, e, rule);
    assert (ws + [Effect(v, e)])[|ws|] == Effect(v, e);
  }

  lemma ReachesItself(w: World, rule: Rule)
    ensures Reaches(w, w, rule)
  {
    assert Runs([w], w, rule);
  }

  lemma ReachesClosed(w: World, rule: Rule)
    ensures Closed(v => Reaches(w, v, rule), rule)
  {
    var good := v => Reaches(w, v, rule);
    forall v: World, e: Event | good(v) && Enabled(v, e) && Allows(rule, v, e) ensures good(Effect(v, e)) {
      ReachesMore(w, v, e, rule);
    }
  }

  lemma Reach(good: World -> bool, rule: Rule, w: World, e: Event, w': World)
    requires Closed(good, rule) && good(w)
    requires Enabled(w, e) && Allows(rule, w, e) && w' == Effect(w, e)
    ensures good(w')
  {
  }
}
