/** The correlation rules of internal/rules/rules.go: sliding windows kept by a leading
    trim, proved equal to filters over everything ever observed. */
module Rules {
  import opened Alerts

  const KIND_DERIVED := "Derived"

  datatype Shape =
    | Count(selector: map<string, string>, threshold: int)
    | All(selectors: seq<map<string, string>>)
    | Absent(selector: map<string, string>, forSeconds: Time)
    | Idle

  datatype Rule = Rule(name: string, severity: string, window: Time, shape: Shape)

  /** An alert the engine took in, with the engine's clock reading. */
  datatype Observation = Observation(a: Alert, at: Time)

  // ---------------------------------------------------------------- the history

  /** Which alerts a selector picks. */
  function Picks(rx: Regex, selector: map<string, string>): Alert -> bool {
    a => Matches(rx, a, selector)
  }

  /** The times of the matching observations no older than the cutoff. */
  function Windowed(hit: Alert -> bool, history: seq<Observation>, cutoff: Time): seq<Time> {
    if history == [] then []
    else
      var front, last := Windowed(hit, history[..|history| - 1], cutoff), history[|history| - 1];
      if hit(last.a) && last.at >= cutoff then front + [last.at] else front
  }

  /** The time of the latest matching observation, or the zero time. */
  function LastHit(hit: Alert -> bool, history: seq<Observation>): Time {
    if history == [] then ZERO_TIME
    else
      var last := history[|history| - 1];
      if hit(last.a) then last.at else LastHit(hit, history[..|history| - 1])
  }

  predicate Hit(hit: Alert -> bool, o: Observation, from: Time) {
    hit(o.a) && o.at >= from
  }

  ghost predicate Seen(hit: Alert -> bool, history: seq<Observation>, from: Time) {
    exists o | o in history :: Hit(hit, o, from)
  }

  lemma SeenNext(hit: Alert -> bool, history: seq<Observation>, from: Time)
    requires history != []
    ensures Seen(hit, history, from)
       <==> Seen(hit, history[..|history| - 1], from) || Hit(hit, history[|history| - 1], from)
  {
    var front, last := history[..|history| - 1], history[|history| - 1];
    assert history == front + [last] && last in history;
    assert forall o | o in front :: o in history;
  }

  /** Real instants, none before the engine's start, that never go back. */
  predicate Ordered(history: seq<Observation>, start: Time) {
    && ZERO_TIME < start
    && (forall i | 0 <= i < |history| :: start <= history[i].at)
    && (forall i, j | 0 <= i < j < |history| :: history[i].at <= history[j].at)
  }

  function Horizon(history: seq<Observation>, start: Time): Time {
    if history == [] then start else history[|history| - 1].at
  }

  lemma OrderedNext(history: seq<Observation>, o: Observation, start: Time)
    requires Ordered(history, start) && Horizon(history, start) <= o.at
    ensures Ordered(history + [o], start) && Horizon(history + [o], start) == o.at
  {
  }

  predicate Ascending(ts: seq<Time>) {
    forall i, j | 0 <= i < j < |ts| :: ts[i] <= ts[j]
  }

  predicate UpTo(ts: seq<Time>, bound: Time) {
    forall i | 0 <= i < |ts| :: ts[i] <= bound
  }

  function Recent(ts: seq<Time>, cutoff: Time): seq<Time> {
    if ts == [] then []
    else
      var front, last := Recent(ts[..|ts| - 1], cutoff), ts[|ts| - 1];
      if last >= cutoff then front + [last] else front
  }

  /** On an ascending list the leading trim drops exactly what the filter drops. */
  lemma {:induction false} TrimIsFilter(ts: seq<Time>, cutoff: Time, i: nat)
    requires i <= |ts|
    requires (forall k | 0 <= k < i :: ts[k] < cutoff) && (forall k | i <= k < |ts| :: ts[k] >= cutoff)
    ensures Recent(ts, cutoff) == ts[i..]
  {
    if ts != [] {
      var n := |ts| - 1;
      if i <= n {
        TrimIsFilter(ts[..n], cutoff, i);
        assert ts[i..] == ts[..n][i..] + [ts[n]];
      } else {
        TrimIsFilter(ts[..n], cutoff, n);
        assert ts[..n][n..] == [] && ts[i..] == [];
      }
    }
  }

  method Prune(ts: seq<Time>, now: Time, d: Time) returns (r: seq<Time>)
    requires Ascending(ts)
    ensures r == Recent(ts, now - d)
  {
    var cutoff, i := now - d, 0;
    while i < |ts| && ts[i] < cutoff
      invariant 0 <= i <= |ts|
      invariant forall k | 0 <= k < i :: ts[k] < cutoff
    {
      i := i + 1;
    }
    TrimIsFilter(ts, cutoff, i);
    r := ts[i..];
  }

  lemma {:induction false} WindowedAscends(hit: Alert -> bool, history: seq<Observation>, cutoff: Time, start: Time)
    requires Ordered(history, start)
    ensures var ts := Windowed(hit, history, cutoff);
      Ascending(ts) && UpTo(ts, Horizon(history, start))
  {
    if history != [] {
      var front, last := history[..|history| - 1], history[|history| - 1];
      assert front + [last] == history;
      HorizonAscends(front, last, start);
      WindowedAscends(hit, front, cutoff, start);
      AscendingSnoc(Windowed(hit, front, cutoff), Horizon(front, start), last.at);
    }
  }

  lemma AscendingSnoc(ts: seq<Time>, bound: Time, t: Time)
    requires Ascending(ts) && UpTo(ts, bound) && bound <= t
    ensures Ascending(ts + [t]) && UpTo(ts + [t], t) && UpTo(ts, t)
  {
  }

  lemma HorizonAscends(history: seq<Observation>, o: Observation, start: Time)
    requires Ordered(history + [o], start)
    ensures Ordered(history, start) && Horizon(history, start) <= o.at
  {
    var all := history + [o];
    assert all[|history|] == o && forall i | 0 <= i < |history| :: all[i] == history[i];
  }

  lemma {:induction false} RecentOfWindowed(hit: Alert -> bool, history: seq<Observation>, early: Time, late: Time)
    requires early <= late
    ensures Recent(Windowed(hit, history, early), late) == Windowed(hit, history, late)
  {
    if history != [] {
      var ts, last := Windowed(hit, history[..|history| - 1], early), history[|history| - 1];
      RecentOfWindowed(hit, history[..|history| - 1], early, late);
      assert (ts + [last.at])[..|ts|] == ts;
    }
  }

  /** Appending a match and trimming again keeps the list equal to the filtered history. */
  lemma WindowSlides(hit: Alert -> bool, history: seq<Observation>, o: Observation, early: Time, late: Time)
    requires early <= late
    ensures var ts := Windowed(hit, history, early);
      Recent(if hit(o.a) then ts + [o.at] else ts, late)
      == Windowed(hit, history + [o], late)
  {
    var ts := Windowed(hit, history, early);
    RecentOfWindowed(hit, history, early, late);
    assert (history + [o])[..|history|] == history && (ts + [o.at])[..|ts|] == ts;
  }

  // ---------------------------------------------------------------- when rules fire

  /** The windowed counts of the full history that make a Count or an All rule fire. */
  ghost predicate Fires(rx: Regex, r: Rule, history: seq<Observation>, now: Time) {
    match r.shape
    case Count(selector, threshold) => |Windowed(Picks(rx, selector), history, now - r.window)| >= threshold
    case All(selectors) =>
      selectors != [] && forall g | 0 <= g < |selectors| :: Seen(Picks(rx, selectors[g]), history, now - r.window)
    case _ => false
  }

  /** No heartbeat for longer than the window, the engine itself being older than that. */
  ghost predicate Silent(rx: Regex, r: Rule, history: seq<Observation>, start: Time, now: Time) {
    && r.shape.Absent?
    && now - start > r.shape.forSeconds
    && !Seen(Picks(rx, r.shape.selector), history, now - r.shape.forSeconds)
  }

  lemma {:induction false} WindowedHasHit(hit: Alert -> bool, history: seq<Observation>, cutoff: Time)
    ensures Windowed(hit, history, cutoff) != [] <==> Seen(hit, history, cutoff)
  {
    if history != [] {
      WindowedHasHit(hit, history[..|history| - 1], cutoff);
      SeenNext(hit, history, cutoff);
    }
  }

  lemma LastHitNext(hit: Alert -> bool, history: seq<Observation>, o: Observation)
    ensures LastHit(hit, history + [o]) == if hit(o.a) then o.at else LastHit(hit, history)
  {
    assert (history + [o])[..|history|] == history;
  }

  /** A trimmed list: the filtered history, empty only if nothing matched in the window. */
  ghost predicate Slid(hit: Alert -> bool, ts: seq<Time>, history: seq<Observation>, cutoff: Time) {
    ts == Windowed(hit, history, cutoff) && (ts != [] <==> Seen(hit, history, cutoff))
  }

  /** A match at the end of an ordered history keeps the list ascending. */
  lemma AppendAscends(hit: Alert -> bool, history: seq<Observation>, start: Time, now: Time, cutoff: Time)
    requires Ordered(history, start) && Horizon(history, start) <= now
    ensures Ascending(Windowed(hit, history, cutoff)) && Ascending(Windowed(hit, history, cutoff) + [now])
  {
    WindowedAscends(hit, history, cutoff, start);
    AscendingSnoc(Windowed(hit, history, cutoff), Horizon(history, start), now);
  }

  /** Append and trim. */
  lemma SlideKeeps(hit: Alert -> bool, history: seq<Observation>, o: Observation, early: Time, late: Time)
    requires early <= late
    ensures var was := Windowed(hit, history, early);
      Slid(hit, Recent(if hit(o.a) then was + [o.at] else was, late), history + [o], late)
  {
    var next := history + [o];
    WindowSlides(hit, history, o, early, late);
    WindowedHasHit(hit, next, late);
  }

  ghost predicate SlidAll(rx: Regex, selectors: seq<map<string, string>>, groups: seq<seq<Time>>,
                          history: seq<Observation>, cutoff: Time)
  {
    |groups| == |selectors|
    && forall g | 0 <= g < |selectors| :: Slid(Picks(rx, selectors[g]), groups[g], history, cutoff)
  }

  lemma GroupsFire(rx: Regex, r: Rule, groups: seq<seq<Time>>, history: seq<Observation>, now: Time, active: bool)
    requires r.shape.All? && SlidAll(rx, r.shape.selectors, groups, history, now - r.window)
    requires active <==> groups != [] && forall g | 0 <= g < |groups| :: groups[g] != []
    ensures active <==> Fires(rx, r, history, now)
  {
    forall g | 0 <= g < |groups|
      ensures groups[g] != [] <==> Seen(Picks(rx, r.shape.selectors[g]), history, now - r.window)
    {
      assert Slid(Picks(rx, r.shape.selectors[g]), groups[g], history, now - r.window);
    }
  }

  lemma {:induction false} LastHitIsLatest(hit: Alert -> bool, history: seq<Observation>, start: Time, from: Time)
    requires Ordered(history, start) && ZERO_TIME < from
    ensures LastHit(hit, history) >= from <==> Seen(hit, history, from)
    ensures LastHit(hit, history) == ZERO_TIME || LastHit(hit, history) >= start
  {
    if history != [] {
      var front, last := history[..|history| - 1], history[|history| - 1];
      LastHitIsLatest(hit, front, start, from);
      SeenNext(hit, history, from);
      if hit(last.a) && Seen(hit, front, from) {
        var o :| o in front && Hit(hit, o, from);
        assert o.at <= last.at;
      }
    }
  }

  ghost function Firing(rx: Regex, history: seq<Observation>, now: Time): Rule -> bool {
    r => Fires(rx, r, history, now)
  }

  ghost function Quiet(rx: Regex, history: seq<Observation>, start: Time, now: Time): Rule -> bool {
    r => Silent(rx, r, history, start, now)
  }

  /** Exactly the first n rules the predicate picks, in order. */
  ghost predicate Names(fired: seq<nat>, rules: seq<Rule>, n: nat, picks: Rule -> bool)
    requires n <= |rules|
  {
    && (forall i: nat :: i in fired <==> i < n && picks(rules[i]))
    && (forall i, j | 0 <= i < j < |fired| :: fired[i] < fired[j])
  }

  lemma NamesNext(fired: seq<nat>, rules: seq<Rule>, n: nat, picks: Rule -> bool)
    requires n < |rules| && Names(fired, rules, n, picks)
    ensures Names(if picks(rules[n]) then fired + [n] else fired, rules, n + 1, picks)
  {
    assert forall i | 0 <= i < |fired| :: fired[i] in fired;
  }

  lemma FiringNext(rx: Regex, fired: seq<nat>, rules: seq<Rule>, n: nat, hit: bool, history: seq<Observation>, now: Time)
    requires n < |rules| && Names(fired, rules, n, Firing(rx, history, now)) && (hit <==> Fires(rx, rules[n], history, now))
    ensures Names(if hit then fired + [n] else fired, rules, n + 1, Firing(rx, history, now))
  {
    NamesNext(fired, rules, n, Firing(rx, history, now));
  }

  // ---------------------------------------------------------------- what firing means

  /** The observations since `from` that match the selector, by position. */
  function Hits(rx: Regex, selector: map<string, string>, history: seq<Observation>, from: Time): set<nat> {
    set i: nat | i < |history| && Matches(rx, history[i].a, selector) && history[i].at >= from
  }

  lemma HitsNext(rx: Regex, selector: map<string, string>, front: seq<Observation>, o: Observation, from: Time)
    ensures var hits := Hits(rx, selector, front, from);
      && |front| !in hits
      && Hits(rx, selector, front + [o], from)
         == if Matches(rx, o.a, selector) && o.at >= from then hits + {|front|} else hits
  {
  }

  lemma {:induction false} WindowedCountsHits(rx: Regex, selector: map<string, string>, history: seq<Observation>, from: Time)
    ensures |Windowed(Picks(rx, selector), history, from)| == |Hits(rx, selector, history, from)|
  {
    if history != [] {
      var front, last := history[..|history| - 1], history[|history| - 1];
      WindowedCountsHits(rx, selector, front, from);
      HitsNext(rx, selector, front, last, from);
      assert history == front + [last];
    }
  }

  lemma SeenMeansHits(rx: Regex, selector: map<string, string>, history: seq<Observation>, from: Time)
    ensures Seen(Picks(rx, selector), history, from) <==> Hits(rx, selector, history, from) != {}
  {
    if Seen(Picks(rx, selector), history, from) {
      var o :| o in history && Hit(Picks(rx, selector), o, from);
      var i :| 0 <= i < |history| && history[i] == o;
      assert i in Hits(rx, selector, history, from);
    }
    if Hits(rx, selector, history, from) != {} {
      var i :| i in Hits(rx, selector, history, from);
      assert history[i] in history && Hit(Picks(rx, selector), history[i], from);
    }
  }

  /** A rule fires exactly when its window holds enough matches of its selector, or one of
      each of its selectors; a heartbeat rule exactly when nothing has matched for longer than
      its window, on an engine that has run for longer. */
  lemma FiringIsCounting(rx: Regex, r: Rule, history: seq<Observation>, start: Time, now: Time)
    ensures Fires(rx, r, history, now) <==>
      match r.shape
      case Count(selector, threshold) => |Hits(rx, selector, history, now - r.window)| >= threshold
      case All(selectors) => selectors != [] && forall s | s in selectors :: Hits(rx, s, history, now - r.window) != {}
      case _ => false
    ensures Silent(rx, r, history, start, now) <==>
      r.shape.Absent? && now > start + r.shape.forSeconds
      && Hits(rx, r.shape.selector, history, now - r.shape.forSeconds) == {}
  {
    match r.shape {
      case Count(selector, _) => WindowedCountsHits(rx, selector, history, now - r.window);
      case All(selectors) =>
        forall s | s in selectors
          ensures Seen(Picks(rx, s), history, now - r.window) <==> Hits(rx, s, history, now - r.window) != {}
        {
          SeenMeansHits(rx, s, history, now - r.window);
        }
      case Absent(selector, forSeconds) => SeenMeansHits(rx, selector, history, now - forSeconds);
      case Idle =>
    }
  }

  // ---------------------------------------------------------------- the object

  /** One rule's three lists, as the observations so far determine them. */
  predicate Tracks(rx: Regex, r: Rule, seen: seq<Time>, groups: seq<seq<Time>>, last: Time,
                   history: seq<Observation>, now: Time)
  {
    match r.shape
    case Count(selector, _) => seen == Windowed(Picks(rx, selector), history, now - r.window)
    case All(selectors) =>
      |groups| == |selectors|
      && forall g | 0 <= g < |selectors| :: groups[g] == Windowed(Picks(rx, selectors[g]), history, now - r.window)
    case Absent(selector, _) => last == LastHit(Picks(rx, selector), history)
    case Idle => true
  }

  lemma GroupsTrack(rx: Regex, r: Rule, ts: seq<Time>, groups: seq<seq<Time>>, latest: Time,
                    history: seq<Observation>, now: Time)
    requires r.shape.All? && SlidAll(rx, r.shape.selectors, groups, history, now - r.window)
    ensures Tracks(rx, r, ts, groups, latest, history, now)
  {
  }

  class Engine {
    const rx: Regex
    const rules: seq<Rule>
    const start: Time
    var seen: seq<seq<Time>>
    var allSeen: seq<seq<seq<Time>>>
    var last: seq<Time>
    ghost var history: seq<Observation>

    ghost predicate Valid()
      reads this
    {
      && |seen| == |allSeen| == |last| == |rules| && Ordered(history, start)
      && forall i | 0 <= i < |rules| ::
        Tracks(rx, rules[i], seen[i], allSeen[i], last[i], history, Horizon(history, start))
    }

    constructor (rx: Regex, rules: seq<Rule>, start: Time)
      requires start > ZERO_TIME
      ensures Valid() && history == [] && this.rx == rx && this.rules == rules && this.start == start
    {
      this.rx, this.rules, this.start, history := rx, rules, start, [];
      seen := seq(|rules|, _ => []);
      last := seq(|rules|, _ => ZERO_TIME);
      allSeen := seq(|rules|, i requires 0 <= i < |rules| =>
        if rules[i].shape.All? then seq(|rules[i].shape.selectors|, _ => []) else []);
    }

    /** Feeds one alert to the rules; resolved and derived ones are not occurrences.
        The rules that fire are those whose windowed counts over the full history say so. */
    method Observe(a: Alert, now: Time) returns (fired: seq<nat>)
      requires Valid() && Horizon(history, start) <= now
      modifies this
      ensures Valid()
      ensures a.resolved || a.kind == KIND_DERIVED ==>
        fired == [] && history == old(history) && seen == old(seen) && allSeen == old(allSeen) && last == old(last)
      ensures !a.resolved && a.kind != KIND_DERIVED ==>
        && history == old(history) + [Observation(a, now)]
        && (forall i: nat :: i in fired <==> i < |rules| && Fires(rx, rules[i], history, now))
        && (forall i, j | 0 <= i < j < |fired| :: fired[i] < fired[j])
    {
      if a.resolved || a.kind == KIND_DERIVED {
        return [];
      }
      fired := ObserveEach(a, now);
      OrderedNext(history, Observation(a, now), start);
      history := history + [Observation(a, now)];
    }

    method ObserveEach(a: Alert, now: Time) returns (fired: seq<nat>)
      requires Valid() && Horizon(history, start) <= now
      modifies this`seen, this`allSeen, this`last
      ensures |seen| == |allSeen| == |last| == |rules| && forall k | 0 <= k < |rules| ::
        Tracks(rx, rules[k], seen[k], allSeen[k], last[k], history + [Observation(a, now)], now)
      ensures Names(fired, rules, |rules|, Firing(rx, history + [Observation(a, now)], now))
    {
      fired := [];
      ghost var after := history + [Observation(a, now)];
      for i := 0 to |rules|
        invariant |seen| == |allSeen| == |last| == |rules|
        invariant forall k | 0 <= k < i :: Tracks(rx, rules[k], seen[k], allSeen[k], last[k], after, now)
        invariant forall k | i <= k < |rules| ::
          Tracks(rx, rules[k], seen[k], allSeen[k], last[k], history, Horizon(history, start))
        invariant Names(fired, rules, i, Firing(rx, after, now))
      {
        ghost var was := fired;
        var ts, groups, latest, hit := ObserveRule(rules[i], seen[i], allSeen[i], last[i], a, now);
        seen, allSeen, last := seen[i := ts], allSeen[i := groups], last[i := latest];
        if hit {
          fired := fired + [i];
        }
        FiringNext(rx, was, rules, i, hit, after, now);
      }
    }

    /** The switch of Observe for one rule: its three lists afterwards, and whether it fires. */
    method ObserveRule(r: Rule, ts: seq<Time>, groups: seq<seq<Time>>, latest: Time, a: Alert, now: Time)
      returns (ts': seq<Time>, groups': seq<seq<Time>>, latest': Time, fires: bool)
      requires Ordered(history, start) && Horizon(history, start) <= now
      requires Tracks(rx, r, ts, groups, latest, history, Horizon(history, start))
      ensures Tracks(rx, r, ts', groups', latest', history + [Observation(a, now)], now)
      ensures fires <==> Fires(rx, r, history + [Observation(a, now)], now)
    {
      ts', groups', latest', fires := ts, groups, latest, false;
      match r.shape
      case Count(_, _) => ts', fires := ObserveCount(r, ts, groups, latest, a, now);
      case All(_) => groups', fires := ObserveAll(r, ts, groups, latest, a, now);
      case Absent(_, _) => latest' := ObserveHeartbeat(r, ts, groups, latest, a, now);
      case Idle =>
    }

    method ObserveHeartbeat(r: Rule, ts: seq<Time>, groups: seq<seq<Time>>, was: Time, a: Alert, now: Time)
      returns (latest: Time)
      requires r.shape.Absent? && Tracks(rx, r, ts, groups, was, history, Horizon(history, start))
      ensures Tracks(rx, r, ts, groups, latest, history + [Observation(a, now)], now)
    {
      var hit := MatchLabels(rx, a, r.shape.selector);
      LastHitNext(Picks(rx, r.shape.selector), history, Observation(a, now));
      latest := if hit then now else was;
    }

    method ObserveCount(r: Rule, was: seq<Time>, groups: seq<seq<Time>>, latest: Time, a: Alert, now: Time)
      returns (ts: seq<Time>, fires: bool)
      requires Ordered(history, start) && Horizon(history, start) <= now && r.shape.Count?
      requires Tracks(rx, r, was, groups, latest, history, Horizon(history, start))
      ensures Tracks(rx, r, ts, groups, latest, history + [Observation(a, now)], now)
      ensures fires <==> Fires(rx, r, history + [Observation(a, now)], now)
    {
      ts := Slide(r.shape.selector, was, a, now, r.window);
      fires := |ts| >= r.shape.threshold;
    }

    method ObserveAll(r: Rule, ts: seq<Time>, was: seq<seq<Time>>, latest: Time, a: Alert, now: Time)
      returns (groups: seq<seq<Time>>, fires: bool)
      requires Ordered(history, start) && Horizon(history, start) <= now && r.shape.All?
      requires Tracks(rx, r, ts, was, latest, history, Horizon(history, start))
      ensures Tracks(rx, r, ts, groups, latest, history + [Observation(a, now)], now)
      ensures fires <==> Fires(rx, r, history + [Observation(a, now)], now)
    {
      groups := SlideAll(r, ts, was, latest, a, now);
      fires := AllFire(r, groups, history + [Observation(a, now)], now);
      GroupsTrack(rx, r, ts, groups, latest, history + [Observation(a, now)], now);
    }

    method AllFire(r: Rule, groups: seq<seq<Time>>, ghost after: seq<Observation>, now: Time) returns (fires: bool)
      requires r.shape.All? && SlidAll(rx, r.shape.selectors, groups, after, now - r.window)
      ensures fires <==> Fires(rx, r, after, now)
    {
      fires := AllGroupsActive(groups);
      GroupsFire(rx, r, groups, after, now, fires);
    }

    /** Each selector's list in turn. */
    method SlideAll(r: Rule, ghost ts: seq<Time>, was: seq<seq<Time>>, ghost latest: Time, a: Alert, now: Time)
      returns (groups: seq<seq<Time>>)
      requires Ordered(history, start) && Horizon(history, start) <= now && r.shape.All?
      requires Tracks(rx, r, ts, was, latest, history, Horizon(history, start))
      ensures SlidAll(rx, r.shape.selectors, groups, history + [Observation(a, now)], now - r.window)
    {
      var selectors := r.shape.selectors;
      ghost var after := history + [Observation(a, now)];
      groups := [];
      for g := 0 to |selectors|
        invariant |groups| == g
        invariant forall k | 0 <= k < g :: Slid(Picks(rx, selectors[k]), groups[k], after, now - r.window)
      {
        var slid := Slide(selectors[g], was[g], a, now, r.window);
        groups := groups + [slid];
      }
    }

    /** Append on a match, then prune. */
    method Slide(selector: map<string, string>, was: seq<Time>, a: Alert, now: Time, window: Time) returns (ts: seq<Time>)
      requires Ordered(history, start) && Horizon(history, start) <= now
      requires was == Windowed(Picks(rx, selector), history, Horizon(history, start) - window)
      ensures Slid(Picks(rx, selector), ts, history + [Observation(a, now)], now - window)
    {
      ts := was;
      ghost var early := Horizon(history, start) - window;
      AppendAscends(Picks(rx, selector), history, start, now, early);
      SlideKeeps(Picks(rx, selector), history, Observation(a, now), early, now - window);
      var hit := MatchLabels(rx, a, selector);
      if hit {
        ts := ts + [now];
      }
      ts := Prune(ts, now, window);
    }

    /** The heartbeat rules that have been silent for longer than their window. */
    method EvalAbsent(now: Time) returns (fired: seq<nat>)
      requires Valid() && Horizon(history, start) <= now
      ensures forall i: nat :: i in fired <==> i < |rules| && Silent(rx, rules[i], history, start, now)
      ensures forall i, j | 0 <= i < j < |fired| :: fired[i] < fired[j]
    {
      fired := [];
      for i := 0 to |rules|
        invariant Names(fired, rules, i, Quiet(rx, history, start, now))
      {
        ghost var was := fired;
        NamesNext(was, rules, i, Quiet(rx, history, start, now));
        if !rules[i].shape.Absent? {
          continue;
        }
        var ref := last[i];
        if ref == ZERO_TIME {
          ref := start;
        }
        SilentIsReference(rx, rules[i], history, start, now);
        if now - ref > rules[i].shape.forSeconds {
          fired := fired + [i];
        }
      }
    }
  }

  lemma SilentIsReference(rx: Regex, r: Rule, history: seq<Observation>, start: Time, now: Time)
    requires Ordered(history, start) && r.shape.Absent?
    ensures var hit := LastHit(Picks(rx, r.shape.selector), history);
      Silent(rx, r, history, start, now) <==> now - (if hit == ZERO_TIME then start else hit) > r.shape.forSeconds
  {
    if now - r.shape.forSeconds > ZERO_TIME {
      LastHitIsLatest(Picks(rx, r.shape.selector), history, start, now - r.shape.forSeconds);
    }
    LastHitIsLatest(Picks(rx, r.shape.selector), history, start, start);
  }

  method AllGroupsActive(groups: seq<seq<Time>>) returns (active: bool)
    ensures active <==> groups != [] && forall g | 0 <= g < |groups| :: groups[g] != []
  {
    if |groups| == 0 {
      return false;
    }
    for g := 0 to |groups|
      invariant forall k | 0 <= k < g :: groups[k] != []
    {
      if |groups[g]| == 0 {
        return false;
      }
    }
    return true;
  }
}
