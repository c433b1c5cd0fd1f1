/** What the grouper does to a run of alerts, told by the alerts themselves and not by the
    group keys and buckets of internal/group/group.go. */
module GroupRuns {
  import opened Wrappers
  import opened Alerts
  import opened Grouping

  /** Two alerts of one group: equal in every grouping field, and both firings or both resolves. */
  predicate Alike(fields: seq<string>, a: Alert, b: Alert) {
    a.resolved == b.resolved && forall k | k in fields :: FieldValue(a, k) == FieldValue(b, k)
  }

  /** An Offer that passed before the final flush, and so opened a window. */
  datatype Opening = Opening(a: Alert, at: Time)

  /** Offer answers false exactly if it counts the alert as absorbed. */
  ghost predicate Absorbed(cfg: Config, x: World, e: Event)
    requires Enabled(x, e) && |x.keys| == |x.stages|
  {
    |Next(cfg, x, e).joined| > |x.joined|
  }

  ghost function OpeningsNext(cfg: Config, x: World, e: Event, closed: bool, openings: seq<Opening>): seq<Opening>
    requires Enabled(x, e) && |x.keys| == |x.stages|
  {
    if e.Offer? && !closed && !Absorbed(cfg, x, e) then openings + [Opening(e.a, e.now)] else openings
  }

  /** The openings of a run, window by window. */
  ghost function OpeningsOf(cfg: Config, x: World, run: seq<Event>, closed: bool, openings: seq<Opening>): seq<Opening>
    requires IsRun(cfg, x, run)
    decreases |run|
  {
    if run == [] then openings
    else
      OpeningsOf(cfg, Next(cfg, x, run[0]), run[1..], closed || run[0].Close?,
                 OpeningsNext(cfg, x, run[0], closed, openings))
  }

  lemma KeysSeparate(fields: seq<string>, a: Alert, b: Alert)
    ensures KeyOf(a, fields) == KeyOf(b, fields) <==> Alike(fields, a, b)
  {
    GroupKeySeparatesFields(a, b, fields);
  }

  // ---------------------------------------------------------------- the invariant

  /** A summary's identity is that of the alert that opened its window. */
  predicate Names(first: Identity, a: Alert) {
    && first.kind == a.kind && first.namespace == a.namespace && first.name == a.name && first.reason == a.reason
    && first.severity == a.severity && first.cluster == a.cluster && first.resolved == a.resolved
  }

  predicate OpenedBy(x: World, i: nat, o: Opening)
    requires i < |x.stages| && |x.keys| == |x.stages|
  {
    match x.stages[i]
    case Standing => x.keys[i] in x.w.buckets ==> Names(x.w.buckets[x.keys[i]].first, o.a)
    case Taken(b) => Names(b.first, o.a)
    case Told(s) => s.Some? ==> Names(s.value.first, o.a)
  }

  /** The bookkeeping of the grouper's world agrees with the openings. */
  ghost predicate WindowsOpened(cfg: Config, x: World, openings: seq<Opening>) {
    && |openings| == |x.stages| == |x.keys|
    && (forall i: nat | i < |openings| ::
          x.keys[i] == KeyOf(openings[i].a, cfg.fields) && OpenedBy(x, i, openings[i]) && openings[i].at <= x.clock)
  }

  /** And each key was last passed when its latest window opened. */
  ghost predicate Latest(cfg: Config, x: World, openings: seq<Opening>) {
    && (forall o | o in openings ::
          KeyOf(o.a, cfg.fields) in x.passed && o.at <= x.passed[KeyOf(o.a, cfg.fields)])
    && (forall key | key in x.passed ::
          x.passed[key] <= x.clock && HasOpening(cfg, openings, key, x.passed[key]))
  }

  ghost predicate HasOpening(cfg: Config, openings: seq<Opening>, key: Key, at: Time) {
    exists o :: o in openings && KeyOf(o.a, cfg.fields) == key && o.at == at
  }

  /** Opens is passing before the close. */
  lemma OpensIsPassing(cfg: Config, x: World, e: Event)
    requires Linked(x) && Enabled(x, e)
    ensures e.Offer? && !x.w.closing ==> (Opens(cfg, x, e) <==> !Absorbed(cfg, x, e))
    ensures Absorbed(cfg, x, e) <==> Joins(cfg, x, e)
  {
  }

  lemma ClosingStep(cfg: Config, x: World, e: Event)
    requires Enabled(x, e) && |x.keys| == |x.stages|
    ensures Next(cfg, x, e).w.closing <==> x.w.closing || e.Close?
  {
  }

  lemma OpeningsPassed(cfg: Config, x: World, e: Event, openings: seq<Opening>)
    requires Linked(x) && Enabled(x, e) && Latest(cfg, x, openings)
    ensures var y := Next(cfg, x, e);
      forall o | o in OpeningsNext(cfg, x, e, x.w.closing, openings) ::
        KeyOf(o.a, cfg.fields) in y.passed && o.at <= y.passed[KeyOf(o.a, cfg.fields)]
  {
    OpensIsPassing(cfg, x, e);
  }

  lemma LatestStep(cfg: Config, x: World, e: Event, openings: seq<Opening>)
    requires Linked(x) && Enabled(x, e) && Latest(cfg, x, openings)
    ensures Latest(cfg, Next(cfg, x, e), OpeningsNext(cfg, x, e, x.w.closing, openings))
  {
    OpeningsPassed(cfg, x, e, openings);
    var y, more := Next(cfg, x, e), OpeningsNext(cfg, x, e, x.w.closing, openings);
    forall key | key in y.passed
      ensures y.passed[key] <= y.clock && HasOpening(cfg, more, key, y.passed[key])
    {
      PassedHasOpening(cfg, x, e, openings, key);
    }
  }

  lemma PassedHasOpening(cfg: Config, x: World, e: Event, openings: seq<Opening>, key: Key)
    requires Linked(x) && Enabled(x, e) && key in Next(cfg, x, e).passed
    requires key in x.passed ==> x.passed[key] <= x.clock && HasOpening(cfg, openings, key, x.passed[key])
    ensures var y := Next(cfg, x, e);
      y.passed[key] <= y.clock && HasOpening(cfg, OpeningsNext(cfg, x, e, x.w.closing, openings), key, y.passed[key])
  {
    OpensIsPassing(cfg, x, e);
    var more := OpeningsNext(cfg, x, e, x.w.closing, openings);
    if Opens(cfg, x, e) && key == KeyOf(e.a, cfg.fields) {
      assert Opening(e.a, e.now) in more;
    } else {
      var o :| o in openings && KeyOf(o.a, cfg.fields) == key && o.at == x.passed[key];
      assert o in more;
    }
  }

  /** A standing window keeps its opener's identity through joins, and when it is taken out. */
  lemma OpenerStays(cfg: Config, x: World, e: Event, i: nat, o: Opening)
    requires Linked(x) && Enabled(x, e) && i < |x.stages| && WindowOk(x, i) && OpenedBy(x, i, o)
    requires x.stages[i].Standing? && NextStage(cfg, x, e, i).Standing?
    ensures x.keys[i] in NextWindows(cfg, x, e).buckets ==> Names(NextWindows(cfg, x, e).buckets[x.keys[i]].first, o.a)
  {
  }

  lemma OpenedStep(cfg: Config, x: World, e: Event, i: nat, o: Opening)
    requires Linked(x) && Enabled(x, e) && i < |x.stages| && WindowOk(x, i) && OpenedBy(x, i, o)
    ensures OpenedBy(Next(cfg, x, e), i, o)
  {
    var y := Next(cfg, x, e);
    assert y.stages[i] == NextStage(cfg, x, e, i) && y.keys[i] == x.keys[i];
    if y.stages[i].Standing? {
      OpenerStays(cfg, x, e, i, o);
    }
  }

  lemma WindowsStep(cfg: Config, x: World, e: Event, openings: seq<Opening>)
    requires Inv(cfg, x) && Enabled(x, e) && WindowsOpened(cfg, x, openings)
    ensures WindowsOpened(cfg, Next(cfg, x, e), OpeningsNext(cfg, x, e, x.w.closing, openings))
  {
    OpensIsPassing(cfg, x, e);
    var y, more := Next(cfg, x, e), OpeningsNext(cfg, x, e, x.w.closing, openings);
    forall i: nat | i < |more|
      ensures y.keys[i] == KeyOf(more[i].a, cfg.fields) && OpenedBy(y, i, more[i]) && more[i].at <= y.clock
    {
      if i < |openings| {
        assert more[i] == openings[i] && y.keys[i] == x.keys[i];
        OpenedStep(cfg, x, e, i, openings[i]);
      } else {
        NewWindow(cfg, x, e);
      }
    }
  }

  lemma NewWindow(cfg: Config, x: World, e: Event)
    requires Linked(x) && Enabled(x, e) && Opens(cfg, x, e)
    ensures var y, n := Next(cfg, x, e), |x.stages|;
      |y.stages| == |y.keys| == n + 1 && y.keys[n] == KeyOf(e.a, cfg.fields) && OpenedBy(y, n, Opening(e.a, e.now))
  {
  }

  ghost predicate Follows(cfg: Config, x: World, openings: seq<Opening>) {
    Inv(cfg, x) && Remembers(cfg, x) && WindowsOpened(cfg, x, openings) && Latest(cfg, x, openings)
  }

  lemma {:induction false} FollowsAlways(cfg: Config, x: World, run: seq<Event>, openings: seq<Opening>)
    requires Follows(cfg, x, openings) && IsRun(cfg, x, run)
    ensures Follows(cfg, After(cfg, x, run), OpeningsOf(cfg, x, run, x.w.closing, openings))
    ensures After(cfg, x, run).w.closing <==> x.w.closing || exists e :: e in run && e.Close?
    decreases |run|
  {
    if run != [] {
      InvStep(cfg, x, run[0]);
      RemembersStep(cfg, x, run[0]);
      WindowsStep(cfg, x, run[0], openings);
      LatestStep(cfg, x, run[0], openings);
      ClosingStep(cfg, x, run[0]);
      FollowsAlways(cfg, Next(cfg, x, run[0]), run[1..], OpeningsNext(cfg, x, run[0], x.w.closing, openings));
      assert forall e :: e in run <==> e == run[0] || e in run[1..];
    }
  }

  // ---------------------------------------------------------------- guarantees

  /** In every run an Offer is absorbed if and only if the final flush has not begun and an
      alert of its group, of the same fields and both firings or both resolves, passed at
      most one window ago. */
  lemma AbsorbedExactlyBehindAlike(cfg: Config, run: seq<Event>, a: Alert, now: Time)
    requires IsRun(cfg, START, run) && Enabled(After(cfg, START, run), Offer(a, now))
    ensures var x := After(cfg, START, run);
      |x.keys| == |x.stages|
      && (Absorbed(cfg, x, Offer(a, now)) <==>
            && !(exists e :: e in run && e.Close?)
            && exists o :: o in OpeningsOf(cfg, START, run, false, []) && Alike(cfg.fields, o.a, a) && now <= o.at + cfg.window)
  {
    FollowsAlways(cfg, START, run, []);
    OnePassPerWindow(cfg, run, a, now);
    var x, openings, key := After(cfg, START, run), OpeningsOf(cfg, START, run, false, []), KeyOf(a, cfg.fields);
    OpensIsPassing(cfg, x, Offer(a, now));
    forall o | o in openings
      ensures KeyOf(o.a, cfg.fields) == key <==> Alike(cfg.fields, o.a, a)
    {
      KeysSeparate(cfg.fields, o.a, a);
    }
    PassedIsRecent(cfg, x, openings, key, now);
  }

  lemma PassedIsRecent(cfg: Config, x: World, openings: seq<Opening>, key: Key, now: Time)
    requires Latest(cfg, x, openings)
    ensures (key in x.passed && now <= x.passed[key] + cfg.window)
       <==> exists o :: o in openings && KeyOf(o.a, cfg.fields) == key && now <= o.at + cfg.window
  {
    if key in x.passed && now <= x.passed[key] + cfg.window {
      var o :| o in openings && KeyOf(o.a, cfg.fields) == key && o.at == x.passed[key];
    }
  }

  /** All members of a window are alike, and like the alert that opened it, which the summary
      names. */
  lemma WindowsAreAlike(cfg: Config, run: seq<Event>, e: Entry)
    requires IsRun(cfg, START, run) && e in After(cfg, START, run).joined
    ensures var x, openings := After(cfg, START, run), OpeningsOf(cfg, START, run, false, []);
      && e.window < |openings| == |x.stages| && Alike(cfg.fields, openings[e.window].a, e.alert)
      && var stage := x.stages[e.window];
      stage.Told? && stage.summary.Some? ==> Names(stage.summary.value.first, openings[e.window].a)
  {
    FollowsAlways(cfg, START, run, []);
    var x, openings := After(cfg, START, run), OpeningsOf(cfg, START, run, false, []);
    KeysSeparate(cfg.fields, openings[e.window].a, e.alert);
    assert OpenedBy(x, e.window, openings[e.window]);
  }
}
