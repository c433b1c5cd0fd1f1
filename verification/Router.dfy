/** The router of internal/router/router.go: which sinks an alert goes to, and the
    inhibitions that firing alerts arm against each other. */
module Routing {
  import opened Wrappers
  import opened Alerts

  /** One configured route; None stands for a nil sink list, which drops the alert. */
  datatype Route = Route(match_: map<string, string>, sinks: Option<seq<string>>)

  datatype Inhibition = Inhibition(
    source: map<string, string>, target: map<string, string>, equal: seq<string>, duration: Time)

  /** A rule and one tuple of values of its equal fields. */
  type Key = (nat, GroupId)

  // ---------------------------------------------------------------- specification

  /** A rule's key for this alert. */
  function KeyAt(rules: seq<Inhibition>, i: nat, a: Alert): Key
    requires i < |rules|
  {
    (i, GroupKeyOf(a, rules[i].equal))
  }

  predicate Live(active: map<Key, Time>, key: Key, now: Time) {
    key in active && now < active[key]
  }

  predicate InhibitedBy(rx: Regex, rules: seq<Inhibition>, active: map<Key, Time>, i: nat, a: Alert, now: Time) {
    i < |rules| && Matches(rx, a, rules[i].target) && Live(active, KeyAt(rules, i, a), now)
  }

  predicate Inhibited(rx: Regex, rules: seq<Inhibition>, active: map<Key, Time>, a: Alert, now: Time) {
    exists i | 0 <= i < |rules| :: InhibitedBy(rx, rules, active, i, a, now)
  }

  function Pruned(active: map<Key, Time>, now: Time): map<Key, Time> {
    map key | key in active && now < active[key] :: active[key]
  }

  /** What each rule records for this alert: its key and expiry, if the source matches. */
  function ArmedBy(rx: Regex, rules: seq<Inhibition>, a: Alert, now: Time): nat -> Option<(Key, Time)> {
    (i: nat) =>
      if i < |rules| && Matches(rx, a, rules[i].source)
      then Some((KeyAt(rules, i, a), now + rules[i].duration)) else None
  }

  /** The map after the first k rules have recorded theirs. */
  function ArmedUpTo(active: map<Key, Time>, armed: nat -> Option<(Key, Time)>, k: nat): map<Key, Time> {
    if k == 0 then active
    else
      var front := ArmedUpTo(active, armed, k - 1);
      if armed(k - 1).Some? then front[armed(k - 1).value.0 := armed(k - 1).value.1] else front
  }

  function Armed(rx: Regex, rules: seq<Inhibition>, active: map<Key, Time>, a: Alert, now: Time): map<Key, Time> {
    ArmedUpTo(Pruned(active, now), ArmedBy(rx, rules, a, now), |rules|)
  }

  function FirstRoute(rx: Regex, routes: seq<Route>, default_: Option<seq<string>>, a: Alert): Option<seq<string>> {
    if routes == [] then default_
    else if Matches(rx, a, routes[0].match_) then routes[0].sinks
    else FirstRoute(rx, routes[1..], default_, a)
  }

  /** The sinks of the first route that matches, or the default ones when none does. */
  lemma {:induction false} FirstRouteIsFirst(rx: Regex, routes: seq<Route>, default_: Option<seq<string>>, a: Alert, i: nat)
    requires i <= |routes| && forall j | 0 <= j < i :: !Matches(rx, a, routes[j].match_)
    requires i < |routes| ==> Matches(rx, a, routes[i].match_)
    ensures FirstRoute(rx, routes, default_, a) == if i < |routes| then routes[i].sinks else default_
  {
    if i > 0 {
      FirstRouteIsFirst(rx, routes[1..], default_, a, i - 1);
    }
  }

  // ---------------------------------------------------------------- the object

  class Router {
    const rx: Regex
    const routes: seq<Route>
    const inhibitions: seq<Inhibition>
    const defaultSinks: Option<seq<string>>
    var activeInhibits: map<Key, Time>

    constructor (rx: Regex, routes: seq<Route>, inhibitions: seq<Inhibition>, defaultSinks: Option<seq<string>>)
      ensures this.rx == rx && this.routes == routes && this.inhibitions == inhibitions
      ensures this.defaultSinks == defaultSinks && activeInhibits == map[]
    {
      this.rx, this.routes, this.inhibitions, this.defaultSinks := rx, routes, inhibitions, defaultSinks;
      activeInhibits := map[];
    }

    method IsInhibited(a: Alert, now: Time) returns (r: bool)
      ensures r == Inhibited(rx, inhibitions, activeInhibits, a, now)
    {
      for i := 0 to |inhibitions|
        invariant forall j | 0 <= j < i :: !InhibitedBy(rx, inhibitions, activeInhibits, j, a, now)
      {
        var hit := MatchLabels(rx, a, inhibitions[i].target);
        if !hit {
          continue;
        }
        var fields := GroupKey(a, inhibitions[i].equal);
        var key: Key := (i, fields);
        if key in activeInhibits && now < activeInhibits[key] {
          assert InhibitedBy(rx, inhibitions, activeInhibits, i, a, now);
          return true;
        }
      }
      return false;
    }

    method PruneExpired(now: Time)
      modifies this
      ensures activeInhibits == Pruned(old(activeInhibits), now)
    {
      var rest := activeInhibits.Keys;
      while rest != {}
        invariant rest <= activeInhibits.Keys
        invariant forall key | key in activeInhibits ::
          key in old(activeInhibits) && activeInhibits[key] == old(activeInhibits)[key]
          && (key in rest || now < activeInhibits[key])
        invariant forall key | key in old(activeInhibits) && now < old(activeInhibits)[key] :: key in activeInhibits
        decreases |rest|
      {
        var key :| key in rest;
        rest := rest - {key};
        if now >= activeInhibits[key] {
          activeInhibits := activeInhibits - {key};
        }
      }
    }

    method MaybeArmInhibition(a: Alert, now: Time)
      modifies this
      ensures activeInhibits == Armed(rx, inhibitions, old(activeInhibits), a, now)
    {
      PruneExpired(now);
      ghost var pruned, armed := activeInhibits, ArmedBy(rx, inhibitions, a, now);
      for i := 0 to |inhibitions|
        invariant activeInhibits == ArmedUpTo(pruned, armed, i)
      {
        ArmRule(i, a, now);
      }
    }

    /** The loop body of maybeArmInhibition. */
    method ArmRule(i: nat, a: Alert, now: Time)
      requires i < |inhibitions|
      modifies this
      ensures var armed := ArmedBy(rx, inhibitions, a, now)(i);
        activeInhibits == if armed.Some? then old(activeInhibits)[armed.value.0 := armed.value.1] else old(activeInhibits)
    {
      var hit := MatchLabels(rx, a, inhibitions[i].source);
      if hit {
        var fields := GroupKey(a, inhibitions[i].equal);
        activeInhibits := activeInhibits[(i, fields) := now + inhibitions[i].duration];
      }
    }

    method ArmInhibitions(a: Alert, now: Time)
      modifies this
      ensures activeInhibits
           == if a.resolved then old(activeInhibits) else Armed(rx, inhibitions, old(activeInhibits), a, now)
    {
      if a.resolved {
        return;
      }
      MaybeArmInhibition(a, now);
    }

    /** `suppressed` says whether a silence or a maintenance window covers the alert; the
        two clock readings are those of inhibited and of maybeArmInhibition. */
    method RouteAlert(a: Alert, suppressed: bool, checked: Time, armed: Time) returns (sinks: Option<seq<string>>)
      modifies this
      ensures var drop := !a.resolved && (suppressed || Inhibited(rx, inhibitions, old(activeInhibits), a, checked));
        && (drop ==> sinks.None? && activeInhibits == old(activeInhibits))
        && (!drop ==> sinks == FirstRoute(rx, routes, defaultSinks, a))
        && (!drop ==> activeInhibits == if a.resolved then old(activeInhibits)
                                        else Armed(rx, inhibitions, old(activeInhibits), a, armed))
    {
      if !a.resolved {
        if suppressed {
          return None;
        }
        var inhibited := IsInhibited(a, checked);
        if inhibited {
          return None;
        }
        MaybeArmInhibition(a, armed);
      }
      for i := 0 to |routes|
        invariant forall j | 0 <= j < i :: !Matches(rx, a, routes[j].match_)
        invariant activeInhibits == if a.resolved then old(activeInhibits)
                                    else Armed(rx, inhibitions, old(activeInhibits), a, armed)
      {
        var hit := MatchLabels(rx, a, routes[i].match_);
        if hit {
          FirstRouteIsFirst(rx, routes, defaultSinks, a, i);
          return routes[i].sinks;
        }
      }
      FirstRouteIsFirst(rx, routes, defaultSinks, a, |routes|);
      return defaultSinks;
    }
  }

  // ---------------------------------------------------------------- runs

  /** A firing alert that reached maybeArmInhibition, with its clock reading. */
  datatype Arming = Arming(a: Alert, at: Time)

  /** The map after a history of armings, pruned at each one. */
  function After(rx: Regex, rules: seq<Inhibition>, history: seq<Arming>): map<Key, Time> {
    if history == [] then map[]
    else
      var last := history[|history| - 1];
      Armed(rx, rules, After(rx, rules, history[..|history| - 1]), last.a, last.at)
  }

  predicate Ordered(history: seq<Arming>) {
    forall i, j | 0 <= i < j < |history| :: history[i].at <= history[j].at
  }

  /** This arming still holds rule i against the alert. */
  predicate Holds(rx: Regex, rules: seq<Inhibition>, i: nat, arming: Arming, a: Alert, now: Time) {
    && i < |rules|
    && Matches(rx, arming.a, rules[i].source)
    && (forall k | k in rules[i].equal :: FieldValue(arming.a, k) == FieldValue(a, k))
    && now < arming.at + rules[i].duration
  }

  ghost predicate HeldBy(rx: Regex, rules: seq<Inhibition>, history: seq<Arming>, i: nat, a: Alert, now: Time) {
    exists arming | arming in history :: Holds(rx, rules, i, arming, a, now)
  }

  lemma {:induction false} ArmedAt(active: map<Key, Time>, armed: nat -> Option<(Key, Time)>, k: nat, key: Key)
    requires forall i: nat :: armed(i).Some? ==> armed(i).value.0.0 == i
    ensures var r := ArmedUpTo(active, armed, k);
      if key.0 < k && armed(key.0).Some? && armed(key.0).value.0 == key
      then key in r && r[key] == armed(key.0).value.1
      else (key in r <==> key in active) && (key in r ==> r[key] == active[key])
  {
    if k > 0 {
      ArmedAt(active, armed, k - 1, key);
    }
  }

  /** The pruned map answers for a key as the whole history does. */
  lemma {:induction false} LiveIsHeld(rx: Regex, rules: seq<Inhibition>, history: seq<Arming>, i: nat, a: Alert, now: Time)
    requires Ordered(history) && i < |rules|
    requires history != [] ==> history[|history| - 1].at <= now
    ensures Live(After(rx, rules, history), KeyAt(rules, i, a), now) <==> HeldBy(rx, rules, history, i, a, now)
  {
    if history != [] {
      var front, last := history[..|history| - 1], history[|history| - 1];
      assert history == front + [last];
      var was, key := After(rx, rules, front), KeyAt(rules, i, a);
      LiveIsHeld(rx, rules, front, i, a, now);
      ArmedAt(Pruned(was, last.at), ArmedBy(rx, rules, last.a, last.at), |rules|, key);
      GroupKeySeparatesFields(last.a, a, rules[i].equal);
      if Matches(rx, last.a, rules[i].source) && KeyAt(rules, i, last.a) == key {
        EarlierHoldsLess(rx, rules, history, i, a, now);
      } else {
        assert !Holds(rx, rules, i, last, a, now);
        assert HeldBy(rx, rules, history, i, a, now) <==> HeldBy(rx, rules, front, i, a, now);
      }
    }
  }

  /** If any arming holds, the latest one with the same key does. */
  lemma EarlierHoldsLess(rx: Regex, rules: seq<Inhibition>, history: seq<Arming>, i: nat, a: Alert, now: Time)
    requires Ordered(history) && history != [] && i < |rules|
    requires Matches(rx, history[|history| - 1].a, rules[i].source)
    requires forall k | k in rules[i].equal :: FieldValue(history[|history| - 1].a, k) == FieldValue(a, k)
    ensures HeldBy(rx, rules, history, i, a, now) <==> now < history[|history| - 1].at + rules[i].duration
  {
    var last := history[|history| - 1];
    assert last in history;
    if HeldBy(rx, rules, history, i, a, now) {
      var arming :| arming in history && Holds(rx, rules, i, arming, a, now);
      assert arming.at <= last.at;
    }
    if now < last.at + rules[i].duration {
      assert Holds(rx, rules, i, last, a, now);
    }
  }

  /** Over every history: an alert is inhibited exactly when some rule's target matches it
      and some firing that matched the rule's source, with equal values on every equal
      field, armed the rule less than its duration ago. */
  lemma InhibitionIsHistory(rx: Regex, rules: seq<Inhibition>, history: seq<Arming>, a: Alert, now: Time)
    requires Ordered(history) && (history != [] ==> history[|history| - 1].at <= now)
    ensures Inhibited(rx, rules, After(rx, rules, history), a, now)
       <==> exists i: nat | i < |rules| :: Matches(rx, a, rules[i].target) && HeldBy(rx, rules, history, i, a, now)
  {
    forall i: nat | i < |rules|
      ensures InhibitedBy(rx, rules, After(rx, rules, history), i, a, now)
         <==> Matches(rx, a, rules[i].target) && HeldBy(rx, rules, history, i, a, now)
    {
      LiveIsHeld(rx, rules, history, i, a, now);
    }
  }

  /** The map after the same history with no pruning at all. */
  function Unpruned(rx: Regex, rules: seq<Inhibition>, history: seq<Arming>): map<Key, Time> {
    if history == [] then map[]
    else
      var last := history[|history| - 1];
      ArmedUpTo(Unpruned(rx, rules, history[..|history| - 1]), ArmedBy(rx, rules, last.a, last.at), |rules|)
  }

  lemma {:induction false} PrunedIsLive(rx: Regex, rules: seq<Inhibition>, history: seq<Arming>, key: Key, now: Time)
    requires Ordered(history) && (history != [] ==> history[|history| - 1].at <= now)
    ensures Live(After(rx, rules, history), key, now) <==> Live(Unpruned(rx, rules, history), key, now)
  {
    if history != [] {
      var front, last := history[..|history| - 1], history[|history| - 1];
      PrunedIsLive(rx, rules, front, key, now);
      ArmedAt(Pruned(After(rx, rules, front), last.at), ArmedBy(rx, rules, last.a, last.at), |rules|, key);
      ArmedAt(Unpruned(rx, rules, front), ArmedBy(rx, rules, last.a, last.at), |rules|, key);
    }
  }

  /** Pruning expired keys never changes an answer. */
  lemma PruningIsUnobservable(rx: Regex, rules: seq<Inhibition>, history: seq<Arming>, a: Alert, now: Time)
    requires Ordered(history) && (history != [] ==> history[|history| - 1].at <= now)
    ensures Inhibited(rx, rules, After(rx, rules, history), a, now)
         == Inhibited(rx, rules, Unpruned(rx, rules, history), a, now)
  {
    forall i: nat | i < |rules|
      ensures InhibitedBy(rx, rules, After(rx, rules, history), i, a, now)
           == InhibitedBy(rx, rules, Unpruned(rx, rules, history), i, a, now)
    {
      PrunedIsLive(rx, rules, history, KeyAt(rules, i, a), now);
    }
  }
}
