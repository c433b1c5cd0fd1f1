/** The alert store of internal/alert/store.go and its snapshots (snapshot.go):
    the functions that specify each locked section, and the object itself. */
module AlertStore {
  import opened Wrappers
  import opened Alerts
  import opened Collections

  const MIN_HISTORY_RETENTION: Time := 600
  const RECENT_CAP: nat := 200
  const SNAPSHOT_VERSION := 1

  datatype Config = Config(muteWindow: Time, resolveTTL: Time, knownKinds: set<string>, rx: Regex)

  /** The maps that decide what the store does: active set, mute history, escalation marks. */
  datatype Core = Core(
    active: map<string, Alert>, lastSent: map<string, Time>, escalated: map<string, set<string>>)

  const EMPTY_CORE := Core(map[], map[], map[])

  datatype Snapshot = Snapshot(
    version: int, savedAt: Time, active: seq<Option<Alert>>, lastSent: map<string, Time>,
    escalated: map<string, seq<string>>)

  // ---------------------------------------------------------------- specification

  predicate Muted(cfg: Config, c: Core, fp: string, now: Time) {
    fp in c.lastSent && now - c.lastSent[fp] < cfg.muteWindow
  }

  /** The alert as ShouldSend hands it back: a reminder keeps its incident's start. */
  function Stamped(cfg: Config, c: Core, a: Alert, now: Time): Alert {
    a.(startsAt := if a.fingerprint in c.active then c.active[a.fingerprint].startsAt else a.startsAt,
       endsAt := now + cfg.resolveTTL)
  }

  function Sent(cfg: Config, c: Core, a: Alert, now: Time): Core {
    c.(active := c.active[a.fingerprint := Stamped(cfg, c, a, now)], lastSent := c.lastSent[a.fingerprint := now])
  }

  function Seeded(c: Core, fp: string, now: Time): Core {
    c.(lastSent := c.lastSent[fp := now])
  }

  function Touched(cfg: Config, c: Core, fp: string, now: Time): Core {
    if fp in c.active then c.(active := c.active[fp := c.active[fp].(endsAt := now + cfg.resolveTTL)]) else c
  }

  function Expired(c: Core, now: Time): set<string> {
    set fp | fp in c.active && c.active[fp].endsAt != ZERO_TIME && now > c.active[fp].endsAt
  }

  predicate IsObject(a: Alert, kind: string, ns: string, name: string) {
    a.kind == kind && a.namespace == ns && a.name == name
  }

  function OfObject(c: Core, kind: string, ns: string, name: string): set<string> {
    set fp | fp in c.active && IsObject(c.active[fp], kind, ns, name)
  }

  /** dropLocked for every fingerprint in the set. */
  function Dropped(c: Core, fps: set<string>): Core {
    Core(c.active - fps, c.lastSent - fps, c.escalated - fps)
  }

  function Retention(cfg: Config): Time {
    if 2 * cfg.muteWindow < MIN_HISTORY_RETENTION then MIN_HISTORY_RETENTION else 2 * cfg.muteWindow
  }

  function Stale(cfg: Config, c: Core, now: Time): set<string> {
    set fp | fp in c.lastSent && c.lastSent[fp] < now - Retention(cfg)
  }

  function Cleaned(cfg: Config, c: Core, now: Time): Core {
    c.(lastSent := c.lastSent - Stale(cfg, c, now))
  }

  function Marks(c: Core, fp: string): set<string> {
    if fp in c.escalated then c.escalated[fp] else {}
  }

  predicate IsDue(cfg: Config, c: Core, fp: string, after: Time, ruleKey: string, want: map<string, string>, now: Time)
    requires fp in c.active
  {
    c.active[fp].startsAt < now - after && ruleKey !in Marks(c, fp) && Matches(cfg.rx, c.active[fp], want)
  }

  function Due(cfg: Config, c: Core, after: Time, ruleKey: string, want: map<string, string>, now: Time): set<string> {
    set fp | fp in c.active && IsDue(cfg, c, fp, after, ruleKey, want, now)
  }

  function Marked(c: Core, fps: set<string>, ruleKey: string): Core {
    c.(escalated := map fp | fp in c.escalated.Keys + fps :: if fp in fps then Marks(c, fp) + {ruleKey} else Marks(c, fp))
  }

  /** A snapshot entry Restore will take: non-nil, with an identity and known enums. */
  predicate Admissible(cfg: Config, e: Option<Alert>) {
    e.Some? && e.value.fingerprint != "" && ValidSeverity(e.value.severity) && e.value.kind in cfg.knownKinds
  }

  /** An alert that was never given a deadline gets a fresh one. */
  function Revived(cfg: Config, a: Alert, now: Time): Alert {
    if a.endsAt == ZERO_TIME then a.(endsAt := now + cfg.resolveTTL) else a
  }

  function Admitted(cfg: Config, active: map<string, Alert>, list: seq<Option<Alert>>, now: Time): map<string, Alert> {
    if list == [] then active
    else
      var front, e := Admitted(cfg, active, list[..|list| - 1], now), list[|list| - 1];
      if Admissible(cfg, e) && e.value.fingerprint !in front
      then front[e.value.fingerprint := Revived(cfg, e.value, now)] else front
  }

  function RestoredSent(lastSent: map<string, Time>, snap: map<string, Time>, now: Time): map<string, Time> {
    (map fp | fp in snap && snap[fp] <= now :: snap[fp]) + lastSent
  }

  function RestoredMarks(active: map<string, Alert>, marks: map<string, set<string>>, snap: map<string, seq<string>>)
    : map<string, set<string>>
  {
    map fp | fp in marks.Keys + (snap.Keys * active.Keys) ::
      var live := if fp in marks then marks[fp] else {};
      if fp in snap && fp in active then live + Members(snap[fp]) else live
  }

  function Restored(cfg: Config, c: Core, snap: Snapshot, now: Time): Core {
    if snap.version > SNAPSHOT_VERSION then c
    else
      var active := Admitted(cfg, c.active, snap.active, now);
      Core(active, RestoredSent(c.lastSent, snap.lastSent, now), RestoredMarks(active, c.escalated, snap.escalated))
  }

  /** What Export writes, given the order in which it met the active alerts. */
  ghost predicate Represents(snap: Snapshot, c: Core, order: seq<string>) {
    && snap.version == SNAPSHOT_VERSION && snap.lastSent == c.lastSent
    && Enumerates(order, c.active.Keys)
    && |snap.active| == |order|
    && (forall i | 0 <= i < |order| :: order[i] in c.active && snap.active[i] == Some(Durable(c.active[order[i]])))
    && snap.escalated.Keys == c.escalated.Keys
    && (forall fp | fp in snap.escalated :: Members(snap.escalated[fp]) == c.escalated[fp])
  }

  /** What a fresh store makes of the snapshot of another one at boot time. */
  function Carried(cfg: Config, c: Core, now: Time): Core {
    var active := map fp | fp in c.active && Admissible(cfg, Some(c.active[fp])) :: Revived(cfg, Durable(c.active[fp]), now);
    Core(active, map fp | fp in c.lastSent && c.lastSent[fp] <= now :: c.lastSent[fp],
         map fp | fp in c.escalated && fp in active :: c.escalated[fp])
  }

  /** The invariant of a store that runs on its own: alerts sit under their own
      fingerprint and have a deadline, and only active ones carry escalation marks. */
  ghost predicate Tidy(c: Core) {
    && (forall fp | fp in c.active :: c.active[fp].fingerprint == fp && c.active[fp].endsAt != ZERO_TIME)
    && c.escalated.Keys <= c.active.Keys
  }

  // ---------------------------------------------------------------- the recent ring

  function Ring(log: seq<Alert>): (ring: seq<Alert>)
    ensures |ring| <= RECENT_CAP
  {
    if |log| > RECENT_CAP then log[|log| - RECENT_CAP..] else log
  }

  /** The ring holds the newest entries, up to its capacity, oldest first. */
  lemma RingIsNewest(log: seq<Alert>)
    ensures |Ring(log)| == (if |log| < RECENT_CAP then |log| else RECENT_CAP) && Ring(log) == log[|log| - |Ring(log)|..]
  {
  }

  /** Trimming at every append keeps exactly the newest entries of the whole history. */
  lemma RingOfRing(log: seq<Alert>, more: seq<Alert>)
    ensures Ring(Ring(log) + more) == Ring(log + more)
  {
  }

  /** The ring after a batch of copies; an empty batch does not touch it. */
  function RingAfter(ring: seq<Alert>, batch: seq<Alert>): seq<Alert> {
    if batch == [] then ring else Ring(ring + Stripped(batch))
  }

  lemma RingAfterNext(ring: seq<Alert>, batch: seq<Alert>, a: Alert)
    ensures Ring(RingAfter(ring, batch) + [CloneWithoutDetails(a)]) == RingAfter(ring, batch + [a])
  {
    var one := [CloneWithoutDetails(a)];
    assert (batch + [a])[..|batch|] == batch;
    assert ring + Stripped(batch + [a]) == ring + Stripped(batch) + one;
    RingOfRing(ring + Stripped(batch), one);
    if batch == [] { assert ring + Stripped(batch) == ring; }
  }

  lemma DroppedTwice(c: Core, fps: set<string>, more: set<string>)
    ensures Dropped(Dropped(c, fps), more) == Dropped(c, fps + more)
  {
    assert c.active - fps - more == c.active - (fps + more);
    assert c.lastSent - fps - more == c.lastSent - (fps + more);
    assert c.escalated - fps - more == c.escalated - (fps + more);
  }

  /** Closing one more alert, in the core, the ring and the list of copies. */
  lemma ResolveStep(c: Core, ring: seq<Alert>, order: seq<string>, i: nat, endsAt: Option<Time>)
    requires Enumerates(order, Members(order)) && Members(order) <= c.active.Keys && i < |order|
    ensures Members(order[..i]) <= c.active.Keys && Members(order[..i + 1]) <= c.active.Keys
    ensures var was, closed, fp := Dropped(c, Members(order[..i])), ClosingAll(c.active, order[..i], endsAt), order[i];
      && fp in was.active && fp in c.active && was.active[fp] == c.active[fp]
      && Dropped(was, {fp}) == Dropped(c, Members(order[..i + 1]))
      && ClosingAll(c.active, order[..i + 1], endsAt) == closed + [Closing(c.active[fp], endsAt)]
      && Ring(RingAfter(ring, closed) + [CloneWithoutDetails(Closing(c.active[fp], endsAt))])
         == RingAfter(ring, closed + [Closing(c.active[fp], endsAt)])
  {
    var fp := order[i];
    assert fp in Members(order) && fp !in order[..i];
    assert Members(order[..i]) <= Members(order);
    MembersNext(order, i);
    assert order[..i + 1][..i] == order[..i];
    DroppedTwice(c, Members(order[..i]), {fp});
    RingAfterNext(ring, ClosingAll(c.active, order[..i], endsAt), Closing(c.active[fp], endsAt));
  }

  // ---------------------------------------------------------------- the object

  class Store {
    const cfg: Config
    var active: map<string, Alert>
    var lastSent: map<string, Time>
    var escalated: map<string, set<string>>
    var recent: seq<Alert>
    var gen: nat

    function View(): Core
      reads this
    {
      Core(active, lastSent, escalated)
    }

    constructor (cfg: Config)
      ensures this.cfg == cfg && View() == EMPTY_CORE && recent == [] && gen == 0
    {
      this.cfg := cfg;
      active, lastSent, escalated, recent, gen := map[], map[], map[], [], 0;
    }

    method RecordRecent(a: Alert)
      modifies this`recent
      ensures recent == Ring(old(recent) + [CloneWithoutDetails(a)])
    {
      recent := recent + [CloneWithoutDetails(a)];
      if |recent| > RECENT_CAP {
        recent := recent[|recent| - RECENT_CAP..];
      }
    }

    method ShouldSend(a: Alert, now: Time) returns (ok: bool, out: Alert)
      modifies this
      ensures ok == !Muted(cfg, old(View()), a.fingerprint, now)
      ensures !ok ==> View() == old(View()) && gen == old(gen) && recent == old(recent) && out == a
      ensures ok ==> && View() == Sent(cfg, old(View()), a, now) && gen == old(gen) + 1
                     && out == Stamped(cfg, old(View()), a, now)
                     && recent == Ring(old(recent) + [CloneWithoutDetails(out)])
    {
      if Muted(cfg, View(), a.fingerprint, now) {
        return false, a;
      }
      lastSent := lastSent[a.fingerprint := now];
      out := a;
      if a.fingerprint in active {
        out := out.(startsAt := active[a.fingerprint].startsAt);
      }
      out := out.(endsAt := now + cfg.resolveTTL);
      active := active[a.fingerprint := out];
      RecordRecent(out);
      gen := gen + 1;
      ok := true;
    }

    method ShouldSendEvent(a: Alert, now: Time) returns (ok: bool)
      modifies this
      ensures ok == !Muted(cfg, old(View()), a.fingerprint, now)
      ensures !ok ==> View() == old(View()) && gen == old(gen) && recent == old(recent)
      ensures ok ==> && View() == Seeded(old(View()), a.fingerprint, now) && gen == old(gen) + 1
                     && recent == Ring(old(recent) + [CloneWithoutDetails(a)])
    {
      if Muted(cfg, View(), a.fingerprint, now) {
        return false;
      }
      lastSent := lastSent[a.fingerprint := now];
      RecordRecent(a);
      gen := gen + 1;
      ok := true;
    }

    method Seed(fp: string, now: Time)
      modifies this`lastSent, this`gen
      ensures View() == Seeded(old(View()), fp, now) && gen == old(gen) + 1
    {
      lastSent := lastSent[fp := now];
      gen := gen + 1;
    }

    method Touch(fp: string, now: Time)
      modifies this`active, this`gen
      ensures View() == Touched(cfg, old(View()), fp, now)
      ensures gen == old(gen) + (if fp in old(active) then 1 else 0)
    {
      if fp in active {
        active := active[fp := active[fp].(endsAt := now + cfg.resolveTTL)];
        gen := gen + 1;
      }
    }

    /** dropLocked. */
    method Drop(fp: string)
      modifies this`active, this`lastSent, this`escalated
      ensures View() == Dropped(old(View()), {fp})
    {
      active := active - {fp};
      lastSent := lastSent - {fp};
      escalated := escalated - {fp};
    }

    method Forget(fp: string)
      modifies this`active, this`lastSent, this`escalated, this`gen
      ensures View() == Dropped(old(View()), {fp})
      ensures gen == old(gen) + (if fp in old(active) || fp in old(lastSent) then 1 else 0)
    {
      if fp in active || fp in lastSent {
        gen := gen + 1;
      }
      Drop(fp);
    }

    /** resolveLocked. */
    method ResolveOne(fp: string, cp: Alert)
      modifies this
      ensures View() == Dropped(old(View()), {fp}) && gen == old(gen) + 1
      ensures recent == Ring(old(recent) + [CloneWithoutDetails(cp)])
    {
      Drop(fp);
      RecordRecent(cp);
      gen := gen + 1;
    }

    /** The loop shared by SweepResolved and ResolveObject: closes the chosen alerts
        in the order met and returns the copies the callback receives. */
    method Resolve(order: seq<string>, endsAt: Option<Time>) returns (closed: seq<Alert>)
      requires Enumerates(order, Members(order)) && Members(order) <= active.Keys
      modifies this
      ensures closed == ClosingAll(old(active), order, endsAt)
      ensures View() == Dropped(old(View()), Members(order))
      ensures gen == old(gen) + |order|
      ensures recent == RingAfter(old(recent), closed)
    {
      ghost var c, ring := View(), recent;
      closed := [];
      for i := 0 to |order|
        invariant gen == old(gen) + i && View() == Dropped(c, Members(order[..i]))
        invariant Members(order[..i]) <= c.active.Keys && closed == ClosingAll(c.active, order[..i], endsAt)
        invariant recent == RingAfter(ring, closed)
      {
        ResolveStep(c, ring, order, i, endsAt);
        var cp := Closing(active[order[i]], endsAt);
        ResolveOne(order[i], cp);
        closed := closed + [cp];
      }
      assert order[..|order|] == order;
    }

    method SweepResolved(now: Time) returns (closed: seq<Alert>, order: seq<string>)
      modifies this
      ensures Enumerates(order, Expired(old(View()), now)) && |order| == |Expired(old(View()), now)|
      ensures closed == ClosingAll(old(active), order, None) && recent == RingAfter(old(recent), closed)
      ensures View() == Dropped(old(View()), Expired(old(View()), now))
      ensures gen == old(gen) + |order|
    {
      order := Listing(Expired(View(), now));
      MembersAll(order, Expired(View(), now));
      closed := Resolve(order, None);
    }

    method ResolveObject(kind: string, ns: string, name: string, now: Time) returns (closed: seq<Alert>, order: seq<string>)
      modifies this
      ensures Enumerates(order, OfObject(old(View()), kind, ns, name)) && |order| == |OfObject(old(View()), kind, ns, name)|
      ensures closed == ClosingAll(old(active), order, Some(now)) && recent == RingAfter(old(recent), closed)
      ensures View() == Dropped(old(View()), OfObject(old(View()), kind, ns, name))
      ensures gen == old(gen) + |order|
    {
      order := Listing(OfObject(View(), kind, ns, name));
      MembersAll(order, OfObject(View(), kind, ns, name));
      closed := Resolve(order, Some(now));
    }

    method CleanOldHistory(now: Time)
      modifies this`lastSent, this`gen
      ensures View() == Cleaned(cfg, old(View()), now)
      ensures gen == old(gen) + |Stale(cfg, old(View()), now)|
      ensures lastSent.Keys == set fp | fp in old(lastSent)
        && (now - old(lastSent)[fp] <= MIN_HISTORY_RETENTION || now - old(lastSent)[fp] <= 2 * cfg.muteWindow) :: fp
    {
      var order := Listing(lastSent.Keys);
      var cutoff := now - Retention(cfg);
      ghost var was, stale := lastSent, Stale(cfg, View(), now);
      ghost var removed: seq<string> := [];
      for i := 0 to |order|
        invariant removed == Selected(order[..i], stale)
        invariant lastSent == Without(was, removed) && gen == old(gen) + |removed|
      {
        StillThere(was, order, i, stale);
        WithoutNext(was, removed, order[i]);
        assert order[..i + 1][..i] == order[..i];
        if lastSent[order[i]] < cutoff {
          lastSent := lastSent - {order[i]};
          gen := gen + 1;
          removed := removed + [order[i]];
        }
      }
      assert order[..|order|] == order;
      SelectedEnumerates(order, was.Keys, stale);
      MembersAll(removed, stale);
      WithoutIs(was, removed);
      EnumeratesCounts(removed, stale);
    }

    /** The body of Overdue's loop for one alert: test it, and mark it when due. */
    method MarkIfDue(fp: string, after: Time, ruleKey: string, want: map<string, string>, now: Time, ghost c: Core)
      returns (due: bool)
      requires fp in active && active == c.active && Marks(View(), fp) == Marks(c, fp)
      modifies this`escalated, this`gen
      ensures due <==> fp in Due(cfg, c, after, ruleKey, want, now)
      ensures escalated == if due then old(escalated)[fp := Marks(c, fp) + {ruleKey}] else old(escalated)
      ensures gen == old(gen) + (if due then 1 else 0)
    {
      if active[fp].startsAt >= now - after {
        return false;
      }
      if fp in escalated && ruleKey in escalated[fp] {
        return false;
      }
      due := MatchLabels(cfg.rx, active[fp], want);
      if due {
        escalated := escalated[fp := (if fp in escalated then escalated[fp] else {}) + {ruleKey}];
        gen := gen + 1;
      }
    }

    method Overdue(after: Time, ruleKey: string, want: map<string, string>, now: Time) returns (out: seq<Alert>, order: seq<string>)
      modifies this`escalated, this`gen
      ensures Enumerates(order, Due(cfg, old(View()), after, ruleKey, want, now))
      ensures Members(order) <= active.Keys && out == AlertsOf(active, order)
      ensures View() == Marked(old(View()), Due(cfg, old(View()), after, ruleKey, want, now), ruleKey)
      ensures gen == old(gen) + |order|
    {
      out, order := MarkAllDue(after, ruleKey, want, now, View(), Due(cfg, View(), after, ruleKey, want, now));
    }

    method MarkAllDue(after: Time, ruleKey: string, want: map<string, string>, now: Time, ghost c: Core, ghost due: set<string>)
      returns (out: seq<Alert>, order: seq<string>)
      requires c == View() && due == Due(cfg, c, after, ruleKey, want, now)
      modifies this`escalated, this`gen
      ensures Enumerates(order, due) && Members(order) <= active.Keys && out == AlertsOf(active, order)
      ensures View() == Marked(c, due, ruleKey) && gen == old(gen) + |order|
    {
      out, order := [], [];
      var all := Listing(active.Keys);
      for i := 0 to |all|
        invariant order == Selected(all[..i], due) && active == c.active && gen == old(gen) + |order|
        invariant Members(order) <= active.Keys && out == AlertsOf(active, order)
        invariant escalated == MarksAfter(c, all[..i], due, ruleKey)
      {
        assert all[i] in active && all[i] !in all[..i];
        MarksElsewhere(c, all[..i], due, ruleKey, all[i]);
        assert all[..i + 1][..i] == all[..i];
        var hit := MarkIfDue(all[i], after, ruleKey, want, now, c);
        if hit {
          AlertsOfNext(active, order, all[i]);
          out, order := out + [active[all[i]]], order + [all[i]];
        }
      }
      assert all[..|all|] == all;
      SelectedEnumerates(all, active.Keys, due);
      MarksAtEnd(c, all, due, ruleKey);
    }

    method Export(now: Time) returns (snap: Snapshot, ghost order: seq<string>)
      ensures Represents(snap, View(), order) && snap.savedAt == now
    {
      var fps := Listing(active.Keys);
      var list: seq<Option<Alert>> := [];
      for i := 0 to |fps|
        invariant |list| == i
        invariant forall k | 0 <= k < i :: fps[k] in active && list[k] == Some(Durable(active[fps[k]]))
      {
        assert fps[i] in active;
        list := list + [Some(Durable(active[fps[i]]))];
      }
      var marked := Listing(escalated.Keys);
      var marks: map<string, seq<string>> := map[];
      for i := 0 to |marked|
        invariant marks.Keys == Members(marked[..i])
        invariant forall fp | fp in marks :: fp in escalated && Members(marks[fp]) == escalated[fp]
      {
        assert marked[i] in escalated;
        var keys := Listing(escalated[marked[i]]);
        MembersAll(keys, escalated[marked[i]]);
        marks := marks[marked[i] := keys];
        MembersNext(marked, i);
      }
      MembersAll(marked, escalated.Keys);
      assert marks.Keys == escalated.Keys;
      snap := Snapshot(SNAPSHOT_VERSION, now, list, lastSent, marks);
      order := fps;
    }

    /** Live entries win; foreign, future and orphaned ones are left out. */
    method Restore(snap: Option<Snapshot>, now: Time) returns (accepted: nat)
      modifies this`active, this`lastSent, this`escalated, this`gen
      ensures snap.None? ==> View() == old(View()) && accepted == 0 && gen == old(gen)
      ensures snap.Some? ==> View() == Restored(cfg, old(View()), snap.value, now)
      ensures snap.Some? && snap.value.version > SNAPSHOT_VERSION ==> accepted == 0 && gen == old(gen)
      ensures snap.Some? && snap.value.version <= SNAPSHOT_VERSION ==>
                accepted == |active| - |old(active)| && gen == old(gen) + 1
    {
      if snap.None? || snap.value.version > SNAPSHOT_VERSION {
        return 0;
      }
      var s := snap.value;
      RestoreSent(s.lastSent, now);
      accepted := RestoreActive(s.active, now);
      RestoreMarks(s.escalated);
      gen := gen + 1;
    }

    method RestoreSent(snap: map<string, Time>, now: Time)
      modifies this`lastSent
      ensures lastSent == RestoredSent(old(lastSent), snap, now)
    {
      var rest := snap.Keys;
      while rest != {}
        invariant rest <= snap.Keys
        invariant forall fp :: fp in lastSent <==>
          fp in old(lastSent) || (fp in snap && fp !in rest && snap[fp] <= now)
        invariant forall fp | fp in lastSent ::
          lastSent[fp] == if fp in old(lastSent) then old(lastSent)[fp] else snap[fp]
        decreases |rest|
      {
        var fp :| fp in rest;
        if snap[fp] <= now && fp !in lastSent {
          lastSent := lastSent[fp := snap[fp]];
        }
        rest := rest - {fp};
      }
    }

    method RestoreActive(list: seq<Option<Alert>>, now: Time) returns (accepted: nat)
      modifies this`active
      ensures active == Admitted(cfg, old(active), list, now)
      ensures accepted == |active| - |old(active)|
    {
      accepted := 0;
      for i := 0 to |list|
        invariant active == Admitted(cfg, old(active), list[..i], now)
        invariant |active| == |old(active)| + accepted
      {
        assert list[..i + 1][..i] == list[..i];
        var e := list[i];
        if e.None? || e.value.fingerprint == "" {
          continue;
        }
        if !ValidSeverity(e.value.severity) || e.value.kind !in cfg.knownKinds {
          continue;
        }
        if e.value.fingerprint !in active {
          var cp := e.value;
          if cp.endsAt == ZERO_TIME {
            cp := cp.(endsAt := now + cfg.resolveTTL);
          }
          active := active[e.value.fingerprint := cp];
          accepted := accepted + 1;
        }
      }
      assert list[..|list|] == list;
    }

    method RestoreMarks(snap: map<string, seq<string>>)
      modifies this`escalated
      ensures escalated == RestoredMarks(active, old(escalated), snap)
    {
      ghost var live, marks := active, escalated;
      var rest := snap.Keys;
      RestoredMarksEnds(live, marks, snap);
      while rest != {}
        invariant rest <= snap.Keys
        invariant escalated == RestoredMarks(live, marks, snap - rest)
        decreases |rest|
      {
        var fp :| fp in rest;
        RestoredMarksNext(live, marks, snap, rest, fp);
        if fp in active {
          escalated := escalated[fp := (if fp in escalated then escalated[fp] else {}) + Members(snap[fp])];
        }
        rest := rest - {fp};
      }
    }
  }

  lemma RestoredMarksEnds(active: map<string, Alert>, marks: map<string, set<string>>, snap: map<string, seq<string>>)
    ensures RestoredMarks(active, marks, snap - snap.Keys) == marks && snap - {} == snap
  {
  }

  lemma RestoredMarksNext(active: map<string, Alert>, marks: map<string, set<string>>, snap: map<string, seq<string>>,
                          rest: set<string>, fp: string)
    requires fp in rest && rest <= snap.Keys
    ensures var was := RestoredMarks(active, marks, snap - rest);
      RestoredMarks(active, marks, snap - (rest - {fp}))
      == if fp in active then was[fp := (if fp in was then was[fp] else {}) + Members(snap[fp])] else was
  {
    var was, now := RestoredMarks(active, marks, snap - rest), RestoredMarks(active, marks, snap - (rest - {fp}));
    forall f | f != fp
      ensures (f in was <==> f in now) && (f in was ==> was[f] == now[f])
    {
    }
  }

  /** The escalation marks while Overdue walks over `all`. */
  function MarksAfter(c: Core, all: seq<string>, due: set<string>, ruleKey: string): map<string, set<string>> {
    if all == [] then c.escalated
    else
      var front, last := MarksAfter(c, all[..|all| - 1], due, ruleKey), all[|all| - 1];
      if last in due then front[last := Marks(c, last) + {ruleKey}] else front
  }

  lemma {:induction false} MarksElsewhere(c: Core, all: seq<string>, due: set<string>, ruleKey: string, fp: string)
    ensures var marks := MarksAfter(c, all, due, ruleKey);
      if fp in all && fp in due then fp in marks && marks[fp] == Marks(c, fp) + {ruleKey}
      else (fp in marks <==> fp in c.escalated) && (fp in marks ==> marks[fp] == c.escalated[fp])
  {
    if all != [] {
      MarksElsewhere(c, all[..|all| - 1], due, ruleKey, fp);
      assert all == all[..|all| - 1] + [all[|all| - 1]];
    }
  }

  lemma MarksAtEnd(c: Core, all: seq<string>, due: set<string>, ruleKey: string)
    requires Enumerates(all, c.active.Keys) && due <= c.active.Keys
    ensures MarksAfter(c, all, due, ruleKey) == Marked(c, due, ruleKey).escalated
  {
    forall fp
      ensures fp in MarksAfter(c, all, due, ruleKey) <==> fp in Marked(c, due, ruleKey).escalated
      ensures fp in MarksAfter(c, all, due, ruleKey) ==>
        MarksAfter(c, all, due, ruleKey)[fp] == Marked(c, due, ruleKey).escalated[fp]
    {
      MarksElsewhere(c, all, due, ruleKey, fp);
    }
  }

  /** The copy handed to the resolve callback. */
  function Closing(a: Alert, endsAt: Option<Time>): Alert {
    if endsAt.Some? then a.(resolved := true, endsAt := endsAt.value) else a.(resolved := true)
  }

  function ClosingAll(active: map<string, Alert>, order: seq<string>, endsAt: Option<Time>): (closed: seq<Alert>)
    requires Members(order) <= active.Keys
    ensures |closed| == |order|
    ensures forall i | 0 <= i < |order| :: order[i] in Members(order) && closed[i] == Closing(active[order[i]], endsAt)
  {
    if order == [] then []
    else
      assert Members(order[..|order| - 1]) <= Members(order) && order[|order| - 1] in Members(order);
      ClosingAll(active, order[..|order| - 1], endsAt) + [Closing(active[order[|order| - 1]], endsAt)]
  }

  function AlertsOf(active: map<string, Alert>, order: seq<string>): seq<Alert>
    requires Members(order) <= active.Keys
  {
    if order == [] then []
    else
      assert Members(order[..|order| - 1]) <= Members(order) && order[|order| - 1] in Members(order);
      AlertsOf(active, order[..|order| - 1]) + [active[order[|order| - 1]]]
  }

  lemma AlertsOfNext(active: map<string, Alert>, order: seq<string>, fp: string)
    requires Members(order) <= active.Keys && fp in active
    ensures Members(order + [fp]) <= active.Keys
    ensures AlertsOf(active, order + [fp]) == AlertsOf(active, order) + [active[fp]]
  {
    assert (order + [fp])[..|order|] == order;
  }

  function Stripped(alerts: seq<Alert>): seq<Alert> {
    if alerts == [] then []
    else Stripped(alerts[..|alerts| - 1]) + [CloneWithoutDetails(alerts[|alerts| - 1])]
  }
}
