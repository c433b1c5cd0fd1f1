/** The grouper of internal/group/group.go: the first alert of a group passes, the rest
    of its window fold into one summary. */
module Grouping {
  import opened Wrappers
  import opened Collections
  import opened Alerts

  const MEMBER_LIST_CAP: nat := 10
  const MEMBER_DETAIL_CAP: nat := 50

  /** The group's fields and whether it holds resolves. The source joins the two in one
      string; the encoded fields cannot contain the separator, so nothing collides. */
  type Key = (GroupId, bool)

  function KeyOf(a: Alert, by_: seq<string>): Key {
    (GroupKeyOf(a, by_), a.resolved)
  }

  /** What a bucket keeps of the alert that opened it. */
  datatype Identity = Identity(
    kind: string, namespace: string, name: string, reason: string, severity: string, cluster: string, resolved: bool)

  function IdentityOf(a: Alert): Identity {
    Identity(a.kind, a.namespace, a.name, a.reason, a.severity, a.cluster, a.resolved)
  }

  datatype Bucket = Bucket(first: Identity, members: seq<string>, count: nat, deadline: Time)

  function NameOf(a: Alert): string {
    a.namespace + "/" + a.name
  }

  /** The content of a summary alert, before it is set as text: the names it lists, how
      many more it announces, and the longer list in its details. */
  datatype Summary = Summary(first: Identity, count: nat, listed: seq<string>, more: int, detailed: seq<string>)

  /** The open windows, and whether the final flush has begun. */
  datatype Windows = Windows(buckets: map<Key, Bucket>, closing: bool)

  // ---------------------------------------------------------------- specification

  predicate Open(w: Windows, key: Key, now: Time) {
    key in w.buckets && now <= w.buckets[key].deadline
  }

  /** Does the alert join the open window of its key? */
  predicate Absorbs(w: Windows, key: Key, now: Time) {
    !w.closing && Open(w, key, now)
  }

  function Opened(a: Alert, now: Time, window: Time): Bucket {
    Bucket(IdentityOf(a), [], 0, now + window)
  }

  function Joined(b: Bucket, a: Alert): Bucket {
    b.(count := b.count + 1, members := if |b.members| < MEMBER_DETAIL_CAP then b.members + [NameOf(a)] else b.members)
  }

  function Offered(w: Windows, key: Key, a: Alert, now: Time, window: Time): Windows {
    if w.closing then w
    else w.(buckets := w.buckets[key := if Open(w, key, now) then Joined(w.buckets[key], a) else Opened(a, now, window)])
  }

  /** The expired bucket an Offer replaces before the flusher came round. */
  function Replaced(w: Windows, key: Key, now: Time): Option<Bucket> {
    if !w.closing && key in w.buckets && !Open(w, key, now) then Some(w.buckets[key]) else None
  }

  function Overdue(w: Windows, now: Time): set<Key> {
    set key | key in w.buckets && !Open(w, key, now)
  }

  function BucketsOf(buckets: map<Key, Bucket>, order: seq<Key>): (all: seq<Bucket>)
    requires Members(order) <= buckets.Keys
    ensures |all| == |order|
    ensures forall i | 0 <= i < |order| :: order[i] in Members(order) && all[i] == buckets[order[i]]
  {
    if order == [] then []
    else
      var n := |order| - 1;
      assert Members(order[..n]) <= Members(order) && order[n] in Members(order);
      BucketsOf(buckets, order[..n]) + [buckets[order[n]]]
  }

  lemma Appended(buckets: map<Key, Bucket>, order: seq<Key>, key: Key)
    requires Members(order) <= buckets.Keys && key in buckets
    ensures Members(order + [key]) <= buckets.Keys
    ensures Without(buckets, order + [key]) == Without(buckets, order) - {key}
    ensures BucketsOf(buckets, order + [key]) == BucketsOf(buckets, order) + [buckets[key]]
  {
    assert (order + [key])[..|order|] == order;
  }

  lemma SelectedIsTaken(buckets: map<Key, Bucket>, keys: seq<Key>, chosen: set<Key>)
    requires Enumerates(keys, buckets.Keys) && chosen <= buckets.Keys
    ensures Enumerates(Selected(keys, chosen), chosen)
    ensures Without(buckets, Selected(keys, chosen)) == buckets - chosen
  {
    SelectedEnumerates(keys, buckets.Keys, chosen);
    WithoutIs(buckets, Selected(keys, chosen));
    MembersAll(Selected(keys, chosen), chosen);
  }

  function FirstOf(names: seq<string>, cap: nat): seq<string> {
    if |names| > cap then names[..cap] else names
  }

  /** What emitSummary makes of a bucket: nothing when no member joined. */
  predicate Tells(b: Bucket, s: Option<Summary>) {
    && (s.None? <==> b.count == 0)
    && (s.Some? ==>
          && s.value.first == b.first && s.value.count == b.count && s.value.detailed == b.members
          && s.value.listed == FirstOf(b.members, MEMBER_LIST_CAP)
          && s.value.more == if |b.members| > MEMBER_LIST_CAP then b.count - MEMBER_LIST_CAP else 0)
  }

  predicate TellsAll(all: seq<Bucket>, out: seq<Option<Summary>>) {
    |out| == |all| && forall i | 0 <= i < |all| :: Tells(all[i], out[i])
  }

  // ---------------------------------------------------------------- the object

  class Grouper {
    const window: Time
    const fields: seq<string>
    var buckets: map<Key, Bucket>
    var closing: bool

    function View(): Windows
      reads this
    {
      Windows(buckets, closing)
    }

    constructor (window: Time, fields: seq<string>)
      ensures this.window == window && View() == Windows(map[], false)
      ensures this.fields == if fields == [] then ["kind", "namespace", "reason", "severity"] else fields
    {
      this.window := window;
      this.fields := if fields == [] then ["kind", "namespace", "reason", "severity"] else fields;
      buckets, closing := map[], false;
    }

    /** `replaced` is the summary of an expired window the flusher had not reached. */
    method Offer(a: Alert, now: Time) returns (pass: bool, replaced: Option<Summary>)
      modifies this`buckets
      ensures pass == !Absorbs(old(View()), KeyOf(a, fields), now)
      ensures View() == Offered(old(View()), KeyOf(a, fields), a, now, window)
      ensures var b := Replaced(old(View()), KeyOf(a, fields), now);
        if b.Some? then Tells(b.value, replaced) else replaced.None?
    {
      var id := GroupKey(a, fields);
      var key := (id, a.resolved);
      replaced := None;
      if closing {
        return true, None;
      }
      if key !in buckets || now > buckets[key].deadline {
        if key in buckets {
          replaced := EmitSummary(buckets[key]);
        }
        buckets := buckets[key := Bucket(IdentityOf(a), [], 0, now + window)];
        return true, replaced;
      }
      var b := buckets[key];
      b := b.(count := b.count + 1);
      if |b.members| < MEMBER_DETAIL_CAP {
        b := b.(members := b.members + [a.namespace + "/" + a.name]);
      }
      buckets := buckets[key := b];
      pass := false;
    }

    method FlushExpired(now: Time) returns (out: seq<Option<Summary>>, order: seq<Key>)
      modifies this`buckets
      ensures Enumerates(order, Overdue(old(View()), now))
      ensures View() == old(View()).(buckets := old(buckets) - Overdue(old(View()), now))
      ensures Members(order) <= old(buckets).Keys && TellsAll(BucketsOf(old(buckets), order), out)
    {
      var expired;
      expired, order := TakeExpired(now);
      out := EmitSummaries(expired);
    }

    /** The part of flushExpired under the lock. */
    method TakeExpired(now: Time) returns (expired: seq<Bucket>, order: seq<Key>)
      modifies this`buckets
      ensures Enumerates(order, Overdue(old(View()), now))
      ensures buckets == old(buckets) - Overdue(old(View()), now)
      ensures Members(order) <= old(buckets).Keys && expired == BucketsOf(old(buckets), order)
    {
      ghost var was, overdue := buckets, Overdue(View(), now);
      expired, order := [], [];
      var keys := Listing(buckets.Keys);
      for i := 0 to |keys|
        invariant order == Selected(keys[..i], overdue) && Members(order) <= was.Keys
        invariant buckets == Without(was, order) && expired == BucketsOf(was, order)
      {
        var key := keys[i];
        StillThere(was, keys, i, overdue);
        assert keys[..i + 1][..i] == keys[..i];
        var b := buckets[key];
        if now > b.deadline {
          Appended(was, order, key);
          expired, order := expired + [b], order + [key];
          buckets := buckets - {key};
        }
      }
      assert keys[..|keys|] == keys;
      SelectedIsTaken(was, keys, overdue);
    }

    method FlushAll() returns (out: seq<Option<Summary>>, order: seq<Key>)
      modifies this
      ensures View() == Windows(map[], true)
      ensures Enumerates(order, old(buckets).Keys) && Members(order) <= old(buckets).Keys
      ensures TellsAll(BucketsOf(old(buckets), order), out)
    {
      closing := true;
      order := Listing(buckets.Keys);
      MembersAll(order, buckets.Keys);
      var all: seq<Bucket> := [];
      for i := 0 to |order|
        invariant |all| == i && forall k | 0 <= k < i :: order[k] in buckets && all[k] == buckets[order[k]]
      {
        assert order[i] in order;
        all := all + [buckets[order[i]]];
      }
      assert all == BucketsOf(buckets, order);
      buckets := map[];
      out := EmitSummaries(all);
    }

    method EmitSummaries(all: seq<Bucket>) returns (out: seq<Option<Summary>>)
      ensures TellsAll(all, out)
    {
      out := [];
      for i := 0 to |all|
        invariant |out| == i && forall k | 0 <= k < i :: Tells(all[k], out[k])
      {
        var s := EmitSummary(all[i]);
        out := out + [s];
      }
    }

    method EmitSummary(b: Bucket) returns (s: Option<Summary>)
      ensures Tells(b, s)
    {
      if b.count == 0 {
        return None;
      }
      var listed, more := b.members, 0;
      if |listed| > MEMBER_LIST_CAP {
        more := b.count - MEMBER_LIST_CAP;
        listed := listed[..MEMBER_LIST_CAP];
      }
      s := Some(Summary(b.first, b.count, listed, more, b.members));
    }
  }

  // ---------------------------------------------------------------- runs

  /** Where a window is: in the map, taken out but not yet told, or told. */
  datatype Stage = Standing | Taken(bucket: Bucket) | Told(summary: Option<Summary>)

  /** An absorbed alert and the window it joined. */
  datatype Entry = Entry(window: nat, alert: Alert)

  /** The grouper with its history: every window ever opened with its key, which of
      them stand in the map, the absorbed alerts, and when each key last opened. */
  datatype World = World(
    w: Windows, at: map<Key, nat>, stages: seq<Stage>, keys: seq<Key>, joined: seq<Entry>,
    passed: map<Key, Time>, clock: Time)

  const START := World(Windows(map[], false), map[], [], [], [], map[], ZERO_TIME)

  datatype Config = Config(window: Time, fields: seq<string>)

  datatype Event =
    | Offer(a: Alert, now: Time)
    | Flush(now: Time)
    | Close(now: Time)
    | Emit(window: nat, summary: Option<Summary>, now: Time)

  predicate Enabled(x: World, e: Event) {
    && x.clock <= e.now
    && (e.Emit? ==> e.window < |x.stages| && x.stages[e.window].Taken? && Tells(x.stages[e.window].bucket, e.summary))
  }

  /** Does this Offer open a window? */
  predicate Opens(cfg: Config, x: World, e: Event) {
    e.Offer? && !x.w.closing && !Open(x.w, KeyOf(e.a, cfg.fields), e.now)
  }

  predicate Joins(cfg: Config, x: World, e: Event) {
    e.Offer? && Absorbs(x.w, KeyOf(e.a, cfg.fields), e.now)
  }

  /** The keys whose windows leave the map in this step. */
  function Leaving(cfg: Config, x: World, e: Event): set<Key> {
    match e
    case Offer(a, now) =>
      var key := KeyOf(a, cfg.fields);
      if Replaced(x.w, key, now).Some? then {key} else {}
    case Flush(now) => Overdue(x.w, now)
    case Close(_) => x.w.buckets.Keys
    case Emit(_, _, _) => {}
  }

  function NextWindows(cfg: Config, x: World, e: Event): Windows {
    match e
    case Offer(a, now) => Offered(x.w, KeyOf(a, cfg.fields), a, now, cfg.window)
    case Flush(now) => x.w.(buckets := x.w.buckets - Overdue(x.w, now))
    case Close(_) => Windows(map[], true)
    case Emit(_, _, _) => x.w
  }

  function NextAt(cfg: Config, x: World, e: Event): map<Key, nat> {
    if Opens(cfg, x, e) then x.at[KeyOf(e.a, cfg.fields) := |x.stages|] else x.at - Leaving(cfg, x, e)
  }

  /** The stage of window i after the step. */
  function NextStage(cfg: Config, x: World, e: Event, i: nat): Stage
    requires i < |x.stages| && |x.keys| == |x.stages|
  {
    var key := x.keys[i];
    if e.Emit? && e.window == i then Told(e.summary)
    else if key in Leaving(cfg, x, e) && key in x.at && x.at[key] == i && key in x.w.buckets then Taken(x.w.buckets[key])
    else x.stages[i]
  }

  function Next(cfg: Config, x: World, e: Event): World
    requires Enabled(x, e) && |x.keys| == |x.stages|
  {
    var opens := Opens(cfg, x, e);
    var moved := seq(|x.stages|, i requires 0 <= i < |x.stages| => NextStage(cfg, x, e, i));
    World(NextWindows(cfg, x, e), NextAt(cfg, x, e),
          if opens then moved + [Standing] else moved,
          if opens then x.keys + [KeyOf(e.a, cfg.fields)] else x.keys,
          if Joins(cfg, x, e) && KeyOf(e.a, cfg.fields) in x.at
          then x.joined + [Entry(x.at[KeyOf(e.a, cfg.fields)], e.a)] else x.joined,
          if opens then x.passed[KeyOf(e.a, cfg.fields) := e.now] else x.passed,
          e.now)
  }

  /** The names of the alerts that joined a window, in order. */
  function NamesIn(joined: seq<Entry>, window: nat): seq<string> {
    if joined == [] then []
    else
      var front, last := NamesIn(joined[..|joined| - 1], window), joined[|joined| - 1];
      if last.window == window then front + [NameOf(last.alert)] else front
  }

  predicate Holds(b: Bucket, names: seq<string>) {
    b.count == |names| && b.members == FirstOf(names, MEMBER_DETAIL_CAP)
  }

  /** A summary that gives a faithful account of the names that joined its window. */
  predicate Accounts(s: Option<Summary>, names: seq<string>) {
    && (s.None? <==> names == [])
    && (s.Some? ==>
          && s.value.count == |names| && |s.value.listed| + s.value.more == |names|
          && s.value.listed == FirstOf(names, MEMBER_LIST_CAP)
          && s.value.detailed == FirstOf(names, MEMBER_DETAIL_CAP))
  }

  predicate WindowOk(x: World, i: nat)
    requires i < |x.stages| && |x.keys| == |x.stages|
  {
    match x.stages[i]
    case Standing =>
      && x.keys[i] in x.at && x.at[x.keys[i]] == i && x.keys[i] in x.w.buckets
      && Holds(x.w.buckets[x.keys[i]], NamesIn(x.joined, i))
    case Taken(b) => Holds(b, NamesIn(x.joined, i))
    case Told(s) => Accounts(s, NamesIn(x.joined, i))
  }

  ghost predicate Linked(x: World) {
    && |x.keys| == |x.stages|
    && x.at.Keys == x.w.buckets.Keys
    && (forall key | key in x.at :: x.at[key] < |x.stages| && x.stages[x.at[key]].Standing? && x.keys[x.at[key]] == key)
    && (x.w.closing ==> x.w.buckets == map[])
  }

  ghost predicate Inv(cfg: Config, x: World) {
    && Linked(x)
    && (forall i: nat | i < |x.stages| :: WindowOk(x, i))
    && (forall e | e in x.joined :: e.window < |x.keys| && KeyOf(e.alert, cfg.fields) == x.keys[e.window])
  }

  lemma TellsAccounts(b: Bucket, s: Option<Summary>, names: seq<string>)
    requires Holds(b, names) && Tells(b, s)
    ensures Accounts(s, names)
  {
  }

  lemma NamesAfterJoin(joined: seq<Entry>, e: Entry, window: nat)
    ensures NamesIn(joined + [e], window)
         == if e.window == window then NamesIn(joined, window) + [NameOf(e.alert)] else NamesIn(joined, window)
  {
    assert (joined + [e])[..|joined|] == joined;
  }

  lemma {:induction false} NamesInNoWindow(joined: seq<Entry>, window: nat)
    requires forall e | e in joined :: e.window < window
    ensures NamesIn(joined, window) == []
  {
    if joined != [] {
      assert joined[|joined| - 1] in joined;
      NamesInNoWindow(joined[..|joined| - 1], window);
    }
  }

  lemma LinkedKeys(cfg: Config, x: World, e: Event)
    requires Linked(x) && Enabled(x, e)
    ensures NextAt(cfg, x, e).Keys == NextWindows(cfg, x, e).buckets.Keys
    ensures NextWindows(cfg, x, e).closing ==> NextWindows(cfg, x, e).buckets == map[]
  {
  }

  /** A window that stays in the map keeps standing. */
  lemma StandingStays(cfg: Config, x: World, e: Event, key: Key)
    requires Linked(x) && Enabled(x, e) && key in x.at
    requires key in NextAt(cfg, x, e) && NextAt(cfg, x, e)[key] == x.at[key]
    ensures NextStage(cfg, x, e, x.at[key]).Standing?
  {
  }

  lemma LinkedStep(cfg: Config, x: World, e: Event)
    requires Linked(x) && Enabled(x, e)
    ensures Linked(Next(cfg, x, e))
  {
    var y := Next(cfg, x, e);
    LinkedKeys(cfg, x, e);
    forall key | key in y.at
      ensures y.at[key] < |y.stages| && y.stages[y.at[key]].Standing? && y.keys[y.at[key]] == key
    {
      if key in x.at && y.at[key] == x.at[key] {
        StandingStays(cfg, x, e, key);
      }
    }
  }

  lemma JoinedStep(cfg: Config, x: World, e: Event)
    requires Inv(cfg, x) && Enabled(x, e)
    ensures var y := Next(cfg, x, e);
      forall f | f in y.joined :: f.window < |y.keys| && KeyOf(f.alert, cfg.fields) == y.keys[f.window]
  {
  }

  lemma NamesStep(cfg: Config, x: World, e: Event, i: nat)
    requires Inv(cfg, x) && Enabled(x, e) && i < |x.stages|
    ensures NamesIn(Next(cfg, x, e).joined, i)
         == if Joins(cfg, x, e) && x.at[KeyOf(e.a, cfg.fields)] == i
            then NamesIn(x.joined, i) + [NameOf(e.a)] else NamesIn(x.joined, i)
  {
    if Joins(cfg, x, e) {
      NamesAfterJoin(x.joined, Entry(x.at[KeyOf(e.a, cfg.fields)], e.a), i);
    }
  }

  /** A standing window takes its new member, if any; nothing else changes its bucket. */
  lemma WindowStands(cfg: Config, x: World, e: Event, i: nat)
    requires Inv(cfg, x) && Enabled(x, e) && i < |x.stages|
    requires x.stages[i].Standing? && NextStage(cfg, x, e, i).Standing?
    ensures WindowOk(Next(cfg, x, e), i)
  {
    var y := Next(cfg, x, e);
    NamesStep(cfg, x, e, i);
    assert y.stages[i] == NextStage(cfg, x, e, i) && y.keys[i] == x.keys[i];
    assert WindowOk(x, i);
    assert y.at[x.keys[i]] == i;
  }

  lemma WindowStep(cfg: Config, x: World, e: Event, i: nat)
    requires Inv(cfg, x) && Enabled(x, e) && i < |x.stages|
    ensures WindowOk(Next(cfg, x, e), i)
  {
    var y := Next(cfg, x, e);
    assert y.stages[i] == NextStage(cfg, x, e, i) && y.keys[i] == x.keys[i];
    assert WindowOk(x, i);
    if y.stages[i].Standing? {
      WindowStands(cfg, x, e, i);
    } else {
      NamesStep(cfg, x, e, i);
      if e.Emit? && e.window == i {
        TellsAccounts(x.stages[i].bucket, e.summary, NamesIn(x.joined, i));
      }
    }
  }

  lemma InvStep(cfg: Config, x: World, e: Event)
    requires Inv(cfg, x) && Enabled(x, e)
    ensures Inv(cfg, Next(cfg, x, e))
  {
    var y := Next(cfg, x, e);
    LinkedStep(cfg, x, e);
    JoinedStep(cfg, x, e);
    forall i: nat | i < |y.stages|
      ensures WindowOk(y, i)
    {
      if i < |x.stages| {
        WindowStep(cfg, x, e, i);
      } else {
        NamesInNoWindow(x.joined, i);
      }
    }
  }

  ghost predicate IsRun(cfg: Config, x: World, run: seq<Event>)
    decreases |run|
  {
    run != [] ==> Enabled(x, run[0]) && |x.keys| == |x.stages| && IsRun(cfg, Next(cfg, x, run[0]), run[1..])
  }

  ghost function After(cfg: Config, x: World, run: seq<Event>): World
    requires IsRun(cfg, x, run)
    decreases |run|
  {
    if run == [] then x else After(cfg, Next(cfg, x, run[0]), run[1..])
  }

  lemma {:induction false} InvAlways(cfg: Config, x: World, run: seq<Event>)
    requires Inv(cfg, x) && IsRun(cfg, x, run)
    ensures Inv(cfg, After(cfg, x, run))
    decreases |run|
  {
    if run != [] {
      InvStep(cfg, x, run[0]);
      InvAlways(cfg, Next(cfg, x, run[0]), run[1..]);
    }
  }

  // ---------------------------------------------------------------- conservation

  /** How many absorbed alerts a window accounts for, wherever it is. */
  function SizeAt(x: World, i: nat): nat
    requires i < |x.stages| && |x.keys| == |x.stages|
  {
    match x.stages[i]
    case Standing => if x.keys[i] in x.w.buckets then x.w.buckets[x.keys[i]].count else 0
    case Taken(b) => b.count
    case Told(s) => if s.Some? then s.value.count else 0
  }

  function Tally(x: World, n: nat): nat
    requires n <= |x.stages| && |x.keys| == |x.stages|
  {
    if n == 0 then 0 else Tally(x, n - 1) + SizeAt(x, n - 1)
  }

  function NamedBelow(joined: seq<Entry>, n: nat): nat {
    if n == 0 then 0 else NamedBelow(joined, n - 1) + |NamesIn(joined, n - 1)|
  }

  lemma {:induction false} NamedOnce(joined: seq<Entry>, e: Entry, n: nat)
    ensures NamedBelow(joined + [e], n) == NamedBelow(joined, n) + if e.window < n then 1 else 0
  {
    if n > 0 {
      NamedOnce(joined, e, n - 1);
      NamesAfterJoin(joined, e, n - 1);
    }
  }

  lemma {:induction false} NoNames(n: nat)
    ensures NamedBelow([], n) == 0
  {
    if n > 0 {
      NoNames(n - 1);
    }
  }

  lemma {:induction false} AllAreNamed(joined: seq<Entry>, n: nat)
    requires forall e | e in joined :: e.window < n
    ensures NamedBelow(joined, n) == |joined|
  {
    if joined == [] {
      NoNames(n);
    } else {
      var front, last := joined[..|joined| - 1], joined[|joined| - 1];
      assert joined == front + [last] && last in joined;
      AllAreNamed(front, n);
      NamedOnce(front, last, n);
    }
  }

  lemma {:induction false} TallyIsNamed(x: World, n: nat)
    requires |x.keys| == |x.stages| && n <= |x.stages|
    requires forall i: nat | i < |x.stages| :: WindowOk(x, i)
    ensures Tally(x, n) == NamedBelow(x.joined, n)
  {
    if n > 0 {
      TallyIsNamed(x, n - 1);
      assert WindowOk(x, n - 1);
    }
  }

  /** In every run, racing flushes and the final one included: the Offers that returned
      false equal the counts of the open windows, of those taken out but not yet told,
      and of the summaries told; and each window accounts for exactly its own members. */
  lemma AbsorbedAreConserved(cfg: Config, run: seq<Event>)
    requires IsRun(cfg, START, run)
    ensures var x := After(cfg, START, run);
      && |x.keys| == |x.stages| && Tally(x, |x.stages|) == |x.joined|
      && (forall e | e in x.joined :: e.window < |x.keys| && KeyOf(e.alert, cfg.fields) == x.keys[e.window])
      && (forall i: nat | i < |x.stages| && x.stages[i].Told? :: Accounts(x.stages[i].summary, NamesIn(x.joined, i)))
  {
    InvAlways(cfg, START, run);
    var x := After(cfg, START, run);
    TallyIsNamed(x, |x.stages|);
    AllAreNamed(x.joined, |x.stages|);
    forall i: nat | i < |x.stages| && x.stages[i].Told?
      ensures Accounts(x.stages[i].summary, NamesIn(x.joined, i))
    {
      assert WindowOk(x, i);
    }
  }

  lemma {:induction false} JoinersAreNamed(joined: seq<Entry>, e: Entry)
    requires e in joined
    ensures NameOf(e.alert) in NamesIn(joined, e.window)
  {
    var front, last := joined[..|joined| - 1], joined[|joined| - 1];
    assert joined == front + [last];
    if e != last {
      JoinersAreNamed(front, e);
    }
  }

  /** Once the final flush has begun and every window taken out has been told, every
      alert ever absorbed has been told by the summary of the one window it joined. */
  lemma NothingIsLostAtClose(cfg: Config, run: seq<Event>, e: Entry)
    requires IsRun(cfg, START, run)
    requires After(cfg, START, run).w.closing && e in After(cfg, START, run).joined
    requires forall stage | stage in After(cfg, START, run).stages :: !stage.Taken?
    ensures var x := After(cfg, START, run);
      && e.window < |x.stages| && x.stages[e.window].Told? && x.stages[e.window].summary.Some?
      && x.stages[e.window].summary.value.count == |NamesIn(x.joined, e.window)|
      && e.alert.namespace + "/" + e.alert.name in NamesIn(x.joined, e.window)
  {
    InvAlways(cfg, START, run);
    var x := After(cfg, START, run);
    JoinersAreNamed(x.joined, e);
    assert WindowOk(x, e.window) && x.stages[e.window] in x.stages;
  }

  /** After the final flush has begun nothing is absorbed, whatever Offers race it. */
  lemma {:induction false} ClosedAbsorbsNothing(cfg: Config, x: World, run: seq<Event>)
    requires IsRun(cfg, x, run) && x.w.closing
    ensures After(cfg, x, run).joined == x.joined && After(cfg, x, run).w.closing
    decreases |run|
  {
    if run != [] {
      ClosedAbsorbsNothing(cfg, Next(cfg, x, run[0]), run[1..]);
    }
  }

  // ---------------------------------------------------------------- one pass per window

  /** The bucket map holds no more than the history: a window stands exactly while its
      key's last opening is at most one window old, or the flusher has not come round. */
  ghost predicate Remembers(cfg: Config, x: World) {
    && (forall key | key in x.w.buckets ::
          key in x.passed && x.w.buckets[key].deadline == x.passed[key] + cfg.window)
    && (!x.w.closing ==> forall key | key in x.passed && key !in x.w.buckets :: x.clock > x.passed[key] + cfg.window)
  }

  lemma RemembersStep(cfg: Config, x: World, e: Event)
    requires Remembers(cfg, x) && Enabled(x, e) && |x.keys| == |x.stages|
    ensures Remembers(cfg, Next(cfg, x, e))
  {
  }

  lemma {:induction false} RemembersAlways(cfg: Config, x: World, run: seq<Event>)
    requires Remembers(cfg, x) && IsRun(cfg, x, run)
    ensures Remembers(cfg, After(cfg, x, run))
    decreases |run|
  {
    if run != [] {
      RemembersStep(cfg, x, run[0]);
      RemembersAlways(cfg, Next(cfg, x, run[0]), run[1..]);
    }
  }

  /** An Offer is absorbed exactly when the final flush has not begun and its key opened
      a window at most one window length ago, whenever the flusher ran in between. So two
      pass-throughs of one key before closing are more than a window apart. */
  lemma OnePassPerWindow(cfg: Config, run: seq<Event>, a: Alert, now: Time)
    requires IsRun(cfg, START, run) && After(cfg, START, run).clock <= now
    ensures var x, key := After(cfg, START, run), KeyOf(a, cfg.fields);
      Absorbs(x.w, key, now) <==> !x.w.closing && key in x.passed && now <= x.passed[key] + cfg.window
  {
    RemembersAlways(cfg, START, run);
  }
}
