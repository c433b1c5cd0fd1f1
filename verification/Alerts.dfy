/** An optional value, standing for Go's nil pointers and nil slices. */
module Wrappers {
  datatype Option<+T> = None | Some(value: T)
}

/** Walking over the elements of a set or the keys of a map in an unspecified order. */
module Collections {
  predicate Enumerates<T(==)>(order: seq<T>, all: set<T>) {
    && (forall i, j | 0 <= i < j < |order| :: order[i] != order[j])
    && (forall x | x in order :: x in all) && (forall x | x in all :: x in order)
  }

  function Members<T(==)>(order: seq<T>): set<T> {
    set x | x in order
  }

  lemma MembersNext<T>(order: seq<T>, i: nat)
    requires i < |order|
    ensures Members(order[..i + 1]) == Members(order[..i]) + {order[i]}
  {
    assert order[..i + 1] == order[..i] + [order[i]];
  }

  lemma MembersAll<T>(order: seq<T>, all: set<T>)
    requires Enumerates(order, all)
    ensures Members(order) == all && Members(order[..|order|]) == all
  {
    assert order[..|order|] == order;
  }

  /** The chosen elements in the order met. */
  function Selected<T(==)>(all: seq<T>, chosen: set<T>): seq<T> {
    if all == [] then []
    else
      var front, last := Selected(all[..|all| - 1], chosen), all[|all| - 1];
      if last in chosen then front + [last] else front
  }

  lemma {:induction false} SelectedMembers<T>(all: seq<T>, chosen: set<T>)
    ensures Members(Selected(all, chosen)) == Members(all) * chosen
  {
    if all != [] {
      var front, last := all[..|all| - 1], all[|all| - 1];
      SelectedMembers(front, chosen);
      MembersNext(all, |all| - 1);
      assert all[..|all|] == all;
      if last in chosen {
        MembersNext(Selected(all, chosen), |Selected(front, chosen)|);
        assert Selected(all, chosen)[..|Selected(front, chosen)|] == Selected(front, chosen);
        assert Selected(all, chosen)[..|Selected(front, chosen)| + 1] == Selected(all, chosen);
      }
    }
  }

  lemma {:induction false} SelectedDistinct<T>(all: seq<T>, chosen: set<T>)
    requires Enumerates(all, Members(all))
    ensures Enumerates(Selected(all, chosen), Members(Selected(all, chosen)))
  {
    if all != [] {
      var front, last := all[..|all| - 1], all[|all| - 1];
      SelectedDistinct(front, chosen);
      SelectedMembers(front, chosen);
      assert last !in Members(front);
      assert last !in Members(Selected(front, chosen));
    }
  }

  lemma SelectedEnumerates<T>(all: seq<T>, keys: set<T>, chosen: set<T>)
    requires Enumerates(all, keys) && chosen <= keys
    ensures Enumerates(Selected(all, chosen), chosen)
  {
    MembersAll(all, keys);
    SelectedMembers(all, chosen);
    SelectedDistinct(all, chosen);
    assert keys * chosen == chosen;
  }

  /** The map with the listed keys taken out one by one. */
  function Without<K(==), V>(m: map<K, V>, order: seq<K>): map<K, V> {
    if order == [] then m else Without(m, order[..|order| - 1]) - {order[|order| - 1]}
  }

  lemma {:induction false} WithoutIs<K, V>(m: map<K, V>, order: seq<K>)
    ensures Without(m, order) == m - Members(order)
  {
    if order != [] {
      var n := |order| - 1;
      WithoutIs(m, order[..n]);
      MembersNext(order, n);
      assert order[..n + 1] == order;
    }
  }

  lemma WithoutNext<K, V>(m: map<K, V>, order: seq<K>, key: K)
    ensures Without(m, order + [key]) == Without(m, order) - {key}
  {
    assert (order + [key])[..|order|] == order;
  }

  /** While the chosen keys before position i have been taken out, key i is untouched. */
  lemma StillThere<K, V>(m: map<K, V>, keys: seq<K>, i: nat, chosen: set<K>)
    requires Enumerates(keys, m.Keys) && i < |keys|
    ensures keys[i] in m
    ensures var left := Without(m, Selected(keys[..i], chosen)); keys[i] in left && left[keys[i]] == m[keys[i]]
  {
    assert keys[i] in keys && keys[i] !in keys[..i];
    SelectedMembers(keys[..i], chosen);
    WithoutIs(m, Selected(keys[..i], chosen));
  }

  lemma {:induction false} EnumeratesCounts<T>(order: seq<T>, all: set<T>)
    requires Enumerates(order, all)
    ensures |order| == |all|
  {
    if order != [] {
      var n := |order| - 1;
      assert order == order[..n] + [order[n]] && order[n] !in order[..n];
      EnumeratesCounts(order[..n], all - {order[n]});
    }
  }

  method Listing<T>(all: set<T>) returns (order: seq<T>)
    ensures Enumerates(order, all) && |order| == |all|
  {
    order := [];
    var rest := all;
    while rest != {}
      invariant rest <= all && |order| + |rest| == |all|
      invariant forall i, j | 0 <= i < j < |order| :: order[i] != order[j]
      invariant (forall x | x in order :: x in all && x !in rest) && (forall x | x in all :: x in order || x in rest)
      decreases |rest|
    {
      var x :| x in rest;
      order, rest := order + [x], rest - {x};
    }
  }
}

/** The alert record and the pure questions the pipeline asks about it
    (internal/alert/alert.go). */
module Alerts {
  import opened Wrappers

  /** Instants and durations are integers on one scale. */
  type Time = int

  /** Go's zero time.Time; every clock reading lies after it. */
  const ZERO_TIME: Time := 0

  /** The regular-expression engine: does the text match the anchored pattern? */
  type Regex = (string, string) -> bool

  datatype Correlation = Correlation(groupId: string, role: string, rootFP: string)

  datatype Alert = Alert(
    fingerprint: string, kind: string, namespace: string, name: string, nodeName: string,
    severity: string, reason: string, summary: string, cluster: string,
    details: map<string, string>, labels: map<string, string>, annotations: map<string, string>,
    startsAt: Time, endsAt: Time, resolved: bool, event: bool, correlation: Option<Correlation>)

  predicate ValidSeverity(s: string) {
    s == "critical" || s == "warning" || s == "info"
  }

  function CloneWithoutDetails(a: Alert): Alert {
    a.(details := map[])
  }

  /** What a snapshot keeps of an alert: neither enrichment nor derived correlation. */
  function Durable(a: Alert): Alert {
    a.(details := map[], correlation := None)
  }

  function FieldValue(a: Alert, key: string): string {
    if key == "severity" then a.severity
    else if key == "kind" then a.kind
    else if key == "namespace" then a.namespace
    else if key == "node" then a.nodeName
    else if key == "reason" then a.reason
    else if key == "name" then a.name
    else if key in a.labels then a.labels[key]
    else ""
  }

  predicate IsPatternKey(key: string) {
    key == "namespace" || key == "reason"
  }

  predicate MatchesKey(rx: Regex, a: Alert, key: string, want: string) {
    var got := FieldValue(a, key);
    got == want || (IsPatternKey(key) && rx(got, want))
  }

  predicate Matches(rx: Regex, a: Alert, want: map<string, string>) {
    forall k | k in want :: MatchesKey(rx, a, k, want[k])
  }

  method MatchLabels(rx: Regex, a: Alert, want: map<string, string>) returns (r: bool)
    ensures r == Matches(rx, a, want)
    ensures r <==> forall k | k in want ::
      FieldValue(a, k) == want[k] || (k in {"namespace", "reason"} && rx(FieldValue(a, k), want[k]))
  {
    var keys := want.Keys;
    while keys != {}
      invariant keys <= want.Keys
      invariant forall k | k in want && k !in keys :: MatchesKey(rx, a, k, want[k])
      decreases |keys|
    {
      var k :| k in keys;
      if !MatchesKey(rx, a, k, want[k]) {
        return false;
      }
      keys := keys - {k};
    }
    return true;
  }

  /** The identity of a group. The source encodes this map as a sorted, escaped
      query string, which is injective, so the map itself stands for the string. */
  type GroupId = map<string, string>

  function GroupKeyOf(a: Alert, keys: seq<string>): GroupId {
    map k | k in keys :: FieldValue(a, k)
  }

  method GroupKey(a: Alert, keys: seq<string>) returns (fields: GroupId)
    ensures fields == GroupKeyOf(a, keys)
  {
    fields := map[];
    for i := 0 to |keys|
      invariant fields == GroupKeyOf(a, keys[..i])
    {
      fields := fields[keys[i] := FieldValue(a, keys[i])];
      assert keys[..i + 1] == keys[..i] + [keys[i]];
    }
    assert keys[..|keys|] == keys;
  }

  /** Two alerts share a group exactly when they agree on every grouping field. */
  lemma GroupKeySeparatesFields(a: Alert, b: Alert, keys: seq<string>)
    ensures GroupKeyOf(a, keys) == GroupKeyOf(b, keys)
       <==> (forall k | k in keys :: FieldValue(a, k) == FieldValue(b, k))
  {
    if GroupKeyOf(a, keys) == GroupKeyOf(b, keys) {
      forall k | k in keys
        ensures FieldValue(a, k) == FieldValue(b, k)
      {
        assert GroupKeyOf(a, keys)[k] == GroupKeyOf(b, keys)[k];
      }
    }
  }

  /** Each of six keys reads one field, and any other its label. */
  lemma FieldsAreSeparate(a: Alert, key: string, v: string)
    ensures FieldValue(a.(severity := v), key) == if key == "severity" then v else FieldValue(a, key)
    ensures FieldValue(a.(kind := v), key) == if key == "kind" then v else FieldValue(a, key)
    ensures FieldValue(a.(namespace := v), key) == if key == "namespace" then v else FieldValue(a, key)
    ensures FieldValue(a.(nodeName := v), key) == if key == "node" then v else FieldValue(a, key)
    ensures FieldValue(a.(reason := v), key) == if key == "reason" then v else FieldValue(a, key)
    ensures FieldValue(a.(name := v), key) == if key == "name" then v else FieldValue(a, key)
  {
  }

  lemma LabelsAreRead(a: Alert, key: string, v: string, other: string)
    requires other !in {"severity", "kind", "namespace", "node", "reason", "name"}
    ensures FieldValue(a.(labels := a.labels[other := v]), key) == if key == other then v else FieldValue(a, key)
    ensures FieldValue(a.(labels := a.labels - {other}), other) == ""
  {
  }

  /** The fields matching can see agree. */
  predicate SameFields(a: Alert, b: Alert) {
    && a.severity == b.severity && a.kind == b.kind && a.namespace == b.namespace
    && a.nodeName == b.nodeName && a.reason == b.reason && a.name == b.name
    && a.labels == b.labels
  }

  lemma SameFieldsMatchAlike(rx: Regex, a: Alert, b: Alert, want: map<string, string>)
    requires SameFields(a, b)
    ensures Matches(rx, a, want) == Matches(rx, b, want)
  {
    assert forall k :: FieldValue(a, k) == FieldValue(b, k);
  }
}
