/** The detail attachment of a Slack message (slackDetailBody in
    internal/sinks/slack_blocks.go): whole sections only, within the size limit. */
module SlackBody {
  import opened Collections
  import opened Text
  import opened SlackCut

  const ATTACHMENT_LIMIT: nat := 7500
  const SECTION_LIMIT: nat := 2800

  const KNOWN := [
    "Pod Status", "Container State", "Resource Spec", "Pod Events", "Node Events", "Pod Logs Before Restart",
    "Deployment Status", "StatefulSet Status", "DaemonSet Status", "Job Status", "CronJob Status", "HPA Status",
    "Node Status", "Grouped Resources"]

  // ---------------------------------------------------------------- fences

  function LeadTicks(s: string): (n: nat)
    ensures n <= |s|
  {
    if s == "" || s[0] != '`' then 0 else 1 + LeadTicks(s[1..])
  }

  /** No three backticks in a row anywhere. */
  predicate NoFence(s: string) {
    s == "" || (LeadTicks(s) < 3 && NoFence(s[1..]))
  }

  /** strings.ReplaceAll of every ``` by ''', from left to right. */
  function Unfence(s: string): string {
    if s == "" then ""
    else if LeadTicks(s) >= 3 then "'''" + Unfence(s[3..])
    else [s[0]] + Unfence(s[1..])
  }

  function SlackFence(s: string): string {
    SlackEscape(Unfence(s))
  }

  lemma {:induction false} UnfenceStops(s: string)
    ensures LeadTicks(Unfence(s)) <= LeadTicks(s) && LeadTicks(Unfence(s)) < 3
    decreases |s|
  {
    if s == "" {
    } else if LeadTicks(s) >= 3 {
      assert Unfence(s)[0] == '\'';
    } else {
      UnfenceStops(s[1..]);
      assert Unfence(s)[1..] == Unfence(s[1..]);
    }
  }

  lemma {:induction false} PlainPrefix(a: string, b: string)
    requires (forall c | c in a :: c != '`') && NoFence(b)
    ensures NoFence(a + b) && (a != "" ==> LeadTicks(a + b) == 0)
  {
    if a == "" {
      assert a + b == b;
    } else {
      assert forall c | c in a[1..] :: c in a;
      PlainPrefix(a[1..], b);
      assert a[0] in a && (a + b)[1..] == a[1..] + b;
    }
  }

  lemma {:induction false} UnfenceRemovesFences(s: string)
    ensures NoFence(Unfence(s))
    decreases |s|
  {
    UnfenceStops(s);
    if s == "" {
    } else if LeadTicks(s) >= 3 {
      UnfenceRemovesFences(s[3..]);
      PlainPrefix("'''", Unfence(s[3..]));
    } else {
      UnfenceRemovesFences(s[1..]);
      assert Unfence(s)[1..] == Unfence(s[1..]);
    }
  }

  lemma {:induction false} EscapeAddsNoTicks(s: string)
    requires NoFence(s)
    ensures NoFence(SlackEscape(s)) && LeadTicks(SlackEscape(s)) == LeadTicks(s)
  {
    if s != "" {
      EscapeAddsNoTicks(s[1..]);
      if Entity(s[0]) != [s[0]] {
        PlainPrefix(Entity(s[0]), SlackEscape(s[1..]));
      } else {
        assert SlackEscape(s)[1..] == SlackEscape(s[1..]);
      }
    }
  }

  lemma {:induction false} SuffixHasNoFence(s: string, k: nat)
    requires NoFence(s) && k <= |s|
    ensures NoFence(s[k..])
  {
    if k > 0 {
      SuffixHasNoFence(s[1..], k - 1);
      assert s[1..][k - 1..] == s[k..];
    } else {
      assert s[0..] == s;
    }
  }

  lemma TailHasNoFence(s: string, limit: nat)
    requires NoFence(s)
    ensures NoFence(TailEscaped(s, limit))
  {
    SuffixHasNoFence(s, Past(s, |s| - |TailOf(s, limit)|));
  }

  /** A cut value never holds a whole fence. */
  lemma ValueHasNoFence(value: string, limit: nat)
    ensures NoFence(TailEscaped(SlackFence(value), limit))
  {
    UnfenceRemovesFences(value);
    EscapeAddsNoTicks(Unfence(value));
    TailHasNoFence(SlackFence(value), limit);
  }

  // ---------------------------------------------------------------- where the fence closes

  const FENCE := "```"

  /** Where the first three backticks in a row begin, or -1. */
  function FirstFence(s: string): int {
    if s == "" then -1
    else if LeadTicks(s) >= 3 then 0
    else var i := FirstFence(s[1..]); if i < 0 then -1 else i + 1
  }

  /** The backticks at the end of a text. */
  function TrailTicks(s: string): (n: nat)
    ensures n <= |s| && (n == 0 <==> s == "" || s[|s| - 1] != '`')
  {
    if s == "" || s[|s| - 1] != '`' then 0 else 1 + TrailTicks(s[..|s| - 1])
  }

  predicate AllTicks(s: string) {
    TrailTicks(s) == |s|
  }

  lemma {:induction false} TrailTicksCons(c: char, s: string)
    ensures TrailTicks([c] + s) == if AllTicks(s) && c == '`' then |s| + 1 else TrailTicks(s)
  {
    if s == "" {
      assert [c] + s == [c] && [c][..0] == "";
    } else {
      var n := |s| - 1;
      TrailTicksCons(c, s[..n]);
      assert ([c] + s)[..n + 1] == [c] + s[..n];
    }
  }

  lemma {:induction false} TrailTicksConcat(a: string, b: string)
    ensures TrailTicks(a + b) == if AllTicks(b) then |b| + TrailTicks(a) else TrailTicks(b)
  {
    if b == "" {
      assert a + b == a;
    } else {
      var n := |b| - 1;
      TrailTicksConcat(a, b[..n]);
      assert (a + b)[..|a| + n] == a + b[..n];
    }
  }

  lemma FenceIsTicks()
    ensures AllTicks(FENCE) && TrailTicks("'''") == 0
  {
    assert FENCE[..2] == "``" && "``"[..1] == "`" && "`"[..0] == "";
    assert TrailTicks("`") == 1 && TrailTicks("``") == 2;
  }

  lemma {:induction false} TicksInARow(s: string)
    requires AllTicks(s)
    ensures LeadTicks(s) == |s|
  {
    if s != "" {
      assert s == [s[0]] + s[1..];
      TrailTicksCons(s[0], s[1..]);
      TicksInARow(s[1..]);
    }
  }

  lemma {:induction false} LeadTicksStop(s: string, more: string)
    requires !AllTicks(s)
    ensures LeadTicks(s + more) == LeadTicks(s)
  {
    assert s == [s[0]] + s[1..];
    if s[0] == '`' {
      TrailTicksCons(s[0], s[1..]);
      LeadTicksStop(s[1..], more);
      assert (s + more)[1..] == s[1..] + more;
    }
  }

  /** Behind a text without a fence, the first fence begins at the text's own last ticks. */
  lemma {:induction false} FenceClosesAt(v: string)
    requires NoFence(v)
    ensures FirstFence(v + FENCE) == |v| - TrailTicks(v)
  {
    var s := v + FENCE;
    if AllTicks(v) {
      FenceIsTicks();
      TrailTicksConcat(v, FENCE);
      TicksInARow(s);
    } else {
      LeadTicksStop(v, FENCE);
      FenceClosesAt(v[1..]);
      assert s[1..] == v[1..] + FENCE && v == [v[0]] + v[1..];
      TrailTicksCons(v[0], v[1..]);
    }
  }

  lemma {:induction false} UnfencedTicks(s: string)
    requires AllTicks(Unfence(s))
    ensures AllTicks(s)
    decreases |s|
  {
    if s == "" {
    } else if LeadTicks(s) >= 3 {
      FenceIsTicks();
      TrailTicksConcat("'''", Unfence(s[3..]));
      assert false;
    } else {
      TrailTicksCons(s[0], Unfence(s[1..]));
      UnfencedTicks(s[1..]);
      assert s == [s[0]] + s[1..];
      TrailTicksCons(s[0], s[1..]);
    }
  }

  lemma FewTicks(s: string)
    requires AllTicks(s) && |s| < 3
    ensures Unfence(s) == s
  {
    if s != "" {
      assert s[1..] == "" || (|s| == 2 && s[1..] == [s[1]] && s[1..][1..] == "");
    }
  }

  lemma LeadFence(s: string)
    requires LeadTicks(s) >= 3
    ensures s == FENCE + s[3..]
  {
    assert LeadTicks(s[1..]) >= 2 && LeadTicks(s[1..][1..]) >= 1;
    assert s[0] == '`' && s[1..][0] == '`' && s[1..][1..][0] == '`';
  }

  lemma AfterFence(u: string, rest: string)
    requires TrailTicks(u) == TrailTicks(rest) % 3 && (AllTicks(u) ==> AllTicks(rest))
    ensures TrailTicks("'''" + u) == TrailTicks(FENCE + rest) % 3
  {
    FenceIsTicks();
    TrailTicksConcat("'''", u);
    TrailTicksConcat(FENCE, rest);
  }

  lemma AfterPlain(c: char, u: string, rest: string)
    requires TrailTicks(u) == TrailTicks(rest) % 3 && (AllTicks(u) ==> AllTicks(rest))
    requires !AllTicks([c] + rest)
    ensures TrailTicks([c] + u) == TrailTicks([c] + rest) % 3
  {
    TrailTicksCons(c, u);
    TrailTicksCons(c, rest);
  }

  /** Replacing fences leaves of the last run of ticks what does not fill a fence. */
  lemma {:induction false} UnfenceTrailTicks(s: string)
    ensures TrailTicks(Unfence(s)) == TrailTicks(s) % 3
    ensures AllTicks(Unfence(s)) ==> AllTicks(s)
    decreases |s|
  {
    if AllTicks(Unfence(s)) {
      UnfencedTicks(s);
    }
    if s == "" {
    } else if LeadTicks(s) >= 3 {
      UnfenceTrailTicks(s[3..]);
      LeadFence(s);
      AfterFence(Unfence(s[3..]), s[3..]);
    } else if AllTicks(s) {
      TicksInARow(s);
      FewTicks(s);
    } else {
      UnfenceTrailTicks(s[1..]);
      assert s == [s[0]] + s[1..];
      AfterPlain(s[0], Unfence(s[1..]), s[1..]);
    }
  }

  lemma {:induction false} EscapeTrailTicks(u: string)
    ensures TrailTicks(SlackEscape(u)) == TrailTicks(u)
    ensures AllTicks(SlackEscape(u)) <==> AllTicks(u)
  {
    if u != "" {
      EscapeTrailTicks(u[1..]);
      var e, rest := Entity(u[0]), SlackEscape(u[1..]);
      assert u == [u[0]] + u[1..];
      TrailTicksCons(u[0], u[1..]);
      TrailTicksConcat(e, rest);
      if e == [u[0]] {
        TrailTicksCons(u[0], rest);
      } else {
        assert TrailTicks(e) == 0;
      }
    }
  }

  lemma {:induction false} SuffixTrailTicks(s: string, k: nat)
    requires k <= |s| - TrailTicks(s)
    ensures TrailTicks(s[k..]) == TrailTicks(s)
  {
    if TrailTicks(s) > 0 {
      var n := |s| - 1;
      SuffixTrailTicks(s[..n], k);
      assert s[k..][..n - k] == s[..n][k..];
    }
  }

  lemma {:induction false} TrailTicksAt(s: string, k: nat)
    requires |s| - TrailTicks(s) <= k < |s|
    ensures s[k] == '`'
  {
    if k < |s| - 1 {
      TrailTicksAt(s[..|s| - 1], k);
    }
  }

  /** Neither the byte cut nor the step past a split entity reaches the last ticks. */
  lemma CutKeepsTicks(s: string, limit: nat)
    requires TrailTicks(s) <= limit
    ensures TrailTicks(TailEscaped(s, limit)) == TrailTicks(s)
  {
    var t, cut := TrailTicks(s), |s| - |TailOf(s, limit)|;
    assert cut <= |s| - t by { TailKeepsEnd(s, limit, t); }
    PastKeepsEnd(s, cut, t);
    SuffixTrailTicks(s, Past(s, cut));
  }

  lemma TailKeepsEnd(s: string, limit: nat, t: nat)
    requires t == TrailTicks(s) <= limit
    ensures |s| - |TailOf(s, limit)| <= |s| - t
  {
    if |s| > limit && t > 0 {
      var window := s[|s| - limit..];
      TrailTicksAt(s, |s| - t);
      assert window[limit - t] == '`';
      if limit - t < UTF_MAX {
        SkippedIsFirst(window, 0, limit - t);
      }
    }
  }

  lemma PastKeepsEnd(s: string, cut: nat, t: nat)
    requires t == TrailTicks(s) && cut <= |s| - t
    ensures Past(s, cut) <= |s| - t
  {
    var from := if cut < 4 then 0 else cut - 4;
    var i := LastIndex(s[from..cut], '&');
    if i >= 0 {
      SemicolonIsEarly(s, from + i, t);
    }
  }

  lemma SemicolonIsEarly(s: string, at: nat, t: nat)
    requires t == TrailTicks(s) && at <= |s|
    ensures FirstIndex(s[at..], ';') >= 0 ==> at + FirstIndex(s[at..], ';') < |s| - t
  {
    var f := FirstIndex(s[at..], ';');
    if f >= 0 {
      assert s[at + f] == ';';
      if at + f >= |s| - t {
        TrailTicksAt(s, at + f);
      }
    }
  }

  /** The fence behind a cut value closes early by the ticks that the value's last run
      leaves over: it closes exactly at the end of the value if and only if that run, which
      may be empty, is a whole number of fences. */
  lemma FenceClosesBehindValue(value: string, limit: nat)
    requires limit >= 2
    ensures var v := TailEscaped(SlackFence(value), limit);
      && FirstFence(v + FENCE) == |v| - TrailTicks(value) % 3
      && (FirstFence(v + FENCE) == |v| <==> TrailTicks(value) % 3 == 0)
  {
    ValueHasNoFence(value, limit);
    FenceClosesAt(TailEscaped(SlackFence(value), limit));
    UnfenceTrailTicks(value);
    EscapeTrailTicks(Unfence(value));
    CutKeepsTicks(SlackFence(value), limit);
  }

  lemma TailKeepsShort(s: string, limit: nat)
    requires |s| <= limit
    ensures TailEscaped(s, limit) == s
  {
    assert Past(s, 0) == 0;
  }

  lemma OneTick()
    ensures SlackFence("a`") == "a`" && TrailTicks("a`") == 1
  {
    assert "a`"[1..] == "`" && "`"[1..] == "" && "a`"[..1] == "a";
    assert Unfence("`") == "`" && Unfence("a`") == "a`";
    assert SlackEscape("`") == "`";
  }

  /** A value that ends in one tick has it outside its fence. */
  lemma LastTickClosesEarly()
    ensures var v := TailEscaped(SlackFence("a`"), SECTION_LIMIT);
      v == "a`" && FirstFence(v + FENCE) == 1
  {
    OneTick();
    TailKeepsShort("a`", SECTION_LIMIT);
    FenceClosesBehindValue("a`", SECTION_LIMIT);
  }

  // ---------------------------------------------------------------- the order of the keys

  /** Byte-wise lexicographic order. */
  predicate Less(a: string, b: string) {
    b != "" && (a == "" || a[0] < b[0] || (a[0] == b[0] && Less(a[1..], b[1..])))
  }

  lemma {:induction false} LessIsTotal(a: string, b: string)
    ensures a == b || Less(a, b) || Less(b, a)
  {
    if a != "" && b != "" && a[0] == b[0] {
      LessIsTotal(a[1..], b[1..]);
      assert a == [a[0]] + a[1..] && b == [b[0]] + b[1..];
    }
  }

  lemma {:induction false} LessIsTransitive(a: string, b: string, c: string)
    requires Less(a, b) && Less(b, c)
    ensures Less(a, c)
  {
    if a != "" && a[0] == b[0] == c[0] {
      LessIsTransitive(a[1..], b[1..], c[1..]);
    }
  }

  /** The first difference decides, and a proper prefix comes first. */
  lemma {:induction false} LessIsLexicographic(a: string, b: string, k: nat)
    requires k <= |a| && k <= |b| && a[..k] == b[..k]
    ensures k < |a| && k < |b| && a[k] != b[k] ==> (Less(a, b) <==> a[k] < b[k])
    ensures k == |a| ==> (Less(a, b) <==> k < |b|)
  {
    if k > 0 {
      assert a[0] == a[..k][0] == b[0];
      assert a[1..][..k - 1] == a[..k][1..] == b[..k][1..] == b[1..][..k - 1];
      LessIsLexicographic(a[1..], b[1..], k - 1);
    }
  }

  predicate Sorted(keys: seq<string>) {
    forall i, j | 0 <= i < j < |keys| :: Less(keys[i], keys[j])
  }

  function Insert(keys: seq<string>, k: string): seq<string> {
    if keys == [] then [k] else if Less(k, keys[0]) then [k] + keys else [keys[0]] + Insert(keys[1..], k)
  }

  lemma {:induction false} InsertMembers(keys: seq<string>, k: string)
    ensures forall x :: x in Insert(keys, k) <==> x in keys || x == k
  {
    if keys != [] && !Less(k, keys[0]) {
      InsertMembers(keys[1..], k);
      assert keys == [keys[0]] + keys[1..];
    }
  }

  lemma {:induction false} InsertSorts(keys: seq<string>, k: string)
    requires Sorted(keys) && k !in keys
    ensures Sorted(Insert(keys, k))
  {
    if keys != [] {
      if Less(k, keys[0]) {
        forall j | 0 < j < |keys|
          ensures Less(k, keys[j])
        {
          LessIsTransitive(k, keys[0], keys[j]);
        }
      } else {
        LessIsTotal(k, keys[0]);
        InsertSorts(keys[1..], k);
        InsertMembers(keys[1..], k);
        forall x | x in Insert(keys[1..], k)
          ensures Less(keys[0], x)
        {
        }
      }
    }
  }

  /** The details' keys: the curated ones in their own order, then the others sorted. */
  ghost predicate Ordered(keys: seq<string>, details: map<string, string>) {
    && Enumerates(keys, details.Keys)
    && var front := Selected(KNOWN, details.Keys);
    && front <= keys && Sorted(keys[|front|..]) && forall k | k in keys[|front|..] :: k !in KNOWN
  }

  method OrderedDetails(details: map<string, string>) returns (keys: seq<string>)
    ensures Ordered(keys, details)
  {
    var front: seq<string> := [];
    for i := 0 to |KNOWN|
      invariant front == Selected(KNOWN[..i], details.Keys)
    {
      assert KNOWN[..i + 1][..i] == KNOWN[..i];
      if KNOWN[i] in details {
        front := front + [KNOWN[i]];
      }
    }
    assert KNOWN[..|KNOWN|] == KNOWN;
    var all := Listing(details.Keys);
    var rest: seq<string> := [];
    for i := 0 to |all|
      invariant Sorted(rest) && forall k :: k in rest <==> k in all[..i] && k !in KNOWN
    {
      assert all[..i + 1] == all[..i] + [all[i]] && all[i] !in all[..i];
      if all[i] !in front {
        KnownInFront(details, all, i);
        InsertSorts(rest, all[i]);
        InsertMembers(rest, all[i]);
        rest := Insert(rest, all[i]);
      } else {
        KnownInFront(details, all, i);
      }
    }
    assert all[..|all|] == all;
    keys := front + rest;
    AllEnumerated(details, front, rest);
  }

  lemma KnownInFront(details: map<string, string>, all: seq<string>, i: nat)
    requires i < |all| && all[i] in details
    ensures all[i] in Selected(KNOWN, details.Keys) <==> all[i] in KNOWN
  {
    SelectedMembers(KNOWN, details.Keys);
    assert all[i] in Members(Selected(KNOWN, details.Keys)) <==> all[i] in Members(KNOWN) * details.Keys;
  }

  lemma KnownDistinct()
    ensures Enumerates(KNOWN, Members(KNOWN))
  {
  }

  lemma AllEnumerated(details: map<string, string>, front: seq<string>, rest: seq<string>)
    requires front == Selected(KNOWN, details.Keys) && Sorted(rest)
    requires forall k :: k in rest <==> k in details && k !in KNOWN
    ensures Ordered(front + rest, details)
  {
    KnownDistinct();
    SelectedMembers(KNOWN, details.Keys);
    SelectedDistinct(KNOWN, details.Keys);
    var keys := front + rest;
    assert keys[|front|..] == rest;
    forall k
      ensures k in front <==> k in KNOWN && k in details
    {
      assert k in Members(front) <==> k in Members(KNOWN) * details.Keys;
    }
    forall i, j | 0 <= i < j < |rest|
      ensures rest[i] != rest[j]
    {
      NotLessItself(rest[i]);
    }
    forall i, j | 0 <= i < j < |keys|
      ensures keys[i] != keys[j]
    {
      if i < |front| <= j {
        assert keys[i] in front && keys[j] in rest;
      }
    }
  }

  lemma {:induction false} NotLessItself(a: string)
    ensures !Less(a, a)
  {
    if a != "" {
      NotLessItself(a[1..]);
    }
  }

  // ---------------------------------------------------------------- the omission line

  const DIGITS := "0123456789"

  function Decimal(n: nat): (d: string)
    ensures |d| > 0
  {
    if n < 10 then [DIGITS[n]] else Decimal(n / 10) + [DIGITS[n % 10]]
  }

  function OmittedLine(n: nat): string {
    if n == 1 then "_1 section omitted to fit Slack's size limit_"
    else "_" + Decimal(n) + " sections omitted to fit Slack's size limit_"
  }

  lemma {:induction false} DecimalAscends(m: nat, n: nat)
    requires m <= n
    ensures |Decimal(m)| <= |Decimal(n)|
  {
    if m >= 10 {
      DecimalAscends(m / 10, n / 10);
    }
  }

  /** The line for all the keys is the longest one the body can need. */
  lemma OmittedLineAscends(m: nat, n: nat)
    requires m <= n && 0 < m
    ensures |OmittedLine(m)| <= |OmittedLine(n)|
  {
    DecimalAscends(m, n);
    var tail := " sections omitted to fit Slack's size limit_";
    assert |"_1 section omitted to fit Slack's size limit_"| <= 1 + |tail|;
  }

  // ---------------------------------------------------------------- the body

  /** The section of a key: its escaped name over its value in a fence; empty values get none. */
  function Section(details: map<string, string>, key: string): string {
    if key !in details || details[key] == "" then ""
    else "*" + SlackEscape(key) + ":*\n```" + TailEscaped(SlackFence(details[key]), SECTION_LIMIT) + "```"
  }

  function Sections(details: map<string, string>): string -> string {
    key => Section(details, key)
  }

  function Under(body: string, more: string): string {
    body + (if body == "" then "" else "\n") + more
  }

  /** The sections of the chosen keys, one below the other. */
  function Stacked(section: string -> string, chosen: seq<string>): string {
    if chosen == [] then ""
    else Under(Stacked(section, chosen[..|chosen| - 1]), section(chosen[|chosen| - 1]))
  }

  /** Which keys get a section, and how many non-empty ones do not fit. */
  datatype Pick = Pick(chosen: seq<string>, omitted: nat)

  /** Each key in turn is taken if its whole section still fits. */
  function Picked(section: string -> string, keys: seq<string>, budget: int): Pick {
    if keys == [] then Pick([], 0)
    else
      var p, key := Picked(section, keys[..|keys| - 1], budget), keys[|keys| - 1];
      if section(key) == "" then p
      else if |Stacked(section, p.chosen + [key])| > budget then p.(omitted := p.omitted + 1)
      else p.(chosen := p.chosen + [key])
  }

  function Budget(count: nat): int {
    ATTACHMENT_LIMIT - |"\n" + OmittedLine(count)|
  }

  function WithOmission(body: string, omitted: nat): string {
    if omitted == 0 then body else Under(body, OmittedLine(omitted))
  }

  lemma StackedNext(section: string -> string, chosen: seq<string>, key: string)
    ensures Stacked(section, chosen + [key]) == Under(Stacked(section, chosen), section(key))
  {
    assert (chosen + [key])[..|chosen|] == chosen;
  }

  /** What one more key does to the body and to the count. */
  lemma PickedNext(section: string -> string, keys: seq<string>, i: nat, budget: int)
    requires i < |keys|
    ensures var p, q, text := Picked(section, keys[..i], budget), Picked(section, keys[..i + 1], budget), section(keys[i]);
      var body := Stacked(section, p.chosen);
      if text == "" then q == p
      else if |Under(body, text)| > budget then q == p.(omitted := p.omitted + 1)
      else Stacked(section, q.chosen) == Under(body, text) && q.omitted == p.omitted
  {
    assert keys[..i + 1][..i] == keys[..i];
    StackedNext(section, Picked(section, keys[..i], budget).chosen, keys[i]);
  }

  method SlackDetailBody(details: map<string, string>) returns (body: string, keys: seq<string>)
    ensures Ordered(keys, details)
    ensures var p := Picked(Sections(details), keys, Budget(|keys|));
      body == WithOmission(Stacked(Sections(details), p.chosen), p.omitted)
  {
    keys := OrderedDetails(details);
    var omitted;
    body, omitted := Fill(Sections(details), keys, Budget(|keys|));
    if omitted > 0 {
      if |body| > 0 {
        body := body + "\n";
      }
      body := body + OmittedLine(omitted);
    }
  }

  /** The loop over the keys. */
  method Fill(section: string -> string, keys: seq<string>, budget: int) returns (body: string, omitted: nat)
    ensures var p := Picked(section, keys, budget); body == Stacked(section, p.chosen) && omitted == p.omitted
  {
    body, omitted := "", 0;
    for i := 0 to |keys|
      invariant var p := Picked(section, keys[..i], budget); body == Stacked(section, p.chosen) && omitted == p.omitted
    {
      PickedNext(section, keys, i, budget);
      var text := section(keys[i]);
      if text == "" {
        continue;
      }
      var sep := if |body| > 0 then "\n" else "";
      if |body| + |sep| + |text| > budget {
        omitted := omitted + 1;
        continue;
      }
      body := body + sep + text;
    }
    assert keys[..|keys|] == keys;
  }

  // ---------------------------------------------------------------- what it promises

  /** The keys that have something to show. */
  function NonEmpty(section: string -> string, keys: seq<string>): seq<string> {
    if keys == [] then []
    else
      var front, key := NonEmpty(section, keys[..|keys| - 1]), keys[|keys| - 1];
      if section(key) == "" then front else front + [key]
  }

  lemma {:induction false} PickedCounts(section: string -> string, keys: seq<string>, budget: int)
    ensures var p := Picked(section, keys, budget);
      && |p.chosen| + p.omitted == |NonEmpty(section, keys)| <= |keys|
      && (p.chosen == [] || |Stacked(section, p.chosen)| <= budget)
  {
    if keys != [] {
      PickedCounts(section, keys[..|keys| - 1], budget);
    }
  }

  /** The chosen keys are those with something to show, in order, less the omitted ones. */
  lemma {:induction false} ChosenInOrder(section: string -> string, keys: seq<string>, budget: int)
    requires Enumerates(keys, Members(keys))
    ensures var p := Picked(section, keys, budget);
      p.chosen == Selected(NonEmpty(section, keys), Members(p.chosen)) && Members(p.chosen) <= Members(keys)
  {
    if keys != [] {
      var n := |keys| - 1;
      MembersNext(keys, n);
      assert keys[..n + 1] == keys && keys[n] !in keys[..n];
      ChosenInOrder(section, keys[..n], budget);
      NonEmptyAreKeys(section, keys[..n]);
      var chosen := Picked(section, keys[..n], budget).chosen;
      assert keys[n] !in Members(NonEmpty(section, keys[..n])) && keys[n] !in Members(chosen);
      SelectedNext(NonEmpty(section, keys[..n]), chosen, keys[n]);
    }
  }

  /** A further key is selected or left out without touching the earlier ones. */
  lemma SelectedNext(shown: seq<string>, chosen: seq<string>, key: string)
    requires chosen == Selected(shown, Members(chosen)) && key !in shown && key !in chosen
    ensures Selected(shown + [key], Members(chosen)) == chosen
    ensures Selected(shown + [key], Members(chosen + [key])) == chosen + [key]
    ensures Members(chosen + [key]) == Members(chosen) + {key}
  {
    assert (shown + [key])[..|shown|] == shown;
    assert Members(chosen + [key]) == Members(chosen) + {key};
    SelectedWider(shown, Members(chosen), key);
  }

  lemma {:induction false} NonEmptyAreKeys(section: string -> string, keys: seq<string>)
    ensures Members(NonEmpty(section, keys)) <= Members(keys)
  {
    if keys != [] {
      var n := |keys| - 1;
      var front := NonEmpty(section, keys[..n]);
      NonEmptyAreKeys(section, keys[..n]);
      MembersNext(keys, n);
      assert keys[..n + 1] == keys;
      assert Members(front + [keys[n]]) == Members(front) + {keys[n]};
    }
  }

  lemma {:induction false} SelectedWider(all: seq<string>, chosen: set<string>, key: string)
    requires key !in all
    ensures Selected(all, chosen + {key}) == Selected(all, chosen)
  {
    if all != [] {
      SelectedWider(all[..|all| - 1], chosen, key);
    }
  }

  function Pow10(k: nat): nat {
    if k == 0 then 1 else 10 * Pow10(k - 1)
  }

  lemma {:induction false} DecimalIsShort(n: nat, k: nat)
    requires n < Pow10(k) && k > 0
    ensures |Decimal(n)| <= k
  {
    if n >= 10 {
      DecimalIsShort(n / 10, k - 1);
    }
  }

  /** No map of the program has as many entries: an int has 64 bits. */
  const MAX_INT: nat := 0x7FFF_FFFF_FFFF_FFFF

  lemma OmittedLineIsShort(n: nat)
    requires n <= MAX_INT
    ensures |OmittedLine(n)| < 100
  {
    assert Pow10(5) == 100_000 && Pow10(10) == 100_000 * Pow10(5) && Pow10(15) == 100_000 * Pow10(10);
    assert Pow10(19) == 10_000 * Pow10(15);
    DecimalIsShort(n, 19);
    assert |" sections omitted to fit Slack's size limit_"| < 50;
    assert |"_1 section omitted to fit Slack's size limit_"| < 50;
  }

  /** The body never exceeds the limit; it is a stack of whole sections, of keys with
      something to show and in their order; and its last line counts exactly the others. */
  lemma BodyKeepsWithinLimit(details: map<string, string>, keys: seq<string>)
    requires Ordered(keys, details) && |keys| <= MAX_INT
    ensures var section, p := Sections(details), Picked(Sections(details), keys, Budget(|keys|));
      && |WithOmission(Stacked(section, p.chosen), p.omitted)| <= ATTACHMENT_LIMIT
      && p.chosen == Selected(NonEmpty(section, keys), Members(p.chosen))
      && |p.chosen| + p.omitted == |NonEmpty(section, keys)|
  {
    var section, budget := Sections(details), Budget(|keys|);
    var p := Picked(section, keys, budget);
    PickedCounts(section, keys, budget);
    MembersAll(keys, details.Keys);
    ChosenInOrder(section, keys, budget);
    OmittedLineIsShort(|keys|);
    if p.omitted > 0 {
      OmittedLineAscends(p.omitted, |keys|);
    }
  }

  lemma {:induction false} ChosenAreKeys(section: string -> string, keys: seq<string>, budget: int, key: string)
    ensures key in Picked(section, keys, budget).chosen ==> key in keys
  {
    if keys != [] {
      ChosenAreKeys(section, keys[..|keys| - 1], budget, key);
      assert keys == keys[..|keys| - 1] + [keys[|keys| - 1]];
    }
  }

  /** One more key leaves the choice among the others alone, and is chosen if it fits. */
  lemma PickedLast(section: string -> string, front: seq<string>, last: string, budget: int, key: string)
    ensures var p, q := Picked(section, front, budget), Picked(section, front + [last], budget);
      && (key != last ==> (key in q.chosen <==> key in p.chosen))
      && (last !in p.chosen && section(last) != "" ==>
            (last in q.chosen <==> |Under(Stacked(section, p.chosen), section(last))| <= budget))
  {
    assert (front + [last])[..|front|] == front;
    StackedNext(section, Picked(section, front, budget).chosen, last);
  }

  /** Nothing is left out that would have fitted. */
  lemma {:induction false} OmittedDidNotFit(section: string -> string, keys: seq<string>, budget: int, i: nat)
    requires forall j, k | 0 <= j < k < |keys| :: keys[j] != keys[k]
    requires i < |keys| && section(keys[i]) != ""
    ensures keys[i] in Picked(section, keys, budget).chosen
       <==> |Under(Stacked(section, Picked(section, keys[..i], budget).chosen), section(keys[i]))| <= budget
  {
    var n := |keys| - 1;
    assert keys == keys[..n] + [keys[n]];
    PickedLast(section, keys[..n], keys[n], budget, keys[i]);
    if i < n {
      OmittedDidNotFit(section, keys[..n], budget, i);
      assert keys[..n][..i] == keys[..i];
    } else {
      ChosenAreKeys(section, keys[..n], budget, keys[n]);
    }
  }

  lemma {:induction false} AllPicked(section: string -> string, keys: seq<string>, budget: int)
    requires |Stacked(section, NonEmpty(section, keys))| <= budget
    ensures Picked(section, keys, budget) == Pick(NonEmpty(section, keys), 0)
  {
    if keys != [] {
      var front := NonEmpty(section, keys[..|keys| - 1]);
      StackedNext(section, front, keys[|keys| - 1]);
      AllPicked(section, keys[..|keys| - 1], budget);
    }
  }

  /** Details that fit all together, with room for the omission line, are all shown. */
  lemma SmallDetailsAreShown(details: map<string, string>, keys: seq<string>)
    requires Ordered(keys, details) && |keys| <= MAX_INT
    requires |Stacked(Sections(details), NonEmpty(Sections(details), keys))| + 100 < ATTACHMENT_LIMIT
    ensures var p := Picked(Sections(details), keys, Budget(|keys|));
      p.omitted == 0
      && WithOmission(Stacked(Sections(details), p.chosen), p.omitted) == Stacked(Sections(details), NonEmpty(Sections(details), keys))
  {
    OmittedLineIsShort(|keys|);
    AllPicked(Sections(details), keys, Budget(|keys|));
  }

  lemma {:induction false} NonEmptyIs(section: string -> string, keys: seq<string>, key: string)
    ensures key in NonEmpty(section, keys) <==> key in keys && section(key) != ""
  {
    if keys != [] {
      var n := |keys| - 1;
      NonEmptyIs(section, keys[..n], key);
      assert keys == keys[..n] + [keys[n]];
    }
  }

  /** Every detail with a value is shown or counted as omitted. */
  lemma EveryValueCounts(details: map<string, string>, keys: seq<string>, key: string)
    requires Ordered(keys, details)
    ensures key in NonEmpty(Sections(details), keys) <==> key in details && details[key] != ""
  {
    NonEmptyIs(Sections(details), keys, key);
  }
}
