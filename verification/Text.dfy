/** The rune-safe cuts of internal/textutil/textutil.go. A Go string is a string whose
    characters are its bytes. */
module Text {
  const CONT_FIRST := '\U{80}'
  const CONT_LAST := '\U{BF}'
  const UTF_MAX: nat := 4

  /** A UTF-8 continuation byte; every other byte starts a rune. */
  predicate Cont(c: char) {
    CONT_FIRST <= c <= CONT_LAST
  }

  predicate Ascii(c: char) {
    c < CONT_FIRST
  }

  /** The width of the well-formed sequence the text begins with, by the syntax of
      section 4 of RFC 3629, or 0. */
  function RuneWidth(s: string): (w: nat)
    ensures w <= |s|
  {
    if s == "" then 0
    else if Ascii(s[0]) then 1
    else if |s| >= 2 && '\U{C2}' <= s[0] <= '\U{DF}' && Cont(s[1]) then 2
    else if |s| >= 3 && LeadsThree(s[0], s[1]) && Cont(s[2]) then 3
    else if |s| >= 4 && LeadsFour(s[0], s[1]) && Cont(s[2]) && Cont(s[3]) then 4
    else 0
  }

  /** No overlong form and no surrogate. */
  predicate LeadsThree(c: char, d: char) {
    || (c == '\U{E0}' && '\U{A0}' <= d <= CONT_LAST)
    || (('\U{E1}' <= c <= '\U{EC}' || '\U{EE}' <= c <= '\U{EF}') && Cont(d))
    || (c == '\U{ED}' && CONT_FIRST <= d <= '\U{9F}')
  }

  predicate LeadsFour(c: char, d: char) {
    || (c == '\U{F0}' && '\U{90}' <= d <= CONT_LAST)
    || ('\U{F1}' <= c <= '\U{F3}' && Cont(d))
    || (c == '\U{F4}' && CONT_FIRST <= d <= '\U{8F}')
  }

  predicate ValidUtf8(s: string) {
    s == "" || (RuneWidth(s) > 0 && ValidUtf8(s[RuneWidth(s)..]))
  }

  /** A place where the text may be cut: at an end, or in front of a rune. */
  predicate Boundary(s: string, i: int) {
    0 <= i <= |s| && (i == 0 || i == |s| || !Cont(s[i]))
  }

  // ---------------------------------------------------------------- the two cuts

  /** The last boundary at or before i. */
  function LastBoundary(s: string, i: nat): (n: nat)
    requires i < |s|
    ensures n <= i && Boundary(s, n)
    ensures forall k | n < k <= i :: !Boundary(s, k)
  {
    if i == 0 || !Cont(s[i]) then i else LastBoundary(s, i - 1)
  }

  function HeadOf(s: string, limit: int): string {
    if |s| <= limit then s else if limit <= 0 then "" else s[..LastBoundary(s, limit)]
  }

  method Head(s: string, limit: int) returns (r: string)
    ensures r == HeadOf(s, limit)
  {
    if |s| <= limit {
      return s;
    }
    var i := limit;
    while i > 0
      invariant i <= limit && (limit > 0 ==> 0 <= i && LastBoundary(s, i) == LastBoundary(s, limit))
    {
      if !Cont(s[i]) {
        return s[..i];
      }
      i := i - 1;
    }
    return "";
  }

  /** How many of the first bytes Tail drops: those before the first rune start, if
      there is one among the first four. */
  function Skipped(cut: string, i: nat): (n: nat)
    requires i <= |cut|
    ensures n <= |cut|
    ensures n == 0 || (i <= n < |cut| && n < UTF_MAX && !Cont(cut[n]))
    decreases |cut| - i
  {
    if i >= |cut| || i >= UTF_MAX then 0 else if !Cont(cut[i]) then i else Skipped(cut, i + 1)
  }

  lemma {:induction false} SkippedIsFirst(cut: string, i: nat, k: nat)
    requires i <= k < |cut| && k < UTF_MAX && !Cont(cut[k])
    ensures var n := Skipped(cut, i); i <= n <= k && !Cont(cut[n]) && forall j | i <= j < n :: Cont(cut[j])
    decreases |cut| - i
  {
    if Cont(cut[i]) {
      SkippedIsFirst(cut, i + 1, k);
    }
  }

  function TailOf(s: string, limit: nat): string {
    if |s| <= limit then s else s[|s| - limit + Skipped(s[|s| - limit..], 0)..]
  }

  /** The source slices out of range, and panics, for a negative limit. */
  method Tail(s: string, limit: nat) returns (r: string)
    ensures r == TailOf(s, limit)
  {
    if |s| <= limit {
      return s;
    }
    var cut := s[|s| - limit..];
    var i := 0;
    while i < |cut| && i < UTF_MAX
      invariant 0 <= i <= |cut| && Skipped(cut, i) == Skipped(cut, 0)
    {
      if !Cont(cut[i]) {
        return cut[i..];
      }
      i := i + 1;
    }
    return cut;
  }

  // ---------------------------------------------------------------- what they keep

  /** Head is the longest prefix that ends at a boundary and fits, for any bytes. */
  lemma HeadIsLongest(s: string, limit: int, k: nat)
    requires Boundary(s, k) && k <= limit
    ensures HeadOf(s, limit) <= s && Boundary(s, |HeadOf(s, limit)|) && k <= |HeadOf(s, limit)| <= limit
  {
  }

  /** Valid text never has a continuation byte at its start, behind an ASCII byte, or
      four in a row. */
  lemma {:induction false} ContinuationsAreBehindLeads(s: string, i: nat)
    requires ValidUtf8(s) && i < |s| && Cont(s[i])
    ensures i > 0 && !Ascii(s[i - 1])
    ensures i >= 3 ==> !(Cont(s[i - 1]) && Cont(s[i - 2]) && Cont(s[i - 3]))
    decreases |s|
  {
    var w := RuneWidth(s);
    if i >= w {
      ContinuationsAreBehindLeads(s[w..], i - w);
      assert i - w > 0;
      if i - w < 3 && i >= 3 {
        assert !Cont(s[w]) || i == w by { if Cont(s[w]) { ContinuationsAreBehindLeads(s[w..], 0); } }
      }
    }
  }

  /** Cutting valid text at a boundary leaves two valid pieces... */
  lemma {:induction false} PrefixIsValid(s: string, i: nat)
    requires ValidUtf8(s) && Boundary(s, i)
    ensures ValidUtf8(s[..i])
    decreases |s|
  {
    var w := RuneWidth(s);
    if i > 0 {
      assert i >= w;
      assert w < |s| ==> RuneWidth(s[w..]) > 0 && !Cont(s[w]);
      PrefixIsValid(s[w..], i - w);
      assert s[..i][w..] == s[w..][..i - w] && RuneWidth(s[..i]) == w;
    }
  }

  /** ...and the second one is valid at no other place. */
  lemma {:induction false} SuffixIsValid(s: string, i: nat)
    requires ValidUtf8(s) && i <= |s|
    ensures Boundary(s, i) <==> ValidUtf8(s[i..])
    decreases |s|
  {
    var w := RuneWidth(s);
    if i == 0 {
      assert s[i..] == s;
    } else if i < w {
      assert Cont(s[i]) && RuneWidth(s[i..]) == 0;
    } else {
      SuffixIsValid(s[w..], i - w);
      assert s[w..][i - w..] == s[i..];
      assert w < |s| ==> RuneWidth(s[w..]) > 0 && !Cont(s[w]);
    }
  }

  /** Head keeps valid text valid, whatever the limit. */
  lemma HeadKeepsValid(s: string, limit: int)
    requires ValidUtf8(s)
    ensures ValidUtf8(HeadOf(s, limit))
  {
    if 0 < limit < |s| {
      PrefixIsValid(s, LastBoundary(s, limit));
    }
  }

  /** A continuation byte has a lead before it, and is at most the third in a row. */
  predicate SpacedAt(s: string, i: nat)
    requires i < |s|
  {
    Cont(s[i]) ==>
      && i > 0 && !Ascii(s[i - 1])
      && (i >= 3 ==> !(Cont(s[i - 1]) && Cont(s[i - 2]) && Cont(s[i - 3])))
  }

  predicate Spaced(s: string) {
    forall i: nat | i < |s| :: SpacedAt(s, i)
  }

  lemma ValidIsSpaced(s: string)
    requires ValidUtf8(s)
    ensures Spaced(s)
  {
    forall i: nat | i < |s|
      ensures SpacedAt(s, i)
    {
      if Cont(s[i]) {
        ContinuationsAreBehindLeads(s, i);
      }
    }
  }

  /** Some rune starts at or after this byte. */
  ghost predicate StartsFrom(s: string, from: nat) {
    exists i | from <= i < |s| :: !Cont(s[i])
  }

  /** A rune starts at most three bytes on, unless the text ends. */
  lemma StartNearby(s: string, from: nat)
    requires Spaced(s) && from + UTF_MAX <= |s|
    ensures exists i | from <= i < from + UTF_MAX :: !Cont(s[i])
  {
    assert SpacedAt(s, from + 3);
    assert !Cont(s[from + 3]) || !Cont(s[from + 2]) || !Cont(s[from + 1]) || !Cont(s[from]);
  }

  /** If any rune starts after `from`, Tail skips to the first one. */
  lemma FirstStart(s: string, from: nat)
    requires Spaced(s) && from < |s| && StartsFrom(s, from)
    ensures var n := Skipped(s[from..], 0);
      from + n < |s| && !Cont(s[from + n]) && forall i | from <= i < from + n :: Cont(s[i])
  {
    if from + UTF_MAX <= |s| {
      StartNearby(s, from);
    }
    var i :| from <= i < |s| && i < from + UTF_MAX && !Cont(s[i]);
    var cut := s[from..];
    assert forall k | 0 <= k < |cut| :: cut[k] == s[from + k];
    SkippedIsFirst(cut, 0, i - from);
    assert forall k | from <= k < from + Skipped(cut, 0) :: s[k] == cut[k - from];
  }

  lemma TailLandsOnStart(s: string, limit: nat)
    requires Spaced(s)
    ensures TailOf(s, limit) == s[|s| - |TailOf(s, limit)|..]
    ensures Boundary(s, |s| - |TailOf(s, limit)|) <==> |s| <= limit || limit == 0 || StartsFrom(s, |s| - limit)
  {
    if 0 < limit < |s| {
      var from := |s| - limit;
      var cut := s[from..];
      var n := Skipped(cut, 0);
      assert cut[n] == s[from + n] && |TailOf(s, limit)| == limit - n;
      if StartsFrom(s, from) {
        FirstStart(s, from);
      }
    }
  }

  lemma TailTransfers(s: string, limit: nat, valid: string -> bool)
    requires Spaced(s) && forall i: nat | i <= |s| :: Boundary(s, i) <==> valid(s[i..])
    ensures valid(TailOf(s, limit)) <==> |s| <= limit || limit == 0 || StartsFrom(s, |s| - limit)
  {
    TailLandsOnStart(s, limit);
    var i: nat := |s| - |TailOf(s, limit)|;
    assert Boundary(s, i) <==> valid(s[i..]);
  }

  /** Tail keeps valid text valid exactly when it cuts nothing, keeps nothing, or some
      rune starts within the limit... */
  lemma TailKeepsValid(s: string, limit: nat)
    requires ValidUtf8(s)
    ensures ValidUtf8(TailOf(s, limit)) <==> |s| <= limit || limit == 0 || StartsFrom(s, |s| - limit)
  {
    var valid := (x: string) => ValidUtf8(x);
    forall i: nat | i <= |s|
      ensures Boundary(s, i) <==> valid(s[i..])
    {
      SuffixIsValid(s, i);
    }
    ValidIsSpaced(s);
    TailTransfers(s, limit, valid);
  }

  /** Where Tail ends up at the start of a rune, it keeps the longest such suffix that fits. */
  lemma TailIsLongest(s: string, limit: nat, k: nat)
    requires ValidUtf8(s) && Boundary(s, k) && |s| - k <= limit
    ensures |TailOf(s, limit)| <= limit && TailOf(s, limit) == s[|s| - |TailOf(s, limit)|..]
    ensures |s| - k <= |TailOf(s, limit)|
  {
    ValidIsSpaced(s);
    TailLandsOnStart(s, limit);
    if 0 < limit < |s| && k < |s| {
      assert !Cont(s[k]) && StartsFrom(s, |s| - limit);
      FirstStart(s, |s| - limit);
    }
  }

  /** ...so always from a limit of four on, but not below. */
  lemma TailKeepsValidFromFour(s: string, limit: nat)
    requires ValidUtf8(s) && limit >= UTF_MAX
    ensures ValidUtf8(TailOf(s, limit))
  {
    TailKeepsValid(s, limit);
    if limit < |s| {
      ValidIsSpaced(s);
      StartNearby(s, |s| - limit);
    }
  }

  /** From a limit of four on, Tail cuts in front of the first rune start within it. */
  lemma TailStarts(s: string, limit: nat)
    requires Spaced(s) && UTF_MAX <= limit < |s|
    ensures var from, cut := |s| - limit, |s| - |TailOf(s, limit)|;
      from <= cut < |s| && !Cont(s[cut]) && forall i | from <= i < cut :: Cont(s[i])
  {
    StartNearby(s, |s| - limit);
    FirstStart(s, |s| - limit);
  }

  /** The smallest text whose tail comes out broken: one four-byte rune cut to two bytes. */
  lemma TailCanSplit()
    ensures var s := "\U{F0}\U{9F}\U{98}\U{80}"; ValidUtf8(s) && !ValidUtf8(TailOf(s, 2))
  {
    var s := "\U{F0}\U{9F}\U{98}\U{80}";
    assert s[4..] == "" && RuneWidth(s) == 4;
    TailKeepsValid(s, 2);
  }
}
