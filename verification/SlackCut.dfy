/** Cutting escaped text for Slack (internal/sinks/slack_blocks.go). */
module SlackCut {
  import opened Text

  function Entity(c: char): string {
    if c == '&' then "&amp;" else if c == '<' then "&lt;" else if c == '>' then "&gt;" else [c]
  }

  /** Every character replaced by its entity, as a replacer of single bytes does it. */
  function EscapeBy(entity: char -> string, x: string): string {
    if x == "" then "" else entity(x[0]) + EscapeBy(entity, x[1..])
  }

  function SlackEscape(x: string): string {
    EscapeBy(Entity, x)
  }

  /** What the cuts rely on: an ampersand, no other delimiter, a semicolon. */
  predicate IsEntity(e: string) {
    && 2 <= |e| <= 5 && e[0] == '&' && e[|e| - 1] == ';'
    && (forall k | 0 < k < |e| - 1 :: e[k] != '&' && e[k] != ';') && (forall k | 0 <= k < |e| :: Ascii(e[k]))
  }

  /** A plain character stands for itself; an ASCII one may have an entity. */
  predicate Encodes(e: string, c: char) {
    (e == [c] && c != '&') || (IsEntity(e) && Ascii(c))
  }

  ghost predicate Encoder(entity: char -> string) {
    forall c :: Encodes(entity(c), c)
  }

  lemma SlackEncodes()
    ensures Encoder(Entity)
  {
    forall c: char
      ensures Encodes(Entity(c), c)
    {
    }
  }

  function LastIndex(s: string, c: char): (i: int)
    ensures -1 <= i < |s| && (i >= 0 ==> s[i] == c) && forall k | i < k < |s| :: s[k] != c
  {
    if s == "" then -1 else if s[|s| - 1] == c then |s| - 1 else LastIndex(s[..|s| - 1], c)
  }

  function FirstIndex(s: string, c: char): (i: int)
    ensures -1 <= i < |s| && (i >= 0 ==> s[i] == c)
    ensures forall k | 0 <= k < (if i < 0 then |s| else i) :: s[k] != c
  {
    if s == "" then -1
    else if s[0] == c then 0
    else var i := FirstIndex(s[1..], c); if i < 0 then -1 else i + 1
  }

  function HeadEscaped(s: string, limit: int): string {
    var out := HeadOf(s, limit);
    var i := LastIndex(out, '&');
    if i >= 0 && ';' !in out[i..] then out[..i] else out
  }

  /** Where the text may really be cut: behind the entity that straddles the cut, if one does. */
  function Past(s: string, cut: nat): nat
    requires cut <= |s|
  {
    var from := if cut < 4 then 0 else cut - 4;
    var i := LastIndex(s[from..cut], '&');
    if i < 0 then cut
    else
      var end := from + i + FirstIndex(s[from + i..], ';');
      if end >= cut then end + 1 else cut
  }

  function TailEscaped(s: string, limit: nat): string {
    s[Past(s, |s| - |TailOf(s, limit)|)..]
  }

  // ---------------------------------------------------------------- where characters land

  /** Where character j of the text begins in its escaped form. */
  function At(f: char -> string, x: string, j: nat): nat
    requires j <= |x|
  {
    |EscapeBy(f, x[..j])|
  }

  /** The length of what character j and its successors become. */
  function Rest(f: char -> string, x: string, j: nat): nat
    requires j <= |x|
  {
    |EscapeBy(f, x[j..])|
  }

  lemma {:induction false} EscapeConcat(f: char -> string, a: string, b: string)
    ensures EscapeBy(f, a + b) == EscapeBy(f, a) + EscapeBy(f, b)
  {
    if a == "" {
      assert a + b == b;
    } else {
      EscapeConcat(f, a[1..], b);
      assert (a + b)[1..] == a[1..] + b;
      assert f(a[0]) + (EscapeBy(f, a[1..]) + EscapeBy(f, b)) == (f(a[0]) + EscapeBy(f, a[1..])) + EscapeBy(f, b);
    }
  }

  /** The escaped text is what precedes character j, its entity, and the rest. */
  lemma EscapeAt(f: char -> string, x: string, j: nat)
    requires j <= |x|
    ensures EscapeBy(f, x) == EscapeBy(f, x[..j]) + EscapeBy(f, x[j..])
    ensures j < |x| ==> EscapeBy(f, x[j..]) == f(x[j]) + EscapeBy(f, x[j + 1..])
    ensures j < |x| ==> At(f, x, j + 1) == At(f, x, j) + |f(x[j])|
  {
    EscapeConcat(f, x[..j], x[j..]);
    assert x[..j] + x[j..] == x;
    if j < |x| {
      assert x[j..][1..] == x[j + 1..];
      assert x[..j + 1] == x[..j] + [x[j]];
      EscapeConcat(f, x[..j], [x[j]]);
      assert [x[j]][1..] == "";
    }
  }

  lemma {:induction false} AtAscends(f: char -> string, x: string, i: nat, j: nat)
    requires Encoder(f)
    requires i <= j <= |x|
    ensures At(f, x, i) + (j - i) <= At(f, x, j)
    decreases j - i
  {
    if i < j {
      AtAscends(f, x, i, j - 1);
      EscapeAt(f, x, j - 1);
    }
  }

  /** The character whose entity covers position p. */
  lemma {:induction false} Covering(f: char -> string, x: string, p: nat, n: nat) returns (j: nat)
    requires Encoder(f)
    requires n <= |x| && p < At(f, x, n)
    ensures j < n && At(f, x, j) <= p < At(f, x, j) + |f(x[j])| && At(f, x, j + 1) == At(f, x, j) + |f(x[j])|
  {
    EscapeAt(f, x, n - 1);
    if p >= At(f, x, n - 1) {
      j := n - 1;
    } else {
      j := Covering(f, x, p, n - 1);
    }
  }

  predicate Closed(s: string) {
    var i := LastIndex(s, '&');
    i >= 0 ==> ';' in s[i..]
  }

  lemma ClosedNext(front: string, e: string, c: char)
    requires Closed(front) && Encodes(e, c)
    ensures Closed(front + e)
  {
    var s := front + e;
    var n, i := |s| - 1, LastIndex(s, '&');
    if i >= 0 {
      if IsEntity(e) {
        assert s[n] == ';' && s[i..][n - i] == ';';
      } else {
        assert s[..n] == front;
        var k :| 0 <= k < |front[i..]| && front[i..][k] == ';';
        assert s[i..][k] == ';';
      }
    }
  }

  /** Every entity that begins in escaped text also ends in it. */
  lemma {:induction false} EntitiesClose(f: char -> string, x: string)
    requires Encoder(f)
    ensures Closed(EscapeBy(f, x))
  {
    if x != "" {
      var n := |x| - 1;
      EntitiesClose(f, x[..n]);
      EscapeAt(f, x, n);
      assert x[n + 1..] == "" && f(x[n]) + "" == f(x[n]);
      ClosedNext(EscapeBy(f, x[..n]), f(x[n]), x[n]);
    }
  }

  // ---------------------------------------------------------------- the head

  /** The longest prefix of the text that ends at a rune and whose escaped form fits. */
  ghost predicate LongestPrefix(f: char -> string, x: string, limit: int, j: nat) {
    && Boundary(x, j) && (j == 0 || At(f, x, j) <= limit)
    && forall k: nat | Boundary(x, k) && At(f, x, k) <= limit :: k <= j
  }

  /** A boundary of the text is one of its escaped form. */
  lemma BoundaryLands(f: char -> string, x: string, k: nat)
    requires Encoder(f)
    requires Boundary(x, k)
    ensures Boundary(EscapeBy(f, x), At(f, x, k))
  {
    EscapeAt(f, x, k);
    if k == |x| {
      assert x[..k] == x;
    }
  }

  lemma CutAt(f: char -> string, x: string, i: nat, j: nat)
    requires j < |x| && At(f, x, j) <= i < At(f, x, j) + |f(x[j])|
    ensures i <= |EscapeBy(f, x)|
    ensures EscapeBy(f, x)[..i] == EscapeBy(f, x[..j]) + f(x[j])[..i - At(f, x, j)]
    ensures i < |EscapeBy(f, x)| && EscapeBy(f, x)[i] == f(x[j])[i - At(f, x, j)]
  {
    EscapeAt(f, x, j);
  }

  /** Dropping a split entity from the cut leaves the escaped prefix. */
  lemma SplitEntityGoes(front: string, e: string, off: nat)
    requires IsEntity(e) && 0 < off < |e|
    ensures var out := front + e[..off];
      LastIndex(out, '&') == |front| && ';' !in out[|front|..] && out[..|front|] == front
  {
    var out := front + e[..off];
    assert out[|front|..] == e[..off];
    LastIndexIs(out, '&', |front|);
  }

  lemma ClosedHeadStays(s: string, limit: int)
    requires 0 < limit < |s| && Closed(s[..LastBoundary(s, limit)])
    ensures HeadEscaped(s, limit) == s[..LastBoundary(s, limit)]
  {
  }

  lemma SplitHeadGoes(s: string, limit: int, front: string, e: string, off: nat)
    requires 0 < limit < |s| && IsEntity(e) && 0 < off < |e|
    requires s[..LastBoundary(s, limit)] == front + e[..off]
    ensures HeadEscaped(s, limit) == front
  {
    SplitEntityGoes(front, e, off);
  }

  lemma HeadLands(f: char -> string, x: string, limit: int) returns (j: nat)
    requires Encoder(f)
    requires 0 < limit < |EscapeBy(f, x)|
    ensures j <= |x| && HeadEscaped(EscapeBy(f, x), limit) == EscapeBy(f, x[..j])
    ensures Boundary(x, j) && At(f, x, j) <= LastBoundary(EscapeBy(f, x), limit)
    ensures j < |x| && LastBoundary(EscapeBy(f, x), limit) < At(f, x, j + 1)
  {
    var i := LastBoundary(EscapeBy(f, x), limit);
    assert x[..|x|] == x;
    j := Covering(f, x, i, |x|);
    CutAt(f, x, i, j);
    if i == At(f, x, j) {
      assert EscapeBy(f, x)[..i] == EscapeBy(f, x[..j]);
      EntitiesClose(f, x[..j]);
      ClosedHeadStays(EscapeBy(f, x), limit);
      AtAscends(f, x, 0, j);
    } else {
      SplitHeadGoes(EscapeBy(f, x), limit, EscapeBy(f, x[..j]), f(x[j]), i - At(f, x, j));
    }
  }

  lemma HeadCommutesBy(f: char -> string, x: string, limit: int)
    requires Encoder(f)
    ensures exists j: nat :: LongestPrefix(f, x, limit, j) && HeadEscaped(EscapeBy(f, x), limit) == EscapeBy(f, x[..j])
    ensures limit >= 0 ==> |HeadEscaped(EscapeBy(f, x), limit)| <= limit
  {
    var s := EscapeBy(f, x);
    assert x[..|x|] == x && At(f, x, 0) == 0;
    var j: nat;
    if |s| <= limit {
      EntitiesClose(f, x);
      j := |x|;
    } else if limit <= 0 {
      j := 0;
      forall k: nat | Boundary(x, k) && At(f, x, k) <= limit
        ensures k <= j
      {
        AtAscends(f, x, 0, k);
      }
    } else {
      j := HeadLands(f, x, limit);
      forall k: nat | Boundary(x, k) && At(f, x, k) <= limit
        ensures k <= j
      {
        BoundaryLands(f, x, k);
        if k > j { AtAscends(f, x, j + 1, k); }
      }
    }
    assert LongestPrefix(f, x, limit, j) && HeadEscaped(s, limit) == EscapeBy(f, x[..j]);
  }

  /** Cutting the head commutes with escaping, for any bytes and any limit: the cut of
      the escaped text is the escaped form of the longest rune-aligned prefix that fits. */
  lemma HeadCutCommutes(x: string, limit: int)
    ensures exists j: nat :: LongestPrefix(Entity, x, limit, j) && HeadEscaped(SlackEscape(x), limit) == SlackEscape(x[..j])
    ensures limit >= 0 ==> |HeadEscaped(SlackEscape(x), limit)| <= limit
  {
    SlackEncodes();
    HeadCommutesBy(Entity, x, limit);
  }

  // ---------------------------------------------------------------- what Slack shows

  /** Slack shows the three entities as their characters, and all else as it is. */
  function Shown(s: string): string {
    if s == "" then ""
    else if "&amp;" <= s then "&" + Shown(s[5..])
    else if "&lt;" <= s then "<" + Shown(s[4..])
    else if "&gt;" <= s then ">" + Shown(s[4..])
    else [s[0]] + Shown(s[1..])
  }

  lemma ShownAmpersand(rest: string)
    ensures Shown("&amp;" + rest) == "&" + Shown(rest)
  {
    var s := "&amp;" + rest;
    assert "&amp;" <= s && s[5..] == rest;
  }

  lemma ShownLess(rest: string)
    ensures Shown("&lt;" + rest) == "<" + Shown(rest)
  {
    var s := "&lt;" + rest;
    assert s[1] == 'l' && "&amp;"[1] == 'a';
    assert "&lt;" <= s && s[4..] == rest;
  }

  lemma ShownGreater(rest: string)
    ensures Shown("&gt;" + rest) == ">" + Shown(rest)
  {
    var s := "&gt;" + rest;
    assert s[1] == 'g' && "&amp;"[1] == 'a' && "&lt;"[1] == 'l';
    assert "&gt;" <= s && s[4..] == rest;
  }

  lemma ShownPlain(c: char, rest: string)
    requires c != '&'
    ensures Shown([c] + rest) == [c] + Shown(rest)
  {
    var s := [c] + rest;
    assert s[0] == c && "&amp;"[0] == '&' && "&lt;"[0] == '&' && "&gt;"[0] == '&';
    assert s[1..] == rest;
  }

  lemma ShownNext(c: char, rest: string)
    ensures Shown(Entity(c) + rest) == [c] + Shown(rest)
  {
    if c == '&' {
      ShownAmpersand(rest);
    } else if c == '<' {
      ShownLess(rest);
    } else if c == '>' {
      ShownGreater(rest);
    } else {
      ShownPlain(c, rest);
    }
  }

  /** Escaping changes nothing of what is shown, and leaves no delimiter that could begin a
      link or a mention. */
  lemma {:induction false} EscapedIsShown(x: string)
    ensures Shown(SlackEscape(x)) == x
    ensures '<' !in SlackEscape(x) && '>' !in SlackEscape(x)
  {
    if x != "" {
      EscapedIsShown(x[1..]);
      ShownNext(x[0], SlackEscape(x[1..]));
      assert x == [x[0]] + x[1..];
    }
  }

  /** So a cut shows the longest rune-aligned prefix of the text whose escaped form fits. */
  lemma HeadCutShowsPrefix(x: string, limit: int)
    ensures exists j: nat :: LongestPrefix(Entity, x, limit, j) && Shown(HeadEscaped(SlackEscape(x), limit)) == x[..j]
  {
    HeadCutCommutes(x, limit);
    var j: nat :| LongestPrefix(Entity, x, limit, j) && HeadEscaped(SlackEscape(x), limit) == SlackEscape(x[..j]);
    EscapedIsShown(x[..j]);
  }

  // ---------------------------------------------------------------- the tail

  lemma {:induction false} AsciiKeepsValid(a: string, b: string)
    requires (forall c | c in a :: Ascii(c)) && ValidUtf8(b)
    ensures ValidUtf8(a + b)
  {
    if a == "" {
      assert a + b == b;
    } else {
      AsciiKeepsValid(a[1..], b);
      assert (a + b)[1..] == a[1..] + b && a[0] in a;
    }
  }

  lemma {:induction false} PlainEscapesToItself(f: char -> string, x: string)
    requires Encoder(f)
    requires forall c | c in x :: !Ascii(c)
    ensures EscapeBy(f, x) == x
  {
    if x != "" {
      PlainEscapesToItself(f, x[1..]);
      assert x[0] in x && x == [x[0]] + x[1..];
    }
  }

  lemma RuneKeepsValid(x: string, rest: string)
    requires RuneWidth(x) > 0 && ValidUtf8(rest)
    ensures ValidUtf8(x[..RuneWidth(x)] + rest)
  {
    var w := RuneWidth(x);
    var s := x[..w] + rest;
    assert RuneWidth(s) == w && s[w..] == rest;
  }

  /** The first rune is escaped on its own; beyond ASCII it stands for itself. */
  lemma FirstRune(f: char -> string, x: string, w: nat)
    requires Encoder(f) && x != "" && w == RuneWidth(x) > 0
    ensures EscapeBy(f, x) == (if w == 1 then f(x[0]) else x[..w]) + EscapeBy(f, x[w..])
    ensures w == 1 ==> forall c | c in f(x[0]) :: Ascii(c)
  {
    if w == 1 {
      assert Encodes(f(x[0]), x[0]);
    } else {
      EscapeConcat(f, x[..w], x[w..]);
      assert x[..w] + x[w..] == x;
      LongRuneIsPlain(x);
      PlainEscapesToItself(f, x[..w]);
    }
  }

  lemma LongRuneIsPlain(x: string)
    requires RuneWidth(x) > 1
    ensures forall c | c in x[..RuneWidth(x)] :: !Ascii(c)
  {
  }

  /** Escaping keeps valid text valid. */
  lemma {:induction false} EscapeKeepsValid(f: char -> string, x: string)
    requires Encoder(f)
    requires ValidUtf8(x)
    ensures ValidUtf8(EscapeBy(f, x))
    decreases |x|
  {
    if x != "" {
      var w := RuneWidth(x);
      FirstRune(f, x, w);
      EscapeKeepsValid(f, x[w..]);
      if w == 1 {
        AsciiKeepsValid(f(x[0]), EscapeBy(f, x[w..]));
      } else {
        RuneKeepsValid(x, EscapeBy(f, x[w..]));
      }
    }
  }

  /** The longest suffix of the text that starts at a rune and whose escaped form fits. */
  ghost predicate LongestSuffix(f: char -> string, x: string, limit: nat, j: nat) {
    && Boundary(x, j) && Rest(f, x, j) <= limit
    && forall k: nat | Boundary(x, k) && Rest(f, x, k) <= limit :: j <= k
  }

  /** When the cut falls between two entities nothing more is dropped. */
  lemma WholeEntitiesStay(front: string, rest: string)
    requires Closed(front)
    ensures Past(front + rest, |front|) == |front|
  {
    var s, cut := front + rest, |front|;
    var from := if cut < 4 then 0 else cut - 4;
    var window := s[from..cut];
    var i := LastIndex(window, '&');
    if i >= 0 {
      assert forall k | 0 <= k < |window| :: window[k] == front[from + k];
      LastIndexIs(front, '&', from + i);
      SemicolonBefore(front, rest, from + i);
    }
  }

  lemma LastIndexIs(s: string, c: char, i: nat)
    requires i < |s| && s[i] == c && forall k | i < k < |s| :: s[k] != c
    ensures LastIndex(s, c) == i
  {
  }

  lemma SemicolonBefore(front: string, rest: string, p: nat)
    requires p < |front| && ';' in front[p..]
    ensures p + FirstIndex((front + rest)[p..], ';') < |front|
  {
    assert (front + rest)[p..] == front[p..] + rest;
    var k :| 0 <= k < |front[p..]| && front[p..][k] == ';';
    assert (front[p..] + rest)[k] == ';';
  }

  /** When the cut splits an entity, the rest of that entity is dropped. */
  lemma SplitEntityIsSkipped(front: string, e: string, rest: string, off: nat)
    requires IsEntity(e) && 0 < off < |e|
    ensures Past(front + e + rest, |front| + off) == |front| + |e|
  {
    var s, p, cut := front + e + rest, |front|, |front| + off;
    var from := if cut < 4 then 0 else cut - 4;
    EntityInWindow(front, e, rest, off, from);
    EntityEnds(front, e, rest);
  }

  lemma EntityEnds(front: string, e: string, rest: string)
    requires IsEntity(e)
    ensures FirstIndex((front + e + rest)[|front|..], ';') == |e| - 1
  {
    var s := e + rest;
    assert (front + e + rest)[|front|..] == s;
    assert s[|e| - 1] == ';' && forall k | 0 <= k < |e| - 1 :: s[k] == e[k] != ';';
  }

  lemma EntityInWindow(front: string, e: string, rest: string, off: nat, from: nat)
    requires IsEntity(e) && 0 < off < |e| && from <= |front|
    ensures LastIndex((front + e + rest)[from..|front| + off], '&') == |front| - from
  {
    var window := (front + e + rest)[from..|front| + off];
    assert window == front[from..] + e[..off];
    LastIndexIs(window, '&', |front| - from);
  }

  lemma EscapeAround(f: char -> string, x: string, i: nat)
    requires i < |x|
    ensures EscapeBy(f, x) == EscapeBy(f, x[..i]) + f(x[i]) + EscapeBy(f, x[i + 1..])
    ensures At(f, x, i + 1) == At(f, x, i) + |f(x[i])| <= |EscapeBy(f, x)|
  {
    EscapeAt(f, x, i);
    EscapeAt(f, x, i + 1);
    assert EscapeBy(f, x[..i]) + (f(x[i]) + EscapeBy(f, x[i + 1..]))
        == EscapeBy(f, x[..i]) + f(x[i]) + EscapeBy(f, x[i + 1..]);
  }

  /** From a rune start in the escaped text, the tail cut moves on to a rune of the text. */
  lemma TailLands(f: char -> string, x: string, s: string, cut: nat) returns (j: nat)
    requires Encoder(f)
    requires ValidUtf8(x) && s == EscapeBy(f, x) && cut < |s| && !Cont(s[cut])
    ensures Boundary(x, j) && At(f, x, j) == Past(s, cut) && cut <= At(f, x, j) <= |s|
    ensures j > 0 ==> At(f, x, j - 1) < cut
  {
    assert x[..|x|] == x;
    var i := Covering(f, x, cut, |x|);
    if cut == At(f, x, i) {
      CutAt(f, x, cut, i);
      j := i;
      EntitiesClose(f, x[..i]);
      EscapeAt(f, x, i);
      WholeEntitiesStay(EscapeBy(f, x[..i]), EscapeBy(f, x[i..]));
      if j > 0 { AtAscends(f, x, j - 1, j); }
    } else {
      j := i + 1;
      EscapeAround(f, x, i);
      SplitEntityIsSkipped(EscapeBy(f, x[..i]), f(x[i]), EscapeBy(f, x[j..]), cut - At(f, x, i));
      if j < |x| && Cont(x[j]) {
        ContinuationsAreBehindLeads(x, j);
      }
    }
  }

  lemma SuffixAt(f: char -> string, x: string, s: string, j: nat)
    requires s == EscapeBy(f, x) && j <= |x|
    ensures At(f, x, j) + |EscapeBy(f, x[j..])| == |s| && s[At(f, x, j)..] == EscapeBy(f, x[j..])
  {
    EscapeAt(f, x, j);
  }

  /** The tail cut, once Tail has come to a rune start at `cut`. */
  lemma TailFrom(f: char -> string, x: string, s: string, limit: nat, cut: nat) returns (j: nat)
    requires Encoder(f) && ValidUtf8(x) && s == EscapeBy(f, x) && limit < |s|
    requires |s| - limit <= cut < |s| && !Cont(s[cut]) && forall i | |s| - limit <= i < cut :: Cont(s[i])
    ensures LongestSuffix(f, x, limit, j) && s[Past(s, cut)..] == EscapeBy(f, x[j..])
  {
    j := TailLands(f, x, s, cut);
    SuffixAt(f, x, s, j);
    forall k: nat | Boundary(x, k) && k < j
      ensures Rest(f, x, k) > limit
    {
      EarlierIsLonger(f, x, s, limit, cut, k, j - 1);
    }
  }

  lemma TailCommutesBy(f: char -> string, x: string, limit: nat)
    requires Encoder(f) && ValidUtf8(x) && limit >= UTF_MAX
    ensures exists j: nat :: LongestSuffix(f, x, limit, j) && TailEscaped(EscapeBy(f, x), limit) == EscapeBy(f, x[j..])
    ensures |TailEscaped(EscapeBy(f, x), limit)| <= limit
  {
    var s := EscapeBy(f, x);
    var j: nat := 0;
    if |s| <= limit {
      assert x[0..] == x && Past(s, 0) == 0;
    } else {
      EscapeKeepsValid(f, x);
      ValidIsSpaced(s);
      TailStarts(s, limit);
      j := TailFrom(f, x, s, limit, |s| - |TailOf(s, limit)|);
    }
    assert LongestSuffix(f, x, limit, j) && TailEscaped(s, limit) == EscapeBy(f, x[j..]);
  }

  /** Cutting the tail commutes with escaping, for valid text and a limit of at least four:
      the cut of the escaped text is the escaped form of the longest rune-aligned suffix
      that fits. */
  lemma TailCutCommutes(x: string, limit: nat)
    requires ValidUtf8(x) && limit >= UTF_MAX
    ensures exists j: nat :: LongestSuffix(Entity, x, limit, j) && TailEscaped(SlackEscape(x), limit) == SlackEscape(x[j..])
    ensures |TailEscaped(SlackEscape(x), limit)| <= limit
  {
    SlackEncodes();
    TailCommutesBy(Entity, x, limit);
  }

  /** Facts about one earlier boundary, kept apart from the escaped text they are about. */
  lemma EarlierIsLonger(f: char -> string, x: string, s: string, limit: nat, cut: nat, k: nat, last: nat)
    requires Encoder(f) && s == EscapeBy(f, x) && limit < |s| && cut <= |s|
    requires forall i | |s| - limit <= i < cut :: Cont(s[i])
    requires Boundary(x, k) && k <= last <= |x| && At(f, x, last) < cut
    ensures Rest(f, x, k) > limit
  {
    var at, rest := At(f, x, k), Rest(f, x, k);
    assert at < cut by { AtAscends(f, x, k, last); }
    assert Boundary(s, at) by { BoundaryLands(f, x, k); }
    assert at + rest == |s| by { SuffixAt(f, x, s, k); }
    LandsBefore(s, limit, cut, at);
  }

  lemma LandsBefore(s: string, limit: nat, cut: nat, p: nat)
    requires limit < |s| && cut <= |s| && (forall i | |s| - limit <= i < cut :: Cont(s[i]))
    requires Boundary(s, p) && p < cut
    ensures p < |s| - limit
  {
  }
}
