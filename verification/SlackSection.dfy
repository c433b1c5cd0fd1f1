/** What a reader of the Slack attachment sees of one detail (slackDetailBody, slackEscape and
    slackFence in internal/sinks/slack_blocks.go). */
module SlackSection {
  import opened Text
  import opened SlackCut
  import opened SlackBody

  /** What `show` makes of text behind an encoded prefix. */
  lemma {:induction false} EncodedPrefix(show: string -> string, entity: char -> string, x: string, rest: string)
    requires forall c, r :: show(entity(c) + r) == [c] + show(r)
    ensures show(EscapeBy(entity, x) + rest) == x + show(rest)
  {
    if x == "" {
      assert EscapeBy(entity, x) + rest == rest;
    } else {
      var more := EscapeBy(entity, x[1..]) + rest;
      EncodedPrefix(show, entity, x[1..], rest);
      assert EscapeBy(entity, x) + rest == entity(x[0]) + more;
      assert show(entity(x[0]) + more) == [x[0]] + show(more);
      assert x == [x[0]] + x[1..];
    }
  }

  lemma EscapedPrefixIsShown(x: string, rest: string)
    ensures Shown(SlackEscape(x) + rest) == x + Shown(rest)
  {
    forall c, r
      ensures Shown(Entity(c) + r) == [c] + Shown(r)
    {
      ShownNext(c, r);
    }
    EncodedPrefix(Shown, Entity, x, rest);
  }

  /** The same for text that stands for itself. */
  lemma {:induction false} PlainText(show: string -> string, a: string, rest: string)
    requires forall c, r | c != '&' :: show([c] + r) == [c] + show(r)
    requires forall c | c in a :: c != '&'
    ensures show(a + rest) == a + show(rest)
  {
    if a == "" {
      assert a + rest == rest;
    } else {
      assert a[0] in a && forall c | c in a[1..] :: c in a;
      PlainText(show, a[1..], rest);
      assert a + rest == [a[0]] + (a[1..] + rest) && a == [a[0]] + a[1..];
    }
  }

  lemma PlainPrefixIsShown(a: string, rest: string)
    requires forall c | c in a :: c != '&'
    ensures Shown(a + rest) == a + Shown(rest)
  {
    forall c, r | c != '&'
      ensures Shown([c] + r) == [c] + Shown(r)
    {
      ShownPlain(c, r);
    }
    PlainText(Shown, a, rest);
  }

  predicate UnfencedAs(s: string, u: string) {
    |u| == |s| && forall i | 0 <= i < |s| :: u[i] == s[i] || (s[i] == '`' && u[i] == '\'')
  }

  lemma UnfencedNext(a: string, b: string, s: string, u: string)
    requires UnfencedAs(a, b) && UnfencedAs(s, u)
    ensures UnfencedAs(a + s, b + u)
  {
  }

  /** Only backticks are replaced, by quotes, and none if there is no fence. */
  lemma {:induction false} UnfenceChangesOnlyFences(s: string)
    ensures UnfencedAs(s, Unfence(s))
    ensures NoFence(s) ==> Unfence(s) == s
    decreases |s|
  {
    if s != "" {
      if LeadTicks(s) >= 3 {
        UnfenceChangesOnlyFences(s[3..]);
        LeadFence(s);
        UnfencedNext(FENCE, "'''", s[3..], Unfence(s[3..]));
      } else {
        UnfenceChangesOnlyFences(s[1..]);
        assert s == [s[0]] + s[1..];
        UnfencedNext([s[0]], [s[0]], s[1..], Unfence(s[1..]));
      }
    }
  }

  lemma UnfencedWidth(s: string, u: string)
    requires UnfencedAs(s, u)
    ensures RuneWidth(u) == RuneWidth(s)
  {
    assert forall i | 0 <= i < |s| && u[i] != s[i] :: Ascii(s[i]) && Ascii(u[i]) && !Cont(s[i]) && !Cont(u[i]);
  }

  lemma {:induction false} UnfencedStaysValid(s: string, u: string)
    requires ValidUtf8(s) && UnfencedAs(s, u)
    ensures ValidUtf8(u)
    decreases |s|
  {
    if s != "" {
      var w := RuneWidth(s);
      UnfencedWidth(s, u);
      UnfencedStaysValid(s[w..], u[w..]);
    }
  }

  /** A detail's section shows its key in bold and, in a fence, its value without fences: all
      of it if its escaped form fits, and otherwise its longest rune-aligned end that does. */
  lemma SectionShowsValue(details: map<string, string>, key: string) returns (j: nat)
    requires key in details && details[key] != "" && ValidUtf8(details[key])
    ensures var value := Unfence(details[key]);
      && j <= |value| && LongestSuffix(Entity, value, SECTION_LIMIT, j)
      && Shown(Section(details, key)) == "*" + key + ":*\n```" + value[j..] + "```"
  {
    var value := Unfence(details[key]);
    UnfenceChangesOnlyFences(details[key]);
    UnfencedStaysValid(details[key], value);
    TailCutCommutes(value, SECTION_LIMIT);
    j :| LongestSuffix(Entity, value, SECTION_LIMIT, j) && TailEscaped(SlackEscape(value), SECTION_LIMIT) == SlackEscape(value[j..]);
    SectionParts(key, value[j..]);
    assert Section(details, key) == "*" + SlackEscape(key) + ":*\n```" + SlackEscape(value[j..]) + "```";
  }

  lemma SectionParts(key: string, value: string)
    ensures Shown("*" + SlackEscape(key) + ":*\n```" + SlackEscape(value) + "```") == "*" + key + ":*\n```" + value + "```"
  {
    forall rest
      ensures Shown(SlackEscape(key) + rest) == key + Shown(rest)
      ensures Shown(SlackEscape(value) + rest) == value + Shown(rest)
    {
      EscapedPrefixIsShown(key, rest);
      EscapedPrefixIsShown(value, rest);
    }
    forall rest
      ensures Shown("*" + rest) == "*" + Shown(rest)
      ensures Shown(":*\n```" + rest) == ":*\n```" + Shown(rest)
      ensures Shown("```" + rest) == "```" + Shown(rest)
    {
      PlainPrefixIsShown("*", rest);
      PlainPrefixIsShown(":*\n```", rest);
      PlainPrefixIsShown("```", rest);
    }
    FiveParts(Shown, "*", SlackEscape(key), key, ":*\n```", SlackEscape(value), value, "```");
  }

  lemma FiveParts(show: string -> string, a: string, k: string, key: string, b: string, v: string, value: string, c: string)
    requires show("") == ""
    requires forall rest :: show(a + rest) == a + show(rest)
    requires forall rest :: show(k + rest) == key + show(rest)
    requires forall rest :: show(b + rest) == b + show(rest)
    requires forall rest :: show(v + rest) == value + show(rest)
    requires forall rest :: show(c + rest) == c + show(rest)
    ensures show(a + k + b + v + c) == a + key + b + value + c
  {
    assert c + "" == c;
    assert a + k + b + v + c == a + (k + (b + (v + (c + ""))));
    assert show(c + "") == c + show("");
    assert show(v + (c + "")) == value + show(c + "");
    assert show(b + (v + (c + ""))) == b + show(v + (c + ""));
    assert show(k + (b + (v + (c + "")))) == key + show(b + (v + (c + "")));
  }

  // ---------------------------------------------------------------- the count

  function DigitValue(c: char): nat {
    if '0' <= c <= '9' then c as int - '0' as int else 0
  }

  function Read(d: string): nat {
    if d == "" then 0 else 10 * Read(d[..|d| - 1]) + DigitValue(d[|d| - 1])
  }

  /** The omission line states the number it counts. */
  lemma {:induction false} DecimalReadsBack(n: nat)
    ensures Read(Decimal(n)) == n
  {
    if n < 10 {
      var d := Decimal(n);
      assert d[..0] == "" && DigitValue(DIGITS[n]) == n;
    } else {
      DecimalReadsBack(n / 10);
      assert Decimal(n)[..|Decimal(n)| - 1] == Decimal(n / 10) && DigitValue(DIGITS[n % 10]) == n % 10;
    }
  }
}
