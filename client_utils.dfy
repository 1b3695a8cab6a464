/**
 * The text helpers of the browser client (kanban/public/js/utils.js): `escapeHtml`, four
 * chained global replaces, and `formatMentions`, which wraps `@jimmy` and `@kenny` in a
 * highlighting span after escaping.
 */
module ClientUtils {
  import opened Text
  import opened BoardTypes

  /** `s.replace(/c/g, by)` for a single character c. */
  function ReplaceChar(s: string, c: char, replacement: string): (r: string)
    ensures c !in s ==> r == s
  {
    if s == [] then [] else (if s[0] == c then replacement else [s[0]]) + ReplaceChar(s[1..], c, replacement)
  }

  /** A global replace works piece by piece. */
  lemma {:induction false} ReplaceCharAppend(a: string, b: string, c: char, replacement: string)
    ensures ReplaceChar(a + b, c, replacement) == ReplaceChar(a, c, replacement) + ReplaceChar(b, c, replacement)
  {
    if a != [] {
      var piece := if a[0] == c then replacement else [a[0]];
      assert (a + b)[0] == a[0] && (a + b)[1..] == a[1..] + b;
      assert ReplaceChar(a + b, c, replacement) == piece + ReplaceChar(a[1..] + b, c, replacement);
      ReplaceCharAppend(a[1..], b, c, replacement);
      assert ReplaceChar(a, c, replacement) == piece + ReplaceChar(a[1..], c, replacement);
    } else {
      assert a + b == b;
    }
  }

  /** The four replaces of `escapeHtml`, in the order written: `&` first. */
  function EscapeChain(s: string): string {
    ReplaceChar(ReplaceChar(ReplaceChar(ReplaceChar(s, '&', "&amp;"), '<', "&lt;"), '>', "&gt;"), '"', "&quot;")
  }

  /** `escapeHtml(text)`: a falsy text gives the empty string. */
  function EscapeHtml(text: JsStr): (r: string)
    ensures !text.Truthy() ==> r == ""
  {
    if text.Truthy() then EscapeChain(text.s) else ""
  }

  lemma EscapeChainAppend(a: string, b: string)
    ensures EscapeChain(a + b) == EscapeChain(a) + EscapeChain(b)
  {
    ReplaceCharAppend(a, b, '&', "&amp;");
    var a1, b1 := ReplaceChar(a, '&', "&amp;"), ReplaceChar(b, '&', "&amp;");
    ReplaceCharAppend(a1, b1, '<', "&lt;");
    var a2, b2 := ReplaceChar(a1, '<', "&lt;"), ReplaceChar(b1, '<', "&lt;");
    ReplaceCharAppend(a2, b2, '>', "&gt;");
    var a3, b3 := ReplaceChar(a2, '>', "&gt;"), ReplaceChar(b2, '>', "&gt;");
    ReplaceCharAppend(a3, b3, '"', "&quot;");
  }

  /** On one character the chain produces that character's entity: later replaces never touch an earlier entity. */
  lemma EscapeChainChar(c: char)
    ensures EscapeChain([c]) == Entity(c)
  {
    SingleReplace(c, '&', "&amp;");
    if c == '&' {
      assert '<' !in "&amp;" && '>' !in "&amp;" && '"' !in "&amp;";
    } else {
      SingleReplace(c, '<', "&lt;");
      if c == '<' {
        assert '>' !in "&lt;" && '"' !in "&lt;";
      } else {
        SingleReplace(c, '>', "&gt;");
        if c != '>' {
          SingleReplace(c, '"', "&quot;");
        } else {
          assert '"' !in "&gt;";
        }
      }
    }
  }

  /** A replace on a one-character string. */
  lemma SingleReplace(x: char, c: char, replacement: string)
    ensures ReplaceChar([x], c, replacement) == if x == c then replacement else [x]
  {
    assert [x][1..] == [];
  }

  /** The chained replaces equal the single left-to-right pass that the tag sanitiser performs. */
  lemma {:induction false} EscapeChainIsOnePass(s: string)
    ensures EscapeChain(s) == HtmlEscape(s)
  {
    if s != [] {
      assert s == [s[0]] + s[1..];
      EscapeChainAppend([s[0]], s[1..]);
      EscapeChainChar(s[0]);
      EscapeChainIsOnePass(s[1..]);
    }
  }

  /**
   * The escaped text has no raw `<`, `>` or `"`, each `&` in it opens one of the four
   * entities, and decoding it gives the text back, every other character unchanged and in order.
   */
  lemma EscapeHtmlSafe(s: string)
    ensures WellEscaped(EscapeHtml(Str(s)))
    ensures HtmlUnescape(EscapeHtml(Str(s))) == s
  {
    EscapeChainIsOnePass(s);
    HtmlEscapeWellEscaped(s);
    HtmlEscapeRoundTrip(s);
  }

  /** A text without `&`, `<`, `>` and `"` is its own escape. */
  lemma EscapePlainText(s: string)
    requires forall i :: 0 <= i < |s| ==> s[i] != '&' && s[i] != '<' && s[i] != '>' && s[i] != '"'
    ensures EscapeHtml(Str(s)) == s
  {
    assert '&' !in s && '<' !in s && '>' !in s && '"' !in s;
  }

  // ---------------------------------------------------------------------------
  // Mention highlighting
  // ---------------------------------------------------------------------------

  const SpanOpen := "<span class=\"mention\">"
  const SpanClose := "</span>"

  /** `@jimmy` or `@kenny` at the start of s, letters in any case; the pattern has no word boundary. */
  predicate MentionStart(s: string) {
    |s| >= 6 && s[0] == '@' && (EqualsIgnoreCase(s[1..6], "jimmy") || EqualsIgnoreCase(s[1..6], "kenny"))
  }

  /** No `@jimmy` or `@kenny` anywhere in s. */
  predicate NoMention(s: string) {
    forall i :: 0 <= i < |s| ==> !MentionStart(s[i..])
  }

  /** `.replace(/@(jimmy|kenny)/gi, '<span class="mention">@$1</span>')`, left to right, resuming after each match. */
  function Highlight(s: string): string
    decreases |s|
  {
    if s == [] then []
    else if MentionStart(s) then SpanOpen + s[..6] + SpanClose + Highlight(s[6..])
    else [s[0]] + Highlight(s[1..])
  }

  /** `formatMentions(text)`. */
  function FormatMentions(text: JsStr): string {
    Highlight(EscapeHtml(text))
  }

  /** Without a mention, highlighting changes nothing. */
  lemma {:induction false} HighlightNoMention(s: string)
    requires NoMention(s)
    ensures Highlight(s) == s
  {
    if s != [] {
      assert !MentionStart(s[0..]) by { assert s[0..] == s; }
      assert NoMention(s[1..]) by {
        forall i | 0 <= i < |s[1..]|
          ensures !MentionStart(s[1..][i..])
        {
          assert s[1..][i..] == s[i + 1..];
        }
      }
      HighlightNoMention(s[1..]);
    }
  }

  /**
   * The first mention is wrapped: the text before it is copied, the six characters of the
   * mention go into the span with their case kept, and highlighting resumes after it.
   */
  lemma {:induction false} HighlightWrapsFirst(a: string, b: string)
    requires forall i :: 0 <= i < |a| ==> !MentionStart((a + b)[i..])
    requires MentionStart(b)
    ensures Highlight(a + b) == a + SpanOpen + b[..6] + SpanClose + Highlight(b[6..])
  {
    if a == [] {
      assert a + b == b;
    } else {
      assert !MentionStart((a + b)[0..]);
      assert (a + b)[0..] == a + b;
      assert (a + b)[1..] == a[1..] + b;
      forall i | 0 <= i < |a[1..]|
        ensures !MentionStart((a[1..] + b)[i..])
      {
        assert (a[1..] + b)[i..] == (a + b)[i + 1..];
      }
      HighlightWrapsFirst(a[1..], b);
      assert a == [a[0]] + a[1..];
    }
  }

  /** `formatMentions("hi @Kenny")` keeps the capital K inside the span. */
  lemma FormatMentionsKeepsCase()
    ensures FormatMentions(Str("hi @Kenny")) == "hi " + SpanOpen + "@Kenny" + SpanClose
  {
    var a, b := "hi ", "@Kenny";
    assert a + b == "hi @Kenny";
    EscapePlainText(a + b);
    assert EqualsIgnoreCase(b[1..6], "kenny");
    forall i | 0 <= i < |a|
      ensures !MentionStart((a + b)[i..])
    {
      assert (a + b)[i..][0] == a[i] != '@';
    }
    HighlightWrapsFirst(a, b);
    assert b[..6] == b && b[6..] == [];
  }

  /** A stretch of escaped text free of `&` was copied unchanged from the input. */
  lemma {:induction false} EscapedPrefixCopied(t: string, n: nat)
    requires n <= |HtmlEscape(t)| && forall j :: 0 <= j < n ==> HtmlEscape(t)[j] != '&'
    ensures n <= |t| && HtmlEscape(t)[..n] == t[..n]
  {
    if n > 0 {
      assert HtmlEscape(t)[0] == Entity(t[0])[0];
      var rest := HtmlEscape(t[1..]);
      assert HtmlEscape(t) == [t[0]] + rest;
      forall j | 0 <= j < n - 1
        ensures rest[j] != '&'
      {
        assert rest[j] == HtmlEscape(t)[j + 1];
      }
      EscapedPrefixCopied(t[1..], n - 1);
      assert HtmlEscape(t)[..n] == [t[0]] + rest[..n - 1];
      assert t[..n] == [t[0]] + t[1..][..n - 1];
    }
  }

  /** A mention in the escaped text was already a mention in the input: escaping adds no `@` and no letters after one. */
  lemma {:induction false} EscapedMentionFromInput(s: string, p: nat)
    requires p < |HtmlEscape(s)| && MentionStart(HtmlEscape(s)[p..])
    ensures exists q :: 0 <= q < |s| && MentionStart(s[q..])
  {
    var e, t := Entity(s[0]), s[1..];
    var h := HtmlEscape(t);
    assert HtmlEscape(s) == e + h;
    if p >= |e| {
      assert HtmlEscape(s)[p..] == h[p - |e|..];
      EscapedMentionFromInput(t, p - |e|);
      var q :| 0 <= q < |t| && MentionStart(t[q..]);
      assert s[q + 1..] == t[q..];
    } else {
      assert e[p] == '@';
      assert e == [s[0]] && p == 0;
      var w := HtmlEscape(s)[1..6];
      assert w == h[..5];
      forall j | 0 <= j < 5
        ensures h[j] != '&'
      {
        assert LowerChar(w[j]) == LowerChar("jimmy"[j]) || LowerChar(w[j]) == LowerChar("kenny"[j]);
        assert w[j] == h[j];
      }
      EscapedPrefixCopied(t, 5);
      assert s[1..6] == t[..5];
      assert s[0..] == s;
    }
  }

  /** Escaping keeps a text free of mentions. */
  lemma EscapeKeepsNoMention(s: string)
    requires NoMention(s)
    ensures NoMention(HtmlEscape(s))
  {
    forall p | 0 <= p < |HtmlEscape(s)|
      ensures !MentionStart(HtmlEscape(s)[p..])
    {
      if MentionStart(HtmlEscape(s)[p..]) {
        EscapedMentionFromInput(s, p);
      }
    }
  }

  /** A text with no `@jimmy` or `@kenny`, in any case, formats to exactly its escape. */
  lemma FormatWithoutMentions(s: string)
    requires NoMention(s)
    ensures FormatMentions(Str(s)) == EscapeHtml(Str(s))
  {
    EscapeChainIsOnePass(s);
    EscapeKeepsNoMention(s);
    HighlightNoMention(HtmlEscape(s));
  }

  /** Drops the highlighting markup: each `<span class="mention">` and each `</span>`. */
  function Unmark(r: string): string
    decreases |r|
  {
    if r == [] then []
    else if StartsWith(r, SpanOpen) then Unmark(r[|SpanOpen|..])
    else if StartsWith(r, SpanClose) then Unmark(r[|SpanClose|..])
    else [r[0]] + Unmark(r[1..])
  }

  /** Text without `<` passes through Unmark unchanged. */
  lemma {:induction false} UnmarkPlain(x: string, y: string)
    requires '<' !in x
    ensures Unmark(x + y) == x + Unmark(y)
  {
    if x != [] {
      var r := x + y;
      assert r[0] == x[0] && r[1..] == x[1..] + y;
      assert !StartsWith(r, SpanOpen) && !StartsWith(r, SpanClose) by {
        assert r[0] != '<';
        assert SpanOpen[0] == '<' && SpanClose[0] == '<';
      }
      assert Unmark(r) == [x[0]] + Unmark(x[1..] + y);
      UnmarkPlain(x[1..], y);
      assert x == [x[0]] + x[1..];
    } else {
      assert x + y == y;
    }
  }

  lemma UnmarkOpen(y: string)
    ensures Unmark(SpanOpen + y) == Unmark(y)
  {
    var r := SpanOpen + y;
    assert r[..|SpanOpen|] == SpanOpen && r[|SpanOpen|..] == y;
  }

  lemma UnmarkClose(y: string)
    ensures Unmark(SpanClose + y) == Unmark(y)
  {
    var r := SpanClose + y;
    assert r[..|SpanClose|] == SpanClose && r[|SpanClose|..] == y;
    assert !StartsWith(r, SpanOpen) by {
      assert r[1] == '/' && SpanOpen[1] == 's';
    }
  }

  /**
   * Highlighting only adds markup: removing it gives the text back, so each wrapped
   * mention keeps its original letters and case and nothing else moves.
   */
  lemma {:induction false} HighlightUnmark(s: string)
    requires '<' !in s
    ensures Unmark(Highlight(s)) == s
    decreases |s|
  {
    if s != [] {
      if MentionStart(s) {
        var rest := Highlight(s[6..]);
        assert SpanOpen + s[..6] + SpanClose + rest == SpanOpen + (s[..6] + (SpanClose + rest));
        UnmarkOpen(s[..6] + (SpanClose + rest));
        assert '<' !in s[..6];
        UnmarkPlain(s[..6], SpanClose + rest);
        UnmarkClose(rest);
        assert '<' !in s[6..];
        HighlightUnmark(s[6..]);
        assert s[..6] + s[6..] == s;
      } else {
        assert '<' !in [s[0]] && '<' !in s[1..];
        UnmarkPlain([s[0]], Highlight(s[1..]));
        HighlightUnmark(s[1..]);
      }
    }
  }

  /** Removing the markup and decoding the entities of a formatted comment gives back its text. */
  lemma FormatMentionsRoundTrip(s: string)
    ensures HtmlUnescape(Unmark(FormatMentions(Str(s)))) == s
  {
    EscapeHtmlSafe(s);
    var e := EscapeHtml(Str(s));
    assert '<' !in e by {
      forall i | 0 <= i < |e|
        ensures e[i] != '<'
      {
      }
    }
    HighlightUnmark(e);
  }
}
