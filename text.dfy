/**
 * The JavaScript string operations the kanban code relies on: `trim`, `trimStart`,
 * `startsWith`, ASCII case mapping, decimal rendering of counters and the HTML
 * entity escape used by the tag sanitiser and by `escapeHtml`.
 */
module Text {

  /** The characters JavaScript's `trim` removes: WhiteSpace and LineTerminator. */
  predicate IsWhitespace(c: char) {
    || c == '\U{0009}' || c == '\U{000A}' || c == '\U{000B}' || c == '\U{000C}' || c == '\U{000D}'
    || c == ' ' || c == '\U{00A0}' || c == '\U{1680}'
    || ('\U{2000}' <= c <= '\U{200A}')
    || c == '\U{2028}' || c == '\U{2029}' || c == '\U{202F}' || c == '\U{205F}'
    || c == '\U{3000}' || c == '\U{FEFF}'
  }

  /** The length of the longest whitespace prefix. */
  function LeadingSpace(s: string): (n: nat)
    ensures n <= |s| && (n == |s| || !IsWhitespace(s[n]))
    ensures forall i :: 0 <= i < n ==> IsWhitespace(s[i])
  {
    if s == [] || !IsWhitespace(s[0]) then 0 else 1 + LeadingSpace(s[1..])
  }

  /** The length left once the longest whitespace suffix is dropped. */
  function TrailingStart(s: string): (n: nat)
    ensures n <= |s| && (n == 0 || !IsWhitespace(s[n - 1]))
    ensures forall i :: n <= i < |s| ==> IsWhitespace(s[i])
  {
    if s == [] || !IsWhitespace(s[|s| - 1]) then |s| else TrailingStart(s[..|s| - 1])
  }

  /** `s.trimStart()`: drops the longest whitespace prefix. */
  function TrimStart(s: string): (r: string)
    ensures |r| <= |s| && r == s[|s| - |r|..]
    ensures r == [] || !IsWhitespace(r[0])
    ensures forall i :: 0 <= i < |s| - |r| ==> IsWhitespace(s[i])
  {
    s[LeadingSpace(s)..]
  }

  /** Drops the longest whitespace suffix. */
  function TrimEnd(s: string): (r: string)
    ensures |r| <= |s| && r == s[..|r|]
    ensures r == [] || !IsWhitespace(r[|r| - 1])
    ensures forall i :: |r| <= i < |s| ==> IsWhitespace(s[i])
  {
    s[..TrailingStart(s)]
  }

  /** `s.trim()`. */
  function Trim(s: string): string {
    TrimEnd(TrimStart(s))
  }

  /** A trimmed string neither starts nor ends with whitespace, and it is a slice of its input. */
  lemma TrimShape(s: string)
    ensures Trim(s) == [] || (!IsWhitespace(Trim(s)[0]) && !IsWhitespace(Trim(s)[|Trim(s)| - 1]))
    ensures |s| - |TrimStart(s)| + |Trim(s)| <= |s|
    ensures Trim(s) == s[|s| - |TrimStart(s)|..|s| - |TrimStart(s)| + |Trim(s)|]
  {
  }

  /** Trimming twice is trimming once. */
  lemma TrimIdempotent(s: string)
    ensures Trim(Trim(s)) == Trim(s)
  {
    var r := Trim(s);
    TrimShape(s);
    assert TrimStart(r) == r;
    assert TrimEnd(r) == r;
  }

  /** A string that neither starts nor ends with whitespace is its own trim. */
  lemma TrimUnchanged(s: string)
    requires s == [] || (!IsWhitespace(s[0]) && !IsWhitespace(s[|s| - 1]))
    ensures Trim(s) == s
  {
    assert TrimStart(s) == s;
  }

  /** A character outside the Basic Multilingual Plane, which UTF-16 stores as a surrogate pair. */
  predicate IsAstral(c: char) {
    c >= '\U{10000}'
  }

  /** `s.length`: the number of UTF-16 code units, two for each astral character. */
  function Utf16Length(s: string): (n: nat)
    ensures |s| <= n <= 2 * |s|
    ensures n == |s| <==> forall i :: 0 <= i < |s| ==> !IsAstral(s[i])
    ensures n == 2 * |s| <==> forall i :: 0 <= i < |s| ==> IsAstral(s[i])
  {
    if s == [] then 0
    else
      var rest := Utf16Length(s[1..]);
      assert forall i :: 1 <= i < |s| ==> s[i] == s[1..][i - 1];
      (if IsAstral(s[0]) then 2 else 1) + rest
  }

  predicate StartsWith(s: string, prefix: string) {
    |prefix| <= |s| && s[..|prefix|] == prefix
  }

  /** Lower-cases the ASCII letters only. */
  function LowerChar(c: char): char {
    if 'A' <= c <= 'Z' then (c as int + 32) as char else c
  }

  function UpperChar(c: char): char {
    if 'a' <= c <= 'z' then (c as int - 32) as char else c
  }

  /** `s.toLowerCase()` on ASCII letters. */
  function ToLower(s: string): (r: string)
    ensures |r| == |s| && forall i :: 0 <= i < |s| ==> r[i] == LowerChar(s[i])
  {
    if s == [] then [] else [LowerChar(s[0])] + ToLower(s[1..])
  }

  /** Lower-casing leaves a string without upper-case ASCII letters alone. */
  lemma ToLowerUnchanged(s: string)
    requires forall i :: 0 <= i < |s| ==> !('A' <= s[i] <= 'Z')
    ensures ToLower(s) == s
  {
  }

  /** ASCII case-insensitive equality, as a regular expression with the `i` flag compares letters. */
  predicate EqualsIgnoreCase(a: string, b: string) {
    |a| == |b| && forall i :: 0 <= i < |a| ==> LowerChar(a[i]) == LowerChar(b[i])
  }

  /** The characters `\w` matches; `\b` is a change between these and the others. */
  predicate IsWordChar(c: char) {
    ('a' <= c <= 'z') || ('A' <= c <= 'Z') || ('0' <= c <= '9') || c == '_'
  }

  predicate IsDigit(c: char) {
    '0' <= c <= '9'
  }

  predicate AllDigits(s: string) {
    forall i :: 0 <= i < |s| ==> IsDigit(s[i])
  }

  function DigitChar(d: nat): (c: char)
    requires d < 10
    ensures IsDigit(c)
  {
    (48 + d) as char
  }

  /** The decimal rendering of a counter, as template literals render numbers. */
  function Decimal(n: nat): (r: string)
    ensures r != [] && AllDigits(r)
  {
    if n < 10 then [DigitChar(n)] else Decimal(n / 10) + [DigitChar(n % 10)]
  }

  /** Reads a string of digits back as a number. */
  function ParseDecimal(s: string): nat
    requires AllDigits(s)
  {
    if s == [] then 0 else 10 * ParseDecimal(s[..|s| - 1]) + (s[|s| - 1] as int - 48)
  }

  lemma {:induction false} DecimalRoundTrip(n: nat)
    ensures ParseDecimal(Decimal(n)) == n
  {
    if n >= 10 {
      DecimalRoundTrip(n / 10);
      var d := Decimal(n / 10) + [DigitChar(n % 10)];
      assert d[..|d| - 1] == Decimal(n / 10);
    }
  }

  /** The entity an HTML-special character is replaced by; other characters stay. */
  function Entity(c: char): string {
    if c == '&' then "&amp;"
    else if c == '<' then "&lt;"
    else if c == '>' then "&gt;"
    else if c == '"' then "&quot;"
    else [c]
  }

  /** Replaces `&`, `<`, `>` and `"` by their entities in one left-to-right pass. */
  function HtmlEscape(s: string): string {
    if s == [] then [] else Entity(s[0]) + HtmlEscape(s[1..])
  }

  predicate EntityAt(r: string, i: nat)
    requires i <= |r|
  {
    StartsWith(r[i..], "&amp;") || StartsWith(r[i..], "&lt;")
    || StartsWith(r[i..], "&gt;") || StartsWith(r[i..], "&quot;")
  }

  /** What an escaped string looks like: no raw `<`, `>` or `"`, and each `&` opens an entity. */
  predicate WellEscaped(r: string) {
    && (forall i :: 0 <= i < |r| ==> r[i] != '<' && r[i] != '>' && r[i] != '"')
    && (forall i :: 0 <= i < |r| && r[i] == '&' ==> EntityAt(r, i))
  }

  /** An `&` inside the replacement of one character opens that replacement's entity. */
  lemma EntityOpensEntity(c: char, b: string, i: nat)
    requires i < |Entity(c)| && Entity(c)[i] == '&'
    ensures i < |Entity(c) + b| && EntityAt(Entity(c) + b, i)
  {
    var r := Entity(c) + b;
    assert r[..|Entity(c)|] == Entity(c);
    assert i == 0 && r[i..] == r;
  }

  lemma {:induction false} HtmlEscapeWellEscaped(s: string)
    ensures WellEscaped(HtmlEscape(s))
  {
    if s != [] {
      HtmlEscapeWellEscaped(s[1..]);
      var a, b := Entity(s[0]), HtmlEscape(s[1..]);
      var r := a + b;
      forall i | 0 <= i < |r| && r[i] == '&'
        ensures EntityAt(r, i)
      {
        if i < |a| {
          EntityOpensEntity(s[0], b, i);
        } else {
          assert r[i..] == b[i - |a|..];
          assert EntityAt(b, i - |a|);
        }
      }
      forall i | 0 <= i < |r|
        ensures r[i] != '<' && r[i] != '>' && r[i] != '"'
      {
        if i >= |a| {
          assert r[i] == b[i - |a|];
        }
      }
    }
  }

  /** Decodes the four entities HtmlEscape produces. */
  function HtmlUnescape(r: string): string
    decreases |r|
  {
    if r == [] then []
    else if StartsWith(r, "&amp;") then "&" + HtmlUnescape(r[5..])
    else if StartsWith(r, "&lt;") then "<" + HtmlUnescape(r[4..])
    else if StartsWith(r, "&gt;") then ">" + HtmlUnescape(r[4..])
    else if StartsWith(r, "&quot;") then "\"" + HtmlUnescape(r[6..])
    else [r[0]] + HtmlUnescape(r[1..])
  }

  /** A string whose first character differs from an entity's does not start with it. */
  lemma NotEntityByFirst(r: string, e: string)
    requires |r| > 0 && |e| > 0 && r[0] != e[0]
    ensures !StartsWith(r, e)
  {
  }

  /** A string whose second character differs from an entity's does not start with it. */
  lemma NotEntityBySecond(r: string, e: string)
    requires |r| > 1 && |e| > 1 && r[1] != e[1]
    ensures !StartsWith(r, e)
  {
  }

  /** A character other than `&` decodes as itself. */
  lemma UnescapePlain(c: char, b: string)
    requires c != '&'
    ensures HtmlUnescape([c] + b) == [c] + HtmlUnescape(b)
  {
    var r := [c] + b;
    assert r[1..] == b;
    NotEntityByFirst(r, "&amp;");
    NotEntityByFirst(r, "&lt;");
    NotEntityByFirst(r, "&gt;");
    NotEntityByFirst(r, "&quot;");
  }

  lemma UnescapeAmp(b: string)
    ensures HtmlUnescape("&amp;" + b) == "&" + HtmlUnescape(b)
  {
    var r := "&amp;" + b;
    assert r[..5] == "&amp;" && r[5..] == b;
  }

  lemma UnescapeLt(b: string)
    ensures HtmlUnescape("&lt;" + b) == "<" + HtmlUnescape(b)
  {
    var r := "&lt;" + b;
    NotEntityBySecond(r, "&amp;");
    assert r[..4] == "&lt;" && r[4..] == b;
  }

  lemma UnescapeGt(b: string)
    ensures HtmlUnescape("&gt;" + b) == ">" + HtmlUnescape(b)
  {
    var r := "&gt;" + b;
    NotEntityBySecond(r, "&amp;");
    NotEntityBySecond(r, "&lt;");
    assert r[..4] == "&gt;" && r[4..] == b;
  }

  lemma UnescapeQuot(b: string)
    ensures HtmlUnescape("&quot;" + b) == "\"" + HtmlUnescape(b)
  {
    var r := "&quot;" + b;
    NotEntityBySecond(r, "&amp;");
    NotEntityBySecond(r, "&lt;");
    NotEntityBySecond(r, "&gt;");
    assert r[..6] == "&quot;" && r[6..] == b;
  }

  /** Decoding an escaped character followed by anything decodes the character first. */
  lemma UnescapeEntity(c: char, b: string)
    ensures HtmlUnescape(Entity(c) + b) == [c] + HtmlUnescape(b)
  {
    if c == '&' {
      UnescapeAmp(b);
    } else if c == '<' {
      UnescapeLt(b);
    } else if c == '>' {
      UnescapeGt(b);
    } else if c == '"' {
      UnescapeQuot(b);
    } else {
      UnescapePlain(c, b);
    }
  }

  /** Escaping loses nothing: the original text can be read back. */
  lemma {:induction false} HtmlEscapeRoundTrip(s: string)
    ensures HtmlUnescape(HtmlEscape(s)) == s
  {
    if s != [] {
      HtmlEscapeRoundTrip(s[1..]);
      UnescapeEntity(s[0], HtmlEscape(s[1..]));
    }
  }
}
