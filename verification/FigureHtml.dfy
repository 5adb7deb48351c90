/** Images as HTML figures: escaping, printing, and the parser that undoes both. */
module FigureHtml {
  import opened Options
  import opened JsText

  // ---------------------------------------------------------------- escaping

  function EscapeChar(c: char): string {
    match c
    case '&' => "&amp;"
    case '<' => "&lt;"
    case '>' => "&gt;"
    case '"' => "&quot;"
    case '\'' => "&#39;"
    case _ => [c]
  }

  function Escape(s: string): string {
    if s == "" then "" else EscapeChar(s[0]) + Escape(s[1..])
  }

  /** The character written at the head of t, and the length of the text that writes it. */
  function DecodeHead(t: string): (r: (char, nat))
    requires t != ""
    ensures 1 <= r.1 <= |t|
  {
    if StartsWith(t, "&amp;") then ('&', 5)
    else if StartsWith(t, "&lt;") then ('<', 4)
    else if StartsWith(t, "&gt;") then ('>', 4)
    else if StartsWith(t, "&quot;") then ('"', 6)
    else if StartsWith(t, "&#39;") then ('\'', 5)
    else (t[0], 1)
  }

  function Unescape(t: string): string {
    if t == "" then "" else var (c, n) := DecodeHead(t); [c] + Unescape(t[n..])
  }

  /** t opens one of the five character references, which are EscapeChar of the five markup characters. */
  ghost predicate OpensReference(t: string) {
    exists c :: c in "&<>\"'" && StartsWith(t, EscapeChar(c))
  }

  /** Character data without raw markup: every `&` opens a reference (HTML 4.01, section 5.3). */
  ghost predicate IsEscaped(t: string) {
    forall i :: 0 <= i < |t| ==> t[i] !in "<>\"'" && (t[i] == '&' ==> OpensReference(t[i..]))
  }

  lemma DecodeEscaped(c: char, rest: string)
    ensures DecodeHead(EscapeChar(c) + rest) == (c, |EscapeChar(c)|)
  {
    var t := EscapeChar(c) + rest;
    assert t[..|EscapeChar(c)|] == EscapeChar(c);
    if c in "&<>\"'" {
      assert t[1] == EscapeChar(c)[1];
    } else {
      assert t[0] == c;
    }
  }

  lemma {:induction false} UnescapeEscape(s: string)
    ensures Unescape(Escape(s)) == s
  {
    if s != "" {
      var head, rest := EscapeChar(s[0]), Escape(s[1..]);
      UnescapeEscape(s[1..]);
      DecodeEscaped(s[0], rest);
      assert (head + rest)[|head|..] == rest;
    }
  }

  lemma {:induction false} EscapeIsEscaped(s: string)
    ensures IsEscaped(Escape(s))
  {
    if s != "" {
      var head, rest := EscapeChar(s[0]), Escape(s[1..]);
      EscapeIsEscaped(s[1..]);
      forall i | 0 <= i < |head + rest|
        ensures (head + rest)[i] !in "<>\"'"
        ensures (head + rest)[i] == '&' ==> OpensReference((head + rest)[i..])
      {
        if i >= |head| {
          assert (head + rest)[i..] == rest[i - |head|..];
        } else if (head + rest)[i] == '&' {
          assert StartsWith((head + rest)[i..], EscapeChar(s[0]));
        }
      }
    }
  }

  lemma HeadReference(t: string)
    requires IsEscaped(t) && t != ""
    ensures EscapeChar(DecodeHead(t).0) == t[..DecodeHead(t).1]
  {
    assert t[0..] == t;
  }

  lemma EscapeCons(c: char, s: string)
    ensures Escape([c] + s) == EscapeChar(c) + Escape(s)
  {
    assert ([c] + s)[1..] == s;
  }

  lemma {:induction false} EscapeUnescape(t: string)
    requires IsEscaped(t)
    ensures Escape(Unescape(t)) == t
    decreases |t|
  {
    if t != "" {
      var (c, n) := DecodeHead(t);
      var rest := t[n..];
      HeadReference(t);
      assert forall i :: 0 <= i < |rest| ==> rest[i] == t[n + i] && rest[i..] == t[n + i..];
      EscapeUnescape(rest);
      EscapeCons(c, Unescape(rest));
      assert t == t[..n] + rest;
    }
  }

  /** The escaped texts are exactly those without raw markup, and on them escaping undoes unescaping. */
  lemma EscapedTexts(t: string)
    ensures IsEscaped(t) <==> Escape(Unescape(t)) == t
  {
    EscapeIsEscaped(Unescape(t));
    if IsEscaped(t) {
      EscapeUnescape(t);
    }
  }

  // ---------------------------------------------------------------- figures

  datatype Figure = Figure(url: string, altText: string, caption: Option<string>)

  /** The fixed text around the three inserted strings. */
  datatype Markup = Markup(
    figureOpen: string, altOpen: string, imgClose: string,
    captionOpen: string, captionClose: string, figureClose: string)

  const FIGURE_MARKUP := Markup(
    "<figure class=\"my-4\">\n        <img src=\"",
    "\" alt=\"",
    "\" class=\"max-w-full rounded-lg\" />\n        ",
    "<figcaption class=\"text-sm text-gray-500 mt-2 text-center\">",
    "</figcaption>",
    "\n      </figure>")

  function CaptionHtml(m: Markup, caption: Option<string>): string {
    if caption.Some? && caption.value != "" then m.captionOpen + Escape(caption.value) + m.captionClose else ""
  }

  function PrintWith(m: Markup, f: Figure): string {
    m.figureOpen + (Escape(f.url) + (m.altOpen + (Escape(f.altText) + (m.imgClose
      + (CaptionHtml(m, f.caption) + m.figureClose)))))
  }

  function Print(f: Figure): string {
    PrintWith(FIGURE_MARKUP, f)
  }

  function Expect(p: string, s: string): Option<string> {
    if StartsWith(s, p) then Some(s[|p|..]) else None
  }

  /** The text before the first c, and the text from there on. */
  function Until(c: char, s: string): (string, string) {
    if s == "" || s[0] == c then ("", s) else var (t, r) := Until(c, s[1..]); ([s[0]] + t, r)
  }

  function ParseWith(m: Markup, s: string): Option<Figure> {
    var s1 :- Expect(m.figureOpen, s);
    var (url, s2) := Until('"', s1);
    var s3 :- Expect(m.altOpen, s2);
    var (altText, s4) := Until('"', s3);
    var s5 :- Expect(m.imgClose, s4);
    if StartsWith(s5, m.captionOpen) then
      var (caption, s6) := Until('<', s5[|m.captionOpen|..]);
      var s7 :- Expect(m.captionClose, s6);
      if s7 == m.figureClose then Some(Figure(Unescape(url), Unescape(altText), Some(Unescape(caption)))) else None
    else if s5 == m.figureClose then Some(Figure(Unescape(url), Unescape(altText), None))
    else None
  }

  function Parse(s: string): Option<Figure> {
    ParseWith(FIGURE_MARKUP, s)
  }

  lemma ExpectPrefix(p: string, r: string)
    ensures Expect(p, p + r) == Some(r)
  {
    assert (p + r)[|p|..] == r;
  }

  lemma IncludesPart(before: string, part: string, rest: string)
    ensures Includes(before + (part + rest), part)
  {
    ExpectPrefix(before, part + rest);
    assert StartsWith((before + (part + rest))[|before|..], part);
  }

  lemma Regroup(a: string, b: string, c: string)
    ensures a + b + c == a + (b + c)
  {
  }

  lemma Regroup4(a: string, b: string, c: string, d: string, e: string, rest: string)
    ensures a + (b + (c + (d + e))) + rest == a + (b + (c + (d + (e + rest))))
  {
    Regroup(d, e, rest);
    Regroup(c, d + e, rest);
    Regroup(b, c + (d + e), rest);
    Regroup(a, b + (c + (d + e)), rest);
  }

  lemma ImageShown(m: Markup, f: Figure, before: string, tag: string, quote: string, rest: string)
    requires m.figureOpen == before + tag && m.imgClose == quote + rest
    ensures Includes(PrintWith(m, f), tag + (Escape(f.url) + (m.altOpen + (Escape(f.altText) + quote))))
  {
    var image := tag + (Escape(f.url) + (m.altOpen + (Escape(f.altText) + quote)));
    var after := rest + (CaptionHtml(m, f.caption) + m.figureClose);
    Regroup(quote, rest, CaptionHtml(m, f.caption) + m.figureClose);
    Regroup4(tag, Escape(f.url), m.altOpen, Escape(f.altText), quote, after);
    Regroup(before, tag, Escape(f.url) + (m.altOpen + (Escape(f.altText) + (quote + after))));
    IncludesPart(before, image, after);
  }

  lemma CaptionShown(m: Markup, f: Figure)
    requires f.caption.Some? && f.caption.value != ""
    ensures Includes(PrintWith(m, f), m.captionOpen + (Escape(f.caption.value) + m.captionClose))
  {
    var shown := m.captionOpen + (Escape(f.caption.value) + m.captionClose);
    var before := m.figureOpen + (Escape(f.url) + (m.altOpen + (Escape(f.altText) + m.imgClose)));
    Regroup(m.captionOpen, Escape(f.caption.value), m.captionClose);
    Regroup4(m.figureOpen, Escape(f.url), m.altOpen, Escape(f.altText), m.imgClose, shown + m.figureClose);
    IncludesPart(before, shown, m.figureClose);
  }

  /** The figure holds the escaped url as source, the escaped text as alternative, and any caption as caption. */
  lemma FigureShows(f: Figure)
    ensures Includes(Print(f), "<img src=\"" + (Escape(f.url) + ("\" alt=\"" + (Escape(f.altText) + "\""))))
    ensures f.caption.GetOr("") != "" ==>
              Includes(Print(f), "<figcaption class=\"text-sm text-gray-500 mt-2 text-center\">"
                                 + (Escape(f.caption.value) + "</figcaption>"))
  {
    var close := " class=\"max-w-full rounded-lg\" />\n        ";
    assert FIGURE_MARKUP.imgClose == "\"" + close;
    ImageShown(FIGURE_MARKUP, f, "<figure class=\"my-4\">\n        ", "<img src=\"", "\"", close);
    if f.caption.GetOr("") != "" {
      CaptionShown(FIGURE_MARKUP, f);
    }
  }

  lemma {:induction false} UntilStops(c: char, t: string, r: string)
    requires c !in t && r != "" && r[0] == c
    ensures Until(c, t + r) == (t, r)
  {
    if t == "" {
      assert t + r == r;
    } else {
      assert (t + r)[1..] == t[1..] + r;
      UntilStops(c, t[1..], r);
      assert t == [t[0]] + t[1..];
    }
  }

  /** An escaped text ends where the quotation mark or bracket of the following markup stands. */
  lemma ReadEscaped(c: char, text: string, next: string, rest: string)
    requires c in "<\"" && next != "" && next[0] == c
    ensures Until(c, Escape(text) + (next + rest)) == (Escape(text), next + rest)
    ensures Expect(next, next + rest) == Some(rest)
  {
    EscapeIsEscaped(text);
    UntilStops(c, Escape(text), next + rest);
    ExpectPrefix(next, rest);
  }

  predicate Delimits(m: Markup) {
    && m.altOpen != "" && m.altOpen[0] == '"'
    && m.imgClose != "" && m.imgClose[0] == '"'
    && m.captionClose != "" && m.captionClose[0] == '<'
    && |m.captionOpen| > |m.figureClose|
  }

  lemma ParseCaption(m: Markup, f: Figure)
    requires Delimits(m)
    ensures var s5 := CaptionHtml(m, f.caption) + m.figureClose;
            if f.caption.Some? && f.caption.value != "" then
              && StartsWith(s5, m.captionOpen)
              && Until('<', s5[|m.captionOpen|..]) == (Escape(f.caption.value), m.captionClose + m.figureClose)
            else
              !StartsWith(s5, m.captionOpen) && s5 == m.figureClose
  {
    var s5 := CaptionHtml(m, f.caption) + m.figureClose;
    if f.caption.Some? && f.caption.value != "" {
      var inside := Escape(f.caption.value) + (m.captionClose + m.figureClose);
      assert s5 == m.captionOpen + inside;
      ExpectPrefix(m.captionOpen, inside);
      ReadEscaped('<', f.caption.value, m.captionClose, m.figureClose);
    }
  }

  lemma ParsePrintWith(m: Markup, f: Figure)
    requires Delimits(m)
    ensures ParseWith(m, PrintWith(m, f)) == Some(if f.caption == Some("") then f.(caption := None) else f)
  {
    var s5 := CaptionHtml(m, f.caption) + m.figureClose;
    var s3 := Escape(f.altText) + (m.imgClose + s5);
    ExpectPrefix(m.figureOpen, Escape(f.url) + (m.altOpen + s3));
    ReadEscaped('"', f.url, m.altOpen, s3);
    ReadEscaped('"', f.altText, m.imgClose, s5);
    UnescapeEscape(f.url);
    UnescapeEscape(f.altText);
    ParseCaption(m, f);
    if f.caption.Some? {
      UnescapeEscape(f.caption.value);
      ExpectPrefix(m.captionClose, m.figureClose);
    }
  }

  /** Printing loses nothing: the parser recovers the url, the alternative text and any non-empty caption. */
  lemma ParsePrint(f: Figure)
    ensures Parse(Print(f)) == Some(if f.caption == Some("") then f.(caption := None) else f)
  {
    ParsePrintWith(FIGURE_MARKUP, f);
  }
}
