/**
 * `cgi.escape` with its default `quote=None` (quotes left alone): the characters `&`, `<` and `>`
 * become the entities `&amp;`, `&lt;` and `&gt;`; every other character is kept.
 */
module Html {

  /** The replacement text for one character. */
  function EscapeChar(c: char): (r: string)
    ensures c == '&' ==> r == "&amp;"
    ensures c == '<' ==> r == "&lt;"
    ensures c == '>' ==> r == "&gt;"
    ensures c != '&' && c != '<' && c != '>' ==> r == [c]
  {
    if c == '&' then "&amp;"
    else if c == '<' then "&lt;"
    else if c == '>' then "&gt;"
    else [c]
  }

  /** True when `s` holds no character that opens or closes markup. */
  predicate NoAngleBrackets(s: string) {
    forall i :: 0 <= i < |s| ==> s[i] != '<' && s[i] != '>'
  }

  /** The text escaped character by character. */
  function Escape(s: string): (r: string)
    ensures NoAngleBrackets(r)
    ensures |r| >= |s|
    ensures NoAngleBrackets(s) && (forall i :: 0 <= i < |s| ==> s[i] != '&') ==> r == s
  {
    if s == [] then [] else EscapeChar(s[0]) + Escape(s[1..])
  }

  /** Reads the three entities back; any other character stands for itself. */
  function Unescape(s: string): string
  {
    if s == [] then []
    else if |s| >= 5 && s[..5] == "&amp;" then "&" + Unescape(s[5..])
    else if |s| >= 4 && s[..4] == "&lt;" then "<" + Unescape(s[4..])
    else if |s| >= 4 && s[..4] == "&gt;" then ">" + Unescape(s[4..])
    else [s[0]] + Unescape(s[1..])
  }

  /** Unescaping the escape of one character, followed by any text, reads that character back. */
  lemma UnescapeEscapeChar(c: char, t: string)
    ensures Unescape(EscapeChar(c) + t) == [c] + Unescape(t)
  {
    var u := EscapeChar(c) + t;
    if c == '&' {
      assert u[..5] == "&amp;" && u[5..] == t;
    } else if c == '<' || c == '>' {
      assert u[..4] == EscapeChar(c) && u[4..] == t;
      assert u[1] != "&amp;"[1];
    } else {
      assert u[0] == c && u[1..] == t;
      assert u[0] != "&amp;"[0] && u[0] != "&lt;"[0];
    }
  }

  /** Escaping loses nothing: the original text is recovered from the escaped one. */
  lemma {:induction false} UnescapeEscape(s: string)
    ensures Unescape(Escape(s)) == s
  {
    if s != [] {
      UnescapeEscape(s[1..]);
      UnescapeEscapeChar(s[0], Escape(s[1..]));
      assert s == [s[0]] + s[1..];
    }
  }

  const DocumentOpen: string := "<html><body>"
  const DocumentClose: string := "</body></html>"

  /** The plain text escaped and wrapped in a minimal HTML document. */
  function HtmlDocument(text: string): (r: string)
    ensures |r| == |DocumentOpen| + |Escape(text)| + |DocumentClose|
    ensures r[..|DocumentOpen|] == DocumentOpen
    ensures r[|r| - |DocumentClose|..] == DocumentClose
    ensures r[|DocumentOpen|..|r| - |DocumentClose|] == Escape(text)
  {
    DocumentOpen + Escape(text) + DocumentClose
  }

  /**
   * Between its opening and closing tags the document holds no markup, and
   * the plain text is recovered from it exactly.
   */
  lemma HtmlDocumentBody(text: string)
    ensures var d := HtmlDocument(text);
      var inner := d[|DocumentOpen|..|d| - |DocumentClose|];
      NoAngleBrackets(inner) && Unescape(inner) == text
  {
    UnescapeEscape(text);
  }
}
