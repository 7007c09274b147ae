/** The doctest output checker: a chain of four comparisons (the doctest
    default, a numeric normalisation, an XML-structural comparison and a
    JSON comparison), with the quote stripping and element comparison the
    last two rely on. */
module OutputChecker {
  import opened Values

  // ---------------------------------------------------------------------
  // str.strip()

  /** The characters Python's `str.strip()` removes: space, tab, newline,
      carriage return, vertical tab and form feed. */
  predicate IsSpace(c: char) {
    c == ' ' || c == '\t' || c == '\n' || c == '\r' || c as int == 11 || c as int == 12
  }

  predicate AllSpace(s: string) {
    forall k :: 0 <= k < |s| ==> IsSpace(s[k])
  }

  function StripLeft(s: string): (r: string)
    ensures |r| <= |s| && r == s[|s| - |r|..]
    ensures AllSpace(s[..|s| - |r|])
    ensures r == [] || !IsSpace(r[0])
  {
    if s != [] && IsSpace(s[0]) then StripLeft(s[1..]) else s
  }

  function StripRight(s: string): (r: string)
    ensures |r| <= |s| && r == s[..|r|]
    ensures AllSpace(s[|r|..])
    ensures r == [] || !IsSpace(r[|r| - 1])
  {
    if s != [] && IsSpace(s[|s| - 1]) then StripRight(s[..|s| - 1]) else s
  }

  /** `s.strip()`: `s` with its leading and trailing whitespace removed. */
  function Strip(s: string): (r: string)
    ensures |r| <= |s|
    ensures r == [] || (!IsSpace(r[0]) && !IsSpace(r[|r| - 1]))
  {
    StripRight(StripLeft(s))
  }

  lemma {:induction false} StripLeftPadded(pad: string, t: string)
    requires AllSpace(pad) && (t == [] || !IsSpace(t[0]))
    ensures StripLeft(pad + t) == t
  {
    if pad != [] {
      assert (pad + t)[1..] == pad[1..] + t;
      StripLeftPadded(pad[1..], t);
    }
  }

  lemma {:induction false} StripRightPadded(t: string, pad: string)
    requires AllSpace(pad) && (t == [] || !IsSpace(t[|t| - 1]))
    ensures StripRight(t + pad) == t
  {
    if pad != [] {
      assert (t + pad)[..|t + pad| - 1] == t + pad[..|pad| - 1];
      StripRightPadded(t, pad[..|pad| - 1]);
    }
  }

  /** Whitespace around a string that neither starts nor ends with
      whitespace is exactly what `strip()` removes. */
  lemma StripPadded(lead: string, t: string, trail: string)
    requires AllSpace(lead) && AllSpace(trail)
    requires t == [] || (!IsSpace(t[0]) && !IsSpace(t[|t| - 1]))
    ensures Strip(lead + t + trail) == t
  {
    assert lead + t + trail == lead + (t + trail);
    if t == [] {
      assert t + trail == trail;
      StripLeftPadded(lead + trail, []);
      assert lead + trail + [] == lead + trail;
      StripRightPadded([], []);
    } else {
      StripLeftPadded(lead, t + trail);
      StripRightPadded(t, trail);
    }
  }

  // ---------------------------------------------------------------------
  // _strip_quotes

  predicate IsQuote(c: char) {
    c == '"' || c == '\''
  }

  function Quote(q: char, s: string): string {
    [q] + s + [q]
  }

  /** `is_quoted_string`: after stripping, at least two characters, the
      same quote character at both ends. */
  predicate IsQuotedString(s: string) {
    var t := Strip(s);
    |t| >= 2 && t[0] == t[|t| - 1] && IsQuote(t[0])
  }

  /** `is_quoted_unicode`: after stripping, at least three characters, a
      leading `u`, then the same quote character at both ends. */
  predicate IsQuotedUnicode(s: string) {
    var t := Strip(s);
    |t| >= 3 && t[0] == 'u' && t[1] == t[|t| - 1] && IsQuote(t[1])
  }

  /** `_strip_quotes`: when both strings are quoted, each loses its quotes
      (and surrounding whitespace); else when both are u-quoted, each loses
      its `u` and quotes; otherwise both are returned as they are. */
  function StripQuotes(want: string, got: string): (string, string) {
    var w := Strip(want);
    var g := Strip(got);
    if IsQuotedString(want) && IsQuotedString(got) then (w[1..|w| - 1], g[1..|g| - 1])
    else if IsQuotedUnicode(want) && IsQuotedUnicode(got) then (w[2..|w| - 1], g[2..|g| - 1])
    else (want, got)
  }

  /** What lies between the quotes of `Quote(q, s)` is `s`. */
  lemma QuoteInner(q: char, s: string)
    ensures var t := Quote(q, s); t[1..|t| - 1] == s
    ensures var t := ['u'] + Quote(q, s); t[2..|t| - 1] == s
  {
    assert Quote(q, s)[1..|s| + 1] == s;
    assert (['u'] + Quote(q, s))[2..|s| + 2] == s;
  }

  /** A padded quoted string is recognised as quoted, and its strip is the
      quoted string itself. */
  lemma PaddedQuoted(lead: string, q: char, s: string, trail: string)
    requires IsQuote(q) && AllSpace(lead) && AllSpace(trail)
    ensures Strip(lead + Quote(q, s) + trail) == Quote(q, s)
    ensures IsQuotedString(lead + Quote(q, s) + trail)
    ensures !IsQuotedUnicode(lead + Quote(q, s) + trail)
  {
    StripPadded(lead, Quote(q, s), trail);
  }

  /** A padded u-quoted string is recognised as u-quoted and not as quoted. */
  lemma PaddedUnicodeQuoted(lead: string, q: char, s: string, trail: string)
    requires IsQuote(q) && AllSpace(lead) && AllSpace(trail)
    ensures Strip(lead + (['u'] + Quote(q, s)) + trail) == ['u'] + Quote(q, s)
    ensures IsQuotedUnicode(lead + (['u'] + Quote(q, s)) + trail)
    ensures !IsQuotedString(lead + (['u'] + Quote(q, s)) + trail)
  {
    StripPadded(lead, ['u'] + Quote(q, s), trail);
  }

  /** Quoting two strings (each with either quote character, with any
      whitespace around) and stripping the quotes gives them back. */
  lemma StripQuotesOfQuoted(lw: string, qw: char, w: string, rw: string,
                            lg: string, qg: char, g: string, rg: string)
    requires IsQuote(qw) && IsQuote(qg)
    requires AllSpace(lw) && AllSpace(rw) && AllSpace(lg) && AllSpace(rg)
    ensures StripQuotes(lw + Quote(qw, w) + rw, lg + Quote(qg, g) + rg) == (w, g)
  {
    PaddedQuoted(lw, qw, w, rw);
    PaddedQuoted(lg, qg, g, rg);
    QuoteInner(qw, w);
    QuoteInner(qg, g);
  }

  /** The same for two u-quoted strings. */
  lemma StripQuotesOfUnicodeQuoted(lw: string, qw: char, w: string, rw: string,
                                   lg: string, qg: char, g: string, rg: string)
    requires IsQuote(qw) && IsQuote(qg)
    requires AllSpace(lw) && AllSpace(rw) && AllSpace(lg) && AllSpace(rg)
    ensures StripQuotes(lw + (['u'] + Quote(qw, w)) + rw, lg + (['u'] + Quote(qg, g)) + rg) == (w, g)
  {
    PaddedUnicodeQuoted(lw, qw, w, rw);
    PaddedUnicodeQuoted(lg, qg, g, rg);
    QuoteInner(qw, w);
    QuoteInner(qg, g);
  }

  /** The third branch: unless both strings are quoted or both are
      u-quoted, `_strip_quotes` gives both back as they are. */
  lemma StripQuotesOtherwise(want: string, got: string)
    requires !(IsQuotedString(want) && IsQuotedString(got))
    requires !(IsQuotedUnicode(want) && IsQuotedUnicode(got))
    ensures StripQuotes(want, got) == (want, got)
  {
  }

  /** No string is both quoted and u-quoted: the first two branches of
      `_strip_quotes` never compete for the same input. */
  lemma QuotedFormsExclusive(s: string)
    ensures !(IsQuotedString(s) && IsQuotedUnicode(s))
  {
  }

  /** A quoted string is compared with a u-quoted one as it stands, in either
      order and with any whitespace around: both strings must have the same
      form for anything to be stripped. */
  lemma StripQuotesMixedForms(lw: string, qw: char, w: string, rw: string,
                              lg: string, qg: char, g: string, rg: string)
    requires IsQuote(qw) && IsQuote(qg)
    requires AllSpace(lw) && AllSpace(rw) && AllSpace(lg) && AllSpace(rg)
    ensures var want, got := lw + Quote(qw, w) + rw, lg + (['u'] + Quote(qg, g)) + rg;
      StripQuotes(want, got) == (want, got) && StripQuotes(got, want) == (got, want)
  {
    PaddedQuoted(lw, qw, w, rw);
    PaddedUnicodeQuoted(lg, qg, g, rg);
    var want, got := lw + Quote(qw, w) + rw, lg + (['u'] + Quote(qg, g)) + rg;
    StripQuotesOtherwise(want, got);
    StripQuotesOtherwise(got, want);
  }

  // ---------------------------------------------------------------------
  // check_output_xml

  /** The characters of the `[ \t\n]` class in `norm_whitespace`. */
  predicate IsBlank(c: char) {
    c == ' ' || c == '\t' || c == '\n'
  }

  /** No two blanks stand side by side. */
  predicate NoBlankPair(s: string)
    decreases |s|
  {
    |s| < 2 || (!(IsBlank(s[0]) && IsBlank(s[1])) && NoBlankPair(s[1..]))
  }

  function DropBlanks(s: string): (r: string)
    ensures |r| <= |s| && r == s[|s| - |r|..]
    ensures r == [] || !IsBlank(r[0])
  {
    if s != [] && IsBlank(s[0]) then DropBlanks(s[1..]) else s
  }

  /** `norm_whitespace`: every run of two or more of space, tab and newline
      becomes one space; a lone blank is kept as it is.  The result never
      holds two blanks side by side. */
  function NormWhitespace(s: string): (r: string)
    ensures |r| <= |s|
    ensures s != [] ==> r != [] && (IsBlank(r[0]) <==> IsBlank(s[0]))
    ensures NoBlankPair(r)
    decreases |s|
  {
    if |s| >= 2 && IsBlank(s[0]) && IsBlank(s[1]) then
      var t := NormWhitespace(DropBlanks(s));
      assert ([' '] + t)[1..] == t;
      [' '] + t
    else if s == [] then []
    else
      var t := NormWhitespace(s[1..]);
      assert ([s[0]] + t)[1..] == t;
      [s[0]] + t
  }

  /** A string without adjacent blanks is already normalised, so
      normalising twice is normalising once. */
  lemma {:induction false} NormWhitespaceFixes(s: string)
    requires NoBlankPair(s)
    ensures NormWhitespace(s) == s
    decreases |s|
  {
    if s != [] {
      NormWhitespaceFixes(s[1..]);
    }
  }

  lemma NormWhitespaceIdempotent(s: string)
    ensures NormWhitespace(NormWhitespace(s)) == NormWhitespace(s)
  {
    NormWhitespaceFixes(NormWhitespace(s));
  }

  /** Dropping the leading blanks of `a + b` stops inside `a` unless `a` is
      all blanks. */
  lemma {:induction false} DropBlanksAppend(a: string, b: string)
    ensures DropBlanks(a) != [] ==> DropBlanks(a + b) == DropBlanks(a) + b
    ensures DropBlanks(a) == [] ==> DropBlanks(a + b) == DropBlanks(b)
    decreases |a|
  {
    if a != [] && IsBlank(a[0]) {
      assert (a + b)[1..] == a[1..] + b;
      DropBlanksAppend(a[1..], b);
    } else if a == [] {
      assert a + b == b;
    }
  }

  /** A string that does not start with a blank has nothing to drop. */
  lemma DropBlanksStops(s: string)
    requires s == [] || !IsBlank(s[0])
    ensures DropBlanks(s) == s
  {
  }

  lemma {:induction false} AllBlanksDropped(s: string)
    requires forall k :: 0 <= k < |s| ==> IsBlank(s[k])
    ensures DropBlanks(s) == []
    decreases |s|
  {
    if s != [] {
      AllBlanksDropped(s[1..]);
    }
  }

  /** `norm_whitespace`, read left to right: a maximal run of two or more
      blanks at the front becomes one space ... */
  lemma NormWhitespaceCollapsesRun(run: string, rest: string)
    requires |run| >= 2 && forall k :: 0 <= k < |run| ==> IsBlank(run[k])
    requires rest == [] || !IsBlank(rest[0])
    ensures NormWhitespace(run + rest) == " " + NormWhitespace(rest)
  {
    AllBlanksDropped(run);
    DropBlanksAppend(run, rest);
    DropBlanksStops(rest);
    assert (run + rest)[0] == run[0] && (run + rest)[1] == run[1];
  }

  /** ... and any other character at the front, a blank standing alone
      included, is kept as it is.  Together the two determine the result on
      every string. */
  lemma NormWhitespaceKeeps(c: char, rest: string)
    requires !IsBlank(c) || rest == [] || !IsBlank(rest[0])
    ensures NormWhitespace([c] + rest) == [c] + NormWhitespace(rest)
  {
    assert ([c] + rest)[1..] == rest;
  }

  /** A DOM element as `check_element` sees it. */
  datatype Element = Element(tagName: string, attributes: map<string, string>, childNodes: seq<Node>)

  /** A child node: an element, a text node, or any other kind (comment,
      CDATA section, processing instruction), which `check_element` ignores. */
  datatype Node = ElementNode(element: Element) | TextNode(data: string) | OtherNode

  /** The data of the text nodes among `nodes`, joined. */
  function TextOf(nodes: seq<Node>): string {
    if nodes == [] then ""
    else (if nodes[0].TextNode? then nodes[0].data else "") + TextOf(nodes[1..])
  }

  /** The element nodes among `nodes`, in order. */
  function ElementsOf(nodes: seq<Node>): (r: seq<Element>)
    ensures |r| <= |nodes|
    ensures forall c :: c in r <==> ElementNode(c) in nodes
  {
    if nodes == [] then []
    else (if nodes[0].ElementNode? then [nodes[0].element] else []) + ElementsOf(nodes[1..])
  }

  /** Both collect node by node: the element nodes of `a + b` are those of
      `a` followed by those of `b`, in order, and likewise the text. */
  lemma {:induction false} ElementsOfAppend(a: seq<Node>, b: seq<Node>)
    ensures ElementsOf(a + b) == ElementsOf(a) + ElementsOf(b)
    decreases |a|
  {
    if a == [] {
      assert a + b == b;
    } else {
      assert (a + b)[0] == a[0] && (a + b)[1..] == a[1..] + b;
      ElementsOfAppend(a[1..], b);
      var h := if a[0].ElementNode? then [a[0].element] else [];
      assert h + (ElementsOf(a[1..]) + ElementsOf(b)) == (h + ElementsOf(a[1..])) + ElementsOf(b);
    }
  }

  lemma {:induction false} TextOfAppend(a: seq<Node>, b: seq<Node>)
    ensures TextOf(a + b) == TextOf(a) + TextOf(b)
    decreases |a|
  {
    if a == [] {
      assert a + b == b;
    } else {
      assert (a + b)[0] == a[0] && (a + b)[1..] == a[1..] + b;
      TextOfAppend(a[1..], b);
      var h := if a[0].TextNode? then a[0].data else "";
      assert h + (TextOf(a[1..]) + TextOf(b)) == (h + TextOf(a[1..])) + TextOf(b);
    }
  }

  /** One node contributes its element, or its text, or nothing. */
  lemma OneNode(n: Node)
    ensures ElementsOf([n]) == (if n.ElementNode? then [n.element] else [])
    ensures TextOf([n]) == (if n.TextNode? then n.data else "")
  {
  }

  function NormChildText(e: Element): string {
    NormWhitespace(TextOf(e.childNodes))
  }

  function Children(e: Element): seq<Element> {
    ElementsOf(e.childNodes)
  }

  /** `check_element`: the same tag, the same normalised child text, the
      same attributes, as many child elements, and the child elements match
      pairwise. */
  function CheckElement(want: Element, got: Element): (r: bool)
    decreases want
  {
    if want.tagName != got.tagName then false
    else if NormChildText(want) != NormChildText(got) then false
    else if want.attributes != got.attributes then false
    else
      var wc := Children(want);
      var gc := Children(got);
      if |wc| != |gc| then false
      else forall i :: 0 <= i < |wc| ==>
        assert ElementNode(wc[i]) in want.childNodes;
        CheckElement(wc[i], gc[i])
  }

  /** Every element matches itself. */
  lemma {:induction false} CheckElementReflexive(e: Element)
    ensures CheckElement(e, e)
    decreases e
  {
    var c := Children(e);
    forall i | 0 <= i < |c|
      ensures CheckElement(c[i], c[i])
    {
      assert ElementNode(c[i]) in e.childNodes;
      CheckElementReflexive(c[i]);
    }
  }

  /** Matching is symmetric. */
  lemma {:induction false} CheckElementSymmetric(a: Element, b: Element)
    requires CheckElement(a, b)
    ensures CheckElement(b, a)
    decreases a
  {
    var ca, cb := Children(a), Children(b);
    forall i | 0 <= i < |cb|
      ensures CheckElement(cb[i], ca[i])
    {
      assert ElementNode(ca[i]) in a.childNodes;
      CheckElementSymmetric(ca[i], cb[i]);
    }
  }

  /** Matching is transitive. */
  lemma {:induction false} CheckElementTransitive(a: Element, b: Element, c: Element)
    requires CheckElement(a, b) && CheckElement(b, c)
    ensures CheckElement(a, c)
    decreases a
  {
    var ca, cb, cc := Children(a), Children(b), Children(c);
    forall i | 0 <= i < |ca|
      ensures CheckElement(ca[i], cc[i])
    {
      assert ElementNode(ca[i]) in a.childNodes;
      CheckElementTransitive(ca[i], cb[i], cc[i]);
    }
  }

  /** An element reduced to what `check_element` looks at: its tag, its
      normalised child text, its attributes and, in order, its child
      elements reduced in the same way. */
  datatype Shape = Shape(tag: string, text: string, attributes: map<string, string>, children: seq<Shape>)

  function ShapeOf(e: Element): Shape
    decreases e
  {
    var cs := Children(e);
    Shape(e.tagName, NormChildText(e), e.attributes,
          seq(|cs|, i requires 0 <= i < |cs| =>
            assert ElementNode(cs[i]) in e.childNodes;
            ShapeOf(cs[i])))
  }

  /** `check_element` accepts exactly when the two elements reduce to the
      same shape: it compares nothing else, and it misses nothing of it. */
  lemma {:induction false} CheckElementIsShapeEquality(want: Element, got: Element)
    ensures CheckElement(want, got) <==> ShapeOf(want) == ShapeOf(got)
    decreases want
  {
    var wc, gc := Children(want), Children(got);
    var ws, gs := ShapeOf(want).children, ShapeOf(got).children;
    if |wc| == |gc| {
      forall i | 0 <= i < |wc|
        ensures CheckElement(wc[i], gc[i]) <==> ws[i] == gs[i]
      {
        assert ElementNode(wc[i]) in want.childNodes;
        CheckElementIsShapeEquality(wc[i], gc[i]);
      }
      assert (forall i :: 0 <= i < |wc| ==> ws[i] == gs[i]) <==> ws == gs;
    } else {
      assert |ws| != |gs|;
    }
  }

  /** No backslash is directly followed by an `n`. */
  predicate NoEscapedNewline(s: string)
    decreases |s|
  {
    |s| < 2 || (!(s[0] == '\\' && s[1] == 'n') && NoEscapedNewline(s[1..]))
  }

  /** `s.replace('\\n', '\n')`: each backslash-n pair becomes a newline,
      scanning left to right. */
  function UnescapeNewlines(s: string): (r: string)
    ensures |r| <= |s|
    ensures s != [] ==> r != [] && (r[0] == 'n' <==> s[0] == 'n')
    ensures NoEscapedNewline(r)
    ensures '\\' !in s ==> r == s
  {
    if |s| >= 2 && s[0] == '\\' && s[1] == 'n' then
      var t := UnescapeNewlines(s[2..]);
      assert (['\n'] + t)[1..] == t;
      ['\n'] + t
    else if s == [] then []
    else
      var t := UnescapeNewlines(s[1..]);
      assert ([s[0]] + t)[1..] == t;
      [s[0]] + t
  }

  /** `replace('\\n', '\n')`, read left to right: a backslash-n pair at the
      front becomes a newline ... */
  lemma UnescapesPair(rest: string)
    ensures UnescapeNewlines("\\n" + rest) == "\n" + UnescapeNewlines(rest)
  {
    assert ("\\n" + rest)[2..] == rest;
  }

  /** ... and any other character at the front, a backslash not followed by
      `n` included, is kept as it is.  Together the two determine the result
      on every string. */
  lemma UnescapeKeeps(c: char, rest: string)
    requires c != '\\' || rest == [] || rest[0] != 'n'
    ensures UnescapeNewlines([c] + rest) == [c] + UnescapeNewlines(rest)
  {
    assert ([c] + rest)[1..] == rest;
  }

  predicate StartsWith(s: string, prefix: string) {
    |prefix| <= |s| && s[..|prefix|] == prefix
  }

  /** The two documents `check_output_xml` parses: the quote-stripped,
      newline-unescaped strings, each wrapped in `<root>...</root>` unless
      `want` starts with an XML declaration. */
  function XmlDocuments(want: string, got: string): (string, string) {
    var stripped := StripQuotes(want, got);
    var w := UnescapeNewlines(stripped.0);
    var g := UnescapeNewlines(stripped.1);
    if !StartsWith(w, "<?xml") then ("<root>" + w + "</root>", "<root>" + g + "</root>")
    else (w, g)
  }

  /** `check_output_xml`; `parse` gives the first child of the parsed
      document, or `None` when parsing fails. */
  function CheckOutputXml(want: string, got: string, parse: string -> Option<Element>): (r: bool)
    ensures r <==> parse(XmlDocuments(want, got).0).Some? && parse(XmlDocuments(want, got).1).Some?
                   && CheckElement(parse(XmlDocuments(want, got).0).value, parse(XmlDocuments(want, got).1).value)
  {
    var docs := XmlDocuments(want, got);
    match (parse(docs.0), parse(docs.1))
    case (Some(w), Some(g)) => CheckElement(w, g)
    case _ => false
  }

  /** `check_output_json`; `loads` decodes a JSON text, or gives `None`, and
      `eq` is Python's `==` on decoded values, which is not reflexive: a
      decoded `NaN` is not equal to itself. */
  function CheckOutputJson<J>(want: string, got: string, loads: string -> Option<J>, eq: (J, J) -> bool): bool {
    var s := StripQuotes(want, got);
    match (loads(s.0), loads(s.1))
    case (Some(w), Some(g)) => eq(w, g)
    case _ => false
  }

  /** The same output compared with itself is accepted by the XML checker
      whenever its document parses. */
  lemma CheckOutputXmlReflexive(s: string, parse: string -> Option<Element>)
    requires parse(XmlDocuments(s, s).0).Some?
    ensures CheckOutputXml(s, s, parse)
  {
    CheckElementReflexive(parse(XmlDocuments(s, s).0).value);
  }

  /** Two quoted strings are compared by the JSON checker on what lies
      between their quotes; a failed decoding of either rejects. */
  lemma CheckOutputJsonOfQuoted<J>(lw: string, qw: char, w: string, rw: string,
                                  lg: string, qg: char, g: string, rg: string,
                                  loads: string -> Option<J>, eq: (J, J) -> bool)
    requires IsQuote(qw) && IsQuote(qg)
    requires AllSpace(lw) && AllSpace(rw) && AllSpace(lg) && AllSpace(rg)
    ensures CheckOutputJson(lw + Quote(qw, w) + rw, lg + Quote(qg, g) + rg, loads, eq) <==>
      loads(w).Some? && loads(g).Some? && eq(loads(w).value, loads(g).value)
  {
    StripQuotesOfQuoted(lw, qw, w, rw, lg, qg, g, rg);
  }

  /** The same output compared with itself is accepted by the JSON checker
      exactly when it decodes to a value equal to itself (so not when it
      decodes to `NaN`). */
  lemma CheckOutputJsonReflexive<J>(s: string, loads: string -> Option<J>, eq: (J, J) -> bool)
    ensures CheckOutputJson(s, s, loads, eq) <==>
      loads(StripQuotes(s, s).0).Some? && eq(loads(StripQuotes(s, s).0).value, loads(StripQuotes(s, s).0).value)
  {
  }

  // ---------------------------------------------------------------------
  // check_output

  /** A comparison of wanted and actual output under option flags. */
  type Checker = (string, string, int) -> bool

  /** The position of the first checker that accepts, trying them in order. */
  function FirstAccepting(checks: seq<Checker>, want: string, got: string, flags: int): (r: Option<nat>)
    ensures r.Some? ==> r.value < |checks| && checks[r.value](want, got, flags)
    ensures r.Some? ==> forall j :: 0 <= j < r.value ==> !checks[j](want, got, flags)
    ensures r.None? ==> forall j :: 0 <= j < |checks| ==> !checks[j](want, got, flags)
  {
    if checks == [] then None
    else if checks[0](want, got, flags) then Some(0)
    else match FirstAccepting(checks[1..], want, got, flags)
      case None => None
      case Some(k) => Some(k + 1)
  }

  /** With four checkers, some checker accepts exactly when one of the four does. */
  lemma FirstAcceptingOfFour(checks: seq<Checker>, want: string, got: string, flags: int)
    requires |checks| == 4
    ensures FirstAccepting(checks, want, got, flags).Some? <==>
      (checks[0](want, got, flags) || checks[1](want, got, flags) ||
       checks[2](want, got, flags) || checks[3](want, got, flags))
  {
  }

  /** The four child checkers, in the order `check_output` tries them. */
  function Checkers<J>(default: Checker, numeric: Checker, parse: string -> Option<Element>,
                       loads: string -> Option<J>, eq: (J, J) -> bool): seq<Checker>
  {
    [default, numeric,
     (w, g, flags) => CheckOutputXml(w, g, parse),
     (w, g, flags) => CheckOutputJson(w, g, loads, eq)]
  }

  /** `check_output`: true as soon as one of the default, numeric, XML and
      JSON checkers accepts, in that order.  `default` and `numeric` stand
      for doctest's own comparison, before and after normalising long
      integers and decimals. */
  function CheckOutput<J>(want: string, got: string, flags: int,
                          default: Checker, numeric: Checker, parse: string -> Option<Element>,
                          loads: string -> Option<J>, eq: (J, J) -> bool): (r: bool)
    ensures r <==> (default(want, got, flags) || numeric(want, got, flags) ||
                    CheckOutputXml(want, got, parse) || CheckOutputJson(want, got, loads, eq))
  {
    var checks := Checkers(default, numeric, parse, loads, eq);
    CheckersAt(want, got, flags, default, numeric, parse, loads, eq);
    FirstAcceptingOfFour(checks, want, got, flags);
    FirstAccepting(checks, want, got, flags).Some?
  }

  lemma CheckersAt<J>(want: string, got: string, flags: int,
                      default: Checker, numeric: Checker, parse: string -> Option<Element>,
                      loads: string -> Option<J>, eq: (J, J) -> bool)
    ensures var checks := Checkers(default, numeric, parse, loads, eq);
      && |checks| == 4
      && checks[0](want, got, flags) == default(want, got, flags)
      && checks[1](want, got, flags) == numeric(want, got, flags)
      && checks[2](want, got, flags) == CheckOutputXml(want, got, parse)
      && checks[3](want, got, flags) == CheckOutputJson(want, got, loads, eq)
  {
  }

  /** Conversely, a checker that accepts when all before it refused is the
      one reported: no later checker is consulted. */
  lemma {:induction false} FirstAcceptingIsFirst(checks: seq<Checker>, want: string, got: string, flags: int, i: nat)
    requires i < |checks| && checks[i](want, got, flags)
    requires forall j :: 0 <= j < i ==> !checks[j](want, got, flags)
    ensures FirstAccepting(checks, want, got, flags) == Some(i)
  {
    if i > 0 {
      FirstAcceptingIsFirst(checks[1..], want, got, flags, i - 1);
    }
  }
}
