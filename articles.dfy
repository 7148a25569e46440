/**
 * `parseArticle` from js/articles.js: the article text is split into
 * lines, each line is trimmed, and one pass picks out the title (the
 * last `# ` line), the cover image (the first image line whose URL is
 * non-empty), the preview (the first plain paragraph) and builds the
 * body HTML from a small markdown subset.
 *
 * The three regular expressions the parser uses are lazy and stop at a
 * line terminator; they are written out below as scanning functions.
 */
module Articles {
  import opened Wrappers
  import opened JsText

  const DefaultTitle: string := "Untitled Article"

  /** How many characters of the preview the card shows before the ellipsis. */
  const PreviewLength: nat := 120

  /** What the parser extracts from one article. */
  datatype Article = Article(title: string, image: string, preview: string, html: string)

  /** The two groups of a match of `!\[(.*?)\]\((.*?)\)`. */
  datatype ImageRef = ImageRef(alt: string, url: string)

  /** Where the `](` of a `(.*?)\]\((.*?)\)` tail starts and where its closing `)` is. */
  datatype Span = Span(mid: nat, close: nat)

  // ---------------------------------------------------------------- lines

  /** `text.split('\n')`: always at least one line, none holding a newline. */
  function SplitLines(s: string): (lines: seq<string>)
    ensures |lines| >= 1
    ensures forall i :: 0 <= i < |lines| ==> '\n' !in lines[i]
  {
    if s == [] then [[]]
    else
      var rest := SplitLines(s[1..]);
      if s[0] == '\n' then [[]] + rest
      else [[s[0]] + rest[0]] + rest[1..]
  }

  /** `lines.join('\n')`, the inverse of `SplitLines`. */
  function JoinLines(lines: seq<string>): string
    requires |lines| >= 1
  {
    if |lines| == 1 then lines[0] else lines[0] + "\n" + JoinLines(lines[1..])
  }

  /** Joining the split lines gives back the text. */
  lemma {:induction false} JoinSplitLines(s: string)
    ensures JoinLines(SplitLines(s)) == s
  {
    if s != [] {
      JoinSplitLines(s[1..]);
      var rest := SplitLines(s[1..]);
      var lines := SplitLines(s);
      if s[0] == '\n' {
        assert lines[1..] == rest;
      } else if |rest| == 1 {
        assert lines == [[s[0]] + rest[0]];
      } else {
        assert lines[1..] == rest[1..];
        assert JoinLines(rest) == rest[0] + "\n" + JoinLines(rest[1..]);
      }
    }
  }

  /** A line without a newline, followed by a newline, splits off as one line. */
  lemma {:induction false} SplitLinesCons(a: string, b: string)
    requires '\n' !in a
    ensures SplitLines(a + "\n" + b) == [a] + SplitLines(b)
  {
    if a != [] {
      assert (a + "\n" + b)[1..] == a[1..] + "\n" + b;
      SplitLinesCons(a[1..], b);
      assert [a[0]] + a[1..] == a;
      assert ([a[1..]] + SplitLines(b))[1..] == SplitLines(b);
    } else {
      assert (a + "\n" + b)[1..] == b;
    }
  }

  /** A text without a newline is one line. */
  lemma {:induction false} SplitLinesSingle(a: string)
    requires '\n' !in a
    ensures SplitLines(a) == [a]
  {
    if a != [] {
      SplitLinesSingle(a[1..]);
      assert [a[0]] + a[1..] == a;
    }
  }

  /** Splitting joined newline-free lines gives back the lines. */
  lemma {:induction false} SplitJoinLines(lines: seq<string>)
    requires |lines| >= 1
    requires forall i :: 0 <= i < |lines| ==> '\n' !in lines[i]
    ensures SplitLines(JoinLines(lines)) == lines
  {
    if |lines| == 1 {
      SplitLinesSingle(lines[0]);
    } else {
      SplitJoinLines(lines[1..]);
      SplitLinesCons(lines[0], JoinLines(lines[1..]));
    }
  }

  // ---------------------------------------------------- regular expressions

  /**
   * A lazy `(.*?)` followed by the character `close`, tried at `from`:
   * the first `close` at or after `from`, provided no line terminator
   * comes before it.
   */
  function ScanTo(s: string, from: nat, close: char): (k: Option<nat>)
    requires from <= |s|
    requires !IsLineTerminator(close)
    ensures k.Some? ==> from <= k.value < |s| && s[k.value] == close
    ensures k.Some? ==> forall i :: from <= i < k.value ==> s[i] != close && !IsLineTerminator(s[i])
    decreases |s| - from
  {
    if from == |s| then None
    else if s[from] == close then Some(from)
    else if IsLineTerminator(s[from]) then None
    else ScanTo(s, from + 1, close)
  }

  /** Conversely, `ScanTo` finds the first `close` on the line. */
  lemma {:induction false} ScanToFinds(s: string, from: nat, close: char, k: nat)
    requires !IsLineTerminator(close)
    requires from <= k < |s| && s[k] == close
    requires forall i :: from <= i < k ==> s[i] != close && !IsLineTerminator(s[i])
    ensures ScanTo(s, from, close) == Some(k)
    decreases k - from
  {
    if from < k {
      ScanToFinds(s, from + 1, close, k);
    }
  }

  /**
   * The tail `(.*?)\]\((.*?)\)` tried at `from`: the first group is grown
   * one character at a time until `](` and a lazily matched second group
   * closed by `)` follow, and the match fails at a line terminator.
   */
  function LinkTail(s: string, from: nat): (t: Option<Span>)
    requires from <= |s|
    ensures t.Some? ==> from <= t.value.mid && t.value.mid + 2 <= t.value.close < |s|
    ensures t.Some? ==> s[t.value.mid] == ']' && s[t.value.mid + 1] == '(' && s[t.value.close] == ')'
    ensures t.Some? ==> forall i :: from <= i < t.value.close ==> !IsLineTerminator(s[i])
    ensures t.Some? ==> forall i :: t.value.mid + 2 <= i < t.value.close ==> s[i] != ')'
    decreases |s| - from
  {
    if from + 1 < |s| && s[from] == ']' && s[from + 1] == '(' && ScanTo(s, from + 2, ')').Some? then
      Some(Span(from, ScanTo(s, from + 2, ')').value))
    else if from == |s| || IsLineTerminator(s[from]) then None
    else LinkTail(s, from + 1)
  }

  /** Conversely, a first group free of `]` is matched up to the first `](`. */
  lemma {:induction false} LinkTailFinds(s: string, from: nat, mid: nat, close: nat)
    requires from <= mid && mid + 1 < |s| && s[mid] == ']' && s[mid + 1] == '('
    requires forall i :: from <= i < mid ==> s[i] != ']' && !IsLineTerminator(s[i])
    requires ScanTo(s, mid + 2, ')') == Some(close)
    ensures LinkTail(s, from) == Some(Span(mid, close))
    decreases mid - from
  {
    if from < mid {
      LinkTailFinds(s, from + 1, mid, close);
    }
  }

  /** At `i` stands a `](` whose target is closed by a `)` on the same line. */
  predicate ClosesLinkAt(s: string, i: nat)
  {
    i + 1 < |s| && s[i] == ']' && s[i + 1] == '(' && ScanTo(s, i + 2, ')').Some?
  }

  /**
   * The general form: the lazy first group runs over any `]` that does not
   * start a closed `](…)`, up to the first one that does.
   */
  lemma {:induction false} LinkTailFindsFirst(s: string, from: nat, mid: nat)
    requires from <= mid && ClosesLinkAt(s, mid)
    requires forall i :: from <= i < mid ==> !ClosesLinkAt(s, i) && !IsLineTerminator(s[i])
    ensures LinkTail(s, from) == Some(Span(mid, ScanTo(s, mid + 2, ')').value))
    decreases mid - from
  {
    if from < mid {
      assert !ClosesLinkAt(s, from);
      LinkTailFindsFirst(s, from + 1, mid);
    }
  }

  /** A label holding a `]` not followed by `(` stays whole: `[a]b](c)` links `c` with the label `a]b`. */
  lemma LinkLabelSpansBracket()
    ensures ReplaceLinks("[a]b](c)") == LinkHtml("a]b", "c")
  {
    var s := "[a]b](c)";
    ScanToFinds(s, 6, ')', 7);
    assert !ClosesLinkAt(s, 2);
    LinkTailFindsFirst(s, 1, 4);
    assert s[1..4] == "a]b" && s[6..7] == "c";
    assert ReplaceLinksFrom(s, 8) == [];
  }

  /** The leftmost match of `/\!\[(.*?)\]\((.*?)\)/` at or after `from`. */
  function ImageMatchFrom(s: string, from: nat): (m: Option<ImageRef>)
    requires from <= |s|
    ensures m.Some? ==> |m.value.url| + |m.value.alt| + 5 <= |s| - from
    decreases |s| - from
  {
    if from + 2 > |s| then None
    else if s[from] == '!' && s[from + 1] == '[' && LinkTail(s, from + 2).Some? then
      var t := LinkTail(s, from + 2).value;
      Some(ImageRef(s[from + 2..t.mid], s[t.mid + 2..t.close]))
    else ImageMatchFrom(s, from + 1)
  }

  /** `s.match(/\!\[(.*?)\]\((.*?)\)/)`. */
  function ImageMatch(s: string): Option<ImageRef>
  {
    ImageMatchFrom(s, 0)
  }

  /** A match of the image pattern holds both `![` and `](`. */
  lemma {:induction false} ImageMatchOccurs(s: string, from: nat)
    requires from <= |s|
    requires ImageMatchFrom(s, from).Some?
    ensures exists k :: OccursAt(s, "![", k)
    ensures exists k :: OccursAt(s, "](", k)
    decreases |s| - from
  {
    if s[from] == '!' && s[from + 1] == '[' && LinkTail(s, from + 2).Some? {
      var t := LinkTail(s, from + 2).value;
      assert OccursAt(s, "![", from);
      assert OccursAt(s, "](", t.mid);
    } else {
      ImageMatchOccurs(s, from + 1);
    }
  }

  /** So a line the image pattern matches passes the `includes('](')` test. */
  lemma ImageMatchContains(s: string)
    ensures ImageMatch(s).Some? ==> Contains(s, "![") && Contains(s, "](")
  {
    if ImageMatch(s).Some? {
      ImageMatchOccurs(s, 0);
      ContainsIff(s, "![");
      ContainsIff(s, "](");
    }
  }

  /** The image markdown `![alt](url)` is matched with exactly its alt text and URL. */
  lemma ImageMatchRoundTrip(alt: string, url: string)
    requires forall i :: 0 <= i < |alt| ==> alt[i] != ']' && !IsLineTerminator(alt[i])
    requires forall i :: 0 <= i < |url| ==> url[i] != ')' && !IsLineTerminator(url[i])
    ensures ImageMatch("![" + alt + "](" + url + ")") == Some(ImageRef(alt, url))
  {
    var s := "![" + alt + "](" + url + ")";
    var mid := 2 + |alt|;
    ScanToFinds(s, mid + 2, ')', |s| - 1);
    LinkTailFinds(s, 2, mid, |s| - 1);
    assert s[2..mid] == alt;
    assert s[mid + 2..|s| - 1] == url;
  }

  /** `s.replace(/\*(.*?)\*\/g, '<strong>$1</strong>')` on the part of `s` from `from`. */
  function ReplaceBoldFrom(s: string, from: nat): (r: string)
    requires from <= |s|
    ensures |r| >= |s| - from
    decreases |s| - from
  {
    if from == |s| then []
    else if s[from] == '*' && ScanTo(s, from + 1, '*').Some? then
      var k := ScanTo(s, from + 1, '*').value;
      "<strong>" + s[from + 1..k] + "</strong>" + ReplaceBoldFrom(s, k + 1)
    else [s[from]] + ReplaceBoldFrom(s, from + 1)
  }

  /** Bold markup replaced throughout the line; replacing only ever adds characters. */
  function ReplaceBold(s: string): (r: string)
    ensures |r| >= |s|
  {
    ReplaceBoldFrom(s, 0)
  }

  /** A text without `*` is left as it is. */
  lemma {:induction false} ReplaceBoldNoStar(s: string, from: nat)
    requires from <= |s|
    requires forall i :: from <= i < |s| ==> s[i] != '*'
    ensures ReplaceBoldFrom(s, from) == s[from..]
    decreases |s| - from
  {
    if from < |s| {
      ReplaceBoldNoStar(s, from + 1);
    }
  }

  /** `*x*` becomes `<strong>x</strong>` when `x` holds no `*` and no line break. */
  lemma ReplaceBoldRoundTrip(x: string)
    requires forall i :: 0 <= i < |x| ==> x[i] != '*' && !IsLineTerminator(x[i])
    ensures ReplaceBold("*" + x + "*") == "<strong>" + x + "</strong>"
  {
    var s := "*" + x + "*";
    ScanToFinds(s, 1, '*', |s| - 1);
    assert s[0] == '*';
    assert s[1..|s| - 1] == x;
    assert ReplaceBoldFrom(s, |s|) == [];
  }

  /** `s.replace(/\[(.*?)\]\((.*?)\)/g, '<a href="$2" target="_blank">$1</a>')` from `from`. */
  function ReplaceLinksFrom(s: string, from: nat): (r: string)
    requires from <= |s|
    ensures |r| >= |s| - from
    decreases |s| - from
  {
    if from == |s| then []
    else if s[from] == '[' && LinkTail(s, from + 1).Some? then
      var t := LinkTail(s, from + 1).value;
      LinkHtml(s[from + 1..t.mid], s[t.mid + 2..t.close]) + ReplaceLinksFrom(s, t.close + 1)
    else [s[from]] + ReplaceLinksFrom(s, from + 1)
  }

  /** The anchor a link becomes. */
  function LinkHtml(text: string, href: string): (html: string)
    ensures |html| == |text| + |href| + 31
    ensures html[..9] == "<a href=\"" && html[9..9 + |href|] == href
    ensures html[9 + |href|..27 + |href|] == "\" target=\"_blank\">"
    ensures html[27 + |href|..|html| - 4] == text && html[|html| - 4..] == "</a>"
  {
    "<a href=\"" + href + "\" target=\"_blank\">" + text + "</a>"
  }

  /** Link markup replaced throughout the line; replacing only ever adds characters. */
  function ReplaceLinks(s: string): (r: string)
    ensures |r| >= |s|
  {
    ReplaceLinksFrom(s, 0)
  }

  /** A text without `[` is left as it is. */
  lemma {:induction false} ReplaceLinksNoBracket(s: string, from: nat)
    requires from <= |s|
    requires forall i :: from <= i < |s| ==> s[i] != '['
    ensures ReplaceLinksFrom(s, from) == s[from..]
    decreases |s| - from
  {
    if from < |s| {
      ReplaceLinksNoBracket(s, from + 1);
    }
  }

  /** `[t](u)` becomes an anchor to `u` showing `t`. */
  lemma ReplaceLinksRoundTrip(text: string, href: string)
    requires forall i :: 0 <= i < |text| ==> text[i] != ']' && !IsLineTerminator(text[i])
    requires forall i :: 0 <= i < |href| ==> href[i] != ')' && !IsLineTerminator(href[i])
    ensures ReplaceLinks("[" + text + "](" + href + ")") == LinkHtml(text, href)
  {
    var s := "[" + text + "](" + href + ")";
    var mid := 1 + |text|;
    ScanToFinds(s, mid + 2, ')', |s| - 1);
    LinkTailFinds(s, 1, mid, |s| - 1);
    assert s[0] == '[';
    assert s[1..mid] == text;
    assert s[mid + 2..|s| - 1] == href;
    assert ReplaceLinksFrom(s, |s|) == [];
  }

  // ------------------------------------------------------- line by line

  /** The `<img>` element an image line becomes. */
  function ImageHtml(m: ImageRef): string
  {
    "<img src=\"" + m.url + "\" alt=\"" + m.alt + "\" class=\"article-img\">"
  }

  /** A trimmed line the preview may come from: non-empty, not a heading, not an image. */
  predicate IsParagraph(t: string)
  {
    |t| > 0 && !StartsWith(t, "#") && !StartsWith(t, "!")
  }

  /** The image URL a trimmed line offers while no image has been found yet. */
  function ImageUrlOf(t: string): (url: string)
    ensures url != [] ==> StartsWith(t, "![") && ImageMatch(t).Some? && url == ImageMatch(t).value.url
  {
    if StartsWith(t, "![") && Contains(t, "](") && ImageMatch(t).Some? then ImageMatch(t).value.url
    else ""
  }

  /** The body HTML one trimmed line contributes. */
  function LineHtml(t: string): (html: string)
    ensures t == [] ==> html == []
    ensures html == [] || (html[0] == '<' && html[|html| - 1] == '>')
  {
    if StartsWith(t, "## ") then "<h3>" + t[3..] + "</h3>"
    else if StartsWith(t, "![") then
      (if ImageMatch(t).Some? then ImageHtml(ImageMatch(t).value) else "")
    else if |t| > 0 && !StartsWith(t, "#") then "<p>" + ReplaceLinks(ReplaceBold(t)) + "</p>"
    else ""
  }

  /** Only a line with a matching image pattern offers a URL, and it is the match's URL. */
  lemma ImageUrlOfMatch(t: string)
    ensures ImageUrlOf(t) != [] ==> StartsWith(t, "![") && ImageMatch(t).Some? && ImageUrlOf(t) == ImageMatch(t).value.url
    ensures StartsWith(t, "![") && ImageMatch(t).Some? ==> ImageUrlOf(t) == ImageMatch(t).value.url
  {
    ImageMatchContains(t);
  }

  /** What each kind of line contributes to the body. */
  lemma LineHtmlCases(t: string)
    ensures t == [] ==> LineHtml(t) == []
    ensures StartsWith(t, "# ") ==> LineHtml(t) == []
    ensures StartsWith(t, "## ") ==> LineHtml(t) == "<h3>" + t[3..] + "</h3>"
    ensures StartsWith(t, "![") && ImageMatch(t).None? ==> LineHtml(t) == []
    ensures StartsWith(t, "![") && ImageMatch(t).Some? ==> LineHtml(t) == ImageHtml(ImageMatch(t).value)
    ensures IsParagraph(t) ==> LineHtml(t) == "<p>" + ReplaceLinks(ReplaceBold(t)) + "</p>"
  {
    assert StartsWith(t, "## ") ==> t[..3][1] == '#';
    assert StartsWith(t, "# ") ==> t[..2][1] == ' ';
  }

  // --------------------------------------------- what the pass computes

  /** The title: the remainder of the last `# ` line, or the default. */
  function LastTitle(lines: seq<string>): string
  {
    if lines == [] then DefaultTitle
    else
      var t := Trim(lines[|lines| - 1]);
      if StartsWith(t, "# ") then t[2..] else LastTitle(lines[..|lines| - 1])
  }

  /** The image URL one untrimmed line offers. */
  function ImageOffer(line: string): string
  {
    ImageUrlOf(Trim(line))
  }

  /** The first non-empty value `offer` gives on the lines, in order, or empty. */
  function FirstOffered(lines: seq<string>, offer: string -> string): string
  {
    if lines == [] then ""
    else if offer(lines[0]) != "" then offer(lines[0])
    else FirstOffered(lines[1..], offer)
  }

  /** The cover image: the first non-empty URL an image line offers, or empty. */
  function FirstImage(lines: seq<string>): string
  {
    FirstOffered(lines, ImageOffer)
  }

  /** The preview: the first paragraph line, or empty. */
  function FirstPreview(lines: seq<string>): string
  {
    if lines == [] then ""
    else if IsParagraph(Trim(lines[0])) then Trim(lines[0])
    else FirstPreview(lines[1..])
  }

  /** The body HTML one untrimmed line contributes. */
  function LineOffer(line: string): string
  {
    LineHtml(Trim(line))
  }

  /** What `render` gives on each line, concatenated in order. */
  function Rendered(lines: seq<string>, render: string -> string): string
  {
    if lines == [] then "" else render(lines[0]) + Rendered(lines[1..], render)
  }

  /** The body HTML: each line's contribution, in order. */
  function BodyHtml(lines: seq<string>): string
  {
    Rendered(lines, LineOffer)
  }

  /** The title comes from the last `# ` line: later lines without one leave it alone. */
  lemma {:induction false} LastTitleWins(lines: seq<string>, k: nat)
    requires k < |lines| && StartsWith(Trim(lines[k]), "# ")
    requires forall j :: k < j < |lines| ==> !StartsWith(Trim(lines[j]), "# ")
    ensures LastTitle(lines) == Trim(lines[k])[2..]
  {
    if k < |lines| - 1 {
      assert lines[..|lines| - 1][k] == lines[k];
      LastTitleWins(lines[..|lines| - 1], k);
    }
  }

  /** Without any `# ` line the title is the default. */
  lemma {:induction false} NoTitleLineKeepsDefault(lines: seq<string>)
    requires forall j :: 0 <= j < |lines| ==> !StartsWith(Trim(lines[j]), "# ")
    ensures LastTitle(lines) == DefaultTitle
  {
    if lines != [] {
      NoTitleLineKeepsDefault(lines[..|lines| - 1]);
    }
  }

  /** A value found in the first part wins; otherwise the rest decides. */
  lemma {:induction false} FirstOfferedAppend(a: seq<string>, b: seq<string>, offer: string -> string)
    ensures FirstOffered(a + b, offer) ==
      if FirstOffered(a, offer) != "" then FirstOffered(a, offer) else FirstOffered(b, offer)
  {
    if a != [] {
      assert (a + b)[0] == a[0];
      assert (a + b)[1..] == a[1..] + b;
      FirstOfferedAppend(a[1..], b, offer);
    } else {
      assert a + b == b;
    }
  }

  /** The value found is the one of the first line that offers a non-empty one. */
  lemma {:induction false} FirstOfferedAt(lines: seq<string>, k: nat, offer: string -> string)
    requires k < |lines| && offer(lines[k]) != ""
    requires forall j :: 0 <= j < k ==> offer(lines[j]) == ""
    ensures FirstOffered(lines, offer) == offer(lines[k])
  {
    if k > 0 {
      assert lines[1..][k - 1] == lines[k];
      assert offer(lines[0]) == "";
      FirstOfferedAt(lines[1..], k - 1, offer);
    }
  }

  /** Once found, the image is kept whatever follows; otherwise the later lines decide. */
  lemma FirstImageAppend(a: seq<string>, b: seq<string>)
    ensures FirstImage(a + b) == if FirstImage(a) != "" then FirstImage(a) else FirstImage(b)
  {
    FirstOfferedAppend(a, b, ImageOffer);
  }

  /** Once found, the preview is kept whatever follows; otherwise the later lines decide. */
  lemma {:induction false} FirstPreviewAppend(a: seq<string>, b: seq<string>)
    ensures FirstPreview(a + b) == if FirstPreview(a) != "" then FirstPreview(a) else FirstPreview(b)
  {
    if a != [] {
      assert (a + b)[0] == a[0];
      assert (a + b)[1..] == a[1..] + b;
      FirstPreviewAppend(a[1..], b);
    } else {
      assert a + b == b;
    }
  }

  /** The preview is the first paragraph line and never a heading or an image line. */
  lemma {:induction false} PreviewIsFirstParagraph(lines: seq<string>, k: nat)
    requires k < |lines| && IsParagraph(Trim(lines[k]))
    requires forall j :: 0 <= j < k ==> !IsParagraph(Trim(lines[j]))
    ensures FirstPreview(lines) == Trim(lines[k])
    ensures IsParagraph(FirstPreview(lines))
  {
    if k > 0 {
      assert lines[1..][k - 1] == lines[k];
      PreviewIsFirstParagraph(lines[1..], k - 1);
    }
  }

  /** The image is the URL of the first line that offers a non-empty one. */
  lemma ImageIsFirstUrl(lines: seq<string>, k: nat)
    requires k < |lines| && ImageUrlOf(Trim(lines[k])) != ""
    requires forall j :: 0 <= j < k ==> ImageUrlOf(Trim(lines[j])) == ""
    ensures FirstImage(lines) == ImageUrlOf(Trim(lines[k]))
  {
    forall j | 0 <= j < k
      ensures ImageOffer(lines[j]) == ""
    {
    }
    FirstOfferedAt(lines, k, ImageOffer);
  }

  /** Rendering two parts renders the first, then the second. */
  lemma {:induction false} RenderedAppend(a: seq<string>, b: seq<string>, render: string -> string)
    ensures Rendered(a + b, render) == Rendered(a, render) + Rendered(b, render)
  {
    if a != [] {
      assert (a + b)[0] == a[0];
      assert (a + b)[1..] == a[1..] + b;
      RenderedAppend(a[1..], b, render);
    } else {
      assert a + b == b;
    }
  }

  /** The body of a text is the body of its first part followed by the body of the rest. */
  lemma BodyHtmlAppend(a: seq<string>, b: seq<string>)
    ensures BodyHtml(a + b) == BodyHtml(a) + BodyHtml(b)
  {
    RenderedAppend(a, b, LineOffer);
  }

  /**
   * The `forEach` callback: one trimmed line updates the title, image and
   * preview by the parser's if/else chain and appends its body HTML.
   */
  method ScanLine(trimmed: string, title: string, image: string, preview: string, contentHtml: string)
    returns (title': string, image': string, preview': string, contentHtml': string)
    ensures title' == if StartsWith(trimmed, "# ") then trimmed[2..] else title
    ensures image' == if image != "" then image else ImageUrlOf(trimmed)
    ensures preview' == if preview == "" && IsParagraph(trimmed) then trimmed else preview
    ensures contentHtml' == contentHtml + LineHtml(trimmed)
  {
    title', image', preview' := title, image, preview;
    if StartsWith(trimmed, "# ") {
      title' := trimmed[2..];
      assert trimmed[..2][0] == '#' && trimmed[..1] == "#";
    } else if StartsWith(trimmed, "![") && Contains(trimmed, "](") && image == "" {
      var m := ImageMatch(trimmed);
      if m.Some? {
        image' := m.value.url;
      }
    } else if |trimmed| > 0 && !StartsWith(trimmed, "#") && !StartsWith(trimmed, "!") && preview == "" {
      preview' := trimmed;
    }
    if StartsWith(trimmed, "![") {
      assert trimmed[..2][0] == '!' && trimmed[..1] == "!";
    }
    assert image' == if image != "" then image else ImageUrlOf(trimmed);
    assert preview' == if preview == "" && IsParagraph(trimmed) then trimmed else preview;

    var processedLine := ReplaceLinks(ReplaceBold(trimmed));
    contentHtml' := contentHtml;
    if StartsWith(trimmed, "## ") {
      contentHtml' := contentHtml + "<h3>" + trimmed[3..] + "</h3>";
    } else if StartsWith(trimmed, "![") {
      var m := ImageMatch(trimmed);
      if m.Some? {
        contentHtml' := contentHtml + ImageHtml(m.value);
      }
    } else if |trimmed| > 0 && !StartsWith(trimmed, "#") {
      contentHtml' := contentHtml + "<p>" + processedLine + "</p>";
    }
  }

  /** `parseArticle`'s pass over the lines, keeping the four accumulators. */
  method ParseArticle(text: string) returns (a: Article)
    ensures var lines := SplitLines(text);
      a == Article(LastTitle(lines), FirstImage(lines), FirstPreview(lines), BodyHtml(lines))
  {
    var lines := SplitLines(text);
    var title := DefaultTitle;
    var preview := "";
    var image := "";
    var contentHtml := "";
    var i := 0;
    while i < |lines|
      invariant 0 <= i <= |lines|
      invariant title == LastTitle(lines[..i])
      invariant image == FirstImage(lines[..i])
      invariant preview == FirstPreview(lines[..i])
      invariant contentHtml == BodyHtml(lines[..i])
    {
      var t, im, p, h := ScanLine(Trim(lines[i]), title, image, preview, contentHtml);
      ScanLineExtendsPrefix(lines, i, title, image, preview, contentHtml, t, im, p, h);
      title, image, preview, contentHtml := t, im, p, h;
      i := i + 1;
    }
    assert lines[..i] == lines;
    a := Article(title, image, preview, contentHtml);
  }

  /**
   * One pass of the callback over line `i` turns the accumulators for the
   * first `i` lines into those for the first `i + 1`.
   */
  lemma ScanLineExtendsPrefix(lines: seq<string>, i: nat,
                              title: string, image: string, preview: string, html: string,
                              title': string, image': string, preview': string, html': string)
    requires i < |lines|
    requires title == LastTitle(lines[..i]) && image == FirstImage(lines[..i])
    requires preview == FirstPreview(lines[..i]) && html == BodyHtml(lines[..i])
    requires var t := Trim(lines[i]);
      && title' == (if StartsWith(t, "# ") then t[2..] else title)
      && image' == (if image != "" then image else ImageUrlOf(t))
      && preview' == (if preview == "" && IsParagraph(t) then t else preview)
      && html' == html + LineHtml(t)
    ensures title' == LastTitle(lines[..i + 1]) && image' == FirstImage(lines[..i + 1])
    ensures preview' == FirstPreview(lines[..i + 1]) && html' == BodyHtml(lines[..i + 1])
  {
    PrefixGrows(lines, i);
    LastTitleStep(lines[..i], lines[i]);
    FirstImageStep(lines[..i], lines[i]);
    FirstPreviewStep(lines[..i], lines[i]);
    BodyHtmlStep(lines[..i], lines[i]);
  }

  /** Appending a line keeps a found image, or takes the URL the line offers. */
  lemma FirstImageStep(done: seq<string>, line: string)
    ensures FirstImage(done + [line]) ==
      (if FirstImage(done) != "" then FirstImage(done) else ImageUrlOf(Trim(line)))
  {
    FirstOfferedStep(done, line, ImageOffer);
  }

  /** Appending a line keeps a found value, or takes the one the line offers. */
  lemma FirstOfferedStep(done: seq<string>, line: string, offer: string -> string)
    ensures FirstOffered(done + [line], offer) ==
      (if FirstOffered(done, offer) != "" then FirstOffered(done, offer) else offer(line))
  {
    FirstOfferedAppend(done, [line], offer);
    assert [line][1..] == [];
  }

  /** Appending a line keeps a found preview, or takes the line if it is a paragraph. */
  lemma FirstPreviewStep(done: seq<string>, line: string)
    ensures FirstPreview(done + [line]) ==
      (if FirstPreview(done) == "" && IsParagraph(Trim(line)) then Trim(line) else FirstPreview(done))
  {
    FirstPreviewAppend(done, [line]);
  }

  /** Appending a line appends its HTML. */
  lemma BodyHtmlStep(done: seq<string>, line: string)
    ensures BodyHtml(done + [line]) == BodyHtml(done) + LineHtml(Trim(line))
  {
    RenderedStep(done, line, LineOffer);
  }

  /** Rendering one more line appends what that line renders to. */
  lemma RenderedStep(done: seq<string>, line: string, render: string -> string)
    ensures Rendered(done + [line], render) == Rendered(done, render) + render(line)
  {
    RenderedAppend(done, [line], render);
    assert [line][1..] == [];
  }

  /** The first `i + 1` lines are the first `i` lines and line `i`. */
  lemma PrefixGrows(lines: seq<string>, i: nat)
    requires i < |lines|
    ensures lines[..i + 1] == lines[..i] + [lines[i]]
  {
  }

  /** Appending a line changes the title only if it is a `# ` line. */
  lemma LastTitleStep(done: seq<string>, line: string)
    ensures var t := Trim(line);
      LastTitle(done + [line]) == (if StartsWith(t, "# ") then t[2..] else LastTitle(done))
  {
    var all := done + [line];
    assert all[..|all| - 1] == done;
  }

  /** The preview text on the card: at most its first 120 characters, then an ellipsis. */
  function CardPreview(preview: string): (shown: string)
    ensures |shown| == (if |preview| < PreviewLength then |preview| else PreviewLength) + 3
    ensures shown[..|shown| - 3] <= preview
    ensures shown[|shown| - 3..] == "..."
  {
    (if |preview| < PreviewLength then preview else preview[..PreviewLength]) + "..."
  }
}
