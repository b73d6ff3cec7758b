/** The receipt formatter: the processed list framed by a centred header and
    footer for a fixed-width receipt printer, and the same list as an HTML
    fragment. The printer width is fixed when the formatter is built and the
    date string comes from the clock, so both are parameters here. */
module ReceiptFormat {
  import opened PyText

  // ---------------------------------------------------------------------------
  // Centring
  // ---------------------------------------------------------------------------

  /** The spaces `str.center` puts on the left of a text that is `marg`
      columns short of `width`: half the margin, plus the odd column when both
      the margin and the width are odd. */
  function LeftMargin(marg: int, width: int): int
  {
    marg / 2 + (if marg % 2 == 1 && width % 2 == 1 then 1 else 0)
  }

  /** `text.center(width)`: a text at least as wide as the receipt is
      returned as it is; a shorter one is padded with spaces on both sides. */
  function Center(text: string, width: int): (r: string)
    ensures |r| == Max(width, |text|)
    ensures width <= |text| ==> r == text
  {
    var marg := width - |text|;
    if marg <= 0 then text
    else
      var left := LeftMargin(marg, width);
      Repeat(' ', left) + text + Repeat(' ', marg - left)
  }

  /** The left padding that `Center` chooses. */
  function PadLeft(text: string, width: int): nat
  {
    var marg := width - |text|;
    if marg <= 0 then 0 else Max(LeftMargin(marg, width), 0)
  }

  /** The centred line holds the text unchanged, surrounded by spaces only;
      the two paddings differ by at most one column, and the left one is the
      larger exactly when both the margin and the width are odd. */
  lemma {:induction false} CenterLayout(text: string, width: int)
    ensures var r := Center(text, width);
      var l := PadLeft(text, width);
      var pr := |r| - |text| - l;
      0 <= pr && l + |text| <= |r|
      && r[l..l + |text|] == text
      && (forall k :: 0 <= k < l ==> r[k] == ' ')
      && (forall k :: l + |text| <= k < |r| ==> r[k] == ' ')
      && -1 <= l - pr <= 1
      && (l > pr <==> (|r| - |text|) % 2 == 1 && width % 2 == 1)
  {
    var marg := width - |text|;
    if marg > 0 {
      var left := LeftMargin(marg, width);
      var a := Repeat(' ', left);
      var b := Repeat(' ', marg - left);
      var r := a + text + b;
      assert Center(text, width) == r;
      assert r[left..left + |text|] == text;
      assert forall k :: 0 <= k < left ==> r[k] == a[k];
      assert forall k :: left + |text| <= k < |r| ==> r[k] == b[k - left - |text|];
    }
  }

  /** A centred line has no line break unless its text has one. */
  lemma CenterKeepsLine(text: string, width: int, c: char)
    requires c != ' ' && c !in text
    ensures c !in Center(text, width)
  {
    CenterLayout(text, width);
    var r := Center(text, width);
    var l := PadLeft(text, width);
    forall k | 0 <= k < |r|
      ensures r[k] != c
    {
      if l <= k < l + |text| {
        assert r[k] == r[l..l + |text|][k - l] == text[k - l];
      }
    }
  }

  // ---------------------------------------------------------------------------
  // The receipt
  // ---------------------------------------------------------------------------

  const Title := "SHOPPING LIST"
  const Farewell := "Happy Shopping!"

  /** The separator line: `"-" * width`. */
  function Rule(width: int): string
  {
    Repeat('-', width)
  }

  /** Title, store and date centred, then a rule. */
  function Header(store: string, date: string, width: int): (r: seq<string>)
    ensures |r| == 4
  {
    [Center(Title, width), Center(store, width), Center(date, width), Rule(width)]
  }

  /** A rule, then the farewell centred. */
  function Footer(width: int): (r: seq<string>)
    ensures |r| == 2
  {
    [Rule(width), Center(Farewell, width)]
  }

  /** format_for_receipt: the header lines, the content as the language model
      returned it, and the footer lines, joined by line breaks. The store is
      the given name, or the default store when none or "" is given. */
  function FormatForReceipt(content: string, storeName: Option<string>, defaultStore: string, date: string, width: int): string
  {
    var store := StrOr(storeName, defaultStore);
    Join("\n", Header(store, date, width)) + "\n" + content + "\n" + Join("\n", Footer(width))
  }

  /** Read back line by line, a receipt is the four header lines, the lines of
      the content untouched, and the two footer lines; both rules are exactly
      `width` dashes. This needs a store name and date without line breaks. */
  lemma {:induction false} ReceiptLines(content: string, storeName: Option<string>, defaultStore: string, date: string, width: int)
    requires '\n' !in StrOr(storeName, defaultStore) && '\n' !in date
    ensures var lines := Split(FormatForReceipt(content, storeName, defaultStore, date, width), '\n');
      var n := |Split(content, '\n')|;
      |lines| == n + 6
      && lines[..4] == Header(StrOr(storeName, defaultStore), date, width)
      && lines[4..4 + n] == Split(content, '\n')
      && lines[4 + n..] == Footer(width)
      && lines[1] == Center(StrOr(storeName, defaultStore), width)
      && lines[3] == lines[4 + n] == Rule(width)
      && |lines[3]| == Max(width, 0)
      && (forall k :: 0 <= k < |lines[3]| ==> lines[3][k] == '-')
  {
    var store := StrOr(storeName, defaultStore);
    var head := Header(store, date, width);
    var foot := Footer(width);
    assert '\n' !in Title && '\n' !in Farewell;
    CenterKeepsLine(Title, width, '\n');
    CenterKeepsLine(store, width, '\n');
    CenterKeepsLine(date, width, '\n');
    CenterKeepsLine(Farewell, width, '\n');
    assert '\n' !in Rule(width);
    SplitFramed(head, content, foot, '\n');
    var lines := head + Split(content, '\n') + foot;
    assert FormatForReceipt(content, storeName, defaultStore, date, width)
      == Join(['\n'], head) + ['\n'] + content + ['\n'] + Join(['\n'], foot);
    var n := |Split(content, '\n')|;
    assert lines[..4] == head;
    assert lines[4..4 + n] == Split(content, '\n');
    assert lines[4 + n..] == foot;
  }

  /** A content without line breaks is the fifth line of the receipt. */
  lemma ReceiptSingleLineContent(content: string, storeName: Option<string>, defaultStore: string, date: string, width: int)
    requires '\n' !in StrOr(storeName, defaultStore) && '\n' !in date && '\n' !in content
    ensures var lines := Split(FormatForReceipt(content, storeName, defaultStore, date, width), '\n');
      |lines| == 7 && lines[4] == content
  {
    var lines := Split(FormatForReceipt(content, storeName, defaultStore, date, width), '\n');
    ReceiptLines(content, storeName, defaultStore, date, width);
    SplitNone(content, '\n');
    assert lines[4..5] == [content];
  }

  // ---------------------------------------------------------------------------
  // The HTML fragment
  // ---------------------------------------------------------------------------

  /** `content.replace("\n", "<br>")`. */
  function HtmlContent(content: string): string
  {
    Replace(content, "\n", "<br>")
  }

  /** The HTML content has no line break left, and each one became the four
      characters of "<br>". */
  lemma HtmlContentFlat(content: string)
    ensures '\n' !in HtmlContent(content)
    ensures |HtmlContent(content)| == |content| + 3 * Count(content, '\n')
  {
    ReplaceOneChar(content, '\n', "<br>");
    ReplaceCharFacts(content, '\n', "<br>");
  }

  /** `n` spaces of indentation. */
  function Indent(n: nat): (r: string)
    ensures '\n' !in r
  {
    Repeat(' ', n)
  }

  /** The template lines down to the opening of the content block. */
  function HtmlHeader(store: string, date: string): (r: seq<string>)
    ensures |r| == 9
  {
    [ "",
      Indent(8) + "<div class=\"receipt\">",
      Indent(12) + "<div class=\"receipt-header\">",
      Indent(16) + "<h2>SHOPPING LIST</h2>",
      Indent(16) + "<h3>" + store + "</h3>",
      Indent(16) + "<p>" + date + "</p>",
      Indent(16) + "<hr>",
      Indent(12) + "</div>",
      Indent(12) + "<div class=\"receipt-content\">" ]
  }

  /** The template lines after the content line. */
  function HtmlFooter(): (r: seq<string>)
    ensures |r| == 7
  {
    [ Indent(12) + "</div>",
      Indent(12) + "<div class=\"receipt-footer\">",
      Indent(16) + "<hr>",
      Indent(16) + "<p>Happy Shopping!</p>",
      Indent(12) + "</div>",
      Indent(8) + "</div>",
      Indent(8) ]
  }

  /** The line that holds the content, indented into the content block. */
  function ContentLine(htmlContent: string): string
  {
    Indent(16) + htmlContent
  }

  /** The lines of the wrapper template, with the store, the date and the
      HTML content put in; the template starts and ends with a line break,
      so its first line is empty and its last holds the closing indent. */
  function HtmlLines(store: string, date: string, htmlContent: string): (r: seq<string>)
    ensures |r| == 17
  {
    HtmlHeader(store, date) + [ContentLine(htmlContent)] + HtmlFooter()
  }

  /** format_for_html: the wrapper template filled in. */
  function FormatForHtml(content: string, storeName: Option<string>, defaultStore: string, date: string): string
  {
    Join("\n", HtmlLines(StrOr(storeName, defaultStore), date, HtmlContent(content)))
  }

  /** However many lines the content has, it ends up whole on one line of the
      fragment: the content line, with every break turned into <br>, stands
      between two line breaks and has none inside. */
  lemma HtmlContentOnOneLine(content: string, storeName: Option<string>, defaultStore: string, date: string)
    ensures IsInfix("\n" + ContentLine(HtmlContent(content)) + "\n", FormatForHtml(content, storeName, defaultStore, date))
    ensures '\n' !in ContentLine(HtmlContent(content))
  {
    HtmlContentFlat(content);
    var lines := HtmlLines(StrOr(storeName, defaultStore), date, HtmlContent(content));
    JoinHasLine(lines, 9, '\n');
    assert lines[9] == ContentLine(HtmlContent(content));
  }
}
