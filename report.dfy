/**
  The HTML report: format_data_as_html renders an ordered list of
  (section title, query result) pairs into one document. RenderReport is the
  document as a function of its inputs; FormatDataAsHtml builds it the way
  the source does, by appending to a string in a loop, and is proved to
  produce exactly RenderReport.

  The UTC timestamp, json.dumps(indent=2) and str() of non-string JSON values
  are inputs: `timestamp`, `dumps` and `show`.
 */
module Report {
  import opened Values
  import opened Client

  /** One (title, result) pair of the report's dict, in insertion order. */
  type Entry = (string, QueryResult)

  const StyleBlock :=
    "<html><head><style>"
    + "body {font-family: sans-serif; margin: 20px;} "
    + "h1 {color: #333;} h2 {color: #555; border-bottom: 1px solid #eee; padding-bottom: 5px;} "
    + "pre {background-color: #f4f4f4; padding: 10px; border-radius: 5px; overflow-x: auto;} "
    + ".error {color: red; font-weight: bold;}"
    + "</style></head><body>"

  const Footer := "</body></html>"
  const Placeholder := "<p>No data received or an unknown error occurred.</p>"
  const ErrorOpen := "<p class='error'>Error fetching data: "

  /** The fixed head: style block and the <h1> carrying the timestamp. */
  function Head(timestamp: string): string
  {
    StyleBlock + "<h1>N2YO API Daily Report - " + timestamp + "</h1>"
  }

  function Heading(title: string): string
  {
    "<h2>" + title + "</h2>"
  }

  /** Which of the three branches an entry takes, with what it shows. */
  datatype Branch =
    | ErrorView(error: string, url: Option<string>, content: Option<string>)
    | PrettyView(v: Json)
    | EmptyView

  /** isinstance(data, dict) and "error" in data: a failure descriptor, or a decoded object with an "error" key. */
  predicate IsErrorDict(data: QueryResult)
  {
    data.Failure? || (data.v.JObj? && "error" in data.v.fields)
  }

  /**
    The branch an entry takes: any dict with an "error" key is rendered as an
    error, even one the remote service sent; else a truthy payload is
    pretty-printed; else the placeholder.
   */
  function Classify(data: QueryResult, show: Json -> string): (b: Branch)
    ensures b.ErrorView? <==> IsErrorDict(data)
    ensures b.PrettyView? <==> !IsErrorDict(data) && JsonTruthy(data.v)
    ensures b.PrettyView? ==> b.v == data.v
    ensures b.EmptyView? <==> data.Payload? && !IsErrorDict(data) && !JsonTruthy(data.v)
    ensures data.Failure? ==> b == ErrorView(data.error, data.url, data.content)
    ensures data.Payload? && b.ErrorView? ==>
              && b.error == JsonText(data.v.fields["error"], show)
              && (b.url.Some? <==> "url" in data.v.fields)
              && ("url" in data.v.fields ==> b.url == Some(JsonText(data.v.fields["url"], show)))
              && (b.content.Some? <==> "content" in data.v.fields)
              && ("content" in data.v.fields ==> b.content == Some(JsonText(data.v.fields["content"], show)))
  {
    match data
    case Failure(error, url, content) => ErrorView(error, url, content)
    case Payload(v) =>
      if v.JObj? && "error" in v.fields then
        var m := v.fields;
        ErrorView(
          JsonText(m["error"], show),
          if "url" in m then Some(JsonText(m["url"], show)) else None,
          if "content" in m then Some(JsonText(m["content"], show)) else None)
      else if JsonTruthy(v) then PrettyView(v)
      else EmptyView
  }

  function ErrorLine(error: string): string
  {
    ErrorOpen + error + "</p>"
  }

  /** The URL paragraph, present only when the dict has a "url" key. */
  function UrlLine(url: Option<string>): string
  {
    if url.Some? then "<p>URL: " + url.value + "</p>" else ""
  }

  /** The raw-content block, present only when the dict has a "content" key. */
  function ContentLine(content: Option<string>): string
  {
    if content.Some? then "<p>Content: <pre>" + content.value + "</pre></p>" else ""
  }

  /** The HTML under an entry's heading. */
  function BranchHtml(b: Branch, dumps: Json -> string): string
  {
    match b
    case ErrorView(error, url, content) => ErrorLine(error) + UrlLine(url) + ContentLine(content)
    case PrettyView(v) => "<pre>" + dumps(v) + "</pre>"
    case EmptyView => Placeholder
  }

  function EntryHtml(e: Entry, dumps: Json -> string, show: Json -> string): string
  {
    Heading(e.0) + BranchHtml(Classify(e.1, show), dumps)
  }

  /** The sections of the report, one per entry, in order. */
  function Sections(entries: seq<Entry>, dumps: Json -> string, show: Json -> string): string
  {
    if entries == [] then ""
    else Sections(entries[..|entries| - 1], dumps, show) + EntryHtml(entries[|entries| - 1], dumps, show)
  }

  /** The whole document. */
  function RenderReport(entries: seq<Entry>, timestamp: string, dumps: Json -> string, show: Json -> string): string
  {
    Head(timestamp) + Sections(entries, dumps, show) + Footer
  }

  /** Concatenation is associative; the solver is handed each regrouping it needs. */
  lemma AppendAssoc(a: string, b: string, c: string)
    ensures (a + b) + c == a + (b + c)
  {
  }

  /** The sections of one more entry are the sections so far and that entry's HTML. */
  lemma SectionsSnoc(entries: seq<Entry>, i: nat, dumps: Json -> string, show: Json -> string)
    requires i < |entries|
    ensures Sections(entries[..i + 1], dumps, show) == Sections(entries[..i], dumps, show) + EntryHtml(entries[i], dumps, show)
  {
    assert entries[..i + 1][..i] == entries[..i];
  }

  /** format_data_as_html: the head, then for each entry its heading and branch, then the closing tags. */
  method FormatDataAsHtml(entries: seq<Entry>, timestamp: string, dumps: Json -> string, show: Json -> string)
    returns (html: string)
    ensures html == RenderReport(entries, timestamp, dumps, show)
  {
    html := "<html><head><style>";
    html := html + "body {font-family: sans-serif; margin: 20px;} ";
    html := html + "h1 {color: #333;} h2 {color: #555; border-bottom: 1px solid #eee; padding-bottom: 5px;} ";
    html := html + "pre {background-color: #f4f4f4; padding: 10px; border-radius: 5px; overflow-x: auto;} ";
    html := html + ".error {color: red; font-weight: bold;}";
    html := html + "</style></head><body>";
    html := html + ("<h1>N2YO API Daily Report - " + timestamp + "</h1>");
    assert html == Head(timestamp);

    for i := 0 to |entries|
      invariant html == Head(timestamp) + Sections(entries[..i], dumps, show)
    {
      var title := entries[i].0;
      var data := entries[i].1;
      ghost var before := html;
      html := html + ("<h2>" + title + "</h2>");
      ghost var headed := html;
      var branch := Classify(data, show);
      match branch {
        case ErrorView(error, url, content) =>
          html := html + ("<p class='error'>Error fetching data: " + error + "</p>");
          if url.Some? {
            html := html + ("<p>URL: " + url.value + "</p>");
          }
          assert html == headed + ErrorLine(error) + UrlLine(url);
          if content.Some? {
            html := html + ("<p>Content: <pre>" + content.value + "</pre></p>");
          }
          assert html == headed + ErrorLine(error) + UrlLine(url) + ContentLine(content);
          AppendAssoc(headed + ErrorLine(error), UrlLine(url), ContentLine(content));
          AppendAssoc(headed, ErrorLine(error), UrlLine(url) + ContentLine(content));
          AppendAssoc(ErrorLine(error), UrlLine(url), ContentLine(content));
          assert html == headed + BranchHtml(branch, dumps);
        case PrettyView(v) =>
          html := html + ("<pre>" + dumps(v) + "</pre>");
          assert html == headed + BranchHtml(branch, dumps);
        case EmptyView =>
          html := html + "<p>No data received or an unknown error occurred.</p>";
          assert html == headed + BranchHtml(branch, dumps);
      }
      AppendAssoc(before, Heading(title), BranchHtml(branch, dumps));
      SectionsSnoc(entries, i, dumps, show);
      AppendAssoc(Head(timestamp), Sections(entries[..i], dumps, show), EntryHtml(entries[i], dumps, show));
    }

    assert entries[..|entries|] == entries;
    html := html + "</body></html>";
  }

  // ---------------------------------------------------------------------------
  // Properties of the rendered document

  /** The document opens with the fixed head carrying the timestamp and closes with the closing tags. */
  lemma ReportFraming(entries: seq<Entry>, timestamp: string, dumps: Json -> string, show: Json -> string)
    ensures var doc := RenderReport(entries, timestamp, dumps, show);
            && |doc| >= |Head(timestamp)| + |Footer|
            && doc[..|Head(timestamp)|] == Head(timestamp)
            && doc[|doc| - |Footer|..] == Footer
            && Head(timestamp)[..|StyleBlock|] == StyleBlock
            && Head(timestamp)[|StyleBlock| + 28..|Head(timestamp)| - 5] == timestamp
  {
    var doc := RenderReport(entries, timestamp, dumps, show);
    AppendAssoc(Head(timestamp), Sections(entries, dumps, show), Footer);
    assert |"<h1>N2YO API Daily Report - "| == 28;
  }

  /** The sections of two lists of entries, one after the other, are the sections of the two lists joined. */
  lemma {:induction false} SectionsAppend(a: seq<Entry>, b: seq<Entry>, dumps: Json -> string, show: Json -> string)
    ensures Sections(a + b, dumps, show) == Sections(a, dumps, show) + Sections(b, dumps, show)
    decreases |b|
  {
    if b == [] {
      assert a + b == a;
    } else {
      var b' := b[..|b| - 1];
      var last := b[|b| - 1];
      assert (a + b)[..|a + b| - 1] == a + b';
      SectionsAppend(a, b', dumps, show);
      AppendAssoc(Sections(a, dumps, show), Sections(b', dumps, show), EntryHtml(last, dumps, show));
    }
  }

  /** Every entry's HTML is non-empty: it opens with its <h2> heading. */
  lemma EntryStartsWithHeading(e: Entry, dumps: Json -> string, show: Json -> string)
    ensures var h := EntryHtml(e, dumps, show);
            |h| >= |Heading(e.0)| && h[..|Heading(e.0)|] == Heading(e.0)
  {
  }

  /**
    What follows an entry's heading: for an error dict the error paragraph,
    then a URL paragraph exactly when it has a "url" key, then a content block
    exactly when it has a "content" key; else the pretty-printed payload in
    <pre>; else the placeholder line.
   */
  lemma EntryLayout(e: Entry, dumps: Json -> string, show: Json -> string)
    ensures var b := Classify(e.1, show);
            var h := EntryHtml(e, dumps, show);
            && (IsErrorDict(e.1) ==>
                  && h == Heading(e.0) + ErrorLine(b.error) + UrlLine(b.url) + ContentLine(b.content)
                  && (UrlLine(b.url) == "" <==> b.url.None?)
                  && (ContentLine(b.content) == "" <==> b.content.None?))
            && (!IsErrorDict(e.1) && JsonTruthy(e.1.v) ==> h == Heading(e.0) + "<pre>" + dumps(e.1.v) + "</pre>")
            && (!IsErrorDict(e.1) && !JsonTruthy(e.1.v) ==> h == Heading(e.0) + Placeholder)
  {
    var b := Classify(e.1, show);
    if b.ErrorView? {
      AppendAssoc(Heading(e.0), ErrorLine(b.error) + UrlLine(b.url), ContentLine(b.content));
      AppendAssoc(Heading(e.0), ErrorLine(b.error), UrlLine(b.url));
    } else if b.PrettyView? {
      AppendAssoc(Heading(e.0), "<pre>" + dumps(e.1.v), "</pre>");
      AppendAssoc(Heading(e.0), "<pre>", dumps(e.1.v));
    }
  }

  /** Where the heading of entry k starts in the document. */
  function HeadingOffset(entries: seq<Entry>, k: nat, timestamp: string, dumps: Json -> string, show: Json -> string): nat
    requires k <= |entries|
  {
    |Head(timestamp)| + |Sections(entries[..k], dumps, show)|
  }

  lemma Regroup(a: string, b: string, c: string, d: string, f: string)
    ensures (a + ((b + c) + d)) + f == (a + b) + c + (d + f)
  {
  }

  /** The middle part of a three-part concatenation, or a prefix of it. */
  lemma MiddleSlice(a: string, b: string, c: string, n: nat)
    requires n <= |b|
    ensures (a + b + c)[|a|..|a| + n] == b[..n]
  {
  }

  /** The sections are those before entry k, entry k's, and those after it. */
  lemma SectionsSplitAt(entries: seq<Entry>, k: nat, dumps: Json -> string, show: Json -> string)
    requires k < |entries|
    ensures Sections(entries, dumps, show)
         == (Sections(entries[..k], dumps, show) + EntryHtml(entries[k], dumps, show)) + Sections(entries[k + 1..], dumps, show)
  {
    SectionsTakeDrop(entries, k + 1, dumps, show);
    SectionsSnoc(entries, k, dumps, show);
  }

  lemma TakeDropJoin(s: seq<Entry>, j: nat)
    requires j <= |s|
    ensures s[..j] + s[j..] == s
  {
  }

  lemma SectionsTakeDrop(entries: seq<Entry>, j: nat, dumps: Json -> string, show: Json -> string)
    requires j <= |entries|
    ensures Sections(entries, dumps, show) == Sections(entries[..j], dumps, show) + Sections(entries[j..], dumps, show)
  {
    TakeDropJoin(entries, j);
    SectionsAppend(entries[..j], entries[j..], dumps, show);
  }

  /** Text p stands in doc at offset at. */
  predicate StandsAt(doc: string, at: nat, p: string)
  {
    at + |p| <= |doc| && doc[at..at + |p|] == p
  }

  /** In doc == head + ((pre + e) + post) + footer, a prefix p of e stands at offset |head| + |pre|. */
  lemma DocSlice(doc: string, head: string, pre: string, e: string, post: string, footer: string, p: string, at: nat)
    requires doc == (head + ((pre + e) + post)) + footer
    requires |p| <= |e| && e[..|p|] == p
    requires at == |head| + |pre|
    ensures StandsAt(doc, at, p)
  {
    Regroup(head, pre, e, post, footer);
    MiddleSlice(head + pre, e, post + footer, |p|);
  }

  /** The document around entry k: head, the sections before it, its own HTML, the sections after it, footer. */
  lemma RenderSplitAt(entries: seq<Entry>, k: nat, timestamp: string, dumps: Json -> string, show: Json -> string)
    requires k < |entries|
    ensures RenderReport(entries, timestamp, dumps, show)
         == (Head(timestamp) + ((Sections(entries[..k], dumps, show) + EntryHtml(entries[k], dumps, show))
                                + Sections(entries[k + 1..], dumps, show))) + Footer
  {
    SectionsSplitAt(entries, k, dumps, show);
  }

  /** The heading of entry k stands at HeadingOffset(k). */
  lemma HeadingAt(entries: seq<Entry>, k: nat, timestamp: string, dumps: Json -> string, show: Json -> string)
    requires k < |entries|
    ensures StandsAt(RenderReport(entries, timestamp, dumps, show), HeadingOffset(entries, k, timestamp, dumps, show),
                     Heading(entries[k].0))
  {
    RenderSplitAt(entries, k, timestamp, dumps, show);
    EntryStartsWithHeading(entries[k], dumps, show);
    DocSlice(RenderReport(entries, timestamp, dumps, show), Head(timestamp), Sections(entries[..k], dumps, show),
             EntryHtml(entries[k], dumps, show), Sections(entries[k + 1..], dumps, show), Footer,
             Heading(entries[k].0), HeadingOffset(entries, k, timestamp, dumps, show));
  }

  /**
    One <h2> per entry, in insertion order: the heading of entry k stands at
    its offset in the document, and an earlier entry's heading ends before
    a later entry's begins.
   */
  lemma HeadingsInOrder(entries: seq<Entry>, i: nat, j: nat, timestamp: string, dumps: Json -> string, show: Json -> string)
    requires i < j < |entries|
    ensures var doc := RenderReport(entries, timestamp, dumps, show);
            var hi := HeadingOffset(entries, i, timestamp, dumps, show);
            var hj := HeadingOffset(entries, j, timestamp, dumps, show);
            && hi + |Heading(entries[i].0)| <= hj
            && StandsAt(doc, hi, Heading(entries[i].0))
            && StandsAt(doc, hj, Heading(entries[j].0))
  {
    assert entries[..j] == entries[..i + 1] + entries[i + 1..j];
    SectionsAppend(entries[..i + 1], entries[i + 1..j], dumps, show);
    SectionsSnoc(entries, i, dumps, show);
    EntryStartsWithHeading(entries[i], dumps, show);
    HeadingAt(entries, i, timestamp, dumps, show);
    HeadingAt(entries, j, timestamp, dumps, show);
  }

  /** Rendering is deterministic: two runs differ only in the timestamp in the head. */
  lemma OnlyTimestampDiffers(entries: seq<Entry>, t1: string, t2: string, dumps: Json -> string, show: Json -> string)
    ensures RenderReport(entries, t1, dumps, show)[|Head(t1)|..] == RenderReport(entries, t2, dumps, show)[|Head(t2)|..]
  {
    AppendAssoc(Head(t1), Sections(entries, dumps, show), Footer);
    AppendAssoc(Head(t2), Sections(entries, dumps, show), Footer);
  }
}
