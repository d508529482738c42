/**
 The background script's control logic, reduced to pure functions: the
 protocol test that decides between injecting the content script and
 processing the tab's address at once, and the success path of
 processLinkData, whose effects (clipboard write, tooltip, notification) are
 returned as values.
 */
module Coordinator {
  import opened Wrappers
  import opened Records
  import opened Formatter
  import LinkParse

  const ExtensionName := "Copy Page Link"
  const NotificationSuffix := " formatted link copied to clipboard."

  /** `p` occurs in `s` starting at index `j`. */
  predicate OccursAt(s: string, p: string, j: nat) {
    j + |p| <= |s| && s[j..j + |p|] == p
  }

  /** String.prototype.indexOf(p, from): the first index at or after `from`
      where `p` occurs in `s`, or -1. */
  function IndexOfFrom(s: string, p: string, from: nat): (r: int)
    requires from <= |s|
    ensures r == -1 || (from <= r && OccursAt(s, p, r))
    ensures r != -1 ==> forall j :: from <= j < r ==> !OccursAt(s, p, j)
    ensures r == -1 ==> forall j :: from <= j ==> !OccursAt(s, p, j)
    decreases |s| - from
  {
    if from + |p| > |s| then -1
    else if s[from..from + |p|] == p then from
    else IndexOfFrom(s, p, from + 1)
  }

  /** String.prototype.indexOf(p). */
  function IndexOf(s: string, p: string): int {
    IndexOfFrom(s, p, 0)
  }

  predicate StartsWith(s: string, p: string) {
    |p| <= |s| && s[..|p|] == p
  }

  /** `indexOf(p) === 0` is the case-sensitive prefix test. */
  lemma IndexOfZeroIffPrefix(s: string, p: string)
    ensures IndexOf(s, p) == 0 <==> StartsWith(s, p)
  {
    if StartsWith(s, p) {
      assert s[0..|p|] == s[..|p|];
    }
  }

  /** checkUrlProtocol: the tab may receive the content script. */
  function CheckUrlProtocol(url: string): (r: bool)
    ensures r <==> StartsWith(url, "http:") || StartsWith(url, "https:")
  {
    IndexOfZeroIffPrefix(url, "http:");
    IndexOfZeroIffPrefix(url, "https:");
    IndexOf(url, "http:") == 0 || IndexOf(url, "https:") == 0
  }

  /** What a click on the toolbar button leads to. */
  datatype Activation =
    | Inject                  // run the content script, which reports the page later
    | Process(data: PageData) // format the given page record at once

  /** copyPageLink: http and https pages get the content script; any other
      page is processed immediately from its address alone. */
  function CopyPageLink(url: string): (r: Activation)
    ensures r.Inject? <==> StartsWith(url, "http:") || StartsWith(url, "https:")
    ensures r.Process? ==> r.data.href == url && r.data.title == "" && r.data.selection == ""
  {
    if CheckUrlProtocol(url) then Inject else Process(PageData(url, "", ""))
  }

  /** The observable results of a successful processLinkData: the clipboard
      text, the new tooltip, and the notification's title and message. */
  datatype Effects = Effects(clipboard: string, tooltip: string, noticeTitle: string, notice: string)

  /** setTooltip: the tooltip names the extension and the label of the
      stored format, Markdown for any token it does not know. */
  function TooltipText(o: StoredOptions): (r: string)
    ensures forall d: Dialect :: o.format == Some(Token(d)) ==> r == ExtensionName + ": " + Label(d)
    ensures (forall d: Dialect :: o.format != Some(Token(d))) ==> r == ExtensionName + ": " + Label(Markdown)
  {
    ExtensionName + ": " + CapitalizedFormat(o)
  }

  /** The notification message: the label of the stored format, Markdown for
      any token it does not know, followed by the fixed suffix. */
  function NotificationText(o: StoredOptions): (r: string)
    ensures forall d: Dialect :: o.format == Some(Token(d)) ==> r == Label(d) + NotificationSuffix
    ensures (forall d: Dialect :: o.format != Some(Token(d))) ==> r == Label(Markdown) + NotificationSuffix
  {
    CapitalizedFormat(o) + NotificationSuffix
  }

  /** processLinkData when storage, clipboard and notification all succeed.
      The clipboard holds a real link exactly when a dialect is rendered, and
      then the tooltip and the notification name that same dialect. */
  function ProcessLinkData(o: StoredOptions, data: PageData): (r: Effects)
    ensures r.clipboard == GetFormattedLink(data, o)
    ensures r.tooltip == TooltipText(o) && r.notice == NotificationText(o)
    ensures r.clipboard == UnknownFormatError <==> RenderedDialect(o).None?
    ensures RenderedDialect(o).Some? ==>
      && r.tooltip == ExtensionName + ": " + Label(RenderedDialect(o).value)
      && r.notice == Label(RenderedDialect(o).value) + NotificationSuffix
    ensures r.noticeTitle == ExtensionName
  {
    Effects(GetFormattedLink(data, o), TooltipText(o), ExtensionName, NotificationText(o))
  }

  /** An unknown non-empty token puts the error string on the clipboard yet
      announces a Markdown link. */
  lemma UnknownFormatAnnouncedAsMarkdown(o: StoredOptions, data: PageData)
    requires o.format.Some? && o.format.value != ""
    requires o.format.value !in {"markdown", "html", "latex", "xml"}
    ensures ProcessLinkData(o, data).clipboard == UnknownFormatError
    ensures ProcessLinkData(o, data).tooltip == ExtensionName + ": " + Label(Markdown)
    ensures ProcessLinkData(o, data).notice == Label(Markdown) + NotificationSuffix
  {
    assert DialectOf(o.format.value).None?;
    FallbacksDiffer(data, o);
  }

  /** A toolbar click, followed through to its effects when the page is
      processed at once; None when the content script was injected and the
      effects wait for its report. */
  function OnClicked(url: string, o: StoredOptions): (r: Option<Effects>)
    ensures r.None? <==> CheckUrlProtocol(url)
  {
    match CopyPageLink(url)
    case Inject => None
    case Process(data) => Some(ProcessLinkData(o, data))
  }

  /** The message listener: a page record from the content script goes
      through the same pipeline as a record synthesised on a click, so the
      two activation paths give the same effects for the same record. */
  function OnMessage(request: PageData, o: StoredOptions): (r: Effects)
    ensures r.clipboard == GetFormattedLink(request, o)
    ensures r.tooltip == TooltipText(o) && r.notice == NotificationText(o)
    ensures r.noticeTitle == ExtensionName
    ensures r.clipboard == UnknownFormatError <==> RenderedDialect(o).None?
    ensures !CheckUrlProtocol(request.href) && request.title == "" && request.selection == "" ==>
      OnClicked(request.href, o) == Some(r)
  {
    ProcessLinkData(o, request)
  }

  /** The page can be read back from the clipboard: whether the record was
      synthesised on a click or reported by the content script, a Markdown,
      HTML or LaTeX link yields the link name and the address again, provided
      the leading field has no delimiter character. */
  lemma ClipboardReadsBackPage(o: StoredOptions, data: PageData, d: Dialect)
    requires d != Xml && RenderedDialect(o) == Some(d)
    requires LinkParse.Unambiguous(d, LinkName(data), data.href)
    ensures LinkParse.ParseLink(d, ProcessLinkData(o, data).clipboard) == Some((LinkName(data), data.href))
    ensures LinkParse.ParseLink(d, OnMessage(data, o).clipboard) == Some((LinkName(data), data.href))
  {
    LinkParse.ParseFormattedLink(data, o, d);
  }

  /** A page that cannot be injected is linked by its address alone: its
      link name is empty whatever the stored format. */
  lemma RestrictedPageLinksAddressOnly(url: string, o: StoredOptions)
    requires !CheckUrlProtocol(url)
    ensures OnClicked(url, o) == Some(ProcessLinkData(o, PageData(url, "", "")))
    ensures LinkName(PageData(url, "", "")) == ""
    ensures EffectiveFormat(o) == "markdown" ==> OnClicked(url, o).value.clipboard == "[](" + url + ")"
    ensures EffectiveFormat(o) == "html" ==> OnClicked(url, o).value.clipboard == "<a href=\"" + url + "\"></a>"
  {
    FormattedLinkTemplates(PageData(url, "", ""), o);
  }

  /** The protocol test is case-sensitive and looks at the first character
      first: an address not starting with a lower-case `h` (a `file:` page,
      or `HTTP:` in capitals) is processed directly. */
  lemma NonHttpAddressProcessed(url: string)
    requires url == [] || url[0] != 'h'
    ensures CopyPageLink(url) == Process(PageData(url, "", ""))
  {
    if url != [] {
      assert url[0] != "http:"[0] && url[0] != "https:"[0];
    }
  }

  /** A scheme that merely begins with `http`, such as `httpx:`, is not
      injected. */
  lemma LookalikeSchemeProcessed(url: string)
    requires StartsWith(url, "httpx")
    ensures CopyPageLink(url) == Process(PageData(url, "", ""))
  {
    assert url[4] == 'x';
    assert url[4] != "http:"[4] && url[4] != "https:"[4];
  }

  /** Both web schemes are injected, whatever follows them. */
  lemma WebAddressInjected(rest: string)
    ensures CopyPageLink("http:" + rest) == Inject
    ensures CopyPageLink("https:" + rest) == Inject
  {
    assert ("http:" + rest)[..5] == "http:";
    assert ("https:" + rest)[..6] == "https:";
  }

  /** End to end: stored html, a page titled Example with no selection. */
  lemma HtmlEndToEnd()
    ensures var o := EmptyStore.(format := Some("html"));
            OnMessage(PageData("https://e.com", "Example", ""), o).clipboard
              == "<a href=\"https://e.com\">Example</a>"
  {
    var o := EmptyStore.(format := Some("html"));
    var data := PageData("https://e.com", "Example", "");
    assert LinkName(data) == "Example";
    FormattedLinkTemplates(data, o);
    assert "<a href=\"" + "https://e.com" + "\">" + "Example" + "</a>" == "<a href=\"https://e.com\">Example</a>";
  }

  /** End to end: with nothing saved the link is Markdown and so is the label. */
  lemma EmptyStoreEndToEnd(data: PageData)
    ensures OnMessage(data, EmptyStore).clipboard == "[" + LinkName(data) + "](" + data.href + ")"
    ensures OnMessage(data, EmptyStore).notice == Label(Markdown) + NotificationSuffix
  {
    MissingFormatIsMarkdown(data, EmptyStore);
  }
}
