/**
 The link formatter of the background script: selection capping, the choice
 of link name, the dialect dispatch with its fixed templates, and the
 capitalized format label shown in the tooltip and the notification.
 */
module Formatter {
  import opened Wrappers
  import opened Records

  /** Longest selection used as a link name before it is capped. */
  const MaxLength: nat := 120
  /** Appended to a capped selection: HORIZONTAL ELLIPSIS, U+2026. */
  const Ellipsis: char := '\U{2026}'
  const DefaultFormat := "markdown"
  /** The in-band result for a format token the formatter does not know. */
  const UnknownFormatError := "Error: Unknown format option"

  /** The LaTeX opening, with the same text as the source's template literal
      (which evaluates to two backslashes followed by `href{`). */
  const LatexPrefix := "\\\\href{"
  /** The separator ending each XML line, with the same text as the source's
      template literal (which evaluates to a backslash followed by `n`). */
  const XmlBreak := "\\n"
  const XmlIndent := "      "
  const XmlChildIndent := "        "

  /** The four markup dialects the formatter knows. */
  datatype Dialect = Markdown | Html | Latex | Xml

  /** The token that selects a dialect in the options record. */
  function Token(d: Dialect): string {
    match d
    case Markdown => "markdown"
    case Html => "html"
    case Latex => "latex"
    case Xml => "xml"
  }

  /** The display label of a dialect. */
  function Label(d: Dialect): string {
    match d
    case Markdown => "Markdown"
    case Html => "HTML"
    case Latex => "LaTeX"
    case Xml => "XML"
  }

  /** The dialect a format token names, if any; the switch is case-sensitive. */
  function DialectOf(t: string): Option<Dialect> {
    if t == "markdown" then Some(Markdown)
    else if t == "html" then Some(Html)
    else if t == "latex" then Some(Latex)
    else if t == "xml" then Some(Xml)
    else None
  }

  /** DialectOf and Token are inverse: a token names a dialect exactly when it
      is that dialect's token. */
  lemma DialectOfIsInverseOfToken(t: string, d: Dialect)
    ensures DialectOf(t) == Some(d) <==> Token(d) == t
  {
  }

  /** The selection after capping: at most MaxLength characters of it survive,
      followed by one ellipsis when anything was cut. */
  function Truncate(s: string): (r: string)
    ensures |r| <= MaxLength + 1
    ensures |s| <= MaxLength ==> r == s
    ensures |s| > MaxLength ==>
      |r| == MaxLength + 1 && r[..MaxLength] == s[..MaxLength] && r[MaxLength] == Ellipsis
    ensures r == "" <==> s == ""
  {
    if s != "" && |s| > MaxLength then s[..MaxLength] + [Ellipsis] else s
  }

  /** Capping an already capped selection changes nothing, so writing the
      capped selection back into the page record is harmless. */
  lemma TruncateIdempotent(s: string)
    ensures Truncate(Truncate(s)) == Truncate(s)
  {
    if |s| > MaxLength {
      var t := Truncate(s);
      assert t[..MaxLength] == s[..MaxLength];
      assert t == t[..MaxLength] + [Ellipsis];
    }
  }

  /** The name shown in the link: the capped selection when there is one,
      otherwise the page title. */
  function LinkName(data: PageData): (r: string)
    ensures data.selection != "" ==> r == Truncate(data.selection) && 0 < |r| <= MaxLength + 1
    ensures data.selection == "" ==> r == data.title
  {
    var selection := Truncate(data.selection);
    if selection != "" then selection else data.title
  }

  /** The format token the formatter dispatches on: the stored one, unless it
      is absent or empty, in which case the default. */
  function EffectiveFormat(o: StoredOptions): (r: string)
    ensures r != ""
    ensures o.format.None? || o.format == Some("") ==> r == DefaultFormat
    ensures o.format.Some? && o.format.value != "" ==> r == o.format.value
  {
    OrDefault(o.format, DefaultFormat)
  }

  /** The dialect the formatter renders for the given options, or None when it
      returns the unknown-format error. */
  function RenderedDialect(o: StoredOptions): Option<Dialect> {
    DialectOf(EffectiveFormat(o))
  }

  /** The formatted link for a page under the stored options. It is the
      error string exactly when the effective format names no dialect: no
      rendered link can be mistaken for the error. */
  function GetFormattedLink(data: PageData, o: StoredOptions): (r: string)
    ensures r == UnknownFormatError <==> RenderedDialect(o).None?
  {
    var name := LinkName(data);
    match RenderedDialect(o)
    case Some(Markdown) =>
      var link := "[" + name + "](" + data.href + ")";
      assert link[0] == '[';
      link
    case Some(Html) =>
      var link := "<a href=\"" + data.href + "\">" + name + "</a>";
      assert link[0] == '<';
      link
    case Some(Latex) =>
      var link := LatexPrefix + data.href + "}{" + name + "}";
      assert link[0] == LatexPrefix[0];
      link
    case Some(Xml) =>
      var link :=
        XmlIndent + "<" + Interp(o.link) + " " + Interp(o.href) + "=\"" + data.href + "\">" + XmlBreak
        + XmlChildIndent + "<" + Interp(o.name) + ">" + name + "</" + Interp(o.name) + ">" + XmlBreak
        + XmlIndent + "</" + Interp(o.link) + ">" + XmlBreak;
      assert link[0] == ' ';
      link
    case None => UnknownFormatError
  }

  /** Each known token yields exactly its dialect's template around the link
      name and the page address, with neither escaped. */
  lemma FormattedLinkTemplates(data: PageData, o: StoredOptions)
    ensures EffectiveFormat(o) == "markdown" ==>
      GetFormattedLink(data, o) == "[" + LinkName(data) + "](" + data.href + ")"
    ensures EffectiveFormat(o) == "html" ==>
      GetFormattedLink(data, o) == "<a href=\"" + data.href + "\">" + LinkName(data) + "</a>"
    ensures EffectiveFormat(o) == "latex" ==>
      GetFormattedLink(data, o) == LatexPrefix + data.href + "}{" + LinkName(data) + "}"
    ensures EffectiveFormat(o) == "xml" ==>
      GetFormattedLink(data, o) ==
        XmlIndent + "<" + Interp(o.link) + " " + Interp(o.href) + "=\"" + data.href + "\">" + XmlBreak
        + XmlChildIndent + "<" + Interp(o.name) + ">" + LinkName(data) + "</" + Interp(o.name) + ">" + XmlBreak
        + XmlIndent + "</" + Interp(o.link) + ">" + XmlBreak
  {
  }

  /** An absent or empty format behaves exactly as an explicit "markdown". */
  lemma MissingFormatIsMarkdown(data: PageData, o: StoredOptions)
    requires o.format.None? || o.format == Some("")
    ensures GetFormattedLink(data, o) == GetFormattedLink(data, o.(format := Some("markdown")))
    ensures GetFormattedLink(data, o) == "[" + LinkName(data) + "](" + data.href + ")"
  {
  }

  /** A non-empty token outside the four known ones gives the error string,
      whatever the page. */
  lemma UnknownFormatIsError(data: PageData, o: StoredOptions)
    requires o.format.Some? && o.format.value != ""
    requires o.format.value !in {"markdown", "html", "latex", "xml"}
    ensures GetFormattedLink(data, o) == UnknownFormatError
  {
  }

  /** Whatever the format, a selection longer than MaxLength shows up in the
      link as its first MaxLength characters and one ellipsis. */
  lemma LongSelectionIsCapped(data: PageData)
    requires |data.selection| > MaxLength
    ensures LinkName(data) == data.selection[..MaxLength] + [Ellipsis]
    ensures |LinkName(data)| == MaxLength + 1
  {
  }

  /** The formatter writes the capped selection back into the page record;
      formatting the record again after that write gives the same link. */
  lemma FormattingAfterWriteBack(data: PageData, o: StoredOptions)
    ensures GetFormattedLink(data.(selection := Truncate(data.selection)), o) == GetFormattedLink(data, o)
  {
    TruncateIdempotent(data.selection);
  }

  /** The display label of the stored format: the four known tokens map to
      their labels and everything else, absent included, to "Markdown". */
  function CapitalizedFormat(o: StoredOptions): (r: string)
    ensures r in {"Markdown", "HTML", "LaTeX", "XML"}
    ensures forall d: Dialect :: o.format == Some(Token(d)) ==> r == Label(d)
    ensures (forall d: Dialect :: o.format != Some(Token(d))) ==> r == "Markdown"
  {
    match o.format
    case Some(t) =>
      (match DialectOf(t)
       case Some(d) => Label(d)
       case None => "Markdown")
    case None => "Markdown"
  }

  /** Whenever the formatter renders a dialect, the label names that same
      dialect. */
  lemma LabelMatchesRenderedDialect(o: StoredOptions, d: Dialect)
    requires RenderedDialect(o) == Some(d)
    ensures CapitalizedFormat(o) == Label(d)
  {
  }

  /** The two fallbacks differ: an unknown non-empty token makes the formatter
      return the error string while the label still reads "Markdown". */
  lemma FallbacksDiffer(data: PageData, o: StoredOptions)
    requires o.format.Some? && o.format.value != ""
    requires DialectOf(o.format.value).None?
    ensures GetFormattedLink(data, o) == UnknownFormatError
    ensures CapitalizedFormat(o) == "Markdown"
  {
  }
}
