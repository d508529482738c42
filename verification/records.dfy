/**
 The two records that travel through the extension: the page being linked and
 the options record kept in browser storage.
 */
module Records {
  import opened Wrappers

  /** The page being linked, as the content script reports it or as the
      background script synthesises it for a page it may not inject into. */
  datatype PageData = PageData(href: string, title: string, selection: string)

  /** The options record as browser storage hands it back. A field that was
      never saved is None; storage returns an empty record before the first
      save. */
  datatype StoredOptions = StoredOptions(
    format: Option<string>,
    auto: Option<bool>,
    msec: Option<string>,
    link: Option<string>,
    href: Option<string>,
    name: Option<string>)

  /** What storage returns when nothing has been saved yet. */
  const EmptyStore := StoredOptions(None, None, None, None, None, None)

  /** JavaScript's `x || d` on a possibly absent string field: both an absent
      field and the empty string are falsy and give `d`. */
  function OrDefault(x: Option<string>, d: string): string {
    match x
    case Some(s) => if s != "" then s else d
    case None => d
  }

  /** A possibly absent string field as a template literal interpolates it:
      an absent field reads "undefined". */
  function Interp(x: Option<string>): string {
    match x
    case Some(s) => s
    case None => "undefined"
  }
}
