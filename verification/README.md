# Copy Page Link: the formatting core in Dafny

A model of the browser extension "Copy Page Link". A click on its toolbar
button copies the current page's address, title and text selection to the
clipboard as a link in Markdown, HTML, LaTeX or a user-configured XML
element. The model covers the following parts of the background script and
the options page, written as pure functions over immutable records:

- the link formatter (`getFormattedLink`);
- the format label (`getCapitalizedFormat`) and the tooltip and notification
  strings built from it;
- the protocol test that decides between injecting the content script and
  processing the tab's address at once (`copyPageLink` / `checkUrlProtocol`);
- the success path of `processLinkData`;
- the options page's confirmation phrase (`setMessage`);
- the per-field defaults applied on restore (`setPreferences`);
- the first-checked-radio scan that gates saving (`saveOptions`).

Modules, one concept each:

- `Wrappers` (wrappers.dfy): `Option`.
- `Records` (records.dfy): `PageData` and `StoredOptions`. A field never
  saved is `None`. The file also gives JavaScript's `x || d` and
  template-literal interpolation on such fields.
- `Formatter` (formatter.dfy): selection capping, the link name, the
  closed `Dialect` enumeration, the formatter, and the label.
- `LinkParse` (link_parse.dfy): reads the link name and address back out of
  a Markdown, HTML or LaTeX link. This parser reads both fields back when the
  leading field has no delimiter character. Neither field is escaped, so when a
  link holds the template's middle (`](`, `">`, `}{`) more than once, two
  different pages can give the same link; `MarkdownIsAmbiguousWithoutEscaping`
  shows this for Markdown.
- `Coordinator` (coordinator.dfy): `indexOf`, the activation decision, the
  message listener, and the effects of a successful `processLinkData` as a
  value (clipboard text, tooltip, notification title and message).
- `OptionsPage` (options_page.dfy): `setMessage`, restore defaults, the
  radio scan (a loop with invariants, checked against a recursive
  reference definition), the save gate, and save/restore round trips.

The model follows the code in these details:

- An empty-string format is treated like an absent one (`options.format || defaultFormat`).
- The save gate also refuses a checked radio button whose value is empty (`if (selectedFormat)`).
- The formatter does not trim the selection. Only the content script trims it.
- The XML template indents with six and eight spaces.
- The LaTeX opening and the XML line separator are kept as constants with the same text as the
  source's template literals. As JavaScript evaluates that text, it gives two backslashes before
  `href{` and a backslash followed by `n` between XML lines, not a newline. Any rewriting by the
  build's `#ifdef` preprocessor is not part of this model.
- `processLinkData` hands the raw stored record to the formatter. The defaults `link`, `href` and
  `name` exist only on the options page, so an absent XML field is interpolated as `undefined`
  (`Records.Interp`). Records written by the options page always hold all six fields.

## Model

| member | source | states |
|---|---|---|
| Formatter.DialectOfIsInverseOfToken | gpp-background.js:83-96 | a format token selects a dialect exactly when it is that dialect's token (`markdown`, `html`, `latex`, `xml`, case-sensitive) |
| Formatter.Truncate | gpp-background.js:74-77 | a selection of at most 120 characters is kept; a longer one becomes its first 120 characters plus one U+2026 ellipsis, 121 in all; the result is empty exactly when the selection is |
| Formatter.TruncateIdempotent | gpp-background.js:75-76 | capping an already capped selection changes nothing |
| Formatter.FormattingAfterWriteBack | gpp-background.js:75-76 | after the capped selection is written back into the page record, formatting that record again gives the same link |
| Formatter.LinkName | gpp-background.js:80 | the link name is the capped selection when the selection is non-empty (then 1 to 121 characters), and the title otherwise |
| Formatter.LongSelectionIsCapped | gpp-background.js:74-80 | for a selection over 120 characters the name used in every dialect is its first 120 characters and one ellipsis |
| Formatter.EffectiveFormat | gpp-background.js:81 | the dispatched token is never empty: the stored format when non-empty, otherwise `markdown` |
| Formatter.FormattedLinkTemplates | gpp-background.js:83-96 | each known dialect yields exactly its template around the link name and the page address, unescaped; the XML one is built from the stored `link`, `href` and `name` |
| Formatter.MissingFormatIsMarkdown | gpp-background.js:81-85 | an absent or empty format gives the same link as `markdown`, namely `[name](href)` |
| Formatter.UnknownFormatIsError | gpp-background.js:98-99 | a non-empty token outside the four known ones gives `Error: Unknown format option` whatever the page |
| Formatter.GetFormattedLink | gpp-background.js:72-101 | the formatter returns the error string if and only if the effective token names no dialect; its exact output per dialect is pinned by `FormattedLinkTemplates`, and `ParseFormattedLink` reads the name and address back from it |
| Formatter.CapitalizedFormat | gpp-background.js:52-65 | the label is one of Markdown, HTML, LaTeX, XML; each known token maps to its dialect's label and any other value, absent included, to Markdown |
| Formatter.LabelMatchesRenderedDialect | gpp-background.js:52-65 | whenever the formatter renders a dialect, the label names that same dialect |
| Formatter.FallbacksDiffer | gpp-background.js:52-99 | for an unknown non-empty token the formatter falls back to the error string but the label falls back to Markdown |
| LinkParse.ParseFormattedLink | gpp-background.js:84-91 | from a Markdown, HTML or LaTeX link the name and address are read back exactly, provided the leading field has no `]`, `"` or `}` respectively |
| LinkParse.MarkdownIsAmbiguousWithoutEscaping | gpp-background.js:84-85 | two different pages can give the same Markdown link, because neither field is escaped |
| Coordinator.IndexOfFrom | gpp-background.js:181 | `indexOf` returns the first index at or after the start where the pattern occurs, or -1 when it occurs nowhere |
| Coordinator.IndexOfZeroIffPrefix | gpp-background.js:181 | `indexOf(p) === 0` holds exactly when the string starts with `p` |
| Coordinator.CheckUrlProtocol | gpp-background.js:180-182 | the protocol test holds exactly for addresses starting with `http:` or `https:` |
| Coordinator.CopyPageLink | gpp-background.js:177-195 | the content script is injected exactly for `http:` and `https:` addresses; any other address is processed with the address as href and an empty title and selection |
| Coordinator.OnClicked | gpp-background.js:184-194 | a click produces effects at once exactly when the protocol test fails |
| Coordinator.NonHttpAddressProcessed | gpp-background.js:180-194 | an address not starting with a lower-case `h` (a `file:` page, or `HTTP:` in capitals) is processed directly with an empty title and selection |
| Coordinator.LookalikeSchemeProcessed | gpp-background.js:180-194 | an address starting with `httpx` is processed directly, not injected |
| Coordinator.WebAddressInjected | gpp-background.js:180-191 | every address starting with `http:` or `https:` is injected |
| Coordinator.RestrictedPageLinksAddressOnly | gpp-background.js:192-194 | a page that cannot be injected is linked with an empty name, for example `[](url)` in Markdown and `<a href="url"></a>` in HTML |
| Coordinator.TooltipText | gpp-background.js:42-50 | the tooltip reads `Copy Page Link: ` followed by the label of the stored token, or by `Markdown` when the token is none of the four |
| Coordinator.NotificationText | gpp-background.js:134-135 | the notification message is the label of the stored token, or `Markdown` when the token is none of the four, followed by ` formatted link copied to clipboard.` |
| Coordinator.ProcessLinkData | gpp-background.js:109-170 | the clipboard holds this page's formatted link under the stored options; it is a real link, not the error, exactly when a dialect is rendered; then the tooltip and the notification both carry that dialect's label; the notification title is `Copy Page Link` |
| Coordinator.OnMessage | gpp-background.js:201-206 | the clipboard holds the reported page's formatted link under the stored options; the tooltip and the notification message carry the stored format's label, as `TooltipText` and `NotificationText` state, and the notification title is `Copy Page Link`; the record goes through the same pipeline as a click: for a non-web address with empty title and selection it gives exactly the effects of the click; the clipboard is the error string exactly when no dialect is rendered |
| Coordinator.ClipboardReadsBackPage | gpp-background.js:111-121 | whether the page record was synthesised on a click or reported by the content script, the link name and the page's address are read back exactly from a Markdown, HTML or LaTeX clipboard text, provided the leading field has no `]`, `"` or `}` respectively |
| Coordinator.UnknownFormatAnnouncedAsMarkdown | gpp-background.js:111-135 | an unknown token puts the error string on the clipboard but announces a Markdown link in the tooltip and the notification |
| Coordinator.HtmlEndToEnd | gpp-background.js:201-206 | a reported page titled Example at https://e.com, with no selection and the html format stored, copies `<a href="https://e.com">Example</a>` |
| Coordinator.EmptyStoreEndToEnd | gpp-background.js:154-158 | with nothing stored, the link is Markdown and the notification says Markdown |
| OptionsPage.SaveMessage | gpp-options.js:32-41 | the phrase is `Preferences saved!` exactly for the platform `mac`, and `Options saved!` for every other value |
| OptionsPage.SetPreferences | gpp-options.js:122-132 | the restored format is the stored one if non-empty, else `markdown`; `auto` is false exactly when a false was stored, so only an absent value defaults to true; msec, link, href and name keep non-empty stored values and otherwise show `3000`, `link`, `href`, `name` |
| OptionsPage.RestoredFormatRendersAlike | gpp-options.js:123 | the format the options page restores renders, and is labelled, exactly as the stored one does in the background script |
| OptionsPage.FirstCheckedValue | gpp-options.js:77-84 | the selected value is that of the lowest-index checked radio button; there is none exactly when no button is checked |
| OptionsPage.SelectedFormat | gpp-options.js:75-84 | the scan that stops at the first checked button returns the lowest-index checked value, and nothing exactly when no button is checked |
| OptionsPage.SaveRecord | gpp-options.js:96-105 | a record is saved exactly when the selected value exists and is non-empty; it then holds all six fields, with the selected format and the form's values |
| OptionsPage.SaveOptions | gpp-options.js:61-115 | nothing is saved exactly when no button is checked or the first checked one has an empty value; otherwise the saved format is the first checked value |
| OptionsPage.SaveThenRestore | gpp-options.js:97-132 | restoring a saved record shows the saved format and auto flag, and each text field as saved unless it was empty |
| OptionsPage.RestoreIsStable | gpp-options.js:122-132 | saving an unedited restored form and restoring it again shows the same form |

## Left out

- gpp-content.js is not part of this model. It only reads the page's address, trimmed selection
  and title and sends them. Its report enters the model as the `PageData` argument of `Coordinator.OnMessage`.
- Browser APIs are represented only by the values they would receive: storage get and set,
  clipboard writes, notifications, script injection, runtime messaging and the toolbar title.
  `Coordinator.ProcessLinkData` returns the clipboard text, tooltip and notification instead of performing them.
- The failure paths of `processLinkData` and `saveOptions` are not modelled. Only the success path is.
  - A storage read error stops `processLinkData` before any clipboard text, tooltip or notification.
    In Chrome, `notLastError` logs it and the callback does nothing more (gpp-background.js:162).
    In Firefox, `onError` logs it and returns normally, so the chain resolves and calls
    `notifySuccess(undefined)` (gpp-background.js:157-158). Its `setTooltip` then calls
    `getCapitalizedFormat`, which throws a TypeError reading `options.format` (gpp-background.js:53).
  - A failed clipboard write stops nothing, so the success notification still appears. Firefox resolves
    without waiting for `navigator.clipboard.writeText` (gpp-background.js:115-116). Chrome ignores the
    result of `execCommand` (gpp-background.js:127) and checks only `runtime.lastError` (gpp-background.js:164).
  - Chrome's `saveOptions` passes `notifyUser` straight to `storage.sync.set` (gpp-options.js:112) without
    checking `lastError`. The confirmation phrase therefore shows even when the save failed.
- The Firefox `reject` after `resolve` (gpp-background.js:117) is not modelled. It can never take effect.
- Asynchronous sequencing is not modelled: promise chaining, concurrent clicks, and an extraction
  that never reports. `Coordinator.OnClicked` returns None for an injected tab, and the effects
  arrive only through `OnMessage`.
- The 750 ms timeout that clears the status text is not modelled. It is timing only.
- The DOM reading and writing on the options page is not modelled. The form is the `FormState`,
  `FormFields` and `RadioInput` values.
- The radio buttons' ids live in the options HTML, which is not part of this model. When the stored
  format has no matching element, `getElementById(...).checked = true` would throw and the later
  fields would not be restored. `OptionsPage.SetPreferences` does not model that exception.
- `OptionsPage.SaveThenRestore` and `OptionsPage.RestoreIsStable` assume that each radio button's id
  (set at gpp-options.js:123) equals its value (read at gpp-options.js:81). That holds only if the
  options HTML, which is not part of this model, makes them match.
- The `if (false)` development branch of `saveOptions` is not modelled. It is dead code.
- `page.getPlatform()` is not modelled. It is not defined in the background script, so the platform
  is just the argument of `SaveMessage`.
- The `#ifdef FIREFOX` / `#ifdef CHROME` duplicates are modelled once. Both compute the same strings.
- Strings are sequences of characters. The 120-character cap counts characters rather than UTF-16
  code units. Stored fields holding non-string values are not modelled.
- `LinkParse.ParseFormattedLink` does not cover the XML dialect. Its layout depends on three
  configured names that may themselves contain delimiters.
- A link can contain the address more than once, for example when the name contains it. So no lemma
  claims that the address occurs exactly once; `ParseFormattedLink` states what does hold.
