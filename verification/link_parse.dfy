/**
 Reading a formatted link back. The Markdown, HTML and LaTeX templates each
 surround two fields with a fixed opening, a fixed middle and a fixed closing.
 This parser reads both fields back when the first field does not contain the
 first character of the middle. Neither field is escaped, so when a link holds
 the middle more than once, two different pages can give the same link; the
 ambiguity lemma shows this for Markdown.
 */
module LinkParse {
  import opened Wrappers
  import opened Records
  import opened Formatter

  /** The index of the first `c` in `s`, or |s| when there is none. */
  function IndexOfChar(s: string, c: char): (r: nat)
    ensures r <= |s|
    ensures r < |s| ==> s[r] == c
    ensures forall i :: 0 <= i < r ==> s[i] != c
  {
    if s == [] then 0
    else if s[0] == c then 0
    else 1 + IndexOfChar(s[1..], c)
  }

  /** Splits `pre + a + mid + b + post` into (a, b), ending `a` at the first
      occurrence of the first character of `mid`. */
  function Unwrap(s: string, pre: string, mid: string, post: string): Option<(string, string)>
    requires mid != []
  {
    if |s| < |pre| + |post| || s[..|pre|] != pre || s[|s| - |post|..] != post then None
    else
      var body := s[|pre|..|s| - |post|];
      var k := IndexOfChar(body, mid[0]);
      if k + |mid| <= |body| && body[k..k + |mid|] == mid
      then Some((body[..k], body[k + |mid|..]))
      else None
  }

  /** Unwrap recovers both fields of a wrapped pair when the first field does
      not contain the first character of the middle. */
  lemma UnwrapWrapped(pre: string, a: string, mid: string, b: string, post: string)
    requires mid != [] && mid[0] !in a
    ensures Unwrap(pre + a + mid + b + post, pre, mid, post) == Some((a, b))
  {
    var s := pre + a + mid + b + post;
    assert s[..|pre|] == pre;
    assert s[|s| - |post|..] == post;
    var body := s[|pre|..|s| - |post|];
    assert body == a + mid + b;
    var k := IndexOfChar(body, mid[0]);
    assert body[|a|] == mid[0];
    assert k == |a|;
    assert body[k..k + |mid|] == mid;
    assert body[..k] == a;
    assert body[k + |mid|..] == b;
  }

  /** Reads the (link name, page address) pair back out of a Markdown, HTML
      or LaTeX link. */
  function ParseLink(d: Dialect, s: string): Option<(string, string)>
    requires d != Xml
  {
    match d
    case Markdown => Unwrap(s, "[", "](", ")")
    case Html =>
      (match Unwrap(s, "<a href=\"", "\">", "</a>")
       case Some((href, name)) => Some((name, href))
       case None => None)
    case Latex =>
      (match Unwrap(s, LatexPrefix, "}{", "}")
       case Some((href, name)) => Some((name, href))
       case None => None)
  }

  /** The field whose content decides whether a dialect's link can be read
      back: the name for Markdown, the address for HTML and LaTeX. */
  predicate Unambiguous(d: Dialect, name: string, href: string)
    requires d != Xml
  {
    match d
    case Markdown => ']' !in name
    case Html => '"' !in href
    case Latex => '}' !in href
  }

  /** Formatting loses nothing: when the leading field of the template does
      not contain the character that opens the middle, the link name and the
      page address are read back exactly from the formatted link. */
  lemma ParseFormattedLink(data: PageData, o: StoredOptions, d: Dialect)
    requires d != Xml && RenderedDialect(o) == Some(d)
    requires Unambiguous(d, LinkName(data), data.href)
    ensures ParseLink(d, GetFormattedLink(data, o)) == Some((LinkName(data), data.href))
  {
    var name := LinkName(data);
    match d
    case Markdown =>
      UnwrapWrapped("[", name, "](", data.href, ")");
    case Html =>
      UnwrapWrapped("<a href=\"", data.href, "\">", name, "</a>");
    case Latex =>
      UnwrapWrapped(LatexPrefix, data.href, "}{", name, "}");
  }

  /** Without escaping, two different pages can give the same Markdown link:
      a selection holding `](` is indistinguishable from an address that
      does. */
  lemma MarkdownIsAmbiguousWithoutEscaping()
    ensures var one := PageData("b](c", "", "a");
            var two := PageData("c", "", "a](b");
            one != two && GetFormattedLink(one, EmptyStore) == GetFormattedLink(two, EmptyStore)
  {
    var one := PageData("b](c", "", "a");
    var two := PageData("c", "", "a](b");
    assert GetFormattedLink(one, EmptyStore) == "[a](b](c)";
    assert GetFormattedLink(two, EmptyStore) == "[a](b](c)";
  }
}
