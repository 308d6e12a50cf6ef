/** Reading query parameters the way the pages do (`new URLSearchParams(url.split('?')[1] || '')`
    followed by `.get(name)`), and the return URLs the forms build. */
module QueryParams {
  import opened Wrappers
  import opened Text

  /** The text before the first `?`. */
  function PathOf(url: string): string {
    match IndexOf(url, "?")
    case None => url
    case Some(i) => url[..i]
  }

  /** `url.split('?')[1] || ''`: the text between the first `?` and the next one (or the end). */
  function QueryOf(url: string): string {
    match IndexOf(url, "?")
    case None => ""
    case Some(i) =>
      var rest := url[i + 1..];
      match IndexOf(rest, "?")
      case None => rest
      case Some(j) => rest[..j]
  }

  datatype Param = Param(name: string, value: string)

  /** A piece `name=value` is cut at its first `=`; a piece without `=` has the empty value. */
  function ParsePiece(piece: string): Param {
    match IndexOf(piece, "=")
    case None => Param(piece, "")
    case Some(i) => Param(piece[..i], piece[i + 1..])
  }

  /** The parameters of a query: its `&`-separated pieces, empty pieces skipped. */
  function ParsePieces(pieces: seq<string>): seq<Param> {
    if pieces == [] then []
    else if pieces[0] == "" then ParsePieces(pieces[1..])
    else [ParsePiece(pieces[0])] + ParsePieces(pieces[1..])
  }

  /** The value of the first parameter called `name`. */
  function Lookup(params: seq<Param>, name: string): Option<string> {
    if params == [] then None
    else if params[0].name == name then Some(params[0].value)
    else Lookup(params[1..], name)
  }

  /** `URLSearchParams.get(name)` on the query part of `url`; `None` for `null`. */
  function SearchParam(url: string, name: string): Option<string> {
    Lookup(ParsePieces(Split(QueryOf(url), "&")), name)
  }

  // ---------------------------------------------------------------------------
  // Writing a query

  /** A name or value the query syntax keeps intact (percent-encoding is not used here). */
  predicate SafeValue(v: string) { '&' !in v && '?' !in v }
  predicate SafeName(k: string) { SafeValue(k) && '=' !in k }

  function Piece(p: Param): string { p.name + "=" + p.value }

  function Pieces(params: seq<Param>): (r: seq<string>)
    ensures |r| == |params| && forall i | 0 <= i < |params| :: r[i] == Piece(params[i])
  {
    if params == [] then [] else [Piece(params[0])] + Pieces(params[1..])
  }

  function QueryString(params: seq<Param>): string { Join(Pieces(params), "&") }

  predicate SafeParams(params: seq<Param>) {
    forall i | 0 <= i < |params| :: SafeName(params[i].name) && SafeValue(params[i].value)
  }

  lemma CharNotContained(s: string, c: char)
    requires c !in s
    ensures !Contains(s, [c])
  {
    forall i | 0 <= i <= |s|
      ensures !OccursAt([c], s, i)
    {
      if i < |s| {
        assert s[i..i + 1] == [s[i]];
      }
    }
  }

  lemma {:induction false} CharNotInJoin(parts: seq<string>, sep: string, c: char)
    requires c !in sep && forall k | 0 <= k < |parts| :: c !in parts[k]
    ensures c !in Join(parts, sep)
  {
    if |parts| > 1 {
      CharNotInJoin(parts[1..], sep, c);
    }
  }

  lemma ParsePieceOf(p: Param)
    requires SafeName(p.name)
    ensures ParsePiece(Piece(p)) == p
  {
    SingleCharClean(p.name, '=');
    FirstOccurrenceAfterCleanPart(p.name, "=", p.value);
    var s := Piece(p);
    assert s[..|p.name|] == p.name && s[|p.name| + 1..] == p.value;
  }

  lemma {:induction false} ParsePiecesOf(params: seq<Param>)
    requires forall i | 0 <= i < |params| :: SafeName(params[i].name)
    ensures ParsePieces(Pieces(params)) == params
  {
    if params != [] {
      ParsePieceOf(params[0]);
      assert Piece(params[0]) != "";
      assert Pieces(params)[1..] == Pieces(params[1..]);
      ParsePiecesOf(params[1..]);
    }
  }

  /** Reading back a query written from safe parameters gives the first value of each name. */
  lemma SearchParamOfQuery(path: string, params: seq<Param>, name: string)
    requires '?' !in path && params != [] && SafeParams(params)
    ensures SearchParam(path + "?" + QueryString(params), name) == Lookup(params, name)
    ensures PathOf(path + "?" + QueryString(params)) == path
  {
    var q := QueryString(params);
    var url := path + "?" + q;
    var pieces := Pieces(params);
    forall k | 0 <= k < |pieces|
      ensures '?' !in pieces[k] && '&' !in pieces[k]
    {
      assert pieces[k] == params[k].name + "=" + params[k].value;
    }
    SingleCharClean(path, '?');
    FirstOccurrenceAfterCleanPart(path, "?", q);
    assert url[..|path|] == path && url[|path| + 1..] == q;
    CharNotInJoin(pieces, "&", '?');
    CharNotContained(q, '?');
    assert QueryOf(url) == q;
    forall k | 0 <= k < |pieces|
      ensures EndsCleanly(pieces[k], "&")
    {
      SingleCharClean(pieces[k], '&');
    }
    SplitJoin(pieces, "&");
    ParsePiecesOf(params);
  }

  /** A URL without `?` has an empty query: every parameter reads as `null`. */
  lemma NoQueryNoParams(url: string, name: string)
    requires '?' !in url
    ensures SearchParam(url, name) == None && PathOf(url) == url
  {
    CharNotContained(url, '?');
    assert QueryOf(url) == "";
    assert IndexOf("", "&") == None by {
      assert !OccursAt("&", "", 0);
    }
    assert Split("", "&") == [""];
    assert ParsePieces([""]) == [];
  }

  // ---------------------------------------------------------------------------
  // Initial page state of the index pages

  /** The request a form sends on submit: the HTTP verb and the path. */
  datatype Method = Put | Post
  datatype Submission = Submission(verb: Method, path: string)

  /** The value a filter input holds, absent when the user never typed in it. */
  function FilterValue(filters: map<string, string>, key: string): Option<string> {
    if key in filters then Some(filters[key]) else None
  }

  /** `pageParam ? parseInt(pageParam) : 1`, with `pageParam = urlParams.get('page')`. */
  function InitialPage(url: string): (r: JsInt)
    ensures !Truthy(SearchParam(url, "page")) ==> r == Int(1)
  {
    var p := SearchParam(url, "page");
    if Truthy(p) then ParseIntPrefix(p.value) else Int(1)
  }

  /** `perPageParam ? parseInt(perPageParam) : 10`, with `perPageParam = urlParams.get('per_page')`. */
  function InitialPerPage(url: string): (r: JsInt)
    ensures !Truthy(SearchParam(url, "per_page")) ==> r == Int(10)
  {
    var p := SearchParam(url, "per_page");
    if Truthy(p) then ParseIntPrefix(p.value) else Int(10)
  }

  /** Without a query the pages start on page 1 with 10 rows per page. */
  lemma PageDefaults(url: string)
    requires '?' !in url
    ensures InitialPage(url) == Int(1) && InitialPerPage(url) == Int(10)
  {
    NoQueryNoParams(url, "page");
    NoQueryNoParams(url, "per_page");
  }

  /** `path?page=p&per_page=n`. */
  function PageLink(path: string, page: string, perPage: string): string {
    path + "?page=" + page + "&per_page=" + perPage
  }

  lemma PageLinkParams(path: string, page: string, perPage: string)
    requires '?' !in path && SafeValue(page) && SafeValue(perPage)
    ensures SearchParam(PageLink(path, page, perPage), "page") == Some(page)
    ensures SearchParam(PageLink(path, page, perPage), "per_page") == Some(perPage)
  {
    var params := [Param("page", page), Param("per_page", perPage)];
    var a, b := Piece(params[0]), Piece(params[1]);
    assert Pieces(params) == [a, b];
    assert [a, b][1..] == [b];
    assert Join([a, b], "&") == a + "&" + Join([b], "&");
    assert QueryString(params) == a + "&" + b;
    assert a == "page=" + page && b == "per_page=" + perPage;
    assert PageLink(path, page, perPage) == path + "?" + QueryString(params);
    assert SafeParams(params);
    SearchParamOfQuery(path, params, "page");
    SearchParamOfQuery(path, params, "per_page");
  }

  /** A page link written with decimal numbers is read back as those numbers. */
  lemma PageRoundTrip(path: string, page: nat, perPage: nat)
    requires '?' !in path
    ensures var url := PageLink(path, NatToString(page), NatToString(perPage));
            InitialPage(url) == Int(page) && InitialPerPage(url) == Int(perPage)
  {
    var p, q := NatToString(page), NatToString(perPage);
    assert '&' !in p && '?' !in p by { assert AllDigits(p); }
    assert '&' !in q && '?' !in q by { assert AllDigits(q); }
    PageLinkParams(path, p, q);
    ParseIntPrefixOfNatToString(page);
    ParseIntPrefixOfNatToString(perPage);
  }

  // ---------------------------------------------------------------------------
  // Return URLs built by the forms after a successful submit

  /** The flat builder: `url += ?page=…` when `page` is truthy, then, independently,
      `url += &per_page=…` when `perPage` is truthy. */
  function FlatReturnUrl(base: string, page: Option<string>, perPage: Option<string>): string {
    base + (if Truthy(page) then "?page=" + page.value else "") +
    (if Truthy(perPage) then "&per_page=" + perPage.value else "")
  }

  /** The nested builder: `per_page` is added only inside the `page` branch. */
  function NestedReturnUrl(base: string, page: Option<string>, perPage: Option<string>): string {
    if Truthy(page) then
      base + "?page=" + page.value + (if Truthy(perPage) then "&per_page=" + perPage.value else "")
    else base
  }

  function PageParams(page: Option<string>, perPage: Option<string>): seq<Param> {
    (if Truthy(page) then [Param("page", page.value)] else []) +
    (if Truthy(perPage) then [Param("per_page", perPage.value)] else [])
  }

  /** The URL the flat builder means to produce: the given parameters after one `?`. */
  function ReturnUrl(base: string, page: Option<string>, perPage: Option<string>): string {
    var ps := PageParams(page, perPage);
    if ps == [] then base else base + "?" + QueryString(ps)
  }

  predicate SafeOption(v: Option<string>) { v.Some? ==> SafeValue(v.value) }

  /** The index page reads back from the corrected URL exactly the truthy parameters. */
  lemma ReturnUrlReadBack(base: string, page: Option<string>, perPage: Option<string>)
    requires '?' !in base && SafeOption(page) && SafeOption(perPage)
    ensures var url := ReturnUrl(base, page, perPage);
            PathOf(url) == base &&
            SearchParam(url, "page") == (if Truthy(page) then page else None) &&
            SearchParam(url, "per_page") == (if Truthy(perPage) then perPage else None)
  {
    var ps := PageParams(page, perPage);
    var url := ReturnUrl(base, page, perPage);
    if ps == [] {
      NoQueryNoParams(base, "page");
      NoQueryNoParams(base, "per_page");
    } else {
      assert SafeName("page") && SafeName("per_page");
      assert SafeParams(ps);
      SearchParamOfQuery(base, ps, "page");
      SearchParamOfQuery(base, ps, "per_page");
    }
  }

  /** With a page the flat builder already writes the intended URL. */
  lemma FlatReturnUrlWithPage(base: string, page: Option<string>, perPage: Option<string>)
    requires Truthy(page)
    ensures FlatReturnUrl(base, page, perPage) == ReturnUrl(base, page, perPage)
  {
    var p := page.value;
    if Truthy(perPage) {
      var q := perPage.value;
      var ps := [Param("page", p), Param("per_page", q)];
      assert PageParams(page, perPage) == ps;
      assert Pieces(ps) == [Piece(ps[0]), Piece(ps[1])];
      assert [Piece(ps[0]), Piece(ps[1])][1..] == [Piece(ps[1])];
      assert Join([Piece(ps[0]), Piece(ps[1])], "&") == Piece(ps[0]) + "&" + Join([Piece(ps[1])], "&");
      assert QueryString(ps) == Piece(ps[0]) + "&" + Piece(ps[1]);
    } else {
      assert PageParams(page, perPage) == [Param("page", p)];
      assert QueryString([Param("page", p)]) == "page=" + p;
    }
  }

  /** Without a page the flat builder appends `&per_page=…` to the path: the result has no
      query, so the page size is lost, and it differs from the intended URL. */
  lemma FlatReturnUrlDropsPerPage(base: string, perPage: Option<string>)
    requires '?' !in base && Truthy(perPage) && SafeValue(perPage.value)
    ensures var url := FlatReturnUrl(base, None, perPage);
            url == base + "&per_page=" + perPage.value &&
            PathOf(url) == url && SearchParam(url, "per_page") == None &&
            url != ReturnUrl(base, None, perPage)
  {
    var v := perPage.value;
    var url := FlatReturnUrl(base, None, perPage);
    var tail := "&per_page=" + v;
    assert url == base + tail;
    assert '?' !in "&per_page=";
    assert '?' !in tail;
    assert '?' !in url;
    NoQueryNoParams(url, "per_page");
    ReturnUrlReadBack(base, None, perPage);
    assert SearchParam(ReturnUrl(base, None, perPage), "per_page") == perPage;
  }

  /** The nested builder keeps `per_page` only together with `page`; with a page it writes
      the intended URL, without one the bare path. */
  lemma NestedReturnUrlReadBack(base: string, page: Option<string>, perPage: Option<string>)
    requires '?' !in base && SafeOption(page) && SafeOption(perPage)
    ensures var url := NestedReturnUrl(base, page, perPage);
            PathOf(url) == base &&
            SearchParam(url, "page") == (if Truthy(page) then page else None) &&
            SearchParam(url, "per_page") == (if Truthy(page) && Truthy(perPage) then perPage else None)
    ensures Truthy(page) ==> NestedReturnUrl(base, page, perPage) == ReturnUrl(base, page, perPage)
    ensures !Truthy(page) ==> NestedReturnUrl(base, page, perPage) == base
  {
    if Truthy(page) {
      FlatReturnUrlWithPage(base, page, perPage);
      assert NestedReturnUrl(base, page, perPage) == FlatReturnUrl(base, page, perPage);
      ReturnUrlReadBack(base, page, perPage);
    } else {
      NoQueryNoParams(base, "page");
      NoQueryNoParams(base, "per_page");
    }
  }
}
