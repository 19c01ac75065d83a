/**
 * The two URLs of a table row, both rooted at the manager base URL and built by
 * plain string concatenation: the blueprint image and the deep link into the
 * manager's deployment page.  The deployment id is inserted unescaped, four
 * times, into the deep link.
 */
module Links {
  import opened Wrappers

  /** The manager base URL as the source writes it (single quotes: `${...}` is literal text). */
  const ManagerUrl: string := "http://${CLOUDIFY_MANAGER_IP}"

  const ImagePath: string := "/console/ba/image/"

  function ImageUrl(manager: string, blueprintId: string): string {
    manager + ImagePath + blueprintId
  }

  /** The fixed pieces of the deep link, around and between the four copies of the id. */
  const PagePath: string := "/console/page/services_deployment/"
  const QueryOpen: string := "?c=[{\"context\"%3A{\"deploymentId\"%3A\""
  const QueryMapOpen: string := "\"%2C\"mapOpen\"%3Afalse}}%2C{\"context\"%3A{\"deploymentId\"%3A\""
  const QueryPageName: string := "\"}%2C\"pageName\"%3A\""
  const QueryClose: string := "\"}]"

  /** The shape of the deep-link expression: base, path, then a hole before each of four fixed pieces. */
  function FourHoleTemplate(m: string, a: string, b: string, c: string, d: string, e: string, x: string): string {
    m + a + x + b + x + c + x + d + x + e
  }

  function DeepLink(manager: string, id: string): string {
    FourHoleTemplate(manager, PagePath, QueryOpen, QueryMapOpen, QueryPageName, QueryClose, id)
  }

  // ---- reading the URLs back ---------------------------------------------

  /** The blueprint id an image URL was built from, if it was built at all from this base. */
  function BlueprintOfImageUrl(manager: string, url: string): Option<string> {
    var prefix := manager + ImagePath;
    if |prefix| <= |url| && url[..|prefix|] == prefix then Some(url[|prefix|..]) else None
  }

  /**
   * The string a four-hole template was filled with.  The fixed pieces fix the
   * length of the filler; the first hole gives a candidate, which must rebuild `s`.
   */
  function ReadFourHoleTemplate(m: string, a: string, b: string, c: string, d: string, e: string, s: string): Option<string> {
    var fixed := |m| + |a| + |b| + |c| + |d| + |e|;
    if |s| < fixed || (|s| - fixed) % 4 != 0 then None
    else
      var n := (|s| - fixed) / 4;
      var x := s[|m| + |a| .. |m| + |a| + n];
      if FourHoleTemplate(m, a, b, c, d, e, x) == s then Some(x) else None
  }

  function IdOfDeepLink(manager: string, link: string): Option<string> {
    ReadFourHoleTemplate(manager, PagePath, QueryOpen, QueryMapOpen, QueryPageName, QueryClose, link)
  }

  // ---- properties of the template, for any pieces -------------------------

  /** If `u + v` begins `s`, then `v` stands in `s` right after `u`. */
  lemma PieceAt(u: string, v: string, s: string)
    requires u + v <= s
    ensures u <= s && s[|u|..|u| + |v|] == v
  {
    assert (u + v)[|u|..|u| + |v|] == v;
  }

  /**
   * Where each piece of a filled template lies: the base and first fixed piece,
   * then the filler verbatim at four positions, each followed by its fixed
   * piece, and nothing else.  `DeepLink` is this template with the deep-link
   * pieces and the deployment id.
   */
  lemma FourHoles(m: string, a: string, b: string, c: string, d: string, e: string, x: string)
    ensures var s, n := FourHoleTemplate(m, a, b, c, d, e, x), |x|;
      var h0 := |m| + |a|;
      var h1 := h0 + n + |b|;
      var h2 := h1 + n + |c|;
      var h3 := h2 + n + |d|;
      && |s| == |m| + |a| + |b| + |c| + |d| + |e| + 4 * n
      && s[..h0 + n] == m + a + x
      && s[h0..h0 + n] == x && s[h1..h1 + n] == x && s[h2..h2 + n] == x && s[h3..h3 + n] == x
      && s[h0 + n..h1] == b && s[h1 + n..h2] == c && s[h2 + n..h3] == d && s[h3 + n..] == e
  {
    var p0 := m + a;
    var p1 := p0 + x;
    var p2 := p1 + b;
    var p3 := p2 + x;
    var p4 := p3 + c;
    var p5 := p4 + x;
    var p6 := p5 + d;
    var p7 := p6 + x;
    var s := p7 + e;
    assert s[|p7|..] == e;
    PieceAt(p6, x, s);
    PieceAt(p5, d, s);
    PieceAt(p4, x, s);
    PieceAt(p3, c, s);
    PieceAt(p2, x, s);
    PieceAt(p1, b, s);
    PieceAt(p0, x, s);
  }

  lemma TemplateRoundTrip(m: string, a: string, b: string, c: string, d: string, e: string, x: string)
    ensures ReadFourHoleTemplate(m, a, b, c, d, e, FourHoleTemplate(m, a, b, c, d, e, x)) == Some(x)
  {
    var s := FourHoleTemplate(m, a, b, c, d, e, x);
    var fixed := |m| + |a| + |b| + |c| + |d| + |e|;
    assert |s| - fixed == 4 * |x|;
    var p0 := m + a;
    var p1 := p0 + x;
    var p7 := p1 + b + x + c + x + d + x;
    assert s == p7 + e;
    PieceAt(p7, e, s);
    assert p1 <= p7;
    PieceAt(p0, x, s);
  }

  // ---- properties of the two URLs -----------------------------------------

  /** The image URL holds exactly the blueprint id after the fixed prefix, and nothing else builds it. */
  lemma ImageUrlRoundTrip(manager: string, blueprintId: string, url: string)
    ensures BlueprintOfImageUrl(manager, ImageUrl(manager, blueprintId)) == Some(blueprintId)
    ensures BlueprintOfImageUrl(manager, url) == Some(blueprintId) <==> url == ImageUrl(manager, blueprintId)
  {
    var prefix := manager + ImagePath;
    assert ImageUrl(manager, blueprintId) == prefix + blueprintId;
    assert (prefix + blueprintId)[..|prefix|] == prefix;
    assert (prefix + blueprintId)[|prefix|..] == blueprintId;
    if BlueprintOfImageUrl(manager, url) == Some(blueprintId) {
      assert url == url[..|prefix|] + url[|prefix|..];
    }
  }

  /** Round trip: a deep link gives back the id it was built from, and only that link gives that id. */
  lemma DeepLinkRoundTrip(manager: string, id: string, link: string)
    ensures IdOfDeepLink(manager, DeepLink(manager, id)) == Some(id)
    ensures IdOfDeepLink(manager, link) == Some(id) <==> link == DeepLink(manager, id)
  {
    TemplateRoundTrip(manager, PagePath, QueryOpen, QueryMapOpen, QueryPageName, QueryClose, id);
  }

  /** Different deployments get different deep links. */
  lemma DeepLinkInjective(manager: string, a: string, b: string)
    requires DeepLink(manager, a) == DeepLink(manager, b)
    ensures a == b
  {
    DeepLinkRoundTrip(manager, a, DeepLink(manager, a));
    DeepLinkRoundTrip(manager, b, DeepLink(manager, b));
  }
}
