/** The markup rules of `check_tags`: lookups of the first matching element
    with their fallback literals, heading counts, Open Graph and schema flags,
    iframe source attributes, and the loops over anchors and images. The
    parsed document is a sequence of elements in document order, so
    `soup.find` is the first element that matches and `soup.find_all` the
    elements that match, in order. */
module Markup {
  import opened Values
  import opened Text
  import Helpers

  // ---------------------------------------------------------------------------
  // Queries over the document

  /** Index of the first element satisfying `p` (`soup.find`). */
  function First(doc: seq<Element>, p: Element -> bool): (r: Option<nat>)
    ensures r.None? <==> forall i | 0 <= i < |doc| :: !p(doc[i])
    ensures r.Some? ==> r.value < |doc| && p(doc[r.value]) && forall j | 0 <= j < r.value :: !p(doc[j])
  {
    if doc == [] then None
    else if p(doc[0]) then Some(0)
    else match First(doc[1..], p)
      case None => None
      case Some(k) => Some(k + 1)
  }

  /** A whitespace character as Python's `\s` and `str.isspace` count it:
      the ASCII controls tab to carriage return and the separators U+001C to
      U+001F, the space, NEL, no-break space and the Unicode space separators. */
  predicate IsSpace(c: char) {
    || '\U{0009}' <= c <= '\U{000D}'
    || '\U{001C}' <= c <= '\U{0020}'
    || c == '\U{0085}' || c == '\U{00A0}' || c == '\U{1680}'
    || '\U{2000}' <= c <= '\U{200A}'
    || c == '\U{2028}' || c == '\U{2029}' || c == '\U{202F}' || c == '\U{205F}' || c == '\U{3000}'
  }

  predicate NotSpace(c: char) {
    !IsSpace(c)
  }

  function JoinSpace(tokens: seq<string>): string {
    if tokens == [] then "" else if |tokens| == 1 then tokens[0] else tokens[0] + " " + JoinSpace(tokens[1..])
  }

  /** `rel` is a multi-valued attribute: `find(..., rel=v)` matches when `v` is
      one of its whitespace-separated tokens or the tokens joined by single
      spaces. */
  predicate RelMatches(e: Element, v: string) {
    "rel" in e.attrs &&
    var tokens := Runs(e.attrs["rel"], NotSpace);
    v in tokens || JoinSpace(tokens) == v
  }

  predicate IsIconLink(e: Element) { e.tag == "link" && RelMatches(e, "icon") }
  predicate IsShortcutIconLink(e: Element) { e.tag == "link" && RelMatches(e, "shortcut icon") }
  predicate IsCanonicalLink(e: Element) { e.tag == "link" && RelMatches(e, "canonical") }
  predicate IsTitle(e: Element) { e.tag == "title" }
  predicate IsDescriptionMeta(e: Element) { e.tag == "meta" && "name" in e.attrs && e.attrs["name"] == "description" }
  predicate IsRobotsMeta(e: Element) { e.tag == "meta" && "name" in e.attrs && e.attrs["name"] == "robots" }
  predicate IsH1(e: Element) { e.tag == "h1" }
  predicate IsIframe(e: Element) { e.tag == "iframe" }
  predicate IsImage(e: Element) { e.tag == "img" }
  /** `find_all('a', href=True)` */
  predicate IsAnchor(e: Element) { e.tag == "a" && "href" in e.attrs }

  /** A `meta` whose `property` is non-empty and starts with `og:`. */
  predicate IsOgMeta(e: Element) {
    e.tag == "meta" && "property" in e.attrs && e.attrs["property"] != "" && IsPrefix("og:", e.attrs["property"])
  }

  predicate IsSchemaScript(e: Element) {
    e.tag == "script" && "type" in e.attrs && e.attrs["type"] == "application/ld+json"
  }

  // ---------------------------------------------------------------------------
  // Field rules

  /** `Favicon Link`: the first link that `isIcon` accepts (or, when there
      is none, the first that `isShortcut` accepts) resolved against the page
      URL when it has an `href`. */
  function FaviconBy(doc: seq<Element>, isIcon: Element -> bool, isShortcut: Element -> bool,
                     url: string, join: (string, string) -> string): (r: Value)
    ensures (forall i | 0 <= i < |doc| :: !isIcon(doc[i]) && !isShortcut(doc[i])) ==>
              r == Str("No favicon link")
    ensures forall i | 0 <= i < |doc| && isIcon(doc[i]) && (forall j | 0 <= j < i :: !isIcon(doc[j])) ::
              r == if "href" in doc[i].attrs then Str(join(url, doc[i].attrs["href"])) else Str("No favicon link")
    ensures forall i | 0 <= i < |doc| && (forall j | 0 <= j < |doc| :: !isIcon(doc[j])) &&
                       isShortcut(doc[i]) && (forall j | 0 <= j < i :: !isShortcut(doc[j])) ::
              r == if "href" in doc[i].attrs then Str(join(url, doc[i].attrs["href"])) else Str("No favicon link")
  {
    var found := match First(doc, isIcon)
      case Some(i) => Some(i)
      case None => First(doc, isShortcut);
    if found.Some? && "href" in doc[found.value].attrs
    then Str(join(url, doc[found.value].attrs["href"]))
    else Str("No favicon link")
  }

  function Favicon(doc: seq<Element>, url: string, join: (string, string) -> string): Value {
    FaviconBy(doc, IsIconLink, IsShortcutIconLink, url, join)
  }

  /** Two or more tokens joined by single spaces contain a space. */
  lemma SpaceInJoin(tokens: seq<string>)
    ensures |tokens| >= 2 ==> ' ' in JoinSpace(tokens)
  {
    if |tokens| >= 2 {
      assert JoinSpace(tokens)[|tokens[0]|] == ' ';
    }
  }

  /** Tokens joined by single spaces spell a word without spaces only when
      that word is the single token. */
  lemma JoinSpaceSingle(tokens: seq<string>, w: string)
    requires tokens != [] && JoinSpace(tokens) == w && ' ' !in w
    ensures |tokens| == 1 && tokens[0] == w
  {
    SpaceInJoin(tokens);
  }

  /** A string splits at its first space in one way only. */
  lemma SplitAtFirstSpace(x: string, y: string, x2: string, y2: string)
    requires ' ' !in x && ' ' !in x2
    requires x + " " + y == x2 + " " + y2
    ensures x == x2 && y == y2
  {
    var s := x + " " + y;
    forall i | 0 <= i < |x| ensures s[i] != ' ' {
      assert s[i] == x[i];
    }
    forall i | 0 <= i < |x2| ensures s[i] != ' ' {
      assert s[i] == x2[i];
    }
    assert s[|x|] == ' ' && s[|x2|] == ' ';
    assert x == s[..|x|];
    assert y == s[|x| + 1..];
  }

  /** Every link that `rel="shortcut icon"` finds is also found by
      `rel="icon"`: whitespace-free tokens can only spell `shortcut icon`
      when they are `shortcut` and `icon`. */
  lemma ShortcutIsIcon(e: Element)
    requires IsShortcutIconLink(e)
    ensures IsIconLink(e)
  {
    var tokens := Runs(e.attrs["rel"], NotSpace);
    var v := "shortcut icon";
    assert v == "shortcut" + " " + "icon";
    assert v[8] in v && v[8] == ' ';
    assert v !in tokens;
    assert JoinSpace(tokens) == v;
    assert tokens != [];
    assert tokens[0] in tokens;
    assert |tokens| >= 2;
    SplitAtFirstSpace(tokens[0], JoinSpace(tokens[1..]), "shortcut", "icon");
    JoinSpaceSingle(tokens[1..], "icon");
    assert tokens[1] in tokens;
  }

  /** So the `shortcut icon` fallback of `Favicon Link` never changes its value:
      a page without an `icon` link has no favicon link. */
  lemma FaviconWithoutIcon(doc: seq<Element>, url: string, join: (string, string) -> string)
    requires forall i | 0 <= i < |doc| :: !IsIconLink(doc[i])
    ensures Favicon(doc, url, join) == Str("No favicon link")
  {
    forall i | 0 <= i < |doc| ensures !IsShortcutIconLink(doc[i]) {
      if IsShortcutIconLink(doc[i]) {
        ShortcutIsIcon(doc[i]);
      }
    }
  }

  /** `Title`: the text of the first `title`, or `"No title"`. */
  function Title(doc: seq<Element>): (r: Value)
    ensures (forall i | 0 <= i < |doc| :: !IsTitle(doc[i])) ==> r == Str("No title")
    ensures forall i | 0 <= i < |doc| && IsTitle(doc[i]) && (forall j | 0 <= j < i :: !IsTitle(doc[j])) ::
              r == Str(doc[i].text)
  {
    match First(doc, IsTitle)
    case None => Str("No title")
    case Some(i) => Str(doc[i].text)
  }

  /** `Description`, `Robots Tag` and `Canonical Tag`: the attribute `attr`
      of the first element that `matches` accepts, or the fallback literal; a
      matching element without that attribute raises `KeyError`. */
  function FirstAttribute(doc: seq<Element>, matches: Element -> bool, attr: string, fallback: string): (r: Outcome<Value>)
    ensures (forall i | 0 <= i < |doc| :: !matches(doc[i])) ==> r == Done(Str(fallback))
    ensures forall i | 0 <= i < |doc| && matches(doc[i]) && (forall j | 0 <= j < i :: !matches(doc[j])) ::
              r == if attr in doc[i].attrs then Done(Str(doc[i].attrs[attr])) else Raised(MissingAttribute(attr))
  {
    match First(doc, matches)
    case None => Done(Str(fallback))
    case Some(i) =>
      if attr in doc[i].attrs then Done(Str(doc[i].attrs[attr])) else Raised(MissingAttribute(attr))
  }

  function Description(doc: seq<Element>): Outcome<Value> {
    FirstAttribute(doc, IsDescriptionMeta, "content", "No description")
  }

  function RobotsMeta(doc: seq<Element>): Outcome<Value> {
    FirstAttribute(doc, IsRobotsMeta, "content", "No robots tag")
  }

  function Canonical(doc: seq<Element>): Outcome<Value> {
    FirstAttribute(doc, IsCanonicalLink, "href", "No canonical tag")
  }

  /** `H1 Tags Text`: the stripped text of every `h1`, or `"No H1 tags"` when there is none. */
  function H1Texts(doc: seq<Element>): (r: Value)
    ensures r == Str("No H1 tags") <==> (forall i | 0 <= i < |doc| :: !IsH1(doc[i]))
    ensures r != Str("No H1 tags") ==> (r.List? && |r.items| == |Filter(doc, IsH1)| &&
              forall i | 0 <= i < |r.items| :: r.items[i] == Str(Filter(doc, IsH1)[i].strippedText))
  {
    var h1s := Filter(doc, IsH1);
    if h1s == [] then
      assert forall i | 0 <= i < |doc| :: !IsH1(doc[i]) by {
        forall i | 0 <= i < |doc| ensures !IsH1(doc[i]) {
          assert doc[i] in doc;
        }
      }
      Str("No H1 tags")
    else
      assert h1s[0] in h1s;
      List(seq(|h1s|, i requires 0 <= i < |h1s| => Str(h1s[i].strippedText)))
  }

  function HasTag(tag: string): Element -> bool {
    (e: Element) => e.tag == tag
  }

  /** `Hn Count`: the number of elements with the tag (`len(find_all(tag))`). */
  function TagCount(doc: seq<Element>, tag: string): (n: nat)
    ensures n == |Filter(doc, HasTag(tag))|
    ensures n <= |doc|
    ensures n == 0 <==> forall i | 0 <= i < |doc| :: doc[i].tag != tag
  {
    var n := CountIf(doc, HasTag(tag));
    assert n == 0 <==> forall i | 0 <= i < |doc| :: doc[i].tag != tag by {
      if n > 0 {
        assert Filter(doc, HasTag(tag))[0] in Filter(doc, HasTag(tag));
      } else {
        forall i | 0 <= i < |doc| ensures doc[i].tag != tag {
          assert doc[i] in doc;
        }
      }
    }
    n
  }

  function YesNo(b: bool): Value {
    if b then Helpers.Yes else Helpers.No
  }

  /** `OG Tags Available` */
  function OgTags(doc: seq<Element>): (r: Value)
    ensures r == Helpers.Yes <==> exists i | 0 <= i < |doc| :: IsOgMeta(doc[i])
    ensures r == Helpers.Yes || r == Helpers.No
  {
    YesNo(First(doc, IsOgMeta).Some?)
  }

  /** `Schema Markup Available` */
  function SchemaMarkup(doc: seq<Element>): (r: Value)
    ensures r == Helpers.Yes <==> exists i | 0 <= i < |doc| :: IsSchemaScript(doc[i])
    ensures r == Helpers.Yes || r == Helpers.No
  {
    YesNo(First(doc, IsSchemaScript).Some?)
  }

  /** The attributes of an iframe whose name contains `src`. */
  function SrcAttributes(e: Element): (r: map<string, Value>)
    ensures forall k :: k in r <==> k in e.attrs && Contains(k, "src")
    ensures forall k | k in r :: r[k] == Str(e.attrs[k])
  {
    map k | k in e.attrs && Contains(k, "src") :: Str(e.attrs[k])
  }

  const NoIframes := List([Str("Great! No iframes")])

  /** `iframes`: one map of `src`-like attributes per iframe, or the
      one-element "no iframes" list. */
  function Iframes(doc: seq<Element>): (r: Value)
    ensures r == NoIframes <==> (forall i | 0 <= i < |doc| :: !IsIframe(doc[i]))
    ensures r != NoIframes ==> (r.List? && |r.items| == |Filter(doc, IsIframe)| &&
              forall i | 0 <= i < |r.items| :: r.items[i] == Dict(SrcAttributes(Filter(doc, IsIframe)[i])))
  {
    var frames := Filter(doc, IsIframe);
    if frames == [] then
      assert forall i | 0 <= i < |doc| :: !IsIframe(doc[i]) by {
        forall i | 0 <= i < |doc| ensures !IsIframe(doc[i]) {
          assert doc[i] in doc;
        }
      }
      NoIframes
    else
      assert frames[0] in frames;
      var r := List(seq(|frames|, i requires 0 <= i < |frames| => Dict(SrcAttributes(frames[i]))));
      assert r.items[0] != Str("Great! No iframes");
      r
  }

  // ---------------------------------------------------------------------------
  // Anchors

  function Anchors(doc: seq<Element>): (r: seq<Element>)
    ensures forall a | a in r :: IsAnchor(a)
  {
    Filter(doc, IsAnchor)
  }

  /** The `href` of every anchor, in document order. */
  function Hrefs(doc: seq<Element>): (r: seq<string>)
    ensures |r| == |Anchors(doc)|
    ensures forall i | 0 <= i < |r| :: "href" in Anchors(doc)[i].attrs && r[i] == Anchors(doc)[i].attrs["href"]
  {
    var anchors := Anchors(doc);
    assert forall i | 0 <= i < |anchors| :: "href" in anchors[i].attrs by {
      forall i | 0 <= i < |anchors| ensures "href" in anchors[i].attrs {
        assert anchors[i] in anchors;
      }
    }
    seq(|anchors|, i requires 0 <= i < |anchors| => anchors[i].attrs["href"])
  }

  /** Every anchor `href` resolved against the page URL, in document order. */
  function Resolved(doc: seq<Element>, url: string, join: (string, string) -> string): (r: seq<string>)
    ensures |r| == |Hrefs(doc)|
    ensures forall i | 0 <= i < |r| :: r[i] == join(url, Hrefs(doc)[i])
  {
    var hrefs := Hrefs(doc);
    seq(|hrefs|, i requires 0 <= i < |hrefs| => join(url, hrefs[i]))
  }

  const SocialDomains := ["facebook.com", "twitter.com", "instagram.com", "linkedin.com", "youtube.com"]

  predicate IsSocial(href: string) {
    exists i | 0 <= i < |SocialDomains| :: Contains(href, SocialDomains[i])
  }

  /** `social_media_links`: the raw hrefs that contain a listed domain, in
      order (duplicates kept). */
  method CollectSocialLinks(doc: seq<Element>) returns (links: seq<string>)
    ensures links == Filter(Hrefs(doc), IsSocial)
    ensures forall h :: h in links <==> h in Hrefs(doc) && IsSocial(h)
  {
    var anchors := Anchors(doc);
    var hrefs := Hrefs(doc);
    links := [];
    for i := 0 to |anchors|
      invariant links == Filter(hrefs[..i], IsSocial)
    {
      assert anchors[i] in anchors;
      var href := anchors[i].attrs["href"];
      if IsSocial(href) {
        links := links + [href];
      }
      assert hrefs[..i + 1][..i] == hrefs[..i];
    }
    assert hrefs[..|anchors|] == hrefs;
  }

  const NoSocialLinks := "No social media links"
  const NoBrokenLinks := "All links well good"

  /** A collected list as stored in the report: the placeholder text when
      nothing was collected, the list itself otherwise. */
  function ListOr(links: seq<string>, placeholder: string): (r: Value)
    ensures r == Str(placeholder) <==> links == []
    ensures links != [] ==> r.List? && |r.items| == |links| && forall i | 0 <= i < |links| :: r.items[i] == Str(links[i])
  {
    if links == [] then Str(placeholder) else List(seq(|links|, i requires 0 <= i < |links| => Str(links[i])))
  }

  predicate Broken(response: Response) {
    response.NetError? || response.code == 404
  }

  /** The test the broken-link loop applies to a resolved URL. */
  function BrokenUnder(get: string -> Response): string -> bool {
    u => Broken(get(u))
  }

  /** `broken_links`: every resolved anchor URL whose GET answered 404 or
      raised, in document order with duplicates kept. */
  method CollectBrokenLinks(doc: seq<Element>, url: string, get: string -> Response, join: (string, string) -> string)
    returns (broken: seq<string>)
    ensures broken == Filter(Resolved(doc, url, join), BrokenUnder(get))
    ensures forall u :: u in broken <==> u in Resolved(doc, url, join) && Broken(get(u))
  {
    var anchors := Anchors(doc);
    var resolved := Resolved(doc, url, join);
    broken := [];
    for i := 0 to |anchors|
      invariant broken == Filter(resolved[..i], BrokenUnder(get))
    {
      assert anchors[i] in anchors;
      var fullUrl := join(url, anchors[i].attrs["href"]);
      var linkResponse := get(fullUrl);
      if linkResponse.NetError? {
        broken := broken + [fullUrl];
      } else if linkResponse.code == 404 {
        broken := broken + [fullUrl];
      }
      assert resolved[..i + 1][..i] == resolved[..i];
    }
    assert resolved[..|anchors|] == resolved;
  }

  // ---------------------------------------------------------------------------
  // Images

  function Images(doc: seq<Element>): seq<Element> {
    Filter(doc, IsImage)
  }

  predicate HasAlt(e: Element) {
    "alt" in e.attrs && e.attrs["alt"] != ""
  }

  /** `Images with Alt Text`: the images whose `alt` is present and non-empty. */
  function AltCount(doc: seq<Element>): (n: nat)
    ensures n <= |Images(doc)|
    ensures n == |Filter(Images(doc), HasAlt)|
  {
    CountIf(Images(doc), HasAlt)
  }

  /** The image's absolute URL: `urljoin(url, None)` gives back `url`. */
  function ImageUrl(e: Element, url: string, join: (string, string) -> string): string {
    if "src" in e.attrs then join(url, e.attrs["src"]) else url
  }

  /** One entry of `Image Details`. */
  function ImageEntry(e: Element, url: string, join: (string, string) -> string, imageBytes: string -> Option<nat>): Value {
    var fullUrl := ImageUrl(e, url, join);
    Dict(map[
      "src" := Str(fullUrl),
      "alt" := Str(if "alt" in e.attrs then e.attrs["alt"] else "N/A"),
      "size" := Helpers.ImageSize(imageBytes(fullUrl))
    ])
  }

  /** `Image Details`: one entry per image, in document order. */
  method CollectImageDetails(doc: seq<Element>, url: string, join: (string, string) -> string, imageBytes: string -> Option<nat>)
    returns (details: seq<Value>)
    ensures |details| == |Images(doc)|
    ensures forall i | 0 <= i < |details| :: details[i] == ImageEntry(Images(doc)[i], url, join, imageBytes)
  {
    var images := Images(doc);
    details := [];
    for i := 0 to |images|
      invariant |details| == i
      invariant forall j | 0 <= j < i :: details[j] == ImageEntry(images[j], url, join, imageBytes)
    {
      var img := images[i];
      var alt := if "alt" in img.attrs then img.attrs["alt"] else "N/A";
      var fullUrl := ImageUrl(img, url, join);
      var size := Helpers.ImageSize(imageBytes(fullUrl));
      details := details + [Dict(map["src" := Str(fullUrl), "alt" := Str(alt), "size" := size])];
    }
  }

  /** Each image entry has exactly the keys `src`, `alt` and `size`; `alt` is
      the attribute's value, `'N/A'` when the image has none; and the size is
      `'N/A'` exactly when the download fails. */
  lemma ImageEntryShape(e: Element, url: string, join: (string, string) -> string, imageBytes: string -> Option<nat>)
    ensures var d := ImageEntry(e, url, join, imageBytes);
            && d.Dict? && d.entries.Keys == {"src", "alt", "size"}
            && ("alt" !in e.attrs ==> d.entries["alt"] == Str("N/A"))
            && ("alt" in e.attrs ==> d.entries["alt"] == Str(e.attrs["alt"]))
            && (d.entries["size"] == Str("N/A") <==> imageBytes(ImageUrl(e, url, join)).None?)
  {
  }

  // ---------------------------------------------------------------------------
  // Internal and external links

  /** Whether a resolved URL shares the page's network location. */
  function SameHost(netloc: string -> string, pageHost: string): string -> bool {
    u => netloc(u) == pageHost
  }

  function OtherHost(netloc: string -> string, pageHost: string): string -> bool {
    u => netloc(u) != pageHost
  }

  /** The link loop of `check_tags`, once the two lists exist: each resolved
      anchor URL goes to `internal` when its network location is the page's,
      to `external` otherwise. */
  method PartitionLinks(doc: seq<Element>, url: string, join: (string, string) -> string, netloc: string -> string)
    returns (internal: seq<string>, external: seq<string>)
    ensures internal == Filter(Resolved(doc, url, join), SameHost(netloc, netloc(url)))
    ensures external == Filter(Resolved(doc, url, join), OtherHost(netloc, netloc(url)))
    ensures |internal| + |external| == |Anchors(doc)|
  {
    var anchors := Anchors(doc);
    var resolved := Resolved(doc, url, join);
    var pageHost := netloc(url);
    internal, external := [], [];
    for i := 0 to |anchors|
      invariant internal == Filter(resolved[..i], SameHost(netloc, pageHost))
      invariant external == Filter(resolved[..i], OtherHost(netloc, pageHost))
    {
      assert anchors[i] in anchors;
      var fullUrl := join(url, anchors[i].attrs["href"]);
      PartitionStep(doc, url, join, netloc, i);
      if netloc(fullUrl) == pageHost {
        internal := internal + [fullUrl];
      } else {
        external := external + [fullUrl];
      }
    }
    assert resolved[..|anchors|] == resolved;
    FilterPartition(resolved, SameHost(netloc, pageHost), OtherHost(netloc, pageHost));
  }

  /** One more anchor extends exactly one of the two lists by its resolved URL. */
  lemma PartitionStep(doc: seq<Element>, url: string, join: (string, string) -> string, netloc: string -> string, i: nat)
    requires i < |Anchors(doc)|
    requires "href" in Anchors(doc)[i].attrs
    ensures var resolved := Resolved(doc, url, join);
            var fullUrl := join(url, Anchors(doc)[i].attrs["href"]);
            var same := SameHost(netloc, netloc(url));
            var other := OtherHost(netloc, netloc(url));
            && Filter(resolved[..i + 1], same) == Filter(resolved[..i], same) + (if same(fullUrl) then [fullUrl] else [])
            && Filter(resolved[..i + 1], other) == Filter(resolved[..i], other) + (if other(fullUrl) then [fullUrl] else [])
  {
    var resolved := Resolved(doc, url, join);
    var fullUrl := join(url, Anchors(doc)[i].attrs["href"]);
    assert resolved[i] == fullUrl;
    assert resolved[..i + 1] == resolved[..i] + [fullUrl];
    FilterSnoc(resolved[..i], fullUrl, SameHost(netloc, netloc(url)));
    FilterSnoc(resolved[..i], fullUrl, OtherHost(netloc, netloc(url)));
  }

  /** Every resolved anchor URL is internal or external and never both. */
  lemma LinkClassification(doc: seq<Element>, url: string, join: (string, string) -> string, netloc: string -> string, u: string)
    requires u in Resolved(doc, url, join)
    ensures var internal := Filter(Resolved(doc, url, join), SameHost(netloc, netloc(url)));
            var external := Filter(Resolved(doc, url, join), OtherHost(netloc, netloc(url)));
            && (u in internal <==> netloc(u) == netloc(url))
            && (u in external <==> netloc(u) != netloc(url))
            && (u in internal || u in external)
  {
  }
}
