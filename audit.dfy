/** The report builder (`check_tags`) and the merge of its report with the
    robots/sitemap/HTTPS flags. Every network call, the HTML parser, the JSON
    decoder, the WHOIS client and the URL functions are fields of `World`:
    the model assumes nothing about them beyond determinism. */
module Audit {
  import opened Values
  import opened Text
  import Keywords
  import Whois
  import PageSpeed
  import Helpers
  import opened Markup

  /** The collaborators the audit calls: `requests.get`, BeautifulSoup,
      `response.json()`, the image download of `get_image_size`,
      `whois.whois`, `urljoin`, `urlparse(..).netloc`, `urlparse(..).scheme`
      and the stop-word list. */
  datatype World = World(
    get: string -> Response,
    parse: string -> Page,
    decodeJson: string -> Option<Value>,
    imageBytes: string -> Option<nat>,
    whois: string -> Whois.Lookup,
    join: (string, string) -> string,
    netloc: string -> string,
    scheme: string -> string,
    stopWords: set<string>)

  /** The fields a WHOIS record can hold. */
  const WhoisKeys: set<Field> :=
    {DomainName, Registrar, CreationDate, ExpirationDate, LastUpdated, NameServers, DomainStatus, Error}

  /** The report every audit starts from: only `URL` is set. */
  function Template(url: string): Report {
    map[
      Url := Str(url),
      FaviconLink := Str(""),
      PageTitle := Str(""),
      MetaDescription := Str(""),
      H1TagsText := Dict(map[]),
      HeadingCount(1) := Int(0),
      HeadingCount(2) := Int(0),
      HeadingCount(3) := Int(0),
      HeadingCount(4) := Int(0),
      HeadingCount(5) := Int(0),
      HeadingCount(6) := Int(0),
      CanonicalTag := Str(""),
      RobotsTag := Str(""),
      OgTagsAvailable := Str(""),
      SchemaMarkupAvailable := Str(""),
      SocialMediaLinks := List([]),
      IframeList := Dict(map[]),
      BrokenLinks := List([]),
      ImageDetails := List([]),
      InternalLinks := List([]),
      ExternalLinks := List([]),
      TopKeywords := List([]),
      PageSpeedMobile := Dict(map[]),
      PageSpeedDesktop := Dict(map[]),
      Custom404Page := Str(""),
      RobotsTxtAvailable := Str(""),
      SitemapXmlAvailable := Str(""),
      Https := Str("")
    ]
  }

  /** A value the template starts a field with: an empty string, list or
      dictionary, or zero. */
  predicate Blank(v: Value) {
    v == Str("") || v == List([]) || v == Dict(map[]) || v == Int(0)
  }

  /** The untouched report: `URL` holds the page URL; there is no WHOIS,
      error or image-count field. */
  lemma TemplateShape(url: string)
    ensures Holds(Template(url), Url, Str(url))
    ensures ImageCount !in Template(url) && ImagesWithAltText !in Template(url)
  {
  }

  /** Every other template field starts blank. */
  lemma TemplateBlank(url: string, f: Field)
    requires f in Template(url) && f != Url
    ensures Blank(Template(url)[f])
  {
  }

  /** The template overridden by a WHOIS record keeps `URL` and the three
      flags, and holds the record's fields. */
  lemma TemplateBase(url: string, details: Report)
    requires details.Keys <= WhoisKeys
    ensures Holds(Template(url) + details, Url, Str(url))
    ensures forall f | f in FlagKeys :: Holds(Template(url) + details, f, Str(""))
    ensures forall f | f in details :: Holds(Template(url) + details, f, details[f])
  {
    assert Url !in WhoisKeys && FlagKeys !! WhoisKeys;
    assert forall f | f in FlagKeys :: f in Template(url) && Template(url)[f] == Str("");
  }

  function StrList(s: seq<string>): (r: Value)
    ensures r.List? && |r.items| == |s| && forall i | 0 <= i < |s| :: r.items[i] == Str(s[i])
  {
    List(seq(|s|, i requires 0 <= i < |s| => Str(s[i])))
  }

  /** `Top Keywords`: the (word, count) tuples. */
  function KeywordsValue(pairs: seq<(string, nat)>): (r: Value)
    ensures r.List? && |r.items| == |pairs|
    ensures forall i | 0 <= i < |pairs| :: r.items[i] == List([Str(pairs[i].0), Int(pairs[i].1)])
  {
    List(seq(|pairs|, i requires 0 <= i < |pairs| => List([Str(pairs[i].0), Int(pairs[i].1)])))
  }

  /** One entry per image, in document order. */
  function ImageDetailList(doc: seq<Element>, url: string, join: (string, string) -> string,
                           imageBytes: string -> Option<nat>): seq<Value> {
    seq(|Images(doc)|, i requires 0 <= i < |Images(doc)| => ImageEntry(Images(doc)[i], url, join, imageBytes))
  }

  /** The three keys the flag record overrides. */
  const FlagKeys: set<Field> := {RobotsTxtAvailable, SitemapXmlAvailable, Https}

  /** The six heading counts, `h1` to `h6`. */
  function HeadingCounts(doc: seq<Element>): (r: seq<nat>)
    ensures |r| == 6
  {
    [TagCount(doc, "h1"), TagCount(doc, "h2"), TagCount(doc, "h3"),
     TagCount(doc, "h4"), TagCount(doc, "h5"), TagCount(doc, "h6")]
  }

  const HeadKeys: set<Field> := {FaviconLink, PageTitle, MetaDescription, H1TagsText, HeadingCount(1),
                                  HeadingCount(2), HeadingCount(3), HeadingCount(4), HeadingCount(5), HeadingCount(6)}
  const TagKeys: set<Field> := {CanonicalTag, RobotsTag, OgTagsAvailable, SchemaMarkupAvailable, IframeList}
  const LinkKeys: set<Field> := {SocialMediaLinks, BrokenLinks, ImageCount, ImagesWithAltText, ImageDetails,
                                  InternalLinks, ExternalLinks}
  const RemoteKeys: set<Field> := {TopKeywords, PageSpeedMobile, PageSpeedDesktop, Custom404Page}

  /** Fields set from the head of the page and the heading counts. */
  function HeadFields(favicon: Value, title: Value, description: Value, h1Texts: Value, counts: seq<nat>): (r: Report)
    requires |counts| == 6
    ensures r.Keys == HeadKeys
  {
    map[
      FaviconLink := favicon,
      PageTitle := title,
      MetaDescription := description,
      H1TagsText := h1Texts,
      HeadingCount(1) := Int(counts[0]),
      HeadingCount(2) := Int(counts[1]),
      HeadingCount(3) := Int(counts[2]),
      HeadingCount(4) := Int(counts[3]),
      HeadingCount(5) := Int(counts[4]),
      HeadingCount(6) := Int(counts[5])
    ]
  }

  /** Fields set from the canonical and robots tags, OG and schema markup and iframes. */
  function TagFields(canonical: Value, robots: Value, ogTags: Value, schema: Value, iframes: Value): (r: Report)
    ensures r.Keys == TagKeys
  {
    map[
      CanonicalTag := canonical,
      RobotsTag := robots,
      OgTagsAvailable := ogTags,
      SchemaMarkupAvailable := schema,
      IframeList := iframes
    ]
  }

  /** Fields set from the anchors and the images. */
  function LinkFields(social: Value, broken: Value, imageCount: nat, altCount: nat, details: seq<Value>,
                      internal: seq<string>, external: seq<string>): (r: Report)
    ensures r.Keys == LinkKeys
  {
    map[
      SocialMediaLinks := social,
      BrokenLinks := broken,
      ImageCount := Int(imageCount),
      ImagesWithAltText := Int(altCount),
      ImageDetails := List(details),
      InternalLinks := StrList(internal),
      ExternalLinks := StrList(external)
    ]
  }

  /** Fields set from the page text and the remote checks. */
  function RemoteFields(topKeywords: seq<(string, nat)>, mobile: Entries, desktop: Entries, custom404: Value): (r: Report)
    ensures r.Keys == RemoteKeys
  {
    map[
      TopKeywords := KeywordsValue(topKeywords),
      PageSpeedMobile := Dict(mobile),
      PageSpeedDesktop := Dict(desktop),
      Custom404Page := custom404
    ]
  }

  // Filling a group of fields one key at a time gives the report overridden
  // by that group's table.

  lemma HeadUpdates(r: Report, favicon: Value, title: Value, description: Value, h1Texts: Value, counts: seq<nat>)
    requires |counts| == 6
    ensures r[FaviconLink := favicon][PageTitle := title][MetaDescription := description][H1TagsText := h1Texts]
             [HeadingCount(1) := Int(counts[0])][HeadingCount(2) := Int(counts[1])][HeadingCount(3) := Int(counts[2])]
             [HeadingCount(4) := Int(counts[3])][HeadingCount(5) := Int(counts[4])][HeadingCount(6) := Int(counts[5])]
            == r + HeadFields(favicon, title, description, h1Texts, counts)
  {
  }

  lemma TagUpdates(r: Report, canonical: Value, robots: Value, ogTags: Value, schema: Value, iframes: Value)
    ensures r[CanonicalTag := canonical][RobotsTag := robots][OgTagsAvailable := ogTags]
             [SchemaMarkupAvailable := schema][IframeList := iframes]
            == r + TagFields(canonical, robots, ogTags, schema, iframes)
  {
  }

  lemma LinkUpdates(r: Report, social: Value, broken: Value, imageCount: nat, altCount: nat, details: seq<Value>,
                    internal: seq<string>, external: seq<string>)
    ensures r[SocialMediaLinks := social][BrokenLinks := broken][ImageCount := Int(imageCount)]
             [ImagesWithAltText := Int(altCount)][ImageDetails := List(details)]
             [InternalLinks := StrList(internal)][ExternalLinks := StrList(external)]
            == r + LinkFields(social, broken, imageCount, altCount, details, internal, external)
  {
  }

  lemma RemoteUpdates(r: Report, topKeywords: seq<(string, nat)>, mobile: Entries, desktop: Entries, custom404: Value)
    ensures r[TopKeywords := KeywordsValue(topKeywords)][PageSpeedMobile := Dict(mobile)]
             [PageSpeedDesktop := Dict(desktop)][Custom404Page := custom404]
            == r + RemoteFields(topKeywords, mobile, desktop, custom404)
  {
  }

  /** The head fields, or the exception of the description lookup. */
  function HeadStage(doc: seq<Element>, url: string, join: (string, string) -> string): Outcome<Report> {
    var description :- Description(doc);
    Done(HeadFields(Favicon(doc, url, join), Title(doc), description, H1Texts(doc), HeadingCounts(doc)))
  }

  /** The tag fields, or the exception of the canonical or robots lookup. */
  function TagStage(doc: seq<Element>): Outcome<Report> {
    var canonical :- Canonical(doc);
    var robots :- RobotsMeta(doc);
    Done(TagFields(canonical, robots, OgTags(doc), SchemaMarkup(doc), Iframes(doc)))
  }

  /** The local that the link loop touches first when the image loop never
      ran: the list of the first anchor's class, or `internal_links` (read
      after the loop) when there are no anchors. */
  function UnboundName(doc: seq<Element>, url: string, join: (string, string) -> string, netloc: string -> string): string {
    var resolved := Resolved(doc, url, join);
    if resolved == [] || netloc(resolved[0]) == netloc(url) then "internal_links" else "external_links"
  }

  /** The link and image fields, or the unbound-local error of a page without images. */
  function LinkStage(w: World, doc: seq<Element>, url: string): Outcome<Report> {
    if |Images(doc)| == 0 then Raised(UnboundLocal(UnboundName(doc, url, w.join, w.netloc)))
    else
      var resolved := Resolved(doc, url, w.join);
      Done(LinkFields(ListOr(Filter(Hrefs(doc), IsSocial), NoSocialLinks),
                      ListOr(Filter(resolved, BrokenUnder(w.get)), NoBrokenLinks),
                      |Images(doc)|, AltCount(doc), ImageDetailList(doc, url, w.join, w.imageBytes),
                      Filter(resolved, SameHost(w.netloc, w.netloc(url))),
                      Filter(resolved, OtherHost(w.netloc, w.netloc(url)))))
  }

  /** The keyword and remote-check fields, or the exception of the first remote call that raises. */
  function RemoteStage(w: World, url: string, apiKey: string, text: string): Outcome<Report> {
    var mobile :- PageSpeed.Metrics(w.get, w.decodeJson, url, apiKey, "mobile");
    var desktop :- PageSpeed.Metrics(w.get, w.decodeJson, url, apiKey, "desktop");
    var custom404 :- Helpers.CheckCustom404(url, w.get, w.join);
    Done(RemoteFields(Keywords.TopKeywords(text, w.stopWords), mobile, desktop, custom404))
  }

  /** What `check_tags` returns or raises, stated as the template overridden
      by the WHOIS details and then by each group of fields in turn. */
  function AuditReport(w: World, url: string, apiKey: string): Outcome<Report> {
    match w.get(url)
    case NetError(_) => Raised(RequestFailed(url))
    case Status(code, body) =>
      if code != 200 then Done(Template(url))
      else
        var page := w.parse(body);
        var head :- HeadStage(page.elements, url, w.join);
        var tags :- TagStage(page.elements);
        var links :- LinkStage(w, page.elements, url);
        var remote :- RemoteStage(w, url, apiKey, page.text);
        Done(Template(url) + Whois.DomainDetails(w.whois(w.netloc(url))) + head + tags + links + remote)
  }

  /** Lines that fill the favicon, title, description, H1 texts and heading
      counts; the description lookup can raise. */
  method FillHead(report: Report, doc: seq<Element>, url: string, join: (string, string) -> string)
    returns (out: Outcome<Report>)
    ensures HeadStage(doc, url, join).Raised? ==> out == Raised(HeadStage(doc, url, join).error)
    ensures HeadStage(doc, url, join).Done? ==> out == Done(report + HeadStage(doc, url, join).value)
  {
    var r := report;
    var favicon := Favicon(doc, url, join);
    r := r[FaviconLink := favicon];
    var title := Title(doc);
    r := r[PageTitle := title];
    var description :- Description(doc);
    r := r[MetaDescription := description];
    var h1Texts := H1Texts(doc);
    r := r[H1TagsText := h1Texts];
    var counts := HeadingCounts(doc);
    r := r[HeadingCount(1) := Int(counts[0])];
    r := r[HeadingCount(2) := Int(counts[1])];
    r := r[HeadingCount(3) := Int(counts[2])];
    r := r[HeadingCount(4) := Int(counts[3])];
    r := r[HeadingCount(5) := Int(counts[4])];
    r := r[HeadingCount(6) := Int(counts[5])];
    HeadUpdates(report, favicon, title, description, h1Texts, counts);
    return Done(r);
  }

  /** Lines that fill the canonical and robots tags, the OG and schema flags
      and the iframes; the two tag lookups can raise. */
  method FillTags(report: Report, doc: seq<Element>) returns (out: Outcome<Report>)
    ensures TagStage(doc).Raised? ==> out == Raised(TagStage(doc).error)
    ensures TagStage(doc).Done? ==> out == Done(report + TagStage(doc).value)
  {
    var r := report;
    var canonical :- Canonical(doc);
    r := r[CanonicalTag := canonical];
    var robots :- RobotsMeta(doc);
    r := r[RobotsTag := robots];
    var ogTags := OgTags(doc);
    r := r[OgTagsAvailable := ogTags];
    var schema := SchemaMarkup(doc);
    r := r[SchemaMarkupAvailable := schema];
    var iframes := Iframes(doc);
    r := r[IframeList := iframes];
    TagUpdates(report, canonical, robots, ogTags, schema, iframes);
    return Done(r);
  }

  /** Lines that fill the social and broken links, the image fields and the
      internal/external links. With no image the link lists are never bound
      and the first access to one of them raises. */
  method FillLinks(report: Report, w: World, doc: seq<Element>, url: string) returns (out: Outcome<Report>)
    ensures LinkStage(w, doc, url).Raised? ==> out == Raised(LinkStage(w, doc, url).error)
    ensures LinkStage(w, doc, url).Done? ==> out == Done(report + LinkStage(w, doc, url).value)
  {
    var r := report;
    var socialLinks := CollectSocialLinks(doc);
    var social := ListOr(socialLinks, NoSocialLinks);
    r := r[SocialMediaLinks := social];
    var brokenLinks := CollectBrokenLinks(doc, url, w.get, w.join);
    var broken := ListOr(brokenLinks, NoBrokenLinks);
    r := r[BrokenLinks := broken];
    var images := Images(doc);
    r := r[ImageCount := Int(|images|)];
    var altCount := AltCount(doc);
    r := r[ImagesWithAltText := Int(altCount)];
    var details := CollectImageDetails(doc, url, w.join, w.imageBytes);
    assert details == ImageDetailList(doc, url, w.join, w.imageBytes);
    r := r[ImageDetails := List(details)];
    // `internal_links` and `external_links` are first assigned inside the
    // image loop, so they exist only when that loop ran at least once.
    if |images| == 0 {
      return Raised(UnboundLocal(UnboundName(doc, url, w.join, w.netloc)));
    }
    var internalLinks, externalLinks := PartitionLinks(doc, url, w.join, w.netloc);
    r := r[InternalLinks := StrList(internalLinks)];
    r := r[ExternalLinks := StrList(externalLinks)];
    LinkUpdates(report, social, broken, |images|, altCount, details, internalLinks, externalLinks);
    return Done(r);
  }

  /** Lines that fill the keywords, both PageSpeed reports and the custom-404
      flag; the three remote calls can raise. */
  method FillRemote(report: Report, w: World, url: string, apiKey: string, text: string)
    returns (out: Outcome<Report>)
    ensures RemoteStage(w, url, apiKey, text).Raised? ==> out == Raised(RemoteStage(w, url, apiKey, text).error)
    ensures RemoteStage(w, url, apiKey, text).Done? ==> out == Done(report + RemoteStage(w, url, apiKey, text).value)
  {
    var r := report;
    var topKeywords := Keywords.TopKeywords(text, w.stopWords);
    r := r[TopKeywords := KeywordsValue(topKeywords)];
    var mobile :- PageSpeed.Metrics(w.get, w.decodeJson, url, apiKey, "mobile");
    r := r[PageSpeedMobile := Dict(mobile)];
    var desktop :- PageSpeed.Metrics(w.get, w.decodeJson, url, apiKey, "desktop");
    r := r[PageSpeedDesktop := Dict(desktop)];
    var custom404 :- Helpers.CheckCustom404(url, w.get, w.join);
    r := r[Custom404Page := custom404];
    RemoteUpdates(report, topKeywords, mobile, desktop, custom404);
    return Done(r);
  }

  /** `check_tags(url, api_key)`: fills the template one field at a time. */
  method CheckTags(w: World, url: string, apiKey: string) returns (out: Outcome<Report>)
    ensures out == AuditReport(w, url, apiKey)
  {
    var response := w.get(url);
    if response.NetError? {
      return Raised(RequestFailed(url));
    }
    var report := Template(url);
    if response.code == 200 {
      var page := w.parse(response.body);
      var doc := page.elements;
      var domainName := w.netloc(url);
      var whoisInfo := Whois.DomainDetails(w.whois(domainName));
      report := report + whoisInfo;
      report :- FillHead(report, doc, url, w.join);
      report :- FillTags(report, doc);
      report :- FillLinks(report, w, doc, url);
      report :- FillRemote(report, w, url, apiKey, page.text);
    }
    return Done(report);
  }

  /** The primary request answered 200. */
  predicate Fetched200(w: World, url: string) {
    w.get(url).Status? && w.get(url).code == 200
  }

  /** The parse of the primary response. */
  function PageOf(w: World, url: string): Page
    requires w.get(url).Status?
  {
    w.parse(w.get(url).body)
  }

  /** One of the three lookups that index a found tag without checking the
      attribute (`['content']`, `['href']`) raises. */
  predicate MarkupRaises(doc: seq<Element>) {
    Description(doc).Raised? || Canonical(doc).Raised? || RobotsMeta(doc).Raised?
  }

  /** One of the three remote calls after the link loop raises. */
  predicate RemoteRaises(w: World, url: string, apiKey: string) {
    || PageSpeed.Metrics(w.get, w.decodeJson, url, apiKey, "mobile").Raised?
    || PageSpeed.Metrics(w.get, w.decodeJson, url, apiKey, "desktop").Raised?
    || Helpers.CheckCustom404(url, w.get, w.join).Raised?
  }

  /** A non-200 answer gives the untouched template; a network error on the
      page itself propagates. */
  lemma AuditOutcomeNot200(w: World, url: string, apiKey: string)
    ensures w.get(url).NetError? ==> AuditReport(w, url, apiKey) == Raised(RequestFailed(url))
    ensures w.get(url).Status? && w.get(url).code != 200 ==> AuditReport(w, url, apiKey) == Done(Template(url))
  {
  }

  // What each stage yields, stated once so that the lemmas about the whole
  // report do not have to unfold the stages themselves.

  lemma HeadStageOf(doc: seq<Element>, url: string, join: (string, string) -> string)
    ensures HeadStage(doc, url, join).Raised? <==> Description(doc).Raised?
    ensures HeadStage(doc, url, join).Done? ==>
              HeadStage(doc, url, join).value ==
                HeadFields(Favicon(doc, url, join), Title(doc), Description(doc).value, H1Texts(doc), HeadingCounts(doc))
  {
  }

  lemma TagStageOf(doc: seq<Element>)
    ensures TagStage(doc).Raised? <==> Canonical(doc).Raised? || RobotsMeta(doc).Raised?
    ensures TagStage(doc).Done? ==>
              TagStage(doc).value ==
                TagFields(Canonical(doc).value, RobotsMeta(doc).value, OgTags(doc), SchemaMarkup(doc), Iframes(doc))
  {
  }

  lemma RemoteStageOf(w: World, url: string, apiKey: string, text: string)
    ensures RemoteStage(w, url, apiKey, text).Raised? <==> RemoteRaises(w, url, apiKey)
    ensures var mobile := PageSpeed.Metrics(w.get, w.decodeJson, url, apiKey, "mobile");
            var desktop := PageSpeed.Metrics(w.get, w.decodeJson, url, apiKey, "desktop");
            var custom := Helpers.CheckCustom404(url, w.get, w.join);
            RemoteStage(w, url, apiKey, text).Done? ==>
              && mobile.Done? && desktop.Done? && custom.Done?
              && RemoteStage(w, url, apiKey, text).value ==
                   RemoteFields(Keywords.TopKeywords(text, w.stopWords), mobile.value, desktop.value, custom.value)
  {
  }

  /** On a 200 page the report raises exactly when one of its stages does. */
  lemma AuditStages(w: World, url: string, apiKey: string)
    requires Fetched200(w, url)
    ensures var page := PageOf(w, url);
            AuditReport(w, url, apiKey).Raised? <==>
              || HeadStage(page.elements, url, w.join).Raised?
              || TagStage(page.elements).Raised?
              || LinkStage(w, page.elements, url).Raised?
              || RemoteStage(w, url, apiKey, page.text).Raised?
  {
  }

  /** A 200 page raises exactly when a tag lookup raises, when it has no
      `<img>`, or when a remote call raises. */
  lemma AuditRaises(w: World, url: string, apiKey: string)
    requires Fetched200(w, url)
    ensures AuditReport(w, url, apiKey).Raised? <==>
              MarkupRaises(PageOf(w, url).elements) || |Images(PageOf(w, url).elements)| == 0 ||
              RemoteRaises(w, url, apiKey)
  {
    var page := PageOf(w, url);
    AuditStages(w, url, apiKey);
    HeadStageOf(page.elements, url, w.join);
    TagStageOf(page.elements);
    RemoteStageOf(w, url, apiKey, page.text);
  }

  /** A 200 page whose tag lookups succeed but that has no `<img>` always
      raises the unbound-local error of the link lists. */
  lemma NoImagesUnbound(w: World, url: string, apiKey: string)
    requires Fetched200(w, url) && !MarkupRaises(PageOf(w, url).elements) && |Images(PageOf(w, url).elements)| == 0
    ensures AuditReport(w, url, apiKey) == Raised(UnboundLocal(UnboundName(PageOf(w, url).elements, url, w.join, w.netloc)))
  {
    var page := PageOf(w, url);
    HeadStageOf(page.elements, url, w.join);
    TagStageOf(page.elements);
  }

  /** A completed report on a 200 page is the template overridden by the
      WHOIS record and then by the four groups of fields. */
  lemma AuditParts(w: World, url: string, apiKey: string)
    requires Fetched200(w, url) && AuditReport(w, url, apiKey).Done?
    ensures var page := PageOf(w, url);
            && HeadStage(page.elements, url, w.join).Done?
            && TagStage(page.elements).Done?
            && LinkStage(w, page.elements, url).Done?
            && RemoteStage(w, url, apiKey, page.text).Done?
            && AuditReport(w, url, apiKey).value ==
                 Template(url) + Whois.DomainDetails(w.whois(w.netloc(url)))
                 + HeadStage(page.elements, url, w.join).value + TagStage(page.elements).value
                 + LinkStage(w, page.elements, url).value + RemoteStage(w, url, apiKey, page.text).value
  {
  }

  /** Field `k` of `r` exists and holds `v`. */
  predicate Holds(r: Report, k: Field, v: Value) {
    k in r && r[k] == v
  }

  /** What each head field holds. */
  lemma HeadFieldsAt(favicon: Value, title: Value, description: Value, h1Texts: Value, counts: seq<nat>)
    requires |counts| == 6
    ensures var r := HeadFields(favicon, title, description, h1Texts, counts);
            && r[FaviconLink] == favicon && r[PageTitle] == title && r[MetaDescription] == description
            && r[H1TagsText] == h1Texts
            && r[HeadingCount(1)] == Int(counts[0]) && r[HeadingCount(2)] == Int(counts[1])
            && r[HeadingCount(3)] == Int(counts[2]) && r[HeadingCount(4)] == Int(counts[3])
            && r[HeadingCount(5)] == Int(counts[4]) && r[HeadingCount(6)] == Int(counts[5])
  {
  }

  /** What each tag field holds. */
  lemma TagFieldsAt(canonical: Value, robots: Value, ogTags: Value, schema: Value, iframes: Value)
    ensures var r := TagFields(canonical, robots, ogTags, schema, iframes);
            && r[CanonicalTag] == canonical && r[RobotsTag] == robots && r[OgTagsAvailable] == ogTags
            && r[SchemaMarkupAvailable] == schema && r[IframeList] == iframes
  {
  }

  /** What each link field holds. */
  lemma LinkFieldsAt(social: Value, broken: Value, imageCount: nat, altCount: nat, details: seq<Value>,
                     internal: seq<string>, external: seq<string>)
    ensures var r := LinkFields(social, broken, imageCount, altCount, details, internal, external);
            && r[SocialMediaLinks] == social && r[BrokenLinks] == broken && r[ImageCount] == Int(imageCount)
            && r[ImagesWithAltText] == Int(altCount) && r[ImageDetails] == List(details)
            && r[InternalLinks] == StrList(internal) && r[ExternalLinks] == StrList(external)
  {
  }

  /** The fields `URL`, the three flags and the WHOIS record, which no group
      of fields writes. */
  const BaseKeys: set<Field> := {Url, RobotsTxtAvailable, SitemapXmlAvailable, Https, DomainName, Registrar,
                                  CreationDate, ExpirationDate, LastUpdated, NameServers, DomainStatus, Error}

  /** No two groups of fields share a key. */
  lemma GroupsDisjoint()
    ensures HeadKeys !! TagKeys && HeadKeys !! LinkKeys && HeadKeys !! RemoteKeys
    ensures TagKeys !! LinkKeys && TagKeys !! RemoteKeys && LinkKeys !! RemoteKeys
  {
  }

  // No group of fields writes `URL`, a flag or a WHOIS field.

  lemma BaseNotHead()
    ensures BaseKeys !! HeadKeys
  {
  }

  lemma BaseNotTags()
    ensures BaseKeys !! TagKeys
  {
  }

  lemma BaseNotLinks()
    ensures BaseKeys !! LinkKeys
  {
  }

  lemma BaseNotRemote()
    ensures BaseKeys !! RemoteKeys
  {
  }

  // The keys a completed stage writes avoid every set its group avoids.

  lemma HeadStageKeys(doc: seq<Element>, url: string, join: (string, string) -> string, s: set<Field>)
    requires HeadStage(doc, url, join).Done? && HeadKeys !! s
    ensures HeadStage(doc, url, join).value.Keys !! s
  {
    HeadStageOf(doc, url, join);
  }

  lemma TagStageKeys(doc: seq<Element>, s: set<Field>)
    requires TagStage(doc).Done? && TagKeys !! s
    ensures TagStage(doc).value.Keys !! s
  {
    TagStageOf(doc);
  }

  lemma LinkStageKeys(w: World, doc: seq<Element>, url: string, s: set<Field>)
    requires LinkStage(w, doc, url).Done? && LinkKeys !! s
    ensures LinkStage(w, doc, url).value.Keys !! s
  {
  }

  lemma RemoteStageKeys(w: World, url: string, apiKey: string, text: string, s: set<Field>)
    requires RemoteStage(w, url, apiKey, text).Done? && RemoteKeys !! s
    ensures RemoteStage(w, url, apiKey, text).value.Keys !! s
  {
    RemoteStageOf(w, url, apiKey, text);
  }

  // Each group of fields, read back from a report where later groups with
  // other keys were written over it.

  lemma HeadInReport(base: Report, head: Report, tags: Report, links: Report, remote: Report,
                     doc: seq<Element>, url: string, join: (string, string) -> string)
    requires HeadStage(doc, url, join) == Done(head)
    requires HeadKeys !! tags.Keys && HeadKeys !! links.Keys && HeadKeys !! remote.Keys
    ensures var r := base + head + tags + links + remote;
            && Holds(r, FaviconLink, Favicon(doc, url, join))
            && Holds(r, PageTitle, Title(doc))
            && MetaDescription in r && Done(r[MetaDescription]) == Description(doc)
            && Holds(r, H1TagsText, H1Texts(doc))
            && Holds(r, HeadingCount(1), Int(TagCount(doc, "h1"))) && Holds(r, HeadingCount(2), Int(TagCount(doc, "h2")))
            && Holds(r, HeadingCount(3), Int(TagCount(doc, "h3"))) && Holds(r, HeadingCount(4), Int(TagCount(doc, "h4")))
            && Holds(r, HeadingCount(5), Int(TagCount(doc, "h5"))) && Holds(r, HeadingCount(6), Int(TagCount(doc, "h6")))
  {
    HeadStageOf(doc, url, join);
    HeadFieldsAt(Favicon(doc, url, join), Title(doc), Description(doc).value, H1Texts(doc), HeadingCounts(doc));
  }

  lemma TagsInReport(base: Report, tags: Report, links: Report, remote: Report, doc: seq<Element>)
    requires TagStage(doc) == Done(tags)
    requires TagKeys !! links.Keys && TagKeys !! remote.Keys
    ensures var r := base + tags + links + remote;
            && CanonicalTag in r && Done(r[CanonicalTag]) == Canonical(doc)
            && RobotsTag in r && Done(r[RobotsTag]) == RobotsMeta(doc)
            && Holds(r, OgTagsAvailable, OgTags(doc))
            && Holds(r, SchemaMarkupAvailable, SchemaMarkup(doc))
            && Holds(r, IframeList, Iframes(doc))
  {
    TagStageOf(doc);
    TagFieldsAt(Canonical(doc).value, RobotsMeta(doc).value, OgTags(doc), SchemaMarkup(doc), Iframes(doc));
  }

  lemma LinksInReport(base: Report, links: Report, remote: Report, w: World, doc: seq<Element>, url: string)
    requires LinkStage(w, doc, url) == Done(links)
    requires LinkKeys !! remote.Keys
    ensures var r := base + links + remote;
            var resolved := Resolved(doc, url, w.join);
            && |Images(doc)| > 0
            && Holds(r, SocialMediaLinks, ListOr(Filter(Hrefs(doc), IsSocial), NoSocialLinks))
            && Holds(r, BrokenLinks, ListOr(Filter(resolved, BrokenUnder(w.get)), NoBrokenLinks))
            && Holds(r, ImageCount, Int(|Images(doc)|))
            && Holds(r, ImagesWithAltText, Int(AltCount(doc)))
            && Holds(r, ImageDetails, List(ImageDetailList(doc, url, w.join, w.imageBytes)))
            && Holds(r, InternalLinks, StrList(Filter(resolved, SameHost(w.netloc, w.netloc(url)))))
            && Holds(r, ExternalLinks, StrList(Filter(resolved, OtherHost(w.netloc, w.netloc(url)))))
  {
    var resolved := Resolved(doc, url, w.join);
    LinkFieldsAt(ListOr(Filter(Hrefs(doc), IsSocial), NoSocialLinks), ListOr(Filter(resolved, BrokenUnder(w.get)), NoBrokenLinks),
                 |Images(doc)|, AltCount(doc), ImageDetailList(doc, url, w.join, w.imageBytes),
                 Filter(resolved, SameHost(w.netloc, w.netloc(url))), Filter(resolved, OtherHost(w.netloc, w.netloc(url))));
  }

  lemma RemoteKept(base: Report, topKeywords: seq<(string, nat)>, mobile: Entries, desktop: Entries, custom404: Value)
    ensures var r := base + RemoteFields(topKeywords, mobile, desktop, custom404);
            && Holds(r, TopKeywords, KeywordsValue(topKeywords))
            && Holds(r, PageSpeedMobile, Dict(mobile)) && Holds(r, PageSpeedDesktop, Dict(desktop))
            && Holds(r, Custom404Page, custom404)
  {
  }

  lemma RemoteInReport(base: Report, remote: Report, w: World, url: string, apiKey: string, text: string)
    requires RemoteStage(w, url, apiKey, text) == Done(remote)
    ensures var r := base + remote;
            var mobile := PageSpeed.Metrics(w.get, w.decodeJson, url, apiKey, "mobile");
            var desktop := PageSpeed.Metrics(w.get, w.decodeJson, url, apiKey, "desktop");
            && Holds(r, TopKeywords, KeywordsValue(Keywords.TopKeywords(text, w.stopWords)))
            && mobile.Done? && Holds(r, PageSpeedMobile, Dict(mobile.value))
            && desktop.Done? && Holds(r, PageSpeedDesktop, Dict(desktop.value))
            && Custom404Page in r && Done(r[Custom404Page]) == Helpers.CheckCustom404(url, w.get, w.join)
  {
    RemoteStageOf(w, url, apiKey, text);
    RemoteKept(base, Keywords.TopKeywords(text, w.stopWords),
               PageSpeed.Metrics(w.get, w.decodeJson, url, apiKey, "mobile").value,
               PageSpeed.Metrics(w.get, w.decodeJson, url, apiKey, "desktop").value,
               Helpers.CheckCustom404(url, w.get, w.join).value);
  }

  lemma BaseInReport(base: Report, head: Report, tags: Report, links: Report, remote: Report)
    requires BaseKeys !! head.Keys && BaseKeys !! tags.Keys && BaseKeys !! links.Keys && BaseKeys !! remote.Keys
    ensures forall k | k in base && k in BaseKeys :: Holds(base + head + tags + links + remote, k, base[k])
  {
  }

  /** The head fields of a completed report. */
  lemma HeadFieldsOf(w: World, url: string, apiKey: string)
    requires Fetched200(w, url) && AuditReport(w, url, apiKey).Done?
    ensures var r := AuditReport(w, url, apiKey).value;
            var doc := PageOf(w, url).elements;
            && Holds(r, FaviconLink, Favicon(doc, url, w.join))
            && Holds(r, PageTitle, Title(doc))
            && MetaDescription in r && Done(r[MetaDescription]) == Description(doc)
            && Holds(r, H1TagsText, H1Texts(doc))
            && Holds(r, HeadingCount(1), Int(TagCount(doc, "h1"))) && Holds(r, HeadingCount(2), Int(TagCount(doc, "h2")))
            && Holds(r, HeadingCount(3), Int(TagCount(doc, "h3"))) && Holds(r, HeadingCount(4), Int(TagCount(doc, "h4")))
            && Holds(r, HeadingCount(5), Int(TagCount(doc, "h5"))) && Holds(r, HeadingCount(6), Int(TagCount(doc, "h6")))
  {
    AuditParts(w, url, apiKey);
    var page := PageOf(w, url);
    var doc := page.elements;
    GroupsDisjoint();
    TagStageKeys(doc, HeadKeys);
    LinkStageKeys(w, doc, url, HeadKeys);
    RemoteStageKeys(w, url, apiKey, page.text, HeadKeys);
    HeadInReport(Template(url) + Whois.DomainDetails(w.whois(w.netloc(url))), HeadStage(doc, url, w.join).value,
                 TagStage(doc).value, LinkStage(w, doc, url).value, RemoteStage(w, url, apiKey, page.text).value,
                 doc, url, w.join);
  }

  /** The tag fields of a completed report. */
  lemma TagFieldsOf(w: World, url: string, apiKey: string)
    requires Fetched200(w, url) && AuditReport(w, url, apiKey).Done?
    ensures var r := AuditReport(w, url, apiKey).value;
            var doc := PageOf(w, url).elements;
            && CanonicalTag in r && Done(r[CanonicalTag]) == Canonical(doc)
            && RobotsTag in r && Done(r[RobotsTag]) == RobotsMeta(doc)
            && Holds(r, OgTagsAvailable, OgTags(doc))
            && Holds(r, SchemaMarkupAvailable, SchemaMarkup(doc))
            && Holds(r, IframeList, Iframes(doc))
  {
    AuditParts(w, url, apiKey);
    var page := PageOf(w, url);
    var doc := page.elements;
    GroupsDisjoint();
    LinkStageKeys(w, doc, url, TagKeys);
    RemoteStageKeys(w, url, apiKey, page.text, TagKeys);
    TagsInReport(Template(url) + Whois.DomainDetails(w.whois(w.netloc(url))) + HeadStage(doc, url, w.join).value,
                 TagStage(doc).value, LinkStage(w, doc, url).value, RemoteStage(w, url, apiKey, page.text).value, doc);
  }

  /** The link and image fields of a completed report; a completed report
      always comes from a page with at least one image. */
  lemma LinkFieldsOf(w: World, url: string, apiKey: string)
    requires Fetched200(w, url) && AuditReport(w, url, apiKey).Done?
    ensures var r := AuditReport(w, url, apiKey).value;
            var doc := PageOf(w, url).elements;
            var resolved := Resolved(doc, url, w.join);
            && |Images(doc)| > 0
            && Holds(r, SocialMediaLinks, ListOr(Filter(Hrefs(doc), IsSocial), NoSocialLinks))
            && Holds(r, BrokenLinks, ListOr(Filter(resolved, BrokenUnder(w.get)), NoBrokenLinks))
            && Holds(r, ImageCount, Int(|Images(doc)|))
            && Holds(r, ImagesWithAltText, Int(AltCount(doc)))
            && Holds(r, ImageDetails, List(ImageDetailList(doc, url, w.join, w.imageBytes)))
            && Holds(r, InternalLinks, StrList(Filter(resolved, SameHost(w.netloc, w.netloc(url)))))
            && Holds(r, ExternalLinks, StrList(Filter(resolved, OtherHost(w.netloc, w.netloc(url)))))
  {
    AuditParts(w, url, apiKey);
    var page := PageOf(w, url);
    var doc := page.elements;
    GroupsDisjoint();
    RemoteStageKeys(w, url, apiKey, page.text, LinkKeys);
    LinksInReport(Template(url) + Whois.DomainDetails(w.whois(w.netloc(url))) + HeadStage(doc, url, w.join).value
                    + TagStage(doc).value,
                  LinkStage(w, doc, url).value, RemoteStage(w, url, apiKey, page.text).value, w, doc, url);
  }

  /** The keyword and remote-check fields of a completed report. */
  lemma RemoteFieldsOf(w: World, url: string, apiKey: string)
    requires Fetched200(w, url) && AuditReport(w, url, apiKey).Done?
    ensures var r := AuditReport(w, url, apiKey).value;
            var mobile := PageSpeed.Metrics(w.get, w.decodeJson, url, apiKey, "mobile");
            var desktop := PageSpeed.Metrics(w.get, w.decodeJson, url, apiKey, "desktop");
            && Holds(r, TopKeywords, KeywordsValue(Keywords.TopKeywords(PageOf(w, url).text, w.stopWords)))
            && mobile.Done? && Holds(r, PageSpeedMobile, Dict(mobile.value))
            && desktop.Done? && Holds(r, PageSpeedDesktop, Dict(desktop.value))
            && Custom404Page in r && Done(r[Custom404Page]) == Helpers.CheckCustom404(url, w.get, w.join)
  {
    AuditParts(w, url, apiKey);
    var page := PageOf(w, url);
    var doc := page.elements;
    RemoteInReport(Template(url) + Whois.DomainDetails(w.whois(w.netloc(url))) + HeadStage(doc, url, w.join).value
                     + TagStage(doc).value + LinkStage(w, doc, url).value,
                   RemoteStage(w, url, apiKey, page.text).value, w, url, apiKey, page.text);
  }

  /** `URL` keeps the page URL, the WHOIS fields survive every later step,
      and the three flags keep the template's empty text. */
  lemma UntouchedFieldsOf(w: World, url: string, apiKey: string)
    requires Fetched200(w, url) && AuditReport(w, url, apiKey).Done?
    ensures var r := AuditReport(w, url, apiKey).value;
            var details := Whois.DomainDetails(w.whois(w.netloc(url)));
            && Holds(r, Url, Str(url))
            && (forall f | f in details :: Holds(r, f, details[f]))
            && forall f | f in FlagKeys :: Holds(r, f, Str(""))
  {
    AuditParts(w, url, apiKey);
    var page := PageOf(w, url);
    var doc := page.elements;
    var details := Whois.DomainDetails(w.whois(w.netloc(url)));
    BaseNotHead();
    HeadStageKeys(doc, url, w.join, BaseKeys);
    BaseNotTags();
    TagStageKeys(doc, BaseKeys);
    BaseNotLinks();
    LinkStageKeys(w, doc, url, BaseKeys);
    BaseNotRemote();
    RemoteStageKeys(w, url, apiKey, page.text, BaseKeys);
    DetailKeys(w.whois(w.netloc(url)));
    TemplateBase(url, details);
    BaseInReport(Template(url) + details, HeadStage(doc, url, w.join).value, TagStage(doc).value,
                 LinkStage(w, doc, url).value, RemoteStage(w, url, apiKey, page.text).value);
  }

  /** A WHOIS record only holds WHOIS fields. */
  lemma DetailKeys(lookup: Whois.Lookup)
    ensures Whois.DomainDetails(lookup).Keys <= WhoisKeys
  {
  }

  /** `{**seo_report, **robots_report}`: every key of either report, the
      second report winning on a key both hold. */
  function Merge(first: Report, second: Report): (r: Report)
    ensures r.Keys == first.Keys + second.Keys
    ensures forall k | k in second :: r[k] == second[k]
    ensures forall k | k in first && k !in second :: r[k] == first[k]
  {
    first + second
  }

  /** The `/audit` route up to the rendering: the SEO report with the
      robots/sitemap/HTTPS flags merged over it, or what `check_tags` raised. */
  method FullReport(w: World, url: string, apiKey: string) returns (out: Outcome<Report>)
    ensures out.Raised? <==> AuditReport(w, url, apiKey).Raised?
    ensures out.Raised? ==> out.error == AuditReport(w, url, apiKey).error
    ensures out.Done? ==>
              && out.value.Keys == AuditReport(w, url, apiKey).value.Keys + FlagKeys
              && (forall k | k in AuditReport(w, url, apiKey).value && k !in FlagKeys ::
                    out.value[k] == AuditReport(w, url, apiKey).value[k])
              && (out.value[Https] == Helpers.Yes <==> w.scheme(url) == "https")
              && (out.value[RobotsTxtAvailable] == Helpers.Yes <==> Helpers.Available(w.get(w.join(url, "robots.txt"))))
              && (out.value[SitemapXmlAvailable] == Helpers.Yes <==> Helpers.Available(w.get(w.join(url, "sitemap.xml"))))
              && forall k | k in FlagKeys :: out.value[k] == Helpers.Yes || out.value[k] == Helpers.No
  {
    var seoReport :- CheckTags(w, url, apiKey);
    var robotsReport := Helpers.CheckRobotsSitemapHttps(url, w.get, w.join, w.scheme);
    return Done(Merge(seoReport, robotsReport));
  }
}
