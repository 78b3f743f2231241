/** Availability checks: the image size fallback, the custom-404 probe and
    the HTTPS / robots.txt / sitemap.xml flag record. */
module Helpers {
  import opened Values
  import opened Text

  const Yes := Str("Yes")
  const No := Str("No")
  const ProbePath := "nonexistentpage12345"

  /** `get_image_size(url)`, given the number of bytes the image download
      yields, or `None` when opening or reading it raises. The size is
      `bytes / 1024` kilobytes. */
  function ImageSize(bytes: Option<nat>): (r: Value)
    ensures r == Str("N/A") <==> bytes.None?
    ensures bytes.Some? ==> r == Num(bytes.value as real / 1024.0)
  {
    match bytes
    case None => Str("N/A")
    case Some(n) => Num(n as real / 1024.0)
  }

  /** `check_custom_404(url)`: the probe URL is resolved against the page URL
      itself; a network error on the probe is not caught. */
  function CheckCustom404(url: string, get: string -> Response, join: (string, string) -> string): (r: Outcome<Value>)
    ensures get(join(url, ProbePath)).NetError? <==> r.Raised?
    ensures r.Raised? ==> r.error == RequestFailed(join(url, ProbePath))
    ensures r.Done? ==> r.value == Yes || r.value == No
  {
    var probeUrl := join(url, ProbePath);
    match get(probeUrl)
    case NetError(_) => Raised(RequestFailed(probeUrl))
    case Status(code, body) =>
      if code == 404 && Contains(Lower(body), "404") then Done(Yes) else Done(No)
  }

  /** The page counts as a custom 404 page exactly when the probe answers 404
      with a body that contains the text "404" (lower-casing the body does
      not change this). */
  lemma Custom404Iff(url: string, get: string -> Response, join: (string, string) -> string)
    ensures var probe := get(join(url, ProbePath));
            CheckCustom404(url, get, join) == Done(Yes) <==>
              probe.Status? && probe.code == 404 && exists i :: OccursAt(probe.body, "404", i)
  {
    var probe := get(join(url, ProbePath));
    if probe.Status? {
      Contains404Lowered(probe.body);
      ContainsAt(probe.body, "404");
    }
  }

  /** The answer of one availability check: `"Yes"` exactly on status 200; a
      network error or any other status leaves `"No"`. */
  predicate Available(response: Response) {
    response.Status? && response.code == 200
  }

  /** `check_robots_sitemap_https(url)`: starts from all `"No"` and flips each
      flag on its own check. */
  method CheckRobotsSitemapHttps(url: string, get: string -> Response,
                                 join: (string, string) -> string, scheme: string -> string)
    returns (report: Report)
    ensures report.Keys == {RobotsTxtAvailable, SitemapXmlAvailable, Https}
    ensures forall k | k in report :: report[k] == Yes || report[k] == No
    ensures report[Https] == Yes <==> scheme(url) == "https"
    ensures report[RobotsTxtAvailable] == Yes <==> Available(get(join(url, "robots.txt")))
    ensures report[SitemapXmlAvailable] == Yes <==> Available(get(join(url, "sitemap.xml")))
  {
    report := map[RobotsTxtAvailable := No, SitemapXmlAvailable := No, Https := No];
    if scheme(url) == "https" {
      report := report[Https := Yes];
    }
    var robotsUrl := join(url, "robots.txt");
    var sitemapUrl := join(url, "sitemap.xml");
    var response := get(robotsUrl);
    if response.Status? && response.code == 200 {
      report := report[RobotsTxtAvailable := Yes];
    }
    response := get(sitemapUrl);
    if response.Status? && response.code == 200 {
      report := report[SitemapXmlAvailable := Yes];
    }
  }
}
