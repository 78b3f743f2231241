# SEO audit report builder — Dafny model

This project models the report-building core of a small website SEO auditor.
Given a page URL, the auditor fetches the page and starts from a fixed report
template. It first adds the WHOIS record of the page's host, then fills the
template from the page's markup:

- favicon, title, description and H1 texts;
- heading counts and the canonical and robots tags;
- Open Graph and schema markup flags, and iframes;
- social and broken links, image details, and internal and external links;
- the fifteen most frequent keywords.

It then adds two PageSpeed Insights reports (mobile and desktop) and a
custom-404 check. The web route merges the report
with a robots.txt / sitemap.xml / HTTPS flag record. The HTML renderer pads the
internal and external link lists into one two-column table and rewrites every
top-level `None` value of the report to `"Null"`.

Modules, one file each:

- `Values` (values.dfy): the report's Python values, exceptions as `Outcome`,
  HTTP answers, the parsed page and the report keys.
- `Text` (text.dfy): lower-casing, substring search, filtering and `\w+` runs.
- `Keywords` (keywords.dfy): `extract_top_keywords` and `Counter.most_common`.
- `Whois` (whois.dfy): `get_domain_details`.
- `PageSpeed` (pagespeed.dfy): `get_pagespeed_metrics`.
- `Helpers` (helpers.dfy): `get_image_size`, `check_custom_404` and
  `check_robots_sitemap_https`.
- `Markup` (markup.dfy): the per-field extractions of `check_tags`, including
  its three link loops and its image loop as methods.
- `Audit` (audit.dfy): `check_tags` itself and the merge in the `/audit`
  route.
  - `CheckTags` is imperative: it fills the template step by step, and its
    result is proved equal to the reference function `AuditReport`.
  - The lemmas state field by field what a completed report holds, and
    exactly when the audit raises.
- `Render` (render.dfy): the data preparation of `generate_html_report`.
  - The row loop is proved against the zip-longest function.
  - The report is a `Record` object whose `None` rewrite happens in place.

Two behaviours of the source are kept as written:

- A page that answers 200 but has no `<img>` ends in `UnboundLocalError`,
  unless a description, canonical or robots lookup raises `KeyError` first.
  The internal and external link lists are only bound inside the image loop.
  `Audit.NoImagesUnbound` states this, and `Audit.AuditRaises` counts it among
  the ways the audit raises.
- The favicon lookup's `shortcut icon` fallback never changes the result.
  `rel` is matched token by token, so every link that `rel="shortcut icon"`
  finds is also found by `rel="icon"` (`Markup.ShortcutIsIcon`).

Report keys are an enumeration (`Values.Field`). Heading counts exist for
levels 1 to 6 only. `Values.Name` spells each key's text in the report
dictionary, and `Values.FieldOf` reads it back, so no two keys share a text.

Everything outside the program is a parameter of the model (`Audit.World`):
the network, the HTML parser, the JSON decoder, the WHOIS client, URL joining
and parsing, and the stop-word corpus.

## Model

| member | source | states |
|---|---|---|
| Keywords.Words | process/audit.py:43 | every token is a non-empty run of lower-case word characters |
| Keywords.WordsTokenize | process/audit.py:43 | the tokens are what `\w+` finds in the lower-cased text: together they hold its word characters in order, each is a maximal run (bordered by a non-word character or an end of the text), and consecutive tokens are separated by a gap |
| Text.RunsMaximal | process/audit.py:43 | each run of a character class sits at its start position, is bordered by a character outside the class or an end, and starts after the previous run ends |
| Keywords.Kept | process/audit.py:49 | a word is kept exactly when it is a token and not a stop word |
| Keywords.KeptCounts | process/audit.py:49 | each non-stop word is kept as often as it occurs, and no stop word is kept |
| Keywords.KeptOrder | process/audit.py:49 | two kept words first occur in the same order before and after the filter |
| Keywords.Tally | process/audit.py:52 | the counter has one entry per distinct word, with its exact occurrence count and first index |
| Keywords.MostCommon | process/audit.py:55 | `most_common(n)` lists at most `n` pairs |
| Keywords.MostCommonLength | process/audit.py:55 | it lists `n` pairs, or every distinct word when there are fewer |
| Keywords.MostCommonCounts | process/audit.py:52-55 | each listed word occurs in the input with its exact count (at least 1), and no word is listed twice |
| Keywords.MostCommonOrder | process/audit.py:55 | counts are non-increasing; equal counts come in order of first occurrence |
| Keywords.MostCommonComplete | process/audit.py:55 | an unlisted word only happens when `n` pairs are listed, and every listed pair outranks it |
| Keywords.TopKeywordsSpec | process/audit.py:38-55 | for the whole function: at most 15 pairs; each a lower-case `\w+` token, not a stop word, with its exact count; distinct; ranked; and complete |
| Keywords.TopKeywordsOfText | process/audit.py:38-55 | each listed count is the word's number of `\w+` tokens in the text, and equal counts come in order of first occurrence in the text |
| Keywords.RankRanked | process/audit.py:55 | ranking the counter puts higher counts first, and equal counts in order of first occurrence (the `most_common` order) |
| Whois.DomainDetails | process/audit.py:13-36 | a string answer gives the one fixed `Error` message; a raised lookup gives `Error` with its message; an entry gives exactly the seven fields |
| Whois.DomainDetailsShape | process/audit.py:19-36 | `Error` is present iff the lookup gave no entry, and then it is the only key; no field is `None`; the three type-checked fields are lists or strings; the other fields are truthy |
| Whois.MissingAttributeIsNA | process/audit.py:24-30 | an attribute the entry lacks becomes `'N/A'` |
| Whois.PassThroughRule | process/audit.py:24-30 | each field is the entry's attribute (`None` when absent) if it passes the field's test, and `'N/A'` otherwise: the test is being a list or a string for `Domain Name`, `Name Servers` and `Status`, and truthiness for the other four |
| PageSpeed.Get | process/pagespeed.py:11-18 | `.get` succeeds exactly on a dictionary |
| PageSpeed.Metrics | process/pagespeed.py:4-31 | the request's network error propagates; a non-200 status gives only the `Error` message; a 200 body that does not decode raises; a completed 200 answer has exactly the six metric keys |
| PageSpeed.MetricsOfWellFormed | process/pagespeed.py:10-27 | on a well-formed answer, each display metric is the upstream `displayValue` (`None` when missing); the score is `"Null"` when missing and the upstream score times 100 otherwise |
| PageSpeed.MetricsOf200 | process/pagespeed.py:9-27 | the same for a 200 response whose body decodes to a well-formed answer |
| PageSpeed.DisplayValueOf | process/pagespeed.py:14-18 | for each of the five audits read, the chained `.get` of its `displayValue` yields the upstream value or `None` |
| PageSpeed.ScoreOf | process/pagespeed.py:12-13 | the chained `.get` of the performance score yields the upstream score or `None` |
| PageSpeed.MalformedRaises | process/pagespeed.py:11-18 | a dictionary answer whose Lighthouse result, categories, performance category, audits or one of the five read audits is present but not a dictionary raises on a `.get` |
| PageSpeed.ScoreRaises | process/pagespeed.py:21 | on a well-formed answer, a present score that cannot be multiplied by 100 raises |
| PageSpeed.MetricsRaisesIff | process/pagespeed.py:10-27 | a dictionary answer raises exactly when it is not well-formed or its present score cannot be multiplied by 100 |
| PageSpeed.NotADictionaryRaises | process/pagespeed.py:10-11 | a decoded answer that is not a dictionary raises |
| PageSpeed.ErrorShape | process/pagespeed.py:28-29 | a non-200 answer is the one-key `Error` map: the fixed prefix followed by the decimal status code |
| Helpers.ImageSize | process/helpers.py:5-12 | `'N/A'` exactly when the download fails, the size in kilobytes otherwise |
| Helpers.CheckCustom404 | process/helpers.py:14-22 | raises exactly when the probe request fails, and then names the probe URL; otherwise `"Yes"` or `"No"` |
| Helpers.Custom404Iff | process/helpers.py:15-22 | `"Yes"` iff the probe answers 404 and its body contains `404` (lower-casing does not matter) |
| Helpers.CheckRobotsSitemapHttps | process/helpers.py:25-55 | exactly the three keys, each `"Yes"`/`"No"`; HTTPS is `"Yes"` iff the scheme is `https`; each file flag is `"Yes"` iff its GET answered 200 (a network error leaves `"No"`) |
| Text.Contains404Lowered | process/helpers.py:19 | `"404"` occurs in the lower-cased body iff it occurs in the body |
| Text.Lower | process/helpers.py:19 | lower-casing keeps the length, maps each character, and leaves no upper-case letter |
| Markup.First | process/audit.py:104-112 | `find` gives the first matching element, or nothing iff no element matches |
| Markup.FaviconBy | process/audit.py:104-110 | with neither kind of icon link the favicon is `'No favicon link'`; otherwise the first `icon` link decides, or the first `shortcut icon` link when there is no `icon` link: its `href` resolved against the page URL, or `'No favicon link'` when it has none |
| Markup.ShortcutIsIcon | process/audit.py:104 | every link that `rel="shortcut icon"` finds is also found by `rel="icon"` |
| Markup.FaviconWithoutIcon | process/audit.py:104-110 | a page without an `icon` link has no favicon link, so the `or` fallback never changes the value |
| Markup.Title | process/audit.py:111 | the text of the first `title`, or `"No title"` when there is none |
| Markup.FirstAttribute | process/audit.py:112 | `fallback` when no element matches; otherwise the first match's attribute, or a `KeyError` when it lacks one |
| Markup.H1Texts | process/audit.py:113 | `"No H1 tags"` iff there is no `h1`; otherwise a list with one stripped text per `h1`, in order |
| Markup.TagCount | process/audit.py:115-120 | the count is the number of elements with the tag: zero iff there is none, never more than the elements |
| Markup.OgTags | process/audit.py:124 | `"Yes"` iff some `meta` has a `property` starting with `og:` |
| Markup.SchemaMarkup | process/audit.py:125-126 | `"Yes"` iff some `script` has type `application/ld+json` |
| Markup.SrcAttributes | process/audit.py:132 | exactly the iframe attributes whose name contains `src`, with their values |
| Markup.Iframes | process/audit.py:129-134 | the one-element "no iframes" list iff there is no iframe; otherwise one map per iframe, in order |
| Markup.Hrefs | process/audit.py:139-140 | entry `i` is the `href` of the `i`-th anchor with an `href`, one entry per such anchor |
| Markup.Resolved | process/audit.py:146-148 | entry `i` is the `i`-th `href` joined onto the page URL, one entry per `href` |
| Markup.CollectSocialLinks | process/audit.py:137-142 | the loop keeps exactly the hrefs naming a listed social domain, in order (proved against `Filter`) |
| Markup.ListOr | process/audit.py:143-155 | a collected link list is stored as its placeholder text (`'No social media links'`, `"All links well good"`) iff it is empty, and otherwise as the list itself, entry by entry |
| Markup.CollectBrokenLinks | process/audit.py:145-154 | the loop keeps exactly the resolved URLs whose GET answered 404 or raised, in order |
| Markup.AltCount | process/audit.py:159 | the number of images whose `alt` is present and non-empty; never more than the images |
| Markup.CollectImageDetails | process/audit.py:161-166 | one entry per image, in document order |
| Markup.ImageEntryShape | process/audit.py:162-166 | each entry has exactly `src`, `alt` and `size`; `alt` is `'N/A'` when missing; `size` is `'N/A'` exactly when the download fails |
| Markup.PartitionLinks | process/audit.py:172-181 | internal holds the resolved URLs with the page's host, external the rest, both in order; together they account for every anchor |
| Markup.PartitionStep | process/audit.py:175-178 | one more anchor extends exactly one of the two lists, by its resolved URL |
| Markup.LinkClassification | process/audit.py:175-178 | every resolved URL is internal or external and never both |
| Values.NameRoundTrip | process/audit.py:60-90 | reading back the text of a report key gives that key |
| Values.NameInjective | process/audit.py:60-90 | no two report keys share a text |
| Audit.CheckTags | process/audit.py:58-192 | filling the template field by field yields the reference report or exception `AuditReport` |
| Audit.FillHead | process/audit.py:104-120 | the head lines raise exactly when the description lookup does; otherwise they add the head fields |
| Audit.FillTags | process/audit.py:122-134 | the tag lines raise exactly when the canonical or robots lookup does; otherwise they add the tag fields |
| Audit.FillLinks | process/audit.py:136-181 | the link and image lines raise the unbound-local error on a page without images; otherwise they add the link fields |
| Audit.FillRemote | process/audit.py:183-190 | the last lines raise exactly when a remote call does; otherwise they add the keyword and remote fields |
| Audit.TemplateShape | process/audit.py:60-90 | the template's `URL` is the page URL, and it has no image count fields |
| Audit.TemplateBlank | process/audit.py:60-90 | every other template field starts as an empty string, list or map, or as zero |
| Audit.TemplateBase | process/audit.py:95-102 | updating with a WHOIS record keeps `URL` and the three empty flags, and every WHOIS field holds its value |
| Audit.AuditOutcomeNot200 | process/audit.py:59-92 | a failed request raises; a non-200 answer returns the untouched template |
| Audit.HeadStageOf | process/audit.py:104-120 | the head stage raises iff the description lookup does, and otherwise holds favicon, title, H1 texts and counts |
| Audit.TagStageOf | process/audit.py:122-134 | the tag stage raises iff the canonical or robots lookup does |
| Audit.RemoteStageOf | process/audit.py:183-190 | the remote stage raises iff a PageSpeed call or the 404 probe does |
| Audit.AuditStages | process/audit.py:92-192 | on a 200 page, the audit raises iff one of its stages does |
| Audit.AuditRaises | process/audit.py:92-192 | on a 200 page, the audit raises iff a tag lookup raises, the page has no `<img>`, or a remote call raises |
| Audit.NoImagesUnbound | process/audit.py:161-181 | a 200 page with no `<img>` whose tag lookups succeed always ends in the unbound-local error |
| Audit.AuditParts | process/audit.py:60-192 | a completed report is the template, overridden by the WHOIS record, then by the four field groups |
| Audit.GroupsDisjoint | process/audit.py:104-190 | no two field groups write the same key |
| Audit.HeadFieldsOf | process/audit.py:104-120 | a completed report holds the favicon, the title, the description, the H1 texts and each `Hn Count` as the number of `hn` tags |
| Audit.TagFieldsOf | process/audit.py:122-134 | a completed report holds the canonical and robots lookups, the OG and schema flags and the iframe list |
| Audit.LinkFieldsOf | process/audit.py:136-181 | a completed report comes from a page with an image; it holds the social and broken links, the image count, the alt count, the image details, and the internal/external partition |
| Audit.RemoteFieldsOf | process/audit.py:183-190 | a completed report holds the top keywords of the page text, both PageSpeed reports and the custom-404 answer |
| Audit.UntouchedFieldsOf | process/audit.py:60-102 | in a completed report, `URL` is the page URL, every WHOIS field survives, and the three flags stay empty |
| Audit.DetailKeys | process/audit.py:23-36 | a WHOIS record only writes WHOIS keys (or `Error`) |
| Audit.Merge | app.py:23 | the merged report has the keys of both; the second wins on shared keys |
| Audit.FullReport | app.py:17-23 | the route raises exactly what `check_tags` raises; otherwise it keeps every SEO field outside the flags, and the flags are the flag record's answers |
| Render.ZipLongest | process/audit.py:195-202 | the table has as many rows as the longer list; row `i` holds entry `i` of each list, or an empty cell past its end |
| Render.RowsHtml | process/audit.py:197-203 | the row loop yields the rows of the zip-longest table, in order |
| Render.LinkTexts | process/audit.py:195-196 | a missing key gives no links; a list gives one entry per item |
| Render.NoneToNullSpec | process/audit.py:207-209 | the rewrite keeps the keys, leaves no top-level `None`, turns `None` into `"Null"` and changes nothing else |
| Render.NoneToNullIdempotent | process/audit.py:207-209 | rewriting twice is the same as rewriting once |
| Render.Record.constructor | process/audit.py:194 | the record holds the report it is given |
| Render.Record.NormalizeNone | process/audit.py:207-209 | the in-place loop leaves the record holding the rewritten report |
| Render.GenerateHtmlReport | process/audit.py:194-209 | the rows come from the report's link lists as they were on entry, and the record ends up rewritten |

## Left out

- Network I/O. `requests.get`, `urlopen` and the WHOIS client are functions in `Audit.World`. They are assumed to give the same answer to the same request within one audit.
- HTML parsing. BeautifulSoup is replaced by a pre-parsed list of elements. Each element carries its tag, its attributes, its text and its stripped text. `soup.get_text()` is a field of the parsed page.
- `find(..., rel=v)` is modelled as token-sequence matching of the `rel` attribute. Tokens are split at the characters Python's `\s` matches (`Markup.IsSpace`). BeautifulSoup's other attribute-matching rules are not modelled.
- `urljoin` and `urlparse` are uninterpreted functions of the world (`join`, `netloc`, `scheme`). One property of `urljoin` is assumed: joining the page URL with a missing `src` gives the page URL back (`Markup.ImageUrl`), as `urljoin` returns its base for an empty second argument. No other property of URL syntax is assumed.
- Character classes are ASCII-only. `lower()` and `\w` are modelled for ASCII letters, digits and underscore; Unicode case mapping is not.
- The NLTK stop-word corpus is a parameter. Its contents are not modelled.
- Console output is not modelled. `get_image_size` prints the exception when the download fails; the model only gives its `'N/A'` answer.
- Floating point is not modelled. A kilobyte size is a real and a score is multiplied exactly.
- Helpers.ImageSize: gives the exact quotient `bytes / 1024`, without the rounding to two decimals, because floating-point rounding is not modelled.
- Tuples are modelled as lists. This covers the `(word, count)` pairs of the top keywords.
- Report keys are an enumeration (`Values.Field`), not free strings. The report and the flag record are keyed by `Field`; the PageSpeed metric dictionaries and the WHOIS entry keep their string keys.
- Exception messages are modelled by kind and by the URL or key involved. The library's exact message text is not modelled, except the fixed WHOIS and PageSpeed messages.
- The HTML template text, the timestamp (`datetime.now()`) and the file write of `generate_html_report` are not modelled. Only the link-table rows and the in-place `None` rewrite are modelled.
- The page part of `generate_html_report` is not modelled. That includes the `KeyError` it raises on an untouched template, which has no `Image Count` key.
- Render.LinkTexts: a link-list entry that is not a string renders as an empty cell. `check_tags` only ever stores strings there.
- The order in which the `None` rewrite visits the keys is not modelled. Each step touches only its own key, so the result does not depend on the order.
- The Flask routes (`/`, `/download`) and the JSON answer of `/audit` are not modelled. Only the report the route builds (`Audit.FullReport`) is.
- No lemma states that the untouched template lacks the WHOIS keys. Only the facts about `URL`, the flags and the field groups are stated.
