/** The data the audit works on: Python values as they sit in the report
    dictionary, the outcome of a step that may raise, HTTP responses, and the
    pre-parsed markup of a page. */
module Values {

  datatype Option<+T> = None | Some(value: T)

  /** A Python value as it appears in the report dictionary, in decoded JSON
      or in a WHOIS entry. A tuple is represented as a `List`. */
  datatype Value =
    | NoneV
    | Bool(b: bool)
    | Int(i: int)
    | Num(x: real)          // a Python float, kept as an exact rational
    | Str(s: string)
    | List(items: seq<Value>)
    | Dict(entries: map<string, Value>)
    | Date(stamp: string)   // a `datetime` object handed back by the WHOIS client

  /** The heading levels `h1` to `h6`. */
  type HeadingLevel = l: int | 1 <= l <= 6 witness 1

  /** The keys of the audit report. `Name` gives each key's text in the
      report dictionary. */
  datatype Field =
    | Url | FaviconLink | PageTitle | MetaDescription | H1TagsText | HeadingCount(level: HeadingLevel)
    | CanonicalTag | RobotsTag | OgTagsAvailable | SchemaMarkupAvailable | IframeList
    | SocialMediaLinks | BrokenLinks | ImageCount | ImagesWithAltText | ImageDetails
    | InternalLinks | ExternalLinks | TopKeywords | PageSpeedMobile | PageSpeedDesktop
    | Custom404Page | RobotsTxtAvailable | SitemapXmlAvailable | Https
    | DomainName | Registrar | CreationDate | ExpirationDate | LastUpdated | NameServers | DomainStatus
    | Error

  function Name(f: Field): string {
    match f
    case Url => "URL"
    case FaviconLink => "Favicon Link"
    case PageTitle => "Title"
    case MetaDescription => "Description"
    case H1TagsText => "H1 Tags Text"
    case HeadingCount(level) => "H" + [('0' as int + level) as char] + " Count"
    case CanonicalTag => "Canonical Tag"
    case RobotsTag => "Robots Tag"
    case OgTagsAvailable => "OG Tags Available"
    case SchemaMarkupAvailable => "Schema Markup Available"
    case IframeList => "iframes"
    case SocialMediaLinks => "social_media_links"
    case BrokenLinks => "broken_links"
    case ImageCount => "Image Count"
    case ImagesWithAltText => "Images with Alt Text"
    case ImageDetails => "Image Details"
    case InternalLinks => "Internal Links"
    case ExternalLinks => "External Links"
    case TopKeywords => "Top Keywords"
    case PageSpeedMobile => "PageSpeed Metrics Mobile"
    case PageSpeedDesktop => "PageSpeed Metrics Desktop"
    case Custom404Page => "Custom 404 Page"
    case RobotsTxtAvailable => "Robots.txt Available"
    case SitemapXmlAvailable => "Sitemap.xml Available"
    case Https => "HTTPS"
    case DomainName => "Domain Name"
    case Registrar => "Registrar"
    case CreationDate => "Creation Date"
    case ExpirationDate => "Expiration Date"
    case LastUpdated => "Last Updated"
    case NameServers => "Name Servers"
    case DomainStatus => "Status"
    case Error => "Error"
  }

  /** The key whose report text is `name`, if any. The texts are told apart
      by their length first. */
  function FieldOf(name: string): Option<Field> {
    match |name|
    case 8 =>
      if name[0] == 'H' && '1' <= name[1] <= '6' && name[2..] == " Count"
      then Some(HeadingCount(name[1] as int - '0' as int))
      else None
    case 3 =>
      if name == "URL" then Some(Url)
      else None
    case 5 =>
      if name == "Title" then Some(PageTitle)
      else if name == "HTTPS" then Some(Https)
      else if name == "Error" then Some(Error)
      else None
    case 6 =>
      if name == "Status" then Some(DomainStatus)
      else None
    case 7 =>
      if name == "iframes" then Some(IframeList)
      else None
    case 9 =>
      if name == "Registrar" then Some(Registrar)
      else None
    case 10 =>
      if name == "Robots Tag" then Some(RobotsTag)
      else None
    case 11 =>
      if name == "Description" then Some(MetaDescription)
      else if name == "Image Count" then Some(ImageCount)
      else if name == "Domain Name" then Some(DomainName)
      else None
    case 12 =>
      if name == "Favicon Link" then Some(FaviconLink)
      else if name == "H1 Tags Text" then Some(H1TagsText)
      else if name == "broken_links" then Some(BrokenLinks)
      else if name == "Top Keywords" then Some(TopKeywords)
      else if name == "Last Updated" then Some(LastUpdated)
      else if name == "Name Servers" then Some(NameServers)
      else None
    case 13 =>
      if name == "Canonical Tag" then Some(CanonicalTag)
      else if name == "Image Details" then Some(ImageDetails)
      else if name == "Creation Date" then Some(CreationDate)
      else None
    case 14 =>
      if name == "Internal Links" then Some(InternalLinks)
      else if name == "External Links" then Some(ExternalLinks)
      else None
    case 15 =>
      if name == "Custom 404 Page" then Some(Custom404Page)
      else if name == "Expiration Date" then Some(ExpirationDate)
      else None
    case 17 =>
      if name == "OG Tags Available" then Some(OgTagsAvailable)
      else None
    case 18 =>
      if name == "social_media_links" then Some(SocialMediaLinks)
      else None
    case 20 =>
      if name == "Images with Alt Text" then Some(ImagesWithAltText)
      else if name == "Robots.txt Available" then Some(RobotsTxtAvailable)
      else None
    case 21 =>
      if name == "Sitemap.xml Available" then Some(SitemapXmlAvailable)
      else None
    case 23 =>
      if name == "Schema Markup Available" then Some(SchemaMarkupAvailable)
      else None
    case 24 =>
      if name == "PageSpeed Metrics Mobile" then Some(PageSpeedMobile)
      else None
    case 25 =>
      if name == "PageSpeed Metrics Desktop" then Some(PageSpeedDesktop)
      else None
    case _ => None
  }

  /** Every key's text reads back as that key. */
  lemma NameRoundTrip(f: Field)
    ensures FieldOf(Name(f)) == Some(f)
  {
    if f.HeadingCount? {
      assert Name(f)[2..] == " Count";
    }
  }

  /** No two keys share a text, so the enumeration loses nothing of the
      dictionary's string keys. */
  lemma NameInjective(f: Field, g: Field)
    requires Name(f) == Name(g)
    ensures f == g
  {
    NameRoundTrip(f);
    NameRoundTrip(g);
  }

  /** The audit report: a dictionary from field to value. */
  type Report = map<Field, Value>

  /** A dictionary with text keys nested inside the report (a PageSpeed
      result, an image entry, an iframe's attributes). */
  type Entries = map<string, Value>

  /** Python truthiness. */
  predicate Truthy(v: Value) {
    match v
    case NoneV => false
    case Bool(b) => b
    case Int(i) => i != 0
    case Num(x) => x != 0.0
    case Str(s) => s != ""
    case List(items) => items != []
    case Dict(entries) => entries != map[]
    case Date(_) => true
  }

  /** `isinstance(v, (list, str))` */
  predicate IsListOrStr(v: Value) {
    v.List? || v.Str?
  }

  /** The exceptions that can escape an audit step. */
  datatype Failure =
    | RequestFailed(url: string)        // `requests.get` raised (network error)
    | MissingAttribute(name: string)    // `tag['name']` on a tag without that attribute (KeyError)
    | UnboundLocal(name: string)        // a local variable read before it was assigned
    | NotADictionary                    // `.get` called on a decoded JSON value that is not an object
    | UndecodableJson                   // `response.json()` on a body that is not JSON
    | CannotMultiply                    // `score * 100` on a value Python cannot multiply by an int

  /** The result of a step that either returns a value or raises. */
  datatype Outcome<+T> = Done(value: T) | Raised(error: Failure) {
    predicate IsFailure() {
      Raised?
    }

    function PropagateFailure<U>(): Outcome<U>
      requires Raised?
    {
      Raised(error)
    }

    function Extract(): T
      requires Done?
    {
      value
    }
  }

  /** What `requests.get(url)` gives: a response with its status code and body
      text, or a raised `RequestException`. */
  datatype Response = Status(code: int, body: string) | NetError(reason: string)

  /** One element of the parsed document: its tag name, its attributes (a
      multi-valued attribute such as `rel` keeps its raw text), its text
      (`.text`) and its text with each piece stripped (`get_text(strip=True)`). */
  datatype Element = Element(tag: string, attrs: map<string, string>, text: string, strippedText: string)

  /** A parsed page: its elements in document order and its whole text (`soup.get_text()`). */
  datatype Page = Page(elements: seq<Element>, text: string)
}
