/**
 * The sitemap /sitemap.xml: one URL per cached article, per static page and
 * per note, in that order, under the sitemaps.org 0.9 namespace.
 */
module SiteMap {
  import opened Base
  import opened Blog

  const SitemapNamespace: string := "http://www.sitemaps.org/schemas/sitemap/0.9"

  /** The XML declaration written before the marshalled URL set. */
  const XmlHeader: string := "<?xml version=\"1.0\" encoding=\"UTF-8\"?>\n"

  /** The important static pages, in the order the sitemap lists them. */
  const StaticPages: seq<string> := [
    "/book/go-cookbook.html",
    "/articles/cbz-cbr-comic-book-reader-viewer-for-windows.html",
    "/articles/chm-reader-viewer-for-windows.html",
    "/articles/mobi-ebook-reader-viewer-for-windows.html",
    "/articles/epub-ebook-reader-viewer-for-windows.html",
    "/articles/where-to-get-free-ebooks-epub-mobi.html",
    "/software/",
    "static/documents.html",
    "/dailynotes"
  ]

  datatype SiteMapURL = SiteMapURL(loc: string, lastMod: string)

  datatype SiteMapURLSet = SiteMapURLSet(ns: string, urls: seq<SiteMapURL>)

  /** The response: the XML document, or the not-found page when marshalling fails. */
  datatype Response = ServeXml(body: seq<byte>) | NotFound

  /** Joins the request host and a path (path.Join, whose cleaning is not modelled). */
  type PathJoin = (string, string) -> string

  /** Formats an instant as a YYYY-MM-DD day (Time.Format, not modelled). */
  type DayFormat = Time -> string

  function MakeSiteMapURLSet(): (u: SiteMapURLSet)
    ensures u.ns == SitemapNamespace && u.urls == []
  {
    SiteMapURLSet(SitemapNamespace, [])
  }

  /** The absolute location of `path` on `host`. */
  function PageURL(join: PathJoin, host: string, path: string): (loc: string)
  {
    "https://" + join(host, path)
  }

  function ArticleURL(join: PathJoin, format: DayFormat, host: string): Article -> SiteMapURL {
    (a: Article) => SiteMapURL(PageURL(join, host, a.permalink), format(a.publishedOn))
  }

  function StaticURL(join: PathJoin, host: string, today: string): string -> SiteMapURL {
    (p: string) => SiteMapURL(PageURL(join, host, p), today)
  }

  function NoteURL(join: PathJoin, format: DayFormat, host: string): Note -> SiteMapURL {
    (n: Note) => SiteMapURL(PageURL(join, host, n.url), format(n.day))
  }

  /** The sitemap's URLs: articles, then the static pages dated today, then notes. */
  function SiteMapURLs(
    articles: seq<Article>, notes: seq<Note>, host: string, now: Time,
    join: PathJoin, format: DayFormat): (urls: seq<SiteMapURL>)
    ensures |urls| == |articles| + |StaticPages| + |notes|
  {
    Map(ArticleURL(join, format, host), articles)
      + Map(StaticURL(join, host, format(now)), StaticPages)
      + Map(NoteURL(join, format, host), notes)
  }

  /**
   * |articles| + 9 + |notes| URLs: URL i < |articles| is article i's, then static
   * page k's at |articles| + k, then note j's at |articles| + 9 + j.
   */
  lemma SiteMapLayout(
    articles: seq<Article>, notes: seq<Note>, host: string, now: Time,
    join: PathJoin, format: DayFormat)
    ensures |SiteMapURLs(articles, notes, host, now, join, format)| == |articles| + 9 + |notes|
    ensures forall i :: 0 <= i < |articles| ==>
      SiteMapURLs(articles, notes, host, now, join, format)[i]
        == SiteMapURL("https://" + join(host, articles[i].permalink), format(articles[i].publishedOn))
    ensures forall k :: 0 <= k < 9 ==>
      SiteMapURLs(articles, notes, host, now, join, format)[|articles| + k]
        == SiteMapURL("https://" + join(host, StaticPages[k]), format(now))
    ensures forall j :: 0 <= j < |notes| ==>
      SiteMapURLs(articles, notes, host, now, join, format)[|articles| + 9 + j]
        == SiteMapURL("https://" + join(host, notes[j].url), format(notes[j].day))
  {
    var urls := SiteMapURLs(articles, notes, host, now, join, format);
    forall i | 0 <= i < |articles|
      ensures urls[i] == SiteMapURL("https://" + join(host, articles[i].permalink), format(articles[i].publishedOn))
    {
      MapAt(ArticleURL(join, format, host), articles, i);
    }
    forall k | 0 <= k < 9
      ensures urls[|articles| + k] == SiteMapURL("https://" + join(host, StaticPages[k]), format(now))
    {
      MapAt(StaticURL(join, host, format(now)), StaticPages, k);
    }
    forall j | 0 <= j < |notes|
      ensures urls[|articles| + 9 + j] == SiteMapURL("https://" + join(host, notes[j].url), format(notes[j].day))
    {
      MapAt(NoteURL(join, format, host), notes, j);
    }
  }

  /** Every location in the sitemap is an absolute https URL. */
  lemma SiteMapLocsAreHttps(
    articles: seq<Article>, notes: seq<Note>, host: string, now: Time,
    join: PathJoin, format: DayFormat)
    ensures forall u :: u in SiteMapURLs(articles, notes, host, now, join, format) ==>
      |u.loc| >= 8 && u.loc[..8] == "https://"
  {
    SiteMapLayout(articles, notes, host, now, join, format);
    var urls := SiteMapURLs(articles, notes, host, now, join, format);
    forall u | u in urls
      ensures |u.loc| >= 8 && u.loc[..8] == "https://"
    {
      var i :| 0 <= i < |urls| && urls[i] == u;
      var path := if i < |articles| then articles[i].permalink
        else if i < |articles| + 9 then StaticPages[i - |articles|]
        else notes[i - |articles| - 9].url;
      assert u.loc == "https://" + join(host, path);
    }
  }

  /** The nine static pages all carry the same lastmod: the day of "now". */
  lemma StaticPagesDatedToday(
    articles: seq<Article>, notes: seq<Note>, host: string, now: Time,
    join: PathJoin, format: DayFormat)
    ensures forall u :: u in SiteMapURLs(articles, notes, host, now, join, format)[|articles|..|articles| + 9] ==>
      u.lastMod == format(now)
  {
    SiteMapLayout(articles, notes, host, now, join, format);
    var urls := SiteMapURLs(articles, notes, host, now, join, format);
    var statics := urls[|articles|..|articles| + 9];
    forall u | u in statics
      ensures u.lastMod == format(now)
    {
      var k :| 0 <= k < 9 && statics[k] == u;
      assert u == urls[|articles| + k];
      assert urls[|articles| + k] == SiteMapURL("https://" + join(host, StaticPages[k]), format(now));
    }
  }

  /**
   * The URL list of the sitemap: append the articles' URLs, then the static
   * pages' (all dated now), then the notes'.
   */
  method CollectURLs(
    articles: seq<Article>,
    notes: seq<Note>,
    host: string,
    now: Time,
    join: PathJoin,
    format: DayFormat)
    returns (urls: seq<SiteMapURL>)
    ensures urls == SiteMapURLs(articles, notes, host, now, join, format)
  {
    urls := [];
    for i := 0 to |articles|
      invariant urls == Map(ArticleURL(join, format, host), articles[..i])
    {
      var article := articles[i];
      var pageURL := "https://" + join(host, article.permalink);
      var uri := SiteMapURL(pageURL, format(article.publishedOn));
      MapSnoc(ArticleURL(join, format, host), articles, i);
      urls := urls + [uri];
    }
    assert articles[..|articles|] == articles;
    ghost var articleURLs := urls;

    for k := 0 to |StaticPages|
      invariant urls == articleURLs + Map(StaticURL(join, host, format(now)), StaticPages[..k])
    {
      var staticURL := StaticPages[k];
      var pageURL := "https://" + join(host, staticURL);
      var uri := SiteMapURL(pageURL, format(now));
      MapSnoc(StaticURL(join, host, format(now)), StaticPages, k);
      urls := urls + [uri];
    }
    assert StaticPages[..|StaticPages|] == StaticPages;
    ghost var fixedURLs := urls;

    for j := 0 to |notes|
      invariant urls == fixedURLs + Map(NoteURL(join, format, host), notes[..j])
    {
      var note := notes[j];
      var pageURL := "https://" + join(host, note.url);
      var uri := SiteMapURL(pageURL, format(note.day));
      MapSnoc(NoteURL(join, format, host), notes, j);
      urls := urls + [uri];
    }
    assert notes[..|notes|] == notes;
  }

  /**
   * Serves the sitemap: collect the URLs into a sitemaps.org URL set and write
   * the XML declaration followed by the marshalled set, or not-found when
   * marshalling fails.
   */
  method HandleSiteMap(
    articles: seq<Article>,
    notes: seq<Note>,
    host: string,
    now: Time,
    join: PathJoin,
    format: DayFormat,
    marshal: SiteMapURLSet -> Option<seq<byte>>)
    returns (resp: Response)
    ensures marshal(SiteMapURLSet(SitemapNamespace, SiteMapURLs(articles, notes, host, now, join, format))).None?
      ==> resp == NotFound
    ensures marshal(SiteMapURLSet(SitemapNamespace, SiteMapURLs(articles, notes, host, now, join, format))).Some?
      ==> resp == ServeXml(AsciiBytes(XmlHeader)
           + marshal(SiteMapURLSet(SitemapNamespace, SiteMapURLs(articles, notes, host, now, join, format))).value)
  {
    var urlset := MakeSiteMapURLSet();
    var urls := CollectURLs(articles, notes, host, now, join, format);
    urlset := urlset.(urls := urls);
    var xmlData := marshal(urlset);
    if xmlData.None? {
      resp := NotFound;
      return;
    }
    resp := ServeXml(AsciiBytes(XmlHeader) + xmlData.value);
  }
}
