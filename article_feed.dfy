/**
 * The article feeds /atom.xml and /atom-all.xml: the newest articles of the
 * (optionally filtered) cache, newest first, as Atom entries.
 */
module ArticleFeed {
  import opened Base
  import opened Blog
  import opened Atom

  const FeedTitle: string := "Krzysztof Kowalczyk blog"
  const FeedLink: string := "https://blog.kowalczyk.info/atom.xml"

  /** The list the feed is built from: the cache, or what the "note" tag filter keeps of it. */
  function Source(cached: seq<Article>, excludeNotes: bool, dropNotes: seq<Article> -> seq<Article>): (r: seq<Article>)
    ensures !excludeNotes ==> r == cached
  {
    if excludeNotes then dropNotes(cached) else cached
  }

  /** How many entries the feed carries: min(25, |articles|). */
  function EntryCount(articles: seq<Article>): (r: nat)
    ensures r <= MaxEntries && r <= |articles|
    ensures r == MaxEntries || r == |articles|
  {
    if MaxEntries > |articles| then |articles| else MaxEntries
  }

  /** The selected articles: the last EntryCount(articles) of them, read back to front. */
  function Latest(articles: seq<Article>): (r: seq<Article>)
    ensures |r| == EntryCount(articles)
  {
    Reverse(articles[|articles| - EntryCount(articles)..])
  }

  /** The feed's date: the first article's, or "now" for an empty list. */
  function FeedDate(articles: seq<Article>, now: Time): (t: Time)
    ensures |articles| == 0 ==> t == now
  {
    if |articles| > 0 then articles[0].publishedOn else now
  }

  /** The entry an article becomes. */
  function ArticleEntry(a: Article): (e: Entry)
    ensures e.title == a.title && e.content == a.bodyHTML && e.pubDate == a.publishedOn
  {
    Entry(a.title, SiteRoot + a.permalink, a.bodyHTML, a.publishedOn)
  }

  /** The feed handed to the XML generator for an already selected source list. */
  function ArticleFeed(articles: seq<Article>, now: Time): (f: Feed)
    ensures |f.entries| == EntryCount(articles)
  {
    Feed(FeedTitle, FeedLink, FeedDate(articles, now), Map(ArticleEntry, Latest(articles)))
  }

  /** The selection holds min(25, |articles|) articles, entry i being articles[|articles| - 1 - i]. */
  lemma LatestAt(articles: seq<Article>, i: int)
    requires 0 <= i < EntryCount(articles)
    ensures |Latest(articles)| == EntryCount(articles) <= MaxEntries
    ensures Latest(articles)[i] == articles[|articles| - 1 - i]
  {
    ReverseAt(articles[|articles| - EntryCount(articles)..], i);
  }

  /** Read back to front, the selection is exactly the tail of the list: the newest articles. */
  lemma LatestIsReversedTail(articles: seq<Article>)
    ensures Reverse(Latest(articles)) == articles[|articles| - EntryCount(articles)..]
    ensures |articles| <= MaxEntries ==> Reverse(Latest(articles)) == articles
  {
    ReverseReverse(articles[|articles| - EntryCount(articles)..]);
  }

  /** Each entry carries its article's title, body and date, and a site link to its permalink. */
  lemma ArticleEntryFields(a: Article)
    ensures ArticleEntry(a).title == a.title
    ensures ArticleEntry(a).content == a.bodyHTML
    ensures ArticleEntry(a).pubDate == a.publishedOn
    ensures SitePath(ArticleEntry(a).link) == Some(a.permalink)
  {
  }

  /**
   * The whole article feed: fixed title and link, the date of articles[0] (or now),
   * and min(25, |articles|) entries, entry i made from articles[|articles| - 1 - i].
   */
  lemma ArticleFeedShape(articles: seq<Article>, now: Time)
    ensures ArticleFeed(articles, now).title == FeedTitle
    ensures ArticleFeed(articles, now).link == FeedLink
    ensures |articles| > 0 ==> ArticleFeed(articles, now).pubDate == articles[0].publishedOn
    ensures |articles| == 0 ==> ArticleFeed(articles, now).pubDate == now
    ensures |ArticleFeed(articles, now).entries| == EntryCount(articles)
    ensures |articles| <= MaxEntries ==> |ArticleFeed(articles, now).entries| == |articles|
    ensures |articles| > MaxEntries ==> |ArticleFeed(articles, now).entries| == MaxEntries
    ensures forall i :: 0 <= i < EntryCount(articles) ==>
      ArticleFeed(articles, now).entries[i] == ArticleEntry(articles[|articles| - 1 - i])
  {
    var entries := ArticleFeed(articles, now).entries;
    forall i | 0 <= i < EntryCount(articles)
      ensures entries[i] == ArticleEntry(articles[|articles| - 1 - i])
    {
      LatestAt(articles, i);
      MapAt(ArticleEntry, Latest(articles), i);
    }
  }

  /**
   * On a chronological list the feed date is that of the OLDEST article: never later
   * than any entry's date.
   */
  lemma FeedDateIsOldest(articles: seq<Article>, now: Time)
    requires Chronological(articles)
    requires |articles| > 0
    ensures forall e :: e in ArticleFeed(articles, now).entries ==> ArticleFeed(articles, now).pubDate <= e.pubDate
  {
    ArticleFeedShape(articles, now);
    var entries := ArticleFeed(articles, now).entries;
    forall e | e in entries
      ensures articles[0].publishedOn <= e.pubDate
    {
      var i :| 0 <= i < |entries| && entries[i] == e;
      assert e == ArticleEntry(articles[|articles| - 1 - i]);
    }
  }

  /** On a chronological list the entries are in date order, newest first. */
  lemma EntriesNewestFirst(articles: seq<Article>, now: Time)
    requires Chronological(articles)
    ensures forall i, j :: 0 <= i < j < |ArticleFeed(articles, now).entries| ==>
      ArticleFeed(articles, now).entries[j].pubDate <= ArticleFeed(articles, now).entries[i].pubDate
  {
    ArticleFeedShape(articles, now);
  }

  /**
   * As soon as the oldest and newest articles differ in date, the feed date is not
   * the date of the first (newest) entry.
   */
  lemma FeedDateIsNotNewest(articles: seq<Article>, now: Time)
    requires |articles| >= 2
    requires articles[0].publishedOn != articles[|articles| - 1].publishedOn
    ensures ArticleFeed(articles, now).pubDate != ArticleFeed(articles, now).entries[0].pubDate
  {
    ArticleFeedShape(articles, now);
  }

  /**
   * Copies the newest min(25, |articles|) articles into a fresh array, newest
   * first, and gives back its contents.
   */
  method SelectLatest(articles: seq<Article>) returns (selected: seq<Article>)
    ensures selected == Latest(articles)
  {
    var n := MaxEntries;
    if n > |articles| {
      n := |articles|;
    }

    var latest := new Article[n];
    var size := |articles|;
    for i := 0 to n
      invariant forall k :: 0 <= k < i ==> latest[k] == articles[size - 1 - k]
    {
      latest[i] := articles[size - 1 - i];
    }
    forall k | 0 <= k < n
      ensures latest[..][k] == Latest(articles)[k]
    {
      LatestAt(articles, k);
    }
    selected := latest[..];
  }

  /**
   * Serves the article feed: optionally filter the cache, select the newest
   * articles newest first, build the feed entry by entry and write the
   * generator's output, or the fixed failure message.
   */
  method HandleAtomHelp(
    cached: seq<Article>,
    excludeNotes: bool,
    dropNotes: seq<Article> -> seq<Article>,
    now: Time,
    genXml: Feed -> GenResult)
    returns (body: seq<byte>)
    ensures body == ResponseBody(genXml(ArticleFeed(Source(cached, excludeNotes, dropNotes), now)))
  {
    var articles := cached;
    if excludeNotes {
      articles := dropNotes(articles);
    }
    var latest := SelectLatest(articles);

    var pubTime := now;
    if |articles| > 0 {
      pubTime := articles[0].publishedOn;
    }

    var feed := Feed(FeedTitle, FeedLink, pubTime, []);
    for i := 0 to |latest|
      invariant feed == Feed(FeedTitle, FeedLink, pubTime, Map(ArticleEntry, latest[..i]))
    {
      var a := latest[i];
      var e := Entry(a.title, SiteRoot + a.permalink, a.bodyHTML, a.publishedOn);
      assert Map(ArticleEntry, latest[..i + 1]) == Map(ArticleEntry, latest[..i]) + [e] by {
        MapSnoc(ArticleEntry, latest, i);
      }
      feed := feed.AddEntry(e);
    }
    assert feed == ArticleFeed(articles, now) by {
      assert latest[..|latest|] == latest;
    }

    var s := genXml(feed);
    if s.GenFailed? {
      body := FailureBytes();
    } else {
      body := s.xml;
    }
  }
}
