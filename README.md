# Blog feeds and sitemap

A Dafny model of the three read-only views a personal blog serves from its
in-memory content (`handler_atom.go`):

- the article Atom feeds (`/atom.xml`, `/atom-all.xml`): the last at most 25
  articles of the cached list (the newest, the cache being oldest-first),
  optionally after dropping "note"-tagged articles, last first;
- the daily-notes Atom feed (`/dailynotes-atom.xml`): the first at most 25
  notes, in list order, titled by ID when untitled, bodies wrapped in
  `<pre>…</pre>`;
- the sitemap (`/sitemap.xml`): one `{loc, lastmod}` URL per article, per
  static page and per note, in that order, in a sitemaps.org 0.9 URL set.

Modules: `Base` (Option, bytes, `Map`, `Reverse`), `Blog` (`Article`, `Note`),
`Atom` (`Entry`, `Feed`, the generator's result and the shared "Failed to
generate XML feed" fallback), `ArticleFeed`, `NotesFeed`, `SiteMap`. Each
handler is a method that follows the source's loops (the article selection
fills a fresh array by index; entries and URLs are appended one by one) and is
proved equal to a specification function (`ArticleFeed.ArticleFeed`,
`NotesFeed.NotesFeed`, `SiteMap.SiteMapURLs`), whose properties are lemmas.

The collaborators the handlers call are parameters: the article cache and the
notes list are sequences, the "note" tag filter is a function on sequences,
`time.Now()` is a `now` argument, `Time.Format("2006-01-02")` and `path.Join`
are function arguments, the Atom generator and the XML marshaller are
functions returning success with bytes or failure. `Article.Permalink()` is a
field of the article.

The feed date is the date of `articles[0]` of the (possibly filtered) list,
not of the newest article, although the entries are listed newest first. On the cache's oldest-first order that is the
oldest article's date (`ArticleFeed.FeedDateIsOldest`), and it differs from
the first entry's date whenever the first and last articles differ in date
(`ArticleFeed.FeedDateIsNotNewest`). The notes feed, by contrast, takes its
date from its first entry (`NotesFeed.NotesFeedShape`).

## Model

| member | source | states |
|---|---|---|
| `ArticleFeed.SelectLatest` | handler_atom.go:17-26 | filling `latest[i] = articles[size-1-i]` for `i < min(25, len)` yields exactly `Latest(articles)`, the reversed tail |
| `ArticleFeed.LatestAt` | handler_atom.go:17-26 | the selection has `min(25, len)` elements and element `i` is `articles[len-1-i]` |
| `ArticleFeed.LatestIsReversedTail` | handler_atom.go:22-26 | read back to front the selection is exactly the last `min(25, len)` articles, and the whole list when it has at most 25 |
| `ArticleFeed.ArticleEntryFields` | handler_atom.go:41-46 | an article entry copies title, body and date and its link is the site root followed by the permalink (the path is recovered from the link) |
| `ArticleFeed.ArticleFeedShape` | handler_atom.go:13-48 | the feed has the fixed title and link, the date of `articles[0]` or now when empty, exactly `min(25, len)` entries, entry `i` made from `articles[len-1-i]` |
| `ArticleFeed.FeedDateIsOldest` | handler_atom.go:28-31 | on a chronological list the feed date is no later than any entry's date |
| `ArticleFeed.EntriesNewestFirst` | handler_atom.go:22-26 | on a chronological list the entry dates never increase from one entry to the next: the feed lists the newest first |
| `ArticleFeed.FeedDateIsNotNewest` | handler_atom.go:28-31 | when the first and last articles differ in date, the feed date is not the first entry's date |
| `ArticleFeed.HandleAtomHelp` | handler_atom.go:12-56 | the body is the generator's output for the feed of the filtered (when excluding notes) or unfiltered cache, and exactly the failure message's bytes when generation fails |
| `Atom.SitePathOfLink` | handler_atom.go:43 | a link built as site root plus path gives that path back |
| `Atom.ResponseBodyFallback` | handler_atom.go:50-53 | on a generator error the body is exactly the bytes of "Failed to generate XML feed"; otherwise it is the generator's output |
| `NotesFeed.NoteTitleFallback` | handler_atom.go:168-171 | the title is the note's own when non-empty and its ID otherwise; it is empty only when both are |
| `NotesFeed.PreWrapRoundTrip` | handler_atom.go:172 | wrapping adds 11 characters and unwrapping gives the body back |
| `NotesFeed.NoteEntryFields` | handler_atom.go:166-178 | a note entry has the fallback title, content `<pre>` + body + `</pre>`, link site root + URL, and the note's day |
| `NotesFeed.NotesFeedShape` | handler_atom.go:150-180 | the notes feed has the fixed title and link, exactly `min(25, len)` entries, entry `i` made from note `i` (no reversal), and the first note's day (= first entry's date) or now |
| `NotesFeed.HandleNotesFeed` | handler_atom.go:149-188 | the body is the generator's output for the notes feed, and exactly the failure message's bytes when generation fails |
| `SiteMap.SiteMapLayout` | handler_atom.go:105-136 | the sitemap has `len(articles) + 9 + len(notes)` URLs: articles first, then the nine static pages in list order dated now, then notes, each loc `https://` + joined host and path |
| `SiteMap.SiteMapLocsAreHttps` | handler_atom.go:107-134 | every loc in the sitemap starts with `https://` |
| `SiteMap.StaticPagesDatedToday` | handler_atom.go:117-125 | all nine static-page URLs carry the same lastmod, the formatted "now" |
| `SiteMap.CollectURLs` | handler_atom.go:89-134 | the three append loops produce exactly `SiteMapURLs`: article URLs, then static-page URLs, then note URLs |
| `SiteMap.HandleSiteMap` | handler_atom.go:68-145 | the URL set carries the sitemaps.org 0.9 namespace and the collected URLs; a marshalling failure gives not-found, success gives the XML header bytes followed by the marshalled bytes |

## Left out

- HTTP plumbing (`http.ResponseWriter`, `*http.Request`, `w.Write`, `serveXML`, `serve404`): the handlers return the body, or for the sitemap a response that is the XML body or not-found; the request host is a string argument.
- `handleAtomAll` and `handleAtom` only pass `false` and `true` for `excludeNotes`; `ArticleFeed.HandleAtomHelp` takes that flag directly.
- The Atom library (`Feed.AddEntry`, `GenXml`) and `encoding/xml.MarshalIndent`: the feed is a record whose entry list is appended to, and the generator and marshaller are function arguments that succeed with bytes or fail; Atom and sitemap XML well-formedness are not modelled.
- `time.Now()` is an argument and `Time.Format("2006-01-02")` an uninterpreted function argument, so the `YYYY-MM-DD` shape of lastmod is not stated.
- `path.Join` is an uninterpreted function argument; only the `https://` prefix, the count and the order of the locs are stated, not Go's path cleaning.
- `getCachedArticles`, `notesAllNotes` and `filterArticlesByTag` are not part of this model: the lists and the filter are arguments, so "no entry of `/atom.xml` comes from a note-tagged article" is not stated (the filter's code is not available).
- `Article.Permalink()` is not part of this model: each article carries its permalink as a field.
- Go pointers: `latest` holds `*Article`; the model's array holds article values, which is the same since articles are not changed while a feed is built.
- `Base.AsciiBytes` converts only ASCII text faithfully (the two constant strings it is used for are ASCII); general UTF-8 encoding is not modelled.
