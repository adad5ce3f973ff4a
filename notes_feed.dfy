/**
 * The daily-notes feed /dailynotes-atom.xml: the first 25 notes, in the
 * order of the notes list, as Atom entries.
 */
module NotesFeed {
  import opened Base
  import opened Blog
  import opened Atom

  const FeedTitle: string := "Krzysztof Kowalczyk daily notes"
  const FeedLink: string := "https://blog.kowalczyk.info/dailynotes-atom.xml"

  const PreOpen: string := "<pre>"
  const PreClose: string := "</pre>"

  /** The notes the feed shows: the list cut to its first 25 elements. */
  function Shown(notes: seq<Note>): (r: seq<Note>)
    ensures |r| <= MaxEntries && r <= notes
  {
    if |notes| > MaxEntries then notes[..MaxEntries] else notes
  }

  /** The title of a note's entry: its own title, or its ID when the title is empty. */
  function NoteTitle(n: Note): (t: string)
    ensures t == n.title || t == n.id
  {
    if n.title == "" then n.id else n.title
  }

  /** A note body wrapped in a preformatted block. */
  function PreWrap(body: string): (html: string)
    ensures |html| == |body| + |PreOpen| + |PreClose|
  {
    PreOpen + body + PreClose
  }

  /** The body inside a preformatted block, or None when `html` is not one. */
  function PreUnwrap(html: string): (r: Option<string>)
    ensures r.Some? ==> |r.value| + |PreOpen| + |PreClose| == |html|
  {
    if |PreOpen| + |PreClose| <= |html|
       && html[..|PreOpen|] == PreOpen
       && html[|html| - |PreClose|..] == PreClose
    then Some(html[|PreOpen|..|html| - |PreClose|])
    else None
  }

  /** The entry a note becomes. */
  function NoteEntry(n: Note): (e: Entry)
    ensures e.pubDate == n.day
  {
    Entry(NoteTitle(n), SiteRoot + n.url, PreWrap(n.htmlBody), n.day)
  }

  /** The feed handed to the XML generator for the whole notes list. */
  function NotesFeed(notes: seq<Note>, now: Time): (f: Feed)
    ensures |f.entries| <= MaxEntries
  {
    var shown := Shown(notes);
    Feed(FeedTitle, FeedLink, if |shown| > 0 then shown[0].day else now, Map(NoteEntry, shown))
  }

  /** Unwrapping a wrapped body gives the body back; the wrapper adds 11 characters. */
  lemma PreWrapRoundTrip(body: string)
    ensures |PreWrap(body)| == |body| + 11
    ensures PreUnwrap(PreWrap(body)) == Some(body)
  {
  }

  /** The title falls back to the ID exactly when the note has no title of its own. */
  lemma NoteTitleFallback(n: Note)
    ensures n.title != "" ==> NoteTitle(n) == n.title
    ensures n.title == "" ==> NoteTitle(n) == n.id
    ensures NoteTitle(n) == "" <==> n.title == "" && n.id == ""
  {
  }

  /** A note's entry: fallback title, site link to its URL, wrapped body and its day. */
  lemma NoteEntryFields(n: Note)
    ensures NoteEntry(n).title == (if n.title == "" then n.id else n.title)
    ensures SitePath(NoteEntry(n).link) == Some(n.url)
    ensures NoteEntry(n).content == "<pre>" + n.htmlBody + "</pre>"
    ensures PreUnwrap(NoteEntry(n).content) == Some(n.htmlBody)
    ensures NoteEntry(n).pubDate == n.day
  {
  }

  /**
   * The whole notes feed: fixed title and link, min(25, |notes|) entries that
   * follow the notes list in order (no reversal), and the date of the first note,
   * which is also the date of the first entry, or now for no notes.
   */
  lemma NotesFeedShape(notes: seq<Note>, now: Time)
    ensures NotesFeed(notes, now).title == FeedTitle
    ensures NotesFeed(notes, now).link == FeedLink
    ensures |NotesFeed(notes, now).entries| == if |notes| > MaxEntries then MaxEntries else |notes|
    ensures forall i :: 0 <= i < |NotesFeed(notes, now).entries| ==>
      NotesFeed(notes, now).entries[i] == NoteEntry(notes[i])
    ensures |notes| > 0 ==> NotesFeed(notes, now).pubDate == notes[0].day == NotesFeed(notes, now).entries[0].pubDate
    ensures |notes| == 0 ==> NotesFeed(notes, now).pubDate == now
  {
    var shown := Shown(notes);
    forall i | 0 <= i < |shown|
      ensures Map(NoteEntry, shown)[i] == NoteEntry(notes[i])
    {
      MapAt(NoteEntry, shown, i);
    }
  }

  /**
   * Serves the notes feed: cut the notes list to 25, build the feed entry by
   * entry and write the generator's output, or the fixed failure message.
   */
  method HandleNotesFeed(allNotes: seq<Note>, now: Time, genXml: Feed -> GenResult)
    returns (body: seq<byte>)
    ensures body == ResponseBody(genXml(NotesFeed(allNotes, now)))
  {
    var notes := allNotes;
    if |notes| > MaxEntries {
      notes := notes[..MaxEntries];
    }

    var pubTime := now;
    if |notes| > 0 {
      pubTime := notes[0].day;
    }

    var feed := Feed(FeedTitle, FeedLink, pubTime, []);
    for i := 0 to |notes|
      invariant feed == Feed(FeedTitle, FeedLink, pubTime, Map(NoteEntry, notes[..i]))
    {
      var n := notes[i];
      var title := n.title;
      if title == "" {
        title := n.id;
      }
      var html := PreOpen + n.htmlBody + PreClose;
      var e := Entry(title, SiteRoot + n.url, html, n.day);
      MapSnoc(NoteEntry, notes, i);
      feed := feed.AddEntry(e);
    }
    assert notes[..|notes|] == notes;

    var s := genXml(feed);
    if s.GenFailed? {
      body := FailureBytes();
    } else {
      body := s.xml;
    }
  }
}
