/** The Atom feed record that both feed handlers fill, and their shared error fallback. */
module Atom {
  import opened Base
  import opened Blog

  /** The site every feed link points into. */
  const SiteRoot: string := "https://blog.kowalczyk.info/"

  /** Most entries a feed carries. */
  const MaxEntries: nat := 25

  /** Body written instead of the feed when XML generation fails. */
  const FailureMessage: string := "Failed to generate XML feed"

  datatype Entry = Entry(title: string, link: string, content: string, pubDate: Time)

  datatype Feed = Feed(title: string, link: string, pubDate: Time, entries: seq<Entry>) {
    /** The generator's AddEntry: the entry goes at the end. */
    function AddEntry(e: Entry): Feed {
      this.(entries := entries + [e])
    }
  }

  /** What the XML generator reports for a feed: its bytes, or an error. */
  datatype GenResult = Generated(xml: seq<byte>) | GenFailed

  function FailureBytes(): (b: seq<byte>)
    ensures |b| == |FailureMessage|
  {
    AsciiBytes(FailureMessage)
  }

  /** The body a feed handler writes for the generator's result. */
  function ResponseBody(g: GenResult): (body: seq<byte>)
    ensures g.Generated? ==> body == g.xml
  {
    match g
    case Generated(xml) => xml
    case GenFailed => FailureBytes()
  }

  /** The path a site link names, or None when the link is not under SiteRoot. */
  function SitePath(link: string): (r: Option<string>)
    ensures r.Some? ==> link == SiteRoot + r.value
  {
    if |SiteRoot| <= |link| && link[..|SiteRoot|] == SiteRoot then Some(link[|SiteRoot|..]) else None
  }

  /** A link built from SiteRoot gives back the path it was built from. */
  lemma SitePathOfLink(path: string)
    ensures SitePath(SiteRoot + path) == Some(path)
  {
  }

  /** Whatever the generator produced, a failure is answered by exactly the fixed message. */
  lemma ResponseBodyFallback(g: GenResult)
    ensures g.GenFailed? ==> |ResponseBody(g)| == |FailureMessage|
    ensures g.GenFailed? ==> forall i :: 0 <= i < |FailureMessage| ==> ResponseBody(g)[i] as int == FailureMessage[i] as int
    ensures g.Generated? ==> ResponseBody(g) == g.xml
  {
  }
}
