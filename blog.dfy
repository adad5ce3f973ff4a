/** The blog's content records, as the article cache and the notes list hold them. */
module Blog {

  /** An instant in time (a Go time.Time), as a count of nanoseconds. */
  type Time = int

  /**
   * A blog article. `permalink` is the relative path that Article.Permalink()
   * derives from the article's metadata; the model takes it as given.
   */
  datatype Article = Article(
    id: int,
    title: string,
    bodyHTML: string,
    publishedOn: Time,
    permalink: string,
    tags: set<string>)

  /** A daily note; `title` is empty when the note has none. */
  datatype Note = Note(
    id: string,
    title: string,
    htmlBody: string,
    day: Time,
    url: string)

  /** Articles in non-decreasing order of publication (the cache's order, oldest first). */
  predicate Chronological(articles: seq<Article>) {
    forall i, j :: 0 <= i < j < |articles| ==> articles[i].publishedOn <= articles[j].publishedOn
  }
}
