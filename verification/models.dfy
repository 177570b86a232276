/** The query-side record the language model is asked to fill in. */
module Models {

  /** One bookmark returned for a query. */
  datatype Bookmark = Bookmark(title: string, url: string, source: string)

  /** The structured-output shape of an answer: a list of bookmarks. */
  datatype Bookmarks = Bookmarks(bookmarks: seq<Bookmark>)
}
