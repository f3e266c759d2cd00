/** Values that flow between the components: the article record built from a
    feed entry, the outcome of one call to the text-generation service, and
    the `{summary, categories}` result of a summarisation step. */
module Common {

  datatype Option<+T> = None | Some(value: T) {
    function GetOr(default: T): T
    {
      match this
      case Some(v) => v
      case None => default
    }
  }

  /** The article dictionary that the feed reader builds: the keys
      `title`, `link`, `published`, `author` and `content`, always present. */
  datatype Article = Article(title: string, link: string, published: string, author: string, content: string)

  /** What one call to the text-generation service gives back: a response
      object with its HTTP status, error code, error message and output text,
      or an exception (its `str(e)`). */
  datatype GenOutcome =
    | Response(statusCode: int, code: string, message: string, text: string)
    | Raised(error: string)

  /** The `{"summary": ..., "categories": [...]}` dictionary. */
  datatype SummaryResult = SummaryResult(summary: string, categories: seq<string>)
}
