/** Values shared by the two API routes and the page, as JavaScript sees them
    after a JSON body has been decoded. */
module Types {

  datatype Option<T> = None | Some(value: T)

  /** A JSON member that is meant to hold a string: absent (`undefined`),
      `null`, or a string. */
  datatype Field = Missing | Null | Str(s: string)

  /** JavaScript truthiness of such a member: only a non-empty string is
      truthy. There is no trimming, so "  " is truthy. */
  predicate Truthy(f: Field)
  {
    f.Str? && f.s != ""
  }

  /** How a template literal renders the member: `${undefined}` gives
      "undefined" and `${null}` gives "null". */
  function Show(f: Field): (r: string)
    ensures f.Str? ==> r == f.s
  {
    match f
    case Missing => "undefined"
    case Null => "null"
    case Str(s) => s
  }

  /** The article record (NewsArticle) that the news route produces, the page
      keeps and the Telegram route renders. */
  datatype Article = Article(
    title: Field,
    description: Field,
    url: Field,
    source: Field,
    publishedAt: Field)
}
