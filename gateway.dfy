/**
 * The shapes of what the AI service (services/geminiService.ts) hands back
 * to the pages. The service itself is not modelled: each call's outcome is
 * an input to the handler that awaited it.
 */
module Gateway {
  import opened Types

  /** How an awaited call ended: a value, a thrown `Error` with its message, or some other thrown value. */
  datatype Outcome<T> = Returned(value: T) | ThrewError(message: string) | ThrewNonError

  /** `err instanceof Error ? err.message : fallback` */
  function ErrorText<T>(o: Outcome<T>, fallback: string): (msg: string)
    requires !o.Returned?
    ensures o.ThrewError? ==> msg == o.message
    ensures o.ThrewNonError? ==> msg == fallback
  {
    if o.ThrewError? then o.message else fallback
  }

  /**
   * A page's own fallback wording reaches the user only when something other
   * than an `Error` was thrown: two pages with different fallbacks show the
   * same text for a failure exactly when it was an `Error`.
   */
  lemma FallbackOnlyForNonErrors<T>(o: Outcome<T>, f1: string, f2: string)
    requires !o.Returned?
    requires f1 != f2
    ensures ErrorText(o, f1) == ErrorText(o, f2) <==> o.ThrewError?
  {
  }

  /** `aspectRatio: '1:1' | '16:9' | '9:16' | '4:3' | '3:4'` of an image request. */
  datatype AspectRatio = Square | Wide | Tall | Standard | Upright

  function RatioName(r: AspectRatio): string {
    match r
    case Square => "1:1"
    case Wide => "16:9"
    case Tall => "9:16"
    case Standard => "4:3"
    case Upright => "3:4"
  }

  /** The image form's initial ratio. */
  const DefaultRatio := Wide

  datatype MapsRef = MapsRef(uri: string, title: string)

  /** A grounding chunk; only some carry a `maps` entry. */
  datatype Chunk = Chunk(maps: Option<MapsRef>)

  /** `{ text, groundingChunks }` as returned by the place searches. */
  datatype SearchResult = SearchResult(text: string, groundingChunks: seq<Chunk>)

  /** Coordinates from the browser, kept opaque. */
  datatype Location = Location(latitude: real, longitude: real)
}
