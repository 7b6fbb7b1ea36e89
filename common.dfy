/** Types shared by the three generations of the dorker: search hits, provider
    outcomes, output options, the page size and the displayed page number. */
module Common {

  datatype Option<T> = None | Some(value: T)

  datatype Result<T, E> = Ok(value: T) | Err(error: E)

  /** Python truthiness of an optional string: None and "" are false. */
  predicate Truthy(s: Option<string>) {
    s.Some? && |s.value| > 0
  }

  /** Every request asks for ten results (the class attribute `per_page`). */
  const PerPage: int := 10

  /** `query_results` starts at the given offset, or at 0 when there is none. */
  function StartOffset(offset: Option<int>): int {
    if offset.Some? then offset.value else 0
  }

  /** One search hit: its 'link' and 'title' (the only keys the dorker reads). */
  datatype Item = Item(link: string, title: string)

  datatype Engine = Google | DuckDuckGo | OtherEngine(name: string)

  /** The options dictionary built from the command line and stored in sessions. */
  datatype Options = Options(
    title: bool,
    body: bool,
    code: bool,
    dest: Option<string>,
    debug: bool,
    engine: Engine)

  /** What `json.loads(e.content)['error']['status']` gives for a provider
      exception: a status string, a body that is not JSON, or no status at all
      (no `content` attribute, or JSON without `error.status`). */
  datatype ErrorContent = Status(status: string) | NotJson | NoStatus

  /** The Google status of an exhausted quota. */
  const ResourceExhausted: string := "RESOURCE_EXHAUSTED"

  /** A provider exception: its JSON content and its text `str(e)`. */
  datatype ProviderError = ProviderError(content: ErrorContent, text: string)

  /** One call of the search provider: a response dictionary, with or without
      an 'items' entry, or an exception. */
  datatype Outcome = Response(items: Option<seq<Item>>) | Raised(error: ProviderError)

  /** The provider, as a function of the query and the requested start index
      (the page size is always PerPage). */
  type Backend = (string, int) -> Outcome

  /** Opaque enrichment: the HTTP status and the extracted body text of a URL. */
  type Fetch = string -> (int, string)

  /** The items a call yields: a missing 'items' entry, or an exception,
      counts as none. */
  function ItemsOf(o: Outcome): (items: seq<Item>)
    ensures o.Response? && o.items.Some? ==> items == o.items.value
    ensures o.Raised? || o.items.None? ==> items == []
  {
    match o
    case Raised(_) => []
    case Response(None) => []
    case Response(Some(items)) => items
  }

  predicate HasItems(o: Outcome) {
    |ItemsOf(o)| > 0
  }

  /** The call raised an exception with this content. */
  predicate RaisedWith(o: Outcome, content: ErrorContent) {
    o.Raised? && o.error.content == content
  }

  /** The provider has a finite result window: from `window` on, no request
      returns items, whatever the query. Google's custom search stops at 100. */
  ghost predicate ResultWindow(backend: Backend, window: int) {
    forall query, start :: window <= start ==> !HasItems(backend(query, start))
  }

  /** Appending is associative (a step the loops over written lines need). */
  lemma AppendAssoc<T>(a: seq<T>, b: seq<T>, c: seq<T>)
    ensures (a + b) + c == a + (b + c)
  {
  }

  /** The displayed page number `offset // per_page + 1` (floor division). */
  function Page(offset: int): (p: int)
    ensures (p - 1) * PerPage <= offset < p * PerPage
  {
    offset / PerPage + 1
  }

  /** Advancing the offset by n pages advances the displayed page by n. */
  lemma {:induction false} PageAfterPages(start: int, n: nat)
    ensures Page(start + PerPage * n) == Page(start) + n
  {
    if n > 0 {
      PageAfterPages(start, n - 1);
      assert start + PerPage * n == (start + PerPage * (n - 1)) + PerPage;
      PageStep(start + PerPage * (n - 1));
    }
  }

  lemma PageStep(offset: int)
    ensures Page(offset + PerPage) == Page(offset) + 1
  {
    var p := Page(offset);
    var q := Page(offset + PerPage);
    assert (p - 1) * PerPage <= offset < p * PerPage;
    assert (q - 1) * PerPage <= offset + PerPage < q * PerPage;
  }

  /** Offsets that are multiples of the page size show pages 1, 2, 3, ... */
  lemma PageOfMultiple(k: nat)
    ensures Page(PerPage * k) == k + 1
  {
    PageAfterPages(0, k);
  }

  /** The 1-based offsets of the oldest script (1, 11, 21, ...) show the same pages. */
  lemma PageOfOneBased(k: nat)
    ensures Page(1 + PerPage * k) == k + 1
  {
    PageAfterPages(1, k);
  }
}
