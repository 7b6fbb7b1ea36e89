/** The search step and pagination loop that the two single-file scripts
    share: errors are classified inline by `_search` / `_google_search`, which
    set the searcher's own `is_limit_reached` flag on quota exhaustion and
    otherwise swallow the error as an empty page. */
module ScriptPaging {
  import opened Common
  import opened Format

  /** What one call of `_search` gives: the items it returns and whether it
      set the limit flag, or an exception escaping the handler itself (the
      error had no JSON `content` with `error.status`). `cause` is the
      provider's error that made the handler fail, not the exception that
      escapes (a KeyError, TypeError or AttributeError of the handler). */
  datatype SearchStep = Found(items: seq<Item>, limitReached: bool) | Crashed(cause: ProviderError)

  function InlineSearch(o: Outcome): (s: SearchStep)
    ensures s.Found? && s.items != [] ==> HasItems(o) && !s.limitReached
    ensures s.Crashed? <==> RaisedWith(o, NoStatus)
    ensures s.Crashed? ==> s.cause == o.error
  {
    match o
    case Response(_) => Found(ItemsOf(o), false)
    case Raised(e) =>
      match e.content
      case Status(status) => Found([], status == ResourceExhausted)
      case NotJson => Found([], false)
      case NoStatus => Crashed(e)
  }

  /** A response's items come back unchanged; every exception that the
      handler can read yields an empty page; the flag is set exactly for a
      RESOURCE_EXHAUSTED status; only an unreadable exception escapes. */
  lemma InlineSearchSpec(o: Outcome)
    ensures var s := InlineSearch(o);
      && (o.Response? ==> s == Found(ItemsOf(o), false))
      && (o.Raised? ==> (s.Found? ==> s.items == []))
      && (s.Found? && s.limitReached <==> o.Raised? && o.error.content == Status(ResourceExhausted))
      && (s.Crashed? <==> o.Raised? && o.error.content == NoStatus)
  {
  }

  /** How the scripts' `query_results` loop ends for one query: the offset
      it stops at, the number of non-empty pages, the items handed to
      printing, whether the limit flag was set, and an escaping exception. */
  datatype ScriptRun = ScriptRun(
    offset: int,
    advanced: nat,
    printed: seq<Item>,
    lines: seq<Line>,
    limitReached: bool,
    crash: Option<ProviderError>)

  /** How `_print_results` writes a hit: the line tag and the options, and
      the enrichment of each link. */
  datatype Printer = Printer(prefix: Prefix, options: Options, fetch: Fetch)

  /** The loop from `start` with the flag clear: request a page, print it,
      stop on an empty page (or an escaping exception), else advance by one
      page. A page with items never sets the flag, so the guard only matters
      on entry. */
  function Paginate(backend: Backend, out: Printer, query: string, start: int, window: int): (r: ScriptRun)
    requires ResultWindow(backend, window)
    ensures r.crash.Some? ==> !r.limitReached
    decreases if start <= window then window - start else 0
  {
    match InlineSearch(backend(query, start))
    case Crashed(e) => ScriptRun(start, 0, [], [], false, Some(e))
    case Found(items, limit) =>
      if items == [] then ScriptRun(start, 0, [], [], limit, None)
      else
        var rest := Paginate(backend, out, query, start + PerPage, window);
        rest.(advanced := rest.advanced + 1, printed := items + rest.printed,
              lines := HitLines(out, items) + rest.lines)
  }

  /** After the loop the offset is the start plus one page size per
      non-empty page. */
  lemma {:induction false} PaginateOffset(backend: Backend, out: Printer, query: string, start: int, window: int)
    requires ResultWindow(backend, window)
    ensures var r := Paginate(backend, out, query, start, window);
      r.offset == start + PerPage * r.advanced
    decreases if start <= window then window - start else 0
  {
    var s := InlineSearch(backend(query, start));
    if s.Found? && s.items != [] {
      PaginateOffset(backend, out, query, start + PerPage, window);
    }
  }

  /** The loop fetched exactly the pages start, start + 10, ... up to the
      stopping offset: every earlier page had items, the page at the stopping
      offset had none (or its error escaped), and the flag is set only when
      that page's error was RESOURCE_EXHAUSTED, so the offset still points at
      the page that failed. */
  lemma {:induction false} PaginateStops(backend: Backend, out: Printer, query: string, start: int, window: int)
    requires ResultWindow(backend, window)
    ensures var r := Paginate(backend, out, query, start, window);
      && (forall k :: 0 <= k < r.advanced ==> HasItems(backend(query, start + PerPage * k)))
      && !HasItems(backend(query, r.offset))
      && (r.limitReached <==> RaisedWith(backend(query, r.offset), Status(ResourceExhausted)))
      && (r.crash.Some? <==> RaisedWith(backend(query, r.offset), NoStatus))
      && (r.crash.Some? ==> Raised(r.crash.value) == backend(query, r.offset))
    decreases if start <= window then window - start else 0
  {
    var o := backend(query, start);
    var s := InlineSearch(o);
    if s.Found? && s.items != [] {
      PaginateStops(backend, out, query, start + PerPage, window);
      var r := Paginate(backend, out, query, start + PerPage, window);
      forall k | 0 <= k < r.advanced + 1
        ensures HasItems(backend(query, start + PerPage * k))
      {
        if k > 0 {
          assert start + PerPage * k == start + PerPage + PerPage * (k - 1);
        }
      }
    }
  }

  /** The printed items are the pages' items, in page order. */
  function PagesItems(backend: Backend, query: string, start: int, pages: nat): seq<Item>
    decreases pages
  {
    if pages == 0 then []
    else
      ItemsOf(backend(query, start))
      + PagesItems(backend, query, start + PerPage, pages - 1)
  }

  lemma {:induction false} PaginatePrinted(backend: Backend, out: Printer, query: string, start: int, window: int)
    requires ResultWindow(backend, window)
    ensures var r := Paginate(backend, out, query, start, window);
      r.printed == PagesItems(backend, query, start, r.advanced)
    decreases if start <= window then window - start else 0
  {
    var s := InlineSearch(backend(query, start));
    if s.Found? && s.items != [] {
      PaginatePrinted(backend, out, query, start + PerPage, window);
    }
  }

  /** One turn of the loop: the run from `start` in terms of the page at
      `start` and the run from the next page. */
  lemma PaginateStep(backend: Backend, out: Printer, query: string, start: int, window: int)
    requires ResultWindow(backend, window)
    ensures var s := InlineSearch(backend(query, start));
      var r := Paginate(backend, out, query, start, window);
      && (s.Crashed? ==> r == ScriptRun(start, 0, [], [], false, Some(s.cause)))
      && (s.Found? && s.items == [] ==> r == ScriptRun(start, 0, [], [], s.limitReached, None))
      && (s.Found? && s.items != [] ==>
            && !s.limitReached && start < window
            && var rest := Paginate(backend, out, query, start + PerPage, window);
            && r.offset == rest.offset && r.printed == s.items + rest.printed
            && r.lines == HitLines(out, s.items) + rest.lines
            && r.limitReached == rest.limitReached && r.crash == rest.crash)
  {
  }

  /** The scripts' `is_extended`: fetch each hit when the code or the body
      is shown. */
  function IsExtended(options: Options): (r: bool)
    ensures r ==> options.code || options.body
    ensures !r ==> forall p: Pieces :: FormatPieces(options.code, options.title, options.body, p).Ok?
  {
    options.code || options.body
  }

  /** A hit's line. Every piece the line asks for was fetched, so it never
      fails. */
  function HitLine(out: Printer, item: Item): (line: Line)
    ensures line.prefix == out.prefix && line.pieces != [] && line.pieces[0] == UrlPiece(item.link)
  {
    TaggedLine(out.prefix, out.options, PiecesFor(item, IsExtended(out.options), out.fetch)).value
  }

  lemma HitLineFormats(out: Printer, item: Item)
    ensures TaggedLine(out.prefix, out.options, PiecesFor(item, IsExtended(out.options), out.fetch))
         == Ok(HitLine(out, item))
  {
  }

  /** A hit's line carries the printer's tag, the link first, then the
      status code (with its colour band), the title and the snippet of the
      fetched page, each exactly when its option is set, in that order. */
  lemma HitLineShape(out: Printer, item: Item)
    ensures var line := HitLine(out, item);
      var (status, text) := out.fetch(item.link);
      && line.prefix == out.prefix
      && LineShape(line.pieces, UrlPiece(item.link), CodePiece(status, CodeColor(status)), TitlePiece(item.title),
                   BodyPiece(Snippet(text)), out.options.code, out.options.title, out.options.body)
  {
    var p := PiecesFor(item, IsExtended(out.options), out.fetch);
    var o := out.options;
    var (status, text) := out.fetch(item.link);
    var u, cp, tp, bp := UrlPiece(item.link), CodePiece(status, CodeColor(status)), TitlePiece(item.title), BodyPiece(Snippet(text));
    FormatAssembles(o.code, o.title, o.body, p, cp, bp);
    AssembleShape(u, cp, tp, bp, o.code, o.title, o.body);
  }

  /** The lines `_print_results` writes for a page: one per hit, in order. */
  function HitLines(out: Printer, items: seq<Item>): (lines: seq<Line>)
    ensures |lines| == |items|
    decreases |items|
  {
    if items == [] then []
    else [HitLine(out, items[0])] + HitLines(out, items[1..])
  }

  /** Printing two runs of hits writes their lines one after the other. */
  lemma {:induction false} HitLinesAppend(out: Printer, a: seq<Item>, b: seq<Item>)
    ensures HitLines(out, a + b) == HitLines(out, a) + HitLines(out, b)
    decreases |a|
  {
    if a != [] {
      assert (a + b)[1..] == a[1..] + b;
      HitLinesAppend(out, a[1..], b);
    } else {
      assert a + b == b;
    }
  }

  /** The loop writes exactly the lines of the hits it printed. */
  lemma {:induction false} PaginateLines(backend: Backend, out: Printer, query: string, start: int, window: int)
    requires ResultWindow(backend, window)
    ensures var r := Paginate(backend, out, query, start, window);
      r.lines == HitLines(out, r.printed)
    decreases if start <= window then window - start else 0
  {
    var s := InlineSearch(backend(query, start));
    if s.Found? && s.items != [] {
      PaginateLines(backend, out, query, start + PerPage, window);
      HitLinesAppend(out, s.items, Paginate(backend, out, query, start + PerPage, window).printed);
    }
  }
}
