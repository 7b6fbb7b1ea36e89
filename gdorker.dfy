/** The current package (src/gdorker/__init__.py): a `Dorker` pages through
    one query with a pluggable search client, whose error handler decides
    whether a provider exception ends the query quietly or escapes; `main`
    runs the query list, saving a session snapshot after each query. */
module Gdorker {
  import opened Common
  import opened Format
  import opened Queries

  /** `Formatter.is_extended`: each hit is fetched when the status code is
      shown, or when the body is shown and the engine is not DuckDuckGo. */
  function IsExtended(options: Options): (r: bool)
    ensures r ==> options.code || options.body
    ensures options.code ==> r
    ensures options.engine != DuckDuckGo ==> (r <==> options.code || options.body)
  {
    options.code || (options.body && options.engine != DuckDuckGo)
  }

  /** The two older scripts fetch whenever the code or the body is shown; the
      current rule differs from theirs exactly for a DuckDuckGo body without
      codes. */
  lemma ExtendedDiffersOnlyForDuckDuckGoBody(options: Options)
    ensures IsExtended(options) != (options.code || options.body)
        <==> options.body && !options.code && options.engine == DuckDuckGo
  {
  }

  // ---------------------------------------------------------------------
  // Error classification (SearchClient.error_handler)
  // ---------------------------------------------------------------------

  const InvalidArgument: string := "INVALID_ARGUMENT"
  const DuckDuckGoLimit: string := "202"

  predicate OccursAt(s: string, sub: string, i: int) {
    0 <= i <= |s| - |sub| && s[i..i + |sub|] == sub
  }

  /** `sub` occurs in `s` (Python's `sub in s`). */
  predicate Contains(s: string, sub: string) {
    exists i :: 0 <= i <= |s| - |sub| && OccursAt(s, sub, i)
  }

  /** What the handler does with a provider exception: return `[]`, re-raise
      the exception (after setting the limit flag, or not), or raise an
      exception of its own (no readable status, or an unknown engine). */
  datatype Verdict = Swallow | Reraise(marksLimit: bool) | RaiseOther

  /** The limit flag is set exactly for Google's RESOURCE_EXHAUSTED and for a
      DuckDuckGo error mentioning 202; an engine the handler does not know
      raises its own exception. */
  function Classify(engine: Engine, e: ProviderError): (v: Verdict)
    ensures v == Reraise(true) <==>
      (engine == Google && e.content == Status(ResourceExhausted)) || (engine == DuckDuckGo && Contains(e.text, DuckDuckGoLimit))
    ensures engine.OtherEngine? ==> v == RaiseOther
  {
    match engine
    case Google =>
      (match e.content
       case Status(status) =>
         if status == ResourceExhausted then Reraise(true)
         else if status == InvalidArgument then Swallow
         else Reraise(false)
       case NotJson => Swallow
       case NoStatus => RaiseOther)
    case DuckDuckGo =>
      if Contains(e.text, DuckDuckGoLimit) then Reraise(true) else Swallow
    case OtherEngine(_) => RaiseOther
  }

  /** The handler sets the limit flag only on a verdict that raises: a quota
      error always escapes the page loop. */
  lemma ClassifyTable(engine: Engine, e: ProviderError)
    ensures var v := Classify(engine, e);
      && (engine == Google ==>
            && (v == Reraise(true) <==> e.content == Status(ResourceExhausted))
            && (v == Swallow <==> e.content == Status(InvalidArgument) || e.content == NotJson)
            && (v == RaiseOther <==> e.content == NoStatus))
      && (engine == DuckDuckGo ==>
            && (v == Reraise(true) <==> Contains(e.text, DuckDuckGoLimit))
            && (v != Reraise(true) <==> v == Swallow))
      && (engine.OtherEngine? ==> v == RaiseOther)
  {
  }

  /** Why a query ended with an exception: the provider's error re-raised by
      the handler, an exception raised inside the handler, or a result piece
      the formatter could not find (KeyError). */
  datatype Failure =
    | Reraised(error: ProviderError)
    | HandlerError(error: ProviderError)
    | MissingPiece(field: Field)

  /** The call set the client's limit flag. */
  predicate Marks(engine: Engine, o: Outcome) {
    o.Raised? && Classify(engine, o.error) == Reraise(true)
  }

  /** `Dorker._search`: the client's items, or what the handler makes of an
      exception. */
  function SearchStep(engine: Engine, o: Outcome): (r: Result<seq<Item>, Failure>)
    ensures o.Response? ==> r == Ok(ItemsOf(o))
    ensures r.Ok? && r.value != [] ==> HasItems(o) && r.value == ItemsOf(o)
    ensures Marks(engine, o) ==> r == Err(Reraised(o.error))
    ensures o.Raised? && r.Ok? ==> r.value == []
    ensures o.Raised? ==> (r == Ok([]) <==> Classify(engine, o.error) == Swallow)
    ensures r.Err? ==> o.Raised? && !r.error.MissingPiece? && r.error.error == o.error
    ensures r.Err? ==> (r.error.Reraised? <==> Classify(engine, o.error).Reraise?)
  {
    match o
    case Response(_) => Ok(ItemsOf(o))
    case Raised(e) =>
      match Classify(engine, e)
      case Swallow => Ok([])
      case Reraise(_) => Err(Reraised(e))
      case RaiseOther => Err(HandlerError(e))
  }

  // ---------------------------------------------------------------------
  // Printing one page of results
  // ---------------------------------------------------------------------

  /** The lines written for a page, and the key that stopped printing. */
  datatype Printed = Printed(lines: seq<Line>, missing: Option<Field>)

  function PrintPage(options: Options, fetch: Fetch, results: seq<Item>): (p: Printed)
    ensures p.missing.Some? ==> p.missing.value == CodeField || p.missing.value == BodyField
    decreases |results|
  {
    if results == [] then Printed([], None)
    else
      match TaggedLine(UrlTag, options, PiecesFor(results[0], IsExtended(options), fetch))
      case Err(f) => Printed([], Some(f))
      case Ok(line) =>
        var rest := PrintPage(options, fetch, results[1..]);
        rest.(lines := [line] + rest.lines)
  }

  /** Printing fails exactly for a non-empty page when the body is asked for
      on DuckDuckGo without codes: the formatter is then not extended, so the
      pieces have no body. It fails on the first hit, before any line. With
      any other options every hit gives one line. */
  lemma {:induction false} PrintPageMissing(options: Options, fetch: Fetch, results: seq<Item>)
    ensures var p := PrintPage(options, fetch, results);
      && (p.missing.Some? <==> results != [] && options.body && !options.code && options.engine == DuckDuckGo)
      && (p.missing.Some? ==> p.missing == Some(BodyField) && p.lines == [])
      && (p.missing.None? ==> |p.lines| == |results|)
    decreases |results|
  {
    if results != [] {
      var pieces := PiecesFor(results[0], IsExtended(options), fetch);
      FormatFailure(options.code, options.title, options.body, pieces);
      PrintPageMissing(options, fetch, results[1..]);
    }
  }

  /** Printing a non-empty page: the first hit's line, then the rest. */
  lemma PrintPageStep(options: Options, fetch: Fetch, results: seq<Item>)
    requires results != []
    ensures var line := TaggedLine(UrlTag, options, PiecesFor(results[0], IsExtended(options), fetch));
      var p := PrintPage(options, fetch, results);
      var rest := PrintPage(options, fetch, results[1..]);
      && (line.Err? ==> p == Printed([], Some(line.error)))
      && (line.Ok? ==> p.lines == [line.value] + rest.lines && p.missing == rest.missing)
  {
  }

  /** Every printed line is the formatter's line for the hit at that
      position. */
  lemma {:induction false} PrintPageLines(options: Options, fetch: Fetch, results: seq<Item>)
    ensures |PrintPage(options, fetch, results).lines| <= |results|
    ensures forall k :: 0 <= k < |PrintPage(options, fetch, results).lines| ==>
      TaggedLine(UrlTag, options, PiecesFor(results[k], IsExtended(options), fetch)) == Ok(PrintPage(options, fetch, results).lines[k])
    decreases |results|
  {
    if results != [] {
      PrintPageLines(options, fetch, results[1..]);
      PrintPageStep(options, fetch, results);
      var p := PrintPage(options, fetch, results);
      var rest := PrintPage(options, fetch, results[1..]);
      forall k | 0 <= k < |p.lines|
        ensures TaggedLine(UrlTag, options, PiecesFor(results[k], IsExtended(options), fetch)) == Ok(p.lines[k])
      {
        if k > 0 {
          assert p.lines[k] == rest.lines[k - 1];
          assert results[1..][k - 1] == results[k];
        }
      }
    }
  }

  // ---------------------------------------------------------------------
  // Paging through one query (Dorker.query_results)
  // ---------------------------------------------------------------------

  /** Everything a query run depends on besides the query and the offset:
      the client's engine and provider, the logger's options and the page
      fetcher used for enrichment. */
  datatype Setup = Setup(engine: Engine, backend: Backend, options: Options, fetch: Fetch)

  /** How a query ends: the offset it stops at, the number of pages it
      advanced over, the lines written, and the exception that ended it. */
  datatype PageRun = PageRun(offset: int, advanced: nat, lines: seq<Line>, failure: Option<Failure>)


  /** The loop of `query_results` from `start` (with the Dorker's flag
      clear): search, print, stop on an empty page, else advance one page.
      An exception from the search or from printing leaves the loop with the
      offset at the failing page. */
  function Paginate(s: Setup, query: string, start: int, window: int): (r: PageRun)
    requires ResultWindow(s.backend, window)
    ensures r.failure.Some? && r.failure.value.MissingPiece? ==>
      && r.failure.value.field == BodyField && r.advanced == 0 && r.lines == []
      && s.options.body && !s.options.code && s.options.engine == DuckDuckGo
    decreases if start <= window then window - start else 0
  {
    match SearchStep(s.engine, s.backend(query, start))
    case Err(f) => PageRun(start, 0, [], Some(f))
    case Ok(items) =>
      PrintPageMissing(s.options, s.fetch, items);
      var p := PrintPage(s.options, s.fetch, items);
      if p.missing.Some? then PageRun(start, 0, p.lines, Some(MissingPiece(p.missing.value)))
      else if items == [] then PageRun(start, 0, [], None)
      else
        var rest := Paginate(s, query, start + PerPage, window);
        rest.(advanced := rest.advanced + 1, lines := p.lines + rest.lines)
  }

  /** One turn of the loop: how the run from `start` follows from the page
      at `start` and the run from the next page. */
  lemma PaginateStep(s: Setup, query: string, start: int, window: int)
    requires ResultWindow(s.backend, window)
    ensures var step := SearchStep(s.engine, s.backend(query, start));
      var r := Paginate(s, query, start, window);
      && (step.Err? ==> r == PageRun(start, 0, [], Some(step.error)))
      && (step.Ok? ==>
            var p := PrintPage(s.options, s.fetch, step.value);
            && (p.missing.Some? ==> r == PageRun(start, 0, p.lines, Some(MissingPiece(p.missing.value))))
            && (p.missing.None? && step.value == [] ==> r == PageRun(start, 0, [], None))
            && (p.missing.None? && step.value != [] ==>
                  var rest := Paginate(s, query, start + PerPage, window);
                  r.offset == rest.offset && r.failure == rest.failure && r.lines == p.lines + rest.lines))
  {
  }

  /** The final offset is the start plus one page size per page with hits. */
  lemma {:induction false} PaginateOffset(s: Setup, query: string, start: int, window: int)
    requires ResultWindow(s.backend, window)
    ensures var r := Paginate(s, query, start, window);
      r.offset == start + PerPage * r.advanced
    decreases if start <= window then window - start else 0
  {
    var step := SearchStep(s.engine, s.backend(query, start));
    if step.Ok? && PrintPage(s.options, s.fetch, step.value).missing.None? && step.value != [] {
      PaginateOffset(s, query, start + PerPage, window);
    }
  }

  /** The pages before the stopping offset all had hits. The loop ends on
      the first page that is empty (no failure), whose search raised, or
      whose printing failed; the offset is not advanced past it. */
  lemma {:induction false} PaginateStops(s: Setup, query: string, start: int, window: int)
    requires ResultWindow(s.backend, window)
    ensures var r := Paginate(s, query, start, window);
      var step := SearchStep(s.engine, s.backend(query, r.offset));
      && (forall k :: 0 <= k < r.advanced ==> HasItems(s.backend(query, start + PerPage * k)))
      && (r.failure.None? <==> step == Ok([]))
      && (step.Err? <==> r.failure.Some? && !r.failure.value.MissingPiece?)
      && (step.Err? ==> r.failure == Some(step.error))
      && (r.failure.Some? && r.failure.value.MissingPiece? ==>
            step.Ok? && PrintPage(s.options, s.fetch, step.value).missing == Some(r.failure.value.field))
    decreases if start <= window then window - start else 0
  {
    var step := SearchStep(s.engine, s.backend(query, start));
    if step.Ok? && PrintPage(s.options, s.fetch, step.value).missing.None? && step.value != [] {
      PaginateStops(s, query, start + PerPage, window);
      var r := Paginate(s, query, start + PerPage, window);
      forall k | 0 <= k < r.advanced + 1
        ensures HasItems(s.backend(query, start + PerPage * k))
      {
        if k > 0 {
          assert start + PerPage * k == start + PerPage + PerPage * (k - 1);
        }
      }
    }
  }

  /** On Google, an exception ends the query at the page that raised it:
      quietly exactly for INVALID_ARGUMENT or a body that is not JSON; any
      other status re-raises the provider's error, and an error without a
      status makes the handler raise its own. */
  lemma GoogleErrorEndsQuery(s: Setup, query: string, start: int, window: int)
    requires ResultWindow(s.backend, window)
    requires s.engine == Google
    ensures s.backend(query, start).Raised? ==> Paginate(s, query, start, window).offset == start
    ensures var r := Paginate(s, query, start, window);
      var o := s.backend(query, r.offset);
      o.Raised? ==>
        && (r.failure.None? <==> o.error.content == Status(InvalidArgument) || o.error.content == NotJson)
        && (o.error.content.Status? && o.error.content != Status(InvalidArgument) ==> r.failure == Some(Reraised(o.error)))
        && (o.error.content == NoStatus ==> r.failure == Some(HandlerError(o.error)))
  {
    PaginateStep(s, query, start, window);
    PaginateStops(s, query, start, window);
    var r := Paginate(s, query, start, window);
    var o := s.backend(query, r.offset);
    if o.Raised? {
      ClassifyTable(Google, o.error);
    }
  }

  // ---------------------------------------------------------------------
  // The objects
  // ---------------------------------------------------------------------

  /** `ConfigManager`: the credentials read from the configuration file, and
      those set from the command line. */
  class ConfigManager {
    /** The configuration file's entries (created with empty values when
        absent). */
    const file: map<string, string>
    var apiKey: Option<string>
    var cseId: Option<string>

    constructor(file: map<string, string>)
      ensures this.file == file && apiKey == None && cseId == None
    {
      this.file := file;
      apiKey := None;
      cseId := None;
    }

    method SetApiKeys(apiKey: Option<string>, cseId: Option<string>)
      modifies this
      ensures this.apiKey == apiKey && this.cseId == cseId
    {
      this.apiKey := apiKey;
      this.cseId := cseId;
    }

    /** `get_google_api_keys`: each credential comes from the file when the
        file's value is non-empty, otherwise from `set_api_keys`. The error
        branch needs a truthy string of length zero, so it never fires. */
    function GetGoogleApiKeys(): (r: Result<Credentials, string>)
      reads this
      ensures r.Ok? ==>
        && (Truthy(Some(ConfigEntry(file, "google_api_key"))) ==> r.value.apiKey == Some(file["google_api_key"]))
        && (!Truthy(Some(ConfigEntry(file, "google_api_key"))) ==> r.value.apiKey == apiKey)
        && (Truthy(Some(ConfigEntry(file, "google_cse_id"))) ==> r.value.cseId == Some(file["google_cse_id"]))
        && (!Truthy(Some(ConfigEntry(file, "google_cse_id"))) ==> r.value.cseId == cseId)
    {
      CheckCredentials(Credentials(OrElse(ConfigEntry(file, "google_api_key"), apiKey),
                                   OrElse(ConfigEntry(file, "google_cse_id"), cseId)))
    }
  }

  /** The length test `get_google_api_keys` applies to truthy credentials. */
  function CheckCredentials(c: Credentials): (r: Result<Credentials, string>)
    ensures r.Ok? ==> r.value == c
  {
    if Truthy(c.apiKey) && Truthy(c.cseId) && (|c.apiKey.value| == 0 || |c.cseId.value| == 0) then
      Err("API Key and CSE ID must be set in the configuration file.")
    else
      Ok(c)
  }

  /** The credentials a Google client is built with. */
  datatype Credentials = Credentials(apiKey: Option<string>, cseId: Option<string>)

  /** The ValueError of `get_google_api_keys` is unreachable: it needs a
      truthy credential of length zero. */
  lemma GetGoogleApiKeysNeverFails(config: ConfigManager)
    ensures config.GetGoogleApiKeys().Ok?
  {
  }

  /** `dict.get(name, '')`. */
  function ConfigEntry(file: map<string, string>, name: string): string {
    if name in file then file[name] else ""
  }

  /** Python's `a or b` for a string and an optional string. */
  function OrElse(a: string, b: Option<string>): Option<string> {
    if |a| > 0 then Some(a) else b
  }

  /** `SearchClient`: the engine, the provider it calls, the credentials it
      was built with, and the limit flag its error handler sets. */
  class SearchClient {
    const engine: Engine
    const backend: Backend
    const apiKey: Option<string>
    const cseId: Option<string>
    var isLimitReached: bool

    constructor(engine: Engine, apiKey: Option<string>, cseId: Option<string>, backend: Backend)
      ensures this.engine == engine && this.backend == backend
      ensures this.apiKey == apiKey && this.cseId == cseId
      ensures !isLimitReached
    {
      this.engine := engine;
      this.backend := backend;
      this.apiKey := apiKey;
      this.cseId := cseId;
      isLimitReached := false;
    }

    /** `error_handler`: the verdict on `e`; the flag is set exactly when the
        verdict is a quota re-raise. */
    method ErrorHandler(e: ProviderError) returns (v: Verdict)
      modifies this
      ensures v == Classify(engine, e)
      ensures isLimitReached == (old(isLimitReached) || v == Reraise(true))
    {
      match engine {
        case Google =>
          match e.content {
            case Status(status) =>
              if status == ResourceExhausted {
                isLimitReached := true;
                return Reraise(true);
              } else if status == InvalidArgument {
                return Swallow;
              }
              return Reraise(false);
            case NotJson =>
              return Swallow;
            case NoStatus =>
              return RaiseOther;
          }
        case DuckDuckGo =>
          if Contains(e.text, DuckDuckGoLimit) {
            isLimitReached := true;
            return Reraise(true);
          }
          return Swallow;
        case OtherEngine(_) =>
          return RaiseOther;
      }
    }
  }

  /** `SearchClient(engine, config)`: the Google client takes its credentials
      from the configuration; an engine other than Google or DuckDuckGo is
      refused with a ValueError. */
  method NewSearchClient(engine: Engine, config: ConfigManager, backend: Backend) returns (r: Result<SearchClient, string>)
    ensures r.Ok? <==> !engine.OtherEngine? && (engine == Google ==> config.GetGoogleApiKeys().Ok?)
    ensures r.Ok? ==> fresh(r.value) && r.value.engine == engine && r.value.backend == backend && !r.value.isLimitReached
    ensures r.Ok? && engine == Google ==> Credentials(r.value.apiKey, r.value.cseId) == config.GetGoogleApiKeys().value
  {
    match engine {
      case Google =>
        var keys := config.GetGoogleApiKeys();
        if keys.Err? {
          return Err(keys.error);
        }
        var client := new SearchClient(engine, keys.value.apiKey, keys.value.cseId, backend);
        return Ok(client);
      case DuckDuckGo =>
        var client := new SearchClient(engine, None, None, backend);
        return Ok(client);
      case OtherEngine(name) =>
        return Err("Unsupported search engine: " + name);
    }
  }

  /** `Dorker`: pages through one query at a time. Its own limit flag is
      never written after construction; quota errors set the client's. */
  class Dorker {
    const options: Options
    const fetch: Fetch
    const client: SearchClient
    var offset: int
    var isLimitReached: bool
    var query: Option<string>

    constructor(options: Options, fetch: Fetch, client: SearchClient)
      ensures this.options == options && this.fetch == fetch && this.client == client
      ensures offset == 0 && !isLimitReached && query == None
    {
      this.options := options;
      this.fetch := fetch;
      this.client := client;
      offset := 0;
      isLimitReached := false;
      query := None;
    }

    function Env(): Setup {
      Setup(client.engine, client.backend, options, fetch)
    }

    /** `_page`: the page the offset falls in, counting from 1. */
    function CurrentPage(): (p: int)
      reads this
      ensures (p - 1) * PerPage <= offset < p * PerPage
    {
      Page(offset)
    }

    /** `_search`: one call of the client, exceptions handed to the
        client's handler. */
    method Search(query: string, start: int) returns (r: Result<seq<Item>, Failure>)
      modifies client
      ensures r == SearchStep(client.engine, client.backend(query, start))
      ensures client.isLimitReached == (old(client.isLimitReached) || Marks(client.engine, client.backend(query, start)))
    {
      var o := client.backend(query, start);
      match o {
        case Response(_) =>
          var items := ItemsOf(o);
          if |items| == 0 {
            return Ok([]);
          }
          return Ok(items);
        case Raised(e) =>
          var v := client.ErrorHandler(e);
          match v {
            case Swallow => return Ok([]);
            case Reraise(_) => return Err(Reraised(e));
            case RaiseOther => return Err(HandlerError(e));
          }
      }
    }

    /** `_print_results`: one line per hit, in order, until a piece is
        missing. */
    method PrintResults(results: seq<Item>) returns (lines: seq<Line>, missing: Option<Field>)
      ensures Printed(lines, missing) == PrintPage(options, fetch, results)
    {
      var extended := IsExtended(options);
      lines := [];
      missing := None;
      var i := 0;
      while i < |results|
        invariant 0 <= i <= |results|
        invariant var whole := PrintPage(options, fetch, results);
          var rest := PrintPage(options, fetch, results[i..]);
          whole.missing == rest.missing && whole.lines == lines + rest.lines
      {
        assert results[i..][1..] == results[i + 1..];
        PrintPageStep(options, fetch, results[i..]);
        var line := FormatLine(UrlTag, options, PiecesFor(results[i], extended, fetch));
        if line.Err? {
          missing := Some(line.error);
          return;
        }
        lines := lines + [line.value];
        i := i + 1;
      }
    }

    /** `whole` is what the loop computes when `written` is already printed
        and the loop carries on from `at`. */
    ghost predicate Continues(query: string, at: int, window: int, whole: PageRun, written: seq<Line>)
      requires ResultWindow(client.backend, window)
    {
      var rest := Paginate(Env(), query, at, window);
      whole.offset == rest.offset && whole.failure == rest.failure && whole.lines == written + rest.lines
    }

    /** One turn of the `query_results` loop at `start`: search, print
        after the lines `written` so far, and tell whether the loop goes on
        to the next page. */
    method NextPage(query: string, start: int, ghost window: int, written: seq<Line>, ghost whole: PageRun)
      returns (lines: seq<Line>, failure: Option<Failure>, more: bool)
      requires ResultWindow(client.backend, window)
      requires Continues(query, start, window, whole, written)
      modifies client
      ensures client.isLimitReached == (old(client.isLimitReached) || Marks(client.engine, client.backend(query, start)))
      ensures !more ==> whole.lines == lines && whole.offset == start && whole.failure == failure
      ensures more ==>
        && failure == None && start < window && !Marks(client.engine, client.backend(query, start))
        && Continues(query, start + PerPage, window, whole, lines)
    {
      PaginateStep(Env(), query, start, window);
      var results := Search(query, start);
      if results.Err? {
        assert written + [] == written;
        return written, Some(results.error), false;
      }
      var printed, missing := PrintResults(results.value);
      lines := written + printed;
      failure := None;
      more := false;
      if missing.Some? {
        failure := Some(MissingPiece(missing.value));
      } else if results.value == [] {
        assert written + [] == written;
      } else {
        more := true;
        AppendAssoc(written, printed, Paginate(Env(), query, start + PerPage, window).lines);
      }
    }

    /** `query_results`: restart at the given offset (0 when none) and run
        the page loop while the Dorker's flag is clear. */
    method QueryResults(query: string, offset: Option<int>, ghost window: int) returns (lines: seq<Line>, failure: Option<Failure>)
      requires ResultWindow(client.backend, window)
      modifies this, client
      ensures this.query == Some(query)
      ensures isLimitReached == old(isLimitReached)
      ensures old(isLimitReached) ==>
        this.offset == StartOffset(offset) && lines == [] && failure == None
        && client.isLimitReached == old(client.isLimitReached)
      ensures !old(isLimitReached) ==>
        var r := Paginate(Env(), query, StartOffset(offset), window);
        && this.offset == r.offset && lines == r.lines && failure == r.failure
        && client.isLimitReached == (old(client.isLimitReached) || Marks(client.engine, client.backend(query, r.offset)))
    {
      var start := if offset.None? then 0 else offset.value;
      this.offset := start;
      this.query := Some(query);
      lines := [];
      failure := None;
      if isLimitReached {
        return;
      }
      lines, failure := PageLoop(query, start, window);
    }

    /** The `while` loop of `query_results` from `start`, entered with the
        Dorker's flag clear (it stays clear). */
    method PageLoop(query: string, start: int, ghost window: int) returns (lines: seq<Line>, failure: Option<Failure>)
      requires ResultWindow(client.backend, window)
      requires !isLimitReached && offset == start
      modifies this`offset, client
      ensures var r := Paginate(Env(), query, start, window);
        && offset == r.offset && lines == r.lines && failure == r.failure
        && client.isLimitReached == (old(client.isLimitReached) || Marks(client.engine, client.backend(query, r.offset)))
    {
      lines := [];
      failure := None;
      var at := start;
      ghost var whole := Paginate(Env(), query, start, window);
      assert Continues(query, at, window, whole, lines);
      while !isLimitReached
        invariant offset == at
        invariant client.isLimitReached == old(client.isLimitReached)
        invariant failure == None
        invariant Continues(query, at, window, whole, lines)
        decreases if at <= window then window - at else 0
      {
        var more;
        lines, failure, more := NextPage(query, at, window, lines, whole);
        if !more {
          return;
        }
        offset := at + PerPage;
        at := at + PerPage;
      }
    }
  }

  /** What `Session.save` writes. */
  datatype Snapshot = Snapshot(fileOrQuery: string, options: Options, currentQuery: Option<string>, offset: int)

  /** The session file: present with a snapshot, or absent. */
  class Session {
    var stored: Option<Snapshot>

    constructor(stored: Option<Snapshot>)
      ensures this.stored == stored
    {
      this.stored := stored;
    }

    /** `save`: the source argument, the options, and the Dorker's current
        query and offset. */
    method Save(fileOrQuery: string, options: Options, gs: Dorker)
      modifies this
      ensures stored == Some(Snapshot(fileOrQuery, options, gs.query, gs.offset))
    {
      stored := Some(Snapshot(fileOrQuery, options, gs.query, gs.offset));
    }

    /** `clean`: remove the file; `removed` is false when there was none
        (FileNotFoundError). */
    method Clean() returns (removed: bool)
      modifies this
      ensures removed == old(stored).Some? && stored == None
    {
      removed := stored.Some?;
      stored := None;
    }
  }

  // ---------------------------------------------------------------------
  // Loading the queries
  // ---------------------------------------------------------------------

  /** `qs` lists each of `lines`' values exactly once. */
  ghost predicate DedupOf(qs: seq<string>, lines: seq<string>) {
    NoDuplicates(qs) && forall q :: q in qs <==> q in lines
  }

  /** `load_queries`: the file's distinct lines in the (unspecified) order
      of a set, or the argument itself when it names no readable file. */
  method LoadQueries(files: map<string, seq<string>>, source: string) returns (qs: seq<string>)
    ensures source in files ==> DedupOf(qs, files[source])
    ensures source !in files ==> qs == [source]
  {
    if source !in files {
      return [source];
    }
    var lines := files[source];
    var remaining := set q | q in lines;
    qs := [];
    while remaining != {}
      invariant NoDuplicates(qs)
      invariant forall q :: q in qs ==> q in lines && q !in remaining
      invariant forall q :: q in lines ==> q in qs || q in remaining
      invariant remaining <= set q | q in lines
      decreases remaining
    {
      var q :| q in remaining;
      qs := qs + [q];
      remaining := remaining - {q};
    }
  }

  /** A list has at most as many distinct values as elements, and exactly as
      many when it has no duplicates. */
  lemma {:induction false} DistinctValues(lines: seq<string>)
    ensures |set q | q in lines| <= |lines|
    ensures |set q | q in lines| == |lines| <==> NoDuplicates(lines)
  {
    if lines != [] {
      var rest := lines[1..];
      DistinctValues(rest);
      assert (set q | q in lines) == (set q | q in rest) + {lines[0]};
      if lines[0] in rest {
        var k :| 0 <= k < |rest| && rest[k] == lines[0];
        assert lines[k + 1] == lines[0];
      } else {
        if NoDuplicates(rest) {
          forall i, j | 0 <= i < j < |lines| ensures lines[i] != lines[j] {
            if i == 0 {
              assert lines[j] == rest[j - 1];
            } else {
              assert lines[i] == rest[i - 1] && lines[j] == rest[j - 1];
            }
          }
        } else {
          var i, j :| 0 <= i < j < |rest| && rest[i] == rest[j];
          assert lines[i + 1] == lines[j + 1];
        }
      }
    }
  }

  /** The deduplicated list is never longer than the file, and is exactly as
      long when the file had no repeated line. */
  lemma DedupCount(qs: seq<string>, lines: seq<string>)
    requires DedupOf(qs, lines)
    ensures |qs| <= |lines|
    ensures |qs| == |lines| <==> NoDuplicates(lines)
  {
    DistinctCount(qs);
    DistinctValues(lines);
    assert (set q | q in qs) == (set q | q in lines);
  }

  /** The order of `list(set(...))` is not fixed between runs, so a resumed
      run can order the same file differently and skip queries that never
      ran: here "b" is lost after a run that failed on its first query "a". */
  lemma ResumeCanSkipUnrunQueries()
    ensures DedupOf(["a", "b"], ["a", "b"]) && DedupOf(["b", "a"], ["a", "b"])
    ensures ResumeFrom(["b", "a"], Some("a")) == ["a"]
  {
    assert ["b", "a"][1] == "a";
  }

  // ---------------------------------------------------------------------
  // The query loop (main)
  // ---------------------------------------------------------------------

  /** How `main` ends: every query done and the session file removed, a
      query's exception (session saved, exit 1), no session file to remove
      (uncaught FileNotFoundError), or no session file to resume from. */
  datatype RunEnd =
    | Completed
    | QueryFailed(query: string, failure: Failure)
    | CleanFailed
    | SessionMissing

  function ExitCode(end: RunEnd): (code: int)
    ensures code == 0 <==> end == Completed
  {
    if end == Completed then 0 else 1
  }

  /** What `main` ends with: how it ended, the session file, the lines. */
  datatype RunOutcome = RunOutcome(end: RunEnd, stored: Option<Snapshot>, lines: seq<Line>)

  /** The query loop over `queries`, each from the same offset, with the
      session file `stored` as it is before the loop: save after each query,
      save and stop on the first exception, remove the file at the end. */
  function RunQueries(s: Setup, window: int, fileOrQuery: string, queries: seq<string>, offset: Option<int>, stored: Option<Snapshot>): (run: RunOutcome)
    requires ResultWindow(s.backend, window)
    ensures run.end != SessionMissing
    ensures run.end.QueryFailed? <==> run.stored.Some?
    ensures run.end.QueryFailed? ==> run.end.query in queries
    decreases |queries|
  {
    if queries == [] then
      RunOutcome(if stored.Some? then Completed else CleanFailed, None, [])
    else
      var r := Paginate(s, queries[0], StartOffset(offset), window);
      var saved := Some(Snapshot(fileOrQuery, s.options, Some(queries[0]), r.offset));
      if r.failure.Some? then RunOutcome(QueryFailed(queries[0], r.failure.value), saved, r.lines)
      else
        var rest := RunQueries(s, window, fileOrQuery, queries[1..], offset, saved);
        rest.(lines := r.lines + rest.lines)
  }

  /** One turn of the query loop: how the run over `queries` follows from
      the first query's page loop and the run over the rest. */
  lemma RunQueriesStep(s: Setup, window: int, fileOrQuery: string, queries: seq<string>, offset: Option<int>, stored: Option<Snapshot>)
    requires ResultWindow(s.backend, window)
    requires queries != []
    ensures var r := Paginate(s, queries[0], StartOffset(offset), window);
      var saved := Some(Snapshot(fileOrQuery, s.options, Some(queries[0]), r.offset));
      var run := RunQueries(s, window, fileOrQuery, queries, offset, stored);
      var rest := RunQueries(s, window, fileOrQuery, queries[1..], offset, saved);
      && (r.failure.Some? ==> run == RunOutcome(QueryFailed(queries[0], r.failure.value), saved, r.lines))
      && (r.failure.None? ==> run.end == rest.end && run.stored == rest.stored && run.lines == r.lines + rest.lines)
  {
  }

  /** A run that fails does so at the first query whose page loop failed;
      every query before it finished. The session then holds that query
      and the offset of the page that failed, so a resume retries it. */
  lemma {:induction false} RunFailure(s: Setup, window: int, fileOrQuery: string, queries: seq<string>, offset: Option<int>, stored: Option<Snapshot>) returns (i: nat)
    requires ResultWindow(s.backend, window)
    requires RunQueries(s, window, fileOrQuery, queries, offset, stored).end.QueryFailed?
    ensures i < |queries|
    ensures forall j :: 0 <= j < i ==> Paginate(s, queries[j], StartOffset(offset), window).failure.None?
    ensures var r := Paginate(s, queries[i], StartOffset(offset), window);
      var run := RunQueries(s, window, fileOrQuery, queries, offset, stored);
      && r.failure.Some?
      && run.end == QueryFailed(queries[i], r.failure.value)
      && run.stored == Some(Snapshot(fileOrQuery, s.options, Some(queries[i]), r.offset))
    decreases |queries|
  {
    var r := Paginate(s, queries[0], StartOffset(offset), window);
    if r.failure.Some? {
      i := 0;
    } else {
      var saved := Some(Snapshot(fileOrQuery, s.options, Some(queries[0]), r.offset));
      var k := RunFailure(s, window, fileOrQuery, queries[1..], offset, saved);
      i := k + 1;
      forall j | 0 <= j < i
        ensures Paginate(s, queries[j], StartOffset(offset), window).failure.None?
      {
        if j > 0 {
          assert queries[j] == queries[1..][j - 1];
        }
      }
    }
  }

  /** A run that does not fail removes the session file; it completes
      exactly when no query fails and a file was there to remove: either
      some query ran (and saved), or a file existed before the loop. */
  lemma {:induction false} RunCompletion(s: Setup, window: int, fileOrQuery: string, queries: seq<string>, offset: Option<int>, stored: Option<Snapshot>)
    requires ResultWindow(s.backend, window)
    ensures var run := RunQueries(s, window, fileOrQuery, queries, offset, stored);
      && (!run.end.QueryFailed? ==> run.stored == None)
      && (run.end == Completed <==>
            (forall j :: 0 <= j < |queries| ==> Paginate(s, queries[j], StartOffset(offset), window).failure.None?)
            && (queries != [] || stored.Some?))
      && run.end != SessionMissing
    decreases |queries|
  {
    if queries != [] {
      var r := Paginate(s, queries[0], StartOffset(offset), window);
      if r.failure.None? {
        var saved := Some(Snapshot(fileOrQuery, s.options, Some(queries[0]), r.offset));
        RunCompletion(s, window, fileOrQuery, queries[1..], offset, saved);
        var run := RunQueries(s, window, fileOrQuery, queries, offset, stored);
        if run.end == Completed {
          forall j | 0 <= j < |queries|
            ensures Paginate(s, queries[j], StartOffset(offset), window).failure.None?
          {
            if j > 0 {
              assert queries[j] == queries[1..][j - 1];
            }
          }
        }
        if forall j :: 0 <= j < |queries| ==> Paginate(s, queries[j], StartOffset(offset), window).failure.None? {
          forall j | 0 <= j < |queries| - 1
            ensures Paginate(s, queries[1..][j], StartOffset(offset), window).failure.None?
          {
            assert queries[1..][j] == queries[j + 1];
          }
        }
      }
    }
  }

  /** Where `main` starts: the source, the options, the offset and the
      query to resume at. */
  datatype Plan = Plan(fileOrQuery: string, options: Options, offset: Option<int>, currentQuery: Option<string>)

  /** A fresh run uses the arguments; a resumed run takes all four from the
      snapshot. */
  function PlanOf(resume: bool, stored: Option<Snapshot>, fileOrQuery: string, options: Options): (p: Plan)
    requires resume ==> stored.Some?
    ensures resume ==> p == Plan(stored.value.fileOrQuery, stored.value.options, Some(stored.value.offset), stored.value.currentQuery)
    ensures !resume ==> p == Plan(fileOrQuery, options, None, None)
  {
    if resume then Plan(stored.value.fileOrQuery, stored.value.options, Some(stored.value.offset), stored.value.currentQuery)
    else Plan(fileOrQuery, options, None, None)
  }

  /** `main`, with `loaded` the list `load_queries` returned. The flag test
      after each query can never succeed: only the client's flag is ever
      set. */
  method Run(client: SearchClient, fetch: Fetch, files: map<string, seq<string>>, fileOrQuery: string,
             resume: bool, session: Session, options: Options, ghost window: int)
    returns (end: RunEnd, lines: seq<Line>, loaded: seq<string>)
    requires ResultWindow(client.backend, window)
    modifies session, client
    ensures resume && old(session.stored).None? ==> end == SessionMissing && session.stored == None
    ensures !(resume && old(session.stored).None?) ==>
      var p := PlanOf(resume, old(session.stored), fileOrQuery, options);
      && (p.fileOrQuery in files ==> DedupOf(loaded, files[p.fileOrQuery]))
      && (p.fileOrQuery !in files ==> loaded == [p.fileOrQuery])
      && RunOutcome(end, session.stored, lines)
         == RunQueries(Setup(client.engine, client.backend, p.options, fetch), window, p.fileOrQuery,
                       ResumeFrom(loaded, p.currentQuery), p.offset, old(session.stored))
  {
    if resume && session.stored.None? {
      return SessionMissing, [], [];
    }
    var source, opts, offset, current := fileOrQuery, options, None, None;
    if resume {
      var data := session.stored.value;
      source, opts, offset, current := data.fileOrQuery, data.options, Some(data.offset), data.currentQuery;
    }
    var dorker := new Dorker(opts, fetch, client);
    loaded := LoadQueries(files, source);
    var queries := loaded;
    if current.Some? && current.value != "" {
      var index := IndexOf(queries, current.value);
      queries := queries[index..];
    }
    end, lines := RunLoop(dorker, session, source, queries, offset, window);
  }

  /** The query loop of `main`: each query from the same offset, the session
      saved after each one, the loop left on the first exception, and the
      session file removed at the end. */
  method RunLoop(dorker: Dorker, session: Session, source: string, queries: seq<string>, offset: Option<int>, ghost window: int)
    returns (end: RunEnd, lines: seq<Line>)
    requires ResultWindow(dorker.client.backend, window)
    requires !dorker.isLimitReached
    modifies session, dorker, dorker.client
    ensures RunOutcome(end, session.stored, lines)
      == RunQueries(dorker.Env(), window, source, queries, offset, old(session.stored))
  {
    ghost var s := dorker.Env();
    ghost var stored0 := session.stored;
    lines := [];
    var i := 0;
    while i < |queries|
      invariant 0 <= i <= |queries|
      invariant !dorker.isLimitReached
      invariant var whole := RunQueries(s, window, source, queries, offset, stored0);
        var rest := RunQueries(s, window, source, queries[i..], offset, session.stored);
        whole.end == rest.end && whole.stored == rest.stored && whole.lines == lines + rest.lines
    {
      assert queries[i..][1..] == queries[i + 1..];
      RunQueriesStep(s, window, source, queries[i..], offset, session.stored);
      var printed, failure := dorker.QueryResults(queries[i], offset, window);
      session.Save(source, dorker.options, dorker);
      AppendAssoc(lines, printed, RunQueries(s, window, source, queries[i + 1..], offset, session.stored).lines);
      lines := lines + printed;
      if failure.Some? {
        return QueryFailed(queries[i], failure.value), lines;
      }
      if dorker.isLimitReached {
        assert false;
      }
      i := i + 1;
    }
    var removed := session.Clean();
    end := if removed then Completed else CleanFailed;
  }
}

/** Worked runs of the current package. */
module GdorkerRuns {
  import opened Common
  import opened Format
  import opened Gdorker

  const TitleOnly: Options := Options(true, false, false, None, false, Google)

  /** With URL and title only, a hit prints as its link and title. */
  lemma TitleOnlyLine(fetch: Fetch, item: Item)
    ensures TaggedLine(UrlTag, TitleOnly, PiecesFor(item, IsExtended(TitleOnly), fetch))
      == Ok(Line(UrlTag, [UrlPiece(item.link), TitlePiece(item.title)]))
  {
    assert [UrlPiece(item.link)] + [TitlePiece(item.title)] == [UrlPiece(item.link), TitlePiece(item.title)];
  }

  /** One literal dork, two hits on the first page, nothing after: both
      hits are printed as URL and title, the session saved after the query
      is removed again, and the exit code is 0. */
  lemma TwoHitsThenEmpty(backend: Backend, fetch: Fetch, a: Item, b: Item)
    requires forall q, start :: backend(q, start) == if start == 0 then Response(Some([a, b])) else Response(None)
    ensures ResultWindow(backend, PerPage)
    ensures var run := RunQueries(Setup(Google, backend, TitleOnly, fetch), PerPage, "site:example.com", ["site:example.com"], None, None);
      && run.end == Completed && ExitCode(run.end) == 0 && run.stored == None
      && run.lines == [Line(UrlTag, [UrlPiece(a.link), TitlePiece(a.title)]), Line(UrlTag, [UrlPiece(b.link), TitlePiece(b.title)])]
  {
    var s := Setup(Google, backend, TitleOnly, fetch);
    var q := "site:example.com";
    var la := Line(UrlTag, [UrlPiece(a.link), TitlePiece(a.title)]);
    var lb := Line(UrlTag, [UrlPiece(b.link), TitlePiece(b.title)]);
    assert PrintPage(TitleOnly, fetch, [a, b]) == Printed([la, lb], None) by {
      TitleOnlyLine(fetch, a);
      TitleOnlyLine(fetch, b);
      PrintPageStep(TitleOnly, fetch, [a, b]);
      assert [a, b][1..] == [b];
      PrintPageStep(TitleOnly, fetch, [b]);
    }
    assert ResultWindow(backend, PerPage);
    var r := Paginate(s, q, 0, PerPage);
    assert r.offset == PerPage && r.failure == None && r.lines == [la, lb] by {
      PaginateStep(s, q, 0, PerPage);
      PaginateStep(s, q, PerPage, PerPage);
    }
    RunQueriesStep(s, PerPage, q, [q], None, None);
    assert [q][1..] == [];
  }

  /** Quota exhausted on the third page: the two pages before it are
      printed, the session records the query with offset 20 (the page that
      failed), the client's flag is set, and the exit code is 1. */
  lemma QuotaOnThirdPage(backend: Backend, fetch: Fetch, a: Item, b: Item, e: ProviderError)
    requires e.content == Status(ResourceExhausted)
    requires forall q, start ::
      backend(q, start) == (if start == 0 then Response(Some([a])) else if start == 10 then Response(Some([b])) else Raised(e))
    ensures ResultWindow(backend, 2 * PerPage)
    ensures var run := RunQueries(Setup(Google, backend, TitleOnly, fetch), 2 * PerPage, "site:example.com", ["site:example.com"], None, None);
      && run.end == QueryFailed("site:example.com", Reraised(e)) && ExitCode(run.end) == 1
      && run.stored == Some(Snapshot("site:example.com", TitleOnly, Some("site:example.com"), 20))
      && |run.lines| == 2
      && Marks(Google, backend("site:example.com", 20))
  {
    var s := Setup(Google, backend, TitleOnly, fetch);
    var q := "site:example.com";
    assert |PrintPage(TitleOnly, fetch, [a]).lines| == 1 && |PrintPage(TitleOnly, fetch, [b]).lines| == 1 by {
      TitleOnlyLine(fetch, a);
      TitleOnlyLine(fetch, b);
      PrintPageStep(TitleOnly, fetch, [a]);
      PrintPageStep(TitleOnly, fetch, [b]);
    }
    assert ResultWindow(backend, 2 * PerPage);
    var r2 := Paginate(s, q, 2 * PerPage, 2 * PerPage);
    assert r2.offset == 20 && r2.failure == Some(Reraised(e)) && r2.lines == [] by {
      PaginateStep(s, q, 2 * PerPage, 2 * PerPage);
    }
    var r1 := Paginate(s, q, PerPage, 2 * PerPage);
    assert r1.offset == 20 && r1.failure == Some(Reraised(e)) && |r1.lines| == 1 by {
      PaginateStep(s, q, PerPage, 2 * PerPage);
    }
    var r := Paginate(s, q, 0, 2 * PerPage);
    assert r.offset == 20 && r.failure == Some(Reraised(e)) && |r.lines| == 2 by {
      PaginateStep(s, q, 0, 2 * PerPage);
    }
    RunQueriesStep(s, 2 * PerPage, q, [q], None, None);
  }
}
