/** The previous single-file script (gdorker.py): the `Dorker` classifies
    provider errors itself and raises its own limit flag, `load_queries`
    keeps the file's lines as they are, and `main` saves a session only when
    the limit is reached. */
module GdorkerScript {
  import opened Common
  import opened Format
  import opened Queries
  import opened ScriptPaging

  class Dorker {
    const options: Options
    const fetch: Fetch
    /** The provider, called with the key and engine id this Dorker holds. */
    const backend: Backend
    const apiKey: Option<string>
    const cseId: Option<string>
    var offset: int
    var isLimitReached: bool
    var query: Option<string>

    constructor(options: Options, fetch: Fetch, apiKey: Option<string>, cseId: Option<string>, backend: Backend)
      ensures this.options == options && this.fetch == fetch && this.backend == backend
      ensures this.apiKey == apiKey && this.cseId == cseId
      ensures offset == 0 && !isLimitReached && query == None
    {
      this.options := options;
      this.fetch := fetch;
      this.backend := backend;
      this.apiKey := apiKey;
      this.cseId := cseId;
      offset := 0;
      isLimitReached := false;
      query := None;
    }

    /** `_page`: the page the offset falls in, counting from 1. */
    function CurrentPage(): (p: int)
      reads this
      ensures (p - 1) * PerPage <= offset < p * PerPage
    {
      Page(offset)
    }

    /** `_search`: the response's items; for an exception with a readable
        status, no items, and the flag raised on RESOURCE_EXHAUSTED; an
        exception without one escapes. */
    method Search(query: string, start: int) returns (items: seq<Item>, crash: Option<ProviderError>)
      modifies this`isLimitReached
      ensures var s := InlineSearch(backend(query, start));
        && (s.Crashed? ==> crash == Some(s.cause) && isLimitReached == old(isLimitReached))
        && (s.Found? ==> crash == None && items == s.items && isLimitReached == (old(isLimitReached) || s.limitReached))
    {
      var o := backend(query, start);
      items, crash := [], None;
      match o {
        case Response(_) =>
          items := ItemsOf(o);
        case Raised(e) =>
          match e.content {
            case Status(status) =>
              if status == ResourceExhausted {
                isLimitReached := true;
              }
            case NotJson =>
            case NoStatus =>
              crash := Some(e);
          }
      }
    }

    /** How this Dorker writes hits: "[URL] " lines with its options. */
    function Out(): Printer {
      Printer(UrlTag, options, fetch)
    }

    /** `_print_results`: one "[URL] " line per hit, in order. */
    method PrintResults(results: seq<Item>) returns (lines: seq<Line>)
      ensures lines == HitLines(Out(), results)
    {
      lines := [];
      var i := 0;
      while i < |results|
        invariant 0 <= i <= |results|
        invariant lines == HitLines(Out(), results[..i])
      {
        var line := FormatLine(UrlTag, options, PiecesFor(results[i], IsExtended(options), fetch));
        HitLineFormats(Out(), results[i]);
        HitLinesAppend(Out(), results[..i], [results[i]]);
        assert results[..i + 1] == results[..i] + [results[i]];
        lines := lines + [line.value];
        i := i + 1;
      }
      assert results[..i] == results;
    }

    /** `whole` is what the loop computes when `written` is already printed
        and the loop carries on from `at`. */
    ghost predicate Continues(query: string, at: int, window: int, whole: ScriptRun, written: seq<Line>)
      requires ResultWindow(backend, window)
    {
      var rest := Paginate(backend, Out(), query, at, window);
      && whole.offset == rest.offset && whole.lines == written + rest.lines
      && whole.limitReached == rest.limitReached && whole.crash == rest.crash
    }

    /** One turn of the `query_results` loop at `start`: search, print
        after the lines `written` so far, and tell whether the loop goes on
        to the next page. */
    method NextPage(query: string, start: int, ghost window: int, written: seq<Line>, ghost whole: ScriptRun)
      returns (lines: seq<Line>, crash: Option<ProviderError>, more: bool)
      requires ResultWindow(backend, window)
      requires !isLimitReached && Continues(query, start, window, whole, written)
      modifies this`isLimitReached
      ensures !more ==> whole.lines == lines && whole.offset == start && whole.crash == crash && whole.limitReached == isLimitReached
      ensures more ==>
        && crash == None && !isLimitReached && start < window
        && Continues(query, start + PerPage, window, whole, lines)
    {
      PaginateStep(backend, Out(), query, start, window);
      var results;
      results, crash := Search(query, start);
      if crash.Some? {
        assert written + [] == written;
        return written, crash, false;
      }
      var page := PrintResults(results);
      lines := written + page;
      more := results != [];
      if more {
        AppendAssoc(written, page, Paginate(backend, Out(), query, start + PerPage, window).lines);
      } else {
        assert written + [] == written;
      }
    }

    /** `query_results`: restart at the given offset (0 when none) and run
        the page loop while the flag is clear. */
    method QueryResults(query: string, offset: Option<int>, ghost window: int) returns (lines: seq<Line>, crash: Option<ProviderError>)
      requires ResultWindow(backend, window)
      modifies this
      ensures this.query == Some(query)
      ensures old(isLimitReached) ==>
        this.offset == StartOffset(offset) && lines == [] && crash == None && isLimitReached
      ensures !old(isLimitReached) ==>
        var r := Paginate(backend, Out(), query, StartOffset(offset), window);
        && this.offset == r.offset && crash == r.crash && isLimitReached == r.limitReached
        && lines == r.lines
    {
      var start := if offset.None? then 0 else offset.value;
      this.offset := start;
      this.query := Some(query);
      lines := [];
      crash := None;
      if isLimitReached {
        return;
      }
      lines, crash := PageLoop(query, start, window);
    }

    /** The `while` loop of `query_results` from `start`, entered with the
        flag clear. */
    method PageLoop(query: string, start: int, ghost window: int) returns (lines: seq<Line>, crash: Option<ProviderError>)
      requires ResultWindow(backend, window)
      requires !isLimitReached && offset == start
      modifies this`offset, this`isLimitReached
      ensures var r := Paginate(backend, Out(), query, start, window);
        && offset == r.offset && crash == r.crash && isLimitReached == r.limitReached && lines == r.lines
    {
      lines := [];
      crash := None;
      var at := start;
      ghost var whole := Paginate(backend, Out(), query, start, window);
      assert Continues(query, at, window, whole, lines);
      while !isLimitReached
        invariant offset == at
        invariant !isLimitReached && crash == None
        invariant Continues(query, at, window, whole, lines)
        decreases if at <= window then window - at else 0
      {
        var failed, more;
        lines, failed, more := NextPage(query, at, window, lines, whole);
        if failed.Some? {
          crash := failed;
          return;
        }
        if !more {
          break;
        }
        offset := at + PerPage;
        at := at + PerPage;
      }
    }
  }

  /** What `Session.save` writes: the credentials as well. */
  datatype Snapshot = Snapshot(
    apiKey: Option<string>,
    cseId: Option<string>,
    fileOrQuery: string,
    options: Options,
    currentQuery: Option<string>,
    offset: int)

  class Session {
    var stored: Option<Snapshot>

    constructor(stored: Option<Snapshot>)
      ensures this.stored == stored
    {
      this.stored := stored;
    }

    method Save(apiKey: Option<string>, cseId: Option<string>, fileOrQuery: string, options: Options, gs: Dorker)
      modifies this
      ensures stored == Some(Snapshot(apiKey, cseId, fileOrQuery, options, gs.query, gs.offset))
    {
      stored := Some(Snapshot(apiKey, cseId, fileOrQuery, options, gs.query, gs.offset));
    }

    /** `clean`: remove the file; `removed` is false when there was none. */
    method Clean() returns (removed: bool)
      modifies this
      ensures removed == old(stored).Some? && stored == None
    {
      removed := stored.Some?;
      stored := None;
    }
  }

  /** How `main` ends: all queries done and the session removed; the limit
      reached (session saved, exit 1); an exception escaping `_search` (no
      save); no session file to remove, or none to resume from. */
  datatype RunEnd = Completed | LimitReached | SearchCrashed(error: ProviderError) | CleanFailed | SessionMissing

  function ExitCode(end: RunEnd): (code: int)
    ensures code == 0 <==> end == Completed
  {
    if end == Completed then 0 else 1
  }

  /** What `main` ends with: how it ended, the session file, the hits handed
      to printing and the lines written for them. */
  datatype RunOutcome = RunOutcome(end: RunEnd, stored: Option<Snapshot>, printed: seq<Item>, lines: seq<Line>)

  /** The credentials and the source a snapshot records besides its query
      and offset. */
  datatype Header = Header(apiKey: Option<string>, cseId: Option<string>, fileOrQuery: string, options: Options)

  function SnapshotAt(h: Header, query: string, offset: int): Snapshot {
    Snapshot(h.apiKey, h.cseId, h.fileOrQuery, h.options, Some(query), offset)
  }

  /** The query loop, each query from the same offset, with the session file
      `stored` as it was before the loop. */
  function RunQueries(backend: Backend, fetch: Fetch, window: int, h: Header, queries: seq<string>, offset: Option<int>, stored: Option<Snapshot>): (run: RunOutcome)
    requires ResultWindow(backend, window)
    ensures run.end != SessionMissing
    ensures run.end == LimitReached ==> run.stored.Some? && run.stored.value.currentQuery.Some?
    ensures run.end.SearchCrashed? ==> run.stored == stored
    ensures run.end == Completed ==> stored.Some? && run.stored == None
    ensures run.end == CleanFailed ==> stored.None? && run.stored == None
    decreases |queries|
  {
    if queries == [] then
      RunOutcome(if stored.Some? then Completed else CleanFailed, None, [], [])
    else
      var r := Paginate(backend, Printer(UrlTag, h.options, fetch), queries[0], StartOffset(offset), window);
      if r.crash.Some? then RunOutcome(SearchCrashed(r.crash.value), stored, r.printed, r.lines)
      else if r.limitReached then RunOutcome(LimitReached, Some(SnapshotAt(h, queries[0], r.offset)), r.printed, r.lines)
      else
        var rest := RunQueries(backend, fetch, window, h, queries[1..], offset, stored);
        rest.(printed := r.printed + rest.printed, lines := r.lines + rest.lines)
  }

  /** Only the limit writes a session file, so a run that started without
      one can never remove it: a fresh run never ends with exit code 0. */
  lemma {:induction false} FreshRunNeverCompletes(backend: Backend, fetch: Fetch, window: int, h: Header, queries: seq<string>, offset: Option<int>)
    requires ResultWindow(backend, window)
    ensures var run := RunQueries(backend, fetch, window, h, queries, offset, None);
      && run.end != Completed && ExitCode(run.end) == 1
      && (run.stored.Some? <==> run.end == LimitReached)
    decreases |queries|
  {
    if queries != [] {
      FreshRunNeverCompletes(backend, fetch, window, h, queries[1..], offset);
    }
  }

  /** A run that hits the limit stops at the first query whose loop raised
      the flag; every query before it ended on an empty page. The session
      records that query and the offset of the page whose error was
      RESOURCE_EXHAUSTED. */
  lemma {:induction false} RunLimit(backend: Backend, fetch: Fetch, window: int, h: Header, queries: seq<string>, offset: Option<int>, stored: Option<Snapshot>) returns (i: nat)
    requires ResultWindow(backend, window)
    requires RunQueries(backend, fetch, window, h, queries, offset, stored).end == LimitReached
    ensures i < |queries|
    ensures forall j :: 0 <= j < i ==>
      var r := Paginate(backend, Printer(UrlTag, h.options, fetch), queries[j], StartOffset(offset), window);
      r.crash.None? && !r.limitReached
    ensures var r := Paginate(backend, Printer(UrlTag, h.options, fetch), queries[i], StartOffset(offset), window);
      && r.limitReached
      && RunQueries(backend, fetch, window, h, queries, offset, stored).stored == Some(SnapshotAt(h, queries[i], r.offset))
      && RaisedWith(backend(queries[i], r.offset), Status(ResourceExhausted))
    decreases |queries|
  {
    var r := Paginate(backend, Printer(UrlTag, h.options, fetch), queries[0], StartOffset(offset), window);
    if r.limitReached && r.crash.None? {
      i := 0;
      PaginateStops(backend, Printer(UrlTag, h.options, fetch), queries[0], StartOffset(offset), window);
    } else {
      var k := RunLimit(backend, fetch, window, h, queries[1..], offset, stored);
      i := k + 1;
      forall j | 0 <= j < i
        ensures var r := Paginate(backend, Printer(UrlTag, h.options, fetch), queries[j], StartOffset(offset), window);
          r.crash.None? && !r.limitReached
      {
        if j > 0 {
          assert queries[j] == queries[1..][j - 1];
        }
      }
    }
  }

  /** The run writes one line per printed hit, in order, whatever stops it. */
  lemma {:induction false} RunLines(backend: Backend, fetch: Fetch, window: int, h: Header, queries: seq<string>, offset: Option<int>, stored: Option<Snapshot>)
    requires ResultWindow(backend, window)
    ensures var run := RunQueries(backend, fetch, window, h, queries, offset, stored);
      run.lines == HitLines(Printer(UrlTag, h.options, fetch), run.printed)
    decreases |queries|
  {
    if queries != [] {
      var out := Printer(UrlTag, h.options, fetch);
      var r := Paginate(backend, out, queries[0], StartOffset(offset), window);
      PaginateLines(backend, out, queries[0], StartOffset(offset), window);
      if r.crash.None? && !r.limitReached {
        RunLines(backend, fetch, window, h, queries[1..], offset, stored);
        HitLinesAppend(out, r.printed, RunQueries(backend, fetch, window, h, queries[1..], offset, stored).printed);
      }
    }
  }

  /** One query of the loop: how the run over `queries` follows from the
      first query's page loop and the run over the rest. */
  lemma RunQueriesStep(backend: Backend, fetch: Fetch, window: int, h: Header, queries: seq<string>, offset: Option<int>, stored: Option<Snapshot>)
    requires ResultWindow(backend, window)
    requires queries != []
    ensures var r := Paginate(backend, Printer(UrlTag, h.options, fetch), queries[0], StartOffset(offset), window);
      var run := RunQueries(backend, fetch, window, h, queries, offset, stored);
      var rest := RunQueries(backend, fetch, window, h, queries[1..], offset, stored);
      && (r.crash.Some? ==> run == RunOutcome(SearchCrashed(r.crash.value), stored, r.printed, r.lines))
      && (r.crash.None? && r.limitReached ==> run == RunOutcome(LimitReached, Some(SnapshotAt(h, queries[0], r.offset)), r.printed, r.lines))
      && (r.crash.None? && !r.limitReached ==>
            run.end == rest.end && run.stored == rest.stored && run.lines == r.lines + rest.lines)
  {
  }

  /** Where `main` starts: what a snapshot records besides its query and
      offset, the offset, and the query to resume at. */
  datatype Plan = Plan(header: Header, offset: Option<int>, currentQuery: Option<string>)

  /** A fresh run uses the arguments; a resumed run takes everything from the
      snapshot. */
  function PlanOf(resume: bool, stored: Option<Snapshot>, h: Header): (p: Plan)
    requires resume ==> stored.Some?
    ensures !resume ==> p == Plan(h, None, None)
    ensures resume ==>
      && p.header == Header(stored.value.apiKey, stored.value.cseId, stored.value.fileOrQuery, stored.value.options)
      && p.offset == Some(stored.value.offset) && p.currentQuery == stored.value.currentQuery
  {
    if resume then
      var data := stored.value;
      Plan(Header(data.apiKey, data.cseId, data.fileOrQuery, data.options), Some(data.offset), data.currentQuery)
    else Plan(h, None, None)
  }

  /** `main`. The credentials, source, options, offset and query to resume
      at come from the snapshot when resuming. */
  method Run(backend: Backend, fetch: Fetch, files: map<string, seq<string>>, apiKey: Option<string>, cseId: Option<string>,
             fileOrQuery: string, resume: bool, session: Session, options: Options, ghost window: int)
    returns (end: RunEnd, lines: seq<Line>)
    requires ResultWindow(backend, window)
    modifies session
    ensures resume && old(session.stored).None? ==> end == SessionMissing && session.stored == None
    ensures !(resume && old(session.stored).None?) ==>
      var p := PlanOf(resume, old(session.stored), Header(apiKey, cseId, fileOrQuery, options));
      var run := RunQueries(backend, fetch, window, p.header, ResumeFrom(FileLinesOrLiteral(files, p.header.fileOrQuery), p.currentQuery), p.offset, old(session.stored));
      && end == run.end && session.stored == run.stored
      && lines == run.lines
  {
    if resume && session.stored.None? {
      return SessionMissing, [];
    }
    var key, cse, source, opts, offset, current := apiKey, cseId, fileOrQuery, options, None, None;
    if resume {
      var data := session.stored.value;
      key, cse, source, opts := data.apiKey, data.cseId, data.fileOrQuery, data.options;
      offset, current := Some(data.offset), data.currentQuery;
    }
    ghost var h := Header(key, cse, source, opts);
    var google := new Dorker(opts, fetch, key, cse, backend);
    var queries := FileLinesOrLiteral(files, source);
    if current.Some? && current.value != "" {
      var index := IndexOf(queries, current.value);
      queries := queries[index..];
    }
    end, lines := RunLoop(google, session, key, cse, source, queries, offset, window);
  }

  /** The query loop of `main`: each query from the same offset, the session
      saved only when the flag is raised, the loop left on an exception or
      the limit, and the session file removed after the last query. */
  method RunLoop(google: Dorker, session: Session, key: Option<string>, cse: Option<string>, source: string,
                 queries: seq<string>, offset: Option<int>, ghost window: int)
    returns (end: RunEnd, lines: seq<Line>)
    requires ResultWindow(google.backend, window)
    requires !google.isLimitReached
    modifies session, google
    ensures var run := RunQueries(google.backend, google.fetch, window, Header(key, cse, source, google.options), queries, offset, old(session.stored));
      end == run.end && session.stored == run.stored && lines == run.lines
  {
    ghost var h := Header(key, cse, source, google.options);
    ghost var stored0 := session.stored;
    lines := [];
    var i := 0;
    while i < |queries|
      invariant 0 <= i <= |queries|
      invariant !google.isLimitReached
      invariant session.stored == stored0
      invariant var whole := RunQueries(google.backend, google.fetch, window, h, queries, offset, stored0);
        var rest := RunQueries(google.backend, google.fetch, window, h, queries[i..], offset, stored0);
        whole.end == rest.end && whole.stored == rest.stored && whole.lines == lines + rest.lines
    {
      assert queries[i..][1..] == queries[i + 1..];
      RunQueriesStep(google.backend, google.fetch, window, h, queries[i..], offset, stored0);
      var page, crash := google.QueryResults(queries[i], offset, window);
      AppendAssoc(lines, page, RunQueries(google.backend, google.fetch, window, h, queries[i + 1..], offset, stored0).lines);
      lines := lines + page;
      if crash.Some? {
        return SearchCrashed(crash.value), lines;
      }
      if google.isLimitReached {
        session.Save(key, cse, source, google.options, google);
        return LimitReached, lines;
      }
      i := i + 1;
    }
    assert queries[i..] == [] && lines + [] == lines;
    var removed := session.Clean();
    end := if removed then Completed else CleanFailed;
  }
}
