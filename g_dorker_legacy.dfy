/** The oldest single-file script (g-dorker.py): a `GoogleSearch` that counts
    its start index from 1, resets it for every query, keeps its own limit
    flag, logs each hit as an "[INFO] " line, and has no session to resume. */
module GDorkerLegacy {
  import opened Common
  import opened Format
  import opened Queries
  import opened ScriptPaging

  class GoogleSearch {
    const options: Options
    const fetch: Fetch
    /** The provider, called with the key and engine id given to the search. */
    const backend: Backend
    var offset: int
    var isLimitReached: bool

    constructor(options: Options, fetch: Fetch, backend: Backend)
      ensures this.options == options && this.fetch == fetch && this.backend == backend
      ensures offset == 1 && !isLimitReached
    {
      this.options := options;
      this.fetch := fetch;
      this.backend := backend;
      offset := 1;
      isLimitReached := false;
    }

    /** `_page`: the page the offset falls in, counting from 1. */
    function CurrentPage(): (p: int)
      reads this
      ensures (p - 1) * PerPage <= offset < p * PerPage
    {
      Page(offset)
    }

    /** How `log_url` writes hits: "[INFO] " lines with the logger's options. */
    function Out(): Printer {
      Printer(InfoTag, options, fetch)
    }

    /** `_google_search`: the response's items; for an exception with a
        readable status, no items, and the flag raised on RESOURCE_EXHAUSTED;
        an exception without one escapes. */
    method Search(query: string, start: int) returns (items: seq<Item>, crash: Option<ProviderError>)
      modifies this`isLimitReached
      ensures var s := InlineSearch(backend(query, start));
        && (s.Crashed? ==> crash == Some(s.cause) && isLimitReached == old(isLimitReached))
        && (s.Found? ==> crash == None && items == s.items && isLimitReached == (old(isLimitReached) || s.limitReached))
    {
      var o := backend(query, start);
      items, crash := [], None;
      match o {
        case Response(_) =>
          items := ItemsOf(o);
        case Raised(e) =>
          match e.content {
            case Status(status) =>
              if status == ResourceExhausted {
                isLimitReached := true;
              }
            case NotJson =>
            case NoStatus =>
              crash := Some(e);
          }
      }
    }

    /** `_print_results`: one `log_url` line per hit, in order. */
    method PrintResults(results: seq<Item>) returns (lines: seq<Line>)
      ensures lines == HitLines(Out(), results)
    {
      lines := [];
      var i := 0;
      while i < |results|
        invariant 0 <= i <= |results|
        invariant lines == HitLines(Out(), results[..i])
      {
        var line := FormatLine(InfoTag, options, PiecesFor(results[i], IsExtended(options), fetch));
        HitLineFormats(Out(), results[i]);
        HitLinesAppend(Out(), results[..i], [results[i]]);
        assert results[..i + 1] == results[..i] + [results[i]];
        lines := lines + [line.value];
        i := i + 1;
      }
      assert results[..i] == results;
    }

    /** `whole` is what the loop computes when `written` is already logged
        and the loop carries on from `at`. */
    ghost predicate Continues(query: string, at: int, window: int, whole: ScriptRun, written: seq<Line>)
      requires ResultWindow(backend, window)
    {
      var rest := Paginate(backend, Out(), query, at, window);
      && whole.offset == rest.offset && whole.lines == written + rest.lines
      && whole.limitReached == rest.limitReached && whole.crash == rest.crash
    }

    /** One turn of the `query_results` loop at `start`: search, print
        after the lines `written` so far, and tell whether the loop goes on
        to the next page. */
    method NextPage(query: string, start: int, ghost window: int, written: seq<Line>, ghost whole: ScriptRun)
      returns (lines: seq<Line>, crash: Option<ProviderError>, more: bool)
      requires ResultWindow(backend, window)
      requires !isLimitReached && Continues(query, start, window, whole, written)
      modifies this`isLimitReached
      ensures !more ==> whole.lines == lines && whole.offset == start && whole.crash == crash && whole.limitReached == isLimitReached
      ensures more ==>
        && crash == None && !isLimitReached && start < window
        && Continues(query, start + PerPage, window, whole, lines)
    {
      PaginateStep(backend, Out(), query, start, window);
      var results;
      results, crash := Search(query, start);
      if crash.Some? {
        assert written + [] == written;
        return written, crash, false;
      }
      var page := PrintResults(results);
      lines := written + page;
      more := results != [];
      if more {
        AppendAssoc(written, page, Paginate(backend, Out(), query, start + PerPage, window).lines);
      } else {
        assert written + [] == written;
      }
    }

    /** `query_results`: reset the offset to 1 and step it together with the
        local start while the flag is clear. Once the flag is set, the loop
        is not entered again. */
    method QueryResults(query: string, ghost window: int) returns (lines: seq<Line>, crash: Option<ProviderError>)
      requires ResultWindow(backend, window)
      modifies this
      ensures old(isLimitReached) ==> offset == 1 && lines == [] && crash == None && isLimitReached
      ensures !old(isLimitReached) ==>
        var r := Paginate(backend, Out(), query, 1, window);
        && offset == r.offset && crash == r.crash && isLimitReached == r.limitReached && lines == r.lines
    {
      this.offset := 1;
      var start := this.offset;
      lines := [];
      crash := None;
      if isLimitReached {
        return;
      }
      ghost var whole := Paginate(backend, Out(), query, 1, window);
      assert Continues(query, start, window, whole, lines);
      while !isLimitReached
        invariant this.offset == start
        invariant !isLimitReached && crash == None
        invariant Continues(query, start, window, whole, lines)
        decreases if start <= window then window - start else 0
      {
        var failed, more;
        lines, failed, more := NextPage(query, start, window, lines, whole);
        if failed.Some? {
          crash := failed;
          return;
        }
        if !more {
          break;
        }
        this.offset := start + PerPage;
        start := start + PerPage;
      }
    }
  }

  /** After a query's loop the offset and the local start both equal
      1 + 10·N for N non-empty pages, and the page shown last is page N + 1. */
  lemma LoopOffsets(backend: Backend, out: Printer, query: string, window: int)
    requires ResultWindow(backend, window)
    ensures var r := Paginate(backend, out, query, 1, window);
      r.offset == 1 + PerPage * r.advanced && Page(r.offset) == r.advanced + 1
  {
    PaginateOffset(backend, out, query, 1, window);
    PageOfOneBased(Paginate(backend, out, query, 1, window).advanced);
  }

  /** How `main` ends: every query done; stopped after the query whose page
      at `offset` was RESOURCE_EXHAUSTED (the loop breaks, the process still
      ends normally); or an exception escaping `_google_search`. */
  datatype LegacyEnd = Finished | StoppedAtLimit(query: string, offset: int) | Aborted(error: ProviderError)

  function ExitCode(end: LegacyEnd): (code: int)
    ensures code == 1 <==> end.Aborted?
    ensures code == 0 <==> !end.Aborted?
  {
    if end.Aborted? then 1 else 0
  }

  datatype LegacyRun = LegacyRun(end: LegacyEnd, lines: seq<Line>)

  /** The query loop of `main`: each query from start 1, stopping after the
      first query that raised the flag. */
  function RunQueries(backend: Backend, out: Printer, window: int, queries: seq<string>): (run: LegacyRun)
    requires ResultWindow(backend, window)
    ensures run.end.StoppedAtLimit? ==> run.end.query in queries
    decreases |queries|
  {
    if queries == [] then LegacyRun(Finished, [])
    else
      var r := Paginate(backend, out, queries[0], 1, window);
      if r.crash.Some? then LegacyRun(Aborted(r.crash.value), r.lines)
      else if r.limitReached then LegacyRun(StoppedAtLimit(queries[0], r.offset), r.lines)
      else
        var rest := RunQueries(backend, out, window, queries[1..]);
        rest.(lines := r.lines + rest.lines)
  }

  lemma RunQueriesStep(backend: Backend, out: Printer, window: int, queries: seq<string>)
    requires ResultWindow(backend, window)
    requires queries != []
    ensures var r := Paginate(backend, out, queries[0], 1, window);
      var run := RunQueries(backend, out, window, queries);
      var rest := RunQueries(backend, out, window, queries[1..]);
      && (r.crash.Some? ==> run == LegacyRun(Aborted(r.crash.value), r.lines))
      && (r.crash.None? && r.limitReached ==> run == LegacyRun(StoppedAtLimit(queries[0], r.offset), r.lines))
      && (r.crash.None? && !r.limitReached ==> run.end == rest.end && run.lines == r.lines + rest.lines)
  {
  }

  /** A run stopped by the limit ran the queries up to the one that raised
      the flag and no further: the earlier queries finished, the last one's
      page at the recorded offset was RESOURCE_EXHAUSTED, and the lines are
      those of that prefix of the list. */
  lemma {:induction false} StopAtLimit(backend: Backend, out: Printer, window: int, queries: seq<string>) returns (i: nat)
    requires ResultWindow(backend, window)
    requires RunQueries(backend, out, window, queries).end.StoppedAtLimit?
    ensures i < |queries|
    ensures var run := RunQueries(backend, out, window, queries);
      var r := Paginate(backend, out, queries[i], 1, window);
      var before := RunQueries(backend, out, window, queries[..i]);
      && run.end == StoppedAtLimit(queries[i], r.offset)
      && RaisedWith(backend(queries[i], r.offset), Status(ResourceExhausted))
      && before.end == Finished
      && run.lines == before.lines + r.lines
    decreases |queries|
  {
    var r := Paginate(backend, out, queries[0], 1, window);
    RunQueriesStep(backend, out, window, queries);
    if r.crash.None? && r.limitReached {
      i := 0;
      PaginateStops(backend, out, queries[0], 1, window);
      assert queries[..0] == [];
    } else {
      var k := StopAtLimit(backend, out, window, queries[1..]);
      i := k + 1;
      assert queries[1..][k] == queries[i];
      assert queries[..i][1..] == queries[1..][..k];
      RunQueriesStep(backend, out, window, queries[..i]);
      var rk := Paginate(backend, out, queries[i], 1, window);
      var prev := RunQueries(backend, out, window, queries[1..][..k]);
      AppendAssoc(r.lines, prev.lines, rk.lines);
    }
  }

  /** `main`: run every query in turn and leave the loop once the flag is
      set. */
  method Run(backend: Backend, fetch: Fetch, files: map<string, seq<string>>, fileOrQuery: string, options: Options, ghost window: int)
    returns (end: LegacyEnd, lines: seq<Line>)
    requires ResultWindow(backend, window)
    ensures var run := RunQueries(backend, Printer(InfoTag, options, fetch), window, FileLinesOrLiteral(files, fileOrQuery));
      end == run.end && lines == run.lines
  {
    var google := new GoogleSearch(options, fetch, backend);
    ghost var out := google.Out();
    var queries := FileLinesOrLiteral(files, fileOrQuery);
    lines := [];
    var i := 0;
    while i < |queries|
      invariant 0 <= i <= |queries|
      invariant !google.isLimitReached
      invariant google.Out() == out && google.backend == backend
      invariant var whole := RunQueries(backend, out, window, queries);
        var rest := RunQueries(backend, out, window, queries[i..]);
        whole.end == rest.end && whole.lines == lines + rest.lines
    {
      assert queries[i..][1..] == queries[i + 1..];
      RunQueriesStep(backend, out, window, queries[i..]);
      var page, crash := google.QueryResults(queries[i], window);
      AppendAssoc(lines, page, RunQueries(backend, out, window, queries[i + 1..]).lines);
      lines := lines + page;
      if crash.Some? {
        return Aborted(crash.value), lines;
      }
      if google.isLimitReached {
        return StoppedAtLimit(queries[i], google.offset), lines;
      }
      i := i + 1;
    }
    assert queries[i..] == [] && lines + [] == lines;
    end := Finished;
  }
}
