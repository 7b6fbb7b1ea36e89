/** Worked runs of the two single-file scripts. */
module ScriptRuns {
  import opened Common
  import opened Format
  import opened ScriptPaging
  import GdorkerScript
  import GDorkerLegacy

  const TitleOnly: Options := Options(true, false, false, None, false, Google)

  /** gdorker.py, fresh run of one dork: one hit on the first page, then
      RESOURCE_EXHAUSTED. The hit is printed, the session records the query
      and offset 10 (the page that failed) with the credentials, and the
      exit code is 1. */
  lemma ScriptQuotaOnSecondPage(backend: Backend, fetch: Fetch, a: Item, e: ProviderError, key: string, cse: string)
    requires e.content == Status(ResourceExhausted)
    requires forall q, start :: backend(q, start) == if start == 0 then Response(Some([a])) else Raised(e)
    ensures ResultWindow(backend, PerPage)
    ensures var h := GdorkerScript.Header(Some(key), Some(cse), "inurl:admin", TitleOnly);
      var run := GdorkerScript.RunQueries(backend, fetch, PerPage, h, ["inurl:admin"], None, None);
      && run.end == GdorkerScript.LimitReached && GdorkerScript.ExitCode(run.end) == 1
      && run.stored == Some(GdorkerScript.Snapshot(Some(key), Some(cse), "inurl:admin", TitleOnly, Some("inurl:admin"), 10))
      && run.lines == [Line(UrlTag, [UrlPiece(a.link), TitlePiece(a.title)])]
  {
    var out := Printer(UrlTag, TitleOnly, fetch);
    PaginateStep(backend, out, "inurl:admin", 0, PerPage);
    PaginateStep(backend, out, "inurl:admin", PerPage, PerPage);
    assert [UrlPiece(a.link)] + [TitlePiece(a.title)] == [UrlPiece(a.link), TitlePiece(a.title)];
    assert HitLines(out, [a]) == [HitLine(out, a)] + HitLines(out, []);
  }

  /** g-dorker.py with two dorks: the first one's second page (start 11) is
      RESOURCE_EXHAUSTED. The loop stops there, the second dork is never
      searched, and the process still exits with 0. */
  lemma LegacyQuotaStopsRun(backend: Backend, fetch: Fetch, a: Item, e: ProviderError)
    requires e.content == Status(ResourceExhausted)
    requires forall q, start :: backend(q, start) == if start == 1 then Response(Some([a])) else Raised(e)
    ensures ResultWindow(backend, 1 + PerPage)
    ensures var run := GDorkerLegacy.RunQueries(backend, Printer(InfoTag, TitleOnly, fetch), 1 + PerPage, ["inurl:admin", "intitle:index"]);
      && run.end == GDorkerLegacy.StoppedAtLimit("inurl:admin", 11) && GDorkerLegacy.ExitCode(run.end) == 0
      && run.lines == [Line(InfoTag, [UrlPiece(a.link), TitlePiece(a.title)])]
  {
    var out := Printer(InfoTag, TitleOnly, fetch);
    PaginateStep(backend, out, "inurl:admin", 1, 1 + PerPage);
    PaginateStep(backend, out, "inurl:admin", 1 + PerPage, 1 + PerPage);
    assert [UrlPiece(a.link)] + [TitlePiece(a.title)] == [UrlPiece(a.link), TitlePiece(a.title)];
    assert HitLines(out, [a]) == [HitLine(out, a)] + HitLines(out, []);
  }
}
