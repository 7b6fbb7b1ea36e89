# gdorker: pagination and resume, modelled in Dafny

gdorker runs Google (or DuckDuckGo) "dork" queries and prints one line per
hit. The repository keeps three generations of the same loop. This project
models the pagination and resume state machine of each, plus the pure helpers
around it:

- `src/gdorker/__init__.py` (current) is modelled in module `Gdorker`
  (`gdorker.dfy`). A `Dorker` pages through one query, asking a pluggable
  `SearchClient` for pages of 10. The client's `error_handler` decides whether
  a provider exception ends the page quietly or escapes. `main` deduplicates
  the query list, cuts it at a saved query when resuming, and saves a session
  snapshot after every query. `ConfigManager.get_google_api_keys` chooses the
  credentials. Worked runs are in module `GdorkerRuns`.
- `gdorker.py` (previous) is modelled in module `GdorkerScript`
  (`gdorker_script.dfy`). Its `Dorker` classifies errors inline and raises its
  own limit flag. `load_queries` keeps the file's lines as they are, and `main`
  saves a session only when the limit is reached.
- `g-dorker.py` (oldest) is modelled in module `GDorkerLegacy`
  (`g_dorker_legacy.dfy`). Its `GoogleSearch` restarts every query at the
  1-based start index 1, keeping `offset` and the local `start` in lockstep.
  It logs hits as "[INFO] " lines and has no session.

Shared modules:
- `Common` (`common.dfy`): hits, provider outcomes, options, the page size 10
  and the displayed page number.
- `Format` (`format.dfy`): the result line, meaning field order, status-code
  colour bands and the 100-character body snippet.
- `Queries` (`queries.dfy`): reading the query list and cutting it at the
  saved query.
- `ScriptPaging` (`script_paging.dfy`): the search step and page loop that
  the two scripts share.
- `ScriptRuns` (`script_runs.dfy`): worked runs of the two scripts.

How the model stands for the outside world:
- **The search provider** is a total function from the query and start index
  to an outcome. The outcome is a response, with or without `items`, or an
  exception. An exception carries the decoded `error.status`, or says that its
  content is not JSON or has no status.
- **Termination.** Each loop is proved against a ghost result window: from
  some start index on, no request returns items. Google's custom search API
  has one.
- **Enrichment.** The per-link HTTP fetch (`requests.get`, or aiohttp in the
  current version) is an opaque function giving the status and the page text.
- **Sessions.** The session file is an in-memory `Option` of a snapshot. The
  configuration file is a map.
- **Output.** Printed output is the sequence of result lines. A line is a
  prefix tag and its pieces, with colours as an enumeration.
- **Exceptions** become values. An exception that escapes `main` is exit
  code 1.

Behaviours of the code that the proofs make explicit:
- **Credentials (current version).** A non-empty value in the configuration
  file wins over the one passed on the command line. The command-line value
  is used only when the file's value is empty
  (`Gdorker.ConfigManager.GetGoogleApiKeys`).
- **The current limit flag is dead.** The error handler sets
  `is_limit_reached` on the `SearchClient`, never on the `Dorker`. The test
  after each query in `main` can therefore never succeed; it is an
  `assert false` branch in `Gdorker.RunLoop`. Quota errors instead leave through
  the re-raised exception: the session is saved and the exit code is 1.
- **DuckDuckGo with `-b` and no `-c` fails in the current version.** The
  formatter is then not extended, so the pieces carry no body, and
  `Formatter.result` fails on its `body` key for the first hit of any
  non-empty page (`Gdorker.PrintPageMissing`).
- **A fresh `gdorker.py` run never exits with 0.** Only the limit writes a
  session file. A run that ends normally then tries to remove a file that
  does not exist (`GdorkerScript.FreshRunNeverCompletes`).
- **The resumed offset is reused.** Both resumable versions pass it to every
  remaining query, not only to the saved one.
- **The current version's `list(set(...))` has no fixed order**, so a resumed
  run can skip queries that never ran (`Gdorker.ResumeCanSkipUnrunQueries`).
- **`g-dorker.py` stops without error at the limit.** It breaks out of its
  query loop when the limit is reached, and the process still exits with 0.

## Model

| member | source | states |
|---|---|---|
| Common.Page | src/gdorker/__init__.py:132-134 | the displayed page `offset // 10 + 1` is the page whose ten indices contain the offset |
| Common.PageAfterPages | src/gdorker/__init__.py:132-134 | advancing the offset by n pages of 10 advances the displayed page by exactly n |
| Common.PageStep | src/gdorker/__init__.py:185 | one advance of 10 moves the displayed page on by one |
| Common.PageOfMultiple | src/gdorker/__init__.py:132-134 | offsets 0, 10, 20, ... display pages 1, 2, 3, ... |
| Common.PageOfOneBased | g-dorker.py:97-99 | the 1-based offsets 1, 11, 21, ... display pages 1, 2, 3, ... |
| Common.ItemsOf | src/gdorker/__init__.py:139-143 | a response's items are taken unchanged; a missing `items` entry gives none |
| Format.DropSpaces | src/gdorker/__init__.py:59 | drops exactly the leading whitespace: the result is a suffix that starts with a non-space |
| Format.Collapse | src/gdorker/__init__.py:59 | `re.sub(r'[\s]+', " ", ...)` leaves no whitespace character other than single spaces between non-spaces, keeps emptiness, whether the text starts with whitespace and whether it ends with whitespace, and never lengthens |
| Format.CollapseByCharacter | src/gdorker/__init__.py:59 | the substitution agrees with a character-by-character reading: the first whitespace character of each maximal run becomes one ' ', the rest of the run is dropped, and every other character is kept in order |
| Format.CollapseCharsSkipsRun | src/gdorker/__init__.py:59 | inside a whitespace run, the rest of the run writes nothing |
| Format.Strip | src/gdorker/__init__.py:59 | `strip()` never lengthens, leaves no whitespace at either end, and leaves text without whitespace unchanged |
| Format.Snippet | src/gdorker/__init__.py:59 | the snippet has at most 100 characters, is no longer than the text, and does not start with whitespace |
| Format.CollapseKeepsVisible | src/gdorker/__init__.py:59 | collapsing keeps the non-whitespace characters in order |
| Format.StripStart | src/gdorker/__init__.py:59 | `strip()`'s left end is the first non-space at or after the lower bound |
| Format.StripEnd | src/gdorker/__init__.py:59 | `strip()`'s right end is just after the last non-space below the upper bound |
| Format.StripSlice | src/gdorker/__init__.py:59 | the stripped text is the slice between the outermost non-spaces, and only whitespace is cut |
| Format.NormalisedSlice | src/gdorker/__init__.py:59 | any slice of collapsed text is still collapsed |
| Format.SnippetShape | src/gdorker/__init__.py:59 | the body snippet is the prefix of the collapsed, stripped text of length exactly min(100, its length), so all of it when that fits; it starts with no whitespace and has whitespace only as single spaces |
| Format.CodeColor | src/gdorker/__init__.py:46-54 | the code is white exactly outside 200-599, and red only inside 400-599 |
| Format.CodeColorByClass | src/gdorker/__init__.py:46-54 | the status code is green for 200-299, yellow for 300-399, red for 400-599 and white otherwise, each iff |
| Format.FormatPieces | src/gdorker/__init__.py:74-83 | a built line starts with the URL and has one more piece for each enabled option; a failure names the code or the body key |
| Format.BuildPieces | src/gdorker/__init__.py:74-83 | the appending builder gives the pieces list, or the first missing `code`/`body` key |
| Format.AssembleShape | src/gdorker/__init__.py:74-83 | URL first, then code, title and body, each present exactly when its flag is set |
| Format.AssembleOrder | src/gdorker/__init__.py:74-83 | the assembled line starts with the URL, keeps the order URL, code, title, body and carries the given pieces |
| Format.AssemblePresence | src/gdorker/__init__.py:74-83 | each optional piece is in the assembled line iff its flag is set |
| Format.FormatAssembles | src/gdorker/__init__.py:74-83 | a successful build is the assembly of the URL, the title and, where enabled, the code and body pieces |
| Format.FormatFailure | src/gdorker/__init__.py:74-83 | building fails exactly when an enabled code or body piece is missing, and names the first one in line order |
| Format.FormatShape | src/gdorker/__init__.py:74-83 | a built line starts with the URL and keeps the order URL, code, title, body; each optional piece appears iff its option is set and carries the input's value (code with its colour band, body as its snippet) |
| Format.PiecesFor | src/gdorker/__init__.py:155-161 | the pieces hold the hit's link and title, and exactly when the formatter is extended, the status code and page text fetched for that link |
| Format.TaggedLine | src/gdorker/__init__.py:74-83 | the line carries the given tag and starts with the URL; it fails exactly when an enabled code or body piece is missing |
| Format.FormatLine | src/gdorker/__init__.py:97-98 | `Logger.url` writes the formatter's line, or fails with its missing key |
| Queries.FileLinesOrLiteral | gdorker.py:205-212 | `load_queries` of both scripts (also g-dorker.py:154-160): a readable file gives its lines in file order, duplicates included, since the computed set is discarded; anything else the argument as the only query |
| Queries.DistinctCount | src/gdorker/__init__.py:220 | a duplicate-free list has as many elements as its set of values |
| Queries.IndexOf | src/gdorker/__init__.py:345 | the first position of the saved query, or the length when it is absent |
| Queries.ResumeFrom | src/gdorker/__init__.py:344-346 | the queries still to run are a suffix of the list, and start with the saved query when one is saved and anything remains |
| Queries.ResumeAtSavedQuery | src/gdorker/__init__.py:344-346 | a truthy saved query in the list keeps exactly the suffix from its first occurrence |
| Queries.ResumeAtMissingQuery | src/gdorker/__init__.py:345-346 | a saved query not in the list leaves nothing to run |
| Queries.ResumeWithoutSavedQuery | src/gdorker/__init__.py:344 | with no saved query, or an empty one, the whole list runs |
| Gdorker.IsExtended | src/gdorker/__init__.py:38 | pages are fetched whenever codes are shown, only when code or body is shown, and for any engine but DuckDuckGo exactly when code or body is shown |
| Gdorker.ExtendedDiffersOnlyForDuckDuckGoBody | src/gdorker/__init__.py:38 | `is_extended` = code or (body and engine is not DuckDuckGo), and it differs from the scripts' code-or-body exactly for a DuckDuckGo body without codes |
| Gdorker.Classify | src/gdorker/__init__.py:299-324 | the handler re-raises with the flag exactly for Google's RESOURCE_EXHAUSTED and a DuckDuckGo error mentioning '202'; an unknown engine raises the handler's own error |
| Gdorker.ClassifyTable | src/gdorker/__init__.py:299-324 | Google: RESOURCE_EXHAUSTED re-raises with the flag, INVALID_ARGUMENT and undecodable content give `[]`, other statuses re-raise, no status raises; DuckDuckGo: '202' in the message re-raises with the flag, otherwise `[]`; any other engine raises |
| Gdorker.SearchClient.ErrorHandler | src/gdorker/__init__.py:299-324 | the handler's verdict is the classification, and it sets the client's flag exactly on a quota re-raise |
| Gdorker.SearchStep | src/gdorker/__init__.py:136-145 | `_search` returns a response's items unchanged (none when missing); an exception gives `[]` exactly when the handler swallows it, and otherwise escapes carrying the provider's error, as a re-raise exactly when the handler re-raises; a quota error always escapes |
| Gdorker.Dorker.Search | src/gdorker/__init__.py:136-145 | one client call with the handler's verdict, and the client's flag raised on quota |
| Gdorker.PrintPage | src/gdorker/__init__.py:164-172 | printing a page stops only on a missing code or body key |
| Gdorker.PrintPageMissing | src/gdorker/__init__.py:164-172 | printing fails exactly for a non-empty page with body on DuckDuckGo without codes, on the body key and before any line; otherwise one line per hit |
| Gdorker.PrintPageLines | src/gdorker/__init__.py:164-172 | each printed line is the formatter's line for the hit at that position |
| Gdorker.PrintPageStep | src/gdorker/__init__.py:164-172 | printing a page is the first hit's line followed by the rest's, or stops at its missing key |
| Gdorker.Dorker.PrintResults | src/gdorker/__init__.py:164-172 | the loop writes exactly the page's lines and stops at the first missing key |
| Gdorker.Paginate | src/gdorker/__init__.py:174-186 | a query's page loop fails on a missing key only when the body is asked for on DuckDuckGo without codes, and then on its first page, on the body key, before any line |
| Gdorker.PaginateStep | src/gdorker/__init__.py:174-186 | one turn of the loop: a failing page ends it at that offset, an empty page ends it quietly, a page with hits prints and advances by 10 |
| Gdorker.PaginateOffset | src/gdorker/__init__.py:174-186 | after N pages with hits the offset is start + 10·N |
| Gdorker.PaginateStops | src/gdorker/__init__.py:174-186 | every earlier page had hits; the loop ends quietly iff the page at the final offset was empty, and with the search's exception, or the missing key, of that page otherwise: the offset is not advanced on failure |
| Gdorker.GoogleErrorEndsQuery | src/gdorker/__init__.py:299-312 | on Google an exception ends the query at the page that raised it: quietly exactly for INVALID_ARGUMENT or content that is not JSON; any other status fails the query with the provider's error re-raised, and an error without a status with the handler's own |
| Gdorker.Dorker.QueryResults | src/gdorker/__init__.py:174-186 | starts at the given offset (0 for none, the helper `Common.StartOffset`), records the query, and ends with the offset, lines and failure of the page loop; the Dorker's own flag never changes |
| Gdorker.Dorker.NextPage | src/gdorker/__init__.py:179-186 | one turn of the page loop: a failure or an empty page ends the loop at that offset with the loop's whole result, a page with hits prints and the loop goes on 10 further towards the same result |
| Gdorker.Dorker.PageLoop | src/gdorker/__init__.py:179-186 | the `while` loop ends with the offset, lines and failure of the page-loop specification, and the client's flag set iff the final page's error marks the limit |
| Gdorker.Dorker.CurrentPage | src/gdorker/__init__.py:132-134 | the displayed page is the one containing the Dorker's offset |
| Gdorker.Dorker.constructor | src/gdorker/__init__.py:125-130 | offset 0, flag clear |
| Gdorker.ConfigManager.constructor | src/gdorker/__init__.py:226-234 | no credentials set from the command line yet |
| Gdorker.ConfigManager.SetApiKeys | src/gdorker/__init__.py:246-248 | records the command-line credentials |
| Gdorker.ConfigManager.GetGoogleApiKeys | src/gdorker/__init__.py:250-257 | each credential is the file's value when non-empty, otherwise the command-line value |
| Gdorker.CheckCredentials | src/gdorker/__init__.py:254-257 | the length test passes credentials through unchanged |
| Gdorker.GetGoogleApiKeysNeverFails | src/gdorker/__init__.py:254-255 | the ValueError is unreachable |
| Gdorker.SearchClient.constructor | src/gdorker/__init__.py:260-265 | the client holds its engine, provider and credentials, with the flag clear |
| Gdorker.NewSearchClient | src/gdorker/__init__.py:260-270 | a client is built iff the engine is Google (with readable credentials) or DuckDuckGo; Google uses the configuration's credentials |
| Gdorker.Session.constructor | src/gdorker/__init__.py:189-190 | a session opens on its file, modelled by what the file holds (none when absent) |
| Gdorker.Session.Save | src/gdorker/__init__.py:200-209 | the snapshot holds exactly the source, the options, and the Dorker's current query and offset |
| Gdorker.Session.Clean | src/gdorker/__init__.py:197-198 | the file is gone afterwards, and removing it succeeds only when it existed |
| Gdorker.LoadQueries | src/gdorker/__init__.py:216-223 | a readable file gives a duplicate-free list of exactly its lines' values, in no fixed order; otherwise the argument alone |
| Gdorker.DistinctValues | src/gdorker/__init__.py:220 | a list has at most as many distinct values as elements, exactly as many iff it has no duplicates |
| Gdorker.DedupCount | src/gdorker/__init__.py:216-223 | the deduplicated list is never longer than the file, and exactly as long iff no line repeats |
| Gdorker.ResumeCanSkipUnrunQueries | src/gdorker/__init__.py:220 | two valid set orders of the same file cut differently at the same saved query |
| Gdorker.ExitCode | src/gdorker/__init__.py:358-366 | exit code 0 iff every query finished and the session file was removed |
| Gdorker.RunQueries | src/gdorker/__init__.py:353-366 | a run never reports a missing session; it fails exactly when it leaves a session file, and then at one of its queries |
| Gdorker.RunFailure | src/gdorker/__init__.py:353-362 | a failed run stopped at the first failing query; the session holds that query and the offset of its failing page |
| Gdorker.RunCompletion | src/gdorker/__init__.py:353-366 | a run that does not fail removes the session, and completes iff no query fails and there was a file to remove |
| Gdorker.PlanOf | src/gdorker/__init__.py:328-336 | a resumed run takes source, options, offset and query from the snapshot, a fresh one the arguments with no offset |
| Gdorker.Run | src/gdorker/__init__.py:327-366 | `main` is the query loop over the loaded list cut at the saved query, each query from the same offset, saving after each query |
| Gdorker.RunLoop | src/gdorker/__init__.py:353-366 | the loop over the queries ends with the end, session file and lines of the run specification |
| Gdorker.RunQueriesStep | src/gdorker/__init__.py:353-362 | one query of the loop: a failure ends the run with a save, otherwise the save is followed by the rest of the queries |
| GdorkerRuns.TwoHitsThenEmpty | src/gdorker/__init__.py:174-186 | two hits then an empty page print both URL-and-title lines, remove the session and exit with 0 |
| GdorkerRuns.QuotaOnThirdPage | src/gdorker/__init__.py:304-307 | quota on the third page saves offset 20 with the query and exits with 1 |
| ScriptPaging.InlineSearch | gdorker.py:123-140 | `_search` of gdorker.py and `_google_search` of g-dorker.py (101-118): items come only from a response and never with the flag; the handler itself fails exactly when the provider's exception has no readable status, and the crash records that provider error as its cause (what escapes is the handler's own KeyError, TypeError or AttributeError) |
| ScriptPaging.InlineSearchSpec | gdorker.py:123-140 | items come back unchanged; readable exceptions give no items; the flag is set iff the status is RESOURCE_EXHAUSTED; only an exception without a readable status escapes |
| ScriptPaging.Paginate | gdorker.py:158-170 | a loop ended by an escaping exception never has the flag set |
| ScriptPaging.PaginateStep | gdorker.py:158-170 | one turn of the scripts' loop: an escaping exception or an empty page ends it at that offset, a page with hits prints and advances by 10 |
| ScriptPaging.PaginateOffset | gdorker.py:158-170 | after N pages with hits the offset is start + 10·N |
| ScriptPaging.PaginateStops | gdorker.py:163-169 | every earlier page had hits, the final page had none, and the flag is set iff its error was RESOURCE_EXHAUSTED: the offset is not advanced on failure |
| ScriptPaging.PaginatePrinted | gdorker.py:165-166 | the printed hits are the pages' items in page order |
| ScriptPaging.PaginateLines | gdorker.py:142-156 | the loop writes exactly one line per printed hit, in order |
| ScriptPaging.IsExtended | gdorker.py:31 | the scripts fetch only when code or body is shown, and without fetching every line builds |
| ScriptPaging.HitLine | gdorker.py:142-156 | a hit's line carries the printer's tag and starts with the hit's link |
| ScriptPaging.HitLines | gdorker.py:142-156 | one line per hit |
| ScriptPaging.HitLineShape | gdorker.py:60-69 | a hit's line carries its tag, the link first, then the code, title and snippet each iff its option is set |
| ScriptPaging.HitLinesAppend | gdorker.py:142-156 | printing two runs of hits writes their lines one after the other |
| GdorkerScript.Dorker.constructor | gdorker.py:111-116 | offset 0, flag clear |
| GdorkerScript.Dorker.CurrentPage | gdorker.py:119-121 | the displayed page is the one containing the offset |
| GdorkerScript.Dorker.Search | gdorker.py:123-140 | items unchanged on success; the Dorker's flag raised on RESOURCE_EXHAUSTED; other readable errors give no items; no readable status escapes |
| GdorkerScript.Dorker.PrintResults | gdorker.py:142-156 | one "[URL] " line per hit, in order |
| GdorkerScript.Dorker.QueryResults | gdorker.py:158-170 | starts at the given offset (0 for none, the helper `Common.StartOffset`) and ends with the offset, lines, escaping exception and flag of the page loop; with the flag already set the loop does not run |
| GdorkerScript.Dorker.NextPage | gdorker.py:163-170 | one turn of the page loop: an escaping exception or an empty page ends the loop at that offset with the loop's whole result, a page with hits prints and the loop goes on 10 further towards the same result |
| GdorkerScript.Dorker.PageLoop | gdorker.py:163-170 | the `while` loop ends with the offset, lines, escaping exception and flag of the page-loop specification |
| GdorkerScript.Session.constructor | gdorker.py:176-177 | a session opens on its file, modelled by what the file holds (none when absent) |
| GdorkerScript.Session.Save | gdorker.py:187-198 | the snapshot holds exactly the key, engine id, source, options, current query and offset |
| GdorkerScript.Session.Clean | gdorker.py:184-185 | the file is gone afterwards, and removing it succeeds only when it existed |
| GdorkerScript.ExitCode | gdorker.py:244-247 | exit code 0 iff every query finished and the session file was removed |
| GdorkerScript.FreshRunNeverCompletes | gdorker.py:241-247 | without a session file to start with, a run never exits with 0, and leaves a file iff it hit the limit |
| GdorkerScript.RunQueries | gdorker.py:241-247 | a run never reports a missing session; the limit leaves a session with a current query, an escaping exception leaves the file as it was, completing needs a file to remove and a failed removal means there was none; either way none remains |
| GdorkerScript.RunLimit | gdorker.py:241-246 | a run that hits the limit stops at the first query that raised the flag, and saves that query with the offset of its RESOURCE_EXHAUSTED page |
| GdorkerScript.RunLines | gdorker.py:241-243 | the run writes one line per printed hit, in order |
| GdorkerScript.RunQueriesStep | gdorker.py:241-246 | one query of the loop: an escaping exception, the limit (with a save), or on to the next query |
| GdorkerScript.PlanOf | gdorker.py:223-230 | a resumed run takes credentials, source, options, offset and query from the snapshot |
| GdorkerScript.Run | gdorker.py:215-247 | `main` is the query loop over the loaded list cut at the saved query, each query from the same offset |
| GdorkerScript.RunLoop | gdorker.py:241-247 | the loop over the queries ends with the end, session file and lines of the run specification |
| GDorkerLegacy.GoogleSearch.constructor | g-dorker.py:90-95 | offset 1, flag clear |
| GDorkerLegacy.GoogleSearch.CurrentPage | g-dorker.py:97-99 | the displayed page is the one containing the offset |
| GDorkerLegacy.GoogleSearch.Search | g-dorker.py:101-118 | items unchanged on success; the flag raised on RESOURCE_EXHAUSTED; other readable errors give no items and leave the flag |
| GDorkerLegacy.GoogleSearch.PrintResults | g-dorker.py:120-134 | one "[INFO] " line per hit, in order |
| GDorkerLegacy.GoogleSearch.QueryResults | g-dorker.py:136-146 | resets the offset to 1 and keeps it equal to the local start, ending with the page loop's offset, lines and flag; once the flag is set the loop is not entered |
| GDorkerLegacy.GoogleSearch.NextPage | g-dorker.py:139-146 | one turn of the page loop: an escaping exception or an empty page ends the loop at that start with the loop's whole result, a page with hits prints and the loop goes on 10 further towards the same result |
| GDorkerLegacy.LoopOffsets | g-dorker.py:137-146 | after N pages with hits the offset is 1 + 10·N and the page shown is N + 1 |
| GDorkerLegacy.ExitCode | g-dorker.py:168-172 | exit code 1 iff an exception escaped, so stopping at the limit still exits with 0 |
| GDorkerLegacy.RunQueriesStep | g-dorker.py:168-172 | one query of the loop: an escaping exception, the limit (stop), or on to the next query |
| GDorkerLegacy.RunQueries | g-dorker.py:166-172 | a run stopped by the limit names a query of the list |
| GDorkerLegacy.StopAtLimit | g-dorker.py:168-172 | a run stopped by the limit ran the list exactly up to the query that raised the flag, with its RESOURCE_EXHAUSTED page at the recorded offset |
| GDorkerLegacy.Run | g-dorker.py:162-172 | `main` runs every query from start 1 until the flag is set |
| ScriptRuns.ScriptQuotaOnSecondPage | gdorker.py:133-135 | quota on the second page prints the first page, saves offset 10 with the credentials and exits with 1 |
| ScriptRuns.LegacyQuotaStopsRun | g-dorker.py:168-172 | quota on the second page of the first query stops before the second query and exits with 0 |

## Left out

- Argument parsing, the banner and the entry points: command-line glue.
- Live backends: the Google API client, the DuckDuckGo scraper, `requests.get`
  and the aiohttp/`asyncio.gather` enrichment. The provider is a function
  parameter and enrichment an opaque `(status, text)` function; a failing
  enrichment request is not modelled.
- The DuckDuckGo client ignores the start index and returns the same hits on
  every call. Such a provider has no result window, so its page loop need not
  end: it ends on a query with no hits, on any DuckDuckGo error (quietly
  unless its message contains '202', which is re-raised), or, with `-b` and
  no `-c`, on the missing body key. The model covers providers with a finite
  window only.
- BeautifulSoup's extraction of the page text: the snippet is computed from
  text already extracted.
- Colours are an enumeration, not ANSI escape codes. The "Page N", "Query: q",
  info, error and debug log lines, and the copy written to the `-f` file, are
  not modelled; only result lines are.
- `time.sleep` and process exit: exits are result values.
- The SIGINT handlers. gdorker.py's saves the session and exits with 0.
  g-dorker.py's exits with 0 without saving, since its save call is commented
  out. The current version's lambda reads `search_client`, a local of
  `entrypoint` that `main` cannot see, so an interrupt raises NameError before
  anything is saved.
- JSON and file I/O for sessions and the configuration file; a corrupt or
  unreadable session file.
- gdorker.py reads `logger.is_extended`, which its `Logger` never defines, so
  any non-empty page would raise there. Printing is modelled as intended, with
  the formatter's `is_extended` (code or body).
- gdorker.py and g-dorker.py iterate `res.get('items')`, which is `None` for a
  response without items. A missing `items` entry is modelled as an empty
  page.
- The current `main` logs a query's error only when it is not the first
  query; this affects only log text.
