/** The query list: reading it from a file or taking the argument literally,
    and cutting it at the saved query when a session is resumed. */
module Queries {
  import opened Common

  /** `load_queries` of the two scripts: the file's lines (as `readlines`
      gives them) when `source` names a readable file, else the argument
      itself as the only query. `files` maps each readable path to its lines. */
  function FileLinesOrLiteral(files: map<string, seq<string>>, source: string): (qs: seq<string>)
    ensures source in files ==> qs == files[source]
    ensures source !in files ==> qs == [source]
  {
    if source in files then files[source] else [source]
  }

  predicate NoDuplicates(qs: seq<string>) {
    forall i, j :: 0 <= i < j < |qs| ==> qs[i] != qs[j]
  }

  /** A duplicate-free list has as many elements as its set of values. */
  lemma {:induction false} DistinctCount(qs: seq<string>)
    requires NoDuplicates(qs)
    ensures |set q | q in qs| == |qs|
  {
    if qs != [] {
      var rest := qs[1..];
      DistinctCount(rest);
      assert (set q | q in qs) == (set q | q in rest) + {qs[0]};
      assert qs[0] !in rest by {
        forall k | 0 <= k < |rest| ensures rest[k] != qs[0] {
          assert rest[k] == qs[k + 1];
        }
      }
    }
  }

  /** `next((i for i, q in enumerate(queries) if q == current), len(queries))`:
      the first position of `current`, or the length when it is absent. */
  function IndexOf(queries: seq<string>, current: string): (i: nat)
    ensures i <= |queries|
    ensures i < |queries| ==> queries[i] == current
    ensures forall k :: 0 <= k < i ==> queries[k] != current
  {
    if queries == [] then 0
    else if queries[0] == current then 0
    else 1 + IndexOf(queries[1..], current)
  }

  /** The queries still to run: when a truthy current query was saved, the
      list from its first occurrence on; otherwise the whole list. */
  function ResumeFrom(queries: seq<string>, current: Option<string>): (rest: seq<string>)
    ensures |rest| <= |queries| && rest == queries[|queries| - |rest|..]
    ensures Truthy(current) && rest != [] ==> rest[0] == current.value
  {
    if Truthy(current) then queries[IndexOf(queries, current.value)..] else queries
  }

  /** Resuming at a saved query that is in the list keeps exactly the suffix
      starting at its first occurrence, and drops only queries before it. */
  lemma ResumeAtSavedQuery(queries: seq<string>, current: string)
    requires current != "" && current in queries
    ensures var rest := ResumeFrom(queries, Some(current));
      && rest != [] && rest[0] == current
      && queries == queries[..|queries| - |rest|] + rest
      && current !in queries[..|queries| - |rest|]
  {
    var i := IndexOf(queries, current);
    assert queries == queries[..i] + queries[i..];
  }

  /** A saved query that is not in the list leaves nothing to run. */
  lemma ResumeAtMissingQuery(queries: seq<string>, current: string)
    requires current != "" && current !in queries
    ensures ResumeFrom(queries, Some(current)) == []
  {
  }

  /** Without a saved query (none, or the empty string) nothing is dropped. */
  lemma ResumeWithoutSavedQuery(queries: seq<string>, current: Option<string>)
    requires !Truthy(current)
    ensures ResumeFrom(queries, current) == queries
  {
  }
}
