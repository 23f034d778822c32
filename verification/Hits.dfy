/** Search hits, as the searcher hands them to the handlers. */
module Hits {
  import opened Tables

  datatype Source = Direct | GraphExpanded

  datatype Ranked = Ranked(id: Id, score: real, source: Source)

  ghost predicate Descending(s: seq<Ranked>) {
    forall i, j :: 0 <= i < j < |s| ==> s[j].score <= s[i].score
  }

  ghost predicate DistinctIds(s: seq<Ranked>) {
    forall i, j :: 0 <= i < j < |s| ==> s[i].id != s[j].id
  }
}
