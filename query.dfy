/**
 * DmQuery, as far as the rest of the library reads it. Its own source file
 * is not part of this model: the query is a value holding the properties
 * the domain, the engine and the database manager look at, and
 * dm_query_new_from_object is a copy with named properties replaced.
 */
module Queries {
  import opened Wrappers

  datatype Query = Query(
    appId: string,
    searchTerms: Option<string>,
    stopwordFreeTerms: Option<string>,
    correctedTerms: Option<string>,
    offset: nat,
    limit: nat)

  /**
   * dm_query_new_from_object (source, "stopword-free-terms", ...,
   * "corrected-terms", ...): a copy of `q` in which exactly the fixes that
   * were given replace the corresponding properties.
   */
  function WithFixes(q: Query, stopFree: Option<string>, corrected: Option<string>): (r: Query)
    ensures stopFree.Some? ==> r.stopwordFreeTerms == stopFree
    ensures stopFree.None? ==> r.stopwordFreeTerms == q.stopwordFreeTerms
    ensures corrected.Some? ==> r.correctedTerms == corrected
    ensures corrected.None? ==> r.correctedTerms == q.correctedTerms
    ensures r.(stopwordFreeTerms := q.stopwordFreeTerms, correctedTerms := q.correctedTerms) == q
  {
    var q1 := if stopFree.Some? then q.(stopwordFreeTerms := stopFree) else q;
    if corrected.Some? then q1.(correctedTerms := corrected) else q1
  }

  /** Whether the engine routes a query through the fixing step: it has non-empty search terms. */
  predicate HasSearchTerms(q: Query) {
    q.searchTerms.Some? && q.searchTerms.value != ""
  }
}
