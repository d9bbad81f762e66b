/** `ListSourcesUseCase.execute` (lib/application/list_sources_use_case.py):
    reject a limit below 1, then take the client's list, filter it by a
    non-empty query and cut it to the limit. The client's list is an input. */
module ListSourcesUseCase {
  import opened Common
  import Seqs
  import opened LibDomain
  import Process
  import LibPactl

  const LimitMessage: string := "limit must be greater than 0"

  /** `execute(query, limit)` over the list the client returns: an error
      exactly for a limit below 1; otherwise the first `limit` of the
      sources matching the query, in the client's order. */
  function Execute(clientList: AudioSourceList, query: string, limit: int): (r: Result<AudioSourceList, string>)
    ensures limit < 1 <==> r == Err(LimitMessage)
    ensures r.Ok? ==> |r.value.sources| <= limit
    ensures r.Ok? ==> Seqs.IsSubsequence(r.value.sources, clientList.sources)
    ensures r.Ok? ==> forall k :: 0 <= k < |r.value.sources| ==> MatchesQuery(r.value.sources[k], query)
    ensures r.Ok? ==> r.value == Limit(FilterByQuery(clientList, query), limit)
    ensures r.Ok? && query == "" ==> r.value == Limit(clientList, limit)
  {
    if limit < 1 then Err(LimitMessage)
    else
      var sources := if query != "" then FilterByQuery(clientList, query) else clientList;
      assert sources == FilterByQuery(clientList, query);
      var limited := Limit(sources, limit);
      Seqs.PrefixOfSubsequence(limited.sources, sources.sources, clientList.sources);
      Ok(limited)
  }

  /** A limit below 1 is rejected whatever the client would list: the
      check comes before the client is asked. */
  lemma LimitCheckedFirst(a: AudioSourceList, b: AudioSourceList, query: string, limit: int)
    requires limit < 1
    ensures Execute(a, query, limit) == Execute(b, query, limit) == Err(LimitMessage)
  {
  }

  /** When the client lists no monitor, the result holds none. */
  lemma NoMonitorsPreserved(clientList: AudioSourceList, query: string, limit: int)
    requires forall k :: 0 <= k < |clientList.sources| ==> !IsMonitor(clientList.sources[k])
    ensures var r := Execute(clientList, query, limit);
            r.Ok? ==> forall k :: 0 <= k < |r.value.sources| ==> !IsMonitor(r.value.sources[k])
  {
    var r := Execute(clientList, query, limit);
    if r.Ok? {
      forall k | 0 <= k < |r.value.sources|
        ensures !IsMonitor(r.value.sources[k])
      {
        Seqs.SubsequenceMembers(r.value.sources, clientList.sources, r.value.sources[k]);
      }
    }
  }

  /** Over the `lib/` pactl client: the sources listed are never monitors,
      whatever the listing's outcome. */
  lemma PactlListingHasNoMonitors(listing: Process.Outcome, query: string, limit: int)
    ensures var r := Execute(LibPactl.SourcesOf(listing), query, limit);
            r.Ok? ==> forall k :: 0 <= k < |r.value.sources| ==> !IsMonitor(r.value.sources[k])
  {
    NoMonitorsPreserved(LibPactl.SourcesOf(listing), query, limit);
  }
}
