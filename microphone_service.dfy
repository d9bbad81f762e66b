/** `MicrophoneService` (src/services/microphone_service.py): the query
    filter over the repository's sources and the fallback for the default
    source. The repository's answers are inputs. */
module MicrophoneService {
  import opened Common
  import Seqs
  import opened SrcModels
  import SrcRepository
  import Process
  import Text

  /** `list_sources(query)`: the repository's list itself for the empty
      query, otherwise the sources matching the query, in their order. */
  function ListSources(sources: seq<AudioSource>, query: string): (r: seq<AudioSource>)
    ensures query == "" ==> r == sources
    ensures forall k :: 0 <= k < |r| ==> MatchesQuery(r[k], query)
    ensures forall k :: 0 <= k < |sources| && MatchesQuery(sources[k], query) ==> sources[k] in r
    ensures Seqs.IsSubsequence(r, sources) && |r| <= |sources|
    ensures forall x :: multiset(r)[x] == if MatchesQuery(x, query) then multiset(sources)[x] else 0
  {
    if query == "" then
      assert Seqs.IsSubsequence(sources, sources) by {
        Seqs.FilterKeepsAll(Matcher(""), sources);
        Seqs.FilterSpec(Matcher(""), sources);
      }
      sources
    else
      Seqs.FilterSpec(Matcher(query), sources);
      Seqs.FilterCount(Matcher(query), sources);
      Seqs.Filter(Matcher(query), sources)
  }

  /** The empty-query short-cut changes nothing: filtering by "" keeps
      every source. */
  lemma EmptyQueryShortcutAgrees(sources: seq<AudioSource>)
    ensures Seqs.Filter(Matcher(""), sources) == ListSources(sources, "")
  {
    Seqs.FilterKeepsAll(Matcher(""), sources);
  }

  /** Listing twice with the same query is listing once. */
  lemma ListSourcesIdempotent(sources: seq<AudioSource>, query: string)
    ensures ListSources(ListSources(sources, query), query) == ListSources(sources, query)
  {
    if query != "" {
      Seqs.FilterIdempotent(Matcher(query), sources);
    }
  }

  /** Over the repository's listing, every listed source is clean: id and
      name agree, and "monitor" appears in neither name nor description. */
  lemma ListedSourcesClean(listing: Process.Outcome, query: string)
    ensures var r := ListSources(SrcRepository.SourcesOf(listing), query);
            forall k :: 0 <= k < |r| ==> SrcRepository.Clean(r[k])
  {
    var all := SrcRepository.SourcesOf(listing);
    var r := ListSources(all, query);
    if Process.ListingText(listing).Some? {
      SrcRepository.SourcesClean(Text.SplitLines(Process.ListingText(listing).value));
    }
    forall k | 0 <= k < |r|
      ensures SrcRepository.Clean(r[k])
    {
      Seqs.SubsequenceMembers(r, all, r[k]);
    }
  }

  /** `get_default_source`: the repository's answer, or "" when it has
      none. */
  function DefaultSource(repoDefault: Option<string>): (r: string)
    ensures repoDefault.None? ==> r == ""
    ensures repoDefault.Some? ==> r == repoDefault.value
  {
    repoDefault.GetOr("")
  }

  /** Over `pactl get-default-source`: the stripped output on exit code 0,
      and "" on any failure. */
  lemma DefaultSourceOfOutcome(outcome: Process.Outcome)
    ensures outcome.Exited? && outcome.returnCode == 0 ==>
              DefaultSource(SrcRepository.DefaultSourceOf(outcome)) == Text.Strip(outcome.stdout)
    ensures !(outcome.Exited? && outcome.returnCode == 0) ==>
              DefaultSource(SrcRepository.DefaultSourceOf(outcome)) == ""
  {
  }
}
