/** `KeywordQueryHandler` (src/handlers/keyword_query_handler.py): which
    result items the launcher shows for a query. Items are abstracted to
    their kind: the "no sources" item, one item per source, or the "no
    match" item carrying the number of sources. */
module KeywordQueryHandler {
  import opened Common
  import Seqs
  import opened SrcModels
  import MicrophoneService

  /** At most this many source items are shown. */
  const MaxItems: nat := 10

  datatype Item = NoSourcesItem | SourceItem(source: AudioSource) | NoMatchItem(total: nat)

  /** One item per source, in order. */
  function SourceItems(sources: seq<AudioSource>): (items: seq<Item>)
    ensures |items| == |sources|
    ensures forall k :: 0 <= k < |items| ==> items[k] == SourceItem(sources[k])
  {
    seq(|sources|, k requires 0 <= k < |sources| => SourceItem(sources[k]))
  }

  /** `sources[:10]`. */
  function Shown(sources: seq<AudioSource>): (r: seq<AudioSource>)
    ensures r <= sources && |r| == if |sources| < MaxItems then |sources| else MaxItems
  {
    if |sources| < MaxItems then sources else sources[..MaxItems]
  }

  /** `_build_all_items`: items for the first ten sources. */
  function BuildAllItems(sources: seq<AudioSource>): (items: seq<Item>)
    ensures |items| == if |sources| < MaxItems then |sources| else MaxItems
    ensures forall k :: 0 <= k < |items| ==> items[k] == SourceItem(sources[k])
  {
    SourceItems(Shown(sources))
  }

  /** `_build_filtered_items`: items for the first ten matching sources,
      or the no-match item with the number of sources given when none
      matches. */
  function BuildFilteredItems(sources: seq<AudioSource>, query: string): (items: seq<Item>)
    ensures 1 <= |items| <= MaxItems
    ensures items == [NoMatchItem(|sources|)] <==> forall k :: 0 <= k < |sources| ==> !MatchesQuery(sources[k], query)
    ensures forall k :: 0 <= k < |items| && items[k].SourceItem? ==>
              items[k].source in sources && MatchesQuery(items[k].source, query)
  {
    Seqs.FilterSpec(Matcher(query), sources);
    var filtered := Seqs.Filter(Matcher(query), sources);
    if filtered != [] then SourceItems(Shown(filtered)) else [NoMatchItem(|sources|)]
  }

  /** `_build_items`: the no-sources item for no sources; otherwise the
      filtered items for a query and all items without one. Between one
      and ten items, every source item is one of the sources and matches
      the query, and the no-match item comes exactly when there are
      sources, a query, and no source matches it. */
  function BuildItems(sources: seq<AudioSource>, query: string): (items: seq<Item>)
    ensures 1 <= |items| <= MaxItems
    ensures items == [NoSourcesItem] <==> sources == []
    ensures items[0].NoMatchItem? <==>
              sources != [] && query != "" && forall k :: 0 <= k < |sources| ==> !MatchesQuery(sources[k], query)
    ensures items[0].NoMatchItem? ==> items == [NoMatchItem(|sources|)]
    ensures forall k :: 0 <= k < |items| && items[k].SourceItem? ==>
              items[k].source in sources && MatchesQuery(items[k].source, query)
    ensures query == "" && sources != [] ==> items == SourceItems(Shown(sources))
  {
    if sources == [] then [NoSourcesItem]
    else if query != "" then BuildFilteredItems(sources, query)
    else BuildAllItems(sources)
  }

  /** With a query, the source items are the first ten matching sources,
      in their order. */
  lemma FilteredItemsInOrder(sources: seq<AudioSource>, query: string)
    requires sources != [] && query != ""
    requires exists k :: 0 <= k < |sources| && MatchesQuery(sources[k], query)
    ensures BuildItems(sources, query) == SourceItems(Shown(Seqs.Filter(Matcher(query), sources)))
  {
    var k :| 0 <= k < |sources| && MatchesQuery(sources[k], query);
    Seqs.FilterSpec(Matcher(query), sources);
    assert Matcher(query)(sources[k]);
  }

  /** `on_event`: the query is the event's argument, or "" without one;
      the sources are those the service lists for that query. */
  function OnEvent(repository: seq<AudioSource>, argument: Option<string>): (items: seq<Item>)
    ensures 1 <= |items| <= MaxItems
    ensures forall k :: 0 <= k < |items| && items[k].SourceItem? ==> MatchesQuery(items[k].source, argument.GetOr(""))
  {
    var query := argument.GetOr("");
    BuildItems(MicrophoneService.ListSources(repository, query), query)
  }

  /** `on_event` hands `_build_items` the sources already filtered by the
      query, so the no-match item never appears: whenever nothing matches,
      the list is empty and the no-sources item is shown instead. */
  lemma OnEventNeverNoMatch(repository: seq<AudioSource>, argument: Option<string>)
    ensures forall k :: 0 <= k < |OnEvent(repository, argument)| ==> !OnEvent(repository, argument)[k].NoMatchItem?
  {
    var query := argument.GetOr("");
    var listed := MicrophoneService.ListSources(repository, query);
    if listed != [] {
      assert MatchesQuery(listed[0], query);
    }
  }

  /** A repository with one source and a query it does not match: the
      launcher says there are no sources at all. */
  lemma NoMatchShownAsNoSources()
    ensures OnEvent([AudioSource("mic", "mic", None)], Some("no-such-mic")) == [NoSourcesItem]
    ensures OnEventCorrected([AudioSource("mic", "mic", None)], Some("no-such-mic")) == [NoMatchItem(1)]
  {
    var s := AudioSource("mic", "mic", None);
    Text.NotContainsLonger(Text.Lower("mic"), Text.Lower("no-such-mic"));
    assert !MatchesQuery(s, "no-such-mic");
    assert MicrophoneService.ListSources([s], "no-such-mic") == [];
  }

  /** `on_event` as evidently intended: the items are built from every
      source the repository lists, and `_build_items` does the filtering. */
  function OnEventCorrected(repository: seq<AudioSource>, argument: Option<string>): seq<Item>
  {
    BuildItems(repository, argument.GetOr(""))
  }

  /** The corrected handler shows the no-match item, with the number of
      sources, exactly when there are sources and none matches the query;
      in every other case it shows what `on_event` shows. */
  lemma CorrectedOnlyAddsNoMatch(repository: seq<AudioSource>, argument: Option<string>)
    ensures var query := argument.GetOr("");
            var noMatch := repository != [] && query != ""
                           && forall k :: 0 <= k < |repository| ==> !MatchesQuery(repository[k], query);
            (noMatch ==> OnEventCorrected(repository, argument) == [NoMatchItem(|repository|)]
                         && OnEvent(repository, argument) == [NoSourcesItem])
            && (!noMatch ==> OnEventCorrected(repository, argument) == OnEvent(repository, argument))
  {
    var query := argument.GetOr("");
    var listed := MicrophoneService.ListSources(repository, query);
    if query != "" {
      Seqs.FilterIdempotent(Matcher(query), repository);
      if repository != [] && exists k :: 0 <= k < |repository| && MatchesQuery(repository[k], query) {
        var k :| 0 <= k < |repository| && MatchesQuery(repository[k], query);
        assert Matcher(query)(repository[k]);
        assert listed != [];
      }
    }
  }
}
