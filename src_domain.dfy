/** The domain values of the older `src/` tree (src/domain/audio_source.py):
    a source is a name and a listing position only, and queries look at the
    name alone. The list operations are those of the `lib/` tree. */
module SrcDomain {
  import opened Text
  import Seqs
  import LibDomain

  datatype AudioSource = AudioSource(name: string, index: int)

  datatype AudioSourceList = AudioSourceList(sources: seq<AudioSource>)

  /** The lower-cased name contains "monitor" (so ".MONITOR" counts). */
  predicate IsMonitor(s: AudioSource)
  {
    Contains(Lower(s.name), "monitor")
  }

  /** The lower-cased query is a substring of the lower-cased name. */
  predicate MatchesQuery(s: AudioSource, query: string)
  {
    Contains(Lower(s.name), Lower(query))
  }

  /** The same source seen as a `lib/` source without a description. */
  function AsLibSource(s: AudioSource): (r: LibDomain.AudioSource)
    ensures r.name == s.name && r.index == s.index && r.description == ""
  {
    LibDomain.AudioSource(s.name, s.index, "")
  }

  /** The name-only match is the `lib/` match of a source whose description
      is empty: an empty description matches only the empty query, which
      the name matches too. */
  lemma MatchesQueryAgreesWithLib(s: AudioSource, query: string)
    ensures MatchesQuery(s, query) <==> LibDomain.MatchesQuery(AsLibSource(s), query)
    ensures IsMonitor(s) <==> LibDomain.IsMonitor(AsLibSource(s))
  {
    if query != "" {
      NotContainsLonger(Lower(""), Lower(query));
    } else {
      ContainsEmpty(Lower(s.name));
    }
  }

  /** Matching ignores the case of the query: "usb" and "USB" agree. */
  lemma MatchesQueryIgnoresCase(s: AudioSource, query: string)
    ensures MatchesQuery(s, query) <==> MatchesQuery(s, Lower(query))
  {
    LowerIdempotent(query);
  }

  predicate NotMonitor(s: AudioSource)
  {
    !IsMonitor(s)
  }

  /** The query test as a function value, so that every filter by the same
      query uses the same predicate. */
  function Matcher(query: string): AudioSource -> bool
  {
    s => MatchesQuery(s, query)
  }

  /** The sources that are not monitors, in their order. */
  function FilterMonitors(l: AudioSourceList): (r: AudioSourceList)
    ensures forall i :: 0 <= i < |r.sources| ==> !IsMonitor(r.sources[i])
    ensures forall i :: 0 <= i < |l.sources| && !IsMonitor(l.sources[i]) ==> l.sources[i] in r.sources
    ensures Seqs.IsSubsequence(r.sources, l.sources)
    ensures forall x :: multiset(r.sources)[x] == if IsMonitor(x) then 0 else multiset(l.sources)[x]
  {
    Seqs.FilterSpec(NotMonitor, l.sources);
    Seqs.FilterCount(NotMonitor, l.sources);
    AudioSourceList(Seqs.Filter(NotMonitor, l.sources))
  }

  /** Dropping monitors twice is dropping them once. */
  lemma FilterMonitorsIdempotent(l: AudioSourceList)
    ensures FilterMonitors(FilterMonitors(l)) == FilterMonitors(l)
  {
    Seqs.FilterIdempotent(NotMonitor, l.sources);
  }

  /** The sources matching the query, in their order; the empty query
      returns the list itself. */
  function FilterByQuery(l: AudioSourceList, query: string): (r: AudioSourceList)
    ensures query == "" ==> r == l
    ensures forall i :: 0 <= i < |r.sources| ==> MatchesQuery(r.sources[i], query)
    ensures forall i :: 0 <= i < |l.sources| && MatchesQuery(l.sources[i], query) ==> l.sources[i] in r.sources
    ensures Seqs.IsSubsequence(r.sources, l.sources)
    ensures forall x :: multiset(r.sources)[x] == if MatchesQuery(x, query) then multiset(l.sources)[x] else 0
  {
    if query == "" then
      assert forall x :: MatchesQuery(x, query) by {
        forall x ensures MatchesQuery(x, query) {
          ContainsEmpty(Lower(x.name));
        }
      }
      assert Seqs.IsSubsequence(l.sources, l.sources) by {
        Seqs.FilterKeepsAll(s => true, l.sources);
        Seqs.FilterSpec(s => true, l.sources);
      }
      l
    else
      Seqs.FilterSpec(Matcher(query), l.sources);
      Seqs.FilterCount(Matcher(query), l.sources);
      AudioSourceList(Seqs.Filter(Matcher(query), l.sources))
  }

  /** `sources[:max_count]` for `max_count >= 0`. */
  function Limit(l: AudioSourceList, maxCount: nat): (r: AudioSourceList)
    ensures r.sources <= l.sources
    ensures |r.sources| == if maxCount < |l.sources| then maxCount else |l.sources|
  {
    AudioSourceList(l.sources[..if maxCount < |l.sources| then maxCount else |l.sources|])
  }

  /** The list holds no source. */
  function IsEmpty(l: AudioSourceList): (b: bool)
    ensures b <==> l.sources == []
  {
    |l.sources| == 0
  }

  /** A source that is no monitor and matches the query. */
  predicate Wanted(s: AudioSource, query: string)
  {
    !IsMonitor(s) && MatchesQuery(s, query)
  }

  /** The chain `filter_monitors().filter_by_query(q).limit(1)` for a
      non-empty query yields nothing when no source is wanted, and otherwise
      exactly the first wanted source in listing order. */
  lemma ChainYieldsFirstWanted(l: AudioSourceList, query: string)
    requires query != ""
    ensures var r := Limit(FilterByQuery(FilterMonitors(l), query), 1).sources;
      && |r| <= 1
      && (r == [] <==> forall i :: 0 <= i < |l.sources| ==> !Wanted(l.sources[i], query))
      && (r != [] ==> exists k :: 0 <= k < |l.sources| && r[0] == l.sources[k]
                                 && Wanted(l.sources[k], query)
                                 && forall j :: 0 <= j < k ==> !Wanted(l.sources[j], query))
  {
    var both := (s: AudioSource) => Wanted(s, query);
    Seqs.FilterThenFilter(NotMonitor, Matcher(query), both, l.sources);
    var f := Seqs.Filter(both, l.sources);
    if f != [] {
      Seqs.FilterFirst(both, l.sources);
    }
  }
}
