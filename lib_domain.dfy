/** The domain values of the `lib/` tree (lib/domain/audio_source.py): an
    audio input source with a description, and the immutable list algebra
    over it. Every list operation returns a new list. */
module LibDomain {
  import opened Text
  import Seqs

  /** One audio input source: the platform's device name, the position the
      lister gave it, and a human-readable description ("" when absent). */
  datatype AudioSource = AudioSource(name: string, index: int, description: string)

  /** An ordered list of sources, in listing order. */
  datatype AudioSourceList = AudioSourceList(sources: seq<AudioSource>)

  /** A loopback pseudo-source that mirrors an output device: its lower-cased
      name contains "monitor". */
  predicate IsMonitor(s: AudioSource)
  {
    Contains(Lower(s.name), "monitor")
  }

  /** The lower-cased query is a substring of the lower-cased name or of the
      lower-cased description. */
  predicate MatchesQuery(s: AudioSource, query: string)
  {
    Contains(Lower(s.name), Lower(query)) || Contains(Lower(s.description), Lower(query))
  }

  /** The empty query matches every source. */
  lemma EmptyQueryMatches(s: AudioSource)
    ensures MatchesQuery(s, "")
  {
    ContainsEmpty(Lower(s.name));
  }

  /** Matching ignores the case of the query: "usb" and "USB" agree. */
  lemma MatchesQueryIgnoresCase(s: AudioSource, query: string)
    ensures MatchesQuery(s, query) <==> MatchesQuery(s, Lower(query))
  {
    LowerIdempotent(query);
  }

  /** The label shown to the user: the description when there is one,
      otherwise the name. */
  function DisplayName(s: AudioSource): (r: string)
    ensures s.description != "" ==> r == s.description
    ensures s.description == "" ==> r == s.name
    ensures r == "" <==> s.description == "" && s.name == ""
  {
    if s.description != "" then s.description else s.name
  }

  predicate NotMonitor(s: AudioSource)
  {
    !IsMonitor(s)
  }

  /** The query test as a function value, so that every filter by the same
      query uses the same predicate. */
  function Matcher(query: string): AudioSource -> bool
  {
    s => MatchesQuery(s, query)
  }

  /** The sources that are not monitors, in their order. */
  function FilterMonitors(l: AudioSourceList): (r: AudioSourceList)
    ensures forall i :: 0 <= i < |r.sources| ==> !IsMonitor(r.sources[i])
    ensures forall i :: 0 <= i < |l.sources| && !IsMonitor(l.sources[i]) ==> l.sources[i] in r.sources
    ensures Seqs.IsSubsequence(r.sources, l.sources)
    ensures forall x :: multiset(r.sources)[x] == if IsMonitor(x) then 0 else multiset(l.sources)[x]
  {
    Seqs.FilterSpec(NotMonitor, l.sources);
    Seqs.FilterCount(NotMonitor, l.sources);
    AudioSourceList(Seqs.Filter(NotMonitor, l.sources))
  }

  /** Dropping monitors twice is dropping them once. */
  lemma FilterMonitorsIdempotent(l: AudioSourceList)
    ensures FilterMonitors(FilterMonitors(l)) == FilterMonitors(l)
  {
    Seqs.FilterIdempotent(NotMonitor, l.sources);
  }

  /** A list without monitors is left as it is. */
  lemma FilterMonitorsKeepsClean(l: AudioSourceList)
    requires forall i :: 0 <= i < |l.sources| ==> !IsMonitor(l.sources[i])
    ensures FilterMonitors(l) == l
  {
    Seqs.FilterKeepsAll(NotMonitor, l.sources);
  }

  /** The sources matching the query, in their order; the empty query
      returns the list itself. */
  function FilterByQuery(l: AudioSourceList, query: string): (r: AudioSourceList)
    ensures query == "" ==> r == l
    ensures forall i :: 0 <= i < |r.sources| ==> MatchesQuery(r.sources[i], query)
    ensures forall i :: 0 <= i < |l.sources| && MatchesQuery(l.sources[i], query) ==> l.sources[i] in r.sources
    ensures Seqs.IsSubsequence(r.sources, l.sources)
    ensures forall x :: multiset(r.sources)[x] == if MatchesQuery(x, query) then multiset(l.sources)[x] else 0
  {
    if query == "" then
      assert forall x :: MatchesQuery(x, query) by {
        forall x ensures MatchesQuery(x, query) {
          EmptyQueryMatches(x);
        }
      }
      assert Seqs.IsSubsequence(l.sources, l.sources) by {
        Seqs.FilterKeepsAll(s => true, l.sources);
        Seqs.FilterSpec(s => true, l.sources);
      }
      l
    else
      Seqs.FilterSpec(Matcher(query), l.sources);
      Seqs.FilterCount(Matcher(query), l.sources);
      AudioSourceList(Seqs.Filter(Matcher(query), l.sources))
  }

  /** The short-cut for the empty query agrees with filtering by it: every
      source matches "", so the filter would keep the whole list anyway. */
  lemma EmptyQueryShortcutAgrees(l: AudioSourceList)
    ensures Seqs.Filter(Matcher(""), l.sources) == FilterByQuery(l, "").sources
  {
    forall i | 0 <= i < |l.sources| ensures MatchesQuery(l.sources[i], "") {
      EmptyQueryMatches(l.sources[i]);
    }
    Seqs.FilterKeepsAll(Matcher(""), l.sources);
  }

  /** `sources[:max_count]` for `max_count >= 0`: the first
      min(max_count, |sources|) sources. */
  function Limit(l: AudioSourceList, maxCount: nat): (r: AudioSourceList)
    ensures r.sources <= l.sources
    ensures |r.sources| == if maxCount < |l.sources| then maxCount else |l.sources|
  {
    AudioSourceList(l.sources[..if maxCount < |l.sources| then maxCount else |l.sources|])
  }

  /** The list holds no source. */
  function IsEmpty(l: AudioSourceList): (b: bool)
    ensures b <==> l.sources == []
  {
    |l.sources| == 0
  }
}
