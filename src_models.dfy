/** The records of the repository-based `src/audio/` code path
    (src/audio/models.py): a source with an id, a name and an optional
    description, and an active capture stream ("source output"). */
module SrcModels {
  import opened Common
  import opened Text

  /** A source as the repository lists it; its id and name are both the
      platform's device name. */
  datatype AudioSource = AudioSource(id: string, name: string, description: Option<string>)

  /** An active capture stream: its numeric id, the source it reads from,
      and the owning application when the listing names one. */
  datatype SourceOutput = SourceOutput(id: int, sourceName: string, application: Option<string>)

  /** The empty query matches everything; otherwise the lower-cased query
      must be a substring of the lower-cased name. */
  predicate MatchesQuery(s: AudioSource, query: string)
  {
    if query == "" then true else Contains(Lower(s.name), Lower(query))
  }

  /** `str(source)`: the name. */
  function ToString(s: AudioSource): (r: string)
    ensures r == s.name
  {
    s.name
  }

  /** The explicit empty-query case agrees with the substring test, which
      "" always passes; and the description never takes part in matching. */
  lemma MatchesQuerySubstring(s: AudioSource, query: string, d: Option<string>)
    ensures MatchesQuery(s, query) <==> Contains(Lower(s.name), Lower(query))
    ensures MatchesQuery(s, query) <==> MatchesQuery(s.(description := d), query)
  {
    if query == "" {
      ContainsEmpty(Lower(s.name));
    }
  }

  /** The query test as a function value. */
  function Matcher(query: string): AudioSource -> bool
  {
    s => MatchesQuery(s, query)
  }
}
