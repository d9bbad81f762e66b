/** `PactlClient.list_sources` of the older `src/` tree
    (src/infrastructure/audio_service.py): each line of
    `pactl list short sources` is split on tabs; a line with a second field
    that is not blank after stripping gives a source with that name, and
    the source's index is the line's position in the output. Monitors are
    then dropped. A failed, empty, timed-out or raising listing gives the
    empty list. `set_default_source` and `move_streams_to_source` are those
    of module PactlStreams. */
module SrcPactl {
  import opened Common
  import opened Text
  import opened Process
  import Seqs
  import opened SrcDomain

  /** The source line `idx` of the listing stands for, if any. */
  function RowOf(idx: nat, line: string): (r: Option<AudioSource>)
    ensures r.Some? ==> r.value.index == idx && r.value.name != "" && IsStripped(r.value.name)
  {
    var parts := Split(line, '\t');
    if |parts| >= 2 && Strip(parts[1]) != "" then Some(AudioSource(Strip(parts[1]), idx))
    else None
  }

  /** The sources of the listing's lines, before monitors are dropped. */
  function Rows(lines: seq<string>): seq<AudioSource>
  {
    Seqs.FilterMapIndexed(RowOf, lines)
  }

  /** What `list_sources` returns for the outcome of
      `pactl list short sources`. */
  function SourcesOf(listing: Outcome): AudioSourceList
  {
    match ListingText(listing)
    case None => AudioSourceList([])
    case Some(text) => FilterMonitors(AudioSourceList(Rows(SplitLines(text))))
  }

  /** `list_sources`, given the outcome of `pactl list short sources`. */
  method ListSources(listing: Outcome) returns (r: AudioSourceList)
    ensures r == SourcesOf(listing)
    ensures !(listing.Exited? && listing.returnCode == 0 && listing.stdout != "") ==> r.sources == []
    ensures forall k :: 0 <= k < |r.sources| ==> !IsMonitor(r.sources[k])
  {
    if !listing.Exited? || listing.returnCode != 0 || listing.stdout == "" {
      return AudioSourceList([]);
    }
    var lines := SplitLines(listing.stdout);
    var sources: seq<AudioSource> := [];
    var idx := 0;
    assert lines[..0] == [];
    while idx < |lines|
      invariant 0 <= idx <= |lines|
      invariant sources == Rows(lines[..idx])
    {
      Seqs.FilterMapIndexedPrefix(RowOf, lines, idx);
      var parts := Split(lines[idx], '\t');
      if |parts| >= 2 {
        var sourceName := Strip(parts[1]);
        if sourceName != "" {
          sources := sources + [AudioSource(sourceName, idx)];
        }
      }
      idx := idx + 1;
    }
    assert lines[..|lines|] == lines;
    r := FilterMonitors(AudioSourceList(sources));
  }

  /** A source's listing position, as a function value. */
  function IndexOf(s: AudioSource): int
  {
    s.index
  }

  /** Each source is the one its own line stands for: its index is the
      position of that line in the raw output (so lines without a source
      still use up an index), the indices strictly increase, and no line
      that stands for a source is skipped. */
  lemma RowsFromLines(lines: seq<string>)
    ensures forall k :: 0 <= k < |Rows(lines)| ==> 0 <= Rows(lines)[k].index < |lines|
    ensures forall k :: 0 <= k < |Rows(lines)| ==>
              RowOf(Rows(lines)[k].index, lines[Rows(lines)[k].index]) == Some(Rows(lines)[k])
    ensures forall j, k :: 0 <= j < k < |Rows(lines)| ==> Rows(lines)[j].index < Rows(lines)[k].index
    ensures forall i :: 0 <= i < |lines| && RowOf(i, lines[i]).Some? ==> RowOf(i, lines[i]).value in Rows(lines)
  {
    Seqs.FilterMapIndexedSources(RowOf, IndexOf, lines);
    Seqs.FilterMapIndexedIncreasing(RowOf, IndexOf, lines);
    Seqs.FilterMapIndexedComplete(RowOf, lines);
  }

  /** A line with fewer than two fields, or whose second field is blank,
      stands for no source. */
  lemma RowOfRejects(idx: nat, line: string)
    requires |Split(line, '\t')| < 2 || Strip(Split(line, '\t')[1]) == ""
    ensures RowOf(idx, line) == None
  {
  }

  /** A line as `pactl list short sources` prints it: number, name and
      the rest, separated by tabs. */
  function TableLine(n: nat, name: string, rest: string): string
  {
    ShowNat(n) + "\t" + name + "\t" + rest
  }

  /** A source name pactl prints on a line: non-empty, stripped, with no
      tab and no line break. */
  predicate PrintableName(name: string)
  {
    name != "" && IsStripped(name) && '\t' !in name && '\n' !in name
  }

  /** A trailing column with no tab and no line break. */
  predicate PrintableRest(rest: string)
  {
    '\t' !in rest && '\n' !in rest
  }

  /** The printed number does not matter: the index comes from the line's
      position. */
  lemma RowOfTableLine(idx: nat, n: nat, name: string, rest: string)
    requires PrintableName(name) && PrintableRest(rest)
    ensures RowOf(idx, TableLine(n, name, rest)) == Some(AudioSource(name, idx))
  {
    var digits := ShowNat(n);
    assert '\t' !in digits by {
      assert forall c :: c in digits ==> IsDigit(c);
    }
    assert TableLine(n, name, rest) == digits + ['\t'] + (name + ['\t'] + rest);
    SplitAtFirst(digits, '\t', name + ['\t'] + rest);
    SplitAtFirst(name, '\t', rest);
    SplitNoSeparator(rest, '\t');
    StripStripped(name);
  }

  /** The lines of a listing of `names`, numbered from 0. */
  function Table(names: seq<string>, rests: seq<string>): (lines: seq<string>)
    requires |names| == |rests|
    ensures |lines| == |names|
  {
    seq(|names|, k requires 0 <= k < |names| => TableLine(k, names[k], rests[k]))
  }

  /** The sources `names` stand for, each at its position. */
  function Numbered(names: seq<string>): (r: seq<AudioSource>)
    ensures |r| == |names| && forall k :: 0 <= k < |r| ==> r[k] == AudioSource(names[k], k)
  {
    seq(|names|, k requires 0 <= k < |names| => AudioSource(names[k], k))
  }

  /** Round trip: the table of printable names parses back to those names,
      in order, each indexed by its line. */
  lemma RowsOfTable(names: seq<string>, rests: seq<string>)
    requires |names| == |rests|
    requires forall k :: 0 <= k < |names| ==> PrintableName(names[k]) && PrintableRest(rests[k])
    ensures Rows(Table(names, rests)) == Numbered(names)
  {
    var lines := Table(names, rests);
    forall i | 0 <= i < |lines|
      ensures RowOf(i, lines[i]) == Some(AudioSource(names[i], i))
    {
      RowOfTableLine(i, i, names[i], rests[i]);
    }
    Seqs.FilterMapIndexedTotal(RowOf, lines);
  }

  /** The printed table, end to end: `list_sources` returns the
      non-monitor names, in order, each indexed by its line. */
  lemma ListTable(names: seq<string>, rests: seq<string>, stderr: string)
    requires |names| == |rests|
    requires forall k :: 0 <= k < |names| ==> PrintableName(names[k]) && PrintableRest(rests[k])
    ensures SourcesOf(Exited(0, Unlines(Table(names, rests)), stderr))
         == FilterMonitors(AudioSourceList(Numbered(names)))
  {
    var lines := Table(names, rests);
    if names == [] {
      assert Unlines(lines) == "";
    } else {
      forall l | l in lines
        ensures '\n' !in l
      {
        var k :| 0 <= k < |lines| && lines[k] == l;
        assert '\n' !in ShowNat(k) by {
          assert forall c :: c in ShowNat(k) ==> IsDigit(c);
        }
      }
      SplitLinesOfUnlines(lines);
      UnlinesEndsWithBreak(lines);
      RowsOfTable(names, rests);
    }
  }
}
