/** The repositories of the `src/audio/` code path (src/audio/repository.py).
    `AudioSourceRepository.list_sources` reads `pactl list short sources`,
    skipping every line that mentions "monitor" in any case and anywhere,
    and takes the stripped second tab field as both id and name;
    `get_default_source` reads `pactl get-default-source`;
    `SourceOutputRepository.list_active_outputs` reads
    `pactl list short source-outputs` and keeps the lines whose first field
    is a number. Every failure gives the empty list or no default. */
module SrcRepository {
  import opened Common
  import opened Text
  import opened Process
  import Seqs
  import opened SrcModels
  import PactlStreams

  // ---------------------------------------------------------------------
  // AudioSourceRepository.list_sources

  /** The source a line stands for: none for a line mentioning "monitor";
      otherwise the stripped second field, if not blank, as id and name,
      with the stripped third field, if any, as description. */
  function SourceRow(line: string): Option<AudioSource>
  {
    if Contains(Lower(line), "monitor") then None
    else
      var parts := Split(line, '\t');
      if |parts| >= 2 && Strip(parts[1]) != "" then
        var sourceId := Strip(parts[1]);
        Some(AudioSource(sourceId, sourceId, if |parts| > 2 then Some(Strip(parts[2])) else None))
      else None
  }

  function Sources(lines: seq<string>): seq<AudioSource>
  {
    Seqs.FilterMap(SourceRow, lines)
  }

  /** What `list_sources` returns for the outcome of
      `pactl list short sources`. */
  function SourcesOf(listing: Outcome): seq<AudioSource>
  {
    match ListingText(listing)
    case None => []
    case Some(text) => Sources(SplitLines(text))
  }

  /** `AudioSourceRepository.list_sources`. */
  method ListSources(listing: Outcome) returns (sources: seq<AudioSource>)
    ensures sources == SourcesOf(listing)
    ensures !(listing.Exited? && listing.returnCode == 0 && listing.stdout != "") ==> sources == []
  {
    if !listing.Exited? || listing.returnCode != 0 || listing.stdout == "" {
      return [];
    }
    var lines := SplitLines(listing.stdout);
    sources := [];
    var i := 0;
    assert lines[..0] == [];
    while i < |lines|
      invariant 0 <= i <= |lines|
      invariant sources == Sources(lines[..i])
    {
      Seqs.FilterMapPrefix(SourceRow, lines, i);
      var line := lines[i];
      i := i + 1;
      if Contains(Lower(line), "monitor") {
        continue;
      }
      var parts := Split(line, '\t');
      if |parts| >= 2 {
        var sourceId := Strip(parts[1]);
        if sourceId != "" {
          sources := sources + [AudioSource(sourceId, sourceId, if |parts| > 2 then Some(Strip(parts[2])) else None)];
        }
      }
    }
    assert lines[..|lines|] == lines;
  }

  /** A listed source: id and name agree and are non-empty and stripped,
      and neither name nor description mentions "monitor" in any case. */
  predicate Clean(s: AudioSource)
  {
    && s.id == s.name && s.name != "" && IsStripped(s.name)
    && !Contains(Lower(s.name), "monitor")
    && (s.description.Some? ==> !Contains(Lower(s.description.value), "monitor"))
  }

  /** A stripped field of a line is in the line. */
  lemma FieldInLine(line: string, i: nat)
    requires i < |Split(line, '\t')|
    ensures Contains(Lower(line), Lower(Strip(Split(line, '\t')[i])))
  {
    var parts := Split(line, '\t');
    JoinContainsPart(parts, ['\t'], i);
    ContainsTransitive(line, parts[i], Strip(parts[i]));
    ContainsLower(line, Strip(parts[i]));
  }

  lemma SourceRowClean(line: string)
    ensures SourceRow(line).Some? ==> Clean(SourceRow(line).value)
  {
    if SourceRow(line).Some? {
      var parts := Split(line, '\t');
      var s := SourceRow(line).value;
      FieldInLine(line, 1);
      if Contains(Lower(s.name), "monitor") {
        ContainsTransitive(Lower(line), Lower(s.name), "monitor");
      }
      if |parts| > 2 {
        FieldInLine(line, 2);
        if Contains(Lower(s.description.value), "monitor") {
          ContainsTransitive(Lower(line), Lower(s.description.value), "monitor");
        }
      }
    }
  }

  /** Every listed source is clean: because whole lines are skipped, a
      source never has "monitor" in its name or its description. */
  lemma SourcesClean(lines: seq<string>)
    ensures forall k :: 0 <= k < |Sources(lines)| ==> Clean(Sources(lines)[k])
  {
    forall line | true
      ensures SourceRow(line).Some? ==> Clean(SourceRow(line).value)
    {
      SourceRowClean(line);
    }
    Seqs.FilterMapAll(SourceRow, Clean, lines);
  }

  /** A line of `pactl list short sources`: number, name, driver. */
  function SourceLine(n: nat, name: string, driver: string): string
  {
    ShowNat(n) + "\t" + name + "\t" + driver
  }

  /** A field pactl prints between tabs: stripped, with no tab. */
  predicate Field(s: string)
  {
    IsStripped(s) && '\t' !in s
  }

  /** Round trip: a printed line without "monitor" gives back its name,
      as id and name, and its third field as description. */
  lemma SourceRowOfLine(n: nat, name: string, driver: string)
    requires name != "" && Field(name) && Field(driver)
    requires !Contains(Lower(SourceLine(n, name, driver)), "monitor")
    ensures SourceRow(SourceLine(n, name, driver)) == Some(AudioSource(name, name, Some(driver)))
  {
    var digits := ShowNat(n);
    assert '\t' !in digits by {
      assert forall c :: c in digits ==> IsDigit(c);
    }
    assert SourceLine(n, name, driver) == digits + ['\t'] + (name + ['\t'] + driver);
    SplitAtFirst(digits, '\t', name + ['\t'] + driver);
    SplitAtFirst(name, '\t', driver);
    SplitNoSeparator(driver, '\t');
    StripStripped(name);
    StripStripped(driver);
  }

  // ---------------------------------------------------------------------
  // AudioSourceRepository.get_default_source

  /** `get_default_source`: the stripped output on exit code 0 (even when
      it is empty), and nothing on any other exit, timeout or error. */
  function DefaultSourceOf(outcome: Outcome): (r: Option<string>)
    ensures r.Some? <==> outcome.Exited? && outcome.returnCode == 0
    ensures r.Some? ==> IsStripped(r.value) && Contains(outcome.stdout, r.value)
  {
    if outcome.Exited? && outcome.returnCode == 0 then Some(Strip(outcome.stdout)) else None
  }

  // ---------------------------------------------------------------------
  // SourceOutputRepository.list_active_outputs

  /** The capture stream a line stands for: the first field, stripped,
      must be all digits; the second field, stripped, is the source name
      ("" when missing), the third, stripped, the application. */
  function OutputRow(line: string): Option<SourceOutput>
  {
    var parts := Split(line, '\t');
    var streamId := Strip(parts[0]);
    if IsDigits(streamId) then
      Some(SourceOutput(DecimalValue(streamId),
                        if |parts| > 1 then Strip(parts[1]) else "",
                        if |parts| > 2 then Some(Strip(parts[2])) else None))
    else None
  }

  function Outputs(lines: seq<string>): seq<SourceOutput>
  {
    Seqs.FilterMap(OutputRow, lines)
  }

  /** What `list_active_outputs` returns for the outcome of
      `pactl list short source-outputs`. */
  function OutputsOf(listing: Outcome): seq<SourceOutput>
  {
    match ListingText(listing)
    case None => []
    case Some(text) => Outputs(SplitLines(text))
  }

  /** The body of the `list_active_outputs` loop for one line. */
  method ParseOutputLine(line: string) returns (row: Option<SourceOutput>)
    ensures row == OutputRow(line)
  {
    var parts := Split(line, '\t');
    var streamId := Strip(parts[0]);
    if IsDigits(streamId) {
      var sourceName := if |parts| > 1 then Strip(parts[1]) else "";
      var appName := if |parts| > 2 then Some(Strip(parts[2])) else None;
      return Some(SourceOutput(DecimalValue(streamId), sourceName, appName));
    }
    return None;
  }

  /** `SourceOutputRepository.list_active_outputs`. */
  method ListActiveOutputs(listing: Outcome) returns (outputs: seq<SourceOutput>)
    ensures outputs == OutputsOf(listing)
    ensures !(listing.Exited? && listing.returnCode == 0 && listing.stdout != "") ==> outputs == []
  {
    if !listing.Exited? || listing.returnCode != 0 || listing.stdout == "" {
      return [];
    }
    var lines := SplitLines(listing.stdout);
    outputs := [];
    var i := 0;
    assert lines[..0] == [];
    while i < |lines|
      invariant 0 <= i <= |lines|
      invariant outputs == Outputs(lines[..i])
    {
      Seqs.FilterMapPrefix(OutputRow, lines, i);
      var row := ParseOutputLine(lines[i]);
      if row.Some? {
        outputs := outputs + [row.value];
      }
      i := i + 1;
    }
    assert lines[..|lines|] == lines;
  }

  /** A line stands for a stream exactly when the `move_streams_to_source`
      loop would move it, and the stream's id is the number it would move. */
  lemma OutputRowIsStream(line: string)
    ensures OutputRow(line).Some? <==> PactlStreams.StreamIdOf(line).Some?
    ensures OutputRow(line).Some? ==>
              OutputRow(line).value.id == DecimalValue(PactlStreams.StreamIdOf(line).value)
  {
  }

  /** The active outputs are, one for one and in order, the streams the
      clients' move loop selects from the same listing. */
  lemma OutputsAreStreams(lines: seq<string>)
    ensures |Outputs(lines)| == |PactlStreams.StreamIds(lines)|
    ensures forall k :: 0 <= k < |Outputs(lines)| ==>
              IsDigits(PactlStreams.StreamIds(lines)[k])
              && Outputs(lines)[k].id == DecimalValue(PactlStreams.StreamIds(lines)[k])
  {
    forall line: string
      ensures OutputRow(line).Some? <==> PactlStreams.StreamIdOf(line).Some?
      ensures OutputRow(line).Some? ==>
                OutputRow(line).value.id == DecimalValue(PactlStreams.StreamIdOf(line).value)
    {
      OutputRowIsStream(line);
    }
    var sameId := (o: SourceOutput, id: string) => IsDigits(id) && o.id == DecimalValue(id);
    Seqs.FilterMapParallel(OutputRow, PactlStreams.StreamIdOf, sameId, lines);
  }

  /** A line of `pactl list short source-outputs`: stream number, source
      name, application. */
  function OutputLine(n: nat, sourceName: string, app: string): string
  {
    ShowNat(n) + "\t" + sourceName + "\t" + app
  }

  /** Round trip: a printed stream line gives back its number, source name
      and application. */
  lemma OutputRowOfLine(n: nat, sourceName: string, app: string)
    requires Field(sourceName) && Field(app)
    ensures OutputRow(OutputLine(n, sourceName, app)) == Some(SourceOutput(n, sourceName, Some(app)))
  {
    var digits := ShowNat(n);
    assert '\t' !in digits by {
      assert forall c :: c in digits ==> IsDigit(c);
    }
    assert OutputLine(n, sourceName, app) == digits + ['\t'] + (sourceName + ['\t'] + app);
    SplitAtFirst(digits, '\t', sourceName + ['\t'] + app);
    SplitAtFirst(sourceName, '\t', app);
    SplitNoSeparator(app, '\t');
    assert IsStripped(digits) by {
      assert !IsSpace(digits[0]) && !IsSpace(digits[|digits| - 1]);
    }
    StripStripped(digits);
    StripStripped(sourceName);
    StripStripped(app);
    DecimalValueOfShowNat(n);
  }
}
