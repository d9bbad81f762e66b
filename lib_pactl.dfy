/** `PactlClient.list_sources` of the `lib/` tree
    (lib/infrastructure/audio_service.py): the output of `pactl list sources`
    is read as blocks that start with a `Source #N` header, whose
    `\tName: ` and `\tDescription: ` lines fill in the pending source. A
    pending source with a non-empty name is emitted when the next header
    comes and once more after the last line; monitors are then dropped. A
    failed, empty, timed-out or raising listing gives the empty list.
    `set_default_source` and `move_streams_to_source` are those of module
    PactlStreams. */
module LibPactl {
  import opened Common
  import opened Text
  import opened Process
  import opened LibDomain

  const ListArgv: Argv := ["pactl", "list", "sources"]

  const SourceHeader: string := "Source #"
  const NameTag: string := "\tName: "
  const DescriptionTag: string := "\tDescription: "

  /** The `current_source` dictionary: each key present or absent. */
  datatype Block = Block(index: Option<nat>, name: Option<string>, description: Option<string>)

  /** The loop's state: the sources emitted so far and the pending block. */
  datatype ScanState = ScanState(sources: seq<AudioSource>, current: Block)

  const NoBlock: Block := Block(None, None, None)

  /** Emit the pending block when it has a non-empty name; a missing index
      is the number of sources so far and a missing description is "". */
  function Flush(sources: seq<AudioSource>, b: Block): seq<AudioSource>
  {
    if b.name.Some? && b.name.value != "" then
      sources + [AudioSource(b.name.value, b.index.GetOr(|sources|), b.description.GetOr(""))]
    else sources
  }

  /** One line of the listing, right-stripped first: a header emits the
      pending block and opens a new one at the current count; a name or
      description line sets that key to the stripped rest of the line;
      every other line is ignored. */
  function ScanLine(st: ScanState, raw: string): ScanState
  {
    var line := RStrip(raw);
    if SourceHeader <= line then
      var emitted := Flush(st.sources, st.current);
      ScanState(emitted, Block(Some(|emitted|), None, None))
    else if NameTag <= line then
      ScanState(st.sources, st.current.(name := Some(Strip(line[|NameTag|..]))))
    else if DescriptionTag <= line then
      ScanState(st.sources, st.current.(description := Some(Strip(line[|DescriptionTag|..]))))
    else st
  }

  /** The state after the lines `lines`. */
  function Scan(lines: seq<string>): ScanState
  {
    if lines == [] then ScanState([], NoBlock)
    else ScanLine(Scan(lines[..|lines| - 1]), lines[|lines| - 1])
  }

  lemma ScanPrefix(lines: seq<string>, i: nat)
    requires i < |lines|
    ensures Scan(lines[..i + 1]) == ScanLine(Scan(lines[..i]), lines[i])
  {
    assert lines[..i + 1][..i] == lines[..i];
  }

  /** The sources of a listing's text, before monitors are dropped: the
      scan of its lines with the final pending block emitted. */
  function Parse(text: string): seq<AudioSource>
  {
    var st := Scan(SplitLines(text));
    Flush(st.sources, st.current)
  }

  /** What `list_sources` returns for the outcome of `pactl list sources`. */
  function SourcesOf(listing: Outcome): (r: AudioSourceList)
  {
    match ListingText(listing)
    case None => AudioSourceList([])
    case Some(text) => FilterMonitors(AudioSourceList(Parse(text)))
  }

  /** `list_sources`, given the outcome of `pactl list sources`. */
  method ListSources(listing: Outcome) returns (r: AudioSourceList)
    ensures r == SourcesOf(listing)
    ensures !(listing.Exited? && listing.returnCode == 0 && listing.stdout != "") ==> r.sources == []
    ensures forall k :: 0 <= k < |r.sources| ==> !IsMonitor(r.sources[k])
  {
    if !listing.Exited? || listing.returnCode != 0 || listing.stdout == "" {
      return AudioSourceList([]);
    }
    var lines := SplitLines(listing.stdout);
    var sources: seq<AudioSource> := [];
    var current := NoBlock;
    var i := 0;
    assert lines[..0] == [];
    while i < |lines|
      invariant 0 <= i <= |lines|
      invariant ScanState(sources, current) == Scan(lines[..i])
    {
      ScanPrefix(lines, i);
      var line := RStrip(lines[i]);
      if SourceHeader <= line {
        if current.name.Some? && current.name.value != "" {
          sources := sources + [AudioSource(current.name.value, current.index.GetOr(|sources|),
                                            current.description.GetOr(""))];
        }
        current := Block(Some(|sources|), None, None);
      } else if NameTag <= line {
        current := current.(name := Some(Strip(line[|NameTag|..])));
      } else if DescriptionTag <= line {
        current := current.(description := Some(Strip(line[|DescriptionTag|..])));
      }
      i := i + 1;
    }
    assert lines[..|lines|] == lines;
    if current.name.Some? && current.name.value != "" {
      sources := sources + [AudioSource(current.name.value, current.index.GetOr(|sources|),
                                        current.description.GetOr(""))];
    }
    r := FilterMonitors(AudioSourceList(sources));
  }

  /** What every emitted source satisfies at position `k`: its index is
      `k`, the number of sources emitted before it, and its name is
      non-empty and stripped, as is its description. */
  predicate WellFormedAt(sources: seq<AudioSource>, k: int)
    requires 0 <= k < |sources|
  {
    && sources[k].index == k
    && sources[k].name != ""
    && IsStripped(sources[k].name)
    && IsStripped(sources[k].description)
  }

  /** The pending block's index, when set, is the number of sources
      emitted so far, and its values are stripped. */
  predicate PendingWellFormed(st: ScanState)
  {
    && (st.current.index.Some? ==> st.current.index.value == |st.sources|)
    && (st.current.name.Some? ==> IsStripped(st.current.name.value))
    && (st.current.description.Some? ==> IsStripped(st.current.description.value))
  }

  /** Emitting a well-formed pending block keeps the sources well formed. */
  lemma FlushWellFormed(st: ScanState)
    requires forall k :: 0 <= k < |st.sources| ==> WellFormedAt(st.sources, k)
    requires PendingWellFormed(st)
    ensures var r := Flush(st.sources, st.current);
            forall k :: 0 <= k < |r| ==> WellFormedAt(r, k)
  {
    var r := Flush(st.sources, st.current);
    forall k | 0 <= k < |r|
      ensures WellFormedAt(r, k)
    {
      if k < |st.sources| {
        assert r[k] == st.sources[k];
        assert WellFormedAt(st.sources, k);
      }
    }
  }

  /** Every line keeps the scan well formed. */
  lemma {:induction false} ScanWellFormed(lines: seq<string>)
    ensures forall k :: 0 <= k < |Scan(lines).sources| ==> WellFormedAt(Scan(lines).sources, k)
    ensures PendingWellFormed(Scan(lines))
  {
    if lines != [] {
      var i := |lines| - 1;
      ScanWellFormed(lines[..i]);
      var st := Scan(lines[..i]);
      FlushWellFormed(st);
    }
  }

  /** Every source of a listing sits at the position given by its index,
      which is the count of sources already emitted when its header was
      read, and has a non-empty, stripped name and a stripped description. */
  lemma ParseWellFormed(text: string)
    ensures forall k :: 0 <= k < |Parse(text)| ==> WellFormedAt(Parse(text), k)
  {
    var lines := SplitLines(text);
    ScanWellFormed(lines);
    FlushWellFormed(Scan(lines));
  }

  /** A block that never received a non-empty name is dropped. */
  lemma FlushDropsNameless(sources: seq<AudioSource>, b: Block)
    requires b.name.None? || b.name.value == ""
    ensures Flush(sources, b) == sources
  {
  }

  /** A line is a name line when, right-stripped, it starts with the tag. */
  predicate IsNameLine(raw: string)
  {
    NameTag <= RStrip(raw)
  }

  /** Of two name lines in the same block, the later one wins. */
  lemma LaterNameWins(st: ScanState, first: string, second: string)
    requires IsNameLine(first) && IsNameLine(second)
    ensures ScanLine(ScanLine(st, first), second) == ScanLine(st, second)
    ensures ScanLine(st, second).current.name == Some(Strip(RStrip(second)[|NameTag|..]))
  {
    assert !(SourceHeader <= RStrip(first)) by {
      assert RStrip(first)[0] == NameTag[0];
    }
    assert !(SourceHeader <= RStrip(second)) by {
      assert RStrip(second)[0] == NameTag[0];
    }
  }

  /** The listing always counts as failed when pactl fails, prints
      nothing, times out or raises: the result is empty, never an error. */
  lemma SourcesOfFailOpen(listing: Outcome)
    requires !listing.Exited? || listing.returnCode != 0 || listing.stdout == ""
    ensures SourcesOf(listing).sources == []
  {
  }

  /** A source as `pactl list sources` reports it. */
  datatype Device = Device(name: string, description: string)

  /** A name and description pactl can print on a line of their own:
      a non-empty stripped name and a stripped description, neither
      holding a line break. */
  predicate Printable(d: Device)
  {
    && d.name != "" && IsStripped(d.name) && IsStripped(d.description)
    && '\n' !in d.name && '\n' !in d.description
  }

  /** The block pactl prints for the device at position `k`. */
  function BlockLines(k: nat, d: Device): seq<string>
  {
    [SourceHeader + ShowNat(k), NameTag + d.name, DescriptionTag + d.description]
  }

  /** The lines of a listing of `devices`, block after block. */
  function Report(devices: seq<Device>): seq<string>
  {
    if devices == [] then []
    else Report(devices[..|devices| - 1]) + BlockLines(|devices| - 1, devices[|devices| - 1])
  }

  /** The sources the listing of `devices` stands for. */
  function Expected(devices: seq<Device>): (r: seq<AudioSource>)
    ensures |r| == |devices|
    ensures forall k :: 0 <= k < |r| ==> r[k] == AudioSource(devices[k].name, k, devices[k].description)
  {
    seq(|devices|, k requires 0 <= k < |devices| => AudioSource(devices[k].name, k, devices[k].description))
  }

  /** The pending block after the block of `d`: an empty description
      right-strips to "\tDescription:" and so is never set. */
  function PendingOf(k: nat, d: Device): Block
  {
    Block(Some(k), Some(d.name), if d.description == "" then None else Some(d.description))
  }

  lemma ScanHeader(st: ScanState, k: nat)
    ensures var e := Flush(st.sources, st.current);
            ScanLine(st, SourceHeader + ShowNat(k)) == ScanState(e, Block(Some(|e|), None, None))
  {
    var line := SourceHeader + ShowNat(k);
    assert IsDigit(line[|line| - 1]);
    RStripKeeps(line);
    assert SourceHeader <= line;
  }

  /** A line that right-strips to itself and starts with a tab is no
      header. */
  lemma TabLine(raw: string)
    requires raw != [] && raw[0] == '\t' && !IsSpace(raw[|raw| - 1])
    ensures RStrip(raw) == raw
    ensures !(SourceHeader <= raw)
  {
    RStripKeeps(raw);
    assert raw[0] != SourceHeader[0];
  }

  lemma ScanName(st: ScanState, d: Device)
    requires Printable(d)
    ensures ScanLine(st, NameTag + d.name) == ScanState(st.sources, st.current.(name := Some(d.name)))
  {
    var line := NameTag + d.name;
    assert line[|line| - 1] == d.name[|d.name| - 1];
    TabLine(line);
    assert NameTag <= line;
    assert line[|NameTag|..] == d.name;
    StripStripped(d.name);
  }

  lemma ScanDescription(st: ScanState, d: Device)
    requires Printable(d)
    ensures ScanLine(st, DescriptionTag + d.description)
         == if d.description == "" then st
            else ScanState(st.sources, st.current.(description := Some(d.description)))
  {
    var line := DescriptionTag + d.description;
    if d.description == "" {
      var cut := "\tDescription:";
      assert line == cut + " ";
      assert line[..|line| - 1] == cut;
      TabLine(cut);
      assert RStrip(line) == cut;
      assert !(NameTag <= cut) by { assert cut[1] != NameTag[1]; }
      assert !(DescriptionTag <= cut);
    } else {
      assert line[|line| - 1] == d.description[|d.description| - 1];
      TabLine(line);
      assert !(NameTag <= line) by { assert line[1] != NameTag[1]; }
      assert DescriptionTag <= line;
      assert line[|DescriptionTag|..] == d.description;
      StripStripped(d.description);
    }
  }

  lemma ScanBlock(lines: seq<string>, k: nat, d: Device)
    requires Printable(d)
    ensures var st := Scan(lines);
            var e := Flush(st.sources, st.current);
            Scan(lines + BlockLines(k, d)) == ScanState(e, PendingOf(|e|, d))
  {
    var b := BlockLines(k, d);
    var all := lines + b;
    var n := |lines|;
    assert all[..n] == lines;
    ScanPrefix(all, n);
    ScanPrefix(all, n + 1);
    ScanPrefix(all, n + 2);
    assert all[..n + 3] == all;
    var st := Scan(lines);
    var e := Flush(st.sources, st.current);
    ScanHeader(st, k);
    var s1 := ScanState(e, Block(Some(|e|), None, None));
    ScanName(s1, d);
    ScanDescription(ScanState(e, Block(Some(|e|), Some(d.name), None)), d);
  }

  /** After the blocks of `devices`, the sources of all but the last are
      emitted and the last one is pending. */
  lemma {:induction false} ScanReport(devices: seq<Device>)
    requires devices != []
    requires forall k :: 0 <= k < |devices| ==> Printable(devices[k])
    ensures Scan(Report(devices))
         == ScanState(Expected(devices[..|devices| - 1]), PendingOf(|devices| - 1, devices[|devices| - 1]))
  {
    var n := |devices| - 1;
    var init := devices[..n];
    var d := devices[n];
    ScanBlock(Report(init), n, d);
    if init == [] {
      assert Scan(Report(init)) == ScanState([], NoBlock);
    } else {
      ScanReport(init);
      assert init[..n - 1] == devices[..n - 1];
      FlushPending(init);
    }
  }

  lemma {:induction false} ReportLines(devices: seq<Device>)
    requires forall k :: 0 <= k < |devices| ==> Printable(devices[k])
    ensures forall i :: 0 <= i < |Report(devices)| ==> '\n' !in Report(devices)[i]
  {
    if devices != [] {
      var n := |devices| - 1;
      var init := Report(devices[..n]);
      ReportLines(devices[..n]);
      var b := BlockLines(n, devices[n]);
      assert '\n' !in b[0] by {
        assert forall c :: c in ShowNat(n) ==> IsDigit(c);
      }
      assert Report(devices) == init + b;
      forall i | 0 <= i < |init + b|
        ensures '\n' !in (init + b)[i]
      {
        if i >= |init| {
          assert (init + b)[i] == b[i - |init|];
        }
      }
    }
  }

  /** Emitting the pending last device completes the expected sources. */
  lemma FlushPending(devices: seq<Device>)
    requires devices != [] && devices[|devices| - 1].name != ""
    ensures var n := |devices| - 1;
            Flush(Expected(devices[..n]), PendingOf(n, devices[n])) == Expected(devices)
  {
    var n := |devices| - 1;
    var e := Flush(Expected(devices[..n]), PendingOf(n, devices[n]));
    assert |e| == |devices|;
    forall k | 0 <= k < |e|
      ensures e[k] == Expected(devices)[k]
    {
    }
  }

  /** The printed listing splits back into its lines. */
  lemma SplitReport(devices: seq<Device>)
    requires forall k :: 0 <= k < |devices| ==> Printable(devices[k])
    ensures SplitLines(Unlines(Report(devices))) == Report(devices)
  {
    var lines := Report(devices);
    ReportLines(devices);
    assert forall l :: l in lines ==> '\n' !in l;
    SplitLinesOfUnlines(lines);
  }

  /** The parse of a text is the flushed scan of its lines. */
  lemma ParseOfLines(text: string, lines: seq<string>)
    requires SplitLines(text) == lines
    ensures Parse(text) == Flush(Scan(lines).sources, Scan(lines).current)
  {
  }

  /** Round trip: the listing of any printable devices parses back to
      those devices, in order, each with its position as index. */
  lemma ParseReport(devices: seq<Device>)
    requires forall k :: 0 <= k < |devices| ==> Printable(devices[k])
    ensures Parse(Unlines(Report(devices))) == Expected(devices)
  {
    var lines := Report(devices);
    SplitReport(devices);
    ParseOfLines(Unlines(lines), lines);
    if devices == [] {
      assert Scan(lines) == ScanState([], NoBlock);
    } else {
      ScanReport(devices);
      FlushPending(devices);
    }
  }
}
