/** `MacOSAudioClient` (src/infrastructure/macos_audio_service.py): the
    macOS audio client drives the `SwitchAudioSource` tool. Building the
    client looks the tool up in two fixed places and then on the PATH and
    fails when none is usable; listing takes every non-blank line of the
    tool's output as a source, indexed by its line; switching is strict and
    turns every failure into an error; moving streams only asks the routing
    daemon, when virtual routing is on. The client's fields are set once, by
    the constructor, so the client is a value here. */
module MacOSClient {
  import opened Common
  import opened Text
  import opened Process
  import Seqs
  import opened SrcDomain

  const UsrLocalPath: string := "/usr/local/bin/SwitchAudioSource"
  const HomebrewPath: string := "/opt/homebrew/bin/SwitchAudioSource"

  const NotFoundMessage: string := "SwitchAudioSource not found. Install via: brew install switchaudio-osx"

  /** The client: the tool's path, whether virtual routing was asked for,
      and whether a routing daemon was created. */
  datatype Client = Client(path: string, useVirtualRouting: bool, hasDaemon: bool)

  // ---------------------------------------------------------------------
  // Construction

  /** The places `_find_switch_audio_source` tries, in order; the last one
      is what `shutil.which("SwitchAudioSource")` found on the PATH. */
  function Candidates(onPath: Option<string>): seq<Option<string>>
  {
    [Some(UsrLocalPath), Some(HomebrewPath), onPath]
  }

  /** A candidate the loop accepts: present, non-empty, and accepted by
      `shutil.which`, whose answers are the set `executable`. */
  predicate Usable(c: Option<string>, executable: set<string>)
  {
    c.Some? && c.value != "" && c.value in executable
  }

  /** The first usable candidate. */
  function FirstUsable(candidates: seq<Option<string>>, executable: set<string>): Option<string>
  {
    if candidates == [] then None
    else if Usable(candidates[0], executable) then candidates[0]
    else FirstUsable(candidates[1..], executable)
  }

  /** `FirstUsable` finds nothing exactly when no candidate is usable, and
      otherwise the earliest usable one. */
  lemma {:induction false} FirstUsableSpec(candidates: seq<Option<string>>, executable: set<string>)
    ensures FirstUsable(candidates, executable).None?
        <==> forall i :: 0 <= i < |candidates| ==> !Usable(candidates[i], executable)
    ensures FirstUsable(candidates, executable).Some? ==>
              exists i :: 0 <= i < |candidates| && candidates[i] == FirstUsable(candidates, executable)
                          && Usable(candidates[i], executable)
                          && forall j :: 0 <= j < i ==> !Usable(candidates[j], executable)
  {
    if candidates != [] && !Usable(candidates[0], executable) {
      var rest := candidates[1..];
      FirstUsableSpec(rest, executable);
      if FirstUsable(rest, executable).Some? {
        var i :| 0 <= i < |rest| && rest[i] == FirstUsable(rest, executable)
                 && Usable(rest[i], executable)
                 && forall j :: 0 <= j < i ==> !Usable(rest[j], executable);
        assert candidates[i + 1] == rest[i];
        forall j | 0 <= j < i + 1
          ensures !Usable(candidates[j], executable)
        {
          if j > 0 {
            assert candidates[j] == rest[j - 1];
          }
        }
      } else {
        forall i | 0 <= i < |candidates|
          ensures !Usable(candidates[i], executable)
        {
          if i > 0 {
            assert candidates[i] == rest[i - 1];
          }
        }
      }
    }
  }

  /** `_find_switch_audio_source`: the first candidate that is usable. */
  method FindSwitchAudioSource(onPath: Option<string>, executable: set<string>) returns (path: Option<string>)
    ensures path == FirstUsable(Candidates(onPath), executable)
  {
    var paths := Candidates(onPath);
    var i := 0;
    while i < |paths|
      invariant 0 <= i <= |paths|
      invariant FirstUsable(paths, executable) == FirstUsable(paths[i..], executable)
    {
      assert paths[i..][1..] == paths[i + 1..];
      var p := paths[i];
      if p.Some? && p.value != "" && p.value in executable {
        return p;
      }
      i := i + 1;
    }
    return None;
  }

  /** The fixed places win over the PATH, the first over the second. */
  lemma FindPrefersFixedPlaces(onPath: Option<string>, executable: set<string>)
    ensures UsrLocalPath in executable ==> FirstUsable(Candidates(onPath), executable) == Some(UsrLocalPath)
    ensures UsrLocalPath !in executable && HomebrewPath in executable ==>
              FirstUsable(Candidates(onPath), executable) == Some(HomebrewPath)
    ensures UsrLocalPath !in executable && HomebrewPath !in executable ==>
              FirstUsable(Candidates(onPath), executable) == if Usable(onPath, executable) then onPath else None
  {
    var c := Candidates(onPath);
    assert c[1..] == [Some(HomebrewPath), onPath];
    assert c[1..][1..] == [onPath];
    assert c[1..][1..][1..] == [];
    assert FirstUsable([onPath], executable) == if Usable(onPath, executable) then onPath else None;
  }

  /** The constructor: a client with the tool found, or the
      `RuntimeError` when it is nowhere; the daemon exists exactly when
      virtual routing is on. */
  method New(onPath: Option<string>, executable: set<string>, useVirtualRouting: bool)
    returns (r: Result<Client, string>)
    ensures FirstUsable(Candidates(onPath), executable).None? ==> r == Err(NotFoundMessage)
    ensures FirstUsable(Candidates(onPath), executable).Some? ==>
              r == Ok(Client(FirstUsable(Candidates(onPath), executable).value, useVirtualRouting, useVirtualRouting))
  {
    var path := FindSwitchAudioSource(onPath, executable);
    if path.None? {
      return Err(NotFoundMessage);
    }
    r := Ok(Client(path.value, useVirtualRouting, useVirtualRouting));
  }

  /** Building a client fails exactly when no candidate is usable, and a
      built client's tool is a usable candidate. */
  lemma NewSucceedsWhenFound(onPath: Option<string>, executable: set<string>)
    ensures FirstUsable(Candidates(onPath), executable).None?
        <==> forall i :: 0 <= i < 3 ==> !Usable(Candidates(onPath)[i], executable)
    ensures FirstUsable(Candidates(onPath), executable).Some? ==>
              FirstUsable(Candidates(onPath), executable).value in executable
  {
    FirstUsableSpec(Candidates(onPath), executable);
  }

  // ---------------------------------------------------------------------
  // Listing

  function ListArgv(c: Client): Argv
  {
    [c.path, "-a", "-t", "input"]
  }

  /** The source line `idx` stands for: its stripped text, unless blank. */
  function LineSource(idx: nat, line: string): (r: Option<AudioSource>)
    ensures r.Some? ==> r.value.index == idx && r.value.name != "" && IsStripped(r.value.name)
    ensures r.None? <==> Strip(line) == ""
  {
    var sourceName := Strip(line);
    if sourceName != "" then Some(AudioSource(sourceName, idx)) else None
  }

  function Rows(lines: seq<string>): seq<AudioSource>
  {
    Seqs.FilterMapIndexed(LineSource, lines)
  }

  /** What `list_sources` returns for the outcome of the listing command:
      no monitor filtering takes place. */
  function SourcesOf(listing: Outcome): AudioSourceList
  {
    match ListingText(listing)
    case None => AudioSourceList([])
    case Some(text) => AudioSourceList(Rows(SplitLines(text)))
  }

  /** `list_sources`, given the outcome of `SwitchAudioSource -a -t input`. */
  method ListSources(c: Client, listing: Outcome) returns (r: AudioSourceList)
    ensures r == SourcesOf(listing)
    ensures !(listing.Exited? && listing.returnCode == 0 && listing.stdout != "") ==> r.sources == []
  {
    if !listing.Exited? || listing.returnCode != 0 || listing.stdout == "" {
      return AudioSourceList([]);
    }
    var lines := SplitLines(listing.stdout);
    var sources: seq<AudioSource> := [];
    var idx := 0;
    assert lines[..0] == [];
    while idx < |lines|
      invariant 0 <= idx <= |lines|
      invariant sources == Rows(lines[..idx])
    {
      Seqs.FilterMapIndexedPrefix(LineSource, lines, idx);
      var sourceName := Strip(lines[idx]);
      if sourceName != "" {
        sources := sources + [AudioSource(sourceName, idx)];
      }
      idx := idx + 1;
    }
    assert lines[..|lines|] == lines;
    r := AudioSourceList(sources);
  }

  function IndexOf(s: AudioSource): int
  {
    s.index
  }

  /** Each source is its own line's stripped text and is indexed by that
      line's position, so blank lines still use up an index; the indices
      strictly increase, and every non-blank line gives a source. */
  lemma RowsFromLines(lines: seq<string>)
    ensures forall k :: 0 <= k < |Rows(lines)| ==> 0 <= Rows(lines)[k].index < |lines|
    ensures forall k :: 0 <= k < |Rows(lines)| ==>
              Rows(lines)[k] == AudioSource(Strip(lines[Rows(lines)[k].index]), Rows(lines)[k].index)
    ensures forall j, k :: 0 <= j < k < |Rows(lines)| ==> Rows(lines)[j].index < Rows(lines)[k].index
    ensures forall i :: 0 <= i < |lines| && Strip(lines[i]) != "" ==> AudioSource(Strip(lines[i]), i) in Rows(lines)
  {
    var r := Rows(lines);
    Seqs.FilterMapIndexedSources(LineSource, IndexOf, lines);
    Seqs.FilterMapIndexedIncreasing(LineSource, IndexOf, lines);
    Seqs.FilterMapIndexedComplete(LineSource, lines);
    forall k | 0 <= k < |r|
      ensures r[k] == AudioSource(Strip(lines[r[k].index]), r[k].index)
    {
      var i := r[k].index;
      assert LineSource(i, lines[i]) == Some(r[k]);
    }
    forall i | 0 <= i < |lines| && Strip(lines[i]) != ""
      ensures AudioSource(Strip(lines[i]), i) in r
    {
      assert LineSource(i, lines[i]) == Some(AudioSource(Strip(lines[i]), i));
    }
  }

  /** A name the tool prints on a line of its own. */
  predicate PrintableName(name: string)
  {
    name != "" && IsStripped(name) && '\n' !in name
  }

  function Numbered(names: seq<string>): (r: seq<AudioSource>)
    ensures |r| == |names| && forall k :: 0 <= k < |r| ==> r[k] == AudioSource(names[k], k)
  {
    seq(|names|, k requires 0 <= k < |names| => AudioSource(names[k], k))
  }

  /** Every printable name is a source at its own position. */
  lemma RowsOfNames(names: seq<string>)
    requires forall k :: 0 <= k < |names| ==> PrintableName(names[k])
    ensures Rows(names) == Numbered(names)
  {
    forall i | 0 <= i < |names|
      ensures LineSource(i, names[i]) == Some(AudioSource(names[i], i))
    {
      StripStripped(names[i]);
    }
    Seqs.FilterMapIndexedTotal(LineSource, names);
  }

  /** Round trip: the tool's output for `names` lists exactly those
      names, in order, each indexed by its line; names mentioning
      "monitor" are kept too. */
  lemma ListNames(names: seq<string>, stderr: string)
    requires forall k :: 0 <= k < |names| ==> PrintableName(names[k])
    ensures SourcesOf(Exited(0, Unlines(names), stderr)).sources == Numbered(names)
  {
    if names == [] {
      assert Unlines(names) == "";
    } else {
      assert SplitLines(Unlines(names)) == names by {
        assert forall l :: l in names ==> '\n' !in l;
        SplitLinesOfUnlines(names);
      }
      UnlinesEndsWithBreak(names);
      RowsOfNames(names);
    }
  }

  // ---------------------------------------------------------------------
  // Switching

  function SetDefaultArgv(c: Client, name: string): Argv
  {
    [c.path, "-s", name, "-t", "input"]
  }

  const FailedPrefix: string := "Failed to switch audio source: "
  const TimeoutMessage: string := "Timeout while switching audio source"
  const ErrorPrefix: string := "Error switching audio source: "

  /** `set_default_source`: one call of the tool; a non-zero exit raises
      with the stripped stderr, or "Unknown error" when that is blank; a
      timeout and any other exception raise too. */
  function SetDefaultSource(c: Client, name: string, outcome: Outcome): (r: Invocation)
    ensures r.calls == [SetDefaultArgv(c, name)]
    ensures r.result.Returns? <==> outcome.Exited? && outcome.returnCode == 0
  {
    var result :=
      match outcome
      case Exited(code, _, stderr) =>
        if code == 0 then Returns
        else Throws(FailedPrefix + (if Strip(stderr) != "" then Strip(stderr) else "Unknown error"))
      case TimedOut => Throws(TimeoutMessage)
      case Raised(message) => Throws(ErrorPrefix + message);
    Invocation([SetDefaultArgv(c, name)], result)
  }

  /** The error message says which failure it was: a non-zero exit starts
      with "Failed to switch audio source" and never has an empty reason,
      a timeout has its fixed message, any other exception is wrapped. */
  lemma SetDefaultSourceMessages(c: Client, name: string, outcome: Outcome)
    ensures var r := SetDefaultSource(c, name, outcome).result;
            outcome.Exited? && outcome.returnCode != 0 ==>
              r.Throws? && FailedPrefix <= r.message && |r.message| > |FailedPrefix|
    ensures outcome.TimedOut? ==> SetDefaultSource(c, name, outcome).result == Throws(TimeoutMessage)
    ensures outcome.Raised? ==> SetDefaultSource(c, name, outcome).result == Throws(ErrorPrefix + outcome.message)
  {
  }

  // ---------------------------------------------------------------------
  // Moving streams

  /** `move_streams_to_source`: the names handed to the routing daemon —
      one, when virtual routing is on and a daemon exists, and none
      otherwise. It never raises. */
  function MoveStreamsToSource(c: Client, name: string): (routed: seq<string>)
    ensures routed == [] || routed == [name]
    ensures routed != [] <==> c.useVirtualRouting && c.hasDaemon
  {
    if c.useVirtualRouting && c.hasDaemon then [name] else []
  }
}
