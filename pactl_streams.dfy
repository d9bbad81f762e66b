/** The two write operations of the pactl client, identical in
    lib/infrastructure/audio_service.py and src/infrastructure/audio_service.py:
    making a source the default input, and moving every active capture
    stream ("source output") onto it. Both are best effort: whatever the
    tool does, they return normally. */
module PactlStreams {
  import opened Common
  import opened Text
  import opened Process
  import Seqs

  // ---------------------------------------------------------------------
  // set_default_source

  /** `set_default_source(name)`: exactly one `pactl set-default-source`
      call, with the name as one argument whatever characters it holds, and
      the call returns normally for every outcome of the tool (a failure,
      a timeout or an exception is only logged). */
  function SetDefaultSource(name: string, outcome: Outcome): (r: Invocation)
    ensures r.result == Returns
    ensures |r.calls| == 1 && |r.calls[0]| == 3 && r.calls[0][2] == name
    ensures r.calls[0][..2] == ["pactl", "set-default-source"]
  {
    Invocation([["pactl", "set-default-source", name]], Returns)
  }

  // ---------------------------------------------------------------------
  // move_streams_to_source: which lines name a stream

  /** The listing call that comes first. */
  const ListOutputsArgv: Argv := ["pactl", "list", "short", "source-outputs"]

  /** One move call. */
  function MoveArgv(id: string, name: string): Argv
  {
    ["pactl", "move-source-output", id, name]
  }

  /** The stream id of a `list short source-outputs` line: its first
      tab-separated field, stripped, when that is all digits. */
  function StreamIdOf(line: string): (r: Option<string>)
    ensures r.Some? ==> IsDigits(r.value) && IsStripped(r.value)
  {
    var first := Strip(Split(line, '\t')[0]);
    if IsDigits(first) then Some(first) else None
  }

  /** The ids of the stream lines, in listing order. */
  function StreamIds(lines: seq<string>): (ids: seq<string>)
    ensures |ids| <= |lines|
  {
    Seqs.FilterMap(StreamIdOf, lines)
  }

  /** The ids are those of exactly the lines whose stripped first field is
      all digits, in listing order, and each is a string of digits. */
  lemma StreamIdsAsFilter(lines: seq<string>)
    ensures forall k :: 0 <= k < |Seqs.Filter(Seqs.Defined(StreamIdOf), lines)| ==>
              StreamIdOf(Seqs.Filter(Seqs.Defined(StreamIdOf), lines)[k]).Some?
    ensures StreamIds(lines) == Seqs.Values(StreamIdOf, Seqs.Filter(Seqs.Defined(StreamIdOf), lines))
    ensures forall k :: 0 <= k < |StreamIds(lines)| ==> IsDigits(StreamIds(lines)[k])
  {
    Seqs.FilterMapAsFilter(StreamIdOf, lines);
  }

  /** A line `"<n>\t<rest>"` names stream `n`. */
  lemma StreamIdOfRow(n: nat, rest: string)
    ensures StreamIdOf(ShowNat(n) + "\t" + rest) == Some(ShowNat(n))
  {
    var id := ShowNat(n);
    assert '\t' !in id by {
      forall k | 0 <= k < |id| ensures id[k] != '\t' {
        assert IsDigit(id[k]);
      }
    }
    SplitAtFirst(id, '\t', rest);
    assert ShowNat(n) + "\t" + rest == id + ['\t'] + rest;
    assert IsStripped(id) by {
      assert IsDigit(id[0]) && IsDigit(id[|id| - 1]);
    }
    StripStripped(id);
  }

  /** The rows `"<n_k>\t<rest_k>"` of a stream listing. */
  function Rows(ns: seq<nat>, rests: seq<string>): (rows: seq<string>)
    requires |ns| == |rests|
    ensures |rows| == |ns|
  {
    seq(|ns|, k requires 0 <= k < |ns| => ShowNat(ns[k]) + "\t" + rests[k])
  }

  /** A listing of rows `"<n_k>\t<rest_k>"` yields the ids `n_k`, in order. */
  lemma StreamIdsOfRows(ns: seq<nat>, rests: seq<string>)
    requires |ns| == |rests|
    ensures StreamIds(Rows(ns, rests)) == seq(|ns|, k requires 0 <= k < |ns| => ShowNat(ns[k]))
  {
    var ids := seq(|ns|, k requires 0 <= k < |ns| => ShowNat(ns[k]));
    RowIds(ns, rests);
    Seqs.FilterMapPointwise(StreamIdOf, Rows(ns, rests), ids);
  }

  /** Row `k` names stream `n_k`. */
  lemma RowIds(ns: seq<nat>, rests: seq<string>)
    requires |ns| == |rests|
    ensures forall k :: 0 <= k < |ns| ==> StreamIdOf(Rows(ns, rests)[k]) == Some(ShowNat(ns[k]))
  {
    forall k | 0 <= k < |ns| ensures StreamIdOf(Rows(ns, rests)[k]) == Some(ShowNat(ns[k])) {
      StreamIdOfRow(ns[k], rests[k]);
    }
  }

  // ---------------------------------------------------------------------
  // move_streams_to_source: the move loop

  /** The state of the move loop: the move calls issued so far, how many
      of them exited 0, and whether one of them timed out or raised, which
      escapes the loop and ends the operation. */
  datatype MoveState = MoveState(issued: seq<Argv>, moved: nat, aborted: bool)

  /** A move call that escapes the loop: `TimeoutExpired` or another
      exception. */
  predicate Aborts(o: Outcome)
  {
    o.TimedOut? || o.Raised?
  }

  predicate Succeeds(o: Outcome)
  {
    o.Exited? && o.returnCode == 0
  }

  /** How many of the first `n` move calls exited 0. */
  function CountSucceeded(reply: nat -> Outcome, n: nat): nat
  {
    if n == 0 then 0
    else CountSucceeded(reply, n - 1) + (if Succeeds(reply(n - 1)) then 1 else 0)
  }

  /** One stream line: issue its move unless the loop has already been left;
      `reply(k)` is what the k-th move call (from 0) gives back. */
  function MoveStep(st: MoveState, id: string, name: string, reply: nat -> Outcome): MoveState
  {
    if st.aborted then st
    else
      var o := reply(|st.issued|);
      var issued := st.issued + [MoveArgv(id, name)];
      if Aborts(o) then MoveState(issued, st.moved, true)
      else MoveState(issued, if Succeeds(o) then st.moved + 1 else st.moved, false)
  }

  /** The moves for the stream ids `ids`, in order. */
  function MoveRun(ids: seq<string>, name: string, reply: nat -> Outcome): MoveState
  {
    if ids == [] then MoveState([], 0, false)
    else MoveStep(MoveRun(ids[..|ids| - 1], name, reply), ids[|ids| - 1], name, reply)
  }

  /** What the move loop does: one move call for each id, in order, up to
      and including the first call that times out or raises; a move that
      merely exits non-zero does not stop the later ones; `moved` counts the
      calls that exited 0. */
  lemma {:induction false} MoveRunSpec(ids: seq<string>, name: string, reply: nat -> Outcome)
    ensures var st := MoveRun(ids, name, reply);
      && |st.issued| <= |ids|
      && (forall k :: 0 <= k < |st.issued| ==> st.issued[k] == MoveArgv(ids[k], name))
      && (!st.aborted ==> |st.issued| == |ids| && forall k :: 0 <= k < |ids| ==> !Aborts(reply(k)))
      && (st.aborted ==> 0 < |st.issued| && Aborts(reply(|st.issued| - 1))
                         && forall k :: 0 <= k < |st.issued| - 1 ==> !Aborts(reply(k)))
      && st.moved == CountSucceeded(reply, |st.issued|)
  {
    if ids != [] {
      var init := ids[..|ids| - 1];
      MoveRunSpec(init, name, reply);
      assert forall k :: 0 <= k < |init| ==> init[k] == ids[k];
    }
  }

  /** One more stream id is one more step of the loop. */
  lemma MoveRunSnoc(ids: seq<string>, id: string, name: string, reply: nat -> Outcome)
    ensures MoveRun(ids + [id], name, reply) == MoveStep(MoveRun(ids, name, reply), id, name, reply)
  {
    assert (ids + [id])[..|ids|] == ids;
  }

  /** One line of the loop: a line with a stream id moves that stream,
      any other line is skipped. */
  function LineStep(st: MoveState, line: string, name: string, reply: nat -> Outcome): MoveState
  {
    match StreamIdOf(line)
    case Some(id) => MoveStep(st, id, name, reply)
    case None => st
  }

  /** The loop state after the lines `lines`, one line at a time. */
  function MoveLines(lines: seq<string>, name: string, reply: nat -> Outcome): MoveState
  {
    if lines == [] then MoveState([], 0, false)
    else LineStep(MoveLines(lines[..|lines| - 1], name, reply), lines[|lines| - 1], name, reply)
  }

  lemma MoveLinesPrefix(lines: seq<string>, i: nat, name: string, reply: nat -> Outcome)
    requires i < |lines|
    ensures MoveLines(lines[..i + 1], name, reply) == LineStep(MoveLines(lines[..i], name, reply), lines[i], name, reply)
  {
    assert lines[..i + 1][..i] == lines[..i];
  }

  /** Walking the lines one at a time is moving the streams of
      `StreamIds(lines)` in order. */
  lemma {:induction false} MoveLinesAsRun(lines: seq<string>, name: string, reply: nat -> Outcome)
    ensures MoveLines(lines, name, reply) == MoveRun(StreamIds(lines), name, reply)
  {
    if lines != [] {
      var i := |lines| - 1;
      var init := lines[..i];
      MoveLinesAsRun(init, name, reply);
      assert lines[..i + 1] == lines;
      MoveLinesPrefix(lines, i, name, reply);
      Seqs.FilterMapPrefix(StreamIdOf, lines, i);
      match StreamIdOf(lines[i])
      case Some(id) =>
        MoveRunSnoc(StreamIds(init), id, name, reply);
      case None =>
        assert StreamIds(lines) == StreamIds(init) + [] == StreamIds(init);
    }
  }

  /** An aborted loop takes no further step. */
  lemma LineStepAborted(st: MoveState, line: string, name: string, reply: nat -> Outcome)
    requires st.aborted
    ensures LineStep(st, line, name, reply) == st
  {
  }

  /** Once a move has timed out or raised, the remaining lines change
      nothing: the state after the first `j` lines is the state after the
      first `i`. */
  lemma {:induction false} MoveLinesAborted(lines: seq<string>, i: nat, j: nat, name: string, reply: nat -> Outcome)
    requires i <= j <= |lines|
    requires MoveLines(lines[..i], name, reply).aborted
    ensures MoveLines(lines[..j], name, reply) == MoveLines(lines[..i], name, reply)
    decreases j - i
  {
    if i < j {
      MoveLinesAborted(lines, i, j - 1, name, reply);
      var st := MoveLines(lines[..j - 1], name, reply);
      MoveLinesPrefix(lines, j - 1, name, reply);
      LineStepAborted(st, lines[j - 1], name, reply);
    }
  }

  /** The `for line in stdout.splitlines()` loop of `move_streams_to_source`:
      a move for each line whose stripped first field is all digits, until
      a move times out or raises. */
  method IssueMoves(lines: seq<string>, name: string, reply: nat -> Outcome)
    returns (issued: seq<Argv>, moved: nat)
    ensures var st := MoveLines(lines, name, reply);
            issued == st.issued && moved == st.moved
  {
    issued := [];
    moved := 0;
    var aborted := false;
    var i := 0;
    assert lines[..0] == [];
    while i < |lines| && !aborted
      invariant 0 <= i <= |lines|
      invariant MoveState(issued, moved, aborted) == MoveLines(lines[..i], name, reply)
    {
      MoveLinesPrefix(lines, i, name, reply);
      var parts := Split(lines[i], '\t');
      var first := Strip(parts[0]);
      if IsDigits(first) {
        var o := reply(|issued|);
        issued := issued + [MoveArgv(first, name)];
        if Aborts(o) {
          aborted := true;
        } else if Succeeds(o) {
          moved := moved + 1;
        }
      }
      i := i + 1;
    }
    if i < |lines| {
      MoveLinesAborted(lines, i, |lines|, name, reply);
    }
    assert lines[..|lines|] == lines;
  }

  /** `move_streams_to_source(name)`, given the outcome of the listing call
      and of each move call. Returns every call issued and the number of
      streams moved. A listing that fails, is empty, times out or raises
      issues no move; otherwise the moves are those of `MoveRun` over the
      stream lines of the listing. */
  method MoveStreamsToSource(name: string, listing: Outcome, reply: nat -> Outcome)
    returns (calls: seq<Argv>, moved: nat)
    ensures ListingText(listing).None? ==> calls == [ListOutputsArgv] && moved == 0
    ensures ListingText(listing).Some? ==>
              var st := MoveRun(StreamIds(SplitLines(listing.stdout)), name, reply);
              calls == [ListOutputsArgv] + st.issued && moved == st.moved
  {
    calls := [ListOutputsArgv];
    moved := 0;
    if !listing.Exited? {
      return;
    }
    if listing.returnCode != 0 {
      return;
    }
    if listing.stdout == "" {
      return;
    }
    var lines := SplitLines(listing.stdout);
    var issued;
    issued, moved := IssueMoves(lines, name, reply);
    MoveLinesAsRun(lines, name, reply);
    calls := calls + issued;
  }
}
