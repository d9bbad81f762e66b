/** `SwitchMicrophoneCommand` (src/commands/switch_microphone_command.py):
    builds the shell script that makes a source the default and moves the
    capture streams to it, as a list of six fragments joined with " && ".
    The stream ids are looked up when the script runs, so the script
    depends on the source name alone. */
module SwitchMicrophoneCommand {
  import opened Text
  import opened ShellFragments
  import UlauncherAdapter

  /** The separator the fragments are joined with. */
  const AndThen: string := " && "

  /** The loop body only runs for a numeric id: `-eq` fails on anything
      else, and its complaint goes to /dev/null. */
  const NumericGuard: string := AndThen + NumericTest + " 2>/dev/null"
  const NumericTest: string := "[ \"$stream_id\" -eq \"$stream_id\" ]"

  /** The command: the name of the source to switch to. The stream-output
      repository it also holds is never consulted and is not modelled. */
  datatype Command = Command(sourceName: string)

  /** The `if` line of the loop. */
  function IfLine(): string
  {
    IfNonEmpty + NumericGuard + Then
  }

  /** `_generate_move_commands`: the five lines of the loop that moves each
      capture stream to the source. */
  function MoveCommands(name: string): (lines: seq<string>)
  {
    [ForLine(), IfLine(), MoveCommand(name), Fi, Done]
  }

  /** The script `execute` returns for a source name. */
  function Script(name: string): string
  {
    Join([SetDefaultCommand(name)] + MoveCommands(name), AndThen)
  }

  /** `execute`: start the list with the set-default command, extend it
      with the move commands, and join. */
  method Execute(cmd: Command) returns (script: string)
    ensures script == Script(cmd.sourceName)
  {
    var commands := [SetDefaultCommand(cmd.sourceName)];
    var moveCommands := MoveCommands(cmd.sourceName);
    commands := commands + moveCommands;
    script := Join(commands, AndThen);
  }

  /** The joined fragments, written out. */
  lemma ScriptSpelledOut(name: string)
    ensures Script(name)
         == SetDefaultCommand(name) + AndThen + ForLine() + AndThen + IfLine() + AndThen
            + MoveCommand(name) + AndThen + Fi + AndThen + Done
  {
    var a := SetDefaultCommand(name);
    var l1 := [a];
    var l2 := l1 + [ForLine()];
    var l3 := l2 + [IfLine()];
    var l4 := l3 + [MoveCommand(name)];
    var l5 := l4 + [Fi];
    var l6 := l5 + [Done];
    assert Join(l1, AndThen) == a;
    JoinSnoc(l1, AndThen, ForLine());
    JoinSnoc(l2, AndThen, IfLine());
    JoinSnoc(l3, AndThen, MoveCommand(name));
    JoinSnoc(l4, AndThen, Fi);
    JoinSnoc(l5, AndThen, Done);
    assert l6 == [a] + MoveCommands(name);
  }

  lemma AndThenQuoteFree()
    ensures '\'' !in AndThen
  {
  }

  lemma GuardQuoteFree()
    ensures '\'' !in NumericGuard
  {
  }

  /** Six fragments: the set-default command first, then the loop; the
      name is in the set-default command and in the move command, and the
      other four fragments are the same for every name. */
  lemma Fragments(name: string, other: string)
    ensures var f := [SetDefaultCommand(name)] + MoveCommands(name);
            |f| == 6 && f[0] == SetDefaultHead + Quoted(name) + Redirect
            && f[3] == MoveHead + Quoted(name) + MoveTail
    ensures var f := [SetDefaultCommand(name)] + MoveCommands(name);
            var g := [SetDefaultCommand(other)] + MoveCommands(other);
            forall k :: 0 <= k < 6 && k != 0 && k != 3 ==> f[k] == g[k]
  {
  }

  /** Regrouping the spelled-out script around its two quoted names. */
  lemma Regrouped(h: string, q: string, r: string, s: string, f: string, i: string,
                  mh: string, mt: string, fi: string, d: string)
    ensures h + q + r + s + f + s + i + s + (mh + q + mt) + s + fi + s + d
         == h + q + (r + s + f + s + i + s + mh) + q + (mt + s + fi + s + d)
  {
  }

  /** Split at its quote characters, the script alternates between fixed
      text and the two quoted names, provided the name holds no quote. */
  lemma QuotedWords(name: string)
    requires '\'' !in name
    ensures Split(Script(name), '\'')
         == [SetDefaultHead, name,
             Redirect + AndThen + ForLine() + AndThen + IfLine() + AndThen + MoveHead, name,
             MoveTail + AndThen + Fi + AndThen + Done]
  {
    QuoteFree();
    AndThenQuoteFree();
    GuardQuoteFree();
    ScriptSpelledOut(name);
    Regrouped(SetDefaultHead, Quoted(name), Redirect, AndThen, ForLine(), IfLine(), MoveHead, MoveTail, Fi, Done);
    var y1 := Redirect + AndThen + ForLine() + AndThen + IfLine() + AndThen + MoveHead;
    var y2 := MoveTail + AndThen + Fi + AndThen + Done;
    assert '\'' !in IfLine();
    SplitTwiceQuoted(SetDefaultHead, name, y1, y2);
  }

  /** Where the fragments lie in the joined script. */
  lemma Layout(p: string, s: string, i: string, mc: string, fi: string, d: string)
    ensures p <= p + s + i + s + mc + s + fi + s + d
    ensures Contains(p + s + i + s + mc + s + fi + s + d, i)
    ensures Contains(p + s + i + s + mc + s + fi + s + d, mc)
  {
    var all := p + s + i + s + mc + s + fi + s + d;
    assert all == (p + s) + i + (s + mc + s + fi + s + d);
    ContainsMiddle(p + s, i, s + mc + s + fi + s + d);
    assert all == (p + s + i + s) + mc + (s + fi + s + d);
    ContainsMiddle(p + s + i + s, mc, s + fi + s + d);
  }

  /** The script first makes the source the default and only then (`&&`)
      loops over the ids `pactl list short source-outputs` prints; the
      loop body runs only for a numeric id and moves the stream to the
      source, ignoring a failed move (`|| true`). */
  lemma ScriptShape(name: string)
    ensures SetDefaultCommand(name) + AndThen + ForLine() <= Script(name)
    ensures Contains(Script(name), ListOutputs)
    ensures Contains(Script(name), NumericTest)
    ensures Contains(Script(name), MoveCommand(name))
  {
    var script := Script(name);
    var p := SetDefaultCommand(name) + AndThen + ForLine();
    ScriptSpelledOut(name);
    Layout(p, AndThen, IfLine(), MoveCommand(name), Fi, Done);
    ContainsPrefix(script, p);
    var sd := SetDefaultCommand(name) + AndThen;
    Regroup(sd, ForHead + ListOutputs, ForTail);
    Regroup(sd, ForHead, ListOutputs);
    ContainsMiddle(sd + ForHead, ListOutputs, ForTail);
    ContainsTransitive(script, p, ListOutputs);
    ContainsMiddle(IfNonEmpty, NumericGuard, Then);
    ContainsMiddle(AndThen, NumericTest, " 2>/dev/null");
    ContainsTransitive(IfLine(), NumericGuard, NumericTest);
    ContainsTransitive(script, IfLine(), NumericTest);
  }

  /** Both switch scripts begin alike: the set-default command with the
      quoted name, then `&&` and the loop header over the capture streams. */
  lemma SameLeadingCommands(name: string)
    ensures var lead := SetDefaultCommand(name) + " && " + ForLine();
            lead <= Script(name) && lead <= UlauncherAdapter.CreateSwitchCommand(name)
  {
    ScriptShape(name);
    UlauncherAdapter.ScriptShape(name);
  }
}
