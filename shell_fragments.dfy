/** The fixed pieces of the shell scripts that the launcher runs to switch
    microphones (src/presentation/ulauncher_adapter.py and
    src/commands/switch_microphone_command.py), and single-quote wrapping.
    None of the fixed pieces holds a single quote, so the only quote
    characters in a script are those the builders put around words. */
module ShellFragments {
  import opened Text
  const SetDefaultHead: string := "pactl set-default-source "
  const Redirect: string := " 2>&1"
  const OrTrue: string := " || true"
  const ForHead: string := "for stream_id in $("
  const ListOutputs: string := "pactl list short source-outputs"
  const ForTail: string := " 2>/dev/null | cut -f1); do"
  const IfNonEmpty: string := "    if [ -n \"$stream_id\" ]"
  const Then: string := "; then"
  const MoveHead: string := "        pactl move-source-output \"$stream_id\" "
  const Fi: string := "    fi"
  const Done: string := "done"

  /** What follows the quoted name in a move: ` 2>&1 || true`. */
  const MoveTail: string := Redirect + OrTrue

  /** `'word'`, with the word spliced in verbatim. */
  function Quoted(word: string): (r: string)
    ensures |r| == |word| + 2 && r[0] == '\'' && r[|r| - 1] == '\'' && r[1..|r| - 1] == word
  {
    "'" + word + "'"
  }

  /** Split at its quotes, text with a word quoted twice gives back the
      word twice, when neither the word nor the text around holds a quote. */
  lemma SplitTwiceQuoted(h: string, w: string, y1: string, y2: string)
    requires '\'' !in h && '\'' !in w && '\'' !in y1 && '\'' !in y2
    ensures Split(h + Quoted(w) + y1 + Quoted(w) + y2, '\'') == [h, w, y1, w, y2]
  {
    var q := ['\''];
    assert Quoted(w) == q + w + q;
    SplitNoSeparator(h, '\'');
    SplitAppendWord(h, '\'', w, y1);
    SplitAppendWord(h + Quoted(w) + y1, '\'', w, y2);
  }

  /** `pactl set-default-source '<name>' 2>&1`. */
  function SetDefaultCommand(name: string): string
  {
    SetDefaultHead + Quoted(name) + Redirect
  }

  /** The loop header over the ids `pactl list short source-outputs` prints. */
  function ForLine(): string
  {
    ForHead + ListOutputs + ForTail
  }

  /** `pactl move-source-output "$stream_id" '<name>' 2>&1 || true`, indented. */
  function MoveCommand(name: string): string
  {
    MoveHead + Quoted(name) + MoveTail
  }

  lemma HeadsQuoteFree()
    ensures '\'' !in SetDefaultHead && '\'' !in Redirect && '\'' !in OrTrue
  {
  }

  lemma LoopQuoteFree()
    ensures '\'' !in ForHead && '\'' !in ListOutputs && '\'' !in ForTail
  {
  }

  lemma BodyQuoteFree()
    ensures '\'' !in IfNonEmpty && '\'' !in Then && '\'' !in MoveHead && '\'' !in Fi && '\'' !in Done
  {
  }

  /** Every fixed piece is free of single quotes. */
  lemma QuoteFree()
    ensures '\'' !in SetDefaultHead && '\'' !in Redirect && '\'' !in OrTrue
    ensures '\'' !in ForLine() && '\'' !in IfNonEmpty && '\'' !in Then && '\'' !in MoveHead
    ensures '\'' !in Fi && '\'' !in Done
  {
    HeadsQuoteFree();
    LoopQuoteFree();
    BodyQuoteFree();
  }
}
