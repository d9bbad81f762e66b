/** `MicSwitcherPresenter.create_switch_command`
    (src/presentation/ulauncher_adapter.py): the shell script the launcher
    runs to switch microphones. The source name is spliced in verbatim,
    between single quotes, for set-default and for each stream move; the
    notification shows at most its first 50 characters. */
module UlauncherAdapter {
  import opened Text
  import opened ShellFragments

  /** The fixed text of the script around its four single-quoted words:
      the name (twice), the notification title and the notification body. */
  datatype Template = Template(
    beforeName: string,
    beforeMove: string,
    beforeTitle: string,
    title: string,
    bodyHead: string,
    tail: string)

  /** The longest part of the name the notification shows. */
  const NotifyNameLength: nat := 50

  /** From the end of the quoted name to the move command: the rest of
      the set-default line, the loop header and the test for an empty id.
      The line continuation after the first `&&` joins the set-default
      command and the loop header on one line. */
  const LoopLead: string := Redirect + " && " + ForLine() + "\n" + IfNonEmpty + Then + "\n"

  /** From the end of the move command to the notification title. */
  const NotifyLead: string := "\n" + Fi + "\n" + Done + " && (notify-send "

  /** The script's fixed text. */
  const SwitchScript: Template := Template(
    SetDefaultHead,
    LoopLead + MoveHead,
    MoveTail + NotifyLead,
    "Microphone Changed",
    "Switched to: ",
    " --expire-time=1500 2>/dev/null || true)")

  /** The template filled in for a name. */
  function Render(t: Template, name: string): string
  {
    t.beforeName + Quoted(name) + t.beforeMove + Quoted(name) + t.beforeTitle
    + Quoted(t.title) + " " + Quoted(t.bodyHead + Take(name, NotifyNameLength)) + t.tail
  }

  /** `create_switch_command(source_name)`. */
  function CreateSwitchCommand(name: string): string
  {
    Render(SwitchScript, name)
  }

  predicate TemplateQuoteFree(t: Template)
  {
    && '\'' !in t.beforeName && '\'' !in t.beforeMove && '\'' !in t.beforeTitle
    && '\'' !in t.title && '\'' !in t.bodyHead && '\'' !in t.tail
  }

  /** Split at its quote characters, a filled-in template alternates
      between its fixed text and the quoted words, provided neither holds
      a quote. */
  lemma RenderWords(t: Template, name: string)
    requires TemplateQuoteFree(t) && '\'' !in name
    ensures Split(Render(t, name), '\'')
         == [t.beforeName, name, t.beforeMove, name, t.beforeTitle, t.title, " ",
             t.bodyHead + Take(name, NotifyNameLength), t.tail]
  {
    var w := t.bodyHead + Take(name, NotifyNameLength);
    assert '\'' !in w by {
      assert forall c :: c in Take(name, NotifyNameLength) ==> c in name;
    }
    var q := ['\''];
    var b := t.beforeName;
    var x1 := b + Quoted(name) + t.beforeMove;
    var x2 := x1 + Quoted(name) + t.beforeTitle;
    var x3 := x2 + Quoted(t.title) + " ";
    assert Quoted(name) == q + name + q;
    assert Quoted(t.title) == q + t.title + q;
    assert Quoted(w) == q + w + q;
    SplitNoSeparator(b, '\'');
    SplitAppendWord(b, '\'', name, t.beforeMove);
    assert Split(x1, '\'') == [b, name, t.beforeMove];
    SplitAppendWord(x1, '\'', name, t.beforeTitle);
    assert Split(x2, '\'') == [b, name, t.beforeMove, name, t.beforeTitle];
    SplitAppendWord(x2, '\'', t.title, " ");
    assert Split(x3, '\'') == [b, name, t.beforeMove, name, t.beforeTitle, t.title, " "];
    SplitAppendWord(x3, '\'', w, t.tail);
    assert Render(t, name) == x3 + Quoted(w) + t.tail;
  }

  /** A filled-in template starts with the name quoted between its first
      two pieces of fixed text, and holds the name quoted between the end
      `y` of the second piece and the start `u` of the third. */
  lemma RenderLayout(t: Template, name: string, x: string, y: string, u: string, v: string)
    requires t.beforeMove == x + y && t.beforeTitle == u + v
    ensures t.beforeName + Quoted(name) + t.beforeMove <= Render(t, name)
    ensures Contains(Render(t, name), y + Quoted(name) + u)
  {
    var r := Render(t, name);
    var q := Quoted(name);
    var h := t.beforeName + q + t.beforeMove;
    var p := h + q + t.beforeTitle;
    var qt := Quoted(t.title);
    var qb := Quoted(t.bodyHead + Take(name, NotifyNameLength));
    // p, and the head before it, start the script
    PrefixOfAppend(h, q);
    PrefixOfAppend(h + q, t.beforeTitle);
    PrefixOfPrefix(h, h + q, p);
    PrefixOfAppend(p, qt);
    PrefixOfAppend(p + qt, " ");
    PrefixOfAppend(p + qt + " ", qb);
    PrefixOfAppend(p + qt + " " + qb, t.tail);
    PrefixOfPrefix(p, p + qt, p + qt + " ");
    PrefixOfPrefix(p, p + qt + " ", p + qt + " " + qb);
    PrefixOfPrefix(p, p + qt + " " + qb, r);
    PrefixOfPrefix(h, p, r);
    // the quoted name between y and u lies within p
    var c := t.beforeName + q + x;
    Regroup(t.beforeName + q, x, y);
    Regroup(c + y + q, u, v);
    Regroup(c, y + q, u);
    Regroup(c, y, q);
    assert p == c + (y + q + u) + v;
    ContainsMiddle(c, y + q + u, v);
    ContainsPrefix(r, p);
    ContainsTransitive(r, p, y + q + u);
  }

  /** The script first makes the source the default and only then (`&&`)
      loops over the ids `pactl list short source-outputs` prints, moving
      each stream to the source and ignoring a failed move (`|| true`). */
  lemma ScriptShape(name: string)
    ensures SetDefaultCommand(name) + " && " + ForLine() <= CreateSwitchCommand(name)
    ensures Contains(CreateSwitchCommand(name), ListOutputs)
    ensures Contains(CreateSwitchCommand(name), MoveCommand(name))
  {
    var script := CreateSwitchCommand(name);
    var a := SetDefaultHead + Quoted(name);
    var loop := Redirect + " && " + ForLine();
    RenderLayout(SwitchScript, name, LoopLead, MoveHead, MoveTail, NotifyLead);
    // the set-default command and the loop header come first
    PrefixOfAppend(loop + "\n" + IfNonEmpty + Then, "\n");
    PrefixOfAppend(loop + "\n" + IfNonEmpty, Then);
    PrefixOfAppend(loop + "\n", IfNonEmpty);
    PrefixOfAppend(loop, "\n");
    PrefixOfAppend(LoopLead, MoveHead);
    assert loop <= LoopLead + MoveHead;
    var pre := a + loop;
    assert pre <= a + (LoopLead + MoveHead);
    PrefixOfPrefix(pre, a + (LoopLead + MoveHead), script);
    Regroup(a, Redirect + " && ", ForLine());
    Regroup(a, Redirect, " && ");
    var sd := SetDefaultCommand(name) + " && ";
    assert pre == sd + ForLine();
    // the listing command is in the loop header
    ContainsPrefix(script, pre);
    Regroup(sd, ForHead + ListOutputs, ForTail);
    Regroup(sd, ForHead, ListOutputs);
    ContainsMiddle(sd + ForHead, ListOutputs, ForTail);
    ContainsTransitive(script, pre, ListOutputs);
  }

  /** The name is not escaped: when it holds a quote, the first quoted
      word of the filled-in template ends at that quote. */
  lemma QuoteCutsWord(t: Template, a: string, b: string)
    requires '\'' !in t.beforeName && '\'' !in a
    ensures var parts := Split(Render(t, a + "'" + b), '\'');
            |parts| > 1 && parts[1] == a
  {
    var name := a + "'" + b;
    var rest := Render(t, name)[|t.beforeName| + |a| + 2..];
    assert Render(t, name) == t.beforeName + "'" + (a + "'" + rest);
    SplitAtFirst(t.beforeName, '\'', a + "'" + rest);
    SplitAtFirst(a, '\'', rest);
  }

  /** For instance, set-default receives the word `it`, not `it's`. */
  lemma QuoteInNameBreaksWord()
    ensures var parts := Split(CreateSwitchCommand("it's"), '\'');
            |parts| > 1 && parts[1] == "it"
  {
    HeadsQuoteFree();
    QuoteCutsWord(SwitchScript, "it", "s");
    assert "it" + "'" + "s" == "it's";
  }

  lemma NotifyQuoteFree()
    ensures '\'' !in " && (notify-send " && '\'' !in "Microphone Changed" && '\'' !in "Switched to: "
  {
  }

  lemma TailQuoteFree()
    ensures '\'' !in " --expire-time=1500 2>/dev/null || true)"
  {
  }

  lemma SwitchScriptQuoteFree()
    ensures TemplateQuoteFree(SwitchScript)
  {
    QuoteFree();
    NotifyQuoteFree();
    TailQuoteFree();
  }

  /** For a name without a quote character, the words a shell reads
      between single quotes are the name (set-default), the name (move),
      the title, and the notification text with at most the first 50
      characters of the name. */
  lemma QuotedWords(name: string)
    requires '\'' !in name
    ensures Split(CreateSwitchCommand(name), '\'')
         == [SwitchScript.beforeName, name, SwitchScript.beforeMove, name, SwitchScript.beforeTitle,
             "Microphone Changed", " ", "Switched to: " + Take(name, NotifyNameLength), SwitchScript.tail]
    ensures |Take(name, NotifyNameLength)| <= NotifyNameLength && Take(name, NotifyNameLength) <= name
  {
    SwitchScriptQuoteFree();
    RenderWords(SwitchScript, name);
  }
}
