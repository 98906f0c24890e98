/** What the attacker sees: the output interpreted by a line terminal. */
module ShellScreen {
  import opened Shell

  /** The line the cursor is on, and the cursor's column. */
  datatype Screen = Screen(line: string, col: nat)
  {
    predicate Valid() { col <= |line| }
  }

  function Blanks(n: nat): string { seq(n, _ => ' ') }

  /** CR returns to column 0, LF moves to an empty line below keeping the column, BS steps
      left without erasing, any other character overwrites the cell under the cursor. */
  function Put(t: Screen, c: char): (t': Screen)
    requires t.Valid()
    ensures t'.Valid()
  {
    if c == CR then t.(col := 0)
    else if c == LF then Screen(Blanks(t.col), t.col)
    else if c == BS then t.(col := if t.col > 0 then t.col - 1 else 0)
    else if t.col < |t.line| then Screen(t.line[t.col := c], t.col + 1)
    else Screen(t.line + [c], t.col + 1)
  }

  function Show(t: Screen, output: string): (t': Screen)
    requires t.Valid()
    ensures t'.Valid()
  {
    if output == "" then t else Put(Show(t, output[..|output| - 1]), output[|output| - 1])
  }

  const BLANK: Screen := Screen("", 0)

  predicate Printable(c: char) { ' ' <= c <= '~' }

  predicate AllPrintable(s: string) { forall i :: 0 <= i < |s| ==> Printable(s[i]) }

  /** Printable or editing input: the keys a terminal user sends on a plain line. */
  predicate PlainKeys(text: string) {
    forall i :: 0 <= i < |text| ==> Printable(text[i]) || IsLineEnd(text[i]) || text[i] == DEL || text[i] == ETX
  }

  lemma {:induction false} ShowConcat(t: Screen, a: string, b: string)
    requires t.Valid()
    ensures Show(t, a + b) == Show(Show(t, a), b)
  {
    if b == "" {
      assert a + b == a;
    } else {
      ShowConcat(t, a, b[..|b| - 1]);
      assert (a + b)[..|a + b| - 1] == a + b[..|b| - 1];
    }
  }

  /** A line end leaves an empty line whatever was there before. */
  lemma ShowLineEnd(t: Screen)
    requires t.Valid()
    ensures Show(t, "\r\n") == BLANK
  {
    assert "\r\n"[..1] == "\r" && "\r"[..0] == "";
    assert Show(t, "\r") == Put(t, CR);
  }

  lemma ShowEndedLine(t: Screen, output: string)
    requires t.Valid()
    ensures Show(t, output + "\r\n") == BLANK
  {
    ShowConcat(t, output, "\r\n");
    ShowLineEnd(Show(t, output));
  }

  lemma {:induction false} ShowPrintable(text: string)
    requires AllPrintable(text)
    ensures Show(BLANK, text) == Screen(text, |text|)
  {
    if text != "" {
      ShowPrintable(text[..|text| - 1]);
      assert text == text[..|text| - 1] + [text[|text| - 1]];
    }
  }

  /** The cursor stands right after prompt and buffer, and everything to its right is blank. */
  ghost predicate Shows(t: Screen, text: string) {
    t.Valid() && t.col == |text| && t.line[..t.col] == text && forall i :: t.col <= i < |t.line| ==> t.line[i] == ' '
  }

  /** Echo of a printable key. */
  lemma ShowKey(t: Screen, text: string, c: char)
    requires Shows(t, text) && Printable(c)
    ensures Shows(Show(t, [c]), text + [c])
  {
    assert [c][..0] == "";
    assert Show(t, [c]) == Put(t, c);
    assert text + [c] == t.line[..t.col] + [c];
  }

  /** "\\b \\b" removes the last character of the line. */
  lemma ShowErase(t: Screen, text: string)
    requires Shows(t, text) && text != ""
    ensures Shows(Show(t, ERASE), text[..|text| - 1])
  {
    assert ERASE[..2] == [BS, ' '] && [BS, ' '][..1] == [BS] && [BS][..0] == "";
    assert Show(t, [BS]) == Put(t, BS);
    assert Show(t, [BS, ' ']) == Put(Put(t, BS), ' ');
    assert Show(t, ERASE) == Put(Put(Put(t, BS), ' '), BS);
  }

  lemma ShowPrompt(t: Screen, host: Host, before: string)
    requires t.Valid() && AllPrintable(host.Prompt())
    ensures Shows(Show(t, before + "\r\n" + host.Prompt()), host.Prompt())
  {
    ShowConcat(t, before + "\r\n", host.Prompt());
    ShowEndedLine(t, before);
    ShowPrintable(host.Prompt());
  }

  lemma RespondEndsLine(responses: map<string, string>, cmd: string) returns (body: string)
    ensures Respond(responses, cmd) == body + "\r\n"
  {
    if cmd in responses {
      body := responses[cmd];
    } else {
      body := "-bash: " + FirstWord(cmd) + ": command not found";
      assert ": command not found\r\n" == ": command not found" + "\r\n";
    }
  }

  /** Agreement of terminal and buffer in one state. */
  ghost predicate Agrees(host: Host, s: State) {
    !s.done ==> Shows(Show(BLANK, s.sent), host.Prompt() + s.buffer)
  }

  lemma StartAgrees(host: Host, commands: seq<string>, sent: string)
    requires AllPrintable(host.hostname)
    ensures AllPrintable(host.Prompt())
    ensures Agrees(host, Start(host, commands, sent))
  {
    var head := "Welcome to Ubuntu 22.04.4 LTS (GNU/Linux 5.15.0-105-generic x86_64)\r\n";
    assert host.Welcome() == head + "\r\n";
    assert sent + host.Welcome() + host.Prompt() == (sent + head) + "\r\n" + host.Prompt();
    ShowPrompt(BLANK, host, sent + head);
    assert host.Prompt() + "" == host.Prompt();
  }

  lemma EnterAgrees(host: Host, s: State)
    requires AllPrintable(host.Prompt())
    ensures Agrees(host, Enter(host, s))
  {
    var cmd := Strip(s.buffer);
    assert host.Prompt() + "" == host.Prompt();
    if cmd == "" {
      assert s.sent + "\r\n" + host.Prompt() == Enter(host, s).sent;
      ShowPrompt(BLANK, host, s.sent);
    } else if !IsExit(cmd) {
      var body := RespondEndsLine(host.responses, cmd);
      var before := s.sent + "\r\n" + body;
      assert Enter(host, s).sent == before + "\r\n" + host.Prompt();
      ShowPrompt(BLANK, host, before);
    }
  }

  lemma PressAgrees(host: Host, s: State, c: char)
    requires AllPrintable(host.Prompt()) && Agrees(host, s)
    requires Printable(c) || IsLineEnd(c) || c == DEL || c == ETX
    ensures Agrees(host, Press(host, s, c))
  {
    var t, shown := Show(BLANK, s.sent), host.Prompt() + s.buffer;
    if s.done {
    } else if IsLineEnd(c) {
      EnterAgrees(host, s);
    } else if c == DEL {
      if s.buffer != "" {
        ShowConcat(BLANK, s.sent, ERASE);
        ShowErase(t, shown);
        assert shown[..|shown| - 1] == host.Prompt() + s.buffer[..|s.buffer| - 1];
      }
    } else if c == ETX {
      assert s.sent + ("^C\r\n" + host.Prompt()) == (s.sent + "^C") + "\r\n" + host.Prompt();
      ShowPrompt(BLANK, host, s.sent + "^C");
      assert host.Prompt() + "" == host.Prompt();
    } else {
      ShowConcat(BLANK, s.sent, [c]);
      ShowKey(t, shown, c);
      assert shown + [c] == host.Prompt() + (s.buffer + [c]);
    }
  }

  /** DEL is the only erase key the editor knows. A raw BS (Ctrl-H) is echoed and stored like a
      letter, so of the plain keys and BS exactly BS breaks the agreement: the cursor steps back
      over the line, into the prompt if nothing was typed. */
  lemma KeyAgreesIff(host: Host, s: State, c: char)
    requires AllPrintable(host.Prompt()) && !s.done && Agrees(host, s)
    requires Printable(c) || IsLineEnd(c) || c == DEL || c == ETX || c == BS
    ensures Agrees(host, Press(host, s, c)) <==> c != BS
  {
    if c == BS {
      ShowConcat(BLANK, s.sent, [BS]);
      assert [BS][..0] == "";
      assert Show(Show(BLANK, s.sent), [BS]) == Put(Show(BLANK, s.sent), BS);
    } else {
      PressAgrees(host, s, c);
    }
  }

  /** Screen agreement: after any printable or editing keystrokes, until exit, the current
      line reads prompt and buffer with the cursor at its end; in particular no backspace
      ever reaches into the prompt. */
  lemma {:induction false} ScreenAgrees(host: Host, commands: seq<string>, sent: string, text: string)
    requires AllPrintable(host.hostname) && PlainKeys(text)
    ensures
      var s := Type(host, Start(host, commands, sent), text);
      var t := Show(BLANK, s.sent);
      !s.done ==> Shows(t, host.Prompt() + s.buffer) && host.Prompt() <= t.line
  {
    StartAgrees(host, commands, sent);
    TypeAgrees(host, Start(host, commands, sent), text);
    var s := Type(host, Start(host, commands, sent), text);
    if !s.done { PromptStands(Show(BLANK, s.sent), host.Prompt(), s.buffer); }
  }

  lemma PromptStands(t: Screen, prompt: string, buffer: string)
    requires Shows(t, prompt + buffer)
    ensures prompt <= t.line
  {
    assert prompt <= prompt + buffer == t.line[..t.col];
  }

  lemma {:induction false} TypeAgrees(host: Host, s: State, text: string)
    requires AllPrintable(host.Prompt()) && Agrees(host, s) && PlainKeys(text)
    ensures Agrees(host, Type(host, s, text))
  {
    if text != "" {
      TypeAgrees(host, s, text[..|text| - 1]);
      PressAgrees(host, Type(host, s, text[..|text| - 1]), text[|text| - 1]);
    }
  }

  /** The plain keys and the raw backspace. */
  predicate KnownKeys(text: string) {
    forall i :: 0 <= i < |text| ==>
      Printable(text[i]) || IsLineEnd(text[i]) || text[i] == DEL || text[i] == ETX || text[i] == BS
  }

  /** Screen and buffer agree after every keystroke. */
  ghost predicate AlwaysAgrees(host: Host, s: State, text: string) {
    forall i :: 0 <= i <= |text| ==> Agrees(host, Type(host, s, text[..i]))
  }

  /** No raw backspace is pressed before an exit word ends the session. */
  ghost predicate NoRawBackspace(host: Host, s: State, text: string) {
    forall i :: 0 <= i < |text| && text[i] == BS ==> Type(host, s, text[..i]).done
  }

  lemma AgreementStep(host: Host, s: State, text: string, i: nat)
    requires AllPrintable(host.Prompt()) && KnownKeys(text) && i < |text|
    requires Agrees(host, Type(host, s, text[..i]))
    ensures Agrees(host, Type(host, s, text[..i + 1])) <==> text[i] != BS || Type(host, s, text[..i]).done
  {
    assert text[..i + 1][..i] == text[..i];
    var before := Type(host, s, text[..i]);
    if !before.done { KeyAgreesIff(host, before, text[i]); }
  }

  lemma {:induction false} AgreesUpTo(host: Host, s: State, text: string, n: nat)
    requires AllPrintable(host.Prompt()) && KnownKeys(text) && n <= |text|
    requires Agrees(host, s) && NoRawBackspace(host, s, text)
    ensures Agrees(host, Type(host, s, text[..n]))
  {
    if n > 0 {
      AgreesUpTo(host, s, text, n - 1);
      AgreementStep(host, s, text, n - 1);
    } else {
      assert text[..0] == "";
    }
  }

  /** Whole sessions: over plain keys and raw backspaces, screen and buffer agree after every
      keystroke until exit if and only if no raw backspace is pressed before exit. */
  lemma AgreesThroughoutIff(host: Host, commands: seq<string>, sent: string, text: string)
    requires AllPrintable(host.hostname) && KnownKeys(text)
    ensures
      var s := Start(host, commands, sent);
      AlwaysAgrees(host, s, text) <==> NoRawBackspace(host, s, text)
  {
    var s := Start(host, commands, sent);
    StartAgrees(host, commands, sent);
    if NoRawBackspace(host, s, text) {
      forall i | 0 <= i <= |text| ensures Agrees(host, Type(host, s, text[..i])) {
        AgreesUpTo(host, s, text, i);
      }
    }
    if AlwaysAgrees(host, s, text) {
      forall i | 0 <= i < |text| && text[i] == BS ensures Type(host, s, text[..i]).done {
        assert Agrees(host, Type(host, s, text[..i])) && Agrees(host, Type(host, s, text[..i + 1]));
        AgreementStep(host, s, text, i);
      }
    }
  }
}
