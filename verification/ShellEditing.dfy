/** What the line editor records: a right-to-left reading of the keystrokes, and limits. */
module ShellEditing {
  import opened Shell

  // ------------------------------------------------------ the backward scan

  /** The current line read from the end of the keystrokes back to the latest CR, LF or
      Ctrl-C: each DEL owes one deletion, paid by the next ordinary key to its left. */
  function ScanBack(text: string, owed: nat): string {
    if text == "" then ""
    else
      var prefix, c := text[..|text| - 1], text[|text| - 1];
      if c as int in {13, 10, 3} then ""
      else if c as int == 127 then ScanBack(prefix, owed + 1)
      else if owed > 0 then ScanBack(prefix, owed - 1)
      else ScanBack(prefix, 0) + [c]
  }

  function DropEnd(s: string, k: nat): string { if k >= |s| then "" else s[..|s| - k] }

  lemma {:induction false} ScanDropsFromBuffer(host: Host, s: State, text: string, owed: nat)
    requires s.buffer == "" && !Type(host, s, text).done
    ensures ScanBack(text, owed) == DropEnd(Type(host, s, text).buffer, owed)
  {
    if text != "" {
      var prefix, c := text[..|text| - 1], text[|text| - 1];
      if IsLineEnd(c) || c == ETX {
      } else if c == DEL {
        ScanDropsFromBuffer(host, s, prefix, owed + 1);
      } else if owed > 0 {
        ScanDropsFromBuffer(host, s, prefix, owed - 1);
      } else {
        ScanDropsFromBuffer(host, s, prefix, 0);
      }
    }
  }

  /** Backspace refinement: the buffer built forwards is the line scanned backwards. */
  lemma BufferIsScan(host: Host, s: State, text: string)
    requires s.buffer == ""
    ensures !Type(host, s, text).done ==> Type(host, s, text).buffer == ScanBack(text, 0)
  {
    if !Type(host, s, text).done { ScanDropsFromBuffer(host, s, text, 0); }
  }

  // -------------------------------------------------- the recorded commands

  predicate Ended(commands: seq<string>) { commands != [] && IsExit(commands[|commands| - 1]) }

  /** The commands read off the keystrokes alone: at every line end the stripped backward
      scan, unless empty, and nothing after an exit word. */
  function Recorded(text: string): seq<string> {
    if text == "" then []
    else
      var prefix, c := text[..|text| - 1], text[|text| - 1];
      var sofar, cmd := Recorded(prefix), Strip(ScanBack(prefix, 0));
      if Ended(sofar) || !IsLineEnd(c) || cmd == "" then sofar else sofar + [cmd]
  }

  /** The session records exactly these commands and is over exactly when the last one is an exit word. */
  lemma {:induction false} CommandsAreScans(host: Host, s: State, text: string)
    requires s.buffer == "" && !s.done
    ensures Type(host, s, text).commands == s.commands + Recorded(text)
    ensures Type(host, s, text).done <==> Ended(Recorded(text))
  {
    if text != "" {
      var prefix := text[..|text| - 1];
      CommandsAreScans(host, s, prefix);
      BufferIsScan(host, s, prefix);
      assert s.commands + Recorded(prefix) + [Strip(ScanBack(prefix, 0))]
          == s.commands + (Recorded(prefix) + [Strip(ScanBack(prefix, 0))]);
    }
  }

  /** A whole session, capped or not: its commands are those read off the keystrokes it consumed. */
  lemma SessionRecords(host: Host, sent: string, inbox: seq<Recv>)
    ensures
      var s := Start(host, [], sent);
      Session(host, s, inbox).commands == Recorded(AllText(inbox[..Consumed(host, s, inbox)]))
  {
    var s := Start(host, [], sent);
    SessionIsPrefixTyping(host, s, inbox);
    CommandsAreScans(host, s, AllText(inbox[..Consumed(host, s, inbox)]));
  }

  // ------------------------------------------------------ well-formed commands

  predicate Stripped(s: string) { s == "" || (!IsSpace(s[0]) && !IsSpace(s[|s| - 1])) }

  predicate EditingKey(c: char) { IsLineEnd(c) || c == DEL || c == ETX }

  predicate Clean(s: string) { forall i :: 0 <= i < |s| ==> !EditingKey(s[i]) }

  lemma {:induction false} LStripPart(s: string)
    ensures LStrip(s) == "" || !IsSpace(LStrip(s)[0])
    ensures Clean(s) ==> Clean(LStrip(s))
  {
    if s != "" && IsSpace(s[0]) { LStripPart(s[1..]); }
  }

  lemma {:induction false} RStripPart(s: string)
    ensures RStrip(s) == "" || !IsSpace(RStrip(s)[|RStrip(s)| - 1])
    ensures RStrip(s) != "" ==> RStrip(s)[0] == s[0]
    ensures Clean(s) ==> Clean(RStrip(s))
  {
    if s != "" && IsSpace(s[|s| - 1]) { RStripPart(s[..|s| - 1]); }
  }

  lemma StripPart(s: string)
    ensures Stripped(Strip(s)) && (Clean(s) ==> Clean(Strip(s)))
  {
    LStripPart(s);
    RStripPart(LStrip(s));
  }

  predicate AllSpace(s: string) { forall i :: 0 <= i < |s| ==> IsSpace(s[i]) }

  /** White space, by code point. */
  lemma SpacesAre(c: char)
    ensures IsSpace(c) <==> c as int in {
      9, 10, 11, 12, 13, 28, 29, 30, 31, 32, 0x85, 0xA0, 0x1680, 0x2000, 0x2001, 0x2002, 0x2003, 0x2004, 0x2005,
      0x2006, 0x2007, 0x2008, 0x2009, 0x200A, 0x2028, 0x2029, 0x202F, 0x205F, 0x3000}
  {
  }

  lemma AllSpaceCons(c: char, a: string, s: string, rest: string)
    requires IsSpace(c) && AllSpace(a) && s != "" && s[0] == c && s[1..] == a + rest
    ensures AllSpace([c] + a) && s == ([c] + a) + rest
  {
    assert s == [c] + s[1..];
  }

  lemma {:induction false} LStripPads(s: string) returns (a: string)
    ensures s == a + LStrip(s) && AllSpace(a)
  {
    a := "";
    if s != "" && IsSpace(s[0]) {
      var rest := LStripPads(s[1..]);
      AllSpaceCons(s[0], rest, s, LStrip(s));
      a := [s[0]] + rest;
    }
  }

  lemma {:induction false} RStripPads(s: string) returns (b: string)
    ensures s == RStrip(s) + b && AllSpace(b)
  {
    if s != "" && IsSpace(s[|s| - 1]) {
      var rest := RStripPads(s[..|s| - 1]);
      b := rest + [s[|s| - 1]];
      assert s == s[..|s| - 1] + [s[|s| - 1]];
    } else {
      b := "";
    }
  }

  /** `strip` removes white space at both ends, all of it and nothing else. */
  lemma StripPads(s: string) returns (a: string, b: string)
    ensures s == a + Strip(s) + b && AllSpace(a) && AllSpace(b) && Stripped(Strip(s))
    ensures Strip(s) == "" <==> AllSpace(s)
  {
    a := LStripPads(s);
    b := RStripPads(LStrip(s));
    StripPart(s);
    assert s == a + Strip(s) + b;
    if Strip(s) != "" { assert s[|a|] == Strip(s)[0]; }
  }

  lemma StripFixes(s: string)
    requires Stripped(s)
    ensures Strip(s) == s
  {
  }

  lemma {:induction false} ScanIsClean(text: string, owed: nat)
    ensures Clean(ScanBack(text, owed))
  {
    if text != "" {
      var prefix, c := text[..|text| - 1], text[|text| - 1];
      ScanIsClean(prefix, owed + 1);
      ScanIsClean(prefix, if owed > 0 then owed - 1 else 0);
    }
  }

  /** Every recorded command is non-empty, a fixed point of `strip` and free of CR, LF, DEL and Ctrl-C; an
      exit word can only be the last one. */
  lemma {:induction false} RecordedAreWellFormed(text: string)
    ensures forall i :: 0 <= i < |Recorded(text)| ==>
      Recorded(text)[i] != "" && Strip(Recorded(text)[i]) == Recorded(text)[i] && Clean(Recorded(text)[i])
    ensures forall i :: 0 <= i < |Recorded(text)| - 1 ==> !IsExit(Recorded(text)[i])
  {
    if text != "" {
      var prefix := text[..|text| - 1];
      RecordedAreWellFormed(prefix);
      ScanIsClean(prefix, 0);
      StripPart(ScanBack(prefix, 0));
      StripFixes(Strip(ScanBack(prefix, 0)));
    }
  }

  // ------------------------------------------- the transcript, key by key

  /** The text before the first blank. */
  lemma {:induction false} FirstWordMeans(cmd: string)
    ensures FirstWord(cmd) <= cmd && ' ' !in FirstWord(cmd)
    ensures |FirstWord(cmd)| == |cmd| || cmd[|FirstWord(cmd)|] == ' '
  {
    if cmd != "" && cmd[0] != ' ' { FirstWordMeans(cmd[1..]); }
  }

  lemma TypeMore(host: Host, s: State, text: string, c: char)
    ensures Type(host, s, text + [c]) == Press(host, Type(host, s, text), c)
  {
    assert (text + [c])[..|text|] == text;
  }

  /** What a line end does, read off the keystrokes before it: the line is the backward scan, `cmd`
      is what is left of it without the white space around, and goes unrecorded only when the line
      is all white space. An exit word ends the session; any other command is answered. */
  lemma LineEndRecords(host: Host, s: State, text: string, c: char) returns (a: string, cmd: string, b: string)
    requires s.buffer == "" && !Type(host, s, text).done && (c == '\r' || c == '\n')
    ensures ScanBack(text, 0) == a + cmd + b && AllSpace(a) && AllSpace(b) && Stripped(cmd)
    ensures cmd == "" <==> AllSpace(ScanBack(text, 0))
    ensures
      var before, after := Type(host, s, text), Type(host, s, text + [c]);
      after.commands == before.commands + (if cmd == "" then [] else [cmd]) &&
      (after.done <==> cmd == "exit" || cmd == "logout" || cmd == "quit") &&
      Answered(host, before.sent, cmd, after.sent)
  {
    BufferIsScan(host, s, text);
    var line := ScanBack(text, 0);
    a, b := StripPads(line);
    cmd := Strip(line);
    TypeMore(host, s, text, c);
    EnterAnswers(host, Type(host, s, text));
  }

  /** The output of a line end: the answer to `cmd`, if there is one, and the prompt unless the session ends. */
  ghost predicate Answered(host: Host, before: string, cmd: string, after: string) {
    var prompt := "root@" + host.hostname + ":~# ";
    if cmd == "" then after == before + "\r\n" + prompt
    else if cmd == "exit" || cmd == "logout" || cmd == "quit" then after == before + "\r\n" + "logout\r\n"
    else if cmd in host.responses then after == before + "\r\n" + (host.responses[cmd] + "\r\n") + prompt
    else exists k: nat ::
      (k == |cmd| || (k < |cmd| && cmd[k] == ' ')) && ' ' !in cmd[..k] &&
      after == before + "\r\n" + ("-bash: " + cmd[..k] + ": command not found\r\n") + prompt
  }

  lemma EnterAnswers(host: Host, s: State)
    ensures Answered(host, s.sent, Strip(s.buffer), Enter(host, s).sent)
  {
    var cmd := Strip(s.buffer);
    if cmd != "" && !IsExit(cmd) && cmd !in host.responses {
      FirstWordMeans(cmd);
      var k := |FirstWord(cmd)|;
      assert cmd[..k] == FirstWord(cmd);
      assert Enter(host, s).sent
          == s.sent + "\r\n" + ("-bash: " + cmd[..k] + ": command not found\r\n") + host.Prompt();
    }
  }

  /** What any other key does: it records nothing, ends nothing, and is echoed; DEL (127) wipes a
      cell if the line has a character to delete, Ctrl-C (3) starts a new line. */
  lemma OtherKeyEchoes(host: Host, s: State, text: string, c: char)
    requires s.buffer == "" && !Type(host, s, text).done && c != '\r' && c != '\n'
    ensures
      var before, after := Type(host, s, text), Type(host, s, text + [c]);
      after.commands == before.commands && !after.done &&
      after.sent ==
        if c as int == 127 then before.sent + (if ScanBack(text, 0) == "" then "" else "\U{8} \U{8}")
        else if c as int == 3 then before.sent + ("^C\r\n" + ("root@" + host.hostname + ":~# "))
        else before.sent + [c]
  {
    BufferIsScan(host, s, text);
    TypeMore(host, s, text, c);
    var before := Type(host, s, text);
    assert before.sent + "" == before.sent;
    assert "\U{8} \U{8}" == ERASE;
  }

  // -------------------------------------------------------------- the cap

  /** Two per recorded command, one for a line begun: grows by at most one per keystroke. */
  function Progress(s: State): int { 2 * |s.commands| + (if s.buffer == "" then 0 else 1) }

  lemma PressProgress(host: Host, s: State, c: char)
    ensures Progress(Press(host, s, c)) <= Progress(s) + 1
    ensures |s.commands| <= |Press(host, s, c).commands|
  {
    assert Strip("") == "";
  }

  lemma {:induction false} TypeProgress(host: Host, s: State, text: string)
    ensures Progress(Type(host, s, text)) <= Progress(s) + |text|
    ensures |s.commands| <= |Type(host, s, text).commands|
  {
    if text != "" {
      TypeProgress(host, s, text[..|text| - 1]);
      PressProgress(host, Type(host, s, text[..|text| - 1]), text[|text| - 1]);
    }
  }

  /** A chunk of n characters adds at most (n + 1) / 2 commands. */
  lemma ChunkAddsAtMost(host: Host, s: State, text: string)
    ensures |Type(host, s, text).commands| - |s.commands| <= (|text| + 1) / 2
  {
    TypeProgress(host, s, text);
  }

  /** `k` one-letter lines, the first letter already typed. */
  function Burst(k: nat): string { if k == 0 then "" else Burst(k - 1) + [LF, 'x'] }

  lemma {:induction false} BurstAttains(host: Host, s: State, k: nat)
    requires s.buffer == "x" && !s.done
    ensures |Burst(k)| == 2 * k
    ensures Type(host, s, Burst(k)).buffer == "x" && !Type(host, s, Burst(k)).done
    ensures |Type(host, s, Burst(k)).commands| == |s.commands| + k
  {
    if k > 0 {
      BurstAttains(host, s, k - 1);
      OneMoreLine(host, s, Burst(k - 1));
    }
  }

  /** The bound is attained: with a letter pending, 2k characters and a line end add k + 1 commands. */
  lemma BoundIsAttained(host: Host, s: State, k: nat)
    requires s.buffer == "x" && !s.done
    ensures |Burst(k) + [LF]| == 2 * k + 1
    ensures |Type(host, s, Burst(k) + [LF]).commands| - |s.commands| == (|Burst(k) + [LF]| + 1) / 2
  {
    BurstAttains(host, s, k);
    LetterStrips();
    var t := Burst(k) + [LF];
    assert t[..|t| - 1] == Burst(k);
  }

  lemma LetterStrips()
    ensures Strip("x") == "x" && !IsExit("x")
  {
    assert LStrip("x") == "x" && RStrip("x") == "x";
    assert |"x"| == 1 && |"exit"| == 4 && |"logout"| == 6 && |"quit"| == 4;
  }

  lemma OneMoreLine(host: Host, s: State, text: string)
    requires Type(host, s, text).buffer == "x" && !Type(host, s, text).done
    ensures Type(host, s, text + [LF, 'x']).buffer == "x" && !Type(host, s, text + [LF, 'x']).done
    ensures |Type(host, s, text + [LF, 'x']).commands| == |Type(host, s, text).commands| + 1
  {
    var t := text + [LF, 'x'];
    LetterStrips();
    assert t[..|t| - 1] == text + [LF];
    assert (text + [LF])[..|text|] == text;
    assert t[|t| - 1] == 'x' && !IsLineEnd('x');
    assert "" + ['x'] == "x";
  }

  ghost predicate ChunksWithin(inbox: seq<Recv>, limit: nat) {
    forall i :: 0 <= i < |inbox| && inbox[i].Data? ==> |inbox[i].text| <= limit
  }

  /** The cap is checked only between chunks, so it can be overshot, by less than half a chunk. */
  lemma {:induction false} CapOvershoot(host: Host, s: State, inbox: seq<Recv>, limit: nat)
    requires |s.commands| < host.maxCommands && ChunksWithin(inbox, limit)
    ensures |Session(host, s, inbox).commands| <= host.maxCommands - 1 + (limit + 1) / 2
    decreases |inbox|
  {
    if inbox != [] {
      match inbox[0]
      case Timeout => CapOvershoot(host, s, inbox[1..], limit);
      case Data(text) =>
        ChunkAddsAtMost(host, s, text);
        var s' := Type(host, s, text);
        if text != "" && !s'.done && |s'.commands| < host.maxCommands {
          CapOvershoot(host, s', inbox[1..], limit);
        }
    }
  }

  /** With `recv(1024)`: at most 511 commands beyond the cap. */
  lemma ShellCommandBound(host: Host, sent: string, inbox: seq<Recv>)
    requires host.maxCommands >= 1 && ChunksWithin(inbox, 1024)
    ensures |Session(host, Start(host, [], sent), inbox).commands| <= host.maxCommands + 511
  {
    CapOvershoot(host, Start(host, [], sent), inbox, 1024);
  }

  /** `k` times a line end and the next letter, one character at a time. */
  function Drip(k: nat): seq<Recv> { if k == 0 then [] else [Data([LF])] + ([Data("x")] + Drip(k - 1)) }

  lemma {:induction false} DripWithin(k: nat, limit: nat)
    requires limit >= 1
    ensures ChunksWithin(Drip(k), limit)
  {
    if k > 0 {
      DripWithin(k - 1, limit);
      WithinAppend([Data("x")], Drip(k - 1), limit);
      WithinAppend([Data([LF])], [Data("x")] + Drip(k - 1), limit);
    }
  }

  lemma WithinAppend(a: seq<Recv>, b: seq<Recv>, limit: nat)
    requires ChunksWithin(a, limit) && ChunksWithin(b, limit)
    ensures ChunksWithin(a + b, limit)
  {
  }

  /** A session acts on its first chunk, then on the rest. */
  lemma FirstChunk(host: Host, s: State, text: string, rest: seq<Recv>)
    requires |s.commands| < host.maxCommands && text != "" && !Type(host, s, text).done
    ensures Session(host, s, [Data(text)] + rest) == Session(host, Type(host, s, text), rest)
  {
    var inbox := [Data(text)] + rest;
    assert inbox[0] == Data(text) && inbox[1..] == rest;
  }

  lemma TypeOne(host: Host, s: State, c: char)
    ensures Type(host, s, [c]) == Press(host, s, c)
  {
    assert [c][..0] == "";
  }

  lemma LineEnds(host: Host, s: State)
    requires s.buffer == "x" && !s.done
    ensures
      var s' := Type(host, s, [LF]);
      s'.buffer == "" && !s'.done && |s'.commands| == |s.commands| + 1
  {
    LetterStrips();
    TypeOne(host, s, LF);
  }

  lemma LetterBegins(host: Host, s: State)
    requires s.buffer == "" && !s.done
    ensures
      var s' := Type(host, s, "x");
      s'.buffer == "x" && !s'.done && s'.commands == s.commands
  {
    var c: char :| c == 'x';
    TypeOne(host, s, c);
    assert [c] == "x" && "" + [c] == [c];
  }

  lemma AppendPair(a: Recv, b: Recv, c: seq<Recv>, rest: seq<Recv>)
    ensures ([a] + ([b] + c)) + rest == [a] + ([b] + (c + rest))
  {
  }

  /** Below the cap each such line records one command and leaves the next letter pending. */
  lemma {:induction false} DripRecords(host: Host, s: State, k: nat, rest: seq<Recv>) returns (s': State)
    requires s.buffer == "x" && !s.done && |s.commands| + k < host.maxCommands
    ensures s'.buffer == "x" && !s'.done && |s'.commands| == |s.commands| + k
    ensures Session(host, s, Drip(k) + rest) == Session(host, s', rest)
    decreases k
  {
    if k == 0 {
      s' := s;
      assert Drip(0) + rest == rest;
    } else {
      var more := Drip(k - 1) + rest;
      var ended := Type(host, s, [LF]);
      LineEnds(host, s);
      LetterBegins(host, ended);
      AppendPair(Data([LF]), Data("x"), Drip(k - 1), rest);
      FirstChunk(host, s, [LF], [Data("x")] + more);
      FirstChunk(host, ended, "x", more);
      s' := DripRecords(host, Type(host, ended, "x"), k - 1, rest);
    }
  }

  /** Reads within `limit` characters that overshoot the cap as far as possible: the longest
      burst of an odd length arrives when one command is missing. */
  function Overshooting(maxCommands: nat, limit: nat): seq<Recv>
    requires maxCommands >= 1 && limit >= 1
  {
    [Data("x")] + (Drip(maxCommands - 1) + [Data(Burst((limit - 1) / 2) + [LF])])
  }

  lemma OvershootingWithin(maxCommands: nat, limit: nat)
    requires maxCommands >= 1 && limit >= 1
    ensures ChunksWithin(Overshooting(maxCommands, limit), limit)
  {
    var drip, last := Drip(maxCommands - 1), [Data(Burst((limit - 1) / 2) + [LF])];
    DripWithin(maxCommands - 1, limit);
    BurstLength((limit - 1) / 2);
    WithinAppend(drip, last, limit);
    WithinAppend([Data("x")], drip + last, limit);
  }

  lemma {:induction false} BurstLength(k: nat)
    ensures |Burst(k)| == 2 * k
  {
    if k > 0 { BurstLength(k - 1); }
  }

  lemma LastBurst(host: Host, s: State, k: nat)
    requires s.buffer == "x" && !s.done && |s.commands| < host.maxCommands
    ensures |Session(host, s, [Data(Burst(k) + [LF])]).commands| == |s.commands| + k + 1
  {
    var text := Burst(k) + [LF];
    BoundIsAttained(host, s, k);
    var inbox := [Data(text)];
    assert inbox[1..] == [] && text != "";
    assert Session(host, Type(host, s, text), []) == Type(host, s, text);
  }

  lemma DripThenBurst(host: Host, s: State, k: nat)
    requires s.buffer == "x" && !s.done && s.commands == [] && host.maxCommands >= 1
    ensures |Session(host, s, Drip(host.maxCommands - 1) + [Data(Burst(k) + [LF])]).commands| == host.maxCommands + k
  {
    var last := [Data(Burst(k) + [LF])];
    var s' := DripRecords(host, s, host.maxCommands - 1, last);
    LastBurst(host, s', k);
  }

  /** `CapOvershoot` is met exactly: for every cap and every read size there is a session that ends
      with the bound; with `recv(1024)` that is `maxCommands + 511` commands. */
  lemma OvershootIsReached(host: Host, sent: string, limit: nat)
    requires host.maxCommands >= 1 && limit >= 1
    ensures ChunksWithin(Overshooting(host.maxCommands, limit), limit)
    ensures |Session(host, Start(host, [], sent), Overshooting(host.maxCommands, limit)).commands|
         == host.maxCommands - 1 + (limit + 1) / 2
    ensures limit == 1024 ==>
      |Session(host, Start(host, [], sent), Overshooting(host.maxCommands, limit)).commands| == host.maxCommands + 511
  {
    var start, k := Start(host, [], sent), (limit - 1) / 2;
    OvershootingWithin(host.maxCommands, limit);
    LetterBegins(host, start);
    FirstChunk(host, start, "x", Drip(host.maxCommands - 1) + [Data(Burst(k) + [LF])]);
    DripThenBurst(host, Type(host, start, "x"), k);
  }
}
