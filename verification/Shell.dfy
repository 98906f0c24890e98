/** The emulated shell: a line editor over received chunks. */
module Shell {

  const CR := '\r'
  const LF := '\n'
  const DEL := '\U{7F}'
  const ETX := '\U{3}'
  const BS := '\U{8}'

  /** Step back, blank the cell, step back again. */
  const ERASE: string := [BS, ' ', BS]

  /** What Python's `str.strip` removes. */
  predicate IsSpace(c: char) {
    var n := c as int;
    9 <= n <= 13 || 28 <= n <= 32 || n == 0x85 || n == 0xA0 || n == 0x1680 || 0x2000 <= n <= 0x200A ||
    n == 0x2028 || n == 0x2029 || n == 0x202F || n == 0x205F || n == 0x3000
  }

  function LStrip(s: string): string {
    if s != "" && IsSpace(s[0]) then LStrip(s[1..]) else s
  }

  function RStrip(s: string): string {
    if s != "" && IsSpace(s[|s| - 1]) then RStrip(s[..|s| - 1]) else s
  }

  function Strip(s: string): string { RStrip(LStrip(s)) }

  predicate IsLineEnd(c: char) { c == CR || c == LF }

  predicate IsExit(cmd: string) { cmd == "exit" || cmd == "logout" || cmd == "quit" }

  /** The text before the first blank. */
  function FirstWord(cmd: string): string {
    if cmd == "" || cmd[0] == ' ' then "" else [cmd[0]] + FirstWord(cmd[1..])
  }

  function Respond(responses: map<string, string>, cmd: string): string {
    if cmd in responses then responses[cmd] + "\r\n"
    else "-bash: " + FirstWord(cmd) + ": command not found\r\n"
  }

  /** The shell's settings and its canned answers. */
  datatype Host = Host(hostname: string, maxCommands: int, responses: map<string, string>)
  {
    function Prompt(): string { "root@" + hostname + ":~# " }

    function Welcome(): string {
      "Welcome to Ubuntu 22.04.4 LTS (GNU/Linux 5.15.0-105-generic x86_64)\r\n\r\n"
    }
  }

  // --------------------------------------------------------- specification

  /** `done` is set once an exit word has ended the session. */
  datatype State = State(buffer: string, commands: seq<string>, sent: string, done: bool)

  function Start(host: Host, commands: seq<string>, sent: string): State {
    State("", commands, sent + host.Welcome() + host.Prompt(), false)
  }

  /** A line end: record the stripped line unless it is empty, answer it, prompt again. */
  function Enter(host: Host, s: State): State {
    var cmd := Strip(s.buffer);
    if cmd == "" then
      s.(buffer := "", sent := s.sent + "\r\n" + host.Prompt())
    else if IsExit(cmd) then
      State("", s.commands + [cmd], s.sent + "\r\n" + "logout\r\n", true)
    else
      State("", s.commands + [cmd], s.sent + "\r\n" + Respond(host.responses, cmd) + host.Prompt(), false)
  }

  /** One keystroke. */
  function Press(host: Host, s: State, c: char): State {
    if s.done then s
    else if IsLineEnd(c) then Enter(host, s)
    else if c == DEL then
      if s.buffer == "" then s
      else s.(buffer := s.buffer[..|s.buffer| - 1], sent := s.sent + ERASE)
    else if c == ETX then s.(buffer := "", sent := s.sent + ("^C\r\n" + host.Prompt()))
    else s.(buffer := s.buffer + [c], sent := s.sent + [c])
  }

  function Type(host: Host, s: State, text: string): State {
    if text == "" then s else Press(host, Type(host, s, text[..|text| - 1]), text[|text| - 1])
  }

  /** One `recv`: a timeout, or decoded text; empty text is end of input. */
  datatype Recv = Timeout | Data(text: string)

  /** The session on what `recv` yields before the deadline. */
  function Session(host: Host, s: State, inbox: seq<Recv>): State
    decreases |inbox|
  {
    if inbox == [] || |s.commands| >= host.maxCommands then s
    else match inbox[0]
      case Timeout => Session(host, s, inbox[1..])
      case Data(text) =>
        if text == "" then s
        else
          var s' := Type(host, s, text);
          if s'.done then s' else Session(host, s', inbox[1..])
  }

  // -------------------------------------------------------------- the shell

  class Channel {
    var inbox: seq<Recv>
    var sent: string

    method SendAll(data: string)
      modifies `sent
      ensures sent == old(sent) + data
    {
      sent := sent + data;
    }
  }

  class AttackRecord {
    var commands: seq<string>
  }

  /** What the mutable session holds between two keystrokes. */
  ghost predicate Holds(ch: Channel, record: AttackRecord, buffer: string, s: State)
    reads ch, record
  {
    ch.sent == s.sent && record.commands == s.commands && buffer == s.buffer
  }

  method PressKey(host: Host, ch: Channel, record: AttackRecord, buffer: string, c: char, ghost s: State)
    returns (buffer': string, exited: bool)
    requires !s.done && Holds(ch, record, buffer, s)
    modifies ch`sent, record
    ensures Holds(ch, record, buffer', Press(host, s, c)) && exited == Press(host, s, c).done
  {
    buffer', exited := buffer, false;
    if c == CR || c == LF {
      ch.SendAll("\r\n");
      var cmd := Strip(buffer);
      buffer' := "";
      if cmd != "" {
        record.commands := record.commands + [cmd];
        if IsExit(cmd) {
          ch.SendAll("logout\r\n");
          return buffer', true;
        }
        ch.SendAll(Respond(host.responses, cmd));
      }
      ch.SendAll(host.Prompt());
    } else if c == DEL {
      if buffer != "" {
        buffer' := buffer[..|buffer| - 1];
        ch.SendAll(ERASE);
      }
    } else if c == ETX {
      buffer' := "";
      ch.SendAll("^C\r\n" + host.Prompt());
    } else {
      buffer' := buffer + [c];
      ch.SendAll([c]);
    }
  }

  lemma {:induction false} DoneStays(host: Host, s: State, text: string)
    requires s.done
    ensures Type(host, s, text) == s
  {
    if text != "" { DoneStays(host, s, text[..|text| - 1]); }
  }

  lemma {:induction false} TypeConcat(host: Host, s: State, a: string, b: string)
    ensures Type(host, s, a + b) == Type(host, Type(host, s, a), b)
  {
    if b == "" {
      assert a + b == a;
    } else {
      TypeConcat(host, s, a, b[..|b| - 1]);
      assert (a + b)[..|a + b| - 1] == a + b[..|b| - 1];
    }
  }

  lemma OneMoreKey(host: Host, s: State, text: string, i: nat)
    requires i < |text|
    ensures Type(host, s, text[..i + 1]) == Press(host, Type(host, s, text[..i]), text[i])
    ensures Type(host, s, text[..i + 1]).done ==> Type(host, s, text) == Type(host, s, text[..i + 1])
  {
    assert text[..i + 1][..i] == text[..i];
    if Type(host, s, text[..i + 1]).done {
      assert text[..i + 1] + text[i + 1..] == text;
      TypeConcat(host, s, text[..i + 1], text[i + 1..]);
      DoneStays(host, Type(host, s, text[..i + 1]), text[i + 1..]);
    }
  }

  /** One chunk. */
  method TypeChunk(host: Host, ch: Channel, record: AttackRecord, buffer: string, text: string, ghost s: State)
    returns (buffer': string, exited: bool)
    requires !s.done && Holds(ch, record, buffer, s)
    modifies ch`sent, record
    ensures Holds(ch, record, buffer', Type(host, s, text)) && exited == Type(host, s, text).done
  {
    buffer', exited := buffer, false;
    for i := 0 to |text|
      invariant Holds(ch, record, buffer', Type(host, s, text[..i]))
      invariant !exited && !Type(host, s, text[..i]).done
    {
      OneMoreKey(host, s, text, i);
      buffer', exited := PressKey(host, ch, record, buffer', text[i], Type(host, s, text[..i]));
      if exited { return; }
    }
    assert text[..|text|] == text;
  }

  /** The emulated shell; the inbox running out stands for the deadline. */
  method FakeShell(host: Host, ch: Channel, record: AttackRecord)
    modifies ch, record
    ensures
      var s := Session(host, Start(host, old(record.commands), old(ch.sent)), old(ch.inbox));
      record.commands == s.commands && ch.sent == s.sent
  {
    ch.SendAll(host.Welcome());
    ch.SendAll(host.Prompt());
    var buffer := "";
    ghost var s := Start(host, record.commands, old(ch.sent));
    ghost var final := Session(host, s, ch.inbox);
    while ch.inbox != []
      invariant !s.done && Holds(ch, record, buffer, s)
      invariant Session(host, s, ch.inbox) == final
      decreases |ch.inbox|
    {
      if |record.commands| >= host.maxCommands { break; }
      var data := ch.inbox[0];
      ch.inbox := ch.inbox[1..];
      if data.Timeout? { continue; }
      if data.text == "" { break; }
      var exited;
      buffer, exited := TypeChunk(host, ch, record, buffer, data.text, s);
      s := Type(host, s, data.text);
      if exited { return; }
    }
  }

  // ------------------------------------------------------ chunk independence

  /** All text received before end of input. */
  function AllText(inbox: seq<Recv>): string {
    if inbox == [] then ""
    else match inbox[0]
      case Timeout => AllText(inbox[1..])
      case Data(text) => if text == "" then "" else text + AllText(inbox[1..])
  }

  /** The command cap ends the session while there is still something to receive. */
  predicate CapStops(host: Host, s: State, inbox: seq<Recv>)
    decreases |inbox|
  {
    inbox != [] &&
    (|s.commands| >= host.maxCommands ||
     match inbox[0]
     case Timeout => CapStops(host, s, inbox[1..])
     case Data(text) =>
       text != "" && !Type(host, s, text).done && CapStops(host, Type(host, s, text), inbox[1..]))
  }

  /** Unless the cap stops it, a session is the plain typing of all received text. */
  lemma {:induction false} SessionIsTyping(host: Host, s: State, inbox: seq<Recv>)
    requires !s.done && !CapStops(host, s, inbox)
    ensures Session(host, s, inbox) == Type(host, s, AllText(inbox))
    decreases |inbox|
  {
    if inbox != [] {
      match inbox[0]
      case Timeout => SessionIsTyping(host, s, inbox[1..]);
      case Data(text) =>
        if text != "" {
          var s', rest := Type(host, s, text), AllText(inbox[1..]);
          TypeConcat(host, s, text, rest);
          if s'.done { DoneStays(host, s', rest); } else { SessionIsTyping(host, s', inbox[1..]); }
        }
    }
  }

  /** Chunk independence: however the same keystrokes are split into chunks and whatever
      timeouts come between them, commands, buffer and output are identical. */
  lemma ChunkingIsInvisible(host: Host, s: State, inbox: seq<Recv>, inbox': seq<Recv>)
    requires !s.done && AllText(inbox) == AllText(inbox')
    requires !CapStops(host, s, inbox) && !CapStops(host, s, inbox')
    ensures Session(host, s, inbox) == Session(host, s, inbox')
  {
    SessionIsTyping(host, s, inbox);
    SessionIsTyping(host, s, inbox');
  }

  /** How many receives the session acts on. */
  function Consumed(host: Host, s: State, inbox: seq<Recv>): (n: nat)
    ensures n <= |inbox|
    decreases |inbox|
  {
    if inbox == [] || |s.commands| >= host.maxCommands then 0
    else match inbox[0]
      case Timeout => 1 + Consumed(host, s, inbox[1..])
      case Data(text) =>
        if text == "" then 0
        else
          var s' := Type(host, s, text);
          if s'.done then 1 else 1 + Consumed(host, s', inbox[1..])
  }

  /** Cap or not, a session is the typing of a whole number of chunks. */
  lemma {:induction false} SessionIsPrefixTyping(host: Host, s: State, inbox: seq<Recv>)
    requires !s.done
    ensures Session(host, s, inbox) == Type(host, s, AllText(inbox[..Consumed(host, s, inbox)]))
    decreases |inbox|
  {
    var n := Consumed(host, s, inbox);
    if n > 0 {
      assert inbox[..n][1..] == inbox[1..][..n - 1];
      match inbox[0]
      case Timeout => SessionIsPrefixTyping(host, s, inbox[1..]);
      case Data(text) =>
        var s', rest := Type(host, s, text), AllText(inbox[..n][1..]);
        TypeConcat(host, s, text, rest);
        if s'.done { DoneStays(host, s', rest); } else { SessionIsPrefixTyping(host, s', inbox[1..]); }
    }
  }
}
