/** The capture sinks: the lock-protected JSON Lines file and the fan-out. */
module CaptureLog {
  import opened Lists

  const NL := '\n'

  /** A line as it is written. */
  function Record(line: string): string { line + [NL] }

  // ------------------------------------------------------- the state machine

  /** Where a thread is inside `write`: outside, holding the lock, or with the file open and
      `written` characters of its record already in the file. */
  datatype Phase = Outside | Locked | Writing(written: nat)

  /** The lines a thread still has to write; the first one is current when it is inside. */
  datatype Thread = Thread(queue: seq<string>, phase: Phase)

  /** A write that is over: by whom, which line, how many characters reached the file. */
  datatype Attempt = Attempt(tid: nat, line: string, written: nat)

  datatype Log = Log(file: string, lock: Option<nat>, threads: seq<Thread>, attempts: seq<Attempt>)

  datatype Action =
    | Acquire(tid: nat)
    | OpenFile(tid: nat)
    | WriteChar(tid: nat)
    | Release(tid: nat)   // after the whole record
    | Fail(tid: nat)      // an exception inside the critical section: the lock is released all the same

  predicate Enabled(s: Log, a: Action) {
    a.tid < |s.threads| &&
    var th := s.threads[a.tid];
    match a
    case Acquire(_) => s.lock.None? && th.phase.Outside? && th.queue != []
    case OpenFile(_) => th.phase.Locked?
    case WriteChar(_) => th.phase.Writing? && th.queue != [] && th.phase.written < |Record(th.queue[0])|
    case Release(_) => th.phase.Writing? && th.queue != [] && th.phase.written == |Record(th.queue[0])|
    case Fail(_) => !th.phase.Outside? && th.queue != []
  }

  /** The thread leaves the critical section, its current line being over. */
  function Leave(s: Log, tid: nat, written: nat): Log
    requires tid < |s.threads| && s.threads[tid].queue != []
  {
    var q := s.threads[tid].queue;
    Log(s.file, None, s.threads[tid := Thread(q[1..], Outside)], s.attempts + [Attempt(tid, q[0], written)])
  }

  function Next(s: Log, a: Action): Log
    requires Enabled(s, a)
  {
    var t, th := a.tid, s.threads[a.tid];
    match a
    case Acquire(_) => s.(lock := Some(t), threads := s.threads[t := th.(phase := Locked)])
    case OpenFile(_) => s.(threads := s.threads[t := th.(phase := Writing(0))])
    case WriteChar(_) =>
      var k := th.phase.written;
      s.(file := s.file + [Record(th.queue[0])[k]], threads := s.threads[t := th.(phase := Writing(k + 1))])
    case Release(_) => Leave(s, t, th.phase.written)
    case Fail(_) => Leave(s, t, if th.phase.Writing? then th.phase.written else 0)
  }

  /** A process starts; `kept` is what the file already holds. */
  function Begin(kept: string, programs: seq<seq<string>>): Log {
    Log(kept, None, seq(|programs|, i requires 0 <= i < |programs| => Thread(programs[i], Outside)), [])
  }

  /** Any interleaving: actions that are not enabled do nothing. */
  function Exec(s: Log, schedule: seq<Action>): Log {
    if schedule == [] then s
    else
      var s', a := Exec(s, schedule[..|schedule| - 1]), schedule[|schedule| - 1];
      if Enabled(s', a) then Next(s', a) else s'
  }

  // --------------------------------------------------------------- invariant

  /** What the finished attempts left in the file. */
  function Render(attempts: seq<Attempt>): string
    requires forall i :: 0 <= i < |attempts| ==> attempts[i].written <= |Record(attempts[i].line)|
  {
    if attempts == [] then ""
    else
      var last := attempts[|attempts| - 1];
      Render(attempts[..|attempts| - 1]) + Record(last.line)[..last.written]
  }

  /** How much of its record the thread in the critical section has written. */
  function Written(th: Thread): nat { if th.phase.Writing? then th.phase.written else 0 }

  /** The file is the old content, what the finished attempts left and the lock holder's part. */
  ghost predicate Sound(kept: string, s: Log) {
    (forall i :: 0 <= i < |s.attempts| ==> s.attempts[i].written <= |Record(s.attempts[i].line)|) &&
    match s.lock
    case None =>
      (forall i :: 0 <= i < |s.threads| ==> s.threads[i].phase.Outside?) && s.file == kept + Render(s.attempts)
    case Some(h) =>
      h < |s.threads| && !s.threads[h].phase.Outside? && s.threads[h].queue != [] &&
      Written(s.threads[h]) <= |Record(s.threads[h].queue[0])| &&
      (forall i :: 0 <= i < |s.threads| && i != h ==> s.threads[i].phase.Outside?) &&
      s.file == kept + Render(s.attempts) + Record(s.threads[h].queue[0])[..Written(s.threads[h])]
  }

  lemma RenderAppend(attempts: seq<Attempt>, a: Attempt)
    requires forall i :: 0 <= i < |attempts| ==> attempts[i].written <= |Record(attempts[i].line)|
    requires a.written <= |Record(a.line)|
    ensures Render(attempts + [a]) == Render(attempts) + Record(a.line)[..a.written]
  {
    assert (attempts + [a])[..|attempts|] == attempts;
  }

  lemma WritingKeepsSound(kept: string, s: Log, a: Action)
    requires Sound(kept, s) && Enabled(s, a) && a.WriteChar?
    ensures Sound(kept, Next(s, a))
  {
    var r, k := Record(s.threads[a.tid].queue[0]), s.threads[a.tid].phase.written;
    assert r[..k + 1] == r[..k] + [r[k]];
    assert kept + Render(s.attempts) + r[..k + 1] == s.file + [r[k]];
  }

  lemma LeavingKeepsSound(kept: string, s: Log, a: Action)
    requires Sound(kept, s) && Enabled(s, a) && (a.Release? || a.Fail?)
    ensures Sound(kept, Next(s, a))
  {
    var th := s.threads[a.tid];
    RenderAppend(s.attempts, Attempt(a.tid, th.queue[0], Written(th)));
    Assoc(kept, Render(s.attempts), Record(th.queue[0])[..Written(th)]);
  }

  lemma NextKeepsSound(kept: string, s: Log, a: Action)
    requires Sound(kept, s) && Enabled(s, a)
    ensures Sound(kept, Next(s, a))
  {
    match a
    case Acquire(_) =>
      assert Record(s.threads[a.tid].queue[0])[..0] == "";
      assert kept + Render(s.attempts) + "" == kept + Render(s.attempts);
    case OpenFile(_) =>
    case WriteChar(_) => WritingKeepsSound(kept, s, a);
    case Release(_) => LeavingKeepsSound(kept, s, a);
    case Fail(_) => LeavingKeepsSound(kept, s, a);
  }

  lemma {:induction false} ExecKeepsSound(kept: string, s: Log, schedule: seq<Action>)
    requires Sound(kept, s)
    ensures Sound(kept, Exec(s, schedule))
  {
    if schedule != [] {
      var n := |schedule| - 1;
      ExecKeepsSound(kept, s, schedule[..n]);
      var s', a := Exec(s, schedule[..n]), schedule[n];
      if Enabled(s', a) { NextKeepsSound(kept, s', a); }
    }
  }

  lemma ReachableIsSound(kept: string, programs: seq<seq<string>>, schedule: seq<Action>)
    ensures Sound(kept, Exec(Begin(kept, programs), schedule))
  {
    assert kept + "" == kept;
    assert Sound(kept, Begin(kept, programs));
    ExecKeepsSound(kept, Begin(kept, programs), schedule);
  }

  // ------------------------------------------------------- per-thread order

  /** The lines thread `t` has dealt with, in order. */
  function LinesOf(attempts: seq<Attempt>, t: nat): seq<string> {
    if attempts == [] then []
    else
      var last := attempts[|attempts| - 1];
      LinesOf(attempts[..|attempts| - 1], t) + (if last.tid == t then [last.line] else [])
  }

  lemma LinesOfAppend(attempts: seq<Attempt>, a: Attempt, t: nat)
    ensures LinesOf(attempts + [a], t) == LinesOf(attempts, t) + (if a.tid == t then [a.line] else [])
  {
    assert (attempts + [a])[..|attempts|] == attempts;
  }

  lemma HeadMoves(done: seq<string>, queue: seq<string>)
    requires queue != []
    ensures done + [queue[0]] + queue[1..] == done + queue
  {
  }

  /** A step moves a line from the queue to the attempts, or neither changes. */
  lemma NextKeepsOrder(s: Log, a: Action, t: nat)
    requires Enabled(s, a) && t < |s.threads|
    ensures |Next(s, a).threads| == |s.threads|
    ensures LinesOf(Next(s, a).attempts, t) + Next(s, a).threads[t].queue == LinesOf(s.attempts, t) + s.threads[t].queue
  {
    if a.Release? || a.Fail? {
      var last := Next(s, a).attempts[|s.attempts|];
      LinesOfAppend(s.attempts, last, t);
      if a.tid == t {
        HeadMoves(LinesOf(s.attempts, t), s.threads[t].queue);
      } else {
        assert LinesOf(s.attempts, t) + [] == LinesOf(s.attempts, t);
      }
    }
  }

  /** What thread `t` has dealt with and still has to write make up its program, in order. */
  lemma {:induction false} OrderIsKept(kept: string, programs: seq<seq<string>>, schedule: seq<Action>, t: nat)
    requires t < |programs|
    ensures
      var s := Exec(Begin(kept, programs), schedule);
      |s.threads| == |programs| && LinesOf(s.attempts, t) + s.threads[t].queue == programs[t]
  {
    if schedule == [] {
      assert [] + programs[t] == programs[t];
    } else {
      var n := |schedule| - 1;
      OrderIsKept(kept, programs, schedule[..n], t);
      var s, a := Exec(Begin(kept, programs), schedule[..n]), schedule[n];
      if Enabled(s, a) { NextKeepsOrder(s, a, t); }
    }
  }

  // --------------------------------------------------------- one thread alone

  function Repeat(a: Action, n: nat): seq<Action> { if n == 0 then [] else Repeat(a, n - 1) + [a] }

  /** The steps of one undisturbed `write` of a record of `n` characters. */
  function Solo(t: nat, n: nat): seq<Action> { [Acquire(t), OpenFile(t)] + Repeat(WriteChar(t), n) + [Release(t)] }

  lemma ExecOne(s: Log, schedule: seq<Action>, a: Action)
    ensures Exec(s, schedule + [a])
         == (if Enabled(Exec(s, schedule), a) then Next(Exec(s, schedule), a) else Exec(s, schedule))
  {
    assert (schedule + [a])[..|schedule|] == schedule;
  }

  /** The state while thread `t` alone is writing. */
  function Busy(s: Log, t: nat, n: nat): Log
    requires t < |s.threads| && s.threads[t].queue != [] && n <= |Record(s.threads[t].queue[0])|
  {
    Log(s.file + Record(s.threads[t].queue[0])[..n], Some(t),
        s.threads[t := Thread(s.threads[t].queue, Writing(n))], s.attempts)
  }

  predicate Ready(s: Log, t: nat) {
    s.lock.None? && t < |s.threads| && s.threads[t].phase.Outside? && s.threads[t].queue != []
  }

  lemma SoloOpening(s: Log, t: nat)
    requires Ready(s, t)
    ensures Exec(s, [Acquire(t), OpenFile(t)]) == Busy(s, t, 0)
  {
    ExecOne(s, [], Acquire(t));
    ExecOne(s, [Acquire(t)], OpenFile(t));
    assert [] + [Acquire(t)] == [Acquire(t)];
    assert [Acquire(t)] + [OpenFile(t)] == [Acquire(t), OpenFile(t)];
    assert s.file + Record(s.threads[t].queue[0])[..0] == s.file;
  }

  lemma BusyStep(s: Log, t: nat, n: nat)
    requires Ready(s, t) && n < |Record(s.threads[t].queue[0])|
    ensures Enabled(Busy(s, t, n), WriteChar(t)) && Next(Busy(s, t, n), WriteChar(t)) == Busy(s, t, n + 1)
  {
    var r := Record(s.threads[t].queue[0]);
    assert s.file + r[..n] + [r[n]] == s.file + r[..n + 1];
  }

  lemma {:induction false} SoloWriting(s: Log, t: nat, n: nat)
    requires Ready(s, t) && n <= |Record(s.threads[t].queue[0])|
    ensures Exec(s, [Acquire(t), OpenFile(t)] + Repeat(WriteChar(t), n)) == Busy(s, t, n)
  {
    var opening := [Acquire(t), OpenFile(t)];
    if n == 0 {
      SoloOpening(s, t);
      assert opening + Repeat(WriteChar(t), 0) == opening;
    } else {
      SoloWriting(s, t, n - 1);
      ExecOne(s, opening + Repeat(WriteChar(t), n - 1), WriteChar(t));
      Assoc(opening, Repeat(WriteChar(t), n - 1), [WriteChar(t)]);
      BusyStep(s, t, n - 1);
    }
  }

  /** With the lock free, a write can always run to its end: it appends exactly its record,
      frees the lock and takes its line off the queue. */
  lemma SoloWrite(s: Log, t: nat)
    requires Ready(s, t)
    ensures
      var q := s.threads[t].queue;
      Exec(s, Solo(t, |Record(q[0])|))
        == Log(s.file + Record(q[0]), None, s.threads[t := Thread(q[1..], Outside)],
               s.attempts + [Attempt(t, q[0], |Record(q[0])|)])
  {
    var r := Record(s.threads[t].queue[0]);
    SoloWriting(s, t, |r|);
    ExecOne(s, [Acquire(t), OpenFile(t)] + Repeat(WriteChar(t), |r|), Release(t));
    assert r[..|r|] == r;
  }

  // --------------------------------------------------- reading the file back

  /** The complete lines of a text, and what follows the last newline. */
  datatype Text = Text(lines: seq<string>, rest: string)

  function Read(file: string): Text {
    if file == "" then Text([], "")
    else
      var t, c := Read(file[..|file| - 1]), file[|file| - 1];
      if c == NL then Text(t.lines + [t.rest], "") else t.(rest := t.rest + [c])
  }

  predicate OneLine(line: string) { NL !in line }

  lemma ReadOne(file: string, c: char)
    requires c != NL
    ensures Read(file + [c]) == Text(Read(file).lines, Read(file).rest + [c])
  {
    assert (file + [c])[..|file|] == file;
  }

  lemma {:induction false} ReadMore(file: string, part: string)
    requires OneLine(part)
    ensures Read(file + part) == Text(Read(file).lines, Read(file).rest + part)
  {
    if part == "" {
      assert file + part == file;
      assert Read(file).rest + "" == Read(file).rest;
    } else {
      var n := |part| - 1;
      assert OneLine(part[..n]) && part[n] != NL;
      ReadMore(file, part[..n]);
      ReadOne(file + part[..n], part[n]);
      SplitLast(file, part);
      SplitLast(Read(file).rest, part);
    }
  }

  lemma ReadLineEnd(file: string)
    ensures Read(file + [NL]) == Text(Read(file).lines + [Read(file).rest], "")
  {
    assert (file + [NL])[..|file|] == file;
  }

  lemma ReadRecord(file: string, line: string)
    requires OneLine(line)
    ensures Read(file + Record(line)) == Text(Read(file).lines + [Read(file).rest + line], "")
  {
    ReadMore(file, line);
    ReadLineEnd(file + line);
    Assoc(file, line, [NL]);
  }

  /** A text behind a text: the first line of `b` completes the open line of `a`. */
  function Join(a: Text, b: Text): Text {
    if b.lines == [] then Text(a.lines, a.rest + b.rest)
    else Text(a.lines + [a.rest + b.lines[0]] + b.lines[1..], b.rest)
  }

  lemma JoinChar(a: Text, b: Text, c: char)
    ensures Join(a, Text(b.lines, b.rest + [c])) == Text(Join(a, b).lines, Join(a, b).rest + [c])
  {
    Assoc(a.rest, b.rest, [c]);
  }

  lemma JoinLineEnd(a: Text, b: Text)
    ensures Join(a, Text(b.lines + [b.rest], "")) == Text(Join(a, b).lines + [Join(a, b).rest], "")
  {
    if b.lines != [] {
      assert (b.lines + [b.rest])[1..] == b.lines[1..] + [b.rest];
    }
  }

  lemma {:induction false} ReadJoin(a: string, b: string)
    ensures Read(a + b) == Join(Read(a), Read(b))
  {
    if b == "" {
      assert a + b == a && Read(a).rest + "" == Read(a).rest;
    } else {
      var p, c := b[..|b| - 1], b[|b| - 1];
      ReadJoin(a, p);
      SplitLast(a, b);
      if c == NL {
        ReadLineEnd(a + p);
        JoinLineEnd(Read(a), Read(p));
      } else {
        ReadOne(a + p, c);
        JoinChar(Read(a), Read(p), c);
      }
    }
  }

  lemma JoinClosed(lines: seq<string>, b: Text)
    ensures Join(Text(lines, ""), b) == Text(lines + b.lines, b.rest)
  {
    if b.lines == [] {
      assert lines + b.lines == lines && "" + b.rest == b.rest;
    } else {
      assert "" + b.lines[0] == b.lines[0];
      assert b.lines == [b.lines[0]] + b.lines[1..];
    }
  }

  function Length(lines: seq<string>): nat {
    if lines == [] then 0 else Length(lines[..|lines| - 1]) + |lines[|lines| - 1]| + 1
  }

  lemma LengthAppend(lines: seq<string>, line: string)
    ensures Length(lines + [line]) == Length(lines) + |line| + 1
  {
    assert (lines + [line])[..|lines|] == lines;
  }

  lemma {:induction false} LengthConcat(a: seq<string>, b: seq<string>)
    ensures Length(a + b) == Length(a) + Length(b)
  {
    if b == [] {
      assert a + b == a;
    } else {
      var n := |b| - 1;
      LengthConcat(a, b[..n]);
      assert (a + b)[..|a| + n] == a + b[..n];
    }
  }

  function TextLength(t: Text): nat { Length(t.lines) + |t.rest| }

  lemma JoinLength(a: Text, b: Text)
    ensures TextLength(Join(a, b)) == TextLength(a) + TextLength(b)
  {
    if b.lines != [] {
      var first, more := b.lines[0], b.lines[1..];
      LengthConcat(a.lines + [a.rest + first], more);
      LengthAppend(a.lines, a.rest + first);
      LengthConcat([first], more);
      LengthAppend([], first);
      assert [] + [first] == [first] && b.lines == [first] + more;
    }
  }

  lemma {:induction false} ReadLength(file: string)
    ensures |file| == TextLength(Read(file))
  {
    if file != "" {
      var t := Read(file[..|file| - 1]);
      ReadLength(file[..|file| - 1]);
      LengthAppend(t.lines, t.rest);
    }
  }

  /** The lines that reached the file completely, in order. */
  function Finished(attempts: seq<Attempt>): seq<string> {
    if attempts == [] then []
    else
      var last := attempts[|attempts| - 1];
      Finished(attempts[..|attempts| - 1]) + (if last.written == |Record(last.line)| then [last.line] else [])
  }

  /** A write that failed with part of its record in the file. */
  predicate Torn(a: Attempt) { 0 < a.written < |Record(a.line)| }

  ghost predicate NoneTorn(attempts: seq<Attempt>) { forall i :: 0 <= i < |attempts| ==> !Torn(attempts[i]) }

  ghost predicate AttemptsOk(attempts: seq<Attempt>) {
    forall i :: 0 <= i < |attempts| ==> attempts[i].written <= |Record(attempts[i].line)| && OneLine(attempts[i].line)
  }

  lemma {:induction false} RenderReads(attempts: seq<Attempt>)
    requires AttemptsOk(attempts) && NoneTorn(attempts)
    ensures Read(Render(attempts)) == Text(Finished(attempts), "")
  {
    if attempts != [] {
      var n := |attempts| - 1;
      var before := Render(attempts[..n]);
      RenderReads(attempts[..n]);
      var last := attempts[n];
      assert !Torn(last);
      if last.written == 0 {
        assert before + Record(last.line)[..0] == before;
        assert Finished(attempts[..n]) + [] == Finished(attempts[..n]);
      } else {
        assert Record(last.line)[..last.written] == Record(last.line);
        ReadRecord(before, last.line);
        assert "" + last.line == last.line;
      }
    }
  }

  /** Torn writes are exactly the excess of the file over its finished lines. */
  lemma {:induction false} RenderLength(attempts: seq<Attempt>)
    requires AttemptsOk(attempts)
    ensures |Render(attempts)| >= Length(Finished(attempts))
    ensures |Render(attempts)| == Length(Finished(attempts)) <==> NoneTorn(attempts)
  {
    if attempts != [] {
      var n := |attempts| - 1;
      RenderLength(attempts[..n]);
      LengthAppend(Finished(attempts[..n]), attempts[n].line);
      assert Finished(attempts[..n]) + [] == Finished(attempts[..n]);
      assert NoneTorn(attempts) <==> NoneTorn(attempts[..n]) && !Torn(attempts[n]);
    }
  }

  /** The record being written right now, cut at what is in the file already. */
  function Current(s: Log): string {
    if s.lock.Some? && s.lock.value < |s.threads| && s.threads[s.lock.value].queue != [] then
      var th := s.threads[s.lock.value];
      var r := Record(th.queue[0]);
      if Written(th) <= |r| then r[..Written(th)] else r
    else ""
  }

  ghost predicate JsonPrograms(programs: seq<seq<string>>) {
    forall i, j :: 0 <= i < |programs| && 0 <= j < |programs[i]| ==> OneLine(programs[i][j])
  }

  ghost predicate JsonLog(s: Log) {
    (forall i :: 0 <= i < |s.attempts| ==> OneLine(s.attempts[i].line)) &&
    (forall i, line :: 0 <= i < |s.threads| && line in s.threads[i].queue ==> OneLine(line))
  }

  lemma NextStaysJson(s: Log, a: Action)
    requires JsonLog(s) && Enabled(s, a)
    ensures JsonLog(Next(s, a))
  {
    var q := s.threads[a.tid].queue;
    if q != [] {
      assert q[0] in q;
      assert forall line :: line in q[1..] ==> line in q;
    }
  }

  lemma {:induction false} LinesStayJson(kept: string, programs: seq<seq<string>>, schedule: seq<Action>)
    requires JsonPrograms(programs)
    ensures JsonLog(Exec(Begin(kept, programs), schedule))
  {
    if schedule != [] {
      var n := |schedule| - 1;
      LinesStayJson(kept, programs, schedule[..n]);
      var s, a := Exec(Begin(kept, programs), schedule[..n]), schedule[n];
      if Enabled(s, a) { NextStaysJson(s, a); }
    }
  }

  /** What this process should have written: every finished record once, then the lock holder's part. */
  function Due(s: Log): Text {
    Text(Finished(s.attempts) + Read(Current(s)).lines, Read(Current(s)).rest)
  }

  /** The file as it should read: the old lines, then what is due. */
  ghost predicate WholeLines(kept: string, s: Log) {
    Read(s.file) == Text(Read(kept).lines + Due(s).lines, Due(s).rest)
  }

  lemma FileSplits(kept: string, s: Log)
    requires Sound(kept, s)
    ensures s.file == kept + (Render(s.attempts) + Current(s))
  {
    Assoc(kept, Render(s.attempts), Current(s));
  }

  lemma DueReads(kept: string, s: Log)
    requires Sound(kept, s) && AttemptsOk(s.attempts) && NoneTorn(s.attempts)
    ensures Read(Render(s.attempts) + Current(s)) == Due(s)
  {
    RenderReads(s.attempts);
    ReadJoin(Render(s.attempts), Current(s));
    JoinClosed(Finished(s.attempts), Read(Current(s)));
  }

  lemma DueLength(s: Log)
    requires AttemptsOk(s.attempts)
    ensures TextLength(Due(s)) <= |Render(s.attempts) + Current(s)|
    ensures TextLength(Due(s)) == |Render(s.attempts) + Current(s)| <==> NoneTorn(s.attempts)
  {
    ReadLength(Current(s));
    LengthConcat(Finished(s.attempts), Read(Current(s)).lines);
    RenderLength(s.attempts);
  }

  /** What was written is appended to the old text exactly when no attempt left part of a record behind. */
  lemma AppendedByAttempts(kept: string, s: Log)
    requires Sound(kept, s) && AttemptsOk(s.attempts)
    ensures Read(s.file) == Join(Read(kept), Due(s)) <==> NoneTorn(s.attempts)
  {
    FileSplits(kept, s);
    DueLength(s);
    if NoneTorn(s.attempts) {
      DueReads(kept, s);
      ReadJoin(kept, Render(s.attempts) + Current(s));
    }
    ReadLength(kept);
    ReadLength(s.file);
    JoinLength(Read(kept), Due(s));
  }

  /** It comes after the old lines, whole, exactly when moreover the old text ends with a line end. */
  lemma WholeByAttempts(kept: string, s: Log)
    requires Sound(kept, s) && AttemptsOk(s.attempts)
    ensures WholeLines(kept, s) <==> Read(kept).rest == "" && NoneTorn(s.attempts)
  {
    if Read(kept).rest == "" {
      AppendedByAttempts(kept, s);
      JoinClosed(Read(kept).lines, Due(s));
    } else {
      FileSplits(kept, s);
      DueLength(s);
      ReadLength(kept);
      ReadLength(s.file);
      LengthConcat(Read(kept).lines, Due(s).lines);
    }
  }

  lemma ReachableAttempts(kept: string, programs: seq<seq<string>>, schedule: seq<Action>)
    requires JsonPrograms(programs)
    ensures
      var s := Exec(Begin(kept, programs), schedule);
      Sound(kept, s) && AttemptsOk(s.attempts)
  {
    ReachableIsSound(kept, programs, schedule);
    LinesStayJson(kept, programs, schedule);
  }

  /** Action `a` would be an exception that strikes while part of a record, but not all of it, is
      in the file. */
  predicate Tears(s: Log, a: Action) {
    a.Fail? && Enabled(s, a) && 0 < Written(s.threads[a.tid]) < |Record(s.threads[a.tid].queue[0])|
  }

  /** Step `i` of the schedule is such an exception. */
  predicate TearsAt(start: Log, schedule: seq<Action>, i: nat)
    requires i < |schedule|
  {
    Tears(Exec(start, schedule[..i]), schedule[i])
  }

  ghost predicate NeverTears(start: Log, schedule: seq<Action>) {
    forall i :: 0 <= i < |schedule| ==> !TearsAt(start, schedule, i)
  }

  lemma NoneTornAppend(attempts: seq<Attempt>, a: Attempt)
    ensures NoneTorn(attempts + [a]) <==> NoneTorn(attempts) && !Torn(a)
  {
    var more := attempts + [a];
    assert more[|attempts|] == a;
    assert forall i :: 0 <= i < |attempts| ==> more[i] == attempts[i];
  }

  /** A step leaves a torn attempt behind exactly when it tears. */
  lemma StepTears(s: Log, a: Action)
    requires Enabled(s, a)
    ensures NoneTorn(Next(s, a).attempts) <==> NoneTorn(s.attempts) && !Tears(s, a)
  {
    if a.Release? || a.Fail? {
      NoneTornAppend(s.attempts, Next(s, a).attempts[|s.attempts|]);
    }
  }

  lemma TearsEarlier(start: Log, schedule: seq<Action>, n: nat, i: nat)
    requires i < n <= |schedule|
    ensures TearsAt(start, schedule[..n], i) <==> TearsAt(start, schedule, i)
  {
    assert schedule[..n][..i] == schedule[..i];
  }

  lemma NeverTearsLast(start: Log, schedule: seq<Action>, n: nat)
    requires |schedule| == n + 1
    ensures NeverTears(start, schedule) <==> NeverTears(start, schedule[..n]) && !TearsAt(start, schedule, n)
  {
    forall i: nat | i < n
      ensures TearsAt(start, schedule[..n], i) <==> TearsAt(start, schedule, i)
    {
      TearsEarlier(start, schedule, n, i);
    }
  }

  lemma {:induction false} NoneTornIff(start: Log, schedule: seq<Action>)
    requires start.attempts == []
    ensures NoneTorn(Exec(start, schedule).attempts) <==> NeverTears(start, schedule)
  {
    if schedule != [] {
      var n := |schedule| - 1;
      NoneTornIff(start, schedule[..n]);
      NeverTearsLast(start, schedule, n);
      var s, a := Exec(start, schedule[..n]), schedule[n];
      if Enabled(s, a) { StepTears(s, a); }
    }
  }

  /** Whole-line log: for any number of threads, any programs of one-line records, any interleaving
      and any old content, the file reads as the old lines, exactly the finished records in order
      and the lock holder's part, if and only if the old content ends with a line end and no
      exception strikes a thread part-way through a record. */
  lemma WholeLinesIff(kept: string, programs: seq<seq<string>>, schedule: seq<Action>)
    requires JsonPrograms(programs)
    ensures WholeLines(kept, Exec(Begin(kept, programs), schedule))
       <==> Read(kept).rest == "" && NeverTears(Begin(kept, programs), schedule)
  {
    ReachableAttempts(kept, programs, schedule);
    WholeByAttempts(kept, Exec(Begin(kept, programs), schedule));
    NoneTornIff(Begin(kept, programs), schedule);
  }

  /** Whatever the old content, an open last line costs the first new record only: what is due is
      joined to the old text, its first line glued to the open one and all others whole, if and
      only if no exception strikes part-way through a record. */
  lemma AppendedIff(kept: string, programs: seq<seq<string>>, schedule: seq<Action>)
    requires JsonPrograms(programs)
    ensures
      var s := Exec(Begin(kept, programs), schedule);
      Read(s.file) == Join(Read(kept), Due(s)) <==> NeverTears(Begin(kept, programs), schedule)
  {
    ReachableAttempts(kept, programs, schedule);
    AppendedByAttempts(kept, Exec(Begin(kept, programs), schedule));
    NoneTornIff(Begin(kept, programs), schedule);
  }

  ghost predicate FaultFree(schedule: seq<Action>) { forall i :: 0 <= i < |schedule| ==> !schedule[i].Fail? }

  lemma FaultFreeNeverTears(start: Log, schedule: seq<Action>)
    requires FaultFree(schedule)
    ensures NeverTears(start, schedule)
  {
  }

  /** Without exceptions every interleaving of lock, open, character-write and unlock steps
      appends whole records and at most the lock holder's part; they follow the old lines exactly
      when the old content ends with a line end. */
  lemma FaultFreeIsWhole(kept: string, programs: seq<seq<string>>, schedule: seq<Action>)
    requires JsonPrograms(programs) && FaultFree(schedule)
    ensures
      var s := Exec(Begin(kept, programs), schedule);
      Read(s.file) == Join(Read(kept), Due(s)) && (WholeLines(kept, s) <==> Read(kept).rest == "")
  {
    FaultFreeNeverTears(Begin(kept, programs), schedule);
    AppendedIff(kept, programs, schedule);
    WholeLinesIff(kept, programs, schedule);
  }

  /** An exception after one of two characters does tear the file. */
  lemma TearingIsReachable()
    ensures !WholeLines("", Exec(Begin("", [["a"]]), [Acquire(0), OpenFile(0), WriteChar(0), Fail(0)]))
  {
    var s := Begin("", [["a"]]);
    var opening := [Acquire(0), OpenFile(0)];
    assert Record("a")[0] == 'a';
    SoloWriting(s, 0, 1);
    var writing := opening + Repeat(WriteChar(0), 1);
    assert Repeat(WriteChar(0), 1) == [WriteChar(0)];
    assert writing == [Acquire(0), OpenFile(0), WriteChar(0)];
    var schedule := writing + [Fail(0)];
    assert schedule[..3] == writing && schedule[3] == Fail(0);
    assert TearsAt(s, schedule, 3);
    assert schedule == [Acquire(0), OpenFile(0), WriteChar(0), Fail(0)];
    WholeLinesIff("", [["a"]], schedule);
  }

  lemma {:induction false} RepeatIsFaultFree(t: nat, n: nat)
    ensures FaultFree(Repeat(WriteChar(t), n))
  {
    if n > 0 { RepeatIsFaultFree(t, n - 1); }
  }

  lemma SoloIsFaultFree(t: nat, n: nat)
    ensures FaultFree(Solo(t, n))
  {
    RepeatIsFaultFree(t, n);
  }

  /** A new process that finds an open line, as a killed one may leave it, glues its first record
      to it although nothing fails: an open `x` and the record `a` give the line `xa`. */
  lemma OpenLineIsGlued(kept: string, line: string)
    requires OneLine(line)
    ensures
      var start, schedule := Begin(kept, [[line]]), Solo(0, |line| + 1);
      FaultFree(schedule) &&
      Read(Exec(start, schedule).file) == Text(Read(kept).lines + [Read(kept).rest + line], "")
  {
    var start := Begin(kept, [[line]]);
    SoloIsFaultFree(0, |line| + 1);
    assert start.threads[0].queue[0] == line;
    SoloWrite(start, 0);
    ReadRecord(kept, line);
  }

  lemma OpenLineBreaks()
    ensures
      var s := Exec(Begin("x", [["a"]]), Solo(0, 2));
      s.file == "xa\n" && !WholeLines("x", s)
  {
    var start := Begin("x", [["a"]]);
    assert start.threads[0].queue[0] == "a" && |Record("a")| == 2;
    SoloWrite(start, 0);
    assert "x" + Record("a") == "xa\n";
    assert "x" == "" + ['x'];
    ReadOne("", 'x');
    WholeLinesIff("x", [["a"]], Solo(0, 2));
  }

  /** A process that is killed leaves the file closed for the next one exactly when it is not
      part-way through a record. */
  lemma KilledLeavesClosed(kept: string, programs: seq<seq<string>>, schedule: seq<Action>)
    requires JsonPrograms(programs) && Read(kept).rest == "" && NeverTears(Begin(kept, programs), schedule)
    ensures
      var s := Exec(Begin(kept, programs), schedule);
      Read(s.file).rest == "" <==> Current(s) == "" || Current(s)[|Current(s)| - 1] == NL
  {
    WholeLinesIff(kept, programs, schedule);
  }

  // ------------------------------------------------- order and progress

  ghost predicate Complete(attempts: seq<Attempt>) {
    forall i :: 0 <= i < |attempts| ==> attempts[i].written == |Record(attempts[i].line)|
  }

  lemma StepKeepsComplete(s: Log, a: Action)
    requires Enabled(s, a) && !a.Fail? && Complete(s.attempts)
    ensures Complete(Next(s, a).attempts)
  {
  }

  lemma {:induction false} FaultFreeIsComplete(start: Log, schedule: seq<Action>)
    requires start.attempts == [] && FaultFree(schedule)
    ensures Complete(Exec(start, schedule).attempts)
  {
    if schedule != [] {
      var n := |schedule| - 1;
      FaultFreeIsComplete(start, schedule[..n]);
      if Enabled(Exec(start, schedule[..n]), schedule[n]) {
        StepKeepsComplete(Exec(start, schedule[..n]), schedule[n]);
      }
    }
  }

  lemma {:induction false} CompleteAreFinished(attempts: seq<Attempt>)
    requires Complete(attempts)
    ensures |Finished(attempts)| == |attempts|
    ensures forall i :: 0 <= i < |attempts| ==> Finished(attempts)[i] == attempts[i].line
  {
    if attempts != [] { CompleteAreFinished(attempts[..|attempts| - 1]); }
  }

  lemma JoinedLine(a: Text, b: Text, i: nat)
    requires i < |b.lines|
    ensures
      var n := |a.lines|;
      |Join(a, b).lines| == n + |b.lines| && Join(a, b).lines[..n] == a.lines &&
      Join(a, b).lines[n + i] == (if i == 0 then a.rest else "") + b.lines[i]
  {
    assert "" + b.lines[i] == b.lines[i];
  }

  /** Without exceptions the new line number `i` of the file is that of attempt `i` (the first one
      behind the old open line), and the lines of each thread are a prefix of its program, all of
      it once its queue is empty. */
  lemma FileOrder(kept: string, programs: seq<seq<string>>, schedule: seq<Action>, t: nat, i: nat)
    requires JsonPrograms(programs) && FaultFree(schedule) && t < |programs|
    ensures
      var s, n := Exec(Begin(kept, programs), schedule), |Read(kept).lines|;
      |s.threads| == |programs| && LinesOf(s.attempts, t) <= programs[t] &&
      (s.threads[t].queue == [] ==> LinesOf(s.attempts, t) == programs[t]) &&
      (i < |s.attempts| ==>
        |Read(s.file).lines| > n + i &&
        Read(s.file).lines[n + i] == (if i == 0 then Read(kept).rest else "") + s.attempts[i].line)
  {
    var s := Exec(Begin(kept, programs), schedule);
    OrderIsKept(kept, programs, schedule, t);
    FaultFreeIsWhole(kept, programs, schedule);
    FaultFreeIsComplete(Begin(kept, programs), schedule);
    CompleteAreFinished(s.attempts);
    if i < |s.attempts| { JoinedLine(Read(kept), Due(s), i); }
  }

  /** The steps a queue takes without exceptions: lock, open, one for each character, unlock. */
  function Cost(queue: seq<string>): nat {
    if queue == [] then 0 else |Record(queue[0])| + 3 + Cost(queue[1..])
  }

  function Spent(phase: Phase): nat {
    match phase
    case Outside => 0
    case Locked => 1
    case Writing(written) => 2 + written
  }

  /** The steps still to take. */
  function Left(threads: seq<Thread>): int {
    if threads == [] then 0
    else
      var th := threads[|threads| - 1];
      Left(threads[..|threads| - 1]) + Cost(th.queue) - Spent(th.phase)
  }

  lemma {:induction false} LeftUpdate(threads: seq<Thread>, t: nat, th: Thread)
    requires t < |threads|
    ensures Left(threads[t := th]) == Left(threads)
      - (Cost(threads[t].queue) - Spent(threads[t].phase)) + Cost(th.queue) - Spent(th.phase)
  {
    var n := |threads| - 1;
    if t < n {
      LeftUpdate(threads[..n], t, th);
      assert threads[t := th][..n] == threads[..n][t := th];
    } else {
      assert threads[t := th][..n] == threads[..n];
    }
  }

  /** Every step uses one up; an exception may save some. */
  lemma StepCosts(kept: string, s: Log, a: Action)
    requires Sound(kept, s) && Enabled(s, a)
    ensures Left(Next(s, a).threads) < Left(s.threads)
    ensures !a.Fail? ==> Left(Next(s, a).threads) == Left(s.threads) - 1
  {
    LeftUpdate(s.threads, a.tid, Next(s, a).threads[a.tid]);
    assert Next(s, a).threads == s.threads[a.tid := Next(s, a).threads[a.tid]];
  }

  ghost predicate Drained(s: Log) { forall t :: 0 <= t < |s.threads| ==> s.threads[t].queue == [] }

  lemma {:induction false} LeftIsSafe(kept: string, s: Log, threads: seq<Thread>)
    requires Sound(kept, s) && threads <= s.threads
    ensures Left(threads) >= 0
  {
    if threads != [] {
      var n := |threads| - 1;
      LeftIsSafe(kept, s, threads[..n]);
      assert s.threads[n] == threads[n];
    }
  }

  /** No deadlock: in a sound state with a line left some step other than an exception is possible. */
  lemma Progress(kept: string, s: Log) returns (a: Action)
    requires Sound(kept, s) && !Drained(s)
    ensures Enabled(s, a) && !a.Fail?
  {
    match s.lock
    case None =>
      var t :| 0 <= t < |s.threads| && s.threads[t].queue != [];
      a := Acquire(t);
    case Some(h) =>
      var th := s.threads[h];
      a := if th.phase.Locked? then OpenFile(h)
           else if th.phase.written < |Record(th.queue[0])| then WriteChar(h) else Release(h);
  }

  lemma FaultFreeAppend(schedule: seq<Action>, a: Action)
    requires FaultFree(schedule) && !a.Fail?
    ensures FaultFree([a] + schedule)
  {
  }

  lemma {:induction false} ExecConcat(s: Log, a: seq<Action>, b: seq<Action>)
    ensures Exec(s, a + b) == Exec(Exec(s, a), b)
  {
    if b == [] {
      assert a + b == a;
    } else {
      var p, x := b[..|b| - 1], b[|b| - 1];
      ExecConcat(s, a, p);
      SplitLast(a, b);
      Snoc(b);
      ExecOne(s, a + p, x);
      ExecOne(Exec(s, a), p, x);
    }
  }

  lemma {:induction false} Drain(kept: string, s: Log) returns (more: seq<Action>)
    requires Sound(kept, s)
    ensures FaultFree(more) && |more| <= Left(s.threads) && Drained(Exec(s, more)) && Exec(s, more).lock.None?
    decreases Left(s.threads)
  {
    LeftIsSafe(kept, s, s.threads);
    if Drained(s) {
      more := [];
    } else {
      var a := Progress(kept, s);
      NextKeepsSound(kept, s, a);
      StepCosts(kept, s, a);
      LeftIsSafe(kept, Next(s, a), Next(s, a).threads);
      var rest := Drain(kept, Next(s, a));
      more := [a] + rest;
      FaultFreeAppend(rest, a);
      ExecConcat(s, [a], rest);
      ExecOne(s, [], a);
      assert [] + [a] == [a];
    }
  }

  /** From every reachable state, exceptions before it or not, all threads can write all their
      remaining lines and leave the lock free. */
  lemma CanFinish(kept: string, programs: seq<seq<string>>, schedule: seq<Action>) returns (more: seq<Action>)
    ensures
      var s := Exec(Begin(kept, programs), schedule + more);
      FaultFree(more) && Drained(s) && s.lock.None?
  {
    ReachableIsSound(kept, programs, schedule);
    more := Drain(kept, Exec(Begin(kept, programs), schedule));
    ExecConcat(Begin(kept, programs), schedule, more);
  }

  /** At most one thread is in the critical section, and it holds the lock. */
  lemma MutualExclusion(kept: string, programs: seq<seq<string>>, schedule: seq<Action>, i: nat)
    ensures
      var s := Exec(Begin(kept, programs), schedule);
      i < |s.threads| && !s.threads[i].phase.Outside? ==> s.lock == Some(i)
  {
    ReachableIsSound(kept, programs, schedule);
  }

  // ------------------------------------------------------------- the sink

  /** The file sink as one thread runs it; `reach` is how many characters get into the file
      before an exception, or the whole record when there is none. */
  class JsonlSink {
    var locked: bool
    var file: string

    constructor (kept: string)
      ensures !locked && file == kept
    {
      locked, file := false, kept;
    }

    method Write(line: string, reach: nat) returns (raised: bool)
      requires !locked
      modifies this
      ensures !locked
      ensures raised <==> reach < |Record(line)|
      ensures file == old(file) + Record(line)[..Min(reach, |Record(line)|)]
    {
      locked := true;
      var data := line + [NL];
      var i := 0;
      while i < |data| && i < reach
        invariant 0 <= i <= |data| && i <= reach
        invariant file == old(file) + data[..i]
      {
        file := file + [data[i]];
        i := i + 1;
      }
      locked := false;
      raised := i < |data|;
    }
  }

  // ------------------------------------------------------------- the fan-out

  /** The order in which sinks are called. */
  class Trace {
    ghost var calls: seq<Sink>
  }

  /** A sink; its n-th write raises when `fails(n)`. */
  class Sink {
    const fails: nat -> bool
    var attempts: seq<string>
    var stored: seq<string>

    constructor (fails: nat -> bool)
      ensures this.fails == fails && attempts == [] && stored == []
    {
      this.fails := fails;
      attempts, stored := [], [];
    }

    ghost predicate Valid()
      reads this
    {
      stored == Succeeded(fails, attempts)
    }

    method Write(record: string, ghost trace: Trace) returns (raised: bool)
      requires Valid()
      modifies this, trace
      ensures Valid() && attempts == old(attempts) + [record]
      ensures raised == fails(|old(attempts)|)
      ensures stored == old(stored) + (if raised then [] else [record])
      ensures trace.calls == old(trace.calls) + [this]
    {
      trace.calls := trace.calls + [this];
      raised := fails(|attempts|);
      assert (attempts + [record])[..|attempts|] == attempts;
      assert stored + [] == stored;
      attempts := attempts + [record];
      if !raised {
        stored := stored + [record];
      }
    }
  }

  /** The writes that did not raise. */
  function Succeeded(fails: nat -> bool, attempts: seq<string>): seq<string> {
    if attempts == [] then []
    else
      var n := |attempts| - 1;
      Succeeded(fails, attempts[..n]) + (if fails(n) then [] else [attempts[n]])
  }

  /** A record is stored exactly when one of the writes of it did not raise. */
  lemma {:induction false} StoredIff(fails: nat -> bool, attempts: seq<string>, record: string)
    ensures record in Succeeded(fails, attempts)
       <==> exists n :: 0 <= n < |attempts| && attempts[n] == record && !fails(n)
  {
    if attempts != [] { StoredIff(fails, attempts[..|attempts| - 1], record); }
  }

  function Occurrences(sinks: seq<Sink>, s: Sink): nat {
    if sinks == [] then 0
    else Occurrences(sinks[..|sinks| - 1], s) + (if sinks[|sinks| - 1] == s then 1 else 0)
  }

  function Copies(record: string, n: nat): seq<string> { seq(n, _ => record) }

  lemma NoCallYet(sinks: seq<Sink>, s: Sink, record: string, was: seq<string>)
    ensures was == was + Copies(record, Occurrences(sinks[..0], s))
  {
    assert Copies(record, 0) == [];
  }

  /** The next sink of the list gets one more copy, the others none. */
  lemma OneMoreCall(sinks: seq<Sink>, i: nat, s: Sink, record: string)
    requires i < |sinks|
    ensures Copies(record, Occurrences(sinks[..i + 1], s))
         == Copies(record, Occurrences(sinks[..i], s)) + (if sinks[i] == s then [record] else [])
  {
    assert sinks[..i + 1][..i] == sinks[..i];
  }

  class MultiSink {
    const sinks: seq<Sink>

    constructor (sinks: seq<Sink>)
      ensures this.sinks == sinks
    {
      this.sinks := sinks;
    }

    /** The first `n` listed sinks have been called. */
    ghost predicate Called(was: map<Sink, seq<string>>, record: string, n: nat)
      requires n <= |sinks|
      reads set s | s in sinks
    {
      forall s :: s in sinks ==>
        s.Valid() && s in was && s.attempts == was[s] + Copies(record, Occurrences(sinks[..n], s))
    }

    /** One turn of the loop: what the sink raises is not passed on. */
    method CallNext(record: string, i: nat, ghost was: map<Sink, seq<string>>, ghost trace: Trace)
      requires i < |sinks| && Called(was, record, i)
      modifies (set s | s in sinks), trace
      ensures Called(was, record, i + 1)
      ensures trace.calls == old(trace.calls) + [sinks[i]]
    {
      var raised := sinks[i].Write(record, trace);
      forall s | s in sinks
        ensures s.attempts == was[s] + Copies(record, Occurrences(sinks[..i + 1], s))
      {
        OneMoreCall(sinks, i, s, record);
      }
    }

    /** The loop over the sinks. */
    method CallAll(record: string, ghost was: map<Sink, seq<string>>, ghost trace: Trace)
      requires Called(was, record, 0)
      modifies (set s | s in sinks), trace
      ensures Called(was, record, |sinks|)
      ensures trace.calls == old(trace.calls) + sinks
    {
      for i := 0 to |sinks|
        invariant Called(was, record, i)
        invariant trace.calls == old(trace.calls) + sinks[..i]
      {
        CallNext(record, i, was, trace);
      }
      AllOf(sinks);
    }

    /** Whichever sinks raise, every listed sink is written to, once per listing, in list order. */
    method Write(record: string, ghost trace: Trace)
      requires forall s :: s in sinks ==> s.Valid()
      modifies (set s | s in sinks), trace
      ensures forall s :: s in sinks ==>
        s.Valid() && s.attempts == old(s.attempts) + Copies(record, Occurrences(sinks, s))
      ensures trace.calls == old(trace.calls) + sinks
    {
      ghost var was := map s | s in sinks :: s.attempts;
      forall s | s in sinks ensures s.attempts == was[s] + Copies(record, Occurrences(sinks[..0], s)) {
        NoCallYet(sinks, s, record, was[s]);
      }
      CallAll(record, was, trace);
      AllOf(sinks);
      forall s | s in sinks
        ensures s.Valid() && s.attempts == old(s.attempts) + Copies(record, Occurrences(sinks, s))
      {
        assert was[s] == old(s.attempts);
      }
    }
  }
}
