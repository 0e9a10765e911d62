/** The relay of src/relay.rs: server-sent events (section 9.2 of the WHATWG HTML Standard) cut out of a
    stream that arrives in chunks, and the delivery read out of each. Chunks are decoded one by one, so
    that they are taken here as characters: no chunk splits one. */
module RelayFrames {
  import opened Options

  /** Where the first blank line begins. */
  function Find(s: string): (at: Option<nat>)
    ensures at.Some? ==> at.value + 2 <= |s| && s[at.value] == '\n' && s[at.value + 1] == '\n'
  {
    if |s| < 2 then None
    else if s[0] == '\n' && s[1] == '\n' then Some(0)
    else match Find(s[1..])
      case None => None
      case Some(at) => Some(at + 1)
  }

  /** All the frames of `s`, and the part of a frame that is left after the last. */
  function Frames(s: string): (seq<string>, string)
    decreases |s|
  {
    match Find(s)
    case None => ([], s)
    case Some(at) =>
      var (rest, left) := Frames(s[at + 2..]);
      ([s[..at]] + rest, left)
  }

  function Concat(chunks: seq<string>): string {
    if chunks == [] then "" else Concat(chunks[..|chunks| - 1]) + chunks[|chunks| - 1]
  }

  // ---- One frame ----

  predicate IsSpace(c: char): (space: bool)
    ensures space <==> c == ' ' || c == '\t' || c == '\n' || c == '\U{000B}' || c == '\U{000C}' || c == '\r'
  {
    c == ' ' || '\t' <= c <= '\r'
  }

  function TrimStart(s: string): string {
    if s != "" && IsSpace(s[0]) then TrimStart(s[1..]) else s
  }

  function TrimEnd(s: string): string
    decreases |s|
  {
    if s != "" && IsSpace(s[|s| - 1]) then TrimEnd(s[..|s| - 1]) else s
  }

  /** What is trimmed is all the whitespace at that end, and only that. */
  lemma {:induction false} StartIsTrimmed(s: string)
    ensures var t := TrimStart(s);
      && |t| <= |s| && t == s[|s| - |t|..] && (t != "" ==> !IsSpace(t[0]))
      && forall i :: 0 <= i < |s| - |t| ==> IsSpace(s[i])
    decreases |s|
  {
    if s != "" && IsSpace(s[0]) {
      StartIsTrimmed(s[1..]);
    }
  }

  lemma {:induction false} EndIsTrimmed(s: string)
    ensures var t := TrimEnd(s);
      t <= s && (t != "" ==> !IsSpace(t[|t| - 1])) && forall i :: |t| <= i < |s| ==> IsSpace(s[i])
    decreases |s|
  {
    if s != "" && IsSpace(s[|s| - 1]) {
      EndIsTrimmed(s[..|s| - 1]);
    }
  }

  /** A line ends with a newline, and a carriage return before it. */
  function EndLine(line: string): string {
    if line != "" && line[|line| - 1] == '\r' then line[..|line| - 1] else line
  }

  /** The lines of `s`, when `sofar` is the beginning of the first. */
  function LinesFrom(sofar: string, s: string): seq<string>
    decreases |s|
  {
    if s == "" then if sofar == "" then [] else [sofar]
    else if s[0] == '\n' then [EndLine(sofar)] + LinesFrom("", s[1..])
    else LinesFrom(sofar + [s[0]], s[1..])
  }

  const EVENT := "event:"
  const DATA := "data:"

  datatype Reading = Reading(kind: string, data: string)

  function ReadLine(r: Reading, line: string): Reading {
    if EVENT <= line then r.(kind := TrimEnd(TrimStart(line[|EVENT|..])))
    else if DATA <= line then r.(data := (if r.data != "" then r.data + "\n" else "") + TrimStart(line[|DATA|..]))
    else r
  }

  function ReadLines(r: Reading, lines: seq<string>): Reading
    decreases |lines|
  {
    if lines == [] then r else ReadLines(ReadLine(r, lines[0]), lines[1..])
  }

  lemma {:induction false} ReadLinesNext(r: Reading, lines: seq<string>, k: nat)
    requires k < |lines|
    ensures ReadLines(r, lines[..k + 1]) == ReadLine(ReadLines(r, lines[..k]), lines[k])
    decreases k
  {
    if k > 0 {
      assert lines[..k + 1][1..] == lines[1..][..k] && lines[..k][1..] == lines[1..][..k - 1];
      ReadLinesNext(ReadLine(r, lines[0]), lines[1..], k - 1);
    } else {
      assert lines[..1][1..] == [];
    }
  }

  /** The data of a frame that is a message with data that is a delivery. */
  function DataOf(frame: string, isDelivery: string -> bool): Option<string> {
    var r := ReadLines(Reading("message", ""), LinesFrom("", frame));
    if r.kind != "message" || r.data == "" || !isDelivery(r.data) then None else Some(r.data)
  }

  method ParseFrame(frame: string, isDelivery: string -> bool) returns (delivery: Option<string>)
    ensures delivery == DataOf(frame, isDelivery)
  {
    var kind, data := "message", "";
    var lines := LinesFrom("", frame);
    for i := 0 to |lines|
      invariant Reading(kind, data) == ReadLines(Reading("message", ""), lines[..i])
    {
      ReadLinesNext(Reading("message", ""), lines, i);
      var line := lines[i];
      if EVENT <= line {
        kind := TrimEnd(TrimStart(line[|EVENT|..]));
      } else if DATA <= line {
        if data != "" {
          data := data + "\n";
        }
        data := data + TrimStart(line[|DATA|..]);
      }
    }
    assert lines[..|lines|] == lines;
    if kind != "message" || data == "" {
      return None;
    }
    delivery := if isDelivery(data) then Some(data) else None;
  }

  /** The event of a frame is that of its last `event:` line. */
  lemma {:induction false} EventIsTheLast(r: Reading, lines: seq<string>, k: nat)
    requires k < |lines| && "event:" <= lines[k] && NoEvent(lines, k + 1)
    ensures ReadLines(r, lines).kind == TrimEnd(TrimStart(lines[k][6..]))
    decreases |lines|
  {
    if k == 0 {
      EventIsKept(ReadLine(r, lines[0]), lines[1..]);
    } else {
      EventIsTheLast(ReadLine(r, lines[0]), lines[1..], k - 1);
    }
  }

  /** No line from `k` on is an `event:` line. */
  predicate NoEvent(lines: seq<string>, k: nat) {
    forall j :: k <= j < |lines| ==> !("event:" <= lines[j])
  }

  lemma {:induction false} EventIsKept(r: Reading, lines: seq<string>)
    requires NoEvent(lines, 0)
    ensures ReadLines(r, lines).kind == r.kind
    decreases |lines|
  {
    if lines != [] {
      EventIsKept(ReadLine(r, lines[0]), lines[1..]);
    }
  }

  /** What names another event than a message, as the pings that keep the stream open do, is not delivered;
      and what names none is a message. */
  lemma OnlyMessagesAreDelivered(frame: string, lines: seq<string>, k: nat, isDelivery: string -> bool)
    requires lines == LinesFrom("", frame) && k <= |lines| && NoEvent(lines, k)
    ensures k > 0 && "event:" <= lines[k - 1] && TrimEnd(TrimStart(lines[k - 1][6..])) != "message" ==>
      DataOf(frame, isDelivery).None?
    ensures k == 0 || ("event:" <= lines[k - 1] && TrimEnd(TrimStart(lines[k - 1][6..])) == "message") ==>
      var data := ReadLines(Reading("message", ""), lines).data;
      DataOf(frame, isDelivery) == if data != "" && isDelivery(data) then Some(data) else None
  {
    if k == 0 {
      EventIsKept(Reading("message", ""), lines);
    } else if "event:" <= lines[k - 1] {
      EventIsTheLast(Reading("message", ""), lines, k - 1);
    }
  }

  /** What is delivered of a sequence of frames. */
  function Deliveries(frames: seq<string>, isDelivery: string -> bool): seq<string> {
    if frames == [] then []
    else
      var last := |frames| - 1;
      Deliveries(frames[..last], isDelivery) +
      match DataOf(frames[last], isDelivery)
      case None => []
      case Some(data) => [data]
  }

  // ---- The stream ----

  lemma {:induction false} FindInPrefix(a: string, b: string)
    requires Find(a).Some?
    ensures Find(a + b) == Find(a)
    decreases |a|
  {
    if !(a[0] == '\n' && a[1] == '\n') {
      assert (a + b)[1..] == a[1..] + b;
      FindInPrefix(a[1..], b);
    }
  }

  lemma FramesNext(s: string, at: nat)
    requires Find(s) == Some(at)
    ensures Frames(s).0 == [s[..at]] + Frames(s[at + 2..]).0 && Frames(s).1 == Frames(s[at + 2..]).1
  {
  }

  /** A chunk more: what the buffer held over with it gives the same frames as the whole. */
  lemma {:induction false} FramesAppend(a: string, b: string)
    ensures Frames(a + b).0 == Frames(a).0 + Frames(Frames(a).1 + b).0
    ensures Frames(a + b).1 == Frames(Frames(a).1 + b).1
    decreases |a|
  {
    if Find(a).None? {
      assert [] + Frames(a + b).0 == Frames(a + b).0;
    } else {
      var at := Find(a).value;
      var rest := a[at + 2..];
      FindInPrefix(a, b);
      assert (a + b)[..at] == a[..at] && (a + b)[at + 2..] == rest + b;
      FramesNext(a, at);
      FramesNext(a + b, at);
      FramesAppend(rest, b);
      Associate([a[..at]], Frames(rest).0, Frames(Frames(rest).1 + b).0);
    }
  }

  lemma Associate<T>(a: seq<T>, b: seq<T>, c: seq<T>)
    ensures a + (b + c) == a + b + c
  {
  }

  lemma DeliveriesNext(frames: seq<string>, frame: string, isDelivery: string -> bool)
    ensures Deliveries(frames + [frame], isDelivery) ==
      Deliveries(frames, isDelivery) +
      (if DataOf(frame, isDelivery).Some? then [DataOf(frame, isDelivery).value] else [])
  {
    assert (frames + [frame])[..|frames|] == frames;
  }

  lemma DrainNext(handed: seq<string>, buf: string, end: nat)
    requires Find(buf) == Some(end)
    ensures handed + Frames(buf).0 == handed + [buf[..end]] + Frames(buf[end + 2..]).0
    ensures Frames(buf).1 == Frames(buf[end + 2..]).1
  {
    FramesNext(buf, end);
    Associate(handed, [buf[..end]], Frames(buf[end + 2..]).0);
  }

  /** Take the frames out of the buffer, one at a time. */
  method Drain(before: string, isDelivery: string -> bool, handed: seq<string>, delivered: seq<string>)
    returns (buf: string, frames: seq<string>, deliveries: seq<string>)
    requires delivered == Deliveries(handed, isDelivery)
    ensures frames == handed + Frames(before).0 && buf == Frames(before).1
    ensures deliveries == Deliveries(frames, isDelivery)
  {
    buf, frames, deliveries := before, handed, delivered;
    while Find(buf).Some?
      invariant frames + Frames(buf).0 == handed + Frames(before).0 && Frames(buf).1 == Frames(before).1
      invariant deliveries == Deliveries(frames, isDelivery)
      decreases |buf|
    {
      var end := Find(buf).value;
      DrainNext(frames, buf, end);
      var frame := buf[..end];
      buf := buf[end + 2..];
      var delivery := ParseFrame(frame, isDelivery);
      DeliveriesNext(frames, frame, isDelivery);
      frames := frames + [frame];
      if delivery.Some? {
        deliveries := deliveries + [delivery.value];
      }
    }
  }

  /** However the stream is cut into chunks, the frames handed on, what is delivered of them and what
      is left in the buffer are those of the whole stream. */
  method Stream(chunks: seq<string>, isDelivery: string -> bool)
    returns (buf: string, frames: seq<string>, deliveries: seq<string>)
    ensures (frames, buf) == Frames(Concat(chunks))
    ensures deliveries == Deliveries(Frames(Concat(chunks)).0, isDelivery)
  {
    buf, frames, deliveries := "", [], [];
    for i := 0 to |chunks|
      invariant (frames, buf) == Frames(Concat(chunks[..i])) && deliveries == Deliveries(frames, isDelivery)
    {
      assert chunks[..i + 1][..i] == chunks[..i];
      FramesAppend(Concat(chunks[..i]), chunks[i]);
      buf, frames, deliveries := Drain(buf + chunks[i], isDelivery, frames, deliveries);
    }
    assert chunks[..|chunks|] == chunks;
  }

  // ---- Streams as a server writes them ----

  /** A message's data, by line. */
  datatype Message = Message(first: string, rest: seq<string>)

  predicate BreakFree(line: string) {
    forall i :: 0 <= i < |line| ==> line[i] != '\n' && line[i] != '\r'
  }

  predicate Indented(line: string) {
    line != "" && IsSpace(line[0])
  }

  /** No line of the message holds a line break: it can be written at all. */
  predicate Writable(m: Message) {
    BreakFree(m.first) && forall i :: 0 <= i < |m.rest| ==> BreakFree(m.rest[i])
  }

  /** No line begins with whitespace, and the first is not empty unless it is all there is. */
  predicate Kept(m: Message) {
    && !Indented(m.first) && (forall i :: 0 <= i < |m.rest| ==> !Indented(m.rest[i]))
    && (m.first != "" || m.rest == [])
  }

  /** The data as the standard has it: the lines, joined by newlines. */
  function Joined(first: string, rest: seq<string>): string
    decreases |rest|
  {
    if rest == [] then first else Joined(first + "\n" + rest[0], rest[1..])
  }

  function DataLines(rest: seq<string>): seq<string> {
    if rest == [] then [] else ["data: " + rest[0]] + DataLines(rest[1..])
  }

  /** Lines joined by newlines, after a first. */
  function WriteLines(lines: seq<string>): string {
    if lines == [] then "" else "\n" + (lines[0] + WriteLines(lines[1..]))
  }

  function WriteFrame(m: Message): string {
    ("data: " + m.first) + WriteLines(DataLines(m.rest))
  }

  function Write(ms: seq<Message>): string {
    if ms == [] then "" else Write(ms[..|ms| - 1]) + (WriteFrame(ms[|ms| - 1]) + "\n\n")
  }

  function WrittenFrames(ms: seq<Message>): seq<string> {
    if ms == [] then [] else WrittenFrames(ms[..|ms| - 1]) + [WriteFrame(ms[|ms| - 1])]
  }

  function WrittenData(ms: seq<Message>, isDelivery: string -> bool): seq<string> {
    if ms == [] then []
    else
      var data := Joined(ms[|ms| - 1].first, ms[|ms| - 1].rest);
      WrittenData(ms[..|ms| - 1], isDelivery) + (if data != "" && isDelivery(data) then [data] else [])
  }

  /** Text without a blank line, and none begun at its end. */
  predicate NoBlankLine(s: string) {
    s != "" && s[|s| - 1] != '\n' && forall i :: 0 <= i < |s| - 1 ==> !(s[i] == '\n' && s[i + 1] == '\n')
  }

  lemma {:induction false} FindAfter(s: string, rest: string)
    requires NoBlankLine(s)
    ensures Find(s + ("\n\n" + rest)) == Some(|s|)
    decreases |s|
  {
    var all := s + ("\n\n" + rest);
    if |s| == 1 {
      assert all[1..] == "\n\n" + rest;
    } else {
      assert all[1..] == s[1..] + ("\n\n" + rest);
      FindAfter(s[1..], rest);
    }
  }

  lemma {:induction false} LinesHaveNoBlankLine(first: string, lines: seq<string>)
    requires NoBlankLine(first)
    requires forall i :: 0 <= i < |lines| ==> lines[i] != "" && BreakFree(lines[i])
    ensures NoBlankLine(first + WriteLines(lines))
    decreases |lines|
  {
    if lines == [] {
      assert first + "" == first;
    } else {
      var line := lines[0];
      assert NoBlankLine(first + "\n" + line);
      LinesHaveNoBlankLine(first + "\n" + line, lines[1..]);
      assert first + ("\n" + (line + WriteLines(lines[1..]))) == first + "\n" + line + WriteLines(lines[1..]);
    }
  }

  lemma {:induction false} DataLinesAreBreakFree(rest: seq<string>)
    requires forall i :: 0 <= i < |rest| ==> BreakFree(rest[i])
    ensures |DataLines(rest)| == |rest|
    ensures forall i :: 0 <= i < |rest| ==> DataLines(rest)[i] == "data: " + rest[i] && BreakFree("data: " + rest[i])
    decreases |rest|
  {
    if rest != [] {
      DataLinesAreBreakFree(rest[1..]);
    }
  }

  lemma FrameHasNoBlankLine(m: Message)
    requires Writable(m)
    ensures NoBlankLine(WriteFrame(m))
  {
    DataLinesAreBreakFree(m.rest);
    LinesHaveNoBlankLine("data: " + m.first, DataLines(m.rest));
  }

  lemma {:induction false} LineIsTaken(sofar: string, line: string, s: string)
    requires forall i :: 0 <= i < |line| ==> line[i] != '\n'
    ensures LinesFrom(sofar, line + s) == LinesFrom(sofar + line, s)
    decreases |line|
  {
    if line == "" {
      assert line + s == s && sofar + line == sofar;
    } else {
      assert (line + s)[1..] == line[1..] + s && sofar + [line[0]] + line[1..] == sofar + line;
      LineIsTaken(sofar + [line[0]], line[1..], s);
    }
  }

  lemma LineIsCut(line: string, rest: string, s: string)
    requires forall i :: 0 <= i < |line| ==> line[i] != '\n'
    requires rest != "" && rest[0] == '\n' && rest[1..] == s
    ensures LinesFrom("", line + rest) == [EndLine(line)] + LinesFrom("", s)
  {
    LineIsTaken("", line, rest);
    assert "" + line == line;
  }

  lemma EndingIsCut(line: string, ending: string)
    requires ending == "" || ending == "\r"
    requires ending == "" && line != "" ==> line[|line| - 1] != '\r'
    ensures EndLine(line + ending) == line
  {
    var ended := line + ending;
    if ending == "\r" {
      assert ended[|ended| - 1] == '\r' && ended[..|ended| - 1] == line;
    } else {
      assert ended == line;
    }
  }

  /** A line is read without its ending, which is a newline, and a carriage return before it. */
  lemma EndingIsDropped(line: string, ending: string, rest: string, s: string)
    requires forall i :: 0 <= i < |line| ==> line[i] != '\n'
    requires ending == "" || ending == "\r"
    requires ending == "" && line != "" ==> line[|line| - 1] != '\r'
    requires rest != "" && rest[0] == '\n' && rest[1..] == s
    ensures LinesFrom("", (line + ending) + rest) == [line] + LinesFrom("", s)
  {
    assert forall i :: 0 <= i < |line + ending| ==> (line + ending)[i] != '\n';
    EndingIsCut(line, ending);
    LineIsCut(line + ending, rest, s);
  }

  /** There is no line after the last ending. */
  lemma NoLineAfterTheLast()
    ensures LinesFrom("", "") == []
  {
  }

  lemma {:induction false} LinesReadBack(first: string, lines: seq<string>)
    requires first != "" && BreakFree(first)
    requires forall i :: 0 <= i < |lines| ==> lines[i] != "" && BreakFree(lines[i])
    ensures LinesFrom("", first + WriteLines(lines)) == [first] + lines
    decreases |lines|
  {
    LineIsTaken("", first, WriteLines(lines));
    assert "" + first == first;
    if lines != [] {
      assert WriteLines(lines)[1..] == lines[0] + WriteLines(lines[1..]);
      LinesReadBack(lines[0], lines[1..]);
    }
  }

  /** A data line is read without any of the whitespace before its text. */
  lemma DataLineIsRead(r: Reading, line: string)
    ensures ReadLine(r, "data: " + line) == r.(data := (if r.data != "" then r.data + "\n" else "") + TrimStart(line))
  {
    var written := "data: " + line;
    assert written[0] == 'd' && EVENT[0] == 'e' && !(EVENT <= written);
    assert written[..5] == DATA && DATA <= written;
    assert written[5..] == " " + line;
    assert (" " + line)[0] == ' ' && (" " + line)[1..] == line;
  }

  lemma {:induction false} TrimIsShorter(s: string)
    ensures |TrimStart(s)| <= |s|
    ensures if Indented(s) then |TrimStart(s)| < |s| else TrimStart(s) == s
    decreases |s|
  {
    if Indented(s) {
      TrimIsShorter(s[1..]);
    }
  }

  /** Reading lines that are kept after data joins them to it. */
  lemma {:induction false} KeptLinesAreJoined(r: Reading, rest: seq<string>)
    requires r.data != "" && forall i :: 0 <= i < |rest| ==> !Indented(rest[i])
    ensures ReadLines(r, DataLines(rest)) == r.(data := Joined(r.data, rest))
    decreases |rest|
  {
    if rest != [] {
      DataLineIsRead(r, rest[0]);
      TrimIsShorter(rest[0]);
      assert DataLines(rest)[1..] == DataLines(rest[1..]);
      KeptLinesAreJoined(r.(data := r.data + "\n" + rest[0]), rest[1..]);
    }
  }

  /** What is read is never longer than the lines joined after `joined`, and shorter if it was so
      before, if a line is indented, or if nothing was read before another line. */
  lemma {:induction false} LostTextIsMissed(r: Reading, joined: string, rest: seq<string>)
    requires |r.data| <= |joined|
    ensures ReadLines(r, DataLines(rest)).kind == r.kind
    ensures |ReadLines(r, DataLines(rest)).data| <= |Joined(joined, rest)|
    ensures
      || |r.data| < |joined| || (r.data == "" && rest != [])
      || (exists i :: 0 <= i < |rest| && Indented(rest[i])) ==>
      |ReadLines(r, DataLines(rest)).data| < |Joined(joined, rest)|
    decreases |rest|
  {
    if rest != [] {
      var line := rest[0];
      DataLineIsRead(r, line);
      TrimIsShorter(line);
      assert DataLines(rest)[1..] == DataLines(rest[1..]);
      LostTextIsMissed(ReadLine(r, "data: " + line), joined + "\n" + line, rest[1..]);
      if i :| 0 <= i < |rest| && Indented(rest[i]) {
        assert i > 0 ==> Indented(rest[1..][i - 1]);
      }
    }
  }

  lemma FrameIsReadByLines(m: Message)
    requires Writable(m)
    ensures ReadLines(Reading("message", ""), LinesFrom("", WriteFrame(m)))
         == ReadLines(Reading("message", TrimStart(m.first)), DataLines(m.rest))
  {
    var first, lines := "data: " + m.first, DataLines(m.rest);
    DataLinesAreBreakFree(m.rest);
    LinesReadBack(first, lines);
    assert ([first] + lines)[1..] == lines;
    DataLineIsRead(Reading("message", ""), m.first);
    assert "" + TrimStart(m.first) == TrimStart(m.first);
  }

  /** For every message that can be written: its frame reads back as its lines joined, as the standard
      has it, if and only if no line begins with whitespace and the first is not empty before others. */
  lemma FrameReadsBack(m: Message)
    requires Writable(m)
    ensures var read := ReadLines(Reading("message", ""), LinesFrom("", WriteFrame(m)));
      read == Reading("message", Joined(m.first, m.rest)) <==> Kept(m)
  {
    var r := Reading("message", TrimStart(m.first));
    FrameIsReadByLines(m);
    TrimIsShorter(m.first);
    if Kept(m) {
      if m.rest != [] {
        KeptLinesAreJoined(r, m.rest);
      }
    } else {
      LostTextIsMissed(r, m.first, m.rest);
    }
  }

  lemma OneFrame(frame: string, tail: string)
    requires NoBlankLine(frame) && Find(tail).None?
    ensures Frames(frame + ("\n\n" + tail)) == ([frame], tail)
  {
    var all := frame + ("\n\n" + tail);
    FindAfter(frame, tail);
    assert all[..|frame|] == frame && all[|frame| + 2..] == tail;
    assert Frames(tail).0 == [] && [frame] + [] == [frame];
  }

  lemma FrameIsAppended(written: string, frame: string, tail: string)
    requires Frames(written).1 == "" && NoBlankLine(frame) && Find(tail).None?
    ensures Frames(written + (frame + "\n\n") + tail) == (Frames(written).0 + [frame], tail)
  {
    var rest := frame + ("\n\n" + tail);
    assert written + (frame + "\n\n") + tail == written + rest;
    FramesAppend(written, rest);
    assert "" + rest == rest;
    OneFrame(frame, tail);
  }

  /** Messages written one after another, with a frame begun after them: every message is a frame, and
      the data of those that are deliveries is delivered, each once and in order. */
  lemma {:induction false} WrittenIsDelivered(ms: seq<Message>, tail: string, isDelivery: string -> bool)
    requires (forall i :: 0 <= i < |ms| ==> Writable(ms[i])) && Find(tail).None?
    ensures Frames(Write(ms) + tail) == (WrittenFrames(ms), tail)
    ensures (forall i :: 0 <= i < |ms| ==> Kept(ms[i])) ==>
      Deliveries(WrittenFrames(ms), isDelivery) == WrittenData(ms, isDelivery)
    decreases |ms|
  {
    if ms == [] {
      assert "" + tail == tail;
    } else {
      var before, m := ms[..|ms| - 1], ms[|ms| - 1];
      WrittenIsDelivered(before, "", isDelivery);
      assert Write(before) + "" == Write(before);
      FrameHasNoBlankLine(m);
      FrameIsAppended(Write(before), WriteFrame(m), tail);
      FrameReadsBack(m);
      DeliveriesNext(WrittenFrames(before), WriteFrame(m), isDelivery);
    }
  }

  /** The two ways to lose text: an empty first line loses its newline, and an indented one its indent. */
  lemma EmptyOrIndentedLineIsLost()
    ensures ReadLines(Reading("message", ""), LinesFrom("", WriteFrame(Message("", ["x"])))) == Reading("message", "x")
    ensures ReadLines(Reading("message", ""), LinesFrom("", WriteFrame(Message(" x", [])))) == Reading("message", "x")
    ensures Joined("", ["x"]) == "\nx" && Joined(" x", []) == " x"
  {
    FrameIsReadByLines(Message("", ["x"]));
    assert ["x"][1..] == [] && DataLines(["x"]) == ["data: " + "x"];
    DataLineIsRead(Reading("message", ""), "x");
    assert "" + "x" == "x" && "" + "\n" + "x" == "\nx";
    FrameIsReadByLines(Message(" x", []));
    assert " x"[1..] == "x";
  }
}
