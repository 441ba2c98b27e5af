// What the heartbeat's transform puts out, exactly, and what an event stream
// written by the rules is read back as.
module SseWire {
  import opened Bytes
  import opened Sse

  // ------------------------------------------------- the transform's output

  // One piece per upstream chunk and per timer callback, in order, until the
  // stream closes.
  function Written(hs: seq<Happening>): seq<Piece> {
    if hs == [] then []
    else
      var front, h := hs[..|hs| - 1], hs[|hs| - 1];
      Written(front)
      + if NoClosure(front) && h.Chunk? then [Up(h.chunk)] else if NoClosure(front) && h.Fire? then [Ping] else []
  }

  // The output is the lead, when there is one, and those pieces.
  lemma {:induction false} OutputExact(lead: bool, hs: seq<Happening>)
    ensures AfterAll(Started(lead), hs).output == (if lead then [Lead] else []) + Written(hs)
  {
    hide NoClosure, After;
    if hs != [] {
      var front, h := hs[..|hs| - 1], hs[|hs| - 1];
      OutputExact(lead, front);
      BytesInOrder(lead, front);
      PutOut(AfterAll(Started(lead), front), h);
    }
  }

  lemma PutOut(p: Pipe, h: Happening)
    ensures After(p, h).output
         == p.output + if p.open && h.Chunk? then [Up(h.chunk)] else if p.open && h.Fire? then [Ping] else []
  {
  }

  // The upstream ended or the consumer left.
  predicate Stopped(hs: seq<Happening>) {
    exists i | 0 <= i < |hs| :: hs[i].Flush? || hs[i].Cancel?
  }

  // A callback ran on a stream whose readable side had broken.
  predicate FoundBroken(hs: seq<Happening>) {
    exists j | 0 <= j < |hs| :: hs[j].Fire? && exists i | 0 <= i < j :: hs[i].Break?
  }

  // The timer is armed from the start, through every chunk and every heartbeat,
  // until the stream ends, is cancelled, or is found broken.
  lemma {:induction false} ArmedExact(lead: bool, hs: seq<Happening>)
    ensures AfterAll(Started(lead), hs).armed <==> !Stopped(hs) && !FoundBroken(hs)
  {
    hide NoClosure;
    if hs != [] {
      var front, h := hs[..|hs| - 1], hs[|hs| - 1];
      ArmedExact(lead, front);
      BytesInOrder(lead, front);
      StoppedNext(front, h);
      BrokenNext(front, h);
      ClosureKinds(front);
      assert hs == front + [h];
    }
  }

  lemma StoppedNext(front: seq<Happening>, h: Happening)
    ensures Stopped(front + [h]) <==> Stopped(front) || h.Flush? || h.Cancel?
  {
    var hs := front + [h];
    assert hs[|front|] == h;
    assert forall i | 0 <= i < |front| :: hs[i] == front[i];
  }

  predicate Broke(hs: seq<Happening>) {
    exists i | 0 <= i < |hs| :: hs[i].Break?
  }

  lemma BrokenNext(front: seq<Happening>, h: Happening)
    ensures FoundBroken(front + [h]) <==> FoundBroken(front) || (h.Fire? && Broke(front))
  {
    var hs := front + [h];
    assert hs[|front|] == h;
    assert forall i | 0 <= i < |front| :: hs[i] == front[i];
  }

  lemma ClosureKinds(hs: seq<Happening>)
    ensures NoClosure(hs) <==> !Stopped(hs) && !Broke(hs)
  {
  }

  // -------------------------------------------------------- reading it back

  // A message as a server writes it: its type, its ID and its data, line by
  // line.
  datatype Message = Message(kind: seq<Byte>, id: seq<Byte>, lines: seq<seq<Byte>>)

  predicate Sendable(m: Message) {
    && OneLine(m.kind) && OneLine(m.id) && 0 !in m.id
    && m.lines != [] && forall i | 0 <= i < |m.lines| :: OneLine(m.lines[i])
  }

  function Field(name: seq<Byte>, value: seq<Byte>): seq<Byte> {
    name + [COLON, SPACE] + value + [LF]
  }

  function DataFields(lines: seq<seq<Byte>>): seq<Byte> {
    if lines == [] then [] else DataFields(lines[..|lines| - 1]) + Field(DATA, lines[|lines| - 1])
  }

  function Wire(m: Message): seq<Byte> {
    Field(EVENT, m.kind) + Field(ID, m.id) + DataFields(m.lines) + [LF]
  }

  function Wires(ms: seq<Message>): seq<Byte> {
    if ms == [] then [] else Wires(ms[..|ms| - 1]) + Wire(ms[|ms| - 1])
  }

  // Each line with its end.
  function Ended(lines: seq<seq<Byte>>): seq<Byte> {
    if lines == [] then [] else Ended(lines[..|lines| - 1]) + lines[|lines| - 1] + [LF]
  }

  // The event it stands for: the data without the last line end.
  function Dispatched(m: Message): Event {
    var data := Ended(m.lines);
    Event(if m.kind == [] then MESSAGE else m.kind, if data == [] then [] else data[..|data| - 1], m.id)
  }

  function AllDispatched(ms: seq<Message>): seq<Event> {
    seq(|ms|, i requires 0 <= i < |ms| => Dispatched(ms[i]))
  }

  lemma FieldLine(p: Parser, name: seq<Byte>, value: seq<Byte>)
    requires name != [] && COLON !in name
    ensures ProcessLine(p, name + [COLON, SPACE] + value) == SetField(p, name, value)
  {
    hide ColonAt;
    var line := name + [COLON, SPACE] + value;
    assert line[|name|] == COLON;
    assert forall j | 0 <= j < |name| :: line[j] == name[j];
    ColonThere(line, |name|);
    assert line[|name| + 1..] == [SPACE] + value;
    assert ([SPACE] + value)[1..] == value;
    assert line[..|name|] == name;
  }

  lemma ColonThere(line: seq<Byte>, i: nat)
    requires i < |line| && line[i] == COLON && forall j | 0 <= j < i :: line[j] != COLON
    ensures ColonAt(line) == i
  {
  }

  lemma FieldRead(p: Parser, name: seq<Byte>, value: seq<Byte>)
    requires p.line == [] && name != [] && COLON !in name && OneLine(name) && OneLine(value)
    ensures FeedAll(p, Field(name, value)) == SetField(p.(skip := false), name, value)
  {
    hide FeedAll, ProcessLine, SetField;
    var line := name + [COLON, SPACE] + value;
    FeedTwo(p, line, [LF]);
    OneLineField(name, value);
    FeedText(p, line);
    assert p.line + line == line;
    FeedOne(p.(line := line, skip := false), LF);
    FieldLine(p.(line := [], skip := false), name, value);
    assert p.(line := [], skip := false) == p.(skip := false);
  }

  lemma OneLineField(name: seq<Byte>, value: seq<Byte>)
    requires OneLine(name) && OneLine(value)
    ensures OneLine(name + [COLON, SPACE] + value)
  {
  }

  lemma FieldNames()
    ensures COLON !in EVENT && COLON !in DATA && COLON !in ID
    ensures OneLine(EVENT) && OneLine(DATA) && OneLine(ID)
    ensures EVENT != DATA && EVENT != ID && DATA != ID
  {
    assert |EVENT| == 5 && |DATA| == 4 && |ID| == 2;
  }

  lemma {:induction false} DataRead(p: Parser, lines: seq<seq<Byte>>)
    requires p.line == [] && !p.skip && forall i | 0 <= i < |lines| :: OneLine(lines[i])
    ensures FeedAll(p, DataFields(lines)) == p.(data := p.data + Ended(lines))
  {
    hide FeedAll, Field;
    if lines == [] {
      NothingFed(p);
      assert p.data + [] == p.data;
    } else {
      var front, last := lines[..|lines| - 1], lines[|lines| - 1];
      DataRead(p, front);
      FeedTwo(p, DataFields(front), Field(DATA, last));
      FieldNames();
      var q := p.(data := p.data + Ended(front));
      FieldRead(q, DATA, last);
      assert p.data + Ended(front) + last + [LF] == p.data + (Ended(front) + last + [LF]);
    }
  }

  lemma NothingFed(p: Parser)
    ensures FeedAll(p, []) == p
  {
  }

  lemma MessageRead(p: Parser, m: Message)
    requires p.line == [] && p.data == [] && Sendable(m)
    ensures FeedAll(p, Wire(m)) == p.(skip := false, kind := [], id := m.id, events := p.events + [Dispatched(m)])
  {
    hide FeedAll, Field, DataFields;
    FieldNames();
    var p1 := p.(skip := false, kind := m.kind);
    FieldRead(p, EVENT, m.kind);
    FeedTwo(p, Field(EVENT, m.kind), Field(ID, m.id));
    var p2 := p1.(id := m.id);
    FieldRead(p1, ID, m.id);
    FeedTwo(p, Field(EVENT, m.kind) + Field(ID, m.id), DataFields(m.lines));
    DataRead(p2, m.lines);
    assert [] + Ended(m.lines) == Ended(m.lines);
    FeedTwo(p, Field(EVENT, m.kind) + Field(ID, m.id) + DataFields(m.lines), [LF]);
    FeedOne(p2.(data := Ended(m.lines)), LF);
  }

  lemma {:induction false} AllRead(ms: seq<Message>)
    requires forall i | 0 <= i < |ms| :: Sendable(ms[i])
    ensures var p := FeedAll(FRESH, Wires(ms));
            p.line == [] && p.data == [] && p.events == AllDispatched(ms)
  {
    hide FeedAll, Wire, Dispatched;
    if ms == [] {
      NothingFed(FRESH);
    } else {
      var front, last := ms[..|ms| - 1], ms[|ms| - 1];
      AllRead(front);
      FeedTwo(FRESH, Wires(front), Wire(last));
      MessageRead(FeedAll(FRESH, Wires(front)), last);
      assert AllDispatched(ms) == AllDispatched(front) + [Dispatched(last)];
    }
  }

  lemma {:induction false} NoMark(ms: seq<Message>)
    ensures Wires(ms) == [] || Wires(ms)[0] == 101
  {
    if ms != [] {
      NoMark(ms[..|ms| - 1]);
      assert Wire(ms[|ms| - 1])[0] == EVENT[0];
    }
  }

  // The reader is the standard's: whatever messages are written by its rules
  // are dispatched as they were meant, in order (section 9.2.6 of the HTML
  // Living Standard).
  lemma ReadBack(ms: seq<Message>)
    requires forall i | 0 <= i < |ms| :: Sendable(ms[i])
    ensures Events(Wires(ms)) == AllDispatched(ms)
  {
    hide FeedAll, Wires, AllDispatched;
    NoMark(ms);
    AllRead(ms);
  }
}
