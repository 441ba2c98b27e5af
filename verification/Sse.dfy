// The server-sent-events heartbeat: comments a relay inserts into a live
// stream, and what an event-stream parser makes of the result.
module Sse {

  import opened Bytes

  // A comment line and the blank line after it.
  function Comment(text: string): seq<Byte>
    requires Plain(text)
  {
    [COLON] + Ascii(text) + [LF, LF]
  }

  const PING: seq<Byte> := Comment(" relay-ping")
  const OPEN: seq<Byte> := Comment(" relay-open")

  // ---------------------------------------------------------- the heartbeat

  datatype Piece = Lead | Ping | Up(chunk: seq<Byte>)

  // The transform's state: whether its timer is armed, whether the readable
  // side still takes chunks, and what it has been given.
  datatype Pipe = Pipe(armed: bool, open: bool, output: seq<Piece>)

  // What can happen to it, in any order: an upstream chunk, a timer callback
  // (one whose timer was cleared may still be queued), the upstream's end, a
  // cancel or abort, an error on the readable side.
  datatype Happening = Chunk(chunk: seq<Byte>) | Fire | Flush | Cancel | Break

  function Started(lead: bool): Pipe {
    Pipe(true, true, if lead then [Lead] else [])
  }

  function After(p: Pipe, h: Happening): Pipe {
    match h
    case Chunk(c) => if p.open then p.(armed := true, output := p.output + [Up(c)]) else p
    case Fire => if p.open then p.(armed := true, output := p.output + [Ping]) else p.(armed := false)
    case Flush => p.(armed := false, open := false)
    case Cancel => p.(armed := false, open := false)
    case Break => p.(open := false)
  }

  function AfterAll(p: Pipe, hs: seq<Happening>): Pipe {
    if hs == [] then p else After(AfterAll(p, hs[..|hs| - 1]), hs[|hs| - 1])
  }

  class Heartbeat {
    var timer: bool
    var desiredSize: bool  // not null: the readable side is open
    var output: seq<Piece>

    ghost function Value(): Pipe
      reads this
    {
      Pipe(timer, desiredSize, output)
    }

    constructor (lead: bool)
      ensures Value() == Started(lead)
    {
      timer, desiredSize, output := true, true, if lead then [Lead] else [];
    }

    method Stop()
      modifies this`timer
      ensures !timer
    {
      if timer {
        timer := false;
      }
    }

    method Beat()
      modifies this`timer
      ensures timer
    {
      timer := true;
    }

    // The armed callback, or a stale one.
    method Fire()
      modifies this
      ensures Value() == After(old(Value()), Happening.Fire)
    {
      timer := false;
      if !desiredSize {
        return;
      }
      output := output + [Ping];
      Beat();
    }

    // The pipe hands over a chunk only while the readable side is open.
    method Transform(chunk: seq<Byte>)
      requires desiredSize
      modifies this
      ensures Value() == After(old(Value()), Chunk(chunk))
    {
      Stop();
      output := output + [Up(chunk)];
      Beat();
    }

    // The upstream ended; the readable side closes right after.
    method Flush()
      modifies this
      ensures Value() == After(old(Value()), Happening.Flush)
    {
      Stop();
      desiredSize := false;
    }

    method Cancel()
      modifies this
      ensures Value() == After(old(Value()), Happening.Cancel)
    {
      Stop();
      desiredSize := false;
    }
  }

  // The upstream's own bytes in the output.
  function Upstream(pieces: seq<Piece>): seq<Byte> {
    if pieces == [] then []
    else
      var last := pieces[|pieces| - 1];
      Upstream(pieces[..|pieces| - 1]) + (if last.Up? then last.chunk else [])
  }

  // The bytes on the wire.
  function Render(pieces: seq<Piece>): seq<Byte> {
    if pieces == [] then []
    else
      Render(pieces[..|pieces| - 1])
      + match pieces[|pieces| - 1]
        case Lead => OPEN
        case Ping => PING
        case Up(chunk) => chunk
  }

  predicate Closes(h: Happening) {
    h.Flush? || h.Cancel? || h.Break?
  }

  predicate NoClosure(hs: seq<Happening>) {
    forall i | 0 <= i < |hs| :: !Closes(hs[i])
  }

  // What the origin sent before the stream closed.
  function Sent(hs: seq<Happening>): seq<Byte> {
    if hs == [] then []
    else
      var last := hs[|hs| - 1];
      Sent(hs[..|hs| - 1]) + (if last.Chunk? && NoClosure(hs) then last.chunk else [])
  }

  lemma NoClosureNext(hs: seq<Happening>)
    requires hs != []
    ensures NoClosure(hs) <==> NoClosure(hs[..|hs| - 1]) && !Closes(hs[|hs| - 1])
  {
    assert hs == hs[..|hs| - 1] + [hs[|hs| - 1]];
  }

  lemma UpstreamAppend(pieces: seq<Piece>, p: Piece)
    ensures Upstream(pieces + [p]) == Upstream(pieces) + if p.Up? then p.chunk else []
  {
    assert (pieces + [p])[..|pieces|] == pieces;
  }

  // Whatever happens in whatever order: deleting the inserted comments leaves
  // the upstream's bytes in order, up to the closure.
  lemma {:induction false} BytesInOrder(lead: bool, hs: seq<Happening>)
    ensures var p := AfterAll(Started(lead), hs);
            Upstream(p.output) == Sent(hs) && p.open == NoClosure(hs)
  {
    hide Upstream, NoClosure;
    if hs == [] {
      NothingSent();
    } else {
      var front, h := hs[..|hs| - 1], hs[|hs| - 1];
      BytesInOrder(lead, front);
      NoClosureNext(hs);
      var p := AfterAll(Started(lead), front);
      UpstreamAppend(p.output, Ping);
      if h.Chunk? {
        UpstreamAppend(p.output, Up(h.chunk));
      }
    }
  }

  lemma NothingSent()
    ensures Upstream([]) == [] && Upstream([Lead]) == [] && NoClosure([])
  {
    UpstreamAppend([], Lead);
    assert [] + [Lead] == [Lead];
  }

  // The marker comes first, before any heartbeat and any upstream byte, and
  // only once.
  lemma {:induction false} MarkerFirst(lead: bool, hs: seq<Happening>)
    ensures var output := AfterAll(Started(lead), hs).output;
            && (lead ==> output != [] && output[0] == Lead)
            && (forall i | 0 <= i < |output| :: output[i] == Lead ==> i == 0 && lead)
  {
    if hs != [] {
      var front := hs[..|hs| - 1];
      MarkerFirst(lead, front);
      assert AfterAll(Started(lead), hs) == After(AfterAll(Started(lead), front), hs[|hs| - 1]);
    }
  }

  // Nothing follows closure: no chunk, no comment, and no timer is re-armed.
  lemma {:induction false} NothingAfterClosure(p: Pipe, hs: seq<Happening>)
    requires !p.open
    ensures var p' := AfterAll(p, hs);
            !p'.open && p'.output == p.output && (!p.armed ==> !p'.armed)
  {
    if hs != [] {
      NothingAfterClosure(p, hs[..|hs| - 1]);
    }
  }

  // ------------------------------------------------- the event-stream parser

  // Interpreting an event stream, section 9.2.6 of the HTML Living Standard.
  datatype Event = Event(kind: seq<Byte>, data: seq<Byte>, lastId: seq<Byte>)

  // `skip`: the last byte was a CR, whose LF is still part of the line end.
  datatype Parser = Parser(
    line: seq<Byte>, skip: bool, data: seq<Byte>, kind: seq<Byte>, id: seq<Byte>, events: seq<Event>)

  const FRESH := Parser([], false, [], [], [], [])

  const DATA: seq<Byte> := [100, 97, 116, 97]
  const EVENT: seq<Byte> := [101, 118, 101, 110, 116]
  const ID: seq<Byte> := [105, 100]
  const MESSAGE: seq<Byte> := [109, 101, 115, 115, 97, 103, 101]

  // The event type a type buffer stands for.
  function Kind(buffer: seq<Byte>): seq<Byte> {
    if buffer == [] then MESSAGE else buffer
  }

  function Dispatch(p: Parser): Parser {
    if p.data == [] then p.(kind := [])
    else p.(data := [], kind := [],
            events := p.events + [Event(Kind(p.kind), p.data[..|p.data| - 1], p.id)])
  }

  function ColonAt(line: seq<Byte>): (i: nat)
    ensures i <= |line|
    ensures i < |line| ==> line[i] == COLON
    ensures forall j | 0 <= j < i :: line[j] != COLON
  {
    if line == [] || line[0] == COLON then 0 else 1 + ColonAt(line[1..])
  }

  function Value(line: seq<Byte>): seq<Byte> {
    var i := ColonAt(line);
    if i == |line| then []
    else
      var v := line[i + 1..];
      if v != [] && v[0] == SPACE then v[1..] else v
  }

  function SetField(p: Parser, field: seq<Byte>, value: seq<Byte>): Parser {
    if field == EVENT then p.(kind := value)
    else if field == DATA then p.(data := p.data + value + [LF])
    else if field == ID && 0 !in value then p.(id := value)
    else p
  }

  function ProcessLine(p: Parser, line: seq<Byte>): Parser {
    if line == [] then Dispatch(p)
    else if line[0] == COLON then p
    else SetField(p, line[..ColonAt(line)], Value(line))
  }

  function EndLine(p: Parser, skip: bool): Parser {
    ProcessLine(p.(line := [], skip := skip), p.line)
  }

  function Feed(p: Parser, b: Byte): Parser {
    if b == LF then if p.skip then p.(skip := false) else EndLine(p, false)
    else if b == CR then EndLine(p, true)
    else p.(line := p.line + [b], skip := false)
  }

  function FeedAll(p: Parser, bytes: seq<Byte>): Parser {
    if bytes == [] then p else Feed(FeedAll(p, bytes[..|bytes| - 1]), bytes[|bytes| - 1])
  }

  predicate HasBOM(bytes: seq<Byte>) {
    |bytes| >= 3 && bytes[0] == 0xEF && bytes[1] == 0xBB && bytes[2] == 0xBF
  }

  function StripBOM(bytes: seq<Byte>): seq<Byte> {
    if HasBOM(bytes) then bytes[3..] else bytes
  }

  // The events a stream dispatches.
  function Events(bytes: seq<Byte>): seq<Event> {
    FeedAll(FRESH, StripBOM(bytes)).events
  }

  lemma {:induction false} FeedTwo(p: Parser, a: seq<Byte>, b: seq<Byte>)
    ensures FeedAll(p, a + b) == FeedAll(FeedAll(p, a), b)
  {
    if b == [] {
      assert a + b == a;
    } else {
      FeedTwo(p, a, b[..|b| - 1]);
      assert (a + b)[..|a + b| - 1] == a + b[..|b| - 1];
    }
  }

  predicate OneLine(bytes: seq<Byte>) {
    forall i | 0 <= i < |bytes| :: bytes[i] != LF && bytes[i] != CR
  }

  lemma {:induction false} FeedText(p: Parser, text: seq<Byte>)
    requires OneLine(text) && text != []
    ensures FeedAll(p, text) == p.(line := p.line + text, skip := false)
  {
    var front, last := text[..|text| - 1], text[|text| - 1];
    assert FeedAll(p, text) == Feed(FeedAll(p, front), last);
    if front == [] {
      assert text == [last];
    } else {
      FeedText(p, front);
      assert p.line + front + [last] == p.line + text;
    }
  }

  lemma ProcessKeeps(p: Parser, line: seq<Byte>)
    ensures ProcessLine(p, line).line == p.line && ProcessLine(p, line).skip == p.skip
  {
  }

  // A line and the blank line after it: the line under way ends with it, and
  // what is then pending is dispatched.
  lemma FeedBlock(p: Parser, text: seq<Byte>)
    requires OneLine(text) && text != []
    ensures FeedAll(p, text + [LF, LF]) == Dispatch(ProcessLine(p.(line := [], skip := false), p.line + text))
  {
    hide FeedAll, SetField, Value, ColonAt, Dispatch;
    FeedTwo(p, text, [LF, LF]);
    FeedText(p, text);
    var p1 := p.(line := p.line + text, skip := false);
    assert [LF, LF] == [LF] + [LF];
    FeedTwo(p1, [LF], [LF]);
    FeedOne(p1, LF);
    var p2 := Feed(p1, LF);
    ProcessKeeps(p.(line := [], skip := false), p.line + text);
    FeedOne(p2, LF);
    assert p2.(line := [], skip := false) == p2;
  }

  // What a comment block does: it ends the line under way, dispatches what is
  // pending, and leaves the parser at the start of a line.
  lemma FeedComment(p: Parser, text: string)
    requires Plain(text)
    ensures FeedAll(p, Comment(text))
         == Dispatch(ProcessLine(p.(line := [], skip := false), p.line + ([COLON] + Ascii(text))))
  {
    FeedBlock(p, [COLON] + Ascii(text));
  }

  lemma FeedOne(p: Parser, b: Byte)
    ensures FeedAll(p, [b]) == Feed(p, b)
  {
    assert [b][..0] == [];
    assert FeedAll(p, []) == p;
  }

  // ------------------------------------------------------ event boundaries

  // Between events: no line under way, no data pending, no event type that a
  // reset would lose.
  predicate Boundary(p: Parser) {
    p.line == [] && p.data == [] && Kind(p.kind) == MESSAGE
  }

  // q has read what p has read, with comment blocks at boundaries between.
  predicate Similar(p: Parser, q: Parser) {
    && q.line == p.line && q.data == p.data && q.id == p.id && q.events == p.events && Kind(q.kind) == Kind(p.kind)
    && (q.skip == p.skip || (p.skip && !q.skip && Boundary(p)))
  }

  lemma SimilarFeed(p: Parser, q: Parser, b: Byte)
    requires Similar(p, q)
    ensures Similar(Feed(p, b), Feed(q, b))
  {
  }

  lemma {:induction false} SimilarFeedAll(p: Parser, q: Parser, bytes: seq<Byte>)
    requires Similar(p, q)
    ensures Similar(FeedAll(p, bytes), FeedAll(q, bytes))
  {
    if bytes != [] {
      SimilarFeedAll(p, q, bytes[..|bytes| - 1]);
      SimilarFeed(FeedAll(p, bytes[..|bytes| - 1]), FeedAll(q, bytes[..|bytes| - 1]), bytes[|bytes| - 1]);
    }
  }

  lemma SimilarComment(p: Parser, q: Parser, text: string)
    requires Similar(p, q) && Boundary(p) && Plain(text)
    ensures Similar(p, FeedAll(q, Comment(text)))
  {
    FeedComment(q, text);
    assert q.line + ([COLON] + Ascii(text)) == [COLON] + Ascii(text);
  }

  // The parser after a stream's first bytes, a leading byte order mark dropped.
  function Reading(bytes: seq<Byte>): Parser {
    FeedAll(FRESH, StripBOM(bytes))
  }

  // Every inserted comment lies at an event boundary of the upstream.
  predicate AtBoundaries(pieces: seq<Piece>) {
    forall i | 0 <= i < |pieces| :: !pieces[i].Up? ==> Boundary(Reading(Upstream(pieces[..i])))
  }

  // No comment precedes the upstream's first byte.
  predicate UpstreamFirst(pieces: seq<Piece>) {
    forall i | 0 <= i < |pieces| :: !pieces[i].Up? ==> Upstream(pieces[..i]) != []
  }

  // No comment precedes a leading byte order mark.
  predicate MarkFirst(pieces: seq<Piece>) {
    HasBOM(Upstream(pieces)) ==> UpstreamFirst(pieces)
  }

  lemma RenderAppend(pieces: seq<Piece>, p: Piece)
    ensures Render(pieces + [p]) == Render(pieces) + match p case Lead => OPEN case Ping => PING case Up(chunk) => chunk
  {
    assert (pieces + [p])[..|pieces|] == pieces;
  }

  lemma {:induction false} SameStart(pieces: seq<Piece>) returns (i: nat)
    ensures i <= |pieces| && (i < |pieces| ==> !pieces[i].Up?)
    ensures Render(pieces[..i]) == Upstream(pieces[..i])
    ensures Upstream(pieces[..i]) <= Upstream(pieces) && Upstream(pieces[..i]) <= Render(pieces)
    ensures var n := |Upstream(pieces[..i])|; i < |pieces| ==> n < |Render(pieces)| && Render(pieces)[n] == COLON
  {
    hide Upstream, Render, Comment;
    NothingRead();
    if pieces == [] {
      i := 0;
    } else {
      var front, last := pieces[..|pieces| - 1], pieces[|pieces| - 1];
      i := SameStart(front);
      assert pieces == front + [last] && pieces[..i] == front[..i] && front[..|front|] == front;
      UpstreamAppend(front, last);
      RenderAppend(front, last);
      CommentsStart();
      if i == |front| && last.Up? {
        i := |pieces|;
        assert pieces[..i] == pieces;
      }
    }
  }

  lemma CommentsStart()
    ensures |OPEN| > 0 && OPEN[0] == COLON && |PING| > 0 && PING[0] == COLON
  {
  }

  lemma NothingRead()
    ensures Upstream([]) == [] && Render([]) == [] && FeedAll(FRESH, []) == FRESH && Reading([]) == FRESH
  {
  }

  // A piece of a byte order mark is an unfinished line.
  lemma PartOfMark(bytes: seq<Byte>, n: nat)
    requires HasBOM(bytes) && 0 < n < 3
    ensures !Boundary(Reading(bytes[..n]))
  {
    FeedText(FRESH, bytes[..n]);
  }

  // The wire carries a leading mark exactly when the upstream does.
  lemma SameMark(pieces: seq<Piece>)
    requires AtBoundaries(pieces) && MarkFirst(pieces)
    ensures HasBOM(Render(pieces)) <==> HasBOM(Upstream(pieces))
  {
    hide FeedAll, Upstream, Render, Boundary;
    var i := SameStart(pieces);
    var before := Upstream(pieces[..i]);
    if i == |pieces| {
      assert pieces[..i] == pieces;
    } else if HasBOM(Upstream(pieces)) {
      assert before == Upstream(pieces)[..|before|];
      if |before| < 3 {
        PartOfMark(Upstream(pieces), |before|);
      }
    }
  }

  // Stripping a mark and reading on.
  lemma ReadOn(bytes: seq<Byte>, more: seq<Byte>)
    requires HasBOM(bytes) || !HasBOM(bytes + more)
    ensures Reading(bytes + more) == FeedAll(Reading(bytes), more)
  {
    hide FeedAll;
    if HasBOM(bytes) {
      assert (bytes + more)[3..] == bytes[3..] + more;
    }
    FeedTwo(FRESH, StripBOM(bytes), more);
  }

  lemma FrontOk(front: seq<Piece>, last: Piece)
    requires AtBoundaries(front + [last]) && MarkFirst(front + [last])
    ensures AtBoundaries(front) && MarkFirst(front)
    ensures !last.Up? ==> Boundary(Reading(Upstream(front)))
  {
    hide Boundary, Reading, Upstream;
    var pieces := front + [last];
    UpstreamAppend(front, last);
    assert forall i | 0 <= i < |front| :: front[..i] == pieces[..i] && front[i] == pieces[i];
    assert pieces[..|front|] == front && pieces[|front|] == last;
  }

  // A chunk that completes the mark: nothing was inserted before it.
  lemma NothingBeforeMark(front: seq<Piece>, last: Piece)
    requires AtBoundaries(front + [last]) && MarkFirst(front + [last])
    requires !HasBOM(Upstream(front)) && HasBOM(Upstream(front + [last]))
    ensures Render(front) == Upstream(front)
  {
    hide FeedAll, Upstream, Render, Boundary, Reading;
    var pieces := front + [last];
    UpstreamAppend(front, last);
    FrontOk(front, last);
    var i := SameStart(front);
    var before := Upstream(front[..i]);
    if i == |front| {
      assert front[..i] == front;
    } else {
      assert pieces[..i] == front[..i] && pieces[i] == front[i];
      assert before == Upstream(pieces)[..|before|];
      PartOfMark(Upstream(pieces), |before|);
    }
  }

  lemma {:induction false} PiecesSimilar(pieces: seq<Piece>)
    requires AtBoundaries(pieces) && MarkFirst(pieces)
    ensures Similar(Reading(Upstream(pieces)), Reading(Render(pieces)))
  {
    hide FeedAll, Similar, Boundary, Upstream, Render, Reading, AtBoundaries, MarkFirst;
    if pieces == [] {
      NothingRead();
      SelfSimilar(FRESH);
    } else {
      var front, last := pieces[..|pieces| - 1], pieces[|pieces| - 1];
      assert pieces == front + [last];
      FrontOk(front, last);
      PiecesSimilar(front);
      PieceSimilar(front, last);
    }
  }

  lemma SelfSimilar(p: Parser)
    ensures Similar(p, p)
  {
  }

  lemma PieceSimilar(front: seq<Piece>, last: Piece)
    requires AtBoundaries(front + [last]) && MarkFirst(front + [last])
    requires Similar(Reading(Upstream(front)), Reading(Render(front)))
    ensures Similar(Reading(Upstream(front + [last])), Reading(Render(front + [last])))
  {
    hide FeedAll, Similar, Boundary, Upstream, Render, Reading, Comment, AtBoundaries, MarkFirst;
    var p, q := Reading(Upstream(front)), Reading(Render(front));
    FrontOk(front, last);
    SameMark(front);
    SameMark(front + [last]);
    UpstreamAppend(front, last);
    RenderAppend(front, last);
    match last
    case Up(chunk) =>
      if !HasBOM(Upstream(front)) && HasBOM(Upstream(front) + chunk) {
        NothingBeforeMark(front, last);
        SelfSimilar(Reading(Upstream(front) + chunk));
      } else {
        ReadOn(Upstream(front), chunk);
        ReadOn(Render(front), chunk);
        SimilarFeedAll(p, q, chunk);
      }
    case Ping =>
      assert Upstream(front) + [] == Upstream(front);
      ReadOn(Render(front), PING);
      SimilarComment(p, q, " relay-ping");
    case Lead =>
      assert Upstream(front) + [] == Upstream(front);
      ReadOn(Render(front), OPEN);
      SimilarComment(p, q, " relay-open");
  }

  // The heartbeat is invisible: with every comment at an event boundary, and
  // none in front of a byte order mark, the client dispatches exactly the
  // upstream's events, same types, same data, same last-event IDs, same order.
  lemma SameEvents(pieces: seq<Piece>)
    requires AtBoundaries(pieces) && MarkFirst(pieces)
    ensures Events(Render(pieces)) == Events(Upstream(pieces))
  {
    PiecesSimilar(pieces);
  }

  // ------------------------------------------- why boundaries are needed

  const X: seq<Byte> := DATA + [COLON, 120]  // data:x
  const PROBE: seq<Byte> := X + [LF, LF]

  lemma ProbeLine(p: Parser)
    ensures ProcessLine(p, X) == p.(data := p.data + [120, LF])
  {
    assert X == [100, 97, 116, 97, 58, 120];
    assert ColonAt(X[4..]) == 0;
    assert X[1..][1..] == X[2..] && X[2..][1..] == X[3..] && X[3..][1..] == X[4..];
    assert ColonAt(X[3..]) == 1;
    assert ColonAt(X[2..]) == 2;
    assert ColonAt(X) == 4;
    assert X[..4] == DATA;
    assert X[5..] == [120];
    assert Value(X) == [120];
    assert p.data + [120] + [LF] == p.data + [120, LF];
  }

  lemma {:induction false} ColonFirst(a: seq<Byte>, b: seq<Byte>)
    ensures ColonAt(a + b) == if ColonAt(a) < |a| then ColonAt(a) else |a| + ColonAt(b)
  {
    if a == [] {
      assert a + b == b;
    } else if a[0] != COLON {
      ColonFirst(a[1..], b);
      assert (a + b)[1..] == a[1..] + b;
    }
  }

  // Data pending after a line is there whatever was appended to the line.
  predicate DataField(line: seq<Byte>) {
    line != [] && line[0] != COLON && line[..ColonAt(line)] == DATA
  }

  lemma ProcessData(p: Parser, line: seq<Byte>)
    requires line != []
    ensures var p' := ProcessLine(p, line);
            && p'.events == p.events
            && (p'.data == [] <==> p.data == [] && !DataField(line))
  {
  }

  lemma DispatchCount(p: Parser)
    ensures |Dispatch(p).events| == |p.events| + if p.data == [] then 0 else 1
    ensures Dispatch(p).line == p.line
  {
  }

  // A line the probe completes to a data field is one a comment completes too.
  lemma ProbeCompletes(line: seq<Byte>, body: seq<Byte>)
    requires line != [] && body != [] && body[0] == COLON
    ensures DataField(line + X) ==> DataField(line + body)
  {
    ColonFirst(line, body);
    ColonFirst(line, X);
    if ColonAt(line) < |line| {
      assert (line + X)[..ColonAt(line)] == (line + body)[..ColonAt(line)];
    } else {
      assert |(line + X)[..ColonAt(line + X)]| == |line| + ColonAt(X);
      ProbeColon();
    }
  }

  lemma ProbeColon()
    ensures ColonAt(X) == 4
  {
    assert X == [100, 97, 116, 97, 58, 120];
    assert ColonAt(X[4..]) == 0;
    assert X[1..][1..] == X[2..] && X[2..][1..] == X[3..] && X[3..][1..] == X[4..];
    assert ColonAt(X[3..]) == 1;
    assert ColonAt(X[2..]) == 2;
  }

  // With a line unfinished or data pending, the comment makes the continuation
  // "data:x" dispatch more events than it does without.
  lemma MoreEvents(p: Parser, text: string)
    requires Plain(text) && (p.line != [] || p.data != [])
    ensures |FeedAll(FeedAll(p, Comment(text)), PROBE).events| > |FeedAll(p, PROBE).events|
  {
    hide FeedAll, Comment, ColonAt, Dispatch, ProcessLine, DataField;
    var body := [COLON] + Ascii(text);
    var base := p.(line := [], skip := false);
    var a, b := ProcessLine(base, p.line + body), ProcessLine(base, p.line + X);
    var q := Dispatch(a);
    FeedComment(p, text);
    FeedBlock(p, X);
    DispatchCount(a);
    DispatchCount(b);
    ProcessData(base, p.line + body);
    ProcessData(base, p.line + X);
    ProcessKeeps(base, p.line + body);
    FeedBlock(q, X);
    assert [] + X == X;
    ProbeLine(q.(line := [], skip := false));
    DispatchCount(ProcessLine(q.(line := [], skip := false), X));
    if p.line != [] {
      ProbeCompletes(p.line, body);
    }
  }

  // With only an event type pending, the comment loses it.
  lemma KindLost(p: Parser, text: string)
    requires Plain(text) && p.line == [] && p.data == [] && Kind(p.kind) != MESSAGE
    ensures FeedAll(FeedAll(p, Comment(text)), PROBE).events != FeedAll(p, PROBE).events
  {
    hide FeedAll, Comment, ColonAt;
    var body := [COLON] + Ascii(text);
    FeedComment(p, text);
    FeedBlock(p, X);
    assert [] + body == body && [] + X == X;
    var q := FeedAll(p, Comment(text));
    FeedBlock(q, X);
    ProbeLine(p.(line := [], skip := false));
    ProbeLine(q.(line := [], skip := false));
    var e, f := FeedAll(p, PROBE).events, FeedAll(q, PROBE).events;
    assert e[|p.events|].kind == Kind(p.kind);
    assert f[|p.events|].kind == MESSAGE;
  }

  // Whatever follows, the comment goes unnoticed.
  ghost predicate Unnoticed(p: Parser, text: string)
    requires Plain(text)
  {
    forall rest: seq<Byte> :: FeedAll(FeedAll(p, Comment(text)), rest).events == FeedAll(p, rest).events
  }

  // A comment goes unnoticed by every continuation exactly at event boundaries.
  lemma BoundaryExact(p: Parser, text: string)
    requires Plain(text)
    ensures Unnoticed(p, text) <==> Boundary(p)
  {
    if Boundary(p) {
      SimilarComment(p, p, text);
      forall rest: seq<Byte>
        ensures FeedAll(FeedAll(p, Comment(text)), rest).events == FeedAll(p, rest).events
      {
        SimilarFeedAll(p, FeedAll(p, Comment(text)), rest);
      }
    } else if p.line != [] || p.data != [] {
      MoreEvents(p, text);
    } else {
      KindLost(p, text);
    }
  }

  // The heartbeat knows chunks, not events: a comment that falls into an event
  // under way ends it early, and the client sees two events for one.
  lemma HeartbeatSplitsEvent()
    ensures var hs := [Chunk(X + [LF]), Happening.Fire, Chunk(PROBE)];
            var output := AfterAll(Started(false), hs).output;
            |Events(Render(output))| > |Events(Upstream(output))|
  {
    hide Upstream, Render, FeedAll, Comment, Dispatch, ProcessLine;
    var first, rest := X + [LF], PROBE;
    ThreeHappen(first, rest);
    var p := FeedAll(FRESH, first);
    FeedTwo(FRESH, first, rest);
    FeedTwo(FRESH, first + PING, rest);
    FeedTwo(FRESH, first, PING);
    DataPending();
    MoreEvents(p, " relay-ping");
    assert (first + rest)[0] == 100 && (first + PING + rest)[0] == 100;
  }

  lemma ThreeHappen(first: seq<Byte>, rest: seq<Byte>)
    ensures var hs := [Chunk(first), Happening.Fire, Chunk(rest)];
            var output := AfterAll(Started(false), hs).output;
            Render(output) == first + PING + rest && Upstream(output) == first + rest
  {
    hide Upstream, Render, Comment;
    var hs := [Chunk(first), Happening.Fire, Chunk(rest)];
    var h1, h2 := [Chunk(first)], [Chunk(first), Happening.Fire];
    assert h1[..|h1| - 1] == [] && h2[..|h2| - 1] == h1 && hs[..|hs| - 1] == h2;
    var s0 := Started(false);
    assert AfterAll(s0, []) == s0;
    assert AfterAll(s0, h1) == After(s0, Chunk(first));
    assert AfterAll(s0, h2) == After(AfterAll(s0, h1), Happening.Fire);
    var output := AfterAll(Started(false), hs).output;
    assert output == [] + [Up(first)] + [Ping] + [Up(rest)];
    NothingSent();
    NothingRendered();
    UpstreamAppend([], Up(first));
    RenderAppend([], Up(first));
    UpstreamAppend([Up(first)], Ping);
    RenderAppend([Up(first)], Ping);
    UpstreamAppend([Up(first), Ping], Up(rest));
    RenderAppend([Up(first), Ping], Up(rest));
    assert [] + [Up(first)] == [Up(first)] && [Up(first)] + [Ping] == [Up(first), Ping];
    assert [] + first == first && first + [] == first;
  }

  lemma DataPending()
    ensures FeedAll(FRESH, X + [LF]).data != []
  {
    hide FeedAll, ColonAt;
    FeedTwo(FRESH, X, [LF]);
    FeedText(FRESH, X);
    FeedOne(FRESH.(line := [] + X, skip := false), LF);
    assert [] + X == X;
    ProbeLine(FRESH);
  }

  // ----------------------------------------- a comment in front of the mark

  const BOM: seq<Byte> := [0xEF, 0xBB, 0xBF]

  lemma ColonNone()
    ensures ColonAt(BOM) == 3
  {
    assert BOM[1..][1..] == BOM[2..] && BOM[2..][1..] == [];
    assert ColonAt([]) == 0;
    assert ColonAt(BOM[2..]) == 1;
    assert ColonAt(BOM[1..]) == 2;
  }

  // A mark behind a comment is read as the first line's first characters.
  lemma MarkRead(text: string, rest: seq<Byte>)
    requires Plain(text)
    ensures Events(Comment(text) + (BOM + rest)) == FeedAll(FRESH, BOM + rest).events
    ensures Events(BOM + rest) == FeedAll(FRESH, rest).events
  {
    hide FeedAll;
    assert (BOM + rest)[3..] == rest;
    var stream := Comment(text) + (BOM + rest);
    assert stream[0] == COLON;
    FeedTwo(FRESH, Comment(text), BOM + rest);
    SimilarComment(FRESH, FRESH, text);
    SimilarFeedAll(FRESH, FeedAll(FRESH, Comment(text)), BOM + rest);
  }

  // A line that changes what is dispatched later: a data field, an event type
  // other than the default, or a last-event ID.
  predicate Effective(line: seq<Byte>) {
    && line != [] && line[0] != COLON
    && var field, value := line[..ColonAt(line)], Value(line);
       || field == DATA
       || (field == EVENT && Kind(value) != MESSAGE)
       || (field == ID && 0 !in value && value != [])
  }

  lemma EffectiveExact(line: seq<Byte>)
    ensures var p := ProcessLine(FRESH, line);
            Effective(line) <==> p.data != [] || Kind(p.kind) != MESSAGE || p.id != []
  {
  }

  // A first line behind a misplaced mark is a field nobody knows.
  lemma MarkedLineIgnored(line: seq<Byte>)
    ensures ProcessLine(FRESH, BOM + line) == FRESH
  {
    ColonFirst(BOM, line);
    ColonNone();
    var all := BOM + line;
    assert all[..ColonAt(all)][0] == 0xEF;
  }

  predicate LineEnd(b: Byte) {
    b == LF || b == CR
  }

  lemma FeedLine(line: seq<Byte>, end: Byte)
    requires OneLine(line) && LineEnd(end)
    ensures FeedAll(FRESH, line + [end]) == ProcessLine(FRESH, line).(skip := end == CR)
  {
    hide FeedAll;
    FeedTwo(FRESH, line, [end]);
    NothingRead();
    if line != [] {
      FeedText(FRESH, line);
      assert FRESH.line + line == line;
    }
    FeedOne(FRESH.(line := line), end);
    SkipAside(FRESH, line, end == CR);
  }

  lemma SkipAside(p: Parser, line: seq<Byte>, skip: bool)
    ensures ProcessLine(p.(skip := skip), line) == ProcessLine(p, line).(skip := skip)
  {
  }

  // What the probe dispatches after a first line.
  lemma ProbeAfter(p: Parser)
    requires p.line == [] && p.events == []
    ensures FeedAll(p, PROBE).events == [Event(Kind(p.kind), p.data + [120], p.id)]
  {
    hide FeedAll, ColonAt;
    FeedBlock(p, X);
    assert [] + X == X;
    ProbeLine(p.(skip := false));
    assert (p.data + [120, LF])[..|p.data| + 1] == p.data + [120];
  }

  // Whatever follows the first line, the comment in front of the mark goes
  // unnoticed.
  ghost predicate MarkUnnoticed(text: string, line: seq<Byte>, end: Byte)
    requires Plain(text)
  {
    forall rest: seq<Byte> ::
      Events(Comment(text) + (BOM + (line + [end] + rest))) == Events(BOM + (line + [end] + rest))
  }

  lemma AfterFirstLine(text: string, line: seq<Byte>, end: Byte, rest: seq<Byte>)
    requires Plain(text) && OneLine(line) && LineEnd(end)
    ensures Events(Comment(text) + (BOM + (line + [end] + rest)))
         == FeedAll(FRESH.(skip := end == CR), rest).events
    ensures Events(BOM + (line + [end] + rest))
         == FeedAll(ProcessLine(FRESH, line).(skip := end == CR), rest).events
  {
    hide FeedAll, Comment, Events, ProcessLine;
    MarkRead(text, line + [end] + rest);
    FeedLine(line, end);
    FeedTwo(FRESH, line + [end], rest);
    var marked := BOM + line;
    assert BOM + (line + [end] + rest) == marked + [end] + rest;
    FeedLine(marked, end);
    MarkedLineIgnored(line);
    FeedTwo(FRESH, marked + [end], rest);
  }

  // Exactly when the first line has no effect: then the mark that spoils it
  // does no harm, and otherwise some continuation tells.
  lemma MarkExact(text: string, line: seq<Byte>, end: Byte)
    requires Plain(text) && OneLine(line) && LineEnd(end)
    ensures MarkUnnoticed(text, line, end) <==> !Effective(line)
  {
    hide FeedAll, Comment, Events, Effective, ProcessLine;
    var p, q := ProcessLine(FRESH, line).(skip := end == CR), FRESH.(skip := end == CR);
    FirstLineShape(line);
    EffectiveExact(line);
    if Effective(line) {
      AfterFirstLine(text, line, end, PROBE);
      ProbeAfter(p);
      ProbeAfter(q);
      assert [120] != p.data + [120] || p.data == [];
    } else {
      forall rest: seq<Byte>
        ensures Events(Comment(text) + (BOM + (line + [end] + rest))) == Events(BOM + (line + [end] + rest))
      {
        AfterFirstLine(text, line, end, rest);
        SimilarFeedAll(p, q, rest);
      }
    }
  }

  lemma FirstLineShape(line: seq<Byte>)
    ensures var p := ProcessLine(FRESH, line); p.line == [] && p.events == [] && !p.skip
  {
  }

  // On the early-open path the marker does come first: an origin that starts
  // with a mark and a data line loses that line.
  lemma BOMSpoils()
    ensures var pieces := [Lead, Up(BOM + PROBE)];
            && AtBoundaries(pieces) && !MarkFirst(pieces)
            && Events(Upstream(pieces)) == [Event(MESSAGE, [120], [])]
            && Events(Render(pieces)) == []
  {
    hide Upstream, Render, Comment, FeedAll, Events;
    var pieces := [Lead, Up(BOM + PROBE)];
    NothingSent();
    NothingRendered();
    NothingRead();
    assert pieces[..0] == [] && pieces[..1] == [Lead];
    UpstreamAppend([Lead], Up(BOM + PROBE));
    RenderAppend([Lead], Up(BOM + PROBE));
    assert [Lead] + [Up(BOM + PROBE)] == pieces && [] + (BOM + PROBE) == BOM + PROBE;
    assert HasBOM(BOM + PROBE);
    assert PROBE == X + [LF] + [LF];
    AfterFirstLine(" relay-open", X, LF, [LF]);
    FeedOne(FRESH, LF);
    FeedOne(ProcessLine(FRESH, X), LF);
    ProbeLine(FRESH);
    assert ([] + [120, LF])[..1] == [120];
  }

  lemma NothingRendered()
    ensures Render([]) == [] && Render([Lead]) == OPEN
  {
    RenderAppend([], Lead);
    assert [] + [Lead] == [Lead] && Render([]) == [] && [] + OPEN == OPEN;
  }

  // ------------------------------------------------------- the early stream

  // The origin behind a response opened early: its fetch failed, it answered
  // without a body, or its body is read chunk by chunk.
  datatype Read = Data(chunk: seq<Byte>) | Done | Broken
  datatype Origin = Unreached | Bodiless | Body(nth: nat -> Read)

  datatype Ending = Running | Closed | Errored
  datatype Source = Source(reading: bool, taken: nat, output: seq<seq<Byte>>, ending: Ending)

  const IDLE := Source(false, 0, [], Running)

  function Pulled(s: Source, o: Origin): Source {
    if !s.reading && o.Unreached? then s.(ending := Errored)
    else if !s.reading && o.Bodiless? then s.(ending := Closed)
    else if !o.Body? then s
    else
      var next := s.(reading := true, taken := s.taken + 1);
      match o.nth(s.taken)
      case Data(chunk) => next.(output := s.output + [chunk])
      case Done => next.(ending := Closed)
      case Broken => next.(ending := Errored)
  }

  // The runner pulls again only while the stream runs.
  function PulledTimes(o: Origin, n: nat): Source {
    if n == 0 then IDLE
    else
      var s := PulledTimes(o, n - 1);
      if s.ending.Running? then Pulled(s, o) else s
  }

  class EarlyStream {
    var reader: bool
    var taken: nat
    var output: seq<seq<Byte>>
    var ending: Ending

    ghost function Value(): Source
      reads this
    {
      Source(reader, taken, output, ending)
    }

    constructor ()
      ensures Value() == IDLE
    {
      reader, taken, output, ending := false, 0, [], Running;
    }

    method Pull(origin: Origin)
      requires ending.Running? && (reader ==> origin.Body?)
      modifies this
      ensures Value() == Pulled(old(Value()), origin)
    {
      if !reader {
        if origin.Unreached? {
          ending := Errored;
          return;
        }
        if origin.Bodiless? {
          ending := Closed;
          return;
        }
        reader := true;
      }
      var read := origin.nth(taken);
      taken := taken + 1;
      match read {
        case Done => ending := Closed;
        case Broken => ending := Errored;
        case Data(chunk) => output := output + [chunk];
      }
    }
  }

  // The caller gets the origin's chunks in order; the stream closes cleanly
  // exactly where the origin ended cleanly, and a failed fetch or a broken
  // body never looks like a clean end.
  lemma {:induction false} EarlyStreamFaithful(o: Origin, n: nat)
    ensures var s := PulledTimes(o, n);
            var m := |s.output|;
            && (o.Body? ==> forall i: nat | i < m :: o.nth(i) == Data(s.output[i]))
            && (!o.Body? ==> m == 0)
            && (s.ending.Running? ==> m == n && (n > 0 ==> o.Body?) && s.taken == n)
            && (s.ending.Closed? ==> o.Bodiless? || (o.Body? && o.nth(m).Done?))
            && (s.ending.Errored? ==> o.Unreached? || (o.Body? && o.nth(m).Broken?))
  {
    if n > 0 {
      EarlyStreamFaithful(o, n - 1);
    }
  }

  // ------------------------------------------------------- token comparison

  // JavaScript's ^ and | on non-negative integers below 2^31.
  function Xor(a: nat, b: nat): nat
    decreases a + b
  {
    if a == 0 && b == 0 then 0 else 2 * Xor(a / 2, b / 2) + (a % 2 + b % 2) % 2
  }

  function Or(a: nat, b: nat): nat
    decreases a + b
  {
    if a == 0 && b == 0 then 0 else 2 * Or(a / 2, b / 2) + if a % 2 == 1 || b % 2 == 1 then 1 else 0
  }

  lemma {:induction false} XorZero(a: nat, b: nat)
    ensures Xor(a, b) == 0 <==> a == b
    decreases a + b
  {
    if a != 0 || b != 0 {
      XorZero(a / 2, b / 2);
    }
  }

  lemma {:induction false} OrZero(a: nat, b: nat)
    ensures Or(a, b) == 0 <==> a == 0 && b == 0
    decreases a + b
  {
    if a != 0 || b != 0 {
      OrZero(a / 2, b / 2);
    }
  }

  // charCodeAt(i) | 0: zero past the end.
  function CodeAt(s: string, i: nat): nat {
    if i < |s| then s[i] as int else 0
  }

  // The comparison answers true exactly for equal strings, and always takes as
  // many steps as the longer input has characters: it stops nowhere early.
  method TokensMatch(expected: string, provided: string) returns (same: bool, ghost steps: nat)
    ensures same <==> expected == provided
    ensures steps == if |expected| >= |provided| then |expected| else |provided|
  {
    var length := if |expected| >= |provided| then |expected| else |provided|;
    var diff := Xor(|expected|, |provided|);
    XorZero(|expected|, |provided|);
    steps := 0;
    for i := 0 to length
      invariant steps == i
      invariant diff == 0 <==> |expected| == |provided|
                               && forall j | 0 <= j < i :: CodeAt(expected, j) == CodeAt(provided, j)
    {
      var step := Xor(CodeAt(expected, i), CodeAt(provided, i));
      XorZero(CodeAt(expected, i), CodeAt(provided, i));
      OrZero(diff, step);
      diff := Or(diff, step);
      steps := steps + 1;
    }
    same := diff == 0;
    if same {
      forall j | 0 <= j < |expected|
        ensures expected[j] == provided[j]
      {
        assert CodeAt(expected, j) == CodeAt(provided, j);
      }
    }
  }
}
