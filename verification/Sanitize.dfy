// Safe diagnostics: quoted URLs blanked, userinfo redacted, terminal controls
// neutralized, the length bounded. Strings are bytes, as in Go.
module Sanitize {
  import opened Bytes

  const MAX_LENGTH: nat := 512
  const AT: Byte := 64
  const QUOTE: Byte := 34
  const BACKSLASH: Byte := 92
  const BELL: Byte := 7
  const ELLIPSIS: Rune := 0x2026
  const REDACTED: seq<Byte> := Ascii("[redacted]@")
  const BLANK: seq<Byte> := [QUOTE, 0xE2, 0x80, 0xA6, QUOTE]

  // ---------------------------------------------------------------- scanning

  predicate SchemeAt(s: seq<Byte>, i: nat) {
    i + 3 <= |s| && s[i] == COLON && s[i + 1] == 47 && s[i + 2] == 47
  }

  // Where "://" first occurs; the length when nowhere.
  function FindScheme(s: seq<Byte>): (i: nat)
    ensures i <= |s|
    ensures i < |s| ==> SchemeAt(s, i)
    ensures forall j: nat | j < i :: !SchemeAt(s, j)
  {
    if s == [] || SchemeAt(s, 0) then 0
    else
      var i := FindScheme(s[1..]);
      assert forall j: nat | 0 < j <= |s| :: SchemeAt(s, j) == SchemeAt(s[1..], j - 1);
      i + 1
  }

  predicate HasScheme(s: seq<Byte>) {
    FindScheme(s) < |s|
  }

  // Whitespace, controls, quotes, angle brackets and the backtick end a token.
  predicate Stops(c: Byte) {
    c <= 0x20 || c == DEL || c == QUOTE || c == 39 || c == 60 || c == 62 || c == 96
  }

  // The length of the token a string starts with.
  function TokenEnd(s: seq<Byte>): (n: nat)
    ensures n <= |s|
    ensures forall j | 0 <= j < n :: !Stops(s[j])
    ensures n < |s| ==> Stops(s[n])
  {
    if s == [] || Stops(s[0]) then 0 else 1 + TokenEnd(s[1..])
  }

  method TokenEndIndex(s: seq<Byte>, from: nat) returns (end: nat)
    requires from <= |s|
    ensures end == from + TokenEnd(s[from..])
  {
    end := from;
    while end < |s|
      invariant from <= end <= |s|
      invariant from + TokenEnd(s[from..]) == end + TokenEnd(s[end..])
    {
      if Stops(s[end]) {
        return;
      }
      assert s[end..][1..] == s[end + 1..];
      end := end + 1;
    }
  }

  // The length up to and including the last '@'; zero without one.
  function LastAt(s: seq<Byte>): (n: nat)
    ensures n <= |s|
    ensures n > 0 ==> s[n - 1] == AT
    ensures forall j | n <= j < |s| :: s[j] != AT
  {
    if s == [] || s[|s| - 1] == AT then |s| else LastAt(s[..|s| - 1])
  }

  lemma LastAtUnique(s: seq<Byte>, n: nat)
    requires n <= |s| && (n > 0 ==> s[n - 1] == AT) && forall j | n <= j < |s| :: s[j] != AT
    ensures LastAt(s) == n
  {
  }

  lemma TokenEndUnique(s: seq<Byte>, n: nat)
    requires n <= |s| && (forall j | 0 <= j < n :: !Stops(s[j])) && (n < |s| ==> Stops(s[n]))
    ensures TokenEnd(s) == n
  {
  }

  // ---------------------------------------------------------------- userinfo

  // The userinfo of every URL token, up to its last '@', replaced.
  function Redact(s: seq<Byte>): seq<Byte>
    decreases |s|, 1
  {
    var i := FindScheme(s);
    if i == |s| then s else RedactToken(s, i + 3, i + 3 + TokenEnd(s[i + 3..]))
  }

  // The same from the URL token s[start..end] on.
  function RedactToken(s: seq<Byte>, start: nat, end: nat): seq<Byte>
    requires 0 < start <= end <= |s|
    decreases |s|, 0
  {
    var at := LastAt(s[start..end]);
    if at == 0 then s[..end] + Redact(s[end..])
    else s[..start] + REDACTED + Redact(s[start + at..])
  }

  // What is already scanned, and what is still to do.
  function Underway(v: seq<Byte>, from: nat): seq<Byte>
    requires from <= |v|
  {
    v[..from] + Redact(v[from..])
  }

  lemma NoneLeft(v: seq<Byte>, from: nat)
    requires from <= |v| && FindScheme(v[from..]) == |v[from..]|
    ensures Underway(v, from) == v
  {
  }

  // A token without '@' is passed over.
  lemma PassOver(v: seq<Byte>, from: nat, start: nat, end: nat)
    requires from + 3 <= start <= end <= |v| && start - 3 == from + FindScheme(v[from..])
    requires end == start + TokenEnd(v[start..]) && LastAt(v[start..end]) == 0
    ensures Underway(v, from) == Underway(v, end)
  {
    hide FindScheme, TokenEnd, LastAt;
    var s := v[from..];
    assert s[start - from..] == v[start..] && s[start - from..end - from] == v[start..end];
    assert s[end - from..] == v[end..];
    PassOverHere(s, start - from, end - from);
    Glue(v[..from], s[..end - from], Redact(v[end..]));
    assert v[..from] + s[..end - from] == v[..end];
  }

  lemma RedactStep(s: seq<Byte>, start: nat, end: nat)
    requires 3 <= start <= end <= |s| && start - 3 == FindScheme(s)
    requires end == start + TokenEnd(s[start..])
    ensures Redact(s) == RedactToken(s, start, end)
  {
    hide TokenEnd, LastAt, FindScheme, RedactToken;
  }

  lemma PassOverHere(s: seq<Byte>, start: nat, end: nat)
    requires 3 <= start <= end <= |s| && start - 3 == FindScheme(s)
    requires end == start + TokenEnd(s[start..]) && LastAt(s[start..end]) == 0
    ensures Redact(s) == s[..end] + Redact(s[end..])
  {
    hide TokenEnd, LastAt, Redact, FindScheme;
    RedactStep(s, start, end);
  }

  lemma Glue(a: seq<Byte>, b: seq<Byte>, c: seq<Byte>)
    ensures a + (b + c) == (a + b) + c
  {
  }

  // The text before a token's last '@' is replaced.
  lemma Rewritten(v: seq<Byte>, from: nat, start: nat, end: nat, at: nat)
    requires from + 3 <= start <= end <= |v| && start - 3 == from + FindScheme(v[from..])
    requires end == start + TokenEnd(v[start..]) && at == LastAt(v[start..end]) && 0 < at <= end - start
    ensures Underway(v, from) == Underway(v[..start] + REDACTED + v[start + at..], start + |REDACTED|)
  {
    hide FindScheme, TokenEnd, LastAt, Redact;
    var s := v[from..];
    assert s[start - from..] == v[start..] && s[start - from..end - from] == v[start..end];
    assert s[start - from + at..] == v[start + at..];
    RewrittenHere(s, start - from, end - from, at);
    GlueMark(v[..from], s[..start - from], REDACTED, Redact(v[start + at..]));
    assert v[..from] + s[..start - from] == v[..start];
    MarkPlaced(v[..start], v[start + at..]);
  }

  lemma GlueMark(a: seq<Byte>, b: seq<Byte>, c: seq<Byte>, d: seq<Byte>)
    ensures a + (b + c + d) == a + b + c + d
  {
  }

  lemma MarkPlaced(a: seq<Byte>, b: seq<Byte>)
    ensures var w := a + REDACTED + b;
            w[..|a| + |REDACTED|] == a + REDACTED && w[|a| + |REDACTED|..] == b
  {
  }

  lemma RewrittenHere(s: seq<Byte>, start: nat, end: nat, at: nat)
    requires 3 <= start <= end <= |s| && start - 3 == FindScheme(s)
    requires end == start + TokenEnd(s[start..]) && at == LastAt(s[start..end]) && 0 < at <= end - start
    ensures Redact(s) == s[..start] + REDACTED + Redact(s[start + at..])
  {
    hide TokenEnd, LastAt, Redact, FindScheme;
    RedactStep(s, start, end);
  }

  lemma SchemeFound(s: seq<Byte>)
    ensures 0 <= FindScheme(s) <= |s| && (FindScheme(s) < |s| ==> FindScheme(s) + 3 <= |s|)
  {
  }

  lemma TokenFound(s: seq<Byte>, from: nat)
    requires from <= |s|
    ensures var end := from + TokenEnd(s[from..]); from <= end <= |s| && 0 <= LastAt(s[from..end]) <= end - from
  {
  }

  // The loop rewrites the string it scans, and ends.
  method RedactUserinfo(value: seq<Byte>) returns (out: seq<Byte>)
    ensures out == Redact(value)
  {
    hide Redact, FindScheme, TokenEnd, LastAt;
    out := value;
    var searchFrom: nat := 0;
    assert value[0..] == value && Underway(value, 0) == Redact(value);
    while true
      invariant searchFrom <= |out|
      invariant Redact(value) == Underway(out, searchFrom)
      decreases |out| - searchFrom
    {
      SchemeFound(out[searchFrom..]);
      var idx := FindScheme(out[searchFrom..]);
      if idx == |out| - searchFrom {
        NoneLeft(out, searchFrom);
        return;
      }
      var userinfoStart := searchFrom + idx + 3;
      var tokenEnd := TokenEndIndex(out, userinfoStart);
      TokenFound(out, userinfoStart);
      var at := LastAt(out[userinfoStart..tokenEnd]);
      if at == 0 {
        PassOver(out, searchFrom, userinfoStart, tokenEnd);
        searchFrom := tokenEnd;
        if searchFrom >= |out| {
          NothingAfter(out);
          return;
        }
        continue;
      }
      Rewritten(out, searchFrom, userinfoStart, tokenEnd, at);
      out := out[..userinfoStart] + REDACTED + out[userinfoStart + at..];
      searchFrom := userinfoStart + |REDACTED|;
    }
  }

  lemma NothingAfter(v: seq<Byte>)
    ensures Underway(v, |v|) == v
  {
  }

  // Every URL token's text before its last '@' is the redaction mark.
  predicate CleanAt(s: seq<Byte>, i: nat) {
    SchemeAt(s, i) ==>
      var token := s[i + 3..][..TokenEnd(s[i + 3..])];
      LastAt(token) == 0 || (LastAt(token) == |REDACTED| && token[..|REDACTED|] == REDACTED)
  }

  predicate Clean(s: seq<Byte>) {
    forall i: nat | i < |s| :: CleanAt(s, i)
  }

  lemma TokenEndConcat(a: seq<Byte>, b: seq<Byte>)
    ensures TokenEnd(a + b) == if TokenEnd(a) < |a| then TokenEnd(a) else |a| + TokenEnd(b)
  {
    var n := if TokenEnd(a) < |a| then TokenEnd(a) else |a| + TokenEnd(b);
    TokenEndUnique(a + b, n);
  }

  // A clean tail stays clean behind anything; so it is enough to look at the
  // occurrences that start in the head.
  lemma CleanConcat(a: seq<Byte>, b: seq<Byte>)
    requires Clean(b) && forall i: nat | i < |a| :: CleanAt(a + b, i)
    ensures Clean(a + b)
  {
    forall i: nat | |a| <= i < |a + b|
      ensures CleanAt(a + b, i)
    {
      var j := i - |a|;
      assert CleanAt(b, j);
      if SchemeAt(a + b, i) {
        assert SchemeAt(b, j);
        assert (a + b)[i + 3..] == b[j + 3..];
      }
    }
  }

  lemma CleanTail(s: seq<Byte>, n: nat)
    requires Clean(s) && n <= |s|
    ensures Clean(s[n..])
  {
    hide TokenEnd, LastAt;
    forall j: nat | j < |s[n..]|
      ensures CleanAt(s[n..], j)
    {
      assert CleanAt(s, n + j);
      if SchemeAt(s[n..], j) {
        assert s[n..][j + 3..] == s[n + j + 3..];
      }
    }
  }

  lemma Mark()
    ensures REDACTED == [91, 114, 101, 100, 97, 99, 116, 101, 100, 93, AT]
  {
  }

  // A leading token without '@' is kept as it is.
  lemma {:induction false} HeadKept(s: seq<Byte>)
    requires LastAt(s[..TokenEnd(s)]) == 0
    ensures var n, r := TokenEnd(s), Redact(s);
            n <= |r| && r[..n] == s[..n] && TokenEnd(r) == n
    decreases |s|
  {
    hide Redact, FindScheme, TokenEnd, LastAt;
    SchemeFound(s);
    TokenWithin(s);
    var i, n := FindScheme(s), TokenEnd(s);
    if i == |s| {
      NoScheme(s);
    } else if n < i + 3 {
      HeadBeforeScheme(s, i);
    } else {
      TokenAround(s, i, n);
      PassOverHere(s, i + 3, n);
      HeadKept(s[n..]);
      TokenEndConcat(s[..n], Redact(s[n..]));
    }
  }

  lemma TokenWithin(s: seq<Byte>)
    ensures 0 <= TokenEnd(s) <= |s|
  {
  }

  lemma HeadBeforeScheme(s: seq<Byte>, i: nat)
    requires i == FindScheme(s) < |s| && TokenEnd(s) < i + 3 <= |s|
    ensures var n, r := TokenEnd(s), Redact(s);
            n <= |r| && r[..n] == s[..n] && TokenEnd(r) == n
  {
    hide Redact, FindScheme;
    var n := TokenEnd(s);
    RedactHead(s, i + 3);
    TokenEndUnique(s[..i + 3], n);
    TokenEndConcat(s[..i + 3], Redact(s)[i + 3..]);
    assert Redact(s) == s[..i + 3] + Redact(s)[i + 3..];
  }

  // A scheme inside a token: the token around it ends where its own does.
  lemma TokenAround(s: seq<Byte>, i: nat, n: nat)
    requires n == TokenEnd(s) && i + 3 <= n && LastAt(s[..n]) == 0
    ensures n == i + 3 + TokenEnd(s[i + 3..]) && LastAt(s[i + 3..n]) == 0
    ensures TokenEnd(s[..n]) == n && TokenEnd(s[n..]) == 0 && LastAt(s[n..][..0]) == 0
  {
    TokenEndUnique(s[i + 3..], n - i - 3);
    var mid, token := s[i + 3..n], s[..n];
    assert forall j | 0 <= j < |mid| :: mid[j] == token[j + i + 3];
    LastAtUnique(mid, 0);
    TokenEndUnique(s[n..], 0);
    TokenEndUnique(s[..n], n);
  }

  lemma NoScheme(s: seq<Byte>)
    requires FindScheme(s) == |s|
    ensures Redact(s) == s && forall j: nat :: !SchemeAt(s, j)
  {
  }

  lemma SchemeNoStop(s: seq<Byte>, i: nat)
    requires i == FindScheme(s) < |s|
    ensures SchemeAt(s, i) && !Stops(s[i]) && !Stops(s[i + 1]) && !Stops(s[i + 2])
    ensures forall j: nat | j < i :: !SchemeAt(s, j)
  {
  }

  // Nothing up to the first URL token is rewritten.
  lemma RedactHead(s: seq<Byte>, start: nat)
    requires 3 <= start <= |s| && start - 3 == FindScheme(s)
    ensures start <= |Redact(s)| && Redact(s)[..start] == s[..start]
  {
    hide Redact, FindScheme;
    TokenFound(s, start);
    var end := start + TokenEnd(s[start..]);
    var at := LastAt(s[start..end]);
    if at == 0 {
      PassOverHere(s, start, end);
    } else {
      RewrittenHere(s, start, end, at);
    }
  }

  lemma PassedClean(s: seq<Byte>, start: nat, end: nat)
    requires 3 <= start <= end <= |s| && start - 3 == FindScheme(s)
    requires end == start + TokenEnd(s[start..]) && LastAt(s[start..end]) == 0
    requires Clean(Redact(s[end..]))
    ensures Clean(Redact(s))
  {
    hide Redact, FindScheme;
    var a, b := s[..end], Redact(s[end..]);
    PassOverHere(s, start, end);
    SchemeNoStop(s, start - 3);
    TokenEndUnique(s[end..], 0);
    HeadKept(s[end..]);
    forall k: nat | k < |a|
      ensures CleanAt(a + b, k)
    {
      if SchemeAt(a + b, k) {
        PassedToken(s, start, end, b, k);
      }
    }
    CleanConcat(a, b);
  }

  // No occurrence reaches into a string that starts with a token's end.
  lemma NoStraddle(a: seq<Byte>, b: seq<Byte>, k: nat)
    requires TokenEnd(b) == 0 && k < |a| && SchemeAt(a + b, k)
    ensures k + 3 <= |a|
  {
    assert b != [] ==> (a + b)[|a|] == b[0] && Stops(b[0]);
  }

  lemma PassedToken(s: seq<Byte>, start: nat, end: nat, b: seq<Byte>, k: nat)
    requires 3 <= start <= end <= |s| && (forall j: nat | j < start - 3 :: !SchemeAt(s, j))
    requires end == start + TokenEnd(s[start..]) && LastAt(s[start..end]) == 0 && TokenEnd(b) == 0
    requires k < end && SchemeAt(s[..end] + b, k)
    ensures CleanAt(s[..end] + b, k)
  {
    var v := s[..end] + b;
    NoStraddle(s[..end], b, k);
    assert SchemeAt(s, k);
    var mid := s[k + 3..end];
    assert v[k + 3..] == mid + b;
    assert forall j | 0 <= j < |mid| :: mid[j] == s[start..][j + k + 3 - start];
    TokenEndUnique(mid, |mid|);
    TokenEndConcat(mid, b);
    assert (mid + b)[..|mid|] == mid;
    assert forall j | 0 <= j < |mid| :: mid[j] == s[start..end][j + k + 3 - start];
    LastAtUnique(mid, 0);
  }

  lemma RewrittenClean(s: seq<Byte>, start: nat, end: nat, at: nat)
    requires 3 <= start <= end <= |s| && start - 3 == FindScheme(s)
    requires end == start + TokenEnd(s[start..]) && at == LastAt(s[start..end]) && 0 < at <= end - start
    requires Clean(Redact(s[start + at..]))
    ensures Clean(Redact(s))
  {
    hide Redact, FindScheme, TokenEnd, LastAt, CleanAt, Clean;
    var t := s[start + at..];
    var a, b := s[..start] + REDACTED, Redact(t);
    RewrittenHere(s, start, end, at);
    SchemeNoStop(s, start - 3);
    HeadAfterAt(s, start, end, at);
    HeadKept(t);
    forall k: nat | k < |a|
      ensures CleanAt(a + b, k)
    {
      if SchemeAt(a + b, k) {
        RewrittenToken(s, start, t[..end - start - at], b, k);
      } else {
        NoSchemeThere(a + b, k);
      }
    }
    CleanConcat(a, b);
  }

  lemma NoSchemeThere(s: seq<Byte>, k: nat)
    requires !SchemeAt(s, k)
    ensures CleanAt(s, k)
  {
  }

  // Behind a token's last '@' the token goes on without one.
  lemma HeadAfterAt(s: seq<Byte>, start: nat, end: nat, at: nat)
    requires start <= end <= |s| && end == start + TokenEnd(s[start..])
    requires at == LastAt(s[start..end]) && 0 < at <= end - start
    ensures var t := s[start + at..];
            TokenEnd(t) == end - start - at && LastAt(t[..end - start - at]) == 0
  {
    var t, n := s[start + at..], end - start - at;
    assert forall j | 0 <= j < |t| :: t[j] == s[start..][at + j];
    TokenEndUnique(t, n);
    assert forall j | 0 <= j < n :: t[..n][j] == s[start..end][at + j];
    LastAtUnique(t[..n], 0);
  }

  // No occurrence starts in the mark or reaches into it.
  lemma NoneInMark(p: seq<Byte>, b: seq<Byte>, k: nat)
    requires k < |p| + |REDACTED| && SchemeAt(p + REDACTED + b, k)
    ensures k + 3 <= |p| && SchemeAt(p, k)
  {
    var v := p + REDACTED + b;
    Mark();
    assert forall j | 0 <= j < |REDACTED| :: v[|p| + j] == REDACTED[j];
  }

  lemma MarkIsToken()
    ensures TokenEnd(REDACTED) == |REDACTED| && REDACTED[|REDACTED| - 1] == AT
  {
    Mark();
    TokenEndUnique(REDACTED, |REDACTED|);
  }

  lemma NoAt(s: seq<Byte>)
    requires LastAt(s) == 0
    ensures forall j | 0 <= j < |s| :: s[j] != AT
  {
  }

  lemma MarkedToken(head: seq<Byte>, b: seq<Byte>)
    requires LastAt(head) == 0 && TokenEnd(b) == |head| && head <= b
    ensures TokenEnd(REDACTED + b) == |REDACTED| + |head|
    ensures (REDACTED + b)[..|REDACTED| + |head|] == REDACTED + head && LastAt(REDACTED + head) == |REDACTED|
  {
    hide TokenEnd, LastAt;
    MarkIsToken();
    TokenEndConcat(REDACTED, b);
    NoAt(head);
    LastAtUnique(REDACTED + head, |REDACTED|);
  }

  // An occurrence right before the mark is clean.
  lemma MarkedClean(v: seq<Byte>, k: nat, head: seq<Byte>, b: seq<Byte>)
    requires k + 3 <= |v| && v[k + 3..] == REDACTED + b
    requires LastAt(head) == 0 && TokenEnd(b) == |head| && head <= b
    ensures CleanAt(v, k)
  {
    hide TokenEnd, LastAt, SchemeAt;
    MarkedToken(head, b);
    assert (REDACTED + head)[..|REDACTED|] == REDACTED;
  }

  lemma RewrittenToken(s: seq<Byte>, start: nat, head: seq<Byte>, b: seq<Byte>, k: nat)
    requires 3 <= start <= |s| && (forall j: nat | j < start - 3 :: !SchemeAt(s, j))
    requires LastAt(head) == 0 && TokenEnd(b) == |head| && head <= b
    requires k < start + |REDACTED| && SchemeAt(s[..start] + REDACTED + b, k)
    ensures CleanAt(s[..start] + REDACTED + b, k)
  {
    hide TokenEnd, LastAt, CleanAt;
    NoneInMark(s[..start], b, k);
    OnlyThere(s, start, k);
    TailOfMarked(s[..start], b);
    MarkedClean(s[..start] + REDACTED + b, k, head, b);
  }

  lemma OnlyThere(s: seq<Byte>, start: nat, k: nat)
    requires 3 <= start <= |s| && (forall j: nat | j < start - 3 :: !SchemeAt(s, j))
    requires k + 3 <= start && SchemeAt(s[..start], k)
    ensures k + 3 == start
  {
    assert SchemeAt(s, k);
  }

  lemma TailOfMarked(a: seq<Byte>, b: seq<Byte>)
    ensures (a + REDACTED + b)[|a|..] == REDACTED + b
  {
  }

  // Whatever the input, the result is clean.
  lemma {:induction false} RedactClean(s: seq<Byte>)
    ensures Clean(Redact(s))
    decreases |s|
  {
    hide Redact, FindScheme, Clean, TokenEnd, LastAt;
    SchemeFound(s);
    var start := FindScheme(s) + 3;
    if start - 3 == |s| {
      NoSchemeClean(s);
    } else {
      TokenFound(s, start);
      var end := start + TokenEnd(s[start..]);
      var at := LastAt(s[start..end]);
      if at == 0 {
        RedactClean(s[end..]);
        PassedClean(s, start, end);
      } else {
        RedactClean(s[start + at..]);
        RewrittenClean(s, start, end, at);
      }
    }
  }

  lemma NoSchemeClean(s: seq<Byte>)
    requires FindScheme(s) == |s|
    ensures Clean(Redact(s))
  {
    NoScheme(s);
  }

  // A clean string is left alone.
  lemma {:induction false} CleanFixed(s: seq<Byte>)
    requires Clean(s)
    ensures Redact(s) == s
    decreases |s|
  {
    hide Redact, FindScheme, TokenEnd, LastAt, Clean;
    SchemeFound(s);
    var start := FindScheme(s) + 3;
    if start - 3 == |s| {
      NoScheme(s);
    } else {
      TokenFound(s, start);
      var end := start + TokenEnd(s[start..]);
      var at := LastAt(s[start..end]);
      FirstToken(s, start, end);
      if at == 0 {
        PassOverHere(s, start, end);
        CleanTail(s, end);
        CleanFixed(s[end..]);
        assert s[..end] + s[end..] == s;
      } else {
        RewrittenHere(s, start, end, at);
        CleanTail(s, start + at);
        CleanFixed(s[start + at..]);
        assert s[..start] + s[start..start + at] + s[start + at..] == s;
      }
    }
  }

  lemma CleanThere(s: seq<Byte>, i: nat)
    requires Clean(s) && i < |s|
    ensures CleanAt(s, i)
  {
  }

  lemma SchemeThere(s: seq<Byte>)
    ensures FindScheme(s) < |s| ==> SchemeAt(s, FindScheme(s))
  {
  }

  lemma FirstToken(s: seq<Byte>, start: nat, end: nat)
    requires Clean(s) && 3 <= start <= end <= |s| && start - 3 == FindScheme(s) < |s|
    requires end == start + TokenEnd(s[start..])
    ensures var at := LastAt(s[start..end]);
            at == 0 || (at == |REDACTED| <= end - start && s[start..start + at] == REDACTED)
  {
    hide TokenEnd, LastAt, FindScheme, Clean;
    CleanThere(s, start - 3);
    TokenFound(s, start);
    SchemeThere(s);
    var token := s[start..][..end - start];
    assert token == s[start..end];
    assert |REDACTED| <= |token| ==> token[..|REDACTED|] == s[start..start + |REDACTED|];
  }

  // Redaction is exact: it changes a string if and only if some URL token
  // still carries userinfo, and once is enough.
  lemma RedactExact(s: seq<Byte>)
    ensures Redact(s) == s <==> Clean(s)
    ensures Redact(Redact(s)) == Redact(s)
  {
    RedactClean(s);
    CleanFixed(Redact(s));
    if Clean(s) {
      CleanFixed(s);
    }
  }

  // ------------------------------------------------------------- quoted URLs

  // The index of the first quote; the length when there is none.
  function QuoteAt(s: seq<Byte>): (i: nat)
    ensures i <= |s|
    ensures i < |s| ==> s[i] == QUOTE
    ensures forall j | 0 <= j < i :: s[j] != QUOTE
  {
    if s == [] || s[0] == QUOTE then 0 else 1 + QuoteAt(s[1..])
  }

  // The index of the closing quote of a token whose opening quote is just
  // behind, honouring backslash escapes; the length when unterminated.
  function CloseAt(s: seq<Byte>): (i: nat)
    ensures i <= |s|
    ensures i < |s| ==> s[i] == QUOTE
    decreases |s|
  {
    if s == [] || s[0] == QUOTE then 0
    else if s[0] == BACKSLASH then if |s| == 1 then 1 else 2 + CloseAt(s[2..])
    else 1 + CloseAt(s[1..])
  }

  method QuotedTokenEnd(value: seq<Byte>, start: nat) returns (end: int)
    requires start < |value|
    ensures var c := CloseAt(value[start + 1..]);
            end == if start + 1 + c < |value| then start + 1 + c else -1
  {
    end := start + 1;
    while end < |value|
      invariant start + 1 <= end
      invariant end <= |value| ==> start + 1 + CloseAt(value[start + 1..]) == end + CloseAt(value[end..])
      invariant end > |value| ==> start + 1 + CloseAt(value[start + 1..]) == |value|
    {
      if value[end] == QUOTE {
        return;
      }
      if value[end] == BACKSLASH {
        if end + 1 < |value| {
          assert value[end..][2..] == value[end + 2..];
        }
        end := end + 2;
      } else {
        assert value[end..][1..] == value[end + 1..];
        end := end + 1;
      }
    }
    end := -1;
  }

  // Every quoted token that holds a URL replaced; an unterminated one takes
  // the rest of the string with it.
  function Strip(s: seq<Byte>): seq<Byte>
    decreases |s|, 1
  {
    var start := QuoteAt(s);
    if start == |s| then s else StripToken(s, start, start + 1 + CloseAt(s[start + 1..]))
  }

  function StripToken(s: seq<Byte>, start: nat, end: nat): seq<Byte>
    requires start < end <= |s|
    decreases |s|, 0
  {
    if end == |s| then (if HasScheme(s[start..]) then s[..start] + BLANK else s)
    else if HasScheme(s[start..end + 1]) then s[..start] + BLANK + Strip(s[end + 1..])
    else s[..end + 1] + Strip(s[end + 1..])
  }

  function Stripping(v: seq<Byte>, i: nat): seq<Byte>
    requires i <= |v|
  {
    v[..i] + Strip(v[i..])
  }

  lemma StripStep(s: seq<Byte>, start: nat, end: nat)
    requires start < end <= |s| && start == QuoteAt(s) && end == start + 1 + CloseAt(s[start + 1..])
    ensures Strip(s) == StripToken(s, start, end)
  {
    hide CloseAt, QuoteAt, StripToken;
  }

  lemma QuoteFound(s: seq<Byte>)
    ensures 0 <= QuoteAt(s) <= |s|
    ensures QuoteAt(s) == |s| ==> Strip(s) == s
    ensures QuoteAt(s) < |s| ==> 0 <= CloseAt(s[QuoteAt(s) + 1..]) <= |s| - QuoteAt(s) - 1
  {
    hide Strip, CloseAt, StripToken, QuoteAt;
    QuoteInside(s);
    if QuoteAt(s) == |s| {
      NoQuoteKept(s);
    } else {
      CloseWithin(s[QuoteAt(s) + 1..]);
    }
  }

  lemma QuoteInside(s: seq<Byte>)
    ensures 0 <= QuoteAt(s) <= |s|
  {
  }

  lemma NoQuoteKept(s: seq<Byte>)
    requires QuoteAt(s) == |s|
    ensures Strip(s) == s
  {
    hide StripToken, CloseAt;
  }

  lemma CloseWithin(s: seq<Byte>)
    ensures 0 <= CloseAt(s) <= |s|
  {
  }

  // One token of the string under rewriting.
  lemma StrippingStep(v: seq<Byte>, i: nat, start: nat, end: nat)
    requires i <= start < end <= |v| && start == i + QuoteAt(v[i..]) && end == start + 1 + CloseAt(v[start + 1..])
    ensures end == |v| ==> Stripping(v, i) == if HasScheme(v[start..]) then v[..start] + BLANK else v
    ensures end < |v| && HasScheme(v[start..end + 1]) ==>
              Stripping(v, i) == Stripping(v[..start] + BLANK + v[end + 1..], start + |BLANK|)
    ensures end < |v| && !HasScheme(v[start..end + 1]) ==> Stripping(v, i) == Stripping(v, end + 1)
  {
    hide CloseAt, QuoteAt, Strip, HasScheme;
    var s := v[i..];
    assert s[start - i + 1..] == v[start + 1..] && s[start - i..] == v[start..];
    StripStep(s, start - i, end - i);
    assert v[..i] + s[..start - i] == v[..start];
    if end == |v| {
      assert v[..i] + (s[..start - i] + BLANK) == v[..start] + BLANK;
      assert v[..i] + s == v;
    } else {
      assert s[start - i..end - i + 1] == v[start..end + 1];
      assert s[end - i + 1..] == v[end + 1..];
      StrippedRest(v, i, start, end);
    }
  }

  lemma StrippedRest(v: seq<Byte>, i: nat, start: nat, end: nat)
    requires i <= start < end < |v|
    ensures var rest := Strip(v[end + 1..]);
            && v[..i] + (v[i..][..start - i] + BLANK + rest)
               == Stripping(v[..start] + BLANK + v[end + 1..], start + |BLANK|)
            && v[..i] + (v[i..][..end - i + 1] + rest) == Stripping(v, end + 1)
  {
    hide Strip;
    var s, w := v[i..], v[..start] + BLANK + v[end + 1..];
    var rest := Strip(v[end + 1..]);
    assert w[start + |BLANK|..] == v[end + 1..] && w[..start + |BLANK|] == v[..start] + BLANK;
    Glue(v[..i], s[..start - i] + BLANK, rest);
    Glue(v[..i], s[..start - i], BLANK);
    assert v[..i] + s[..start - i] == v[..start];
    Glue(v[..i], s[..end - i + 1], rest);
    assert v[..i] + s[..end - i + 1] == v[..end + 1];
  }

  method StripQuotedURLs(value: seq<Byte>) returns (out: seq<Byte>)
    ensures out == Strip(value)
  {
    hide Strip, QuoteAt, CloseAt, HasScheme;
    out := value;
    var i: nat := 0;
    assert value[0..] == value && Stripping(value, 0) == Strip(value);
    while i < |out|
      invariant i <= |out| && Strip(value) == Stripping(out, i)
      decreases |out| - i
    {
      QuoteFound(out[i..]);
      var start := i + QuoteAt(out[i..]);
      if start == |out| {
        assert out[..i] + out[i..] == out;
        return;
      }
      assert out[i..][start - i + 1..] == out[start + 1..];
      var end := QuotedTokenEnd(out, start);
      if end < 0 {
        StrippingStep(out, i, start, |out|);
        if HasScheme(out[start..]) {
          return out[..start] + BLANK;
        }
        return;
      }
      StrippingStep(out, i, start, end);
      if HasScheme(out[start..end + 1]) {
        out := out[..start] + BLANK + out[end + 1..];
        i := start + |BLANK|;
        continue;
      }
      i := end + 1;
    }
    StripNothing(out);
  }

  lemma StripNothing(v: seq<Byte>)
    ensures Stripping(v, |v|) == v
  {
  }

  // A string as bare text and quoted tokens: each segment is bare text and
  // the token after it, the last token possibly missing or unterminated.
  datatype Segment = Segment(bare: seq<Byte>, token: seq<Byte>)

  function Segments(s: seq<Byte>): seq<Segment>
    decreases |s|, 1
  {
    if s == [] then []
    else if QuoteAt(s) == |s| then [Segment(s, [])]
    else SegmentToken(s, QuoteAt(s), QuoteAt(s) + 1 + CloseAt(s[QuoteAt(s) + 1..]))
  }

  function SegmentToken(s: seq<Byte>, start: nat, end: nat): seq<Segment>
    requires start < end <= |s|
    decreases |s|, 0
  {
    if end == |s| then [Segment(s[..start], s[start..])]
    else [Segment(s[..start], s[start..end + 1])] + Segments(s[end + 1..])
  }

  lemma SegmentStep(s: seq<Byte>, start: nat, end: nat)
    requires start < end <= |s| && start == QuoteAt(s) && end == start + 1 + CloseAt(s[start + 1..])
    ensures Segments(s) == SegmentToken(s, start, end)
  {
    hide CloseAt, QuoteAt, SegmentToken;
  }

  // Nothing of the string is lost by cutting it into segments.
  function Joined(segments: seq<Segment>): seq<Byte> {
    if segments == [] then [] else segments[0].bare + segments[0].token + Joined(segments[1..])
  }

  lemma JoinedFirst(g: Segment, rest: seq<Segment>)
    ensures Joined([g] + rest) == g.bare + g.token + Joined(rest)
  {
    assert ([g] + rest)[1..] == rest;
  }

  lemma {:induction false} SegmentsJoin(s: seq<Byte>)
    ensures Joined(Segments(s)) == s
    decreases |s|
  {
    hide Segments, Joined, QuoteAt, CloseAt;
    QuoteFound(s);
    if s == [] || QuoteAt(s) == |s| {
      NoTokens(s);
    } else {
      var start := QuoteAt(s);
      var end := start + 1 + CloseAt(s[start + 1..]);
      SegmentStep(s, start, end);
      NothingJoined();
      if end < |s| {
        SegmentsJoin(s[end + 1..]);
        JoinedFirst(Segment(s[..start], s[start..end + 1]), Segments(s[end + 1..]));
        assert s[..start] + s[start..end + 1] + s[end + 1..] == s;
      } else {
        JoinedFirst(Segment(s[..start], s[start..]), []);
        assert [Segment(s[..start], s[start..])] + [] == [Segment(s[..start], s[start..])];
        assert s[..start] + s[start..] + [] == s;
      }
    }
  }

  lemma NothingJoined()
    ensures Joined([]) == []
  {
  }

  lemma NoTokens(s: seq<Byte>)
    requires s == [] || QuoteAt(s) == |s|
    ensures Segments(s) == if s == [] then [] else [Segment(s, [])]
    ensures Joined(Segments(s)) == s && Strip(s) == s
  {
    if s != [] {
      JoinedFirst(Segment(s, []), []);
      assert [Segment(s, [])] + [] == [Segment(s, [])];
      NothingJoined();
    }
  }

  function Blanked(g: Segment): Segment {
    if HasScheme(g.token) then g.(token := BLANK) else g
  }

  function AllBlanked(segments: seq<Segment>): seq<Segment> {
    seq(|segments|, i requires 0 <= i < |segments| => Blanked(segments[i]))
  }

  predicate Terminated(token: seq<Byte>) {
    |token| >= 2 && token[0] == QUOTE && CloseAt(token[1..]) == |token| - 2
  }

  lemma {:induction false} CloseConcat(a: seq<Byte>, b: seq<Byte>)
    requires CloseAt(a) < |a|
    ensures CloseAt(a + b) == CloseAt(a)
    decreases |a|
  {
    if a[0] == BACKSLASH {
      assert (a + b)[2..] == a[2..] + b;
      CloseConcat(a[2..], b);
    } else if a[0] != QUOTE {
      assert (a + b)[1..] == a[1..] + b;
      CloseConcat(a[1..], b);
    }
  }

  lemma {:induction false} ClosePrefix(s: seq<Byte>, n: nat)
    requires n == CloseAt(s) < |s|
    ensures CloseAt(s[..n + 1]) == n
    decreases |s|
  {
    if s[0] == QUOTE {
    } else if s[0] == BACKSLASH {
      assert n == 2 + CloseAt(s[2..]);
      ClosePrefix(s[2..], n - 2);
      PartOfPart(s, 2, n + 1);
    } else {
      assert n == 1 + CloseAt(s[1..]);
      ClosePrefix(s[1..], n - 1);
      PartOfPart(s, 1, n + 1);
    }
  }

  lemma PartOfPart(s: seq<Byte>, a: nat, b: nat)
    requires a <= b <= |s|
    ensures s[..b][a..] == s[a..][..b - a]
  {
  }

  lemma QuoteUnique(s: seq<Byte>, i: nat)
    requires i < |s| && s[i] == QUOTE && forall j | 0 <= j < i :: s[j] != QUOTE
    ensures QuoteAt(s) == i
  {
  }

  lemma NoQuoteIn(s: seq<Byte>)
    requires QuoteAt(s) == |s|
    ensures forall j | 0 <= j < |s| :: s[j] != QUOTE
  {
  }

  // Bare text, a terminated token and a rest are cut apart where they meet.
  lemma CutApart(bare: seq<Byte>, token: seq<Byte>, rest: seq<Byte>)
    requires QuoteAt(bare) == |bare| && Terminated(token)
    ensures Segments(bare + token + rest) == [Segment(bare, token)] + Segments(rest)
  {
    hide CloseAt, Segments, QuoteAt;
    var s, start := bare + token + rest, |bare|;
    var end := start + |token| - 1;
    NoQuoteIn(bare);
    QuoteUnique(s, start);
    assert s[start + 1..] == token[1..] + rest;
    CloseConcat(token[1..], rest);
    SegmentStep(s, start, end);
    assert s[..start] == bare && s[start..] == token + rest && s[start..end + 1] == token && s[end + 1..] == rest;
    if rest == [] {
      NoTokens(rest);
      assert [Segment(bare, token)] + [] == [Segment(bare, token)];
    }
  }

  lemma BlankTerminated()
    ensures Terminated(BLANK) && !HasScheme(BLANK)
  {
    assert BLANK[1..] == [0xE2, 0x80, 0xA6, QUOTE];
    assert BLANK[1..][1..] == [0x80, 0xA6, QUOTE];
    assert [0x80, 0xA6, QUOTE][1..] == [0xA6, QUOTE];
    assert [0xA6, QUOTE][1..] == [QUOTE];
    assert CloseAt([QUOTE]) == 0;
    assert CloseAt([0xA6, QUOTE]) == 1;
    assert CloseAt([0x80, 0xA6, QUOTE]) == 2;
    assert CloseAt(BLANK[1..]) == 3;
  }

  lemma QuoteThere(s: seq<Byte>)
    requires QuoteAt(s) < |s|
    ensures s[QuoteAt(s)] == QUOTE && QuoteAt(s[..QuoteAt(s)]) == QuoteAt(s)
  {
    assert forall j | 0 <= j < QuoteAt(s) :: s[..QuoteAt(s)][j] == s[j];
  }

  lemma TokenTerminated(s: seq<Byte>, start: nat, end: nat)
    requires start < end < |s| && start == QuoteAt(s) && end == start + 1 + CloseAt(s[start + 1..])
    ensures Terminated(s[start..end + 1]) && QuoteAt(s[..start]) == start
  {
    hide CloseAt, QuoteAt;
    QuoteThere(s);
    ClosePrefix(s[start + 1..], end - start - 1);
    var token := s[start..end + 1];
    assert token[1..] == s[start + 1..][..end - start];
  }

  lemma BlankedFirst(g: Segment, rest: seq<Segment>)
    ensures AllBlanked([g] + rest) == [Blanked(g)] + AllBlanked(rest)
  {
  }

  // Stripping is exact: the result has the same bare text and the same tokens
  // in the same order, except that every token with a URL in it is blank.
  lemma {:induction false} StripExact(s: seq<Byte>)
    ensures Segments(Strip(s)) == AllBlanked(Segments(s))
    decreases |s|
  {
    hide Segments, QuoteAt, CloseAt, Strip, Terminated, HasScheme, AllBlanked;
    QuoteFound(s);
    if s == [] || QuoteAt(s) == |s| {
      NoTokens(s);
      BareKept(s);
    } else {
      var start := QuoteAt(s);
      var end := start + 1 + CloseAt(s[start + 1..]);
      SegmentStep(s, start, end);
      StripStep(s, start, end);
      BlankTerminated();
      if end < |s| {
        StripExact(s[end + 1..]);
        TokenTerminated(s, start, end);
        var token, rest := s[start..end + 1], s[end + 1..];
        BlankedFirst(Segment(s[..start], token), Segments(rest));
        CutApart(s[..start], BLANK, Strip(rest));
        CutApart(s[..start], token, Strip(rest));
        assert s[..start] + token == s[..end + 1];
      } else {
        LastBlanked(s, start);
      }
    }
  }

  lemma BareKept(s: seq<Byte>)
    ensures var segments := if s == [] then [] else [Segment(s, [])]; AllBlanked(segments) == segments
  {
  }

  // An unterminated token.
  lemma LastBlanked(s: seq<Byte>, start: nat)
    requires start == QuoteAt(s) < |s| && start + 1 + CloseAt(s[start + 1..]) == |s|
    ensures Segments(if HasScheme(s[start..]) then s[..start] + BLANK else s)
         == AllBlanked([Segment(s[..start], s[start..])])
  {
    hide HasScheme, CloseAt, Terminated, Segments, QuoteAt, AllBlanked;
    var g := Segment(s[..start], s[start..]);
    BlankTerminated();
    QuoteThere(s);
    BlankedAlone(g);
    if HasScheme(s[start..]) {
      NoTokens([]);
      CutApart(s[..start], BLANK, []);
      assert s[..start] + BLANK + [] == s[..start] + BLANK;
      assert [Blanked(g)] + [] == [Blanked(g)];
    } else {
      SegmentStep(s, start, |s|);
    }
  }

  lemma BlankedAlone(g: Segment)
    ensures AllBlanked([g]) == [Blanked(g)]
  {
  }

  predicate NoQuotedURL(s: seq<Byte>) {
    forall i | 0 <= i < |Segments(s)| :: !HasScheme(Segments(s)[i].token)
  }

  // No quoted token of the result holds a URL; stripping changes a string if
  // and only if one did, and once is enough.
  lemma StripClean(s: seq<Byte>)
    ensures NoQuotedURL(Strip(s))
    ensures Strip(s) == s <==> NoQuotedURL(s)
    ensures Strip(Strip(s)) == Strip(s)
  {
    hide Segments, Strip, HasScheme;
    StripExact(s);
    StripExact(Strip(s));
    BlankTerminated();
    SameSegments(s, Strip(s));
    SameSegments(Strip(s), Strip(Strip(s)));
  }

  lemma SameSegments(s: seq<Byte>, t: seq<Byte>)
    ensures Segments(s) == Segments(t) ==> s == t
  {
    SegmentsJoin(s);
    SegmentsJoin(t);
  }

  // ------------------------------------------------------- terminal controls

  // How many bytes after an ESC belong to its sequence.
  function SequenceLength(s: seq<Byte>): (n: nat)
    ensures n <= |s|
  {
    if s == [] then 0
    else if s[0] == 91 then 1 + ControlSequence(s[1..])
    else if s[0] == 93 then 1 + SystemCommand(s[1..])
    else if (s[0] == 40 || s[0] == 41 || s[0] == 35) && |s| > 1 then 2
    else 1
  }

  // Parameters and intermediates, up to and including the final byte.
  function ControlSequence(s: seq<Byte>): (n: nat)
    ensures n <= |s|
  {
    if s == [] then 0 else if 0x40 <= s[0] <= 0x7e then 1 else 1 + ControlSequence(s[1..])
  }

  // Up to and including BEL or ESC \.
  function SystemCommand(s: seq<Byte>): (n: nat)
    ensures n <= |s|
  {
    if s == [] then 0
    else if s[0] == BELL then 1
    else if s[0] == ESC && |s| > 1 && s[1] == BACKSLASH then 2
    else 1 + SystemCommand(s[1..])
  }

  function WithoutANSI(s: seq<Byte>): seq<Byte>
    decreases |s|
  {
    if s == [] then []
    else if s[0] != ESC then [s[0]] + WithoutANSI(s[1..])
    else WithoutANSI(s[1 + SequenceLength(s[1..])..])
  }

  method SkipSequence(s: seq<Byte>, from: nat) returns (i: nat)
    requires from <= |s|
    ensures i == from + SequenceLength(s[from..])
  {
    i := from;
    if i >= |s| {
      return;
    }
    if s[i] == 91 {
      i := i + 1;
      assert s[from..][1..] == s[i..];
      while i < |s|
        invariant from < i <= |s|
        invariant from + SequenceLength(s[from..]) == i + ControlSequence(s[i..])
      {
        var c := s[i];
        assert s[i..][1..] == s[i + 1..];
        i := i + 1;
        if 0x40 <= c <= 0x7e {
          return;
        }
      }
    } else if s[i] == 93 {
      i := i + 1;
      assert s[from..][1..] == s[i..];
      while i < |s|
        invariant from < i <= |s|
        invariant from + SequenceLength(s[from..]) == i + SystemCommand(s[i..])
      {
        assert s[i..][1..] == s[i + 1..];
        if s[i] == BELL {
          i := i + 1;
          return;
        }
        if s[i] == ESC && i + 1 < |s| && s[i + 1] == BACKSLASH {
          i := i + 2;
          return;
        }
        i := i + 1;
      }
    } else if s[i] == 40 || s[i] == 41 || s[i] == 35 {
      i := i + 1;
      if i < |s| {
        i := i + 1;
      }
    } else {
      i := i + 1;
    }
  }

  method StripANSI(s: seq<Byte>) returns (out: seq<Byte>)
    ensures out == WithoutANSI(s)
  {
    out := [];
    var i: nat := 0;
    assert s[0..] == s;
    while i < |s|
      invariant i <= |s| && WithoutANSI(s) == out + WithoutANSI(s[i..])
      decreases |s| - i
    {
      var rest := s[i..];
      if s[i] != ESC {
        assert rest[1..] == s[i + 1..];
        Glue(out, [s[i]], WithoutANSI(s[i + 1..]));
        out := out + [s[i]];
        i := i + 1;
        continue;
      }
      var next := SkipSequence(s, i + 1);
      assert rest[1..] == s[i + 1..];
      assert rest[1 + SequenceLength(rest[1..])..] == s[next..];
      i := next;
    }
    assert WithoutANSI(s[i..]) == [];
  }

  predicate NoEscape(s: seq<Byte>) {
    forall i | 0 <= i < |s| :: s[i] != ESC
  }

  // No ESC survives; a string without one is left alone.
  lemma {:induction false} ANSIGone(s: seq<Byte>)
    ensures NoEscape(WithoutANSI(s))
    ensures WithoutANSI(s) == s <==> NoEscape(s)
    ensures |WithoutANSI(s)| <= |s|
    decreases |s|
  {
    if s != [] {
      if s[0] != ESC {
        ANSIGone(s[1..]);
        assert s == [s[0]] + s[1..];
        if NoEscape(s) {
          assert NoEscape(s[1..]);
        }
      } else {
        ANSIGone(s[1 + SequenceLength(s[1..])..]);
      }
    }
  }

  // Line breaks and tabs become spaces, other controls go.
  function Calm(runes: seq<Rune>): seq<Rune> {
    if runes == [] then [] else Calm(runes[..|runes| - 1]) + CalmOne(runes[|runes| - 1])
  }

  function CalmOne(r: Rune): seq<Rune> {
    if r == LF || r == CR || r == TAB then [SPACE] else if Control(r) then [] else [r]
  }

  lemma {:induction false} CalmHasNoControls(runes: seq<Rune>)
    ensures forall i | 0 <= i < |Calm(runes)| :: !Control(Calm(runes)[i])
  {
    if runes != [] {
      var front, last := runes[..|runes| - 1], runes[|runes| - 1];
      CalmHasNoControls(front);
      assert Calm(runes) == Calm(front) + CalmOne(last);
    }
  }

  // A text without controls is left alone.
  lemma {:induction false} CalmFixed(runes: seq<Rune>)
    requires forall i | 0 <= i < |runes| :: !Control(runes[i])
    ensures Calm(runes) == runes
  {
    if runes != [] {
      CalmFixed(runes[..|runes| - 1]);
      assert runes == runes[..|runes| - 1] + [runes[|runes| - 1]];
    }
  }

  function Cleaned(value: seq<Byte>): seq<Byte> {
    EncodeAll(Calm(Decode(WithoutANSI(value))))
  }

  lemma CalmAppend(runes: seq<Rune>, r: Rune)
    ensures Calm(runes + [r]) == Calm(runes) + CalmOne(r)
  {
    assert (runes + [r])[..|runes|] == runes;
  }

  // What the loop writes for one rune.
  function Written(r: Rune): seq<Byte> {
    if r == LF || r == CR || r == TAB then [SPACE] else if r < 0x20 || r == DEL then [] else Encode(r)
  }

  lemma WrittenNext(read: seq<Rune>, r: Rune)
    ensures EncodeAll(Calm(read + [r])) == EncodeAll(Calm(read)) + Written(r)
  {
    hide EncodeAll, Calm;
    CalmAppend(read, r);
    if CalmOne(r) == [] {
      assert Calm(read) + [] == Calm(read);
      assert EncodeAll(Calm(read)) + [] == EncodeAll(Calm(read));
    } else {
      EncodeAppend(Calm(read), CalmOne(r)[0]);
      assert CalmOne(r) == [CalmOne(r)[0]];
    }
  }

  method CleanControls(value: seq<Byte>) returns (out: seq<Byte>)
    ensures out == Cleaned(value)
  {
    hide Encode, DecodeOne, Calm, EncodeAll, Decode;
    var v := StripANSI(value);
    out := [];
    var i: nat := 0;
    ghost var read: seq<Rune> := [];
    assert v[0..] == v;
    NothingCalm();
    while i < |v|
      invariant i <= |v| && Decode(v) == read + Decode(v[i..]) && out == EncodeAll(Calm(read))
      decreases |v| - i
    {
      DecodeFirst(v[i..]);
      var (r, size) := DecodeOne(v[i..]);
      assert v[i..][size..] == v[i + size..];
      WrittenNext(read, r);
      if r == LF || r == CR || r == TAB {
        out := out + [SPACE];
      } else if !(r < 0x20 || r == DEL) {
        out := out + Encode(r);
      }
      read := read + [r];
      i := i + size;
    }
    assert v[i..] == [];
    assert read + [] == read;
  }

  lemma NothingCalm()
    ensures EncodeAll(Calm([])) == [] && Decode([]) == []
  {
  }

  lemma DecodeFirst(s: seq<Byte>)
    requires s != []
    ensures 1 <= DecodeOne(s).1 <= |s| && Decode(s) == [DecodeOne(s).0] + Decode(s[DecodeOne(s).1..])
  {
  }

  // ------------------------------------------------------------- the pipeline

  function Bounded(value: seq<Byte>): seq<Byte> {
    if |Decode(value)| <= MAX_LENGTH then value
    else EncodeAll(Decode(value)[..MAX_LENGTH]) + Encode(ELLIPSIS)
  }

  predicate Contains(s: seq<Byte>, pattern: seq<Byte>) {
    exists i: nat :: i <= |s| && Starts(s[i..], pattern)
  }

  predicate Starts(s: seq<Byte>, pattern: seq<Byte>) {
    pattern <= s
  }

  predicate NeedsSanitizing(s: seq<Byte>) {
    || |s| > MAX_LENGTH
    || !NoControls(s)
    || HasScheme(s)
    || Contains(s, Ascii("dial ")) || Contains(s, Ascii("lookup ")) || Contains(s, Ascii("connect: "))
    || Contains(s, Ascii(" tcp "))
  }

  // Every stage; `dial` stands for the rewriting of dial addresses.
  function SlowPath(s: seq<Byte>, dial: seq<Byte> -> seq<Byte>): seq<Byte> {
    Bounded(Cleaned(dial(Strip(Redact(s)))))
  }

  function Sanitized(s: seq<Byte>, dial: seq<Byte> -> seq<Byte>): seq<Byte> {
    if NeedsSanitizing(s) then SlowPath(s, dial) else s
  }

  method Sanitize(s: seq<Byte>, dial: seq<Byte> -> seq<Byte>) returns (out: seq<Byte>)
    ensures out == Sanitized(s, dial)
  {
    hide Redact, Strip, Cleaned, NeedsSanitizing, Bounded;
    if !NeedsSanitizing(s) {
      return s;
    }
    var redacted := RedactUserinfo(s);
    var stripped := StripQuotedURLs(redacted);
    var cleaned := CleanControls(dial(stripped));
    return Bounded(cleaned);
  }

  lemma CleanedRunes(value: seq<Byte>)
    ensures Decode(Cleaned(value)) == Calm(Decode(WithoutANSI(value)))
    ensures NoControls(Cleaned(value))
  {
    var runes := Calm(Decode(WithoutANSI(value)));
    DecodeEncode(runes);
    CalmHasNoControls(Decode(WithoutANSI(value)));
    EncodeControls(runes);
  }

  // On every string, on both paths and whatever the dial rewriting does: at
  // most 513 characters, and no terminal control.
  lemma SanitizedSafe(s: seq<Byte>, dial: seq<Byte> -> seq<Byte>)
    ensures |Decode(Sanitized(s, dial))| <= MAX_LENGTH + 1
    ensures NoControls(Sanitized(s, dial))
  {
    hide Decode, EncodeAll, Encode, Cleaned, Redact, Strip, Calm;
    if NeedsSanitizing(s) {
      var v := Cleaned(dial(Strip(Redact(s))));
      CleanedRunes(dial(Strip(Redact(s))));
      if |Decode(v)| > MAX_LENGTH {
        CalmHasNoControls(Decode(WithoutANSI(dial(Strip(Redact(s))))));
        CutSafe(Decode(v));
      }
    } else {
      DecodeShort(s);
    }
  }

  lemma DecodeShort(s: seq<Byte>)
    ensures |Decode(s)| <= |s|
  {
  }

  lemma CutSafe(runes: seq<Rune>)
    requires |runes| > MAX_LENGTH && forall i | 0 <= i < |runes| :: !Control(runes[i])
    ensures var out := EncodeAll(runes[..MAX_LENGTH]) + Encode(ELLIPSIS);
            |Decode(out)| == MAX_LENGTH + 1 && NoControls(out)
  {
    hide Encode, EncodeAll;
    var cut := runes[..MAX_LENGTH];
    EncodeAppend(cut, ELLIPSIS);
    DecodeEncode(cut + [ELLIPSIS]);
    EncodeControls(cut + [ELLIPSIS]);
  }

  // Well-formed UTF-8.
  predicate WellFormed(s: seq<Byte>) {
    EncodeAll(Decode(s)) == s
  }

  // The shortcut is sound: on well-formed text that the dial rewriting would
  // leave alone, skipping every stage changes nothing.
  lemma FastPathSound(s: seq<Byte>, dial: seq<Byte> -> seq<Byte>)
    requires !NeedsSanitizing(s) && WellFormed(s) && dial(s) == s
    ensures SlowPath(s, dial) == s
  {
    hide Decode, EncodeAll, Redact, Strip, Calm, WithoutANSI, Segments, Encode, Clean, FindScheme;
    NoURLAtAll(s);
    NoURLAnywhere(s);
    StripClean(s);
    ANSIGone(s);
    EncodeControls(Decode(s));
    CalmFixed(Decode(s));
    DecodeShort(s);
  }

  lemma NoURLAtAll(s: seq<Byte>)
    requires !HasScheme(s)
    ensures Redact(s) == s
  {
    NoScheme(s);
  }

  lemma SchemeInPart(s: seq<Byte>, a: nat, b: nat)
    requires a <= b <= |s| && HasScheme(s[a..b])
    ensures HasScheme(s)
  {
    var i := FindScheme(s[a..b]);
    assert SchemeAt(s[a..b], i);
    assert SchemeAt(s, a + i);
  }

  lemma {:induction false} NoURLAnywhere(s: seq<Byte>)
    requires !HasScheme(s)
    ensures NoQuotedURL(s)
    decreases |s|
  {
    hide HasScheme, CloseAt, QuoteAt, Segments;
    QuoteFound(s);
    NothingHasNoScheme();
    if s == [] || QuoteAt(s) == |s| {
      NoTokens(s);
    } else {
      var start := QuoteAt(s);
      var end := start + 1 + CloseAt(s[start + 1..]);
      SegmentStep(s, start, end);
      if end < |s| {
        PartHasNone(s, end + 1, |s|);
        PartHasNone(s, start, end + 1);
        NoURLAnywhere(s[end + 1..]);
      } else {
        PartHasNone(s, start, |s|);
      }
    }
  }

  lemma NothingHasNoScheme()
    ensures !HasScheme([])
  {
  }

  lemma PartHasNone(s: seq<Byte>, a: nat, b: nat)
    requires a <= b <= |s| && !HasScheme(s)
    ensures !HasScheme(s[a..b]) && s[a..|s|] == s[a..]
  {
    if HasScheme(s[a..b]) {
      SchemeInPart(s, a, b);
    }
  }
}
