// What the sanitizer's whole pipeline guarantees of its output: redaction is
// undone by dropped controls, and by nothing else.
module SanitizedText {
  import opened Bytes
  import opened Sanitize

  // No userinfo and no quoted URL.
  predicate Redacted(s: seq<Byte>) {
    Clean(s) && NoQuotedURL(s)
  }

  // What the redacting stages hand on.
  function Staged(s: seq<Byte>): seq<Byte> {
    Strip(Redact(s))
  }

  // ------------------------------------- stripping keeps userinfo redacted

  // Behind a quote nothing matters: a URL token ends there.
  lemma QuoteEnds(x: seq<Byte>, y: seq<Byte>, z: seq<Byte>, k: nat)
    requires y != [] && z != [] && y[0] == QUOTE && z[0] == QUOTE && k < |x|
    ensures CleanAt(x + y, k) ==> CleanAt(x + z, k)
  {
    hide TokenEnd, LastAt;
    if SchemeAt(x + z, k) {
      assert (x + z)[|x|] == QUOTE && (x + y)[|x|] == QUOTE;
      assert k + 3 <= |x| && SchemeAt(x + y, k);
      var t := x[k + 3..];
      assert (x + y)[k + 3..] == t + y && (x + z)[k + 3..] == t + z;
      TokenEndConcat(t, y);
      TokenEndConcat(t, z);
      QuoteStops(y);
      QuoteStops(z);
      TokenEndWithin(t);
      assert (t + y)[..TokenEnd(t)] == t[..TokenEnd(t)] == (t + z)[..TokenEnd(t)];
    }
  }

  lemma QuoteStops(s: seq<Byte>)
    requires s != [] && s[0] == QUOTE
    ensures TokenEnd(s) == 0
  {
  }

  lemma TokenEndWithin(s: seq<Byte>)
    ensures 0 <= TokenEnd(s) <= |s|
  {
  }

  lemma NoSchemeAtQuote(s: seq<Byte>, k: nat)
    requires k < |s| && s[k] == QUOTE
    ensures CleanAt(s, k)
  {
  }

  // The head up to a quote, in front of another clean tail.
  lemma HeadStaysClean(x: seq<Byte>, y: seq<Byte>, z: seq<Byte>)
    requires y != [] && z != [] && y[0] == QUOTE && z[0] == QUOTE
    requires Clean(x + y) && Clean(z)
    ensures Clean(x + z)
  {
    hide CleanAt, TokenEnd, LastAt;
    forall k: nat | k < |x|
      ensures CleanAt(x + z, k)
    {
      CleanThere(x + y, k);
      QuoteEnds(x, y, z, k);
    }
    CleanConcat(x, z);
  }

  lemma QuotedClean(rest: seq<Byte>)
    requires Clean(rest)
    ensures Clean([QUOTE] + rest) && Clean(BLANK + rest)
  {
    var s := [QUOTE] + rest;
    NoSchemeAtQuote(s, 0);
    CleanConcat([QUOTE], rest);
    forall k: nat | k < |BLANK|
      ensures CleanAt(BLANK + rest, k)
    {
    }
    CleanConcat(BLANK, rest);
  }

  lemma {:induction false} StripKeepsClean(v: seq<Byte>)
    requires Clean(v)
    ensures Clean(Strip(v))
    decreases |v|
  {
    hide Strip, QuoteAt, CloseAt, Clean, HasScheme;
    QuoteFound(v);
    if QuoteAt(v) < |v| {
      var start := QuoteAt(v);
      var end := start + 1 + CloseAt(v[start + 1..]);
      StripStep(v, start, end);
      QuoteThere(v);
      NothingClean();
      assert v == v[..start] + v[start..];
      if end == |v| {
        QuotedClean([]);
        assert BLANK + [] == BLANK;
        HeadStaysClean(v[..start], v[start..], BLANK);
      } else {
        var rest := v[end + 1..];
        CleanTail(v, end + 1);
        StripKeepsClean(rest);
        QuotedClean(Strip(rest));
        CloseThere(v[start + 1..]);
        if HasScheme(v[start..end + 1]) {
          HeadStaysClean(v[..start], v[start..], BLANK + Strip(rest));
          assert v[..start] + (BLANK + Strip(rest)) == v[..start] + BLANK + Strip(rest);
        } else {
          assert v == v[..end] + ([QUOTE] + rest);
          HeadStaysClean(v[..end], [QUOTE] + rest, [QUOTE] + Strip(rest));
          assert v[..end] + ([QUOTE] + Strip(rest)) == v[..end + 1] + Strip(rest);
        }
      }
    }
  }

  lemma NothingClean()
    ensures Clean([])
  {
  }

  lemma CloseThere(s: seq<Byte>)
    ensures CloseAt(s) < |s| ==> s[CloseAt(s)] == QUOTE
  {
  }

  // What the redacting stages hand on is redacted, whatever came in.
  lemma StagedRedacted(s: seq<Byte>)
    ensures Redacted(Staged(s))
  {
    hide Clean, NoQuotedURL, Strip, Redact;
    RedactClean(s);
    StripKeepsClean(Redact(s));
    StripClean(Redact(s));
  }

  // --------------------------------------- line breaks and tabs to spaces

  predicate Blank(c: Byte) {
    c == LF || c == CR || c == TAB
  }

  // Every control is a line break or a tab.
  predicate OnlyBlanks(s: seq<Byte>) {
    forall i | 0 <= i < |s| :: Control(s[i]) ==> Blank(s[i])
  }

  function SpaceOne(c: Byte): Byte {
    if Blank(c) then SPACE else c
  }

  function Spaced(s: seq<Byte>): (t: seq<Byte>)
    ensures |t| == |s|
  {
    seq(|s|, i requires 0 <= i < |s| => SpaceOne(s[i]))
  }

  lemma SpacedPart(s: seq<Byte>, a: nat, b: nat)
    requires a <= b <= |s|
    ensures Spaced(s)[a..b] == Spaced(s[a..b])
  {
  }

  lemma SpacedToken(s: seq<Byte>)
    ensures TokenEnd(Spaced(s)) == TokenEnd(s) && Spaced(s)[..TokenEnd(s)] == s[..TokenEnd(s)]
  {
    var n := TokenEnd(s);
    assert forall j | 0 <= j < n :: !Stops(s[j]);
    TokenEndUnique(Spaced(s), n);
  }

  lemma SpacedClean(s: seq<Byte>)
    requires Clean(s)
    ensures Clean(Spaced(s))
  {
    hide TokenEnd, LastAt;
    forall k: nat | k < |s|
      ensures CleanAt(Spaced(s), k)
    {
      assert CleanAt(s, k);
      assert SchemeAt(Spaced(s), k) <==> SchemeAt(s, k);
      if SchemeAt(s, k) {
        SpacedPart(s, k + 3, |s|);
        assert Spaced(s)[k + 3..] == Spaced(s)[k + 3..|s|] && s[k + 3..] == s[k + 3..|s|];
        SpacedToken(s[k + 3..]);
      }
    }
  }

  lemma SpacedScheme(s: seq<Byte>)
    ensures HasScheme(Spaced(s)) <==> HasScheme(s)
  {
    assert forall j: nat | j < |s| :: SchemeAt(Spaced(s), j) <==> SchemeAt(s, j);
  }

  lemma SpacedQuote(s: seq<Byte>)
    ensures QuoteAt(Spaced(s)) == QuoteAt(s)
  {
    if QuoteAt(s) < |s| {
      QuoteUnique(Spaced(s), QuoteAt(s));
    } else {
      NoQuoteIn(s);
      assert forall j | 0 <= j < |s| :: Spaced(s)[j] != QUOTE;
    }
  }

  lemma {:induction false} SpacedClose(s: seq<Byte>)
    ensures CloseAt(Spaced(s)) == CloseAt(s)
    decreases |s|
  {
    if s != [] && s[0] != QUOTE {
      assert Spaced(s)[0] == SpaceOne(s[0]);
      if s[0] == BACKSLASH {
        if |s| > 1 {
          SpacedPart(s, 2, |s|);
          assert Spaced(s)[2..] == Spaced(s)[2..|s|] && s[2..] == s[2..|s|];
          SpacedClose(s[2..]);
        }
      } else {
        SpacedPart(s, 1, |s|);
        assert Spaced(s)[1..] == Spaced(s)[1..|s|] && s[1..] == s[1..|s|];
        SpacedClose(s[1..]);
      }
    }
  }

  // Quoted URLs, one token at a time.
  lemma QuotedStep(s: seq<Byte>, start: nat, end: nat)
    requires start < end <= |s| && start == QuoteAt(s) && end == start + 1 + CloseAt(s[start + 1..])
    ensures end == |s| ==> (NoQuotedURL(s) <==> !HasScheme(s[start..]))
    ensures end < |s| ==> (NoQuotedURL(s) <==> !HasScheme(s[start..end + 1]) && NoQuotedURL(s[end + 1..]))
  {
    hide HasScheme, QuoteAt, CloseAt, Segments;
    SegmentStep(s, start, end);
    if end == |s| {
      TokensFirst(Segment(s[..start], s[start..]), []);
    } else {
      TokensFirst(Segment(s[..start], s[start..end + 1]), Segments(s[end + 1..]));
    }
  }

  lemma TokensFirst(g: Segment, rest: seq<Segment>)
    ensures (forall i | 0 <= i < |[g] + rest| :: !HasScheme(([g] + rest)[i].token))
       <==> !HasScheme(g.token) && forall i | 0 <= i < |rest| :: !HasScheme(rest[i].token)
    ensures [g] + [] == [g]
  {
    hide HasScheme;
    var segments := [g] + rest;
    assert segments[0] == g;
    assert forall i | 0 <= i < |rest| :: segments[i + 1] == rest[i];
    assert forall i | 0 < i < |segments| :: segments[i] == rest[i - 1];
  }

  lemma NoQuoteNoURL(s: seq<Byte>)
    requires QuoteAt(s) == |s|
    ensures NoQuotedURL(s)
  {
    hide QuoteAt, Segments;
    NoTokens(s);
    NothingHasNoScheme();
  }

  lemma {:induction false} SpacedQuoted(s: seq<Byte>)
    requires NoQuotedURL(s)
    ensures NoQuotedURL(Spaced(s))
    decreases |s|
  {
    hide NoQuotedURL, HasScheme, QuoteAt, CloseAt, Spaced;
    QuoteFound(s);
    SpacedQuote(s);
    SameLength(s);
    var t := Spaced(s);
    if QuoteAt(s) == |s| {
      NoQuoteNoURL(t);
    } else {
      var start := QuoteAt(s);
      var end := start + 1 + CloseAt(s[start + 1..]);
      QuotedStep(s, start, end);
      SpacedPart(s, start + 1, |s|);
      assert s[start + 1..] == s[start + 1..|s|] && t[start + 1..] == t[start + 1..|s|];
      SpacedClose(s[start + 1..]);
      QuotedStep(t, start, end);
      if end == |s| {
        SpacedPart(s, start, |s|);
        assert s[start..] == s[start..|s|] && t[start..] == t[start..|s|];
        SpacedScheme(s[start..]);
      } else {
        SpacedPart(s, start, end + 1);
        SpacedScheme(s[start..end + 1]);
        SpacedPart(s, end + 1, |s|);
        assert s[end + 1..] == s[end + 1..|s|] && t[end + 1..] == t[end + 1..|s|];
        SpacedQuoted(s[end + 1..]);
      }
    }
  }

  lemma SameLength(s: seq<Byte>)
    ensures |Spaced(s)| == |s|
  {
  }

  // ------------------------------------------------------------- cutting

  // What the ellipsis is made of: no syntax.
  predicate Inert(e: seq<Byte>) {
    forall i | 0 <= i < |e| :: e[i] >= 0x80
  }

  lemma CutToken(x: seq<Byte>, m: nat, e: seq<Byte>)
    requires m <= |x| && Inert(e)
    ensures var y := x[..m] + e;
            TokenEnd(y) == if TokenEnd(x) < m then TokenEnd(x) else m + |e|
  {
    TokenEndUnique(x[..m] + e, if TokenEnd(x) < m then TokenEnd(x) else m + |e|);
  }

  // A token without '@', or with the mark in front and no '@' behind it.
  predicate Marked(token: seq<Byte>) {
    LastAt(token) == 0 || (LastAt(token) == |REDACTED| && token[..|REDACTED|] == REDACTED)
  }

  // Cut anywhere, such a token stays one.
  lemma CutMarked(token: seq<Byte>, m: nat, e: seq<Byte>)
    requires m <= |token| && Inert(e) && Marked(token)
    ensures Marked(token[..m] + e)
  {
    hide LastAt;
    var cut := token[..m] + e;
    MarkLength();
    if LastAt(token) == 0 || m < |REDACTED| {
      MarkHasOneAt(token, m);
      assert forall j | m <= j < |cut| :: cut[j] == e[j - m];
      LastAtUnique(cut, 0);
    } else {
      CutBehindMark(token, m, e);
    }
  }

  lemma CutBehindMark(token: seq<Byte>, m: nat, e: seq<Byte>)
    requires |REDACTED| <= m <= |token| && Inert(e) && Marked(token) && LastAt(token) != 0
    ensures Marked(token[..m] + e)
  {
    hide LastAt;
    var cut := token[..m] + e;
    MarkLength();
    NoAtBehind(token);
    assert cut[..|REDACTED|] == token[..|REDACTED|];
    assert cut[|REDACTED| - 1] == token[|REDACTED| - 1] == token[..|REDACTED|][|REDACTED| - 1];
    assert forall j | |REDACTED| <= j < m :: cut[j] == token[j];
    assert forall j | m <= j < |cut| :: cut[j] == e[j - m];
    LastAtUnique(cut, |REDACTED|);
  }

  lemma NoAtBehind(token: seq<Byte>)
    ensures LastAt(token) <= |token|
    ensures forall j | LastAt(token) <= j < |token| :: token[j] != AT
  {
  }

  lemma MarkLength()
    ensures |REDACTED| == 11 && REDACTED[10] == AT && forall j | 0 <= j < 10 :: REDACTED[j] != AT
  {
    Mark();
  }

  lemma MarkHasOneAt(token: seq<Byte>, m: nat)
    requires m <= |token| && Marked(token) && (LastAt(token) == 0 || m < |REDACTED|)
    ensures forall j | 0 <= j < m :: token[j] != AT
  {
    hide LastAt;
    MarkLength();
    NoAtBehind(token);
    if LastAt(token) != 0 {
      assert forall j | 0 <= j < m :: token[j] == token[..|REDACTED|][j] == REDACTED[j];
    }
  }

  lemma CutClean(v: seq<Byte>, n: nat, e: seq<Byte>)
    requires Clean(v) && n <= |v| && Inert(e)
    ensures Clean(v[..n] + e)
  {
    hide TokenEnd, LastAt;
    var w := v[..n] + e;
    forall k: nat | k < |w|
      ensures CleanAt(w, k)
    {
      if SchemeAt(w, k) {
        CutCleanAt(v, n, e, k);
      }
    }
  }

  lemma CutCleanAt(v: seq<Byte>, n: nat, e: seq<Byte>, k: nat)
    requires Clean(v) && n <= |v| && Inert(e) && SchemeAt(v[..n] + e, k)
    ensures CleanAt(v[..n] + e, k)
  {
    hide TokenEnd, LastAt, Clean;
    var w := v[..n] + e;
    InertTail(v[..n], e, k);
    assert SchemeAt(v, k);
    CleanThere(v, k);
    var x, m := v[k + 3..], n - k - 3;
    TokenEndWithin(x);
    assert w[k + 3..] == x[..m] + e;
    CutToken(x, m, e);
    var t := TokenEnd(x);
    if t < m {
      assert (x[..m] + e)[..t] == x[..t];
    } else {
      CutMarked(x[..t], m, e);
      assert x[..t][..m] == x[..m];
      assert (x[..m] + e)[..m + |e|] == x[..m] + e;
    }
  }

  lemma InertTail(a: seq<Byte>, e: seq<Byte>, k: nat)
    requires Inert(e) && SchemeAt(a + e, k)
    ensures k + 3 <= |a| && SchemeAt(a, k)
  {
    var w := a + e;
    assert forall j | |a| <= j < |w| :: w[j] == e[j - |a|];
  }

  lemma CutScheme(s: seq<Byte>, m: nat, e: seq<Byte>)
    requires m <= |s| && Inert(e) && !HasScheme(s)
    ensures !HasScheme(s[..m] + e)
  {
    var w := s[..m] + e;
    if SchemeAt(w, FindScheme(w)) {
      InertTail(s[..m], e, FindScheme(w));
      SchemeInHead(s, m, FindScheme(w));
    }
  }

  lemma SchemeInHead(s: seq<Byte>, m: nat, i: nat)
    requires m <= |s| && SchemeAt(s[..m], i)
    ensures SchemeAt(s, i)
  {
  }

  lemma {:induction false} CutClose(s: seq<Byte>, m: nat, e: seq<Byte>)
    requires m <= |s| && Inert(e)
    ensures CloseAt(s[..m] + e) == if CloseAt(s) < m then CloseAt(s) else m + |e|
    decreases m
  {
    hide CloseAt;
    var w := s[..m] + e;
    if m == 0 {
      assert w == e;
      CloseWithin(s);
      InertOpen(e);
    } else {
      CloseStep(s);
      CloseStep(w);
      if s[0] == BACKSLASH {
        if m == 1 {
          assert w == [BACKSLASH] + e;
          CloseEscaped(s);
          EscapeOpen(e);
        } else {
          assert w[2..] == s[2..][..m - 2] + e;
          CutClose(s[2..], m - 2, e);
        }
      } else if s[0] != QUOTE {
        assert w[1..] == s[1..][..m - 1] + e;
        CutClose(s[1..], m - 1, e);
      }
    }
  }

  lemma CloseStep(s: seq<Byte>)
    requires s != []
    ensures CloseAt(s) == if s[0] == QUOTE then 0
                          else if s[0] != BACKSLASH then 1 + CloseAt(s[1..])
                          else if |s| == 1 then 1
                          else 2 + CloseAt(s[2..])
  {
  }

  lemma CloseEscaped(s: seq<Byte>)
    requires s != [] && s[0] == BACKSLASH
    ensures CloseAt(s) >= 1
  {
  }

  lemma EscapeOpen(e: seq<Byte>)
    requires Inert(e)
    ensures CloseAt([BACKSLASH] + e) == 1 + |e|
  {
    var w := [BACKSLASH] + e;
    if e != [] {
      InertOpen(e[1..]);
      assert w[2..] == e[1..];
    }
  }

  lemma {:induction false} InertOpen(e: seq<Byte>)
    requires Inert(e)
    ensures CloseAt(e) == |e| && QuoteAt(e) == |e|
  {
    if e != [] {
      InertOpen(e[1..]);
    }
  }

  lemma {:induction false} CutQuoted(s: seq<Byte>, n: nat, e: seq<Byte>)
    requires NoQuotedURL(s) && n <= |s| && Inert(e)
    ensures NoQuotedURL(s[..n] + e)
    decreases |s|
  {
    hide NoQuotedURL, HasScheme, QuoteAt, CloseAt, Strip;
    QuoteFound(s);
    var w, start := s[..n] + e, QuoteAt(s);
    if n <= start {
      CutBeforeQuote(s, n, e);
      NoQuoteNoURL(w);
    } else {
      var end := start + 1 + CloseAt(s[start + 1..]);
      var m := n - start - 1;
      QuotedStep(s, start, end);
      CutAtQuote(s, n, e);
      assert w[start + 1..] == s[start + 1..][..m] + e;
      CutClose(s[start + 1..], m, e);
      if end < n {
        QuotedStep(w, start, end);
        assert w[start..end + 1] == s[start..end + 1];
        assert w[end + 1..] == s[end + 1..][..n - end - 1] + e;
        CutQuoted(s[end + 1..], n - end - 1, e);
      } else {
        QuotedStep(w, start, |w|);
        var token := if end == |s| then s[start..] else s[start..end + 1];
        CutScheme(token, n - start, e);
        assert w[start..] == token[..n - start] + e;
      }
    }
  }

  lemma CutBeforeQuote(s: seq<Byte>, n: nat, e: seq<Byte>)
    requires n <= QuoteAt(s) && n <= |s| && Inert(e)
    ensures QuoteAt(s[..n] + e) == n + |e|
  {
    var w := s[..n] + e;
    assert forall j | 0 <= j < |w| :: w[j] != QUOTE;
  }

  lemma CutAtQuote(s: seq<Byte>, n: nat, e: seq<Byte>)
    requires QuoteAt(s) < n <= |s|
    ensures QuoteAt(s[..n] + e) == QuoteAt(s)
  {
    QuoteUnique(s[..n] + e, QuoteAt(s));
  }

  lemma EllipsisInert()
    ensures Inert(Encode(ELLIPSIS))
  {
  }

  lemma {:induction false} EncodePrefix(runes: seq<Rune>, k: nat)
    requires k <= |runes|
    ensures EncodeAll(runes[..k]) <= EncodeAll(runes)
  {
    hide Encode, EncodeAll;
    if k == |runes| {
      assert runes[..k] == runes;
    } else {
      var front := runes[..|runes| - 1];
      EncodePrefix(front, k);
      assert front[..k] == runes[..k];
      EncodeLast(runes);
    }
  }

  lemma BoundedKeeps(runes: seq<Rune>)
    requires Redacted(EncodeAll(runes))
    ensures Redacted(Bounded(EncodeAll(runes)))
  {
    hide Encode, EncodeAll, Decode, Clean, NoQuotedURL;
    var v := EncodeAll(runes);
    DecodeEncode(runes);
    if |runes| > MAX_LENGTH {
      EncodePrefix(runes, MAX_LENGTH);
      EllipsisInert();
      var n := |EncodeAll(runes[..MAX_LENGTH])|;
      assert v[..n] == EncodeAll(runes[..MAX_LENGTH]);
      CutClean(v, n, Encode(ELLIPSIS));
      CutQuoted(v, n, Encode(ELLIPSIS));
    }
  }

  // --------------------------------------------------------- malformed UTF-8

  // Another stretch of bytes outside ASCII in the same place changes nothing.
  lemma SwapMarked(x: seq<Byte>, e: seq<Byte>, f: seq<Byte>, t: seq<Byte>)
    requires Inert(e) && Inert(f) && e != [] && Marked(x + e + t)
    ensures Marked(x + f + t)
  {
    hide LastAt;
    var v, w := x + e + t, x + f + t;
    MarkLength();
    NoAtBehind(v);
    assert forall j | 0 <= j < |x| :: w[j] == v[j];
    assert forall j | |x| <= j < |x| + |f| :: w[j] == f[j - |x|];
    assert forall j | |x| + |f| <= j < |w| :: w[j] == t[j - |x| - |f|] == v[j - |f| + |e|];
    if LastAt(v) == 0 {
      LastAtUnique(w, 0);
    } else {
      MarkInFront(x, e, t);
      assert w[..|REDACTED|] == x[..|REDACTED|];
      LastAtUnique(w, |REDACTED|);
    }
  }

  lemma MarkInFront(x: seq<Byte>, e: seq<Byte>, t: seq<Byte>)
    requires Inert(e) && e != [] && |REDACTED| <= |x + e + t| && (x + e + t)[..|REDACTED|] == REDACTED
    ensures |REDACTED| <= |x| && x[..|REDACTED|] == REDACTED && x[|REDACTED| - 1] == AT
  {
    Mark();
    var w := x + e + t;
    assert forall j | 0 <= j < |REDACTED| :: w[j] == w[..|REDACTED|][j];
    assert w[|x|] == e[0] >= 0x80;
    assert |REDACTED| <= |x| ==> w[..|REDACTED|] == x[..|REDACTED|];
  }

  lemma InertToken(x: seq<Byte>, e: seq<Byte>, c: seq<Byte>)
    requires Inert(e)
    ensures TokenEnd(x + e + c) == if TokenEnd(x) < |x| then TokenEnd(x) else |x| + |e| + TokenEnd(c)
  {
    hide TokenEnd;
    TokenEndUnique(e, |e|);
    TokenEndConcat(e, c);
    TokenEndConcat(x, e + c);
    assert x + e + c == x + (e + c);
    TokenEndWithin(x);
  }

  lemma SwapCleanAt(a: seq<Byte>, e: seq<Byte>, f: seq<Byte>, c: seq<Byte>, k: nat)
    requires Inert(e) && Inert(f) && e != [] && k < |a| && CleanAt(a + e + c, k)
    requires SchemeAt(a + f + c, k) ==> k + 3 <= |a|
    ensures CleanAt(a + f + c, k)
  {
    hide TokenEnd, LastAt;
    var v, w := a + e + c, a + f + c;
    if SchemeAt(w, k) {
      assert SchemeAt(v, k);
      var x := a[k + 3..];
      assert v[k + 3..] == x + e + c && w[k + 3..] == x + f + c;
      InertToken(x, e, c);
      InertToken(x, f, c);
      TokenEndWithin(x);
      TokenEndWithin(c);
      var t := TokenEnd(x);
      if t < |x| {
        assert (x + e + c)[..t] == x[..t] == (x + f + c)[..t];
      } else {
        assert (x + e + c)[..|x| + |e| + TokenEnd(c)] == x + e + c[..TokenEnd(c)];
        assert (x + f + c)[..|x| + |f| + TokenEnd(c)] == x + f + c[..TokenEnd(c)];
        SwapMarked(x, e, f, c[..TokenEnd(c)]);
      }
    }
  }

  lemma NotAcross(a: seq<Byte>, f: seq<Byte>, c: seq<Byte>, k: nat)
    requires Inert(f) && f != [] && SchemeAt(a + f + c, k)
    ensures (k + 3 <= |a| && SchemeAt(a, k)) || (|a| + |f| <= k && SchemeAt(c, k - |a| - |f|))
  {
    var w := a + f + c;
    assert forall j | |a| <= j < |a| + |f| :: w[j] == f[j - |a|];
  }

  lemma SwapClean(a: seq<Byte>, e: seq<Byte>, f: seq<Byte>, c: seq<Byte>)
    requires Inert(e) && Inert(f) && e != [] && f != [] && Clean(a + e + c)
    ensures Clean(a + f + c)
  {
    hide Clean, CleanAt;
    var w := a + f + c;
    CleanTail(a + e + c, |a + e|);
    assert (a + e + c)[|a + e|..] == c;
    forall k: nat | k < |a + f|
      ensures CleanAt(a + f + c, k)
    {
      if SchemeAt(w, k) {
        NotAcross(a, f, c, k);
        CleanThere(a + e + c, k);
        SwapCleanAt(a, e, f, c, k);
      } else {
        NotThere(w, k);
      }
    }
    CleanConcat(a + f, c);
  }

  lemma NotThere(w: seq<Byte>, k: nat)
    requires !SchemeAt(w, k)
    ensures CleanAt(w, k)
  {
  }

  function Opened(x: seq<Byte>): seq<Byte> {
    [QUOTE] + x
  }

  lemma OpenedAt(bare: seq<Byte>, y: seq<Byte>)
    requires QuoteAt(bare) == |bare|
    ensures var w := bare + Opened(y);
            && QuoteAt(w) == |bare| < |w|
            && w[|bare| + 1..] == y
            && w[|bare|..] == Opened(y)
  {
    hide QuoteAt;
    NoQuoteIn(bare);
    QuoteUnique(bare + Opened(y), |bare|);
  }

  lemma NeverClosed(w: seq<Byte>, start: nat, inner: seq<Byte>)
    requires start == QuoteAt(w) < |w| && inner == w[start + 1..] && CloseAt(inner) == |inner|
    ensures NoQuotedURL(w) <==> !HasScheme(w[start..])
  {
    hide NoQuotedURL, HasScheme, QuoteAt, CloseAt, Strip;
    QuotedStep(w, start, |w|);
  }

  lemma TokenFirst(bare: seq<Byte>, token: seq<Byte>, rest: seq<Byte>)
    requires QuoteAt(bare) == |bare| && Terminated(token)
    ensures NoQuotedURL(bare + token + rest) <==> !HasScheme(token) && NoQuotedURL(rest)
  {
    hide HasScheme, QuoteAt, Segments, Terminated;
    CutApart(bare, token, rest);
    TokensFirst(Segment(bare, token), Segments(rest));
  }

  // Of what follows an opening quote: its token has no URL, and no later one.
  predicate QuotedWell(y: seq<Byte>) {
    var q := CloseAt(y);
    if q == |y| then !HasScheme(Opened(y)) else !HasScheme(Opened(y[..q + 1])) && NoQuotedURL(y[q + 1..])
  }

  lemma OpenedExact(bare: seq<Byte>, y: seq<Byte>)
    requires QuoteAt(bare) == |bare|
    ensures NoQuotedURL(bare + Opened(y)) <==> QuotedWell(y)
  {
    hide NoQuotedURL, HasScheme, QuoteAt, CloseAt, Terminated, Opened;
    CloseWithin(y);
    var q := CloseAt(y);
    if q == |y| {
      OpenedAt(bare, y);
      NeverClosed(bare + Opened(y), |bare|, y);
    } else {
      ClosePrefix(y, q);
      OpenTerminated(y[..q + 1]);
      TokenFirst(bare, Opened(y[..q + 1]), y[q + 1..]);
      OpenedRest(bare, y, q + 1);
    }
  }

  lemma OpenTerminated(t: seq<Byte>)
    requires t != [] && CloseAt(t) == |t| - 1
    ensures Terminated(Opened(t))
  {
    hide CloseAt;
    assert Opened(t)[1..] == t;
  }

  lemma OpenedRest(bare: seq<Byte>, y: seq<Byte>, n: nat)
    requires n <= |y|
    ensures bare + Opened(y[..n]) + y[n..] == bare + Opened(y)
  {
  }

  // Text without a quote in front of a string adds no quoted URL.
  lemma QuotedBehind(b: seq<Byte>, c: seq<Byte>)
    requires QuoteAt(b) == |b|
    ensures NoQuotedURL(b + c) <==> NoQuotedURL(c)
  {
    hide NoQuotedURL, QuoteAt, QuotedWell, Opened;
    QuoteBehind(b, c);
    if QuoteAt(c) == |c| {
      NoQuoteNoURL(c);
      NoQuoteNoURL(b + c);
    } else {
      QuoteWithin(c);
      var bare, y := c[..QuoteAt(c)], c[QuoteAt(c) + 1..];
      AroundQuote(c);
      QuoteBehind(b, bare);
      OpenedExact(bare, y);
      OpenedExact(b + bare, y);
      assert b + (bare + Opened(y)) == b + bare + Opened(y);
    }
  }

  // A string around its first quote.
  lemma AroundQuote(a: seq<Byte>)
    requires QuoteAt(a) < |a|
    ensures var start := QuoteAt(a); a == a[..start] + Opened(a[start + 1..]) && QuoteAt(a[..start]) == start
  {
    hide QuoteAt, Opened;
    QuoteWithin(a);
    QuoteThere(a);
    SplitAtQuote(a, QuoteAt(a));
  }

  lemma SplitAtQuote(a: seq<Byte>, i: nat)
    requires i < |a| && a[i] == QUOTE
    ensures a == a[..i] + Opened(a[i + 1..])
  {
  }

  lemma QuoteWithin(s: seq<Byte>)
    ensures 0 <= QuoteAt(s) <= |s| && (QuoteAt(s) < |s| ==> s[QuoteAt(s)] == QUOTE)
  {
  }

  lemma QuoteBehind(b: seq<Byte>, c: seq<Byte>)
    requires QuoteAt(b) == |b|
    ensures QuoteAt(b + c) == |b| + QuoteAt(c)
  {
    NoQuoteIn(b);
    if QuoteAt(c) < |c| {
      QuoteUnique(b + c, |b| + QuoteAt(c));
    } else {
      NoQuoteIn(c);
      assert forall j | 0 <= j < |b + c| :: (b + c)[j] != QUOTE;
    }
  }

  lemma SchemeAround(p: seq<Byte>, e: seq<Byte>, t: seq<Byte>)
    requires Inert(e) && e != []
    ensures HasScheme(p + e + t) <==> HasScheme(p) || HasScheme(t)
  {
    hide FindScheme;
    var w := p + e + t;
    AnyScheme(w);
    AnyScheme(p);
    AnyScheme(t);
    forall k: nat | SchemeAt(w, k)
      ensures (exists i: nat :: SchemeAt(p, i)) || (exists i: nat :: SchemeAt(t, i))
    {
      NotAcross(p, e, t, k);
    }
    forall k: nat | SchemeAt(p, k)
      ensures SchemeAt(w, k)
    {
    }
    forall k: nat | SchemeAt(t, k)
      ensures SchemeAt(w, |p + e| + k)
    {
    }
  }

  lemma AnyScheme(s: seq<Byte>)
    ensures HasScheme(s) <==> exists i: nat :: SchemeAt(s, i)
  {
    assert forall i: nat | SchemeAt(s, i) :: i < |s|;
  }

  lemma {:induction false} CloseThrough(x: seq<Byte>, e: seq<Byte>, c: seq<Byte>)
    requires CloseAt(x) == |x| && Inert(e) && (e == [] ==> x == [])
    ensures CloseAt(x + e + c) == |x| + |e| + CloseAt(c)
    decreases |x| + |e|
  {
    hide CloseAt;
    var w := x + e + c;
    if x == [] && e == [] {
      assert w == c;
    } else {
      CloseStep(w);
      if x == [] {
        NothingCloses();
        assert w[1..] == [] + e[1..] + c;
        CloseThrough([], e[1..], c);
      } else {
        CloseStep(x);
        if x[0] != BACKSLASH {
          assert w[1..] == x[1..] + e + c;
          CloseThrough(x[1..], e, c);
        } else if |x| == 1 {
          NothingCloses();
          assert w[2..] == [] + e[1..] + c;
          CloseThrough([], e[1..], c);
        } else {
          assert w[2..] == x[2..] + e + c;
          CloseThrough(x[2..], e, c);
        }
      }
    }
  }

  lemma NothingCloses()
    ensures CloseAt([]) == 0
  {
  }

  lemma {:induction false} SwapQuoted(a: seq<Byte>, e: seq<Byte>, f: seq<Byte>, c: seq<Byte>)
    requires Inert(e) && Inert(f) && e != [] && f != [] && NoQuotedURL(a + e + c)
    ensures NoQuotedURL(a + f + c)
    decreases |a|
  {
    hide NoQuotedURL, HasScheme, QuoteAt, CloseAt, Opened, QuotedWell, ClosedBehind;
    QuoteWithin(a);
    if QuoteAt(a) == |a| {
      InertOpen(e);
      InertOpen(f);
      QuoteBehind(a, e);
      QuoteBehind(a, f);
      QuotedBehind(a + e, c);
      QuotedBehind(a + f, c);
    } else {
      var bare, x := a[..QuoteAt(a)], a[QuoteAt(a) + 1..];
      AroundQuote(a);
      OpenedBetween(bare, x, e, c);
      OpenedBetween(bare, x, f, c);
      OpenedExact(bare, x + e + c);
      OpenedExact(bare, x + f + c);
      CloseWithin(x);
      if CloseAt(x) < |x| {
        ClosedEarly(x, e, c);
        SwapQuoted(x[CloseAt(x) + 1..], e, f, c);
        ClosedEarly(x, f, c);
      } else {
        ClosedLate(x, e, c);
        ClosedLate(x, f, c);
      }
    }
  }

  lemma OpenedBetween(bare: seq<Byte>, x: seq<Byte>, e: seq<Byte>, c: seq<Byte>)
    ensures bare + Opened(x) + e + c == bare + Opened(x + e + c)
  {
  }

  // The token closes before its inert part.
  lemma ClosedEarly(x: seq<Byte>, e: seq<Byte>, c: seq<Byte>)
    requires CloseAt(x) < |x|
    ensures var n := CloseAt(x) + 1;
            QuotedWell(x + e + c) <==> !HasScheme(Opened(x[..n])) && NoQuotedURL(x[n..] + e + c)
  {
    hide NoQuotedURL, HasScheme, CloseAt, Opened, QuotedWell;
    CloseWithin(x);
    CloseConcat(x, e + c);
    PartsBetween(x, e, c, CloseAt(x) + 1);
    WellClosed(x + e + c, CloseAt(x), x[..CloseAt(x) + 1], x[CloseAt(x) + 1..] + e + c);
  }

  lemma WellClosed(y: seq<Byte>, q: nat, t: seq<Byte>, rest: seq<Byte>)
    requires q == CloseAt(y) < |y| && t == y[..q + 1] && rest == y[q + 1..]
    ensures QuotedWell(y) <==> !HasScheme(Opened(t)) && NoQuotedURL(rest)
  {
    hide NoQuotedURL, HasScheme, CloseAt, Opened;
  }

  lemma PartsBetween(x: seq<Byte>, e: seq<Byte>, c: seq<Byte>, n: nat)
    requires n <= |x|
    ensures var w := x + e + c; w == x + (e + c) && w[..n] == x[..n] && w[n..] == x[n..] + e + c
  {
  }

  // The token reaches beyond its inert part.
  lemma ClosedLate(x: seq<Byte>, e: seq<Byte>, c: seq<Byte>)
    requires CloseAt(x) == |x| && Inert(e) && e != []
    ensures QuotedWell(x + e + c) <==> !HasScheme(Opened(x)) && ClosedBehind(c)
  {
    hide NoQuotedURL, HasScheme, CloseAt, Opened;
    CloseWithin(c);
    CloseThrough(x, e, c);
    var q := CloseAt(c);
    if q == |c| {
      OpenedParts(x, e, c);
      SchemeAround(Opened(x), e, c);
    } else {
      OpenedParts(x, e, c[..q + 1]);
      SchemeAround(Opened(x), e, c[..q + 1]);
      PartsBehind(x, e, c, q + 1);
    }
  }

  // Of what follows the inert part.
  predicate ClosedBehind(c: seq<Byte>) {
    var q := CloseAt(c);
    if q == |c| then !HasScheme(c) else !HasScheme(c[..q + 1]) && NoQuotedURL(c[q + 1..])
  }

  lemma OpenedParts(x: seq<Byte>, e: seq<Byte>, t: seq<Byte>)
    ensures Opened(x + e + t) == Opened(x) + e + t
  {
  }

  lemma PartsBehind(x: seq<Byte>, e: seq<Byte>, c: seq<Byte>, n: nat)
    requires n <= |c|
    ensures var w, m := x + e + c, |x| + |e| + n; w[..m] == x + e + c[..n] && w[m..] == c[n..]
  {
  }

  lemma InertRune(s: seq<Byte>)
    requires s != [] && s[0] >= 0x80
    ensures var (r, size) := DecodeOne(s);
            1 <= size <= |s| && Inert(s[..size]) && Inert(Encode(r)) && Encode(r) != []
  {
    hide Two, Three, Four;
  }

  lemma AsciiRune(s: seq<Byte>)
    requires s != [] && s[0] < 0x80
    ensures DecodeOne(s) == (s[0], 1) && Encode(DecodeOne(s).0) == s[..1]
  {
  }

  lemma OnlyBlanksSwap(a: seq<Byte>, e: seq<Byte>, f: seq<Byte>, c: seq<Byte>)
    requires Inert(f) && OnlyBlanks(a + e + c)
    ensures OnlyBlanks(a + f + c)
  {
    var v, w := a + e + c, a + f + c;
    assert forall j | 0 <= j < |a| :: w[j] == v[j];
    assert forall j | |a| <= j < |a| + |f| :: w[j] == f[j - |a|];
    assert forall j | |a| + |f| <= j < |w| :: w[j] == c[j - |a| - |f|] == v[j - |f| + |e|];
  }

  // Decoding and encoding again, malformed bytes and all.
  lemma {:induction false} RepairKeeps(read: seq<Rune>, rest: seq<Byte>)
    requires var v := EncodeAll(read) + rest; Redacted(v) && OnlyBlanks(v)
    ensures var w := EncodeAll(read + Decode(rest)); Redacted(w) && OnlyBlanks(w)
    decreases |rest|
  {
    hide EncodeAll, Encode, Decode, DecodeOne, Clean, NoQuotedURL, OnlyBlanks;
    var done := EncodeAll(read);
    if rest == [] {
      NothingCalm();
      assert done + rest == done;
      assert read + Decode(rest) == read;
    } else {
      DecodeFirst(rest);
      var (r, size) := DecodeOne(rest);
      EncodeAppend(read, r);
      assert done + rest == done + rest[..size] + rest[size..];
      if rest[0] < 0x80 {
        AsciiRune(rest);
      } else {
        InertRune(rest);
        SwapClean(done, rest[..size], Encode(r), rest[size..]);
        SwapQuoted(done, rest[..size], Encode(r), rest[size..]);
        OnlyBlanksSwap(done, rest[..size], Encode(r), rest[size..]);
      }
      RepairKeeps(read + [r], rest[size..]);
      assert read + [r] + Decode(rest[size..]) == read + Decode(rest);
    }
  }

  lemma SpacedConcat(a: seq<Byte>, b: seq<Byte>)
    ensures Spaced(a + b) == Spaced(a) + Spaced(b)
    ensures OnlyBlanks(a + b) ==> OnlyBlanks(a) && OnlyBlanks(b)
  {
    assert forall i | 0 <= i < |a| :: (a + b)[i] == a[i];
    assert forall i | 0 <= i < |b| :: (a + b)[|a| + i] == b[i];
  }

  lemma SpacedRune(r: Rune)
    requires OnlyBlanks(Encode(r))
    ensures Spaced(Encode(r)) == Written(r)
  {
    if r < 0x80 {
      assert Encode(r)[0] == r;
    }
  }

  // With no control but blanks, calming is spacing.
  lemma {:induction false} SpacedRunes(runes: seq<Rune>)
    requires OnlyBlanks(EncodeAll(runes))
    ensures EncodeAll(Calm(runes)) == Spaced(EncodeAll(runes))
  {
    hide Encode, EncodeAll, Calm, Spaced, OnlyBlanks;
    if runes == [] {
      NothingCalm();
      EncodeNothing();
      SameLength([]);
    } else {
      var front, last := runes[..|runes| - 1], runes[|runes| - 1];
      EncodeLast(runes);
      SpacedConcat(EncodeAll(front), Encode(last));
      SpacedRunes(front);
      SpacedRune(last);
      WrittenNext(front, last);
      assert runes == front + [last];
    }
  }

  // ---------------------------------------------------------- the pipeline

  lemma NoEscapeIn(v: seq<Byte>)
    requires OnlyBlanks(v)
    ensures WithoutANSI(v) == v
  {
    ANSIGone(v);
  }

  lemma CleanedRedacted(v: seq<Byte>)
    requires Redacted(v) && OnlyBlanks(v)
    ensures Redacted(Bounded(Cleaned(v)))
  {
    hide EncodeAll, Encode, Decode, Clean, NoQuotedURL, OnlyBlanks, Calm, Spaced, Bounded, WithoutANSI;
    NoEscapeIn(v);
    EncodeNothing();
    assert EncodeAll([]) + v == v && [] + Decode(v) == Decode(v);
    RepairKeeps([], v);
    var w := EncodeAll(Decode(v));
    SpacedRunes(Decode(v));
    SpacedClean(w);
    SpacedQuoted(w);
    BoundedKeeps(Calm(Decode(v)));
  }

  predicate ControlsIn(s: seq<Byte>, allowed: set<Byte>) {
    forall i | 0 <= i < |s| :: Control(s[i]) ==> s[i] in allowed
  }

  lemma ControlsParts(a: seq<Byte>, b: seq<Byte>, allowed: set<Byte>)
    ensures ControlsIn(a + b, allowed) <==> ControlsIn(a, allowed) && ControlsIn(b, allowed)
  {
    assert forall i | 0 <= i < |a| :: (a + b)[i] == a[i];
    assert forall i | 0 <= i < |b| :: (a + b)[|a| + i] == b[i];
  }

  lemma MarksHaveNone(allowed: set<Byte>)
    ensures ControlsIn(REDACTED, allowed) && ControlsIn(BLANK, allowed)
  {
    Mark();
  }

  // Redacting and stripping bring no control in.
  lemma {:induction false} RedactControls(s: seq<Byte>, allowed: set<Byte>)
    requires ControlsIn(s, allowed)
    ensures ControlsIn(Redact(s), allowed)
    decreases |s|
  {
    hide Redact, FindScheme, TokenEnd, LastAt, ControlsIn;
    SchemeFound(s);
    var start := FindScheme(s) + 3;
    if start - 3 == |s| {
      NoScheme(s);
    } else {
      TokenFound(s, start);
      MarksHaveNone(allowed);
      var end := start + TokenEnd(s[start..]);
      var at := LastAt(s[start..end]);
      if at == 0 {
        PassOverHere(s, start, end);
        assert s == s[..end] + s[end..];
        ControlsParts(s[..end], s[end..], allowed);
        RedactControls(s[end..], allowed);
        ControlsParts(s[..end], Redact(s[end..]), allowed);
      } else {
        RewrittenHere(s, start, end, at);
        assert s == s[..start] + s[start..start + at] + s[start + at..];
        ControlsParts(s[..start] + s[start..start + at], s[start + at..], allowed);
        ControlsParts(s[..start], s[start..start + at], allowed);
        RedactControls(s[start + at..], allowed);
        ControlsParts(s[..start], REDACTED, allowed);
        ControlsParts(s[..start] + REDACTED, Redact(s[start + at..]), allowed);
      }
    }
  }

  lemma {:induction false} StripControls(s: seq<Byte>, allowed: set<Byte>)
    requires ControlsIn(s, allowed)
    ensures ControlsIn(Strip(s), allowed)
    decreases |s|
  {
    hide Strip, QuoteAt, CloseAt, HasScheme, ControlsIn;
    QuoteFound(s);
    if QuoteAt(s) < |s| {
      var start := QuoteAt(s);
      var end := start + 1 + CloseAt(s[start + 1..]);
      StripStep(s, start, end);
      MarksHaveNone(allowed);
      assert s == s[..start] + s[start..];
      ControlsParts(s[..start], s[start..], allowed);
      ControlsParts(s[..start], BLANK, allowed);
      if end < |s| {
        assert s == s[..end + 1] + s[end + 1..];
        ControlsParts(s[..end + 1], s[end + 1..], allowed);
        StripControls(s[end + 1..], allowed);
        ControlsParts(s[..start] + BLANK, Strip(s[end + 1..]), allowed);
        ControlsParts(s[..end + 1], Strip(s[end + 1..]), allowed);
      }
    }
  }

  // With no control but line breaks and tabs, nothing is undone: what the dial
  // rewriting hands on redacted comes out redacted, well-formed or not, cut or
  // not, on both paths.
  lemma OutputRedacted(s: seq<Byte>, dial: seq<Byte> -> seq<Byte>)
    requires var v := dial(Staged(s)); Redacted(v) && OnlyBlanks(v)
    ensures Redacted(Sanitized(s, dial))
  {
    hide Clean, NoQuotedURL, OnlyBlanks, Strip, Redact, Cleaned, Bounded, FindScheme;
    if NeedsSanitizing(s) {
      CleanedRedacted(dial(Staged(s)));
    } else {
      NoURLAtAll(s);
      RedactClean(s);
      NoURLAnywhere(s);
    }
  }

  // ------------------------------------------------------ dropped controls

  // A URL with userinfo, and the same text held apart by a control.
  const TAIL: seq<Byte> := [47, 47, 117, AT, 104]

  function Apart(c: Byte): seq<Byte> {
    [COLON] + (if c == ESC then [c, 99] else [c]) + TAIL
  }

  predicate Dropped(c: Byte) {
    Control(c) && !Blank(c)
  }

  function Calmed(v: seq<Byte>): seq<Byte> {
    EncodeAll(Calm(Decode(v)))
  }

  lemma {:induction false} CalmFirst(r: Rune, runes: seq<Rune>)
    ensures Calm([r] + runes) == CalmOne(r) + Calm(runes)
    decreases |runes|
  {
    hide Calm;
    NoneCalm();
    if runes == [] {
      CalmAppend([], r);
      assert [] + [r] == [r] + runes;
    } else {
      var front, last := runes[..|runes| - 1], runes[|runes| - 1];
      CalmFirst(r, front);
      assert front + [last] == runes && [r] + front + [last] == [r] + runes;
      CalmAppend([r] + front, last);
      CalmAppend(front, last);
      Glue3(CalmOne(r), Calm(front), CalmOne(last));
    }
  }

  lemma NoneCalm()
    ensures Calm([]) == []
  {
  }

  lemma Glue3(a: seq<Rune>, b: seq<Rune>, c: seq<Rune>)
    ensures a + b + c == a + (b + c)
  {
  }

  lemma AsciiStep(b: Byte, rest: seq<Byte>)
    requires b < 0x80
    ensures Calmed([b] + rest) == Written(b) + Calmed(rest)
  {
    hide EncodeAll, Calm;
    var s, runes := [b] + rest, Decode(rest);
    assert s[1..] == rest;
    DecodeFirst(s);
    CalmFirst(b, runes);
    if CalmOne(b) == [] {
      assert [] + Calm(runes) == Calm(runes);
    } else {
      EncodeFirst(CalmOne(b) + Calm(runes));
    }
  }

  lemma {:induction false} PlainKept(s: seq<Byte>)
    requires forall i | 0 <= i < |s| :: 0x20 <= s[i] < DEL
    ensures Calmed(s) == s
  {
    hide Calmed;
    if s == [] {
      NothingCalmed();
    } else {
      PlainKept(s[1..]);
      AsciiStep(s[0], s[1..]);
      assert s == [s[0]] + s[1..];
    }
  }

  lemma NothingCalmed()
    ensures Calmed([]) == []
  {
    NothingCalm();
  }

  lemma PlainTail()
    ensures NoEscape(TAIL) && NoControls(TAIL) && WithoutANSI(TAIL) == TAIL && Calmed(TAIL) == TAIL
  {
    hide WithoutANSI, Calmed;
    ANSIGone(TAIL);
    PlainKept(TAIL);
  }

  lemma EscapeDropped()
    ensures WithoutANSI(Apart(ESC)) == [COLON] + TAIL
  {
    hide WithoutANSI;
    PlainTail();
    var s, t := Apart(ESC), [ESC, 99] + TAIL;
    assert s == [COLON] + t;
    assert t[1..] == [99] + TAIL;
    assert SequenceLength(t[1..]) == 1 && t[2..] == TAIL;
    ANSIStep(s);
    ANSIStep(t);
  }

  lemma ANSIStep(s: seq<Byte>)
    requires s != []
    ensures WithoutANSI(s) == if s[0] != ESC then [s[0]] + WithoutANSI(s[1..])
                              else WithoutANSI(s[1 + SequenceLength(s[1..])..])
  {
  }

  lemma CalmedLast(v: seq<Byte>)
    ensures Cleaned(v) == Calmed(WithoutANSI(v))
  {
  }

  lemma ApartBytes(c: Byte)
    requires Control(c)
    ensures var s := Apart(c);
            && |s| >= 7 && s[1] == c
            && (forall j | 0 <= j < |s| :: s[j] != QUOTE && (j > 0 ==> s[j] != COLON))
            && (c != ESC ==> s == [COLON] + ([c] + TAIL) && NoEscape(s))
  {
  }

  lemma ApartCleaned(c: Byte)
    requires Dropped(c)
    ensures Cleaned(Apart(c)) == [COLON] + TAIL
  {
    hide WithoutANSI, Calmed, Apart, Cleaned;
    PlainTail();
    WrittenHere(c);
    AsciiStep(COLON, TAIL);
    CalmedLast(Apart(c));
    if c == ESC {
      EscapeDropped();
    } else {
      ApartBytes(c);
      ANSIGone(Apart(c));
      AsciiStep(c, TAIL);
      assert [] + TAIL == TAIL;
      AsciiStep(COLON, [c] + TAIL);
    }
  }

  lemma WrittenHere(c: Byte)
    requires Dropped(c)
    ensures c < 0x80 && Written(c) == [] && Written(COLON) == [COLON]
  {
  }

  // Nothing to redact or to blank while the control is there.
  lemma ApartStaged(c: Byte)
    requires Control(c)
    ensures Staged(Apart(c)) == Apart(c) && NeedsSanitizing(Apart(c))
  {
    hide Strip, Redact, FindScheme, QuoteAt, Apart, NeedsSanitizing;
    var s := Apart(c);
    ApartBytes(c);
    SchemeThere(s);
    SchemeFound(s);
    NoURLAtAll(s);
    QuoteWithin(s);
    QuoteFound(s);
    ControlNeeds(s, 1);
  }

  lemma ControlNeeds(s: seq<Byte>, i: nat)
    requires i < |s| && Control(s[i])
    ensures NeedsSanitizing(s)
  {
    hide HasScheme, Contains;
    assert !NoControls(s);
  }

  lemma TogetherUnclean()
    ensures !Clean([COLON] + TAIL)
  {
    hide TokenEnd, LastAt;
    var s, token := [COLON] + TAIL, [117, AT, 104];
    MarkLength();
    assert s[3..] == token && token[..3] == token;
    TokenEndUnique(token, 3);
    LastAtUnique(token, 2);
    assert !CleanAt(s, 0);
  }

  // The dial rewriting of a text without dial addresses.
  function Kept(v: seq<Byte>): seq<Byte> {
    v
  }

  // Redaction sees no URL, and dropping the control assembles one.
  lemma ApartAssembled(c: Byte)
    requires Dropped(c)
    ensures Sanitized(Apart(c), Kept) == [COLON] + TAIL && !Redacted(Sanitized(Apart(c), Kept))
  {
    hide Cleaned, Redact, Strip, Decode, Clean, NeedsSanitizing, Apart;
    ApartStaged(c);
    ApartCleaned(c);
    DecodeShort([COLON] + TAIL);
    TogetherUnclean();
  }

  ghost predicate KeepsRedacted(allowed: set<Byte>) {
    forall s | ControlsIn(s, allowed) :: Redacted(Sanitized(s, Kept))
  }

  // Exactly when the sanitizer keeps its promise, when there is no dial
  // address to rewrite: on every text whose controls are among the allowed
  // ones if and only if those are line breaks and tabs. Any control that is
  // dropped instead can hold a URL apart until the redaction is over.
  lemma RedactedExactly(allowed: set<Byte>)
    ensures KeepsRedacted(allowed) <==> forall c | c in allowed && Control(c) :: Blank(c)
  {
    hide Redacted, Sanitized, Apart, Staged;
    forall c | c in allowed && Dropped(c)
      ensures !KeepsRedacted(allowed)
    {
      ApartAssembled(c);
      ApartControls(c, allowed);
    }
    if forall c | c in allowed && Control(c) :: Blank(c) {
      forall s | ControlsIn(s, allowed)
        ensures Redacted(Sanitized(s, Kept))
      {
        KeptRedacted(s, allowed);
      }
    }
  }

  lemma ApartControls(c: Byte, allowed: set<Byte>)
    requires c in allowed
    ensures ControlsIn(Apart(c), allowed)
  {
  }

  lemma KeptRedacted(s: seq<Byte>, allowed: set<Byte>)
    requires ControlsIn(s, allowed) && forall c | c in allowed && Control(c) :: Blank(c)
    ensures Redacted(Sanitized(s, Kept))
  {
    hide Redacted, Sanitized, Strip, Redact;
    RedactControls(s, allowed);
    StripControls(Redact(s), allowed);
    StagedRedacted(s);
    OutputRedacted(s, Kept);
  }
}
