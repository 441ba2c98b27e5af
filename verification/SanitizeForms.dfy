// The sanitizer's stages by the form of what they meet: a URL with userinfo, an
// escape sequence, an escaped quote, an over-long text, an invalid byte.
module SanitizeForms {
  import opened Bytes
  import opened Sanitize

  // ---------------------------------------------------------------- userinfo

  const SCHEME: seq<Byte> := [58, 47, 47]

  // What ends a URL token: a C0 control, a space or DEL; ", ', <, > or `.
  predicate Ends(c: Byte) {
    c <= 32 || c == 127 || c == 34 || c == 39 || c == 60 || c == 62 || c == 96
  }

  // The '@' signs of a text all come after something that ends a token.
  predicate AtsBehind(t: seq<Byte>) {
    forall j | 0 <= j < |t| && t[j] == 64 :: exists i | 0 <= i < j :: Ends(t[i])
  }

  predicate Unbroken(t: seq<Byte>) {
    forall i | 0 <= i < |t| :: !Ends(t[i])
  }

  // The first URL of a text is behind p.
  predicate FirstBehind(p: seq<Byte>, rest: seq<Byte>) {
    forall j: nat | j < |p| :: !SchemeAt(p + SCHEME + rest, j)
  }

  lemma SchemeFirst(p: seq<Byte>, rest: seq<Byte>)
    requires FirstBehind(p, rest)
    ensures FindScheme(p + SCHEME + rest) == |p|
  {
    var s := p + SCHEME + rest;
    assert SchemeAt(s, |p|);
    assert s[|p|] == 58;
  }

  // Where the token of u + [64] + t ends, and its last '@'.
  lemma TokenOf(u: seq<Byte>, t: seq<Byte>)
    requires Unbroken(u) && AtsBehind(t)
    ensures var s := u + [64] + t;
            TokenEnd(s) == |u| + 1 + TokenEnd(t) && LastAt(s[..TokenEnd(s)]) == |u| + 1
  {
    hide TokenEnd, LastAt;
    var s := u + [64] + t;
    TokenStops(t);
    TokenEndUnique(s, |u| + 1 + TokenEnd(t));
    var token := s[..|u| + 1 + TokenEnd(t)];
    assert forall j | |u| + 1 <= j < |token| :: token[j] == t[j - |u| - 1];
    assert token[|u|] == 64;
    LastAtUnique(token, |u| + 1);
  }

  lemma TokenStops(t: seq<Byte>)
    ensures 0 <= TokenEnd(t) <= |t|
    ensures forall j | 0 <= j < TokenEnd(t) :: !Ends(t[j])
    ensures TokenEnd(t) < |t| ==> Ends(t[TokenEnd(t)])
  {
  }

  // The userinfo u of the first URL, everything before the token's last '@', is
  // replaced by the mark; what is before and behind it is kept, and the rest
  // treated alike.
  lemma UserinfoReplaced(p: seq<Byte>, u: seq<Byte>, t: seq<Byte>)
    requires FirstBehind(p, u + [64] + t) && Unbroken(u) && AtsBehind(t)
    ensures Redact(p + SCHEME + (u + [64] + t)) == p + SCHEME + REDACTED + Redact(t)
  {
    hide Redact, FindScheme, TokenEnd, LastAt;
    var rest := u + [64] + t;
    var s, start := p + SCHEME + rest, |p| + 3;
    SchemeFirst(p, rest);
    TokenOf(u, t);
    TokenStops(rest);
    TokenStops(t);
    assert s[start..] == rest;
    assert s[start..start + TokenEnd(rest)] == rest[..TokenEnd(rest)];
    RewrittenHere(s, start, start + TokenEnd(rest), |u| + 1);
    assert s[start + |u| + 1..] == t;
    assert s[..start] == p + SCHEME;
  }

  // A first URL without an '@' in its token is kept, and the rest treated alike.
  lemma NoUserinfoKept(p: seq<Byte>, token: seq<Byte>, rest: seq<Byte>)
    requires FirstBehind(p, token + rest) && Unbroken(token) && 64 !in token
    requires rest == [] || Ends(rest[0])
    ensures Redact(p + SCHEME + (token + rest)) == p + SCHEME + token + Redact(rest)
  {
    hide Redact, FindScheme, TokenEnd, LastAt;
    var tail := token + rest;
    var s, start := p + SCHEME + tail, |p| + 3;
    SchemeFirst(p, tail);
    TokenEndUnique(tail, |token|);
    assert s[start..] == tail && s[start..start + |token|] == token;
    LastAtUnique(token, 0);
    PassOverHere(s, start, start + |token|);
    assert s[start + |token|..] == rest;
    assert s[..start + |token|] == p + SCHEME + token;
  }

  // ------------------------------------------------------------ quoted tokens

  // How many backslashes stand right before position i.
  function Backslashes(s: seq<Byte>, i: nat): nat
    requires i <= |s|
  {
    if i == 0 || s[i - 1] != 92 then 0 else 1 + Backslashes(s, i - 1)
  }

  // A quote with an even number of them before it.
  predicate Closes(s: seq<Byte>, i: nat) {
    i < |s| && s[i] == 34 && Backslashes(s, i) % 2 == 0
  }

  lemma {:induction false} BackslashesBehind(s: seq<Byte>, n: nat, i: nat)
    requires n <= i <= |s| && Backslashes(s, n) == 0
    ensures Backslashes(s[n..], i - n) == Backslashes(s, i)
    decreases i
  {
    if i > n {
      if s[i - 1] == 92 {
        BackslashesBehind(s, n, i - 1);
      }
    }
  }

  lemma {:induction false} BackslashesPast(s: seq<Byte>, i: nat)
    requires 2 <= i <= |s| && s[0] == 92
    ensures Backslashes(s, i) % 2 == Backslashes(s[2..], i - 2) % 2
  {
    if i == 2 {
      assert Backslashes(s, 0) == 0;
      assert Backslashes(s, 1) == 1;
    } else if s[i - 1] == 92 {
      BackslashesPast(s, i - 1);
    }
  }

  // The token closes at the first quote that is not escaped, and nowhere else.
  lemma {:induction false} CloseExact(s: seq<Byte>, i: nat)
    ensures CloseAt(s) == |s| ==> !Closes(s, i)
    ensures CloseAt(s) < |s| ==> Closes(s, CloseAt(s)) && (i < CloseAt(s) ==> !Closes(s, i))
    decreases |s|
  {
    if s != [] {
      assert Backslashes(s, 0) == 0;
      if s[0] == BACKSLASH {
        if |s| > 1 {
          EscapedPair(s, i);
        }
      } else if s[0] != QUOTE {
        OtherByte(s, i);
      }
    }
  }

  lemma EscapedPair(s: seq<Byte>, i: nat)
    requires |s| > 1 && s[0] == BACKSLASH
    ensures CloseAt(s) == |s| ==> !Closes(s, i)
    ensures CloseAt(s) < |s| ==> Closes(s, CloseAt(s)) && (i < CloseAt(s) ==> !Closes(s, i))
    decreases |s|, 0
  {
    var rest := s[2..];
    assert CloseAt(s) == 2 + CloseAt(rest);
    CloseExact(rest, if i >= 2 then i - 2 else 0);
    assert Backslashes(s, 0) == 0 && Backslashes(s, 1) == 1;
    if CloseAt(rest) < |rest| {
      BackslashesPast(s, 2 + CloseAt(rest));
    }
    if 2 <= i < |s| {
      BackslashesPast(s, i);
    }
  }

  lemma OtherByte(s: seq<Byte>, i: nat)
    requires s != [] && s[0] != BACKSLASH && s[0] != QUOTE
    ensures CloseAt(s) == |s| ==> !Closes(s, i)
    ensures CloseAt(s) < |s| ==> Closes(s, CloseAt(s)) && (i < CloseAt(s) ==> !Closes(s, i))
    decreases |s|, 0
  {
    var rest := s[1..];
    assert CloseAt(s) == 1 + CloseAt(rest);
    CloseExact(rest, if i >= 1 then i - 1 else 0);
    assert Backslashes(s, 1) == 0;
    if CloseAt(rest) < |rest| {
      BackslashesBehind(s, 1, 1 + CloseAt(rest));
    }
    if 1 <= i < |s| {
      BackslashesBehind(s, 1, i);
    }
  }

  // --------------------------------------------------------- escape sequences

  // ESC [ parameters final: up to the first byte from '@' to '~'.
  predicate ControlSequenceForm(q: seq<Byte>) {
    && |q| >= 3 && q[0] == 27 && q[1] == 91 && 64 <= q[|q| - 1] <= 126
    && forall i | 2 <= i < |q| - 1 :: !(64 <= q[i] <= 126)
  }

  // Where a system command ends within q: behind BEL, or behind ESC backslash.
  predicate CommandEnds(q: seq<Byte>, n: nat) {
    && 2 < n <= |q|
    && (q[n - 1] == 7 || (n > 3 && q[n - 2] == 27 && q[n - 1] == 92))
  }

  // ESC ] text, up to its first end.
  predicate SystemCommandForm(q: seq<Byte>) {
    && |q| >= 3 && q[0] == 27 && q[1] == 93
    && CommandEnds(q, |q|) && forall n: nat | n < |q| :: !CommandEnds(q, n)
  }

  // ESC and a designator: two more bytes for ( ) #, one for any other.
  predicate ShortForm(q: seq<Byte>) {
    && |q| >= 2 && q[0] == 27 && q[1] != 91 && q[1] != 93
    && |q| == if q[1] == 40 || q[1] == 41 || q[1] == 35 then 3 else 2
  }

  predicate EscapeSequence(q: seq<Byte>) {
    ControlSequenceForm(q) || SystemCommandForm(q) || ShortForm(q)
  }

  lemma {:induction false} ControlEnds(q: seq<Byte>, b: seq<Byte>)
    requires q != [] && 64 <= q[|q| - 1] <= 126 && forall i | 0 <= i < |q| - 1 :: !(64 <= q[i] <= 126)
    ensures ControlSequence(q + b) == |q|
  {
    if |q| > 1 {
      assert (q + b)[1..] == q[1..] + b;
      ControlEnds(q[1..], b);
    }
  }

  // A command's text: no BEL and no ESC backslash before its end.
  predicate TextEnds(t: seq<Byte>, n: nat) {
    1 <= n <= |t| && (t[n - 1] == 7 || (n >= 2 && t[n - 2] == 27 && t[n - 1] == 92))
  }

  lemma {:induction false} TextOver(t: seq<Byte>, b: seq<Byte>)
    requires TextEnds(t, |t|) && forall n: nat | n < |t| :: !TextEnds(t, n)
    ensures SystemCommand(t + b) == |t|
  {
    var s := t + b;
    if t[0] == 7 {
      assert |t| > 1 ==> TextEnds(t, 1);
    } else if t[0] == 27 && |s| > 1 && s[1] == 92 {
      assert |t| > 2 ==> TextEnds(t, 2);
    } else {
      assert s[1..] == t[1..] + b;
      forall n: nat | n < |t[1..]|
        ensures !TextEnds(t[1..], n)
      {
        assert !TextEnds(t, n + 1);
      }
      TextOver(t[1..], b);
    }
  }

  lemma CommandOver(q: seq<Byte>, b: seq<Byte>)
    requires SystemCommandForm(q)
    ensures SystemCommand(q[2..] + b) == |q| - 2
  {
    var t := q[2..];
    forall n: nat | n <= |t|
      ensures TextEnds(t, n) <==> CommandEnds(q, n + 2)
    {
    }
    TextOver(t, b);
  }

  lemma SequenceEnds(q: seq<Byte>, b: seq<Byte>)
    requires EscapeSequence(q)
    ensures SequenceLength(q[1..] + b) == |q| - 1
  {
    var s := q[1..] + b;
    assert s[1..] == q[2..] + b;
    if ControlSequenceForm(q) {
      ControlEnds(q[2..], b);
    } else if SystemCommandForm(q) {
      CommandOver(q, b);
    }
  }

  // An escape sequence goes, whole, and nothing else with it.
  lemma SequenceDropped(q: seq<Byte>, b: seq<Byte>)
    requires EscapeSequence(q)
    ensures WithoutANSI(q + b) == WithoutANSI(b)
  {
    hide EscapeSequence, SequenceLength;
    var s := q + b;
    EscapeFirst(q);
    SequenceEnds(q, b);
    assert s[1..] == q[1..] + b;
    assert s[|q|..] == b;
  }

  lemma EscapeFirst(q: seq<Byte>)
    requires EscapeSequence(q)
    ensures |q| >= 2 && q[0] == ESC
  {
  }

  // Text without ESC stays, in front of whatever follows.
  lemma {:induction false} TextKept(a: seq<Byte>, b: seq<Byte>)
    requires 27 !in a
    ensures WithoutANSI(a + b) == a + WithoutANSI(b)
  {
    if a == [] {
      assert a + b == b;
    } else {
      assert (a + b)[1..] == a[1..] + b;
      TextKept(a[1..], b);
    }
  }

  // A sequence the text ends in the middle of goes with it.
  predicate Unfinished(q: seq<Byte>) {
    && q != [] && q[0] == 27
    && (|q| == 1
        || (q[1] == 91 && forall i | 2 <= i < |q| :: !(64 <= q[i] <= 126))
        || (q[1] == 93 && forall n: nat | n <= |q| :: !CommandEnds(q, n))
        || (|q| == 2 && (q[1] == 40 || q[1] == 41 || q[1] == 35)))
  }

  lemma {:induction false} ControlOpen(t: seq<Byte>)
    requires forall i | 0 <= i < |t| :: !(64 <= t[i] <= 126)
    ensures ControlSequence(t) == |t|
  {
    if t != [] {
      ControlOpen(t[1..]);
    }
  }

  lemma {:induction false} TextOpen(t: seq<Byte>)
    requires forall n: nat | n <= |t| :: !TextEnds(t, n)
    ensures SystemCommand(t) == |t|
  {
    if t != [] {
      assert !TextEnds(t, 1);
      assert |t| > 1 ==> !TextEnds(t, 2);
      forall n: nat | n <= |t[1..]|
        ensures !TextEnds(t[1..], n)
      {
        assert !TextEnds(t, n + 1);
      }
      TextOpen(t[1..]);
    }
  }

  lemma UnfinishedDropped(q: seq<Byte>)
    requires Unfinished(q)
    ensures WithoutANSI(q) == []
  {
    hide WithoutANSI;
    NothingLeft();
    if |q| > 1 {
      var t := q[2..];
      assert q[1..][1..] == t;
      if q[1] == 91 {
        ControlOpen(t);
      } else if q[1] == 93 {
        forall n: nat | n <= |t|
          ensures !TextEnds(t, n)
        {
          assert !CommandEnds(q, n + 2);
        }
        TextOpen(t);
      }
    }
    assert q[1 + SequenceLength(q[1..])..] == [];
    FirstDropped(q);
  }

  lemma NothingLeft()
    ensures WithoutANSI([]) == []
  {
  }

  lemma FirstDropped(q: seq<Byte>)
    requires q != [] && q[0] == 27
    ensures WithoutANSI(q) == WithoutANSI(q[1 + SequenceLength(q[1..])..])
  {
  }

  // ------------------------------------------------------ controls and length

  // Rune by rune: line breaks and tabs become one space each, other C0 controls
  // and DEL go, everything else stays.
  lemma {:induction false} CalmForm(a: seq<Rune>, b: seq<Rune>, r: Rune)
    ensures Calm(a + b) == Calm(a) + Calm(b)
    ensures Calm([r]) == if r == 10 || r == 13 || r == 9 then [32] else if r < 32 || r == 127 then [] else [r]
    decreases |b|
  {
    hide Calm;
    CalmNothing();
    CalmAppend([], r);
    assert [] + [r] == [r];
    if b == [] {
      assert a + b == a;
    } else {
      var front, last := b[..|b| - 1], b[|b| - 1];
      CalmForm(a, front, r);
      CalmAppend(a + front, last);
      CalmAppend(front, last);
      assert front + [last] == b && a + front + [last] == a + b;
      Associates(Calm(a), Calm(front), CalmOne(last));
    }
  }

  lemma CalmNothing()
    ensures Calm([]) == []
  {
  }

  lemma Associates(a: seq<Rune>, b: seq<Rune>, c: seq<Rune>)
    ensures a + b + c == a + (b + c)
  {
  }

  // The shortcut, exactly: a text of at most 512 bytes with no control, no URL
  // and none of the words an address may follow comes back as it is; any other
  // goes through every stage.
  lemma ShortcutForm(s: seq<Byte>, dial: seq<Byte> -> seq<Byte>)
    ensures Sanitized(s, dial) ==
              if |s| <= 512 && (forall i | 0 <= i < |s| :: s[i] >= 32 && s[i] != 127)
                 && !Occurs(s, SCHEME) && !Occurs(s, Ascii("dial ")) && !Occurs(s, Ascii("lookup "))
                 && !Occurs(s, Ascii("connect: ")) && !Occurs(s, Ascii(" tcp ")) then s
              else SlowPath(s, dial)
  {
    hide FindScheme, SlowPath, Contains, Occurs;
    SchemeOccurs(s);
    SameOccurs(s, Ascii("dial "));
    SameOccurs(s, Ascii("lookup "));
    SameOccurs(s, Ascii("connect: "));
    SameOccurs(s, Ascii(" tcp "));
  }

  predicate OccursAt(s: seq<Byte>, pattern: seq<Byte>, i: nat) {
    i + |pattern| <= |s| && s[i..i + |pattern|] == pattern
  }

  predicate Occurs(s: seq<Byte>, pattern: seq<Byte>) {
    exists i: nat | i <= |s| :: OccursAt(s, pattern, i)
  }

  lemma SameOccurs(s: seq<Byte>, pattern: seq<Byte>)
    ensures Contains(s, pattern) <==> Occurs(s, pattern)
  {
    if Contains(s, pattern) {
      var i: nat :| i <= |s| && Starts(s[i..], pattern);
      assert s[i..i + |pattern|] == s[i..][..|pattern|] == pattern;
      assert OccursAt(s, pattern, i);
    }
    if Occurs(s, pattern) {
      var i: nat :| i <= |s| && OccursAt(s, pattern, i);
      assert s[i..][..|pattern|] == pattern;
      assert Starts(s[i..], pattern);
    }
  }

  lemma SchemeOccurs(s: seq<Byte>)
    ensures HasScheme(s) <==> Occurs(s, SCHEME)
  {
    if HasScheme(s) {
      var i := FindScheme(s);
      assert OccursAt(s, SCHEME, i);
    }
    if Occurs(s, SCHEME) {
      var i: nat :| i <= |s| && OccursAt(s, SCHEME, i);
      var part := s[i..i + 3];
      assert s[i] == part[0] && s[i + 1] == part[1] && s[i + 2] == part[2];
      assert SchemeAt(s, i);
    }
  }

  // A text of at most 512 characters stays; of a longer one the first 512, and
  // an ellipsis.
  lemma BoundedForm(runes: seq<Rune>)
    ensures Decode(Bounded(EncodeAll(runes))) == if |runes| <= 512 then runes else runes[..512] + [0x2026]
  {
    hide Encode, EncodeAll, Decode;
    DecodeEncode(runes);
    if |runes| > 512 {
      EncodeAppend(runes[..512], ELLIPSIS);
      DecodeEncode(runes[..512] + [ELLIPSIS]);
    }
  }
}
