// The gateway's one pipeline: body acquisition, then attempts on one relay
// after another until one answers or the retry budget is spent.
module Failover {
  import opened Readiness
  import opened Rotation

  // max_retries as the configuration accepts it.
  const MAX_RETRIES := 16
  type Retries = n: int | 0 <= n <= MAX_RETRIES

  datatype Target = Target(key: Key, maxBody: nat)

  datatype Outcome = NoResponse(error: Text) | Answer(complete: bool)

  // What one pass of the loop meets: the state it loads, the relay that
  // state's pool picks, how the trip ends, and whether the client is there.
  datatype Bound = Bound(maxRetries: Retries, pick: Option<Target>, outcome: Outcome, alive: bool)

  datatype Reply =
    | Unavailable                     // 503
    | Unreadable                      // 400
    | TooLarge                        // 413
    | StreamFailed(error: Text)       // 502
    | AllFailed(last: Option<Text>)   // 502
    | Relayed(key: Key, complete: bool)

  datatype Event =
    | Begin(key: Key) | End(key: Key)  // the in-flight counter
    | Counted(key: Key) | Failure(key: Key) | Midstream(key: Key) | Success(key: Key)  // runtime health
    | Wrote(reply: Reply)

  // ------------------------------------------------------ body acquisition

  // An inbound body: declared length (-1 when unknown), actual length, and
  // whether what the gateway reads of it arrives without error.
  datatype Body = Body(declared: int, size: nat, readable: bool)

  datatype Acquired = Refused(reply: Reply) | Buffered(size: nat) | Live

  function Acquire(maxBuffer: nat, threshold: int, b: Body): Acquired {
    if threshold > 0 && b.declared > threshold then Live
    else
      var readCap := if threshold > 0 then threshold else maxBuffer;
      var buffered := if b.size <= readCap + 1 then b.size else readCap + 1;
      if !b.readable then Refused(Unreadable)
      else if buffered <= readCap then Buffered(buffered)
      else if threshold > 0 then Live
      else Refused(TooLarge)
  }

  // Nothing is lost: a buffered body is the whole body and within the cap; the
  // gateway refuses by size only with streaming off, and then exactly beyond
  // the largest buffer.
  lemma AcquireExact(maxBuffer: nat, threshold: int, b: Body)
    ensures var a := Acquire(maxBuffer, threshold, b);
            && (a.Buffered? ==> a.size == b.size && b.size <= if threshold > 0 then threshold else maxBuffer)
            && (a == Refused(TooLarge) <==> threshold <= 0 && b.readable && b.size > maxBuffer)
            && (a.Live? <==> threshold > 0 && (b.declared > threshold || (b.readable && b.size > threshold)))
  {
  }

  // --------------------------------------------------------- the attempts

  datatype Attempt =
    | Skipped(target: Target)
    | Failed(target: Target, error: Text)
    | Abandoned(target: Target)
    | Answered(target: Target, complete: bool, alive: bool)

  datatype Exit = Exhausted | NoPick | Ended

  function Budget(streaming: bool, b: Bound): nat {
    if streaming then 1 else b.maxRetries + 1
  }

  function AttemptOf(streaming: bool, size: nat, t: Target, b: Bound): Attempt {
    if !streaming && size > t.maxBody then Skipped(t)
    else match b.outcome
      case NoResponse(error) => if b.alive then Attempt.Failed(t, error) else Abandoned(t)
      case Answer(complete) => Answered(t, complete, b.alive)
  }

  predicate GoesOn(streaming: bool, a: Attempt) {
    a.Skipped? || (a.Failed? && !streaming)
  }

  // The attempts of one request from the made-th on, under states that may
  // differ on every pass.
  function Attempts(streaming: bool, size: nat, env: nat -> Bound, made: nat): (r: (seq<Attempt>, Exit))
    decreases MAX_RETRIES + 1 - made
  {
    var b := env(made);
    if made >= Budget(streaming, b) then ([], Exhausted)
    else if b.pick.None? then ([], NoPick)
    else
      var a := AttemptOf(streaming, size, b.pick.value, b);
      if GoesOn(streaming, a) then
        var rest := Attempts(streaming, size, env, made + 1);
        ([a] + rest.0, rest.1)
      else ([a], Ended)
  }

  // The error of the last failed attempt.
  function LastError(attempts: seq<Attempt>): Option<Text> {
    if attempts == [] then None
    else
      var a := attempts[|attempts| - 1];
      if a.Failed? then Some(a.error) else LastError(attempts[..|attempts| - 1])
  }

  predicate AllSkipped(attempts: seq<Attempt>) {
    forall i | 0 <= i < |attempts| :: attempts[i].Skipped?
  }

  // What the client gets: nothing when it left before any answer.
  function ReplyTo(streaming: bool, attempts: seq<Attempt>, exit: Exit): Option<Reply> {
    match exit
    case NoPick => Some(Unavailable)
    case Exhausted =>
      if attempts != [] && AllSkipped(attempts) then Some(TooLarge) else Some(AllFailed(LastError(attempts)))
    case Ended =>
      if attempts == [] then None
      else match attempts[|attempts| - 1]
        case Answered(t, complete, _) => Some(Relayed(t.key, complete))
        case Failed(_, error) => Some(StreamFailed(error))
        case _ => None
  }

  // ------------------------------------------------------------- the loop

  // The events of one attempt.
  function AttemptLog(a: Attempt): seq<Event> {
    var k := a.target.key;
    match a
    case Skipped(_) => [Begin(k), End(k)]
    case Failed(_, _) => [Begin(k), End(k), Failure(k)]
    case Abandoned(_) => [Begin(k), End(k)]
    case Answered(_, complete, alive) =>
      [Begin(k), Counted(k), Wrote(Relayed(k, complete)), End(k)]
      + (if !alive then [] else if complete then [Success(k)] else [Failure(k), Midstream(k)])
  }

  function Logs(attempts: seq<Attempt>): seq<Event> {
    if attempts == [] then [] else Logs(attempts[..|attempts| - 1]) + AttemptLog(attempts[|attempts| - 1])
  }

  // A reply of the gateway's own is written after the attempts.
  function OwnReply(reply: Option<Reply>): seq<Event> {
    if reply.Some? && !reply.value.Relayed? then [Wrote(reply.value)] else []
  }

  function FullLog(streaming: bool, size: nat, env: nat -> Bound): seq<Event> {
    var r := Attempts(streaming, size, env, 0);
    Logs(r.0) + OwnReply(ReplyTo(streaming, r.0, r.1))
  }

  lemma LogsAppend(attempts: seq<Attempt>, a: Attempt)
    ensures Logs(attempts + [a]) == Logs(attempts) + AttemptLog(a)
    ensures LastError(attempts + [a]) == if a.Failed? then Some(a.error) else LastError(attempts)
    ensures AllSkipped(attempts + [a]) <==> AllSkipped(attempts) && a.Skipped?
  {
    assert (attempts + [a])[..|attempts|] == attempts;
    assert (attempts + [a])[|attempts|] == a;
    assert forall i | 0 <= i < |attempts| :: (attempts + [a])[i] == attempts[i];
  }

  lemma NothingDone(streaming: bool, size: nat, env: nat -> Bound)
    ensures Logs([]) == [] && LastError([]) == None && AllSkipped([])
    ensures [] + Attempts(streaming, size, env, 0).0 == Attempts(streaming, size, env, 0).0
  {
  }

  // What one pass contributes to the attempts still to come.
  lemma NextAttempt(streaming: bool, size: nat, env: nat -> Bound, done: seq<Attempt>)
    requires |done| <= MAX_RETRIES + 1
    ensures var b, r := env(|done|), Attempts(streaming, size, env, |done|);
            if |done| >= Budget(streaming, b) then done + r.0 == done && r.1 == Exhausted
            else if b.pick.None? then done + r.0 == done && r.1 == NoPick
            else
              var a := AttemptOf(streaming, size, b.pick.value, b);
              if GoesOn(streaming, a) then
                var rest := Attempts(streaming, size, env, |done| + 1);
                done + r.0 == (done + [a]) + rest.0 && r.1 == rest.1
              else done + r.0 == done + [a] && r.1 == Ended
  {
  }

  // The whole log once nothing is left to attempt.
  lemma AtTheEnd(streaming: bool, size: nat, env: nat -> Bound, done: seq<Attempt>, exit: Exit)
    requires Attempts(streaming, size, env, 0) == (done, exit)
    ensures FullLog(streaming, size, env) == Logs(done) + OwnReply(ReplyTo(streaming, done, exit))
  {
  }

  lemma AtTheLast(streaming: bool, size: nat, env: nat -> Bound, done: seq<Attempt>, a: Attempt)
    requires Attempts(streaming, size, env, 0) == (done + [a], Ended)
    ensures FullLog(streaming, size, env)
         == Logs(done) + AttemptLog(a) + (if a.Failed? then [Wrote(StreamFailed(a.error))] else [])
  {
    LogsAppend(done, a);
    assert (done + [a])[|done|] == a;
  }

  // The attempt loop as the gateway runs it: counters, the last error, early
  // returns, and the reply decided from the counters after the loop.
  method Relay(streaming: bool, size: nat, env: nat -> Bound) returns (log: seq<Event>)
    ensures log == FullLog(streaming, size, env)
  {
    hide Attempts, Logs, LastError, FullLog, AllSkipped;
    log := [];
    var attemptsMade, skippedBySize := 0, 0;
    var lastErr: Option<Text> := None;
    ghost var done: seq<Attempt> := [];
    ghost var all := Attempts(streaming, size, env, 0);
    NothingDone(streaming, size, env);
    while true
      invariant attemptsMade == |done| <= MAX_RETRIES + 1
      invariant all.0 == done + Attempts(streaming, size, env, |done|).0
      invariant all.1 == Attempts(streaming, size, env, |done|).1
      invariant log == Logs(done) && lastErr == LastError(done)
      invariant skippedBySize <= |done| && (skippedBySize == |done| <==> AllSkipped(done))
      decreases MAX_RETRIES + 1 - attemptsMade
    {
      var cur := env(attemptsMade);
      NextAttempt(streaming, size, env, done);
      var budget := cur.maxRetries + 1;
      if streaming {
        budget := 1;
      }
      if attemptsMade >= budget {
        AtTheEnd(streaming, size, env, done, Exhausted);
        break;
      }
      if cur.pick.None? {
        AtTheEnd(streaming, size, env, done, NoPick);
        return log + [Wrote(Unavailable)];
      }
      var target := cur.pick.value;
      ghost var a := AttemptOf(streaming, size, target, cur);
      LogsAppend(done, a);
      log := log + [Begin(target.key)];
      attemptsMade := attemptsMade + 1;
      if !streaming && size > target.maxBody {
        log := log + [End(target.key)];
        skippedBySize := skippedBySize + 1;
        done := done + [a];
        continue;
      }
      match cur.outcome {
        case NoResponse(error) =>
          log := log + [End(target.key)];
          if !cur.alive {
            AtTheLast(streaming, size, env, done, a);
            return;
          }
          log := log + [Failure(target.key)];
          lastErr := Some(error);
          if streaming {
            AtTheLast(streaming, size, env, done, a);
            return log + [Wrote(StreamFailed(error))];
          }
          done := done + [a];
        case Answer(complete) =>
          AtTheLast(streaming, size, env, done, a);
          log := log + [Counted(target.key)];
          log := log + [Wrote(Relayed(target.key, complete))];
          log := log + [End(target.key)];
          if complete && cur.alive {
            log := log + [Success(target.key)];
          } else if cur.alive {
            log := log + [Failure(target.key), Midstream(target.key)];
          }
          return;
      }
    }
    if skippedBySize == attemptsMade && skippedBySize > 0 {
      return log + [Wrote(TooLarge)];
    }
    return log + [Wrote(AllFailed(lastErr))];
  }

  // -------------------------------------------------------------- the laws

  // A request makes at most 17 attempts, a streaming one at most one, however
  // often the state is swapped on the way.
  lemma {:induction false} AttemptsBounded(streaming: bool, size: nat, env: nat -> Bound, made: nat)
    requires made <= MAX_RETRIES + 1
    ensures var attempts := Attempts(streaming, size, env, made).0;
            made + |attempts| <= MAX_RETRIES + 1 && (streaming ==> |attempts| <= 1)
    decreases MAX_RETRIES + 1 - made
  {
    if made <= MAX_RETRIES {
      AttemptsBounded(streaming, size, env, made + 1);
    }
  }

  // Only the last attempt can end the request, and it does exactly when the
  // loop did not end by itself.
  lemma {:induction false} OnlyTheLast(streaming: bool, size: nat, env: nat -> Bound, made: nat)
    requires made <= MAX_RETRIES + 1
    ensures var (attempts, exit) := Attempts(streaming, size, env, made);
            && (forall i | 0 <= i < |attempts| - 1 :: GoesOn(streaming, attempts[i]))
            && (attempts != [] ==> (exit == Ended <==> !GoesOn(streaming, attempts[|attempts| - 1])))
            && (attempts == [] ==> exit != Ended)
            && (exit == Exhausted && made == 0 ==> attempts != [])
            && (streaming ==> forall i | 0 <= i < |attempts| :: !attempts[i].Skipped?)
    decreases MAX_RETRIES + 1 - made
  {
    hide GoesOn;
    if made <= MAX_RETRIES {
      OnlyTheLast(streaming, size, env, made + 1);
    }
  }

  lemma {:induction false} LastErrorFound(attempts: seq<Attempt>)
    ensures LastError(attempts).Some? <==> exists i | 0 <= i < |attempts| :: attempts[i].Failed?
    ensures LastError(attempts).Some? ==>
              exists i | 0 <= i < |attempts| ::
                attempts[i].Failed? && attempts[i].error == LastError(attempts).value
                && forall j | i < j < |attempts| :: !attempts[j].Failed?
  {
    hide LastError;
    LastErrorStep(attempts);
    if attempts != [] {
      var n := |attempts| - 1;
      var front := attempts[..n];
      assert forall i | 0 <= i < n :: attempts[i] == front[i];
      if !attempts[n].Failed? {
        LastErrorFound(front);
        if LastError(front).Some? {
          var i :| 0 <= i < n && front[i].Failed? && front[i].error == LastError(front).value
                   && forall j | i < j < n :: !front[j].Failed?;
          assert attempts[i].Failed?;
        }
      }
    }
  }

  lemma LastErrorStep(attempts: seq<Attempt>)
    ensures attempts == [] ==> LastError(attempts) == None
    ensures attempts != [] ==>
              var a := attempts[|attempts| - 1];
              LastError(attempts) == if a.Failed? then Some(a.error) else LastError(attempts[..|attempts| - 1])
  {
  }

  // The reply, by what the attempts were: 413 exactly when the budget went to
  // size skips alone, 502 always with the last relay's real error, and nothing
  // exactly when the client left before any answer.
  lemma ReplyClassified(streaming: bool, size: nat, env: nat -> Bound)
    ensures var (attempts, exit) := Attempts(streaming, size, env, 0);
            var reply := ReplyTo(streaming, attempts, exit);
            && (reply == Some(TooLarge) <==> exit == Exhausted && AllSkipped(attempts))
            && (reply.Some? && reply.value.AllFailed? <==> exit == Exhausted && !AllSkipped(attempts))
            && (reply.Some? && reply.value.AllFailed? ==>
                  reply.value.last.Some? && reply.value.last == LastError(attempts))
            && (reply == None <==> attempts != [] && attempts[|attempts| - 1].Abandoned?)
            && (reply == Some(Unavailable) <==> exit == NoPick)
            && (reply.Some? && reply.value.Relayed? <==> attempts != [] && attempts[|attempts| - 1].Answered?)
            && (reply.Some? && reply.value.StreamFailed? <==>
                  streaming && attempts != [] && attempts[|attempts| - 1].Failed?)
            && (reply.None? || !reply.value.Unreadable?)
  {
    hide Attempts, LastError;
    var (attempts, exit) := Attempts(streaming, size, env, 0);
    OnlyTheLast(streaming, size, env, 0);
    if exit == Exhausted {
      ExhaustedError(streaming, attempts);
    }
  }

  // When no attempt ended the request, each was skipped or left an error.
  lemma ExhaustedError(streaming: bool, attempts: seq<Attempt>)
    requires forall i | 0 <= i < |attempts| :: GoesOn(streaming, attempts[i])
    ensures AllSkipped(attempts) || LastError(attempts).Some?
  {
    LastErrorFound(attempts);
  }

  // -- the in-flight counter

  datatype Held = Closed | Open(key: Key) | Torn

  // One request holds at most one relay; begin and end alternate and match.
  function HeldAfter(log: seq<Event>): Held {
    if log == [] then Closed
    else
      var h := HeldAfter(log[..|log| - 1]);
      match log[|log| - 1]
      case Begin(k) => if h.Closed? then Open(k) else Torn
      case End(k) => if h == Open(k) then Closed else Torn
      case _ => h
  }

  lemma HeldNext(log: seq<Event>, e: Event)
    ensures HeldAfter(log + [e])
         == match e
            case Begin(k) => if HeldAfter(log).Closed? then Open(k) else Torn
            case End(k) => if HeldAfter(log) == Open(k) then Closed else Torn
            case _ => HeldAfter(log)
  {
    assert (log + [e])[..|log|] == log;
  }

  // Events that leave the in-flight counter alone.
  lemma {:induction false} HeldAside(log: seq<Event>, more: seq<Event>)
    requires forall i | 0 <= i < |more| :: !more[i].Begin? && !more[i].End?
    ensures HeldAfter(log + more) == HeldAfter(log)
  {
    if more == [] {
      assert log + more == log;
    } else {
      var front := more[..|more| - 1];
      HeldAside(log, front);
      HeldNext(log + front, more[|more| - 1]);
      assert log + more == (log + front) + [more[|more| - 1]];
    }
  }

  lemma HeldAttempt(log: seq<Event>, a: Attempt)
    requires HeldAfter(log).Closed?
    ensures HeldAfter(log + AttemptLog(a)).Closed?
  {
    var k := a.target.key;
    var all := AttemptLog(a);
    var l1 := log + [Begin(k)];
    HeldNext(log, Begin(k));
    var middle := if a.Answered? then [Counted(k), Wrote(Relayed(k, a.complete))] else [];
    HeldAside(l1, middle);
    HeldNext(l1 + middle, End(k));
    var l3 := l1 + middle + [End(k)];
    var rest := all[|middle| + 2..];
    HeldAside(l3, rest);
    assert all == [Begin(k)] + middle + [End(k)] + rest;
    assert log + all == l3 + rest;
  }

  lemma {:induction false} HeldAttempts(attempts: seq<Attempt>)
    ensures HeldAfter(Logs(attempts)).Closed?
  {
    if attempts != [] {
      HeldAttempts(attempts[..|attempts| - 1]);
      HeldAttempt(Logs(attempts[..|attempts| - 1]), attempts[|attempts| - 1]);
    }
  }

  lemma BeginEndMatched(streaming: bool, size: nat, env: nat -> Bound)
    ensures HeldAfter(FullLog(streaming, size, env)).Closed?
  {
    var r := Attempts(streaming, size, env, 0);
    HeldAttempts(r.0);
    HeldAside(Logs(r.0), OwnReply(ReplyTo(streaming, r.0, r.1)));
  }

  // -- the response

  function Writes(log: seq<Event>): nat {
    if log == [] then 0 else Writes(log[..|log| - 1]) + if log[|log| - 1].Wrote? then 1 else 0
  }

  lemma {:induction false} WritesSum(a: seq<Event>, b: seq<Event>)
    ensures Writes(a + b) == Writes(a) + Writes(b)
  {
    if b == [] {
      assert a + b == a;
    } else {
      WritesSum(a, b[..|b| - 1]);
      assert (a + b)[..|a + b| - 1] == a + b[..|b| - 1];
    }
  }

  lemma AttemptWrites(a: Attempt)
    ensures Writes(AttemptLog(a)) == if a.Answered? then 1 else 0
  {
    var k := a.target.key;
    assert Writes([]) == 0;
    assert forall e: Event :: [e][..0] == [];
    if a.Answered? {
      var head := [Begin(k), Counted(k), Wrote(Relayed(k, a.complete)), End(k)];
      var tail := AttemptLog(a)[4..];
      assert AttemptLog(a) == head + tail;
      WritesSum(head, tail);
      WritesSum([Begin(k), Counted(k)], [Wrote(Relayed(k, a.complete)), End(k)]);
      assert head == [Begin(k), Counted(k)] + [Wrote(Relayed(k, a.complete)), End(k)];
      TwoWrites(Begin(k), Counted(k));
      TwoWrites(Wrote(Relayed(k, a.complete)), End(k));
      if |tail| == 2 {
        assert tail == [Failure(k), Midstream(k)];
        TwoWrites(Failure(k), Midstream(k));
      }
    } else {
      TwoWrites(Begin(k), End(k));
      if a.Failed? {
        assert AttemptLog(a) == [Begin(k), End(k)] + [Failure(k)];
        WritesSum([Begin(k), End(k)], [Failure(k)]);
      }
    }
  }

  lemma TwoWrites(d: Event, e: Event)
    ensures Writes([d, e]) == (if d.Wrote? then 1 else 0) + if e.Wrote? then 1 else 0
  {
    var l := [d, e];
    assert l[..|l| - 1] == [d];
    assert [d][..|[d]| - 1] == [];
    assert Writes([]) == 0;
  }

  lemma {:induction false} LogsWrite(attempts: seq<Attempt>)
    requires forall i | 0 <= i < |attempts| - 1 :: !attempts[i].Answered?
    ensures Writes(Logs(attempts)) == if attempts != [] && attempts[|attempts| - 1].Answered? then 1 else 0
  {
    if attempts != [] {
      var front := attempts[..|attempts| - 1];
      LogsWrite(front);
      assert front != [] ==> !attempts[|front| - 1].Answered?;
      AttemptWrites(attempts[|attempts| - 1]);
      WritesSum(Logs(front), AttemptLog(attempts[|attempts| - 1]));
    }
  }

  // Exactly one response, or none when the client left before any answer.
  lemma OneResponse(streaming: bool, size: nat, env: nat -> Bound)
    ensures var attempts := Attempts(streaming, size, env, 0).0;
            Writes(FullLog(streaming, size, env))
            == if attempts != [] && attempts[|attempts| - 1].Abandoned? then 0 else 1
  {
    var (attempts, exit) := Attempts(streaming, size, env, 0);
    var reply := ReplyTo(streaming, attempts, exit);
    OnlyTheLast(streaming, size, env, 0);
    ReplyClassified(streaming, size, env);
    LogsWrite(attempts);
    WritesSum(Logs(attempts), OwnReply(reply));
    assert Writes([]) == 0;
    if reply.Some? {
      assert [Wrote(reply.value)][..0] == [];
    }
  }

  // ------------------------------------------------------ runtime health

  // Attempts on k that failed before any answer.
  function NoAnswers(attempts: seq<Attempt>, k: Key): nat {
    if attempts == [] then 0
    else
      var a := attempts[|attempts| - 1];
      NoAnswers(attempts[..|attempts| - 1], k) + if a.Failed? && a.target.key == k then 1 else 0
  }

  // Every failure is either a missing answer or a broken body, and a body can
  // break only after its answer was counted.
  predicate Accounted(events: multiset<Event>, k: Key, unanswered: nat) {
    && events[Failure(k)] == unanswered + events[Midstream(k)]
    && events[Midstream(k)] + events[Success(k)] <= events[Counted(k)]
  }

  lemma AccountsAdd(a: multiset<Event>, b: multiset<Event>, k: Key, m: nat, n: nat)
    requires Accounted(a, k, m) && Accounted(b, k, n)
    ensures Accounted(a + b, k, m + n)
  {
  }

  lemma NothingAccounted(k: Key)
    ensures Accounted(multiset(Logs([])), k, 0)
  {
  }

  lemma AttemptAccounted(a: Attempt, k: Key)
    ensures Accounted(multiset(AttemptLog(a)), k, if a.Failed? && a.target.key == k then 1 else 0)
  {
    var j := a.target.key;
    if a.Answered? {
      AnsweredAccounted(j, k, a.complete, a.alive);
    }
  }

  lemma AnsweredAccounted(j: Key, k: Key, complete: bool, alive: bool)
    ensures var tail := if !alive then [] else if complete then [Success(j)] else [Failure(j), Midstream(j)];
            Accounted(multiset([Begin(j), Counted(j), Wrote(Relayed(j, complete)), End(j)] + tail), k, 0)
  {
    var head := [Begin(j), Counted(j), Wrote(Relayed(j, complete)), End(j)];
    var tail: seq<Event> := if !alive then [] else if complete then [Success(j)] else [Failure(j), Midstream(j)];
    assert multiset(head + tail) == multiset(head) + multiset(tail);
    if alive && !complete {
      assert multiset(tail) == multiset{Failure(j), Midstream(j)};
    }
  }

  lemma {:induction false} AttemptsAccounted(attempts: seq<Attempt>, k: Key)
    ensures Accounted(multiset(Logs(attempts)), k, NoAnswers(attempts, k))
  {
    hide AttemptLog, Accounted;
    if attempts == [] {
      NothingAccounted(k);
    } else if attempts != [] {
      var front, a := attempts[..|attempts| - 1], attempts[|attempts| - 1];
      AttemptsAccounted(front, k);
      var n := if a.Failed? && a.target.key == k then 1 else 0;
      AttemptAccounted(a, k);
      assert Logs(attempts) == Logs(front) + AttemptLog(a);
      AccountsAdd(multiset(Logs(front)), multiset(AttemptLog(a)), k, NoAnswers(front, k), n);
    }
  }

  datatype Request = Request(streaming: bool, size: nat, env: nat -> Bound)

  // The events of many requests, however their attempts interleave.
  function EventsOf(requests: seq<Request>): multiset<Event> {
    if requests == [] then multiset{}
    else
      var q := requests[|requests| - 1];
      EventsOf(requests[..|requests| - 1]) + multiset(FullLog(q.streaming, q.size, q.env))
  }

  function UnansweredIn(requests: seq<Request>, k: Key): nat {
    if requests == [] then 0
    else
      var q := requests[|requests| - 1];
      UnansweredIn(requests[..|requests| - 1], k) + NoAnswers(Attempts(q.streaming, q.size, q.env, 0).0, k)
  }

  // Over all requests ever served: a relay's failures are its missing answers
  // plus its broken bodies, and broken bodies never outnumber counted answers.
  lemma {:induction false} HealthAccounted(requests: seq<Request>, k: Key)
    ensures Accounted(EventsOf(requests), k, UnansweredIn(requests, k))
  {
    hide Attempts;
    if requests != [] {
      var q := requests[|requests| - 1];
      var r := Attempts(q.streaming, q.size, q.env, 0);
      HealthAccounted(requests[..|requests| - 1], k);
      AttemptsAccounted(r.0, k);
      AccountsAdd(multiset(Logs(r.0)), multiset(OwnReply(ReplyTo(q.streaming, r.0, r.1))), k, NoAnswers(r.0, k), 0);
      AccountsAdd(EventsOf(requests[..|requests| - 1]), multiset(FullLog(q.streaming, q.size, q.env)), k,
                  UnansweredIn(requests[..|requests| - 1], k), NoAnswers(r.0, k));
    }
  }

  // ----------------------------------------------------------- the 413 rule

  // What one pass finds of a selector's relays, listed in pool order: which are
  // off cooldown, and where the shared cursor stands. Other requests move both
  // between the passes.
  datatype Moment = Moment(up: seq<bool>, cursor: nat)

  // The positions off cooldown, in order.
  function UpSlots(up: seq<bool>): (slots: seq<nat>)
    ensures forall i | 0 <= i < |slots| :: slots[i] < |up| && up[slots[i]]
  {
    if up == [] then []
    else UpSlots(up[..|up| - 1]) + if up[|up| - 1] then [|up| - 1] else []
  }

  // The positions a pick rotates over: those off cooldown, or all of them.
  function Usable(up: seq<bool>): (slots: seq<nat>)
    ensures forall i | 0 <= i < |slots| :: slots[i] < |up|
    ensures up != [] ==> slots != []
  {
    if UpSlots(up) != [] then UpSlots(up) else seq(|up|, i => i)
  }

  function Met(m: Moment): (slot: nat)
    requires m.up != []
    ensures slot < |m.up|
  {
    Usable(m.up)[Slot(m.cursor, 0, |Usable(m.up)|)]
  }

  // A selector with relays of these limits, its n-th pass at moment when(n).
  ghost predicate Covers(when: nat -> Moment, n: nat) {
    forall i: nat :: |when(i).up| == n
  }

  function MetAt(when: nat -> Moment, caps: seq<nat>, i: nat): nat
    requires caps != []
  {
    if |when(i).up| == |caps| then caps[Met(when(i))] else 0
  }

  function Scheduled(caps: seq<nat>, when: nat -> Moment, maxRetries: Retries, ends: nat -> Outcome): nat -> Bound
    requires caps != []
  {
    (i: nat) => Bound(maxRetries, Some(Target(Key("", ""), MetAt(when, caps, i))), ends(i), true)
  }

  // The relays met by the first passes all reject the size.
  predicate Rejects(caps: seq<nat>, when: nat -> Moment, upto: nat, size: nat)
    requires caps != []
  {
    forall i: nat | i < upto :: MetAt(when, caps, i) < size
  }

  lemma {:induction false} ScheduleSkips(
    caps: seq<nat>, when: nat -> Moment, maxRetries: Retries, ends: nat -> Outcome, size: nat, made: nat)
    requires caps != [] && made <= maxRetries + 1 && Rejects(caps, when, made, size)
    ensures var (attempts, exit) := Attempts(false, size, Scheduled(caps, when, maxRetries, ends), made);
            exit == Exhausted && AllSkipped(attempts) <==> Rejects(caps, when, maxRetries + 1, size)
    decreases maxRetries + 1 - made
  {
    var env := Scheduled(caps, when, maxRetries, ends);
    var b := env(made);
    if made <= maxRetries {
      var a := AttemptOf(false, size, b.pick.value, b);
      if size > b.pick.value.maxBody {
        ScheduleSkips(caps, when, maxRetries, ends, size, made + 1);
        SkipFirst(a, Attempts(false, size, env, made + 1).0);
      } else {
        assert MetAt(when, caps, made) >= size;
        FirstAttempt(false, size, env, made);
      }
    }
  }

  lemma FirstAttempt(streaming: bool, size: nat, env: nat -> Bound, made: nat)
    requires made < Budget(streaming, env(made)) && env(made).pick.Some?
    ensures var attempts := Attempts(streaming, size, env, made).0;
            attempts != [] && attempts[0] == AttemptOf(streaming, size, env(made).pick.value, env(made))
  {
  }

  lemma SkipFirst(a: Attempt, rest: seq<Attempt>)
    requires a.Skipped?
    ensures AllSkipped([a] + rest) <==> AllSkipped(rest)
  {
    assert forall i | 0 <= i < |rest| :: ([a] + rest)[i + 1] == rest[i];
  }

  // Whatever cools down and whoever else picks in between, the client sees 413
  // exactly when the relays met within the retry budget all reject the size.
  lemma TooLargeExact(caps: seq<nat>, when: nat -> Moment, maxRetries: Retries, ends: nat -> Outcome, size: nat)
    requires caps != []
    ensures var (attempts, exit) := Attempts(false, size, Scheduled(caps, when, maxRetries, ends), 0);
            ReplyTo(false, attempts, exit) == Some(TooLarge) <==> Rejects(caps, when, maxRetries + 1, size)
  {
    ScheduleSkips(caps, when, maxRetries, ends, size, 0);
    ReplyClassified(false, size, Scheduled(caps, when, maxRetries, ends));
  }

  predicate AllReject(caps: seq<nat>, size: nat) {
    forall j | 0 <= j < |caps| :: caps[j] < size
  }

  predicate AllAccept(caps: seq<nat>, size: nat) {
    forall j | 0 <= j < |caps| :: caps[j] >= size
  }

  // The documented rule: 413 only when no relay of the selector accepts the
  // size, under every cooldown and every interleaving with other requests.
  ghost predicate DocumentedRule(caps: seq<nat>, budget: nat, size: nat)
    requires caps != []
  {
    forall when: nat -> Moment :: Covers(when, |caps|) && Rejects(caps, when, budget, size) ==> AllReject(caps, size)
  }

  // A moment at which only one relay is off cooldown meets that relay.
  lemma OnlyOneUp(up: seq<bool>, j: nat)
    requires j < |up| && forall i | 0 <= i < |up| :: up[i] <==> i == j
    ensures UpSlots(up) == [j]
    decreases |up|
  {
    var front := up[..|up| - 1];
    if j == |up| - 1 {
      NoneUp(front);
    } else {
      OnlyOneUp(front, j);
    }
  }

  lemma NoneUp(up: seq<bool>)
    requires forall i | 0 <= i < |up| :: !up[i]
    ensures UpSlots(up) == []
  {
    if up != [] {
      NoneUp(up[..|up| - 1]);
    }
  }

  // While one relay rejects and the others cool down, every pass skips it.
  lemma AlwaysRejected(caps: seq<nat>, budget: nat, size: nat, j: nat) returns (when: nat -> Moment)
    requires j < |caps| && caps[j] < size
    ensures Covers(when, |caps|) && Rejects(caps, when, budget, size)
  {
    var m := Moment(seq(|caps|, i => i == j), 0);
    when := (i: nat) => m;
    OnlyOneUp(m.up, j);
    SlotWithin(0, 0, 1);
    assert Met(m) == j;
  }

  // The rule holds exactly when the selector's relays agree on the size: either
  // all accept it or all reject it. No retry budget makes up for a mixed pool.
  lemma DocumentedRuleExact(caps: seq<nat>, budget: nat, size: nat)
    requires caps != [] && budget > 0
    ensures DocumentedRule(caps, budget, size) <==> AllAccept(caps, size) || AllReject(caps, size)
  {
    if AllAccept(caps, size) {
      forall when: nat -> Moment | Covers(when, |caps|)
        ensures !Rejects(caps, when, budget, size)
      {
        assert MetAt(when, caps, 0) >= size;
      }
    } else if !AllReject(caps, size) {
      var j :| 0 <= j < |caps| && caps[j] < size;
      var when := AlwaysRejected(caps, budget, size, j);
      assert Covers(when, |caps|) && Rejects(caps, when, budget, size);
    }
  }

  // -- the special case: everything healthy, and one request alone

  lemma {:induction false} AllUp(up: seq<bool>)
    requires forall i | 0 <= i < |up| :: up[i]
    ensures UpSlots(up) == seq(|up|, i => i)
  {
    if up != [] {
      var front := up[..|up| - 1];
      AllUp(front);
      assert UpSlots(up) == UpSlots(front) + [|front|];
    }
  }

  // The cursor moves by this request's own picks only.
  function Alone(n: nat, start: nat): nat -> Moment {
    (i: nat) => Moment(seq(n, j => true), start + i)
  }

  lemma MetAlone(caps: seq<nat>, start: nat, i: nat)
    requires caps != []
    ensures MetAt(Alone(|caps|, start), caps, i) == caps[Slot(start, i, |caps|)]
  {
    AllUp(seq(|caps|, j => true));
  }

  // The rule for a request that meets a healthy pool of n relays and nobody else.
  ghost predicate RuleAlone(n: nat, budget: nat) {
    forall caps: seq<nat>, start: nat, size: nat ::
      |caps| == n && n > 0 && Rejects(caps, Alone(n, start), budget, size) ==> AllReject(caps, size)
  }

  // A budget that covers the pool meets every relay.
  lemma BudgetCovers(caps: seq<nat>, start: nat, budget: nat, size: nat)
    requires caps != [] && |caps| <= budget && Rejects(caps, Alone(|caps|, start), budget, size)
    ensures AllReject(caps, size)
  {
    forall j: nat | j < |caps|
      ensures caps[j] < size
    {
      var i := SlotReached(start, j, |caps|);
      MetAlone(caps, start, i);
      assert MetAt(Alone(|caps|, start), caps, i) < size;
    }
  }

  // A smaller one can spend itself on relays that reject while another accepts.
  lemma BudgetMisses(n: nat, budget: nat) returns (caps: seq<nat>)
    requires budget < n
    ensures |caps| == n && caps != [] && Rejects(caps, Alone(n, 0), budget, 1) && !AllReject(caps, 1)
  {
    caps := seq(n, i => if i < n - 1 then 0 else 1);
    forall i: nat | i < budget
      ensures MetAt(Alone(n, 0), caps, i) < 1
    {
      SlotWithin(0, i, n);
      MetAlone(caps, 0, i);
    }
    assert caps[n - 1] == 1;
  }

  // There the rule holds for n relays exactly when the budget covers them: size
  // skips consume it.
  lemma RuleAloneExact(n: nat, budget: nat)
    requires n > 0
    ensures RuleAlone(n, budget) <==> n <= budget
  {
    if n <= budget {
      forall caps: seq<nat>, start: nat, size: nat |
        |caps| == n && n > 0 && Rejects(caps, Alone(n, start), budget, size)
        ensures AllReject(caps, size)
      {
        BudgetCovers(caps, start, budget, size);
      }
    } else {
      var caps := BudgetMisses(n, budget);
      assert Rejects(caps, Alone(n, 0), budget, 1) && !AllReject(caps, 1);
    }
  }
}
