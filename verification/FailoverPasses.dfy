// The attempt loop by what its passes meet: which pass ends a request, what the
// client gets, and what is recorded of each relay, in terms of the environment
// alone.
module FailoverPasses {
  import opened Readiness
  import opened Failover

  // Pass n finds budget left; a body that is streamed has a single pass.
  predicate Budgeted(streaming: bool, env: nat -> Bound, n: nat) {
    if streaming then n == 0 else n <= env(n).maxRetries
  }

  // It finds a relay as well.
  predicate Tried(streaming: bool, env: nat -> Bound, n: nat) {
    Budgeted(streaming, env, n) && env(n).pick.Some?
  }

  // The request goes to the relay: always when streamed, within its limit when
  // buffered.
  predicate Sent(streaming: bool, size: nat, b: Bound) {
    b.pick.Some? && (streaming || size <= b.pick.value.maxBody)
  }

  // Another pass follows: the relay was skipped by size, or gave no response
  // while the client of a buffered body waits.
  predicate GoesBy(streaming: bool, size: nat, env: nat -> Bound, n: nat) {
    && Tried(streaming, env, n)
    && (Sent(streaming, size, env(n)) ==> env(n).outcome.NoResponse? && env(n).alive && !streaming)
  }

  // The request ends at pass m.
  predicate EndsAt(streaming: bool, size: nat, env: nat -> Bound, m: nat) {
    (forall i: nat | i < m :: GoesBy(streaming, size, env, i)) && !GoesBy(streaming, size, env, m)
  }

  // How many passes were counted as attempts.
  function Made(streaming: bool, env: nat -> Bound, m: nat): nat {
    if Tried(streaming, env, m) then m + 1 else m
  }

  // Some pass ends it, after at most 17.
  lemma {:induction false} EndsFrom(streaming: bool, size: nat, env: nat -> Bound, n: nat) returns (m: nat)
    requires n <= MAX_RETRIES + 1 && forall i: nat | i < n :: GoesBy(streaming, size, env, i)
    ensures m <= MAX_RETRIES + 1 && EndsAt(streaming, size, env, m)
    decreases MAX_RETRIES + 1 - n
  {
    if GoesBy(streaming, size, env, n) {
      m := EndsFrom(streaming, size, env, n + 1);
    } else {
      m := n;
    }
  }

  // One attempt, as its pass dictates.
  predicate Dictated(streaming: bool, size: nat, b: Bound, a: Attempt) {
    && b.pick == Some(a.target)
    && (a.Skipped? <==> !Sent(streaming, size, b))
    && (Sent(streaming, size, b) ==>
          match b.outcome
          case NoResponse(error) => a == if b.alive then Attempt.Failed(a.target, error) else Abandoned(a.target)
          case Answer(complete) => a == Answered(a.target, complete, b.alive))
  }

  lemma {:induction false} AttemptsFrom(streaming: bool, size: nat, env: nat -> Bound, n: nat, m: nat)
    requires n <= m && EndsAt(streaming, size, env, m)
    ensures var (attempts, exit) := Attempts(streaming, size, env, n);
            && |attempts| == Made(streaming, env, m) - n
            && (forall i | 0 <= i < |attempts| :: Dictated(streaming, size, env(n + i), attempts[i]))
            && exit == (if !Budgeted(streaming, env, m) then Exhausted else if env(m).pick.None? then NoPick else Ended)
    decreases m - n
  {
    if n < m {
      assert GoesBy(streaming, size, env, n);
      AttemptsFrom(streaming, size, env, n + 1, m);
      var (rest, exit) := Attempts(streaming, size, env, n + 1);
      forall i | 0 < i < |rest| + 1
        ensures Dictated(streaming, size, env(n + i), Attempts(streaming, size, env, n).0[i])
      {
        assert Dictated(streaming, size, env(n + 1 + (i - 1)), rest[i - 1]);
      }
    }
  }

  // What the client gets, by the pass at which the request ends: nothing
  // exactly when it is gone and the relay gave no response; the relay's
  // response; 503 without a relay; 502 at once when streaming; and once the
  // budget is out 413 if no pass was sent, else 502 with the last error.
  lemma ReplyByPass(streaming: bool, size: nat, env: nat -> Bound, m: nat)
    requires EndsAt(streaming, size, env, m)
    ensures var b := env(m);
            var (attempts, exit) := Attempts(streaming, size, env, 0);
            var reply := ReplyTo(streaming, attempts, exit);
            && (reply == None <==> Tried(streaming, env, m) && b.outcome.NoResponse? && !b.alive)
            && (Tried(streaming, env, m) && b.outcome.Answer? ==>
                  reply == Some(Relayed(b.pick.value.key, b.outcome.complete)))
            && (Tried(streaming, env, m) && b.outcome.NoResponse? && b.alive ==>
                  streaming && reply == Some(StreamFailed(b.outcome.error)))
            && (Budgeted(streaming, env, m) && b.pick.None? ==> reply == Some(Unavailable))
            && (!Budgeted(streaming, env, m) ==>
                  if forall i: nat | i < m :: !Sent(streaming, size, env(i)) then reply == Some(TooLarge)
                  else exists i: nat | i < m :: LastSilence(streaming, size, env, m, i)
                                                && reply == Some(AllFailed(Some(env(i).outcome.error))))
  {
    hide Attempts, LastError, EndsAt, Sent, GoesBy, ReplyTo, LastSilence;
    if Budgeted(streaming, env, m) {
      ReplyAtPass(streaming, size, env, m);
    } else {
      ReplySpent(streaming, size, env, m);
    }
  }

  lemma ReplyAtPass(streaming: bool, size: nat, env: nat -> Bound, m: nat)
    requires EndsAt(streaming, size, env, m) && Budgeted(streaming, env, m)
    ensures var b := env(m);
            var (attempts, exit) := Attempts(streaming, size, env, 0);
            ReplyTo(streaming, attempts, exit)
            == if b.pick.None? then Some(Unavailable)
               else match b.outcome
                 case Answer(complete) => Some(Relayed(b.pick.value.key, complete))
                 case NoResponse(error) => if b.alive then Some(StreamFailed(error)) else None
    ensures env(m).pick.Some? && env(m).outcome.NoResponse? && env(m).alive ==> streaming
  {
    hide Attempts, LastError, AllSkipped;
    AttemptsFrom(streaming, size, env, 0, m);
    var attempts := Attempts(streaming, size, env, 0).0;
    if env(m).pick.Some? {
      assert Dictated(streaming, size, env(0 + m), attempts[m]);
    }
  }

  lemma ReplySpent(streaming: bool, size: nat, env: nat -> Bound, m: nat)
    requires EndsAt(streaming, size, env, m) && !Budgeted(streaming, env, m)
    ensures var (attempts, exit) := Attempts(streaming, size, env, 0);
            var reply := ReplyTo(streaming, attempts, exit);
            if forall i: nat | i < m :: !Sent(streaming, size, env(i)) then reply == Some(TooLarge)
            else exists i: nat | i < m :: LastSilence(streaming, size, env, m, i)
                                          && reply == Some(AllFailed(Some(env(i).outcome.error)))
  {
    hide Attempts, LastError, Dictated, AllSkipped, Sent, GoesBy, LastSilence;
    AttemptsFrom(streaming, size, env, 0, m);
    var attempts := Attempts(streaming, size, env, 0).0;
    forall i: nat | i < m
      ensures Dictated(streaming, size, env(i), attempts[i]) && GoesBy(streaming, size, env, i)
    {
      assert Dictated(streaming, size, env(0 + i), attempts[i]);
    }
    SilentAttempts(streaming, size, env, attempts);
  }

  // Pass i was the last one sent before m, and its relay gave no response.
  predicate LastSilence(streaming: bool, size: nat, env: nat -> Bound, m: nat, i: nat) {
    && i < m && Sent(streaming, size, env(i)) && env(i).outcome.NoResponse?
    && forall j: nat | i < j < m :: !Sent(streaming, size, env(j))
  }

  lemma SilentAttempts(streaming: bool, size: nat, env: nat -> Bound, attempts: seq<Attempt>)
    requires forall i: nat | i < |attempts| ::
               Dictated(streaming, size, env(i), attempts[i]) && GoesBy(streaming, size, env, i)
    ensures AllSkipped(attempts) <==> forall i: nat | i < |attempts| :: !Sent(streaming, size, env(i))
    ensures !AllSkipped(attempts) ==>
              exists i: nat | i < |attempts| :: LastSilence(streaming, size, env, |attempts|, i)
                                                && LastError(attempts) == Some(env(i).outcome.error)
  {
    hide LastError;
    LastErrorFound(attempts);
    forall i: nat | i < |attempts|
      ensures attempts[i].Skipped? <==> !Sent(streaming, size, env(i))
      ensures attempts[i].Failed? <==> Sent(streaming, size, env(i))
      ensures attempts[i].Failed? ==> env(i).outcome == NoResponse(attempts[i].error)
    {
      assert Dictated(streaming, size, env(i), attempts[i]) && GoesBy(streaming, size, env, i);
    }
    if !AllSkipped(attempts) {
      var i :| 0 <= i < |attempts| && attempts[i].Failed? && attempts[i].error == LastError(attempts).value
               && forall j | i < j < |attempts| :: !attempts[j].Failed?;
      assert LastSilence(streaming, size, env, |attempts|, i);
    }
  }

  // -------------------------------------------------------- what is recorded

  datatype Kind = Begins | Ends | Answers | Completes | Fails | Breaks

  // The event of that kind on k.
  function Recorded(kind: Kind, k: Key): Event {
    match kind
    case Begins => Begin(k)
    case Ends => End(k)
    case Answers => Counted(k)
    case Completes => Success(k)
    case Fails => Failure(k)
    case Breaks => Midstream(k)
  }

  // Whether a pass on k has one.
  predicate Is(kind: Kind, streaming: bool, size: nat, b: Bound, k: Key) {
    && b.pick.Some? && b.pick.value.key == k
    && match kind
       case Begins => true
       case Ends => true
       case Answers => Sent(streaming, size, b) && b.outcome.Answer?
       case Completes => Sent(streaming, size, b) && b.alive && b.outcome == Answer(true)
       case Fails => Sent(streaming, size, b) && b.alive && b.outcome != Answer(true)
       case Breaks => Sent(streaming, size, b) && b.alive && b.outcome == Answer(false)
  }

  function Passes(kind: Kind, streaming: bool, size: nat, env: nat -> Bound, n: nat, k: Key): nat {
    if n == 0 then 0
    else Passes(kind, streaming, size, env, n - 1, k) + One(Is(kind, streaming, size, env(n - 1), k))
  }

  function One(b: bool): nat {
    if b then 1 else 0
  }

  // The events of an answered attempt.
  lemma AnsweredLog(a: Attempt)
    requires a.Answered?
    ensures var j := a.target.key;
            multiset(AttemptLog(a))
            == multiset{Begin(j), Counted(j), Wrote(Relayed(j, a.complete)), End(j)}
               + (if !a.alive then multiset{} else if a.complete then multiset{Success(j)}
                  else multiset{Failure(j), Midstream(j)})
  {
    var j := a.target.key;
    var head := [Begin(j), Counted(j), Wrote(Relayed(j, a.complete)), End(j)];
    assert AttemptLog(a) == head + AttemptLog(a)[4..];
  }

  lemma UnansweredLog(a: Attempt)
    requires !a.Answered?
    ensures var j := a.target.key;
            multiset(AttemptLog(a))
            == multiset{Begin(j), End(j)} + (if a.Failed? then multiset{Failure(j)} else multiset{})
  {
  }

  lemma AttemptRecorded(kind: Kind, streaming: bool, size: nat, b: Bound, a: Attempt, k: Key)
    requires Dictated(streaming, size, b, a)
    ensures multiset(AttemptLog(a))[Recorded(kind, k)] == One(Is(kind, streaming, size, b, k))
  {
    hide AttemptLog;
    if a.Answered? {
      AnsweredLog(a);
    } else {
      UnansweredLog(a);
    }
  }

  lemma {:induction false} AttemptsRecorded(
    kind: Kind, streaming: bool, size: nat, env: nat -> Bound, attempts: seq<Attempt>, k: Key)
    requires forall i: nat | i < |attempts| :: Dictated(streaming, size, env(i), attempts[i])
    ensures multiset(Logs(attempts))[Recorded(kind, k)] == Passes(kind, streaming, size, env, |attempts|, k)
  {
    hide AttemptLog, Dictated, Is, Recorded;
    if attempts != [] {
      var n := |attempts| - 1;
      var front, a := attempts[..n], attempts[n];
      AttemptsRecorded(kind, streaming, size, env, front, k);
      AttemptRecorded(kind, streaming, size, env(n), a, k);
      assert multiset(Logs(attempts)) == multiset(Logs(front)) + multiset(AttemptLog(a));
    }
  }

  // What a request records of a relay: a begin and an end per attempt on it, a
  // count per answer, a success exactly when the body was complete and the
  // client still there, and a failure exactly when it was there and either no
  // response came or the body broke.
  lemma RecordedByPass(kind: Kind, streaming: bool, size: nat, env: nat -> Bound, m: nat, k: Key)
    requires EndsAt(streaming, size, env, m)
    ensures multiset(FullLog(streaming, size, env))[Recorded(kind, k)]
         == Passes(kind, streaming, size, env, Made(streaming, env, m), k)
  {
    hide Attempts, Logs, Dictated, Passes, ReplyTo, EndsAt, Made;
    AttemptsFrom(streaming, size, env, 0, m);
    var (attempts, exit) := Attempts(streaming, size, env, 0);
    forall i: nat | i < |attempts|
      ensures Dictated(streaming, size, env(i), attempts[i])
    {
      assert Dictated(streaming, size, env(0 + i), attempts[i]);
    }
    AttemptsRecorded(kind, streaming, size, env, attempts, k);
    var own := OwnReply(ReplyTo(streaming, attempts, exit));
    assert multiset(FullLog(streaming, size, env)) == multiset(Logs(attempts)) + multiset(own);
  }

  // And it writes exactly the reply it owes, once, or nothing.
  lemma WrittenByPass(streaming: bool, size: nat, env: nat -> Bound, reply: Reply)
    ensures var (attempts, exit) := Attempts(streaming, size, env, 0);
            multiset(FullLog(streaming, size, env))[Wrote(reply)]
            == One(ReplyTo(streaming, attempts, exit) == Some(reply))
  {
    hide Attempts, Logs;
    var (attempts, exit) := Attempts(streaming, size, env, 0);
    OnlyTheLast(streaming, size, env, 0);
    ReplyClassified(streaming, size, env);
    WrittenInAttempts(attempts, reply);
    var own := OwnReply(ReplyTo(streaming, attempts, exit));
    assert multiset(FullLog(streaming, size, env)) == multiset(Logs(attempts)) + multiset(own);
  }

  lemma {:induction false} WrittenInAttempts(attempts: seq<Attempt>, reply: Reply)
    requires forall i | 0 <= i < |attempts| - 1 :: !attempts[i].Answered?
    ensures multiset(Logs(attempts))[Wrote(reply)]
         == One(attempts != [] && attempts[|attempts| - 1].Answered?
                && reply == Relayed(attempts[|attempts| - 1].target.key, attempts[|attempts| - 1].complete))
  {
    if attempts != [] {
      var front, a := attempts[..|attempts| - 1], attempts[|attempts| - 1];
      assert front != [] ==> front[|front| - 1] == attempts[|attempts| - 2];
      WrittenInAttempts(front, reply);
      WrittenInAttempt(a, reply);
      assert multiset(Logs(attempts)) == multiset(Logs(front)) + multiset(AttemptLog(a));
    }
  }

  lemma WrittenInAttempt(a: Attempt, reply: Reply)
    ensures multiset(AttemptLog(a))[Wrote(reply)] == One(a.Answered? && reply == Relayed(a.target.key, a.complete))
  {
    hide AttemptLog;
    if a.Answered? {
      AnsweredLog(a);
    } else {
      UnansweredLog(a);
    }
  }
}
