// What the invariant says of every run: the safety statements of the rollout
// protocol, and the run that shows where the drain barrier does not apply.
module ProtocolTheorems {
  import opened Readiness
  import opened ReadinessLaws
  import opened Protocol
  import opened ProtocolInvariant
  import opened ProtocolWorkers
  import opened ProtocolSteps
  import opened ProtocolRuns

  function After(raw: RawSettings, sequential: bool, ls: seq<Label>, hash: Scope -> Text): System {
    Protocol.Run(Start(raw, sequential), ls, hash)
  }

  lemma AfterInv(hash: Scope -> Text, raw: RawSettings, sequential: bool, ls: seq<Label>)
    ensures Inv(hash, After(raw, sequential, ls, hash))
  {
    hide Inv, Start;
    RunKeeps(hash, raw, sequential, ls);
  }

  // A relay no request can reach: out of the installed pool, nothing in flight.
  predicate OutOfService(s: System, k: Key) {
    k !in s.serving.pool && Count(s.inflight, k) == 0 && Of(s.attempts, k) == {}
  }

  lemma ClearIsOutOfService(hash: Scope -> Text, s: System, pid: nat)
    requires Inv(hash, s) && pid in s.procs && Clear(s.procs[pid].pc) && Bound(s.procs[pid])
    ensures OutOfService(s, s.procs[pid].key)
  {
    hide RegistryOk, ProcOk, QuietOk, SnapshotOk, EntryRight, AdmissionProved;
    var p := s.procs[pid];
    QuietPart(hash, s, pid);
    QuietFacts(s, p);
    ClearedOutOfPool(s, p);
    assert Count(s.inflight, p.key) == |Of(s.attempts, p.key)|;
  }

  // The rollout barrier: from the drained barrier to the rollout's own verdict,
  // the deploy call included, an obliged rollout's relay is out of service.
  lemma RolloutBarrier(hash: Scope -> Text, raw: RawSettings, sequential: bool, ls: seq<Label>, pid: nat)
    requires pid in After(raw, sequential, ls, hash).procs
    ensures var s := After(raw, sequential, ls, hash); var p := s.procs[pid];
            DeployPc(p.pc) && Obliged(p) ==> p.drained && OutOfService(s, p.key)
  {
    hide Inv, After, OutOfService;
    var s := After(raw, sequential, ls, hash);
    AfterInv(hash, raw, sequential, ls);
    if DeployPc(s.procs[pid].pc) && Obliged(s.procs[pid]) {
      OwedPart(hash, s, pid);
      ClearIsOutOfService(hash, s, pid);
    }
  }

  lemma OwedPart(hash: Scope -> Text, s: System, pid: nat)
    requires Inv(hash, s) && pid in s.procs
    ensures OwedOk(s.reg, s.procs[pid]) && HoldOk(s.reg, s.sequential, s.procs[pid])
    ensures PurgedOk(s.reg, s.procs[pid]) && ReadsOk(s.reg, s.procs[pid])
  {
    assert ProcOk(s, s.procs[pid]);
  }

  // When the obligation is decided, it is exactly what the registry holds: the
  // relay serves, owes a drain, or carries an unspent scope-change marker.
  lemma ObligationExact(hash: Scope -> Text, raw: RawSettings, sequential: bool, ls: seq<Label>, pid: nat)
    requires var s := After(raw, sequential, ls, hash);
             pid in s.procs && s.procs[pid].pc.TakeMarker? && Tracked(s.reg, s.procs[pid])
    ensures var s := After(raw, sequential, ls, hash);
            var p := s.procs[pid];
            var e := s.reg.entries[p.key];
            Obliged(TakeMarkerMove(s.reg, p).p) <==> e.serving || e.record.drainPending || e.scopeChanged
  {
    hide Inv, After;
    var s := After(raw, sequential, ls, hash);
    AfterInv(hash, raw, sequential, ls);
    OwedPart(hash, s, pid);
  }

  // Delete safety: while a remote delete is in progress its relay is out of
  // service, and the registry still holds the captured entry object; unless a
  // reload re-added it meanwhile, that entry is labelled removing. With one
  // pass at a time no reload comes between.
  lemma DeleteSafety(hash: Scope -> Text, raw: RawSettings, sequential: bool, ls: seq<Label>, pid: nat)
    requires pid in After(raw, sequential, ls, hash).procs
    ensures var s := After(raw, sequential, ls, hash); var p := s.procs[pid];
            p.pc.DeleteActive? ==>
              && OutOfService(s, p.key)
              && p.key in s.reg.entries && s.reg.entries[p.key].id == p.id && s.reg.entries[p.key].busy
              && !s.reg.entries[p.key].serving
              && (Tracked(s.reg, p) ==> s.reg.entries[p.key].record.state == Removing)
              && (sequential ==> s.reg.entries[p.key].record.state == Removing)
  {
    hide Inv, After, OutOfService;
    var s := After(raw, sequential, ls, hash);
    AfterInv(hash, raw, sequential, ls);
    RunSequential(hash, raw, sequential, ls);
    if s.procs[pid].pc.DeleteActive? {
      OwedPart(hash, s, pid);
      QuietPart(hash, s, pid);
      ClearIsOutOfService(hash, s, pid);
    }
  }

  lemma StepSequential(hash: Scope -> Text, s: System, l: Label)
    ensures Step(s, l, hash).sequential == s.sequential
  {
    hide WorkerMove, AfterSync, AfterUpdateSettings, PoolOf, Begun, Ended, Serving, Idle, Lost;
  }

  lemma {:induction false} RunSequential(hash: Scope -> Text, raw: RawSettings, sequential: bool, ls: seq<Label>)
    ensures After(raw, sequential, ls, hash).sequential == sequential
  {
    hide Step;
    if ls != [] {
      RunSequential(hash, raw, sequential, ls[..|ls| - 1]);
      StepSequential(hash, After(raw, sequential, ls[..|ls| - 1], hash), ls[|ls| - 1]);
    }
  }

  // The platform is being changed for this worker's relay.
  predicate Touching(p: Proc) {
    p.pc.DeployActive? || p.pc.DeleteActive?
  }

  // No deploy overlaps a delete or another deploy of the same relay, whatever
  // was purged and re-created in between.
  lemma NoOverlap(hash: Scope -> Text, raw: RawSettings, sequential: bool, ls: seq<Label>, a: nat, b: nat)
    requires var s := After(raw, sequential, ls, hash); a in s.procs && b in s.procs && a != b
    ensures var s := After(raw, sequential, ls, hash);
            Touching(s.procs[a]) && Touching(s.procs[b]) ==> s.procs[a].key != s.procs[b].key
  {
    hide After, ProcOk, RegistryOk, ApplierOk, EntriesOk, CountsOk, AttemptsOk;
    var s := After(raw, sequential, ls, hash);
    AfterInv(hash, raw, sequential, ls);
    TouchingHolds(hash, s, a);
    TouchingHolds(hash, s, b);
  }

  lemma TouchingHolds(hash: Scope -> Text, s: System, pid: nat)
    requires Inv(hash, s) && pid in s.procs
    ensures Touching(s.procs[pid]) ==> Holding(s.procs[pid])
  {
    OwedPart(hash, s, pid);
  }

  // ABA safety: a holder's key names the very entry object it captured, so a
  // completion that takes effect takes effect there and in that incarnation.
  lemma CompletionHitsItsOwnEntry(hash: Scope -> Text, raw: RawSettings, sequential: bool, ls: seq<Label>, pid: nat)
    requires var s := After(raw, sequential, ls, hash); pid in s.procs && Holding(s.procs[pid])
    ensures var s := After(raw, sequential, ls, hash);
            var p := s.procs[pid];
            && p.key in s.reg.entries && s.reg.entries[p.key].id == p.id && s.reg.entries[p.key].busy
            && (Current(s.reg, p.key, p.generation) <==> s.reg.entries[p.key].record.generation == p.generation)
            && p.generation <= s.reg.entries[p.key].record.generation
            && (sequential ==> Current(s.reg, p.key, p.generation))
  {
    hide Inv, After;
    var s := After(raw, sequential, ls, hash);
    AfterInv(hash, raw, sequential, ls);
    RunSequential(hash, raw, sequential, ls);
    OwedPart(hash, s, pid);
  }

  // A release that comes after its entry was purged frees nobody's hold.
  lemma StaleReleaseIsVoid(hash: Scope -> Text, raw: RawSettings, sequential: bool, ls: seq<Label>, pid: nat)
    requires var s := After(raw, sequential, ls, hash); pid in s.procs && s.procs[pid].purged
    ensures var s := After(raw, sequential, ls, hash); var p := s.procs[pid];
            AfterRelease(s.reg, Hold(p.key, p.id, p.generation)) == s.reg
  {
    hide Inv, After;
    var s := After(raw, sequential, ls, hash);
    AfterInv(hash, raw, sequential, ls);
    OwedPart(hash, s, pid);
  }

  // Settle soundness: what settle waits for is a lower bound on the age of the
  // installed pool; once every notification is applied the pool's snapshot has
  // exactly the registry's serving keys and generations.
  lemma SettleSound(hash: Scope -> Text, raw: RawSettings, sequential: bool, ls: seq<Label>)
    ensures var s := After(raw, sequential, ls, hash);
            && s.applied <= s.serving.snap.at <= s.reg.notifySeq
            && (s.applied == s.reg.notifySeq ==> Incarnations(s.serving.snap) == View(s.reg.entries))
            && (forall k | k in s.serving.pool ::
                  k in s.serving.snap.members && s.serving.pool[k] == s.serving.snap.members[k])
  {
    hide After, ProcsOk, RegistryOk, EntriesOk, CountsOk, AttemptsOk, AdmissionProved;
    AfterInv(hash, raw, sequential, ls);
  }

  // When settle answers true, the installed pool was built from a snapshot taken
  // after every notification counted at its entry, and none of those was older
  // than the caller's own last step.
  lemma SettleAnswers(hash: Scope -> Text, raw: RawSettings, sequential: bool, ls: seq<Label>, pid: nat)
    requires var s := After(raw, sequential, ls, hash);
             pid in s.procs && (s.procs[pid].pc.SettleWait? || s.procs[pid].pc.DeleteWait?)
    ensures var s := After(raw, sequential, ls, hash);
            var p := s.procs[pid];
            s.applied >= p.target ==> p.mark <= p.target <= s.serving.snap.at && p.key !in s.serving.pool
  {
    hide Inv, After;
    var s := After(raw, sequential, ls, hash);
    AfterInv(hash, raw, sequential, ls);
    QuietPart(hash, s, pid);
    SettleSound(hash, raw, sequential, ls);
  }

  // A worker past its settle barrier looks at a pool built after its mark, and
  // its relay is not in it.
  lemma SettledExcludes(hash: Scope -> Text, raw: RawSettings, sequential: bool, ls: seq<Label>, pid: nat)
    requires var s := After(raw, sequential, ls, hash);
             pid in s.procs && Settled(s.procs[pid].pc) && Bound(s.procs[pid])
    ensures var s := After(raw, sequential, ls, hash);
            var p := s.procs[pid];
            p.mark <= s.serving.snap.at && p.key !in s.serving.pool
  {
    hide Inv, After;
    var s := After(raw, sequential, ls, hash);
    AfterInv(hash, raw, sequential, ls);
    QuietPart(hash, s, pid);
    SettleSound(hash, raw, sequential, ls);
  }

  // Verified-only serving: every pool member, and every request under way,
  // travels under an admission that a verification passed for, on exactly that
  // URL and key, in that incarnation of that very entry object, with no end of
  // its admission or incarnation between the verdict and the snapshot.
  lemma VerifiedOnly(hash: Scope -> Text, raw: RawSettings, sequential: bool, ls: seq<Label>)
    ensures var s := After(raw, sequential, ls, hash);
            && s.serving.snap.logged <= |s.log|
            && (forall k | k in s.serving.pool ::
                  AdmissionProved(s.log, s.serving.snap.logged, k, IdIn(s.serving.snap, k), s.serving.pool[k]))
            && (forall aid | aid in s.attempts ::
                  var a := s.attempts[aid];
                  a.logged <= |s.log| && AdmissionProved(s.log, a.logged, a.key, a.id, a.admission))
  {
    hide After, ProcsOk, RegistryOk, EntriesOk, CountsOk, AdmissionProved;
    AfterInv(hash, raw, sequential, ls);
  }

  // What the log records: no admission or incarnation ends in any step without
  // an entry for it. So nothing above crosses a removal, a re-add, a flip or a
  // purge.
  lemma EndsAreLogged(hash: Scope -> Text, s: System, l: Label, k: Key)
    requires k in s.reg.entries && !Continues(s.reg, Step(s, l, hash).reg, k)
    ensures var s' := Step(s, l, hash);
            && s.log <= s'.log
            && exists j :: |s.log| <= j < |s'.log| && s'.log[j].Revocation? && k in s'.log[j].keys
  {
    hide WorkerMove, AfterSync, AfterUpdateSettings, PoolOf, Serving, Idle, Continues, Spawned, AttemptOn, SnapshotOf,
      Begun, Ended;
    var s' := Step(s, l, hash);
    assert l.SpawnEnsure? || l.SpawnDelete? ==> s'.reg == s.reg by {
      SpawnsAside(s, l, hash);
    }
    Unchanged(s, s', k);
    assert s'.log[|s'.log| - 1].Revocation? && k in s'.log[|s'.log| - 1].keys;
  }

  lemma SpawnsAside(s: System, l: Label, hash: Scope -> Text)
    ensures l.SpawnEnsure? || l.SpawnDelete? ==> Step(s, l, hash).reg == s.reg
  {
  }

  lemma Unchanged(s: System, s': System, k: Key)
    requires k in s.reg.entries
    ensures s'.reg == s.reg ==> Continues(s.reg, s'.reg, k)
  {
  }

  // The in-flight count is the number of attempts between begin and end.
  lemma CountExact(hash: Scope -> Text, raw: RawSettings, sequential: bool, ls: seq<Label>, k: Key)
    ensures var s := After(raw, sequential, ls, hash); Count(s.inflight, k) == |Of(s.attempts, k)|
  {
    hide After, ProcsOk, RegistryOk, EntriesOk, AttemptsOk, ApplierOk;
    AfterInv(hash, raw, sequential, ls);
  }

  // k is in no pool installed along the way.
  predicate NeverInstalled(s: System, ls: seq<Label>, hash: Scope -> Text, k: Key) {
    forall n: nat | n <= |ls| :: k !in Protocol.Run(s, ls[..n], hash).serving.pool
  }

  lemma StepIdle(hash: Scope -> Text, s: System, l: Label, k: Key)
    requires k !in s.serving.pool && Count(s.inflight, k) == 0
    ensures Count(Step(s, l, hash).inflight, k) == 0
  {
    hide WorkerMove, AfterSync, AfterUpdateSettings, PoolOf, Serving, Idle, Lost;
  }

  // Drain exactness: an idle relay outside the pool stays idle until some pool
  // with it is installed.
  lemma {:induction false} DrainedStaysDrained(hash: Scope -> Text, s: System, ls: seq<Label>, k: Key)
    requires Count(s.inflight, k) == 0 && NeverInstalled(s, ls, hash, k)
    ensures Count(Protocol.Run(s, ls, hash).inflight, k) == 0
  {
    hide Step, Count;
    if ls != [] {
      var front := ls[..|ls| - 1];
      assert NeverInstalled(s, front, hash, k) by {
        forall n: nat | n <= |front|
          ensures k !in Protocol.Run(s, front[..n], hash).serving.pool
        {
          assert front[..n] == ls[..n];
        }
      }
      DrainedStaysDrained(hash, s, front, k);
      assert front == ls[..|front|];
      StepIdle(hash, Protocol.Run(s, front, hash), ls[|ls| - 1], k);
    }
  }

  // The obligation is conserved: a rollout that began with one has drained, or
  // leaves the marker for the next pass unless its incarnation is over.
  lemma ObligationConserved(hash: Scope -> Text, raw: RawSettings, sequential: bool, ls: seq<Label>, pid: nat)
    requires var s := After(raw, sequential, ls, hash); pid in s.procs && s.procs[pid].pc.ReleaseHold?
    ensures var s := After(raw, sequential, ls, hash);
            var p := s.procs[pid];
            p.began && Obliged(p) && !p.drained && !p.purged ==>
              && p.key in s.reg.entries && s.reg.entries[p.key].id == p.id
              && (s.reg.entries[p.key].record.drainPending || s.reg.entries[p.key].record.generation > p.generation)
              && (sequential ==> s.reg.entries[p.key].record.drainPending)
  {
    hide Inv, After;
    var s := After(raw, sequential, ls, hash);
    AfterInv(hash, raw, sequential, ls);
    RunSequential(hash, raw, sequential, ls);
    OwedPart(hash, s, pid);
  }
}
