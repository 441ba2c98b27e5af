// What one step of a worker does to the protocol invariant, by kind of step.
module ProtocolWorkers {
  import opened Readiness
  import opened ReadinessLaws
  import opened Protocol
  import opened ProtocolInvariant

  // ------------------------------------------- a holder's registry calls

  // A call of the holder on its own entry: identity, hold and incarnation
  // stand, and admission can only be lost.
  ghost predicate Inner(r: Registry, r': Registry, k: Key) {
    && k in r.entries && r'.entries.Keys == r.entries.Keys && r'.nextId == r.nextId
    && (forall j | j in r.entries && j != k :: r'.entries[j] == r.entries[j])
    && r'.entries[k].id == r.entries[k].id
    && r'.entries[k].busy == r.entries[k].busy
    && r'.entries[k].record.generation == r.entries[k].record.generation
    && (r'.entries[k].serving ==> r.entries[k].serving && r'.entries[k].endpoint == r.entries[k].endpoint)
  }

  predicate SameDrain(r: Registry, r': Registry, k: Key) {
    k in r.entries && k in r'.entries && r'.entries[k].record.drainPending == r.entries[k].record.drainPending
  }

  ghost predicate Held(hash: Scope -> Text, r: Registry, r': Registry, k: Key) {
    Kept(hash, r, r') && Inner(r, r', k)
  }

  lemma FailingHeld(hash: Scope -> Text, r: Registry, k: Key, g: nat, reason: Reason, d: int, now: Clock)
    requires RegistryOk(hash, r) && k in r.entries
    ensures var r' := AfterFailing(r, k, g, reason, d, now); Held(hash, r, r', k) && SameDrain(r, r', k)
  {
    hide RegistryOk, Announced;
    FailingKeeps(hash, r, k, g, reason, d, now);
    if Current(r, k, g) {
      MissedInner(r, k, Missed(r.entries[k].record, reason, d, now), now);
    }
  }

  lemma MissedInner(r: Registry, k: Key, rec: Record, now: Clock)
    requires k in r.entries && rec.generation == r.entries[k].record.generation
    requires rec.drainPending == r.entries[k].record.drainPending
    ensures Inner(r, AfterMissed(r, k, rec, now), k) && SameDrain(r, AfterMissed(r, k, rec, now), k)
  {
    var e := r.entries[k];
    if !e.serving && rec.state == Paused {
      InstallInner(r, k, Scored(e, rec, now + r.cfg.pauseRetry), false);
    } else if !e.serving {
      MissInner(r, k, rec, now);
    } else if rec.failStreak < r.cfg.demoteAfter {
      InstallInner(r, k, Scored(e, rec, Gate(r.cfg, rec.failStreak, r.readyCount, now)), false);
    } else {
      RevocationInner(r, k, rec, now);
    }
  }

  lemma MissInner(r: Registry, k: Key, rec: Record, now: Clock)
    requires k in r.entries && rec.generation == r.entries[k].record.generation
    requires rec.drainPending == r.entries[k].record.drainPending
    ensures var r' := AfterMiss(r, k, rec, now);
            Inner(r, r', k) && SameDrain(r, r', k) && r'.entries[k].serving == r.entries[k].serving
  {
    var gate := Gate(r.cfg, rec.failStreak, r.readyCount, now);
    InstallInner(r, k, Scored(r.entries[k], rec, gate), false);
    InstallInner(r, k, Scored(r.entries[k], Relabelled(rec, Failed, now), gate), true);
  }

  lemma RevocationInner(r: Registry, k: Key, rec: Record, now: Clock)
    requires k in r.entries && rec.generation == r.entries[k].record.generation
    requires rec.drainPending == r.entries[k].record.drainPending
    ensures var r' := AfterRevocation(r, k, rec, now);
            Inner(r, r', k) && SameDrain(r, r', k) && !r'.entries[k].serving
  {
  }

  lemma InstallInner(r: Registry, k: Key, e: Entry, notify: bool)
    requires k in r.entries && e.id == r.entries[k].id && e.busy == r.entries[k].busy
    requires e.record.generation == r.entries[k].record.generation
    requires e.serving ==> r.entries[k].serving && e.endpoint == r.entries[k].endpoint
    ensures var r' := Install(r, k, e, notify);
            && Inner(r, r', k) && r'.entries[k] == e
            && (SameDrain(r, r', k) <==> e.record.drainPending == r.entries[k].record.drainPending)
  {
  }

  lemma DemoteHeld(hash: Scope -> Text, r: Registry, k: Key, g: nat, reason: Reason, now: Clock)
    requires RegistryOk(hash, r) && k in r.entries
    ensures var r' := AfterDemote(r, k, g, reason, now);
            Held(hash, r, r', k) && SameDrain(r, r', k) && (Current(r, k, g) ==> !r'.entries[k].serving)
  {
    hide RegistryOk, Announced;
    DemoteKeeps(hash, r, k, g, reason, now);
    if Current(r, k, g) {
      var rec := Attempted(r.entries[k].record, reason, now).(failStreak := r.cfg.demoteAfter);
      if r.entries[k].serving {
        RevocationInner(r, k, rec, now);
      } else {
        MissInner(r, k, rec, now);
      }
    }
  }

  lemma PauseHeld(hash: Scope -> Text, r: Registry, k: Key, g: nat, reason: Reason, now: Clock)
    requires RegistryOk(hash, r) && k in r.entries
    ensures var r' := AfterPause(r, k, g, reason, now); Held(hash, r, r', k) && SameDrain(r, r', k)
  {
    hide RegistryOk, Announced;
    PauseKeeps(hash, r, k, g, reason, now);
    if Current(r, k, g) {
      var e := r.entries[k];
      var rec := Attempted(e.record, reason, now);
      var paused := if rec.state != Paused then Relabelled(rec, Paused, now) else rec;
      InstallInner(r, k, Revoked(e, paused, now + r.cfg.pauseRetry), true);
    }
  }

  lemma EnterInner(r: Registry, k: Key, g: nat, state: State, reason: Reason, now: Clock)
    requires k in r.entries
    ensures var r' := AfterEnter(r, k, g, state, reason, now);
            Inner(r, r', k) && SameDrain(r, r', k) && r'.entries[k].serving == r.entries[k].serving
  {
    var e := r.entries[k];
    if AfterEnter(r, k, g, state, reason, now) != r {
      var changed := e.record.state != state || e.record.reason != reason;
      InstallInner(r, k, EnteredEntry(e, state, reason, now), changed && state != Discovering);
    }
  }

  lemma EnterHeld(hash: Scope -> Text, r: Registry, k: Key, g: nat, state: State, reason: Reason, now: Clock)
    requires RegistryOk(hash, r) && k in r.entries && EnterPhase(state)
    ensures var r' := AfterEnter(r, k, g, state, reason, now);
            Held(hash, r, r', k) && SameDrain(r, r', k) && r'.entries[k].serving == r.entries[k].serving
  {
    hide RegistryOk, Announced, Inner, AfterEnter;
    EnterKeeps(hash, r, k, g, state, reason, now);
    EnterInner(r, k, g, state, reason, now);
  }

  lemma TakenHeld(hash: Scope -> Text, r: Registry, k: Key, g: nat)
    requires RegistryOk(hash, r) && k in r.entries
    ensures var r' := AfterTakeScopeChanged(r, k, g).0;
            Held(hash, r, r', k) && SameDrain(r, r', k) && r'.entries[k].serving == r.entries[k].serving
  {
    hide RegistryOk, Announced;
    FlagKeeps(hash, r, TakeScopeChanged(k, g));
    if Current(r, k, g) {
      InstallInner(r, k, r.entries[k].(scopeChanged := false), false);
    }
  }

  lemma DeferredHeld(hash: Scope -> Text, r: Registry, k: Key, g: nat)
    requires RegistryOk(hash, r) && k in r.entries
    ensures var r' := AfterDeferDrain(r, k, g);
            && Held(hash, r, r', k) && (Current(r, k, g) ==> r'.entries[k].record.drainPending)
            && r'.entries[k].serving == r.entries[k].serving
  {
    hide RegistryOk, Announced;
    FlagKeeps(hash, r, DeferDrain(k, g));
    if Current(r, k, g) {
      InstallInner(r, k, r.entries[k].(record := r.entries[k].record.(drainPending := true)), false);
    }
  }

  lemma DrainedHeld(hash: Scope -> Text, r: Registry, k: Key, g: nat)
    requires RegistryOk(hash, r) && k in r.entries
    ensures var r' := AfterDrainCompleted(r, k, g);
            Held(hash, r, r', k) && r'.entries[k].serving == r.entries[k].serving
  {
    hide RegistryOk, Announced;
    FlagKeeps(hash, r, DrainCompleted(k, g));
    if Current(r, k, g) {
      InstallInner(r, k, r.entries[k].(record := r.entries[k].record.(drainPending := false)), false);
    }
  }

  lemma DeleteFailedInner(r: Registry, k: Key, g: nat, reason: Reason, now: Clock)
    requires k in r.entries
    ensures var r' := AfterDeleteFailed(r, k, g, reason, now); Inner(r, r', k) && SameDrain(r, r', k)
  {
    if Current(r, k, g) && r.entries[k].record.state == Removing {
      var e := r.entries[k];
      var rec := e.record.(failStreak := e.record.failStreak + 1, reason := reason);
      InstallInner(r, k, Scored(e, rec, Gate(r.cfg, rec.failStreak, r.readyCount, now)), false);
    }
  }

  lemma DeleteFailedHeld(hash: Scope -> Text, r: Registry, k: Key, g: nat, reason: Reason, now: Clock)
    requires RegistryOk(hash, r) && k in r.entries
    ensures var r' := AfterDeleteFailed(r, k, g, reason, now); Held(hash, r, r', k) && SameDrain(r, r', k)
  {
    hide RegistryOk, Announced, Inner, AfterDeleteFailed;
    DeleteFailedKeeps(hash, r, k, g, reason, now);
    DeleteFailedInner(r, k, g, reason, now);
  }

  // -------------------------------------------- what each place asks for

  lemma OutsideOk(s: System, p: Proc)
    requires !Holding(p) && !p.purged && (p.pc.Done? || !p.began)
    ensures ProcOk(s, p)
  {
  }

  // Nothing read yet, or only read.
  predicate Looking(pc: Pc) {
    pc.Recheck? || pc.Resolve? || pc.ReadServing? || pc.ReadDrain? || pc.EnterDiscovering? || pc.Discover?
    || pc.NoteMissing? || pc.Probe? || pc.TakeMarker?
  }

  lemma LookingOk(s: System, p: Proc)
    requires HoldOk(s.reg, s.sequential, p) && PurgedOk(s.reg, p) && ReadsOk(s.reg, p) && !p.began && Looking(p.pc)
    ensures ProcOk(s, p)
  {
  }

  lemma JudgingOk(s: System, p: Proc)
    requires HoldOk(s.reg, s.sequential, p) && PurgedOk(s.reg, p) && ReadsOk(s.reg, p) && VerdictOk(s, p)
    requires !p.began && p.pc.Judge?
    ensures ProcOk(s, p)
  {
  }

  lemma RevokingOk(s: System, p: Proc)
    requires HoldOk(s.reg, s.sequential, p) && PurgedOk(s.reg, p) && ReadsOk(s.reg, p) && p.pc.Revoke?
    ensures ProcOk(s, p)
  {
  }

  predicate Waits(pc: Pc) {
    pc.SettleTarget? || pc.SettleWait? || pc.Drain? || pc.MarkUnready? || pc.Defer? || pc.DrainDone?
  }

  lemma WaitingOk(s: System, p: Proc)
    requires HoldOk(s.reg, s.sequential, p) && PurgedOk(s.reg, p) && QuietOk(s, p) && Waits(p.pc)
    ensures ProcOk(s, p)
  {
  }

  lemma DeployingOk(s: System, p: Proc)
    requires HoldOk(s.reg, s.sequential, p) && PurgedOk(s.reg, p) && QuietOk(s, p) && VerdictOk(s, p)
    requires DeployPc(p.pc) && (Obliged(p) ==> p.drained)
    ensures ProcOk(s, p)
  {
  }

  lemma DeletingOk(s: System, p: Proc)
    requires HoldOk(s.reg, s.sequential, p) && PurgedOk(s.reg, p) && QuietOk(s, p) && ReadsOk(s.reg, p) && !p.began
    requires DeletePc(p.pc) && Holding(p)
    ensures ProcOk(s, p)
  {
  }

  lemma ReleaseOk(s: System, p: Proc)
    requires p.pc.ReleaseHold? && HoldOk(s.reg, s.sequential, p) && PurgedOk(s.reg, p) && OwedOk(s.reg, p)
    ensures ProcOk(s, p)
  {
  }

  // ----------------------------------------------------- kinds of step

  lemma Parts(hash: Scope -> Text, s: System, pid: nat)
    requires Inv(hash, s) && pid in s.procs
    ensures var p := s.procs[pid];
            && RegistryOk(hash, s.reg) && ProcsOk(s) && EntriesOk(s) && ApplierOk(s)
            && HoldOk(s.reg, s.sequential, p) && PurgedOk(s.reg, p)
            && QuietOk(s, p) && ReadsOk(s.reg, p) && VerdictOk(s, p) && OwedOk(s.reg, p)
  {
    assert ProcOk(s, s.procs[pid]);
  }

  // A holder's step that admits nothing.
  lemma InnerKeeps(hash: Scope -> Text, s: System, pid: nat, m: Move)
    requires Inv(hash, s) && pid in s.procs && Holding(s.procs[pid]) && m.p.key == s.procs[pid].key
    requires Held(hash, s.reg, m.reg, m.p.key) && Verdicts(m.said)
    requires SameDrain(s.reg, m.reg, m.p.key) || !m.reg.entries[m.p.key].serving
    requires ProcOk(Committed(s, pid, m), m.p)
    ensures Inv(hash, Committed(s, pid, m))
  {
    hide ProcOk;
    InnerEntryRight(s, pid, m);
    CommitKeeps(hash, s, pid, m);
  }

  lemma InnerEntryRight(s: System, pid: nat, m: Move)
    requires EntriesOk(s) && Inner(s.reg, m.reg, m.p.key) && Verdicts(m.said)
    requires SameDrain(s.reg, m.reg, m.p.key) || !m.reg.entries[m.p.key].serving
    ensures EntryRight(Committed(s, pid, m), m.p.key)
  {
    var s', k := Committed(s, pid, m), m.p.key;
    var e, e' := s.reg.entries[k], m.reg.entries[k];
    var more := m.said + [Revocation(Lost(s.reg, m.reg))];
    assert s'.log == s.log + more;
    assert EntryRight(s, k);
    if e'.serving {
      assert Spares(more, k);
      ProvedStands(s.log, more, k, e.id, e.record.generation, e.endpoint.value);
    }
  }

  // Still the same worker on the same entry.
  predicate SameHold(p: Proc, p': Proc) {
    p'.key == p.key && p'.id == p.id && p'.generation == p.generation && p'.purged == p.purged
    && Holding(p) && Holding(p')
  }

  lemma StillHolds(sequential: bool, r: Registry, r': Registry, p: Proc, p': Proc)
    requires HoldOk(r, sequential, p) && PurgedOk(r, p) && SameHold(p, p') && Inner(r, r', p.key)
    ensures HoldOk(r', sequential, p') && PurgedOk(r', p')
  {
  }

  // The registry left alone.
  lemma HeldStill(hash: Scope -> Text, s: System, pid: nat)
    requires Inv(hash, s) && pid in s.procs && Holding(s.procs[pid])
    ensures var k := s.procs[pid].key; Held(hash, s.reg, s.reg, k) && SameDrain(s.reg, s.reg, k)
  {
    assert ProcOk(s, s.procs[pid]);
  }

  // A step outside any hold.
  lemma OutsideKeeps(hash: Scope -> Text, s: System, pid: nat, m: Move)
    requires Inv(hash, s) && pid in s.procs && m.p.key == s.procs[pid].key
    requires m.reg == s.reg && m.said == []
    requires !Holding(m.p) && !m.p.purged && (m.p.pc.Done? || !m.p.began)
    ensures Inv(hash, Committed(s, pid, m))
  {
    hide ProcOk;
    var s', k := Committed(s, pid, m), m.p.key;
    OutsideOk(s', m.p);
    var more := m.said + [Revocation(Lost(s.reg, m.reg))];
    assert s'.log == s.log + more;
    if k in s.reg.entries {
      assert Spares(more, k);
      OtherEntryRight(hash, s, s', more, k);
    }
    CommitKeeps(hash, s, pid, m);
  }

  // A step of a worker that only looks.
  lemma LookKeeps(hash: Scope -> Text, s: System, pid: nat, m: Move)
    requires Inv(hash, s) && pid in s.procs && SameHold(s.procs[pid], m.p)
    requires Held(hash, s.reg, m.reg, m.p.key) && SameDrain(s.reg, m.reg, m.p.key) && m.said == []
    requires !m.p.began && Looking(m.p.pc) && ReadsOk(m.reg, m.p)
    ensures Inv(hash, Committed(s, pid, m))
  {
    hide Inv, ProcOk, ProcsOk, EntriesOk, QuietOk, VerdictOk, HoldOk, PurgedOk, ReadsOk, Inner, Kept;
    Parts(hash, s, pid);
    StillHolds(s.sequential, s.reg, m.reg, s.procs[pid], m.p);
    LookingOk(Committed(s, pid, m), m.p);
    InnerKeeps(hash, s, pid, m);
  }

  // The last step of a worker before its release.
  lemma ReleasingKeeps(hash: Scope -> Text, s: System, pid: nat, m: Move)
    requires Inv(hash, s) && pid in s.procs && SameHold(s.procs[pid], m.p)
    requires m.p.pc.ReleaseHold? && m.said == [] && Held(hash, s.reg, m.reg, m.p.key)
    requires SameDrain(s.reg, m.reg, m.p.key) || !m.reg.entries[m.p.key].serving
    requires OwedOk(m.reg, m.p)
    ensures Inv(hash, Committed(s, pid, m))
  {
    hide Inv, ProcOk, ProcsOk, EntriesOk, QuietOk, VerdictOk, HoldOk, PurgedOk, ReadsOk, Inner, Kept, OwedOk;
    Parts(hash, s, pid);
    StillHolds(s.sequential, s.reg, m.reg, s.procs[pid], m.p);
    ReleaseOk(Committed(s, pid, m), m.p);
    InnerKeeps(hash, s, pid, m);
  }

  // A verification answers: a fresh verdict stands at the end of the log it is
  // written to.
  lemma VerdictStands(s: System, pid: nat, m: Move)
    requires m.reg == s.reg && m.said == Said(m.p)
    ensures VerdictOk(Committed(s, pid, m), m.p)
  {
    var s' := Committed(s, pid, m);
    if m.p.outcome.Passed? {
      assert Lost(s.reg, m.reg) == {};
      assert s'.log[|s.log|] == m.said[0];
      assert ProvedAt(s'.log, |s.log|, |s'.log|, m.p.key, m.p.id, m.p.generation, Endpoint(m.p.url, m.p.relayKey));
    }
  }

  // ------------------------------------------------------------ admission

  lemma AdmittedEntryRight(s: System, pid: nat, m: Move, ep: Endpoint, d: int, now: Clock)
    requires EntriesOk(s) && m.said == [] && m.p.key in s.reg.entries
    requires m.reg == AfterReady(s.reg, m.p.key, m.p.generation, ep, d, now)
    requires Current(s.reg, m.p.key, m.p.generation) ==>
               s.reg.entries[m.p.key].id == m.p.id
               && Proved(s.log, |s.log|, m.p.key, m.p.id, m.p.generation, ep)
    ensures EntryRight(Committed(s, pid, m), m.p.key)
  {
    var s', k, g := Committed(s, pid, m), m.p.key, m.p.generation;
    var more := m.said + [Revocation(Lost(s.reg, m.reg))];
    assert s'.log == s.log + more;
    assert k !in Lost(s.reg, m.reg);
    assert Spares(more, k);
    if Current(s.reg, k, g) {
      ProvedStands(s.log, more, k, m.p.id, g, ep);
    } else {
      assert EntryRight(s, k);
      var e := s.reg.entries[k];
      if e.serving {
        ProvedStands(s.log, more, k, e.id, e.record.generation, e.endpoint.value);
      }
    }
  }

  // Ready touches its own entry only and keeps the hold on it.
  lemma ReadyShape(sequential: bool, r: Registry, p: Proc, p': Proc, ep: Endpoint, d: int, now: Clock)
    requires HoldOk(r, sequential, p) && PurgedOk(r, p) && SameHold(p, p')
    requires p'.began && Obliged(p') ==> p'.drained
    requires p'.pc.ReleaseHold?
    ensures var r' := AfterReady(r, p.key, p.generation, ep, d, now);
            OnlyAt(r, r', p.key) && HoldOk(r', sequential, p') && PurgedOk(r', p') && OwedOk(r', p')
  {
  }

  lemma HolderAlone(s: System, pid: nat)
    requires ProcsOk(s) && pid in s.procs && Holding(s.procs[pid])
    ensures Alone(s, pid)
  {
  }

  // Admission: the one step that makes a relay serve. Stale verdicts are void.
  lemma AdmitKeeps(hash: Scope -> Text, s: System, pid: nat, m: Move, ep: Endpoint, d: int, now: Clock)
    requires Inv(hash, s) && pid in s.procs && SameHold(s.procs[pid], m.p) && m.p.pc.ReleaseHold? && m.said == []
    requires m.reg == AfterReady(s.reg, m.p.key, m.p.generation, ep, d, now)
    requires m.p.began && Obliged(m.p) ==> m.p.drained
    requires Tracked(s.reg, m.p) ==> Proved(s.log, |s.log|, m.p.key, m.p.id, m.p.generation, ep)
    ensures Inv(hash, Committed(s, pid, m))
  {
    hide Inv, ProcOk, ProcsOk, EntriesOk, RegistryOk, QuietOk, VerdictOk, ReadsOk, Announced, AfterReady, HoldOk,
      PurgedOk, OwedOk, OnlyAt, EntryRight, Proved, Holding, Obliged;
    var p := s.procs[pid];
    Parts(hash, s, pid);
    HeldFacts(s.sequential, s.reg, p, m.p);
    ReadyKeeps(hash, s.reg, p.key, p.generation, ep, d, now);
    ReadyShape(s.sequential, s.reg, p, m.p, ep, d, now);
    AdmittedEntryRight(s, pid, m, ep, d, now);
    ReleaseOk(Committed(s, pid, m), m.p);
    HolderAlone(s, pid);
    CommitKeeps(hash, s, pid, m);
  }

  lemma HeldFacts(sequential: bool, r: Registry, p: Proc, p': Proc)
    requires HoldOk(r, sequential, p) && SameHold(p, p')
    ensures Holding(p) && p'.key in r.entries && r.entries[p'.key].id == p'.id
  {
  }
}
