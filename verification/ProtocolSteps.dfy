// Every step of every worker keeps the protocol invariant.
module ProtocolSteps {
  import opened Readiness
  import opened ReadinessLaws
  import opened Protocol
  import opened ProtocolInvariant
  import opened ProtocolWorkers

  // ------------------------------------------------------------ quiet steps

  // A snapshot taken at or after the moment the relay was known not to serve
  // leaves it out.
  lemma ExcludedNow(s: System, r': Registry, p: Proc)
    requires ApplierOk(s) && Announced(s.reg, r') && p.mark == r'.notifySeq
    requires p.key in r'.entries && !r'.entries[p.key].serving
    ensures Excluded(s, p)
  {
    assert p.key !in View(r'.entries);
    assert s.serving.snap.at >= p.mark ==> Incarnations(s.serving.snap) == View(r'.entries);
    if s.applier.Built? && s.applier.snap.at >= p.mark {
      assert Incarnations(s.applier.snap) == View(r'.entries);
      assert p.key !in Incarnations(s.applier.snap);
    }
    if s.serving.snap.at >= p.mark {
      assert p.key !in Incarnations(s.serving.snap);
    }
  }

  // Once quiet, a relay stays quiet while its holder goes on.
  lemma QuietStands(s: System, pid: nat, m: Move)
    requires pid in s.procs && QuietOk(s, s.procs[pid]) && SameHold(s.procs[pid], m.p)
    requires Quiet(s.procs[pid].pc) && Quiet(m.p.pc) && m.p.mark == s.procs[pid].mark
    requires Inner(s.reg, m.reg, m.p.key) && s.reg.notifySeq <= m.reg.notifySeq
    requires m.p.pc.SettleWait? || m.p.pc.DeleteWait? ==> m.p.mark <= m.p.target
    requires Settled(m.p.pc) && Bound(m.p) ==> m.p.mark <= s.serving.snap.at
    requires Clear(m.p.pc) && Bound(m.p) ==> Count(s.inflight, m.p.key) == 0
    ensures QuietOk(Committed(s, pid, m), m.p)
    ensures !m.reg.entries[m.p.key].serving
  {
  }

  // A step along the barrier.
  lemma WaitKeeps(hash: Scope -> Text, s: System, pid: nat, m: Move)
    requires Inv(hash, s) && pid in s.procs && SameHold(s.procs[pid], m.p) && m.said == []
    requires Held(hash, s.reg, m.reg, m.p.key) && !m.reg.entries[m.p.key].serving
    requires Waits(m.p.pc) && QuietOk(Committed(s, pid, m), m.p)
    ensures Inv(hash, Committed(s, pid, m))
  {
    hide Inv, ProcOk, ProcsOk, EntriesOk, QuietOk, VerdictOk, HoldOk, PurgedOk, ReadsOk, Inner, Kept;
    Parts(hash, s, pid);
    StillHolds(s.sequential, s.reg, m.reg, s.procs[pid], m.p);
    WaitingOk(Committed(s, pid, m), m.p);
    InnerKeeps(hash, s, pid, m);
  }

  // A step around the deploy call.
  lemma DeployKeeps(hash: Scope -> Text, s: System, pid: nat, m: Move)
    requires Inv(hash, s) && pid in s.procs && SameHold(s.procs[pid], m.p) && Verdicts(m.said)
    requires Held(hash, s.reg, m.reg, m.p.key) && !m.reg.entries[m.p.key].serving
    requires DeployPc(m.p.pc) && QuietOk(Committed(s, pid, m), m.p) && VerdictOk(Committed(s, pid, m), m.p)
    requires Obliged(m.p) ==> m.p.drained
    ensures Inv(hash, Committed(s, pid, m))
  {
    hide Inv, ProcOk, ProcsOk, EntriesOk, QuietOk, VerdictOk, HoldOk, PurgedOk, ReadsOk, Inner, Kept;
    Parts(hash, s, pid);
    StillHolds(s.sequential, s.reg, m.reg, s.procs[pid], m.p);
    DeployingOk(Committed(s, pid, m), m.p);
    InnerKeeps(hash, s, pid, m);
  }

  lemma DeleteReads(r: Registry, p: Proc, p': Proc)
    requires ReadsOk(r, p) && SameHold(p, p') && DeletePc(p.pc) && DeletePc(p'.pc)
    ensures ReadsOk(r, p')
  {
  }

  // A step of a delete that holds its relay and leaves the registry alone.
  lemma DeletingKeeps(hash: Scope -> Text, s: System, pid: nat, m: Move)
    requires Inv(hash, s) && pid in s.procs && SameHold(s.procs[pid], m.p) && m.said == [] && m.reg == s.reg
    requires DeletePc(s.procs[pid].pc) && DeletePc(m.p.pc) && !m.p.began
    requires QuietOk(Committed(s, pid, m), m.p)
    ensures Inv(hash, Committed(s, pid, m))
  {
    hide Inv, ProcOk, ProcsOk, EntriesOk, QuietOk, VerdictOk, HoldOk, PurgedOk, Inner, Kept, ReadsOk, RegistryOk,
      SameDrain, OwedOk, ApplierOk;
    Parts(hash, s, pid);
    HeldStill(hash, s, pid);
    StillHolds(s.sequential, s.reg, m.reg, s.procs[pid], m.p);
    DeleteReads(s.reg, s.procs[pid], m.p);
    DeletingOk(Committed(s, pid, m), m.p);
    InnerKeeps(hash, s, pid, m);
  }

  // ------------------------------------------------------- taking a hold

  lemma NobodyElse(s: System, pid: nat)
    requires ProcsOk(s) && pid in s.procs
    requires s.procs[pid].key in s.reg.entries ==> !s.reg.entries[s.procs[pid].key].busy
    ensures Alone(s, pid)
  {
    forall q | q in s.procs && q != pid && Holding(s.procs[q])
      ensures s.procs[q].key != s.procs[pid].key
    {
      assert ProcOk(s, s.procs[q]);
    }
  }

  // Holding changes no admission.
  lemma TakenEntryRight(s: System, pid: nat, m: Move)
    requires EntriesOk(s) && m.said == []
    requires m.p.key in m.reg.entries ==>
               var e' := m.reg.entries[m.p.key];
               if m.p.key in s.reg.entries then
                 var e := s.reg.entries[m.p.key];
                 e'.id == e.id && e'.record == e.record && e'.serving == e.serving && e'.endpoint == e.endpoint
               else !e'.serving && !e'.record.drainPending
    ensures EntryRight(Committed(s, pid, m), m.p.key)
  {
    var k := m.p.key;
    var more := m.said + [Revocation(Lost(s.reg, m.reg))];
    assert Committed(s, pid, m).log == s.log + more;
    if k in m.reg.entries && k in s.reg.entries {
      assert EntryRight(s, k);
      var e := s.reg.entries[k];
      if e.serving {
        assert Spares(more, k);
        ProvedStands(s.log, more, k, e.id, e.record.generation, e.endpoint.value);
      }
    }
  }

  // What a taken hold captured.
  predicate HoldTaken(r: Registry, sequential: bool, p: Proc, m: Move) {
    && m.said == [] && m.p.key == p.key && Holding(m.p) && !m.p.purged && !m.p.began
    && (p.key in r.entries ==> !r.entries[p.key].busy)
    && HoldOk(m.reg, sequential, m.p)
  }

  lemma BeginTakes(sequential: bool, r: Registry, p: Proc, i: Input)
    requires p.pc.TakeHold? && !p.purged && !p.began
    ensures var m := TakeHoldMove(r, p, i);
            if m.p.pc.Done? then m == Goto(p, Done, r)
            else HoldTaken(r, sequential, p, m) && m.p.pc.Recheck? && OnlyAt(r, m.reg, p.key)
  {
  }

  lemma BeginSpares(r: Registry, p: Proc, i: Input)
    ensures var m := TakeHoldMove(r, p, i);
            m.reg == AfterBegin(r, p.key, i.now).0
            && (p.key in m.reg.entries ==>
               var e' := m.reg.entries[p.key];
               if p.key in r.entries then
                 var e := r.entries[p.key];
                 e'.id == e.id && e'.record == e.record && e'.serving == e.serving && e'.endpoint == e.endpoint
               else !e'.serving && !e'.record.drainPending)
  {
  }

  lemma RecheckOk(s: System, p: Proc)
    requires HoldOk(s.reg, s.sequential, p) && p.pc.Recheck? && !p.purged && !p.began
    ensures ProcOk(s, p)
  {
  }

  lemma TakeHoldKeeps(hash: Scope -> Text, s: System, pid: nat, i: Input)
    requires Inv(hash, s) && pid in s.procs && s.procs[pid].pc.TakeHold?
    ensures Inv(hash, Committed(s, pid, TakeHoldMove(s.reg, s.procs[pid], i)))
  {
    hide Inv, ProcOk, ProcsOk, EntriesOk, RegistryOk, QuietOk, ApplierOk, VerdictOk, HoldOk, ReadsOk, TakeHoldMove,
      AfterBegin, Announced, OnlyAt, Alone, EntryRight;
    var p := s.procs[pid];
    var m := TakeHoldMove(s.reg, p, i);
    Parts(hash, s, pid);
    BeginTakes(s.sequential, s.reg, p, i);
    if m.p.pc.Done? {
      OutsideKeeps(hash, s, pid, m);
    } else {
      BeginKeeps(hash, s.reg, p.key, i.now);
      BeginSpares(s.reg, p, i);
      NobodyElse(s, pid);
      TakenEntryRight(s, pid, m);
      RecheckOk(Committed(s, pid, m), m.p);
      CommitKeeps(hash, s, pid, m);
    }
  }

  lemma RemovingRests(hash: Scope -> Text, r: Registry, k: Key)
    requires RegistryOk(hash, r)
    ensures k in r.entries && r.entries[k].record.state == Removing ==> !r.entries[k].serving
  {
    if k in r.entries {
      assert EntryOk(r.cfg, hash, k, r.entries[k]);
    }
  }

  lemma DeleteTakes(sequential: bool, r: Registry, p: Proc)
    requires p.pc.DeleteHold? && !p.purged && !p.began
    requires p.key in r.entries && r.entries[p.key].record.state == Removing ==> !r.entries[p.key].serving
    ensures var m := DeleteHoldMove(r, p);
            if m.p.pc.Done? then m == Goto(p, Done, r)
            else HoldTaken(r, sequential, p, m) && m.p.pc.DeleteTarget? && OnlyAt(r, m.reg, p.key)
                 && m.p.mark == m.reg.notifySeq && ReadsOk(m.reg, m.p)
                 && p.key in m.reg.entries && !m.reg.entries[p.key].serving
  {
  }

  lemma DeleteSpares(hash: Scope -> Text, r: Registry, p: Proc)
    requires RegistryOk(hash, r)
    ensures var m := DeleteHoldMove(r, p);
            Kept(hash, r, m.reg)
            && (p.key in m.reg.entries ==>
               p.key in r.entries
               && var e', e := m.reg.entries[p.key], r.entries[p.key];
                  e'.id == e.id && e'.record == e.record && e'.serving == e.serving && e'.endpoint == e.endpoint)
  {
    FlagKeeps(hash, r, BeginDelete(p.key));
  }

  lemma DeleteTargetOk(s: System, p: Proc)
    requires HoldOk(s.reg, s.sequential, p) && ReadsOk(s.reg, p) && p.pc.DeleteTarget? && !p.purged && !p.began
    requires Excluded(s, p) && p.mark == s.reg.notifySeq && p.key in s.reg.entries && !s.reg.entries[p.key].serving
    ensures ProcOk(s, p)
  {
  }

  lemma ExcludedStays(s: System, pid: nat, m: Move)
    requires pid in s.procs && Excluded(s, m.p)
    ensures Excluded(Committed(s, pid, m), m.p)
  {
  }

  lemma DeleteHoldKeeps(hash: Scope -> Text, s: System, pid: nat)
    requires Inv(hash, s) && pid in s.procs && s.procs[pid].pc.DeleteHold?
    ensures Inv(hash, Committed(s, pid, DeleteHoldMove(s.reg, s.procs[pid])))
  {
    hide Inv, ProcOk, ProcsOk, EntriesOk, RegistryOk, QuietOk, ApplierOk, VerdictOk, HoldOk, ReadsOk, DeleteHoldMove,
      Announced, OnlyAt, Alone, EntryRight, Excluded;
    var p := s.procs[pid];
    var m := DeleteHoldMove(s.reg, p);
    Parts(hash, s, pid);
    RemovingRests(hash, s.reg, p.key);
    DeleteTakes(s.sequential, s.reg, p);
    if m.p.pc.Done? {
      OutsideKeeps(hash, s, pid, m);
    } else {
      DeleteSpares(hash, s.reg, p);
      NobodyElse(s, pid);
      TakenEntryRight(s, pid, m);
      ExcludedNow(s, m.reg, m.p);
      ExcludedStays(s, pid, m);
      DeleteTargetOk(Committed(s, pid, m), m.p);
      CommitKeeps(hash, s, pid, m);
    }
  }

  // ---------------------------------------------------------- ensureRelay

  lemma HeldProc(sequential: bool, r: Registry, p: Proc)
    requires HoldOk(r, sequential, p) && PurgedOk(r, p) && Holding(p)
    ensures p.key in r.entries && !p.purged
  {
  }

  // A silent step of a worker that only looks.
  lemma ReadKeeps(hash: Scope -> Text, s: System, pid: nat, m: Move)
    requires Inv(hash, s) && pid in s.procs && SameHold(s.procs[pid], m.p)
    requires m.reg == s.reg && m.said == [] && !m.p.began && Looking(m.p.pc) && ReadsOk(m.reg, m.p)
    ensures Inv(hash, Committed(s, pid, m))
  {
    hide Inv, Looking, ReadsOk, Held, SameDrain;
    HeldStill(hash, s, pid);
    LookKeeps(hash, s, pid, m);
  }

  // The worker gives its relay back without touching it.
  lemma QuitKeeps(hash: Scope -> Text, s: System, pid: nat)
    requires Inv(hash, s) && pid in s.procs && Holding(s.procs[pid]) && !s.procs[pid].began
    ensures Inv(hash, Committed(s, pid, Goto(s.procs[pid], ReleaseHold, s.reg)))
  {
    hide Inv, Held, SameDrain, ProcsOk, EntriesOk, RegistryOk, ApplierOk, QuietOk, VerdictOk, ReadsOk;
    var m := Goto(s.procs[pid], ReleaseHold, s.reg);
    Parts(hash, s, pid);
    HeldStill(hash, s, pid);
    ReleasingKeeps(hash, s, pid, m);
  }

  // The worker gives up and reports why.
  lemma FailKeeps(hash: Scope -> Text, s: System, pid: nat, reason: Reason, d: int, now: Clock)
    requires Inv(hash, s) && pid in s.procs && Holding(s.procs[pid])
    requires var p := s.procs[pid]; p.began && Obliged(p) ==> p.drained
    ensures Inv(hash, Committed(s, pid, FailMove(s.reg, s.procs[pid], reason, d, now)))
  {
    hide Inv, Held, SameDrain, ProcsOk, EntriesOk, RegistryOk, ApplierOk, QuietOk, VerdictOk, ReadsOk, AfterFailing,
      HoldOk, PurgedOk;
    var p := s.procs[pid];
    var m := FailMove(s.reg, p, reason, d, now);
    Parts(hash, s, pid);
    HeldProc(s.sequential, s.reg, p);
    FailingHeld(hash, s.reg, p.key, p.generation, reason, d, now);
    ReleasingKeeps(hash, s, pid, m);
  }

  lemma PausingKeeps(hash: Scope -> Text, s: System, pid: nat, i: Input)
    requires Inv(hash, s) && pid in s.procs && Holding(s.procs[pid])
    requires var p := s.procs[pid]; p.began && Obliged(p) ==> p.drained
    ensures Inv(hash, Committed(s, pid, PauseMove(s.reg, s.procs[pid], i)))
  {
    hide Inv, Held, SameDrain, ProcsOk, EntriesOk, RegistryOk, ApplierOk, QuietOk, VerdictOk, ReadsOk, AfterPause,
      HoldOk, PurgedOk;
    var p := s.procs[pid];
    var m := PauseMove(s.reg, p, i);
    Parts(hash, s, pid);
    HeldProc(s.sequential, s.reg, p);
    PauseHeld(hash, s.reg, p.key, p.generation, Suspended, i.now);
    ReleasingKeeps(hash, s, pid, m);
  }

  // A new worker that failed its verification stays out of the pool.
  lemma DemotingKeeps(hash: Scope -> Text, s: System, pid: nat, reason: Reason, now: Clock)
    requires Inv(hash, s) && pid in s.procs && Holding(s.procs[pid])
    requires var p := s.procs[pid]; p.began && Obliged(p) ==> p.drained
    ensures var p := s.procs[pid];
            Inv(hash, Committed(s, pid, Goto(p, ReleaseHold, AfterDemote(s.reg, p.key, p.generation, reason, now))))
  {
    hide Inv, Held, SameDrain, ProcsOk, EntriesOk, RegistryOk, ApplierOk, QuietOk, VerdictOk, ReadsOk, AfterDemote,
      HoldOk, PurgedOk;
    var p := s.procs[pid];
    var m := Goto(p, ReleaseHold, AfterDemote(s.reg, p.key, p.generation, reason, now));
    Parts(hash, s, pid);
    HeldProc(s.sequential, s.reg, p);
    DemoteHeld(hash, s.reg, p.key, p.generation, reason, now);
    ReleasingKeeps(hash, s, pid, m);
  }

  lemma RecheckKeeps(hash: Scope -> Text, s: System, pid: nat)
    requires Inv(hash, s) && pid in s.procs && s.procs[pid].pc.Recheck?
    ensures Inv(hash, Committed(s, pid, RecheckMove(s.reg, s.procs[pid])))
  {
    hide Inv, ProcsOk, EntriesOk, RegistryOk, ApplierOk, QuietOk, VerdictOk, HoldOk, Committed;
    var p := s.procs[pid];
    var m := RecheckMove(s.reg, p);
    Parts(hash, s, pid);
    if m.p.pc.ReleaseHold? {
      QuitKeeps(hash, s, pid);
    } else {
      ReadKeeps(hash, s, pid, m);
    }
  }

  lemma ResolveKeeps(hash: Scope -> Text, s: System, pid: nat, i: Input)
    requires Inv(hash, s) && pid in s.procs && s.procs[pid].pc.Resolve?
    ensures Inv(hash, Committed(s, pid, ResolveMove(s.reg, s.procs[pid], i)))
  {
    hide Inv, ProcsOk, EntriesOk, RegistryOk, ApplierOk, QuietOk, VerdictOk, HoldOk, Committed, FailMove;
    Parts(hash, s, pid);
    if i.ok {
      ReadKeeps(hash, s, pid, ResolveMove(s.reg, s.procs[pid], i));
    } else {
      FailKeeps(hash, s, pid, CredentialFailed, 0, i.now);
    }
  }

  lemma ReadingsStand(r: Registry, p: Proc)
    requires p.pc.ReadServing?
    ensures ReadsOk(r, ReadServingMove(r, p).p)
  {
  }

  lemma ReadingDrainStands(r: Registry, p: Proc)
    requires p.pc.ReadDrain? && ReadsOk(r, p)
    ensures ReadsOk(r, ReadDrainMove(r, p).p)
  {
  }

  lemma ReadingKeeps(hash: Scope -> Text, s: System, pid: nat)
    requires Inv(hash, s) && pid in s.procs
    ensures s.procs[pid].pc.ReadServing? ==> Inv(hash, Committed(s, pid, ReadServingMove(s.reg, s.procs[pid])))
    ensures s.procs[pid].pc.ReadDrain? ==> Inv(hash, Committed(s, pid, ReadDrainMove(s.reg, s.procs[pid])))
  {
    hide Inv, ProcsOk, EntriesOk, RegistryOk, ApplierOk, QuietOk, VerdictOk, HoldOk, Committed, ReadsOk;
    var p := s.procs[pid];
    Parts(hash, s, pid);
    if p.pc.ReadServing? {
      ReadingsStand(s.reg, p);
      ReadKeeps(hash, s, pid, ReadServingMove(s.reg, p));
    } else if p.pc.ReadDrain? {
      ReadingDrainStands(s.reg, p);
      ReadKeeps(hash, s, pid, ReadDrainMove(s.reg, p));
    }
  }

  // What was read survives a phase label.
  lemma ReadsStand(r: Registry, r': Registry, p: Proc, p': Proc)
    requires ReadsOk(r, p) && SameHold(p, p') && Inner(r, r', p.key) && SameDrain(r, r', p.key)
    requires r'.entries[p.key].serving == r.entries[p.key].serving && !DeletePc(p'.pc)
    requires p'.wasReady == p.wasReady && p'.drainPending == p.drainPending
    requires ReadDrainStands(p.pc)
    ensures ReadsOk(r', p')
  {
  }

  lemma EnteringKeeps(hash: Scope -> Text, s: System, pid: nat, state: State, reason: Reason, pc: Pc, now: Clock)
    requires Inv(hash, s) && pid in s.procs && EnterPhase(state)
    requires s.procs[pid].pc.EnterDiscovering? || s.procs[pid].pc.NoteMissing?
    requires pc.Discover? || pc.TakeMarker?
    ensures Inv(hash, Committed(s, pid, PhaseMove(s.reg, s.procs[pid], state, reason, pc, now)))
  {
    hide Inv, ProcsOk, EntriesOk, RegistryOk, ApplierOk, QuietOk, VerdictOk, HoldOk, Committed, ReadsOk, AfterEnter,
      Inner, SameDrain, Kept;
    var p := s.procs[pid];
    var m := PhaseMove(s.reg, p, state, reason, pc, now);
    Parts(hash, s, pid);
    HeldProc(s.sequential, s.reg, p);
    EnterHeld(hash, s.reg, p.key, p.generation, state, reason, now);
    ReadsStand(s.reg, m.reg, p, m.p);
    LookKeeps(hash, s, pid, m);
  }

  lemma LooksOn(r: Registry, p: Proc, url: Text, pc: Pc)
    requires ReadsOk(r, p) && ReadDrainStands(p.pc) && ReadDrainStands(pc) && !DeletePc(pc)
    ensures ReadsOk(r, p.(url := url, pc := pc))
  {
  }

  lemma DiscoverKeeps(hash: Scope -> Text, s: System, pid: nat, i: Input)
    requires Inv(hash, s) && pid in s.procs && s.procs[pid].pc.Discover?
    ensures Inv(hash, Committed(s, pid, DiscoverMove(s.reg, s.procs[pid], i)))
  {
    hide Inv, ProcsOk, EntriesOk, RegistryOk, ApplierOk, QuietOk, VerdictOk, HoldOk, Committed, FailMove, ReadsOk;
    var p := s.procs[pid];
    Parts(hash, s, pid);
    match i.discovery
    case DiscoverError(reason) => FailKeeps(hash, s, pid, reason, 0, i.now);
    case Absent =>
      LooksOn(s.reg, p, p.url, NoteMissing);
      ReadKeeps(hash, s, pid, Goto(p, NoteMissing, s.reg));
    case Found(url) =>
      LooksOn(s.reg, p, url, Probe);
      ReadKeeps(hash, s, pid, Goto(p.(url := url), Probe, s.reg));
  }

  lemma ProbeKeeps(hash: Scope -> Text, s: System, pid: nat, i: Input)
    requires Inv(hash, s) && pid in s.procs && s.procs[pid].pc.Probe?
    ensures Inv(hash, Committed(s, pid, VerdictMove(s.reg, s.procs[pid], Judge, i)))
  {
    hide Inv, ProcsOk, EntriesOk, RegistryOk, ApplierOk, QuietOk, VerdictOk, HoldOk, ReadsOk, ProcOk, PurgedOk, Held,
      SameDrain;
    var p := s.procs[pid];
    var m := VerdictMove(s.reg, p, Judge, i);
    Parts(hash, s, pid);
    ReadsStand(s.reg, s.reg, p, m.p) by {
      HeldStill(hash, s, pid);
    }
    HeldStill(hash, s, pid);
    VerdictStands(s, pid, m);
    StillHolds(s.sequential, s.reg, s.reg, p, m.p);
    JudgingOk(Committed(s, pid, m), m.p);
    InnerKeeps(hash, s, pid, m);
  }

  lemma AdmittingKeeps(hash: Scope -> Text, s: System, pid: nat, i: Input)
    requires Inv(hash, s) && pid in s.procs && (s.procs[pid].pc.Judge? || s.procs[pid].pc.JudgeNew?)
    requires s.procs[pid].outcome.Passed?
    ensures Inv(hash, Committed(s, pid, AdmitMove(s.reg, s.procs[pid], i)))
  {
    hide Inv, ProcsOk, EntriesOk, RegistryOk, ApplierOk, QuietOk, HoldOk, ReadsOk, Proved, Committed, AfterReady;
    var p := s.procs[pid];
    Parts(hash, s, pid);
    HeldProc(s.sequential, s.reg, p);
    AdmitKeeps(hash, s, pid, AdmitMove(s.reg, p, i), Endpoint(p.url, p.relayKey), i.duration, i.now);
  }

  lemma JudgeKeeps(hash: Scope -> Text, s: System, pid: nat, i: Input)
    requires Inv(hash, s) && pid in s.procs && s.procs[pid].pc.Judge?
    ensures Inv(hash, Committed(s, pid, JudgeMove(s.reg, s.procs[pid], i)))
  {
    hide Inv, ProcsOk, EntriesOk, RegistryOk, ApplierOk, QuietOk, VerdictOk, HoldOk, Committed, FailMove, PauseMove,
      AdmitMove, ReadsOk;
    var p := s.procs[pid];
    Parts(hash, s, pid);
    match p.outcome
    case Passed => AdmittingKeeps(hash, s, pid, i);
    case SuspensionPage => PausingKeeps(hash, s, pid, i);
    case NoAnswer => FailKeeps(hash, s, pid, Unreachable, i.duration, i.now);
    case BrokenTrip => FailKeeps(hash, s, pid, ProbeFailed, i.duration, i.now);
    case _ =>
      LooksOn(s.reg, p, p.url, TakeMarker);
      ReadKeeps(hash, s, pid, Goto(p, TakeMarker, s.reg));
  }

  // -------------------------------------------------------------- rollout

  lemma MarkerStands(r: Registry, r': Registry, p: Proc, p': Proc)
    requires ReadsOk(r, p) && p.pc.TakeMarker? && p'.pc.Revoke? && SameHold(p, p')
    requires Inner(r, r', p.key) && SameDrain(r, r', p.key)
    requires r'.entries[p.key].serving == r.entries[p.key].serving
    requires p'.wasReady == p.wasReady && p'.drainPending == p.drainPending
    ensures ReadsOk(r', p')
  {
  }

  lemma TakeMarkerKeeps(hash: Scope -> Text, s: System, pid: nat)
    requires Inv(hash, s) && pid in s.procs && s.procs[pid].pc.TakeMarker?
    ensures Inv(hash, Committed(s, pid, TakeMarkerMove(s.reg, s.procs[pid])))
  {
    hide Inv, ProcsOk, EntriesOk, RegistryOk, ApplierOk, QuietOk, VerdictOk, HoldOk, ReadsOk, ProcOk, PurgedOk,
      OwedOk, Inner, Kept, SameDrain, AfterTakeScopeChanged, Committed;
    var p := s.procs[pid];
    var m := TakeMarkerMove(s.reg, p);
    Parts(hash, s, pid);
    HeldProc(s.sequential, s.reg, p);
    TakenHeld(hash, s.reg, p.key, p.generation);
    MarkerStands(s.reg, m.reg, p, m.p);
    StillHolds(s.sequential, s.reg, m.reg, p, m.p);
    CommittedReg(s, pid, m);
    RevokingOk(Committed(s, pid, m), m.p);
    InnerKeeps(hash, s, pid, m);
  }

  lemma CommittedReg(s: System, pid: nat, m: Move)
    ensures var s' := Committed(s, pid, m);
            s'.reg == m.reg && s'.sequential == s.sequential
            && s'.applier == s.applier && s'.serving == s.serving && s'.inflight == s.inflight
  {
  }

  // Revoking leaves the relay out of service, demoted now or earlier.
  lemma RevokeRests(hash: Scope -> Text, sequential: bool, r: Registry, p: Proc, i: Input)
    requires RegistryOk(hash, r) && HoldOk(r, sequential, p) && ReadsOk(r, p) && PurgedOk(r, p) && p.pc.Revoke?
    ensures var m := RevokeMove(r, p, i);
            Held(hash, r, m.reg, p.key) && !m.reg.entries[p.key].serving
  {
    hide RegistryOk, Kept, AfterDemote, SameDrain;
    HeldProc(sequential, r, p);
    if p.wasReady {
      DemoteHeld(hash, r, p.key, p.generation, Replacing, i.now);
    } else {
      StillKept(hash, r);
    }
  }

  lemma StillKept(hash: Scope -> Text, r: Registry)
    requires RegistryOk(hash, r)
    ensures Kept(hash, r, r)
  {
  }

  // Where the barrier begins, or the deploy when no drain is owed.
  lemma RevokedQuiet(s: System, pid: nat, m: Move)
    requires Excluded(s, m.p) && m.p.key in m.reg.entries && !m.reg.entries[m.p.key].serving
    requires m.p.mark == m.reg.notifySeq
    requires m.p.pc == if Obliged(m.p) then SettleTarget else EnterDeploying
    ensures QuietOk(Committed(s, pid, m), m.p) && VerdictOk(Committed(s, pid, m), m.p)
  {
  }

  lemma HeldParts(hash: Scope -> Text, r: Registry, r': Registry, k: Key)
    requires Held(hash, r, r', k)
    ensures Inner(r, r', k) && Announced(r, r') && k in r'.entries && r.notifySeq <= r'.notifySeq
  {
  }

  lemma RevokeKeeps(hash: Scope -> Text, s: System, pid: nat, i: Input)
    requires Inv(hash, s) && pid in s.procs && s.procs[pid].pc.Revoke?
    ensures Inv(hash, Committed(s, pid, RevokeMove(s.reg, s.procs[pid], i)))
  {
    hide Inv, ProcsOk, EntriesOk, RegistryOk, ApplierOk, QuietOk, VerdictOk, HoldOk, ReadsOk, PurgedOk, Announced,
      OwedOk, Inner, Held, AfterDemote, Committed, Excluded;
    var p := s.procs[pid];
    var m := RevokeMove(s.reg, p, i);
    Parts(hash, s, pid);
    HeldProc(s.sequential, s.reg, p);
    RevokeRests(hash, s.sequential, s.reg, p, i);
    HeldParts(hash, s.reg, m.reg, p.key);
    ExcludedNow(s, m.reg, m.p);
    RevokedQuiet(s, pid, m);
    if Obliged(p) {
      WaitKeeps(hash, s, pid, m);
    } else {
      DeployKeeps(hash, s, pid, m);
    }
  }

  // The quiet part of the invariant for a step that leaves the registry alone.
  lemma QuietWaits(hash: Scope -> Text, s: System, pid: nat, m: Move)
    requires Inv(hash, s) && pid in s.procs && SameHold(s.procs[pid], m.p) && m.reg == s.reg
    requires Quiet(s.procs[pid].pc) && Quiet(m.p.pc) && m.p.mark == s.procs[pid].mark
    requires m.p.pc.SettleWait? || m.p.pc.DeleteWait? ==> m.p.mark <= m.p.target
    requires Settled(m.p.pc) && Bound(m.p) ==> m.p.mark <= s.serving.snap.at
    requires Clear(m.p.pc) && Bound(m.p) ==> Count(s.inflight, m.p.key) == 0
    ensures QuietOk(Committed(s, pid, m), m.p)
    ensures Held(hash, s.reg, m.reg, m.p.key) && !m.reg.entries[m.p.key].serving
  {
    hide Inv, ProcsOk, EntriesOk, RegistryOk, ApplierOk, QuietOk, VerdictOk, HoldOk, ReadsOk, PurgedOk, Kept,
      OwedOk, Inner, Committed, Quiet, Settled, Clear, Bound, SameDrain, SameHold;
    Parts(hash, s, pid);
    SameHoldKey(s.procs[pid], m.p);
    HeldStill(hash, s, pid);
    QuietStands(s, pid, m);
  }

  lemma SameHoldKey(p: Proc, p': Proc)
    requires SameHold(p, p')
    ensures p'.key == p.key && Holding(p)
  {
  }

  // What the barrier has established so far.
  lemma QuietFacts(s: System, p: Proc)
    requires QuietOk(s, p)
    ensures Quiet(p.pc) ==> p.key in s.reg.entries && !s.reg.entries[p.key].serving
    ensures p.pc.SettleWait? || p.pc.DeleteWait? ==> p.mark <= p.target
    ensures Settled(p.pc) && Bound(p) ==> p.mark <= s.serving.snap.at
    ensures Clear(p.pc) && Bound(p) ==> Count(s.inflight, p.key) == 0
  {
  }

  // A barrier step that leaves the registry alone.
  lemma BarrierSilent(hash: Scope -> Text, s: System, pid: nat, m: Move)
    requires Inv(hash, s) && pid in s.procs && SameHold(s.procs[pid], m.p) && m.reg == s.reg && m.said == []
    requires Quiet(s.procs[pid].pc) && m.p.mark == s.procs[pid].mark && Waits(m.p.pc)
    requires m.p.pc.SettleWait? ==> m.p.mark <= m.p.target
    requires Settled(m.p.pc) && Bound(m.p) ==> m.p.mark <= s.serving.snap.at
    requires Clear(m.p.pc) && Bound(m.p) ==> Count(s.inflight, m.p.key) == 0
    ensures Inv(hash, Committed(s, pid, m))
  {
    hide Inv, QuietOk, Inner, Held, Committed, Settled, Bound, SameHold;
    QuietWaits(hash, s, pid, m);
    WaitKeeps(hash, s, pid, m);
  }

  lemma TargetSet(hash: Scope -> Text, s: System, pid: nat, target: nat)
    requires Inv(hash, s) && pid in s.procs && s.procs[pid].pc.SettleTarget? && s.procs[pid].mark <= target
    ensures Inv(hash, Committed(s, pid, Goto(s.procs[pid].(target := target), SettleWait, s.reg)))
  {
    hide Inv, Committed, HoldOk, PurgedOk, QuietOk, ReadsOk, VerdictOk, OwedOk, RegistryOk, ProcsOk, EntriesOk, ApplierOk;
    Parts(hash, s, pid);
    HeldAt(s, s.procs[pid]);
    BarrierSilent(hash, s, pid, Goto(s.procs[pid].(target := target), SettleWait, s.reg));
  }

  // A target outside the range leaves the worker where it is.
  lemma TargetStays(hash: Scope -> Text, s: System, pid: nat)
    requires Inv(hash, s) && pid in s.procs && (s.procs[pid].pc.SettleTarget? || s.procs[pid].pc.DeleteTarget?)
    ensures Inv(hash, Committed(s, pid, Goto(s.procs[pid], s.procs[pid].pc, s.reg)))
  {
    hide Inv, Committed, HoldOk, PurgedOk, QuietOk, ReadsOk, VerdictOk, OwedOk, RegistryOk, ProcsOk, EntriesOk, ApplierOk;
    Parts(hash, s, pid);
    HeldAt(s, s.procs[pid]);
    if s.procs[pid].pc.SettleTarget? {
      BarrierSilent(hash, s, pid, Goto(s.procs[pid], SettleTarget, s.reg));
    } else {
      DeleteSilent(hash, s, pid, Goto(s.procs[pid], DeleteTarget, s.reg));
    }
  }

  lemma TargetKeeps(hash: Scope -> Text, s: System, pid: nat, i: Input)
    requires Inv(hash, s) && pid in s.procs && s.procs[pid].pc.SettleTarget?
    ensures Inv(hash, Committed(s, pid, TargetMove(s.reg, s.procs[pid], SettleWait, i)))
  {
    hide Inv, Committed;
    if s.procs[pid].mark <= i.target <= s.reg.notifySeq {
      TargetSet(hash, s, pid, i.target);
    } else {
      TargetStays(hash, s, pid);
    }
  }

  lemma HeldAt(s: System, p: Proc)
    requires PurgedOk(s.reg, p)
    ensures p.purged ==> p.pc.ReleaseHold? || p.pc.Done?
  {
  }

  lemma AppliedBelow(s: System)
    requires ApplierOk(s)
    ensures s.applied <= s.serving.snap.at
  {
  }

  lemma SettleKeeps(hash: Scope -> Text, s: System, pid: nat)
    requires Inv(hash, s) && pid in s.procs && s.procs[pid].pc.SettleWait?
    ensures Inv(hash, Committed(s, pid, SettleMove(s, s.procs[pid], Drain, Defer)))
  {
    hide Inv, Committed, HoldOk, PurgedOk, QuietOk, ReadsOk, VerdictOk, OwedOk, RegistryOk, ProcsOk, EntriesOk, ApplierOk;
    Parts(hash, s, pid);
    HeldAt(s, s.procs[pid]);
    AppliedBelow(s);
    QuietFacts(s, s.procs[pid]);
    BarrierSilent(hash, s, pid, SettleMove(s, s.procs[pid], Drain, Defer));
  }

  lemma DrainKeeps(hash: Scope -> Text, s: System, pid: nat, i: Input)
    requires Inv(hash, s) && pid in s.procs && s.procs[pid].pc.Drain?
    ensures Inv(hash, Committed(s, pid, DrainMove(s, s.procs[pid], DrainDone, MarkUnready, i)))
  {
    hide Inv, Committed, HoldOk, PurgedOk, QuietOk, ReadsOk, VerdictOk, OwedOk, RegistryOk, ProcsOk, EntriesOk, ApplierOk;
    Parts(hash, s, pid);
    HeldAt(s, s.procs[pid]);
    QuietFacts(s, s.procs[pid]);
    BarrierSilent(hash, s, pid, DrainMove(s, s.procs[pid], DrainDone, MarkUnready, i));
  }

  // A barrier step that labels its own entry.
  lemma BarrierLabel(hash: Scope -> Text, s: System, pid: nat, m: Move)
    requires Inv(hash, s) && pid in s.procs && SameHold(s.procs[pid], m.p) && m.said == []
    requires Quiet(s.procs[pid].pc) && m.p.mark == s.procs[pid].mark && m.p.pc.Defer?
    requires Held(hash, s.reg, m.reg, m.p.key)
    ensures Inv(hash, Committed(s, pid, m))
  {
    hide Inv, Committed, HoldOk, PurgedOk, QuietOk, ReadsOk, VerdictOk, OwedOk, RegistryOk, ProcsOk, EntriesOk,
      ApplierOk, Inner, Held, SameHold;
    Parts(hash, s, pid);
    HeldParts(hash, s.reg, m.reg, m.p.key);
    QuietStands(s, pid, m);
    WaitKeeps(hash, s, pid, m);
  }

  lemma MarkUnreadyKeeps(hash: Scope -> Text, s: System, pid: nat, i: Input)
    requires Inv(hash, s) && pid in s.procs && s.procs[pid].pc.MarkUnready?
    ensures Inv(hash, Committed(s, pid, PhaseMove(s.reg, s.procs[pid], Unready, Replacing, Defer, i.now)))
  {
    hide Inv, Committed, HoldOk, PurgedOk, QuietOk, ReadsOk, VerdictOk, OwedOk, RegistryOk, ProcsOk, EntriesOk,
      ApplierOk, Inner, Held, AfterEnter, SameDrain;
    var p := s.procs[pid];
    Parts(hash, s, pid);
    HeldAt(s, p);
    HeldProc(s.sequential, s.reg, p);
    EnterHeld(hash, s.reg, p.key, p.generation, Unready, Replacing, i.now);
    BarrierLabel(hash, s, pid, PhaseMove(s.reg, p, Unready, Replacing, Defer, i.now));
  }

  lemma DeferredOwes(r': Registry, p: Proc)
    requires p.pc.ReleaseHold?
    requires Tracked(r', p) ==> r'.entries[p.key].record.drainPending
    ensures OwedOk(r', p)
  {
  }

  // Deferred: the marker carries the obligation to the next pass.
  lemma DeferKeeps(hash: Scope -> Text, s: System, pid: nat)
    requires Inv(hash, s) && pid in s.procs && s.procs[pid].pc.Defer?
    ensures Inv(hash, Committed(s, pid, DeferMove(s.reg, s.procs[pid])))
  {
    hide Inv, Committed, HoldOk, PurgedOk, QuietOk, ReadsOk, VerdictOk, OwedOk, RegistryOk, ProcsOk, EntriesOk,
      ApplierOk, Held, AfterDeferDrain, Kept;
    var p := s.procs[pid];
    var m := DeferMove(s.reg, p);
    Parts(hash, s, pid);
    HeldAt(s, p);
    HeldProc(s.sequential, s.reg, p);
    DeferredHeld(hash, s.reg, p.key, p.generation);
    DeferredTracked(s.reg, p);
    DeferredOwes(m.reg, m.p);
    QuietFacts(s, p);
    ReleasingKeeps(hash, s, pid, m);
  }

  lemma DeferredTracked(r: Registry, p: Proc)
    requires p.key in r.entries
    ensures var r' := AfterDeferDrain(r, p.key, p.generation);
            Tracked(r', p) ==> r'.entries[p.key].record.drainPending
  {
  }

  // A step around the deploy call that labels its own entry.
  lemma DeployLabel(hash: Scope -> Text, s: System, pid: nat, m: Move)
    requires Inv(hash, s) && pid in s.procs && SameHold(s.procs[pid], m.p) && m.said == []
    requires Clear(s.procs[pid].pc) && m.p.mark == s.procs[pid].mark && Bound(m.p) == Bound(s.procs[pid])
    requires DeployPc(m.p.pc) && !m.p.pc.JudgeNew? && (Obliged(m.p) ==> m.p.drained)
    requires Held(hash, s.reg, m.reg, m.p.key)
    ensures Inv(hash, Committed(s, pid, m))
  {
    hide Inv, HoldOk, PurgedOk, QuietOk, ReadsOk, OwedOk, RegistryOk, ProcsOk, EntriesOk,
      ApplierOk, Inner, Held, SameHold, Proved, Committed, Bound, Obliged, VerdictOk;
    Parts(hash, s, pid);
    HeldParts(hash, s.reg, m.reg, m.p.key);
    QuietFacts(s, s.procs[pid]);
    SameHoldKey(s.procs[pid], m.p);
    QuietStands(s, pid, m);
    NoVerdictYet(Committed(s, pid, m), m.p);
    DeployKeeps(hash, s, pid, m);
  }

  lemma NoVerdictYet(s: System, p: Proc)
    requires !p.pc.Judge? && !p.pc.JudgeNew?
    ensures VerdictOk(s, p)
  {
  }

  lemma DrainDoneKeeps(hash: Scope -> Text, s: System, pid: nat)
    requires Inv(hash, s) && pid in s.procs && s.procs[pid].pc.DrainDone?
    ensures Inv(hash, Committed(s, pid, DrainDoneMove(s.reg, s.procs[pid])))
  {
    hide Inv, Committed, HoldOk, PurgedOk, QuietOk, ReadsOk, VerdictOk, OwedOk, RegistryOk, ProcsOk, EntriesOk,
      ApplierOk, Held, AfterDrainCompleted;
    var p := s.procs[pid];
    Parts(hash, s, pid);
    HeldAt(s, p);
    HeldProc(s.sequential, s.reg, p);
    DrainedHeld(hash, s.reg, p.key, p.generation);
    DeployLabel(hash, s, pid, DrainDoneMove(s.reg, p));
  }

  lemma OwedFacts(r: Registry, p: Proc)
    requires OwedOk(r, p)
    ensures DeployPc(p.pc) && Obliged(p) ==> p.drained
    ensures EnsurePc(p.pc) || DeletePc(p.pc) ==> !p.began
  {
  }

  lemma EnterDeployingKeeps(hash: Scope -> Text, s: System, pid: nat, i: Input)
    requires Inv(hash, s) && pid in s.procs && s.procs[pid].pc.EnterDeploying?
    ensures Inv(hash, Committed(s, pid, PhaseMove(s.reg, s.procs[pid], Deploying, NoReason, DeployCall, i.now)))
  {
    hide Inv, Committed, HoldOk, PurgedOk, QuietOk, ReadsOk, VerdictOk, OwedOk, RegistryOk, ProcsOk, EntriesOk,
      ApplierOk, Held, AfterEnter, SameDrain, Obliged;
    var p := s.procs[pid];
    Parts(hash, s, pid);
    HeldAt(s, p);
    HeldProc(s.sequential, s.reg, p);
    OwedFacts(s.reg, p);
    EnterHeld(hash, s.reg, p.key, p.generation, Deploying, NoReason, i.now);
    SameObligation(p, DeployCall);
    DeployLabel(hash, s, pid, PhaseMove(s.reg, p, Deploying, NoReason, DeployCall, i.now));
  }

  lemma SameObligation(p: Proc, pc: Pc)
    requires DeployPc(p.pc) && DeployPc(pc)
    ensures Obliged(p.(pc := pc)) == Obliged(p) && Bound(p.(pc := pc)) == Bound(p)
  {
  }

  // A deploy step that leaves the registry alone and brings no verdict.
  lemma DeploySilent(hash: Scope -> Text, s: System, pid: nat, m: Move)
    requires Inv(hash, s) && pid in s.procs && DeployPc(s.procs[pid].pc)
    requires m.reg == s.reg && m.said == [] && DeployPc(m.p.pc) && !m.p.pc.JudgeNew?
    requires m.p == s.procs[pid].(pc := m.p.pc, url := m.p.url)
    ensures Inv(hash, Committed(s, pid, m))
  {
    hide Inv, Committed, HoldOk, PurgedOk, QuietOk, ReadsOk, VerdictOk, OwedOk, RegistryOk, ProcsOk, EntriesOk,
      ApplierOk, Held, SameDrain;
    var p := s.procs[pid];
    Parts(hash, s, pid);
    HeldAt(s, p);
    OwedFacts(s.reg, p);
    HeldStill(hash, s, pid);
    DeployLabel(hash, s, pid, m);
  }

  lemma DeployCallKeeps(hash: Scope -> Text, s: System, pid: nat, i: Input)
    requires Inv(hash, s) && pid in s.procs
    ensures s.procs[pid].pc.DeployCall? ==> Inv(hash, Committed(s, pid, Goto(s.procs[pid], DeployActive, s.reg)))
    ensures s.procs[pid].pc.DeployActive? ==> Inv(hash, Committed(s, pid, DeployEndMove(s.reg, s.procs[pid], i)))
  {
    hide Inv, Committed;
    var p := s.procs[pid];
    if p.pc.DeployCall? {
      DeploySilent(hash, s, pid, Goto(p, DeployActive, s.reg));
    } else if p.pc.DeployActive? {
      DeploySilent(hash, s, pid, DeployEndMove(s.reg, p, i));
    }
  }

  lemma DeployFailingKeeps(hash: Scope -> Text, s: System, pid: nat, i: Input)
    requires Inv(hash, s) && pid in s.procs && s.procs[pid].pc.DeployFailing?
    ensures Inv(hash, Committed(s, pid, FailMove(s.reg, s.procs[pid], DeployFailed, 0, i.now)))
  {
    hide Inv, Committed, HoldOk, PurgedOk, QuietOk, ReadsOk, VerdictOk, OwedOk, RegistryOk, ProcsOk, EntriesOk,
      ApplierOk, FailMove, Obliged;
    Parts(hash, s, pid);
    HeldAt(s, s.procs[pid]);
    OwedFacts(s.reg, s.procs[pid]);
    FailKeeps(hash, s, pid, DeployFailed, 0, i.now);
  }

  lemma VerifyNewKeeps(hash: Scope -> Text, s: System, pid: nat, i: Input)
    requires Inv(hash, s) && pid in s.procs && s.procs[pid].pc.VerifyNew?
    ensures Inv(hash, Committed(s, pid, VerdictMove(s.reg, s.procs[pid], JudgeNew, i)))
  {
    hide Inv, Committed, HoldOk, PurgedOk, QuietOk, ReadsOk, VerdictOk, OwedOk, RegistryOk, ProcsOk, EntriesOk,
      ApplierOk, Held, SameDrain;
    var p := s.procs[pid];
    var m := VerdictMove(s.reg, p, JudgeNew, i);
    Parts(hash, s, pid);
    HeldAt(s, p);
    OwedFacts(s.reg, p);
    QuietFacts(s, p);
    QuietWaits(hash, s, pid, m);
    VerdictStands(s, pid, m);
    DeployKeeps(hash, s, pid, m);
  }

  lemma JudgeNewKeeps(hash: Scope -> Text, s: System, pid: nat, i: Input)
    requires Inv(hash, s) && pid in s.procs && s.procs[pid].pc.JudgeNew?
    ensures Inv(hash, Committed(s, pid, JudgeNewMove(s.reg, s.procs[pid], i)))
  {
    hide Inv, Committed, HoldOk, PurgedOk, QuietOk, ReadsOk, VerdictOk, OwedOk, RegistryOk, ProcsOk, EntriesOk,
      ApplierOk, AdmitMove, PauseMove, AfterDemote, Obliged;
    var p := s.procs[pid];
    Parts(hash, s, pid);
    HeldAt(s, p);
    OwedFacts(s.reg, p);
    match p.outcome
    case Passed => AdmittingKeeps(hash, s, pid, i);
    case SuspensionPage => PausingKeeps(hash, s, pid, i);
    case o => DemotingKeeps(hash, s, pid, ReasonFor(o), i.now);
  }

  // -------------------------------------------------------------- deletes

  lemma DeleteSilent(hash: Scope -> Text, s: System, pid: nat, m: Move)
    requires Inv(hash, s) && pid in s.procs && SameHold(s.procs[pid], m.p) && m.reg == s.reg && m.said == []
    requires DeletePc(s.procs[pid].pc) && DeletePc(m.p.pc) && m.p.began == s.procs[pid].began
    requires Quiet(s.procs[pid].pc) && Quiet(m.p.pc) && m.p.mark == s.procs[pid].mark
    requires m.p.pc.DeleteWait? ==> m.p.mark <= m.p.target
    requires Settled(m.p.pc) ==> m.p.mark <= s.serving.snap.at
    requires Clear(m.p.pc) ==> Count(s.inflight, m.p.key) == 0
    ensures Inv(hash, Committed(s, pid, m))
  {
    hide Inv, Committed, HoldOk, PurgedOk, QuietOk, ReadsOk, VerdictOk, OwedOk, RegistryOk, ProcsOk, EntriesOk,
      ApplierOk, Held, Settled, Clear, Quiet, SameHold;
    Parts(hash, s, pid);
    OwedFacts(s.reg, s.procs[pid]);
    QuietWaits(hash, s, pid, m);
    DeletingKeeps(hash, s, pid, m);
  }

  lemma DeleteTargetSet(hash: Scope -> Text, s: System, pid: nat, target: nat)
    requires Inv(hash, s) && pid in s.procs && s.procs[pid].pc.DeleteTarget? && s.procs[pid].mark <= target
    ensures Inv(hash, Committed(s, pid, Goto(s.procs[pid].(target := target), DeleteWait, s.reg)))
  {
    hide Inv, Committed, HoldOk, PurgedOk, QuietOk, ReadsOk, VerdictOk, OwedOk, RegistryOk, ProcsOk, EntriesOk, ApplierOk;
    Parts(hash, s, pid);
    HeldAt(s, s.procs[pid]);
    DeleteSilent(hash, s, pid, Goto(s.procs[pid].(target := target), DeleteWait, s.reg));
  }

  lemma DeleteTargetKeeps(hash: Scope -> Text, s: System, pid: nat, i: Input)
    requires Inv(hash, s) && pid in s.procs && s.procs[pid].pc.DeleteTarget?
    ensures Inv(hash, Committed(s, pid, TargetMove(s.reg, s.procs[pid], DeleteWait, i)))
  {
    hide Inv, Committed;
    if s.procs[pid].mark <= i.target <= s.reg.notifySeq {
      DeleteTargetSet(hash, s, pid, i.target);
    } else {
      TargetStays(hash, s, pid);
    }
  }

  lemma DeleteWaitKeeps(hash: Scope -> Text, s: System, pid: nat)
    requires Inv(hash, s) && pid in s.procs && s.procs[pid].pc.DeleteWait?
    ensures Inv(hash, Committed(s, pid, SettleMove(s, s.procs[pid], DeleteDrain, ReleaseHold)))
  {
    hide Inv, Committed, HoldOk, PurgedOk, QuietOk, ReadsOk, VerdictOk, OwedOk, RegistryOk, ProcsOk, EntriesOk, ApplierOk;
    var p := s.procs[pid];
    Parts(hash, s, pid);
    HeldAt(s, p);
    AppliedBelow(s);
    QuietFacts(s, p);
    if s.applied >= p.target {
      DeleteSilent(hash, s, pid, Goto(p, DeleteDrain, s.reg));
    } else if s.shutting {
      OwedFacts(s.reg, p);
      QuitKeeps(hash, s, pid);
    } else {
      DeleteSilent(hash, s, pid, Goto(p, DeleteWait, s.reg));
    }
  }

  lemma DeleteDrainKeeps(hash: Scope -> Text, s: System, pid: nat, i: Input)
    requires Inv(hash, s) && pid in s.procs && s.procs[pid].pc.DeleteDrain?
    ensures Inv(hash, Committed(s, pid, DrainMove(s, s.procs[pid], DeleteCall, DeleteFail, i)))
  {
    hide Inv, Committed, HoldOk, PurgedOk, QuietOk, ReadsOk, VerdictOk, OwedOk, RegistryOk, ProcsOk, EntriesOk, ApplierOk;
    Parts(hash, s, pid);
    HeldAt(s, s.procs[pid]);
    QuietFacts(s, s.procs[pid]);
    DeleteSilent(hash, s, pid, DrainMove(s, s.procs[pid], DeleteCall, DeleteFail, i));
  }

  lemma DeleteCallKeeps(hash: Scope -> Text, s: System, pid: nat, pc: Pc)
    requires Inv(hash, s) && pid in s.procs && (s.procs[pid].pc.DeleteCall? || s.procs[pid].pc.DeleteActive?)
    requires pc.DeleteActive? || pc.DeleteFinish? || pc.DeleteFail?
    ensures Inv(hash, Committed(s, pid, Goto(s.procs[pid], pc, s.reg)))
  {
    hide Inv, Committed, HoldOk, PurgedOk, QuietOk, ReadsOk, VerdictOk, OwedOk, RegistryOk, ProcsOk, EntriesOk, ApplierOk;
    Parts(hash, s, pid);
    HeldAt(s, s.procs[pid]);
    QuietFacts(s, s.procs[pid]);
    DeleteSilent(hash, s, pid, Goto(s.procs[pid], pc, s.reg));
  }

  lemma DeleteFailKeeps(hash: Scope -> Text, s: System, pid: nat, i: Input)
    requires Inv(hash, s) && pid in s.procs && s.procs[pid].pc.DeleteFail?
    ensures Inv(hash, Committed(s, pid, DeleteFailMove(s.reg, s.procs[pid], i)))
  {
    hide Inv, Committed, HoldOk, PurgedOk, QuietOk, ReadsOk, VerdictOk, RegistryOk, ProcsOk, EntriesOk,
      ApplierOk, Held, SameDrain, AfterDeleteFailed, OwedOk;
    var p := s.procs[pid];
    var m := DeleteFailMove(s.reg, p, i);
    Parts(hash, s, pid);
    HeldAt(s, p);
    HeldProc(s.sequential, s.reg, p);
    OwedFacts(s.reg, p);
    DeleteFailedHeld(hash, s.reg, p.key, p.generation, Detail(i.url), i.now);
    NothingOwed(m.reg, m.p);
    ReleasingKeeps(hash, s, pid, m);
  }

  lemma NothingOwed(r: Registry, p: Proc)
    requires p.pc.ReleaseHold? && (!p.began || p.purged)
    ensures OwedOk(r, p)
  {
  }

  // The purge: the holder keeps only a closure on an entry that is gone.
  lemma FinishShape(hash: Scope -> Text, r: Registry, p: Proc)
    requires RegistryOk(hash, r) && p.key in r.entries && r.entries[p.key].id == p.id
    ensures var m := DeleteFinishMove(r, p);
            if m.p.purged then OnlyAt(r, m.reg, p.key) && PurgedOk(m.reg, m.p) && p.key !in m.reg.entries
            else m == Goto(p, ReleaseHold, r).(p := m.p) && m.p == p.(pc := ReleaseHold, purged := false)
  {
  }

  lemma PurgedReleaseOk(s: System, p: Proc)
    requires p.pc.ReleaseHold? && p.purged && PurgedOk(s.reg, p)
    ensures ProcOk(s, p)
  {
  }

  lemma HoldId(sequential: bool, r: Registry, p: Proc)
    requires HoldOk(r, sequential, p) && Holding(p)
    ensures p.key in r.entries && r.entries[p.key].id == p.id
  {
  }

  lemma GoneEntryRight(s: System, k: Key)
    requires k !in s.reg.entries
    ensures EntryRight(s, k)
  {
  }

  lemma DeleteFinishKeeps(hash: Scope -> Text, s: System, pid: nat)
    requires Inv(hash, s) && pid in s.procs && s.procs[pid].pc.DeleteFinish?
    ensures Inv(hash, Committed(s, pid, DeleteFinishMove(s.reg, s.procs[pid])))
  {
    hide Inv, Committed, HoldOk, PurgedOk, QuietOk, ReadsOk, VerdictOk, RegistryOk, ProcsOk, EntriesOk,
      ApplierOk, Held, SameDrain, AfterDeleteDone, OwedOk, OnlyAt, Alone, EntryRight, ProcOk, Announced;
    var p := s.procs[pid];
    var m := DeleteFinishMove(s.reg, p);
    Parts(hash, s, pid);
    HeldAt(s, p);
    OwedFacts(s.reg, p);
    HoldId(s.sequential, s.reg, p);
    FinishShape(hash, s.reg, p);
    if m.p.purged {
      DeleteDoneKeeps(hash, s.reg, p.key, p.generation);
      HolderAlone(s, pid);
      CommittedReg(s, pid, m);
      PurgedReleaseOk(Committed(s, pid, m), m.p);
      GoneEntryRight(Committed(s, pid, m), p.key);
      CommitKeeps(hash, s, pid, m);
    } else {
      QuitKeeps(hash, s, pid);
    }
  }

  // -------------------------------------------------------------- release

  lemma ReleaseShape(sequential: bool, r: Registry, p: Proc)
    requires HoldOk(r, sequential, p) && PurgedOk(r, p) && p.pc.ReleaseHold?
    ensures var m := ReleaseMove(r, p);
            && OnlyAt(r, m.reg, p.key) && PurgedOk(m.reg, m.p)
            && (p.purged ==> m.reg == r)
            && m.reg.entries.Keys == r.entries.Keys
            && (p.key in m.reg.entries ==>
               var e', e := m.reg.entries[p.key], r.entries[p.key];
                  e'.id == e.id && e'.record == e.record && e'.serving == e.serving && e'.endpoint == e.endpoint)
  {
  }

  lemma DoneOk(s: System, p: Proc)
    requires p.pc.Done? && PurgedOk(s.reg, p)
    ensures ProcOk(s, p)
  {
  }

  lemma ReleaseKeeps(hash: Scope -> Text, s: System, pid: nat)
    requires Inv(hash, s) && pid in s.procs && s.procs[pid].pc.ReleaseHold?
    ensures Inv(hash, Committed(s, pid, ReleaseMove(s.reg, s.procs[pid])))
  {
    hide Inv, Committed, HoldOk, PurgedOk, QuietOk, ReadsOk, VerdictOk, RegistryOk, ProcsOk, EntriesOk,
      ApplierOk, AfterRelease, OwedOk, OnlyAt, Alone, EntryRight, ProcOk, Announced;
    var p := s.procs[pid];
    var m := ReleaseMove(s.reg, p);
    Parts(hash, s, pid);
    ReleaseShape(s.sequential, s.reg, p);
    FlagKeeps(hash, s.reg, Release(Hold(p.key, p.id, p.generation)));
    CommittedReg(s, pid, m);
    DoneOk(Committed(s, pid, m), m.p);
    TakenEntryRight(s, pid, m);
    if !p.purged {
      HolderAlone(s, pid);
    }
    CommitKeeps(hash, s, pid, m);
  }

  // Nothing happens to a worker that is done.
  lemma DoneKeeps(hash: Scope -> Text, s: System, pid: nat)
    requires Inv(hash, s) && pid in s.procs && s.procs[pid].pc.Done?
    ensures Inv(hash, Committed(s, pid, Goto(s.procs[pid], Done, s.reg)))
  {
    hide Inv, Committed, HoldOk, PurgedOk, QuietOk, ReadsOk, VerdictOk, RegistryOk, ProcsOk, EntriesOk,
      ApplierOk, OwedOk, Alone, EntryRight, ProcOk;
    var p := s.procs[pid];
    var m := Goto(p, Done, s.reg);
    Parts(hash, s, pid);
    StillKept(hash, s.reg);
    CommittedReg(s, pid, m);
    DoneOk(Committed(s, pid, m), m.p);
    TakenEntryRight(s, pid, m);
    CommitKeeps(hash, s, pid, m);
  }

  // ------------------------------------------------------- any worker step

  lemma BeforeHoldKeeps(hash: Scope -> Text, s: System, pid: nat, pc: Pc)
    requires Inv(hash, s) && pid in s.procs
    requires var pc := s.procs[pid].pc; pc.CheckGate? || pc.CheckState? || pc.DeleteGate?
    requires pc.CheckState? || pc.TakeHold? || pc.DeleteHold? || pc.Done?
    ensures Inv(hash, Committed(s, pid, Goto(s.procs[pid], pc, s.reg)))
  {
    hide Inv, Committed, HoldOk, PurgedOk, QuietOk, ReadsOk, VerdictOk, OwedOk, RegistryOk, ProcsOk, EntriesOk, ApplierOk;
    Parts(hash, s, pid);
    HeldAt(s, s.procs[pid]);
    OwedFacts(s.reg, s.procs[pid]);
    OutsideKeeps(hash, s, pid, Goto(s.procs[pid], pc, s.reg));
  }

  lemma EnsureKeeps(hash: Scope -> Text, s: System, pid: nat, i: Input)
    requires Inv(hash, s) && pid in s.procs && EnsurePc(s.procs[pid].pc)
    ensures Inv(hash, Committed(s, pid, WorkerMove(s, s.procs[pid], i)))
  {
    hide Inv, Committed, TakeHoldMove, RecheckMove, ResolveMove, ReadServingMove, ReadDrainMove, PhaseMove,
      DiscoverMove, VerdictMove, JudgeMove;
    var p := s.procs[pid];
    match p.pc
    case CheckGate => BeforeHoldKeeps(hash, s, pid, if Allowed(s.reg, p.key, i.now) then CheckState else Done);
    case CheckState => BeforeHoldKeeps(hash, s, pid, if Removable(s.reg, p.key) then Done else TakeHold);
    case TakeHold => TakeHoldKeeps(hash, s, pid, i);
    case Recheck => RecheckKeeps(hash, s, pid);
    case Resolve => ResolveKeeps(hash, s, pid, i);
    case ReadServing => ReadingKeeps(hash, s, pid);
    case ReadDrain => ReadingKeeps(hash, s, pid);
    case EnterDiscovering => EnteringKeeps(hash, s, pid, Discovering, NoReason, Discover, i.now);
    case NoteMissing => EnteringKeeps(hash, s, pid, Discovered, Missing, TakeMarker, i.now);
    case Discover => DiscoverKeeps(hash, s, pid, i);
    case Probe => ProbeKeeps(hash, s, pid, i);
    case Judge => JudgeKeeps(hash, s, pid, i);
  }

  lemma BarrierKeeps(hash: Scope -> Text, s: System, pid: nat, i: Input)
    requires Inv(hash, s) && pid in s.procs && BarrierPc(s.procs[pid].pc)
    ensures Inv(hash, Committed(s, pid, WorkerMove(s, s.procs[pid], i)))
  {
    hide Inv, Committed, TakeMarkerMove, RevokeMove, TargetMove, SettleMove, DrainMove, PhaseMove, DeferMove,
      DrainDoneMove;
    match s.procs[pid].pc
    case TakeMarker => TakeMarkerKeeps(hash, s, pid);
    case Revoke => RevokeKeeps(hash, s, pid, i);
    case SettleTarget => TargetKeeps(hash, s, pid, i);
    case SettleWait => SettleKeeps(hash, s, pid);
    case Drain => DrainKeeps(hash, s, pid, i);
    case MarkUnready => MarkUnreadyKeeps(hash, s, pid, i);
    case Defer => DeferKeeps(hash, s, pid);
    case DrainDone => DrainDoneKeeps(hash, s, pid);
  }

  lemma DeployStepKeeps(hash: Scope -> Text, s: System, pid: nat, i: Input)
    requires Inv(hash, s) && pid in s.procs && DeployPc(s.procs[pid].pc)
    ensures Inv(hash, Committed(s, pid, WorkerMove(s, s.procs[pid], i)))
  {
    hide Inv, Committed, PhaseMove, DeployEndMove, FailMove, VerdictMove, JudgeNewMove;
    match s.procs[pid].pc
    case EnterDeploying => EnterDeployingKeeps(hash, s, pid, i);
    case DeployCall => DeployCallKeeps(hash, s, pid, i);
    case DeployActive => DeployCallKeeps(hash, s, pid, i);
    case DeployFailing => DeployFailingKeeps(hash, s, pid, i);
    case VerifyNew => VerifyNewKeeps(hash, s, pid, i);
    case JudgeNew => JudgeNewKeeps(hash, s, pid, i);
  }

  lemma DeleteStepKeeps(hash: Scope -> Text, s: System, pid: nat, i: Input)
    requires Inv(hash, s) && pid in s.procs && DeletePc(s.procs[pid].pc)
    ensures Inv(hash, Committed(s, pid, WorkerMove(s, s.procs[pid], i)))
  {
    hide Inv, Committed, DeleteHoldMove, TargetMove, SettleMove, DrainMove, DeleteFinishMove, DeleteFailMove;
    var p := s.procs[pid];
    match p.pc
    case DeleteGate => BeforeHoldKeeps(hash, s, pid, if Allowed(s.reg, p.key, i.now) then DeleteHold else Done);
    case DeleteHold => DeleteHoldKeeps(hash, s, pid);
    case DeleteTarget => DeleteTargetKeeps(hash, s, pid, i);
    case DeleteWait => DeleteWaitKeeps(hash, s, pid);
    case DeleteDrain => DeleteDrainKeeps(hash, s, pid, i);
    case DeleteCall =>
      DeleteCallKeeps(hash, s, pid, if i.discovery.Absent? then DeleteFinish
                                    else if i.discovery.DiscoverError? then DeleteFail else DeleteActive);
    case DeleteActive => DeleteCallKeeps(hash, s, pid, if i.ok then DeleteFinish else DeleteFail);
    case DeleteFinish => DeleteFinishKeeps(hash, s, pid);
    case DeleteFail => DeleteFailKeeps(hash, s, pid, i);
  }

  // Whatever a worker does next, the invariant stands.
  lemma WorkKeeps(hash: Scope -> Text, s: System, pid: nat, i: Input)
    requires Inv(hash, s) && pid in s.procs
    ensures Inv(hash, Committed(s, pid, WorkerMove(s, s.procs[pid], i)))
  {
    hide Inv, Committed, ReleaseMove;
    if EnsurePc(s.procs[pid].pc) {
      EnsureKeeps(hash, s, pid, i);
    } else if BarrierPc(s.procs[pid].pc) {
      BarrierKeeps(hash, s, pid, i);
    } else if DeployPc(s.procs[pid].pc) {
      DeployStepKeeps(hash, s, pid, i);
    } else if DeletePc(s.procs[pid].pc) {
      DeleteStepKeeps(hash, s, pid, i);
    } else if s.procs[pid].pc.ReleaseHold? {
      ReleaseKeeps(hash, s, pid);
    } else {
      DoneKeeps(hash, s, pid);
    }
  }
}
