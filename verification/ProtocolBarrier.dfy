// The drain barrier, exactly: at a rollout's start the registry's flags decide
// whether the deploy can come under the traffic of that moment.
module ProtocolBarrier {
  import opened Readiness
  import opened ReadinessLaws
  import opened Protocol
  import opened ProtocolInvariant
  import opened ProtocolWorkers
  import opened ProtocolSteps
  import opened ProtocolRuns
  import opened ProtocolTheorems

  // What a rollout of k would find: admission, a deferred drain, an unspent
  // scope-change marker.
  predicate Flagged(r: Registry, k: Key) {
    k in r.entries
    && (r.entries[k].serving || r.entries[k].record.drainPending || r.entries[k].scopeChanged)
  }

  // From the marker's reading to the end of the worker.
  predicate Rolling(pc: Pc) {
    pc.Revoke? || pc.SettleTarget? || pc.SettleWait? || pc.Drain? || pc.MarkUnready? || pc.Defer? || pc.DrainDone?
    || DeployPc(pc) || pc.ReleaseHold? || pc.Done?
  }

  // The rollout that was about to start goes on, with the obligation decided.
  predicate Decided(s: System, pid: nat, flagged: bool) {
    && pid in s.procs
    && var p := s.procs[pid];
       || (p.pc.TakeMarker? && Holding(p) && Flagged(s.reg, p.key) == flagged)
       || (Rolling(p.pc) && Obliged(p) == flagged)
  }

  // The worker goes on as this worker: its number is not given to a new one.
  predicate Respawns(l: Label, pid: nat) {
    (l.SpawnEnsure? || l.SpawnDelete?) && l.pid == pid
  }

  predicate SameWorker(ls: seq<Label>, pid: nat) {
    forall i | 0 <= i < |ls| :: !Respawns(ls[i], pid)
  }

  // ------------------------------------------------- nobody else interferes

  lemma BeginElsewhere(r: Registry, k: Key, now: Clock, j: Key)
    requires j in r.entries && j != k
    ensures var r' := AfterBegin(r, k, now).0; j in r'.entries && r'.entries[j] == r.entries[j]
  {
  }

  // A worker's step leaves every other relay's entry alone.
  lemma EnsureElsewhere(hash: Scope -> Text, s: System, p: Proc, i: Input, j: Key)
    requires EnsurePc(p.pc) && j in s.reg.entries && j != p.key
    ensures var r' := WorkerMove(s, p, i).reg; j in r'.entries && r'.entries[j] == s.reg.entries[j]
  {
    hide AfterBegin, AfterFailing, AfterEnter, AfterReady, AfterPause, Serving, Allowed;
    var r, k, g := s.reg, p.key, p.generation;
    match p.pc
    case TakeHold => BeginElsewhere(r, k, i.now, j);
    case Resolve => OtherEntryKept(hash, r, Failing(k, g, CredentialFailed, 0, i.now), k, j);
    case EnterDiscovering => OtherEntryKept(hash, r, Enter(k, g, Discovering, NoReason, i.now), k, j);
    case NoteMissing => OtherEntryKept(hash, r, Enter(k, g, Discovered, Missing, i.now), k, j);
    case Discover =>
      if i.discovery.DiscoverError? {
        OtherEntryKept(hash, r, Failing(k, g, i.discovery.reason, 0, i.now), k, j);
      }
    case Judge =>
      OtherEntryKept(hash, r, Admit(k, g, Endpoint(p.url, p.relayKey), i.duration, i.now), k, j);
      OtherEntryKept(hash, r, Pause(k, g, Suspended, i.now), k, j);
      OtherEntryKept(hash, r, Failing(k, g, Unreachable, i.duration, i.now), k, j);
      OtherEntryKept(hash, r, Failing(k, g, ProbeFailed, i.duration, i.now), k, j);
    case _ =>
  }

  lemma BarrierElsewhere(hash: Scope -> Text, s: System, p: Proc, i: Input, j: Key)
    requires BarrierPc(p.pc) && j in s.reg.entries && j != p.key
    ensures var r' := WorkerMove(s, p, i).reg; j in r'.entries && r'.entries[j] == s.reg.entries[j]
  {
    hide AfterTakeScopeChanged, AfterDemote, AfterEnter, AfterDeferDrain, AfterDrainCompleted, Count;
    var r, k, g := s.reg, p.key, p.generation;
    match p.pc
    case TakeMarker => OtherEntryKept(hash, r, TakeScopeChanged(k, g), k, j);
    case Revoke => OtherEntryKept(hash, r, Demote(k, g, Replacing, i.now), k, j);
    case MarkUnready => OtherEntryKept(hash, r, Enter(k, g, Unready, Replacing, i.now), k, j);
    case Defer => OtherEntryKept(hash, r, DeferDrain(k, g), k, j);
    case DrainDone => OtherEntryKept(hash, r, DrainCompleted(k, g), k, j);
    case _ =>
  }

  lemma DeployElsewhere(hash: Scope -> Text, s: System, p: Proc, i: Input, j: Key)
    requires DeployPc(p.pc) && j in s.reg.entries && j != p.key
    ensures var r' := WorkerMove(s, p, i).reg; j in r'.entries && r'.entries[j] == s.reg.entries[j]
  {
    hide AfterDemote, AfterEnter, AfterFailing, AfterReady, AfterPause;
    var r, k, g := s.reg, p.key, p.generation;
    match p.pc
    case EnterDeploying => OtherEntryKept(hash, r, Enter(k, g, Deploying, NoReason, i.now), k, j);
    case DeployFailing => OtherEntryKept(hash, r, Failing(k, g, DeployFailed, 0, i.now), k, j);
    case JudgeNew =>
      OtherEntryKept(hash, r, Admit(k, g, Endpoint(p.url, p.relayKey), i.duration, i.now), k, j);
      OtherEntryKept(hash, r, Pause(k, g, Suspended, i.now), k, j);
      OtherEntryKept(hash, r, Demote(k, g, ReasonFor(p.outcome), i.now), k, j);
    case _ =>
  }

  lemma DeleteElsewhere(hash: Scope -> Text, s: System, p: Proc, i: Input, j: Key)
    requires DeletePc(p.pc) && j in s.reg.entries && j != p.key
    ensures var r' := WorkerMove(s, p, i).reg; j in r'.entries && r'.entries[j] == s.reg.entries[j]
  {
    hide WorkerMove;
    if p.pc.DeleteHold? || p.pc.DeleteFinish? || p.pc.DeleteFail? {
      DeleteActsElsewhere(hash, s, p, i, j);
    } else {
      DeleteWaits(s, p, i);
    }
  }

  lemma DeleteActsElsewhere(hash: Scope -> Text, s: System, p: Proc, i: Input, j: Key)
    requires p.pc.DeleteHold? || p.pc.DeleteFinish? || p.pc.DeleteFail?
    requires j in s.reg.entries && j != p.key
    ensures var r' := WorkerMove(s, p, i).reg; j in r'.entries && r'.entries[j] == s.reg.entries[j]
  {
    hide AfterBeginDelete, AfterDeleteDone, AfterDeleteFailed, Current;
    var r, k, g := s.reg, p.key, p.generation;
    match p.pc
    case DeleteHold => OtherEntryKept(hash, r, BeginDelete(k), k, j);
    case DeleteFinish => OtherEntryKept(hash, r, DeleteDone(k, g), k, j);
    case DeleteFail => OtherEntryKept(hash, r, DeleteFailed(k, g, Detail(i.url), i.now), k, j);
  }

  lemma DeleteWaits(s: System, p: Proc, i: Input)
    requires DeletePc(p.pc) && !p.pc.DeleteHold? && !p.pc.DeleteFinish? && !p.pc.DeleteFail?
    ensures WorkerMove(s, p, i).reg == s.reg
  {
    hide Count, Allowed;
  }

  lemma EndElsewhere(hash: Scope -> Text, s: System, p: Proc, i: Input, j: Key)
    requires (p.pc.ReleaseHold? || p.pc.Done?) && j in s.reg.entries && j != p.key
    ensures var r' := WorkerMove(s, p, i).reg; j in r'.entries && r'.entries[j] == s.reg.entries[j]
  {
    hide AfterRelease;
    OtherEntryKept(hash, s.reg, Release(Hold(p.key, p.id, p.generation)), p.key, j);
  }

  // A worker without a hold cannot touch an entry somebody holds.
  lemma Powerless(s: System, p: Proc, i: Input)
    requires !Holding(p) && PurgedOk(s.reg, p) && p.key in s.reg.entries && s.reg.entries[p.key].busy
    ensures WorkerMove(s, p, i).reg == s.reg
  {
  }

  lemma WorkerElsewhere(hash: Scope -> Text, s: System, p: Proc, i: Input, j: Key)
    requires j in s.reg.entries && j != p.key
    ensures var r' := WorkerMove(s, p, i).reg; j in r'.entries && r'.entries[j] == s.reg.entries[j]
  {
    hide WorkerMove;
    if EnsurePc(p.pc) {
      EnsureElsewhere(hash, s, p, i, j);
    } else if BarrierPc(p.pc) {
      BarrierElsewhere(hash, s, p, i, j);
    } else if DeployPc(p.pc) {
      DeployElsewhere(hash, s, p, i, j);
    } else if DeletePc(p.pc) {
      DeleteElsewhere(hash, s, p, i, j);
    } else {
      EndElsewhere(hash, s, p, i, j);
    }
  }

  // So what a holder's entry says stands while other workers act.
  lemma OthersAside(hash: Scope -> Text, s: System, pid: nat, q: nat, i: Input)
    requires Inv(hash, s) && pid in s.procs && q in s.procs && q != pid && Holding(s.procs[pid])
    ensures var r', k := WorkerMove(s, s.procs[q], i).reg, s.procs[pid].key;
            k in s.reg.entries && k in r'.entries && r'.entries[k] == s.reg.entries[k]
  {
    hide Inv, WorkerMove, HoldOk, PurgedOk, ReadsOk, OwedOk, Holding;
    var p, k := s.procs[q], s.procs[pid].key;
    OwedPart(hash, s, pid);
    OwedPart(hash, s, q);
    HeldBusy(s.sequential, s.reg, s.procs[pid]);
    if p.key == k {
      NotBoth(hash, s, pid, q);
      Powerless(s, p, i);
    } else {
      WorkerElsewhere(hash, s, p, i, k);
    }
  }

  lemma HeldBusy(sequential: bool, r: Registry, p: Proc)
    requires HoldOk(r, sequential, p) && Holding(p)
    ensures p.key in r.entries && r.entries[p.key].busy
    ensures sequential ==> Tracked(r, p)
  {
  }

  lemma NotBoth(hash: Scope -> Text, s: System, a: nat, b: nat)
    requires Inv(hash, s) && a in s.procs && b in s.procs && a != b && Holding(s.procs[a])
    requires s.procs[a].key == s.procs[b].key
    ensures !Holding(s.procs[b])
  {
    hide RegistryOk, ApplierOk, EntriesOk, CountsOk, AttemptsOk, ProcOk;
  }

  // -------------------------------------------------- the decision stands

  // Reading the marker decides: the obligation is what the flags say.
  lemma MarkerDecides(hash: Scope -> Text, s: System, pid: nat)
    requires Inv(hash, s) && s.sequential && pid in s.procs && s.procs[pid].pc.TakeMarker? && Holding(s.procs[pid])
    ensures var p := s.procs[pid]; Obliged(TakeMarkerMove(s.reg, p).p) == Flagged(s.reg, p.key)
  {
    hide Inv;
    OwedPart(hash, s, pid);
  }

  // After that nothing the worker does changes it.
  lemma RollingOn(s: System, p: Proc, i: Input)
    requires Rolling(p.pc)
    ensures var p' := WorkerMove(s, p, i).p; Rolling(p'.pc) && Obliged(p') == Obliged(p)
  {
    hide WorkerMove, Obliged;
    match p.pc
    case Revoke => RevokeOn(s, p, i);
    case SettleTarget => SettleOn(s, p, i);
    case SettleWait => SettleOn(s, p, i);
    case Drain => DrainOn(s, p, i);
    case MarkUnready => DrainOn(s, p, i);
    case Defer => DrainedOn(s, p, i);
    case DrainDone => DrainedOn(s, p, i);
    case EnterDeploying => DeployOn(s, p, i);
    case DeployCall => DeployOn(s, p, i);
    case DeployActive => DeployOn(s, p, i);
    case DeployFailing => VerdictOn(s, p, i);
    case VerifyNew => VerdictOn(s, p, i);
    case JudgeNew => JudgeNewOn(s, p, i);
    case _ => EndOn(s, p, i);
  }

  lemma RevokeOn(s: System, p: Proc, i: Input)
    requires p.pc.Revoke?
    ensures var p' := WorkerMove(s, p, i).p; Rolling(p'.pc) && Obliged(p') == Obliged(p)
  {
    hide AfterDemote, AfterEnter, AfterFailing, AfterReady, AfterPause, AfterDeferDrain, AfterDrainCompleted, Count;
  }

  lemma SettleOn(s: System, p: Proc, i: Input)
    requires p.pc.SettleTarget? || p.pc.SettleWait?
    ensures var p' := WorkerMove(s, p, i).p; Rolling(p'.pc) && Obliged(p') == Obliged(p)
  {
    hide AfterDemote, AfterEnter, AfterFailing, AfterReady, AfterPause, AfterDeferDrain, AfterDrainCompleted, Count;
  }

  lemma DrainOn(s: System, p: Proc, i: Input)
    requires p.pc.Drain? || p.pc.MarkUnready?
    ensures var p' := WorkerMove(s, p, i).p; Rolling(p'.pc) && Obliged(p') == Obliged(p)
  {
    hide AfterDemote, AfterEnter, AfterFailing, AfterReady, AfterPause, AfterDeferDrain, AfterDrainCompleted, Count;
  }

  lemma DrainedOn(s: System, p: Proc, i: Input)
    requires p.pc.Defer? || p.pc.DrainDone?
    ensures var p' := WorkerMove(s, p, i).p; Rolling(p'.pc) && Obliged(p') == Obliged(p)
  {
    hide AfterDemote, AfterEnter, AfterFailing, AfterReady, AfterPause, AfterDeferDrain, AfterDrainCompleted, Count;
  }

  lemma DeployOn(s: System, p: Proc, i: Input)
    requires p.pc.EnterDeploying? || p.pc.DeployCall? || p.pc.DeployActive?
    ensures var p' := WorkerMove(s, p, i).p; Rolling(p'.pc) && Obliged(p') == Obliged(p)
  {
    hide AfterDemote, AfterEnter, AfterFailing, AfterReady, AfterPause, AfterDeferDrain, AfterDrainCompleted, Count;
  }

  lemma VerdictOn(s: System, p: Proc, i: Input)
    requires p.pc.DeployFailing? || p.pc.VerifyNew?
    ensures var p' := WorkerMove(s, p, i).p; Rolling(p'.pc) && Obliged(p') == Obliged(p)
  {
    hide AfterDemote, AfterEnter, AfterFailing, AfterReady, AfterPause, AfterDeferDrain, AfterDrainCompleted, Count;
  }

  lemma JudgeNewOn(s: System, p: Proc, i: Input)
    requires p.pc.JudgeNew?
    ensures var p' := WorkerMove(s, p, i).p; Rolling(p'.pc) && Obliged(p') == Obliged(p)
  {
    hide AfterDemote, AfterEnter, AfterFailing, AfterReady, AfterPause, AfterDeferDrain, AfterDrainCompleted, Count;
  }

  lemma EndOn(s: System, p: Proc, i: Input)
    requires p.pc.ReleaseHold? || p.pc.Done?
    ensures var p' := WorkerMove(s, p, i).p; Rolling(p'.pc) && Obliged(p') == Obliged(p)
  {
    hide AfterRelease;
  }

  lemma WorkDecided(hash: Scope -> Text, s: System, pid: nat, q: nat, i: Input, flagged: bool)
    requires Inv(hash, s) && s.sequential && Decided(s, pid, flagged) && q in s.procs
    ensures Decided(Committed(s, q, WorkerMove(s, s.procs[q], i)), pid, flagged)
  {
    hide Inv, WorkerMove, Rolling, Obliged, Lost, Holding;
    var p := s.procs[pid];
    if q != pid {
      if p.pc.TakeMarker? && Holding(p) {
        OthersAside(hash, s, pid, q, i);
      }
    } else if p.pc.TakeMarker? {
      NotYetRolling(p.pc);
      MarkerDecides(hash, s, pid);
      TakesMarker(s, p, i);
    } else {
      RollingOn(s, p, i);
    }
  }

  lemma NotYetRolling(pc: Pc)
    requires pc.TakeMarker?
    ensures !Rolling(pc)
  {
  }

  lemma TakesMarker(s: System, p: Proc, i: Input)
    requires p.pc.TakeMarker?
    ensures WorkerMove(s, p, i) == TakeMarkerMove(s.reg, p) && Rolling(TakeMarkerMove(s.reg, p).p.pc)
  {
  }

  lemma SettingsFlagged(r: Registry, raw: RawSettings, k: Key)
    ensures Flagged(AfterUpdateSettings(r, raw), k) == Flagged(r, k)
  {
  }

  lemma NotIdle(s: System, pid: nat)
    requires pid in s.procs && Holding(s.procs[pid])
    ensures !Idle(s)
  {
  }

  lemma StepDecided(hash: Scope -> Text, s: System, l: Label, pid: nat, flagged: bool)
    requires Inv(hash, s) && s.sequential && Decided(s, pid, flagged) && !Respawns(l, pid)
    ensures Decided(Step(s, l, hash), pid, flagged)
  {
    hide Inv, WorkerMove, AfterSync, AfterUpdateSettings, PoolOf, Begun, Ended, SnapshotOf, AttemptOn, Idle, Lost,
      Rolling, Obliged, Holding, Flagged;
    match l
    case Work(q, i) =>
      if q in s.procs {
        WorkDecided(hash, s, pid, q, i, flagged);
      }
    case Configure(raw) => SettingsFlagged(s.reg, raw, s.procs[pid].key);
    case Sync(_, _) =>
      if Holding(s.procs[pid]) {
        NotIdle(s, pid);
      }
    case _ =>
  }

  lemma {:induction false} RunDecided(hash: Scope -> Text, s: System, more: seq<Label>, pid: nat, flagged: bool)
    requires Inv(hash, s) && s.sequential && Decided(s, pid, flagged) && SameWorker(more, pid)
    ensures var s' := Protocol.Run(s, more, hash);
            Inv(hash, s') && s'.sequential && Decided(s', pid, flagged)
  {
    hide Inv, Step, Decided;
    if more != [] {
      var front, l := more[..|more| - 1], more[|more| - 1];
      RunDecided(hash, s, front, pid, flagged);
      var mid := Protocol.Run(s, front, hash);
      StepKeeps(hash, mid, l);
      StepSequential(hash, mid, l);
      StepDecided(hash, mid, l, pid, flagged);
    }
  }

  // ---------------------------------------------------------- the barrier

  // A remote deploy is in progress on a relay that requests travel through.
  predicate DeploysUnderTraffic(s: System, pid: nat) {
    pid in s.procs && s.procs[pid].pc.DeployActive? && Count(s.inflight, s.procs[pid].key) > 0
  }

  // This very rollout can come to deploy under traffic.
  ghost predicate CanDeployUnderTraffic(hash: Scope -> Text, s: System, pid: nat) {
    exists more: seq<Label> :: SameWorker(more, pid) && DeploysUnderTraffic(Protocol.Run(s, more, hash), pid)
  }

  // A rollout about to start, with a request in flight on its relay.
  predicate AboutToStart(s: System, pid: nat) {
    pid in s.procs && s.procs[pid].pc.TakeMarker? && Count(s.inflight, s.procs[pid].key) > 0
  }

  function AnyInput(): Input {
    Input(1, 0, true, 0, Discovery.Absent, Passed, "")
  }

  function Worked(hash: Scope -> Text, s: System, pid: nat): System {
    Step(s, Work(pid, AnyInput()), hash)
  }

  // Without an obligation the next steps lead straight to the deploy call, and
  // the requests stay where they are.
  lemma StraightToDeploy(hash: Scope -> Text, s: System, pid: nat)
    requires pid in s.procs && s.procs[pid].pc.TakeMarker? && !Obliged(TakeMarkerMove(s.reg, s.procs[pid]).p)
    ensures var s' := Worked(hash, Worked(hash, Worked(hash, Worked(hash, s, pid), pid), pid), pid);
            && pid in s'.procs && s'.procs[pid].pc.DeployActive? && s'.procs[pid].key == s.procs[pid].key
            && s'.inflight == s.inflight
  {
    hide AfterTakeScopeChanged, AfterDemote, AfterEnter, Lost;
    var s1 := Worked(hash, s, pid);
    assert s1.procs[pid].pc.Revoke? && !Obliged(s1.procs[pid]) && s1.inflight == s.inflight;
    var s2 := Worked(hash, s1, pid);
    assert s2.procs[pid].pc.EnterDeploying? && s2.inflight == s.inflight;
    DeployNext(hash, s2, pid);
  }

  lemma DeployNext(hash: Scope -> Text, s: System, pid: nat)
    requires pid in s.procs && s.procs[pid].pc.EnterDeploying?
    ensures var s' := Worked(hash, Worked(hash, s, pid), pid);
            && pid in s'.procs && s'.procs[pid].pc.DeployActive? && s'.procs[pid].key == s.procs[pid].key
            && s'.inflight == s.inflight
  {
    hide AfterEnter, Lost;
    var s1 := Worked(hash, s, pid);
    assert s1.procs[pid].pc.DeployCall?;
  }

  lemma FourLabels(hash: Scope -> Text, s: System, l: Label)
    ensures Protocol.Run(s, [l, l, l, l], hash) == Step(Step(Step(Step(s, l, hash), l, hash), l, hash), l, hash)
  {
    hide Step;
    var l1, l2, l3, l4 := [l], [l, l], [l, l, l], [l, l, l, l];
    assert l1[..|l1| - 1] == [] && l2[..|l2| - 1] == l1 && l3[..|l3| - 1] == l2 && l4[..|l4| - 1] == l3;
    assert Protocol.Run(s, [], hash) == s;
    assert Protocol.Run(s, l1, hash) == Step(s, l, hash);
    assert Protocol.Run(s, l2, hash) == Step(Step(s, l, hash), l, hash);
  }

  // The barrier, exactly, in every reachable state of sequential passes: a
  // rollout about to start while a request is in flight on its relay can come
  // to deploy under traffic if and only if the relay neither serves, nor owes a
  // drain, nor carries an unspent scope-change marker.
  lemma BarrierExact(hash: Scope -> Text, raw: RawSettings, ls: seq<Label>, pid: nat)
    requires AboutToStart(After(raw, true, ls, hash), pid)
    ensures var s := After(raw, true, ls, hash);
            CanDeployUnderTraffic(hash, s, pid) <==> !Flagged(s.reg, s.procs[pid].key)
  {
    hide Inv, After, Step, Flagged, Decided, DeploysUnderTraffic, Holding;
    var s := After(raw, true, ls, hash);
    AfterInv(hash, raw, true, ls);
    RunSequential(hash, raw, true, ls);
    StartDecided(hash, s, pid);
    if Flagged(s.reg, s.procs[pid].key) {
      forall more: seq<Label> | SameWorker(more, pid)
        ensures !DeploysUnderTraffic(Protocol.Run(s, more, hash), pid)
      {
        RunDecided(hash, s, more, pid, true);
        ObligedNever(hash, Protocol.Run(s, more, hash), pid);
      }
    } else {
      var l := Work(pid, AnyInput());
      MarkerDecides(hash, s, pid);
      StraightToDeploy(hash, s, pid);
      FourLabels(hash, s, l);
      UnderTraffic(s, Protocol.Run(s, [l, l, l, l], hash), pid);
      assert SameWorker([l, l, l, l], pid);
    }
  }

  lemma UnderTraffic(s: System, s': System, pid: nat)
    requires AboutToStart(s, pid) && s'.inflight == s.inflight
    requires pid in s'.procs && s'.procs[pid].pc.DeployActive? && s'.procs[pid].key == s.procs[pid].key
    ensures DeploysUnderTraffic(s', pid)
  {
  }

  lemma StartDecided(hash: Scope -> Text, s: System, pid: nat)
    requires Inv(hash, s) && pid in s.procs && s.procs[pid].pc.TakeMarker?
    ensures Holding(s.procs[pid]) && Decided(s, pid, Flagged(s.reg, s.procs[pid].key))
  {
    hide Inv;
    OwedPart(hash, s, pid);
  }

  lemma ObligedNever(hash: Scope -> Text, s: System, pid: nat)
    requires Inv(hash, s) && Decided(s, pid, true)
    ensures !DeploysUnderTraffic(s, pid)
  {
    hide Inv;
    if s.procs[pid].pc.DeployActive? {
      ClearIsOutOfService(hash, s, pid);
    }
  }
}
