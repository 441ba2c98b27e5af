// Where each step of a worker leads, and what it does to the registry, in terms
// of what the worker is told and finds.
module ProtocolRoutes {
  import opened Readiness
  import opened Protocol

  // Drift a deploy fixes: no worker, a stale one, or one that rejects the key.
  predicate Drift(o: Outcome) {
    o.NotWorker? || o.StaleVersion? || o.KeyRejected?
  }

  // What a worker does only when it is told to: roll its relay out, or forget
  // it for good.
  datatype Story = ToRollOut | ToForget

  // On the way there, at it, or past it.
  predicate Shown(story: Story, p: Proc) {
    match story
    case ToRollOut =>
      p.pc.NoteMissing? || (p.pc.Judge? && Drift(p.outcome)) || BarrierPc(p.pc) || DeployPc(p.pc) || p.began
    case ToForget => p.pc.DeleteFinish? || p.purged
  }

  // What the environment says in this step: discovery finds nothing, or the
  // probe meets drift; the remote delete succeeds, or no credential is on
  // record.
  predicate Prompts(story: Story, p: Proc, i: Input) {
    match story
    case ToRollOut => (p.pc.Discover? && i.discovery.Absent?) || (p.pc.Probe? && Drift(i.outcome))
    case ToForget => (p.pc.DeleteActive? && i.ok) || (p.pc.DeleteCall? && i.discovery.Absent?)
  }

  // A worker keeps its relay, and starts neither story unprompted.
  predicate GoesOn(p: Proc, i: Input, p': Proc) {
    && p'.key == p.key
    && (Shown(ToRollOut, p') ==> Shown(ToRollOut, p) || Prompts(ToRollOut, p, i))
    && (Shown(ToForget, p') ==> Shown(ToForget, p) || Prompts(ToForget, p, i))
  }

  // The retry gate: passed when the relay is unknown or the time has come.
  lemma GateRoute(s: System, p: Proc, i: Input)
    requires p.pc.CheckGate? || p.pc.DeleteGate?
    ensures WorkerMove(s, p, i)
         == Move(p.(pc := if p.key in s.reg.entries && i.now < s.reg.entries[p.key].nextTry then Done
                        else if p.pc.CheckGate? then CheckState else DeleteHold), s.reg, [])
    ensures GoesOn(p, i, WorkerMove(s, p, i).p)
  {
  }

  // A relay that is gone or leaving is left to the deletes, before and after the
  // hold is taken.
  lemma StateRoute(s: System, p: Proc, i: Input)
    requires p.pc.CheckState? || p.pc.Recheck?
    ensures WorkerMove(s, p, i)
         == Move(p.(pc := if p.key !in s.reg.entries || s.reg.entries[p.key].record.state == Removing then
                          (if p.pc.CheckState? then Done else ReleaseHold)
                        else if p.pc.CheckState? then TakeHold else Resolve), s.reg, [])
    ensures GoesOn(p, i, WorkerMove(s, p, i).p)
  {
  }

  // Without the hold there is nothing to do; with it the worker keeps the entry
  // object and the generation it was granted on.
  lemma TakeHoldRoute(s: System, p: Proc, i: Input)
    requires p.pc.TakeHold?
    ensures WorkerMove(s, p, i)
         == var (r', hold) := AfterBegin(s.reg, p.key, i.now);
            if hold.None? then Move(p.(pc := Done), s.reg, [])
            else Move(p.(pc := Recheck, id := hold.value.id, generation := hold.value.generation), r', [])
    ensures GoesOn(p, i, WorkerMove(s, p, i).p)
  {
    hide AfterBegin;
  }

  lemma ResolveRoute(s: System, p: Proc, i: Input)
    requires p.pc.Resolve?
    ensures WorkerMove(s, p, i)
         == if i.ok then Move(p.(pc := ReadServing), s.reg, [])
            else Move(p.(pc := ReleaseHold), AfterFailing(s.reg, p.key, p.generation, CredentialFailed, 0, i.now), [])
    ensures GoesOn(p, i, WorkerMove(s, p, i).p)
  {
    hide AfterFailing;
  }

  // What a rollout will owe is read before discovery.
  lemma ReadServingRoute(s: System, p: Proc, i: Input)
    requires p.pc.ReadServing?
    ensures WorkerMove(s, p, i)
         == Move(p.(pc := ReadDrain, wasReady := p.key in s.reg.entries && s.reg.entries[p.key].serving), s.reg, [])
    ensures GoesOn(p, i, WorkerMove(s, p, i).p)
  {
  }

  lemma ReadDrainRoute(s: System, p: Proc, i: Input)
    requires p.pc.ReadDrain?
    ensures WorkerMove(s, p, i)
         == Move(p.(pc := EnterDiscovering,
                   drainPending := p.key in s.reg.entries && s.reg.entries[p.key].record.drainPending), s.reg, [])
    ensures GoesOn(p, i, WorkerMove(s, p, i).p)
  {
  }

  // A deployment that was found is probed under its URL; without one there is
  // something to deploy.
  lemma DiscoverRoute(s: System, p: Proc, i: Input)
    requires p.pc.Discover?
    ensures WorkerMove(s, p, i)
         == match i.discovery
            case DiscoverError(reason) =>
              Move(p.(pc := ReleaseHold), AfterFailing(s.reg, p.key, p.generation, reason, 0, i.now), [])
            case Absent => Move(p.(pc := NoteMissing), s.reg, [])
            case Found(url) => Move(p.(pc := Probe, url := url), s.reg, [])
    ensures GoesOn(p, i, WorkerMove(s, p, i).p)
  {
    hide AfterFailing;
  }

  // The phases on the way.
  lemma EnterDiscoveringRoute(s: System, p: Proc, i: Input)
    requires p.pc.EnterDiscovering?
    ensures WorkerMove(s, p, i)
         == Move(p.(pc := Discover), AfterEnter(s.reg, p.key, p.generation, Discovering, NoReason, i.now), [])
    ensures GoesOn(p, i, WorkerMove(s, p, i).p)
  {
    hide AfterEnter;
  }

  lemma NoteMissingRoute(s: System, p: Proc, i: Input)
    requires p.pc.NoteMissing?
    ensures WorkerMove(s, p, i)
         == Move(p.(pc := TakeMarker), AfterEnter(s.reg, p.key, p.generation, Discovered, Missing, i.now), [])
    ensures GoesOn(p, i, WorkerMove(s, p, i).p)
  {
    hide AfterEnter;
  }

  lemma MarkUnreadyRoute(s: System, p: Proc, i: Input)
    requires p.pc.MarkUnready?
    ensures WorkerMove(s, p, i)
         == Move(p.(pc := Defer), AfterEnter(s.reg, p.key, p.generation, Unready, Replacing, i.now), [])
    ensures GoesOn(p, i, WorkerMove(s, p, i).p)
  {
    hide AfterEnter;
  }

  lemma EnterDeployingRoute(s: System, p: Proc, i: Input)
    requires p.pc.EnterDeploying?
    ensures WorkerMove(s, p, i)
         == Move(p.(pc := DeployCall), AfterEnter(s.reg, p.key, p.generation, Deploying, NoReason, i.now), [])
    ensures GoesOn(p, i, WorkerMove(s, p, i).p)
  {
    hide AfterEnter;
  }

  // A verification answers; what passed is recorded with the URL and key it passed
  // for.
  lemma ProbeRoute(s: System, p: Proc, i: Input)
    requires p.pc.Probe? || p.pc.VerifyNew?
    ensures WorkerMove(s, p, i)
         == Move(p.(pc := if p.pc.Probe? then Judge else JudgeNew, outcome := i.outcome), s.reg,
                 if i.outcome == Passed then [Verdict(p.key, p.id, p.generation, Endpoint(p.url, p.relayKey))] else [])
    ensures GoesOn(p, i, WorkerMove(s, p, i).p)
  {
  }

  lemma JudgeIs(s: System, p: Proc, i: Input)
    requires p.pc.Judge?
    ensures WorkerMove(s, p, i) == JudgeMove(s.reg, p, i)
    ensures JudgeMove(s.reg, p, i).p == p.(pc := if Drift(p.outcome) then TakeMarker else ReleaseHold)
  {
    hide AfterReady, AfterPause, AfterFailing;
  }

  // The verdict on the deployment that was found.
  lemma JudgeRoute(s: System, p: Proc, i: Input)
    requires p.pc.Judge?
    ensures WorkerMove(s, p, i)
         == var r, k, g := s.reg, p.key, p.generation;
            match p.outcome
            case Passed =>
              Move(p.(pc := ReleaseHold), AfterReady(r, k, g, Endpoint(p.url, p.relayKey), i.duration, i.now), [])
            case SuspensionPage => Move(p.(pc := ReleaseHold), AfterPause(r, k, g, Suspended, i.now), [])
            case NoAnswer => Move(p.(pc := ReleaseHold), AfterFailing(r, k, g, Unreachable, i.duration, i.now), [])
            case BrokenTrip => Move(p.(pc := ReleaseHold), AfterFailing(r, k, g, ProbeFailed, i.duration, i.now), [])
            case NotWorker => Move(p.(pc := TakeMarker), r, [])
            case StaleVersion => Move(p.(pc := TakeMarker), r, [])
            case KeyRejected => Move(p.(pc := TakeMarker), r, [])
    ensures GoesOn(p, i, WorkerMove(s, p, i).p)
  {
    hide WorkerMove, AfterReady, AfterPause, AfterFailing;
    JudgeIs(s, p, i);
  }

  // The rollout begins by spending the scope-change marker.
  lemma TakeMarkerRoute(s: System, p: Proc, i: Input)
    requires p.pc.TakeMarker?
    ensures WorkerMove(s, p, i)
         == var (r', changed) := AfterTakeScopeChanged(s.reg, p.key, p.generation);
            Move(p.(pc := Revoke, scopeChanged := changed, began := true), r', [])
    ensures GoesOn(p, i, WorkerMove(s, p, i).p)
  {
    hide AfterTakeScopeChanged;
  }

  // A serving relay is demoted first; any of the three obligations leads through
  // the barrier, and nothing else does.
  lemma RevokeRoute(s: System, p: Proc, i: Input)
    requires p.pc.Revoke?
    ensures WorkerMove(s, p, i)
         == var r' := if p.wasReady then AfterDemote(s.reg, p.key, p.generation, Replacing, i.now) else s.reg;
            Move(p.(pc := if p.wasReady || p.drainPending || p.scopeChanged then SettleTarget else EnterDeploying,
                    mark := r'.notifySeq), r', [])
    ensures GoesOn(p, i, WorkerMove(s, p, i).p)
  {
    hide AfterDemote;
  }

  lemma TargetRoute(s: System, p: Proc, i: Input)
    requires p.pc.SettleTarget? || p.pc.DeleteTarget?
    ensures WorkerMove(s, p, i)
         == if p.mark <= i.target <= s.reg.notifySeq then
              Move(p.(target := i.target, pc := if p.pc.SettleTarget? then SettleWait else DeleteWait), s.reg, [])
            else Move(p, s.reg, [])
    ensures GoesOn(p, i, WorkerMove(s, p, i).p)
  {
  }

  // The settle barrier: passed once the target is applied, given up at shutdown.
  lemma SettleRoute(s: System, p: Proc, i: Input)
    requires p.pc.SettleWait? || p.pc.DeleteWait?
    ensures WorkerMove(s, p, i)
         == Move(p.(pc := if s.applied >= p.target then (if p.pc.SettleWait? then Drain else DeleteDrain)
                        else if s.shutting then (if p.pc.SettleWait? then Defer else ReleaseHold) else p.pc), s.reg, [])
    ensures GoesOn(p, i, WorkerMove(s, p, i).p)
  {
  }

  // The drain: passed once nothing is in flight, deferred at the time-out.
  lemma DrainRoute(s: System, p: Proc, i: Input)
    requires p.pc.Drain? || p.pc.DeleteDrain?
    ensures WorkerMove(s, p, i)
         == Move(p.(pc := if !i.ok then (if p.pc.Drain? then MarkUnready else DeleteFail)
                        else if p.key in s.inflight && s.inflight[p.key] > 0 then p.pc
                        else if p.pc.Drain? then DrainDone else DeleteCall), s.reg, [])
    ensures GoesOn(p, i, WorkerMove(s, p, i).p)
  {
  }

  lemma DeferRoute(s: System, p: Proc, i: Input)
    requires p.pc.Defer?
    ensures WorkerMove(s, p, i)
         == Move(p.(pc := ReleaseHold), AfterDeferDrain(s.reg, p.key, p.generation), [])
    ensures GoesOn(p, i, WorkerMove(s, p, i).p)
  {
    hide AfterDeferDrain;
  }

  lemma DrainDoneRoute(s: System, p: Proc, i: Input)
    requires p.pc.DrainDone?
    ensures WorkerMove(s, p, i)
         == Move(p.(pc := EnterDeploying, drained := true), AfterDrainCompleted(s.reg, p.key, p.generation), [])
    ensures GoesOn(p, i, WorkerMove(s, p, i).p)
  {
    hide AfterDrainCompleted;
  }

  // The platform call; what it deployed is verified under the URL it answers.
  lemma DeployRoute(s: System, p: Proc, i: Input)
    requires p.pc.DeployCall? || p.pc.DeployActive?
    ensures WorkerMove(s, p, i)
         == if p.pc.DeployCall? then Move(p.(pc := DeployActive), s.reg, [])
            else if i.ok then Move(p.(pc := VerifyNew, url := i.url), s.reg, [])
            else Move(p.(pc := DeployFailing), s.reg, [])
    ensures GoesOn(p, i, WorkerMove(s, p, i).p)
  {
  }

  lemma DeployFailingRoute(s: System, p: Proc, i: Input)
    requires p.pc.DeployFailing?
    ensures WorkerMove(s, p, i)
         == Move(p.(pc := ReleaseHold), AfterFailing(s.reg, p.key, p.generation, DeployFailed, 0, i.now), [])
    ensures GoesOn(p, i, WorkerMove(s, p, i).p)
  {
    hide AfterFailing;
  }

  // The verdict on the worker just deployed.
  lemma JudgeNewRoute(s: System, p: Proc, i: Input)
    requires p.pc.JudgeNew?
    ensures WorkerMove(s, p, i)
         == var r, k, g := s.reg, p.key, p.generation;
            Move(p.(pc := ReleaseHold),
                 match p.outcome
                 case Passed => AfterReady(r, k, g, Endpoint(p.url, p.relayKey), i.duration, i.now)
                 case SuspensionPage => AfterPause(r, k, g, Suspended, i.now)
                 case NoAnswer => AfterDemote(r, k, g, Unreachable, i.now)
                 case NotWorker => AfterDemote(r, k, g, Missing, i.now)
                 case StaleVersion => AfterDemote(r, k, g, VersionFailed, i.now)
                 case KeyRejected => AfterDemote(r, k, g, AuthFailed, i.now)
                 case BrokenTrip => AfterDemote(r, k, g, ProbeFailed, i.now), [])
    ensures GoesOn(p, i, WorkerMove(s, p, i).p)
  {
    hide AfterReady, AfterPause, AfterDemote;
    assert WorkerMove(s, p, i) == JudgeNewMove(s.reg, p, i);
  }

  lemma DeleteHoldRoute(s: System, p: Proc, i: Input)
    requires p.pc.DeleteHold?
    ensures WorkerMove(s, p, i)
         == var (r', hold) := AfterBeginDelete(s.reg, p.key);
            if hold.None? then Move(p.(pc := Done), s.reg, [])
            else Move(p.(pc := DeleteTarget, id := hold.value.id, generation := hold.value.generation,
                         mark := r'.notifySeq), r', [])
    ensures GoesOn(p, i, WorkerMove(s, p, i).p)
  {
    hide AfterBeginDelete;
  }

  // Without a credential on record the relay is dropped, without a client the
  // delete is retried later; otherwise the platform is called.
  lemma DeleteCallRoute(s: System, p: Proc, i: Input)
    requires p.pc.DeleteCall?
    ensures WorkerMove(s, p, i)
         == match i.discovery
            case Absent => Move(p.(pc := DeleteFinish), s.reg, [])
            case DiscoverError(_) => Move(p.(pc := DeleteFail), s.reg, [])
            case Found(_) => Move(p.(pc := DeleteActive), s.reg, [])
    ensures GoesOn(p, i, WorkerMove(s, p, i).p)
  {
  }

  lemma DeleteActiveRoute(s: System, p: Proc, i: Input)
    requires p.pc.DeleteActive?
    ensures WorkerMove(s, p, i)
         == Move(p.(pc := if i.ok then DeleteFinish else DeleteFail), s.reg, [])
    ensures GoesOn(p, i, WorkerMove(s, p, i).p)
  {
  }

  lemma DeleteFinishRoute(s: System, p: Proc, i: Input)
    requires p.pc.DeleteFinish?
    ensures WorkerMove(s, p, i)
         == Move(p.(pc := ReleaseHold, purged := p.key in s.reg.entries
                                             && s.reg.entries[p.key].record.generation == p.generation
                                             && s.reg.entries[p.key].record.state == Removing),
                 AfterDeleteDone(s.reg, p.key, p.generation), [])
    ensures GoesOn(p, i, WorkerMove(s, p, i).p)
  {
    hide AfterDeleteDone;
  }

  lemma DeleteFailRoute(s: System, p: Proc, i: Input)
    requires p.pc.DeleteFail?
    ensures WorkerMove(s, p, i)
         == Move(p.(pc := ReleaseHold), AfterDeleteFailed(s.reg, p.key, p.generation, Detail(i.url), i.now), [])
    ensures GoesOn(p, i, WorkerMove(s, p, i).p)
  {
    hide AfterDeleteFailed;
  }

  lemma EndRoute(s: System, p: Proc, i: Input)
    requires p.pc.ReleaseHold? || p.pc.Done?
    ensures WorkerMove(s, p, i)
         == if p.pc.Done? then Move(p, s.reg, [])
            else Move(p.(pc := Done), AfterRelease(s.reg, Hold(p.key, p.id, p.generation)), [])
    ensures GoesOn(p, i, WorkerMove(s, p, i).p)
  {
    hide AfterRelease;
  }

  lemma WorkerGoesOn(s: System, p: Proc, i: Input)
    ensures GoesOn(p, i, WorkerMove(s, p, i).p)
  {
    hide WorkerMove, GoesOn, AfterReady, AfterPause, AfterFailing, AfterDemote, AfterEnter, AfterBegin,
      AfterBeginDelete, AfterRelease, AfterDeleteDone, AfterDeleteFailed, AfterTakeScopeChanged, AfterDeferDrain, AfterDrainCompleted;
    match p.pc
    case CheckGate => GateRoute(s, p, i);
    case CheckState => StateRoute(s, p, i);
    case TakeHold => TakeHoldRoute(s, p, i);
    case Recheck => StateRoute(s, p, i);
    case Resolve => ResolveRoute(s, p, i);
    case ReadServing => ReadServingRoute(s, p, i);
    case ReadDrain => ReadDrainRoute(s, p, i);
    case EnterDiscovering => EnterDiscoveringRoute(s, p, i);
    case Discover => DiscoverRoute(s, p, i);
    case NoteMissing => NoteMissingRoute(s, p, i);
    case Probe => ProbeRoute(s, p, i);
    case Judge => JudgeRoute(s, p, i);
    case TakeMarker => TakeMarkerRoute(s, p, i);
    case Revoke => RevokeRoute(s, p, i);
    case SettleTarget => TargetRoute(s, p, i);
    case SettleWait => SettleRoute(s, p, i);
    case Drain => DrainRoute(s, p, i);
    case MarkUnready => MarkUnreadyRoute(s, p, i);
    case Defer => DeferRoute(s, p, i);
    case DrainDone => DrainDoneRoute(s, p, i);
    case EnterDeploying => EnterDeployingRoute(s, p, i);
    case DeployCall => DeployRoute(s, p, i);
    case DeployActive => DeployRoute(s, p, i);
    case DeployFailing => DeployFailingRoute(s, p, i);
    case VerifyNew => ProbeRoute(s, p, i);
    case JudgeNew => JudgeNewRoute(s, p, i);
    case DeleteGate => GateRoute(s, p, i);
    case DeleteHold => DeleteHoldRoute(s, p, i);
    case DeleteTarget => TargetRoute(s, p, i);
    case DeleteWait => SettleRoute(s, p, i);
    case DeleteDrain => DrainRoute(s, p, i);
    case DeleteCall => DeleteCallRoute(s, p, i);
    case DeleteActive => DeleteActiveRoute(s, p, i);
    case DeleteFinish => DeleteFinishRoute(s, p, i);
    case DeleteFail => DeleteFailRoute(s, p, i);
    case ReleaseHold => EndRoute(s, p, i);
    case Done => EndRoute(s, p, i);
  }
}
