// What the reconciler makes of what it is told: which answers roll a relay out,
// which let it serve, pause it or count as a failure, what its retry gate keeps
// off, and what a delete needs before the relay is forgotten.
module ProtocolPasses {
  import opened Readiness
  import opened ReadinessLaws
  import opened ReadinessEffects
  import opened Protocol
  import opened ProtocolRoutes
  import opened ProtocolInvariant
  import opened ProtocolTheorems
  import B = ProtocolBarrier

  // Worker pid takes a step.
  function Stepped(s: System, pid: nat, i: Input, hash: Scope -> Text): System {
    Step(s, Work(pid, i), hash)
  }

  lemma StepIsMove(s: System, pid: nat, i: Input, hash: Scope -> Text)
    requires pid in s.procs
    ensures var s', m := Stepped(s, pid, i, hash), WorkerMove(s, s.procs[pid], i);
            pid in s'.procs && s'.procs[pid] == m.p && s'.reg == m.reg
  {
    hide WorkerMove, Lost;
  }

  // -------------------------------------------------------------- verdicts

  // The verdict on a deployment that was found. Passed: the relay serves under
  // the pair that was verified. A suspension page pauses it. No answer and a
  // broken round trip are failures. Drift, and nothing else, goes on to a
  // rollout, with the registry as it was. A verdict on an earlier incarnation
  // changes nothing.
  lemma VerdictExact(s: System, pid: nat, i: Input, hash: Scope -> Text)
    requires pid in s.procs && s.procs[pid].pc.Judge?
    ensures var p, s' := s.procs[pid], Stepped(s, pid, i, hash);
            && pid in s'.procs
            && s'.procs[pid] == p.(pc := if Drift(p.outcome) then TakeMarker else ReleaseHold)
            && (Drift(p.outcome) || !Current(s.reg, p.key, p.generation) ==> s'.reg == s.reg)
            && (Current(s.reg, p.key, p.generation) ==>
                  && (p.outcome == Passed ==>
                        AdmittedAs(s.reg, s'.reg, p.key, Endpoint(p.url, p.relayKey), i.duration, i.now))
                  && (p.outcome == SuspensionPage ==> PausedAs(s.reg, s'.reg, p.key, Suspended, i.now))
                  && (p.outcome == NoAnswer ==> FailedAs(s.reg, s'.reg, p.key, Unreachable, i.duration, i.now))
                  && (p.outcome == BrokenTrip ==> FailedAs(s.reg, s'.reg, p.key, ProbeFailed, i.duration, i.now)))
  {
    hide WorkerMove, AfterReady, AfterPause, AfterFailing, AdmittedAs, PausedAs, FailedAs, Step;
    var p := s.procs[pid];
    StepIsMove(s, pid, i, hash);
    JudgeRoute(s, p, i);
    if Current(s.reg, p.key, p.generation) {
      ReadyEffect(s.reg, p.key, p.generation, Endpoint(p.url, p.relayKey), i.duration, i.now);
      PauseEffect(s.reg, p.key, p.generation, Suspended, i.now);
      FailingEffect(s.reg, p.key, p.generation, Unreachable, i.duration, i.now);
      FailingEffect(s.reg, p.key, p.generation, ProbeFailed, i.duration, i.now);
    } else {
      StaleMoves(s.reg, p, i, hash);
    }
  }

  lemma StaleMoves(r: Registry, p: Proc, i: Input, hash: Scope -> Text)
    requires !Current(r, p.key, p.generation)
    ensures AfterReady(r, p.key, p.generation, Endpoint(p.url, p.relayKey), i.duration, i.now) == r
    ensures AfterPause(r, p.key, p.generation, Suspended, i.now) == r
    ensures forall reason, d :: AfterFailing(r, p.key, p.generation, reason, d, i.now) == r
    ensures forall reason :: AfterDemote(r, p.key, p.generation, reason, i.now) == r
  {
  }

  // The verdict on the worker just deployed: it serves only if it passed. The
  // old worker is gone from that URL, so anything but a suspension page, which
  // pauses, revokes admission at once and spends the streak, with the reason
  // that names the verdict.
  lemma NewVerdictExact(s: System, pid: nat, i: Input, hash: Scope -> Text)
    requires pid in s.procs && s.procs[pid].pc.JudgeNew?
    ensures var p, s' := s.procs[pid], Stepped(s, pid, i, hash);
            && pid in s'.procs
            && s'.procs[pid] == p.(pc := ReleaseHold)
            && (!Current(s.reg, p.key, p.generation) ==> s'.reg == s.reg)
            && (Current(s.reg, p.key, p.generation) ==>
                  && (p.outcome == Passed ==>
                        AdmittedAs(s.reg, s'.reg, p.key, Endpoint(p.url, p.relayKey), i.duration, i.now))
                  && (p.outcome == SuspensionPage ==> PausedAs(s.reg, s'.reg, p.key, Suspended, i.now))
                  && (p.outcome == NoAnswer ==> DemotedAs(s.reg, s'.reg, p.key, Unreachable, i.now))
                  && (p.outcome == NotWorker ==> DemotedAs(s.reg, s'.reg, p.key, Missing, i.now))
                  && (p.outcome == StaleVersion ==> DemotedAs(s.reg, s'.reg, p.key, VersionFailed, i.now))
                  && (p.outcome == KeyRejected ==> DemotedAs(s.reg, s'.reg, p.key, AuthFailed, i.now))
                  && (p.outcome == BrokenTrip ==> DemotedAs(s.reg, s'.reg, p.key, ProbeFailed, i.now)))
  {
    hide WorkerMove, AfterReady, AfterPause, AfterDemote, AdmittedAs, PausedAs, DemotedAs, Step;
    var p := s.procs[pid];
    StepIsMove(s, pid, i, hash);
    JudgeNewRoute(s, p, i);
    if Current(s.reg, p.key, p.generation) {
      ReadyEffect(s.reg, p.key, p.generation, Endpoint(p.url, p.relayKey), i.duration, i.now);
      PauseEffect(s.reg, p.key, p.generation, Suspended, i.now);
      if p.outcome != Passed && p.outcome != SuspensionPage {
        DemoteEffect(s.reg, p.key, p.generation, ReasonFor(p.outcome), i.now);
      }
    } else {
      StaleMoves(s.reg, p, i, hash);
    }
  }

  // Without a credential, with a discovery that errs and after a deploy that
  // errs the worker gives up: one failure, and the hold is released.
  lemma GivesUp(s: System, pid: nat, i: Input, hash: Scope -> Text)
    requires pid in s.procs
    requires var p := s.procs[pid];
             || (p.pc.Resolve? && !i.ok) || (p.pc.Discover? && i.discovery.DiscoverError?) || p.pc.DeployFailing?
    ensures var p, s' := s.procs[pid], Stepped(s, pid, i, hash);
            var reason := if p.pc.Resolve? then CredentialFailed
                          else if p.pc.DeployFailing? then DeployFailed else i.discovery.reason;
            && pid in s'.procs && s'.procs[pid] == p.(pc := ReleaseHold)
            && if Current(s.reg, p.key, p.generation) then FailedAs(s.reg, s'.reg, p.key, reason, 0, i.now)
               else s'.reg == s.reg
  {
    hide WorkerMove, AfterFailing, FailedAs, Step;
    var p := s.procs[pid];
    StepIsMove(s, pid, i, hash);
    var reason := if p.pc.Resolve? then CredentialFailed
                  else if p.pc.DeployFailing? then DeployFailed else i.discovery.reason;
    match p.pc {
      case Resolve => ResolveRoute(s, p, i);
      case Discover => DiscoverRoute(s, p, i);
      case DeployFailing => DeployFailingRoute(s, p, i);
    }
    if Current(s.reg, p.key, p.generation) {
      FailingEffect(s.reg, p.key, p.generation, reason, 0, i.now);
    } else {
      StaleMoves(s.reg, p, i, hash);
    }
  }

  // In every run: a failed look at a relay that is not paused, the verdict on
  // its current incarnation, releases it with its streak one higher, its gate
  // armed, and no rollout begun.
  lemma FailedLookArms(hash: Scope -> Text, raw: RawSettings, sequential: bool, ls: seq<Label>, pid: nat, i: Input)
    requires var s := After(raw, sequential, ls, hash);
             && pid in s.procs && s.procs[pid].pc.Judge? && Tracked(s.reg, s.procs[pid])
             && (s.procs[pid].outcome == NoAnswer || s.procs[pid].outcome == BrokenTrip)
             && s.reg.entries[s.procs[pid].key].record.state != Paused
    ensures var s := After(raw, sequential, ls, hash);
            var k, s' := s.procs[pid].key, Stepped(s, pid, i, hash);
            && pid in s'.procs && s'.procs[pid].pc.ReleaseHold? && !s'.procs[pid].began
            && k in s'.reg.entries
            && s'.reg.entries[k].record.failStreak == s.reg.entries[k].record.failStreak + 1
            && GateArmed(s'.reg, k, i.now)
  {
    hide Inv, After, Stepped, FailedAs, AfterFailing, RegistryOk, GateArmed;
    var s := After(raw, sequential, ls, hash);
    var p := s.procs[pid];
    AfterInv(hash, raw, sequential, ls);
    OwedPart(hash, s, pid);
    VerdictExact(s, pid, i, hash);
    var reason := if p.outcome == NoAnswer then Unreachable else ProbeFailed;
    RegistryPart(hash, s);
    FailingArmsGate(hash, s.reg, p.key, p.generation, reason, i.duration, i.now);
    FailedOnce(s.reg, Stepped(s, pid, i, hash).reg, p.key, p.generation, reason, i.duration, i.now);
  }

  lemma RegistryPart(hash: Scope -> Text, s: System)
    requires Inv(hash, s)
    ensures RegistryOk(hash, s.reg)
  {
    hide RegistryOk, ProcsOk, ApplierOk, CountsOk, AttemptsOk, EntriesOk;
  }

  // The effect of a failure is the registry's.
  lemma FailedOnce(r: Registry, r': Registry, k: Key, g: nat, reason: Reason, d: int, now: Instant)
    requires Current(r, k, g) && FailedAs(r, r', k, reason, d, now)
    ensures r' == AfterFailing(r, k, g, reason, d, now)
    ensures k in r'.entries && r'.entries[k].record.failStreak == r.entries[k].record.failStreak + 1
  {
    hide AfterFailing;
    FailingEffect(r, k, g, reason, d, now);
  }

  // ----------------------------------------------------- why it rolls out, or forgets

  // Worker pid is told, in this step, to roll out or to forget.
  predicate Told(story: Story, s: System, pid: nat, l: Label) {
    l.Work? && l.pid == pid && pid in s.procs && Prompts(story, s.procs[pid], l.input)
  }

  // No new worker takes the number from step n on.
  predicate Stays(ls: seq<Label>, n: nat, pid: nat, raw: RawSettings, sequential: bool, hash: Scope -> Text) {
    forall j | n <= j < |ls| :: !Replaced(After(raw, sequential, ls[..j], hash), ls[j], pid)
  }

  predicate Replaced(s: System, l: Label, pid: nat) {
    B.Respawns(l, pid) && (pid in s.procs ==> s.procs[pid].pc.Done?)
  }

  ghost predicate ToldAt(
    story: Story, raw: RawSettings, sequential: bool, ls: seq<Label>, hash: Scope -> Text, pid: nat, n: nat) {
    && n < |ls| && Told(story, After(raw, sequential, ls[..n], hash), pid, ls[n])
    && Stays(ls, n, pid, raw, sequential, hash)
  }

  lemma ToldBefore(
    story: Story, raw: RawSettings, sequential: bool, ls: seq<Label>, hash: Scope -> Text, pid: nat, n: nat)
    requires ls != [] && ToldAt(story, raw, sequential, ls[..|ls| - 1], hash, pid, n)
    requires !Replaced(After(raw, sequential, ls[..|ls| - 1], hash), ls[|ls| - 1], pid)
    ensures ToldAt(story, raw, sequential, ls, hash, pid, n)
  {
    hide After, Told, Replaced;
    var front := ls[..|ls| - 1];
    assert forall j | 0 <= j <= |front| :: front[..j] == ls[..j];
    assert forall j | 0 <= j < |front| :: front[j] == ls[j];
  }

  lemma AsideSteps(s: System, l: Label, hash: Scope -> Text, pid: nat)
    requires !(l.Work? && l.pid == pid)
    ensures var s' := Step(s, l, hash);
            if Replaced(s, l, pid) then
              pid in s'.procs && !Shown(ToRollOut, s'.procs[pid]) && !Shown(ToForget, s'.procs[pid])
            else (pid in s'.procs <==> pid in s.procs) && (pid in s.procs ==> s'.procs[pid] == s.procs[pid])
  {
    hide WorkerMove, AfterSync, AfterUpdateSettings, PoolOf, Serving, Idle, Lost, Begun, Ended;
  }

  // In every run a worker that is in a rollout, or began one, was told that a
  // deploy is needed: its discovery found nothing, or its probe met drift. And
  // one that forgets its relay, or has, was told that its remote is deleted or
  // that no credential is on record for it.
  lemma {:induction false} ToldFirst(
    story: Story, hash: Scope -> Text, raw: RawSettings, sequential: bool, ls: seq<Label>, pid: nat)
    requires pid in After(raw, sequential, ls, hash).procs && Shown(story, After(raw, sequential, ls, hash).procs[pid])
    ensures exists n :: ToldAt(story, raw, sequential, ls, hash, pid, n)
  {
    hide Start, Step, WorkerMove, Shown, Prompts, Told, ToldAt, Replaced;
    if ls == [] {
      NobodyYet(raw, sequential);
    } else {
      var front, l := ls[..|ls| - 1], ls[|ls| - 1];
      var s := After(raw, sequential, front, hash);
      if l.Work? && l.pid == pid {
        WorkIsMove(s, l, hash, pid);
        if Shown(story, s.procs[pid]) {
          ToldFirst(story, hash, raw, sequential, front, pid);
          var n :| ToldAt(story, raw, sequential, front, hash, pid, n);
          ToldBefore(story, raw, sequential, ls, hash, pid, n);
        } else {
          WorkerGoesOn(s, s.procs[pid], l.input);
          ToldNow(story, raw, sequential, ls, hash, pid);
        }
      } else {
        AsideSteps(s, l, hash, pid);
        ToldFirst(story, hash, raw, sequential, front, pid);
        var n :| ToldAt(story, raw, sequential, front, hash, pid, n);
        ToldBefore(story, raw, sequential, ls, hash, pid, n);
      }
    }
  }

  // A run starts with no relay, no worker, no request and an empty pool, in a
  // process that is not shutting down.
  lemma NobodyYet(raw: RawSettings, sequential: bool)
    ensures var s := Start(raw, sequential);
            && s.procs == map[] && s.attempts == map[] && s.inflight == map[] && s.serving.pool == map[]
            && s.reg.entries == map[] && s.reg.readyCount == 0 && s.reg.notifySeq == s.applied == 0
            && s.applier.Waiting? && !s.shutting && s.log == [] && s.sequential == sequential
  {
  }

  lemma WorkIsMove(s: System, l: Label, hash: Scope -> Text, pid: nat)
    requires l.Work? && l.pid == pid && pid in Step(s, l, hash).procs
    ensures pid in s.procs && Step(s, l, hash).procs[pid] == WorkerMove(s, s.procs[pid], l.input).p
    ensures !Replaced(s, l, pid)
  {
    hide WorkerMove, Lost;
  }

  lemma ToldNow(
    story: Story, raw: RawSettings, sequential: bool, ls: seq<Label>, hash: Scope -> Text, pid: nat)
    requires ls != [] && ls[|ls| - 1].Work? && ls[|ls| - 1].pid == pid
    requires var s := After(raw, sequential, ls[..|ls| - 1], hash);
             pid in s.procs && Prompts(story, s.procs[pid], ls[|ls| - 1].input)
    ensures ToldAt(story, raw, sequential, ls, hash, pid, |ls| - 1)
  {
    hide After, Prompts;
  }

  // Nothing else makes the registry forget a relay.
  lemma OnlyPurgesForget(hash: Scope -> Text, s: System, l: Label, k: Key)
    requires k in s.reg.entries && k !in Step(s, l, hash).reg.entries
    ensures l.Work? && l.pid in s.procs && s.procs[l.pid].key == k && s.procs[l.pid].pc.DeleteFinish?
    ensures var s' := Step(s, l, hash); l.pid in s'.procs && s'.procs[l.pid].purged
  {
    hide WorkerMove, AfterUpdateSettings, AfterSync, PoolOf, Serving, Idle, Lost, Begun, Ended;
    match l
    case Sync(ms, now) => SyncKeepsKeys(hash, s.reg, ms, now, k);
    case Configure(raw) => SettingsEffect(s.reg, raw, k);
    case Work(pid, i) =>
      if pid in s.procs {
        WorkKeepsKeys(hash, s, s.procs[pid], i, k);
      }
    case _ =>
  }

  lemma {:induction false} MembersKeepKeys(hash: Scope -> Text, r: Registry, ms: seq<Member>, now: Clock, k: Key)
    requires k in r.entries
    ensures k in SyncMembers(r, ms, hash, now).entries
  {
    if ms != [] {
      MembersKeepKeys(hash, r, ms[..|ms| - 1], now, k);
    }
  }

  lemma SyncKeepsKeys(hash: Scope -> Text, r: Registry, ms: seq<Member>, now: Clock, k: Key)
    requires k in r.entries
    ensures k in AfterSync(r, ms, hash, now).entries
  {
    hide SyncMembers;
    MembersKeepKeys(hash, r, ms, now, k);
  }

  // No operation but a completed delete takes a key out.
  lemma KeyKept(hash: Scope -> Text, r: Registry, op: Op, k: Key)
    requires k in r.entries && !op.DeleteDone? && !op.Sync?
    ensures k in Apply(r, op, hash).entries
  {
  }

  lemma EnsureKeepsKey(hash: Scope -> Text, s: System, p: Proc, i: Input)
    requires EnsurePc(p.pc) && p.key in s.reg.entries
    ensures p.key in WorkerMove(s, p, i).reg.entries
  {
    hide AfterBegin, AfterFailing, AfterEnter, AfterReady, AfterPause, Serving, Allowed;
    var r, k, g := s.reg, p.key, p.generation;
    match p.pc
    case TakeHold => KeyKept(hash, r, ReadinessLaws.Begin(k, i.now), k);
    case Resolve => KeyKept(hash, r, Failing(k, g, CredentialFailed, 0, i.now), k);
    case EnterDiscovering => KeyKept(hash, r, Enter(k, g, Discovering, NoReason, i.now), k);
    case NoteMissing => KeyKept(hash, r, Enter(k, g, Discovered, Missing, i.now), k);
    case Discover =>
      if i.discovery.DiscoverError? {
        KeyKept(hash, r, Failing(k, g, i.discovery.reason, 0, i.now), k);
      }
    case Judge =>
      KeyKept(hash, r, Admit(k, g, Endpoint(p.url, p.relayKey), i.duration, i.now), k);
      KeyKept(hash, r, Pause(k, g, Suspended, i.now), k);
      KeyKept(hash, r, Failing(k, g, Unreachable, i.duration, i.now), k);
      KeyKept(hash, r, Failing(k, g, ProbeFailed, i.duration, i.now), k);
    case _ =>
  }

  lemma BarrierKeepsKey(hash: Scope -> Text, s: System, p: Proc, i: Input)
    requires BarrierPc(p.pc) && p.key in s.reg.entries
    ensures p.key in WorkerMove(s, p, i).reg.entries
  {
    hide AfterTakeScopeChanged, AfterDemote, AfterEnter, AfterDeferDrain, AfterDrainCompleted, Count;
    var r, k, g := s.reg, p.key, p.generation;
    match p.pc
    case TakeMarker => KeyKept(hash, r, TakeScopeChanged(k, g), k);
    case Revoke => KeyKept(hash, r, Demote(k, g, Replacing, i.now), k);
    case MarkUnready => KeyKept(hash, r, Enter(k, g, Unready, Replacing, i.now), k);
    case Defer => KeyKept(hash, r, DeferDrain(k, g), k);
    case DrainDone => KeyKept(hash, r, DrainCompleted(k, g), k);
    case _ =>
  }

  lemma DeployKeepsKey(hash: Scope -> Text, s: System, p: Proc, i: Input)
    requires DeployPc(p.pc) && p.key in s.reg.entries
    ensures p.key in WorkerMove(s, p, i).reg.entries
  {
    hide AfterDemote, AfterEnter, AfterFailing, AfterReady, AfterPause;
    var r, k, g := s.reg, p.key, p.generation;
    match p.pc
    case EnterDeploying => KeyKept(hash, r, Enter(k, g, Deploying, NoReason, i.now), k);
    case DeployFailing => KeyKept(hash, r, Failing(k, g, DeployFailed, 0, i.now), k);
    case JudgeNew =>
      KeyKept(hash, r, Admit(k, g, Endpoint(p.url, p.relayKey), i.duration, i.now), k);
      KeyKept(hash, r, Pause(k, g, Suspended, i.now), k);
      KeyKept(hash, r, Demote(k, g, ReasonFor(p.outcome), i.now), k);
    case _ =>
  }

  lemma EndKeepsKey(hash: Scope -> Text, s: System, p: Proc, i: Input)
    requires (p.pc.ReleaseHold? || p.pc.Done?) && p.key in s.reg.entries
    ensures p.key in WorkerMove(s, p, i).reg.entries
  {
  }

  lemma DeleteKeepsKey(hash: Scope -> Text, s: System, p: Proc, i: Input)
    requires DeletePc(p.pc) && p.key in s.reg.entries
    ensures p.key in WorkerMove(s, p, i).reg.entries || (p.pc.DeleteFinish? && WorkerMove(s, p, i).p.purged)
  {
    hide WorkerMove;
    if p.pc.DeleteHold? || p.pc.DeleteFinish? || p.pc.DeleteFail? {
      DeleteActs(hash, s, p, i);
    } else {
      B.DeleteWaits(s, p, i);
    }
  }

  lemma DeleteActs(hash: Scope -> Text, s: System, p: Proc, i: Input)
    requires p.pc.DeleteHold? || p.pc.DeleteFinish? || p.pc.DeleteFail?
    requires p.key in s.reg.entries
    ensures p.key in WorkerMove(s, p, i).reg.entries || (p.pc.DeleteFinish? && WorkerMove(s, p, i).p.purged)
  {
    hide AfterBeginDelete, AfterDeleteFailed;
    var r, k, g := s.reg, p.key, p.generation;
    match p.pc
    case DeleteHold => KeyKept(hash, r, BeginDelete(k), k);
    case DeleteFail => KeyKept(hash, r, DeleteFailed(k, g, Detail(i.url), i.now), k);
    case DeleteFinish =>
  }

  lemma WorkKeepsKeys(hash: Scope -> Text, s: System, p: Proc, i: Input, k: Key)
    requires k in s.reg.entries
    ensures var m := WorkerMove(s, p, i);
            k in m.reg.entries || (p.key == k && p.pc.DeleteFinish? && m.p.purged)
  {
    hide WorkerMove;
    if p.key != k {
      B.WorkerElsewhere(hash, s, p, i, k);
    } else if EnsurePc(p.pc) {
      EnsureKeepsKey(hash, s, p, i);
    } else if DeletePc(p.pc) {
      DeleteKeepsKey(hash, s, p, i);
    } else if BarrierPc(p.pc) {
      BarrierKeepsKey(hash, s, p, i);
    } else if DeployPc(p.pc) {
      DeployKeepsKey(hash, s, p, i);
    } else {
      EndKeepsKey(hash, s, p, i);
    }
  }

  // ---------------------------------------------------------- the retry gate

  // A worker passes its gate exactly when its relay is unknown or the gate's
  // time has come.
  lemma GateExact(s: System, pid: nat, i: Input, hash: Scope -> Text)
    requires pid in s.procs && (s.procs[pid].pc.CheckGate? || s.procs[pid].pc.DeleteGate?)
    ensures var p, s' := s.procs[pid], Stepped(s, pid, i, hash);
            var open := p.key in s.reg.entries ==> s.reg.entries[p.key].nextTry <= i.now;
            && s'.reg == s.reg && pid in s'.procs
            && s'.procs[pid] == p.(pc := if !open then Done else if p.pc.CheckGate? then CheckState else DeleteHold)
  {
    hide Step, WorkerMove;
    StepIsMove(s, pid, i, hash);
    GateRoute(s, s.procs[pid], i);
  }

  // Nobody is past k's gate, but for a hold on its way to be released.
  predicate Kept(s: System, k: Key) {
    forall pid | pid in s.procs && s.procs[pid].key == k ::
      var pc := s.procs[pid].pc; pc.CheckGate? || pc.DeleteGate? || pc.ReleaseHold? || pc.Done?
  }

  // The entry but for its hold.
  function Resting(e: Entry): Entry {
    e.(busy := false)
  }

  predicate Rests(s: System, k: Key, e: Entry) {
    k in s.reg.entries && Resting(s.reg.entries[k]) == Resting(e) && Kept(s, k)
  }

  // Before time t, and no reload or settings change that concerns k.
  predicate Early(s: System, l: Label, hash: Scope -> Text, k: Key, t: Instant) {
    && (l.Work? ==> l.input.now < t)
    && (l.Sync? || l.Configure? ==>
          var r' := Step(s, l, hash).reg; k in s.reg.entries && k in r'.entries && r'.entries[k] == s.reg.entries[k])
  }

  lemma EarlyWork(hash: Scope -> Text, s: System, pid: nat, i: Input, k: Key, e: Entry)
    requires Rests(s, k, e) && pid in s.procs && i.now < e.nextTry
    ensures Rests(Stepped(s, pid, i, hash), k, e)
  {
    hide WorkerMove, Step, Resting;
    var p, s' := s.procs[pid], Stepped(s, pid, i, hash);
    StepProcs(s, pid, i, hash);
    if p.key != k {
      B.WorkerElsewhere(hash, s, p, i, k);
      WorkerGoesOn(s, p, i);
    } else if p.pc.CheckGate? || p.pc.DeleteGate? {
      GateExact(s, pid, i, hash);
      SameGate(s.reg.entries[k], e);
    } else {
      AtRest(s, p, i, k);
    }
  }

  lemma SameGate(a: Entry, b: Entry)
    requires Resting(a) == Resting(b)
    ensures a.nextTry == b.nextTry
  {
  }

  lemma StepProcs(s: System, pid: nat, i: Input, hash: Scope -> Text)
    requires pid in s.procs
    ensures var s', m := Stepped(s, pid, i, hash), WorkerMove(s, s.procs[pid], i);
            s'.procs == s.procs[pid := m.p] && s'.reg == m.reg
  {
    hide WorkerMove, Lost;
  }

  lemma AtRest(s: System, p: Proc, i: Input, k: Key)
    requires (p.pc.ReleaseHold? || p.pc.Done?) && p.key == k && k in s.reg.entries
    ensures var m := WorkerMove(s, p, i);
            && m.p == p.(pc := Done) && k in m.reg.entries
            && Resting(m.reg.entries[k]) == Resting(s.reg.entries[k])
  {
    hide WorkerMove;
    EndRoute(s, p, i);
  }

  lemma EarlyStep(hash: Scope -> Text, s: System, l: Label, k: Key, e: Entry)
    requires Rests(s, k, e) && Early(s, l, hash, k, e.nextTry)
    ensures Rests(Step(s, l, hash), k, e)
  {
    hide WorkerMove, AfterSync, AfterUpdateSettings, PoolOf, Serving, Idle, Lost, Begun, Ended, Resting;
    if l.Work? && l.pid in s.procs {
      EarlyWork(hash, s, l.pid, l.input, k, e);
    }
  }

  predicate EarlyRun(s: System, ls: seq<Label>, hash: Scope -> Text, k: Key, t: Instant) {
    forall j | 0 <= j < |ls| :: Early(Protocol.Run(s, ls[..j], hash), ls[j], hash, k, t)
  }

  // A closed gate keeps everybody off: until its time comes, or a reload or a
  // settings change concerns the relay, no run of any workers on any relays
  // takes anyone past it, and the entry stays as the failure left it.
  lemma {:induction false} GateKeepsOff(hash: Scope -> Text, s: System, ls: seq<Label>, k: Key)
    requires k in s.reg.entries && Kept(s, k)
    requires EarlyRun(s, ls, hash, k, s.reg.entries[k].nextTry)
    ensures Rests(Protocol.Run(s, ls, hash), k, s.reg.entries[k])
  {
    hide Step, Early, Rests, Kept;
    if ls == [] {
      RestsNow(s, k);
    } else {
      var front := ls[..|ls| - 1];
      forall j | 0 <= j < |front|
        ensures Early(Protocol.Run(s, front[..j], hash), front[j], hash, k, s.reg.entries[k].nextTry)
      {
        assert front[..j] == ls[..j];
      }
      GateKeepsOff(hash, s, front, k);
      EarlyStep(hash, Protocol.Run(s, front, hash), ls[|ls| - 1], k, s.reg.entries[k]);
    }
  }

  lemma RestsNow(s: System, k: Key)
    requires k in s.reg.entries && Kept(s, k)
    ensures Rests(s, k, s.reg.entries[k])
  {
  }

  // So in every run: after a failed look nobody passes the relay's gate before
  // its time, whatever runs then that does not concern the relay from outside.
  lemma FailureKeepsOff(hash: Scope -> Text, raw: RawSettings, sequential: bool, ls: seq<Label>, pid: nat, i: Input,
                        later: seq<Label>, n: nat)
    requires var s := After(raw, sequential, ls, hash);
             && pid in s.procs && s.procs[pid].pc.Judge? && Tracked(s.reg, s.procs[pid])
             && (s.procs[pid].outcome == NoAnswer || s.procs[pid].outcome == BrokenTrip)
             && s.reg.entries[s.procs[pid].key].record.state != Paused
    requires var k, s' := After(raw, sequential, ls, hash).procs[pid].key,
                          Stepped(After(raw, sequential, ls, hash), pid, i, hash);
             && Kept(s', k) && k in s'.reg.entries
             && EarlyRun(s', later, hash, k, s'.reg.entries[k].nextTry)
    requires n <= |later|
    ensures var k, s' := After(raw, sequential, ls, hash).procs[pid].key,
                         Stepped(After(raw, sequential, ls, hash), pid, i, hash);
            && s'.reg.entries[k].nextTry > i.now
            && Rests(Protocol.Run(s', later[..n], hash), k, s'.reg.entries[k])
  {
    hide After, Stepped, Kept, Rests, Early, Tracked;
    var s := After(raw, sequential, ls, hash);
    var k, s' := s.procs[pid].key, Stepped(s, pid, i, hash);
    FailedLookArms(hash, raw, sequential, ls, pid, i);
    forall j | 0 <= j < n
      ensures Early(Protocol.Run(s', later[..n][..j], hash), later[..n][j], hash, k, s'.reg.entries[k].nextTry)
    {
      assert later[..n][..j] == later[..j];
    }
    GateKeepsOff(hash, s', later[..n], k);
  }

  // ------------------------------------------------------------- the applier

  // What the installed pool holds of a snapshot: every member whose URL is well
  // formed, under its admission, and nothing else.
  lemma SwapExact(s: System, malformed: set<Text>, hash: Scope -> Text, k: Key)
    requires s.applier.Built?
    ensures var s', members := Step(s, Swap(malformed), hash), s.applier.snap.members;
            && s'.serving.snap == s.applier.snap
            && (k in s'.serving.pool <==>
                  k in members && (members[k].endpoint.Some? ==> members[k].endpoint.value.url !in malformed))
            && (k in s'.serving.pool ==> s'.serving.pool[k] == members[k])
  {
  }

  // A whole turn of the applier, undisturbed, catches up: every notification is
  // applied, and the pool holds exactly the relays that serve, under the pair
  // and the incarnation they serve in.
  lemma TurnCatchesUp(s: System, malformed: set<Text>, hash: Scope -> Text, k: Key)
    requires s.applier.Waiting?
    ensures var s' := Protocol.Run(s, [Capture(s.reg.notifySeq), Build, Swap(malformed), Publish], hash);
            && s'.reg == s.reg && s'.applier.Waiting?
            && s'.applied >= s.applied && s'.applied >= s.reg.notifySeq && s'.serving.snap.at == s.reg.notifySeq
            && (k in s'.serving.pool <==>
                  && k in s.reg.entries && s.reg.entries[k].serving
                  && (s.reg.entries[k].endpoint.Some? ==> s.reg.entries[k].endpoint.value.url !in malformed))
            && (k in s'.serving.pool ==>
                  var e, a := s.reg.entries[k], s'.serving.pool[k];
                  a.endpoint == e.endpoint && a.generation == e.record.generation && a.scopeFP == e.scopeFP)
  {
    hide WorkerMove, AfterSync, AfterUpdateSettings, Lost, Begun, Ended, Idle;
    var l1 := [Capture(s.reg.notifySeq)];
    var l2, l3 := l1 + [Build], l1 + [Build] + [Swap(malformed)];
    var l4 := l3 + [Publish];
    assert l4 == [Capture(s.reg.notifySeq), Build, Swap(malformed), Publish];
    assert l1[..0] == [] && l2[..1] == l1 && l3[..2] == l2 && l4[..3] == l3;
    assert Protocol.Run(s, [], hash) == s;
    var s1 := Protocol.Run(s, l1, hash);
    assert s1 == Step(s, l1[0], hash);
    var s2 := Protocol.Run(s, l2, hash);
    assert s2 == Step(s1, Build, hash);
    var s3 := Protocol.Run(s, l3, hash);
    assert s3 == Step(s2, Swap(malformed), hash);
    assert Protocol.Run(s, l4, hash) == Step(s3, Publish, hash);
    SwapExact(s2, malformed, hash, k);
  }

  // What comes from outside: a reload, which with one pass at a time waits until
  // no worker holds a relay; a settings change, as part of an applier's turn;
  // the shutdown.
  lemma OutsideActs(s: System, ms: seq<Member>, now: Clock, raw: RawSettings, hash: Scope -> Text)
    ensures Step(s, Label.Sync(ms, now), hash).reg
         == if s.sequential && (exists q | q in s.procs :: Holding(s.procs[q])) then s.reg
            else AfterSync(s.reg, ms, hash, now)
    ensures Step(s, Configure(raw), hash).reg == if s.applier.Captured? then AfterUpdateSettings(s.reg, raw) else s.reg
    ensures Step(s, Shutdown, hash) == s.(shutting := true)
  {
    hide AfterSync, AfterUpdateSettings, Lost, Holding;
  }

  // And workers, each of which starts at its gate.
  lemma WorkersStart(s: System, pid: nat, k: Key, relayKey: Text, hash: Scope -> Text)
    ensures var s' := Step(s, SpawnEnsure(pid, k, relayKey), hash);
            if pid in s.procs && !s.procs[pid].pc.Done? then s' == s
            else
              && s' == s.(procs := s'.procs) && pid in s'.procs && s'.procs == s.procs[pid := s'.procs[pid]]
              && var p := s'.procs[pid];
                 p.key == k && p.relayKey == relayKey && p.pc.CheckGate? && !p.began && !p.purged && !p.drained
    ensures var s' := Step(s, SpawnDelete(pid, k), hash);
            if pid in s.procs && !s.procs[pid].pc.Done? then s' == s
            else
              && s' == s.(procs := s'.procs) && pid in s'.procs && s'.procs == s.procs[pid := s'.procs[pid]]
              && var p := s'.procs[pid]; p.key == k && p.pc.DeleteGate? && !p.began && !p.purged
  {
    hide AfterSync, AfterUpdateSettings, Lost, WorkerMove;
  }

  // A request begins exactly on a relay of the installed pool, under its
  // admission, and counts until it ends.
  lemma RequestCounts(s: System, aid: nat, k: Key, hash: Scope -> Text)
    ensures var s' := Step(s, BeginAttempt(aid, k), hash);
            if aid !in s.attempts && k in s.serving.pool then
              && aid in s'.attempts && s'.attempts[aid].key == k && s'.attempts[aid].admission == s.serving.pool[k]
              && Count(s'.inflight, k) == Count(s.inflight, k) + 1
              && forall j | j != k :: Count(s'.inflight, j) == Count(s.inflight, j)
            else s' == s
    ensures var s' := Step(s, EndAttempt(aid), hash);
            if aid in s.attempts then
              && aid !in s'.attempts
              && (Count(s.inflight, s.attempts[aid].key) > 0 ==>
                    Count(s'.inflight, s.attempts[aid].key) == Count(s.inflight, s.attempts[aid].key) - 1)
              && forall j | j != s.attempts[aid].key :: Count(s'.inflight, j) == Count(s.inflight, j)
            else s' == s
  {
  }
}
