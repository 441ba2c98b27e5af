// Where the barrier does not apply: runs of one pass at a time in which a
// deploy starts while a request is still in flight on the same relay.
module ProtocolTrace {
  import opened Readiness
  import opened ReadinessLaws
  import opened Protocol
  import opened ProtocolInvariant
  import opened ProtocolTheorems
  import opened ProtocolBarrier

  ghost predicate Reached(hash: Scope -> Text, raw: RawSettings, s: System) {
    exists ls :: After(raw, true, ls, hash) == s
  }

  lemma Next(hash: Scope -> Text, raw: RawSettings, s: System, l: Label) returns (s': System)
    requires Reached(hash, raw, s)
    ensures s' == Step(s, l, hash) && Reached(hash, raw, s')
  {
    hide Step, Start;
    var ls :| After(raw, true, ls, hash) == s;
    s' := Step(s, l, hash);
    var more := ls + [l];
    assert more[..|more| - 1] == ls;
    assert After(raw, true, more, hash) == s';
  }

  // Requests, pool and applier untouched.
  predicate Aside(s: System, s': System) {
    s'.serving == s.serving && s'.attempts == s.attempts && s'.inflight == s.inflight && s'.applier == s.applier
    && s'.sequential == s.sequential
  }

  lemma Acts(hash: Scope -> Text, raw: RawSettings, s: System, pid: nat, i: Input, m: Move) returns (s': System)
    requires Reached(hash, raw, s) && pid in s.procs && m == WorkerMove(s, s.procs[pid], i)
    ensures Reached(hash, raw, s') && Aside(s, s') && s'.reg == m.reg && s'.procs == s.procs[pid := m.p]
  {
    hide WorkerMove, Reached;
    s' := Next(hash, raw, s, Work(pid, i));
  }

  function At(now: Clock, discovery: Discovery, outcome: Outcome): Input {
    Input(now, 0, true, 0, discovery, outcome, "")
  }

  // A relay nobody works on, free to be looked at.
  predicate Free(s: System, pid: nat, k: Key, e: Entry, now: Clock) {
    && (pid in s.procs ==> s.procs[pid].pc.Done?)
    && k in s.reg.entries && s.reg.entries[k] == e && !e.busy && e.nextTry <= now
    && e.record.state != Removing
  }

  // A look relabels the relay, unless it is paused.
  function Looked(e: Entry, now: Clock): Entry {
    if e.record.state == Paused then e.(busy := true)
    else e.(busy := true, record := Entered(e.record, Discovering, NoReason, now))
  }

  // A worker takes the hold.
  lemma Holds(hash: Scope -> Text, raw: RawSettings, s: System, pid: nat, k: Key, e: Entry, now: Clock)
    returns (s': System)
    requires Reached(hash, raw, s) && Free(s, pid, k, e, now)
    ensures Reached(hash, raw, s') && Aside(s, s')
    ensures s'.procs == s.procs[pid := Fresh(k, "key", Recheck).(id := e.id, generation := e.record.generation)]
    ensures s'.reg == Install(s.reg, k, e.(busy := true), false)
  {
    hide Reached;
    var i := At(now, Discovery.Absent, Passed);
    s' := Next(hash, raw, s, SpawnEnsure(pid, k, "key"));
    s' := Acts(hash, raw, s', pid, i, Goto(s'.procs[pid], CheckState, s'.reg));
    s' := Acts(hash, raw, s', pid, i, Goto(s'.procs[pid], TakeHold, s'.reg));
    s' := Acts(hash, raw, s', pid, i, TakeHoldMove(s'.reg, s'.procs[pid], i));
    assert s'.procs == s.procs[pid := Fresh(k, "key", Recheck).(id := e.id, generation := e.record.generation)];
  }

  // It looks: reads the flags and discovers.
  lemma Reads(hash: Scope -> Text, raw: RawSettings, s: System, pid: nat, e: Entry, now: Clock) returns (s': System)
    requires Reached(hash, raw, s) && pid in s.procs && s.procs[pid].pc.Recheck?
    requires var p := s.procs[pid]; p.key in s.reg.entries && s.reg.entries[p.key] == e
    requires e.record.state != Removing
    ensures Reached(hash, raw, s') && Aside(s, s')
    ensures s'.procs == s.procs[pid := s.procs[pid].(wasReady := e.serving, drainPending := e.record.drainPending,
                                                     pc := EnterDiscovering)]
    ensures s'.reg == s.reg
  {
    hide Reached;
    s' := Resolves(hash, raw, s, pid, At(now, Discovery.Absent, Passed));
    s' := ReadsFlags(hash, raw, s', pid, e, now);
  }

  lemma Resolves(hash: Scope -> Text, raw: RawSettings, s: System, pid: nat, i: Input) returns (s': System)
    requires Reached(hash, raw, s) && pid in s.procs && s.procs[pid].pc.Recheck? && i.ok
    requires !Removable(s.reg, s.procs[pid].key)
    ensures Reached(hash, raw, s') && Aside(s, s') && s'.reg == s.reg
    ensures s'.procs == s.procs[pid := s.procs[pid].(pc := ReadServing)]
  {
    hide Reached, Removable;
    s' := Acts(hash, raw, s, pid, i, Goto(s.procs[pid], Resolve, s.reg));
    s' := Acts(hash, raw, s', pid, i, Goto(s'.procs[pid], ReadServing, s'.reg));
  }

  lemma ReadsFlags(hash: Scope -> Text, raw: RawSettings, s: System, pid: nat, e: Entry, now: Clock)
    returns (s': System)
    requires Reached(hash, raw, s) && pid in s.procs && s.procs[pid].pc.ReadServing?
    requires var p := s.procs[pid]; p.key in s.reg.entries && s.reg.entries[p.key] == e
    ensures Reached(hash, raw, s') && Aside(s, s')
    ensures s'.procs == s.procs[pid := s.procs[pid].(wasReady := e.serving, drainPending := e.record.drainPending,
                                                     pc := EnterDiscovering)]
    ensures s'.reg == s.reg
  {
    hide Reached, Serving;
    var i := At(now, Discovery.Absent, Passed);
    s' := ReadsServing(hash, raw, s, pid, e, i);
    s' := ReadsDrain(hash, raw, s', pid, e, i);
  }

  lemma ReadsServing(hash: Scope -> Text, raw: RawSettings, s: System, pid: nat, e: Entry, i: Input)
    returns (s': System)
    requires Reached(hash, raw, s) && pid in s.procs && s.procs[pid].pc.ReadServing?
    requires var p := s.procs[pid]; p.key in s.reg.entries && s.reg.entries[p.key] == e
    ensures Reached(hash, raw, s') && Aside(s, s') && s'.reg == s.reg
    ensures s'.procs == s.procs[pid := s.procs[pid].(wasReady := e.serving, pc := ReadDrain)]
  {
    hide Reached, Serving;
    ServingAt(s.reg, s.procs[pid].key);
    s' := Acts(hash, raw, s, pid, i, ReadServingMove(s.reg, s.procs[pid]));
  }

  lemma ServingAt(r: Registry, k: Key)
    ensures k in Serving(r) <==> k in r.entries && r.entries[k].serving
  {
  }

  lemma ReadsDrain(hash: Scope -> Text, raw: RawSettings, s: System, pid: nat, e: Entry, i: Input)
    returns (s': System)
    requires Reached(hash, raw, s) && pid in s.procs && s.procs[pid].pc.ReadDrain?
    requires var p := s.procs[pid]; p.key in s.reg.entries && s.reg.entries[p.key] == e
    ensures Reached(hash, raw, s') && Aside(s, s') && s'.reg == s.reg
    ensures s'.procs == s.procs[pid := s.procs[pid].(drainPending := e.record.drainPending, pc := EnterDiscovering)]
  {
    hide Reached, Serving;
    s' := Acts(hash, raw, s, pid, i, ReadDrainMove(s.reg, s.procs[pid]));
  }

  // The worker after discovery, and its entry.
  function Looker(k: Key, e: Entry, pc: Pc): Proc {
    Fresh(k, "key", pc).(id := e.id, generation := e.record.generation, wasReady := e.serving,
                         drainPending := e.record.drainPending)
  }

  lemma Looks(hash: Scope -> Text, raw: RawSettings, s: System, pid: nat, k: Key, e: Entry, now: Clock)
    returns (s': System)
    requires Reached(hash, raw, s) && Free(s, pid, k, e, now)
    ensures Reached(hash, raw, s') && Aside(s, s') && s'.reg.cfg == s.reg.cfg && s'.reg.readyCount == s.reg.readyCount
    ensures s'.procs == s.procs[pid := Looker(k, e, Discover)]
    ensures k in s'.reg.entries && s'.reg.entries[k] == Looked(e, now)
  {
    hide Reached;
    s' := Holds(hash, raw, s, pid, k, e, now);
    s' := Reads(hash, raw, s', pid, e.(busy := true), now);
    var i := At(now, Discovery.Absent, Passed);
    var p := s'.procs[pid];
    s' := Acts(hash, raw, s', pid, i, PhaseMove(s'.reg, p, Discovering, NoReason, Discover, now));
    assert s'.procs == s.procs[pid := Looker(k, e, Discover)];
  }

  // A pass that finds nothing of the relay and starts a rollout: with none of
  // the three flags it goes straight to the deploy call.
  lemma Replaces(hash: Scope -> Text, raw: RawSettings, s: System, pid: nat, k: Key, e: Entry, now: Clock)
    returns (s': System)
    requires Reached(hash, raw, s) && Free(s, pid, k, e, now)
    requires !e.serving && !e.record.drainPending && !e.scopeChanged
    ensures Reached(hash, raw, s') && Aside(s, s')
    ensures pid in s'.procs && s'.procs[pid].pc.DeployActive? && s'.procs[pid].key == k && !Obliged(s'.procs[pid])
  {
    hide Reached;
    s' := Looks(hash, raw, s, pid, k, e, now);
    var i := At(now, Discovery.Absent, Passed);
    s' := Acts(hash, raw, s', pid, i, Goto(s'.procs[pid], NoteMissing, s'.reg));
    s' := Acts(hash, raw, s', pid, i, PhaseMove(s'.reg, s'.procs[pid], Discovered, Missing, TakeMarker, now));
    assert s'.procs[pid] == Looker(k, e, TakeMarker);
    assert k in s'.reg.entries && !s'.reg.entries[k].scopeChanged;
    s' := Revokes(hash, raw, s', pid, i);
    s' := Deploys(hash, raw, s', pid, i);
  }

  lemma Deploys(hash: Scope -> Text, raw: RawSettings, s: System, pid: nat, i: Input) returns (s': System)
    requires Reached(hash, raw, s) && pid in s.procs && s.procs[pid].pc.EnterDeploying?
    ensures Reached(hash, raw, s') && Aside(s, s')
    ensures pid in s'.procs && s'.procs[pid].pc.DeployActive? && s'.procs[pid].key == s.procs[pid].key
    ensures Obliged(s'.procs[pid]) == Obliged(s.procs[pid])
  {
    hide Reached, AfterEnter;
    s' := Acts(hash, raw, s, pid, i, PhaseMove(s.reg, s.procs[pid], Deploying, NoReason, DeployCall, i.now));
    s' := Acts(hash, raw, s', pid, i, Goto(s'.procs[pid], DeployActive, s'.reg));
  }

  lemma Revokes(hash: Scope -> Text, raw: RawSettings, s: System, pid: nat, i: Input) returns (s': System)
    requires Reached(hash, raw, s) && pid in s.procs && s.procs[pid].pc.TakeMarker?
    requires var p := s.procs[pid]; !p.wasReady && !p.drainPending && p.key in s.reg.entries
                                    && !s.reg.entries[p.key].scopeChanged
    ensures Reached(hash, raw, s') && Aside(s, s') && pid in s'.procs
    ensures var p' := s'.procs[pid]; p'.pc.EnterDeploying? && p'.key == s.procs[pid].key && !Obliged(p')
  {
    hide Reached;
    s' := Acts(hash, raw, s, pid, i, TakeMarkerMove(s.reg, s.procs[pid]));
    s' := Acts(hash, raw, s', pid, i, RevokeMove(s'.reg, s'.procs[pid], i));
  }

  // What a verdict on the deployment found does to the registry.
  function Judged(r: Registry, k: Key, e: Entry, o: Outcome, now: Clock): Registry {
    if o.Passed? then AfterReady(r, k, e.record.generation, Endpoint("url", "key"), 0, now)
    else if o.SuspensionPage? then AfterPause(r, k, e.record.generation, Suspended, now)
    else AfterFailing(r, k, e.record.generation, Unreachable, 0, now)
  }

  // A pass that finds the deployment and admits it or gives up.
  lemma Judges(hash: Scope -> Text, raw: RawSettings, s: System, pid: nat, k: Key, e: Entry, now: Clock, o: Outcome)
    returns (s': System, r: Registry)
    requires Reached(hash, raw, s) && Free(s, pid, k, e, now) && (o.Passed? || o.NoAnswer? || o.SuspensionPage?)
    ensures Reached(hash, raw, s') && Aside(s, s')
    ensures pid in s'.procs && s'.procs[pid].pc.Done? && s'.procs == s.procs[pid := s'.procs[pid]]
    ensures r.cfg == s.reg.cfg && r.readyCount == s.reg.readyCount && k in r.entries && r.entries[k] == Looked(e, now)
    ensures s'.reg == AfterRelease(Judged(r, k, e, o, now), Hold(k, e.id, e.record.generation))
  {
    hide Reached, Judged, AfterRelease, Looked, Free;
    var s1 := Looks(hash, raw, s, pid, k, e, now);
    r := s1.reg;
    var i := At(now, Found("url"), o);
    var s2 := Acts(hash, raw, s1, pid, i, Goto(s1.procs[pid].(url := "url"), Probe, r));
    var s3 := Acts(hash, raw, s2, pid, i, VerdictMove(r, s2.procs[pid], Judge, i));
    s' := Applies(hash, raw, s3, pid, k, e, i);
    assert s'.procs == s.procs[pid := s'.procs[pid]];
  }

  lemma Applies(hash: Scope -> Text, raw: RawSettings, s: System, pid: nat, k: Key, e: Entry, i: Input)
    returns (s': System)
    requires Reached(hash, raw, s) && pid in s.procs && i.duration == 0
    requires i.outcome.Passed? || i.outcome.NoAnswer? || i.outcome.SuspensionPage?
    requires s.procs[pid] == Looker(k, e, Judge).(url := "url", outcome := i.outcome)
    ensures Reached(hash, raw, s') && Aside(s, s')
    ensures pid in s'.procs && s'.procs[pid].pc.Done? && s'.procs == s.procs[pid := s'.procs[pid]]
    ensures s'.reg == AfterRelease(Judged(s.reg, k, e, i.outcome, i.now), Hold(k, e.id, e.record.generation))
  {
    hide Reached, AfterRelease, Judged;
    var s1 := GivesVerdict(hash, raw, s, pid, k, e, i);
    s' := Acts(hash, raw, s1, pid, i, ReleaseMove(s1.reg, s1.procs[pid]));
    assert s'.procs == s.procs[pid := s'.procs[pid]];
  }

  lemma GivesVerdict(hash: Scope -> Text, raw: RawSettings, s: System, pid: nat, k: Key, e: Entry, i: Input)
    returns (s': System)
    requires Reached(hash, raw, s) && pid in s.procs && i.duration == 0
    requires i.outcome.Passed? || i.outcome.NoAnswer? || i.outcome.SuspensionPage?
    requires s.procs[pid] == Looker(k, e, Judge).(url := "url", outcome := i.outcome)
    ensures Reached(hash, raw, s') && Aside(s, s') && s'.reg == Judged(s.reg, k, e, i.outcome, i.now)
    ensures s'.procs == s.procs[pid := s.procs[pid].(pc := ReleaseHold)]
  {
    hide Reached, AfterReady, AfterFailing, AfterPause;
    s' := Acts(hash, raw, s, pid, i, JudgeMove(s.reg, s.procs[pid], i));
  }

  // ------------------------------------------------------ the first bring-up

  lemma FreshRun(hash: Scope -> Text, raw: RawSettings) returns (s: System)
    ensures Reached(hash, raw, s) && s == Start(raw, true)
  {
    s := Start(raw, true);
    assert After(raw, true, [], hash) == s;
  }

  const RELAY := Key("vercel", "eu")
  const MEMBER := Member(RELAY, NO_PINS, true)

  lemma Desired(hash: Scope -> Text, raw: RawSettings) returns (s: System, e: Entry)
    ensures Reached(hash, raw, s) && s.sequential && s.procs == map[] && s.reg.cfg == Merge(DEFAULTS, raw)
    ensures s.reg.entries == map[RELAY := e] && s.attempts == map[] && s.inflight == map[] && s.applier.Waiting?
    ensures e == FreshEntry(0, RELAY, 1).(scope := NO_PINS, scopeKnown := true)
  {
    hide Reached;
    s := FreshRun(hash, raw);
    s := Next(hash, raw, s, Label.Sync([MEMBER], 1));
    e := FreshEntry(0, RELAY, 1).(scope := NO_PINS, scopeKnown := true);
    SyncOne(NewRegistry(raw), hash, 1);
  }

  lemma SyncOne(r: Registry, hash: Scope -> Text, now: Clock)
    requires r.entries == map[]
    ensures var r' := AfterSync(r, [MEMBER], hash, now);
            && r'.cfg == r.cfg
            && r'.entries == map[RELAY := FreshEntry(r.nextId, RELAY, now).(scope := NO_PINS, scopeKnown := true)]
  {
    var r1 := SyncMembers(r, [MEMBER], hash, now);
    assert r1 == SyncMember(r, MEMBER, hash, now) by {
      SyncMembersNext(r, [MEMBER], 0, hash, now);
      assert [MEMBER][..1] == [MEMBER] && [MEMBER][..0] == [];
    }
    assert Readiness.Absent(r1, MemberKeys([MEMBER])) == {};
    RemoveNone(r1, now);
  }

  function ServedEntry(e: Entry): Entry {
    e.(busy := false, endpoint := Some(Endpoint("url", "key")), record := Verified(e.record, 0, 1),
       scopeChanged := false, nextTry := ZERO_TIME, serving := true)
  }

  lemma ReleasedReady(r: Registry, k: Key, e: Entry)
    requires k in r.entries && r.entries[k] == Looked(e, 1)
    ensures var r' := AfterRelease(Judged(r, k, e, Passed, 1), Hold(k, e.id, e.record.generation));
            k in r'.entries && r'.entries[k] == ServedEntry(e) && r'.cfg == r.cfg
  {
  }

  // The pool is rebuilt, and a request starts on the relay.
  lemma Requests(hash: Scope -> Text, raw: RawSettings, s: System) returns (s': System)
    requires Reached(hash, raw, s) && s.applier.Waiting? && s.attempts == map[] && s.inflight == map[]
    requires RELAY in s.reg.entries && s.reg.entries[RELAY].serving
    ensures Reached(hash, raw, s') && s'.reg == s.reg && s'.procs == s.procs && s'.sequential == s.sequential
    ensures Count(s'.inflight, RELAY) == 1
  {
    hide Reached;
    s' := Builds(hash, raw, s);
    s' := Next(hash, raw, s', Swap({}));
    assert RELAY in s'.serving.pool;
    s' := Next(hash, raw, s', BeginAttempt(0, RELAY));
  }

  lemma Builds(hash: Scope -> Text, raw: RawSettings, s: System) returns (s': System)
    requires Reached(hash, raw, s) && s.applier.Waiting?
    requires RELAY in s.reg.entries && s.reg.entries[RELAY].serving
    ensures Reached(hash, raw, s') && s' == s.(applier := s'.applier)
    ensures s'.applier.Built? && RELAY in s'.applier.snap.members
  {
    hide Reached;
    s' := Next(hash, raw, s, Capture(s.reg.notifySeq));
    s' := Next(hash, raw, s', Build);
  }

  lemma BroughtUp(hash: Scope -> Text, raw: RawSettings) returns (s: System, e: Entry)
    ensures Reached(hash, raw, s) && s.sequential && s.reg.cfg == Merge(DEFAULTS, raw)
    ensures Count(s.inflight, RELAY) == 1 && s.procs.Keys == {0} && s.procs[0].pc.Done?
    ensures RELAY in s.reg.entries && s.reg.entries[RELAY] == e
    ensures e == ServedEntry(FreshEntry(0, RELAY, 1).(scope := NO_PINS, scopeKnown := true))
  {
    hide Reached, Judged, AfterRelease;
    var s0, e0 := Desired(hash, raw);
    var s1, r := Judges(hash, raw, s0, 0, RELAY, e0, 1, Passed);
    ReleasedReady(r, RELAY, e0);
    s := Requests(hash, raw, s1);
    e := ServedEntry(e0);
  }

  // -------------------------------------------------- the excluded deploys

  lemma Exhibits(hash: Scope -> Text, raw: RawSettings, s: System, pid: nat)
    requires Reached(hash, raw, s) && DeploysUnderTraffic(s, pid)
    ensures exists ls :: DeploysUnderTraffic(After(raw, true, ls, hash), pid)
  {
    hide After, DeploysUnderTraffic;
    var ls :| After(raw, true, ls, hash) == s;
    assert DeploysUnderTraffic(After(raw, true, ls, hash), pid);
  }

  // The entry after a failed verification demoted the serving relay.
  function DemotedEntry(cfg: Settings, e: Entry, ready: int): Entry {
    var rec := Missed(Looked(e, 2).record, Unreachable, 0, 2);
    Revoked(e, Relabelled(rec, Unready, 2), Gate(cfg, rec.failStreak, ready - 1, 2))
  }

  lemma ReleasedDemoted(r: Registry, k: Key, e: Entry)
    requires k in r.entries && r.entries[k] == Looked(e, 2) && e.serving && !e.busy
    requires e.record.failStreak == 0 && r.cfg.demoteAfter == 1
    ensures var r' := AfterRelease(Judged(r, k, e, NoAnswer, 2), Hold(k, e.id, e.record.generation));
            k in r'.entries && r'.entries[k] == DemotedEntry(r.cfg, e, r.readyCount)
  {
  }

  // A demotion by failure streak arms no barrier: the next pass, finding the
  // deployment gone, deploys under the request still in flight.
  lemma StreakDemotionSkipsBarrier(hash: Scope -> Text)
    ensures var raw := RawSettings(0, 0, 0, 0, 1);
            exists ls :: DeploysUnderTraffic(After(raw, true, ls, hash), 2)
  {
    hide Reached, After, Judged, AfterRelease, Gate;
    var raw := RawSettings(0, 0, 0, 0, 1);
    var s, e := BroughtUp(hash, raw);
    var s1, r := Judges(hash, raw, s, 1, RELAY, e, 2, NoAnswer);
    ReleasedDemoted(r, RELAY, e);
    var e1 := DemotedEntry(r.cfg, e, r.readyCount);
    var s2 := Replaces(hash, raw, s1, 2, RELAY, e1, e1.nextTry);
    Exhibits(hash, raw, s2, 2);
  }

  // So does a removal taken back before the delete ran.
  lemma ReAddSkipsBarrier(hash: Scope -> Text)
    ensures var raw := RawSettings(0, 0, 0, 0, 0);
            exists ls :: DeploysUnderTraffic(After(raw, true, ls, hash), 1)
  {
    hide Reached, After, AfterSync;
    var raw := RawSettings(0, 0, 0, 0, 0);
    var s, e := BroughtUp(hash, raw);
    var s1 := Next(hash, raw, s, Label.Sync([], 2));
    var s2 := Next(hash, raw, s1, Label.Sync([MEMBER], 3));
    var e2 := ReAdded(hash, s.reg, e);
    var s3 := Replaces(hash, raw, s2, 1, RELAY, e2, 3);
    Exhibits(hash, raw, s3, 1);
  }

  lemma ReAdded(hash: Scope -> Text, r: Registry, e: Entry) returns (e2: Entry)
    requires RELAY in r.entries && r.entries[RELAY] == e && e.record.state == State.Ready && !e.busy
    ensures var r2 := AfterSync(AfterSync(r, [], hash, 2), [MEMBER], hash, 3);
            RELAY in r2.entries && r2.entries[RELAY] == e2
    ensures !e2.serving && !e2.record.drainPending && !e2.scopeChanged && !e2.busy && e2.nextTry == 0
    ensures e2.record.state == Configured
  {
    var r1 := AfterSync(r, [], hash, 2);
    assert RELAY !in MemberKeys([]);
    assert r1.entries[RELAY] == RemovedEntry(e, 2);
    var r2 := SyncMembers(r1, [MEMBER], hash, 3);
    assert r2 == SyncMember(r1, MEMBER, hash, 3) by {
      SyncMembersNext(r1, [MEMBER], 0, hash, 3);
      assert [MEMBER][..1] == [MEMBER] && [MEMBER][..0] == [];
    }
    assert RELAY in MemberKeys([MEMBER]) by {
      assert [MEMBER][0] == MEMBER;
    }
    e2 := r2.entries[RELAY];
  }

  // So does a pause: the platform answered with a suspension page.
  lemma PauseSkipsBarrier(hash: Scope -> Text)
    ensures var raw := RawSettings(0, 0, 0, 0, 0);
            exists ls :: DeploysUnderTraffic(After(raw, true, ls, hash), 2)
  {
    hide Reached, After, Judged, AfterRelease;
    var raw := RawSettings(0, 0, 0, 0, 0);
    var s, e := BroughtUp(hash, raw);
    var s1, r := Judges(hash, raw, s, 1, RELAY, e, 2, SuspensionPage);
    ReleasedPaused(r, RELAY, e);
    var e1 := PausedEntry(r.cfg, e);
    var s2 := Replaces(hash, raw, s1, 2, RELAY, e1, e1.nextTry);
    Exhibits(hash, raw, s2, 2);
  }

  // The entry after a suspension page paused the serving relay.
  function PausedEntry(cfg: Settings, e: Entry): Entry {
    Revoked(e, Relabelled(Attempted(Looked(e, 2).record, Suspended, 2), Paused, 2), 2 + cfg.pauseRetry)
  }

  lemma ReleasedPaused(r: Registry, k: Key, e: Entry)
    requires k in r.entries && r.entries[k] == Looked(e, 2) && e.serving && !e.busy && e.record.state != Paused
    ensures var r' := AfterRelease(Judged(r, k, e, SuspensionPage, 2), Hold(k, e.id, e.record.generation));
            k in r'.entries && r'.entries[k] == PausedEntry(r.cfg, e)
  {
  }

  // And two scope flips in a row: the second overwrites the first one's marker.
  lemma TwoFlipsSkipBarrier(hash: Scope -> Text)
    ensures var raw := RawSettings(0, 0, 0, 0, 0);
            exists ls :: DeploysUnderTraffic(After(raw, true, ls, hash), 1)
  {
    hide Reached, After, AfterSync;
    var raw := RawSettings(0, 0, 0, 0, 0);
    var s, e := BroughtUp(hash, raw);
    var m, n := MEMBER.(scope := Scope(Pin("a"), NoPin, NoPin)), MEMBER.(scope := Scope(Pin("b"), NoPin, NoPin));
    var s1 := Next(hash, raw, s, Label.Sync([m], 2));
    SyncAt(hash, s.reg, m, 2);
    var s2 := Next(hash, raw, s1, Label.Sync([n], 3));
    SyncAt(hash, s1.reg, n, 3);
    var e2 := s2.reg.entries[RELAY];
    var s3 := Replaces(hash, raw, s2, 1, RELAY, e2, 3);
    Exhibits(hash, raw, s3, 1);
  }

  // What a Sync of one member does to its entry.
  lemma SyncAt(hash: Scope -> Text, r: Registry, m: Member, now: Clock)
    requires m.key == RELAY && RELAY in r.entries
    ensures var r' := AfterSync(r, [m], hash, now);
            RELAY in r'.entries && r'.entries[RELAY] == SyncedEntry(r.entries[RELAY], m, MemberFP(hash, m), now)
  {
    var r1 := SyncMembers(r, [m], hash, now);
    assert r1 == SyncMember(r, m, hash, now) by {
      SyncMembersNext(r, [m], 0, hash, now);
      assert [m][..1] == [m] && [m][..0] == [];
    }
    assert RELAY in MemberKeys([m]) by {
      assert [m][0] == m;
    }
  }

  // ------------------------------------------------ the barrier can be passed

  // The applier catches up with the registry.
  lemma CatchesUp(hash: Scope -> Text, raw: RawSettings, s: System) returns (s': System)
    requires Reached(hash, raw, s) && s.applier.Waiting?
    ensures Reached(hash, raw, s') && s'.reg == s.reg && s'.procs == s.procs && s'.inflight == s.inflight
    ensures s'.applied >= s.reg.notifySeq
  {
    hide Reached, Serving, PoolOf;
    s' := Next(hash, raw, s, Capture(s.reg.notifySeq));
    s' := Next(hash, raw, s', Build);
    s' := Next(hash, raw, s', Swap({}));
    s' := Next(hash, raw, s', Publish);
  }

  // A rollout of a serving relay demotes it and waits to settle.
  lemma WaitsToSettle(hash: Scope -> Text, raw: RawSettings, s: System, pid: nat, i: Input) returns (s': System)
    requires Reached(hash, raw, s) && pid in s.procs && s.procs[pid].pc.TakeMarker? && s.procs[pid].wasReady && i.ok
    ensures Reached(hash, raw, s') && Aside(s, s') && pid in s'.procs
    ensures var p := s'.procs[pid];
            p.pc.SettleWait? && p.target <= s'.reg.notifySeq && Obliged(p) && p.key == s.procs[pid].key
  {
    hide Reached, AfterTakeScopeChanged, AfterDemote;
    s' := Acts(hash, raw, s, pid, i, TakeMarkerMove(s.reg, s.procs[pid]));
    s' := Acts(hash, raw, s', pid, i, RevokeMove(s'.reg, s'.procs[pid], i));
    var j := i.(target := s'.reg.notifySeq);
    s' := Acts(hash, raw, s', pid, j, TargetMove(s'.reg, s'.procs[pid], SettleWait, j));
  }

  // Settled and drained, it goes on to the deploy.
  lemma SettlesAndDrains(hash: Scope -> Text, raw: RawSettings, s: System, pid: nat, i: Input) returns (s': System)
    requires Reached(hash, raw, s) && pid in s.procs && s.procs[pid].pc.SettleWait? && Obliged(s.procs[pid]) && i.ok
    requires s.applied >= s.procs[pid].target && Count(s.inflight, s.procs[pid].key) == 0
    ensures Reached(hash, raw, s') && pid in s'.procs
    ensures s'.procs[pid].pc.EnterDeploying? && Obliged(s'.procs[pid])
  {
    hide Reached, AfterDrainCompleted;
    s' := Acts(hash, raw, s, pid, i, SettleMove(s, s.procs[pid], Drain, Defer));
    s' := Acts(hash, raw, s', pid, i, DrainMove(s', s'.procs[pid], DrainDone, MarkUnready, i));
    s' := Acts(hash, raw, s', pid, i, DrainDoneMove(s'.reg, s'.procs[pid]));
  }

  lemma FindsNothing(hash: Scope -> Text, raw: RawSettings, s: System, pid: nat, k: Key, e: Entry, now: Clock)
    returns (s': System)
    requires Reached(hash, raw, s) && Free(s, pid, k, e, now)
    ensures Reached(hash, raw, s') && Aside(s, s')
    ensures s'.procs == s.procs[pid := Looker(k, e, TakeMarker)]
  {
    hide Reached, Looked, Free, AfterEnter;
    var i := At(now, Discovery.Absent, Passed);
    s' := Looks(hash, raw, s, pid, k, e, now);
    s' := Acts(hash, raw, s', pid, i, Goto(s'.procs[pid], NoteMissing, s'.reg));
    s' := Acts(hash, raw, s', pid, i, PhaseMove(s'.reg, s'.procs[pid], Discovered, Missing, TakeMarker, now));
    assert s'.procs == s.procs[pid := Looker(k, e, TakeMarker)];
  }

  // The barrier holds nobody up for good: some run takes a serving relay through
  // demotion, settling and draining to its deploy.
  lemma BarrierPasses(hash: Scope -> Text)
    ensures exists raw: RawSettings, ls: seq<Label> ::
              var s := After(raw, true, ls, hash);
              1 in s.procs && s.procs[1].pc.DeployActive? && Obliged(s.procs[1]) && s.procs[1].drained
  {
    hide Reached, Judged, AfterRelease, After, Start;
    var raw := RawSettings(0, 0, 0, 0, 0);
    var s0, e0 := Desired(hash, raw);
    var s1, r := Judges(hash, raw, s0, 0, RELAY, e0, 1, Passed);
    ReleasedReady(r, RELAY, e0);
    var i := At(1, Discovery.Absent, Passed);
    var s2 := FindsNothing(hash, raw, s1, 1, RELAY, ServedEntry(e0), 1);
    var s3 := WaitsToSettle(hash, raw, s2, 1, i);
    var s4 := CatchesUp(hash, raw, s3);
    var s5 := SettlesAndDrains(hash, raw, s4, 1, i);
    var s6 := Deploys(hash, raw, s5, 1, i);
    DrainedThere(hash, raw, s6, 1);
  }

  lemma DrainedThere(hash: Scope -> Text, raw: RawSettings, s: System, pid: nat)
    requires Reached(hash, raw, s) && pid in s.procs && s.procs[pid].pc.DeployActive? && Obliged(s.procs[pid])
    ensures exists ls :: After(raw, true, ls, hash) == s
    ensures s.procs[pid].drained
  {
    hide After;
    var ls :| After(raw, true, ls, hash) == s;
    RolloutBarrier(hash, raw, true, ls, pid);
  }
}
