// Every step of the system keeps the protocol invariant, hence every run does.
module ProtocolRuns {
  import opened Readiness
  import opened ReadinessLaws
  import opened Protocol
  import opened ProtocolInvariant
  import opened ProtocolWorkers
  import opened ProtocolSteps

  // -------------------------------------------- what a reload does to entries

  // One entry across a Sync or a settings change: the object and its hold
  // stand, and a new incarnation starts out of service.
  predicate Advanced(e: Entry, e': Entry) {
    && e'.id == e.id && e'.busy == e.busy
    && e.record.generation <= e'.record.generation
    && (e'.serving ==> e.serving && e'.record.generation == e.record.generation && e'.endpoint == e.endpoint)
    && (e'.record.generation == e.record.generation ==>
          e'.serving == e.serving && e'.record.drainPending == e.record.drainPending
          && e'.record.state == e.record.state)
    && (e'.record.drainPending ==> e.record.drainPending)
  }

  predicate Newcomer(e: Entry, nextId: nat) {
    nextId <= e.id && !e.serving && !e.record.drainPending
  }

  predicate Advance(r: Registry, r': Registry) {
    && r.nextId <= r'.nextId
    && (forall k | k in r.entries :: k in r'.entries && Advanced(r.entries[k], r'.entries[k]))
    && (forall k | k in r'.entries && k !in r.entries :: Newcomer(r'.entries[k], r.nextId))
  }

  lemma AdvanceTransitive(a: Registry, b: Registry, c: Registry)
    requires Advance(a, b) && Advance(b, c)
    ensures Advance(a, c)
  {
    forall k | k in a.entries
      ensures k in c.entries && Advanced(a.entries[k], c.entries[k])
    {
      assert Advanced(a.entries[k], b.entries[k]);
      assert Advanced(b.entries[k], c.entries[k]);
    }
    forall k | k in c.entries && k !in a.entries
      ensures Newcomer(c.entries[k], a.nextId)
    {
      if k in b.entries {
        assert Newcomer(b.entries[k], a.nextId);
        assert Advanced(b.entries[k], c.entries[k]);
      } else {
        assert Newcomer(c.entries[k], b.nextId);
      }
    }
  }

  lemma SyncMemberAdvances(hash: Scope -> Text, r: Registry, m: Member, now: Clock)
    requires RegistryOk(hash, r)
    ensures Advance(r, SyncMember(r, m, hash, now))
  {
    hide RegistryOk;
    RemovingRests(hash, r, m.key);
    if m.key in r.entries {
      SyncedAdvances(r.entries[m.key], m, MemberFP(hash, m), now);
    }
  }

  lemma SyncedAdvances(e: Entry, m: Member, fp: Fingerprint, now: Clock)
    requires e.record.state == Removing ==> !e.serving
    ensures Advanced(e, SyncedEntry(e, m, fp, now))
  {
  }

  lemma {:induction false} SyncMembersAdvance(hash: Scope -> Text, r: Registry, ms: seq<Member>, now: Clock)
    requires RegistryOk(hash, r)
    ensures Advance(r, SyncMembers(r, ms, hash, now))
  {
    hide RegistryOk, Announced, SyncMember;
    if ms == [] {
      SelfAdvance(r);
    } else {
      var mid := SyncMembers(r, ms[..|ms| - 1], hash, now);
      SyncMembersKeep(hash, r, ms[..|ms| - 1], now);
      SyncMembersAdvance(hash, r, ms[..|ms| - 1], now);
      SyncMemberAdvances(hash, mid, ms[|ms| - 1], now);
      AdvanceTransitive(r, mid, SyncMember(mid, ms[|ms| - 1], hash, now));
    }
  }

  lemma SelfAdvance(r: Registry)
    ensures Advance(r, r)
  {
  }

  lemma RemoveAllAdvances(r: Registry, ks: set<Key>, now: Clock)
    ensures Advance(r, RemoveAll(r, ks, now))
  {
  }

  lemma SyncAdvances(hash: Scope -> Text, r: Registry, ms: seq<Member>, now: Clock)
    requires RegistryOk(hash, r)
    ensures Advance(r, AfterSync(r, ms, hash, now))
  {
    hide Advance, RemoveAll, RegistryOk;
    var r1 := SyncMembers(r, ms, hash, now);
    var gone := Readiness.Absent(r1, MemberKeys(ms));
    SyncMembersAdvance(hash, r, ms, now);
    RemoveAllAdvances(r1, gone, now);
    AdvanceTransitive(r, r1, RemoveAll(r1, gone, now));
  }

  lemma SettingsAdvance(r: Registry, raw: RawSettings)
    ensures var r' := AfterUpdateSettings(r, raw);
            Advance(r, r') && forall k | k in r.entries ::
              k in r'.entries && r'.entries[k].record.generation == r.entries[k].record.generation
  {
  }

  // ------------------------------------------------- registry-wide steps

  lemma AdvanceProcOk(s: System, r': Registry, p: Proc)
    requires ProcOk(s, p) && Advance(s.reg, r') && s.reg.notifySeq <= r'.notifySeq
    requires s.sequential && Holding(p) ==>
               p.key in s.reg.entries && p.key in r'.entries
               && r'.entries[p.key].record.generation == s.reg.entries[p.key].record.generation
    ensures ProcOk(Recorded(s, r', []), p)
  {
    var s' := Recorded(s, r', []);
    if Holding(p) {
      assert Advanced(s.reg.entries[p.key], r'.entries[p.key]);
      AdvanceVerdict(s, r', p);
    } else if p.purged && p.key in r'.entries && p.key !in s.reg.entries {
      assert Newcomer(r'.entries[p.key], s.reg.nextId);
    }
  }

  lemma AdvanceVerdict(s: System, r': Registry, p: Proc)
    requires VerdictOk(s, p) && p.key in s.reg.entries && p.key in r'.entries
    requires Advanced(s.reg.entries[p.key], r'.entries[p.key])
    requires p.generation <= s.reg.entries[p.key].record.generation
    ensures VerdictOk(Recorded(s, r', []), p)
  {
    var s' := Recorded(s, r', []);
    var more := [Revocation(Lost(s.reg, r'))];
    assert s'.log == s.log + more;
    if (p.pc.Judge? || p.pc.JudgeNew?) && p.outcome.Passed? && Tracked(r', p) {
      assert Tracked(s.reg, p);
      assert Spares(more, p.key);
      ProvedStands(s.log, more, p.key, p.id, p.generation, Endpoint(p.url, p.relayKey));
    }
  }

  lemma AdvanceEntryRight(s: System, r': Registry, k: Key)
    requires EntriesOk(s) && Advance(s.reg, r') && k in r'.entries
    ensures EntryRight(Recorded(s, r', []), k)
  {
    var s' := Recorded(s, r', []);
    var more := [Revocation(Lost(s.reg, r'))];
    assert s'.log == s.log + more;
    if k in s.reg.entries {
      assert EntryRight(s, k);
      var e := s.reg.entries[k];
      assert Advanced(e, r'.entries[k]);
      if r'.entries[k].serving {
        assert Spares(more, k);
        ProvedStands(s.log, more, k, e.id, e.record.generation, e.endpoint.value);
      }
    } else {
      assert Newcomer(r'.entries[k], s.reg.nextId);
    }
  }

  // Generations only move while no worker holds, when passes are sequential.
  ghost predicate Disciplined(s: System, r': Registry) {
    forall pid | pid in s.procs ::
      var p := s.procs[pid];
      s.sequential && Holding(p) ==>
        p.key in s.reg.entries && p.key in r'.entries
        && r'.entries[p.key].record.generation == s.reg.entries[p.key].record.generation
  }

  lemma AdvanceProcsOk(s: System, r': Registry)
    requires ProcsOk(s) && Advance(s.reg, r') && s.reg.notifySeq <= r'.notifySeq && Disciplined(s, r')
    ensures ProcsOk(Recorded(s, r', []))
  {
    hide Advance, ProcOk, Holding;
    var s' := Recorded(s, r', []);
    forall pid | pid in s'.procs
      ensures ProcOk(s', s'.procs[pid])
    {
      AdvanceProcOk(s, r', s.procs[pid]);
    }
  }

  lemma AdvanceKeeps(hash: Scope -> Text, s: System, r': Registry)
    requires Inv(hash, s) && Kept(hash, s.reg, r') && Advance(s.reg, r') && Disciplined(s, r')
    ensures Inv(hash, Recorded(s, r', []))
  {
    hide ProcOk, Advance, ProcsOk, EntryRight, Disciplined;
    var s' := Recorded(s, r', []);
    var more := [Revocation(Lost(s.reg, r'))];
    assert s'.log == s.log + more;
    BackgroundKeeps(s, s', more);
    AdvanceProcsOk(s, r');
    forall k | k in r'.entries
      ensures EntryRight(s', k)
    {
      AdvanceEntryRight(s, r', k);
    }
  }

  lemma SyncStepKeeps(hash: Scope -> Text, s: System, ms: seq<Member>, now: Clock)
    requires Inv(hash, s) && (s.sequential ==> Idle(s))
    ensures Inv(hash, Recorded(s, AfterSync(s.reg, ms, hash, now), []))
  {
    hide ProcOk, ProcsOk, EntriesOk, RegistryOk, Announced, AfterSync, Advance, Holding, ApplierOk, AttemptsOk, CountsOk;
    var r' := AfterSync(s.reg, ms, hash, now);
    SyncKeeps(hash, s.reg, ms, now);
    SyncAdvances(hash, s.reg, ms, now);
    assert Disciplined(s, r');
    AdvanceKeeps(hash, s, r');
  }

  lemma HoldersPresent(hash: Scope -> Text, s: System, r': Registry)
    requires Inv(hash, s)
    requires forall k | k in s.reg.entries ::
               k in r'.entries && r'.entries[k].record.generation == s.reg.entries[k].record.generation
    ensures Disciplined(s, r')
  {
    forall pid | pid in s.procs
      ensures Holding(s.procs[pid]) ==> s.procs[pid].key in s.reg.entries
    {
      assert ProcOk(s, s.procs[pid]);
    }
  }

  lemma ConfigureKeeps(hash: Scope -> Text, s: System, raw: RawSettings)
    requires Inv(hash, s)
    ensures Inv(hash, Recorded(s, AfterUpdateSettings(s.reg, raw), []))
  {
    hide ProcOk, ProcsOk, EntriesOk, Announced, AfterUpdateSettings, Advance, Disciplined, ApplierOk, AttemptsOk,
      CountsOk, RegistryOk;
    UpdateSettingsKeeps(hash, s.reg, raw);
    SettingsAdvance(s.reg, raw);
    HoldersPresent(hash, s, AfterUpdateSettings(s.reg, raw));
    AdvanceKeeps(hash, s, AfterUpdateSettings(s.reg, raw));
  }

  // --------------------------------------- steps that leave the registry alone

  predicate SameRegistry(s: System, s': System) {
    s'.reg == s.reg && s'.procs == s.procs && s'.log == s.log && s'.sequential == s.sequential
  }

  lemma QuietProcOk(s: System, s': System, p: Proc)
    requires ProcOk(s, p) && SameRegistry(s, s') && QuietOk(s', p)
    ensures ProcOk(s', p)
  {
  }

  lemma QuietPart(hash: Scope -> Text, s: System, pid: nat)
    requires Inv(hash, s) && pid in s.procs
    ensures QuietOk(s, s.procs[pid])
  {
    assert ProcOk(s, s.procs[pid]);
  }

  lemma SameRegistryKeeps(hash: Scope -> Text, s: System, s': System)
    requires Inv(hash, s) && SameRegistry(s, s')
    requires forall pid | pid in s.procs :: QuietOk(s', s.procs[pid])
    requires ApplierOk(s') && CountsOk(s') && AttemptsOk(s')
    ensures Inv(hash, s')
  {
    hide ProcOk, QuietOk, RegistryOk, ApplierOk, CountsOk, AttemptsOk, Holding;
    forall pid | pid in s'.procs
      ensures ProcOk(s', s'.procs[pid])
    {
      QuietProcOk(s, s', s.procs[pid]);
    }
    forall k | k in s'.reg.entries
      ensures EntryRight(s', k)
    {
      assert EntryRight(s, k);
    }
  }

  // The snapshot taken now is exact, and everything in it was verified.
  lemma SnapshotNow(hash: Scope -> Text, s: System)
    requires Inv(hash, s)
    ensures SnapshotOk(s, SnapshotOf(s))
  {
    var members := Serving(s.reg);
    assert Incarnations(SnapshotOf(s)) == View(s.reg.entries);
    forall k | k in members
      ensures AdmissionProved(s.log, |s.log|, k, IdIn(SnapshotOf(s), k), members[k])
    {
      assert EntryRight(s, k);
      assert Proved(s.log, |s.log|, k, s.reg.entries[k].id, members[k].generation, members[k].endpoint.value);
    }
  }

  lemma CaptureKeeps(hash: Scope -> Text, s: System, n: nat)
    requires Inv(hash, s) && n <= s.reg.notifySeq
    ensures Inv(hash, s.(applier := Captured(n)))
  {
    hide ProcOk, ProcsOk, RegistryOk, SnapshotOk, AdmissionProved, EntryRight, QuietOk;
    var s' := s.(applier := Captured(n));
    forall pid | pid in s.procs
      ensures QuietOk(s', s.procs[pid])
    {
      QuietPart(hash, s, pid);
      QuietLoses(s, s', s.procs[pid]);
    }
    SameSnapshot(s, s', s.serving.snap);
    SameRegistryKeeps(hash, s, s');
  }

  // An applier with nothing built excludes nobody.
  lemma QuietLoses(s: System, s': System, p: Proc)
    requires QuietOk(s, p) && SameRegistry(s, s') && s'.serving == s.serving && s'.inflight == s.inflight
    requires !s'.applier.Built?
    ensures QuietOk(s', p)
  {
  }

  lemma SameSnapshot(s: System, s': System, snap: Snapshot)
    requires SnapshotOk(s, snap) && SameRegistry(s, s')
    ensures SnapshotOk(s', snap)
  {
  }

  lemma BuildKeeps(hash: Scope -> Text, s: System, s': System, snap: Snapshot)
    requires Inv(hash, s) && s.applier.Captured? && snap == SnapshotOf(s)
    requires s' == s.(applier := Built(s.applier.counted, snap))
    ensures Inv(hash, s')
  {
    hide ProcOk, ProcsOk, RegistryOk, SnapshotOk, AdmissionProved, EntryRight, QuietOk;
    forall pid | pid in s.procs
      ensures QuietOk(s', s.procs[pid])
    {
      QuietPart(hash, s, pid);
      QuietBuilds(s, s', s.procs[pid]);
    }
    SnapshotNow(hash, s);
    SnapshotAt(s, s.serving.snap);
    SameSnapshot(s, s', snap);
    SameSnapshot(s, s', s.serving.snap);
    SameRegistryKeeps(hash, s, s');
  }

  lemma SnapshotAt(s: System, snap: Snapshot)
    requires SnapshotOk(s, snap)
    ensures snap.at <= s.reg.notifySeq
  {
  }

  // A quiet relay is not in a snapshot taken now.
  lemma QuietBuilds(s: System, s': System, p: Proc)
    requires QuietOk(s, p) && SameRegistry(s, s') && s'.serving == s.serving && s'.inflight == s.inflight
    requires s'.applier.Built? && s'.applier.snap.members == Serving(s.reg)
    ensures QuietOk(s', p)
  {
  }

  lemma SwapKeeps(hash: Scope -> Text, s: System, malformed: set<Text>)
    requires Inv(hash, s) && s.applier.Built?
    ensures Inv(hash, s.(serving := Generation(s.applier.snap, PoolOf(s.applier.snap.members, malformed)),
                         applier := Swapped(s.applier.counted)))
  {
    hide ProcOk, ProcsOk, RegistryOk, SnapshotOk, AdmissionProved, EntryRight, QuietOk;
    var s' := s.(serving := Generation(s.applier.snap, PoolOf(s.applier.snap.members, malformed)),
                 applier := Swapped(s.applier.counted));
    forall pid | pid in s.procs
      ensures QuietOk(s', s.procs[pid])
    {
      QuietPart(hash, s, pid);
      QuietSwaps(s, s', s.procs[pid]);
    }
    SameSnapshot(s, s', s.applier.snap);
    SameRegistryKeeps(hash, s, s');
  }

  lemma QuietSwaps(s: System, s': System, p: Proc)
    requires QuietOk(s, p) && SameRegistry(s, s') && s'.inflight == s.inflight
    requires s.applier.Built? && s'.applier.Swapped? && s'.serving.snap == s.applier.snap
    requires s.serving.snap.at <= s.applier.snap.at
    ensures QuietOk(s', p)
  {
  }

  lemma PublishKeeps(hash: Scope -> Text, s: System, applied: nat)
    requires Inv(hash, s) && applied <= s.serving.snap.at
    ensures Inv(hash, s.(applied := applied, applier := Waiting))
  {
    hide ProcOk, ProcsOk, RegistryOk, SnapshotOk, AdmissionProved, EntryRight, QuietOk;
    var s' := s.(applied := applied, applier := Waiting);
    forall pid | pid in s.procs
      ensures QuietOk(s', s.procs[pid])
    {
      QuietPart(hash, s, pid);
      QuietLoses(s, s', s.procs[pid]);
    }
    SameSnapshot(s, s', s.serving.snap);
    SameRegistryKeeps(hash, s, s');
  }

  lemma ShutdownKeeps(hash: Scope -> Text, s: System)
    requires Inv(hash, s)
    ensures Inv(hash, s.(shutting := true))
  {
    hide ProcOk, ProcsOk, RegistryOk, SnapshotOk, AdmissionProved, EntryRight, QuietOk;
    var s' := s.(shutting := true);
    forall pid | pid in s.procs
      ensures QuietOk(s', s.procs[pid])
    {
      QuietPart(hash, s, pid);
      QuietShuts(s, s', s.procs[pid]);
    }
    SameSnapshot(s, s', s.serving.snap);
    if s.applier.Built? {
      SameSnapshot(s, s', s.applier.snap);
    }
    SameRegistryKeeps(hash, s, s');
  }

  lemma QuietShuts(s: System, s': System, p: Proc)
    requires QuietOk(s, p) && SameRegistry(s, s') && s'.serving == s.serving && s'.applier == s.applier
    requires Clear(p.pc) && Bound(p) ==> Count(s'.inflight, p.key) == 0
    ensures QuietOk(s', p)
  {
  }

  // ------------------------------------------------------------- attempts

  lemma OfBegun(attempts: map<nat, Attempt>, aid: nat, a: Attempt, k: Key)
    requires aid !in attempts
    ensures |Of(attempts[aid := a], k)| == |Of(attempts, k)| + if k == a.key then 1 else 0
  {
    var before, after := Of(attempts, k), Of(attempts[aid := a], k);
    AddRemoveSize(before, aid);
    if k == a.key {
      assert after == before + {aid};
    } else {
      assert after == before;
    }
  }

  lemma OfEnded(attempts: map<nat, Attempt>, aid: nat, k: Key)
    requires aid in attempts
    ensures |Of(attempts - {aid}, k)| == |Of(attempts, k)| - if k == attempts[aid].key then 1 else 0
  {
    var before, after := Of(attempts, k), Of(attempts - {aid}, k);
    AddRemoveSize(before, aid);
    if k == attempts[aid].key {
      assert after == before - {aid};
    } else {
      assert after == before;
    }
  }

  lemma CountsAfterBegin(s: System, aid: nat, a: Attempt)
    requires CountsOk(s) && aid !in s.attempts
    ensures CountsOk(s.(attempts := s.attempts[aid := a], inflight := Begun(s.inflight, a.key)))
  {
    hide Of;
    var attempts := s.attempts[aid := a];
    forall k: Key
      ensures Count(Begun(s.inflight, a.key), k) == |Of(attempts, k)|
    {
      assert Count(s.inflight, k) == |Of(s.attempts, k)|;
      OfBegun(s.attempts, aid, a, k);
    }
  }

  lemma CountsAfterEnd(s: System, aid: nat)
    requires CountsOk(s) && aid in s.attempts
    ensures CountsOk(s.(attempts := s.attempts - {aid}, inflight := Ended(s.inflight, s.attempts[aid].key)))
  {
    hide Of;
    var attempts, key := s.attempts - {aid}, s.attempts[aid].key;
    forall k: Key
      ensures Count(Ended(s.inflight, key), k) == |Of(attempts, k)|
    {
      assert Count(s.inflight, k) == |Of(s.attempts, k)|;
      OfEnded(s.attempts, aid, k);
    }
  }

  // A request can only begin on a relay no barrier has cleared.
  lemma ClearedOutOfPool(s: System, p: Proc)
    requires QuietOk(s, p) && ApplierOk(s) && Clear(p.pc) && Bound(p)
    ensures p.key !in s.serving.pool
  {
  }

  lemma BeginAttemptKeeps(hash: Scope -> Text, s: System, aid: nat, k: Key)
    requires Inv(hash, s) && aid !in s.attempts && k in s.serving.pool
    ensures Inv(hash, s.(attempts := s.attempts[aid := AttemptOn(s.serving, k)],
                         inflight := Begun(s.inflight, k)))
  {
    hide ProcOk, ProcsOk, RegistryOk, AdmissionProved, EntryRight, QuietOk, CountsOk;
    var s' := s.(attempts := s.attempts[aid := AttemptOn(s.serving, k)], inflight := Begun(s.inflight, k));
    forall pid | pid in s.procs
      ensures QuietOk(s', s.procs[pid])
    {
      var p := s.procs[pid];
      QuietPart(hash, s, pid);
      QuietFacts(s, p);
      if Clear(p.pc) && Bound(p) {
        ClearedOutOfPool(s, p);
      }
      QuietShuts(s, s', p);
    }
    CountsAfterBegin(s, aid, AttemptOn(s.serving, k));
    BegunProved(s, s', aid, k);
    SameRegistryKeeps(hash, s, s');
  }

  lemma BegunProved(s: System, s': System, aid: nat, k: Key)
    requires ApplierOk(s) && AttemptsOk(s) && k in s.serving.pool && s'.log == s.log
    requires s'.attempts == s.attempts[aid := AttemptOn(s.serving, k)]
    ensures AttemptsOk(s')
  {
    var n := s.serving.snap.logged;
    assert AdmissionProved(s.log, n, k, IdIn(s.serving.snap, k), s.serving.pool[k]);
  }

  lemma EndAttemptKeeps(hash: Scope -> Text, s: System, aid: nat)
    requires Inv(hash, s) && aid in s.attempts
    ensures Inv(hash, s.(attempts := s.attempts - {aid}, inflight := Ended(s.inflight, s.attempts[aid].key)))
  {
    hide ProcOk, ProcsOk, RegistryOk, AdmissionProved, EntryRight, QuietOk, CountsOk;
    var s' := s.(attempts := s.attempts - {aid}, inflight := Ended(s.inflight, s.attempts[aid].key));
    forall pid | pid in s.procs
      ensures QuietOk(s', s.procs[pid])
    {
      QuietPart(hash, s, pid);
      QuietFacts(s, s.procs[pid]);
      QuietShuts(s, s', s.procs[pid]);
    }
    CountsAfterEnd(s, aid);
    SameRegistryKeeps(hash, s, s');
  }

  // ---------------------------------------------------------- new workers

  lemma SpawnKeepsProcs(s: System, pid: nat, p: Proc)
    requires ProcsOk(s) && !Holding(p) && !p.purged && !p.began
    ensures ProcsOk(Spawned(s, pid, p))
  {
    hide ProcOk, Holding;
    var s' := Spawned(s, pid, p);
    OutsideOk(s', p);
    forall q | q in s'.procs
      ensures ProcOk(s', s'.procs[q])
    {
      if s'.procs[q] != p {
        SpawnedOthers(s, s', s.procs[q]);
      }
    }
  }

  lemma SpawnKeeps(hash: Scope -> Text, s: System, pid: nat, p: Proc)
    requires Inv(hash, s) && !Holding(p) && !p.purged && !p.began
    ensures Inv(hash, Spawned(s, pid, p))
  {
    hide ProcOk, ProcsOk, RegistryOk, AdmissionProved, EntryRight, SnapshotOk, Holding;
    var s' := Spawned(s, pid, p);
    SpawnKeepsProcs(s, pid, p);
    SpawnedSnapshot(s, s', s.serving.snap);
    if s.applier.Built? {
      SpawnedSnapshot(s, s', s.applier.snap);
    }
    assert CountsOk(s') by {
      forall k: Key
        ensures Count(s'.inflight, k) == |Of(s'.attempts, k)|
      {
        assert Count(s.inflight, k) == |Of(s.attempts, k)|;
      }
    }
    forall k | k in s'.reg.entries
      ensures EntryRight(s', k)
    {
      SpawnedEntry(s, s', k);
    }
  }

  lemma SpawnedSnapshot(s: System, s': System, snap: Snapshot)
    requires SnapshotOk(s, snap) && SameButProcs(s, s')
    ensures SnapshotOk(s', snap)
  {
  }

  predicate SameButProcs(s: System, s': System) {
    s' == s.(procs := s'.procs)
  }

  lemma SpawnedOthers(s: System, s': System, q: Proc)
    requires ProcOk(s, q) && SameButProcs(s, s')
    ensures ProcOk(s', q)
  {
  }

  lemma SpawnedEntry(s: System, s': System, k: Key)
    requires EntriesOk(s) && SameButProcs(s, s') && k in s.reg.entries
    ensures EntryRight(s', k)
  {
    assert EntryRight(s, k);
  }

  // ------------------------------------------------------------- any step

  lemma StartOk(hash: Scope -> Text, raw: RawSettings, sequential: bool)
    ensures Inv(hash, Start(raw, sequential))
  {
    var s := Start(raw, sequential);
    assert View(s.reg.entries) == map[] == Incarnations(s.serving.snap);
    assert ServingKeys(s.reg.entries) == {};
    assert forall k: Key :: Of(s.attempts, k) == {};
  }

  lemma StepKeeps(hash: Scope -> Text, s: System, l: Label)
    requires Inv(hash, s)
    ensures Inv(hash, Step(s, l, hash))
  {
    hide Inv, WorkerMove, Committed, Recorded, AfterSync, AfterUpdateSettings, Spawned, PoolOf, Begun, Ended, Serving,
      Idle, RegistryOk;
    match l
    case Sync(ms, now) =>
      if !s.sequential || Idle(s) {
        SyncStepKeeps(hash, s, ms, now);
      }
    case SpawnEnsure(pid, k, relayKey) => SpawnKeeps(hash, s, pid, Fresh(k, relayKey, CheckGate));
    case SpawnDelete(pid, k) => SpawnKeeps(hash, s, pid, Fresh(k, "", DeleteGate));
    case Work(pid, i) =>
      if pid in s.procs {
        WorkKeeps(hash, s, pid, i);
      }
    case Capture(n) =>
      if s.applier.Waiting? && n <= s.reg.notifySeq {
        CaptureKeeps(hash, s, n);
      }
    case Configure(raw) =>
      if s.applier.Captured? {
        ConfigureKeeps(hash, s, raw);
      }
    case Build =>
      if s.applier.Captured? {
        var snap := SnapshotOf(s);
        BuildKeeps(hash, s, s.(applier := Built(s.applier.counted, snap)), snap);
      }
    case Swap(malformed) =>
      if s.applier.Built? {
        SwapKeeps(hash, s, malformed);
      }
    case Publish =>
      if s.applier.Swapped? {
        ApplierBounds(hash, s);
        PublishKeeps(hash, s, if s.applier.counted > s.applied then s.applier.counted else s.applied);
      }
    case BeginAttempt(aid, k) =>
      if aid !in s.attempts && k in s.serving.pool {
        BeginAttemptKeeps(hash, s, aid, k);
      }
    case EndAttempt(aid) =>
      if aid in s.attempts {
        EndAttemptKeeps(hash, s, aid);
      }
    case Shutdown => ShutdownKeeps(hash, s);
  }

  lemma ApplierBounds(hash: Scope -> Text, s: System)
    requires Inv(hash, s)
    ensures s.applied <= s.serving.snap.at <= s.reg.notifySeq
    ensures s.applier.Swapped? ==> s.applier.counted <= s.serving.snap.at
  {
  }

  // The protocol invariant, over every run of every interleaving.
  lemma {:induction false} RunKeeps(hash: Scope -> Text, raw: RawSettings, sequential: bool, ls: seq<Label>)
    ensures Inv(hash, Protocol.Run(Start(raw, sequential), ls, hash))
  {
    hide Inv, Step, Start;
    if ls == [] {
      StartOk(hash, raw, sequential);
    } else {
      RunKeeps(hash, raw, sequential, ls[..|ls| - 1]);
      StepKeeps(hash, Protocol.Run(Start(raw, sequential), ls[..|ls| - 1], hash), ls[|ls| - 1]);
    }
  }
}
