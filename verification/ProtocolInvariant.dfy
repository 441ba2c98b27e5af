// The inductive invariant of the rollout protocol: what every step of every
// interleaving keeps.
module ProtocolInvariant {
  import opened Readiness
  import opened ReadinessLaws
  import opened Protocol

  // ------------------------------------------------------------- invariant

  // From the demotion on (or from the delete's hold on) until the worker's own
  // admission, its relay does not serve.
  predicate Quiet(pc: Pc) {
    pc.SettleTarget? || pc.SettleWait? || pc.MarkUnready? || pc.Defer? || pc.DeleteTarget? || pc.DeleteWait?
    || pc.DeleteFail? || pc.Drain? || pc.DeleteDrain? || Clear(pc)
  }

  // The settle barrier has answered.
  predicate Settled(pc: Pc) {
    pc.Drain? || pc.MarkUnready? || pc.DeleteDrain? || Clear(pc)
  }

  // The drain has answered: the window in which the remote may be touched.
  predicate Clear(pc: Pc) {
    pc.DrainDone? || pc.EnterDeploying? || pc.DeployCall? || pc.DeployActive? || pc.DeployFailing?
    || pc.VerifyNew? || pc.JudgeNew? || pc.DeleteCall? || pc.DeleteActive? || pc.DeleteFinish?
  }

  predicate Bound(p: Proc) {
    DeletePc(p.pc) || Obliged(p)
  }

  // A hold is on the entry object the worker captured, at its generation or a
  // later one; a later one cannot serve before the hold ends.
  predicate HoldOk(r: Registry, sequential: bool, p: Proc) {
    Holding(p) ==>
      && p.key in r.entries
      && r.entries[p.key].id == p.id
      && r.entries[p.key].busy
      && p.generation <= r.entries[p.key].record.generation
      && (sequential ==> p.generation == r.entries[p.key].record.generation)
      && (p.generation < r.entries[p.key].record.generation ==> !r.entries[p.key].serving)
  }

  // A worker whose delete purged the entry keeps only its stale closure.
  predicate PurgedOk(r: Registry, p: Proc) {
    p.purged ==>
      && (p.pc.ReleaseHold? || p.pc.Done?)
      && p.id < r.nextId
      && (p.key in r.entries ==> r.entries[p.key].id != p.id)
  }

  // Any generation built from a snapshot at or after the mark leaves p's key out.
  predicate Excluded(s: System, p: Proc) {
    && (s.applier.Built? && s.applier.snap.at >= p.mark ==> p.key !in s.applier.snap.members)
    && (s.serving.snap.at >= p.mark ==> p.key !in s.serving.snap.members)
  }

  predicate QuietOk(s: System, p: Proc) {
    && (Quiet(p.pc) ==>
          && p.key in s.reg.entries && !s.reg.entries[p.key].serving
          && p.mark <= s.reg.notifySeq && Excluded(s, p))
    && (p.pc.SettleWait? || p.pc.DeleteWait? ==> p.mark <= p.target)
    && (Settled(p.pc) && Bound(p) ==> p.mark <= s.serving.snap.at)
    && (Clear(p.pc) && Bound(p) ==> Count(s.inflight, p.key) == 0)
  }

  predicate Tracked(r: Registry, p: Proc) {
    p.key in r.entries && r.entries[p.key].record.generation == p.generation
  }

  // Between reading what it later acts on and acting on it.
  predicate ReadServingStands(pc: Pc) {
    pc.ReadDrain? || ReadDrainStands(pc)
  }

  predicate ReadDrainStands(pc: Pc) {
    pc.EnterDiscovering? || pc.Discover? || pc.NoteMissing? || pc.Probe? || pc.Judge? || pc.TakeMarker? || pc.Revoke?
  }

  // What the worker read about its relay still stands while the incarnation does.
  predicate ReadsOk(r: Registry, p: Proc) {
    Tracked(r, p) ==>
      && (ReadServingStands(p.pc) ==> p.wasReady == r.entries[p.key].serving)
      && (ReadDrainStands(p.pc) ==> p.drainPending == r.entries[p.key].record.drainPending)
      && (DeletePc(p.pc) && Holding(p) ==> r.entries[p.key].record.state == Removing)
  }

  predicate Unrevoked(log: seq<Event>, from: nat, upto: nat, k: Key) {
    forall j | from < j < upto && j < |log| :: log[j].Revocation? ==> k !in log[j].keys
  }

  // A positive verdict on exactly this endpoint, in this incarnation of this
  // entry object, with no revocation of k between it and `upto`.
  predicate ProvedAt(log: seq<Event>, i: nat, upto: nat, k: Key, id: nat, generation: nat, ep: Endpoint) {
    i < upto && i < |log| && log[i] == Verdict(k, id, generation, ep) && Unrevoked(log, i, upto, k)
  }

  ghost predicate Proved(log: seq<Event>, upto: nat, k: Key, id: nat, generation: nat, ep: Endpoint) {
    exists i: nat :: ProvedAt(log, i, upto, k, id, generation, ep)
  }

  // The same of an admission of the entry object `id`.
  ghost predicate AdmissionProved(log: seq<Event>, upto: nat, k: Key, id: nat, a: Admission) {
    a.endpoint.Some? && Proved(log, upto, k, id, a.generation, a.endpoint.value)
  }

  ghost predicate VerdictOk(s: System, p: Proc) {
    (p.pc.Judge? || p.pc.JudgeNew?) && p.outcome.Passed? && Tracked(s.reg, p) ==>
      Proved(s.log, |s.log|, p.key, p.id, p.generation, Endpoint(p.url, p.relayKey))
  }

  // A rollout that started with an obligation has drained, or left the marker.
  predicate OwedOk(r: Registry, p: Proc) {
    && (p.pc.ReleaseHold? && p.began && Obliged(p) && !p.drained && Tracked(r, p) && !p.purged ==>
          r.entries[p.key].record.drainPending)
    && (DeployPc(p.pc) && Obliged(p) ==> p.drained)
    && (EnsurePc(p.pc) || DeletePc(p.pc) ==> !p.began)
  }

  ghost predicate ProcOk(s: System, p: Proc) {
    HoldOk(s.reg, s.sequential, p) && PurgedOk(s.reg, p) && QuietOk(s, p) && ReadsOk(s.reg, p) && VerdictOk(s, p)
    && OwedOk(s.reg, p)
  }

  ghost predicate ProcsOk(s: System) {
    && (forall pid | pid in s.procs :: ProcOk(s, s.procs[pid]))
    && (forall a, b | a in s.procs && b in s.procs && a != b && Holding(s.procs[a]) && Holding(s.procs[b]) ::
          s.procs[a].key != s.procs[b].key)
  }

  function Incarnations(snap: Snapshot): map<Key, Incarnation> {
    map k | k in snap.members :: Incarnation(IdIn(snap, k), snap.members[k].generation)
  }

  // A snapshot is exact as long as nothing was announced since.
  ghost predicate SnapshotOk(s: System, snap: Snapshot) {
    && snap.at <= s.reg.notifySeq
    && (snap.at == s.reg.notifySeq ==> Incarnations(snap) == View(s.reg.entries))
    && snap.logged <= |s.log|
    && (forall k | k in snap.members :: AdmissionProved(s.log, snap.logged, k, IdIn(snap, k), snap.members[k]))
  }

  ghost predicate ApplierOk(s: System) {
    && SnapshotOk(s, s.serving.snap)
    && (forall k | k in s.serving.pool :: k in s.serving.snap.members && s.serving.pool[k] == s.serving.snap.members[k])
    && s.applied <= s.serving.snap.at
    && match s.applier
       case Waiting => true
       case Captured(n) => n <= s.reg.notifySeq
       case Built(n, snap) => SnapshotOk(s, snap) && n <= snap.at && s.serving.snap.at <= snap.at
       case Swapped(n) => n <= s.serving.snap.at
  }

  function Of(attempts: map<nat, Attempt>, k: Key): set<nat> {
    set aid | aid in attempts && attempts[aid].key == k
  }

  ghost predicate CountsOk(s: System) {
    forall k: Key :: Count(s.inflight, k) == |Of(s.attempts, k)|
  }

  // Every request travels under a verified admission.
  ghost predicate AttemptsOk(s: System) {
    forall aid | aid in s.attempts ::
      var a := s.attempts[aid];
      a.logged <= |s.log| && AdmissionProved(s.log, a.logged, a.key, a.id, a.admission)
  }

  // An owed drain excludes serving; a serving entry was verified as it stands.
  ghost predicate EntryRight(s: System, k: Key) {
    k in s.reg.entries ==>
      var e := s.reg.entries[k];
      && (e.record.drainPending ==> !e.serving)
      && (e.serving ==> e.endpoint.Some?
                        && Proved(s.log, |s.log|, k, e.id, e.record.generation, e.endpoint.value))
  }

  ghost predicate EntriesOk(s: System) {
    forall k | k in s.reg.entries :: EntryRight(s, k)
  }

  ghost predicate Inv(hash: Scope -> Text, s: System) {
    RegistryOk(hash, s.reg) && ProcsOk(s) && ApplierOk(s) && CountsOk(s) && AttemptsOk(s) && EntriesOk(s)
  }

  // ------------------------------------------------------------ event log

  lemma ProvedExtends(log: seq<Event>, more: seq<Event>, upto: nat, k: Key, id: nat, g: nat, ep: Endpoint)
    requires upto <= |log| && Proved(log, upto, k, id, g, ep)
    ensures Proved(log + more, upto, k, id, g, ep)
  {
    var i: nat :| ProvedAt(log, i, upto, k, id, g, ep);
    assert ProvedAt(log + more, i, upto, k, id, g, ep);
  }

  predicate Spares(more: seq<Event>, k: Key) {
    forall j | 0 <= j < |more| :: more[j].Revocation? ==> k !in more[j].keys
  }

  lemma ProvedStands(log: seq<Event>, more: seq<Event>, k: Key, id: nat, g: nat, ep: Endpoint)
    requires Proved(log, |log|, k, id, g, ep) && Spares(more, k)
    ensures Proved(log + more, |log + more|, k, id, g, ep)
  {
    var i: nat :| ProvedAt(log, i, |log|, k, id, g, ep);
    forall j | i < j < |log + more|
      ensures (log + more)[j].Revocation? ==> k !in (log + more)[j].keys
    {
      if j >= |log| {
        assert (log + more)[j] == more[j - |log|];
      }
    }
    assert ProvedAt(log + more, i, |log + more|, k, id, g, ep);
  }

  lemma AdmissionExtends(log: seq<Event>, more: seq<Event>, upto: nat, k: Key, id: nat, a: Admission)
    requires upto <= |log| && AdmissionProved(log, upto, k, id, a)
    ensures AdmissionProved(log + more, upto, k, id, a)
  {
    ProvedExtends(log, more, upto, k, id, a.generation, a.endpoint.value);
  }

  lemma SnapshotKeeps(s: System, s': System, more: seq<Event>, snap: Snapshot)
    requires SnapshotOk(s, snap) && Announced(s.reg, s'.reg) && s'.log == s.log + more
    ensures SnapshotOk(s', snap)
  {
    forall k | k in snap.members
      ensures AdmissionProved(s'.log, snap.logged, k, IdIn(snap, k), snap.members[k])
    {
      AdmissionExtends(s.log, more, snap.logged, k, IdIn(snap, k), snap.members[k]);
    }
  }

  lemma AttemptsKeep(s: System, s': System, more: seq<Event>)
    requires AttemptsOk(s) && s'.attempts == s.attempts && s'.log == s.log + more
    ensures AttemptsOk(s')
  {
    forall aid | aid in s'.attempts
      ensures var a := s'.attempts[aid];
              a.logged <= |s'.log| && AdmissionProved(s'.log, a.logged, a.key, a.id, a.admission)
    {
      var a := s.attempts[aid];
      AdmissionExtends(s.log, more, a.logged, a.key, a.id, a.admission);
    }
  }

  // The parts of the invariant a registry step keeps by announcing itself.
  lemma BackgroundKeeps(s: System, s': System, more: seq<Event>)
    requires ApplierOk(s) && AttemptsOk(s) && CountsOk(s)
    requires Announced(s.reg, s'.reg) && s'.log == s.log + more
    requires s'.applier == s.applier && s'.serving == s.serving && s'.applied == s.applied
    requires s'.attempts == s.attempts && s'.inflight == s.inflight
    ensures ApplierOk(s') && AttemptsOk(s') && CountsOk(s')
  {
    SnapshotKeeps(s, s', more, s.serving.snap);
    AttemptsKeep(s, s', more);
    if s.applier.Built? {
      SnapshotKeeps(s, s', more, s.applier.snap);
    }
  }

  // ------------------------------------------------------- other workers

  // Only k's entry differs; an entry that appears there is a new object.
  ghost predicate OnlyAt(r: Registry, r': Registry, k: Key) {
    && r.nextId <= r'.nextId
    && (forall j | j != k :: (j in r.entries) == (j in r'.entries))
    && (forall j | j in r.entries && j in r'.entries && j != k :: r'.entries[j] == r.entries[j])
    && (k in r'.entries ==>
          if k in r.entries then r'.entries[k].id == r.entries[k].id else r'.entries[k].id >= r.nextId)
  }

  lemma BystanderOk(s: System, s': System, more: seq<Event>, q: Proc)
    requires ProcOk(s, q) && Holding(q)
    requires q.key in s.reg.entries && q.key in s'.reg.entries && s'.reg.entries[q.key] == s.reg.entries[q.key]
    requires s.reg.notifySeq <= s'.reg.notifySeq && s'.sequential == s.sequential
    requires s'.applier == s.applier && s'.serving == s.serving && s'.inflight == s.inflight
    requires s'.log == s.log + more && Spares(more, q.key)
    ensures ProcOk(s', q)
  {
    if (q.pc.Judge? || q.pc.JudgeNew?) && q.outcome.Passed? && Tracked(s.reg, q) {
      ProvedStands(s.log, more, q.key, q.id, q.generation, Endpoint(q.url, q.relayKey));
    }
  }

  lemma IdleOk(s: System, s': System, q: Proc)
    requires ProcOk(s, q) && !Holding(q)
    requires PurgedOk(s'.reg, q)
    ensures ProcOk(s', q)
  {
  }

  predicate Alone(s: System, pid: nat)
    requires pid in s.procs
  {
    forall q | q in s.procs && q != pid && Holding(s.procs[q]) :: s.procs[q].key != s.procs[pid].key
  }

  predicate Verdicts(said: seq<Event>) {
    forall j | 0 <= j < |said| :: said[j].Verdict?
  }

  lemma OtherEntryRight(hash: Scope -> Text, s: System, s': System, more: seq<Event>, j: Key)
    requires EntriesOk(s) && j in s.reg.entries && j in s'.reg.entries && s'.reg.entries[j] == s.reg.entries[j]
    requires s'.log == s.log + more && Spares(more, j)
    ensures EntryRight(s', j)
  {
    assert EntryRight(s, j);
    var e := s.reg.entries[j];
    if e.serving {
      ProvedStands(s.log, more, j, e.id, e.record.generation, e.endpoint.value);
    }
  }

  lemma OtherProcOk(s: System, s': System, pid: nat, m: Move, q: nat)
    requires ProcsOk(s) && pid in s.procs && q in s.procs && q != pid
    requires OnlyAt(s.reg, m.reg, s.procs[pid].key) && s.reg.notifySeq <= m.reg.notifySeq
    requires Verdicts(m.said)
    requires m.reg.entries == s.reg.entries || Alone(s, pid)
    requires s' == Committed(s, pid, m)
    ensures ProcOk(s', s.procs[q])
  {
    var p := s.procs[q];
    assert ProcOk(s, p);
    var more := m.said + [Revocation(Lost(s.reg, m.reg))];
    assert s'.log == s.log + more;
    if Holding(p) {
      assert HoldOk(s.reg, s.sequential, p);
      assert p.key !in Lost(s.reg, m.reg);
      assert Spares(more, p.key);
      BystanderOk(s, s', more, p);
    } else {
      IdleOk(s, s', p);
    }
  }

  lemma CommitKeepsProcs(s: System, pid: nat, m: Move)
    requires ProcsOk(s) && pid in s.procs && m.p.key == s.procs[pid].key
    requires OnlyAt(s.reg, m.reg, m.p.key) && s.reg.notifySeq <= m.reg.notifySeq && Verdicts(m.said)
    requires (m.reg.entries == s.reg.entries && (Holding(m.p) ==> Holding(s.procs[pid]))) || Alone(s, pid)
    requires ProcOk(Committed(s, pid, m), m.p)
    ensures ProcsOk(Committed(s, pid, m))
  {
    var s' := Committed(s, pid, m);
    forall q | q in s'.procs
      ensures ProcOk(s', s'.procs[q])
    {
      if q != pid {
        OtherProcOk(s, s', pid, m, q);
      }
    }
  }

  lemma CommitKeepsEntries(hash: Scope -> Text, s: System, pid: nat, m: Move)
    requires EntriesOk(s)
    requires OnlyAt(s.reg, m.reg, m.p.key) && Verdicts(m.said)
    requires EntryRight(Committed(s, pid, m), m.p.key)
    ensures EntriesOk(Committed(s, pid, m))
  {
    var s' := Committed(s, pid, m);
    var more := m.said + [Revocation(Lost(s.reg, m.reg))];
    assert s'.log == s.log + more;
    forall j | j in s'.reg.entries
      ensures EntryRight(s', j)
    {
      if j != m.p.key {
        assert j !in Lost(s.reg, m.reg);
        assert Spares(more, j);
        OtherEntryRight(hash, s, s', more, j);
      }
    }
  }

  // One worker's step keeps the invariant when its own state and its own
  // relay's entry come out right.
  lemma CommitKeeps(hash: Scope -> Text, s: System, pid: nat, m: Move)
    requires Inv(hash, s) && pid in s.procs && m.p.key == s.procs[pid].key
    requires Kept(hash, s.reg, m.reg) && OnlyAt(s.reg, m.reg, m.p.key) && Verdicts(m.said)
    requires (m.reg.entries == s.reg.entries && (Holding(m.p) ==> Holding(s.procs[pid]))) || Alone(s, pid)
    requires ProcOk(Committed(s, pid, m), m.p)
    requires EntryRight(Committed(s, pid, m), m.p.key)
    ensures Inv(hash, Committed(s, pid, m))
  {
    var more := m.said + [Revocation(Lost(s.reg, m.reg))];
    assert s.log + m.said + [Revocation(Lost(s.reg, m.reg))] == s.log + more;
    BackgroundKeeps(s, Committed(s, pid, m), more);
    CommitKeepsProcs(s, pid, m);
    CommitKeepsEntries(hash, s, pid, m);
  }
}
