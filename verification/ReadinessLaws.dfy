// What every registry operation keeps, whatever the order of operations.
module ReadinessLaws {
  import opened Backoff
  import opened Readiness

  // ------------------------------------------------------------ operations

  datatype Op =
    | Sync(members: seq<Member>, now: Clock)
    | UpdateSettings(settings: RawSettings)
    | TakeScopeChanged(key: Key, generation: nat)
    | Begin(key: Key, now: Clock)
    | BeginDelete(key: Key)
    | Release(hold: Hold)
    | Enter(key: Key, generation: nat, state: State, reason: Reason, now: Clock)
    | Admit(key: Key, generation: nat, endpoint: Endpoint, duration: int, now: Clock)
    | Failing(key: Key, generation: nat, reason: Reason, duration: int, now: Clock)
    | Demote(key: Key, generation: nat, reason: Reason, now: Clock)
    | Pause(key: Key, generation: nat, reason: Reason, now: Clock)
    | DeferDrain(key: Key, generation: nat)
    | DrainCompleted(key: Key, generation: nat)
    | DeleteDone(key: Key, generation: nat)
    | DeleteFailed(key: Key, generation: nat, reason: Reason, now: Clock)

  function Apply(r: Registry, op: Op, hash: Scope -> Text): Registry {
    match op
    case Sync(ms, now) => AfterSync(r, ms, hash, now)
    case UpdateSettings(s) => AfterUpdateSettings(r, s)
    case TakeScopeChanged(k, g) => AfterTakeScopeChanged(r, k, g).0
    case Begin(k, now) => AfterBegin(r, k, now).0
    case BeginDelete(k) => AfterBeginDelete(r, k).0
    case Release(h) => AfterRelease(r, h)
    case Enter(k, g, s, reason, now) => AfterEnter(r, k, g, s, reason, now)
    case Admit(k, g, endpoint, d, now) => AfterReady(r, k, g, endpoint, d, now)
    case Failing(k, g, reason, d, now) => AfterFailing(r, k, g, reason, d, now)
    case Demote(k, g, reason, now) => AfterDemote(r, k, g, reason, now)
    case Pause(k, g, reason, now) => AfterPause(r, k, g, reason, now)
    case DeferDrain(k, g) => AfterDeferDrain(r, k, g)
    case DrainCompleted(k, g) => AfterDrainCompleted(r, k, g)
    case DeleteDone(k, g) => AfterDeleteDone(r, k, g)
    case DeleteFailed(k, g, reason, now) => AfterDeleteFailed(r, k, g, reason, now)
  }

  // Callers enter only working phases; ready, paused and removing are reached
  // through Ready, Pause and Sync alone.
  predicate Legal(op: Op) {
    op.Enter? ==> EnterPhase(op.state)
  }

  predicate EnterPhase(s: State) {
    s != State.Ready && s != Paused && s != Removing
  }

  function Run(r: Registry, ops: seq<Op>, hash: Scope -> Text): Registry {
    if ops == [] then r else Apply(Run(r, ops[..|ops| - 1], hash), ops[|ops| - 1], hash)
  }

  // ------------------------------------------------------------- invariant

  predicate EntryOk(cfg: Settings, hash: Scope -> Text, k: Key, e: Entry) {
    && e.record.key == k
    && 1 <= e.record.generation
    && (e.serving ==> e.endpoint.Some?)
    && (e.record.state == State.Ready ==> e.serving)
    && (e.record.state == Removing ==> !e.serving)
    && (e.record.state == Paused ==>
          !e.serving && ZERO_TIME < e.record.lastAttempt
          && e.nextTry == e.record.lastAttempt + cfg.pauseRetry)
    && (e.scopeChanged ==> !e.serving)
    && e.scopeFP == (if e.scopeKnown then ScopeFP(hash, e.scope) else None)
  }

  predicate IdsOk(entries: map<Key, Entry>, nextId: nat) {
    && (forall k | k in entries :: entries[k].id < nextId)
    && (forall k, j | k in entries && j in entries && k != j :: entries[k].id != entries[j].id)
  }

  predicate RegistryOk(hash: Scope -> Text, r: Registry) {
    && (forall k | k in r.entries :: EntryOk(r.cfg, hash, k, r.entries[k]))
    && r.readyCount == |ServingKeys(r.entries)|
    && IdsOk(r.entries, r.nextId)
  }

  lemma AddRemoveSize<T>(s: set<T>, x: T)
    ensures |s + {x}| == |s| + (if x in s then 0 else 1)
    ensures |s - {x}| == |s| - (if x in s then 1 else 0)
  {
    if x in s {
      assert s + {x} == s;
    } else {
      assert s - {x} == s;
    }
  }

  lemma ServingKeysUpdate(entries: map<Key, Entry>, k: Key, e: Entry)
    ensures |ServingKeys(entries[k := e])|
         == |ServingKeys(entries)| + Bit(e.serving) - Bit(k in entries && entries[k].serving)
  {
    var before, after := ServingKeys(entries), ServingKeys(entries[k := e]);
    AddRemoveSize(before, k);
    if e.serving {
      assert after == before + {k};
    } else {
      assert after == before - {k};
    }
  }

  // An entry may be replaced silently only if its admission stands.
  predicate QuietChange(e: Entry, e': Entry) {
    e'.serving == e.serving && (e.serving ==> IncarnationOf(e') == IncarnationOf(e))
  }

  lemma ViewUpdate(entries: map<Key, Entry>, k: Key, e: Entry)
    requires if k in entries then QuietChange(entries[k], e) else !e.serving
    ensures View(entries[k := e]) == View(entries)
  {
    assert View(entries[k := e]).Keys == View(entries).Keys;
  }

  lemma InstallOk(hash: Scope -> Text, r: Registry, k: Key, e: Entry, notify: bool)
    requires RegistryOk(hash, r)
    requires k in r.entries && EntryOk(r.cfg, hash, k, e) && e.id == r.entries[k].id
    ensures RegistryOk(hash, Install(r, k, e, notify))
  {
    ServingKeysUpdate(r.entries, k, e);
  }

  lemma InstallKeeps(hash: Scope -> Text, r: Registry, k: Key, e: Entry, notify: bool)
    requires RegistryOk(hash, r)
    requires k in r.entries && EntryOk(r.cfg, hash, k, e) && e.id == r.entries[k].id
    requires notify || QuietChange(r.entries[k], e)
    ensures RegistryOk(hash, Install(r, k, e, notify))
    ensures Announced(r, Install(r, k, e, notify))
  {
    InstallOk(hash, r, k, e, notify);
    if !notify {
      ViewUpdate(r.entries, k, e);
    }
  }

  lemma AddKeeps(hash: Scope -> Text, r: Registry, k: Key, e: Entry, n: nat)
    requires RegistryOk(hash, r)
    requires k !in r.entries && EntryOk(r.cfg, hash, k, e) && e.id == r.nextId && !e.serving
    requires r.notifySeq <= n
    ensures var r' := r.(entries := r.entries[k := e], notifySeq := n, nextId := r.nextId + 1);
            RegistryOk(hash, r') && Announced(r, r')
  {
    ServingKeysUpdate(r.entries, k, e);
    ViewUpdate(r.entries, k, e);
  }

  // The notification count never falls, and stands still only while the
  // serving keys and their incarnations do.
  predicate Announced(r: Registry, r': Registry) {
    && r.notifySeq <= r'.notifySeq
    && (r'.notifySeq == r.notifySeq ==> View(r'.entries) == View(r.entries))
  }

  predicate Kept(hash: Scope -> Text, r: Registry, r': Registry) {
    RegistryOk(hash, r') && Announced(r, r')
  }

  lemma SyncMemberKeeps(hash: Scope -> Text, r: Registry, m: Member, now: Clock)
    requires RegistryOk(hash, r)
    ensures Kept(hash, r, SyncMember(r, m, hash, now))
  {
    var fp := MemberFP(hash, m);
    if m.key !in r.entries {
      AddKeeps(hash, r, m.key, FreshEntry(r.nextId, m.key, now)
                                 .(scope := m.scope, scopeKnown := m.scopeKnown, scopeFP := fp), r.notifySeq + 1);
    } else {
      var e := r.entries[m.key];
      assert EntryOk(r.cfg, hash, m.key, e);
      InstallKeeps(hash, r, m.key, SyncedEntry(e, m, fp, now), e.record.state == Removing || ScopeFlips(e, m));
    }
  }

  lemma {:induction false} SyncMembersKeep(hash: Scope -> Text, r: Registry, ms: seq<Member>, now: Clock)
    requires RegistryOk(hash, r)
    ensures Kept(hash, r, SyncMembers(r, ms, hash, now))
  {
    if ms != [] {
      SyncMembersKeep(hash, r, ms[..|ms| - 1], now);
      SyncMemberKeeps(hash, SyncMembers(r, ms[..|ms| - 1], hash, now), ms[|ms| - 1], now);
    }
  }

  lemma DifferenceSize<T>(a: set<T>, b: set<T>)
    requires b <= a
    ensures |a - b| == |a| - |b|
  {
    assert a == (a - b) + b;
  }

  lemma RemoveAllCount(hash: Scope -> Text, r: Registry, ks: set<Key>, now: Clock)
    requires RegistryOk(hash, r)
    ensures RemoveAll(r, ks, now).readyCount == |ServingKeys(RemoveAll(r, ks, now).entries)|
  {
    var lost := LeavingServing(r, ks);
    assert lost <= ServingKeys(r.entries);
    assert ServingKeys(RemoveAll(r, ks, now).entries) == ServingKeys(r.entries) - lost by {
      forall k | k in r.entries
        ensures k in ServingKeys(RemoveAll(r, ks, now).entries) <==> k in ServingKeys(r.entries) - lost
      {
        assert EntryOk(r.cfg, hash, k, r.entries[k]);
      }
    }
    DifferenceSize(ServingKeys(r.entries), lost);
  }

  lemma RemovedOk(hash: Scope -> Text, cfg: Settings, k: Key, e: Entry, now: Clock)
    requires EntryOk(cfg, hash, k, e)
    ensures EntryOk(cfg, hash, k, RemovedEntry(e, now)) && RemovedEntry(e, now).id == e.id
  {
  }

  lemma RemoveAllOk(hash: Scope -> Text, r: Registry, ks: set<Key>, now: Clock)
    requires RegistryOk(hash, r)
    ensures RegistryOk(hash, RemoveAll(r, ks, now))
  {
    RemoveAllCount(hash, r, ks, now);
    forall k | k in r.entries
      ensures EntryOk(r.cfg, hash, k, RemovedEntry(r.entries[k], now))
      ensures RemovedEntry(r.entries[k], now).id == r.entries[k].id
    {
      RemovedOk(hash, r.cfg, k, r.entries[k], now);
    }
  }

  lemma RemoveAllKeeps(hash: Scope -> Text, r: Registry, ks: set<Key>, now: Clock)
    requires RegistryOk(hash, r)
    ensures Kept(hash, r, RemoveAll(r, ks, now))
  {
    RemoveAllOk(hash, r, ks, now);
    if |Leaving(r, ks)| == 0 {
      assert Leaving(r, ks) == {};
      assert forall k | k in r.entries && k in ks :: k !in Leaving(r, ks);
      assert RemoveAll(r, ks, now).entries == r.entries;
    }
  }

  lemma SyncKeeps(hash: Scope -> Text, r: Registry, ms: seq<Member>, now: Clock)
    requires RegistryOk(hash, r)
    ensures Kept(hash, r, AfterSync(r, ms, hash, now))
  {
    SyncMembersKeep(hash, r, ms, now);
    var r1 := SyncMembers(r, ms, hash, now);
    RemoveAllKeeps(hash, r1, Absent(r1, MemberKeys(ms)), now);
  }

  lemma RegatedOk(hash: Scope -> Text, was: Settings, cfg: Settings, readyCount: int, k: Key, e: Entry)
    requires EntryOk(was, hash, k, e)
    ensures var e' := RegatedEntry(cfg, readyCount, e);
            EntryOk(cfg, hash, k, e') && QuietChange(e, e') && e'.id == e.id
  {
  }

  lemma UpdateSettingsKeeps(hash: Scope -> Text, r: Registry, s: RawSettings)
    requires RegistryOk(hash, r)
    ensures Kept(hash, r, AfterUpdateSettings(r, s))
  {
    var r' := AfterUpdateSettings(r, s);
    forall k | k in r.entries
      ensures EntryOk(r'.cfg, hash, k, r'.entries[k]) && QuietChange(r.entries[k], r'.entries[k])
      ensures r'.entries[k].id == r.entries[k].id
    {
      RegatedOk(hash, r.cfg, r'.cfg, r.readyCount, k, r.entries[k]);
    }
    SameServing(r.entries, r'.entries);
  }

  lemma SameServing(a: map<Key, Entry>, b: map<Key, Entry>)
    requires a.Keys == b.Keys
    requires forall k | k in a :: QuietChange(a[k], b[k])
    ensures ServingKeys(a) == ServingKeys(b) && View(a) == View(b)
  {
    assert View(a).Keys == View(b).Keys;
  }

  lemma DeleteDoneKeeps(hash: Scope -> Text, r: Registry, k: Key, generation: nat)
    requires RegistryOk(hash, r)
    ensures Kept(hash, r, AfterDeleteDone(r, k, generation))
  {
    if Current(r, k, generation) {
      assert EntryOk(r.cfg, hash, k, r.entries[k]);
      assert ServingKeys(AfterDeleteDone(r, k, generation).entries) == ServingKeys(r.entries);
    }
  }

  lemma BeginKeeps(hash: Scope -> Text, r: Registry, k: Key, now: Clock)
    requires RegistryOk(hash, r)
    ensures Kept(hash, r, AfterBegin(r, k, now).0)
  {
    if k !in r.entries {
      AddKeeps(hash, r, k, FreshEntry(r.nextId, k, now).(busy := true), r.notifySeq);
    } else {
      assert EntryOk(r.cfg, hash, k, r.entries[k]);
      InstallKeeps(hash, r, k, r.entries[k].(busy := true), false);
    }
  }

  lemma MissKeeps(hash: Scope -> Text, r: Registry, k: Key, rec: Record, now: Clock)
    requires RegistryOk(hash, r) && k in r.entries && !r.entries[k].serving
    requires rec.key == k && 1 <= rec.generation && rec.state != State.Ready && rec.state != Paused
    ensures Kept(hash, r, AfterMiss(r, k, rec, now))
  {
    assert EntryOk(r.cfg, hash, k, r.entries[k]);
    InstallKeeps(hash, r, k, AfterMiss(r, k, rec, now).entries[k], AfterMiss(r, k, rec, now).notifySeq != r.notifySeq);
  }

  lemma RevocationKeeps(hash: Scope -> Text, r: Registry, k: Key, rec: Record, now: Clock)
    requires RegistryOk(hash, r) && k in r.entries && r.entries[k].serving
    requires rec.key == k && 1 <= rec.generation
    ensures Kept(hash, r, AfterRevocation(r, k, rec, now))
  {
    assert EntryOk(r.cfg, hash, k, r.entries[k]);
    InstallKeeps(hash, r, k, AfterRevocation(r, k, rec, now).entries[k], true);
  }

  lemma BlipKeeps(hash: Scope -> Text, r: Registry, k: Key, rec: Record, gate: Instant)
    requires RegistryOk(hash, r) && k in r.entries
    requires rec.key == k && rec.generation == r.entries[k].record.generation
    requires if r.entries[k].serving then rec.state == r.entries[k].record.state
             else rec.state == Paused && rec.lastAttempt > ZERO_TIME && gate == rec.lastAttempt + r.cfg.pauseRetry
    ensures Kept(hash, r, Install(r, k, Scored(r.entries[k], rec, gate), false))
  {
    assert EntryOk(r.cfg, hash, k, r.entries[k]);
    InstallKeeps(hash, r, k, Scored(r.entries[k], rec, gate), false);
  }

  lemma MissedKeeps(hash: Scope -> Text, r: Registry, k: Key, rec: Record, now: Clock)
    requires RegistryOk(hash, r) && k in r.entries
    requires rec.key == k && rec.generation == r.entries[k].record.generation
    requires rec.state == r.entries[k].record.state && rec.lastAttempt == now
    ensures Kept(hash, r, AfterMissed(r, k, rec, now))
  {
    var e := r.entries[k];
    var gate := Gate(r.cfg, rec.failStreak, r.readyCount, now);
    if e.serving && rec.failStreak < r.cfg.demoteAfter {
      BlipKeeps(hash, r, k, rec, gate);
    } else if e.serving {
      RevocationKeeps(hash, r, k, rec, now);
    } else if rec.state == Paused {
      var later := now + r.cfg.pauseRetry;
      assert AfterMissed(r, k, rec, now) == Install(r, k, Scored(e, rec, later), false);
      BlipKeeps(hash, r, k, rec, later);
    } else {
      assert EntryOk(r.cfg, hash, k, e);
      MissKeeps(hash, r, k, rec, now);
    }
  }

  lemma FailingKeeps(hash: Scope -> Text, r: Registry, k: Key, g: nat, reason: Reason, d: int, now: Clock)
    requires RegistryOk(hash, r)
    ensures Kept(hash, r, AfterFailing(r, k, g, reason, d, now))
  {
    if Current(r, k, g) {
      assert EntryOk(r.cfg, hash, k, r.entries[k]);
      MissedKeeps(hash, r, k, Missed(r.entries[k].record, reason, d, now), now);
    }
  }

  lemma DemoteKeeps(hash: Scope -> Text, r: Registry, k: Key, g: nat, reason: Reason, now: Clock)
    requires RegistryOk(hash, r)
    ensures Kept(hash, r, AfterDemote(r, k, g, reason, now))
  {
    if Current(r, k, g) {
      var rec := Attempted(r.entries[k].record, reason, now).(failStreak := r.cfg.demoteAfter);
      assert EntryOk(r.cfg, hash, k, r.entries[k]);
      if r.entries[k].serving {
        RevocationKeeps(hash, r, k, rec, now);
      } else if rec.state == Paused {
        InstallKeeps(hash, r, k, AfterMiss(r, k, rec, now).entries[k], true);
      } else {
        MissKeeps(hash, r, k, rec, now);
      }
    }
  }

  lemma EnteredOk(hash: Scope -> Text, cfg: Settings, k: Key, e: Entry, state: State, reason: Reason, now: Clock)
    requires EntryOk(cfg, hash, k, e) && EnterPhase(state)
    ensures var e' := EnteredEntry(e, state, reason, now);
            EntryOk(cfg, hash, k, e') && e'.id == e.id && QuietChange(e, e')
  {
  }

  lemma EnterKeeps(hash: Scope -> Text, r: Registry, k: Key, g: nat, state: State, reason: Reason, now: Clock)
    requires RegistryOk(hash, r) && EnterPhase(state)
    ensures Kept(hash, r, AfterEnter(r, k, g, state, reason, now))
  {
    if Current(r, k, g) {
      var e := r.entries[k];
      EnteredOk(hash, r.cfg, k, e, state, reason, now);
      var changed := e.record.state != state || e.record.reason != reason;
      InstallKeeps(hash, r, k, EnteredEntry(e, state, reason, now), changed && state != Discovering);
    }
  }

  lemma ReadyKeeps(hash: Scope -> Text, r: Registry, k: Key, g: nat, endpoint: Endpoint, d: int, now: Clock)
    requires RegistryOk(hash, r)
    ensures Kept(hash, r, AfterReady(r, k, g, endpoint, d, now))
  {
    if Current(r, k, g) {
      assert EntryOk(r.cfg, hash, k, r.entries[k]);
      InstallKeeps(hash, r, k, ReadyEntry(r.entries[k], endpoint, d, now), !r.entries[k].serving);
    }
  }

  lemma PauseKeeps(hash: Scope -> Text, r: Registry, k: Key, g: nat, reason: Reason, now: Clock)
    requires RegistryOk(hash, r)
    ensures Kept(hash, r, AfterPause(r, k, g, reason, now))
  {
    if Current(r, k, g) {
      assert EntryOk(r.cfg, hash, k, r.entries[k]);
      InstallKeeps(hash, r, k, AfterPause(r, k, g, reason, now).entries[k], true);
    }
  }

  lemma DeleteFailedKeeps(hash: Scope -> Text, r: Registry, k: Key, g: nat, reason: Reason, now: Clock)
    requires RegistryOk(hash, r)
    ensures Kept(hash, r, AfterDeleteFailed(r, k, g, reason, now))
  {
    if Current(r, k, g) && r.entries[k].record.state == Removing {
      assert EntryOk(r.cfg, hash, k, r.entries[k]);
      InstallKeeps(hash, r, k, AfterDeleteFailed(r, k, g, reason, now).entries[k], false);
    }
  }

  // The operations that only set or clear one flag of an entry.
  lemma FlagKeeps(hash: Scope -> Text, r: Registry, op: Op)
    requires RegistryOk(hash, r)
    requires op.TakeScopeChanged? || op.BeginDelete? || op.Release? || op.DeferDrain? || op.DrainCompleted?
    ensures Kept(hash, r, Apply(r, op, hash))
  {
    var r' := Apply(r, op, hash);
    var k := if op.Release? then op.hold.key else op.key;
    if k in r.entries && r' != r {
      FlagOk(hash, r, op, k);
      InstallKeeps(hash, r, k, r'.entries[k], false);
    }
  }

  lemma FlagOk(hash: Scope -> Text, r: Registry, op: Op, k: Key)
    requires RegistryOk(hash, r) && k in r.entries
    requires op.TakeScopeChanged? || op.BeginDelete? || op.Release? || op.DeferDrain? || op.DrainCompleted?
    requires k == if op.Release? then op.hold.key else op.key
    ensures var r' := Apply(r, op, hash);
            && k in r'.entries && EntryOk(r.cfg, hash, k, r'.entries[k]) && r'.entries[k].id == r.entries[k].id
            && QuietChange(r.entries[k], r'.entries[k])
            && (r' == r || r' == Install(r, k, r'.entries[k], false))
  {
    assert EntryOk(r.cfg, hash, k, r.entries[k]);
  }

  lemma ApplyKeeps(hash: Scope -> Text, r: Registry, op: Op)
    requires RegistryOk(hash, r) && Legal(op)
    ensures Kept(hash, r, Apply(r, op, hash))
  {
    match op
    case Sync(ms, now) => SyncKeeps(hash, r, ms, now);
    case UpdateSettings(s) => UpdateSettingsKeeps(hash, r, s);
    case Begin(k, now) => BeginKeeps(hash, r, k, now);
    case Enter(k, g, s, reason, now) => EnterKeeps(hash, r, k, g, s, reason, now);
    case Admit(k, g, endpoint, d, now) => ReadyKeeps(hash, r, k, g, endpoint, d, now);
    case Failing(k, g, reason, d, now) => FailingKeeps(hash, r, k, g, reason, d, now);
    case Demote(k, g, reason, now) => DemoteKeeps(hash, r, k, g, reason, now);
    case Pause(k, g, reason, now) => PauseKeeps(hash, r, k, g, reason, now);
    case DeleteDone(k, g) => DeleteDoneKeeps(hash, r, k, g);
    case DeleteFailed(k, g, reason, now) => DeleteFailedKeeps(hash, r, k, g, reason, now);
    case _ => FlagKeeps(hash, r, op);
  }

  // The registry's invariant holds after any sequence of operations.
  lemma {:induction false} RunOk(hash: Scope -> Text, s: RawSettings, ops: seq<Op>)
    requires forall i | 0 <= i < |ops| :: Legal(ops[i])
    ensures RegistryOk(hash, Run(NewRegistry(s), ops, hash))
  {
    if ops != [] {
      RunOk(hash, s, ops[..|ops| - 1]);
      ApplyKeeps(hash, Run(NewRegistry(s), ops[..|ops| - 1], hash), ops[|ops| - 1]);
    } else {
      assert ServingKeys(NewRegistry(s).entries) == {};
    }
  }

  // ------------------------------------------------------------ retry gates

  // What a failure that armed the gate leaves behind: a retry in
  // (now, now + backoffMax], and within recoverMax when nothing serves.
  predicate GateArmed(r: Registry, k: Key, now: Instant) {
    && k in r.entries
    && now < r.entries[k].nextTry <= now + r.cfg.backoffMax
    && (ServingKeys(r.entries) == {} ==> r.entries[k].nextTry <= now + r.cfg.recoverMax)
  }

  lemma InstallArms(hash: Scope -> Text, r: Registry, k: Key, e: Entry, notify: bool, now: Instant)
    requires k in r.entries && RegistryOk(hash, Install(r, k, e, notify))
    requires e.nextTry == Gate(r.cfg, e.record.failStreak, Install(r, k, e, notify).readyCount, now)
    ensures GateArmed(Install(r, k, e, notify), k, now)
  {
  }

  lemma MissArms(hash: Scope -> Text, r: Registry, k: Key, rec: Record, now: Clock)
    requires k in r.entries && RegistryOk(hash, AfterMiss(r, k, rec, now))
    ensures GateArmed(AfterMiss(r, k, rec, now), k, now)
  {
  }

  lemma RevocationArms(hash: Scope -> Text, r: Registry, k: Key, rec: Record, now: Clock)
    requires k in r.entries && r.entries[k].serving && RegistryOk(hash, AfterRevocation(r, k, rec, now))
    ensures GateArmed(AfterRevocation(r, k, rec, now), k, now)
  {
  }

  // Every failure arms the gate, on the serving set as it is once the failure
  // is recorded: the demotion that empties the fleet included.
  lemma FailingArmsGate(hash: Scope -> Text, r: Registry, k: Key, g: nat, reason: Reason, d: int, now: Clock)
    requires RegistryOk(hash, r)
    requires Current(r, k, g) && r.entries[k].record.state != Paused
    ensures GateArmed(AfterFailing(r, k, g, reason, d, now), k, now)
  {
    FailingKeeps(hash, r, k, g, reason, d, now);
    MissedArms(hash, r, k, Missed(r.entries[k].record, reason, d, now), now);
  }

  lemma MissedArms(hash: Scope -> Text, r: Registry, k: Key, rec: Record, now: Clock)
    requires k in r.entries && rec.state != Paused && RegistryOk(hash, AfterMissed(r, k, rec, now))
    ensures GateArmed(AfterMissed(r, k, rec, now), k, now)
  {
    var e := r.entries[k];
    if !e.serving {
      MissArms(hash, r, k, rec, now);
    } else if rec.failStreak < r.cfg.demoteAfter {
      InstallArms(hash, r, k, Scored(e, rec, Gate(r.cfg, rec.failStreak, r.readyCount, now)), false, now);
    } else {
      RevocationArms(hash, r, k, rec, now);
    }
  }

  lemma DemoteArmsGate(hash: Scope -> Text, r: Registry, k: Key, g: nat, reason: Reason, now: Clock)
    requires RegistryOk(hash, r)
    requires Current(r, k, g)
    ensures GateArmed(AfterDemote(r, k, g, reason, now), k, now)
  {
    DemoteKeeps(hash, r, k, g, reason, now);
    var rec := Attempted(r.entries[k].record, reason, now).(failStreak := r.cfg.demoteAfter);
    if r.entries[k].serving {
      RevocationArms(hash, r, k, rec, now);
    } else {
      MissArms(hash, r, k, rec, now);
    }
  }

  lemma DeleteFailedArmsGate(hash: Scope -> Text, r: Registry, k: Key, g: nat, reason: Reason, now: Clock)
    requires RegistryOk(hash, r)
    requires Current(r, k, g) && r.entries[k].record.state == Removing
    ensures GateArmed(AfterDeleteFailed(r, k, g, reason, now), k, now)
  {
    DeleteFailedKeeps(hash, r, k, g, reason, now);
    var r' := AfterDeleteFailed(r, k, g, reason, now);
    InstallArms(hash, r, k, r'.entries[k], false, now);
  }

  // A paused relay keeps the revival cadence through every later failure.
  lemma PausedGate(hash: Scope -> Text, r: Registry, op: Op)
    requires RegistryOk(hash, r)
    requires op.Pause? || (op.Failing? && Current(r, op.key, op.generation)
                           && r.entries[op.key].record.state == Paused)
    requires Current(r, op.key, op.generation)
    ensures var r' := Apply(r, op, hash);
            && op.key in r'.entries && r'.entries[op.key].record.state == Paused
            && r'.entries[op.key].nextTry == op.now + r.cfg.pauseRetry
            && !r'.entries[op.key].serving
  {
    ApplyKeeps(hash, r, op);
  }

  // Below the demote streak a serving relay keeps serving; the failure that
  // spends the streak takes it out at once.
  lemma StreakDemotes(hash: Scope -> Text, r: Registry, op: Op)
    requires RegistryOk(hash, r) && op.Failing?
    requires Current(r, op.key, op.generation) && r.entries[op.key].serving
    ensures var e := r.entries[op.key];
            var r' := Apply(r, op, hash);
            && op.key in r'.entries
            && (r'.entries[op.key].serving <==> e.record.failStreak + 1 < r.cfg.demoteAfter)
            && (r'.entries[op.key].serving <==> op.key in Serving(r'))
            && (!r'.entries[op.key].serving ==>
                  r'.entries[op.key].record.state == Unready && r'.notifySeq == r.notifySeq + 1
                  && r'.readyCount == r.readyCount - 1)
  {
  }

  // ---------------------------------------------------------- drain marker

  // What takes the deferred-drain marker away from an entry.
  predicate ClearsMarker(r: Registry, op: Op, k: Key)
    requires k in r.entries
  {
    match op
    case DrainCompleted(j, g) => j == k && Current(r, j, g)
    case Admit(j, g, _, _, _) => j == k && Current(r, j, g)
    case DeleteDone(j, g) => j == k && Current(r, j, g) && r.entries[k].record.state == Removing
    case Sync(ms, _) => (k in MemberKeys(ms)) == (r.entries[k].record.state == Removing)
    case _ => false
  }

  predicate Marked(r: Registry, k: Key, id: nat) {
    k in r.entries && r.entries[k].id == id && r.entries[k].record.drainPending
  }

  lemma SyncMemberMarker(hash: Scope -> Text, r: Registry, m: Member, now: Clock, k: Key)
    requires k in r.entries
    ensures var r' := SyncMember(r, m, hash, now);
            && k in r'.entries && r'.entries[k].id == r.entries[k].id
            && (k != m.key ==> r'.entries[k] == r.entries[k])
            && (k == m.key ==> r'.entries[k].record.state != Removing)
            && r'.entries[k].record.drainPending
               == (r.entries[k].record.drainPending && !(k == m.key && r.entries[k].record.state == Removing))
  {
  }

  // What a run of Sync members does to the marker of an entry among them: the
  // first occurrence resurrects a removing entry and clears it, anything else
  // (a scope flip included) carries it.
  lemma {:induction false} SyncMembersMarker(hash: Scope -> Text, r: Registry, ms: seq<Member>, now: Clock, k: Key)
    requires k in r.entries
    ensures var r' := SyncMembers(r, ms, hash, now);
            && k in r'.entries && r'.entries[k].id == r.entries[k].id
            && (k !in MemberKeys(ms) ==> r'.entries[k] == r.entries[k])
            && (k in MemberKeys(ms) ==> r'.entries[k].record.state != Removing)
            && r'.entries[k].record.drainPending
               == (r.entries[k].record.drainPending
                   && !(k in MemberKeys(ms) && r.entries[k].record.state == Removing))
  {
    if ms != [] {
      var init, last := ms[..|ms| - 1], ms[|ms| - 1];
      SyncMembersMarker(hash, r, init, now, k);
      SyncMemberMarker(hash, SyncMembers(r, init, hash, now), last, now, k);
      assert ms == init + [last];
      assert MemberKeys(ms) == MemberKeys(init) + {last.key};
    }
  }

  lemma SyncMarker(hash: Scope -> Text, r: Registry, ms: seq<Member>, now: Clock, k: Key)
    requires k in r.entries && r.entries[k].record.drainPending
    ensures Marked(AfterSync(r, ms, hash, now), k, r.entries[k].id)
       <==> (k in MemberKeys(ms)) != (r.entries[k].record.state == Removing)
  {
    SyncMembersMarker(hash, r, ms, now, k);
  }

  // The marker's exact fate: an operation leaves it on the entry that carries
  // it unless it completes the drain, re-admits, removes or re-adds the relay.
  lemma MarkerFate(hash: Scope -> Text, r: Registry, op: Op, k: Key)
    requires RegistryOk(hash, r)
    requires k in r.entries && r.entries[k].record.drainPending
    ensures Marked(Apply(r, op, hash), k, r.entries[k].id) <==> !ClearsMarker(r, op, k)
  {
    match op
    case Sync(ms, now) => SyncMarker(hash, r, ms, now, k);
    case Begin(j, now) => BeginMarker(r, j, now, k);
    case UpdateSettings(s) => SettingsMarker(r, s, k);
    case _ => EntryOpMarker(hash, r, op, k);
  }

  lemma BeginMarker(r: Registry, j: Key, now: Clock, k: Key)
    requires k in r.entries && r.entries[k].record.drainPending
    ensures Marked(AfterBegin(r, j, now).0, k, r.entries[k].id)
  {
  }

  lemma SettingsMarker(r: Registry, s: RawSettings, k: Key)
    requires k in r.entries && r.entries[k].record.drainPending
    ensures Marked(AfterUpdateSettings(r, s), k, r.entries[k].id)
  {
  }

  lemma EntryOpMarker(hash: Scope -> Text, r: Registry, op: Op, k: Key)
    requires k in r.entries && r.entries[k].record.drainPending
    requires !op.Sync? && !op.Begin? && !op.UpdateSettings?
    ensures Marked(Apply(r, op, hash), k, r.entries[k].id) <==> !ClearsMarker(r, op, k)
  {
    var j := if op.Release? then op.hold.key else op.key;
    if j != k {
      OtherEntryKept(hash, r, op, j, k);
    } else if op.Failing? || op.Demote? || op.Enter? || op.Pause? || op.DeleteFailed? {
      AttemptMarker(hash, r, op, k);
    }
  }

  lemma OtherEntryKept(hash: Scope -> Text, r: Registry, op: Op, j: Key, k: Key)
    requires k in r.entries && j != k
    requires !op.Sync? && !op.Begin? && !op.UpdateSettings?
    requires j == if op.Release? then op.hold.key else op.key
    ensures k in Apply(r, op, hash).entries && Apply(r, op, hash).entries[k] == r.entries[k]
  {
  }

  lemma AttemptMarker(hash: Scope -> Text, r: Registry, op: Op, k: Key)
    requires k in r.entries && r.entries[k].record.drainPending
    requires op.Failing? || op.Demote? || op.Enter? || op.Pause? || op.DeleteFailed?
    requires op.key == k
    ensures Marked(Apply(r, op, hash), k, r.entries[k].id)
  {
    match op
    case Failing(_, g, reason, d, now) => FailingMarker(r, k, g, reason, d, now);
    case _ =>
  }

  lemma FailingMarker(r: Registry, k: Key, g: nat, reason: Reason, d: int, now: Clock)
    requires k in r.entries && r.entries[k].record.drainPending
    ensures Marked(AfterFailing(r, k, g, reason, d, now), k, r.entries[k].id)
  {
    if Current(r, k, g) {
      MissedMarker(r, k, Missed(r.entries[k].record, reason, d, now), now);
    }
  }

  lemma MissedMarker(r: Registry, k: Key, rec: Record, now: Clock)
    requires k in r.entries && rec.drainPending
    ensures Marked(AfterMissed(r, k, rec, now), k, r.entries[k].id)
  {
  }

  predicate NeverCleared(r: Registry, ops: seq<Op>, hash: Scope -> Text, k: Key) {
    forall i | 0 <= i < |ops| ::
      k in Run(r, ops[..i], hash).entries && !ClearsMarker(Run(r, ops[..i], hash), ops[i], k)
  }

  // Through any run without such an operation the obligation to drain stays.
  lemma {:induction false} MarkerSurvives(hash: Scope -> Text, r: Registry, ops: seq<Op>, k: Key)
    requires RegistryOk(hash, r)
    requires k in r.entries && r.entries[k].record.drainPending
    requires forall i | 0 <= i < |ops| :: Legal(ops[i])
    requires NeverCleared(r, ops, hash, k)
    ensures RegistryOk(hash, Run(r, ops, hash))
    ensures Marked(Run(r, ops, hash), k, r.entries[k].id)
  {
    if ops != [] {
      var init := ops[..|ops| - 1];
      forall i | 0 <= i < |init|
        ensures k in Run(r, init[..i], hash).entries && !ClearsMarker(Run(r, init[..i], hash), init[i], k)
      {
        assert init[..i] == ops[..i];
      }
      MarkerSurvives(hash, r, init, k);
      var before := Run(r, init, hash);
      ApplyKeeps(hash, before, ops[|ops| - 1]);
      MarkerFate(hash, before, ops[|ops| - 1], k);
    }
  }

  // ---------------------------------------------------- scope-change marker

  // A continuing member's scope marker is overwritten exactly by a flip, with
  // the admission the flip revoked: a second flip before any rollout loses it.
  lemma ScopeMarkerFate(hash: Scope -> Text, r: Registry, m: Member, now: Clock)
    requires RegistryOk(hash, r)
    requires m.key in r.entries && r.entries[m.key].record.state != Removing
    ensures var e := r.entries[m.key];
            var e' := SyncMember(r, m, hash, now).entries[m.key];
            && e'.scopeChanged == (if ScopeFlips(e, m) then e.serving else e.scopeChanged)
            && (e.scopeChanged && !e'.scopeChanged <==> e.scopeChanged && ScopeFlips(e, m))
            && (ScopeFlips(e, m) ==> !e'.serving && e'.record.generation == e.record.generation + 1)
  {
  }

  // So two flips in a row, with no rollout between them, end with neither
  // marker set although the first one owed a drain.
  lemma SecondFlipDropsMarker(hash: Scope -> Text, r: Registry, m: Member, n: Member, now: Clock, later: Clock)
    requires RegistryOk(hash, r)
    requires m.key == n.key && m.key in r.entries && r.entries[m.key].serving
    requires ScopeFlips(r.entries[m.key], m) && n.scopeKnown && n.scope != m.scope
    ensures var e := r.entries[m.key];
            var once := SyncMember(r, m, hash, now);
            var twice := SyncMember(once, n, hash, later);
            && once.entries[m.key].scopeChanged
            && !twice.entries[m.key].scopeChanged
            && twice.entries[m.key].record.drainPending == e.record.drainPending
            && twice.entries[m.key].record.generation == e.record.generation + 2
            && !twice.entries[m.key].serving
  {
    assert EntryOk(r.cfg, hash, m.key, r.entries[m.key]);
    SyncMemberKeeps(hash, r, m, now);
    ScopeMarkerFate(hash, r, m, now);
    ScopeMarkerFate(hash, SyncMember(r, m, hash, now), n, later);
  }

  // -------------------------------------------------------- stale completions

  // A completion whose generation moved on, or whose entry is gone, is void.
  lemma StaleCompletionIsVoid(hash: Scope -> Text, r: Registry, op: Op)
    requires op.TakeScopeChanged? || op.Enter? || op.Admit? || op.Failing? || op.Demote? || op.Pause?
          || op.DeferDrain? || op.DrainCompleted? || op.DeleteDone? || op.DeleteFailed?
    requires !Current(r, op.key, op.generation)
    ensures Apply(r, op, hash) == r
  {
  }

  // Generations alone do not tell incarnations apart: a purge restarts them,
  // so a completion of the purged entry's first incarnation that is kept past
  // its release takes effect on the entry created next. Delivering it before
  // the release is what the callers owe. The release itself is harmless at any
  // time: it frees the captured entry object, never the new one.
  lemma LateCompletionHitsRecreatedEntry(
    hash: Scope -> Text, r: Registry, m: Member, h: Hold, endpoint: Endpoint, now: Clock)
    requires RegistryOk(hash, r)
    requires m.key in r.entries && r.entries[m.key].record.state == Removing
    requires h.key == m.key && h.id == r.entries[m.key].id && h.generation == 1
    ensures var purged := AfterDeleteDone(r, m.key, r.entries[m.key].record.generation);
            var again := SyncMember(purged, m, hash, now);
            var late := AfterReady(again, h.key, h.generation, endpoint, 0, now);
            && m.key !in purged.entries && m.key in again.entries && m.key in late.entries
            && again.entries[m.key].id != h.id && late.entries[m.key].id != h.id
            && m.key in Serving(late) && Serving(late)[m.key].endpoint == Some(endpoint)
            && AfterRelease(again, h) == again
            && AfterRelease(AfterBegin(again, m.key, now).0, h) == AfterBegin(again, m.key, now).0
  {
    assert EntryOk(r.cfg, hash, m.key, r.entries[m.key]);
  }
}
