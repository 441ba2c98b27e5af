// The readiness registry as the program runs it: entry objects mutated in
// place under one lock. Every method is proved against the value function of
// the same operation in Readiness.
module RegistryObject {
  import opened Backoff
  import R = Readiness

  // An entry the program holds by reference. `val.id` names the object itself;
  // an object never moves to another key.
  class EntryCell {
    const key: R.Key
    var val: R.Entry

    constructor (id: nat, k: R.Key, now: R.Clock)
      ensures key == k && val == R.FreshEntry(id, k, now)
    {
      key, val := k, R.FreshEntry(id, k, now);
    }
  }

  // The release closure: it captured the entry object.
  datatype LiveHold = LiveHold(cell: EntryCell, key: R.Key, generation: nat)

  class Registry {
    var cfg: R.Settings
    var entries: map<R.Key, EntryCell>
    var readyCount: int
    var notifySeq: nat
    var changes: bool  // the coalesced notification channel holds a signal
    const hash: R.Scope -> R.Text
    var nextId: nat

    ghost function Cells(): set<EntryCell>
      reads this`entries
    {
      set k | k in entries :: entries[k]
    }

    ghost predicate Valid()
      reads this`entries
    {
      forall k | k in entries :: entries[k].key == k
    }

    ghost function Entries(): map<R.Key, R.Entry>
      reads this`entries, Cells()
    {
      map k | k in entries :: entries[k].val
    }

    ghost function Value(): R.Registry
      reads this`cfg, this`entries, this`readyCount, this`notifySeq, this`nextId, Cells()
    {
      R.Registry(cfg, Entries(), readyCount, notifySeq, nextId)
    }

    constructor (s: R.RawSettings, hash: R.Scope -> R.Text)
      ensures Valid() && this.hash == hash
      ensures Value() == R.NewRegistry(s) && !changes
    {
      cfg := R.Merge(R.DEFAULTS, s);
      entries, readyCount, notifySeq, changes := map[], 0, 0, false;
      this.hash := hash;
      nextId := 0;
    }

    // A notification is counted and leaves a signal for the applier; without
    // one the channel is untouched.
    twostate predicate Signalled()
      reads this`notifySeq, this`changes
    {
      if notifySeq == old(notifySeq) then changes == old(changes) else changes
    }

    // Writes one cell back and leaves every other one alone.
    method Store(k: R.Key, v: R.Entry)
      requires Valid() && k in entries
      modifies entries[k]
      ensures Valid() && entries[k].val == v
      ensures Entries() == old(Entries())[k := v]
    {
      entries[k].val := v;
      assert Entries() == old(Entries())[k := v];
    }

    method Notify()
      modifies this`notifySeq, this`changes
      ensures notifySeq == old(notifySeq) + 1 && changes
    {
      notifySeq := notifySeq + 1;
      changes := true;
    }

    // Writes one cell back, admission unchanged, and announces it when asked to.
    method Put(k: R.Key, v: R.Entry, announce: bool)
      requires Valid() && k in entries && v.serving == entries[k].val.serving
      modifies this`notifySeq, this`changes, Cells()
      ensures Valid() && Signalled()
      ensures Value() == R.Install(old(Value()), k, v, announce)
    {
      Store(k, v);
      if announce {
        Notify();
      }
    }

    method Current(k: R.Key, generation: nat) returns (e: EntryCell?)
      requires Valid()
      ensures R.Current(Value(), k, generation) <==> e != null
      ensures e != null ==> k in entries && e == entries[k] && e.val.record.generation == generation
    {
      if k !in entries || entries[k].val.record.generation != generation {
        return null;
      }
      return entries[k];
    }

    // The retry gate after a failure, on the counters as they stand.
    method BackoffGate(streak: nat, now: R.Instant) returns (gate: R.Instant)
      ensures gate == R.Gate(cfg, streak, readyCount, now)
    {
      var wait := ShiftLeft(cfg.backoffBase, Min(Max(streak - 1, 0), MAX_SHIFT));
      if wait > cfg.backoffMax || wait <= 0 {
        wait := cfg.backoffMax;
      }
      if readyCount == 0 && wait > cfg.recoverMax {
        wait := cfg.recoverMax;
      }
      return now + wait;
    }

    method UpdateSettings(s: R.RawSettings)
      requires Valid()
      modifies this`cfg, Cells()
      ensures Valid() && Value() == R.AfterUpdateSettings(old(Value()), s)
    {
      ghost var was := Entries();
      cfg := R.Merge(cfg, s);
      var todo := entries.Keys;
      while todo != {}
        invariant todo <= entries.Keys && cfg == R.Merge(old(cfg), s)
        invariant forall k | k in todo :: entries[k].val == was[k]
        invariant forall k | k in entries && k !in todo :: entries[k].val == R.RegatedEntry(cfg, readyCount, was[k])
        decreases todo
      {
        var k :| k in todo;
        Regate(entries[k]);
        todo := todo - {k};
      }
      RegatedAll(was);
    }

    lemma RegatedAll(was: map<R.Key, R.Entry>)
      requires was.Keys == entries.Keys
      requires forall k | k in entries :: entries[k].val == R.RegatedEntry(cfg, readyCount, was[k])
      ensures Entries() == R.RegatedEntries(cfg, readyCount, was)
    {
    }

    method Regate(e: EntryCell)
      modifies e
      ensures e.val == R.RegatedEntry(cfg, readyCount, old(e.val))
    {
      if e.val.record.lastAttempt == R.ZERO_TIME {
        return;
      }
      if e.val.record.state == R.Paused {
        e.val := e.val.(nextTry := e.val.record.lastAttempt + cfg.pauseRetry);
        return;
      }
      if e.val.record.failStreak > 0 {
        var gate := BackoffGate(e.val.record.failStreak, e.val.record.lastAttempt);
        e.val := e.val.(nextTry := gate);
      }
    }

    method Sync(ms: seq<R.Member>, now: R.Clock)
      requires Valid()
      modifies this`entries, this`readyCount, this`notifySeq, this`changes, this`nextId, Cells()
      ensures Valid() && fresh(Cells() - old(Cells())) && Signalled()
      ensures Value() == R.AfterSync(old(Value()), ms, hash, now)
    {
      var seen := SyncMembers(ms, now);
      RemoveAbsent(seen, now);
    }

    method SyncMembers(ms: seq<R.Member>, now: R.Clock) returns (seen: set<R.Key>)
      requires Valid()
      modifies this`entries, this`readyCount, this`notifySeq, this`changes, this`nextId, Cells()
      ensures Valid() && fresh(Cells() - old(Cells()))
      ensures Signalled() && old(notifySeq) <= notifySeq
      ensures seen == R.MemberKeys(ms) && Value() == R.SyncMembers(old(Value()), ms, hash, now)
    {
      seen := {};
      for i := 0 to |ms|
        invariant Valid() && fresh(Cells() - old(Cells()))
        invariant Signalled() && old(notifySeq) <= notifySeq
        invariant seen == R.MemberKeys(ms[..i]) && Value() == R.SyncMembers(old(Value()), ms[..i], hash, now)
      {
        R.SyncMembersNext(old(Value()), ms, i, hash, now);
        SyncMember(ms[i], now);
        seen := seen + {ms[i].key};
      }
      assert ms[..|ms|] == ms;
    }

    method SyncMember(m: R.Member, now: R.Clock)
      requires Valid()
      modifies this`entries, this`readyCount, this`notifySeq, this`changes, this`nextId, Cells()
      ensures Valid() && fresh(Cells() - old(Cells()))
      ensures Signalled() && old(notifySeq) <= notifySeq
      ensures Value() == R.SyncMember(old(Value()), m, hash, now)
    {
      var fp := R.MemberFP(hash, m);
      if m.key !in entries {
        var c := new EntryCell(nextId, m.key, now);
        c.val := c.val.(scope := m.scope, scopeKnown := m.scopeKnown, scopeFP := fp);
        entries, nextId := entries[m.key := c], nextId + 1;
        assert Entries() == old(Entries())[m.key := c.val];
        Notify();
        return;
      }
      var e := entries[m.key].val;
      assert e == Value().entries[m.key];
      if e.record.state == R.Removing {
        Put(m.key, e.(record := R.Resurrected(e.record, now), nextTry := R.ZERO_TIME, scope := m.scope,
                      scopeKnown := m.scopeKnown, scopeChanged := false, scopeFP := fp), true);
      } else if m.scopeKnown && !e.scopeKnown {
        Put(m.key, e.(scope := m.scope, scopeKnown := true, scopeFP := fp), false);
      } else if m.scopeKnown && e.scopeKnown && m.scope != e.scope {
        Flip(m, fp, now);
      } else {
        assert Value().entries[m.key := e] == Value().entries;
      }
    }

    // A pin moved under a stable name: admission goes before the generation.
    method Flip(m: R.Member, fp: R.Fingerprint, now: R.Clock)
      requires Valid() && m.key in entries && R.ScopeFlips(entries[m.key].val, m)
      requires entries[m.key].val.record.state != R.Removing
      modifies this`readyCount, this`notifySeq, this`changes, Cells()
      ensures Valid() && Signalled()
      ensures Value() == R.Install(old(Value()), m.key, R.SyncedEntry(old(entries[m.key].val), m, fp, now), true)
    {
      var e := entries[m.key].val;
      var wasServing := e.serving;
      if e.serving {
        readyCount := readyCount - 1;
      }
      Store(m.key, e.(serving := false, record := R.Flipped(e.record, now), nextTry := R.ZERO_TIME,
                      scope := m.scope, scopeKnown := true, scopeFP := fp, scopeChanged := wasServing));
      Notify();
    }

    method RemoveAbsent(seen: set<R.Key>, now: R.Clock)
      requires Valid()
      modifies this`readyCount, this`notifySeq, this`changes, Cells()
      ensures Valid() && Signalled()
      ensures Value() == R.RemoveAll(old(Value()), R.Absent(old(Value()), seen), now)
    {
      ghost var was := Value();
      var todo := entries.Keys - seen;
      ghost var all := todo;
      R.RemoveNone(was, now);
      while todo != {}
        invariant Valid() && todo <= all && all == R.Absent(was, seen)
        invariant Value() == R.RemoveAll(was, all - todo, now)
        invariant Signalled() && old(notifySeq) <= notifySeq
        decreases todo
      {
        var k :| k in todo;
        RemoveNext(k, now, was, all - todo);
        R.OneLess(all, todo, k);
        todo := todo - {k};
      }
      assert all - todo == all;
    }

    method RemoveNext(k: R.Key, now: R.Clock, ghost was: R.Registry, ghost done: set<R.Key>)
      requires Valid() && k in entries && was.entries.Keys == entries.Keys && k !in done
      requires Value() == R.RemoveAll(was, done, now)
      modifies this`readyCount, this`notifySeq, this`changes, Cells()
      ensures Valid() && Signalled() && old(notifySeq) <= notifySeq
      ensures Value() == R.RemoveAll(was, done + {k}, now)
    {
      R.RemoveOneMore(was, done, k, now);
      assert Value().entries[k] == entries[k].val;
      if entries[k].val.record.state != R.Removing {
        Remove(k, now);
      }
    }

    // Left the desired configuration: revoke admission, then label.
    method Remove(k: R.Key, now: R.Clock)
      requires Valid() && k in entries && entries[k].val.record.state != R.Removing
      modifies this`readyCount, this`notifySeq, this`changes, Cells()
      ensures Valid() && Signalled()
      ensures Value() == R.Install(old(Value()), k, R.RemovedEntry(old(entries[k].val), now), true)
    {
      var e := entries[k].val;
      if e.serving {
        readyCount := readyCount - 1;
      }
      Store(k, e.(serving := false, record := R.Removed(e.record, now)));
      Notify();
    }

    // Every verified admission: the only view the pool builder consumes.
    method Serving() returns (out: map<R.Key, R.Admission>)
      requires Valid()
      ensures out == R.Serving(Value())
    {
      out := map[];
      var todo := entries.Keys;
      while todo != {}
        invariant todo <= entries.Keys
        invariant out == map k | k in entries && k !in todo && entries[k].val.serving :: R.AdmissionOf(entries[k].val)
        decreases todo
      {
        var k :| k in todo;
        todo := todo - {k};
        if entries[k].val.serving {
          out := out[k := R.AdmissionOf(entries[k].val)];
        }
      }
    }

    method IsReady(k: R.Key) returns (ready: bool)
      requires Valid()
      ensures ready <==> k in R.Serving(Value())
    {
      ready := k in entries && entries[k].val.serving;
    }

    method Allow(k: R.Key, now: R.Clock) returns (ok: bool)
      requires Valid()
      ensures ok == R.Allowed(Value(), k, now)
    {
      if k in entries {
        return !(now < entries[k].val.nextTry);
      }
      return true;
    }

    method TakeScopeChanged(k: R.Key, generation: nat) returns (changed: bool)
      requires Valid()
      modifies Cells()
      ensures Valid()
      ensures (Value(), changed) == R.AfterTakeScopeChanged(old(Value()), k, generation)
    {
      var e := Current(k, generation);
      if e == null {
        return false;
      }
      changed := e.val.scopeChanged;
      Store(k, e.val.(scopeChanged := false));
    }

    method Begin(k: R.Key, now: R.Clock) returns (hold: R.Option<LiveHold>)
      requires Valid()
      modifies this`entries, this`nextId, Cells()
      ensures Valid() && fresh(Cells() - old(Cells()))
      ensures Value() == R.AfterBegin(old(Value()), k, now).0
      ensures match R.AfterBegin(old(Value()), k, now).1
              case None => hold.None?
              case Some(h) => hold.Some? && k in entries && hold.value.cell == entries[k]
                              && h == R.Hold(hold.value.key, hold.value.cell.val.id, hold.value.generation)
    {
      if k !in entries {
        var c := new EntryCell(nextId, k, now);
        c.val := c.val.(busy := true);
        entries := entries[k := c];
        nextId := nextId + 1;
        assert Value().entries == old(Value().entries)[k := c.val];
        return R.Some(LiveHold(c, k, c.val.record.generation));
      }
      var e := entries[k];
      if e.val.busy {
        return R.None;
      }
      Store(k, e.val.(busy := true));
      return R.Some(LiveHold(e, k, e.val.record.generation));
    }

    method BeginDelete(k: R.Key) returns (hold: R.Option<LiveHold>)
      requires Valid()
      modifies Cells()
      ensures Valid()
      ensures Value() == R.AfterBeginDelete(old(Value()), k).0
      ensures match R.AfterBeginDelete(old(Value()), k).1
              case None => hold.None?
              case Some(h) => hold.Some? && k in entries && hold.value.cell == entries[k]
                              && h == R.Hold(hold.value.key, hold.value.cell.val.id, hold.value.generation)
    {
      if k !in entries || entries[k].val.busy || entries[k].val.record.state != R.Removing {
        return R.None;
      }
      var e := entries[k];
      Store(k, e.val.(busy := true));
      return R.Some(LiveHold(e, k, e.val.record.generation));
    }

    // The closure writes the object it captured, wherever that object is now:
    // in the registry under its key, or purged from it.
    method Release(h: LiveHold)
      requires Valid()
      requires h.cell.key == h.key
      requires h.cell !in Cells() ==> forall k | k in entries :: entries[k].val.id != h.cell.val.id
      modifies h.cell
      ensures Valid() && !h.cell.val.busy
      ensures Value() == R.AfterRelease(old(Value()), R.Hold(h.key, h.cell.val.id, h.generation))
    {
      h.cell.val := h.cell.val.(busy := false);
      assert Entries() == if h.cell in Cells() then old(Entries())[h.key := h.cell.val] else old(Entries());
    }

    method Enter(k: R.Key, generation: nat, state: R.State, reason: R.Reason, now: R.Clock)
      requires Valid()
      modifies this`notifySeq, this`changes, Cells()
      ensures Valid() && Signalled()
      ensures Value() == R.AfterEnter(old(Value()), k, generation, state, reason, now)
    {
      var e := Current(k, generation);
      if e == null {
        return;
      }
      var rec := e.val.record;
      assert Value().entries[k] == e.val;
      if rec.state == R.Paused && (state == R.Discovering || state == R.Verifying) {
        return;
      }
      var changed := rec.state != state || rec.reason != reason;
      assert R.AfterEnter(Value(), k, generation, state, reason, now)
          == R.Install(Value(), k, R.EnteredEntry(e.val, state, reason, now), changed && state != R.Discovering);
      Put(k, R.EnteredEntry(e.val, state, reason, now), changed && state != R.Discovering);
    }

    method Ready(k: R.Key, generation: nat, endpoint: R.Endpoint, duration: int, now: R.Clock)
      requires Valid()
      modifies this`readyCount, this`notifySeq, this`changes, Cells()
      ensures Valid() && Signalled()
      ensures Value() == R.AfterReady(old(Value()), k, generation, endpoint, duration, now)
    {
      var e := Current(k, generation);
      if e == null {
        return;
      }
      var v := e.val;
      v := v.(endpoint := R.Some(endpoint), record := R.Verified(v.record, duration, now),
              scopeChanged := false, nextTry := R.ZERO_TIME);
      if !v.serving {
        v := v.(serving := true);
        readyCount := readyCount + 1;
        Notify();
      }
      Store(k, v);
    }

    // A failed attempt of a relay that does not serve.
    method Miss(k: R.Key, rec: R.Record, now: R.Clock)
      requires Valid() && k in entries && !entries[k].val.serving
      modifies this`notifySeq, this`changes, Cells()
      ensures Valid() && Signalled()
      ensures Value() == R.AfterMiss(old(Value()), k, rec, now)
    {
      var gate := BackoffGate(rec.failStreak, now);
      if rec.state == R.Unready || rec.state == R.Failed {
        Put(k, R.Scored(entries[k].val, rec, gate), false);
      } else {
        Put(k, R.Scored(entries[k].val, R.Relabelled(rec, R.Failed, now), gate), true);
      }
    }

    // A failure a serving relay survives: only the gate moves.
    method Blip(k: R.Key, rec: R.Record, now: R.Clock)
      requires Valid() && k in entries
      modifies Cells()
      ensures Valid() && Entries() == old(Entries())[k :=
        R.Scored(old(entries[k].val), rec, R.Gate(cfg, rec.failStreak, readyCount, now))]
    {
      var gate := BackoffGate(rec.failStreak, now);
      Store(k, R.Scored(entries[k].val, rec, gate));
    }

    // The admission goes first, then the gate is armed on the lower count.
    method Revoke(k: R.Key, rec: R.Record, now: R.Clock)
      requires Valid() && k in entries && entries[k].val.serving
      modifies this`readyCount, this`notifySeq, this`changes, Cells()
      ensures Valid() && Signalled()
      ensures Value() == R.AfterRevocation(old(Value()), k, rec, now)
    {
      readyCount := readyCount - 1;
      var gate := BackoffGate(rec.failStreak, now);
      Store(k, R.Revoked(entries[k].val, R.Relabelled(rec, R.Unready, now), gate));
      Notify();
    }

    method Failing(k: R.Key, generation: nat, reason: R.Reason, duration: int, now: R.Clock)
      requires Valid()
      modifies this`readyCount, this`notifySeq, this`changes, Cells()
      ensures Valid() && Signalled()
      ensures Value() == R.AfterFailing(old(Value()), k, generation, reason, duration, now)
    {
      var e := Current(k, generation);
      if e == null {
        return;
      }
      Missed(k, R.Missed(e.val.record, reason, duration, now), now);
    }

    method Missed(k: R.Key, rec: R.Record, now: R.Clock)
      requires Valid() && k in entries
      modifies this`readyCount, this`notifySeq, this`changes, Cells()
      ensures Valid() && Signalled()
      ensures Value() == R.AfterMissed(old(Value()), k, rec, now)
    {
      assert Value().entries[k] == entries[k].val;
      if !entries[k].val.serving && rec.state == R.Paused {
        Store(k, R.Scored(entries[k].val, rec, now + cfg.pauseRetry));
      } else if !entries[k].val.serving {
        Miss(k, rec, now);
      } else if rec.failStreak < cfg.demoteAfter {
        Blip(k, rec, now);
      } else {
        Revoke(k, rec, now);
      }
    }

    method Demote(k: R.Key, generation: nat, reason: R.Reason, now: R.Clock)
      requires Valid()
      modifies this`readyCount, this`notifySeq, this`changes, Cells()
      ensures Valid() && Signalled()
      ensures Value() == R.AfterDemote(old(Value()), k, generation, reason, now)
    {
      var e := Current(k, generation);
      if e == null {
        return;
      }
      var rec := R.Attempted(e.val.record, reason, now).(failStreak := cfg.demoteAfter);
      if !e.val.serving {
        Miss(k, rec, now);
      } else {
        Revoke(k, rec, now);
      }
    }

    method Suspend(k: R.Key, rec: R.Record, gate: R.Instant)
      requires Valid() && k in entries
      modifies this`readyCount, this`notifySeq, this`changes, Cells()
      ensures Valid() && Signalled()
      ensures Value() == R.Install(old(Value()), k, R.Revoked(old(entries[k].val), rec, gate), true)
    {
      if entries[k].val.serving {
        readyCount := readyCount - 1;
      }
      Store(k, R.Revoked(entries[k].val, rec, gate));
      Notify();
    }

    method Pause(k: R.Key, generation: nat, reason: R.Reason, now: R.Clock)
      requires Valid()
      modifies this`readyCount, this`notifySeq, this`changes, Cells()
      ensures Valid() && Signalled()
      ensures Value() == R.AfterPause(old(Value()), k, generation, reason, now)
    {
      var e := Current(k, generation);
      if e == null {
        return;
      }
      var rec := R.Attempted(e.val.record, reason, now);
      if rec.state != R.Paused {
        rec := R.Relabelled(rec, R.Paused, now);
      }
      Suspend(k, rec, now + cfg.pauseRetry);
    }

    method DeferDrain(k: R.Key, generation: nat)
      requires Valid()
      modifies Cells()
      ensures Valid() && Value() == R.AfterDeferDrain(old(Value()), k, generation)
    {
      var e := Current(k, generation);
      if e == null {
        return;
      }
      Store(k, e.val.(record := e.val.record.(drainPending := true)));
    }

    method DrainCompleted(k: R.Key, generation: nat)
      requires Valid()
      modifies Cells()
      ensures Valid() && Value() == R.AfterDrainCompleted(old(Value()), k, generation)
    {
      var e := Current(k, generation);
      if e == null {
        return;
      }
      Store(k, e.val.(record := e.val.record.(drainPending := false)));
    }

    method DeleteDone(k: R.Key, generation: nat)
      requires Valid()
      modifies this`entries, this`notifySeq, this`changes
      ensures Valid() && Signalled() && Cells() <= old(Cells())
      ensures Value() == R.AfterDeleteDone(old(Value()), k, generation)
    {
      var e := Current(k, generation);
      if e == null || e.val.record.state != R.Removing {
        return;
      }
      entries := entries - {k};
      Notify();
      assert Value().entries == old(Value().entries) - {k};
    }

    method DeleteFailed(k: R.Key, generation: nat, reason: R.Reason, now: R.Clock)
      requires Valid()
      modifies Cells()
      ensures Valid() && Value() == R.AfterDeleteFailed(old(Value()), k, generation, reason, now)
    {
      var e := Current(k, generation);
      if e == null || e.val.record.state != R.Removing {
        return;
      }
      assert Value().entries[k] == e.val;
      var rec := e.val.record.(failStreak := e.val.record.failStreak + 1, reason := reason);
      var gate := BackoffGate(rec.failStreak, now);
      assert R.AfterDeleteFailed(Value(), k, generation, reason, now)
          == R.Install(Value(), k, R.Scored(e.val, rec, gate), false);
      Store(k, R.Scored(e.val, rec, gate));
    }
  }
}
