// What each registry operation does, field by field, and what that makes of a
// relay's admission over whole histories.
module ReadinessEffects {
  import opened Backoff
  import opened Readiness
  import opened ReadinessLaws

  // Nothing changes but k's entry and the two counters: admissions by
  // `gained`, notifications by one if `told`.
  predicate OnlyEntry(r: Registry, r': Registry, k: Key, gained: int, told: bool) {
    && k in r.entries && k in r'.entries
    && r'.entries == r.entries[k := r'.entries[k]]
    && r'.cfg == r.cfg && r'.nextId == r.nextId
    && r'.readyCount == r.readyCount + gained
    && r'.notifySeq == r.notifySeq + if told then 1 else 0
  }

  // The wait a gate is armed with, when `serving` relays have admission.
  function Wait(cfg: Settings, streak: nat, serving: int): int {
    Delay(cfg.backoffBase, cfg.backoffMax, cfg.recoverMax, streak, serving)
  }

  predicate Unlabelled(s: State) {
    s != Unready && s != Failed
  }

  // A failure: one more in the streak. A serving relay whose streak is spent
  // loses admission; a paused one keeps the revival cadence; any other retries
  // after the wait of its new streak.
  predicate FailedAs(r: Registry, r': Registry, k: Key, reason: Reason, duration: int, now: Instant)
    requires k in r.entries
  {
    var e := r.entries[k];
    var streak := e.record.failStreak + 1;
    var lost := e.serving && streak >= r.cfg.demoteAfter;
    var labelled := !e.serving && Unlabelled(e.record.state) && e.record.state != Paused;
    && OnlyEntry(r, r', k, if lost then -1 else 0, lost || labelled)
    && r'.entries[k] == e.(
         serving := e.serving && !lost,
         nextTry := now + (if !e.serving && e.record.state == Paused then r.cfg.pauseRetry
                           else Wait(r.cfg, streak, if lost then r.readyCount - 1 else r.readyCount)),
         record := e.record.(
           state := if lost then Unready else if labelled then Failed else e.record.state,
           since := if lost || labelled then now else e.record.since,
           reason := reason, lastAttempt := now, lastResult := duration, failStreak := streak))
  }

  lemma FailingEffect(r: Registry, k: Key, g: nat, reason: Reason, duration: int, now: Instant)
    requires Current(r, k, g)
    ensures FailedAs(r, AfterFailing(r, k, g, reason, duration, now), k, reason, duration, now)
  {
  }

  // A demotion: admission goes at once, and the streak is spent.
  predicate DemotedAs(r: Registry, r': Registry, k: Key, reason: Reason, now: Instant)
    requires k in r.entries
  {
    var e := r.entries[k];
    var labelled := e.serving || Unlabelled(e.record.state);
    && OnlyEntry(r, r', k, if e.serving then -1 else 0, labelled)
    && r'.entries[k] == e.(
         serving := false,
         nextTry := now + Wait(r.cfg, r.cfg.demoteAfter, if e.serving then r.readyCount - 1 else r.readyCount),
         record := e.record.(
           state := if e.serving then Unready else if labelled then Failed else e.record.state,
           since := if labelled then now else e.record.since,
           reason := reason, lastAttempt := now, failStreak := r.cfg.demoteAfter))
  }

  lemma DemoteEffect(r: Registry, k: Key, g: nat, reason: Reason, now: Instant)
    requires Current(r, k, g)
    ensures DemotedAs(r, AfterDemote(r, k, g, reason, now), k, reason, now)
  {
  }

  // A pause: admission goes at once, and the relay is looked at again after
  // the revival interval. The streak stands.
  predicate PausedAs(r: Registry, r': Registry, k: Key, reason: Reason, now: Instant)
    requires k in r.entries
  {
    var e := r.entries[k];
    && OnlyEntry(r, r', k, if e.serving then -1 else 0, true)
    && r'.entries[k] == e.(
         serving := false, nextTry := now + r.cfg.pauseRetry,
         record := e.record.(state := Paused, since := if e.record.state == Paused then e.record.since else now,
                             reason := reason, lastAttempt := now))
  }

  lemma PauseEffect(r: Registry, k: Key, g: nat, reason: Reason, now: Instant)
    requires Current(r, k, g)
    ensures PausedAs(r, AfterPause(r, k, g, reason, now), k, reason, now)
  {
  }

  // A verified relay serves under the pair that was verified, with no streak,
  // no marker and an open gate.
  predicate AdmittedAs(r: Registry, r': Registry, k: Key, endpoint: Endpoint, duration: int, now: Instant)
    requires k in r.entries
  {
    var e := r.entries[k];
    && OnlyEntry(r, r', k, if e.serving then 0 else 1, !e.serving)
    && r'.entries[k] == e.(
         serving := true, endpoint := Some(endpoint), nextTry := ZERO_TIME, scopeChanged := false,
         record := e.record.(state := State.Ready, reason := NoReason, since := now, lastAttempt := now,
                             lastResult := duration, failStreak := 0, drainPending := false))
  }

  lemma ReadyEffect(r: Registry, k: Key, g: nat, endpoint: Endpoint, duration: int, now: Instant)
    requires Current(r, k, g)
    ensures AdmittedAs(r, AfterReady(r, k, g, endpoint, duration, now), k, endpoint, duration, now)
  {
  }

  // A phase is entered without touching admission; a paused relay stays paused
  // through discovery and verification; only deploying starts a fresh attempt.
  predicate EnteredAs(r: Registry, r': Registry, k: Key, state: State, reason: Reason, now: Instant)
    requires k in r.entries
  {
    var e := r.entries[k];
    if e.record.state == Paused && (state == Discovering || state == Verifying) then r' == r
    else
      && OnlyEntry(r, r', k, 0, state != Discovering && (e.record.state != state || e.record.reason != reason))
      && r'.entries[k] == e.(
           nextTry := if state == Deploying then ZERO_TIME else e.nextTry,
           record := e.record.(state := state, reason := reason, since := now,
                               failStreak := if state == Deploying then 0 else e.record.failStreak))
  }

  lemma EnterEffect(r: Registry, k: Key, g: nat, state: State, reason: Reason, now: Instant)
    requires Current(r, k, g)
    ensures EnteredAs(r, AfterEnter(r, k, g, state, reason, now), k, state, reason, now)
  {
  }

  // The drain marker, the scope marker, the hold and a failed or completed
  // delete.
  lemma MarkerEffects(r: Registry, k: Key, g: nat)
    requires Current(r, k, g)
    ensures var e, r' := r.entries[k], AfterDeferDrain(r, k, g);
            OnlyEntry(r, r', k, 0, false) && r'.entries[k] == e.(record := e.record.(drainPending := true))
    ensures var e, r' := r.entries[k], AfterDrainCompleted(r, k, g);
            OnlyEntry(r, r', k, 0, false) && r'.entries[k] == e.(record := e.record.(drainPending := false))
    ensures var e, (r', was) := r.entries[k], AfterTakeScopeChanged(r, k, g);
            OnlyEntry(r, r', k, 0, false) && r'.entries[k] == e.(scopeChanged := false) && was == e.scopeChanged
  {
  }

  lemma DeleteEffects(r: Registry, k: Key, g: nat, reason: Reason, now: Instant)
    requires Current(r, k, g)
    ensures var done := AfterDeleteDone(r, k, g);
            done == if r.entries[k].record.state != Removing then r
                    else r.(entries := r.entries - {k}, notifySeq := r.notifySeq + 1)
    ensures var e, r' := r.entries[k], AfterDeleteFailed(r, k, g, reason, now);
            var streak := e.record.failStreak + 1;
            if e.record.state != Removing then r' == r
            else
              && OnlyEntry(r, r', k, 0, false)
              && r'.entries[k] == e.(nextTry := now + Wait(r.cfg, streak, r.readyCount),
                                     record := e.record.(failStreak := streak, reason := reason))
  {
  }

  // The hold: granted unless somebody has it; a delete's only while the entry
  // is labelled removing; released on the object it was granted on.
  lemma HoldEffects(r: Registry, k: Key, h: Hold, now: Instant)
    ensures var (r', hold) := AfterBegin(r, k, now);
            if k !in r.entries then
              && hold == Some(Hold(k, r.nextId, 1))
              && r' == r.(nextId := r.nextId + 1, entries := r.entries[
                   k := Entry(r.nextId, Record(k, Configured, NoReason, 1, now, ZERO_TIME, 0, 0, false),
                              false, None, None, true, ZERO_TIME, NO_PINS, false, false)])
            else if r.entries[k].busy then hold == None && r' == r
            else
              && hold == Some(Hold(k, r.entries[k].id, r.entries[k].record.generation))
              && OnlyEntry(r, r', k, 0, false) && r'.entries[k] == r.entries[k].(busy := true)
    ensures var (r', hold) := AfterBeginDelete(r, k);
            if k in r.entries && !r.entries[k].busy && r.entries[k].record.state == Removing then
              && hold == Some(Hold(k, r.entries[k].id, r.entries[k].record.generation))
              && OnlyEntry(r, r', k, 0, false) && r'.entries[k] == r.entries[k].(busy := true)
            else hold == None && r' == r
    ensures var r' := AfterRelease(r, h);
            if h.key in r.entries && r.entries[h.key].id == h.id then
              OnlyEntry(r, r', h.key, 0, false) && r'.entries[h.key] == r.entries[h.key].(busy := false)
            else r' == r
  {
  }

  // A settings change re-arms every gate that is not open, from the attempt it
  // dates from, and touches nothing else.
  lemma SettingsEffect(r: Registry, s: RawSettings, k: Key)
    ensures var r' := AfterUpdateSettings(r, s);
            && r'.readyCount == r.readyCount && r'.notifySeq == r.notifySeq && r'.nextId == r.nextId
            && (0 < s.backoffBase ==> r'.cfg.backoffBase == s.backoffBase)
            && (0 < s.backoffMax ==> r'.cfg.backoffMax == s.backoffMax)
            && (0 < s.recoverMax ==> r'.cfg.recoverMax == s.recoverMax)
            && (0 < s.pauseRetry ==> r'.cfg.pauseRetry == s.pauseRetry)
            && (0 < s.demoteAfter ==> r'.cfg.demoteAfter == s.demoteAfter)
            && (s.backoffBase <= 0 ==> r'.cfg.backoffBase == r.cfg.backoffBase)
            && (s.backoffMax <= 0 ==> r'.cfg.backoffMax == r.cfg.backoffMax)
            && (s.recoverMax <= 0 ==> r'.cfg.recoverMax == r.cfg.recoverMax)
            && (s.pauseRetry <= 0 ==> r'.cfg.pauseRetry == r.cfg.pauseRetry)
            && (s.demoteAfter <= 0 ==> r'.cfg.demoteAfter == r.cfg.demoteAfter)
            && r'.entries.Keys == r.entries.Keys
            && (k in r.entries ==>
                  var e := r.entries[k];
                  r'.entries[k] == e.(nextTry :=
                    if e.record.lastAttempt == ZERO_TIME then e.nextTry
                    else if e.record.state == Paused then e.record.lastAttempt + r'.cfg.pauseRetry
                    else if e.record.failStreak == 0 then e.nextTry
                    else e.record.lastAttempt + Wait(r'.cfg, e.record.failStreak, r.readyCount)))
  {
  }

  // One desired member: announced when new; a fresh incarnation when it was
  // leaving or its scope moved; a first known scope is only recorded.
  lemma SyncMemberEffect(hash: Scope -> Text, r: Registry, m: Member, now: Instant)
    ensures var r' := SyncMember(r, m, hash, now);
            var fp := if !m.scopeKnown || m.scope == NO_PINS then None else Some(hash(m.scope));
            if m.key !in r.entries then
              r' == r.(notifySeq := r.notifySeq + 1, nextId := r.nextId + 1, entries := r.entries[
                m.key := Entry(r.nextId, Record(m.key, Configured, NoReason, 1, now, ZERO_TIME, 0, 0, false),
                               false, None, fp, false, ZERO_TIME, m.scope, m.scopeKnown, false)])
            else
              var e := r.entries[m.key];
              var back := e.record.state == Removing;
              var moved := !back && m.scopeKnown && e.scopeKnown && m.scope != e.scope;
              && OnlyEntry(r, r', m.key, if moved && e.serving then -1 else 0, back || moved)
              && r'.entries[m.key] ==
                   if back then
                     e.(nextTry := ZERO_TIME, scope := m.scope, scopeKnown := m.scopeKnown, scopeFP := fp,
                        scopeChanged := false,
                        record := e.record.(state := Configured, reason := NoReason, since := now, failStreak := 0,
                                            generation := e.record.generation + 1, drainPending := false))
                   else if moved then
                     e.(nextTry := ZERO_TIME, scope := m.scope, scopeFP := fp, scopeChanged := e.serving,
                        serving := false,
                        record := e.record.(state := Configured, reason := ScopeMoved, since := now, failStreak := 0,
                                            generation := e.record.generation + 1))
                   else if m.scopeKnown && !e.scopeKnown then e.(scope := m.scope, scopeKnown := true, scopeFP := fp)
                   else e
  {
  }

  // The members are taken one by one, in order.
  lemma SyncInOrder(hash: Scope -> Text, r: Registry, ms: seq<Member>, m: Member, now: Instant)
    ensures SyncMembers(r, [], hash, now) == r
    ensures SyncMembers(r, ms + [m], hash, now) == SyncMember(SyncMembers(r, ms, hash, now), m, hash, now)
  {
    assert (ms + [m])[..|ms|] == ms;
  }

  // After that, what is not among them leaves: out of service at once, in a
  // new incarnation.
  lemma SyncEffect(hash: Scope -> Text, r: Registry, ms: seq<Member>, now: Instant, k: Key)
    ensures var r1, r' := SyncMembers(r, ms, hash, now), AfterSync(r, ms, hash, now);
            && r'.cfg == r1.cfg && r'.nextId == r1.nextId
            && r'.entries.Keys == r1.entries.Keys
            && (k in r1.entries ==>
                  var e := r1.entries[k];
                  r'.entries[k] ==
                    if (exists m | m in ms :: m.key == k) || e.record.state == Removing then e
                    else e.(serving := false,
                            record := e.record.(state := Removing, reason := NoReason, since := now,
                                                generation := e.record.generation + 1, drainPending := false)))
  {
    hide SyncMembers;
    assert k in MemberKeys(ms) <==> exists m | m in ms :: m.key == k;
  }

  // Each removal is announced.
  lemma SyncCounts(hash: Scope -> Text, r: Registry, ms: seq<Member>, now: Instant)
    ensures var r1, r' := SyncMembers(r, ms, hash, now), AfterSync(r, ms, hash, now);
            var gone := set k | k in r1.entries && r1.entries[k].record.state != Removing
                                && forall m | m in ms :: m.key != k;
            && r'.notifySeq == r1.notifySeq + |gone|
            && r'.readyCount == r1.readyCount - |set k | k in gone && r1.entries[k].serving|
  {
    hide SyncMembers;
    var r1 := SyncMembers(r, ms, hash, now);
    var ks := Absent(r1, MemberKeys(ms));
    var gone := set k | k in r1.entries && r1.entries[k].record.state != Removing
                        && forall m | m in ms :: m.key != k;
    assert Leaving(r1, ks) == gone;
    assert LeavingServing(r1, ks) == set k | k in gone && r1.entries[k].serving;
  }

  // ----------------------------------------------- admission over a history

  // The scopes known for a relay: the one on record, and those of the members
  // with its key.
  predicate Known(e: Entry, ms: seq<Member>, scope: Scope) {
    || (e.scopeKnown && e.scope == scope)
    || exists m | m in ms :: m.key == e.record.key && m.scopeKnown && m.scope == scope
  }

  ghost predicate ScopesDiffer(e: Entry, ms: seq<Member>) {
    exists a, b :: Known(e, ms, a) && Known(e, ms, b) && a != b
  }

  // What takes a serving relay out of service.
  ghost predicate Expels(r: Registry, op: Op, k: Key)
    requires k in r.entries
  {
    match op
    case Demote(j, g, _, _) => j == k && Current(r, j, g)
    case Pause(j, g, _, _) => j == k && Current(r, j, g)
    case Failing(j, g, _, _, _) => j == k && Current(r, j, g) && r.entries[k].record.failStreak + 1 >= r.cfg.demoteAfter
    case Sync(ms, _) => k !in MemberKeys(ms) || ScopesDiffer(r.entries[k], ms)
    case _ => false
  }

  predicate Serves(r: Registry, k: Key, endpoint: Endpoint) {
    k in r.entries && r.entries[k].serving && r.entries[k].endpoint == Some(endpoint)
  }

  // -- what a reload makes of a serving relay, member by member

  // It still serves, and every scope known so far is the one on record.
  ghost predicate Steady(e: Entry, ms: seq<Member>, e': Entry) {
    && e'.serving && e'.endpoint == e.endpoint && e'.record.key == e.record.key && e'.record.state != Removing
    && forall scope :: Known(e, ms, scope) <==> e'.scopeKnown && e'.scope == scope
  }

  lemma KnownNext(e: Entry, front: seq<Member>, last: Member, scope: Scope)
    ensures Known(e, front + [last], scope)
       <==> Known(e, front, scope) || (last.key == e.record.key && last.scopeKnown && last.scope == scope)
  {
    assert forall m :: m in front + [last] <==> m in front || m == last;
  }

  lemma SteadyNext(hash: Scope -> Text, e: Entry, front: seq<Member>, last: Member, e': Entry, now: Clock)
    requires Steady(e, front, e') && last.key == e.record.key
    ensures var e2, ms := SyncedEntry(e', last, MemberFP(hash, last), now), front + [last];
            if e2.serving then Steady(e, ms, e2) else ScopesDiffer(e, ms)
    ensures e'.record.state != Removing ==>
              SyncedEntry(e', last, MemberFP(hash, last), now).record.state != Removing
  {
    hide Known;
    var e2, ms := SyncedEntry(e', last, MemberFP(hash, last), now), front + [last];
    forall scope
      ensures Known(e, ms, scope) <==> Known(e, front, scope) || (last.scopeKnown && last.scope == scope)
    {
      KnownNext(e, front, last, scope);
    }
    if !e2.serving {
      assert Known(e, ms, e'.scope) && Known(e, ms, last.scope);
    }
  }

  lemma SteadyAside(e: Entry, front: seq<Member>, last: Member, e': Entry)
    requires Steady(e, front, e') && last.key != e.record.key
    ensures Steady(e, front + [last], e')
  {
    hide Known;
    forall scope
      ensures Known(e, front + [last], scope) <==> Known(e, front, scope)
    {
      KnownNext(e, front, last, scope);
    }
  }

  lemma DifferMore(e: Entry, front: seq<Member>, last: Member)
    requires ScopesDiffer(e, front)
    ensures ScopesDiffer(e, front + [last])
  {
    hide Known;
    var a, b :| Known(e, front, a) && Known(e, front, b) && a != b;
    KnownNext(e, front, last, a);
    KnownNext(e, front, last, b);
  }

  lemma OneMember(hash: Scope -> Text, r: Registry, m: Member, now: Clock, k: Key)
    requires k in r.entries
    ensures var r' := SyncMember(r, m, hash, now);
            k in r'.entries
            && r'.entries[k]
               == if m.key == k then SyncedEntry(r.entries[k], m, MemberFP(hash, m), now) else r.entries[k]
    ensures !r.entries[k].serving ==> !SyncMember(r, m, hash, now).entries[k].serving
  {
  }

  lemma {:induction false} MembersServe(hash: Scope -> Text, r: Registry, ms: seq<Member>, now: Clock, k: Key)
    requires k in r.entries && r.entries[k].serving && r.entries[k].record.state != Removing
    requires r.entries[k].record.key == k
    ensures var e, r' := r.entries[k], SyncMembers(r, ms, hash, now);
            && k in r'.entries
            && if r'.entries[k].serving then Steady(e, ms, r'.entries[k]) else ScopesDiffer(e, ms)
  {
    hide SyncMember, SyncedEntry, Steady, ScopesDiffer;
    var e := r.entries[k];
    if ms == [] {
      SteadyFirst(e);
    } else {
      var front, last := ms[..|ms| - 1], ms[|ms| - 1];
      MembersServe(hash, r, front, now, k);
      var r1 := SyncMembers(r, front, hash, now);
      OneMember(hash, r1, last, now, k);
      assert ms == front + [last];
      if !r1.entries[k].serving {
        DifferMore(e, front, last);
      } else if last.key == k {
        SteadyNext(hash, e, front, last, r1.entries[k], now);
      } else {
        SteadyAside(e, front, last, r1.entries[k]);
      }
    }
  }

  lemma SteadyFirst(e: Entry)
    requires e.serving && e.record.state != Removing
    ensures Steady(e, [], e)
  {
  }

  lemma SteadySame(e: Entry, ms: seq<Member>, e': Entry)
    requires Steady(e, ms, e')
    ensures !ScopesDiffer(e, ms) && e'.endpoint == e.endpoint && e'.serving
  {
  }

  lemma {:induction false} MembersIdle(hash: Scope -> Text, r: Registry, ms: seq<Member>, now: Clock, k: Key)
    requires k in r.entries ==> !r.entries[k].serving
    ensures var r' := SyncMembers(r, ms, hash, now); k in r'.entries ==> !r'.entries[k].serving
  {
    if ms != [] {
      MembersIdle(hash, r, ms[..|ms| - 1], now, k);
    }
  }

  lemma RemovalServes(r: Registry, ks: set<Key>, now: Clock, k: Key, ep: Endpoint)
    requires k in r.entries ==> (r.entries[k].record.state == Removing ==> !r.entries[k].serving)
    ensures Serves(RemoveAll(r, ks, now), k, ep) <==> Serves(r, k, ep) && k !in ks
  {
  }

  lemma SyncServes(hash: Scope -> Text, r: Registry, ms: seq<Member>, now: Clock, k: Key, ep: Endpoint)
    requires RegistryOk(hash, r)
    ensures Serves(AfterSync(r, ms, hash, now), k, ep)
       <==> Serves(r, k, ep) && k in MemberKeys(ms) && !ScopesDiffer(r.entries[k], ms)
  {
    hide SyncMembers, ScopesDiffer, RemoveAll, Steady, RegistryOk;
    var r1 := SyncMembers(r, ms, hash, now);
    SyncMembersKeep(hash, r, ms, now);
    StateOk(hash, r, k);
    StateOk(hash, r1, k);
    RemovalServes(r1, Absent(r1, MemberKeys(ms)), now, k, ep);
    if k in r.entries && r.entries[k].serving {
      MembersServe(hash, r, ms, now, k);
      if r1.entries[k].serving {
        SteadySame(r.entries[k], ms, r1.entries[k]);
      }
    } else {
      MembersIdle(hash, r, ms, now, k);
    }
  }

  lemma StateOk(hash: Scope -> Text, r: Registry, k: Key)
    requires RegistryOk(hash, r)
    ensures k in r.entries ==>
              r.entries[k].record.key == k && (r.entries[k].record.state == Removing ==> !r.entries[k].serving)
  {
    assert k in r.entries ==> EntryOk(r.cfg, hash, k, r.entries[k]);
  }

  // An admission of k under `endpoint` that takes effect.
  predicate Admits(r: Registry, op: Op, k: Key, endpoint: Endpoint) {
    op.Admit? && op.key == k && op.endpoint == endpoint && Current(r, k, op.generation)
  }

  predicate Overrides(r: Registry, op: Op, k: Key) {
    op.Admit? && op.key == k && Current(r, k, op.generation)
  }

  // The successor law of admission: a relay serves under a pair after an
  // operation exactly when that admits it under the pair, or it did before and
  // is neither expelled nor admitted anew.
  lemma ServesNext(hash: Scope -> Text, r: Registry, op: Op, k: Key, ep: Endpoint)
    requires RegistryOk(hash, r)
    ensures Serves(Apply(r, op, hash), k, ep)
       <==> Admits(r, op, k, ep) || (Serves(r, k, ep) && !Overrides(r, op, k) && !Expels(r, op, k))
  {
    hide AfterSync, AfterUpdateSettings, AfterBegin, AfterBeginDelete, AfterRelease, AfterFailing, AfterDemote,
      AfterPause, AfterReady, AfterEnter, ScopesDiffer, RegistryOk, Wait, MemberKeys;
    match op
    case Sync(ms, now) => SyncServes(hash, r, ms, now, k, ep);
    case UpdateSettings(raw) => SettingsEffect(r, raw, k);
    case Begin(j, now) => HoldEffects(r, j, Hold(j, 0, 0), now);
    case BeginDelete(j) => HoldEffects(r, j, Hold(j, 0, 0), 1);
    case Release(h) => HoldEffects(r, h.key, h, 1);
    case _ =>
      if Current(r, op.key, op.generation) {
        CompletionServes(hash, r, op, k, ep);
      } else {
        StaleCompletionIsVoid(hash, r, op);
      }
  }

  lemma CompletionServes(hash: Scope -> Text, r: Registry, op: Op, k: Key, ep: Endpoint)
    requires RegistryOk(hash, r)
    requires !op.Sync? && !op.UpdateSettings? && !op.Begin? && !op.BeginDelete? && !op.Release?
    requires Current(r, op.key, op.generation)
    ensures Serves(Apply(r, op, hash), k, ep)
       <==> Admits(r, op, k, ep) || (Serves(r, k, ep) && !Overrides(r, op, k) && !Expels(r, op, k))
  {
    hide AfterFailing, AfterDemote, AfterPause, AfterReady, AfterEnter, Wait, RegistryOk, AfterDeleteDone,
      AfterDeleteFailed;
    var g := op.generation;
    match op
    case TakeScopeChanged(j, _) => MarkerEffects(r, j, g);
    case Enter(j, _, state, reason, now) => EnterEffect(r, j, g, state, reason, now);
    case Admit(j, _, endpoint, d, now) => ReadyEffect(r, j, g, endpoint, d, now);
    case Failing(j, _, reason, d, now) => FailingEffect(r, j, g, reason, d, now);
    case Demote(j, _, reason, now) => DemoteEffect(r, j, g, reason, now);
    case Pause(j, _, reason, now) => PauseEffect(r, j, g, reason, now);
    case DeferDrain(j, _) => MarkerEffects(r, j, g);
    case DrainCompleted(j, _) => MarkerEffects(r, j, g);
    case DeleteDone(j, _) =>
      StateOk(hash, r, j);
      DeleteEffects(r, j, g, NoReason, 1);
    case DeleteFailed(j, _, reason, now) => DeleteEffects(r, j, g, reason, now);
  }

  // Admitted by the i-th operation under `endpoint`, and neither expelled nor
  // admitted anew since.
  ghost predicate AdmittedAt(hash: Scope -> Text, s: RawSettings, ops: seq<Op>, k: Key, ep: Endpoint, i: nat) {
    && i < |ops|
    && Admits(Run(NewRegistry(s), ops[..i], hash), ops[i], k, ep)
    && forall j | i < j < |ops| :: Leaves(Run(NewRegistry(s), ops[..j], hash), ops[j], k)
  }

  ghost predicate Leaves(r: Registry, op: Op, k: Key) {
    !Overrides(r, op, k) && (k in r.entries ==> !Expels(r, op, k))
  }

  // Admission over whole histories: a relay serves under a pair if and only if
  // its latest effective admission was under that pair and nothing has
  // expelled it since.
  lemma {:induction false} ServesExactly(hash: Scope -> Text, s: RawSettings, ops: seq<Op>, k: Key, ep: Endpoint)
    requires forall i | 0 <= i < |ops| :: Legal(ops[i])
    ensures Serves(Run(NewRegistry(s), ops, hash), k, ep) <==> exists i :: AdmittedAt(hash, s, ops, k, ep, i)
  {
    hide Apply, Expels, RegistryOk, NewRegistry, Admits, AdmittedAt, Overrides;
    if ops == [] {
      Nothing(hash, s, k, ep);
    } else {
      var n := |ops| - 1;
      var front, op := ops[..n], ops[n];
      ServesExactly(hash, s, front, k, ep);
      RunOk(hash, s, front);
      var r := Run(NewRegistry(s), front, hash);
      ServesNext(hash, r, op, k, ep);
      AdmittedLast(hash, s, ops, k, ep);
      forall i: nat | i != n
        ensures AdmittedAt(hash, s, ops, k, ep, i) <==> AdmittedAt(hash, s, front, k, ep, i) && Leaves(r, op, k)
      {
        AdmittedNext(hash, s, ops, k, ep, i);
      }
      if Admits(r, op, k, ep) {
        assert AdmittedAt(hash, s, ops, k, ep, n);
      } else if Serves(r, k, ep) && Leaves(r, op, k) {
        var i :| AdmittedAt(hash, s, front, k, ep, i);
        NotYet(hash, s, front, k, ep, n);
        assert AdmittedAt(hash, s, ops, k, ep, i);
      }
    }
  }

  lemma NotYet(hash: Scope -> Text, s: RawSettings, ops: seq<Op>, k: Key, ep: Endpoint, i: nat)
    requires i >= |ops|
    ensures !AdmittedAt(hash, s, ops, k, ep, i)
  {
  }

  lemma Nothing(hash: Scope -> Text, s: RawSettings, k: Key, ep: Endpoint)
    ensures !Serves(Run(NewRegistry(s), [], hash), k, ep) && forall i :: !AdmittedAt(hash, s, [], k, ep, i)
  {
  }

  lemma AdmittedLast(hash: Scope -> Text, s: RawSettings, ops: seq<Op>, k: Key, ep: Endpoint)
    requires ops != []
    ensures var n := |ops| - 1;
            AdmittedAt(hash, s, ops, k, ep, n) <==> Admits(Run(NewRegistry(s), ops[..n], hash), ops[n], k, ep)
  {
    hide Run, Admits, Leaves;
  }

  lemma AdmittedNext(hash: Scope -> Text, s: RawSettings, ops: seq<Op>, k: Key, ep: Endpoint, i: nat)
    requires ops != [] && i != |ops| - 1
    ensures var front, op := ops[..|ops| - 1], ops[|ops| - 1];
            var r := Run(NewRegistry(s), front, hash);
            AdmittedAt(hash, s, ops, k, ep, i) <==> AdmittedAt(hash, s, front, k, ep, i) && Leaves(r, op, k)
  {
    hide Run, Admits, Leaves;
    var n := |ops| - 1;
    var front := ops[..n];
    assert forall j | 0 <= j <= n :: front[..j] == ops[..j];
    assert forall j | 0 <= j < n :: front[j] == ops[j];
  }
}
