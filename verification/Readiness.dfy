// The readiness registry as a value: one record per operation says what the
// registry holds afterwards. The class in RegistryObject.dfy is proved against these
// functions; the rollout protocol in Protocol.dfy runs on them.
module Readiness {
  import opened Backoff

  // ------------------------------------------------------------------ data

  // Strings the registry stores and compares but never looks into: relay
  // names, URLs, relay keys, pin values, fingerprints.
  type Text = string

  // A relay's identity: (provider, name).
  datatype Key = Key(provider: Text, name: Text)

  // The credential pins a deployment lives under.
  datatype Pin = NoPin | Pin(value: Text)
  datatype Scope = Scope(team: Pin, account: Pin, organization: Pin)

  const NO_PINS := Scope(NoPin, NoPin, NoPin)

  // A scope's non-reversible fingerprint; absent when nothing is pinned or no
  // scope is known.
  type Fingerprint = Option<Text>

  datatype Option<+T> = None | Some(value: T)

  // One desired relay as Sync consumes it.
  datatype Member = Member(key: Key, scope: Scope, scopeKnown: bool)

  datatype State =
    | Configured | Discovering | Discovered | Deploying | Verifying
    | Ready | Unready | Failed | Paused | Removing

  datatype Reason =
    | NoReason | Replacing | Missing | Suspended | Unreachable | ProbeFailed | VersionFailed
    | AuthFailed | DeployFailed | CredentialFailed | ScopeMoved | Detail(text: Text)

  // Instants are nanoseconds; 0 is Go's zero time, which no clock returns.
  type Instant = int
  const ZERO_TIME: Instant := 0
  type Clock = t: int | ZERO_TIME < t witness 1

  datatype Record = Record(
    key: Key, state: State, reason: Reason, generation: nat, since: Instant,
    lastAttempt: Instant, lastResult: int, failStreak: nat, drainPending: bool)

  // The exact pair a verification passed for.
  datatype Endpoint = Endpoint(url: Text, token: Text)

  // One registry entry. `id` stands for the identity of the entry object: a
  // purge followed by a re-creation yields a new id under the same key.
  datatype Entry = Entry(
    id: nat, record: Record, serving: bool, endpoint: Option<Endpoint>, scopeFP: Fingerprint,
    busy: bool, nextTry: Instant, scope: Scope, scopeKnown: bool, scopeChanged: bool)

  type Streak = n: int | 0 < n witness 1

  datatype Settings = Settings(
    backoffBase: Span, backoffMax: Span, recoverMax: Span, pauseRetry: Span, demoteAfter: Streak)

  // A settings record as callers pass it: any field may be non-positive.
  datatype RawSettings = RawSettings(
    backoffBase: Duration, backoffMax: Duration, recoverMax: Duration, pauseRetry: Duration, demoteAfter: int)

  datatype Registry = Registry(
    cfg: Settings, entries: map<Key, Entry>, readyCount: int, notifySeq: nat, nextId: nat)

  // What Begin hands out: the captured entry object and incarnation.
  datatype Hold = Hold(key: Key, id: nat, generation: nat)

  // One serving relay as the pool builder sees it.
  datatype Admission = Admission(endpoint: Option<Endpoint>, generation: nat, scopeFP: Fingerprint)

  // --------------------------------------------------------------- helpers

  function Bit(b: bool): int { if b then 1 else 0 }

  // The fingerprint a scope publishes: none when nothing is pinned, otherwise
  // a hash the model does not interpret.
  function ScopeFP(hash: Scope -> Text, s: Scope): Fingerprint {
    if s == NO_PINS then None else Some(hash(s))
  }

  function MemberFP(hash: Scope -> Text, m: Member): Fingerprint {
    if m.scopeKnown then ScopeFP(hash, m.scope) else None
  }

  function Gate(cfg: Settings, streak: nat, readyCount: int, now: Instant): (gate: Instant)
    ensures now < gate <= now + cfg.backoffMax
    ensures readyCount == 0 ==> gate <= now + cfg.recoverMax
  {
    now + Delay(cfg.backoffBase, cfg.backoffMax, cfg.recoverMax, streak, readyCount)
  }

  predicate Current(r: Registry, k: Key, generation: nat) {
    k in r.entries && r.entries[k].record.generation == generation
  }

  // Replace k's entry, keep readyCount in step, and count one notification
  // when asked to.
  function Install(r: Registry, k: Key, e: Entry, notify: bool): Registry
    requires k in r.entries
  {
    r.(entries := r.entries[k := e],
       readyCount := r.readyCount + Bit(e.serving) - Bit(r.entries[k].serving),
       notifySeq := r.notifySeq + Bit(notify))
  }

  function FreshEntry(id: nat, k: Key, now: Instant): Entry {
    Entry(id, Record(k, Configured, NoReason, 1, now, ZERO_TIME, 0, 0, false),
          false, None, None, false, ZERO_TIME, NO_PINS, false, false)
  }

  // ------------------------------------------------------------ operations

  function Positive(x: Duration, fallback: Span): Span {
    if 0 < x then x else fallback
  }

  function Merge(cfg: Settings, s: RawSettings): Settings {
    Settings(Positive(s.backoffBase, cfg.backoffBase), Positive(s.backoffMax, cfg.backoffMax),
             Positive(s.recoverMax, cfg.recoverMax), Positive(s.pauseRetry, cfg.pauseRetry),
             if s.demoteAfter > 0 then s.demoteAfter else cfg.demoteAfter)
  }

  const DEFAULTS := Settings(5_000_000_000, 300_000_000_000, 15_000_000_000, 600_000_000_000, 3)

  function NewRegistry(s: RawSettings): Registry {
    Registry(Merge(DEFAULTS, s), map[], 0, 0, 0)
  }

  // ----------------------------------------------------- record rewrites

  function Relabelled(rec: Record, state: State, now: Instant): Record {
    rec.(state := state, since := now)
  }

  function NewIncarnation(rec: Record, state: State, reason: Reason, now: Instant): Record {
    Relabelled(rec, state, now).(reason := reason, generation := rec.generation + 1)
  }

  function Resurrected(rec: Record, now: Instant): Record {
    NewIncarnation(rec, Configured, NoReason, now).(failStreak := 0, drainPending := false)
  }

  function Flipped(rec: Record, now: Instant): Record {
    NewIncarnation(rec, Configured, ScopeMoved, now).(failStreak := 0)
  }

  function Removed(rec: Record, now: Instant): Record {
    NewIncarnation(rec, Removing, NoReason, now).(drainPending := false)
  }

  function Entered(rec: Record, state: State, reason: Reason, now: Instant): Record {
    Relabelled(rec, state, now).(reason := reason)
  }

  function Verified(rec: Record, duration: int, now: Instant): Record {
    Entered(rec, State.Ready, NoReason, now).(lastAttempt := now, lastResult := duration, failStreak := 0,
                                        drainPending := false)
  }

  function Attempted(rec: Record, reason: Reason, now: Instant): Record {
    rec.(lastAttempt := now, reason := reason)
  }

  function Missed(rec: Record, reason: Reason, duration: int, now: Instant): Record {
    Attempted(rec, reason, now).(lastResult := duration, failStreak := rec.failStreak + 1)
  }

  // -------------------------------------------------------- entry rewrites

  // An attempt's outcome written back: the record and the next retry gate.
  function Scored(e: Entry, rec: Record, gate: Instant): Entry {
    e.(record := rec, nextTry := gate)
  }

  // The same with admission revoked.
  function Revoked(e: Entry, rec: Record, gate: Instant): Entry {
    e.(serving := false, record := rec, nextTry := gate)
  }

  function RegatedEntry(cfg: Settings, readyCount: int, e: Entry): Entry {
    if e.record.lastAttempt == ZERO_TIME then e
    else if e.record.state == Paused then e.(nextTry := e.record.lastAttempt + cfg.pauseRetry)
    else if e.record.failStreak > 0 then
      e.(nextTry := Gate(cfg, e.record.failStreak, readyCount, e.record.lastAttempt))
    else e
  }

  function RegatedEntries(cfg: Settings, readyCount: int, entries: map<Key, Entry>): map<Key, Entry> {
    map k | k in entries :: RegatedEntry(cfg, readyCount, entries[k])
  }

  function AfterUpdateSettings(r: Registry, s: RawSettings): Registry {
    var cfg := Merge(r.cfg, s);
    r.(cfg := cfg, entries := RegatedEntries(cfg, r.readyCount, r.entries))
  }

  predicate ScopeFlips(e: Entry, m: Member) {
    m.scopeKnown && e.scopeKnown && m.scope != e.scope
  }

  // The entry a desired member that is already present continues as.
  function SyncedEntry(e: Entry, m: Member, fp: Fingerprint, now: Instant): Entry {
    if e.record.state == Removing then
      e.(record := Resurrected(e.record, now), nextTry := ZERO_TIME, scope := m.scope,
         scopeKnown := m.scopeKnown, scopeChanged := false, scopeFP := fp)
    else if m.scopeKnown && !e.scopeKnown then
      e.(scope := m.scope, scopeKnown := true, scopeFP := fp)
    else if ScopeFlips(e, m) then
      e.(serving := false, record := Flipped(e.record, now), nextTry := ZERO_TIME, scope := m.scope,
         scopeKnown := true, scopeFP := fp, scopeChanged := e.serving)
    else e
  }

  function SyncMember(r: Registry, m: Member, hash: Scope -> Text, now: Instant): Registry {
    var fp := MemberFP(hash, m);
    if m.key !in r.entries then
      r.(entries := r.entries[m.key := FreshEntry(r.nextId, m.key, now)
                                       .(scope := m.scope, scopeKnown := m.scopeKnown, scopeFP := fp)],
         notifySeq := r.notifySeq + 1, nextId := r.nextId + 1)
    else
      var e := r.entries[m.key];
      Install(r, m.key, SyncedEntry(e, m, fp, now), e.record.state == Removing || ScopeFlips(e, m))
  }

  function SyncMembers(r: Registry, ms: seq<Member>, hash: Scope -> Text, now: Instant): Registry {
    if ms == [] then r
    else SyncMember(SyncMembers(r, ms[..|ms| - 1], hash, now), ms[|ms| - 1], hash, now)
  }

  function RemovedEntry(e: Entry, now: Instant): Entry {
    if e.record.state == Removing then e
    else e.(serving := false, record := Removed(e.record, now))
  }

  // The keys of ks a removal still has to move.
  function Leaving(r: Registry, ks: set<Key>): set<Key> {
    set k | k in r.entries && k in ks && r.entries[k].record.state != Removing
  }

  function LeavingServing(r: Registry, ks: set<Key>): set<Key> {
    set k | k in Leaving(r, ks) && r.entries[k].serving
  }

  // Move every key of ks that is not removing yet to removing.
  function RemoveAll(r: Registry, ks: set<Key>, now: Instant): Registry {
    r.(entries := map k | k in r.entries ::
         if k in ks then RemovedEntry(r.entries[k], now) else r.entries[k],
       readyCount := r.readyCount - |LeavingServing(r, ks)|,
       notifySeq := r.notifySeq + |Leaving(r, ks)|)
  }

  lemma RemoveNone(r: Registry, now: Instant)
    ensures RemoveAll(r, {}, now) == r
  {
    assert Leaving(r, {}) == {};
    assert LeavingServing(r, {}) == {};
    assert RemoveAll(r, {}, now).entries == r.entries;
  }

  lemma LeavingMore(r: Registry, ks: set<Key>, k: Key)
    requires k in r.entries && k !in ks
    ensures var more := if r.entries[k].record.state == Removing then {} else {k};
            var lost := if r.entries[k].serving then more else {};
            && |Leaving(r, ks + {k})| == |Leaving(r, ks)| + |more|
            && |LeavingServing(r, ks + {k})| == |LeavingServing(r, ks)| + |lost|
  {
    var more := if r.entries[k].record.state == Removing then {} else {k};
    var lost := if r.entries[k].serving then more else {};
    assert Leaving(r, ks + {k}) == Leaving(r, ks) + more;
    assert LeavingServing(r, ks + {k}) == LeavingServing(r, ks) + lost;
  }

  // Removal one key at a time, in any order.
  lemma RemoveOneMore(r: Registry, ks: set<Key>, k: Key, now: Instant)
    requires k in r.entries && k !in ks
    ensures var r' := RemoveAll(r, ks, now);
            && k in r'.entries && r'.entries[k] == r.entries[k]
            && RemoveAll(r, ks + {k}, now)
               == (if r.entries[k].record.state == Removing then r'
                   else Install(r', k, RemovedEntry(r.entries[k], now), true))
  {
    LeavingMore(r, ks, k);
    RemovedEntriesMore(r, ks, k, now);
    var r' := RemoveAll(r, ks, now);
    var more := RemoveAll(r, ks + {k}, now);
  }

  lemma RemovedEntriesMore(r: Registry, ks: set<Key>, k: Key, now: Instant)
    requires k in r.entries && k !in ks
    ensures var entries := RemoveAll(r, ks, now).entries;
            && k in entries && entries[k] == r.entries[k]
            && RemoveAll(r, ks + {k}, now).entries == entries[k := RemovedEntry(r.entries[k], now)]
            && (r.entries[k].record.state == Removing ==> RemoveAll(r, ks + {k}, now).entries == entries)
  {
    var entries := RemoveAll(r, ks, now).entries;
    assert RemoveAll(r, ks + {k}, now).entries == entries[k := RemovedEntry(r.entries[k], now)];
  }

  lemma OneLess(all: set<Key>, todo: set<Key>, k: Key)
    requires todo <= all && k in todo
    ensures (all - todo) + {k} == all - (todo - {k})
  {
  }

  function MemberKeys(ms: seq<Member>): set<Key> { set m | m in ms :: m.key }

  lemma SyncMembersNext(r: Registry, ms: seq<Member>, i: nat, hash: Scope -> Text, now: Instant)
    requires i < |ms|
    ensures SyncMembers(r, ms[..i + 1], hash, now) == SyncMember(SyncMembers(r, ms[..i], hash, now), ms[i], hash, now)
    ensures MemberKeys(ms[..i + 1]) == MemberKeys(ms[..i]) + {ms[i].key}
  {
    assert ms[..i + 1] == ms[..i] + [ms[i]];
    assert ms[..i + 1][..i] == ms[..i];
  }

  function Absent(r: Registry, seen: set<Key>): set<Key> { r.entries.Keys - seen }

  function AfterSync(r: Registry, ms: seq<Member>, hash: Scope -> Text, now: Instant): Registry {
    var r1 := SyncMembers(r, ms, hash, now);
    RemoveAll(r1, Absent(r1, MemberKeys(ms)), now)
  }

  function AfterTakeScopeChanged(r: Registry, k: Key, generation: nat): (Registry, bool) {
    if !Current(r, k, generation) then (r, false)
    else (Install(r, k, r.entries[k].(scopeChanged := false), false), r.entries[k].scopeChanged)
  }

  function AfterBegin(r: Registry, k: Key, now: Instant): (Registry, Option<Hold>) {
    if k !in r.entries then
      var e := FreshEntry(r.nextId, k, now).(busy := true);
      (r.(entries := r.entries[k := e], nextId := r.nextId + 1), Some(Hold(k, e.id, 1)))
    else if r.entries[k].busy then (r, None)
    else (Install(r, k, r.entries[k].(busy := true), false),
          Some(Hold(k, r.entries[k].id, r.entries[k].record.generation)))
  }

  function AfterBeginDelete(r: Registry, k: Key): (Registry, Option<Hold>) {
    if k !in r.entries || r.entries[k].busy || r.entries[k].record.state != Removing then (r, None)
    else (Install(r, k, r.entries[k].(busy := true), false),
          Some(Hold(k, r.entries[k].id, r.entries[k].record.generation)))
  }

  // The release closure captured the entry object: an entry re-created under
  // the same key is a different object and keeps its own hold.
  function AfterRelease(r: Registry, h: Hold): Registry {
    if h.key in r.entries && r.entries[h.key].id == h.id then
      Install(r, h.key, r.entries[h.key].(busy := false), false)
    else r
  }

  function Allowed(r: Registry, k: Key, now: Instant): bool {
    k in r.entries ==> now >= r.entries[k].nextTry
  }

  function EnteredEntry(e: Entry, state: State, reason: Reason, now: Instant): Entry {
    var rec := Entered(e.record, state, reason, now);
    if state == Deploying then Scored(e, rec.(failStreak := 0), ZERO_TIME) else e.(record := rec)
  }

  function AfterEnter(r: Registry, k: Key, generation: nat, state: State, reason: Reason, now: Instant): Registry {
    if !Current(r, k, generation) then r
    else
      var e := r.entries[k];
      if e.record.state == Paused && (state == Discovering || state == Verifying) then r
      else
        var changed := e.record.state != state || e.record.reason != reason;
        Install(r, k, EnteredEntry(e, state, reason, now), changed && state != Discovering)
  }

  function ReadyEntry(e: Entry, endpoint: Endpoint, duration: int, now: Instant): Entry {
    e.(endpoint := Some(endpoint), record := Verified(e.record, duration, now),
       scopeChanged := false, nextTry := ZERO_TIME, serving := true)
  }

  function AfterReady(r: Registry, k: Key, generation: nat, endpoint: Endpoint, duration: int, now: Instant): Registry {
    if !Current(r, k, generation) then r
    else Install(r, k, ReadyEntry(r.entries[k], endpoint, duration, now), !r.entries[k].serving)
  }

  // A failed attempt of a relay that does not serve: label it failed unless it
  // is labelled already, and arm the gate.
  function AfterMiss(r: Registry, k: Key, rec: Record, now: Instant): Registry
    requires k in r.entries
  {
    var gate := Gate(r.cfg, rec.failStreak, r.readyCount, now);
    if rec.state == Unready || rec.state == Failed then Install(r, k, Scored(r.entries[k], rec, gate), false)
    else Install(r, k, Scored(r.entries[k], Relabelled(rec, Failed, now), gate), true)
  }

  // A serving relay loses admission: the gate sees the count without it.
  function AfterRevocation(r: Registry, k: Key, rec: Record, now: Instant): Registry
    requires k in r.entries
  {
    Install(r, k, Revoked(r.entries[k], Relabelled(rec, Unready, now),
                          Gate(r.cfg, rec.failStreak, r.readyCount - 1, now)), true)
  }

  // A missed verification, once counted in `rec`.
  function AfterMissed(r: Registry, k: Key, rec: Record, now: Instant): Registry
    requires k in r.entries
  {
    var e := r.entries[k];
    if !e.serving && rec.state == Paused then Install(r, k, Scored(e, rec, now + r.cfg.pauseRetry), false)
    else if !e.serving then AfterMiss(r, k, rec, now)
    else if rec.failStreak < r.cfg.demoteAfter then
      Install(r, k, Scored(e, rec, Gate(r.cfg, rec.failStreak, r.readyCount, now)), false)
    else AfterRevocation(r, k, rec, now)
  }

  function AfterFailing(r: Registry, k: Key, generation: nat, reason: Reason, duration: int, now: Instant): Registry {
    if !Current(r, k, generation) then r
    else AfterMissed(r, k, Missed(r.entries[k].record, reason, duration, now), now)
  }

  function AfterDemote(r: Registry, k: Key, generation: nat, reason: Reason, now: Instant): Registry {
    if !Current(r, k, generation) then r
    else
      var rec := Attempted(r.entries[k].record, reason, now).(failStreak := r.cfg.demoteAfter);
      if r.entries[k].serving then AfterRevocation(r, k, rec, now) else AfterMiss(r, k, rec, now)
  }

  function AfterPause(r: Registry, k: Key, generation: nat, reason: Reason, now: Instant): Registry {
    if !Current(r, k, generation) then r
    else
      var e := r.entries[k];
      var rec := Attempted(e.record, reason, now);
      var paused := if rec.state != Paused then Relabelled(rec, Paused, now) else rec;
      Install(r, k, Revoked(e, paused, now + r.cfg.pauseRetry), true)
  }

  function AfterDeferDrain(r: Registry, k: Key, generation: nat): Registry {
    if !Current(r, k, generation) then r
    else Install(r, k, r.entries[k].(record := r.entries[k].record.(drainPending := true)), false)
  }

  function AfterDrainCompleted(r: Registry, k: Key, generation: nat): Registry {
    if !Current(r, k, generation) then r
    else Install(r, k, r.entries[k].(record := r.entries[k].record.(drainPending := false)), false)
  }

  function AfterDeleteDone(r: Registry, k: Key, generation: nat): Registry {
    if !Current(r, k, generation) || r.entries[k].record.state != Removing then r
    else r.(entries := r.entries - {k}, notifySeq := r.notifySeq + 1)
  }

  function AfterDeleteFailed(r: Registry, k: Key, generation: nat, reason: Reason, now: Instant): Registry {
    if !Current(r, k, generation) || r.entries[k].record.state != Removing then r
    else
      var e := r.entries[k];
      var rec := e.record.(failStreak := e.record.failStreak + 1, reason := reason);
      Install(r, k, Scored(e, rec, Gate(r.cfg, rec.failStreak, r.readyCount, now)), false)
  }

  // The admissions the pool builder reads.
  function ServingKeys(entries: map<Key, Entry>): set<Key> {
    set k | k in entries && entries[k].serving
  }

  function AdmissionOf(e: Entry): Admission {
    Admission(e.endpoint, e.record.generation, e.scopeFP)
  }

  function Serving(r: Registry): map<Key, Admission> {
    map k | k in r.entries && r.entries[k].serving :: AdmissionOf(r.entries[k])
  }

  // One incarnation of a relay: the entry object and its generation.
  datatype Incarnation = Incarnation(id: nat, generation: nat)

  function IncarnationOf(e: Entry): Incarnation {
    Incarnation(e.id, e.record.generation)
  }

  // Serving keys with their incarnations: what a notification is owed for.
  function View(entries: map<Key, Entry>): map<Key, Incarnation> {
    map k | k in entries && entries[k].serving :: IncarnationOf(entries[k])
  }
}
