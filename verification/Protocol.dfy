// The drain-before-deploy protocol as a step system: reconciliation workers,
// the single applier of serving generations, and request attempts, interleaved
// at lock granularity. A label that is not enabled leaves the system as it is,
// so every sequence of labels is a run.
module Protocol {
  import opened Readiness

  // ------------------------------------------------------------------ state

  // What the applier reads from the registry in one critical section, with the
  // notification count and the length of the event log at that moment.
  datatype Snapshot = Snapshot(at: nat, logged: nat, members: map<Key, Admission>, ids: map<Key, nat>)

  // The serving generation: the pool and the snapshot it was built from.
  datatype Generation = Generation(snap: Snapshot, pool: map<Key, Admission>)

  // apply(): the count captured first, then the snapshot, then the swap.
  datatype Applier =
    | Waiting
    | Captured(counted: nat)
    | Built(counted: nat, snap: Snapshot)
    | Swapped(counted: nat)

  // A request under way: the admission it travels under, the entry object that
  // admission belongs to, and the log at the snapshot it was taken from.
  datatype Attempt = Attempt(key: Key, admission: Admission, id: nat, logged: nat)

  // The history the safety statements speak of.
  datatype Event =
    | Verdict(key: Key, id: nat, generation: nat, endpoint: Endpoint)
    | Revocation(keys: set<Key>)

  datatype Outcome = Passed | NoAnswer | SuspensionPage | NotWorker | StaleVersion | KeyRejected | BrokenTrip

  datatype Discovery = DiscoverError(reason: Reason) | Absent | Found(url: Text)

  datatype Pc =
    // ensureRelay
    | CheckGate | CheckState | TakeHold | Recheck | Resolve | ReadServing | ReadDrain | EnterDiscovering
    | Discover | NoteMissing | Probe | Judge
    // rollout
    | TakeMarker | Revoke | SettleTarget | SettleWait | Drain | MarkUnready | Defer | DrainDone
    | EnterDeploying | DeployCall | DeployActive | DeployFailing | VerifyNew | JudgeNew
    // runDeletes
    | DeleteGate | DeleteHold | DeleteTarget | DeleteWait | DeleteDrain | DeleteCall | DeleteActive
    | DeleteFinish | DeleteFail
    // both
    | ReleaseHold | Done

  // One worker goroutine. `mark` is the notification count at the moment its
  // relay was known not to serve; `began` and `drained` record that a rollout
  // started and that its barrier completed; `purged` that its delete took the
  // entry out of the registry.
  datatype Proc = Proc(
    key: Key, relayKey: Text, pc: Pc, id: nat, generation: nat,
    wasReady: bool, drainPending: bool, scopeChanged: bool,
    mark: nat, target: nat, url: Text, outcome: Outcome,
    began: bool, drained: bool, purged: bool)

  datatype System = System(
    reg: Registry, procs: map<nat, Proc>, applier: Applier, serving: Generation,
    applied: nat, shutting: bool, attempts: map<nat, Attempt>, inflight: map<Key, nat>,
    log: seq<Event>,
    // passes run one after the other: no Sync while a worker holds a relay
    sequential: bool)

  // What the environment supplies to one step.
  datatype Input = Input(
    now: Clock, duration: int, ok: bool, target: nat, discovery: Discovery, outcome: Outcome, url: Text)

  datatype Label =
    | Sync(members: seq<Member>, now: Clock)
    | SpawnEnsure(pid: nat, key: Key, relayKey: Text)
    | SpawnDelete(pid: nat, key: Key)
    | Work(pid: nat, input: Input)
    | Capture(counted: nat)
    | Configure(settings: RawSettings)
    | Build
    | Swap(malformed: set<Text>)
    | Publish
    | BeginAttempt(aid: nat, key: Key)
    | EndAttempt(aid: nat)
    | Shutdown

  // ------------------------------------------------------ in-flight counters

  function Count(inflight: map<Key, nat>, k: Key): nat {
    if k in inflight then inflight[k] else 0
  }

  function Begun(inflight: map<Key, nat>, k: Key): map<Key, nat> {
    inflight[k := Count(inflight, k) + 1]
  }

  function Ended(inflight: map<Key, nat>, k: Key): map<Key, nat> {
    if Count(inflight, k) == 0 then inflight else inflight[k := inflight[k] - 1]
  }

  // ------------------------------------------------------------ worker steps

  // The rollout starts with an obligation to drain.
  predicate Obliged(p: Proc) {
    p.wasReady || p.drainPending || p.scopeChanged
  }

  datatype Move = Move(p: Proc, reg: Registry, said: seq<Event>)

  function Goto(p: Proc, pc: Pc, r: Registry): Move {
    Move(p.(pc := pc), r, [])
  }

  predicate Removable(r: Registry, k: Key) {
    k !in r.entries || r.entries[k].record.state == Removing
  }

  function ReasonFor(o: Outcome): Reason {
    match o
    case NoAnswer => Unreachable
    case SuspensionPage => Suspended
    case NotWorker => Missing
    case StaleVersion => VersionFailed
    case KeyRejected => AuthFailed
    case BrokenTrip => ProbeFailed
    case Passed => ProbeFailed
  }

  function Said(p: Proc): seq<Event> {
    if p.outcome.Passed? then [Verdict(p.key, p.id, p.generation, Endpoint(p.url, p.relayKey))] else []
  }

  predicate EnsurePc(pc: Pc) {
    pc.CheckGate? || pc.CheckState? || pc.TakeHold? || pc.Recheck? || pc.Resolve? || pc.ReadServing?
    || pc.ReadDrain? || pc.EnterDiscovering? || pc.Discover? || pc.NoteMissing? || pc.Probe? || pc.Judge?
  }

  predicate BarrierPc(pc: Pc) {
    pc.TakeMarker? || pc.Revoke? || pc.SettleTarget? || pc.SettleWait? || pc.Drain? || pc.MarkUnready?
    || pc.Defer? || pc.DrainDone?
  }

  predicate DeployPc(pc: Pc) {
    pc.EnterDeploying? || pc.DeployCall? || pc.DeployActive? || pc.DeployFailing? || pc.VerifyNew? || pc.JudgeNew?
  }

  predicate DeletePc(pc: Pc) {
    pc.DeleteGate? || pc.DeleteHold? || pc.DeleteTarget? || pc.DeleteWait? || pc.DeleteDrain?
    || pc.DeleteCall? || pc.DeleteActive? || pc.DeleteFinish? || pc.DeleteFail?
  }

  // -- ensureRelay, up to the verdict on the deployment it found

  function CheckGateMove(r: Registry, p: Proc, i: Input): Move {
    Goto(p, if Allowed(r, p.key, i.now) then CheckState else Done, r)
  }

  function CheckStateMove(r: Registry, p: Proc): Move {
    Goto(p, if Removable(r, p.key) then Done else TakeHold, r)
  }

  function TakeHoldMove(r: Registry, p: Proc, i: Input): Move {
    var (r', hold) := AfterBegin(r, p.key, i.now);
    if hold.None? then Goto(p, Done, r)
    else Move(p.(pc := Recheck, id := hold.value.id, generation := hold.value.generation), r', [])
  }

  function RecheckMove(r: Registry, p: Proc): Move {
    Goto(p, if Removable(r, p.key) then ReleaseHold else Resolve, r)
  }

  // The worker gives up on this attempt.
  function FailMove(r: Registry, p: Proc, reason: Reason, duration: int, now: Clock): Move {
    Goto(p, ReleaseHold, AfterFailing(r, p.key, p.generation, reason, duration, now))
  }

  function ResolveMove(r: Registry, p: Proc, i: Input): Move {
    if i.ok then Goto(p, ReadServing, r) else FailMove(r, p, CredentialFailed, 0, i.now)
  }

  function ReadServingMove(r: Registry, p: Proc): Move {
    Goto(p.(wasReady := p.key in Serving(r)), ReadDrain, r)
  }

  function ReadDrainMove(r: Registry, p: Proc): Move {
    Goto(p.(drainPending := p.key in r.entries && r.entries[p.key].record.drainPending), EnterDiscovering, r)
  }

  function PhaseMove(r: Registry, p: Proc, state: State, reason: Reason, pc: Pc, now: Clock): Move {
    Goto(p, pc, AfterEnter(r, p.key, p.generation, state, reason, now))
  }

  function DiscoverMove(r: Registry, p: Proc, i: Input): Move {
    match i.discovery
    case DiscoverError(reason) => FailMove(r, p, reason, 0, i.now)
    case Absent => Goto(p, NoteMissing, r)
    case Found(url) => Goto(p.(url := url), Probe, r)
  }

  // A verification answers; its verdict is applied in a later step.
  function VerdictMove(r: Registry, p: Proc, pc: Pc, i: Input): Move {
    var p' := p.(pc := pc, outcome := i.outcome);
    Move(p', r, Said(p'))
  }

  function AdmitMove(r: Registry, p: Proc, i: Input): Move {
    Goto(p, ReleaseHold, AfterReady(r, p.key, p.generation, Endpoint(p.url, p.relayKey), i.duration, i.now))
  }

  function PauseMove(r: Registry, p: Proc, i: Input): Move {
    Goto(p, ReleaseHold, AfterPause(r, p.key, p.generation, Suspended, i.now))
  }

  function JudgeMove(r: Registry, p: Proc, i: Input): Move {
    match p.outcome
    case Passed => AdmitMove(r, p, i)
    case SuspensionPage => PauseMove(r, p, i)
    case NoAnswer => FailMove(r, p, Unreachable, i.duration, i.now)
    case BrokenTrip => FailMove(r, p, ProbeFailed, i.duration, i.now)
    case _ => Goto(p, TakeMarker, r)
  }

  // -- rollout, up to the deploy call

  function TakeMarkerMove(r: Registry, p: Proc): Move {
    var (r', changed) := AfterTakeScopeChanged(r, p.key, p.generation);
    Move(p.(pc := Revoke, scopeChanged := changed, began := true), r', [])
  }

  function RevokeMove(r: Registry, p: Proc, i: Input): Move {
    var r' := if p.wasReady then AfterDemote(r, p.key, p.generation, Replacing, i.now) else r;
    Move(p.(pc := if Obliged(p) then SettleTarget else EnterDeploying, mark := r'.notifySeq), r', [])
  }

  // An atomic read of the counter: no older than this worker's own last step.
  function TargetMove(r: Registry, p: Proc, pc: Pc, i: Input): Move {
    if p.mark <= i.target <= r.notifySeq then Goto(p.(target := i.target), pc, r) else Goto(p, p.pc, r)
  }

  function SettleMove(s: System, p: Proc, onSettled: Pc, onShutdown: Pc): Move {
    Goto(p, if s.applied >= p.target then onSettled else if s.shutting then onShutdown else p.pc, s.reg)
  }

  // AwaitIdle: the count reached zero, or the wait was cut short.
  function DrainMove(s: System, p: Proc, onIdle: Pc, onTimeout: Pc, i: Input): Move {
    Goto(p, if !i.ok then onTimeout else if Count(s.inflight, p.key) == 0 then onIdle else p.pc, s.reg)
  }

  function DeferMove(r: Registry, p: Proc): Move {
    Goto(p, ReleaseHold, AfterDeferDrain(r, p.key, p.generation))
  }

  function DrainDoneMove(r: Registry, p: Proc): Move {
    Goto(p.(drained := true), EnterDeploying, AfterDrainCompleted(r, p.key, p.generation))
  }

  // -- the deploy call and what follows it

  function DeployEndMove(r: Registry, p: Proc, i: Input): Move {
    if i.ok then Goto(p.(url := i.url), VerifyNew, r) else Goto(p, DeployFailing, r)
  }

  function JudgeNewMove(r: Registry, p: Proc, i: Input): Move {
    match p.outcome
    case Passed => AdmitMove(r, p, i)
    case SuspensionPage => PauseMove(r, p, i)
    case o => Goto(p, ReleaseHold, AfterDemote(r, p.key, p.generation, ReasonFor(o), i.now))
  }

  // -- one delete of runDeletes

  function DeleteGateMove(r: Registry, p: Proc, i: Input): Move {
    Goto(p, if Allowed(r, p.key, i.now) then DeleteHold else Done, r)
  }

  function DeleteHoldMove(r: Registry, p: Proc): Move {
    var (r', hold) := AfterBeginDelete(r, p.key);
    if hold.None? then Goto(p, Done, r)
    else Move(p.(pc := DeleteTarget, id := hold.value.id, generation := hold.value.generation,
                 mark := r'.notifySeq), r', [])
  }

  // No credential on record: drop it; no client: retry later; else call.
  function DeleteCallMove(r: Registry, p: Proc, i: Input): Move {
    match i.discovery
    case Absent => Goto(p, DeleteFinish, r)
    case DiscoverError(_) => Goto(p, DeleteFail, r)
    case Found(_) => Goto(p, DeleteActive, r)
  }

  function DeleteFinishMove(r: Registry, p: Proc): Move {
    var gone := Current(r, p.key, p.generation) && r.entries[p.key].record.state == Removing;
    Move(p.(pc := ReleaseHold, purged := gone), AfterDeleteDone(r, p.key, p.generation), [])
  }

  function DeleteFailMove(r: Registry, p: Proc, i: Input): Move {
    Goto(p, ReleaseHold, AfterDeleteFailed(r, p.key, p.generation, Detail(i.url), i.now))
  }

  function ReleaseMove(r: Registry, p: Proc): Move {
    Goto(p, Done, AfterRelease(r, Hold(p.key, p.id, p.generation)))
  }

  function WorkerMove(s: System, p: Proc, i: Input): Move {
    var r := s.reg;
    match p.pc
    case CheckGate => CheckGateMove(r, p, i)
    case CheckState => CheckStateMove(r, p)
    case TakeHold => TakeHoldMove(r, p, i)
    case Recheck => RecheckMove(r, p)
    case Resolve => ResolveMove(r, p, i)
    case ReadServing => ReadServingMove(r, p)
    case ReadDrain => ReadDrainMove(r, p)
    case EnterDiscovering => PhaseMove(r, p, Discovering, NoReason, Discover, i.now)
    case Discover => DiscoverMove(r, p, i)
    case NoteMissing => PhaseMove(r, p, Discovered, Missing, TakeMarker, i.now)
    case Probe => VerdictMove(r, p, Judge, i)
    case Judge => JudgeMove(r, p, i)
    case TakeMarker => TakeMarkerMove(r, p)
    case Revoke => RevokeMove(r, p, i)
    case SettleTarget => TargetMove(r, p, SettleWait, i)
    case SettleWait => SettleMove(s, p, Drain, Defer)
    case Drain => DrainMove(s, p, DrainDone, MarkUnready, i)
    case MarkUnready => PhaseMove(r, p, Unready, Replacing, Defer, i.now)
    case Defer => DeferMove(r, p)
    case DrainDone => DrainDoneMove(r, p)
    case EnterDeploying => PhaseMove(r, p, Deploying, NoReason, DeployCall, i.now)
    case DeployCall => Goto(p, DeployActive, r)
    case DeployActive => DeployEndMove(r, p, i)
    case DeployFailing => FailMove(r, p, DeployFailed, 0, i.now)
    case VerifyNew => VerdictMove(r, p, JudgeNew, i)
    case JudgeNew => JudgeNewMove(r, p, i)
    case DeleteGate => DeleteGateMove(r, p, i)
    case DeleteHold => DeleteHoldMove(r, p)
    case DeleteTarget => TargetMove(r, p, DeleteWait, i)
    case DeleteWait => SettleMove(s, p, DeleteDrain, ReleaseHold)
    case DeleteDrain => DrainMove(s, p, DeleteCall, DeleteFail, i)
    case DeleteCall => DeleteCallMove(r, p, i)
    case DeleteActive => Goto(p, if i.ok then DeleteFinish else DeleteFail, r)
    case DeleteFinish => DeleteFinishMove(r, p)
    case DeleteFail => DeleteFailMove(r, p, i)
    case ReleaseHold => ReleaseMove(r, p)
    case Done => Goto(p, Done, r)
  }

  // ------------------------------------------------------------ system steps

  // The relay goes on in the same incarnation, with the admission it had.
  predicate Continues(r: Registry, r': Registry, k: Key)
    requires k in r.entries
  {
    && k in r'.entries
    && IncarnationOf(r'.entries[k]) == IncarnationOf(r.entries[k])
    && (r.entries[k].serving ==> r'.entries[k].serving)
  }

  // The keys whose admission or incarnation ends from one registry to the next:
  // revoked, removed, re-added, flipped or purged.
  function Lost(r: Registry, r': Registry): set<Key> {
    set k | k in r.entries && !Continues(r, r', k)
  }

  function Recorded(s: System, r: Registry, said: seq<Event>): System {
    s.(reg := r, log := s.log + said + [Revocation(Lost(s.reg, r))])
  }

  function Committed(s: System, pid: nat, m: Move): System {
    Recorded(s, m.reg, m.said).(procs := s.procs[pid := m.p])
  }

  predicate Holding(p: Proc) {
    !(p.pc.CheckGate? || p.pc.CheckState? || p.pc.TakeHold? || p.pc.DeleteGate? || p.pc.DeleteHold? || p.pc.Done?)
    && !p.purged
  }

  predicate Idle(s: System) {
    forall pid | pid in s.procs :: !Holding(s.procs[pid])
  }

  function Fresh(k: Key, relayKey: Text, pc: Pc): Proc {
    Proc(k, relayKey, pc, 0, 0, false, false, false, 0, 0, relayKey, NoAnswer, false, false, false)
  }

  function Spawned(s: System, pid: nat, p: Proc): System {
    if pid in s.procs && !s.procs[pid].pc.Done? then s else s.(procs := s.procs[pid := p])
  }

  // One critical section's reading of the registry.
  function SnapshotOf(s: System): Snapshot {
    Snapshot(s.reg.notifySeq, |s.log|, Serving(s.reg),
             map k | k in s.reg.entries && s.reg.entries[k].serving :: s.reg.entries[k].id)
  }

  function IdIn(snap: Snapshot, k: Key): nat {
    if k in snap.ids then snap.ids[k] else 0
  }

  function AttemptOn(g: Generation, k: Key): Attempt
    requires k in g.pool
  {
    Attempt(k, g.pool[k], IdIn(g.snap, k), g.snap.logged)
  }

  function PoolOf(members: map<Key, Admission>, malformed: set<Text>): map<Key, Admission> {
    map k | k in members && !(members[k].endpoint.Some? && members[k].endpoint.value.url in malformed) :: members[k]
  }

  function Step(s: System, l: Label, hash: Scope -> Text): System {
    match l
    case Sync(ms, now) =>
      if s.sequential && !Idle(s) then s else Recorded(s, AfterSync(s.reg, ms, hash, now), [])
    case SpawnEnsure(pid, k, relayKey) => Spawned(s, pid, Fresh(k, relayKey, CheckGate))
    case SpawnDelete(pid, k) => Spawned(s, pid, Fresh(k, "", DeleteGate))
    case Work(pid, i) => if pid in s.procs then Committed(s, pid, WorkerMove(s, s.procs[pid], i)) else s
    case Capture(n) =>
      // an atomic read, possibly in the middle of a Sync: any count up to now
      if s.applier.Waiting? && n <= s.reg.notifySeq then s.(applier := Captured(n)) else s
    case Configure(raw) =>
      if s.applier.Captured? then Recorded(s, AfterUpdateSettings(s.reg, raw), []) else s
    case Build =>
      if s.applier.Captured? then
        s.(applier := Built(s.applier.counted, SnapshotOf(s)))
      else s
    case Swap(malformed) =>
      if s.applier.Built? then
        s.(serving := Generation(s.applier.snap, PoolOf(s.applier.snap.members, malformed)),
           applier := Swapped(s.applier.counted))
      else s
    case Publish =>
      if s.applier.Swapped? then
        s.(applied := if s.applier.counted > s.applied then s.applier.counted else s.applied, applier := Waiting)
      else s
    case BeginAttempt(aid, k) =>
      if aid !in s.attempts && k in s.serving.pool then
        s.(attempts := s.attempts[aid := AttemptOn(s.serving, k)], inflight := Begun(s.inflight, k))
      else s
    case EndAttempt(aid) =>
      if aid in s.attempts then
        s.(attempts := s.attempts - {aid}, inflight := Ended(s.inflight, s.attempts[aid].key))
      else s
    case Shutdown => s.(shutting := true)
  }

  function Start(raw: RawSettings, sequential: bool): System {
    System(NewRegistry(raw), map[], Waiting, Generation(Snapshot(0, 0, map[], map[]), map[]), 0, false, map[], map[],
           [], sequential)
  }

  function Run(s: System, ls: seq<Label>, hash: Scope -> Text): System {
    if ls == [] then s else Step(Run(s, ls[..|ls| - 1], hash), ls[|ls| - 1], hash)
  }
}
