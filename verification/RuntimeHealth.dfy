// Runtime health that outlives serving generations: failure streaks and
// cooldowns per endpoint, their attachment to relay identities, and the
// rotation cursors.
module RuntimeHealth {
  import opened Readiness
  import opened Rotation

  // ------------------------------------------------------ one relay's health

  datatype Health = Health(requests: nat, failures: nat, midstream: nat, consecFails: nat,
                           downUntil: Option<Instant>, lastErr: Text)

  const CLEAN := Health(0, 0, 0, 0, None, "")

  // A finished attempt as passive health sees it.
  datatype Mark = Completed | Failure(error: Text, at: Instant)

  function AfterSuccess(h: Health): Health {
    h.(consecFails := 0, downUntil := None, lastErr := "")
  }

  function AfterFailure(h: Health, error: Text, threshold: Streak, cooldown: int, now: Instant): Health {
    var h' := h.(failures := h.failures + 1, consecFails := h.consecFails + 1, lastErr := error);
    if h'.consecFails >= threshold then h'.(downUntil := Some(now + cooldown), consecFails := 0) else h'
  }

  function AfterMarks(marks: seq<Mark>, threshold: Streak, cooldown: int): Health {
    if marks == [] then CLEAN
    else
      var h := AfterMarks(marks[..|marks| - 1], threshold, cooldown);
      match marks[|marks| - 1]
      case Completed => AfterSuccess(h)
      case Failure(error, at) => AfterFailure(h, error, threshold, cooldown, at)
  }

  // When the failures since the last completed response happened.
  function FailuresSinceSuccess(marks: seq<Mark>): seq<Instant> {
    if marks == [] then []
    else match marks[|marks| - 1]
      case Completed => []
      case Failure(_, at) => FailuresSinceSuccess(marks[..|marks| - 1]) + [at]
  }

  // f more than a multiple of t, counted one further.
  lemma DivNext(f: nat, t: nat)
    requires t > 0
    ensures if f % t + 1 == t then (f + 1) % t == 0 && (f + 1) / t * t == f + 1
            else (f + 1) % t == f % t + 1 && (f + 1) / t * t == f / t * t
  {
    var q, r := f / t, f % t;
    assert f == t * q + r;
    if r + 1 == t {
      assert t * (q + 1) == t * q + t;
      Remainder(f + 1, t, q + 1, 0);
      assert f + 1 == t * ((f + 1) / t) + (f + 1) % t;
    } else {
      Remainder(f + 1, t, q, r + 1);
      assert f + 1 == t * ((f + 1) / t) + (f + 1) % t;
    }
  }

  // The latest failure that completed a run of `threshold`, if any.
  function LastTrip(times: seq<Instant>, threshold: Streak): (n: nat)
    ensures n <= |times|
  {
    assert |times| == threshold * (|times| / threshold) + |times| % threshold;
    |times| / threshold * threshold
  }

  // Passive health in closed form: the streak is the failures since the last
  // completed response, modulo the threshold, and the cooldown runs from the
  // latest of them that was a multiple of it.
  lemma {:induction false} HealthClosedForm(marks: seq<Mark>, threshold: Streak, cooldown: int)
    ensures var h, times := AfterMarks(marks, threshold, cooldown), FailuresSinceSuccess(marks);
            var trip := LastTrip(times, threshold);
            && h.consecFails == |times| % threshold
            && h.downUntil == if trip == 0 then None else Some(times[trip - 1] + cooldown)
  {
    if marks != [] {
      var front := marks[..|marks| - 1];
      HealthClosedForm(front, threshold, cooldown);
      if marks[|marks| - 1].Failure? {
        DivNext(|FailuresSinceSuccess(front)|, threshold);
      } else {
        assert LastTrip([], threshold) == 0;
      }
    }
  }

  function FailuresIn(marks: seq<Mark>): nat {
    if marks == [] then 0 else FailuresIn(marks[..|marks| - 1]) + if marks[|marks| - 1].Failure? then 1 else 0
  }

  // The failure total never resets; the last error is that of the latest
  // failure, and none once a response completed.
  lemma {:induction false} TotalsExact(marks: seq<Mark>, threshold: Streak, cooldown: int)
    ensures var h := AfterMarks(marks, threshold, cooldown);
            && h.failures == FailuresIn(marks)
            && h.lastErr == if marks != [] && marks[|marks| - 1].Failure? then marks[|marks| - 1].error else ""
  {
    if marks != [] {
      TotalsExact(marks[..|marks| - 1], threshold, cooldown);
    }
  }

  // The relay is up at `now`, by its history: no failure since its last
  // completed response completed a run of `threshold`, or the latest that did
  // is more than a cooldown ago.
  predicate Up(marks: seq<Mark>, threshold: Streak, cooldown: int, now: Instant) {
    var times := FailuresSinceSuccess(marks);
    var trip := LastTrip(times, threshold);
    trip == 0 || now > times[trip - 1] + cooldown
  }

  // That is what the relay's record answers.
  lemma HealthyExactly(rs: RelayState, marks: seq<Mark>, threshold: Streak, cooldown: int, now: Instant)
    requires rs.Value() == AfterMarks(marks, threshold, cooldown)
    ensures rs.Healthy(now) <==> Up(marks, threshold, cooldown, now)
  {
    HealthClosedForm(marks, threshold, cooldown);
    assert rs.Value().downUntil == rs.downUntil;
  }

  class RelayState {
    ghost const serial: nat
    var requests: nat
    var failures: nat
    var midstream: nat
    var consecFails: nat
    var downUntil: Option<Instant>
    var lastErr: Text

    ghost function Value(): Health
      reads this
    {
      Health(requests, failures, midstream, consecFails, downUntil, lastErr)
    }

    constructor (ghost serial: nat)
      ensures this.serial == serial && Value() == CLEAN
    {
      this.serial := serial;
      requests, failures, midstream, consecFails, downUntil, lastErr := 0, 0, 0, 0, None, "";
    }

    function Healthy(now: Instant): bool
      reads this
    {
      downUntil.None? || now > downUntil.value
    }

    method RecordSuccess()
      modifies this
      ensures Value() == AfterSuccess(old(Value()))
    {
      consecFails := 0;
      downUntil := None;
      lastErr := "";
    }

    method RecordFailure(error: Text, threshold: Streak, cooldown: int, now: Instant)
      modifies this
      ensures Value() == AfterFailure(old(Value()), error, threshold, cooldown, now)
    {
      failures := failures + 1;
      consecFails := consecFails + 1;
      lastErr := error;
      if consecFails >= threshold {
        downUntil := Some(now + cooldown);
        consecFails := 0;
      }
    }
  }

  // ------------------------------------------------- attachment to identities

  datatype RuntimeKey = RuntimeKey(provider: Text, name: Text, scopeFP: Text, url: Text, tokenFP: Text)

  function Identity(k: RuntimeKey): Text {
    k.provider + "/" + k.name
  }

  // The abstract content: per identity the endpoint it serves from and which
  // health record belongs to it; `made` records were created so far.
  datatype Table = Table(owned: map<Text, (RuntimeKey, nat)>, made: nat)

  function Attached(t: Table, k: RuntimeKey): (Table, nat) {
    var id := Identity(k);
    if id in t.owned && t.owned[id].0 == k then (t, t.owned[id].1)
    else (Table(t.owned[id := (k, t.made)], t.made + 1), t.made)
  }

  function Pruned(t: Table, desired: set<Text>): Table {
    t.(owned := map id | id in t.owned && id in desired :: t.owned[id])
  }

  datatype TableOp = Attach(key: RuntimeKey) | Prune(desired: set<Text>)

  function AfterOp(t: Table, op: TableOp): Table {
    match op
    case Attach(k) => Attached(t, k).0
    case Prune(desired) => Pruned(t, desired)
  }

  function AfterOps(t: Table, ops: seq<TableOp>): Table {
    if ops == [] then t else AfterOp(AfterOps(t, ops[..|ops| - 1]), ops[|ops| - 1])
  }

  // The endpoint changed, or the identity left the configuration.
  predicate Disturbs(op: TableOp, k: RuntimeKey) {
    match op
    case Attach(j) => Identity(j) == Identity(k) && j != k
    case Prune(desired) => Identity(k) !in desired
  }

  predicate Undisturbed(ops: seq<TableOp>, k: RuntimeKey) {
    forall i | 0 <= i < |ops| :: !Disturbs(ops[i], k)
  }

  // A record handed out for an endpoint is the one attached to it as long as
  // nothing disturbs the identity, and is gone for good after that.
  lemma {:induction false} RecordFate(t: Table, k: RuntimeKey, h: nat, ops: seq<TableOp>)
    requires Identity(k) in t.owned && t.owned[Identity(k)] == (k, h) && h < t.made
    ensures var t', id := AfterOps(t, ops), Identity(k);
            && h < t'.made
            && (Undisturbed(ops, k) ==> id in t'.owned && t'.owned[id] == (k, h))
            && (!Undisturbed(ops, k) ==> id in t'.owned ==> t'.owned[id].1 != h)
  {
    if ops != [] {
      var front, op := ops[..|ops| - 1], ops[|ops| - 1];
      RecordFate(t, k, h, front);
      UndisturbedNext(front, op, k);
      assert ops == front + [op];
    }
  }

  lemma UndisturbedNext(front: seq<TableOp>, op: TableOp, k: RuntimeKey)
    ensures Undisturbed(front + [op], k) <==> Undisturbed(front, k) && !Disturbs(op, k)
  {
    assert forall i | 0 <= i < |front| :: (front + [op])[i] == front[i];
    assert (front + [op])[|front|] == op;
  }

  // Health is re-attached if and only if the endpoint key is unchanged and the
  // identity stayed desired throughout; otherwise a new record is made.
  lemma ReattachedExactly(t: Table, k: RuntimeKey, ops: seq<TableOp>)
    requires forall id | id in t.owned :: t.owned[id].1 < t.made
    ensures var (t1, h) := Attached(t, k);
            Attached(AfterOps(t1, ops), k).1 == h <==> Undisturbed(ops, k)
  {
    var (t1, h) := Attached(t, k);
    RecordFate(t1, k, h, ops);
  }

  // provider of "provider/name": everything before the first slash.
  function Provider(id: Text): (p: Text)
    ensures |p| <= |id| && p == id[..|p|]
  {
    if id == "" || id[0] == '/' then "" else [id[0]] + Provider(id[1..])
  }

  lemma {:induction false} ProviderOfIdentity(p: Text, name: Text)
    requires '/' !in p
    ensures Provider(p + "/" + name) == p
  {
    var id := p + "/" + name;
    if p != "" {
      assert id[1..] == p[1..] + "/" + name;
      ProviderOfIdentity(p[1..], name);
    }
  }

  const ALL: Text := "all"

  function Providers(desired: set<Text>): set<Text> {
    set id | id in desired :: Provider(id)
  }

  // The cursors that can still occur.
  function KeptCursors(rr: map<Text, nat>, desired: set<Text>): map<Text, nat> {
    map sel | sel in rr && (sel == ALL || sel in Providers(desired)) :: rr[sel]
  }

  // The desired identities as the program writes them.
  function IdentitiesOf(keys: set<Key>): set<Text> {
    set k | k in keys :: k.provider + "/" + k.name
  }

  // A cursor is kept exactly when it is the shared one or its provider still
  // has a desired relay, and then at its position.
  lemma CursorsKept(rr: map<Text, nat>, keys: set<Key>, sel: Text)
    requires forall k | k in keys :: '/' !in k.provider
    ensures var kept := KeptCursors(rr, IdentitiesOf(keys));
            && (sel in kept <==> sel in rr && (sel == "all" || exists k | k in keys :: k.provider == sel))
            && (sel in kept ==> kept[sel] == rr[sel])
  {
    forall k | k in keys
      ensures Provider(k.provider + "/" + k.name) == k.provider
      ensures k.provider + "/" + k.name in IdentitiesOf(keys)
    {
      ProviderOfIdentity(k.provider, k.name);
    }
  }

  // Entries and owners are in bijection.
  ghost predicate Bijective(entries: map<RuntimeKey, RelayState>, owners: map<Text, RuntimeKey>, made: nat) {
    && (forall k | k in entries ::
          Identity(k) in owners && owners[Identity(k)] == k && entries[k].serial < made)
    && (forall id | id in owners :: Identity(owners[id]) == id && owners[id] in entries)
  }

  ghost function TableOf(entries: map<RuntimeKey, RelayState>, owners: map<Text, RuntimeKey>, made: nat): Table
    requires Bijective(entries, owners, made)
  {
    Table(map id | id in owners :: (owners[id], entries[owners[id]].serial), made)
  }

  // An identity's earlier endpoint gives way.
  function Displaced(entries: map<RuntimeKey, RelayState>, owners: map<Text, RuntimeKey>, k: RuntimeKey)
    : map<RuntimeKey, RelayState>
  {
    if Identity(k) in owners && owners[Identity(k)] != k then entries - {owners[Identity(k)]} else entries
  }

  lemma Refound(entries: map<RuntimeKey, RelayState>, owners: map<Text, RuntimeKey>, made: nat, k: RuntimeKey)
    requires Bijective(entries, owners, made) && k in Displaced(entries, owners, k)
    ensures Displaced(entries, owners, k) == entries && k in entries && owners[Identity(k) := k] == owners
    ensures Attached(TableOf(entries, owners, made), k) == (TableOf(entries, owners, made), entries[k].serial)
  {
  }

  lemma RenewedOwners(entries: map<RuntimeKey, RelayState>, owners: map<Text, RuntimeKey>, made: nat, k: RuntimeKey,
                      rs: RelayState)
    requires Bijective(entries, owners, made) && k !in Displaced(entries, owners, k) && rs.serial == made
    ensures k !in entries
    ensures Bijective(Displaced(entries, owners, k)[k := rs], owners[Identity(k) := k], made + 1)
  {
  }

  lemma Renewed(entries: map<RuntimeKey, RelayState>, owners: map<Text, RuntimeKey>, made: nat, k: RuntimeKey,
                rs: RelayState)
    requires Bijective(entries, owners, made) && k !in Displaced(entries, owners, k) && rs.serial == made
    ensures var entries', owners' := Displaced(entries, owners, k)[k := rs], owners[Identity(k) := k];
            && k !in entries
            && Bijective(entries', owners', made + 1)
            && (TableOf(entries', owners', made + 1), made) == Attached(TableOf(entries, owners, made), k)
  {
    var entries', owners' := Displaced(entries, owners, k)[k := rs], owners[Identity(k) := k];
    RenewedOwners(entries, owners, made, k, rs);
    assert TableOf(entries', owners', made + 1).owned
        == TableOf(entries, owners, made).owned[Identity(k) := (k, made)];
  }

  lemma DropKeeps(entries: map<RuntimeKey, RelayState>, owners: map<Text, RuntimeKey>, made: nat, k: RuntimeKey)
    requires Bijective(entries, owners, made) && k in entries
    ensures Bijective(entries - {k}, owners - {Identity(k)}, made)
  {
  }

  lemma OwnerOf(entries: map<RuntimeKey, RelayState>, owners: map<Text, RuntimeKey>, made: nat, k: RuntimeKey)
    requires Bijective(entries, owners, made) && k in entries
    ensures Identity(k) in owners && owners[Identity(k)] == k
  {
  }

  lemma PrunedTable(entries: map<RuntimeKey, RelayState>, owners: map<Text, RuntimeKey>, made: nat,
                    entries': map<RuntimeKey, RelayState>, owners': map<Text, RuntimeKey>, desired: set<Text>)
    requires Bijective(entries, owners, made) && Bijective(entries', owners', made)
    requires forall k | k in entries' :: k in entries && entries'[k] == entries[k]
    requires forall k | k in entries :: k in entries' <==> Identity(k) in desired
    ensures TableOf(entries', owners', made) == Pruned(TableOf(entries, owners, made), desired)
  {
    var t, t' := TableOf(entries, owners, made), TableOf(entries', owners', made);
    forall id
      ensures id in t'.owned <==> id in t.owned && id in desired
      ensures id in t'.owned ==> id in t.owned && t'.owned[id] == t.owned[id]
    {
      if id in owners {
        assert owners[id] in entries && Identity(owners[id]) == id;
      }
      if id in owners' {
        assert owners'[id] in entries' && Identity(owners'[id]) == id;
      }
    }
  }

  class RuntimeState {
    var entries: map<RuntimeKey, RelayState>
    var owners: map<Text, RuntimeKey>
    var rr: map<Text, nat>
    ghost var made: nat

    ghost predicate Valid()
      reads this
    {
      Bijective(entries, owners, made)
    }

    ghost function Contents(): Table
      reads this
      requires Valid()
    {
      TableOf(entries, owners, made)
    }

    constructor ()
      ensures Valid() && Contents() == Table(map[], 0) && rr == map[]
    {
      entries, owners, rr, made := map[], map[], map[], 0;
    }

    // The record of k: the one it had, or a clean one. No record is rewritten.
    method Attach(k: RuntimeKey) returns (rs: RelayState)
      requires Valid()
      modifies this
      ensures Valid() && (Contents(), rs.serial) == Attached(old(Contents()), k)
      ensures k in entries && rs == entries[k]
      ensures if k in old(entries) then rs == old(entries[k]) else fresh(rs) && rs.Value() == CLEAN
      ensures rr == old(rr)
    {
      hide Bijective, TableOf, Attached;
      ghost var before, owned := entries, owners;
      var id := Identity(k);
      if id in owners && owners[id] != k {
        entries := entries - {owners[id]};
      }
      if k in entries {
        Refound(before, owned, made, k);
        rs := entries[k];
      } else {
        rs := new RelayState(made);
        Renewed(before, owned, made, k, rs);
        entries := entries[k := rs];
        made := made + 1;
      }
      owners := owners[id := k];
    }

    // Drop what left the configuration, one entry after the other.
    method Prune(desired: set<Text>)
      requires Valid()
      modifies this
      ensures Valid() && Contents() == Pruned(old(Contents()), desired)
      ensures rr == KeptCursors(old(rr), desired)
    {
      hide TableOf, Pruned, KeptCursors;
      ghost var before, owned := entries, owners;
      DropEntries(desired);
      PrunedTable(before, owned, made, entries, owners, desired);
      DropCursors(desired);
    }

    method DropEntries(desired: set<Text>)
      requires Valid()
      modifies this`entries, this`owners
      ensures Valid()
      ensures forall k | k in entries :: k in old(entries) && entries[k] == old(entries[k])
      ensures forall k | k in old(entries) :: k in entries <==> Identity(k) in desired
    {
      hide Bijective;
      var todo := entries.Keys;
      while todo != {}
        invariant Valid() && todo <= entries.Keys
        invariant forall k | k in entries :: k in old(entries) && entries[k] == old(entries[k])
        invariant forall k | k in old(entries) :: k in entries <==> (k in todo || Identity(k) in desired)
        decreases |todo|
      {
        var k :| k in todo;
        todo := todo - {k};
        if Identity(k) !in desired {
          DropKeeps(entries, owners, made, k);
          OwnerOf(entries, owners, made, k);
          entries := entries - {k};
          if Identity(k) in owners && owners[Identity(k)] == k {
            owners := owners - {Identity(k)};
          }
        }
      }
    }

    method DropCursors(desired: set<Text>)
      modifies this`rr
      ensures rr == KeptCursors(old(rr), desired)
    {
      var providers := Providers(desired);
      var todo := rr.Keys;
      while todo != {}
        invariant todo <= rr.Keys <= old(rr.Keys)
        invariant forall sel | sel in rr :: rr[sel] == old(rr[sel])
        invariant forall sel | sel in old(rr) :: sel in rr <==> (sel in todo || sel == ALL || sel in providers)
        decreases |todo|
      {
        var sel :| sel in todo;
        todo := todo - {sel};
        if !(sel == ALL || sel in providers) {
          rr := rr - {sel};
        }
      }
    }

    // The next position among n candidates.
    method CursorFor(key: Text, n: nat) returns (i: nat)
      requires n > 0
      modifies this`rr
      ensures (i, rr) == Turned(old(rr), key, n)
    {
      i := (if key in rr then rr[key] else 0) % n;
      rr := rr[key := i + 1];
    }
  }

  // ------------------------------------------------------- rotation cursors

  function Cursor(rr: map<Text, nat>, key: Text): nat {
    if key in rr then rr[key] else 0
  }

  function Turned(rr: map<Text, nat>, key: Text, n: nat): (nat, map<Text, nat>)
    requires n > 0
  {
    var i := Cursor(rr, key) % n;
    (i, rr[key := i + 1])
  }

  // Picks on any selector, over a candidate list of n relays, and prunes.
  datatype CursorOp = Turn(key: Text, n: nat) | Drop(desired: set<Text>)

  function CursorsAfter(rr: map<Text, nat>, ops: seq<CursorOp>): map<Text, nat> {
    if ops == [] then rr
    else
      var before := CursorsAfter(rr, ops[..|ops| - 1]);
      match ops[|ops| - 1]
      case Turn(key, n) => if n == 0 then before else Turned(before, key, n).1
      case Drop(desired) => KeptCursors(before, desired)
  }

  // The positions picks on `key` were given.
  function Positions(rr: map<Text, nat>, ops: seq<CursorOp>, key: Text): seq<nat> {
    if ops == [] then []
    else
      var front, op := ops[..|ops| - 1], ops[|ops| - 1];
      var before := Positions(rr, front, key);
      if op.Turn? && op.key == key && op.n > 0 then
        before + [Turned(CursorsAfter(rr, front), key, op.n).0]
      else before
  }

  // key's candidate list stays n long and its cursor is never pruned; what
  // happens on other selectors is arbitrary.
  predicate Stable(ops: seq<CursorOp>, key: Text, n: nat) {
    forall i | 0 <= i < |ops| ::
      match ops[i]
      case Turn(j, m) => j == key ==> m == n
      case Drop(desired) => key == ALL || key in Providers(desired)
  }

  // Rotation: the picks of one selector meet consecutive positions, whatever
  // is picked on other selectors and however often the pool is rebuilt.
  lemma {:induction false} ConsecutivePositions(rr: map<Text, nat>, ops: seq<CursorOp>, key: Text, n: nat)
    requires n > 0 && Stable(ops, key, n)
    ensures var got, start := Positions(rr, ops, key), Cursor(rr, key);
            && (forall j | 0 <= j < |got| :: got[j] == Slot(start, j, n))
            && (if got == [] then Cursor(CursorsAfter(rr, ops), key) == start
                else Cursor(CursorsAfter(rr, ops), key) == Slot(start, |got| - 1, n) + 1)
  {
    if ops != [] {
      var front, op := ops[..|ops| - 1], ops[|ops| - 1];
      assert Stable(front, key, n) by {
        assert forall i | 0 <= i < |front| :: front[i] == ops[i];
      }
      ConsecutivePositions(rr, front, key, n);
      var got, start := Positions(rr, front, key), Cursor(rr, key);
      assert ops[|ops| - 1] == op;
      if op.Turn? && op.key == key {
        if got != [] {
          SlotNext(start, |got| - 1, n);
          NextPosition(Slot(start, |got| - 1, n), n);
        }
      }
    }
  }

  lemma NextPosition(slot: nat, n: nat)
    requires slot < n
    ensures (slot + 1) % n == if slot + 1 == n then 0 else slot + 1
  {
    if slot + 1 == n {
      Remainder(slot + 1, n, 1, 0);
    } else {
      Remainder(slot + 1, n, 0, slot + 1);
    }
  }

  function CountOf(xs: seq<nat>, x: nat): nat {
    if xs == [] then 0 else CountOf(xs[..|xs| - 1], x) + if xs[|xs| - 1] == x then 1 else 0
  }

  lemma {:induction false} CountIsHits(xs: seq<nat>, start: nat, n: nat, x: nat)
    requires n > 0 && forall j | 0 <= j < |xs| :: xs[j] == Slot(start, j, n)
    ensures CountOf(xs, x) == Hits(start, |xs|, n, x)
  {
    if xs != [] {
      CountIsHits(xs[..|xs| - 1], start, n, x);
    }
  }

  // Fairness: out of m picks on one selector each of its n relays is chosen
  // floor(m/n) or ceil(m/n) times.
  lemma RotationFair(rr: map<Text, nat>, ops: seq<CursorOp>, key: Text, n: nat, x: nat)
    requires x < n && Stable(ops, key, n)
    ensures var got := Positions(rr, ops, key);
            |got| / n <= CountOf(got, x) <= (|got| + n - 1) / n
  {
    var got := Positions(rr, ops, key);
    ConsecutivePositions(rr, ops, key, n);
    CountIsHits(got, Cursor(rr, key), n, x);
    Fair(Cursor(rr, key), |got|, n, x);
  }
}
