// The serving pool of one generation: built from the verified relays, with
// runtime health attached, and picked from round-robin.
module ServingPool {
  import opened Readiness
  import opened Rotation
  import opened RuntimeHealth
  import F = Failover

  datatype RelayInput = RelayInput(key: RuntimeKey, token: Text, maxBody: nat, incarnation: nat)

  datatype Relay = Relay(state: RelayState, key: RuntimeKey, token: Text, maxBody: nat, incarnation: nat)

  function States(relays: seq<Relay>): set<RelayState> {
    set r | r in relays :: r.state
  }

  predicate Matches(r: Relay, key: Text) {
    key == ALL || r.key.provider == key
  }

  // The relays a selector may use, in pool order.
  function Candidates(relays: seq<Relay>, key: Text): seq<Relay> {
    if relays == [] then []
    else
      var last := relays[|relays| - 1];
      Candidates(relays[..|relays| - 1], key) + (if Matches(last, key) then [last] else [])
  }

  // Those of them off cooldown.
  function HealthyOnes(relays: seq<Relay>, key: Text, now: Instant): seq<Relay>
    reads States(relays)
  {
    if relays == [] then []
    else
      var last := relays[|relays| - 1];
      assert last.state in States(relays);
      assert States(relays[..|relays| - 1]) <= States(relays);
      HealthyOnes(relays[..|relays| - 1], key, now)
      + (if Matches(last, key) && last.state.Healthy(now) then [last] else [])
  }

  // What Pick rotates over: the healthy ones, or everything when none is.
  function Usable(relays: seq<Relay>, key: Text, now: Instant): seq<Relay>
    reads States(relays)
  {
    if HealthyOnes(relays, key, now) != [] then HealthyOnes(relays, key, now) else Candidates(relays, key)
  }

  lemma {:induction false} CandidateExact(relays: seq<Relay>, key: Text, r: Relay)
    ensures r in Candidates(relays, key) <==> r in relays && Matches(r, key)
  {
    if relays != [] {
      CandidateExact(relays[..|relays| - 1], key, r);
      assert relays == relays[..|relays| - 1] + [relays[|relays| - 1]];
    }
  }

  lemma {:induction false} HealthyExact(relays: seq<Relay>, key: Text, now: Instant, r: Relay)
    ensures r in HealthyOnes(relays, key, now) <==> r in relays && Matches(r, key) && r.state.Healthy(now)
  {
    if relays != [] {
      HealthyExact(relays[..|relays| - 1], key, now, r);
      assert relays == relays[..|relays| - 1] + [relays[|relays| - 1]];
    }
  }

  // What Pick may choose: relays of the selector only, and none on cooldown
  // while the selector has one that is not.
  lemma UsableExact(relays: seq<Relay>, key: Text, now: Instant, r: Relay)
    ensures r in Usable(relays, key, now) <==>
              r in relays && Matches(r, key) && (r.state.Healthy(now) || HealthyOnes(relays, key, now) == [])
  {
    CandidateExact(relays, key, r);
    HealthyExact(relays, key, now, r);
  }

  // The same by what happened to the relays: what may be picked of a selector
  // is up, or every relay of the selector is down.
  lemma UsableByHistory(relays: seq<Relay>, key: Text, now: Instant, r: Relay, marks: map<RelayState, seq<Mark>>,
                        threshold: Streak, cooldown: int)
    requires forall q | q in relays ::
               q.state in marks && q.state.Value() == AfterMarks(marks[q.state], threshold, cooldown)
    ensures r in Usable(relays, key, now) <==>
              && r in relays && (key == "all" || r.key.provider == key)
              && (Up(marks[r.state], threshold, cooldown, now)
                  || forall q | q in relays && (key == "all" || q.key.provider == key) ::
                       !Up(marks[q.state], threshold, cooldown, now))
  {
    hide Usable, HealthyOnes, Up;
    forall q | q in relays
      ensures q.state.Healthy(now) <==> Up(marks[q.state], threshold, cooldown, now)
      ensures q in HealthyOnes(relays, key, now) <==> Matches(q, key) && q.state.Healthy(now)
    {
      HealthyExactly(q.state, marks[q.state], threshold, cooldown, now);
      HealthyExact(relays, key, now, q);
    }
    UsableExact(relays, key, now, r);
    var healthy := HealthyOnes(relays, key, now);
    if healthy != [] {
      HealthyExact(relays, key, now, healthy[0]);
    }
  }

  // A pick exists exactly when some relay matches the selector.
  lemma {:induction false} NoneUsable(relays: seq<Relay>, key: Text, now: Instant)
    ensures Usable(relays, key, now) == [] <==> forall i | 0 <= i < |relays| :: !Matches(relays[i], key)
  {
    forall i | 0 <= i < |relays|
      ensures Usable(relays, key, now) == [] ==> !Matches(relays[i], key)
    {
      UsableExact(relays, key, now, relays[i]);
    }
    if forall i | 0 <= i < |relays| :: !Matches(relays[i], key) {
      NoneMatches(relays, key, now);
    }
  }

  lemma {:induction false} NoneMatches(relays: seq<Relay>, key: Text, now: Instant)
    requires forall i | 0 <= i < |relays| :: !Matches(relays[i], key)
    ensures Candidates(relays, key) == [] && HealthyOnes(relays, key, now) == []
  {
    if relays != [] {
      NoneMatches(relays[..|relays| - 1], key, now);
    }
  }

  class Pool {
    const relays: seq<Relay>
    const rt: RuntimeState

    constructor (relays: seq<Relay>, rt: RuntimeState)
      ensures this.relays == relays && this.rt == rt
    {
      this.relays, this.rt := relays, rt;
    }

    // The next relay for a selector, or none when nothing matches.
    method Pick(key: Text, now: Instant) returns (r: Option<Relay>)
      modifies rt`rr
      ensures var use := old(Usable(relays, key, now));
              if use == [] then r == None && rt.rr == old(rt.rr)
              else var (i, rr) := Turned(old(rt.rr), key, |use|); r == Some(use[i]) && rt.rr == rr
    {
      var candidates, healthy: seq<Relay> := [], [];
      for n := 0 to |relays|
        invariant candidates == Candidates(relays[..n], key)
        invariant healthy == HealthyOnes(relays[..n], key, now)
      {
        var relay := relays[n];
        assert relays[..n + 1][..n] == relays[..n];
        if !Matches(relay, key) {
          continue;
        }
        candidates := candidates + [relay];
        if relay.state.Healthy(now) {
          healthy := healthy + [relay];
        }
      }
      assert relays[..|relays|] == relays;
      var use := healthy;
      if |use| == 0 {
        use := candidates;
      }
      if |use| == 0 {
        return None;
      }
      var i := rt.CursorFor(key, |use|);
      return Some(use[i]);
    }
  }

  // --------------------------------------------------------- a generation

  function AttachedAll(t: Table, inputs: seq<RelayInput>): (Table, seq<nat>) {
    if inputs == [] then (t, [])
    else
      var before := AttachedAll(t, inputs[..|inputs| - 1]);
      var (t', h) := Attached(before.0, inputs[|inputs| - 1].key);
      (t', before.1 + [h])
  }

  predicate Built(r: Relay, q: RelayInput) {
    r.key == q.key && r.token == q.token && r.maxBody == q.maxBody && r.incarnation == q.incarnation
  }

  ghost function SerialsOf(relays: seq<Relay>): seq<nat> {
    if relays == [] then [] else SerialsOf(relays[..|relays| - 1]) + [relays[|relays| - 1].state.serial]
  }

  predicate BuiltAll(relays: seq<Relay>, inputs: seq<RelayInput>) {
    |relays| == |inputs| && forall i | 0 <= i < |inputs| :: Built(relays[i], inputs[i])
  }

  lemma AttachNext(t: Table, t1: Table, relays: seq<Relay>, inputs: seq<RelayInput>, r: Relay, q: RelayInput)
    requires (t1, SerialsOf(relays)) == AttachedAll(t, inputs) && BuiltAll(relays, inputs) && Built(r, q)
    requires r.state.serial == Attached(t1, q.key).1
    ensures (Attached(t1, q.key).0, SerialsOf(relays + [r])) == AttachedAll(t, inputs + [q])
    ensures BuiltAll(relays + [r], inputs + [q])
  {
    assert (inputs + [q])[..|inputs|] == inputs && (relays + [r])[..|relays|] == relays;
  }

  // One relay per input, in input order, each with the health record the
  // runtime state has for its endpoint.
  method NewAttached(inputs: seq<RelayInput>, rt: RuntimeState) returns (pool: Pool)
    requires rt.Valid()
    modifies rt
    ensures rt.Valid() && rt.rr == old(rt.rr)
    ensures fresh(pool) && pool.rt == rt && BuiltAll(pool.relays, inputs)
    ensures (rt.Contents(), SerialsOf(pool.relays)) == AttachedAll(old(rt.Contents()), inputs)
  {
    hide Attached, Bijective, TableOf, BuiltAll, AttachedAll, SerialsOf;
    var relays: seq<Relay> := [];
    ghost var t := rt.Contents();
    NothingAttached(t);
    for n := 0 to |inputs|
      invariant rt.Valid() && rt.rr == old(rt.rr)
      invariant BuiltAll(relays, inputs[..n])
      invariant (rt.Contents(), SerialsOf(relays)) == AttachedAll(t, inputs[..n])
    {
      var q := inputs[n];
      ghost var t1 := rt.Contents();
      var state := rt.Attach(q.key);
      var r := Relay(state, q.key, q.token, q.maxBody, q.incarnation);
      AttachNext(t, t1, relays, inputs[..n], r, q);
      assert inputs[..n + 1] == inputs[..n] + [q];
      relays := relays + [r];
    }
    assert inputs[..|inputs|] == inputs;
    pool := new Pool(relays, rt);
  }

  lemma NothingAttached(t: Table)
    ensures (t, SerialsOf([])) == AttachedAll(t, []) && BuiltAll([], [])
  {
  }

  predicate DistinctIdentities(inputs: seq<RelayInput>) {
    forall i, j | 0 <= i < j < |inputs| :: Identity(inputs[i].key) != Identity(inputs[j].key)
  }

  // With distinct identities no relay of a generation displaces another: at
  // the end each identity owns its relay's endpoint and record.
  lemma {:induction false} GenerationOwned(t: Table, inputs: seq<RelayInput>)
    requires DistinctIdentities(inputs)
    ensures var (t', serials) := AttachedAll(t, inputs);
            && |serials| == |inputs|
            && (forall i | 0 <= i < |inputs| ::
                  Identity(inputs[i].key) in t'.owned
                  && t'.owned[Identity(inputs[i].key)] == (inputs[i].key, serials[i]))
  {
    if inputs != [] {
      GenerationOwned(t, inputs[..|inputs| - 1]);
    }
  }

  // ----------------------------------------- from admissions to pool inputs

  // One relay of the registry's serving list.
  datatype Served = Served(key: Key, url: Text, token: Text, generation: nat, scopeFP: Fingerprint)

  // What the program looks up: a URL's string form, or nothing when it does
  // not parse; a token's fingerprint; a provider's body limit.
  datatype Lookups = Lookups(parse: Text -> Option<Text>, fingerprint: Text -> Text, limit: Text -> nat)

  function InputOf(s: Served, url: Text, l: Lookups): RelayInput {
    RelayInput(RuntimeKey(s.key.provider, s.key.name, if s.scopeFP.Some? then s.scopeFP.value else "", url,
                          l.fingerprint(s.token)),
               s.token, l.limit(s.key.provider), s.generation)
  }

  // The well-formed ones, in order.
  function Inputs(serving: seq<Served>, l: Lookups): seq<RelayInput> {
    if serving == [] then []
    else
      var last := serving[|serving| - 1];
      var url := l.parse(last.url);
      Inputs(serving[..|serving| - 1], l) + (if url.Some? then [InputOf(last, url.value, l)] else [])
  }

  predicate Covers(buffer: nat, inputs: seq<RelayInput>) {
    && (forall i | 0 <= i < |inputs| :: inputs[i].maxBody <= buffer)
    && (buffer > 0 ==> exists i | 0 <= i < |inputs| :: inputs[i].maxBody == buffer)
  }

  // A malformed URL is skipped, never served and never fatal; the buffer is
  // the largest body any relay of the pool accepts.
  method BuildInputs(serving: seq<Served>, l: Lookups) returns (inputs: seq<RelayInput>, maxBuffer: nat)
    ensures inputs == Inputs(serving, l) && Covers(maxBuffer, inputs)
  {
    inputs, maxBuffer := [], 0;
    for n := 0 to |serving|
      invariant inputs == Inputs(serving[..n], l) && Covers(maxBuffer, inputs)
    {
      assert serving[..n + 1][..n] == serving[..n];
      var url := l.parse(serving[n].url);
      if url.None? {
        continue;
      }
      var q := InputOf(serving[n], url.value, l);
      ghost var before := inputs;
      inputs := inputs + [q];
      assert inputs[|before|] == q && forall i | 0 <= i < |before| :: inputs[i] == before[i];
      if q.maxBody > maxBuffer {
        maxBuffer := q.maxBody;
      }
    }
    assert serving[..|serving|] == serving;
  }

  // A pool input carries what was verified of a served relay, field by field.
  predicate Carries(q: RelayInput, s: Served, l: Lookups) {
    && l.parse(s.url) == Some(q.key.url)
    && q.key.provider == s.key.provider && q.key.name == s.key.name
    && q.key.scopeFP == (match s.scopeFP case Some(fp) => fp case None => "")
    && q.key.tokenFP == l.fingerprint(s.token)
    && q.token == s.token
    && q.maxBody == l.limit(s.key.provider)
    && q.incarnation == s.generation
  }

  // Every input stems from a served relay whose URL parses, and the other way
  // round.
  lemma {:induction false} InputsExact(serving: seq<Served>, l: Lookups, q: RelayInput)
    ensures q in Inputs(serving, l) <==> exists i | 0 <= i < |serving| :: Carries(q, serving[i], l)
  {
    if serving != [] {
      var front, last := serving[..|serving| - 1], serving[|serving| - 1];
      InputsExact(front, l, q);
      assert forall i | 0 <= i < |front| :: front[i] == serving[i];
      if Carries(q, last, l) {
        assert q == InputOf(last, l.parse(last.url).value, l);
        assert q in Inputs(serving, l);
        assert serving[|serving| - 1] == last;
      }
    }
  }

  // In order: one input for a relay whose URL parses, none for another, and
  // the inputs of a list are those of its parts one after the other.
  lemma {:induction false} InputsInOrder(front: seq<Served>, back: seq<Served>, s: Served, l: Lookups)
    ensures Inputs(front + back, l) == Inputs(front, l) + Inputs(back, l)
    ensures if l.parse(s.url).None? then Inputs([s], l) == []
            else |Inputs([s], l)| == 1 && Carries(Inputs([s], l)[0], s, l)
    decreases |back|
  {
    assert [s][..0] == [] && Inputs([], l) == [];
    if back == [] {
      assert front + back == front;
    } else {
      InputsInOrder(front, back[..|back| - 1], s, l);
      assert (front + back)[..|front + back| - 1] == front + back[..|back| - 1];
    }
  }

  // The gateway's refusal before any attempt is honest: a body it refuses by
  // size is beyond what every relay of the pool accepts.
  lemma EntryRefusalHonest(inputs: seq<RelayInput>, maxBuffer: nat, threshold: int, b: F.Body)
    requires Covers(maxBuffer, inputs) && F.Acquire(maxBuffer, threshold, b) == F.Refused(F.TooLarge)
    ensures forall i | 0 <= i < |inputs| :: b.size > inputs[i].maxBody
  {
    F.AcquireExact(maxBuffer, threshold, b);
  }

  // --------------------------------------------------- picks and body limits

  // Which of these relays are off cooldown.
  function Flags(relays: seq<Relay>, now: Instant): (up: seq<bool>)
    reads States(relays)
    ensures |up| == |relays|
  {
    if relays == [] then []
    else
      assert relays[|relays| - 1].state in States(relays);
      assert States(relays[..|relays| - 1]) <= States(relays);
      Flags(relays[..|relays| - 1], now) + [relays[|relays| - 1].state.Healthy(now)]
  }

  function At(relays: seq<Relay>, slots: seq<nat>): seq<Relay>
    requires forall i | 0 <= i < |slots| :: slots[i] < |relays|
  {
    seq(|slots|, i requires 0 <= i < |slots| => relays[slots[i]])
  }

  lemma {:induction false} HealthyAt(relays: seq<Relay>, key: Text, now: Instant)
    ensures var all := Candidates(relays, key);
            HealthyOnes(relays, key, now) == At(all, F.UpSlots(Flags(all, now)))
  {
    if relays != [] {
      var front, last := relays[..|relays| - 1], relays[|relays| - 1];
      HealthyAt(front, key, now);
      var before := Candidates(front, key);
      if Matches(last, key) {
        assert Candidates(relays, key) == before + [last];
        AtNext(before, last, now);
      } else {
        assert Candidates(relays, key) == before;
      }
    }
  }

  lemma AtNext(before: seq<Relay>, last: Relay, now: Instant)
    ensures var all := before + [last];
            At(all, F.UpSlots(Flags(all, now)))
            == At(before, F.UpSlots(Flags(before, now))) + (if last.state.Healthy(now) then [last] else [])
  {
    var all := before + [last];
    assert all[..|all| - 1] == before;
    assert Flags(all, now)[..|before|] == Flags(before, now);
  }

  // What Pick returns is the relay the positions, the cooldowns and the cursor
  // determine.
  lemma PickMeets(relays: seq<Relay>, key: Text, now: Instant, rr: map<Text, nat>)
    requires Candidates(relays, key) != []
    ensures var all, use := Candidates(relays, key), Usable(relays, key, now);
            && use != []
            && use[Turned(rr, key, |use|).0] == all[F.Met(F.Moment(Flags(all, now), Cursor(rr, key)))]
  {
    var all := Candidates(relays, key);
    var up := Flags(all, now);
    HealthyAt(relays, key, now);
    assert Usable(relays, key, now) == At(all, F.Usable(up));
  }

  lemma {:induction false} LimitsByProvider(serving: seq<Served>, l: Lookups)
    ensures forall i | 0 <= i < |Inputs(serving, l)| ::
              Inputs(serving, l)[i].maxBody == l.limit(Inputs(serving, l)[i].key.provider)
  {
    if serving != [] {
      LimitsByProvider(serving[..|serving| - 1], l);
    }
  }

  // The limits of the relays a provider pin selects.
  function PinnedLimits(inputs: seq<RelayInput>, provider: Text): seq<nat> {
    if inputs == [] then []
    else
      var last := inputs[|inputs| - 1];
      PinnedLimits(inputs[..|inputs| - 1], provider) + (if last.key.provider == provider then [last.maxBody] else [])
  }

  lemma {:induction false} PinnedLimitsEqual(inputs: seq<RelayInput>, provider: Text, limit: Text -> nat)
    requires forall i | 0 <= i < |inputs| :: inputs[i].maxBody == limit(inputs[i].key.provider)
    ensures var caps := PinnedLimits(inputs, provider); forall i | 0 <= i < |caps| :: caps[i] == limit(provider)
  {
    if inputs != [] {
      var front, last := inputs[..|inputs| - 1], inputs[|inputs| - 1];
      PinnedLimitsEqual(front, provider, limit);
      assert last.maxBody == limit(last.key.provider);
      assert PinnedLimits(inputs, provider)
          == PinnedLimits(front, provider) + (if last.key.provider == provider then [last.maxBody] else []);
    }
  }

  // A provider pin selects relays of one body limit, so there the documented
  // rule holds whatever the cooldowns, the interleavings and the budget.
  lemma PinnedRuleHolds(serving: seq<Served>, l: Lookups, provider: Text, budget: nat, size: nat)
    requires PinnedLimits(Inputs(serving, l), provider) != [] && budget > 0
    ensures F.DocumentedRule(PinnedLimits(Inputs(serving, l), provider), budget, size)
  {
    LimitsByProvider(serving, l);
    PinnedLimitsEqual(Inputs(serving, l), provider, l.limit);
    F.DocumentedRuleExact(PinnedLimits(Inputs(serving, l), provider), budget, size);
  }
}
