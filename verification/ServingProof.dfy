// From the admissions of a snapshot to the relays of the pool built from it:
// the URL and the relay key a request is sent with are those of a verification.
module ServingProof {
  import opened Readiness
  import opened ReadinessLaws
  import opened Protocol
  import opened ProtocolInvariant
  import opened ProtocolTheorems
  import P = ServingPool

  // A row of the serving list shows an admission.
  predicate Shows(s: P.Served, a: Admission) {
    && s.generation == a.generation && s.scopeFP == a.scopeFP
    && (match a.endpoint
        case Some(ep) => s.url == ep.url && s.token == ep.token
        case None => s.url == "" && s.token == "")
  }

  // The serving list of a snapshot, in any order.
  ghost predicate Listed(serving: seq<P.Served>, members: map<Key, Admission>) {
    && (forall i | 0 <= i < |serving| ::
          serving[i].key in members && Shows(serving[i], members[serving[i].key]))
    && (forall k | k in members :: exists i | 0 <= i < |serving| :: serving[i].key == k)
  }

  // The verified URLs that do not parse.
  function Malformed(members: map<Key, Admission>, l: P.Lookups): set<Text> {
    set k | k in members && members[k].endpoint.Some? && l.parse(members[k].endpoint.value.url).None?
      :: members[k].endpoint.value.url
  }

  function KeyOf(q: P.RelayInput): Key {
    Key(q.key.provider, q.key.name)
  }

  // The protocol's pool is the pool that is built: a relay is in it exactly
  // when one of the inputs is its own, and that one carries its admission.
  lemma PoolIsBuilt(members: map<Key, Admission>, serving: seq<P.Served>, l: P.Lookups, k: Key)
    requires Listed(serving, members) && forall j | j in members :: members[j].endpoint.Some?
    ensures k in PoolOf(members, Malformed(members, l)) <==> exists q | q in P.Inputs(serving, l) :: KeyOf(q) == k
    ensures forall q | q in P.Inputs(serving, l) && KeyOf(q) == k ::
              && k in members
              && l.parse(members[k].endpoint.value.url) == Some(q.key.url)
              && q.token == members[k].endpoint.value.token && q.incarnation == members[k].generation
  {
    forall q | q in P.Inputs(serving, l) && KeyOf(q) == k
      ensures k in members && l.parse(members[k].endpoint.value.url) == Some(q.key.url)
      ensures q.token == members[k].endpoint.value.token && q.incarnation == members[k].generation
      ensures k in PoolOf(members, Malformed(members, l))
    {
      P.InputsExact(serving, l, q);
      var i :| 0 <= i < |serving| && P.Carries(q, serving[i], l);
      assert serving[i].key == k;
    }
    if k in PoolOf(members, Malformed(members, l)) {
      var i :| 0 <= i < |serving| && serving[i].key == k;
      var url := l.parse(serving[i].url);
      assert members[k].endpoint.value.url !in Malformed(members, l);
      var q := P.InputOf(serving[i], url.value, l);
      assert P.Carries(q, serving[i], l);
      P.InputsExact(serving, l, q);
      assert KeyOf(q) == k;
    }
  }

  // In every run: whatever relay the installed generation was built with, its
  // URL and relay key passed a verification of that relay in that incarnation,
  // whose admission stood when the snapshot was taken.
  lemma BuiltIsVerified(hash: Scope -> Text, raw: RawSettings, sequential: bool, ls: seq<Label>,
                        serving: seq<P.Served>, l: P.Lookups, q: P.RelayInput)
    requires Listed(serving, After(raw, sequential, ls, hash).serving.snap.members)
    requires q in P.Inputs(serving, l)
    ensures var s := After(raw, sequential, ls, hash);
            var snap := s.serving.snap;
            exists url :: l.parse(url) == Some(q.key.url)
                          && Proved(s.log, snap.logged, KeyOf(q), IdIn(snap, KeyOf(q)), q.incarnation,
                                    Endpoint(url, q.token))
  {
    hide After, ProcsOk, RegistryOk, EntriesOk, CountsOk, AttemptsOk, Proved, P.Inputs;
    var s := After(raw, sequential, ls, hash);
    var snap := s.serving.snap;
    AfterInv(hash, raw, sequential, ls);
    assert forall k | k in snap.members :: AdmissionProved(s.log, snap.logged, k, IdIn(snap, k), snap.members[k]);
    PoolIsBuilt(snap.members, serving, l, KeyOf(q));
    var url := snap.members[KeyOf(q)].endpoint.value.url;
    assert l.parse(url) == Some(q.key.url);
  }
}
