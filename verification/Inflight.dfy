// The gateway's per-relay request counter: a count and a channel that is
// closed on every transition to zero, for AwaitIdle to wait on.
module Inflight {
  import opened Readiness
  import opened Protocol

  // provider + "/" + name. Provider names carry no slash.
  function IdentityKey(k: Key): string {
    k.provider + "/" + k.name
  }

  predicate Slashless(s: string) {
    forall i | 0 <= i < |s| :: s[i] != '/'
  }

  lemma NoLonger(a: Key, b: Key)
    requires Slashless(b.provider) && IdentityKey(a) == IdentityKey(b)
    ensures |b.provider| <= |a.provider|
  {
    ProviderFirst(b);
    assert IdentityKey(a)[|a.provider|] == '/';
  }

  lemma ProviderFirst(k: Key)
    ensures forall i | 0 <= i < |k.provider| :: IdentityKey(k)[i] == k.provider[i]
  {
  }

  lemma IdentityKeyInjective(a: Key, b: Key)
    requires Slashless(a.provider) && Slashless(b.provider)
    ensures IdentityKey(a) == IdentityKey(b) ==> a == b
  {
    if IdentityKey(a) == IdentityKey(b) {
      NoLonger(a, b);
      NoLonger(b, a);
      var n := |a.provider|;
      assert IdentityKey(a)[..n] == a.provider && IdentityKey(b)[..n] == b.provider;
      assert IdentityKey(a)[n + 1..] == a.name && IdentityKey(b)[n + 1..] == b.name;
    }
  }

  // A channel somebody may wait on: closed once, never reopened.
  class Chan {
    ghost const owner: string
    var closed: bool

    constructor (owner: string)
      ensures !closed && this.owner == owner
    {
      this.owner := owner;
      closed := false;
    }

    method Close()
      requires !closed
      modifies this
      ensures closed
    {
      closed := true;
    }
  }

  class Perm {
    const id: string
    var count: int
    var zero: Chan

    constructor (id: string)
      ensures this.id == id && count == 0 && fresh(zero) && !zero.closed && zero.owner == id
    {
      this.id := id;
      count := 0;
      zero := new Chan(id);
    }

    // The channel is open exactly while requests are counted.
    ghost predicate Sound()
      reads this, zero
    {
      zero.owner == id && (zero.closed <==> count <= 0)
    }

    // A count that starts from zero starts on a new channel.
    method Up()
      requires count != 0 ==> Sound()
      modifies this
      ensures Sound() && count == old(count) + 1
      ensures if old(count) == 0 then fresh(zero) else zero == old(zero)
    {
      if count == 0 {
        zero := new Chan(id);
      }
      count := count + 1;
    }
  }

  class Counter {
    var perms: map<string, Perm>

    ghost function Chans(): set<Chan>
      reads this, perms.Values
    {
      set id | id in perms :: perms[id].zero
    }

    // The channel is open exactly while requests are counted.
    ghost predicate Valid()
      reads this, perms.Values, Chans()
    {
      forall id | id in perms :: perms[id].id == id && perms[id].Sound()
    }

    ghost function Counts(): map<string, int>
      reads this, perms.Values
    {
      map id | id in perms :: perms[id].count
    }

    ghost function CountOf(id: string): int
      reads this, perms.Values
    {
      if id in perms then perms[id].count else 0
    }

    lemma CountsAre(counts: map<string, int>)
      requires counts.Keys == perms.Keys && forall id | id in perms :: counts[id] == perms[id].count
      ensures Counts() == counts
    {
    }

    lemma CountsEach()
      ensures Counts().Keys == perms.Keys && forall id | id in perms :: Counts()[id] == perms[id].count
    {
    }

    constructor ()
      ensures Valid() && Counts() == map[]
    {
      perms := map[];
    }

    // One more request on the relay. A waiter's open channel stays the one the
    // next transition to zero closes; a closed one is left closed. Even a count
    // below zero comes back up without an open channel being forgotten.
    method Begin(id: string)
      requires Valid()
      modifies this, if id in perms then {perms[id]} else {}
      ensures Valid() && Counts() == old(Counts())[id := old(CountOf(id)) + 1]
      ensures perms.Keys == old(perms.Keys) + {id}
      ensures forall j | j in old(perms) :: perms[j] == old(perms[j])
      ensures old(CountOf(id)) > 0 ==> perms[id].zero == old(perms[id].zero)
      ensures old(CountOf(id)) == 0 ==> fresh(perms[id].zero)
    {
      hide Counts;
      ghost var was, n := Counts(), CountOf(id);
      CountsEach();
      if id in perms {
        assert forall j | j in perms && j != id :: perms[j] != perms[id];
        perms[id].Up();
      } else {
        var p := new Perm(id);
        p.Up();
        perms := perms[id := p];
      }
      CountsAre(was[id := n + 1]);
    }

    // One request less; the last one closes the channel. No sequence of calls,
    // matched or not, closes a channel twice.
    method End(id: string)
      requires Valid()
      modifies if id in perms then {perms[id], perms[id].zero} else {}
      ensures Valid() && perms == old(perms)
      ensures Counts() == if id in perms then old(Counts())[id := old(CountOf(id)) - 1] else old(Counts())
      ensures id in perms ==> perms[id].zero == old(perms[id].zero)
      ensures id in perms ==> (perms[id].zero.closed <==> old(CountOf(id)) <= 1)
    {
      if id !in perms {
        return;
      }
      var p := perms[id];
      p.count := p.count - 1;
      if p.count == 0 {
        p.zero.Close();
      }
    }

    // What AwaitIdle waits on: nothing when the relay is idle, else the open
    // channel its next idle moment closes.
    method ZeroChan(id: string) returns (ch: Chan?)
      requires Valid()
      ensures ch == null <==> CountOf(id) == 0
      ensures ch != null ==> id in perms && ch == perms[id].zero && (ch.closed <==> CountOf(id) < 0)
    {
      if id !in perms || perms[id].count == 0 {
        return null;
      }
      return perms[id].zero;
    }
  }

  // ------------------------------------------- the counter and the protocol

  // The counter agrees with the protocol's per-relay counts.
  ghost predicate Represents(counts: map<string, int>, inflight: map<Key, nat>) {
    forall k: Key | Slashless(k.provider) ::
      (if IdentityKey(k) in counts then counts[IdentityKey(k)] else 0) == Count(inflight, k)
  }

  // Begin on one relay is the protocol's begin on that relay and no other.
  lemma BeginRefines(counts: map<string, int>, inflight: map<Key, nat>, k: Key)
    requires Represents(counts, inflight) && Slashless(k.provider)
    ensures Represents(counts[IdentityKey(k) := Count(inflight, k) + 1], Begun(inflight, k))
  {
    var counts' := counts[IdentityKey(k) := Count(inflight, k) + 1];
    forall j: Key | Slashless(j.provider)
      ensures (if IdentityKey(j) in counts' then counts'[IdentityKey(j)] else 0) == Count(Begun(inflight, k), j)
    {
      IdentityKeyInjective(j, k);
      assert (if IdentityKey(j) in counts then counts[IdentityKey(j)] else 0) == Count(inflight, j);
    }
  }

  lemma EndRefines(counts: map<string, int>, inflight: map<Key, nat>, k: Key)
    requires Represents(counts, inflight) && Slashless(k.provider) && Count(inflight, k) > 0
    ensures Represents(counts[IdentityKey(k) := Count(inflight, k) - 1], Ended(inflight, k))
  {
    var counts' := counts[IdentityKey(k) := Count(inflight, k) - 1];
    forall j: Key | Slashless(j.provider)
      ensures (if IdentityKey(j) in counts' then counts'[IdentityKey(j)] else 0) == Count(Ended(inflight, k), j)
    {
      IdentityKeyInjective(j, k);
      assert (if IdentityKey(j) in counts then counts[IdentityKey(j)] else 0) == Count(inflight, j);
    }
  }
}
