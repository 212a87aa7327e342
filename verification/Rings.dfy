/** The table of calls that ring and are not yet answered (src/calls.rs). */
module Rings {
  import opened Wrappers

  const RING_TIMEOUT_SECS := 60

  /** (caller, callee): opposite directions are separate rings. */
  type Key = (nat, nat)

  datatype Ringing = Ringing(video: bool, startedAt: int)

  type Live = map<Key, Ringing>

  datatype RingEntry = RingEntry(key: Key, ring: Ringing)

  /** A repeat invite keeps the first start. */
  function Started(live: Live, k: Key, video: bool, now: int): Live {
    if k in live then live else live[k := Ringing(video, now)]
  }

  /** The ring an `end` frame between `a` and `b` refers to: one direction only. */
  function Named(live: Live, a: nat, b: nat): Option<RingEntry> {
    if (a, b) in live then Some(RingEntry((a, b), live[(a, b)]))
    else if (b, a) in live then Some(RingEntry((b, a), live[(b, a)]))
    else None
  }

  function EndedEitherWay(live: Live, a: nat, b: nat): Live {
    match Named(live, a, b)
    case None => live
    case Some(e) => live - {e.key}
  }

  predicate Involves(k: Key, user: nat) {
    k.0 == user || k.1 == user
  }

  function Involving(live: Live, user: nat): Live {
    map k | k in live && Involves(k, user) :: live[k]
  }

  function Incoming(live: Live, user: nat): Live {
    map k | k in live && k.1 == user :: live[k]
  }

  predicate TimedOut(r: Ringing, now: int, maxAge: int) {
    now - r.startedAt >= maxAge
  }

  function Expired(live: Live, now: int, maxAge: int): Live {
    map k | k in live && TimedOut(live[k], now, maxAge) :: live[k]
  }

  /** `out` lists the entries of `m`, each once, in some order. */
  ghost predicate Lists(out: seq<RingEntry>, m: Live) {
    (forall i, j :: 0 <= i < j < |out| ==> out[i].key != out[j].key)
    && (forall e :: e in out ==> e.key in m && m[e.key] == e.ring)
    && (forall k :: k in m ==> RingEntry(k, m[k]) in out)
  }

  lemma ListsOneMore(out: seq<RingEntry>, m: Live, k: Key, r: Ringing)
    requires Lists(out, m) && k !in m
    ensures Lists(out + [RingEntry(k, r)], m[k := r])
  {
    var longer, more := out + [RingEntry(k, r)], m[k := r];
    forall j | j in more ensures RingEntry(j, more[j]) in longer {
      if j == k {
        assert longer[|out|] == RingEntry(k, r);
      } else {
        assert RingEntry(j, m[j]) in out;
      }
    }
  }

  /** Every table can be walked. */
  lemma {:induction false} WalkOf(m: Live) returns (out: seq<RingEntry>)
    ensures Lists(out, m)
    decreases |m.Keys|
  {
    if m == map[] {
      return [];
    }
    var k :| k in m;
    var rest := m - {k};
    assert rest.Keys < m.Keys && m == rest[k := m[k]];
    FewerKeys(rest.Keys, m.Keys);
    out := WalkOf(rest);
    ListsOneMore(out, rest, k, m[k]);
    out := out + [RingEntry(k, m[k])];
  }

  lemma FewerKeys(a: set<Key>, b: set<Key>)
    requires a < b
    ensures |a| < |b|
  {
    assert b == a + (b - a) && b - a != {};
  }

  class Rings {
    var live: Live

    constructor ()
      ensures live == map[]
    {
      live := map[];
    }

    method Start(caller: nat, callee: nat, video: bool, now: int)
      modifies this
      ensures live == Started(old(live), (caller, callee), video, now)
      ensures (caller, callee) in live && forall k :: k in old(live) ==> k in live && live[k] == old(live)[k]
      ensures (caller, callee) !in old(live) ==> live == old(live)[(caller, callee) := Ringing(video, now)]
    {
      if (caller, callee) !in live {
        live := live[(caller, callee) := Ringing(video, now)];
      }
    }

    method Answered(caller: nat, callee: nat) returns (was: bool)
      modifies this
      ensures was == ((caller, callee) in old(live)) && live == old(live) - {(caller, callee)}
    {
      was := (caller, callee) in live;
      live := live - {(caller, callee)};
    }

    method Ended(caller: nat, callee: nat) returns (ring: Option<Ringing>)
      modifies this
      ensures ring == if (caller, callee) in old(live) then Some(old(live)[(caller, callee)]) else None
      ensures live == old(live) - {(caller, callee)}
    {
      ring := if (caller, callee) in live then Some(live[(caller, callee)]) else None;
      live := live - {(caller, callee)};
    }

    /** Tries the direction as given first, and the other only if that was silent. */
    method EndEitherWay(a: nat, b: nat) returns (e: Option<RingEntry>)
      modifies this
      ensures e == Named(old(live), a, b) && live == EndedEitherWay(old(live), a, b)
      ensures e.None? <==> (a, b) !in old(live) && (b, a) !in old(live)
      ensures e.Some? ==> && e.value.key == (if (a, b) in old(live) then (a, b) else (b, a))
                          && e.value.ring == old(live)[e.value.key] && live == old(live) - {e.value.key}
      ensures e.None? ==> live == old(live)
    {
      var ring := Ended(a, b);
      if ring.Some? {
        return Some(RingEntry((a, b), ring.value));
      }
      assert live == old(live);
      ring := Ended(b, a);
      return if ring.Some? then Some(RingEntry((b, a), ring.value)) else None;
    }

    /** Takes a set of keys out, reporting each ring it removed. */
    method TakeOut(hit: set<Key>) returns (out: seq<RingEntry>)
      requires hit <= live.Keys
      modifies this
      ensures live == old(live) - hit && Lists(out, old(live) - (old(live).Keys - hit))
    {
      out := [];
      var rest := hit;
      ghost var taken: Live := map[];
      while rest != {}
        invariant rest <= hit && live == old(live) - (hit - rest)
        invariant taken == old(live) - (old(live).Keys - (hit - rest)) && Lists(out, taken)
        decreases |rest|
      {
        var k :| k in rest;
        ListsOneMore(out, taken, k, live[k]);
        taken := taken[k := live[k]];
        out := out + [RingEntry(k, live[k])];
        live := live - {k};
        rest := rest - {k};
      }
    }

    method DropFor(user: nat) returns (out: seq<RingEntry>)
      modifies this
      ensures live == old(live) - Involving(old(live), user).Keys && Lists(out, Involving(old(live), user))
      ensures forall k :: k in live <==> k in old(live) && k.0 != user && k.1 != user
      ensures forall k :: k in old(live) && k !in live ==> RingEntry(k, old(live)[k]) in out
    {
      var hit := set k | k in live && (k.0 == user || k.1 == user);
      assert hit == Involving(live, user).Keys && live - (live.Keys - hit) == Involving(live, user);
      out := TakeOut(hit);
    }

    /** After a sweep no ring has rung for the timeout or longer. */
    method TakeExpired(now: int, maxAge: int) returns (out: seq<RingEntry>)
      modifies this
      ensures live == old(live) - Expired(old(live), now, maxAge).Keys && Lists(out, Expired(old(live), now, maxAge))
      ensures forall k :: k in live <==> k in old(live) && now < old(live)[k].startedAt + maxAge
      ensures forall k :: k in old(live) && k !in live ==> RingEntry(k, old(live)[k]) in out
    {
      var hit := set k | k in live && now - live[k].startedAt >= maxAge;
      assert hit == Expired(live, now, maxAge).Keys && live - (live.Keys - hit) == Expired(live, now, maxAge);
      out := TakeOut(hit);
    }

    /** Reading does not consume. */
    method IncomingFor(user: nat) returns (out: seq<RingEntry>)
      ensures Lists(out, Incoming(live, user))
    {
      out := [];
      var rest := set k | k in live && k.1 == user;
      ghost var all, taken: Live := rest, map[];
      while rest != {}
        invariant rest <= all && taken == live - (live.Keys - (all - rest)) && Lists(out, taken)
        decreases |rest|
      {
        var k :| k in rest;
        ListsOneMore(out, taken, k, live[k]);
        taken := taken[k := live[k]];
        out := out + [RingEntry(k, live[k])];
        rest := rest - {k};
      }
      assert taken == Incoming(live, user);
    }
  }
}
