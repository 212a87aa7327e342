/** Delivery while nobody disconnects: exactly once, and nothing forgotten. */
module FanoutDelivery {
  import opened Devices
  import opened Fanout
  import opened FanoutOrder
  import opened Hub
  import opened Stories
  import opened Wrappers

  // ------------------------------------------------------------- exactly once

  /** The broadcasts to one account among some letters. */
  function Wanted(s: seq<Letter>, user: nat): seq<Letter> {
    if s == [] then []
    else
      var l := s[|s| - 1];
      Wanted(s[..|s| - 1], user) + if l.user == user && l.device.None? then [l] else []
  }

  lemma {:induction false} WantedOfAppend(a: seq<Letter>, b: seq<Letter>, user: nat)
    ensures Wanted(a + b, user) == Wanted(a, user) + Wanted(b, user)
    decreases |b|
  {
    if b == [] {
      assert a + b == a;
    } else {
      assert (a + b)[..|a + b| - 1] == a + b[..|b| - 1];
      WantedOfAppend(a, b[..|b| - 1], user);
    }
  }

  ghost predicate Listening(w: World, j: nat, user: nat, c: nat) {
    j in w.nodes && j in w.streams && c in w.nodes[j].outbox && HasConn(SocketsOf(w.nodes[j].conns, user), c)
  }

  /** The socket stays, its instance's subscriber stays, and the origin's publishes succeed. */
  ghost predicate Undisturbed(e: Event, j: nat, o: nat, user: nat, c: nat) {
    e != SubscriberDown(j) && e != Close(j, user, c) && e != Drain(o, false)
  }

  /** Everything from `o` that socket `c` has or has coming. */
  function Due(w: World, j: nat, o: nat, c: nat): seq<Letter>
    requires j in w.nodes && c in w.nodes[j].outbox && o in w.nodes
  {
    Chain(o, w.nodes[j].outbox[c].frames, StreamOf(w, j), w.nodes[o].queue)
  }

  /** What was wanted of `due` grew by exactly what was wanted of the new in `sent`. */
  ghost predicate Grew(due: seq<Letter>, due2: seq<Letter>, sent: seq<Letter>, sent2: seq<Letter>, user: nat) {
    sent <= sent2 && Wanted(due2, user) == Wanted(due, user) + Wanted(sent2[|sent|..], user)
  }

  ghost predicate Kept(w: World, w2: World, j: nat, o: nat, user: nat, c: nat)
    requires o in w.nodes && Listening(w, j, user, c)
  {
    Listening(w2, j, user, c) && o in w2.nodes
    && Grew(Due(w, j, o, c), Due(w2, j, o, c), w.nodes[o].sent, w2.nodes[o].sent, user)
  }

  lemma SameDueIsKept(w: World, w2: World, j: nat, o: nat, user: nat, c: nat)
    requires o in w.nodes && Listening(w, j, user, c) && Listening(w2, j, user, c)
    requires o in w2.nodes && w2.nodes[o].sent == w.nodes[o].sent
    requires Wanted(Due(w2, j, o, c), user) == Wanted(Due(w, j, o, c), user)
    ensures Kept(w, w2, j, o, user, c)
  {
    assert w2.nodes[o].sent[|w.nodes[o].sent|..] == [];
  }

  lemma OpenKeepsPromise(w: World, i: nat, u: nat, device: Option<Device>, j: nat, o: nat, user: nat, c: nat)
    requires i in w.nodes && o in w.nodes && Listening(w, j, user, c) && HubOk(w.nodes[j])
    ensures Kept(w, Step(w, Open(i, u, device)), j, o, user, c)
  {
    var v := SocketsOf(w.nodes[j].conns, user);
    var k :| 0 <= k < |v| && v[k].id == c;
    var w2 := Step(w, Open(i, u, device));
    assert SocketsOf(w2.nodes[j].conns, user)[k].id == c;
    SameDueIsKept(w, w2, j, o, user, c);
  }

  lemma {:induction false} OthersStay(v: seq<Conn>, id: nat, c: nat)
    requires HasConn(v, c) && c != id
    ensures HasConn(WithoutConn(v, id), c)
  {
    var front := v[..|v| - 1];
    var k :| 0 <= k < |v| && v[k].id == c;
    if k < |front| {
      assert front[k].id == c;
      OthersStay(front, id, c);
      var m :| 0 <= m < |WithoutConn(front, id)| && WithoutConn(front, id)[m].id == c;
      assert WithoutConn(v, id)[m].id == c;
    } else {
      assert WithoutConn(v, id)[|WithoutConn(front, id)|].id == c;
    }
  }

  lemma CloseKeepsPromise(w: World, i: nat, u: nat, conn: nat, j: nat, o: nat, user: nat, c: nat)
    requires i in w.nodes && o in w.nodes && Listening(w, j, user, c) && Undisturbed(Close(i, u, conn), j, o, user, c)
    ensures Kept(w, Step(w, Close(i, u, conn)), j, o, user, c)
  {
    var w2, v := Step(w, Close(i, u, conn)), SocketsOf(w.nodes[j].conns, user);
    if i == j && u == user {
      OthersStay(v, conn, c);
      assert SocketsOf(w2.nodes[j].conns, user) == WithoutConn(v, conn);
    }
    SameDueIsKept(w, w2, j, o, user, c);
  }

  lemma PushKeepsPromise(w: World, w2: World, i: nat, r: Request, j: nat, o: nat, user: nat, c: nat)
    requires PushStep(w, w2, i, r) && o in w.nodes && o != j && Listening(w, j, user, c)
    ensures Kept(w, w2, j, o, user, c)
  {
    StoryExtends(w.nodes[j].outbox[c].frames, (i, Letter(r.user, r.device, |w.pushed|, 0)), o);
    SameDueIsKept(w, w2, j, o, user, c);
  }

  lemma EnqueueKeepsPromise(w: World, i: nat, tag: nat, j: nat, o: nat, user: nat, c: nat)
    requires i in w.nodes && tag in w.nodes[i].owed && tag < |w.pushed|
    requires o in w.nodes && o != j && Listening(w, j, user, c)
    ensures Kept(w, Step(w, Enqueue(i, tag)), j, o, user, c)
  {
    var w2 := Step(w, Enqueue(i, tag));
    if i == o {
      var l := Letter(w.pushed[tag].user, w.pushed[tag].device, tag, |w.nodes[i].sent|);
      assert Due(w2, j, o, c) == Due(w, j, o, c) + [l];
      WantedOfAppend(Due(w, j, o, c), [l], user);
      assert w2.nodes[o].sent[|w.nodes[o].sent|..] == [l];
    } else {
      SameDueIsKept(w, w2, j, o, user, c);
    }
  }

  lemma DrainKeepsPromise(w: World, i: nat, ok: bool, j: nat, o: nat, user: nat, c: nat)
    requires i in w.nodes && w.nodes[i].queue != [] && (i == o ==> ok)
    requires o in w.nodes && o != j && Listening(w, j, user, c)
    ensures Kept(w, Step(w, Drain(i, ok)), j, o, user, c)
  {
    var frames, stream := w.nodes[j].outbox[c].frames, StreamOf(w, j);
    if i == o {
      SendingKeepsTheLine(o, frames, stream, w.nodes[o].queue);
    } else {
      StoryExtends(stream, (i, w.nodes[i].queue[0]), o);
    }
    SameDueIsKept(w, Step(w, Drain(i, ok)), j, o, user, c);
  }

  lemma WantedOfOne(l: Letter, user: nat)
    ensures Wanted([l], user) == if l.user == user && l.device.None? then [l] else []
  {
    assert [l][..0] == [];
  }

  lemma Regrouped<T>(a: seq<T>, b: seq<T>, c: seq<T>, d: seq<T>)
    ensures a + (b + c) + d == (a + b) + (c + d) && a + c + d == a + (c + d)
  {
  }

  /** A letter that is not a broadcast to this account may go or stay unnoticed. */
  lemma UnwantedGoes(o: nat, frames: seq<Mail>, stream: seq<Mail>, queue: seq<Letter>, user: nat)
    requires stream != [] && (stream[0].0 != o || stream[0].1.user != user || stream[0].1.device.Some?)
    ensures Wanted(Chain(o, frames, stream[1..], queue), user) == Wanted(Chain(o, frames, stream, queue), user)
  {
    var got, rest, skip := Story(frames, o), Story(stream[1..], o), if stream[0].0 == o then [stream[0].1] else [];
    HeadFirst(stream, o);
    Regrouped(got, skip, rest, queue);
    WantedOfOne(stream[0].1, user);
    WantedOfAppend(got, rest + queue, user);
    WantedOfAppend(got + skip, rest + queue, user);
    WantedOfAppend(got, skip, user);
  }

  lemma ReceiveKeepsPromise(w: World, i: nat, j: nat, o: nat, user: nat, c: nat)
    requires i in w.nodes && i in w.streams && w.streams[i] != []
    requires o in w.nodes && o != j && Listening(w, j, user, c) && HubOk(w.nodes[j])
    ensures Kept(w, Step(w, Receive(i)), j, o, user, c)
  {
    var w2 := Step(w, Receive(i));
    if i == j {
      var n, m, stream := w.nodes[j], w.streams[j][0], w.streams[j];
      var ch := n.outbox[c];
      HandlingHandsOver(j, n, m);
      ReadingKeepsTheLine(o, ch.frames, stream, w.nodes[o].queue);
      if m.0 != o || m.1.user != user || m.1.device.Some? {
        UnwantedGoes(o, ch.frames, stream, w.nodes[o].queue, user);
      } else {
        assert w2.nodes[j].outbox[c] == Queued(ch, m);
      }
    }
    SameDueIsKept(w, w2, j, o, user, c);
  }

  lemma StepKeepsPromise(w: World, e: Event, j: nat, o: nat, user: nat, c: nat)
    requires Inv(w) && o in w.nodes && o != j && Listening(w, j, user, c) && Undisturbed(e, j, o, user, c)
    ensures Kept(w, Step(w, e), j, o, user, c)
  {
    assert HubOk(w.nodes[j]);
    if e.i !in w.nodes {
      SameDueIsKept(w, w, j, o, user, c);
    } else if e.Open? {
      OpenKeepsPromise(w, e.i, e.user, e.device, j, o, user, c);
    } else if e.Close? {
      CloseKeepsPromise(w, e.i, e.user, e.conn, j, o, user, c);
    } else if e.Push? {
      PushIsPushStep(w, e.i, e.user);
      PushKeepsPromise(w, Step(w, e), e.i, Request(e.i, e.user, None), j, o, user, c);
    } else if e.PushDevice? {
      PushDeviceIsPushStep(w, e.i, e.user, e.target);
      PushKeepsPromise(w, Step(w, e), e.i, Request(e.i, e.user, Some(e.target)), j, o, user, c);
    } else if e.Enqueue? && e.tag in w.nodes[e.i].owed && e.tag < |w.pushed| {
      EnqueueKeepsPromise(w, e.i, e.tag, j, o, user, c);
    } else if e.Drain? && w.nodes[e.i].queue != [] {
      DrainKeepsPromise(w, e.i, e.ok, j, o, user, c);
    } else if e.Receive? && e.i in w.streams && w.streams[e.i] != [] {
      ReceiveKeepsPromise(w, e.i, j, o, user, c);
    } else {
      SameDueIsKept(w, Step(w, e), j, o, user, c);
    }
  }

  lemma SuffixSplits<T>(a: seq<T>, b: seq<T>, c: seq<T>)
    requires a <= b <= c
    ensures c[|a|..] == b[|a|..] + c[|b|..]
  {
    forall k | |a| <= k < |b| ensures b[k] == c[k] {}
  }

  lemma GrewTwice(
    a: seq<Letter>, b: seq<Letter>, c: seq<Letter>, sa: seq<Letter>, sb: seq<Letter>, sc: seq<Letter>, user: nat)
    requires Grew(a, b, sa, sb, user) && Grew(b, c, sb, sc, user)
    ensures Grew(a, c, sa, sc, user)
  {
    SuffixSplits(sa, sb, sc);
    WantedOfAppend(sb[|sa|..], sc[|sb|..], user);
  }

  /** While a socket stays registered, its instance's subscriber connected and the
      origin's publishes succeed, what the socket has and has coming of that origin's
      broadcasts grows by exactly what the origin queues: nothing lost, nothing twice. */
  lemma {:induction false} ExactlyOnce(ids: set<nat>, events: seq<Event>, n: nat, j: nat, o: nat, user: nat, c: nat)
    requires n <= |events| && o in ids && o != j && Listening(Run(ids, events[..n]), j, user, c)
    requires forall k :: n <= k < |events| ==> Undisturbed(events[k], j, o, user, c)
    ensures o in Run(ids, events[..n]).nodes && Kept(Run(ids, events[..n]), Run(ids, events), j, o, user, c)
    decreases |events|
  {
    NodesStay(ids, events[..n]);
    var w0 := Run(ids, events[..n]);
    if n == |events| {
      assert events[..n] == events;
      SameDueIsKept(w0, w0, j, o, user, c);
    } else {
      var front := events[..|events| - 1];
      assert front[..n] == events[..n];
      ExactlyOnce(ids, front, n, j, o, user, c);
      RunKeepsInv(ids, front);
      var w1, w2 := Run(ids, front), Run(ids, events);
      StepKeepsPromise(w1, events[|events| - 1], j, o, user, c);
      GrewTwice(
        Due(w0, j, o, c), Due(w1, j, o, c), Due(w2, j, o, c),
        w0.nodes[o].sent, w1.nodes[o].sent, w2.nodes[o].sent, user);
    }
  }

  lemma {:induction false} NodesStay(ids: set<nat>, events: seq<Event>)
    ensures Run(ids, events).nodes.Keys == ids
  {
    if events != [] {
      NodesStay(ids, events[..|events| - 1]);
    }
  }

  /** So once everything has travelled, the socket has exactly those broadcasts, in order. */
  lemma AllArrive(ids: set<nat>, events: seq<Event>, n: nat, j: nat, o: nat, user: nat, c: nat)
    requires n <= |events| && o in ids && o != j && Listening(Run(ids, events[..n]), j, user, c)
    requires forall k :: n <= k < |events| ==> Undisturbed(events[k], j, o, user, c)
    requires StreamOf(Run(ids, events), j) == [] && o in Run(ids, events).nodes && Run(ids, events).nodes[o].queue == []
    ensures var w0, w1 := Run(ids, events[..n]), Run(ids, events);
            && o in w0.nodes && j in w1.nodes && c in w1.nodes[j].outbox && w0.nodes[o].sent <= w1.nodes[o].sent
            && Wanted(Story(w1.nodes[j].outbox[c].frames, o), user)
               == Wanted(Due(w0, j, o, c), user) + Wanted(w1.nodes[o].sent[|w0.nodes[o].sent|..], user)
  {
    ExactlyOnce(ids, events, n, j, o, user, c);
    assert Due(Run(ids, events), j, o, c) == Story(Run(ids, events).nodes[j].outbox[c].frames, o);
  }

  /** And every broadcast does get queued: until then its origin still owes it. */
  lemma NothingForgotten(ids: set<nat>, events: seq<Event>, t: nat)
    requires t < |Run(ids, events).pushed| && Run(ids, events).pushed[t].device.None?
    ensures var w, r := Run(ids, events), Run(ids, events).pushed[t];
            && r.origin in w.nodes
            && (t in w.nodes[r.origin].owed <==> !exists l :: l in w.nodes[r.origin].sent && l.tag == t)
  {
    RunKeepsInv(ids, events);
    var w := Run(ids, events);
    assert Accounted(w, t);
    assert LedgerOk(w.pushed, w.pushed[t].origin, w.nodes[w.pushed[t].origin]);
  }

  lemma {:induction false} WantedHolds(s: seq<Letter>, user: nat, l: Letter)
    ensures l in Wanted(s, user) <==> l in s && l.user == user && l.device.None?
  {
    if s != [] {
      var front, last := s[..|s| - 1], s[|s| - 1];
      WantedHolds(front, user, l);
      assert s == front + [last];
    }
  }

  /** A push since place `n` of the run, once queued, is among the letters queued since. */
  lemma QueuedSince(ids: set<nat>, events: seq<Event>, n: nat, o: nat, t: nat) returns (l: Letter)
    requires n <= |events| && o in ids && |Run(ids, events[..n]).pushed| <= t < |Run(ids, events).pushed|
    requires var w := Run(ids, events);
             w.pushed[t].origin == o && w.pushed[t].device.None? && o in w.nodes && t !in w.nodes[o].owed
    ensures var w0, w1 := Run(ids, events[..n]), Run(ids, events);
            && o in w0.nodes && o in w1.nodes && l.tag == t && l.user == w1.pushed[t].user && l.device.None?
            && (w0.nodes[o].sent <= w1.nodes[o].sent ==> l in w1.nodes[o].sent[|w0.nodes[o].sent|..])
  {
    var w0, w1 := Run(ids, events[..n]), Run(ids, events);
    NodesStay(ids, events[..n]);
    NothingForgotten(ids, events, t);
    RunKeepsInv(ids, events);
    RunKeepsInv(ids, events[..n]);
    l :| l in w1.nodes[o].sent && l.tag == t;
    var p :| 0 <= p < |w1.nodes[o].sent| && w1.nodes[o].sent[p] == l;
    assert LedgerOk(w1.pushed, o, w1.nodes[o]) && LedgerOk(w0.pushed, o, w0.nodes[o]);
    var from := |w0.nodes[o].sent|;
    if w0.nodes[o].sent <= w1.nodes[o].sent {
      forall q | 0 <= q < from ensures w1.nodes[o].sent[q].tag < t {
        assert w1.nodes[o].sent[q] == w0.nodes[o].sent[q];
      }
      assert w1.nodes[o].sent[from..][p - from] == l;
    }
  }

  /** Push by push: a broadcast of another instance made since the socket began listening,
      once queued and with nothing left on the way, stands exactly once in its frames. */
  lemma EachPushArrivesOnce(
    ids: set<nat>, events: seq<Event>, n: nat, j: nat, o: nat, user: nat, c: nat, t: nat) returns (k: nat)
    requires n <= |events| && o in ids && o != j && Listening(Run(ids, events[..n]), j, user, c)
    requires forall k :: n <= k < |events| ==> Undisturbed(events[k], j, o, user, c)
    requires StreamOf(Run(ids, events), j) == [] && o in Run(ids, events).nodes && Run(ids, events).nodes[o].queue == []
    requires |Run(ids, events[..n]).pushed| <= t < |Run(ids, events).pushed|
    requires Run(ids, events).pushed[t] == Request(o, user, None) && t !in Run(ids, events).nodes[o].owed
    ensures var w := Run(ids, events);
            && j in w.nodes && c in w.nodes[j].outbox
            && var frames := w.nodes[j].outbox[c].frames;
               k < |frames| && forall i :: 0 <= i < |frames| ==> (frames[i].1.tag == t <==> i == k)
  {
    AllArrive(ids, events, n, j, o, user, c);
    var l := QueuedSince(ids, events, n, o, t);
    var w0, w1 := Run(ids, events[..n]), Run(ids, events);
    var frames := w1.nodes[j].outbox[c].frames;
    WantedHolds(w1.nodes[o].sent[|w0.nodes[o].sent|..], user, l);
    WantedHolds(Story(frames, o), user, l);
    StoryHolds(frames, o, l);
    k :| k < |frames| && frames[k] == (o, l);
    forall i | 0 <= i < |frames| && i != k ensures frames[i].1.tag != t {
      if i < k {
        AtMostOnceAndInOrder(ids, events, j, c, i, k);
      } else {
        AtMostOnceAndInOrder(ids, events, j, c, k, i);
      }
    }
  }

  // --------------------------------------------------------- nothing gets stuck

  /** These publish `o`'s queue and read `j`'s stream, and disturb nobody. */
  predicate MovesOn(e: Event, j: nat, o: nat) {
    e == Drain(o, true) || e == Receive(j)
  }

  lemma RunAfter(ids: set<nat>, events: seq<Event>, e: Event)
    ensures Run(ids, events + [e]) == Step(Run(ids, events), e)
  {
    assert (events + [e])[..|events|] == events;
  }

  lemma AnotherMove(more: seq<Event>, e: Event, j: nat, o: nat)
    requires (forall x :: x in more ==> MovesOn(x, j, o)) && MovesOn(e, j, o)
    ensures forall x :: x in [e] + more ==> MovesOn(x, j, o)
  {
  }

  ghost predicate Waits(w: World, j: nat, o: nat, queue: nat, stream: nat) {
    o in w.nodes && j in w.nodes && j in w.streams && |w.nodes[o].queue| == queue && |w.streams[j]| == stream
  }

  /** From any world, publishing and reading on empties queue and stream. */
  lemma {:induction false} CanEmpty(ids: set<nat>, events: seq<Event>, j: nat, o: nat, queue: nat, stream: nat)
    returns (more: seq<Event>)
    requires Waits(Run(ids, events), j, o, queue, stream) && j != o
    ensures (forall e :: e in more ==> MovesOn(e, j, o)) && Waits(Run(ids, events + more), j, o, 0, 0)
    decreases queue, stream
  {
    if queue == 0 && stream == 0 {
      assert events + [] == events;
      return [];
    }
    var e := if queue > 0 then Drain(o, true) else Receive(j);
    RunAfter(ids, events, e);
    var rest: seq<Event>;
    if queue > 0 {
      rest := CanEmpty(ids, events + [e], j, o, queue - 1, stream + 1);
    } else {
      rest := CanEmpty(ids, events + [e], j, o, 0, stream - 1);
    }
    AnotherMove(rest, e, j, o);
    more := [e] + rest;
    assert events + more == events + [e] + rest;
  }

  /** So whatever has happened, all of `o`'s broadcasts to a listening socket can arrive
      there, by publishing and reading alone. */
  lemma AllCanArrive(ids: set<nat>, events: seq<Event>, j: nat, o: nat, user: nat, c: nat) returns (more: seq<Event>)
    requires o in ids && o != j && Listening(Run(ids, events), j, user, c)
    ensures forall e :: e in more ==> MovesOn(e, j, o)
    ensures var w0, w1 := Run(ids, events), Run(ids, events + more);
            && o in w0.nodes && j in w1.nodes && c in w1.nodes[j].outbox && o in w1.nodes
            && StreamOf(w1, j) == [] && w1.nodes[o].queue == []
            && w0.nodes[o].sent <= w1.nodes[o].sent
            && Wanted(Story(w1.nodes[j].outbox[c].frames, o), user)
               == Wanted(Due(w0, j, o, c), user) + Wanted(w1.nodes[o].sent[|w0.nodes[o].sent|..], user)
  {
    NodesStay(ids, events);
    var w := Run(ids, events);
    more := CanEmpty(ids, events, j, o, |w.nodes[o].queue|, |w.streams[j]|);
    var all := events + more;
    assert all[..|events|] == events;
    forall k | |events| <= k < |all| ensures Undisturbed(all[k], j, o, user, c) {
      assert all[k] == more[k - |events|] && more[k - |events|] in more;
    }
    AllArrive(ids, all, |events|, j, o, user, c);
  }
}
