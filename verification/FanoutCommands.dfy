/** A command for one machine: it goes to the latest socket of that device, on whichever
    instance has it, and stands there exactly once. */
module FanoutCommands {
  import opened Fanout
  import opened FanoutOrder
  import opened Hub
  import opened Wrappers

  /** A queue, once there, stays and only grows. */
  ghost predicate QueueGrows(w: World, w2: World, j: nat, c: nat) {
    j in w.nodes && c in w.nodes[j].outbox
    ==> j in w2.nodes && c in w2.nodes[j].outbox && w.nodes[j].outbox[c].frames <= w2.nodes[j].outbox[c].frames
  }

  lemma StepGrows(w: World, e: Event, j: nat, c: nat)
    requires Inv(w)
    ensures QueueGrows(w, Step(w, e), j, c)
  {
    if j in w.nodes && c in w.nodes[j].outbox && e.i == j {
      var n := w.nodes[j];
      assert HubOk(n);
      if e.Push? {
        DeliveringHandsOver(n, e.user, (j, Letter(e.user, None, |w.pushed|, 0)));
      } else if e.PushDevice? {
        SendingHandsOver(n, e.user, e.target, (j, Letter(e.user, Some(e.target), |w.pushed|, 0)));
      } else if e.Receive? && j in w.streams && w.streams[j] != [] {
        HandlingHandsOver(j, n, w.streams[j][0]);
      }
    }
  }

  lemma {:induction false} RunGrows(ids: set<nat>, events: seq<Event>, n: nat, j: nat, c: nat)
    requires n <= |events|
    ensures QueueGrows(Run(ids, events[..n]), Run(ids, events), j, c)
    decreases |events|
  {
    if n == |events| {
      assert events[..n] == events;
    } else {
      var front := events[..|events| - 1];
      assert front[..n] == events[..n];
      RunGrows(ids, front, n, j, c);
      RunKeepsInv(ids, front);
      StepGrows(Run(ids, front), events[|events| - 1], j, c);
    }
  }

  lemma NextWorld(ids: set<nat>, events: seq<Event>, n: nat)
    requires n < |events|
    ensures Run(ids, events[..n + 1]) == Step(Run(ids, events[..n]), events[n])
  {
    assert events[..n + 1][..n] == events[..n];
  }

  /** The subscriber of `j` is about to read a command of another instance, for a device
      whose latest socket here is number `i` of its account. */
  ghost predicate ReadsCommand(w: World, j: nat, i: nat) {
    j in w.nodes && j in w.streams && w.streams[j] != []
    && var m := w.streams[j][0];
       m.0 != j && m.1.device.Some? && Latest(w.nodes[j].conns, m.1.user, i, m.1.device.value)
  }

  /** Reading it puts it in that socket's queue and in no other. */
  lemma ReadingReachesTheDevice(w: World, j: nat, i: nat)
    requires Inv(w) && ReadsCommand(w, j, i)
    ensures var n, m, w2 := w.nodes[j], w.streams[j][0], Step(w, Receive(j));
            GoesTo(n.outbox, w2.nodes[j].outbox, n.conns[m.1.user][i].id, m)
  {
    var n, m := w.nodes[j], w.streams[j][0];
    assert HubOk(n);
    SentReachesDevice(n.conns, n.nextId, n.outbox, m.1.user, m.1.device.value, m);
  }

  /** A relayed command, once read by an instance where its device has a socket, stands
      exactly once in the frames of the latest of them, from then on; and reading it
      touched no other queue. */
  lemma CommandArrivesOnce(ids: set<nat>, events: seq<Event>, n: nat, j: nat, i: nat) returns (k: nat)
    requires n < |events| && events[n] == Receive(j) && ReadsCommand(Run(ids, events[..n]), j, i)
    ensures var w, w1, w2 := Run(ids, events[..n]), Run(ids, events[..n + 1]), Run(ids, events);
            var m := w.streams[j][0];
            var c := w.nodes[j].conns[m.1.user][i].id;
            && j in w1.nodes && GoesTo(w.nodes[j].outbox, w1.nodes[j].outbox, c, m)
            && j in w2.nodes && c in w2.nodes[j].outbox
            && var frames := w2.nodes[j].outbox[c].frames;
               && k < |frames| && frames[k] == m
               && forall x :: 0 <= x < |frames| ==> (frames[x].1.tag == m.1.tag <==> x == k)
  {
    var w := Run(ids, events[..n]);
    var m := w.streams[j][0];
    var c := w.nodes[j].conns[m.1.user][i].id;
    RunKeepsInv(ids, events[..n]);
    NextWorld(ids, events, n);
    ReadingReachesTheDevice(w, j, i);
    RunGrows(ids, events, n + 1, j, c);
    k := |w.nodes[j].outbox[c].frames|;
    StandsOnce(ids, events, j, c, k);
  }

  lemma StandsOnce(ids: set<nat>, events: seq<Event>, j: nat, c: nat, k: nat)
    requires var w := Run(ids, events); j in w.nodes && c in w.nodes[j].outbox && k < |w.nodes[j].outbox[c].frames|
    ensures var frames := Run(ids, events).nodes[j].outbox[c].frames;
            forall x :: 0 <= x < |frames| ==> (frames[x].1.tag == frames[k].1.tag <==> x == k)
  {
    var frames := Run(ids, events).nodes[j].outbox[c].frames;
    forall x | 0 <= x < |frames| && x != k ensures frames[x].1.tag != frames[k].1.tag {
      if x < k {
        AtMostOnceAndInOrder(ids, events, j, c, x, k);
      } else {
        AtMostOnceAndInOrder(ids, events, j, c, k, x);
      }
    }
  }

  /** A command pushed here goes to the latest socket its device has here, now, and to
      nothing else; without one it is owed to the bus. */
  lemma CommandGoesHereOrOut(ids: set<nat>, events: seq<Event>, j: nat, user: nat, target: string)
    requires j in Run(ids, events).nodes
    ensures var w, w2 := Run(ids, events), Step(Run(ids, events), PushDevice(j, user, target));
            var t, n := |w.pushed|, w.nodes[j];
            && j in w2.nodes && w2.pushed == w.pushed + [Request(j, user, Some(target))]
            && ReachesDevice(
                 n.conns, n.outbox, w2.nodes[j].outbox, user, target, (j, Letter(user, Some(target), t, 0)))
            && w2.nodes[j].owed == if Connected(n.conns, user, target) then n.owed else n.owed + {t}
  {
    var w := Run(ids, events);
    var n := w.nodes[j];
    RunKeepsInv(ids, events);
    assert HubOk(n);
    SentReachesDevice(n.conns, n.nextId, n.outbox, user, target, (j, Letter(user, Some(target), |w.pushed|, 0)));
  }

  /** Owed or queued. */
  ghost predicate Kept(w: World, j: nat, t: nat) {
    j in w.nodes && (t in w.nodes[j].owed || exists l :: l in w.nodes[j].sent && l.tag == t)
  }

  lemma StepKeeps(w: World, e: Event, j: nat, t: nat)
    requires Kept(w, j, t)
    ensures Kept(Step(w, e), j, t)
  {
    var w2 := Step(w, e);
    if l :| l in w.nodes[j].sent && l.tag == t {
      assert l in w2.nodes[j].sent;
    } else if e == Enqueue(j, t) && t < |w.pushed| {
      var sent := w2.nodes[j].sent;
      assert sent[|sent| - 1].tag == t && sent[|sent| - 1] in sent;
    }
  }

  /** And what is owed stays owed until it is queued. */
  lemma {:induction false} OwedIsQueuedOrOwed(ids: set<nat>, events: seq<Event>, n: nat, j: nat, t: nat)
    requires n <= |events| && Kept(Run(ids, events[..n]), j, t)
    ensures Kept(Run(ids, events), j, t)
    decreases |events|
  {
    if n == |events| {
      assert events[..n] == events;
    } else {
      var front := events[..|events| - 1];
      assert front[..n] == events[..n];
      OwedIsQueuedOrOwed(ids, front, n, j, t);
      StepKeeps(Run(ids, front), events[|events| - 1], j, t);
    }
  }
}
