/** What closes calls closes them: a block, an expiry, a last socket, each once its
    handler has run to its end; and a block that was cut short, exactly. */
module GateOutcomes {
  import opened Blocks
  import opened CallOutcomes
  import opened CallSteps
  import opened Calls
  import opened Devices
  import opened Hub
  import opened Rings
  import opened VoiceGate
  import opened Wrappers

  // ------------------------------------------------------------- what a closing means

  lemma {:induction false} TouchedSince(log: seq<Entry>, c: nat, p: Pair)
    requires c < |log| && Touches(log[c], p)
    ensures LastTouch(log, p).Some? && LastTouch(log, p).value >= c
  {
    if c < |log| - 1 && !Touches(log[|log| - 1], p) {
      TouchedSince(log[..|log| - 1], c, p);
    }
  }

  /** After a closing the pair is out of the gate, unless an opening stands after it. */
  lemma ClosedUntilReopened(h: History, c: nat, a: nat, b: nat)
    requires IsRun(h) && c < |Last(h).log| && Touches(Last(h).log[c], PairOf(a, b)) && !Last(h).log[c].Opened?
    ensures PairOf(a, b) in Last(h).voice
            ==> exists c2 :: c < c2 < |Last(h).log| && Last(h).log[c2].Opened? && Last(h).log[c2].pair == PairOf(a, b)
  {
    var w := Last(h);
    InvAt(h, |h.events|);
    assert GateOk(w.voice, w.log, PairOf(a, b));
    TouchedSince(w.log, c, PairOf(a, b));
  }

  lemma {:induction false} StartWasThere(log: seq<Entry>, n: nat, k: Key)
    requires n <= |log| && StartOf(log, k).Some? && StartOf(log, k).value < n
    ensures StartOf(log[..n], k).Some?
    decreases |log|
  {
    if n < |log| {
      var front := log[..|log| - 1];
      assert front[..n] == log[..n];
      StartWasThere(front, n, k);
    } else {
      assert log[..n] == log;
    }
  }

  /** A ring once gone rings again only after a new start. */
  lemma GoneUntilRestarted(h: History, m: nat, k: Key)
    requires IsRun(h) && m <= |h.events| && k !in h.worlds[m].rings
    ensures k in Last(h).rings
            ==> StartOf(Last(h).log, k).Some? && StartOf(Last(h).log, k).value >= |h.worlds[m].log|
  {
    var w, w2 := h.worlds[m], Last(h);
    InvAt(h, m);
    InvAt(h, |h.events|);
    assert RingOk(w.rings, w.log, k) && RingOk(w2.rings, w2.log, k);
    Grows(h, m, |h.events|);
    assert w2.log[..|w.log|] == w.log;
    if k in w2.rings && StartOf(w2.log, k).value < |w.log| {
      StartWasThere(w2.log, |w.log|, k);
    }
  }

  // --------------------------------------------------------------------- block

  /** Event `m` is the insert of a block by the handler of event `n`. */
  ghost predicate Inserts(h: History, n: nat, m: nat, me: nat, other: nat)
    requires n < |h.events|
  {
    n < m && Acts(h, m, TaskOf(h, n)) && h.worlds[m + 1].blocks == h.worlds[m].blocks + {(me, other)}
    && h.worlds[m + 1].log == h.worlds[m].log + [Blocked(me, other)]
  }

  /** Event `n` is a block request with a target that can be blocked. */
  ghost predicate Asks(h: History, n: nat, me: nat, other: nat) {
    n < |h.events| && h.events[n] == BlockCall(me, other) && me != 0 && other != 0 && me != other
  }

  lemma BlockOwes(h: History, n: nat, me: nat, other: nat)
    requires IsRun(h) && Asks(h, n, me, other)
    ensures TaskOf(h, n) < |h.worlds[n + 1].tasks| && h.worlds[n + 1].log == h.worlds[n].log
    ensures CutFriendship(me, other) in h.worlds[n + 1].tasks[TaskOf(h, n)]
    ensures InsertBlock(me, other) in h.worlds[n + 1].tasks[TaskOf(h, n)]
  {
    Begun(h, n);
  }

  lemma CutDone(h: History, n: nat, me: nat, other: nat) returns (c: nat)
    requires IsRun(h) && Asks(h, n, me, other) && Finished(h, n)
    ensures PlaceOf(h, n) <= c < |Last(h).log| && Last(h).log[c] == Unfriended(PairOf(me, other))
  {
    BlockOwes(h, n, me, other);
    var m := DoneBy(h, n, n + 1, CutFriendship(me, other));
    TakenStep(h, m, TaskOf(h, n), CutFriendship(me, other));
    Logged(h, m, [Unfriended(PairOf(me, other))]);
    assert [Unfriended(PairOf(me, other))][0] == Unfriended(PairOf(me, other));
    Grows(h, n, m);
    c := PlaceOf(h, m);
  }

  lemma InsertDone(h: History, n: nat, me: nat, other: nat) returns (m: nat)
    requires IsRun(h) && Asks(h, n, me, other) && Finished(h, n)
    ensures Inserts(h, n, m, me, other) && Takes(h, m, TaskOf(h, n), InsertBlock(me, other))
  {
    BlockOwes(h, n, me, other);
    m := DoneBy(h, n, n + 1, InsertBlock(me, other));
    TakenStep(h, m, TaskOf(h, n), InsertBlock(me, other));
  }

  /** Acts a handler of event `n` has to do after its insert, at event `m`. */
  ghost predicate OwesAfter(h: History, n: nat, m: nat, act: Act)
    requires n < |h.events| && m < |h.events|
  {
    TaskOf(h, n) < |h.worlds[m + 1].tasks| && act in h.worlds[m + 1].tasks[TaskOf(h, n)]
  }

  lemma InsertLeads(h: History, n: nat, m: nat, me: nat, other: nat)
    requires IsRun(h) && n < m < |h.events| && Takes(h, m, TaskOf(h, n), InsertBlock(me, other))
    ensures OwesAfter(h, n, m, Disallow(me, other, ByBlock(PlaceOf(h, m))))
    ensures OwesAfter(h, n, m, EndRing(me, other, false))
    ensures PlaceOf(h, n) < |h.worlds[m + 1].log| == PlaceOf(h, m) + 1
  {
    TakenStep(h, m, TaskOf(h, n), InsertBlock(me, other));
    Grows(h, n, m);
  }

  /** A block request that has run to its end has cut the friendship, blocked, and since
      then closed the gate and taken a ring of the two out. */
  lemma BlockEndsCalls(h: History, n: nat, me: nat, other: nat) returns (cut: nat, a: nat, c: nat, m: nat)
    requires IsRun(h) && Asks(h, n, me, other) && Finished(h, n)
    ensures PlaceOf(h, n) <= cut < |Last(h).log| && Last(h).log[cut] == Unfriended(PairOf(me, other))
    ensures Inserts(h, n, a, me, other)
    ensures Stood(h, PlaceOf(h, a), c, Closed(PairOf(me, other), ByBlock(PlaceOf(h, a))))
    ensures a < m && Acts(h, m, TaskOf(h, n)) && TakesOneOut(h.worlds[m], h.worlds[m + 1], me, other, false)
  {
    cut := CutDone(h, n, me, other);
    a := InsertDone(h, n, me, other);
    InsertLeads(h, n, a, me, other);
    c := DisallowDone(h, n, a + 1, me, other, ByBlock(PlaceOf(h, a)));
    m := EndRingDone(h, n, a + 1, me, other, false);
  }

  /** So the two are out of the gate until a later opening, and of their rings one is left
      exactly if both were ringing the other; the one that went rings again only after a
      new start. */
  lemma BlockedPairIsCutOff(h: History, n: nat, me: nat, other: nat) returns (c: nat, m: nat)
    requires IsRun(h) && Asks(h, n, me, other) && Finished(h, n)
    ensures n < m < |h.events| && c < |Last(h).log|
    ensures PairOf(me, other) in Last(h).voice
            ==> exists c2 :: c < c2 < |Last(h).log| && Last(h).log[c2].Opened?
                             && Last(h).log[c2].pair == PairOf(me, other)
    ensures var rings, rings2 := h.worlds[m].rings, h.worlds[m + 1].rings;
            && ((me, other) in rings2 || (other, me) in rings2 <==> (me, other) in rings && (other, me) in rings)
            && forall k :: k in rings && k !in rings2 && k in Last(h).rings
                 ==> StartOf(Last(h).log, k).Some? && StartOf(Last(h).log, k).value >= |h.worlds[m + 1].log|
    ensures Last(h).log[c].Closed? && Last(h).log[c].pair == PairOf(me, other)
  {
    var cut, a, place, event := BlockEndsCalls(h, n, me, other);
    c, m := place, event;
    ClosedUntilReopened(h, c, me, other);
    forall k | k in h.worlds[m].rings && k !in h.worlds[m + 1].rings && k in Last(h).rings
      ensures StartOf(Last(h).log, k).Some? && StartOf(Last(h).log, k).value >= |h.worlds[m + 1].log|
    {
      GoneUntilRestarted(h, m + 1, k);
    }
  }

  // --------------------------------------------------------------------- sweep

  lemma {:induction false} SweepListHolds(calls: seq<Attempt>, base: nat, x: nat)
    requires x < |calls|
    ensures Disallow(calls[x].caller, calls[x].callee, ByExpiry(base + x)) in CloseAndRecordAll(calls, base)
    ensures Record(calls[x]) in CloseAndRecordAll(calls, base) && Record(calls[x]) in RecordAll(calls)
    ensures RingMissed(calls[x]) in MissedAll(calls)
    decreases |calls|
  {
    var k := |calls| - 1;
    if x < k {
      SweepListHolds(calls[..k], base, x);
    } else {
      var close: Act := Disallow(calls[k].caller, calls[k].callee, ByExpiry(base + k));
      assert [close, Record(calls[k])][0] == close && [close, Record(calls[k])][1] == Record(calls[k]);
    }
  }

  /** The rings that have rung for a minute or more. */
  function Old(rings: Live, now: int): Live {
    map k | k in rings && rings[k].startedAt + 60 <= now :: rings[k]
  }

  lemma ListedAt(order: seq<RingEntry>, m: Live, k: Key) returns (x: nat)
    requires Lists(order, m) && k in m
    ensures x < |order| && Attempts(order)[x] == Attempt(k.0, k.1, m[k].video)
  {
    x :| x < |order| && order[x] == RingEntry(k, m[k]);
  }

  lemma SweepBegun(h: History, n: nat, now: int, order: seq<RingEntry>)
    requires IsRun(h) && n < |h.events| && h.events[n] == SweepTick(now, order)
    requires Lists(order, Expired(h.worlds[n].rings, now, RING_TIMEOUT_SECS))
    ensures var w, w2, calls := h.worlds[n], h.worlds[n + 1], Attempts(order);
            && w2.rings == w.rings - Expired(w.rings, now, RING_TIMEOUT_SECS).Keys
            && w2.tasks == w.tasks + [CloseAndRecordAll(calls, |w.log|)]
            && w2.log == w.log + (TimedOutAll(calls) + MissedAll(calls))
  {
    Begun(h, n);
  }

  /** An entry of those an event adds stands in the log at its place. */
  lemma OneOfLogged(h: History, n: nat, entries: seq<Entry>, x: nat)
    requires IsRun(h) && n < |h.events| && h.worlds[n + 1].log == h.worlds[n].log + entries && x < |entries|
    ensures PlaceOf(h, n) + x < |h.worlds[n + 1].log| <= |Last(h).log|
    ensures Last(h).log[PlaceOf(h, n) + x] == entries[x]
  {
    Logged(h, n, entries);
    Grows(h, n + 1, |h.events|);
  }

  lemma NotesOf(calls: seq<Attempt>, x: nat) returns (y: nat)
    requires x < |calls|
    ensures var notes := TimedOutAll(calls) + MissedAll(calls);
            x < |notes| && notes[x] == TimedOut(calls[x]) && y < |notes| && notes[y] == RingMissed(calls[x])
  {
    SweepListHolds(calls, 0, x);
    var z :| 0 <= z < |MissedAll(calls)| && MissedAll(calls)[z] == RingMissed(calls[x]);
    y := |calls| + z;
  }

  /** Each ring a sweep takes out is noted as timed out and as missed. */
  lemma SweepNotes(h: History, n: nat, now: int, order: seq<RingEntry>, x: nat) returns (missed: nat)
    requires IsRun(h) && n < |h.events| && h.events[n] == SweepTick(now, order) && x < |order|
    requires Lists(order, Expired(h.worlds[n].rings, now, RING_TIMEOUT_SECS))
    ensures var call, last := Attempts(order)[x], Last(h).log;
            && PlaceOf(h, n) + x < |h.worlds[n + 1].log| <= |last| && last[PlaceOf(h, n) + x] == TimedOut(call)
            && PlaceOf(h, n) <= missed < |h.worlds[n + 1].log| && last[missed] == RingMissed(call)
  {
    var calls := Attempts(order);
    SweepBegun(h, n, now, order);
    var y := NotesOf(calls, x);
    OneOfLogged(h, n, TimedOutAll(calls) + MissedAll(calls), x);
    OneOfLogged(h, n, TimedOutAll(calls) + MissedAll(calls), y);
    missed := PlaceOf(h, n) + y;
  }

  lemma SweepOwes(h: History, n: nat, now: int, order: seq<RingEntry>, x: nat)
    requires IsRun(h) && n < |h.events| && h.events[n] == SweepTick(now, order) && x < |order|
    requires Lists(order, Expired(h.worlds[n].rings, now, RING_TIMEOUT_SECS))
    ensures var call := Attempts(order)[x];
            && Owes(h, n, n + 1, Disallow(call.caller, call.callee, ByExpiry(PlaceOf(h, n) + x)))
            && Owes(h, n, n + 1, Record(call))
  {
    SweepBegun(h, n, now, order);
    SweepListHolds(Attempts(order), PlaceOf(h, n), x);
  }

  lemma SweepCloses(h: History, n: nat, now: int, order: seq<RingEntry>, x: nat) returns (c: nat, r: nat)
    requires IsRun(h) && n < |h.events| && h.events[n] == SweepTick(now, order) && x < |order| && Finished(h, n)
    requires Lists(order, Expired(h.worlds[n].rings, now, RING_TIMEOUT_SECS))
    ensures var call := Attempts(order)[x];
            && Stood(h, PlaceOf(h, n), c, Closed(PairOf(call.caller, call.callee), ByExpiry(PlaceOf(h, n) + x)))
            && Stood(h, PlaceOf(h, n), r, Recorded(call))
  {
    var call := Attempts(order)[x];
    SweepOwes(h, n, now, order, x);
    c := DisallowDone(h, n, n + 1, call.caller, call.callee, ByExpiry(PlaceOf(h, n) + x));
    r := RecordDone(h, n, n + 1, call);
  }

  lemma OldIsExpired(rings: Live, now: int)
    ensures Old(rings, now) == Expired(rings, now, RING_TIMEOUT_SECS)
  {
  }

  /** The call was noted as timed out, at place `j`, and as missed, in the sweep itself;
      since then the gate was closed for that and its record written. */
  ghost predicate SweptOut(h: History, n: nat, call: Attempt, j: nat, missed: nat, c: nat, r: nat)
    requires n < |h.events|
  {
    PlaceOf(h, n) <= j < |h.worlds[n + 1].log| <= |Last(h).log| && Last(h).log[j] == TimedOut(call)
    && PlaceOf(h, n) <= missed < |h.worlds[n + 1].log| && Last(h).log[missed] == RingMissed(call)
    && Stood(h, PlaceOf(h, n), c, Closed(PairOf(call.caller, call.callee), ByExpiry(j)))
    && Stood(h, PlaceOf(h, n), r, Recorded(call))
  }

  lemma SweepEndsListed(h: History, n: nat, now: int, order: seq<RingEntry>, x: nat)
    returns (j: nat, missed: nat, c: nat, r: nat)
    requires IsRun(h) && n < |h.events| && h.events[n] == SweepTick(now, order) && x < |order| && Finished(h, n)
    requires Lists(order, Expired(h.worlds[n].rings, now, RING_TIMEOUT_SECS))
    ensures SweptOut(h, n, Attempts(order)[x], j, missed, c, r)
  {
    j := PlaceOf(h, n) + x;
    missed := SweepNotes(h, n, now, order, x);
    c, r := SweepCloses(h, n, now, order, x);
  }

  /** A sweep takes out exactly the rings a minute old or older. */
  lemma SweepTakesOldRings(h: History, n: nat, now: int, order: seq<RingEntry>)
    requires IsRun(h) && n < |h.events| && h.events[n] == SweepTick(now, order)
    requires Lists(order, Old(h.worlds[n].rings, now))
    ensures h.worlds[n + 1].rings == h.worlds[n].rings - Old(h.worlds[n].rings, now).Keys
  {
    OldIsExpired(h.worlds[n].rings, now);
    SweepBegun(h, n, now, order);
  }

  /** And once it is done, each of them was noted, its gate closed and its record written. */
  lemma SweepEndsOldRings(h: History, n: nat, now: int, order: seq<RingEntry>, k: Key)
    returns (j: nat, missed: nat, c: nat, r: nat)
    requires IsRun(h) && n < |h.events| && h.events[n] == SweepTick(now, order)
    requires Lists(order, Old(h.worlds[n].rings, now)) && Finished(h, n)
    requires k in h.worlds[n].rings && now >= h.worlds[n].rings[k].startedAt + 60
    ensures SweptOut(h, n, Attempt(k.0, k.1, h.worlds[n].rings[k].video), j, missed, c, r)
  {
    OldIsExpired(h.worlds[n].rings, now);
    var x := ListedAt(order, Old(h.worlds[n].rings, now), k);
    j, missed, c, r := SweepEndsListed(h, n, now, order, x);
  }

  // --------------------------------------------------------------- last socket

  /** The account's rings, as the walk that took them out had them, are noted as missed. */
  ghost predicate ClearsRings(w: World, w2: World, user: nat) {
    w2.rings == (map k | k in w.rings && k.0 != user && k.1 != user :: w.rings[k])
    && w.log <= w2.log
    && forall k :: k in w.rings && (k.0 == user || k.1 == user)
         ==> RingMissed(Attempt(k.0, k.1, w.rings[k].video)) in w2.log[|w.log|..]
  }

  /** The only socket of the account goes. */
  ghost predicate LastSocket(h: History, n: nat, uid: nat, conn: nat) {
    n < |h.events| && h.events[n] == Disconnect(uid, conn) && uid in h.worlds[n].conns
    && forall c :: c in h.worlds[n].conns[uid] ==> c.id == conn
  }

  lemma {:induction false} AllWithout(v: seq<Conn>, id: nat)
    ensures WithoutConn(v, id) == [] <==> forall c :: c in v ==> c.id == id
  {
    if v != [] {
      AllWithout(v[..|v| - 1], id);
      assert v == v[..|v| - 1] + [v[|v| - 1]];
    }
  }

  lemma LastSocketOwes(h: History, n: nat, uid: nat, conn: nat)
    requires IsRun(h) && LastSocket(h, n, uid, conn)
    ensures Owes(h, n, n + 1, DropVoice(uid, PlaceOf(h, n))) && Owes(h, n, n + 1, DropRings(uid))
    ensures uid !in h.worlds[n + 1].conns && h.worlds[n + 1].log == h.worlds[n].log + [WentOffline(uid)]
  {
    AllWithout(h.worlds[n].conns[uid], conn);
    Begun(h, n);
  }

  lemma VoiceDropped(h: History, n: nat, uid: nat) returns (m: nat)
    requires IsRun(h) && Finished(h, n) && Owes(h, n, n + 1, DropVoice(uid, PlaceOf(h, n)))
    ensures n < m && Acts(h, m, TaskOf(h, n))
    ensures h.worlds[m + 1].voice == set p | p in h.worlds[m].voice && p.0 != uid && p.1 != uid
    ensures Stood(h, PlaceOf(h, n), PlaceOf(h, m), ClosedAll(uid, PlaceOf(h, n)))
  {
    var act: Act := DropVoice(uid, PlaceOf(h, n));
    m := DoneBy(h, n, n + 1, act);
    TakenStep(h, m, TaskOf(h, n), act);
    Wrote(h, n, n + 1, m, ClosedAll(uid, PlaceOf(h, n)));
  }

  lemma ClearedRing(rings: Live, user: nat, order: seq<RingEntry>, k: Key)
    requires Lists(order, Involving(rings, user)) && k in rings && (k.0 == user || k.1 == user)
    ensures var call := Attempt(k.0, k.1, rings[k].video);
            RingMissed(call) in MissedAll(Attempts(order)) && Record(call) in RecordAll(Attempts(order))
  {
    var x := ListedAt(order, Involving(rings, user), k);
    SweepListHolds(Attempts(order), 0, x);
  }

  lemma RingsDropped(h: History, n: nat, uid: nat) returns (m: nat)
    requires IsRun(h) && Finished(h, n) && Owes(h, n, n + 1, DropRings(uid))
    ensures n < m && Takes(h, m, TaskOf(h, n), DropRings(uid)) && ClearsRings(h.worlds[m], h.worlds[m + 1], uid)
  {
    m := DoneBy(h, n, n + 1, DropRings(uid));
    TakenStep(h, m, TaskOf(h, n), DropRings(uid));
    var w, w2, order := h.worlds[m], h.worlds[m + 1], h.events[m].o.order;
    assert w2.log[|w.log|..] == MissedAll(Attempts(order));
    forall k | k in w.rings && (k.0 == uid || k.1 == uid)
      ensures RingMissed(Attempt(k.0, k.1, w.rings[k].video)) in w2.log[|w.log|..]
    {
      ClearedRing(w.rings, uid, order, k);
    }
  }

  lemma ClearedIsRecorded(h: History, n: nat, m: nat, uid: nat, k: Key) returns (r: nat)
    requires IsRun(h) && Finished(h, n) && n < m && Takes(h, m, TaskOf(h, n), DropRings(uid))
    requires PlaceOf(h, n) < |h.worlds[n + 1].log| && k in h.worlds[m].rings && (k.0 == uid || k.1 == uid)
    ensures PlaceOf(h, m) <= r < |Last(h).log|
    ensures Last(h).log[r] == Recorded(Attempt(k.0, k.1, h.worlds[m].rings[k].video))
  {
    var call, order := Attempt(k.0, k.1, h.worlds[m].rings[k].video), h.events[m].o.order;
    ClearedRing(h.worlds[m].rings, uid, order, k);
    TakenLeads(h, m, TaskOf(h, n), DropRings(uid), RecordAll(Attempts(order)));
    Grows(h, n + 1, m);
    Grows(h, m, m + 1);
    r := RecordDone(h, n, m + 1, call);
  }

  /** With its last socket an account's calls end: once that handler is done every pair of
      the account was put out of the gate, and every ring to or from it taken out as
      missed, with its record written. */
  lemma LastSocketEndsCalls(h: History, n: nat, uid: nat, conn: nat) returns (v: nat, m: nat)
    requires IsRun(h) && LastSocket(h, n, uid, conn) && Finished(h, n)
    ensures uid !in h.worlds[n + 1].conns
    ensures n < v && Acts(h, v, TaskOf(h, n))
    ensures h.worlds[v + 1].voice == set p | p in h.worlds[v].voice && p.0 != uid && p.1 != uid
    ensures Stood(h, PlaceOf(h, n), PlaceOf(h, v), ClosedAll(uid, PlaceOf(h, n)))
    ensures n < m && Acts(h, m, TaskOf(h, n)) && ClearsRings(h.worlds[m], h.worlds[m + 1], uid)
    ensures forall k :: k in h.worlds[m].rings && (k.0 == uid || k.1 == uid)
              ==> exists r :: PlaceOf(h, m) <= r < |Last(h).log|
                              && Last(h).log[r] == Recorded(Attempt(k.0, k.1, h.worlds[m].rings[k].video))
  {
    LastSocketOwes(h, n, uid, conn);
    v := VoiceDropped(h, n, uid);
    m := RingsDropped(h, n, uid);
    forall k | k in h.worlds[m].rings && (k.0 == uid || k.1 == uid)
      ensures exists r :: PlaceOf(h, m) <= r < |Last(h).log|
                          && Last(h).log[r] == Recorded(Attempt(k.0, k.1, h.worlds[m].rings[k].video))
    {
      var r := ClearedIsRecorded(h, n, m, uid, k);
    }
  }

  /** While another socket is left nothing ends. */
  lemma OtherSocketsKeepCalls(h: History, n: nat, uid: nat, conn: nat)
    requires IsRun(h) && n < |h.events| && h.events[n] == Disconnect(uid, conn) && !LastSocket(h, n, uid, conn)
    ensures var w, w2 := h.worlds[n], h.worlds[n + 1];
            && w2.tasks == w.tasks + [[]] && w2.log == w.log && w2.voice == w.voice && w2.rings == w.rings
            && w2.conns.Keys == w.conns.Keys
  {
    if uid in h.worlds[n].conns {
      AllWithout(h.worlds[n].conns[uid], conn);
    }
    Begun(h, n);
    assert h.worlds[n].log + [] == h.worlds[n].log;
  }

  // ------------------------------------------------------------------- connect

  lemma {:induction false} AllowListHolds(calls: seq<Attempt>, base: nat, x: nat)
    requires x < |calls|
    ensures Allow(calls[x].caller, calls[x].callee, ByReplay(base + x)) in AllowAll(calls, base)
    decreases |calls|
  {
    var k := |calls| - 1;
    if x < k {
      AllowListHolds(calls[..k], base, x);
    } else {
      var open: Act := Allow(calls[k].caller, calls[k].callee, ByReplay(base + k));
      assert [open][0] == open;
    }
  }

  lemma ConnectOwes(h: History, n: nat, uid: nat, device: Option<Device>)
    requires IsRun(h) && n < |h.events| && h.events[n] == Connect(uid, device)
    ensures TaskOf(h, n) < |h.worlds[n + 1].tasks| && Replay(uid) in h.worlds[n + 1].tasks[TaskOf(h, n)]
    ensures uid in h.worlds[n + 1].conns && h.worlds[n + 1].log == h.worlds[n].log
  {
    Begun(h, n);
  }

  /** The rings that reach for the account when its new socket looks are replayed, and the
      gate opened for each; no ring is consumed. */
  lemma ConnectReplays(h: History, n: nat, uid: nat, device: Option<Device>) returns (m: nat)
    requires IsRun(h) && n < |h.events| && h.events[n] == Connect(uid, device) && Finished(h, n)
    ensures n < m && Acts(h, m, TaskOf(h, n)) && h.worlds[m + 1].rings == h.worlds[m].rings
    ensures forall k :: k in h.worlds[m].rings && k.1 == uid ==> IsReplayed(h, m, k, h.worlds[m].rings[k].video)
  {
    ConnectOwes(h, n, uid, device);
    m := DoneBy(h, n, n + 1, Replay(uid));
    TakenStep(h, m, TaskOf(h, n), Replay(uid));
    forall k | k in h.worlds[m].rings && k.1 == uid ensures IsReplayed(h, m, k, h.worlds[m].rings[k].video) {
      RingIsReplayed(h, n, m, uid, k);
    }
  }

  ghost predicate IsReplayed(h: History, m: nat, k: Key, video: bool)
    requires m <= |h.events|
  {
    exists j, c :: PlaceOf(h, m) <= j < |Last(h).log| && Last(h).log[j] == Replayed(Attempt(k.0, k.1, video))
                   && Stood(h, j, c, Opened(PairOf(k.0, k.1), ByReplay(j)))
  }

  lemma RingIsReplayed(h: History, n: nat, m: nat, uid: nat, k: Key)
    requires IsRun(h) && Finished(h, n) && n < m && Takes(h, m, TaskOf(h, n), Replay(uid))
    requires k in h.worlds[m].rings && k.1 == uid
    ensures IsReplayed(h, m, k, h.worlds[m].rings[k].video)
  {
    var order, base := h.events[m].o.order, PlaceOf(h, m);
    var calls := Attempts(order);
    var x := ListedAt(order, Incoming(h.worlds[m].rings, uid), k);
    TakenStep(h, m, TaskOf(h, n), Replay(uid));
    AllowListHolds(calls, base, x);
    Logged(h, m, ReplayedAll(calls));
    assert ReplayedAll(calls)[x] == Replayed(calls[x]);
    Grows(h, n, m);
    var c := AllowDone(h, n, m + 1, k.0, k.1, ByReplay(base + x));
    assert Stood(h, base + x, c, Opened(PairOf(k.0, k.1), ByReplay(base + x)));
  }
}
