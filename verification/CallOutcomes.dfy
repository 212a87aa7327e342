/** What a signaling frame that passed has brought about once its handler has run to its
    end, told by the tables and the log. */
module CallOutcomes {
  import opened Blocks
  import opened CallSteps
  import opened Calls
  import opened Hub
  import opened Rings
  import opened VoiceGate
  import opened Wrappers

  /** The tables are what the log says, after any number of events. */
  lemma InvAt(h: History, m: nat)
    requires IsRun(h) && m <= |h.events|
    ensures Inv(h.worlds[m])
  {
    WorldAt(h, m);
    RunKeepsInv(h.events[..m]);
  }

  /** Event `n` is this frame, and it passes. */
  ghost predicate Admitted(h: History, n: nat, uid: nat, to: nat, kind: Kind, video: bool) {
    n < |h.events| && h.events[n] == Signal(uid, to, kind, video)
    && h.worlds[n + 1].log == h.worlds[n].log + [Passed(kind, uid, to)]
  }

  /** A frame passes exactly when it is addressed to a friend and neither blocks the
      other; one that does not pass changes nothing and starts nothing. */
  lemma PassesExactlyWhenMayCall(h: History, n: nat, uid: nat, to: nat, kind: Kind, video: bool)
    requires IsRun(h) && n < |h.events| && h.events[n] == Signal(uid, to, kind, video)
    ensures Admitted(h, n, uid, to, kind, video) <==> to != 0 && MayCall(h.worlds[n].log, uid, to)
    ensures !Admitted(h, n, uid, to, kind, video)
            ==> h.worlds[n + 1] == h.worlds[n].(tasks := h.worlds[n].tasks + [[]])
  {
    InvAt(h, n);
    var w := h.worlds[n];
    assert FriendOk(w.friends, w.log, PairOf(uid, to));
    assert BlockOk(w.blocks, w.log, uid, to) && BlockOk(w.blocks, w.log, to, uid);
    RefusedExactlyWhenBlocked(w.blocks, uid, to, Call);
    Begun(h, n);
    assert w.log + [] == w.log;
  }

  /** The task of an admitted frame. */
  lemma Handling(h: History, n: nat, uid: nat, to: nat, kind: Kind, video: bool)
    requires IsRun(h) && Admitted(h, n, uid, to, kind, video)
    ensures h.worlds[n + 1].tasks
            == h.worlds[n].tasks + [Handler(uid, to, kind, video, PlaceOf(h, n))]
  {
    Begun(h, n);
  }

  /** Entry `c` is in the log, after place `from`. */
  ghost predicate Stood(h: History, from: nat, c: nat, e: Entry) {
    from < c < |Last(h).log| && Last(h).log[c] == e
  }

  /** Where an act that writes one entry and changes no task but its own wrote it. */
  lemma Wrote(h: History, n: nat, from: nat, m: nat, e: Entry)
    requires IsRun(h) && n < from <= m < |h.events| && PlaceOf(h, n) < |h.worlds[from].log|
    requires h.worlds[m + 1].log == h.worlds[m].log + [e]
    ensures |h.worlds[from].log| <= PlaceOf(h, m) && Stood(h, PlaceOf(h, n), PlaceOf(h, m), e)
  {
    Logged(h, m, [e]);
    assert [e][0] == e;
    Grows(h, from, m);
  }

  /** The handler of event `n` has this act to do after the first `from` events. */
  ghost predicate Owes(h: History, n: nat, from: nat, act: Act) {
    n < from <= |h.events| && PlaceOf(h, n) < |h.worlds[from].log|
    && TaskOf(h, n) < |h.worlds[from].tasks| && act in h.worlds[from].tasks[TaskOf(h, n)]
  }

  lemma AllowDone(h: History, n: nat, from: nat, a: nat, b: nat, ticket: Ticket) returns (c: nat)
    requires IsRun(h) && Finished(h, n) && Owes(h, n, from, Allow(a, b, ticket))
    ensures |h.worlds[from].log| <= c && Stood(h, PlaceOf(h, n), c, Opened(PairOf(a, b), ticket))
  {
    var m := DoneBy(h, n, from, Allow(a, b, ticket));
    TakenStep(h, m, TaskOf(h, n), Allow(a, b, ticket));
    Wrote(h, n, from, m, Opened(PairOf(a, b), ticket));
    c := PlaceOf(h, m);
  }

  lemma DisallowDone(h: History, n: nat, from: nat, a: nat, b: nat, cause: Cause) returns (c: nat)
    requires IsRun(h) && Finished(h, n) && Owes(h, n, from, Disallow(a, b, cause))
    ensures |h.worlds[from].log| <= c && Stood(h, PlaceOf(h, n), c, Closed(PairOf(a, b), cause))
  {
    var m := DoneBy(h, n, from, Disallow(a, b, cause));
    TakenStep(h, m, TaskOf(h, n), Disallow(a, b, cause));
    Wrote(h, n, from, m, Closed(PairOf(a, b), cause));
    c := PlaceOf(h, m);
  }

  lemma RecordDone(h: History, n: nat, from: nat, call: Attempt) returns (r: nat)
    requires IsRun(h) && Finished(h, n) && Owes(h, n, from, Record(call))
    ensures |h.worlds[from].log| <= r && Stood(h, PlaceOf(h, n), r, Recorded(call))
  {
    var m := DoneBy(h, n, from, Record(call));
    TakenStep(h, m, TaskOf(h, n), Record(call));
    Wrote(h, n, from, m, Recorded(call));
    r := PlaceOf(h, m);
  }

  // -------------------------------------------------------------------- accept

  /** The ring is answered: it alone goes, if it was there, and that is logged. */
  ghost predicate Answers(w: World, w2: World, k: Key) {
    w2.rings == w.rings - {k}
    && w2.log == w.log + if k in w.rings then [RingAnswered(Attempt(k.0, k.1, w.rings[k].video))] else []
  }

  /** An accept opens the gate and answers the ring it accepts: the caller's, to the one
      who accepts. Once that handler is done there was a moment since at which that ring
      was not live; if it was when its turn came, it was answered and nothing else went. */
  lemma AcceptAnswers(h: History, n: nat, uid: nat, to: nat, video: bool) returns (c: nat, m: nat)
    requires IsRun(h) && Admitted(h, n, uid, to, Accept, video) && Finished(h, n)
    ensures Stood(h, PlaceOf(h, n), c, Opened(PairOf(uid, to), ByAccept(PlaceOf(h, n))))
    ensures n < m && Acts(h, m, TaskOf(h, n))
    ensures Answers(h.worlds[m], h.worlds[m + 1], (to, uid))
  {
    var at := PlaceOf(h, n);
    AcceptOwes(h, n, uid, to, video);
    c := AllowDone(h, n, n + 1, uid, to, ByAccept(at));
    m := AnswerDone(h, n, n + 1, to, uid);
  }

  lemma AcceptOwes(h: History, n: nat, uid: nat, to: nat, video: bool)
    requires IsRun(h) && Admitted(h, n, uid, to, Accept, video)
    ensures Owes(h, n, n + 1, Allow(uid, to, ByAccept(PlaceOf(h, n))))
    ensures Owes(h, n, n + 1, Answer(to, uid))
  {
    Handling(h, n, uid, to, Accept, video);
  }

  lemma AnswerDone(h: History, n: nat, from: nat, caller: nat, callee: nat) returns (m: nat)
    requires IsRun(h) && Finished(h, n) && Owes(h, n, from, Answer(caller, callee))
    ensures from <= m && Acts(h, m, TaskOf(h, n))
    ensures Answers(h.worlds[m], h.worlds[m + 1], (caller, callee))
  {
    m := DoneBy(h, n, from, Answer(caller, callee));
    TakenStep(h, m, TaskOf(h, n), Answer(caller, callee));
  }

  // ----------------------------------------------------------------------- end

  /** At most one ring of the two goes: `a`'s to `b` if it is live, else `b`'s to `a`. */
  ghost predicate TakesOneOut(w: World, w2: World, a: nat, b: nat, missed: bool) {
    if (a, b) in w.rings then w2.rings == w.rings - {(a, b)} && Gone(w, w2, (a, b), missed)
    else if (b, a) in w.rings then w2.rings == w.rings - {(b, a)} && Gone(w, w2, (b, a), missed)
    else w2.rings == w.rings && w2.log == w.log
  }

  ghost predicate Gone(w: World, w2: World, k: Key, missed: bool)
    requires k in w.rings
  {
    var call := Attempt(k.0, k.1, w.rings[k].video);
    w2.log == w.log + [if missed then RingMissed(call) else RingBlocked(call)]
  }

  lemma EndRingDone(h: History, n: nat, from: nat, a: nat, b: nat, missed: bool) returns (m: nat)
    requires IsRun(h) && Finished(h, n) && Owes(h, n, from, EndRing(a, b, missed))
    ensures from <= m && Takes(h, m, TaskOf(h, n), EndRing(a, b, missed))
    ensures TakesOneOut(h.worlds[m], h.worlds[m + 1], a, b, missed)
  {
    m := DoneBy(h, n, from, EndRing(a, b, missed));
    TakenStep(h, m, TaskOf(h, n), EndRing(a, b, missed));
  }

  /** The call of the ring that went. */
  ghost function Ended(w: World, a: nat, b: nat): (c: Option<Attempt>) {
    if (a, b) in w.rings then Some(Attempt(a, b, w.rings[(a, b)].video))
    else if (b, a) in w.rings then Some(Attempt(b, a, w.rings[(b, a)].video))
    else None
  }

  /** An end closes the gate and takes out a ring of the two, in either direction, as
      missed; and that leaves its record. */
  lemma EndClosesAndRecords(h: History, n: nat, uid: nat, to: nat, video: bool) returns (c: nat, m: nat, r: nat)
    requires IsRun(h) && Admitted(h, n, uid, to, End, video) && Finished(h, n)
    ensures Stood(h, PlaceOf(h, n), c, Closed(PairOf(uid, to), ByEnd(PlaceOf(h, n))))
    ensures n < m && Acts(h, m, TaskOf(h, n))
    ensures TakesOneOut(h.worlds[m], h.worlds[m + 1], uid, to, true)
    ensures var call := Ended(h.worlds[m], uid, to);
            call.Some? ==> Stood(h, PlaceOf(h, m), r, Recorded(call.value))
  {
    EndOwes(h, n, uid, to, video);
    c := DisallowDone(h, n, n + 1, uid, to, ByEnd(PlaceOf(h, n)));
    m := EndRingDone(h, n, n + 1, uid, to, true);
    r := 0;
    if Ended(h.worlds[m], uid, to).Some? {
      r := EndIsRecorded(h, n, m, uid, to);
    }
  }

  lemma EndOwes(h: History, n: nat, uid: nat, to: nat, video: bool)
    requires IsRun(h) && Admitted(h, n, uid, to, End, video)
    ensures Owes(h, n, n + 1, Disallow(uid, to, ByEnd(PlaceOf(h, n))))
    ensures Owes(h, n, n + 1, EndRing(uid, to, true))
  {
    Handling(h, n, uid, to, End, video);
  }

  lemma EndIsRecorded(h: History, n: nat, m: nat, uid: nat, to: nat) returns (r: nat)
    requires IsRun(h) && Finished(h, n) && n < m < |h.events| && Takes(h, m, TaskOf(h, n), EndRing(uid, to, true))
    requires Ended(h.worlds[m], uid, to).Some?
    ensures Stood(h, PlaceOf(h, m), r, Recorded(Ended(h.worlds[m], uid, to).value))
  {
    var call := Ended(h.worlds[m], uid, to).value;
    EndLeavesRecord(h, n, m, uid, to);
    r := RecordDone(h, n, m + 1, call);
  }

  lemma EndLeavesRecord(h: History, n: nat, m: nat, uid: nat, to: nat)
    requires IsRun(h) && n < m < |h.events| && Takes(h, m, TaskOf(h, n), EndRing(uid, to, true))
    requires Ended(h.worlds[m], uid, to).Some?
    ensures Owes(h, n, m + 1, Record(Ended(h.worlds[m], uid, to).value))
    ensures |h.worlds[m + 1].log| == PlaceOf(h, m) + 1
  {
    TakenStep(h, m, TaskOf(h, n), EndRing(uid, to, true));
    Grows(h, n, m);
  }

  // -------------------------------------------------------------------- invite

  /** A ring of the call is live, new if it was not live before. */
  ghost predicate StartsRing(w: World, w2: World, call: Attempt, admission: nat, now: int) {
    var k := (call.caller, call.callee);
    if k in w.rings then w2.rings == w.rings && w2.log == w.log
    else w2.rings == w.rings[k := Ringing(call.video, now)] && w2.log == w.log + [RingStarted(call, admission)]
  }

  /** The caller is told that nobody is there; no ring starts. */
  ghost predicate Unreached(w: World, w2: World, call: Attempt) {
    call.callee !in w.conns && w2.rings == w.rings && w2.log == w.log + [NobodyHome(call)]
  }

  /** When an invite looked for the callee, when the push was answered, when it looked
      again, when its ring started or its record was written. */
  datatype Path = Path(look: nat, push: nat, again: nat, ring: nat, record: nat)

  /** The callee's phone was asleep, and the push woke it. */
  ghost predicate Woke(h: History, look: nat, push: nat, to: nat) {
    look < push < |h.events| && to !in h.worlds[look].conns && h.events[push].Exec? && h.events[push].o.pushed
  }

  /** The callee has a socket then. */
  ghost predicate There(h: History, m: nat, to: nat) {
    m < |h.events| && to in h.worlds[m].conns
  }

  /** The looks are the handler's own: without a socket at the first a push is awaited, and
      unless that woke the phone there is a second. */
  ghost predicate Looked(h: History, n: nat, x: Path, to: nat)
    requires n < |h.events|
  {
    n < x.look && Acts(h, x.look, TaskOf(h, n))
    && (!There(h, x.look, to) ==> x.look < x.push && Acts(h, x.push, TaskOf(h, n)))
    && (!Woke(h, x.look, x.push, to) ==> x.look < x.again && Acts(h, x.again, TaskOf(h, n)))
  }

  /** The gate is opened and a ring of the call started. */
  ghost predicate RingsOut(h: History, n: nat, ring: nat, call: Attempt, c: nat)
    requires n < |h.events|
  {
    n < ring && Acts(h, ring, TaskOf(h, n))
    && StartsRing(h.worlds[ring], h.worlds[ring + 1], call, PlaceOf(h, n), h.events[ring].o.now)
    && Stood(h, PlaceOf(h, n), c, Opened(PairOf(call.caller, call.callee), ByInvite(PlaceOf(h, n))))
  }

  /** The invite failed at its second look, and left its record. */
  ghost predicate FallsThrough(h: History, again: nat, record: nat, call: Attempt) {
    again < |h.events| && Unreached(h.worlds[again], h.worlds[again + 1], call)
    && Stood(h, PlaceOf(h, again), record, Recorded(call))
  }

  /** An invite rings the callee exactly when a push woke its phone or it has a socket at
      the second look; otherwise nobody is home, and that is recorded. */
  lemma InviteRingsOrIsRecorded(h: History, n: nat, uid: nat, to: nat, video: bool)
    returns (x: Path, c: nat)
    requires IsRun(h) && Admitted(h, n, uid, to, Invite, video) && Finished(h, n)
    ensures Looked(h, n, x, to)
    ensures if Woke(h, x.look, x.push, to) || There(h, x.again, to)
            then RingsOut(h, n, x.ring, Attempt(uid, to, video), c)
            else FallsThrough(h, x.again, x.record, Attempt(uid, to, video))
  {
    var call := Attempt(uid, to, video);
    InviteOwes(h, n, uid, to, video);
    var look := RouteDone(h, n, n + 1, call);
    if There(h, look, to) {
      var again, ring, record, place := SecondLook(h, n, look + 1, call);
      return Path(look, 0, again, ring, record), place;
    }
    x, c := Asleep(h, n, look, call);
  }

  /** Nobody at the first look. */
  lemma Asleep(h: History, n: nat, look: nat, call: Attempt) returns (x: Path, c: nat)
    requires IsRun(h) && Finished(h, n) && n < look && Acts(h, look, TaskOf(h, n))
    requires !There(h, look, call.callee) && Owes(h, n, look + 1, Woken(call, PlaceOf(h, n)))
    ensures x.look == look && look < x.push && Acts(h, x.push, TaskOf(h, n))
    ensures !Woke(h, look, x.push, call.callee) ==> look < x.again && Acts(h, x.again, TaskOf(h, n))
    ensures if Woke(h, look, x.push, call.callee) || There(h, x.again, call.callee)
            then RingsOut(h, n, x.ring, call, c) else FallsThrough(h, x.again, x.record, call)
  {
    var push := WokenDone(h, n, look + 1, call);
    if h.events[push].o.pushed {
      var ring, place := RingStarts(h, n, push + 1, call);
      return Path(look, push, 0, ring, 0), place;
    }
    var again, ring, record, place := SecondLook(h, n, push + 1, call);
    return Path(look, push, again, ring, record), place;
  }

  lemma SecondLook(h: History, n: nat, from: nat, call: Attempt)
    returns (again: nat, ring: nat, record: nat, c: nat)
    requires IsRun(h) && Finished(h, n) && Owes(h, n, from, RouteAgain(call, PlaceOf(h, n)))
    ensures from <= again && Acts(h, again, TaskOf(h, n))
    ensures if There(h, again, call.callee) then RingsOut(h, n, ring, call, c)
            else FallsThrough(h, again, record, call)
  {
    again := RouteAgainDone(h, n, from, call);
    ring, record, c := 0, 0, 0;
    if There(h, again, call.callee) {
      ring, c := RingStarts(h, n, again + 1, call);
    } else {
      record := RecordDone(h, n, again + 1, call);
    }
  }

  lemma InviteOwes(h: History, n: nat, uid: nat, to: nat, video: bool)
    requires IsRun(h) && Admitted(h, n, uid, to, Invite, video)
    ensures Owes(h, n, n + 1, Route(Attempt(uid, to, video), PlaceOf(h, n)))
  {
    Handling(h, n, uid, to, Invite, video);
  }

  /** An act of the handler has put another on its list. */
  lemma LeadsTo(h: History, n: nat, from: nat, act: Act, m: nat, next: Act)
    requires IsRun(h) && Owes(h, n, from, act) && from <= m && Takes(h, m, TaskOf(h, n), act)
    requires next in Do(h.worlds[m], act, h.events[m].o).tail
    ensures Owes(h, n, m + 1, next)
  {
    TakenLeads(h, m, TaskOf(h, n), act, Do(h.worlds[m], act, h.events[m].o).tail);
    LogsStay(h, from, m + 1);
  }

  lemma LogsStay(h: History, from: nat, m: nat)
    requires IsRun(h) && from <= m <= |h.events|
    ensures PlaceOf(h, from) <= PlaceOf(h, m)
  {
    Grows(h, from, m);
  }

  lemma RouteDone(h: History, n: nat, from: nat, call: Attempt) returns (m: nat)
    requires IsRun(h) && Finished(h, n) && Owes(h, n, from, Route(call, PlaceOf(h, n)))
    ensures from <= m && Acts(h, m, TaskOf(h, n))
    ensures Owes(h, n, m + 1, if There(h, m, call.callee) then RouteAgain(call, PlaceOf(h, n))
                                   else Woken(call, PlaceOf(h, n)))
  {
    var act: Act := Route(call, PlaceOf(h, n));
    m := DoneBy(h, n, from, act);
    LeadsTo(h, n, from, act, m,
      if There(h, m, call.callee) then RouteAgain(call, PlaceOf(h, n)) else Woken(call, PlaceOf(h, n)));
  }

  /** The handler is about to open the gate and start the ring. */
  ghost predicate AboutToRing(h: History, n: nat, from: nat, call: Attempt)
    requires n <= |h.events|
  {
    Owes(h, n, from, Allow(call.caller, call.callee, ByInvite(PlaceOf(h, n))))
    && Owes(h, n, from, StartRing(call, PlaceOf(h, n)))
  }

  lemma WokenDone(h: History, n: nat, from: nat, call: Attempt) returns (m: nat)
    requires IsRun(h) && Finished(h, n) && Owes(h, n, from, Woken(call, PlaceOf(h, n)))
    ensures from <= m && Acts(h, m, TaskOf(h, n))
    ensures if h.events[m].o.pushed then AboutToRing(h, n, m + 1, call)
            else Owes(h, n, m + 1, RouteAgain(call, PlaceOf(h, n)))
  {
    var at := PlaceOf(h, n);
    var act: Act := Woken(call, at);
    m := DoneBy(h, n, from, act);
    if h.events[m].o.pushed {
      LeadsTo(h, n, from, act, m, Allow(call.caller, call.callee, ByInvite(at)));
      LeadsTo(h, n, from, act, m, StartRing(call, at));
    } else {
      LeadsTo(h, n, from, act, m, RouteAgain(call, at));
    }
  }

  lemma RouteAgainDone(h: History, n: nat, from: nat, call: Attempt) returns (m: nat)
    requires IsRun(h) && Finished(h, n) && Owes(h, n, from, RouteAgain(call, PlaceOf(h, n)))
    ensures from <= m && Acts(h, m, TaskOf(h, n))
    ensures if There(h, m, call.callee) then AboutToRing(h, n, m + 1, call)
            else && Owes(h, n, m + 1, Record(call)) && Unreached(h.worlds[m], h.worlds[m + 1], call)
                 && |h.worlds[m + 1].log| == PlaceOf(h, m) + 1
  {
    var at := PlaceOf(h, n);
    var act: Act := RouteAgain(call, at);
    m := DoneBy(h, n, from, act);
    if There(h, m, call.callee) {
      LeadsTo(h, n, from, act, m, Allow(call.caller, call.callee, ByInvite(at)));
      LeadsTo(h, n, from, act, m, StartRing(call, at));
    } else {
      LeadsTo(h, n, from, act, m, Record(call));
      TakenStep(h, m, TaskOf(h, n), act);
    }
  }

  lemma RingStarts(h: History, n: nat, from: nat, call: Attempt) returns (ring: nat, c: nat)
    requires IsRun(h) && Finished(h, n) && AboutToRing(h, n, from, call)
    ensures RingsOut(h, n, ring, call, c)
  {
    c := AllowDone(h, n, from, call.caller, call.callee, ByInvite(PlaceOf(h, n)));
    ring := StartRingDone(h, n, from, call);
  }

  lemma StartRingDone(h: History, n: nat, from: nat, call: Attempt) returns (m: nat)
    requires IsRun(h) && Finished(h, n) && Owes(h, n, from, StartRing(call, PlaceOf(h, n)))
    ensures from <= m && Acts(h, m, TaskOf(h, n))
    ensures StartsRing(h.worlds[m], h.worlds[m + 1], call, PlaceOf(h, n), h.events[m].o.now)
  {
    var act: Act := StartRing(call, PlaceOf(h, n));
    m := DoneBy(h, n, from, act);
    TakenStep(h, m, TaskOf(h, n), act);
  }
}
