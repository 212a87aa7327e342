/** A block request whose client hangs up between the insert and the closing leaves the
    gate as it was: the gate is closed exactly if that does not happen. */
module BlockCutShort {
  import opened Blocks
  import opened CallOutcomes
  import opened CallSteps
  import opened Calls
  import opened GateOutcomes
  import opened VoiceGate

  /** What a block request has to do, and what its insert, at place `j`, leaves to do. */
  function Request(me: nat, other: nat): Task {
    [Suspend, CutFriendship(me, other), Suspend, InsertBlock(me, other)]
  }

  function Closing(me: nat, other: nat, j: nat): Task {
    [Suspend, Disallow(me, other, ByBlock(j)), Disallow(other, me, ByBlock(j)), EndRing(me, other, false)]
  }

  /** The request is before its insert, after it, or over. */
  ghost predicate Stage(task: Task, me: nat, other: nat) {
    task == [] || (exists k :: 0 <= k < 4 && task == Request(me, other)[k..])
    || exists j: nat, k :: 0 <= k < 4 && task == Closing(me, other, j)[k..]
  }

  lemma RequestGoesOn(w: World, act: Act, o: Oracle, rest: Task, me: nat, other: nat, k: nat)
    requires k < 4 && [act] + rest == Request(me, other)[k..]
    ensures Stage(Do(w, act, o).tail + rest, me, other)
  {
    assert ([act] + rest)[1..] == rest && ([act] + rest)[0] == Request(me, other)[k];
    if k < 3 {
      assert [] + rest == Request(me, other)[k + 1..];
    } else {
      assert Do(w, act, o).tail + rest == Closing(me, other, |w.log|)[0..];
    }
  }

  lemma ClosingGoesOn(w: World, act: Act, o: Oracle, rest: Task, me: nat, other: nat, j: nat, k: nat)
    requires k < 4 && [act] + rest == Closing(me, other, j)[k..]
    ensures Stage(Do(w, act, o).tail + rest, me, other)
  {
    assert ([act] + rest)[1..] == rest && ([act] + rest)[0] == Closing(me, other, j)[k];
    assert [] + rest == Closing(me, other, j)[k + 1..];
  }

  lemma ActKeepsStage(w: World, act: Act, o: Oracle, rest: Task, me: nat, other: nat)
    requires Stage([act] + rest, me, other)
    ensures Stage(Do(w, act, o).tail + rest, me, other)
  {
    var task := [act] + rest;
    if k :| 0 <= k < 4 && task == Request(me, other)[k..] {
      RequestGoesOn(w, act, o, rest, me, other, k);
    } else {
      var j: nat, k :| 0 <= k < 4 && task == Closing(me, other, j)[k..];
      ClosingGoesOn(w, act, o, rest, me, other, j, k);
    }
  }

  lemma {:induction false} StageAt(h: History, n: nat, t: nat, me: nat, other: nat)
    requires IsRun(h) && Asks(h, n, me, other) && n < t <= |h.events|
    ensures TaskOf(h, n) < |h.worlds[t].tasks| && Stage(h.worlds[t].tasks[TaskOf(h, n)], me, other)
    decreases t
  {
    var i := TaskOf(h, n);
    if t == n + 1 {
      Begun(h, n);
      assert Request(me, other)[0..] == Request(me, other);
    } else {
      StageAt(h, n, t - 1, me, other);
      StageStep(h, t - 1, i, me, other);
    }
  }

  lemma StageStep(h: History, t: nat, i: nat, me: nat, other: nat)
    requires IsRun(h) && t < |h.events| && i < |h.worlds[t].tasks| && Stage(h.worlds[t].tasks[i], me, other)
    ensures i < |h.worlds[t + 1].tasks| && Stage(h.worlds[t + 1].tasks[i], me, other)
  {
    assert StepsTo(h, t);
    OneMore(h, t);
    if Acts(h, t, i) {
      var task := h.worlds[t].tasks[i];
      assert task == [task[0]] + task[1..];
      TakenStep(h, t, i, task[0]);
      ActKeepsStage(h.worlds[t], task[0], h.events[t].o, task[1..], me, other);
    }
  }

  // ------------------------------------------------------- whose closings they are

  /** The acts that close the gate for the block at place `j`. */
  predicate ClosesFor(act: Act, j: nat) {
    act.Disallow? && act.cause == ByBlock(j)
  }

  ghost predicate ClosedFor(log: seq<Entry>, j: nat) {
    exists c :: 0 <= c < |log| && log[c].Closed? && log[c].cause == ByBlock(j)
  }

  /** Only task `i` has such acts to do. */
  ghost predicate OnlyHis(tasks: seq<Task>, i: nat, j: nat) {
    forall i2, x :: 0 <= i2 < |tasks| && i2 != i && 0 <= x < |tasks[i2]| ==> !ClosesFor(tasks[i2][x], j)
  }

  lemma {:induction false} WalksCloseNothing(calls: seq<Attempt>, base: nat, j: nat)
    ensures forall act :: act in RecordAll(calls) ==> !ClosesFor(act, j)
    ensures forall act :: act in AllowAll(calls, base) ==> !ClosesFor(act, j)
    ensures forall act :: act in CloseAndRecordAll(calls, base) ==> !ClosesFor(act, j)
  {
    if calls != [] {
      WalksCloseNothing(calls[..|calls| - 1], base, j);
    }
  }

  /** New closings for blocks are for the block just made. */
  lemma TailClosesItsOwn(w: World, act: Act, o: Oracle, j: nat)
    requires j < |w.log|
    ensures forall next :: next in Do(w, act, o).tail ==> !ClosesFor(next, j)
  {
    WalksCloseNothing(Attempts(o.order), |w.log|, j);
  }

  lemma BegunClosesNothing(w: World, e: Event, j: nat)
    requires !e.Exec? && !e.Abort?
    ensures forall next :: next in Begin(w, e).tail ==> !ClosesFor(next, j)
  {
    if e.SweepTick? {
      WalksCloseNothing(Attempts(e.order), |w.log|, j);
    }
  }

  lemma OnlyHisStays(h: History, t: nat, i: nat, j: nat)
    requires IsRun(h) && t < |h.events| && j < |h.worlds[t].log| && i < |h.worlds[t].tasks|
    requires OnlyHis(h.worlds[t].tasks, i, j)
    ensures OnlyHis(h.worlds[t + 1].tasks, i, j)
  {
    assert StepsTo(h, t);
    var w, e := h.worlds[t], h.events[t];
    if e.Exec? && Runs(w, e.task) {
      TailClosesItsOwn(w, w.tasks[e.task][0], e.o, j);
    } else if !e.Exec? && !e.Abort? {
      BegunClosesNothing(w, e, j);
    }
  }

  lemma NothingClosed(log: seq<Entry>, j: nat)
    requires forall e :: e in log ==> !(e.Closed? && e.cause == ByBlock(j))
    ensures !ClosedFor(log, j)
  {
    forall c | 0 <= c < |log| ensures !(log[c].Closed? && log[c].cause == ByBlock(j)) {
      assert log[c] in log;
    }
  }

  lemma ActClosesForItself(w: World, act: Act, o: Oracle, j: nat)
    requires !ClosesFor(act, j)
    ensures !ClosedFor(Do(w, act, o).entries, j)
  {
    MissedIsQuiet(Attempts(o.order));
    NothingClosed(Do(w, act, o).entries, j);
  }

  lemma EventClosesNothing(w: World, e: Event, j: nat)
    requires !e.Exec? && !e.Abort?
    ensures !ClosedFor(Begin(w, e).entries, j)
  {
    if e.SweepTick? {
      MissedIsQuiet(Attempts(e.order));
    }
    NothingClosed(Begin(w, e).entries, j);
  }

  lemma ClosedInEither(log: seq<Entry>, more: seq<Entry>, j: nat)
    requires !ClosedFor(log, j) && !ClosedFor(more, j)
    ensures !ClosedFor(log + more, j)
  {
    var all := log + more;
    forall c | 0 <= c < |all| ensures !(all[c].Closed? && all[c].cause == ByBlock(j)) {
      assert c < |log| ==> all[c] == log[c];
      assert c >= |log| ==> all[c] == more[c - |log|];
    }
  }

  /** No other task closes for the block. */
  lemma OthersDoNotClose(h: History, t: nat, i: nat, j: nat)
    requires IsRun(h) && t < |h.events| && !Acts(h, t, i) && OnlyHis(h.worlds[t].tasks, i, j)
    requires !ClosedFor(h.worlds[t].log, j)
    ensures !ClosedFor(h.worlds[t + 1].log, j)
  {
    assert StepsTo(h, t);
    var w, e := h.worlds[t], h.events[t];
    if e.Exec? {
      if Runs(w, e.task) && Possible(w, w.tasks[e.task][0], e.o) {
        ActClosesForItself(w, w.tasks[e.task][0], e.o, j);
        ClosedInEither(w.log, Do(w, w.tasks[e.task][0], e.o).entries, j);
      }
    } else if e.Abort? {
      if Cancels(w, e.task) {
        LostIsPlain(w.tasks[e.task]);
        NothingClosed(LostOf(w.tasks[e.task]), j);
        ClosedInEither(w.log, LostOf(w.tasks[e.task]), j);
      }
    } else {
      EventClosesNothing(w, e, j);
      ClosedInEither(w.log, Begin(w, e).entries, j);
    }
  }

  // -------------------------------------------------------------- after the insert

  /** The client has hung up since event `a`. */
  ghost predicate HungUp(h: History, a: nat, t: nat, i: nat) {
    exists x :: a < x < t && CancelledBy(h, x, i)
  }

  /** The closing waits, is on its way or done, or was dropped where it waited. */
  ghost predicate Phase(h: History, a: nat, t: nat, i: nat, me: nat, other: nat, j: nat)
    requires t <= |h.events|
  {
    var w := h.worlds[t];
    i < |w.tasks| && j < |w.log| && OnlyHis(w.tasks, i, j)
    && ((w.tasks[i] == Closing(me, other, j) && !ClosedFor(w.log, j) && !HungUp(h, a, t, i))
        || ((exists k :: 1 <= k <= 4 && w.tasks[i] == Closing(me, other, j)[k..]) && !HungUp(h, a, t, i))
        || (w.tasks[i] == [] && !ClosedFor(w.log, j) && HungUp(h, a, t, i)))
  }

  lemma PhaseOfAct(h: History, a: nat, t: nat, i: nat, me: nat, other: nat, j: nat)
    requires IsRun(h) && a < t < |h.events| && Phase(h, a, t, i, me, other, j) && Acts(h, t, i)
    ensures Phase(h, a, t + 1, i, me, other, j)
  {
    var w, list := h.worlds[t], Closing(me, other, j);
    OnlyHisStays(h, t, i, j);
    OneMore(h, t);
    TakenStep(h, t, i, w.tasks[i][0]);
    if w.tasks[i] == list {
      assert list == list[0..] && [] + list[1..] == list[1..];
    } else {
      var k :| 1 <= k <= 4 && w.tasks[i] == list[k..];
      assert k < 4 && [] + list[k..][1..] == list[k + 1..];
    }
    assert !CancelledBy(h, t, i);
  }

  lemma PhaseOfOther(h: History, a: nat, t: nat, i: nat, me: nat, other: nat, j: nat)
    requires IsRun(h) && a < t < |h.events| && Phase(h, a, t, i, me, other, j) && !Acts(h, t, i)
    ensures Phase(h, a, t + 1, i, me, other, j)
  {
    var w, list := h.worlds[t], Closing(me, other, j);
    OnlyHisStays(h, t, i, j);
    OneMore(h, t);
    assert StepsTo(h, t);
    if !ClosedFor(w.log, j) {
      OthersDoNotClose(h, t, i, j);
    }
    if CancelledBy(h, t, i) {
      assert w.tasks[i] == list;
      assert h.worlds[t + 1].tasks[i] == [];
    } else {
      assert h.worlds[t + 1].tasks[i] == w.tasks[i];
    }
  }

  lemma {:induction false} PhaseAt(h: History, n: nat, a: nat, t: nat, me: nat, other: nat)
    requires IsRun(h) && Asks(h, n, me, other) && Inserts(h, n, a, me, other) && a < t <= |h.events|
    ensures Phase(h, a, t, TaskOf(h, n), me, other, PlaceOf(h, a))
    decreases t
  {
    if t == a + 1 {
      PhaseBegins(h, n, a, me, other);
    } else {
      PhaseAt(h, n, a, t - 1, me, other);
      if Acts(h, t - 1, TaskOf(h, n)) {
        PhaseOfAct(h, a, t - 1, TaskOf(h, n), me, other, PlaceOf(h, a));
      } else {
        PhaseOfOther(h, a, t - 1, TaskOf(h, n), me, other, PlaceOf(h, a));
      }
    }
  }

  lemma OnlyInsertsBlock(w: World, act: Act, o: Oracle, me: nat, other: nat)
    requires Do(w, act, o).entries == [Blocked(me, other)]
    ensures act == InsertBlock(me, other)
  {
    MissedIsQuiet(Attempts(o.order));
    assert [Blocked(me, other)][0] == Blocked(me, other);
  }

  /** Nothing closes for the block before it is made. */
  lemma NobodyYet(h: History, a: nat, i: nat)
    requires IsRun(h) && a <= |h.events|
    ensures OnlyHis(h.worlds[a].tasks, i, PlaceOf(h, a)) && !ClosedFor(h.worlds[a].log, PlaceOf(h, a))
  {
    var w, j := h.worlds[a], PlaceOf(h, a);
    InvAt(h, a);
    forall i2, x | 0 <= i2 < |w.tasks| && 0 <= x < |w.tasks[i2]| ensures !ClosesFor(w.tasks[i2][x], j) {
      assert w.tasks[i2] in w.tasks && TaskBacked(w.log, w.tasks[i2]);
      assert w.tasks[i2][x] in w.tasks[i2] && ActBacked(w.log, w.tasks[i2][x]);
    }
    forall c | 0 <= c < |w.log| ensures !(w.log[c].Closed? && w.log[c].cause == ByBlock(j)) {
      JustifiedAt(w.log, c);
    }
  }

  lemma PhaseBegins(h: History, n: nat, a: nat, me: nat, other: nat)
    requires IsRun(h) && Asks(h, n, me, other) && Inserts(h, n, a, me, other)
    ensures Phase(h, a, a + 1, TaskOf(h, n), me, other, PlaceOf(h, a))
    ensures h.worlds[a + 1].tasks[TaskOf(h, n)] == Closing(me, other, PlaceOf(h, a))
  {
    var i, w, j := TaskOf(h, n), h.worlds[a], PlaceOf(h, a);
    var act := w.tasks[i][0];
    TakenStep(h, a, i, act);
    var entries := Do(w, act, h.events[a].o).entries;
    assert entries == (w.log + entries)[|w.log|..] == [Blocked(me, other)];
    OnlyInsertsBlock(w, act, h.events[a].o, me, other);
    StageAt(h, n, a, me, other);
    LastOfRequest(w.tasks[i], me, other);
    assert Closing(me, other, j) + [] == Closing(me, other, j);
    NobodyYet(h, a, i);
    ClosedInEither(w.log, [Blocked(me, other)], j);
  }

  lemma ClosingInsertsNothing(me: nat, other: nat, j: nat, k: nat)
    requires k < 4
    ensures !Closing(me, other, j)[k..][0].InsertBlock?
  {
    assert Closing(me, other, j)[k..][0] == Closing(me, other, j)[k];
  }

  lemma RequestInsertsLast(me: nat, other: nat, k: nat)
    requires k < 4 && Request(me, other)[k..][0].InsertBlock?
    ensures Request(me, other)[k..][1..] == []
  {
    assert Request(me, other)[k..][0] == Request(me, other)[k];
  }

  lemma LastOfRequest(task: Task, me: nat, other: nat)
    requires Stage(task, me, other) && task != [] && task[0].InsertBlock?
    ensures task[1..] == []
  {
    forall j: nat, k: nat | k < 4 ensures !Closing(me, other, j)[k..][0].InsertBlock? {
      ClosingInsertsNothing(me, other, j, k);
    }
    var k :| 0 <= k < 4 && task == Request(me, other)[k..];
    RequestInsertsLast(me, other, k);
  }

  /** A block request whose insert was made, and that is over, has closed the gate exactly
      if its client did not hang up between the two. */
  lemma ClosesExactlyUnlessHungUp(h: History, n: nat, a: nat, me: nat, other: nat)
    requires IsRun(h) && Asks(h, n, me, other) && Inserts(h, n, a, me, other)
    requires TaskOf(h, n) < |Last(h).tasks| && Last(h).tasks[TaskOf(h, n)] == []
    ensures (exists c :: Stood(h, PlaceOf(h, a), c, Closed(PairOf(me, other), ByBlock(PlaceOf(h, a)))))
            <==> !HungUp(h, a, |h.events|, TaskOf(h, n))
  {
    PhaseAt(h, n, a, |h.events|, me, other);
    if !HungUp(h, a, |h.events|, TaskOf(h, n)) {
      var c := ClosesUnlessHungUp(h, n, a, me, other);
    }
  }

  lemma ClosesUnlessHungUp(h: History, n: nat, a: nat, me: nat, other: nat) returns (c: nat)
    requires IsRun(h) && Asks(h, n, me, other) && Inserts(h, n, a, me, other)
    requires TaskOf(h, n) < |Last(h).tasks| && Last(h).tasks[TaskOf(h, n)] == []
    requires !HungUp(h, a, |h.events|, TaskOf(h, n))
    ensures Stood(h, PlaceOf(h, a), c, Closed(PairOf(me, other), ByBlock(PlaceOf(h, a))))
  {
    var i, j := TaskOf(h, n), PlaceOf(h, a);
    var close: Act := Disallow(me, other, ByBlock(j));
    PhaseBegins(h, n, a, me, other);
    assert Closing(me, other, j)[1] == close;
    Carried(h, a + 1, |h.events|, i, close);
    var m :| a + 1 <= m < |h.events| && Takes(h, m, i, close);
    TakenStep(h, m, i, close);
    Logged(h, m, [Closed(PairOf(me, other), ByBlock(j))]);
    assert [Closed(PairOf(me, other), ByBlock(j))][0] == Closed(PairOf(me, other), ByBlock(j));
    Grows(h, a + 1, m);
    c := PlaceOf(h, m);
  }
}
