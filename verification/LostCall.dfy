/** A run in which a missed call leaves no record: the handler of the hang-up is
    cancelled where it waits for the database, after it took the ring out. */
module LostCall {
  import opened Blocks
  import opened CallLedger
  import opened Calls
  import opened Hub
  import opened Rings
  import opened Wrappers

  /** Task `i` is the only one with acts left. */
  ghost predicate OnlyTask(tasks: seq<Task>, i: nat, task: Task) {
    i < |tasks| && tasks[i] == task && forall j :: 0 <= j < |tasks| && j != i ==> tasks[j] == []
  }

  ghost predicate Reachable(w: World) {
    exists events :: Run(events) == w
  }

  lemma StepReaches(w: World, e: Event)
    requires Reachable(w)
    ensures Reachable(Step(w, e))
  {
    var events :| Run(events) == w;
    assert (events + [e])[..|events|] == events;
    assert Run(events + [e]) == Step(w, e);
  }

  /** An event on an idle instance, and the one task it starts. */
  lemma Began(w: World, e: Event, f: Effect) returns (w2: World)
    requires Reachable(w) && Idle(w.tasks) && !e.Exec? && !e.Abort? && f == Begin(w, e)
    ensures Reachable(w2) && w2 == f.w.(tasks := w2.tasks, log := w.log + f.entries)
    ensures OnlyTask(w2.tasks, |w.tasks|, f.tail) && (f.tail == [] ==> Idle(w2.tasks))
  {
    StepReaches(w, e);
    w2 := Step(w, e);
    forall j | 0 <= j < |w2.tasks| && j != |w.tasks| ensures w2.tasks[j] == [] {
      assert w.tasks[j] in w.tasks;
    }
  }

  /** The one running task takes its next act. */
  lemma Took(w: World, i: nat, act: Act, rest: Task, o: Oracle, f: Effect) returns (w2: World)
    requires Reachable(w) && OnlyTask(w.tasks, i, [act] + rest) && Possible(w, act, o) && f == Do(w, act, o)
    ensures Reachable(w2) && w2 == f.w.(tasks := w2.tasks, log := w.log + f.entries)
    ensures OnlyTask(w2.tasks, i, f.tail + rest) && (f.tail + rest == [] ==> Idle(w2.tasks))
  {
    StepReaches(w, Exec(i, o));
    w2 := Step(w, Exec(i, o));
    assert ([act] + rest)[1..] == rest;
  }

  lemma Cancelled(w: World, i: nat, rest: Task) returns (w2: World)
    requires Reachable(w) && OnlyTask(w.tasks, i, [Suspend] + rest)
    ensures Reachable(w2) && w2 == w.(tasks := w2.tasks, log := w.log + LostOf([Suspend] + rest)) && Idle(w2.tasks)
  {
    StepReaches(w, Abort(i));
    w2 := Step(w, Abort(i));
  }

  const QUIET := Oracle(0, false, [])

  const RING_OUT := Attempt(1, 2, false)

  ghost predicate BothOnline(w: World) {
    Reachable(w) && Idle(w.tasks) && w.rings == map[] && w.friends == {(1, 2)} && w.blocks == {}
    && 1 in w.conns && 2 in w.conns && |w.conns[1]| == 1 && w.log == [Befriended((1, 2))]
  }

  /** A friend comes online and has no call waiting. */
  lemma ComesOnline(w: World, user: nat) returns (w2: World)
    requires Reachable(w) && Idle(w.tasks) && w.rings == map[]
    ensures Reachable(w2) && Idle(w2.tasks)
    ensures var conns := Registered(w.conns, user, Conn(w.nextId, None));
            w2 == w.(conns := conns, nextId := w.nextId + 1, tasks := w2.tasks)
  {
    w2 := Began(w, Connect(user, None), Begin(w, Connect(user, None)));
    assert Incoming(map[], user) == map[] && [Replay(user)] + [] == [Replay(user)];
    w2 := Took(w2, |w.tasks|, Replay(user), [], QUIET, Do(w2, Replay(user), QUIET));
  }

  lemma TwoFriendsOnline() returns (w: World)
    ensures BothOnline(w)
  {
    assert Run([]) == EMPTY;
    w := Began(EMPTY, Befriend(1, 2), Begin(EMPTY, Befriend(1, 2)));
    w := ComesOnline(w, 2);
    w := ComesOnline(w, 1);
  }

  ghost predicate OneRingsTwo(w: World) {
    Reachable(w) && Idle(w.tasks) && w.friends == {(1, 2)} && w.blocks == {} && 1 in w.conns && |w.conns[1]| == 1
    && w.rings == map[(1, 2) := Ringing(false, 0)]
    && w.log == [Befriended((1, 2)), Passed(Invite, 1, 2), Opened((1, 2), ByInvite(1)), RingStarted(RING_OUT, 1)]
  }

  /** An idle instance where `a` may call `b`, who is online. */
  ghost predicate MayInvite(w: World, a: nat, b: nat) {
    Reachable(w) && Idle(w.tasks) && b != 0 && b in w.conns && GateOpen(w, a, b)
  }

  lemma AnInvitePasses(w0: World, a: nat, b: nat) returns (w: World)
    requires MayInvite(w0, a, b)
    ensures Reachable(w) && OnlyTask(w.tasks, |w0.tasks|, [RouteAgain(Attempt(a, b, false), |w0.log|)] + [])
    ensures w == w0.(tasks := w.tasks, log := w0.log + [Passed(Invite, a, b)])
  {
    var call := Attempt(a, b, false);
    var route: Act, again: Act := Route(call, |w0.log|), RouteAgain(call, |w0.log|);
    w := Began(w0, Signal(a, b, Invite, false), Effect(w0, [Passed(Invite, a, b)], [route]));
    assert [route] + [] == [route];
    w := Took(w, |w0.tasks|, route, [], QUIET, Effect(w, [], [again]));
  }

  /** An invite of a ring not yet live runs to its end. */
  lemma ARingStarts(w0: World, a: nat, b: nat) returns (w: World)
    requires MayInvite(w0, a, b) && (a, b) !in w0.rings
    ensures Reachable(w) && Idle(w.tasks)
    ensures w == w0.(voice := w0.voice + {PairOf(a, b)}, rings := w0.rings[(a, b) := Ringing(false, 0)],
                     tasks := w.tasks,
                     log := w0.log + [Passed(Invite, a, b), Opened(PairOf(a, b), ByInvite(|w0.log|)),
                                      RingStarted(Attempt(a, b, false), |w0.log|)])
  {
    var call, i, at := Attempt(a, b, false), |w0.tasks|, |w0.log|;
    var open: Act, start: Act := Allow(a, b, ByInvite(at)), StartRing(call, at);
    w := AnInvitePasses(w0, a, b);
    w := Took(w, i, RouteAgain(call, at), [], QUIET, Effect(w, [], [open, start]));
    assert [open, start] + [] == [open] + [start];
    var log := w.log;
    w := ItRings(w, i, a, b, at);
    assert log + [Opened(PairOf(a, b), ByInvite(at)), RingStarted(call, at)]
        == w0.log + [Passed(Invite, a, b), Opened(PairOf(a, b), ByInvite(at)), RingStarted(call, at)];
  }

  lemma ItRings(w0: World, i: nat, a: nat, b: nat, at: nat) returns (w: World)
    requires Reachable(w0) && (a, b) !in w0.rings
    requires OnlyTask(w0.tasks, i, [Allow(a, b, ByInvite(at))] + [StartRing(Attempt(a, b, false), at)])
    ensures Reachable(w) && Idle(w.tasks)
    ensures w == w0.(voice := w0.voice + {PairOf(a, b)}, rings := w0.rings[(a, b) := Ringing(false, 0)],
                     tasks := w.tasks,
                     log := w0.log + [Opened(PairOf(a, b), ByInvite(at)), RingStarted(Attempt(a, b, false), at)])
  {
    var call := Attempt(a, b, false);
    var open: Act, start: Act := Allow(a, b, ByInvite(at)), StartRing(call, at);
    var gate := w0.(voice := w0.voice + {PairOf(a, b)});
    w := Took(w0, i, open, [start], QUIET, Effect(gate, [Opened(PairOf(a, b), ByInvite(at))], []));
    assert [] + [start] == [start] + [];
    var rings := w.rings[(a, b) := Ringing(false, 0)];
    w := Took(w, i, start, [], QUIET, Effect(w.(rings := rings), [RingStarted(call, at)], []));
  }

  const CLOSE: Act := Disallow(1, 2, ByEnd(4))

  const HANG_UP: Act := EndRing(1, 2, true)

  lemma AHangUpPasses(w0: World) returns (w: World)
    requires OneRingsTwo(w0)
    ensures Reachable(w) && OnlyTask(w.tasks, |w0.tasks|, [HANG_UP] + [])
    ensures w == w0.(voice := w.voice, tasks := w.tasks, log := w0.log + [Passed(End, 1, 2), Closed((1, 2), ByEnd(4))])
  {
    w := Began(w0, Signal(1, 2, End, false), Effect(w0, [Passed(End, 1, 2)], [CLOSE, HANG_UP]));
    assert [CLOSE, HANG_UP] == [CLOSE] + [HANG_UP];
    var closed := w.(voice := w.voice - {(1, 2)});
    w := Took(w, |w0.tasks|, CLOSE, [HANG_UP], QUIET, Effect(closed, [Closed((1, 2), ByEnd(4))], []));
    assert [] + [HANG_UP] == [HANG_UP] + [];
  }

  lemma HangUpTakesTheRing(w: World)
    requires w.rings == map[(1, 2) := Ringing(false, 0)]
    ensures Do(w, HANG_UP, QUIET)
            == Effect(w.(rings := map[]), [RingMissed(RING_OUT)], [Suspend, Record(RING_OUT)])
  {
    assert w.rings - {(1, 2)} == map[];
  }

  /** The hang-up has taken the ring out and waits to write the record. */
  lemma HangsUp(w0: World) returns (w: World)
    requires OneRingsTwo(w0)
    ensures Reachable(w) && w.conns == w0.conns && w.rings == map[]
    ensures OnlyTask(w.tasks, |w0.tasks|, [Suspend] + [Record(RING_OUT)])
    ensures w.log == w0.log + [Passed(End, 1, 2), Closed((1, 2), ByEnd(4)), RingMissed(RING_OUT)]
  {
    w := AHangUpPasses(w0);
    var tail := [Suspend, Record(RING_OUT)];
    HangUpTakesTheRing(w);
    w := Took(w, |w0.tasks|, HANG_UP, [], QUIET, Effect(w.(rings := map[]), [RingMissed(RING_OUT)], tail));
    assert tail + [] == [Suspend] + [Record(RING_OUT)];
  }

  lemma LastSocketGoes(w0: World) returns (w: World)
    requires Reachable(w0) && Idle(w0.tasks) && w0.rings == map[] && 1 in w0.conns && |w0.conns[1]| == 1
    ensures Reachable(w) && OnlyTask(w.tasks, |w0.tasks|, [DropVoice(1, |w0.log|)] + [DropRings(1)])
    ensures w == w0.(conns := w0.conns - {1}, tasks := w.tasks, log := w0.log + [WentOffline(1)])
  {
    var conn := w0.conns[1][0].id;
    assert w0.conns[1][..0] == [] && WithoutConn([], conn) == [] && WithoutConn(w0.conns[1], conn) == [];
    var drop: Act, clear: Act := DropVoice(1, |w0.log|), DropRings(1);
    w := Began(w0, Disconnect(1, conn), Effect(w0.(conns := w0.conns - {1}), [WentOffline(1)], [drop, clear]));
    assert [drop, clear] == [drop] + [clear];
  }

  lemma OneLeaves(w0: World) returns (w: World)
    requires Reachable(w0) && Idle(w0.tasks) && w0.rings == map[] && 1 in w0.conns && |w0.conns[1]| == 1
    ensures Reachable(w) && Idle(w.tasks) && 1 !in w.conns && w.rings == map[]
    ensures w.log == w0.log + [WentOffline(1), ClosedAll(1, |w0.log|)]
  {
    var i, drop: Act, clear: Act := |w0.tasks|, DropVoice(1, |w0.log|), DropRings(1);
    w := LastSocketGoes(w0);
    w := Took(w, i, drop, [clear], QUIET, Do(w, drop, QUIET));
    assert [] + [clear] == [clear] + [];
    w := RingsAreCleared(w, i);
  }

  lemma RingsAreCleared(w0: World, i: nat) returns (w: World)
    requires Reachable(w0) && w0.rings == map[] && OnlyTask(w0.tasks, i, [DropRings(1)] + [])
    ensures Reachable(w) && Idle(w.tasks) && w == w0.(tasks := w.tasks)
  {
    assert Involving(map[], 1) == map[] && Attempts([]) == [];
    w := Took(w0, i, DropRings(1), [], QUIET, Do(w0, DropRings(1), QUIET));
  }

  /** 1 rings 2 and hangs up, and its socket fails while the handler waits to write the
      record. The ring is gone, so the teardown finds nothing to record either. */
  lemma ACancelledHangUpLosesItsRecord()
    ensures exists events ::
              var w := Run(events);
              && Idle(w.tasks) && 1 !in w.conns && w.rings == map[]
              && Tally(w.log, Missed, RING_OUT) == 1 && Tally(w.log, Written, RING_OUT) == 0
  {
    var w := TwoFriendsOnline();
    w := ARingStarts(w, 1, 2);
    var w0 := w;
    w := HangsUp(w);
    w := Cancelled(w, |w0.tasks|, [Record(RING_OUT)]);
    LossIsWhatWasOwed([Suspend] + [Record(RING_OUT)], Missed, RING_OUT);
    LossIsWhatWasOwed([Suspend] + [Record(RING_OUT)], Written, RING_OUT);
    var lost := w.log;
    w := OneLeaves(w);
    TalliesOfTheRun(w0.log, LostOf([Suspend] + [Record(RING_OUT)]), |lost|);
    var events :| Run(events) == w;
  }

  lemma TalliesOfTheRun(before: seq<Entry>, lost: seq<Entry>, at: nat)
    requires before == [Befriended((1, 2)), Passed(Invite, 1, 2), Opened((1, 2), ByInvite(1)), RingStarted(RING_OUT, 1)]
    requires Tally(lost, Missed, RING_OUT) == 0 && Tally(lost, Written, RING_OUT) == 0
    ensures var hangUp := [Passed(End, 1, 2), Closed((1, 2), ByEnd(4)), RingMissed(RING_OUT)];
            var log := before + hangUp + lost + [WentOffline(1), ClosedAll(1, at)];
            Tally(log, Missed, RING_OUT) == 1 && Tally(log, Written, RING_OUT) == 0
  {
    var passed, missed := [Passed(End, 1, 2), Closed((1, 2), ByEnd(4))], [RingMissed(RING_OUT)];
    var gone := [WentOffline(1), ClosedAll(1, at)];
    assert [Passed(End, 1, 2), Closed((1, 2), ByEnd(4)), RingMissed(RING_OUT)] == passed + missed;
    forall line: Line | line == Missed || line == Written
      ensures Tally(before + (passed + missed) + lost + gone, line, RING_OUT) == if line == Missed then 1 else 0
    {
      TallyOfNone(before, line, RING_OUT);
      TallyOfNone(passed, line, RING_OUT);
      TallyOfNone(gone, line, RING_OUT);
      TallyShort(missed, line, RING_OUT);
      TallyAppend(passed, missed, line, RING_OUT);
      TallyAppend(before, passed + missed, line, RING_OUT);
      TallyAppend(before + (passed + missed), lost, line, RING_OUT);
      TallyAppend(before + (passed + missed) + lost, gone, line, RING_OUT);
    }
  }
}
