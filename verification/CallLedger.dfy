/** Every ring is accounted for once, whichever of answer, hang-up, socket drop,
    sweeper or block gets to it first; and every missed call is recorded, owed by a
    handler under way, or lost with a handler that was cancelled. */
module CallLedger {
  import opened Calls
  import opened Rings

  /** The lines of the ledger. */
  datatype Line = Start | Answered | Missed | CutOff | Unreached | Written | Dropped

  predicate On(e: Entry, line: Line, c: Attempt) {
    match line
    case Start => e.RingStarted? && e.call == c
    case Answered => e == RingAnswered(c)
    case Missed => e == RingMissed(c)
    case CutOff => e == RingBlocked(c)
    case Unreached => e == NobodyHome(c)
    case Written => e == Recorded(c)
    case Dropped => e == Lost(c)
  }

  function Tally(log: seq<Entry>, line: Line, c: Attempt): nat {
    if log == [] then 0
    else Tally(log[..|log| - 1], line, c) + if On(log[|log| - 1], line, c) then 1 else 0
  }

  /** The records of this call a task still has to write. */
  function Owes(task: Task, c: Attempt): nat {
    if task == [] then 0 else Owes(task[..|task| - 1], c) + if task[|task| - 1] == Record(c) then 1 else 0
  }

  function Owed(tasks: seq<Task>, c: Attempt): nat {
    if tasks == [] then 0 else Owed(tasks[..|tasks| - 1], c) + Owes(tasks[|tasks| - 1], c)
  }

  function LiveCount(rings: Live, c: Attempt): nat {
    if KeyOf(c) in rings && rings[KeyOf(c)].video == c.video then 1 else 0
  }

  /** Rings started are live, answered, missed or ended by a block. */
  predicate RingsBalance(rings: Live, log: seq<Entry>, c: Attempt) {
    Tally(log, Start, c)
    == LiveCount(rings, c) + Tally(log, Answered, c) + Tally(log, Missed, c) + Tally(log, CutOff, c)
  }

  /** Records written, still owed and lost are missed rings and unreachable invites. */
  predicate RecordsBalance(tasks: seq<Task>, log: seq<Entry>, c: Attempt) {
    Tally(log, Written, c) + Owed(tasks, c) + Tally(log, Dropped, c) == Tally(log, Missed, c) + Tally(log, Unreached, c)
  }

  // ------------------------------------------------------------------ counting

  lemma {:induction false} TallyAppend(log: seq<Entry>, more: seq<Entry>, line: Line, c: Attempt)
    ensures Tally(log + more, line, c) == Tally(log, line, c) + Tally(more, line, c)
    decreases |more|
  {
    if more == [] {
      assert log + more == log;
    } else {
      assert (log + more)[..|log + more| - 1] == log + more[..|more| - 1];
      TallyAppend(log, more[..|more| - 1], line, c);
    }
  }

  lemma {:induction false} TallyOfNone(log: seq<Entry>, line: Line, c: Attempt)
    requires forall e :: e in log ==> !On(e, line, c)
    ensures Tally(log, line, c) == 0
  {
    if log != [] {
      assert log[|log| - 1] in log;
      TallyOfNone(log[..|log| - 1], line, c);
    }
  }

  lemma {:induction false} TallyFinds(log: seq<Entry>, line: Line, c: Attempt)
    ensures Tally(log, line, c) > 0 <==> exists i :: 0 <= i < |log| && On(log[i], line, c)
  {
    if log != [] {
      var front := log[..|log| - 1];
      TallyFinds(front, line, c);
      assert On(log[|log| - 1], line, c) ==> exists i :: 0 <= i < |log| && On(log[i], line, c);
      if i :| 0 <= i < |front| && On(front[i], line, c) {
        assert On(log[i], line, c);
      }
      if i :| 0 <= i < |log| && On(log[i], line, c) && !On(log[|log| - 1], line, c) {
        assert On(front[i], line, c);
      }
    }
  }

  lemma TallyShort(log: seq<Entry>, line: Line, c: Attempt)
    requires |log| <= 1
    ensures Tally(log, line, c) == if |log| == 1 && On(log[0], line, c) then 1 else 0
  {
  }

  lemma {:induction false} OwesAppend(task: Task, more: Task, c: Attempt)
    ensures Owes(task + more, c) == Owes(task, c) + Owes(more, c)
    decreases |more|
  {
    if more == [] {
      assert task + more == task;
    } else {
      assert (task + more)[..|task + more| - 1] == task + more[..|more| - 1];
      OwesAppend(task, more[..|more| - 1], c);
    }
  }

  lemma {:induction false} OwesNothing(task: Task, c: Attempt)
    requires Record(c) !in task
    ensures Owes(task, c) == 0
  {
    if task != [] {
      OwesNothing(task[..|task| - 1], c);
    }
  }

  lemma OwesOne(act: Act, c: Attempt)
    ensures Owes([act], c) == if act == Record(c) then 1 else 0
  {
    assert [act][..0] == [];
  }

  /** What a cancelled task still owed is what its loss is logged as. */
  lemma {:induction false} LossIsWhatWasOwed(task: Task, line: Line, c: Attempt)
    ensures Tally(LostOf(task), line, c) == if line == Dropped then Owes(task, c) else 0
  {
    if task != [] {
      var front, act := task[..|task| - 1], task[|task| - 1];
      LossIsWhatWasOwed(front, line, c);
      var last := if act.Record? then [Lost(act.call)] else [];
      TallyAppend(LostOf(front), last, line, c);
      TallyShort(last, line, c);
    }
  }

  function Times(calls: seq<Attempt>, c: Attempt): nat {
    if calls == [] then 0 else Times(calls[..|calls| - 1], c) + if calls[|calls| - 1] == c then 1 else 0
  }

  lemma RestIsListed(order: seq<RingEntry>, m: Live)
    requires Lists(order, m) && order != []
    ensures order[|order| - 1].key in m && order[|order| - 1].ring == m[order[|order| - 1].key]
    ensures Lists(order[..|order| - 1], m - {order[|order| - 1].key})
  {
    var front, last := order[..|order| - 1], order[|order| - 1];
    assert last in order;
    var rest := m - {last.key};
    forall e | e in front ensures e.key in rest && rest[e.key] == e.ring {
      assert e in order;
    }
    forall k | k in rest ensures RingEntry(k, rest[k]) in front {
      assert RingEntry(k, m[k]) in order;
    }
  }

  /** A walk of a ring table meets each of its rings once. */
  lemma {:induction false} WalkMeetsOnce(order: seq<RingEntry>, m: Live, c: Attempt)
    requires Lists(order, m)
    ensures Times(Attempts(order), c) == LiveCount(m, c)
  {
    if order != [] {
      var front, last := order[..|order| - 1], order[|order| - 1];
      RestIsListed(order, m);
      WalkMeetsOnce(front, m - {last.key}, c);
      assert Attempts(order)[..|order| - 1] == Attempts(front);
    }
  }

  lemma {:induction false} MissedTallies(calls: seq<Attempt>, line: Line, c: Attempt)
    ensures Tally(MissedAll(calls), line, c) == if line == Missed then Times(calls, c) else 0
  {
    if calls != [] {
      var front, last := calls[..|calls| - 1], [RingMissed(calls[|calls| - 1])];
      MissedTallies(front, line, c);
      TallyAppend(MissedAll(front), last, line, c);
      TallyShort(last, line, c);
    }
  }

  lemma WalkTallies(calls: seq<Attempt>, line: Line, c: Attempt)
    ensures Tally(MissedAll(calls), line, c) == if line == Missed then Times(calls, c) else 0
    ensures Tally(TimedOutAll(calls), line, c) == 0 && Tally(ReplayedAll(calls), line, c) == 0
  {
    MissedTallies(calls, line, c);
    TallyOfNone(TimedOutAll(calls), line, c);
    TallyOfNone(ReplayedAll(calls), line, c);
  }

  lemma {:induction false} RecordAllOwes(calls: seq<Attempt>, c: Attempt)
    ensures Owes(RecordAll(calls), c) == Times(calls, c)
  {
    if calls != [] {
      var front, last := calls[..|calls| - 1], Record(calls[|calls| - 1]);
      RecordAllOwes(front, c);
      OwesAppend(RecordAll(front), [last], c);
      OwesOne(last, c);
    }
  }

  lemma {:induction false} AllowAllOwes(calls: seq<Attempt>, base: nat, c: Attempt)
    ensures Owes(AllowAll(calls, base), c) == 0
  {
    if calls != [] {
      var k := |calls| - 1;
      var last := Allow(calls[k].caller, calls[k].callee, ByReplay(base + k));
      AllowAllOwes(calls[..k], base, c);
      OwesAppend(AllowAll(calls[..k], base), [last], c);
      OwesOne(last, c);
    }
  }

  lemma OwesTwo(first: Act, second: Act, c: Attempt)
    requires !first.Record?
    ensures Owes([first, second], c) == if second == Record(c) then 1 else 0
  {
    assert [first, second] == [first] + [second];
    OwesAppend([first], [second], c);
    OwesOne(first, c);
    OwesOne(second, c);
  }

  lemma {:induction false} CloseAndRecordAllOwes(calls: seq<Attempt>, base: nat, c: Attempt)
    ensures Owes(CloseAndRecordAll(calls, base), c) == Times(calls, c)
  {
    if calls != [] {
      var k := |calls| - 1;
      var close: Act := Disallow(calls[k].caller, calls[k].callee, ByExpiry(base + k));
      CloseAndRecordAllOwes(calls[..k], base, c);
      OwesAppend(CloseAndRecordAll(calls[..k], base), [close, Record(calls[k])], c);
      OwesTwo(close, Record(calls[k]), c);
    }
  }

  // ----------------------------------------------------------- one act's share

  /** What some entries and acts to come add to the two balances; `paid` is the record
      the act itself writes. */
  predicate Share(rings: Live, rings': Live, entries: seq<Entry>, tail: Task, paid: nat, c: Attempt) {
    Tally(entries, Start, c) + LiveCount(rings, c)
    == LiveCount(rings', c) + Tally(entries, Answered, c) + Tally(entries, Missed, c) + Tally(entries, CutOff, c)
    && Tally(entries, Written, c) + Owes(tail, c) + Tally(entries, Dropped, c)
       == Tally(entries, Missed, c) + Tally(entries, Unreached, c) + paid
  }

  lemma ShortEntries(s: seq<Entry>, c: Attempt)
    requires |s| <= 1
    ensures forall line: Line :: Tally(s, line, c) == if |s| == 1 && On(s[0], line, c) then 1 else 0
  {
    forall line: Line ensures Tally(s, line, c) == if |s| == 1 && On(s[0], line, c) then 1 else 0 {
      TallyShort(s, line, c);
    }
  }

  lemma AllLines(s: seq<Entry>, t: seq<Entry>, c: Attempt)
    ensures forall line: Line :: Tally(s + t, line, c) == Tally(s, line, c) + Tally(t, line, c)
  {
    forall line: Line ensures Tally(s + t, line, c) == Tally(s, line, c) + Tally(t, line, c) {
      TallyAppend(s, t, line, c);
    }
  }

  lemma WalkLines(calls: seq<Attempt>, c: Attempt)
    ensures forall line: Line :: Tally(MissedAll(calls), line, c) == if line == Missed then Times(calls, c) else 0
    ensures forall line: Line :: Tally(TimedOutAll(calls), line, c) == 0 && Tally(ReplayedAll(calls), line, c) == 0
  {
    forall line: Line
      ensures Tally(MissedAll(calls), line, c) == if line == Missed then Times(calls, c) else 0
      ensures Tally(TimedOutAll(calls), line, c) == 0 && Tally(ReplayedAll(calls), line, c) == 0
    {
      WalkTallies(calls, line, c);
    }
  }

  /** Taking a walked part of the table out as missed. */
  lemma MissedShare(rings: Live, out: Live, calls: seq<Attempt>, c: Attempt)
    requires out.Keys <= rings.Keys && forall k :: k in out ==> out[k] == rings[k]
    requires Times(calls, c) == LiveCount(out, c)
    ensures Share(rings, rings - out.Keys, MissedAll(calls), RecordAll(calls), 0, c)
  {
    WalkLines(calls, c);
    RecordAllOwes(calls, c);
  }

  lemma DropShare(rings: Live, out: Live, order: seq<RingEntry>, c: Attempt)
    requires Lists(order, out) && out.Keys <= rings.Keys && forall k :: k in out ==> out[k] == rings[k]
    ensures Share(rings, rings - out.Keys, MissedAll(Attempts(order)), RecordAll(Attempts(order)), 0, c)
  {
    WalkMeetsOnce(order, out, c);
    MissedShare(rings, out, Attempts(order), c);
  }

  lemma SweepShare(rings: Live, out: Live, order: seq<RingEntry>, base: nat, c: Attempt)
    requires Lists(order, out) && out.Keys <= rings.Keys && forall k :: k in out ==> out[k] == rings[k]
    ensures var calls := Attempts(order);
            Share(rings, rings - out.Keys, TimedOutAll(calls) + MissedAll(calls), CloseAndRecordAll(calls, base), 0, c)
  {
    DropShare(rings, out, order, c);
    WalkLines(Attempts(order), c);
    RecordAllOwes(Attempts(order), c);
    CloseAndRecordAllOwes(Attempts(order), base, c);
    AllLines(TimedOutAll(Attempts(order)), MissedAll(Attempts(order)), c);
  }

  lemma ReplayShare(w: World, user: nat, o: Oracle, c: Attempt)
    ensures var f := Do(w, Replay(user), o); Share(w.rings, f.w.rings, f.entries, f.tail, 0, c)
  {
    WalkLines(Attempts(o.order), c);
    AllowAllOwes(Attempts(o.order), |w.log|, c);
  }

  lemma StartShare(w: World, call: Attempt, admission: nat, o: Oracle, c: Attempt)
    ensures var f := Do(w, StartRing(call, admission), o); Share(w.rings, f.w.rings, f.entries, f.tail, 0, c)
  {
    ShortEntries(Do(w, StartRing(call, admission), o).entries, c);
  }

  lemma AnswerShare(w: World, caller: nat, callee: nat, o: Oracle, c: Attempt)
    ensures var f := Do(w, Answer(caller, callee), o); Share(w.rings, f.w.rings, f.entries, f.tail, 0, c)
  {
    ShortEntries(Do(w, Answer(caller, callee), o).entries, c);
  }

  lemma OneLess(rings: Live, k: Key, c: Attempt)
    requires k in rings
    ensures LiveCount(rings, c) == LiveCount(rings - {k}, c) + if AttemptOf(RingEntry(k, rings[k])) == c then 1 else 0
  {
  }

  /** Taking one ring out, as missed or by a block. */
  lemma TakenShare(rings: Live, k: Key, recorded: bool, c: Attempt)
    requires k in rings
    ensures var call := AttemptOf(RingEntry(k, rings[k]));
            Share(rings, rings - {k}, [if recorded then RingMissed(call) else RingBlocked(call)],
                  if recorded then [Suspend, Record(call)] else [], 0, c)
  {
    var call := AttemptOf(RingEntry(k, rings[k]));
    OneLess(rings, k, c);
    ShortEntries([if recorded then RingMissed(call) else RingBlocked(call)], c);
    OwesTwo(Suspend, Record(call), c);
  }

  lemma EndShare(w: World, a: nat, b: nat, recorded: bool, o: Oracle, c: Attempt)
    ensures var f := Do(w, EndRing(a, b, recorded), o); Share(w.rings, f.w.rings, f.entries, f.tail, 0, c)
  {
    if (a, b) in w.rings {
      TakenShare(w.rings, (a, b), recorded, c);
    } else if (b, a) in w.rings {
      TakenShare(w.rings, (b, a), recorded, c);
    }
  }

  lemma RouteAgainShare(w: World, call: Attempt, admission: nat, o: Oracle, c: Attempt)
    ensures var f := Do(w, RouteAgain(call, admission), o); Share(w.rings, f.w.rings, f.entries, f.tail, 0, c)
  {
    var f := Do(w, RouteAgain(call, admission), o);
    ShortEntries(f.entries, c);
    OwesTwo(f.tail[0], f.tail[1], c);
  }

  lemma RecordShare(w: World, call: Attempt, o: Oracle, c: Attempt)
    ensures var f := Do(w, Record(call), o); Share(w.rings, f.w.rings, f.entries, f.tail, if call == c then 1 else 0, c)
  {
    ShortEntries([Recorded(call)], c);
  }

  /** Acts about the gate, the tables behind it and the route of an invite. */
  predicate OffTheBooks(act: Act) {
    act.Suspend? || act.Route? || act.Woken? || act.Allow? || act.Disallow? || act.DropVoice? || act.CutFriendship?
    || act.InsertBlock?
  }

  lemma OtherActShare(w: World, act: Act, o: Oracle, c: Attempt)
    requires OffTheBooks(act)
    ensures var f := Do(w, act, o); Share(w.rings, f.w.rings, f.entries, f.tail, 0, c)
  {
    var f := Do(w, act, o);
    ShortEntries(f.entries, c);
    OwesNothing(f.tail, c);
  }

  lemma ActShare(w: World, act: Act, o: Oracle, c: Attempt)
    requires Possible(w, act, o)
    ensures var f := Do(w, act, o); Share(w.rings, f.w.rings, f.entries, f.tail, if act == Record(c) then 1 else 0, c)
  {
    if act.DropRings? {
      DropShare(w.rings, Involving(w.rings, act.user), o.order, c);
    } else if act.Replay? {
      ReplayShare(w, act.user, o, c);
    } else if act.StartRing? {
      StartShare(w, act.call, act.admission, o, c);
    } else if act.Answer? {
      AnswerShare(w, act.caller, act.callee, o, c);
    } else if act.EndRing? {
      EndShare(w, act.a, act.b, act.recorded, o, c);
    } else if act.RouteAgain? {
      RouteAgainShare(w, act.call, act.admission, o, c);
    } else if act.Record? {
      RecordShare(w, act.call, o, c);
    } else {
      OtherActShare(w, act, o, c);
    }
  }

  lemma BeginShare(w: World, e: Event, c: Attempt)
    requires !e.Exec? && !e.Abort?
    ensures var f := Begin(w, e); Share(w.rings, f.w.rings, f.entries, f.tail, 0, c)
  {
    var f := Begin(w, e);
    if e.SweepTick? && Lists(e.order, Expired(w.rings, e.now, RING_TIMEOUT_SECS)) {
      SweepShare(w.rings, Expired(w.rings, e.now, RING_TIMEOUT_SECS), e.order, |w.log|, c);
    } else {
      ShortEntries(f.entries, c);
      OwesNothing(f.tail, c);
    }
  }

  // ----------------------------------------------------------------- all runs

  lemma OwedAppend(tasks: seq<Task>, t: Task, c: Attempt)
    ensures Owed(tasks + [t], c) == Owed(tasks, c) + Owes(t, c)
  {
    assert (tasks + [t])[..|tasks|] == tasks;
  }

  lemma {:induction false} OwedUpdate(tasks: seq<Task>, i: nat, t: Task, c: Attempt)
    requires i < |tasks|
    ensures Owed(tasks[i := t], c) + Owes(tasks[i], c) == Owed(tasks, c) + Owes(t, c)
    decreases |tasks|
  {
    var front := tasks[..|tasks| - 1];
    if i == |tasks| - 1 {
      assert tasks[i := t][..|tasks| - 1] == front;
    } else {
      assert tasks[i := t][..|tasks| - 1] == front[i := t];
      OwedUpdate(front, i, t, c);
    }
  }

  ghost predicate Balanced(w: World, c: Attempt) {
    RingsBalance(w.rings, w.log, c) && RecordsBalance(w.tasks, w.log, c)
  }

  lemma ExecKeepsBalance(w: World, i: nat, o: Oracle, c: Attempt)
    requires Balanced(w, c) && Runs(w, i) && Possible(w, w.tasks[i][0], o)
    ensures Balanced(Step(w, Exec(i, o)), c)
  {
    var task, act := w.tasks[i], w.tasks[i][0];
    var f := Do(w, act, o);
    ActShare(w, act, o, c);
    AllLines(w.log, f.entries, c);
    OwedUpdate(w.tasks, i, f.tail + task[1..], c);
    OwesAppend(f.tail, task[1..], c);
    assert task == [act] + task[1..];
    OwesAppend([act], task[1..], c);
    OwesOne(act, c);
  }

  lemma AbortKeepsBalance(w: World, i: nat, c: Attempt)
    requires Balanced(w, c) && Cancels(w, i)
    ensures Balanced(Step(w, Abort(i)), c)
  {
    var task := w.tasks[i];
    AllLines(w.log, LostOf(task), c);
    OwedUpdate(w.tasks, i, [], c);
    forall line: Line ensures Tally(LostOf(task), line, c) == if line == Dropped then Owes(task, c) else 0 {
      LossIsWhatWasOwed(task, line, c);
    }
  }

  lemma StepKeepsBalance(w: World, e: Event, c: Attempt)
    requires Balanced(w, c)
    ensures Balanced(Step(w, e), c)
  {
    if e.Exec? {
      if Runs(w, e.task) && Possible(w, w.tasks[e.task][0], e.o) {
        ExecKeepsBalance(w, e.task, e.o, c);
      }
    } else if e.Abort? {
      if Cancels(w, e.task) {
        AbortKeepsBalance(w, e.task, c);
      }
    } else {
      var f := Begin(w, e);
      BeginShare(w, e, c);
      AllLines(w.log, f.entries, c);
      OwedAppend(w.tasks, f.tail, c);
    }
  }

  /** At every moment of every run, for every caller, callee and kind of call. */
  lemma {:induction false} LedgerBalances(events: seq<Event>, c: Attempt)
    ensures Balanced(Run(events), c)
  {
    if events != [] {
      LedgerBalances(events[..|events| - 1], c);
      StepKeepsBalance(Run(events[..|events| - 1]), events[|events| - 1], c);
    }
  }

  lemma {:induction false} NothingOwed(tasks: seq<Task>, c: Attempt)
    requires forall t :: t in tasks ==> t == []
    ensures Owed(tasks, c) == 0
  {
    if tasks != [] {
      var front, last := tasks[..|tasks| - 1], tasks[|tasks| - 1];
      assert last in tasks && forall t :: t in front ==> t in tasks;
      NothingOwed(front, c);
    }
  }

  // ---------------------------------------------------------------- main results

  ghost predicate Idle(tasks: seq<Task>) {
    forall t :: t in tasks ==> t == []
  }

  lemma QuietBalance(w: World, c: Attempt)
    requires Balanced(w, c) && Idle(w.tasks)
    ensures Tally(w.log, Written, c) + Tally(w.log, Dropped, c) == Tally(w.log, Missed, c) + Tally(w.log, Unreached, c)
    ensures Tally(w.log, Dropped, c) > 0 <==> Lost(c) in w.log
  {
    NothingOwed(w.tasks, c);
    TallyFinds(w.log, Dropped, c);
  }

  /** Once no handler is under way nothing is owed: the missed-call records are the
      rings closed as missed and the invites nobody could receive, exactly if no record
      of this call was lost with a cancelled handler; there are never more. */
  lemma QuietRecordsExactlyWhenNoneLost(events: seq<Event>, c: Attempt)
    requires Idle(Run(events).tasks)
    ensures var log := Run(events).log;
            && Tally(log, Written, c) <= Tally(log, Missed, c) + Tally(log, Unreached, c)
            && (Tally(log, Written, c) == Tally(log, Missed, c) + Tally(log, Unreached, c) <==> Lost(c) !in log)
  {
    LedgerBalances(events, c);
    QuietBalance(Run(events), c);
  }

  /** The event cancels a handler that still had the record to write. */
  ghost predicate Loses(w: World, e: Event, c: Attempt) {
    e.Abort? && Cancels(w, e.task) && Record(c) in w.tasks[e.task]
  }

  /** A record is lost exactly when some handler was cancelled while holding it. */
  lemma LostExactlyWhenCancelled(events: seq<Event>, c: Attempt)
    ensures Lost(c) in Run(events).log <==> exists k :: 0 <= k < |events| && Loses(Run(events[..k]), events[k], c)
  {
    if Lost(c) in Run(events).log {
      var k := CancellationOf(events, c);
    }
    if k :| 0 <= k < |events| && Loses(Run(events[..k]), events[k], c) {
      CancellationLoses(events, k, c);
    }
  }

  lemma {:induction false} CancellationOf(events: seq<Event>, c: Attempt) returns (k: nat)
    requires Lost(c) in Run(events).log
    ensures k < |events| && Loses(Run(events[..k]), events[k], c)
  {
    var front := events[..|events| - 1];
    StepLoses(Run(front), events[|events| - 1], c);
    if Lost(c) in Run(front).log {
      k := CancellationOf(front, c);
      assert events[..k] == front[..k];
    } else {
      k := |events| - 1;
    }
  }

  lemma {:induction false} CancellationLoses(events: seq<Event>, k: nat, c: Attempt)
    requires k < |events| && Loses(Run(events[..k]), events[k], c)
    ensures Lost(c) in Run(events).log
  {
    var front := events[..|events| - 1];
    if k < |front| {
      assert events[..k] == front[..k];
      CancellationLoses(front, k, c);
    }
    StepLoses(Run(front), events[|events| - 1], c);
  }

  lemma ActLosesNothing(w: World, act: Act, o: Oracle, c: Attempt)
    ensures Lost(c) !in Do(w, act, o).entries
  {
    WalkLosesNothing(Attempts(o.order), c);
  }

  lemma BeginLosesNothing(w: World, e: Event, c: Attempt)
    requires !e.Exec? && !e.Abort?
    ensures Lost(c) !in Begin(w, e).entries
  {
    if e.SweepTick? {
      WalkLosesNothing(Attempts(e.order), c);
    }
  }

  lemma StepLoses(w: World, e: Event, c: Attempt)
    ensures Lost(c) in Step(w, e).log <==> Lost(c) in w.log || Loses(w, e, c)
  {
    if e.Exec? {
      if Runs(w, e.task) && Possible(w, w.tasks[e.task][0], e.o) {
        ActLosesNothing(w, w.tasks[e.task][0], e.o, c);
      }
    } else if e.Abort? {
      if Cancels(w, e.task) {
        LostOfTask(w.tasks[e.task], c);
      }
    } else {
      BeginLosesNothing(w, e, c);
    }
  }

  lemma {:induction false} LostOfTask(task: Task, c: Attempt)
    ensures Lost(c) in LostOf(task) <==> Record(c) in task
  {
    if task != [] {
      LostOfTask(task[..|task| - 1], c);
      assert task == task[..|task| - 1] + [task[|task| - 1]];
    }
  }

  lemma {:induction false} WalkLosesNothing(calls: seq<Attempt>, c: Attempt)
    ensures Lost(c) !in MissedAll(calls) && Lost(c) !in TimedOutAll(calls) && Lost(c) !in ReplayedAll(calls)
  {
    if calls != [] {
      WalkLosesNothing(calls[..|calls| - 1], c);
    }
  }

  /** A sweep leaves no ring that has rung for a minute, and a repeated invite does
      not let a ring outlive the minute after its first. */
  lemma SweepLeavesFreshRings(w: World, now: int, order: seq<RingEntry>, again: int, c: Attempt)
    requires Lists(order, Expired(w.rings, now, RING_TIMEOUT_SECS))
    ensures forall k :: k in Step(w, SweepTick(now, order)).rings ==> now - w.rings[k].startedAt < 60
    ensures forall k :: k in w.rings ==> Started(w.rings, k, c.video, again)[k].startedAt == w.rings[k].startedAt
  {
  }
}
