/** One opening of the voice gate per cause: an admitted invite or accept opens it at
    most once, and so does each replay of a ring. */
module VoiceTickets {
  import opened Calls
  import opened Rings
  import opened VoiceGate
  import opened Wrappers

  /** The ticket an act holds for the opening it leads to. */
  function TicketOf(act: Act): Option<Ticket> {
    match act
    case Route(_, admission) => Some(ByInvite(admission))
    case Woken(_, admission) => Some(ByInvite(admission))
    case RouteAgain(_, admission) => Some(ByInvite(admission))
    case Allow(_, _, ticket) => Some(ticket)
    case _ => None
  }

  function Held(task: Task, t: Ticket): nat {
    if task == [] then 0
    else Held(task[..|task| - 1], t) + if TicketOf(task[|task| - 1]) == Some(t) then 1 else 0
  }

  function HeldByAll(tasks: seq<Task>, t: Ticket): nat {
    if tasks == [] then 0 else HeldByAll(tasks[..|tasks| - 1], t) + Held(tasks[|tasks| - 1], t)
  }

  predicate Spends(e: Entry, t: Ticket) {
    e.Opened? && e.ticket == t
  }

  function Spent(log: seq<Entry>, t: Ticket): nat {
    if log == [] then 0 else Spent(log[..|log| - 1], t) + if Spends(log[|log| - 1], t) then 1 else 0
  }

  // ------------------------------------------------------------------ counting

  lemma {:induction false} HeldAppend(task: Task, more: Task, t: Ticket)
    ensures Held(task + more, t) == Held(task, t) + Held(more, t)
    decreases |more|
  {
    if more == [] {
      assert task + more == task;
    } else {
      assert (task + more)[..|task + more| - 1] == task + more[..|more| - 1];
      HeldAppend(task, more[..|more| - 1], t);
    }
  }

  lemma HeldOne(act: Act, t: Ticket)
    ensures Held([act], t) == if TicketOf(act) == Some(t) then 1 else 0
  {
    assert [act][..0] == [];
  }

  lemma HeldTwo(first: Act, second: Act, t: Ticket)
    requires TicketOf(second).None?
    ensures Held([first, second], t) == if TicketOf(first) == Some(t) then 1 else 0
  {
    assert [first, second] == [first] + [second];
    HeldAppend([first], [second], t);
    HeldOne(first, t);
    HeldOne(second, t);
  }

  lemma {:induction false} HeldNowhere(task: Task, t: Ticket)
    requires forall act :: act in task ==> TicketOf(act) != Some(t)
    ensures Held(task, t) == 0
  {
    if task != [] {
      assert task[|task| - 1] in task;
      HeldNowhere(task[..|task| - 1], t);
    }
  }

  lemma {:induction false} HeldUpdate(tasks: seq<Task>, i: nat, task: Task, t: Ticket)
    requires i < |tasks|
    ensures HeldByAll(tasks[i := task], t) + Held(tasks[i], t) == HeldByAll(tasks, t) + Held(task, t)
    decreases |tasks|
  {
    var front := tasks[..|tasks| - 1];
    if i == |tasks| - 1 {
      assert tasks[i := task][..|tasks| - 1] == front;
    } else {
      assert tasks[i := task][..|tasks| - 1] == front[i := task];
      HeldUpdate(front, i, task, t);
    }
  }

  lemma {:induction false} SpentAppend(log: seq<Entry>, more: seq<Entry>, t: Ticket)
    ensures Spent(log + more, t) == Spent(log, t) + Spent(more, t)
    decreases |more|
  {
    if more == [] {
      assert log + more == log;
    } else {
      assert (log + more)[..|log + more| - 1] == log + more[..|more| - 1];
      SpentAppend(log, more[..|more| - 1], t);
    }
  }

  lemma {:induction false} SpentNowhere(log: seq<Entry>, t: Ticket)
    requires forall e :: e in log ==> !Spends(e, t)
    ensures Spent(log, t) == 0
  {
    if log != [] {
      assert log[|log| - 1] in log;
      SpentNowhere(log[..|log| - 1], t);
    }
  }

  lemma {:induction false} SpentTwice(log: seq<Entry>, i: nat, i2: nat, t: Ticket)
    requires i < i2 < |log| && Spends(log[i], t) && Spends(log[i2], t)
    ensures Spent(log, t) >= 2
    decreases |log|
  {
    var front := log[..|log| - 1];
    if i2 < |front| {
      SpentTwice(front, i, i2, t);
    } else {
      SpentOnce(front, i, t);
    }
  }

  lemma {:induction false} SpentOnce(log: seq<Entry>, i: nat, t: Ticket)
    requires i < |log| && Spends(log[i], t)
    ensures Spent(log, t) >= 1
    decreases |log|
  {
    if i < |log| - 1 {
      SpentOnce(log[..|log| - 1], i, t);
    }
  }

  // ----------------------------------------------------------- new tickets are new

  lemma {:induction false} UnspentAhead(log: seq<Entry>, t: Ticket)
    requires Sound(log) && t.at >= |log|
    ensures Spent(log, t) == 0
  {
    forall e | e in log ensures !Spends(e, t) {
      var i :| 0 <= i < |log| && log[i] == e;
      JustifiedAt(log, i);
    }
    SpentNowhere(log, t);
  }

  lemma {:induction false} UnheldAhead(log: seq<Entry>, tasks: seq<Task>, t: Ticket)
    requires TasksBacked(log, tasks) && t.at >= |log|
    ensures HeldByAll(tasks, t) == 0
  {
    if tasks != [] {
      var front, last := tasks[..|tasks| - 1], tasks[|tasks| - 1];
      assert last in tasks && TaskBacked(log, last);
      forall act | act in last ensures TicketOf(act) != Some(t) {
        assert ActBacked(log, act);
      }
      HeldNowhere(last, t);
      TaskListBacked(log, tasks, front, last);
      UnheldAhead(log, front, t);
    }
  }

  // ------------------------------------------------------------- one act's share

  ghost predicate Once(w: World, t: Ticket) {
    HeldByAll(w.tasks, t) + Spent(w.log, t) <= 1
  }

  lemma {:induction false} ReplaysAreDistinct(calls: seq<Attempt>, base: nat, t: Ticket)
    ensures Held(AllowAll(calls, base), t) <= if t.ByReplay? && base <= t.at < base + |calls| then 1 else 0
  {
    if calls != [] {
      var k := |calls| - 1;
      var last := Allow(calls[k].caller, calls[k].callee, ByReplay(base + k));
      ReplaysAreDistinct(calls[..k], base, t);
      HeldAppend(AllowAll(calls[..k], base), [last], t);
      HeldOne(last, t);
    }
  }

  lemma {:induction false} RecordAllHoldsNothing(calls: seq<Attempt>, t: Ticket)
    ensures Held(RecordAll(calls), t) == 0
  {
    if calls != [] {
      var k := |calls| - 1;
      RecordAllHoldsNothing(calls[..k], t);
      HeldAppend(RecordAll(calls[..k]), [Record(calls[k])], t);
      HeldOne(Record(calls[k]), t);
    }
  }

  lemma {:induction false} CloseAllHoldsNothing(calls: seq<Attempt>, base: nat, t: Ticket)
    ensures Held(CloseAndRecordAll(calls, base), t) == 0
  {
    if calls != [] {
      var k := |calls| - 1;
      var close: Act := Disallow(calls[k].caller, calls[k].callee, ByExpiry(base + k));
      CloseAllHoldsNothing(calls[..k], base, t);
      HeldAppend(CloseAndRecordAll(calls[..k], base), [close, Record(calls[k])], t);
      HeldTwo(close, Record(calls[k]), t);
    }
  }

  lemma {:induction false} WalkSpendsNothing(calls: seq<Attempt>, t: Ticket)
    ensures Spent(MissedAll(calls), t) == 0 && Spent(ReplayedAll(calls), t) == 0 && Spent(TimedOutAll(calls), t) == 0
  {
    MissedIsQuiet(calls);
    SpentNowhere(MissedAll(calls), t);
    SpentNowhere(ReplayedAll(calls), t);
    SpentNowhere(TimedOutAll(calls), t);
  }

  /** An act passes its ticket on or spends it. */
  lemma RouteActShare(w: World, act: Act, o: Oracle, t: Ticket)
    requires act.Route? || act.Woken? || act.RouteAgain?
    ensures var f := Do(w, act, o); Spent(f.entries, t) == 0 && Held(f.tail, t) <= Held([act], t)
  {
    var call, at := act.call, act.admission;
    SpentNowhere(Do(w, act, o).entries, t);
    HeldOne(act, t);
    HeldOne(RouteAgain(call, at), t);
    HeldTwo(Allow(call.caller, call.callee, ByInvite(at)), StartRing(call, at), t);
    HeldTwo(Suspend, Record(call), t);
    WaitingHolds(call, at, t);
  }

  lemma WaitingHolds(call: Attempt, at: nat, t: Ticket)
    ensures Held([Suspend, Woken(call, at)], t) == if t == ByInvite(at) then 1 else 0
  {
    assert [Suspend, Woken(call, at)] == [Suspend] + [Woken(call, at)];
    HeldAppend([Suspend], [Woken(call, at)], t);
    HeldOne(Suspend, t);
    HeldOne(Woken(call, at), t);
  }

  lemma PlainActShare(w: World, act: Act, o: Oracle, t: Ticket)
    requires !act.Route? && !act.Woken? && !act.RouteAgain? && !act.Allow? && !act.Replay? && !act.DropRings?
    ensures var f := Do(w, act, o); Held(f.tail, t) + Spent(f.entries, t) == 0
  {
    var f := Do(w, act, o);
    HeldNowhere(f.tail, t);
    SpentNowhere(f.entries, t);
  }

  lemma ActShare(w: World, act: Act, o: Oracle, t: Ticket)
    requires t.at < |w.log| || !act.Replay?
    ensures var f := Do(w, act, o); Held(f.tail, t) + Spent(f.entries, t) <= Held([act], t)
  {
    var f := Do(w, act, o);
    HeldOne(act, t);
    if act.Route? || act.Woken? || act.RouteAgain? {
      RouteActShare(w, act, o, t);
    } else if act.Allow? {
      assert f.entries[..0] == [];
    } else if act.Replay? {
      ReplaysAreDistinct(Attempts(o.order), |w.log|, t);
      WalkSpendsNothing(Attempts(o.order), t);
    } else if act.DropRings? {
      RecordAllHoldsNothing(Attempts(o.order), t);
      WalkSpendsNothing(Attempts(o.order), t);
    } else {
      PlainActShare(w, act, o, t);
    }
  }

  /** An event brings at most one ticket, and that a new one. */
  lemma BeginShare(w: World, e: Event, t: Ticket)
    requires !e.Exec? && !e.Abort?
    ensures var f := Begin(w, e);
            Spent(f.entries, t) == 0 && Held(f.tail, t) <= if t.at == |w.log| then 1 else 0
  {
    var f := Begin(w, e);
    if e.SweepTick? && Lists(e.order, Expired(w.rings, e.now, RING_TIMEOUT_SECS)) {
      var calls := Attempts(e.order);
      CloseAllHoldsNothing(calls, |w.log|, t);
      WalkSpendsNothing(calls, t);
      SpentAppend(TimedOutAll(calls), MissedAll(calls), t);
    } else {
      SpentNowhere(f.entries, t);
      if e.Signal? && f.tail != [] {
        HandlerShare(e.uid, e.to, e.kind, e.video, |w.log|, t);
      } else {
        HeldNowhere(f.tail, t);
      }
    }
  }

  lemma HandlerShare(uid: nat, to: nat, kind: Kind, video: bool, at: nat, t: Ticket)
    ensures Held(Handler(uid, to, kind, video, at), t) <= if t.at == at then 1 else 0
  {
    match kind
    case Invite => HeldOne(Route(Attempt(uid, to, video), at), t);
    case Accept =>
      HeldAppend([Allow(uid, to, ByAccept(at))], [Answer(to, uid)], t);
      HeldOne(Allow(uid, to, ByAccept(at)), t);
      HeldOne(Answer(to, uid), t);
      assert [Allow(uid, to, ByAccept(at)), Answer(to, uid)] == [Allow(uid, to, ByAccept(at))] + [Answer(to, uid)];
    case End => HeldNowhere(Handler(uid, to, End, video, at), t);
    case Other =>
  }

  /** A task's first act gives way to what it leads to. */
  lemma ActTaken(tasks: seq<Task>, i: nat, tail: Task, t: Ticket)
    requires i < |tasks| && tasks[i] != []
    ensures HeldByAll(tasks[i := tail + tasks[i][1..]], t) + Held([tasks[i][0]], t)
            == HeldByAll(tasks, t) + Held(tail, t)
  {
    var task := tasks[i];
    HeldUpdate(tasks, i, tail + task[1..], t);
    HeldAppend(tail, task[1..], t);
    assert task == [task[0]] + task[1..];
    HeldAppend([task[0]], task[1..], t);
  }

  lemma ReplayKeepsOnce(w: World, i: nat, o: Oracle, t: Ticket)
    requires Inv(w) && Runs(w, i) && Possible(w, w.tasks[i][0], o) && w.tasks[i][0].Replay? && t.at >= |w.log|
    ensures Once(Step(w, Exec(i, o)), t)
  {
    var calls := Attempts(o.order);
    UnheldAhead(w.log, w.tasks, t);
    UnspentAhead(w.log, t);
    ReplaysAreDistinct(calls, |w.log|, t);
    WalkSpendsNothing(calls, t);
    SpentAppend(w.log, ReplayedAll(calls), t);
    ActTaken(w.tasks, i, AllowAll(calls, |w.log|), t);
  }

  lemma ExecKeepsOnce(w: World, i: nat, o: Oracle, t: Ticket)
    requires Once(w, t) && Runs(w, i) && Possible(w, w.tasks[i][0], o)
    requires t.at < |w.log| || !w.tasks[i][0].Replay?
    ensures Once(Step(w, Exec(i, o)), t)
  {
    var f := Do(w, w.tasks[i][0], o);
    ActShare(w, w.tasks[i][0], o, t);
    SpentAppend(w.log, f.entries, t);
    ActTaken(w.tasks, i, f.tail, t);
  }

  lemma {:induction false} LossSpendsNothing(task: Task, t: Ticket)
    ensures Spent(LostOf(task), t) == 0
  {
    LostIsPlain(task);
    SpentNowhere(LostOf(task), t);
  }

  lemma BeginKeepsOnce(w: World, e: Event, t: Ticket)
    requires Inv(w) && Once(w, t) && !e.Exec? && !e.Abort?
    ensures Once(Step(w, e), t)
  {
    var f := Begin(w, e);
    BeginShare(w, e, t);
    SpentAppend(w.log, f.entries, t);
    assert (w.tasks + [f.tail])[..|w.tasks|] == w.tasks;
    if t.at == |w.log| {
      UnheldAhead(w.log, w.tasks, t);
      UnspentAhead(w.log, t);
    }
  }

  lemma StepKeepsOnce(w: World, e: Event, t: Ticket)
    requires Inv(w) && Once(w, t)
    ensures Once(Step(w, e), t)
  {
    if e.Exec? {
      if Runs(w, e.task) && Possible(w, w.tasks[e.task][0], e.o) {
        if w.tasks[e.task][0].Replay? && t.at >= |w.log| {
          ReplayKeepsOnce(w, e.task, e.o, t);
        } else {
          ExecKeepsOnce(w, e.task, e.o, t);
        }
      }
    } else if e.Abort? {
      if Cancels(w, e.task) {
        SpentAppend(w.log, LostOf(w.tasks[e.task]), t);
        LossSpendsNothing(w.tasks[e.task], t);
        HeldUpdate(w.tasks, e.task, [], t);
      }
    } else {
      BeginKeepsOnce(w, e, t);
    }
  }

  lemma {:induction false} RunKeepsOnce(events: seq<Event>, t: Ticket)
    ensures Once(Run(events), t)
  {
    if events != [] {
      RunKeepsOnce(events[..|events| - 1], t);
      RunKeepsInv(events[..|events| - 1]);
      StepKeepsOnce(Run(events[..|events| - 1]), events[|events| - 1], t);
    }
  }

  /** Over any run no two openings have the same cause: a gate once closed, by a block
      say, opens again only for another invite or accept that passes, or another replay. */
  lemma NoCauseOpensTwice(events: seq<Event>, i: nat, i2: nat)
    requires i < i2 < |Run(events).log| && Run(events).log[i].Opened? && Run(events).log[i2].Opened?
    ensures Run(events).log[i].ticket != Run(events).log[i2].ticket
  {
    var log := Run(events).log;
    RunKeepsOnce(events, log[i].ticket);
    if log[i].ticket == log[i2].ticket {
      SpentTwice(log, i, i2, log[i].ticket);
    }
  }
}
