/** Following one handler through a run: an act it has to do is done by some event,
    unless the handler is cut short or still at work. */
module CallSteps {
  import opened Calls
  import opened Rings

  /** A run with the world after each number of events. */
  datatype Course = Course(events: seq<Event>, worlds: seq<World>)

  type History = h: Course | |h.worlds| == |h.events| + 1 ghost witness Course([], [EMPTY])

  ghost predicate StepsTo(h: History, m: nat)
    requires m < |h.events|
  {
    h.worlds[m + 1] == Step(h.worlds[m], h.events[m])
  }

  ghost predicate IsRun(h: History) {
    h.worlds[0] == EMPTY && forall m {:trigger StepsTo(h, m)} :: 0 <= m < |h.events| ==> StepsTo(h, m)
  }

  /** How it ended. */
  function Last(h: History): World {
    h.worlds[|h.events|]
  }

  lemma {:induction false} WorldAt(h: History, m: nat)
    requires IsRun(h) && m <= |h.events|
    ensures h.worlds[m] == Run(h.events[..m])
  {
    if m > 0 {
      WorldAt(h, m - 1);
      assert StepsTo(h, m - 1) && h.events[..m][..m - 1] == h.events[..m - 1];
    }
  }

  /** Every run has a history, and it ends as the run does. */
  lemma {:induction false} HistoryOf(events: seq<Event>) returns (h: History)
    ensures IsRun(h) && h.events == events && Last(h) == Run(events)
  {
    if events == [] {
      return Course([], [EMPTY]);
    }
    var before := HistoryOf(events[..|events| - 1]);
    var e := events[|events| - 1];
    h := Course(events, before.worlds + [Step(Last(before), e)]);
    forall m | 0 <= m < |events| ensures StepsTo(h, m) {
      if m < |before.events| {
        assert StepsTo(before, m);
      }
    }
  }

  /** The task event `n` starts. */
  ghost function TaskOf(h: History, n: nat): nat
    requires n <= |h.events|
  {
    |h.worlds[n].tasks|
  }

  /** Where in the log event `n` writes. */
  ghost function PlaceOf(h: History, n: nat): nat
    requires n <= |h.events|
  {
    |h.worlds[n].log|
  }

  /** Event `m` is an act of task `i`, and takes effect. */
  ghost predicate Acts(h: History, m: nat, i: nat) {
    m < |h.events| && h.events[m].Exec? && h.events[m].task == i && Runs(h.worlds[m], i)
    && Possible(h.worlds[m], h.worlds[m].tasks[i][0], h.events[m].o)
  }

  ghost predicate Takes(h: History, m: nat, i: nat, act: Act) {
    Acts(h, m, i) && h.worlds[m].tasks[i][0] == act
  }

  /** Event `k` cancels task `i` where it waits. */
  ghost predicate CancelledBy(h: History, k: nat, i: nat) {
    k < |h.events| && h.events[k] == Abort(i) && Cancels(h.worlds[k], i)
  }

  /** The handler that event `n` started was cut short. */
  ghost predicate CutShort(h: History, n: nat)
    requires n <= |h.events|
  {
    exists k :: n < k < |h.events| && CancelledBy(h, k, TaskOf(h, n))
  }

  /** The handler that event `n` started has run to its end. */
  ghost predicate Finished(h: History, n: nat) {
    n < |h.events| && TaskOf(h, n) < |Last(h).tasks| && Last(h).tasks[TaskOf(h, n)] == []
    && !CutShort(h, n)
  }

  ghost predicate Extends(w: World, w2: World) {
    w.log <= w2.log && |w.tasks| <= |w2.tasks|
  }

  lemma StepExtends(w: World, e: Event)
    ensures Extends(w, Step(w, e))
  {
  }

  lemma OneMore(h: History, m: nat)
    requires IsRun(h) && m < |h.events|
    ensures Extends(h.worlds[m], h.worlds[m + 1])
  {
    assert StepsTo(h, m);
    StepExtends(h.worlds[m], h.events[m]);
  }

  lemma {:induction false} Grows(h: History, a: nat, b: nat)
    requires IsRun(h) && a <= b <= |h.events|
    ensures Extends(h.worlds[a], h.worlds[b])
    decreases b
  {
    if a < b {
      Grows(h, a, b - 1);
      OneMore(h, b - 1);
    }
  }

  /** What an act of a task leaves behind. */
  lemma TakenStep(h: History, m: nat, i: nat, act: Act)
    requires IsRun(h) && Takes(h, m, i, act)
    ensures var w := h.worlds[m];
            var f := Do(w, act, h.events[m].o);
            h.worlds[m + 1] == f.w.(tasks := w.tasks[i := f.tail + w.tasks[i][1..]], log := w.log + f.entries)
  {
    assert StepsTo(h, m);
  }

  /** The acts it leads to come next. */
  lemma TakenLeads(h: History, m: nat, i: nat, act: Act, tail: Task)
    requires IsRun(h) && Takes(h, m, i, act) && tail == Do(h.worlds[m], act, h.events[m].o).tail
    ensures i < |h.worlds[m + 1].tasks| && forall next :: next in tail ==> next in h.worlds[m + 1].tasks[i]
  {
    TakenStep(h, m, i, act);
  }

  /** An act to be done stays to be done, until it is done or its task cancelled. */
  lemma StepCarries(w: World, e: Event, i: nat, act: Act)
    requires i < |w.tasks| && act in w.tasks[i]
    requires !(e == Abort(i) && Cancels(w, i))
    requires !(e.Exec? && e.task == i && Possible(w, w.tasks[i][0], e.o) && w.tasks[i][0] == act)
    ensures i < |Step(w, e).tasks| && act in Step(w, e).tasks[i]
  {
    if e.Exec? && e.task == i && Possible(w, w.tasks[i][0], e.o) {
      assert w.tasks[i] == [w.tasks[i][0]] + w.tasks[i][1..];
    }
  }

  /** Still to be done at `upto`, or done since `from`. */
  ghost predicate Stands(h: History, from: nat, upto: nat, i: nat, act: Act)
    requires upto <= |h.events|
  {
    i < |h.worlds[upto].tasks|
    && (act in h.worlds[upto].tasks[i] || exists m :: from <= m < upto && Takes(h, m, i, act))
  }

  lemma StandsOn(h: History, from: nat, upto: nat, i: nat, act: Act)
    requires IsRun(h) && from <= upto < |h.events| && Stands(h, from, upto, i, act) && !CancelledBy(h, upto, i)
    ensures Stands(h, from, upto + 1, i, act)
  {
    assert StepsTo(h, upto);
    StepExtends(h.worlds[upto], h.events[upto]);
    if m :| from <= m < upto && Takes(h, m, i, act) {
      assert Takes(h, m, i, act);
    } else if !Takes(h, upto, i, act) {
      StepCarries(h.worlds[upto], h.events[upto], i, act);
    }
  }

  lemma {:induction false} Carried(h: History, from: nat, upto: nat, i: nat, act: Act)
    requires IsRun(h) && from <= upto <= |h.events| && i < |h.worlds[from].tasks| && act in h.worlds[from].tasks[i]
    requires forall k :: from <= k < upto ==> !CancelledBy(h, k, i)
    ensures Stands(h, from, upto, i, act)
    decreases upto
  {
    if from < upto {
      Carried(h, from, upto - 1, i, act);
      StandsOn(h, from, upto - 1, i, act);
    }
  }

  /** A handler that has run to its end has done what it had to do at any time. */
  lemma DoneBy(h: History, n: nat, from: nat, act: Act) returns (m: nat)
    requires IsRun(h) && Finished(h, n) && n < from <= |h.events|
    requires TaskOf(h, n) < |h.worlds[from].tasks| && act in h.worlds[from].tasks[TaskOf(h, n)]
    ensures from <= m && Takes(h, m, TaskOf(h, n), act)
  {
    Carried(h, from, |h.events|, TaskOf(h, n), act);
    m :| from <= m < |h.events| && Takes(h, m, TaskOf(h, n), act);
  }

  /** No handler is ever stuck: with a suitable answer from outside its next act happens. */
  lemma HandlersNeverStall(w: World, i: nat) returns (o: Oracle)
    requires Runs(w, i)
    ensures Possible(w, w.tasks[i][0], o)
    ensures var f := Do(w, w.tasks[i][0], o); Step(w, Exec(i, o)).tasks[i] == f.tail + w.tasks[i][1..]
  {
    var act := w.tasks[i][0];
    o := Oracle(0, false, []);
    if act.DropRings? {
      var order := WalkOf(Involving(w.rings, act.user));
      o := Oracle(0, false, order);
    } else if act.Replay? {
      var order := WalkOf(Incoming(w.rings, act.user));
      o := Oracle(0, false, order);
    }
  }

  /** What an event of no task starts. */
  lemma Begun(h: History, n: nat)
    requires IsRun(h) && n < |h.events| && !h.events[n].Exec? && !h.events[n].Abort?
    ensures var w, f := h.worlds[n], Begin(h.worlds[n], h.events[n]);
            h.worlds[n + 1] == f.w.(tasks := w.tasks + [f.tail], log := w.log + f.entries)
  {
    assert StepsTo(h, n);
  }

  /** The entries an event adds stand in the log from its place on. */
  lemma Logged(h: History, m: nat, entries: seq<Entry>)
    requires IsRun(h) && m < |h.events| && h.worlds[m + 1].log == h.worlds[m].log + entries
    ensures PlaceOf(h, m) + |entries| <= |Last(h).log|
    ensures forall x {:trigger entries[x]} ::
              0 <= x < |entries| ==> Last(h).log[PlaceOf(h, m) + x] == entries[x]
  {
    Grows(h, m + 1, |h.events|);
    forall x | 0 <= x < |entries| ensures Last(h).log[PlaceOf(h, m) + x] == entries[x] {
      assert h.worlds[m + 1].log[PlaceOf(h, m) + x] == entries[x];
    }
  }
}
