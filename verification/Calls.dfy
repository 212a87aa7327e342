/** Calls between accounts on one instance (the voice_signal branch, socket connect
    and teardown, the ring sweeper and the block handler of src/social_api.rs).
    A handler is a task: a list of acts, each one hold of one lock or one database
    statement. Any number of tasks are under way and their acts interleave freely.
    A frame handler ends where it waits when its socket fails, and a request handler
    when its client hangs up: `Suspend` marks the places, `Abort` is the event. */
module Calls {
  import opened Blocks
  import opened Devices
  import opened Hub
  import opened Rings
  import opened Wrappers

  type Pair = (nat, nat)

  datatype Kind = Invite | Accept | End | Other

  datatype Attempt = Attempt(caller: nat, callee: nat, video: bool)

  /** What lets an act open the gate: the place in the log of the invite or accept that
      passed, or of the replay of a live ring. */
  datatype Ticket = ByInvite(at: nat) | ByAccept(at: nat) | ByReplay(at: nat)

  /** What makes an act close it: the place of the end frame, the expiry or the block. */
  datatype Cause = ByEnd(at: nat) | ByExpiry(at: nat) | ByBlock(at: nat)

  datatype Act =
    | Suspend
    | Route(call: Attempt, admission: nat)
    | Woken(call: Attempt, admission: nat)
    | RouteAgain(call: Attempt, admission: nat)
    | Allow(a: nat, b: nat, ticket: Ticket)
    | Disallow(a: nat, b: nat, cause: Cause)
    | StartRing(call: Attempt, admission: nat)
    | Answer(caller: nat, callee: nat)
    | EndRing(a: nat, b: nat, recorded: bool)
    | DropVoice(user: nat, offline: nat)
    | DropRings(user: nat)
    | Replay(user: nat)
    | Record(call: Attempt)
    | CutFriendship(a: nat, b: nat)
    | InsertBlock(a: nat, b: nat)

  type Task = seq<Act>

  /** What took effect, in order. */
  datatype Entry =
    | Befriended(pair: Pair)
    | Unfriended(pair: Pair)
    | Blocked(blocker: nat, blocked: nat)
    | Unblocked(blocker: nat, blocked: nat)
    | Passed(kind: Kind, a: nat, b: nat)
    | WentOffline(user: nat)
    | TimedOut(call: Attempt)
    | Replayed(call: Attempt)
    | Opened(pair: Pair, ticket: Ticket)
    | Closed(pair: Pair, cause: Cause)
    | ClosedAll(user: nat, offline: nat)
    | RingStarted(call: Attempt, admission: nat)
    | RingAnswered(call: Attempt)
    | RingMissed(call: Attempt)
    | RingBlocked(call: Attempt)
    | NobodyHome(call: Attempt)
    | Recorded(call: Attempt)
    | Lost(call: Attempt)

  /** The hub's tables, the friendship and block tables, and the running tasks. */
  datatype World = World(
    conns: Conns, nextId: nat, voice: set<Pair>, rings: Live, friends: set<Pair>, blocks: BlockTable,
    tasks: seq<Task>, log: seq<Entry>)

  const EMPTY := World(map[], 1, {}, map[], {}, {}, [], [])

  /** What the environment decides at an act: the clock, whether a push woke the
      callee's phone, and the order in which a hash table was walked. */
  datatype Oracle = Oracle(now: int, pushed: bool, order: seq<RingEntry>)

  function KeyOf(call: Attempt): Key {
    (call.caller, call.callee)
  }

  function PairOfCall(call: Attempt): Pair {
    PairOf(call.caller, call.callee)
  }

  function AttemptOf(e: RingEntry): Attempt {
    Attempt(e.key.0, e.key.1, e.ring.video)
  }

  function Attempts(order: seq<RingEntry>): (calls: seq<Attempt>)
    ensures |calls| == |order|
  {
    seq(|order|, i requires 0 <= i < |order| => AttemptOf(order[i]))
  }

  function MissedAll(calls: seq<Attempt>): seq<Entry> {
    if calls == [] then [] else MissedAll(calls[..|calls| - 1]) + [RingMissed(calls[|calls| - 1])]
  }

  function TimedOutAll(calls: seq<Attempt>): (entries: seq<Entry>)
    ensures |entries| == |calls| && forall i :: 0 <= i < |calls| ==> entries[i] == TimedOut(calls[i])
  {
    seq(|calls|, i requires 0 <= i < |calls| => TimedOut(calls[i]))
  }

  function ReplayedAll(calls: seq<Attempt>): (entries: seq<Entry>)
    ensures |entries| == |calls| && forall i :: 0 <= i < |calls| ==> entries[i] == Replayed(calls[i])
  {
    seq(|calls|, i requires 0 <= i < |calls| => Replayed(calls[i]))
  }

  function RecordAll(calls: seq<Attempt>): Task {
    if calls == [] then [] else RecordAll(calls[..|calls| - 1]) + [Record(calls[|calls| - 1])]
  }

  /** `base` is the place in the log of the first call's replay, or expiry. */
  function AllowAll(calls: seq<Attempt>, base: nat): Task {
    if calls == [] then []
    else
      var k := |calls| - 1;
      AllowAll(calls[..k], base) + [Allow(calls[k].caller, calls[k].callee, ByReplay(base + k))]
  }

  function CloseAndRecordAll(calls: seq<Attempt>, base: nat): Task {
    if calls == [] then []
    else
      var k := |calls| - 1;
      var close := Disallow(calls[k].caller, calls[k].callee, ByExpiry(base + k));
      CloseAndRecordAll(calls[..k], base) + [close, Record(calls[k])]
  }

  /** One act: the tables after it, the entries it adds and the acts it leads to. */
  datatype Effect = Effect(w: World, entries: seq<Entry>, tail: Task)

  ghost function Do(w: World, act: Act, o: Oracle): Effect {
    match act
    case Suspend => Effect(w, [], [])
    case Route(call, admission) =>
      Effect(w, [], if call.callee !in w.conns then [Suspend, Woken(call, admission)]
                    else [RouteAgain(call, admission)])
    case Woken(call, admission) =>
      Effect(w, [], if o.pushed then [Allow(call.caller, call.callee, ByInvite(admission)), StartRing(call, admission)]
                    else [RouteAgain(call, admission)])
    case RouteAgain(call, admission) =>
      if call.callee !in w.conns then Effect(w, [NobodyHome(call)], [Suspend, Record(call)])
      else Effect(w, [], [Allow(call.caller, call.callee, ByInvite(admission)), StartRing(call, admission)])
    case Allow(a, b, ticket) => Effect(w.(voice := w.voice + {PairOf(a, b)}), [Opened(PairOf(a, b), ticket)], [])
    case Disallow(a, b, cause) => Effect(w.(voice := w.voice - {PairOf(a, b)}), [Closed(PairOf(a, b), cause)], [])
    case StartRing(call, admission) =>
      Effect(w.(rings := Started(w.rings, KeyOf(call), call.video, o.now)),
             if KeyOf(call) in w.rings then [] else [RingStarted(call, admission)], [])
    case Answer(caller, callee) =>
      var k := (caller, callee);
      Effect(w.(rings := w.rings - {k}),
             if k in w.rings then [RingAnswered(Attempt(caller, callee, w.rings[k].video))] else [], [])
    case EndRing(a, b, recorded) =>
      (match Named(w.rings, a, b)
       case None => Effect(w, [], [])
       case Some(e) =>
         Effect(w.(rings := EndedEitherWay(w.rings, a, b)),
                [if recorded then RingMissed(AttemptOf(e)) else RingBlocked(AttemptOf(e))],
                if recorded then [Suspend, Record(AttemptOf(e))] else []))
    case DropVoice(user, offline) =>
      Effect(w.(voice := set p | p in w.voice && p.0 != user && p.1 != user), [ClosedAll(user, offline)], [])
    case DropRings(user) =>
      var calls := Attempts(o.order);
      Effect(w.(rings := w.rings - Involving(w.rings, user).Keys), MissedAll(calls), RecordAll(calls))
    case Replay(user) => Effect(w, ReplayedAll(Attempts(o.order)), AllowAll(Attempts(o.order), |w.log|))
    case Record(call) => Effect(w, [Recorded(call)], [])
    case CutFriendship(a, b) => Effect(w.(friends := w.friends - {PairOf(a, b)}), [Unfriended(PairOf(a, b))], [])
    case InsertBlock(a, b) =>
      var cause := ByBlock(|w.log|);
      Effect(w.(blocks := w.blocks + {(a, b)}), [Blocked(a, b)],
             [Suspend, Disallow(a, b, cause), Disallow(b, a, cause), EndRing(a, b, false)])
  }

  /** The walk an act reports is a walk of the rings it is about. */
  ghost predicate Possible(w: World, act: Act, o: Oracle) {
    (act.DropRings? ==> Lists(o.order, Involving(w.rings, act.user)))
    && (act.Replay? ==> Lists(o.order, Incoming(w.rings, act.user)))
  }

  // ----------------------------------------------------------------- handlers

  datatype Event =
    | Signal(uid: nat, to: nat, kind: Kind, video: bool)
    | Connect(uid: nat, device: Option<Device>)
    | Disconnect(uid: nat, conn: nat)
    | SweepTick(now: int, order: seq<RingEntry>)
    | BlockCall(me: nat, other: nat)
    | UnblockCall(me: nat, other: nat)
    | Befriend(a: nat, b: nat)
    | Unfriend(a: nat, b: nat)
    | Exec(task: nat, o: Oracle)
    | Abort(task: nat)

  /** The gate in front of every signaling frame. */
  predicate GateOpen(w: World, uid: nat, to: nat) {
    to != 0 && InteractionRefusal(BlocksBetween(w.blocks, uid, to), Call).None? && PairOf(uid, to) in w.friends
  }

  /** What an admitted frame does; `at` is the place in the log of its admission. */
  function Handler(uid: nat, to: nat, kind: Kind, video: bool, at: nat): Task {
    match kind
    case Invite => [Route(Attempt(uid, to, video), at)]
    case Accept => [Allow(uid, to, ByAccept(at)), Answer(to, uid)]
    case End => [Disallow(uid, to, ByEnd(at)), EndRing(uid, to, true)]
    case Other => []
  }

  /** An event that starts a task, or changes a table from outside. */
  ghost function Begin(w: World, e: Event): Effect
    requires !e.Exec? && !e.Abort?
  {
    match e
    case Signal(uid, to, kind, video) =>
      if GateOpen(w, uid, to) then Effect(w, [Passed(kind, uid, to)], Handler(uid, to, kind, video, |w.log|))
      else Effect(w, [], [])
    case Connect(uid, device) =>
      Effect(w.(conns := Registered(w.conns, uid, Conn(w.nextId, device)), nextId := w.nextId + 1), [], [Replay(uid)])
    case Disconnect(uid, conn) =>
      var w' := w.(conns := Unregistered(w.conns, uid, conn));
      if LastGone(w.conns, uid, conn) then Effect(w', [WentOffline(uid)], [DropVoice(uid, |w.log|), DropRings(uid)])
      else Effect(w', [], [])
    case SweepTick(now, order) =>
      if Lists(order, Expired(w.rings, now, RING_TIMEOUT_SECS)) then
        var calls := Attempts(order);
        Effect(w.(rings := w.rings - Expired(w.rings, now, RING_TIMEOUT_SECS).Keys),
               TimedOutAll(calls) + MissedAll(calls),
               CloseAndRecordAll(calls, |w.log|))
      else Effect(w, [], [])
    case BlockCall(me, other) =>
      Effect(w, [], if ValidBlockTarget(me, other)
                    then [Suspend, CutFriendship(me, other), Suspend, InsertBlock(me, other)] else [])
    case UnblockCall(me, other) => Effect(w.(blocks := w.blocks - {(me, other)}), [Unblocked(me, other)], [])
    case Befriend(a, b) => Effect(w.(friends := w.friends + {PairOf(a, b)}), [Befriended(PairOf(a, b))], [])
    case Unfriend(a, b) => Effect(w.(friends := w.friends - {PairOf(a, b)}), [Unfriended(PairOf(a, b))], [])
  }

  /** The records a task still has to write, as lost. */
  function LostOf(task: Task): seq<Entry> {
    if task == [] then []
    else
      var act := task[|task| - 1];
      LostOf(task[..|task| - 1]) + if act.Record? then [Lost(act.call)] else []
  }

  predicate Runs(w: World, i: nat) {
    i < |w.tasks| && w.tasks[i] != []
  }

  /** A task can be cancelled only where it waits. */
  predicate Cancels(w: World, i: nat) {
    Runs(w, i) && w.tasks[i][0] == Suspend
  }

  ghost function Step(w: World, e: Event): World {
    if e.Exec? then
      if Runs(w, e.task) && Possible(w, w.tasks[e.task][0], e.o) then
        var f := Do(w, w.tasks[e.task][0], e.o);
        f.w.(tasks := w.tasks[e.task := f.tail + w.tasks[e.task][1..]], log := w.log + f.entries)
      else w
    else if e.Abort? then
      if Cancels(w, e.task) then w.(tasks := w.tasks[e.task := []], log := w.log + LostOf(w.tasks[e.task])) else w
    else
      var f := Begin(w, e);
      f.w.(tasks := w.tasks + [f.tail], log := w.log + f.entries)
  }

  ghost function Run(events: seq<Event>): World {
    if events == [] then EMPTY else Step(Run(events[..|events| - 1]), events[|events| - 1])
  }
}
