/** The in-memory gate on voice audio: why a pair is open or closed, and on whose say.
    What the log says is worked out from the log alone, and the tables proved to agree. */
module VoiceGate {
  import opened Blocks
  import opened Calls
  import opened Rings
  import opened Wrappers

  // ---------------------------------------- what the log says, newest entry first

  /** The entry opens or closes the pair's gate. */
  predicate Touches(e: Entry, p: Pair) {
    (e.Opened? && e.pair == p) || (e.Closed? && e.pair == p) || (e.ClosedAll? && (e.user == p.0 || e.user == p.1))
  }

  /** Where the gate of a pair was last opened or closed. */
  function LastTouch(log: seq<Entry>, p: Pair): (i: Option<nat>)
    ensures i.Some? ==> i.value < |log| && Touches(log[i.value], p)
  {
    if log == [] then None
    else if Touches(log[|log| - 1], p) then Some(|log| - 1)
    else LastTouch(log[..|log| - 1], p)
  }

  predicate OpenIn(log: seq<Entry>, p: Pair) {
    LastTouch(log, p).Some? && log[LastTouch(log, p).value].Opened?
  }

  predicate FriendsIn(log: seq<Entry>, p: Pair) {
    log != []
    && var before, last := log[..|log| - 1], log[|log| - 1];
       if last == Befriended(p) then true else if last == Unfriended(p) then false else FriendsIn(before, p)
  }

  predicate BlockedIn(log: seq<Entry>, a: nat, b: nat) {
    log != []
    && var before, last := log[..|log| - 1], log[|log| - 1];
       if last == Blocked(a, b) then true else if last == Unblocked(a, b) then false else BlockedIn(before, a, b)
  }

  predicate EndsRing(e: Entry, k: Key) {
    (e.RingAnswered? || e.RingMissed? || e.RingBlocked?) && KeyOf(e.call) == k
  }

  /** Where the ring of a key that is now live started. */
  function StartOf(log: seq<Entry>, k: Key): (s: Option<nat>)
    ensures s.Some? ==> s.value < |log| && log[s.value].RingStarted? && KeyOf(log[s.value].call) == k
  {
    if log == [] then None
    else
      var last := log[|log| - 1];
      if last.RingStarted? && KeyOf(last.call) == k then Some(|log| - 1)
      else if EndsRing(last, k) then None
      else StartOf(log[..|log| - 1], k)
  }

  // ------------------------------------------------------------ justification

  predicate PassedAt(log: seq<Entry>, at: nat, kind: Kind, p: Pair) {
    at < |log| && log[at].Passed? && log[at].kind == kind && PairOf(log[at].a, log[at].b) == p
  }

  predicate TicketOk(log: seq<Entry>, t: Ticket, p: Pair) {
    match t
    case ByInvite(at) => PassedAt(log, at, Invite, p)
    case ByAccept(at) => PassedAt(log, at, Accept, p)
    case ByReplay(at) => at < |log| && log[at].Replayed? && PairOfCall(log[at].call) == p
  }

  predicate CauseOk(log: seq<Entry>, cause: Cause, p: Pair) {
    match cause
    case ByEnd(at) => PassedAt(log, at, End, p)
    case ByExpiry(at) => at < |log| && log[at].TimedOut? && PairOfCall(log[at].call) == p
    case ByBlock(at) => at < |log| && log[at].Blocked? && PairOf(log[at].blocker, log[at].blocked) == p
  }

  predicate InviteAt(log: seq<Entry>, at: nat, k: Key) {
    at < |log| && log[at] == Passed(Invite, k.0, k.1)
  }

  /** Friends, and neither blocking the other. */
  predicate MayCall(log: seq<Entry>, a: nat, b: nat) {
    FriendsIn(log, PairOf(a, b)) && !BlockedIn(log, a, b) && !BlockedIn(log, b, a)
  }

  /** What must stand before an entry. */
  predicate Justified(before: seq<Entry>, e: Entry) {
    match e
    case Passed(kind, a, b) => MayCall(before, a, b)
    case Opened(p, ticket) => TicketOk(before, ticket, p)
    case Closed(p, cause) => CauseOk(before, cause, p)
    case ClosedAll(user, offline) => offline < |before| && before[offline] == WentOffline(user)
    case RingStarted(call, admission) => InviteAt(before, admission, KeyOf(call))
    case Replayed(call) => StartOf(before, KeyOf(call)).Some?
    case TimedOut(call) => StartOf(before, KeyOf(call)).Some?
    case _ => true
  }

  ghost predicate Sound(log: seq<Entry>) {
    forall i {:trigger log[..i]} :: 0 <= i < |log| ==> Justified(log[..i], log[i])
  }

  /** Acts carry the place of what they go back to. */
  predicate ActBacked(log: seq<Entry>, act: Act) {
    match act
    case Route(call, admission) => InviteAt(log, admission, KeyOf(call))
    case Woken(call, admission) => InviteAt(log, admission, KeyOf(call))
    case RouteAgain(call, admission) => InviteAt(log, admission, KeyOf(call))
    case StartRing(call, admission) => InviteAt(log, admission, KeyOf(call))
    case Allow(a, b, ticket) => TicketOk(log, ticket, PairOf(a, b))
    case Disallow(a, b, cause) => CauseOk(log, cause, PairOf(a, b))
    case DropVoice(user, offline) => offline < |log| && log[offline] == WentOffline(user)
    case _ => true
  }

  ghost predicate TaskBacked(log: seq<Entry>, task: Task) {
    forall act {:trigger ActBacked(log, act)} :: act in task ==> ActBacked(log, act)
  }

  // --------------------------------------------------------------- the invariant

  ghost predicate GateOk(voice: set<Pair>, log: seq<Entry>, p: Pair) {
    p in voice <==> OpenIn(log, p)
  }

  ghost predicate FriendOk(friends: set<Pair>, log: seq<Entry>, p: Pair) {
    p in friends <==> FriendsIn(log, p)
  }

  ghost predicate BlockOk(blocks: BlockTable, log: seq<Entry>, a: nat, b: nat) {
    (a, b) in blocks <==> BlockedIn(log, a, b)
  }

  ghost predicate RingOk(rings: Live, log: seq<Entry>, k: Key) {
    k in rings <==> StartOf(log, k).Some?
  }

  /** The tables are what the log says. */
  ghost predicate Matches(w: World, log: seq<Entry>) {
    (forall p {:trigger GateOk(w.voice, log, p)} :: GateOk(w.voice, log, p))
    && (forall p {:trigger FriendOk(w.friends, log, p)} :: FriendOk(w.friends, log, p))
    && (forall a: nat, b: nat {:trigger BlockOk(w.blocks, log, a, b)} :: BlockOk(w.blocks, log, a, b))
    && forall k {:trigger RingOk(w.rings, log, k)} :: RingOk(w.rings, log, k)
  }

  ghost predicate TasksBacked(log: seq<Entry>, tasks: seq<Task>) {
    forall t {:trigger TaskBacked(log, t)} :: t in tasks ==> TaskBacked(log, t)
  }

  ghost predicate Inv(w: World) {
    Matches(w, w.log) && Sound(w.log) && TasksBacked(w.log, w.tasks)
  }

  // ----------------------------------------------------------- one entry more

  lemma Extended(log: seq<Entry>, e: Entry)
    ensures (log + [e])[..|log|] == log && (log + [e])[|log|] == e
  {
  }

  lemma SoundExtends(log: seq<Entry>, e: Entry)
    requires Sound(log) && Justified(log, e)
    ensures Sound(log + [e])
  {
    var longer := log + [e];
    forall i | 0 <= i < |longer| ensures Justified(longer[..i], longer[i]) {
      if i < |log| {
        assert longer[..i] == log[..i];
      } else {
        assert longer[..i] == log;
      }
    }
  }

  lemma BackedStays(log: seq<Entry>, more: seq<Entry>, act: Act)
    requires ActBacked(log, act)
    ensures ActBacked(log + more, act)
  {
  }

  lemma TasksStay(log: seq<Entry>, more: seq<Entry>, tasks: seq<Task>)
    requires TasksBacked(log, tasks)
    ensures TasksBacked(log + more, tasks)
  {
    forall t | t in tasks ensures TaskBacked(log + more, t) {
      assert TaskBacked(log, t);
      forall act | act in t ensures ActBacked(log + more, act) {
        assert ActBacked(log, act);
        BackedStays(log, more, act);
      }
    }
  }

  /** Entries that touch neither gate nor friendship nor blocks. */
  predicate Quiet(e: Entry) {
    !e.Opened? && !e.Closed? && !e.ClosedAll? && !e.Befriended? && !e.Unfriended? && !e.Blocked? && !e.Unblocked?
  }

  lemma {:induction false} QuietKeeps(log: seq<Entry>, more: seq<Entry>, p: Pair)
    requires forall e :: e in more ==> Quiet(e)
    ensures LastTouch(log + more, p) == LastTouch(log, p) && OpenIn(log + more, p) == OpenIn(log, p)
    ensures FriendsIn(log + more, p) == FriendsIn(log, p)
    ensures BlockedIn(log + more, p.0, p.1) == BlockedIn(log, p.0, p.1)
    decreases |more|
  {
    if more == [] {
      assert log + more == log;
    } else {
      var front, last := more[..|more| - 1], more[|more| - 1];
      assert last in more;
      QuietKeeps(log, front, p);
      assert log + more == (log + front) + [last];
      Extended(log + front, last);
    }
  }

  /** So only the ring table is left to look at. */
  lemma QuietMatches(w: World, w': World, more: seq<Entry>)
    requires Matches(w, w.log) && forall e :: e in more ==> Quiet(e)
    requires w'.voice == w.voice && w'.friends == w.friends && w'.blocks == w.blocks
    requires forall k :: RingOk(w'.rings, w.log + more, k)
    ensures Matches(w', w.log + more)
  {
    var log := w.log + more;
    forall p ensures GateOk(w'.voice, log, p) && FriendOk(w'.friends, log, p) {
      assert GateOk(w.voice, w.log, p) && FriendOk(w.friends, w.log, p);
      QuietKeeps(w.log, more, p);
    }
    forall a: nat, b: nat ensures BlockOk(w'.blocks, log, a, b) {
      assert BlockOk(w.blocks, w.log, a, b);
      QuietKeeps(w.log, more, (a, b));
    }
  }

  /** Entries that start and end no ring. */
  lemma {:induction false} RingsUntouched(log: seq<Entry>, more: seq<Entry>, k: Key)
    requires forall e :: e in more ==> !e.RingStarted? && !EndsRing(e, k)
    ensures StartOf(log + more, k) == StartOf(log, k)
    decreases |more|
  {
    if more == [] {
      assert log + more == log;
    } else {
      var front, last := more[..|more| - 1], more[|more| - 1];
      assert last in more;
      RingsUntouched(log, front, k);
      assert log + more == (log + front) + [last];
      Extended(log + front, last);
    }
  }

  lemma {:induction false} MissedAllEnds(log: seq<Entry>, calls: seq<Attempt>, k: Key)
    ensures StartOf(log + MissedAll(calls), k)
            == if exists c :: c in calls && KeyOf(c) == k then None else StartOf(log, k)
  {
    if calls == [] {
      assert log + [] == log;
    } else {
      var front, last := calls[..|calls| - 1], calls[|calls| - 1];
      MissedAllEnds(log, front, k);
      assert calls == front + [last];
      assert log + MissedAll(calls) == (log + MissedAll(front)) + [RingMissed(last)];
      Extended(log + MissedAll(front), RingMissed(last));
    }
  }

  lemma {:induction false} MissedIsQuiet(calls: seq<Attempt>)
    ensures forall e :: e in MissedAll(calls) ==> e.RingMissed?
  {
    if calls != [] {
      MissedIsQuiet(calls[..|calls| - 1]);
    }
  }

  // --------------------------------------------------- what an effect carries on

  ghost predicate Carries(w: World, f: Effect) {
    Matches(f.w, w.log + f.entries) && Sound(w.log + f.entries) && TaskBacked(w.log + f.entries, f.tail)
  }

  /** Entries that need nothing before them. */
  predicate Free(e: Entry) {
    !e.Passed? && !e.Opened? && !e.Closed? && !e.ClosedAll? && !e.RingStarted? && !e.Replayed? && !e.TimedOut?
  }

  lemma {:induction false} FreeIsSound(log: seq<Entry>, more: seq<Entry>)
    requires Sound(log) && forall e :: e in more ==> Free(e)
    ensures Sound(log + more)
    decreases |more|
  {
    if more == [] {
      assert log + more == log;
    } else {
      var front, last := more[..|more| - 1], more[|more| - 1];
      assert last in more;
      FreeIsSound(log, front);
      SoundExtends(log + front, last);
      assert log + more == (log + front) + [last];
    }
  }

  /** A note for each of some live rings: entries that start and end none. */
  lemma {:induction false} NotesAreSound(log: seq<Entry>, notes: seq<Entry>)
    requires Sound(log)
    requires forall e :: e in notes ==> (e.Replayed? || e.TimedOut?) && StartOf(log, KeyOf(e.call)).Some?
    ensures Sound(log + notes)
    decreases |notes|
  {
    if notes == [] {
      assert log + notes == log;
    } else {
      var front, last := notes[..|notes| - 1], notes[|notes| - 1];
      assert last in notes;
      NotesAreSound(log, front);
      RingsUntouched(log, front, KeyOf(last.call));
      SoundExtends(log + front, last);
      assert log + notes == (log + front) + [last];
    }
  }

  /** A walk names exactly the keys of what it walks. */
  lemma ListedKeys(order: seq<RingEntry>, m: Live, k: Key)
    requires Lists(order, m)
    ensures (exists c :: c in Attempts(order) && KeyOf(c) == k) <==> k in m
  {
    if k in m {
      var i :| 0 <= i < |order| && order[i] == RingEntry(k, m[k]);
      assert Attempts(order)[i] in Attempts(order);
    }
    if c :| c in Attempts(order) && KeyOf(c) == k {
      var i :| 0 <= i < |order| && Attempts(order)[i] == c;
      assert order[i] in order;
    }
  }

  lemma ListedAreLive(w: World, order: seq<RingEntry>, m: Live)
    requires Matches(w, w.log) && Lists(order, m) && m.Keys <= w.rings.Keys
    ensures forall c :: c in Attempts(order) ==> StartOf(w.log, KeyOf(c)).Some?
  {
    forall c | c in Attempts(order) ensures StartOf(w.log, KeyOf(c)).Some? {
      ListedKeys(order, m, KeyOf(c));
      assert RingOk(w.rings, w.log, KeyOf(c));
    }
  }

  lemma ListedNotesAreSound(w: World, order: seq<RingEntry>, m: Live)
    requires Inv(w) && Lists(order, m) && m.Keys <= w.rings.Keys
    ensures Sound(w.log + ReplayedAll(Attempts(order))) && Sound(w.log + TimedOutAll(Attempts(order)))
  {
    ListedAreLive(w, order, m);
    NotesAreSound(w.log, ReplayedAll(Attempts(order)));
    NotesAreSound(w.log, TimedOutAll(Attempts(order)));
  }

  /** Entries beside the rings that need nothing before them. */
  predicate Plain(e: Entry) {
    e.NobodyHome? || e.Recorded? || e.Lost? || e.WentOffline?
  }

  lemma PlainCarries(w: World, w': World, entries: seq<Entry>)
    requires Inv(w) && forall e :: e in entries ==> Plain(e)
    requires w'.voice == w.voice && w'.friends == w.friends && w'.blocks == w.blocks && w'.rings == w.rings
    ensures Matches(w', w.log + entries) && Sound(w.log + entries)
  {
    FreeIsSound(w.log, entries);
    forall k ensures RingOk(w'.rings, w.log + entries, k) {
      assert RingOk(w.rings, w.log, k);
      RingsUntouched(w.log, entries, k);
    }
    QuietMatches(w, w', entries);
  }

  /** One entry that says how the gate, the friendships or the blocks changed. */
  predicate Describes(w: World, w': World, e: Entry) {
    w'.rings == w.rings
    && match e
       case Opened(p, _) => w' == w.(voice := w.voice + {p})
       case Closed(p, _) => w' == w.(voice := w.voice - {p})
       case ClosedAll(u, _) => w' == w.(voice := set p | p in w.voice && p.0 != u && p.1 != u)
       case Befriended(p) => w' == w.(friends := w.friends + {p})
       case Unfriended(p) => w' == w.(friends := w.friends - {p})
       case Blocked(a, b) => w' == w.(blocks := w.blocks + {(a, b)})
       case Unblocked(a, b) => w' == w.(blocks := w.blocks - {(a, b)})
       case _ => false
  }

  lemma DescribedMatches(w: World, w': World, e: Entry)
    requires Inv(w) && Describes(w, w', e) && Justified(w.log, e)
    ensures Matches(w', w.log + [e]) && Sound(w.log + [e])
  {
    var log := w.log + [e];
    SoundExtends(w.log, e);
    Extended(w.log, e);
    forall p ensures GateOk(w'.voice, log, p) && FriendOk(w'.friends, log, p) {
      assert GateOk(w.voice, w.log, p) && FriendOk(w.friends, w.log, p);
    }
    forall a: nat, b: nat ensures BlockOk(w'.blocks, log, a, b) {
      assert BlockOk(w.blocks, w.log, a, b);
    }
    forall k ensures RingOk(w'.rings, log, k) {
      assert RingOk(w.rings, w.log, k);
    }
  }

  // ------------------------------------------------------------------ the acts

  lemma GateActCarries(w: World, act: Act, o: Oracle)
    requires Inv(w) && ActBacked(w.log, act)
    requires act.Allow? || act.Disallow? || act.DropVoice? || act.CutFriendship? || act.InsertBlock?
    ensures Carries(w, Do(w, act, o))
  {
    var f := Do(w, act, o);
    DescribedMatches(w, f.w, f.entries[0]);
    Extended(w.log, f.entries[0]);
  }

  lemma RouteActCarries(w: World, act: Act, o: Oracle)
    requires Inv(w) && ActBacked(w.log, act)
    requires act.Suspend? || act.Route? || act.Woken? || act.RouteAgain? || act.Record?
    ensures Carries(w, Do(w, act, o))
  {
    var f := Do(w, act, o);
    PlainCarries(w, f.w, f.entries);
    BackedStays(w.log, f.entries, act);
  }

  /** One ring entry, or none when the table did not change. */
  lemma RingEntryMatches(w: World, w': World, e: Entry)
    requires Inv(w) && Justified(w.log, e) && Quiet(e)
    requires w'.voice == w.voice && w'.friends == w.friends && w'.blocks == w.blocks
    requires (e.RingStarted? && w'.rings.Keys == w.rings.Keys + {KeyOf(e.call)})
             || ((e.RingAnswered? || e.RingMissed? || e.RingBlocked?)
                 && w'.rings.Keys == w.rings.Keys - {KeyOf(e.call)})
    ensures Matches(w', w.log + [e]) && Sound(w.log + [e])
  {
    SoundExtends(w.log, e);
    Extended(w.log, e);
    forall k ensures RingOk(w'.rings, w.log + [e], k) {
      assert RingOk(w.rings, w.log, k);
    }
    QuietMatches(w, w', [e]);
  }

  lemma UnchangedCarries(w: World, f: Effect)
    requires Inv(w) && f.entries == [] && f.tail == []
    requires f.w.voice == w.voice && f.w.friends == w.friends && f.w.blocks == w.blocks
    requires f.w.rings.Keys == w.rings.Keys
    ensures Carries(w, f)
  {
    assert w.log + [] == w.log;
    forall k ensures RingOk(f.w.rings, w.log, k) {
      assert RingOk(w.rings, w.log, k);
    }
    QuietMatches(w, f.w, []);
  }

  lemma RingActCarries(w: World, act: Act, o: Oracle)
    requires Inv(w) && ActBacked(w.log, act) && (act.StartRing? || act.Answer? || act.EndRing?)
    ensures Carries(w, Do(w, act, o))
  {
    var f := Do(w, act, o);
    if f.entries == [] {
      UnchangedCarries(w, f);
    } else {
      RingEntryMatches(w, f.w, f.entries[0]);
    }
  }

  lemma WalkEndsRings(w: World, rings: Live, order: seq<RingEntry>, out: Live, noted: seq<Entry>, k: Key)
    requires Inv(w) && Lists(order, out) && rings == w.rings - out.Keys
    requires forall e :: e in noted ==> e.TimedOut?
    ensures RingOk(rings, w.log + (noted + MissedAll(Attempts(order))), k)
  {
    var calls := Attempts(order);
    assert w.log + (noted + MissedAll(calls)) == (w.log + noted) + MissedAll(calls);
    assert RingOk(w.rings, w.log, k);
    RingsUntouched(w.log, noted, k);
    MissedAllEnds(w.log + noted, calls, k);
    ListedKeys(order, out, k);
  }

  /** Rings taken out as missed, perhaps with their expiry noted first. */
  lemma WalkMatches(w: World, w': World, order: seq<RingEntry>, out: Live, noted: seq<Entry>)
    requires Inv(w) && Lists(order, out) && out.Keys <= w.rings.Keys && w'.rings == w.rings - out.Keys
    requires w'.voice == w.voice && w'.friends == w.friends && w'.blocks == w.blocks
    requires noted == [] || noted == TimedOutAll(Attempts(order))
    ensures var log := w.log + (noted + MissedAll(Attempts(order))); Matches(w', log) && Sound(log)
  {
    var calls := Attempts(order);
    MissedIsQuiet(calls);
    ListedNotesAreSound(w, order, out);
    assert w.log + [] == w.log;
    FreeIsSound(w.log + noted, MissedAll(calls));
    assert w.log + (noted + MissedAll(calls)) == (w.log + noted) + MissedAll(calls);
    forall k ensures RingOk(w'.rings, w.log + (noted + MissedAll(calls)), k) {
      WalkEndsRings(w, w'.rings, order, out, noted, k);
    }
    QuietMatches(w, w', noted + MissedAll(calls));
  }

  lemma {:induction false} RecordAllBacked(log: seq<Entry>, calls: seq<Attempt>)
    ensures TaskBacked(log, RecordAll(calls))
  {
    if calls != [] {
      RecordAllBacked(log, calls[..|calls| - 1]);
    }
  }

  /** The notes of some calls stand in the log from `base` on. */
  ghost predicate NotedFrom(log: seq<Entry>, base: nat, notes: seq<Entry>) {
    base + |notes| <= |log| && forall i :: 0 <= i < |notes| ==> log[base + i] == notes[i]
  }

  lemma {:induction false} CloseAllBacked(log: seq<Entry>, calls: seq<Attempt>, base: nat)
    requires NotedFrom(log, base, TimedOutAll(calls))
    ensures TaskBacked(log, CloseAndRecordAll(calls, base))
  {
    if calls != [] {
      var k := |calls| - 1;
      assert TimedOutAll(calls[..k]) == TimedOutAll(calls)[..k];
      CloseAllBacked(log, calls[..k], base);
      assert log[base + k] == TimedOutAll(calls)[k];
    }
  }

  lemma {:induction false} AllowAllBacked(log: seq<Entry>, calls: seq<Attempt>, base: nat)
    requires NotedFrom(log, base, ReplayedAll(calls))
    ensures TaskBacked(log, AllowAll(calls, base))
  {
    if calls != [] {
      var k := |calls| - 1;
      assert ReplayedAll(calls[..k]) == ReplayedAll(calls)[..k];
      AllowAllBacked(log, calls[..k], base);
      assert log[base + k] == ReplayedAll(calls)[k];
    }
  }

  lemma Noted(log: seq<Entry>, notes: seq<Entry>, more: seq<Entry>)
    ensures NotedFrom(log + (notes + more), |log|, notes)
  {
    assert log + (notes + more) == (log + notes) + more;
    forall i | 0 <= i < |notes| ensures (log + (notes + more))[|log| + i] == notes[i] {}
  }

  lemma DropRingsCarries(w: World, user: nat, o: Oracle)
    requires Inv(w) && Possible(w, DropRings(user), o)
    ensures Carries(w, Do(w, DropRings(user), o))
  {
    var f, calls := Do(w, DropRings(user), o), Attempts(o.order);
    WalkMatches(w, f.w, o.order, Involving(w.rings, user), []);
    assert [] + MissedAll(calls) == MissedAll(calls);
    RecordAllBacked(w.log + f.entries, calls);
  }

  lemma ReplayMatches(w: World, user: nat, order: seq<RingEntry>)
    requires Inv(w) && Lists(order, Incoming(w.rings, user))
    ensures Matches(w, w.log + ReplayedAll(Attempts(order))) && Sound(w.log + ReplayedAll(Attempts(order)))
  {
    var notes := ReplayedAll(Attempts(order));
    ListedNotesAreSound(w, order, Incoming(w.rings, user));
    forall k ensures RingOk(w.rings, w.log + notes, k) {
      assert RingOk(w.rings, w.log, k);
      RingsUntouched(w.log, notes, k);
    }
    QuietMatches(w, w, notes);
  }

  lemma ReplayCarries(w: World, user: nat, o: Oracle)
    requires Inv(w) && Possible(w, Replay(user), o)
    ensures Carries(w, Do(w, Replay(user), o))
  {
    var calls := Attempts(o.order);
    ReplayMatches(w, user, o.order);
    Noted(w.log, ReplayedAll(calls), []);
    assert w.log + (ReplayedAll(calls) + []) == w.log + ReplayedAll(calls);
    AllowAllBacked(w.log + ReplayedAll(calls), calls, |w.log|);
  }

  lemma SweepCarries(w: World, now: int, order: seq<RingEntry>)
    requires Inv(w) && Lists(order, Expired(w.rings, now, RING_TIMEOUT_SECS))
    ensures Carries(w, Begin(w, SweepTick(now, order)))
  {
    var f, calls := Begin(w, SweepTick(now, order)), Attempts(order);
    WalkMatches(w, f.w, order, Expired(w.rings, now, RING_TIMEOUT_SECS), TimedOutAll(calls));
    Noted(w.log, TimedOutAll(calls), MissedAll(calls));
    CloseAllBacked(w.log + f.entries, calls, |w.log|);
  }

  lemma ActCarries(w: World, act: Act, o: Oracle)
    requires Inv(w) && Possible(w, act, o) && ActBacked(w.log, act)
    ensures Carries(w, Do(w, act, o))
  {
    if act.DropRings? {
      DropRingsCarries(w, act.user, o);
    } else if act.Replay? {
      ReplayCarries(w, act.user, o);
    } else if act.StartRing? || act.Answer? || act.EndRing? {
      RingActCarries(w, act, o);
    } else if act.Suspend? || act.Route? || act.Woken? || act.RouteAgain? || act.Record? {
      RouteActCarries(w, act, o);
    } else {
      GateActCarries(w, act, o);
    }
  }

  // ---------------------------------------------------------------- the events

  lemma SignalCarries(w: World, e: Event)
    requires Inv(w) && e.Signal?
    ensures Carries(w, Begin(w, e))
  {
    if GateOpen(w, e.uid, e.to) {
      RefusedExactlyWhenBlocked(w.blocks, e.uid, e.to, Call);
      assert FriendOk(w.friends, w.log, PairOf(e.uid, e.to));
      assert BlockOk(w.blocks, w.log, e.uid, e.to) && BlockOk(w.blocks, w.log, e.to, e.uid);
      PassedCarries(w, e.uid, e.to, e.kind, e.video);
    } else {
      UnchangedCarries(w, Begin(w, e));
    }
  }

  lemma PassedCarries(w: World, uid: nat, to: nat, kind: Kind, video: bool)
    requires Inv(w) && MayCall(w.log, uid, to)
    ensures Carries(w, Effect(w, [Passed(kind, uid, to)], Handler(uid, to, kind, video, |w.log|)))
  {
    var e := Passed(kind, uid, to);
    SoundExtends(w.log, e);
    Extended(w.log, e);
    forall k ensures RingOk(w.rings, w.log + [e], k) {
      assert RingOk(w.rings, w.log, k);
    }
    QuietMatches(w, w, [e]);
  }

  lemma BeginCarries(w: World, e: Event)
    requires Inv(w) && !e.Exec? && !e.Abort?
    ensures Carries(w, Begin(w, e))
  {
    var f := Begin(w, e);
    if e.Signal? {
      SignalCarries(w, e);
    } else if e.SweepTick? && Lists(e.order, Expired(w.rings, e.now, RING_TIMEOUT_SECS)) {
      SweepCarries(w, e.now, e.order);
    } else if e.UnblockCall? || e.Befriend? || e.Unfriend? {
      DescribedMatches(w, f.w, f.entries[0]);
    } else {
      PlainCarries(w, f.w, f.entries);
      if e.Disconnect? && f.entries != [] {
        Extended(w.log, WentOffline(e.uid));
      }
    }
  }

  /** A task list with one task changed or added. */
  lemma TaskListBacked(log: seq<Entry>, tasks: seq<Task>, tasks': seq<Task>, added: Task)
    requires TasksBacked(log, tasks) && TaskBacked(log, added) && forall t :: t in tasks' ==> t == added || t in tasks
    ensures TasksBacked(log, tasks')
  {
    forall t | t in tasks' ensures TaskBacked(log, t) {
      assert t in tasks ==> TaskBacked(log, t);
    }
  }

  lemma JoinedBacked(log: seq<Entry>, tail: Task, rest: Task)
    requires TaskBacked(log, tail) && TaskBacked(log, rest)
    ensures TaskBacked(log, tail + rest)
  {
    forall act | act in tail + rest ensures ActBacked(log, act) {
      assert act in tail ==> ActBacked(log, act);
      assert act in rest ==> ActBacked(log, act);
    }
  }

  lemma ExecKeepsInv(w: World, i: nat, o: Oracle)
    requires Inv(w) && Runs(w, i) && Possible(w, w.tasks[i][0], o)
    ensures Inv(Step(w, Exec(i, o)))
  {
    var task := w.tasks[i];
    assert task in w.tasks && TaskBacked(w.log, task) && task[0] in task && ActBacked(w.log, task[0]);
    var f := Do(w, task[0], o);
    ActCarries(w, task[0], o);
    var log := w.log + f.entries;
    TasksStay(w.log, f.entries, w.tasks);
    assert TaskBacked(log, task);
    forall act | act in task[1..] ensures ActBacked(log, act) {
      assert act in task && ActBacked(log, act);
    }
    JoinedBacked(log, f.tail, task[1..]);
    TaskListBacked(log, w.tasks, w.tasks[i := f.tail + task[1..]], f.tail + task[1..]);
    MatchesAnyTasks(f.w, Step(w, Exec(i, o)), log);
  }

  lemma MatchesAnyTasks(w: World, w': World, log: seq<Entry>)
    requires Matches(w, log)
    requires w'.voice == w.voice && w'.friends == w.friends && w'.blocks == w.blocks && w'.rings == w.rings
    ensures Matches(w', log)
  {
  }

  lemma AbortKeepsInv(w: World, i: nat)
    requires Inv(w) && Cancels(w, i)
    ensures Inv(Step(w, Abort(i)))
  {
    var lost, w' := LostOf(w.tasks[i]), Step(w, Abort(i));
    LostIsPlain(w.tasks[i]);
    PlainCarries(w, w', lost);
    TasksStay(w.log, lost, w.tasks);
    TaskListBacked(w.log + lost, w.tasks, w'.tasks, []);
  }

  lemma {:induction false} LostIsPlain(task: Task)
    ensures forall e :: e in LostOf(task) ==> Plain(e)
  {
    if task != [] {
      LostIsPlain(task[..|task| - 1]);
    }
  }

  lemma BeginKeepsInv(w: World, e: Event)
    requires Inv(w) && !e.Exec? && !e.Abort?
    ensures Inv(Step(w, e))
  {
    var f := Begin(w, e);
    BeginCarries(w, e);
    TasksStay(w.log, f.entries, w.tasks);
    TaskListBacked(w.log + f.entries, w.tasks, w.tasks + [f.tail], f.tail);
    MatchesAnyTasks(f.w, Step(w, e), w.log + f.entries);
  }

  lemma StepKeepsInv(w: World, e: Event)
    requires Inv(w)
    ensures Inv(Step(w, e))
  {
    if e.Exec? {
      if Runs(w, e.task) && Possible(w, w.tasks[e.task][0], e.o) {
        ExecKeepsInv(w, e.task, e.o);
      }
    } else if e.Abort? {
      if Cancels(w, e.task) {
        AbortKeepsInv(w, e.task);
      }
    } else {
      BeginKeepsInv(w, e);
    }
  }

  lemma {:induction false} RunKeepsInv(events: seq<Event>)
    ensures Inv(Run(events))
  {
    if events != [] {
      RunKeepsInv(events[..|events| - 1]);
      StepKeepsInv(Run(events[..|events| - 1]), events[|events| - 1]);
    }
  }

  // ---------------------------------------------------------------- main results

  /** Place `j` admits the two of the pair: friends then, and neither blocking the other. */
  ghost predicate AdmittedAt(log: seq<Entry>, j: nat, kind: Kind, p: Pair) {
    PassedAt(log, j, kind, p) && MayCall(log[..j], log[j].a, log[j].b)
  }

  /** The ring live under a key at place `r` was started by the caller's own invite. */
  ghost predicate RingTraced(log: seq<Entry>, r: nat, k: Key)
    requires r <= |log|
  {
    StartOf(log[..r], k).Some?
    && var start := StartOf(log[..r], k).value;
       var j := log[start].admission;
       && j < start && log[j] == Passed(Invite, k.0, k.1) && MayCall(log[..j], k.0, k.1)
  }

  /** An opening or closing goes back to what caused it, step by step. */
  ghost predicate Traced(log: seq<Entry>, i: nat, p: Pair)
    requires i < |log| && Touches(log[i], p)
  {
    if log[i].Opened? then
      match log[i].ticket
      case ByInvite(j) => j < i && AdmittedAt(log, j, Invite, p)
      case ByAccept(j) => j < i && AdmittedAt(log, j, Accept, p)
      case ByReplay(r) =>
        r < i && log[r].Replayed? && PairOfCall(log[r].call) == p && RingTraced(log, r, KeyOf(log[r].call))
    else if log[i].Closed? then
      match log[i].cause
      case ByEnd(j) => j < i && AdmittedAt(log, j, End, p)
      case ByExpiry(r) =>
        r < i && log[r].TimedOut? && PairOfCall(log[r].call) == p && RingTraced(log, r, KeyOf(log[r].call))
      case ByBlock(j) => j < i && log[j].Blocked? && PairOf(log[j].blocker, log[j].blocked) == p
    else log[i].offline < i && log[log[i].offline] == WentOffline(log[i].user)
  }

  lemma JustifiedAt(log: seq<Entry>, i: nat)
    requires Sound(log) && i < |log|
    ensures Justified(log[..i], log[i])
  {
    var _ := log[..i];
  }

  lemma StartIsTraced(log: seq<Entry>, r: nat, k: Key)
    requires Sound(log) && r <= |log| && StartOf(log[..r], k).Some?
    ensures RingTraced(log, r, k)
  {
    var start := StartOf(log[..r], k).value;
    JustifiedAt(log, start);
    JustifiedAt(log, log[start].admission);
  }

  lemma PassedIsAdmitted(log: seq<Entry>, i: nat, j: nat, kind: Kind, p: Pair)
    requires Sound(log) && i < |log| && PassedAt(log[..i], j, kind, p)
    ensures j < i && AdmittedAt(log, j, kind, p)
  {
    JustifiedAt(log, j);
  }

  lemma OpeningIsTraced(log: seq<Entry>, i: nat)
    requires Sound(log) && i < |log| && log[i].Opened?
    ensures Traced(log, i, log[i].pair)
  {
    JustifiedAt(log, i);
    match log[i].ticket
    case ByInvite(j) => PassedIsAdmitted(log, i, j, Invite, log[i].pair);
    case ByAccept(j) => PassedIsAdmitted(log, i, j, Accept, log[i].pair);
    case ByReplay(r) =>
      JustifiedAt(log, r);
      StartIsTraced(log, r, KeyOf(log[r].call));
  }

  lemma ClosingIsTraced(log: seq<Entry>, i: nat, p: Pair)
    requires Sound(log) && i < |log| && Touches(log[i], p) && !log[i].Opened?
    ensures Traced(log, i, p)
  {
    JustifiedAt(log, i);
    if log[i].Closed? {
      match log[i].cause
      case ByEnd(j) => PassedIsAdmitted(log, i, j, End, log[i].pair);
      case ByExpiry(r) =>
        JustifiedAt(log, r);
        StartIsTraced(log, r, KeyOf(log[r].call));
      case ByBlock(j) =>
    }
  }

  /** Over any run: every opening, whether or not it is the last, goes back to the very
      invite or accept whose handler opened the gate, or to the replay of a ring that was
      live then and that the caller's own invite had started; the two were friends and
      neither blocked the other when that frame passed. */
  lemma EveryOpeningIsTraced(events: seq<Event>, i: nat)
    requires i < |Run(events).log| && Run(events).log[i].Opened?
    ensures Traced(Run(events).log, i, Run(events).log[i].pair)
  {
    RunKeepsInv(events);
    OpeningIsTraced(Run(events).log, i);
  }

  /** The gate of a pair is as its last opening or closing left it: open by an invite,
      an accept or the replay of a live ring; closed by an end frame, an expiry, a block
      or the last socket of either; each traced to its cause. */
  lemma GateFollowsItsLastCause(events: seq<Event>, a: nat, b: nat)
    ensures var log, p := Run(events).log, PairOf(a, b);
            match LastTouch(log, p)
            case None => p !in Run(events).voice
            case Some(i) => (p in Run(events).voice <==> log[i].Opened?) && Traced(log, i, p)
  {
    RunKeepsInv(events);
    var w, p := Run(events), PairOf(a, b);
    assert GateOk(w.voice, w.log, p);
    var touch := LastTouch(w.log, p);
    if touch.Some? {
      if w.log[touch.value].Opened? {
        OpeningIsTraced(w.log, touch.value);
      } else {
        ClosingIsTraced(w.log, touch.value, p);
      }
    }
  }

  /** A ring is live exactly when the log has an unfinished start of it, and that goes
      back to the caller's own invite. */
  lemma LiveRingIsTraced(events: seq<Event>, k: Key)
    ensures var w := Run(events);
            && (k in w.rings <==> StartOf(w.log, k).Some?)
            && (k in w.rings ==> RingTraced(w.log, |w.log|, k))
  {
    RunKeepsInv(events);
    var w := Run(events);
    assert RingOk(w.rings, w.log, k) && w.log[..|w.log|] == w.log;
    if k in w.rings {
      StartIsTraced(w.log, |w.log|, k);
    }
  }
}
