/** What each handler of requests, friendships, blocks and ignores does to the tables of
    any run, told without the handlers. */
module FriendshipRules {
  import opened Blocks
  import opened Friendship
  import opened Wrappers

  // ------------------------------------------------------------- reading the tables

  predicate HasBlocked(t: Tables, a: nat, b: nat) {
    (a, b) in t.blocks || (b, a) in t.blocks
  }

  predicate HasIgnored(t: Tables, a: nat, b: nat) {
    (a, b) in t.ignores || (b, a) in t.ignores
  }

  /** The row of a pair, unless it is a request past its time. */
  function LiveRow(t: Tables, a: nat, b: nat, now: int): Option<Row> {
    var p := PairOf(a, b);
    if p in t.rows && (t.rows[p].status == Accepted || now <= t.rows[p].expiresAt) then Some(t.rows[p]) else None
  }

  predicate AreFriends(t: Tables, a: nat, b: nat) {
    PairOf(a, b) in t.rows && t.rows[PairOf(a, b)].status == Accepted
  }

  ghost predicate HaveCommonFriend(t: Tables, a: nat, b: nat) {
    exists c {:trigger AreFriends(t, a, c)} :: AreFriends(t, a, c) && AreFriends(t, b, c)
  }

  /** The requests of an account that are still open. */
  function OpenRequests(t: Tables, user: nat, now: int): set<(nat, nat)> {
    set p | p in t.rows && t.rows[p].status == Pending && t.rows[p].requestedBy == user && now <= t.rows[p].expiresAt
  }

  predicate Canonical(t: Tables) {
    forall p :: p in t.rows ==> p.0 < p.1
  }

  lemma RunIsCanonical(events: seq<Event>)
    ensures Canonical(Run(events).t)
  {
    RunKeepsInv(events);
    var w := Run(events);
    forall p | p in w.t.rows ensures p.0 < p.1 {
      assert RowMatches(w.t, p, Since(w.log, p));
    }
  }

  // --------------------------------------------------------------------- request

  lemma FriendIdsAreFriends(t: Tables, user: nat, other: nat)
    requires Canonical(t)
    ensures other in FriendIds(t, user) <==> AreFriends(t, user, other)
  {
    if other in FriendIds(t, user) {
      var p :| p in t.rows && t.rows[p].status == Accepted && (p.0 == user || p.1 == user)
               && other == (if p.0 == user then p.1 else p.0);
      assert PairOf(user, other) == p;
    }
    if AreFriends(t, user, other) {
      var p := PairOf(user, other);
      assert other == (if p.0 == user then p.1 else p.0);
    }
  }

  lemma CommonFriend(t: Tables, me: nat, target: nat, now: int)
    requires Canonical(t)
    ensures !(FriendIds(Swept(t, now), me) !! FriendIds(Swept(t, now), target)) <==> HaveCommonFriend(t, me, target)
  {
    var swept := Swept(t, now);
    forall c, user ensures c in FriendIds(swept, user) <==> AreFriends(t, user, c) {
      FriendIdsAreFriends(swept, user, c);
    }
    var mine, theirs := FriendIds(swept, me), FriendIds(swept, target);
    if c :| c in mine && c in theirs {
      assert AreFriends(t, me, c) && AreFriends(t, target, c);
    }
    if c :| AreFriends(t, me, c) && AreFriends(t, target, c) {
      assert c in mine && c in theirs;
    }
  }

  /** Which reply a request gets. */
  lemma RequestReplies(t: Tables, me: nat, target: nat, policy: Policy, now: int)
    requires Canonical(t)
    ensures var reply, row := RequestOutcome(t, me, target, policy, now), LiveRow(t, me, target, now);
            var stopped := target == me || HasBlocked(t, me, target) || HasIgnored(t, me, target);
            && (reply == Yourself <==> target == me)
            && (reply.Blocked? <==> target != me && HasBlocked(t, me, target))
            && (reply == Pretended <==> target != me && !HasBlocked(t, me, target) && HasIgnored(t, me, target))
            && (reply == AlreadyFriends <==> !stopped && row.Some? && row.value.status == Accepted)
            && (!stopped && row.Some? && row.value.status == Pending
                ==> reply == if row.value.requestedBy == target then AcceptedNow else AlreadyAsked)
            && (!stopped && row.None?
                ==> && (reply == NotAccepting <==> policy == Nobody)
                    && (reply == NoMutualFriend <==> policy == Mutual && !HaveCommonFriend(t, me, target))
                    && (policy == Everyone || (policy == Mutual && HaveCommonFriend(t, me, target))
                        ==> reply == if |OpenRequests(t, me, now)| >= 50 then TooMany else Sent))
  {
    RefusedExactlyWhenBlocked(t.blocks, me, target, FriendRequest);
    CommonFriend(t, me, target, now);
    assert OutgoingOf(Swept(t, now), me) == OpenRequests(t, me, now);
  }

  /** Nothing else than the row of this pair and the points of the two is touched, but
      that the requests past their time go. */
  ghost predicate OnlyPairChanged(t: Tables, t2: Tables, me: nat, other: nat, now: int) {
    t2.blocks == t.blocks && t2.ignores == t.ignores
    && (forall p :: p != PairOf(me, other)
          ==> (p in t2.rows <==> p in t.rows && (t.rows[p].status == Accepted || now <= t.rows[p].expiresAt)))
    && (forall p :: p != PairOf(me, other) && p in t2.rows ==> t2.rows[p] == t.rows[p])
    && forall u :: u != me && u != other ==> XpOf(t2.xp, u) == XpOf(t.xp, u)
  }

  /** The pair's row afterwards: a mutual request accepts it, a new one is a row of its
      asker for thirty days. */
  function RowAfter(t: Tables, me: nat, target: nat, reply: RequestReply, now: int): Option<Row> {
    var row := LiveRow(t, me, target, now);
    if reply == Sent then Some(Row(Pending, me, now + 2_592_000))
    else if reply == AcceptedNow && row.Some? then Some(row.value.(status := Accepted))
    else row
  }

  lemma StoppedChangesNothing(t: Tables, me: nat, target: nat, policy: Policy, now: int)
    ensures var reply := RequestOutcome(t, me, target, policy, now);
            (reply == Yourself || reply.Blocked? || reply == Pretended) == Stopped(t, me, target).Some?
    ensures Stopped(t, me, target).Some? ==> AfterRequest(t, me, target, policy, now) == t
  {
  }

  /** A request not stopped changes that row alone, and an acceptance is worth ten points
      to each of the two. */
  lemma RequestChangesOnlyItsPair(t: Tables, me: nat, target: nat, policy: Policy, now: int)
    requires Stopped(t, me, target).None?
    ensures var reply, t2 := RequestOutcome(t, me, target, policy, now), AfterRequest(t, me, target, policy, now);
            && OnlyPairChanged(t, t2, me, target, now)
            && LiveRow(t2, me, target, now) == RowAfter(t, me, target, reply, now)
            && var points := if reply == AcceptedNow then 10 else 0;
               XpOf(t2.xp, me) == XpOf(t.xp, me) + points && XpOf(t2.xp, target) == XpOf(t.xp, target) + points
  {
    match RequestOutcome(t, me, target, policy, now)
    case AcceptedNow =>
    case Sent =>
    case _ => assert AfterRequest(t, me, target, policy, now) == Swept(t, now);
  }

  /** What a request does: refused ones change nothing; others their pair's row alone. */
  lemma RequestRules(t: Tables, me: nat, target: nat, policy: Policy, now: int)
    ensures var reply, t2 := RequestOutcome(t, me, target, policy, now), AfterRequest(t, me, target, policy, now);
            if reply == Yourself || reply.Blocked? || reply == Pretended then t2 == t
            else OnlyPairChanged(t, t2, me, target, now)
                 && LiveRow(t2, me, target, now) == RowAfter(t, me, target, reply, now)
                 && var points := if reply == AcceptedNow then 10 else 0;
                    XpOf(t2.xp, me) == XpOf(t.xp, me) + points && XpOf(t2.xp, target) == XpOf(t.xp, target) + points
  {
    StoppedChangesNothing(t, me, target, policy, now);
    if Stopped(t, me, target).None? {
      RequestChangesOnlyItsPair(t, me, target, policy, now);
    }
  }

  // ------------------------------------------------------- answers, blocks, ignores

  /** The other side's request is open. */
  predicate HasAsked(t: Tables, other: nat, me: nat) {
    PairOf(me, other) in t.rows && t.rows[PairOf(me, other)].status == Pending
    && t.rows[PairOf(me, other)].requestedBy == other
  }

  ghost predicate OtherRowsKept(t: Tables, t2: Tables, p: (nat, nat)) {
    t2.rows - {p} == t.rows - {p}
  }

  /** Accepting befriends exactly when the other side asked; declining, cancelling and
      removing leave no row; ignoring drops an open request of the other side and is
      remembered one way. */
  lemma RespondRules(t: Tables, me: nat, other: nat, action: Action)
    requires me != other
    ensures var t2, p := AfterRespond(t, me, other, action), PairOf(me, other);
            && OtherRowsKept(t, t2, p) && t2.blocks == t.blocks
            && t2.ignores == (if action == Ignore then t.ignores + {(me, other)} else t.ignores)
            && (action == Accept && HasAsked(t, other, me)
                ==> && AreFriends(t2, me, other) && XpOf(t2.xp, me) == XpOf(t.xp, me) + 10
                    && XpOf(t2.xp, other) == XpOf(t.xp, other) + 10)
            && (action == Accept && !HasAsked(t, other, me) ==> t2 == t)
            && (action == Decline || action == Cancel || action == Remove ==> p !in t2.rows)
            && (action == Ignore && HasAsked(t, other, me) ==> p !in t2.rows)
            && (action == Ignore && !HasAsked(t, other, me) ==> t2.rows == t.rows)
            && (action != Accept ==> t2.xp == t.xp)
            && forall u :: u != me && u != other ==> XpOf(t2.xp, u) == XpOf(t.xp, u)
  {
  }

  /** A block is one-way and leaves no row of the pair; lifting it lifts that one alone and
      brings no row back. Ignoring is one-way too and touches no row. */
  lemma BlockAndIgnoreRules(t: Tables, me: nat, other: nat, on: bool)
    requires ValidBlockTarget(me, other)
    ensures var t2, p := AfterBlock(t, me, other, on), PairOf(me, other);
            && OtherRowsKept(t, t2, p) && t2.ignores == t.ignores && t2.xp == t.xp
            && ((me, other) in t2.blocks <==> on)
            && (forall x :: x != (me, other) ==> (x in t2.blocks <==> x in t.blocks))
            && (on ==> p !in t2.rows) && (!on ==> t2.rows == t.rows)
    ensures var t2 := AfterIgnore(t, me, other, on);
            && t2.rows == t.rows && t2.blocks == t.blocks && t2.xp == t.xp
            && ((me, other) in t2.ignores <==> on)
            && forall x :: x != (me, other) ==> (x in t2.ignores <==> x in t.ignores)
  {
  }

  /** A sweep drops exactly the requests past their time. */
  lemma SweepRules(events: seq<Event>, now: int, p: (nat, nat))
    ensures var t, t2 := Run(events).t, Step(Run(events), Sweep(now)).t;
            && (p in t2.rows <==> p in t.rows && (t.rows[p].status == Accepted || now <= t.rows[p].expiresAt))
            && (p in t2.rows ==> t2.rows[p] == t.rows[p]) && t2.blocks == t.blocks && t2.ignores == t.ignores
            && t2.xp == t.xp
  {
  }
}
