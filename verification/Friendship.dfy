/** Friend requests, friendships and blocks (src/social_api.rs): one database row
    per pair of accounts, changed by whole handler calls. */
module Friendship {
  import opened Blocks
  import opened Sums
  import opened Wrappers

  const REQUEST_TTL_SECS := 30 * 24 * 60 * 60
  const MAX_OUTGOING: nat := 50

  type Pair = (nat, nat)

  datatype Status = Pending | Accepted

  datatype Row = Row(status: Status, requestedBy: nat, expiresAt: int)

  datatype Policy = Everyone | Mutual | Nobody

  /** The tables the handlers read and write. */
  datatype Tables = Tables(rows: map<Pair, Row>, blocks: BlockTable, ignores: set<(nat, nat)>, xp: map<nat, nat>)

  const EMPTY := Tables(map[], {}, {}, map[])

  predicate Stale(row: Row, now: int) {
    row.status == Pending && row.expiresAt < now
  }

  function Swept(t: Tables, now: int): Tables {
    t.(rows := map p | p in t.rows && !Stale(t.rows[p], now) :: t.rows[p])
  }

  function FriendIds(t: Tables, user: nat): set<nat> {
    set p | p in t.rows && t.rows[p].status == Accepted && (p.0 == user || p.1 == user)
      :: if p.0 == user then p.1 else p.0
  }

  function OutgoingOf(t: Tables, user: nat): set<Pair> {
    set p | p in t.rows && t.rows[p].status == Pending && t.rows[p].requestedBy == user
  }

  function XpOf(xp: map<nat, nat>, user: nat): nat {
    if user in xp then xp[user] else 0
  }

  function Awarded(xp: map<nat, nat>, user: nat): map<nat, nat> {
    xp[user := XpOf(xp, user) + 10]
  }

  /** An acceptance flips the row and rewards both sides. */
  function Befriended(t: Tables, me: nat, other: nat): Tables
    requires PairOf(me, other) in t.rows
  {
    var p := PairOf(me, other);
    t.(rows := t.rows[p := t.rows[p].(status := Accepted)], xp := Awarded(Awarded(t.xp, me), other))
  }

  function Cut(t: Tables, p: Pair): Tables {
    t.(rows := t.rows - {p})
  }

  datatype RequestReply =
    | Yourself | Blocked(reason: string) | Pretended | AlreadyFriends | AcceptedNow | AlreadyAsked
    | NotAccepting | NoMutualFriend | TooMany | Sent

  /** What a request comes to once the stale rows are gone. */
  function RowOutcome(current: Tables, me: nat, target: nat, policy: Policy): RequestReply {
    var p := PairOf(me, target);
    if p in current.rows then
      if current.rows[p].status == Accepted then AlreadyFriends
      else if current.rows[p].requestedBy == target then AcceptedNow
      else AlreadyAsked
    else if policy == Nobody then NotAccepting
    else if policy == Mutual && FriendIds(current, me) !! FriendIds(current, target) then NoMutualFriend
    else if |OutgoingOf(current, me)| >= MAX_OUTGOING then TooMany
    else Sent
  }

  function AfterRow(current: Tables, me: nat, target: nat, policy: Policy, now: int): Tables {
    match RowOutcome(current, me, target, policy)
    case AcceptedNow => Befriended(current, me, target)
    case Sent => current.(rows := current.rows[PairOf(me, target) := Row(Pending, me, now + REQUEST_TTL_SECS)])
    case _ => current
  }

  /** What stops a request before it looks at the row. */
  function Stopped(t: Tables, me: nat, target: nat): Option<RequestReply> {
    var refusal := InteractionRefusal(BlocksBetween(t.blocks, me, target), FriendRequest);
    if target == me then Some(Yourself)
    else if refusal.Some? then Some(Blocked(refusal.value))
    else if (target, me) in t.ignores || (me, target) in t.ignores then Some(Pretended)
    else None
  }

  function RequestOutcome(t: Tables, me: nat, target: nat, policy: Policy, now: int): RequestReply {
    match Stopped(t, me, target)
    case Some(reply) => reply
    case None => RowOutcome(Swept(t, now), me, target, policy)
  }

  function AfterRequest(t: Tables, me: nat, target: nat, policy: Policy, now: int): Tables {
    if Stopped(t, me, target).Some? then t else AfterRow(Swept(t, now), me, target, policy, now)
  }

  datatype Action = Accept | Decline | Cancel | Remove | Ignore

  /** The row an answer may act on: pending, and asked by the other side. */
  predicate AskedBy(t: Tables, me: nat, other: nat) {
    PairOf(me, other) in t.rows && t.rows[PairOf(me, other)].status == Pending
    && t.rows[PairOf(me, other)].requestedBy == other
  }

  function AfterRespond(t: Tables, me: nat, other: nat, action: Action): Tables {
    match action
    case Accept => if AskedBy(t, me, other) then Befriended(t, me, other) else t
    case Ignore =>
      var kept := if AskedBy(t, me, other) then Cut(t, PairOf(me, other)) else t;
      kept.(ignores := t.ignores + {(me, other)})
    case _ => Cut(t, PairOf(me, other))
  }

  function AfterBlock(t: Tables, me: nat, other: nat, block: bool): Tables {
    if !ValidBlockTarget(me, other) then t
    else if block then Cut(t, PairOf(me, other)).(blocks := t.blocks + {(me, other)})
    else t.(blocks := t.blocks - {(me, other)})
  }

  function AfterIgnore(t: Tables, me: nat, other: nat, ignore: bool): Tables {
    if other == 0 || other == me then t
    else t.(ignores := if ignore then t.ignores + {(me, other)} else t.ignores - {(me, other)})
  }

  /** The tables behind the handlers, updated row by row. */
  class SocialGraph {
    var rows: map<Pair, Row>
    var blocks: BlockTable
    var ignores: set<(nat, nat)>
    var xp: map<nat, nat>

    function View(): Tables
      reads this
    {
      Tables(rows, blocks, ignores, xp)
    }

    constructor ()
      ensures View() == EMPTY
    {
      rows, blocks, ignores, xp := map[], {}, {}, map[];
    }

    method SweepExpiredRequests(now: int)
      modifies this`rows
      ensures View() == Swept(old(View()), now)
    {
      rows := map p | p in rows && !(rows[p].status == Pending && rows[p].expiresAt < now) :: rows[p];
    }

    method AwardXp(user: nat, amount: int)
      modifies this`xp
      ensures xp == if amount <= 0 then old(xp) else old(xp)[user := XpOf(old(xp), user) + amount]
    {
      if amount <= 0 {
        return;
      }
      xp := xp[user := (if user in xp then xp[user] else 0) + amount];
    }

    method Request(me: nat, target: nat, policy: Policy, now: int) returns (reply: RequestReply)
      modifies this
      ensures reply == RequestOutcome(old(View()), me, target, policy, now)
      ensures View() == AfterRequest(old(View()), me, target, policy, now)
    {
      if target == me {
        return Yourself;
      }
      var refusal := InteractionRefusal(BlocksBetween(blocks, me, target), FriendRequest);
      if refusal.Some? {
        return Blocked(refusal.value);
      }
      if (target, me) in ignores || (me, target) in ignores {
        return Pretended;
      }
      SweepExpiredRequests(now);
      reply := Ask(me, target, policy, now);
    }

    method Ask(me: nat, target: nat, policy: Policy, now: int) returns (reply: RequestReply)
      modifies this`rows, this`xp
      ensures reply == RowOutcome(old(View()), me, target, policy)
      ensures View() == AfterRow(old(View()), me, target, policy, now)
    {
      var p := PairOf(me, target);
      if p in rows {
        if rows[p].status == Accepted {
          return AlreadyFriends;
        }
        if rows[p].requestedBy == target {
          rows := rows[p := rows[p].(status := Accepted)];
          AwardXp(me, 10);
          AwardXp(target, 10);
          return AcceptedNow;
        }
        return AlreadyAsked;
      }
      match policy {
        case Nobody => return NotAccepting;
        case Mutual =>
          var mine, theirs := FriendIds(View(), me), FriendIds(View(), target);
          if !(exists id :: id in theirs && id in mine) {
            return NoMutualFriend;
          }
        case Everyone =>
      }
      if |OutgoingOf(View(), me)| >= MAX_OUTGOING {
        return TooMany;
      }
      rows := rows[p := Row(Pending, me, now + REQUEST_TTL_SECS)];
      return Sent;
    }

    method Respond(me: nat, other: nat, action: Action) returns (affected: bool)
      modifies this
      ensures View() == AfterRespond(old(View()), me, other, action)
      ensures action == Accept ==> affected == AskedBy(old(View()), me, other)
    {
      var p := PairOf(me, other);
      affected := p in rows && rows[p].status == Pending && rows[p].requestedBy == other;
      match action {
        case Accept =>
          if affected {
            rows := rows[p := rows[p].(status := Accepted)];
            AwardXp(me, 10);
            AwardXp(other, 10);
          }
        case Ignore =>
          if affected {
            rows := rows - {p};
          }
          ignores := ignores + {(me, other)};
        case _ =>
          rows := rows - {p};
      }
    }

    method Block(me: nat, other: nat, block: bool) returns (ok: bool)
      modifies this
      ensures ok == ValidBlockTarget(me, other)
      ensures View() == AfterBlock(old(View()), me, other, block)
    {
      ok := ValidBlockTarget(me, other);
      if !ok {
        return;
      }
      if block {
        rows := rows - {PairOf(me, other)};
        blocks := blocks + {(me, other)};
      } else {
        blocks := blocks - {(me, other)};
      }
    }
  }

  // --------------------------------------------------------------------- runs

  datatype Event =
    | Request(me: nat, target: nat, policy: Policy, now: int)
    | Respond(me: nat, other: nat, action: Action)
    | Block(me: nat, other: nat, block: bool)
    | SetIgnore(me: nat, other: nat, ignore: bool)
    | Sweep(now: int)

  /** What happened to pairs, in order. */
  datatype Entry =
    | Asked(who: nat, whom: nat)
    | Agreed(who: nat, whom: nat)
    | Removed(pairs: set<Pair>)

  datatype World = World(t: Tables, log: seq<Entry>)

  function Next(t: Tables, e: Event): Tables {
    match e
    case Request(me, target, policy, now) => AfterRequest(t, me, target, policy, now)
    case Respond(me, other, action) => AfterRespond(t, me, other, action)
    case Block(me, other, block) => AfterBlock(t, me, other, block)
    case SetIgnore(me, other, ignore) => AfterIgnore(t, me, other, ignore)
    case Sweep(now) => Swept(t, now)
  }

  /** The entry the handler's own action adds, if it took effect. */
  function Acted(t: Tables, e: Event): seq<Entry> {
    match e
    case Request(me, target, policy, now) =>
      (match RequestOutcome(t, me, target, policy, now)
       case AcceptedNow => [Agreed(me, target)]
       case Sent => [Asked(me, target)]
       case _ => [])
    case Respond(me, other, Accept) => if AskedBy(t, me, other) then [Agreed(me, other)] else []
    case _ => []
  }

  /** The tables once the event's deletions are done; a request sweeps before it
      asks, so a stale row may go and a new one for the same pair come. */
  function Cleared(t: Tables, e: Event): Tables {
    match e
    case Request(me, target, policy, now) => if Stopped(t, me, target).Some? then t else Swept(t, now)
    case Respond(_, _, Accept) => t
    case _ => Next(t, e)
  }

  function Step(w: World, e: Event): World {
    World(Next(w.t, e), w.log + [Removed(w.t.rows.Keys - Cleared(w.t, e).rows.Keys)] + Acted(w.t, e))
  }

  function Run(events: seq<Event>): World {
    if events == [] then World(EMPTY, []) else Step(Run(events[..|events| - 1]), events[|events| - 1])
  }

  /** What the two of a pair did since the pair was last removed. */
  function Since(log: seq<Entry>, p: Pair): seq<Entry> {
    if log == [] then []
    else
      var before, last := log[..|log| - 1], log[|log| - 1];
      if last.Removed? then (if p in last.pairs then [] else Since(before, p))
      else if PairOf(last.who, last.whom) == p then Since(before, p) + [last]
      else Since(before, p)
  }

  function AgreementsOf(log: seq<Entry>, user: nat): nat {
    if log == [] then 0
    else
      var last := log[|log| - 1];
      AgreementsOf(log[..|log| - 1], user) + if last.Agreed? && (last.who == user || last.whom == user) then 1 else 0
  }

  function Agreements(log: seq<Entry>): nat {
    if log == [] then 0
    else Agreements(log[..|log| - 1]) + if log[|log| - 1].Agreed? then 1 else 0
  }

  /** A row is exactly as old as what the two did: no row, nothing since; pending,
      one of them asked; accepted, one asked and then the other agreed. */
  predicate RowMatches(t: Tables, p: Pair, since: seq<Entry>) {
    if p !in t.rows then since == []
    else
      var asker := t.rows[p].requestedBy;
      p.0 < p.1 && (asker == p.0 || asker == p.1)
      && var other := if asker == p.0 then p.1 else p.0;
         var agreed := if t.rows[p].status == Pending then [] else [Agreed(other, asker)];
         since == [Asked(asker, other)] + agreed
  }

  predicate Unblocked(t: Tables, p: Pair) {
    (p.0, p.1) !in t.blocks && (p.1, p.0) !in t.blocks
  }

  ghost predicate RowsMatch(t: Tables, log: seq<Entry>) {
    forall p :: RowMatches(t, p, Since(log, p))
  }

  ghost predicate XpMatches(xp: map<nat, nat>, log: seq<Entry>) {
    (forall u :: XpOf(xp, u) == 10 * AgreementsOf(log, u))
    && Sum(xp) == 20 * Agreements(log)
  }

  ghost predicate Capped(t: Tables) {
    forall u :: |OutgoingOf(t, u)| <= MAX_OUTGOING
  }

  ghost predicate Inv(w: World) {
    RowsMatch(w.t, w.log) && (forall p :: p in w.t.rows ==> Unblocked(w.t, p)) && Capped(w.t)
    && XpMatches(w.t.xp, w.log)
  }

  lemma LogExtends(log: seq<Entry>, e: Entry)
    ensures (log + [e])[..|log|] == log && (log + [e])[|log|] == e
  {
  }

  /** An entry of one pair changes that pair's row and no other. */
  lemma PairActs(t: Tables, t': Tables, log: seq<Entry>, e: Entry)
    requires !e.Removed? && RowsMatch(t, log)
    requires forall q :: q != PairOf(e.who, e.whom) ==> (q in t'.rows <==> q in t.rows)
    requires forall q :: q != PairOf(e.who, e.whom) && q in t.rows ==> t'.rows[q] == t.rows[q]
    requires RowMatches(t', PairOf(e.who, e.whom), Since(log, PairOf(e.who, e.whom)) + [e])
    ensures RowsMatch(t', log + [e])
  {
    LogExtends(log, e);
    forall q ensures RowMatches(t', q, Since(log + [e], q)) {
      assert RowMatches(t, q, Since(log, q));
    }
  }

  lemma FewerOutgoing(t: Tables, t': Tables)
    requires Capped(t) && t'.rows.Keys <= t.rows.Keys
    requires forall p :: p in t'.rows && t'.rows[p].status == Pending ==> t'.rows[p] == t.rows[p]
    ensures Capped(t')
  {
    forall u ensures |OutgoingOf(t', u)| <= MAX_OUTGOING {
      Smaller(OutgoingOf(t', u), OutgoingOf(t, u));
    }
  }

  /** Deleting rows, and blocking pairs that then have none. */
  lemma RemovalKeepsInv(w: World, t: Tables)
    requires Inv(w) && t.xp == w.t.xp && t.rows.Keys <= w.t.rows.Keys
    requires forall p :: p in t.rows ==> t.rows[p] == w.t.rows[p] && Unblocked(t, p)
    ensures Inv(World(t, w.log + [Removed(w.t.rows.Keys - t.rows.Keys)]))
  {
    var gone := Removed(w.t.rows.Keys - t.rows.Keys);
    LogExtends(w.log, gone);
    forall p ensures RowMatches(t, p, Since(w.log + [gone], p)) {
      assert RowMatches(w.t, p, Since(w.log, p));
    }
    FewerOutgoing(w.t, t);
  }

  lemma {:induction false} Smaller<T>(a: set<T>, b: set<T>)
    requires a <= b
    ensures |a| <= |b|
  {
    assert b == a + (b - a);
  }

  lemma AskKeepsCap(t: Tables, me: nat, p: Pair, expires: int)
    requires Capped(t) && p !in t.rows && |OutgoingOf(t, me)| < MAX_OUTGOING
    ensures Capped(t.(rows := t.rows[p := Row(Pending, me, expires)]))
  {
    var t' := t.(rows := t.rows[p := Row(Pending, me, expires)]);
    forall u ensures |OutgoingOf(t', u)| <= MAX_OUTGOING {
      Smaller(OutgoingOf(t', u), OutgoingOf(t, u) + if u == me then {p} else {});
    }
  }

  lemma AskKeepsXp(xp: map<nat, nat>, log: seq<Entry>, me: nat, other: nat)
    requires XpMatches(xp, log)
    ensures XpMatches(xp, log + [Asked(me, other)])
  {
    LogExtends(log, Asked(me, other));
  }

  lemma AskKeepsInv(w: World, me: nat, other: nat, expires: int)
    requires Inv(w) && me != other && PairOf(me, other) !in w.t.rows && Unblocked(w.t, PairOf(me, other))
    requires |OutgoingOf(w.t, me)| < MAX_OUTGOING
    ensures var t := w.t.(rows := w.t.rows[PairOf(me, other) := Row(Pending, me, expires)]);
            Inv(World(t, w.log + [Asked(me, other)]))
  {
    var p := PairOf(me, other);
    var t := w.t.(rows := w.t.rows[p := Row(Pending, me, expires)]);
    AskKeepsCap(w.t, me, p, expires);
    assert RowMatches(w.t, p, Since(w.log, p));
    PairActs(w.t, t, w.log, Asked(me, other));
    AskKeepsXp(w.t.xp, w.log, me, other);
  }

  lemma AgreementsExtend(log: seq<Entry>, me: nat, other: nat, user: nat)
    ensures AgreementsOf(log + [Agreed(me, other)], user)
            == AgreementsOf(log, user) + if user == me || user == other then 1 else 0
    ensures Agreements(log + [Agreed(me, other)]) == Agreements(log) + 1
  {
    LogExtends(log, Agreed(me, other));
  }

  lemma AgreeKeepsXp(xp: map<nat, nat>, log: seq<Entry>, me: nat, other: nat)
    requires XpMatches(xp, log) && me != other
    ensures XpMatches(Awarded(Awarded(xp, me), other), log + [Agreed(me, other)])
  {
    AgreementsExtend(log, me, other, me);
    forall u ensures XpOf(Awarded(Awarded(xp, me), other), u) == 10 * AgreementsOf(log + [Agreed(me, other)], u) {
      AgreementsExtend(log, me, other, u);
    }
    SumUpdate(xp, me, XpOf(xp, me) + 10);
    SumUpdate(Awarded(xp, me), other, XpOf(Awarded(xp, me), other) + 10);
  }

  lemma AgreeKeepsInv(w: World, me: nat, other: nat)
    requires Inv(w) && AskedBy(w.t, me, other)
    ensures Inv(World(Befriended(w.t, me, other), w.log + [Agreed(me, other)]))
  {
    var p := PairOf(me, other);
    assert RowMatches(w.t, p, Since(w.log, p));
    var t := Befriended(w.t, me, other);
    PairActs(w.t, t, w.log, Agreed(me, other));
    FewerOutgoing(w.t, t);
    AgreeKeepsXp(w.t.xp, w.log, me, other);
  }

  /** What the two outcomes that write a row have met. */
  lemma RequestMeets(t: Tables, me: nat, target: nat, policy: Policy, now: int)
    ensures var outcome, current := RequestOutcome(t, me, target, policy, now), Swept(t, now);
            && (outcome == AcceptedNow ==> AskedBy(current, me, target))
            && (outcome == Sent ==> me != target && Unblocked(t, PairOf(me, target)))
            && (outcome == Sent ==> PairOf(me, target) !in current.rows && |OutgoingOf(current, me)| < MAX_OUTGOING)
  {
    RefusedExactlyWhenBlocked(t.blocks, me, target, FriendRequest);
  }

  /** The world once the event's deletions are logged. */
  function AfterRemoval(w: World, e: Event): World {
    World(Cleared(w.t, e), w.log + [Removed(w.t.rows.Keys - Cleared(w.t, e).rows.Keys)])
  }

  lemma RequestIsRemovalThenAct(w: World, me: nat, target: nat, policy: Policy, now: int)
    ensures var e := Request(me, target, policy, now);
            var w', w2, outcome := AfterRemoval(w, e), Step(w, e), RequestOutcome(w.t, me, target, policy, now);
            if outcome == Sent then
              w2.t == w'.t.(rows := w'.t.rows[PairOf(me, target) := Row(Pending, me, now + REQUEST_TTL_SECS)])
              && w2.log == w'.log + [Asked(me, target)]
            else if outcome == AcceptedNow then
              PairOf(me, target) in w'.t.rows && w2.t == Befriended(w'.t, me, target)
              && w2.log == w'.log + [Agreed(me, target)]
            else w2.t == w'.t && w2.log == w'.log
  {
    var outcome := RequestOutcome(w.t, me, target, policy, now);
    if outcome != Sent && outcome != AcceptedNow {
      assert w.log + [Removed({})] + [] == w.log + [Removed({})];
    }
  }

  lemma RequestKeepsInv(w: World, e: Event)
    requires Inv(w) && e.Request?
    ensures Inv(Step(w, e))
  {
    var w' := AfterRemoval(w, e);
    RemovalKeepsInv(w, w'.t);
    RequestMeets(w.t, e.me, e.target, e.policy, e.now);
    RequestIsRemovalThenAct(w, e.me, e.target, e.policy, e.now);
    var outcome := RequestOutcome(w.t, e.me, e.target, e.policy, e.now);
    if outcome == Sent {
      AskKeepsInv(w', e.me, e.target, e.now + REQUEST_TTL_SECS);
    } else if outcome == AcceptedNow {
      AgreeKeepsInv(w', e.me, e.target);
    }
  }

  lemma RespondKeepsInv(w: World, e: Event)
    requires Inv(w) && e.Respond?
    ensures Inv(Step(w, e))
  {
    var cleared := Cleared(w.t, e);
    RemovalKeepsInv(w, cleared);
    var w' := World(cleared, w.log + [Removed(w.t.rows.Keys - cleared.rows.Keys)]);
    if e.action == Accept && AskedBy(w.t, e.me, e.other) {
      AgreeKeepsInv(w', e.me, e.other);
      assert Step(w, e) == World(Befriended(cleared, e.me, e.other), w'.log + [Agreed(e.me, e.other)]);
    } else {
      assert Step(w, e) == w';
    }
  }

  lemma OtherKeepsInv(w: World, e: Event)
    requires Inv(w) && (e.Block? || e.SetIgnore? || e.Sweep?)
    ensures Inv(Step(w, e))
  {
    var t := Next(w.t, e);
    forall p | p in t.rows ensures t.rows[p] == w.t.rows[p] && Unblocked(t, p) {
      assert RowMatches(w.t, p, Since(w.log, p));
    }
    RemovalKeepsInv(w, t);
    assert Step(w, e) == World(t, w.log + [Removed(w.t.rows.Keys - t.rows.Keys)]);
  }

  lemma StepKeepsInv(w: World, e: Event)
    requires Inv(w)
    ensures Inv(Step(w, e))
  {
    match e
    case Request(_, _, _, _) => RequestKeepsInv(w, e);
    case Respond(_, _, _) => RespondKeepsInv(w, e);
    case _ => OtherKeepsInv(w, e);
  }

  lemma {:induction false} RunKeepsInv(events: seq<Event>)
    ensures Inv(Run(events))
  {
    if events != [] {
      RunKeepsInv(events[..|events| - 1]);
      StepKeepsInv(Run(events[..|events| - 1]), events[|events| - 1]);
    }
  }

  /** Every run: rows are keyed low to high and name one of the two as asker, blocked
      pairs have none, and nobody has more than fifty requests out. */
  lemma RowsAreSound(events: seq<Event>, p: Pair, user: nat)
    ensures var t := Run(events).t;
            && (p in t.rows ==> p.0 < p.1 && (t.rows[p].requestedBy == p.0 || t.rows[p].requestedBy == p.1))
            && (p in t.rows ==> (p.0, p.1) !in t.blocks && (p.1, p.0) !in t.blocks)
            && |OutgoingOf(t, user)| <= 50
  {
    RunKeepsInv(events);
    assert RowMatches(Run(events).t, p, Since(Run(events).log, p));
  }

  /** Two accounts are friends exactly when, since their row was last removed, one
      asked and then the other agreed. */
  lemma FriendsBothActed(events: seq<Event>, a: nat, b: nat)
    ensures var w := Run(events); var since := Since(w.log, PairOf(a, b));
            (PairOf(a, b) in w.t.rows && w.t.rows[PairOf(a, b)].status == Accepted)
            <==> a != b && (since == [Asked(a, b), Agreed(b, a)] || since == [Asked(b, a), Agreed(a, b)])
  {
    RunKeepsInv(events);
    assert RowMatches(Run(events).t, PairOf(a, b), Since(Run(events).log, PairOf(a, b)));
  }

  /** Points are conserved: ten for each side of every acceptance, none besides. */
  lemma XpCountsAgreements(events: seq<Event>, user: nat)
    ensures var w := Run(events);
            XpOf(w.t.xp, user) == 10 * AgreementsOf(w.log, user) && Sum(w.t.xp) == 20 * Agreements(w.log)
  {
    RunKeepsInv(events);
  }

  /** Unblocking restores nothing: whatever happens while a block stands, and after
      it is lifted, the two are friends again only through a fresh request. */
  lemma UnblockRestoresNothing(events: seq<Event>, me: nat, other: nat)
    requires ValidBlockTarget(me, other)
    ensures var w := Run(events + [Block(me, other, true), Block(me, other, false)]);
            PairOf(me, other) !in w.t.rows && Since(w.log, PairOf(me, other)) == []
  {
    var blocked := events + [Block(me, other, true)];
    var both := events + [Block(me, other, true), Block(me, other, false)];
    assert blocked[..|blocked| - 1] == events && both[..|both| - 1] == blocked;
    RunKeepsInv(both);
    assert RowMatches(Run(both).t, PairOf(me, other), Since(Run(both).log, PairOf(me, other)));
  }
}
