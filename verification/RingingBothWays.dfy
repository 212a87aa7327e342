/** A run in which a block does not end all calls: two accounts that ring each other, of
    which the block takes only one ring out. The other is replayed at the next connect,
    and opens the gate between the two although the block stands. */
module RingingBothWays {
  import opened Blocks
  import opened Calls
  import opened CallLedger
  import opened Hub
  import opened LostCall
  import opened Rings
  import opened Wrappers

  const RING := Ringing(false, 0)

  ghost predicate BothRing(w: World) {
    Reachable(w) && Idle(w.tasks) && w.blocks == {} && w.rings == map[(1, 2) := RING, (2, 1) := RING]
  }

  lemma TheyRingEachOther() returns (w: World)
    ensures BothRing(w)
  {
    w := TwoFriendsOnline();
    w := ARingStarts(w, 1, 2);
    w := ARingStarts(w, 2, 1);
    assert w.rings == map[(1, 2) := RING, (2, 1) := RING];
  }

  /** An act that leads to no other. */
  lemma TookPlain(w: World, i: nat, act: Act, rest: Task) returns (w2: World)
    requires Reachable(w) && OnlyTask(w.tasks, i, [act] + rest) && Possible(w, act, QUIET)
    requires Do(w, act, QUIET).tail == []
    ensures Reachable(w2) && OnlyTask(w2.tasks, i, rest) && (rest == [] ==> Idle(w2.tasks))
    ensures var f := Do(w, act, QUIET); w2 == f.w.(tasks := w2.tasks, log := w.log + f.entries)
  {
    assert [] + rest == rest;
    w2 := Took(w, i, act, rest, QUIET, Do(w, act, QUIET));
  }

  /** The block request is at work, both rings still live. */
  ghost predicate AtWork(w: World, i: nat, task: Task, blocks: BlockTable) {
    Reachable(w) && OnlyTask(w.tasks, i, task) && w.blocks == blocks
    && w.rings == map[(1, 2) := RING, (2, 1) := RING]
  }

  /** Two acts that change neither blocks nor rings. */
  lemma TwoActsOn(w0: World, i: nat, first: Act, second: Act, rest: Task, blocks: BlockTable) returns (w: World)
    requires AtWork(w0, i, [first] + ([second] + rest), blocks) && rest != []
    requires first.Suspend? || first.CutFriendship? || first.Disallow?
    requires second.Suspend? || second.CutFriendship? || second.Disallow?
    ensures AtWork(w, i, rest, blocks)
  {
    w := TookPlain(w0, i, first, [second] + rest);
    w := TookPlain(w, i, second, rest);
  }

  /** What the insert at place `j` leaves to do. */
  function Closing(j: nat): Task {
    [Suspend] + ([Disallow(1, 2, ByBlock(j))] + ([Disallow(2, 1, ByBlock(j))] + [EndRing(1, 2, false)]))
  }

  lemma TheBlockIsAsked(w0: World) returns (w: World)
    requires BothRing(w0)
    ensures AtWork(w, |w0.tasks|, [Suspend] + [InsertBlock(1, 2)], {})
  {
    var cut: Act, insert: Act := CutFriendship(1, 2), InsertBlock(1, 2);
    w := Began(w0, BlockCall(1, 2), Begin(w0, BlockCall(1, 2)));
    assert [Suspend, cut, Suspend, insert] == [Suspend] + ([cut] + ([Suspend] + [insert]));
    w := TwoActsOn(w, |w0.tasks|, Suspend, cut, [Suspend] + [insert], {});
  }

  lemma TheBlockIsDue(w0: World, i: nat) returns (w: World)
    requires AtWork(w0, i, [Suspend] + [InsertBlock(1, 2)], {})
    ensures AtWork(w, i, [InsertBlock(1, 2)] + [], {})
  {
    w := TookPlain(w0, i, Suspend, [InsertBlock(1, 2)]);
    assert [InsertBlock(1, 2)] + [] == [InsertBlock(1, 2)];
  }

  lemma TheBlockIsInserted(w0: World, i: nat) returns (w: World)
    requires AtWork(w0, i, [InsertBlock(1, 2)] + [], {})
    ensures AtWork(w, i, Closing(|w0.log|), {(1, 2)})
  {
    var insert: Act, j := InsertBlock(1, 2), |w0.log|;
    w := Took(w0, i, insert, [], QUIET, Do(w0, insert, QUIET));
    var close: Act, again: Act := Disallow(1, 2, ByBlock(j)), Disallow(2, 1, ByBlock(j));
    assert [Suspend, close, again, EndRing(1, 2, false)] + [] == Closing(j);
  }

  lemma TheBlockCloses(w0: World, i: nat, j: nat) returns (w: World)
    requires AtWork(w0, i, Closing(j), {(1, 2)})
    ensures AtWork(w, i, [Disallow(2, 1, ByBlock(j))] + [EndRing(1, 2, false)], {(1, 2)})
  {
    w := TwoActsOn(
      w0, i, Suspend, Disallow(1, 2, ByBlock(j)), [Disallow(2, 1, ByBlock(j))] + [EndRing(1, 2, false)], {(1, 2)});
  }

  lemma TheBlockTakesOneRing(w0: World, i: nat, j: nat) returns (w: World)
    requires AtWork(w0, i, [Disallow(2, 1, ByBlock(j))] + [EndRing(1, 2, false)], {(1, 2)})
    ensures Reachable(w) && Idle(w.tasks) && w.blocks == {(1, 2)} && w.rings == map[(2, 1) := RING]
  {
    var end: Act := EndRing(1, 2, false);
    w := TookPlain(w0, i, Disallow(2, 1, ByBlock(j)), [end]);
    assert [end] + [] == [end];
    w := TookPlain(w, i, end, []);
    assert w.rings == map[(2, 1) := RING];
  }

  const WALK := Oracle(0, false, [RingEntry((2, 1), RING)])

  lemma OneReconnects(w0: World) returns (w: World)
    requires Reachable(w0) && Idle(w0.tasks)
    ensures Reachable(w) && OnlyTask(w.tasks, |w0.tasks|, [Replay(1)] + [])
    ensures w.rings == w0.rings && w.blocks == w0.blocks
  {
    w := Began(w0, Connect(1, None), Begin(w0, Connect(1, None)));
    assert [Replay(1)] + [] == [Replay(1)];
  }

  lemma TheRingIsReplayed(w0: World, i: nat) returns (w: World)
    requires Reachable(w0) && OnlyTask(w0.tasks, i, [Replay(1)] + []) && w0.rings == map[(2, 1) := RING]
    ensures Reachable(w) && OnlyTask(w.tasks, i, [Allow(2, 1, ByReplay(|w0.log|))] + [])
    ensures w.rings == w0.rings && w.blocks == w0.blocks
  {
    WalkIsPossible(w0);
    w := Took(w0, i, Replay(1), [], WALK, Do(w0, Replay(1), WALK));
    AllowsOne(|w0.log|);
  }

  lemma TheOtherRingIsReplayed(w0: World) returns (w: World)
    requires Reachable(w0) && Idle(w0.tasks) && w0.rings == map[(2, 1) := RING]
    ensures Reachable(w) && Idle(w.tasks) && (1, 2) in w.voice && w.blocks == w0.blocks && w.rings == w0.rings
  {
    w := OneReconnects(w0);
    var at := |w.log|;
    w := TheRingIsReplayed(w, |w0.tasks|);
    w := TookPlain(w, |w0.tasks|, Allow(2, 1, ByReplay(at)), []);
  }

  lemma WalkIsPossible(w: World)
    requires w.rings == map[(2, 1) := RING]
    ensures Possible(w, Replay(1), WALK) && Attempts(WALK.order) == [Attempt(2, 1, false)]
  {
    assert Incoming(w.rings, 1) == w.rings;
  }

  lemma AllowsOne(at: nat)
    ensures AllowAll([Attempt(2, 1, false)], at) == [Allow(2, 1, ByReplay(at))]
  {
    assert [Attempt(2, 1, false)][..0] == [] && AllowAll([], at) == [];
  }

  /** With everybody done, 1 blocks 2 and yet the gate between them is open. */
  lemma ABlockedPairIsConnected()
    ensures exists events ::
              var w := Run(events); Idle(w.tasks) && (1, 2) in w.blocks && (1, 2) in w.voice && (2, 1) in w.rings
  {
    var w := TheyRingEachOther();
    var i := |w.tasks|;
    w := TheBlockIsAsked(w);
    w := TheBlockIsDue(w, i);
    var j := |w.log|;
    w := TheBlockIsInserted(w, i);
    w := TheBlockCloses(w, i, j);
    w := TheBlockTakesOneRing(w, i, j);
    w := TheOtherRingIsReplayed(w);
    var events :| Run(events) == w;
  }
}
