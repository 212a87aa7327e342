/** What a block means (src/blocks.rs): decided once, asked by every handler. */
module Blocks {
  import opened Wrappers

  datatype BlockPair = BlockPair(iBlockedThem: bool, theyBlockedMe: bool)

  datatype Interaction = FriendRequest | DirectMessage | Call | Discover

  function InteractionRefusal(pair: BlockPair, what: Interaction): Option<string> {
    if !pair.iBlockedThem && !pair.theyBlockedMe then None
    else if pair.iBlockedThem then
      Some(match what
           case FriendRequest => "You have blocked this person. Unblock them to send a request."
           case DirectMessage => "You have blocked this person. Unblock them to send a message."
           case Call => "You have blocked this person. Unblock them to call."
           case Discover => "Blocked")
    else
      Some(match what
           case FriendRequest => "This person is not accepting friend requests."
           case DirectMessage => "This message could not be delivered."
           case Call => "This person cannot be reached."
           case Discover => "Unavailable")
  }

  predicate ValidBlockTarget(me: nat, target: nat) {
    target != 0 && me != 0 && target != me
  }

  /** Directional blocks: (blocker, blocked). */
  type BlockTable = set<(nat, nat)>

  function BlocksBetween(blocks: BlockTable, me: nat, other: nat): BlockPair {
    BlockPair((me, other) in blocks, (other, me) in blocks)
  }

  /** Every interaction is stopped by a block in either direction, by nothing else,
      and so for both parties alike. */
  lemma RefusedExactlyWhenBlocked(blocks: BlockTable, me: nat, other: nat, what: Interaction)
    ensures InteractionRefusal(BlocksBetween(blocks, me, other), what).Some?
            <==> (me, other) in blocks || (other, me) in blocks
    ensures InteractionRefusal(BlocksBetween(blocks, me, other), what).Some?
            <==> InteractionRefusal(BlocksBetween(blocks, other, me), what).Some?
  {
  }

  /** The canonical key of an unordered pair of accounts. */
  function PairOf(a: nat, b: nat): (p: (nat, nat))
    ensures p == (a, b) || p == (b, a)
    ensures p.0 <= p.1
  {
    if a <= b then (a, b) else (b, a)
  }
}
