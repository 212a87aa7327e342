/** Push approval of sign-ins (src/guard.rs and its store in src/auth.rs): a
    locked map of single-use entries. A login poll takes the lock to spend an
    approval and, when it falls through, takes it again to raise a new one; the
    phone's answers come in between. Every step carries its own clock reading. */
module Guard {
  import opened Stories
  import opened Text
  import opened Wrappers

  const TTL_SECONDS: nat := 120

  datatype ApprovalState = Pending | Approved | Denied | Expired

  datatype Approval = Approval(user: nat, device: string, ip: string, createdAt: nat, state: ApprovalState)

  /** `now.saturating_sub(created_at)`: a clock that went backwards reads as age 0. */
  function Age(a: Approval, now: nat): nat {
    if now < a.createdAt then 0 else now - a.createdAt
  }

  function EffectiveState(a: Approval, now: nat): ApprovalState {
    if a.state == Pending && Age(a, now) >= TTL_SECONDS then Expired else a.state
  }

  function ParseAnswer(raw: string): Option<ApprovalState> {
    match ToAsciiLower(Trim(raw))
    case "approve" => Some(Approved)
    case "allow" => Some(Approved)
    case "yes" => Some(Approved)
    case "deny" => Some(Denied)
    case "reject" => Some(Denied)
    case "no" => Some(Denied)
    case _ => None
  }

  /** The text, trimmed and with ASCII capitals lowered, is one of these words. */
  predicate Says(raw: string, words: set<string>) {
    ToAsciiLower(Trim(raw)) in words
  }

  datatype DecideError = AlreadyDecided | BadAction

  function Decide(a: Approval, action: string, now: nat): Result<ApprovalState, DecideError> {
    var next := ParseAnswer(action);
    if next.None? then Err(BadAction)
    else if EffectiveState(a, now) != Pending then Err(AlreadyDecided)
    else Ok(next.value)
  }

  predicate CanConsume(a: Approval, user: nat, now: nat) {
    a.user == user && EffectiveState(a, now) == Approved
  }

  predicate Evictable(a: Approval, now: nat) {
    Age(a, now) >= TTL_SECONDS * 2
  }

  // -------------------------------------------------------------------- store

  type Store = map<string, Approval>

  predicate Answers(store: Store, user: nat, id: string, action: string, now: nat) {
    id in store && store[id].user == user && Decide(store[id], action, now).Ok?
  }

  function Answered(store: Store, user: nat, id: string, action: string, now: nat): Store {
    if Answers(store, user, id, action, now)
    then store[id := store[id].(state := Decide(store[id], action, now).value)]
    else store
  }

  datatype Outcome = Allow | StillPending(id: string) | Refused | FallThrough

  function Polled(store: Store, id: string, user: nat, now: nat): Outcome {
    if id == "" || id !in store then FallThrough
    else if CanConsume(store[id], user, now) then Allow
    else match EffectiveState(store[id], now)
      case Pending => StillPending(id)
      case Denied => Refused
      case _ => FallThrough
  }

  function Spent(store: Store, id: string, user: nat, now: nat): Store {
    if Polled(store, id, user, now).Allow? then store - {id} else store
  }

  function Raised(store: Store, id: string, a: Approval, now: nat): Store {
    (map k | k in store && !Evictable(store[k], now) :: store[k])[id := a]
  }

  /** The process-wide map behind its mutex. */
  class ApprovalStore {
    var entries: Store

    constructor ()
      ensures entries == map[]
    {
      entries := map[];
    }

    method GuardDecide(user: nat, id: string, action: string, now: nat) returns (state: Option<ApprovalState>)
      modifies this
      ensures entries == Answered(old(entries), user, id, action, now)
      ensures state.Some? <==> Answers(old(entries), user, id, action, now)
      ensures state.Some? <==> && id in old(entries) && old(entries)[id].user == user
                               && old(entries)[id].state == Pending
                               && now < old(entries)[id].createdAt + 120
                               && Says(action, {"approve", "allow", "yes", "deny", "reject", "no"})
      ensures state.Some? ==> id in entries && entries[id].state == state.value
                              && (state.value == Approved <==> Says(action, {"approve", "allow", "yes"}))
                              && (state.value == Denied <==> Says(action, {"deny", "reject", "no"}))
    {
      if id !in entries || entries[id].user != user {
        return None;
      }
      var next := Decide(entries[id], action, now);
      if next.Err? {
        return None;
      }
      entries := entries[id := entries[id].(state := next.value)];
      return Some(next.value);
    }

    method Poll(user: nat, id: string, now: nat) returns (outcome: Outcome)
      modifies this
      ensures outcome == Polled(old(entries), id, user, now)
      ensures entries == Spent(old(entries), id, user, now)
    {
      if id != "" && id in entries {
        var existing := entries[id];
        if CanConsume(existing, user, now) {
          entries := entries - {id};
          return Allow;
        }
        match EffectiveState(existing, now) {
          case Pending => return StillPending(id);
          case Denied => return Refused;
          case _ =>
        }
      }
      return FallThrough;
    }

    /** Only a connected phone can be asked; without one nothing is raised. */
    method Raise(user: nat, id: string, device: string, ip: string, phoneOnline: bool, now: nat) returns (raised: bool)
      modifies this
      ensures raised == phoneOnline
      ensures entries
              == if phoneOnline then Raised(old(entries), id, Approval(user, Trim(device), ip, now, Pending), now)
                 else old(entries)
    {
      if !phoneOnline {
        return false;
      }
      var todo := entries.Keys;
      ghost var before := entries;
      while todo != {}
        invariant todo <= before.Keys
        invariant entries == map k | k in before && (k in todo || !Evictable(before[k], now)) :: before[k]
        decreases |todo|
      {
        var k :| k in todo;
        if Evictable(entries[k], now) {
          entries := entries - {k};
        }
        todo := todo - {k};
      }
      entries := entries[id := Approval(user, Trim(device), ip, now, Pending)];
      return true;
    }
  }

  // --------------------------------------------------------------------- runs

  datatype Mark =
    | Raising(user: nat, at: nat)
    | Yes(user: nat, word: string, at: nat)
    | No(user: nat, word: string, at: nat)
    | Allowed(user: nat)

  datatype World = World(store: Store, drawn: set<string>, log: seq<(string, Mark)>)

  const EMPTY := World(map[], {}, [])

  /** Each event is one hold of the lock; `now` is whatever that caller's clock said. */
  datatype Event =
    | Raise(user: nat, id: string, device: string, ip: string, now: nat)
    | Answer(user: nat, id: string, action: string, now: nat)
    | Poll(user: nat, id: string, now: nat)

  /** Random ids are assumed never to repeat: drawing a used one is no step. */
  function Step(w: World, e: Event): World {
    match e
    case Raise(user, id, device, ip, now) =>
      if id in w.drawn then w
      else World(Raised(w.store, id, Approval(user, Trim(device), ip, now, Pending), now), w.drawn + {id},
                 w.log + [(id, Raising(user, now))])
    case Answer(user, id, action, now) =>
      if !Answers(w.store, user, id, action, now) then w
      else w.(store := Answered(w.store, user, id, action, now),
              log := w.log + [(id, if ParseAnswer(action) == Some(Approved) then Yes(user, action, now)
                                   else No(user, action, now))])
    case Poll(user, id, now) =>
      if !Polled(w.store, id, user, now).Allow? then w
      else w.(store := Spent(w.store, id, user, now), log := w.log + [(id, Allowed(user))])
  }

  function Run(events: seq<Event>): World {
    if events == [] then EMPTY else Step(Run(events[..|events| - 1]), events[|events| - 1])
  }

  /** An answer counts only while the entry is under two minutes old, on the
      answering step's clock, and only from the account the entry is about. */
  predicate TimelyAnswer(raise: Mark, answer: Mark) {
    raise.Raising? && (answer.Yes? || answer.No?) && answer.user == raise.user && answer.at < raise.at + 120
    && (answer.Yes? ==> Says(answer.word, {"approve", "allow", "yes"}))
    && (answer.No? ==> Says(answer.word, {"deny", "reject", "no"}))
  }

  predicate Legal(story: seq<Mark>) {
    story == []
    || (story[0].Raising?
        && (|story| > 1 ==> TimelyAnswer(story[0], story[1]))
        && (|story| > 2 ==> story[1].Yes? && story[2] == Allowed(story[0].user))
        && |story| <= 3)
  }

  predicate Tells(a: Approval, story: seq<Mark>) {
    Legal(story) && 1 <= |story| <= 2 && story[0] == Raising(a.user, a.createdAt)
    && (a.state == if |story| == 1 then Pending else if story[1].Yes? then Approved else Denied)
  }

  ghost predicate Inv(w: World) {
    (forall id :: Legal(Story(w.log, id)))
    && (forall id :: id !in w.drawn ==> id !in w.store && Story(w.log, id) == [])
    && (forall id :: id in w.store ==> Tells(w.store[id], Story(w.log, id)))
  }

  lemma Extended(log: seq<(string, Mark)>, id: string, m: Mark)
    ensures forall k :: Story(log + [(id, m)], k) == if k == id then Story(log, k) + [m] else Story(log, k)
  {
    forall k ensures Story(log + [(id, m)], k) == if k == id then Story(log, k) + [m] else Story(log, k) {
      StoryExtends(log, (id, m), k);
    }
  }

  /** What an answer that took effect must have met. */
  lemma AnswerMeets(store: Store, user: nat, id: string, action: string, now: nat)
    requires Answers(store, user, id, action, now)
    ensures store[id].user == user && store[id].state == Pending && now < store[id].createdAt + TTL_SECONDS
    ensures ParseAnswer(action) == Some(Approved) || ParseAnswer(action) == Some(Denied)
    ensures ParseAnswer(action) == Some(Approved) ==> Says(action, {"approve", "allow", "yes"})
    ensures ParseAnswer(action) == Some(Denied) ==> Says(action, {"deny", "reject", "no"})
    ensures Answered(store, user, id, action, now) == store[id := store[id].(state := ParseAnswer(action).value)]
  {
  }

  lemma AnswerKeepsInv(w: World, user: nat, id: string, word: string, now: nat, next: ApprovalState, w': World)
    requires Inv(w) && id in w.store
    requires (next == Approved && Says(word, {"approve", "allow", "yes"}))
             || (next == Denied && Says(word, {"deny", "reject", "no"}))
    requires w.store[id].user == user && w.store[id].state == Pending && now < w.store[id].createdAt + TTL_SECONDS
    requires w' == w.(store := w.store[id := w.store[id].(state := next)],
                      log := w.log + [(id, if next == Approved then Yes(user, word, now) else No(user, word, now))])
    ensures Inv(w')
  {
    Extended(w.log, id, if next == Approved then Yes(user, word, now) else No(user, word, now));
    assert Tells(w.store[id], Story(w.log, id));
    assert Tells(w'.store[id], Story(w'.log, id));
  }

  lemma RaiseKeepsInv(w: World, e: Event)
    requires Inv(w) && e.Raise?
    ensures Inv(Step(w, e))
  {
    Extended(w.log, e.id, Raising(e.user, e.now));
  }

  lemma PollKeepsInv(w: World, e: Event)
    requires Inv(w) && e.Poll?
    ensures Inv(Step(w, e))
  {
    Extended(w.log, e.id, Allowed(e.user));
    if e.id in w.store {
      assert Tells(w.store[e.id], Story(w.log, e.id));
    }
  }

  lemma StepKeepsInv(w: World, e: Event)
    requires Inv(w)
    ensures Inv(Step(w, e))
  {
    match e
    case Raise(_, _, _, _, _) => RaiseKeepsInv(w, e);
    case Poll(_, _, _) => PollKeepsInv(w, e);
    case Answer(user, id, action, now) =>
      if Answers(w.store, user, id, action, now) {
        AnswerMeets(w.store, user, id, action, now);
        AnswerKeepsInv(w, user, id, action, now, ParseAnswer(action).value, Step(w, e));
      }
  }

  lemma {:induction false} RunKeepsInv(events: seq<Event>)
    ensures Inv(Run(events))
  {
    if events != [] {
      RunKeepsInv(events[..|events| - 1]);
      StepKeepsInv(Run(events[..|events| - 1]), events[|events| - 1]);
    }
  }

  /** Any run, any clocks: an entry is answered at most once, and lets at most one
      sign-in through, to its own account, after that account said yes in time. */
  lemma EveryStoryIsLegal(events: seq<Event>, id: string)
    ensures Legal(Story(Run(events).log, id))
  {
    RunKeepsInv(events);
  }

  /** A poll passes exactly when the entry's story so far is raise, yes; the clock
      plays no part, so an approval stays good until it is spent or evicted. */
  lemma AllowsExactlyAfterYes(events: seq<Event>, user: nat, id: string, now: nat)
    requires id != "" && id in Run(events).store
    ensures Polled(Run(events).store, id, user, now).Allow?
            <==> var story := Story(Run(events).log, id);
                 |story| == 2 && story[1].Yes? && story[1].user == user
  {
    RunKeepsInv(events);
    assert Tells(Run(events).store[id], Story(Run(events).log, id));
  }

  /** What a poll of a stored entry comes to, as its story so far has it: a yes lets its own
      account through, a no refuses, an entry under two minutes old without an answer is
      still pending, and all else falls through to a new request. */
  lemma PollTellsTheStory(events: seq<Event>, user: nat, id: string, now: nat)
    requires id in Run(events).store && id != ""
    ensures var story, outcome := Story(Run(events).log, id), Polled(Run(events).store, id, user, now);
            && story != [] && story[0].Raising?
            && (outcome.Allow? <==> |story| > 1 && story[1].Yes? && story[0].user == user)
            && (outcome == Refused <==> |story| > 1 && story[1].No?)
            && (outcome == StillPending(id) <==> |story| == 1 && now < story[0].at + 120)
            && (outcome.StillPending? ==> outcome.id == id)
  {
    RunKeepsInv(events);
    assert Tells(Run(events).store[id], Story(Run(events).log, id));
  }

  /** Denied never becomes allowed, and no second answer changes an entry, whatever
      happens in between. */
  lemma {:induction false} AnswersAreFinal(events: seq<Event>, more: seq<Event>, id: string)
    requires |Story(Run(events).log, id)| >= 2
    ensures |Story(Run(events + more).log, id)| >= 2
            && Story(Run(events + more).log, id)[1] == Story(Run(events).log, id)[1]
    ensures Story(Run(events).log, id)[1].No?
            ==> Story(Run(events + more).log, id) == Story(Run(events).log, id)
  {
    LogOnlyGrows(events, more);
    var log, log' := Run(events).log, Run(events + more).log;
    StoryOfPrefix(log', |log|, id);
    assert log'[..|log|] == log;
    EveryStoryIsLegal(events + more, id);
    EveryStoryIsLegal(events, id);
  }

  lemma {:induction false} LogOnlyGrows(events: seq<Event>, more: seq<Event>)
    ensures Run(events).log <= Run(events + more).log
    decreases |more|
  {
    if more == [] {
      assert events + more == events;
    } else {
      LogOnlyGrows(events, more[..|more| - 1]);
      assert (events + more)[..|events + more| - 1] == events + more[..|more| - 1];
    }
  }

  /** After a raise nothing two windows old is left, so the store cannot grow
      without bound, and nothing younger was lost. */
  lemma RaiseEvicts(store: Store, id: string, a: Approval, now: nat, k: string)
    requires Age(a, now) == 0
    ensures k in Raised(store, id, a, now) ==> Age(Raised(store, id, a, now)[k], now) < 240
    ensures k != id ==> (k in Raised(store, id, a, now) <==> k in store && Age(store[k], now) < 240)
  {
  }
}
