/** Passwordless QR sign-in (src/qr_auth.rs): a compare-and-swap protocol on one
    database row per challenge, driven by any number of API replicas. A poll
    reads the row in one statement and swaps it in a later one, so every other
    statement may fall in between; every statement carries its replica's clock. */
module QrSignin {
  import opened Stories
  import opened Text
  import opened Wrappers

  const TTL_SECONDS := 180
  const MAX_ACTIVE_PER_IP := 10

  datatype Target = Launcher | Store

  datatype State = Pending | Approved | Denied | Consumed

  /** A row of `qr_signin_challenges`; `scan` and `poll` hold the stored hashes. */
  datatype Row = Row(
    scan: string, poll: string, target: Target, ip: string, state: State, userId: Option<nat>, expiresAt: int,
    consumedAt: Option<int>)

  type Table = map<string, Row>

  function ParseTarget(raw: string): Option<Target> {
    match ToAsciiLower(Trim(raw))
    case "launcher" => Some(Launcher)
    case "desktop" => Some(Launcher)
    case "store" => Some(Store)
    case "web" => Some(Store)
    case "website" => Some(Store)
    case _ => None
  }

  /** Some(true) approves, Some(false) denies, None is not an answer. */
  function ParseAction(raw: string): Option<bool> {
    match ToAsciiLower(Trim(raw))
    case "approve" => Some(true)
    case "allow" => Some(true)
    case "deny" => Some(false)
    case "reject" => Some(false)
    case _ => None
  }

  /** The text, trimmed and with ASCII capitals lowered, is one of these words. */
  predicate Says(raw: string, words: set<string>) {
    ToAsciiLower(Trim(raw)) in words
  }

  // ---------------------------------------------------------------- statements

  function Cleaned(rows: Table, now: int): Table {
    map id | id in rows && rows[id].expiresAt >= now - TTL_SECONDS :: rows[id]
  }

  function ActiveFrom(rows: Table, ip: string, now: int): nat {
    |set id | id in rows && rows[id].ip == ip && rows[id].expiresAt > now|
  }

  predicate Issues(rows: Table, id: string, ip: string, now: int) {
    ActiveFrom(Cleaned(rows, now), ip, now) < MAX_ACTIVE_PER_IP && id !in Cleaned(rows, now)
  }

  function Issued(rows: Table, id: string, scan: string, poll: string, target: Target, ip: string, now: int): Table {
    if Issues(rows, id, ip, now)
    then Cleaned(rows, now)[id := Row(scan, poll, target, ip, Pending, None, now + TTL_SECONDS, None)]
    else Cleaned(rows, now)
  }

  /** The WHERE clause of the deciding update. */
  predicate Decides(rows: Table, id: string, scan: string, now: int) {
    id in rows && rows[id].scan == scan && rows[id].state == Pending && rows[id].expiresAt > now
  }

  function Decided(rows: Table, id: string, scan: string, user: nat, approve: bool, now: int): Table {
    if Decides(rows, id, scan, now)
    then rows[id := rows[id].(state := if approve then Approved else Denied, userId := Some(user))]
    else rows
  }

  datatype PollReply =
    | NotFound
    | Expired
    | Waiting(expiresIn: int)
    | Refused
    | Corrupt
    | Proceed(target: Target, user: nat)

  function PollRead(rows: Table, id: string, poll: string, now: int): PollReply {
    if id !in rows || rows[id].poll != poll then NotFound
    else if rows[id].expiresAt <= now then Expired
    else match rows[id].state
      case Pending => Waiting(rows[id].expiresAt - now)
      case Denied => Refused
      case _ => if rows[id].userId.Some? then Proceed(rows[id].target, rows[id].userId.value) else Corrupt
  }

  /** The WHERE clause of the consuming update. */
  predicate Swaps(rows: Table, id: string, poll: string, now: int) {
    id in rows && rows[id].poll == poll && rows[id].state == Approved && rows[id].expiresAt > now
  }

  function Swapped(rows: Table, id: string, poll: string, now: int): Table {
    if Swaps(rows, id, poll, now) then rows[id := rows[id].(state := Consumed, consumedAt := Some(now))] else rows
  }

  datatype StartError = BadTarget | TooManyActive | DuplicateId
  datatype DecideError = BadAction | Gone

  /** The challenge table as the handlers change it. */
  class Challenges {
    var rows: Table

    constructor ()
      ensures rows == map[]
    {
      rows := map[];
    }

    method Start(rawTarget: string, id: string, scan: string, poll: string, ip: string, now: int)
      returns (r: Result<int, StartError>)
      modifies this
      ensures r.Ok? <==> ParseTarget(rawTarget).Some? && Issues(old(rows), id, ip, now)
      ensures r == Err(BadTarget) <==> !Says(rawTarget, {"launcher", "desktop", "store", "web", "website"})
      ensures var active := set k | k in old(rows) && old(rows)[k].ip == ip && old(rows)[k].expiresAt > now;
              (r.Ok? ==> |active| < 10 && r.value == 180) && (r == Err(TooManyActive) ==> |active| >= 10)
      ensures r.Ok? ==> id in rows && rows[id].ip == ip && rows[id].state == Pending && rows[id].expiresAt == now + 180
                        && rows[id].scan == scan && rows[id].poll == poll
                        && (rows[id].target == Launcher <==> Says(rawTarget, {"launcher", "desktop"}))
      ensures forall other :: other in old(rows) && other != id && r != Err(BadTarget)
                ==> (other in rows <==> old(rows)[other].expiresAt >= now - 180)
                    && (other in rows ==> rows[other] == old(rows)[other])
      ensures rows == match ParseTarget(rawTarget)
                      case None => old(rows)
                      case Some(target) => Issued(old(rows), id, scan, poll, target, ip, now)
    {
      var target := ParseTarget(rawTarget);
      if target.None? {
        return Err(BadTarget);
      }
      rows := Cleaned(rows, now);
      var active := set k | k in rows && rows[k].ip == ip && rows[k].expiresAt > now;
      assert active == set k | k in old(rows) && old(rows)[k].ip == ip && old(rows)[k].expiresAt > now;
      if |active| >= MAX_ACTIVE_PER_IP {
        return Err(TooManyActive);
      }
      if id in rows {
        return Err(DuplicateId);
      }
      rows := rows[id := Row(scan, poll, target.value, ip, Pending, None, now + TTL_SECONDS, None)];
      return Ok(TTL_SECONDS);
    }

    method Decide(rawAction: string, id: string, scan: string, user: nat, now: int)
      returns (r: Result<State, DecideError>)
      modifies this
      ensures r == match ParseAction(rawAction)
                   case None => Err(BadAction)
                   case Some(approve) =>
                     if !Decides(old(rows), id, scan, now) then Err(Gone) else Ok(if approve then Approved else Denied)
      ensures rows == match ParseAction(rawAction)
                      case None => old(rows)
                      case Some(approve) => Decided(old(rows), id, scan, user, approve, now)
      ensures r == Err(BadAction) <==> !Says(rawAction, {"approve", "allow", "deny", "reject"})
      ensures r == Ok(Approved) ==> Says(rawAction, {"approve", "allow"}) && id in rows && rows[id].state == Approved
      ensures r == Ok(Denied) ==> Says(rawAction, {"deny", "reject"}) && id in rows && rows[id].state == Denied
      ensures r.Ok? <==> Says(rawAction, {"approve", "allow", "deny", "reject"}) && id in old(rows)
                         && old(rows)[id].scan == scan && old(rows)[id].state == Pending
                         && old(rows)[id].expiresAt > now
      ensures r.Ok? ==> rows[id].userId == Some(user)
    {
      var approve := ParseAction(rawAction);
      if approve.None? {
        return Err(BadAction);
      }
      var affected := id in rows && rows[id].scan == scan && rows[id].state == Pending && rows[id].expiresAt > now;
      var next := if approve.value then Approved else Denied;
      if affected {
        rows := rows[id := rows[id].(state := next, userId := Some(user))];
        return Ok(next);
      }
      return Err(Gone);
    }

    /** The second half of a poll; true when this request completes the login. */
    method Swap(id: string, poll: string, now: int) returns (won: bool)
      modifies this
      ensures won == Swaps(old(rows), id, poll, now)
      ensures rows == Swapped(old(rows), id, poll, now)
    {
      won := id in rows && rows[id].poll == poll && rows[id].state == Approved && rows[id].expiresAt > now;
      if won {
        rows := rows[id := rows[id].(state := Consumed, consumedAt := Some(now))];
      }
    }
  }

  // --------------------------------------------------------------------- runs

  /** What the cluster did to one challenge, in the order it took effect. */
  datatype Mark =
    | Issue(scan: string, poll: string, wanted: string, at: int)
    | Approval(user: nat, scan: string, word: string, at: int)
    | Denial(user: nat, scan: string, word: string, at: int)
    | Login(user: nat, poll: string, target: Target, at: int)

  /** A poll between its read and its swap, with what it read. */
  datatype InFlight = InFlight(id: string, poll: string, user: nat, target: Target)

  datatype World = World(
    rows: Table, drawn: set<string>, polls: map<nat, InFlight>, log: seq<(string, Mark)>)

  const EMPTY := World(map[], {}, map[], [])

  /** One statement of one replica. `request` names the poll it belongs to;
      `enabled` is what the account lookup between read and swap answered. */
  datatype Event =
    | Start(id: string, scan: string, poll: string, wanted: string, ip: string, now: int)
    | Decide(id: string, scan: string, user: nat, word: string, now: int)
    | Read(request: nat, id: string, poll: string, now: int)
    | Swap(request: nat, enabled: bool, now: int)

  /** Random ids are assumed never to repeat: drawing a used one is no step. */
  function Step(w: World, e: Event): World {
    match e
    case Start(id, scan, poll, wanted, ip, now) =>
      if id in w.drawn || ParseTarget(wanted).None? then w
      else
        w.(rows := Issued(w.rows, id, scan, poll, ParseTarget(wanted).value, ip, now),
           drawn := w.drawn + {id},
           log := if Issues(w.rows, id, ip, now) then w.log + [(id, Issue(scan, poll, wanted, now))] else w.log)
    case Decide(id, scan, user, word, now) =>
      if ParseAction(word).None? || !Decides(w.rows, id, scan, now) then w
      else
        var approve := ParseAction(word).value;
        w.(rows := Decided(w.rows, id, scan, user, approve, now),
           log := w.log + [(id, if approve then Approval(user, scan, word, now) else Denial(user, scan, word, now))])
    case Read(request, id, poll, now) =>
      var reply := PollRead(w.rows, id, poll, now);
      if reply.Proceed? && request !in w.polls
      then w.(polls := w.polls[request := InFlight(id, poll, reply.user, reply.target)]) else w
    case Swap(request, enabled, now) =>
      if request !in w.polls then w
      else
        var p := w.polls[request];
        var gone := w.(polls := w.polls - {request});
        if enabled && Swaps(w.rows, p.id, p.poll, now)
        then gone.(rows := Swapped(w.rows, p.id, p.poll, now),
                   log := w.log + [(p.id, Login(p.user, p.poll, p.target, now))])
        else gone
  }

  function Run(events: seq<Event>): World {
    if events == [] then EMPTY else Step(Run(events[..|events| - 1]), events[|events| - 1])
  }

  /** An answer in time: the phone knew the scan secret, and three minutes had not passed. */
  predicate TimelyAnswer(issue: Mark, answer: Mark)
    requires issue.Issue? && (answer.Approval? || answer.Denial?)
  {
    answer.scan == issue.scan && answer.at < issue.at + 180
  }

  /** The only four lives a challenge can lead, and their beginnings. */
  predicate Legal(story: seq<Mark>) {
    story == []
    || (story[0].Issue? && Says(story[0].wanted, {"launcher", "desktop", "store", "web", "website"})
        && (|story| == 1
            || (|story| == 2 && story[1].Denial? && Says(story[1].word, {"deny", "reject"})
                && TimelyAnswer(story[0], story[1]))
            || (2 <= |story| <= 3 && ApprovedStart(story) && (|story| == 3 ==> LoginEnds(story)))))
  }

  predicate ApprovedStart(story: seq<Mark>) {
    |story| >= 2 && story[0].Issue? && story[1].Approval? && Says(story[1].word, {"approve", "allow"})
    && TimelyAnswer(story[0], story[1])
  }

  predicate LoginEnds(story: seq<Mark>)
    requires |story| == 3 && story[0].Issue? && story[1].Approval?
  {
    story[2].Login? && story[2].user == story[1].user && story[2].poll == story[0].poll
    && story[2].at < story[0].at + 180
    && (story[2].target == Launcher <==> Says(story[0].wanted, {"launcher", "desktop"}))
  }

  /** The story a stored row must have behind it. */
  predicate Tells(row: Row, story: seq<Mark>) {
    Legal(story) && story != [] && story[0] == Issue(row.scan, row.poll, story[0].wanted, row.expiresAt - 180)
    && (row.target == Launcher <==> Says(story[0].wanted, {"launcher", "desktop"}))
    && match row.state
       case Pending => |story| == 1
       case Denied => |story| == 2 && story[1].Denial? && row.userId == Some(story[1].user)
       case Approved => |story| == 2 && story[1].Approval? && row.userId == Some(story[1].user)
       case Consumed => |story| == 3 && row.userId == Some(story[2].user) && row.consumedAt == Some(story[2].at)
  }

  ghost predicate IdOk(w: World, id: string) {
    var story := Story(w.log, id);
    Legal(story) && (id !in w.drawn ==> id !in w.rows && story == []) && (id in w.rows ==> Tells(w.rows[id], story))
  }

  ghost predicate PollOk(w: World, r: nat)
    requires r in w.polls
  {
    Backed(w.polls[r], Story(w.log, w.polls[r].id))
  }

  ghost predicate Inv(w: World) {
    (forall id {:trigger IdOk(w, id)} :: IdOk(w, id))
    && forall r {:trigger PollOk(w, r)} :: r in w.polls ==> PollOk(w, r)
  }

  /** A poll past its read has seen the user of the winning approval. */
  predicate Backed(p: InFlight, story: seq<Mark>) {
    ApprovedStart(story) && story[0].poll == p.poll && story[1].user == p.user
    && (p.target == Launcher <==> Says(story[0].wanted, {"launcher", "desktop"}))
  }

  /** Nothing new in the log: rows and requests may go, ids may be drawn. */
  lemma QuietKeepsInv(w: World, w': World)
    requires Inv(w) && w'.log == w.log && w.drawn <= w'.drawn
    requires forall id :: id in w'.rows ==> id in w.rows && w'.rows[id] == w.rows[id]
    requires forall r :: r in w'.polls ==> r in w.polls && w'.polls[r] == w.polls[r]
    ensures Inv(w')
  {
    forall id ensures IdOk(w', id) {
      assert IdOk(w, id);
    }
    forall r | r in w'.polls ensures PollOk(w', r) {
      assert PollOk(w, r);
    }
  }

  /** A new mark: it is enough that its own challenge is in order. */
  lemma MarkKeepsInv(w: World, w': World, id: string, m: Mark)
    requires Inv(w) && w'.log == w.log + [(id, m)] && w.drawn <= w'.drawn <= w.drawn + {id} && IdOk(w', id)
    requires forall k :: k != id && k in w'.rows ==> k in w.rows && w'.rows[k] == w.rows[k]
    requires forall r :: r in w'.polls ==> r in w.polls && w'.polls[r] == w.polls[r]
    ensures Inv(w')
  {
    forall k ensures IdOk(w', k) {
      assert IdOk(w, k);
      StoryExtends(w.log, (id, m), k);
    }
    forall r | r in w'.polls ensures PollOk(w', r) {
      assert PollOk(w, r);
      StoryExtends(w.log, (id, m), w.polls[r].id);
    }
  }

  lemma StartKeepsInv(w: World, e: Event)
    requires Inv(w) && e.Start?
    ensures Inv(Step(w, e))
  {
    if e.id !in w.drawn && ParseTarget(e.wanted).Some? && Issues(w.rows, e.id, e.ip, e.now) {
      var m := Issue(e.scan, e.poll, e.wanted, e.now);
      assert IdOk(w, e.id);
      StoryExtends(w.log, (e.id, m), e.id);
      MarkKeepsInv(w, Step(w, e), e.id, m);
    } else {
      QuietKeepsInv(w, Step(w, e));
    }
  }

  lemma DecideKeepsInv(w: World, e: Event)
    requires Inv(w) && e.Decide?
    ensures Inv(Step(w, e))
  {
    if ParseAction(e.word).Some? && Decides(w.rows, e.id, e.scan, e.now) {
      var m := if ParseAction(e.word).value then Approval(e.user, e.scan, e.word, e.now)
               else Denial(e.user, e.scan, e.word, e.now);
      assert IdOk(w, e.id);
      StoryExtends(w.log, (e.id, m), e.id);
      MarkKeepsInv(w, Step(w, e), e.id, m);
    }
  }

  lemma ReadKeepsInv(w: World, e: Event)
    requires Inv(w) && e.Read?
    ensures Inv(Step(w, e))
  {
    var w' := Step(w, e);
    if w' != w {
      assert IdOk(w, e.id);
      forall id ensures IdOk(w', id) {
        assert IdOk(w, id);
      }
      forall r | r in w'.polls ensures PollOk(w', r) {
        if r in w.polls {
          assert PollOk(w, r);
        }
      }
    }
  }

  lemma SwapKeepsInv(w: World, e: Event)
    requires Inv(w) && e.Swap?
    ensures Inv(Step(w, e))
  {
    if e.request in w.polls && e.enabled && Swaps(w.rows, w.polls[e.request].id, w.polls[e.request].poll, e.now) {
      var p := w.polls[e.request];
      var m := Login(p.user, p.poll, p.target, e.now);
      assert IdOk(w, p.id) && PollOk(w, e.request);
      StoryExtends(w.log, (p.id, m), p.id);
      MarkKeepsInv(w, Step(w, e), p.id, m);
    } else {
      QuietKeepsInv(w, Step(w, e));
    }
  }

  lemma StepKeepsInv(w: World, e: Event)
    requires Inv(w)
    ensures Inv(Step(w, e))
  {
    match e
    case Start(_, _, _, _, _, _) => StartKeepsInv(w, e);
    case Decide(_, _, _, _, _) => DecideKeepsInv(w, e);
    case Read(_, _, _, _) => ReadKeepsInv(w, e);
    case Swap(_, _, _) => SwapKeepsInv(w, e);
  }

  lemma {:induction false} RunKeepsInv(events: seq<Event>)
    ensures Inv(Run(events))
  {
    if events != [] {
      RunKeepsInv(events[..|events| - 1]);
      StepKeepsInv(Run(events[..|events| - 1]), events[|events| - 1]);
    }
  }

  /** Every interleaving: each challenge is issued once, answered at most once and
      spent at most once, only after an approval, on the approver's account, with
      the secrets it was issued with and before it expires. */
  lemma EveryStoryIsLegal(events: seq<Event>, id: string)
    ensures Legal(Story(Run(events).log, id))
  {
    RunKeepsInv(events);
    assert IdOk(Run(events), id);
  }

  /** What the log holds before a login: the issue and the approval it rests on. */
  predicate RestsOn(before: seq<(string, Mark)>, id: string, login: Mark, issue: Mark, approval: Mark)
    requires login.Login?
  {
    (id, issue) in before && (id, approval) in before && issue.Issue? && approval.Approval?
    && approval.user == login.user && Says(approval.word, {"approve", "allow"}) && TimelyAnswer(issue, approval)
    && issue.poll == login.poll && login.at < issue.at + 180
    && (login.target == Launcher <==> Says(issue.wanted, {"launcher", "desktop"}))
  }

  lemma LoginHasPlaceTwo(events: seq<Event>, j: nat)
    requires j < |Run(events).log| && Run(events).log[j].1.Login?
    ensures Place(Run(events).log, j) == 2 && |Story(Run(events).log, Run(events).log[j].0)| == 3
  {
    EveryStoryIsLegal(events, Run(events).log[j].0);
    StoryAtPlace(Run(events).log, j);
  }

  /** The same, read off one login: it rests on an issue and an approval before it. */
  lemma LoginIsBacked(events: seq<Event>, j: nat) returns (issue: Mark, approval: Mark)
    requires j < |Run(events).log| && Run(events).log[j].1.Login?
    ensures var log := Run(events).log; RestsOn(log[..j], log[j].0, log[j].1, issue, approval)
  {
    var log := Run(events).log;
    var (id, login) := log[j];
    EveryStoryIsLegal(events, id);
    LoginHasPlaceTwo(events, j);
    StoryAtPlace(log, j);
    issue, approval := Story(log, id)[0], Story(log, id)[1];
    assert Story(log[..j], id) == [issue, approval];
    StoryHolds(log[..j], id, issue);
    StoryHolds(log[..j], id, approval);
  }

  /** And the challenge sees no second login, and no denial, ever. */
  lemma LoginIsAlone(events: seq<Event>, j: nat, i: nat)
    requires j < |Run(events).log| && Run(events).log[j].1.Login?
    requires i < |Run(events).log| && i != j && Run(events).log[i].0 == Run(events).log[j].0
    ensures !Run(events).log[i].1.Login? && !Run(events).log[i].1.Denial?
  {
    var log := Run(events).log;
    EveryStoryIsLegal(events, log[j].0);
    LoginHasPlaceTwo(events, j);
    StoryAtPlace(log, i);
    StoryAtPlace(log, j);
    if i < j { PlacesGrow(log, i, j); } else { PlacesGrow(log, j, i); }
  }

  /** A poll with the right secret is told what the challenge's story is so far. */
  lemma PollTellsTheStory(events: seq<Event>, id: string, poll: string, now: int)
    requires id in Run(events).rows && Run(events).rows[id].poll == poll
    ensures var story, reply := Story(Run(events).log, id), PollRead(Run(events).rows, id, poll, now);
            && story != [] && story[0].Issue?
            && (reply.Expired? <==> now >= story[0].at + 180)
            && (now < story[0].at + 180 ==>
                  && (|story| == 1 <==> reply == Waiting(story[0].at + 180 - now))
                  && (|story| > 1 && story[1].Denial? <==> reply.Refused?)
                  && (|story| > 1 && story[1].Approval? <==> reply.Proceed?)
                  && (reply.Proceed? ==> reply.user == story[1].user)
                  && (reply.Proceed?
                      ==> (reply.target == Launcher <==> Says(story[0].wanted, {"launcher", "desktop"}))))
  {
    RunKeepsInv(events);
    assert IdOk(Run(events), id);
  }

  /** Partner of the safety theorem: an approved, unexpired challenge does sign its
      approver in, and a second poll that read the same row then loses the swap. */
  lemma ApprovedChallengeSignsInOnce(w: World, first: nat, second: nat, id: string, poll: string, now: int)
    requires Inv(w) && first != second && first !in w.polls && second !in w.polls
    requires Swaps(w.rows, id, poll, now)
    ensures var read := Step(Step(w, Read(first, id, poll, now)), Read(second, id, poll, now));
            var won := Step(read, Swap(first, true, now));
            var lost := Step(won, Swap(second, true, now));
            && w.rows[id].userId.Some?
            && won.log == w.log + [(id, Login(w.rows[id].userId.value, poll, w.rows[id].target, now))]
            && lost.log == won.log && lost.rows == won.rows && lost.polls == w.polls
  {
    assert IdOk(w, id);
  }
}
