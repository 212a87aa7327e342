/** The login throttle (src/models.rs) and the sign-in flow in front of it
    (`api_auth_verify` in src/auth.rs; the other sign-in handlers use it alike:
    look first, record at most once). */
module Throttle {
  import opened Wrappers

  const MAX_FAILURES: nat := 5
  const LOCKOUT_SECS := 300

  datatype Entry = Entry(failures: nat, lockedUntil: int)

  type Table = map<string, Entry>

  /** Seconds left, when locked out. */
  function Locked(table: Table, key: string, now: int): Option<int> {
    if key in table && table[key].failures >= MAX_FAILURES && table[key].lockedUntil > now
    then Some(table[key].lockedUntil - now)
    else None
  }

  function FailureRecorded(table: Table, key: string, now: int): Table {
    var e := if key in table then table[key] else Entry(0, 0);
    var n := e.failures + 1;
    table[key := Entry(n, if n >= MAX_FAILURES then now + LOCKOUT_SECS else e.lockedUntil)]
  }

  datatype GuardReply = Allow | Pending | Denied | Unavailable

  /** What the handler finds out on its way. */
  datatype Facts = Facts(
    nonceLive: bool, userFound: bool, hasKey: bool, keyDecodes: bool, proofRight: bool, totpEnabled: bool,
    totpRight: bool, phone: GuardReply)

  datatype Reply = TooMany(secs: int) | Refused | Broken | Waiting | SignedIn

  datatype Effect = Nothing | Failure | Clear

  /** Proof of the password, and a second factor where one is set: a typed code, or
      else the phone. */
  predicate FirstFactor(f: Facts) {
    f.nonceLive && f.userFound && f.hasKey && f.keyDecodes && f.proofRight
  }

  predicate AsksPhone(f: Facts) {
    f.totpEnabled && !f.totpRight
  }

  function Updated(table: Table, key: string, effect: Effect, now: int): Table {
    match effect
    case Nothing => table
    case Failure => FailureRecorded(table, key, now)
    case Clear => table - {key}
  }

  class LoginThrottle {
    var table: Table

    constructor ()
      ensures table == map[]
    {
      table := map[];
    }

    method LoginLocked(key: string, now: int) returns (left: Option<int>)
      ensures left == Locked(table, key, now)
      ensures left.Some? <==> key in table && table[key].failures >= 5 && now < table[key].lockedUntil
      ensures left.Some? ==> left.value == table[key].lockedUntil - now > 0
    {
      if key !in table {
        return None;
      }
      var e := table[key];
      left := if e.failures >= MAX_FAILURES && e.lockedUntil > now then Some(e.lockedUntil - now) else None;
    }

    method RecordFailure(key: string, now: int)
      modifies this
      ensures table == FailureRecorded(old(table), key, now)
      ensures key in table && table - {key} == old(table) - {key}
      ensures table[key].failures == (if key in old(table) then old(table)[key].failures else 0) + 1
      ensures table[key].failures >= 5 ==> table[key].lockedUntil == now + 300
    {
      if key !in table {
        table := table[key := Entry(0, 0)];
      }
      table := table[key := table[key].(failures := table[key].failures + 1)];
      if table[key].failures >= MAX_FAILURES {
        table := table[key := table[key].(lockedUntil := now + LOCKOUT_SECS)];
      }
    }

    method ClearFailures(key: string)
      modifies this
      ensures table == old(table) - {key}
    {
      table := table - {key};
    }

    /** One sign-in. Exactly a wrong proof and a second factor that failed or was
        denied count against the key; waiting for the phone does not, and only a
        complete sign-in clears it. */
    method AuthVerify(key: string, f: Facts, checkedAt: int, recordedAt: int) returns (reply: Reply, effect: Effect)
      modifies this
      ensures table == Updated(old(table), key, effect, recordedAt)
      ensures reply.TooMany? <==> Locked(old(table), key, checkedAt).Some?
      ensures reply.SignedIn?
              <==> Locked(old(table), key, checkedAt).None? && FirstFactor(f) && (AsksPhone(f) ==> f.phone.Allow?)
      ensures reply.Waiting?
              <==> Locked(old(table), key, checkedAt).None? && FirstFactor(f) && AsksPhone(f) && f.phone.Pending?
      ensures effect.Clear? <==> reply.SignedIn?
      ensures effect.Failure?
              <==> && reply.Refused? && f.nonceLive && f.userFound && f.hasKey && f.keyDecodes
                   && (f.proofRight ==> AsksPhone(f) && (f.phone.Denied? || f.phone.Unavailable?))
    {
      var left := LoginLocked(key, checkedAt);
      if left.Some? {
        return TooMany(left.value), Nothing;
      }
      if !f.nonceLive || !f.userFound || !f.hasKey {
        return Refused, Nothing;
      }
      if !f.keyDecodes {
        return Broken, Nothing;
      }
      if !f.proofRight {
        RecordFailure(key, recordedAt);
        return Refused, Failure;
      }
      if f.totpEnabled && !f.totpRight {
        match f.phone {
          case Allow =>
          case Pending =>
            return Waiting, Nothing;
          case Denied =>
            RecordFailure(key, recordedAt);
            return Refused, Failure;
          case Unavailable =>
            RecordFailure(key, recordedAt);
            return Refused, Failure;
        }
      }
      ClearFailures(key);
      return SignedIn, Clear;
    }
  }

  // -------------------------------------------------------------------- runs

  /** What is known of one key: sign-ins past the check and not yet over, and the
      times of the failures recorded since it was last cleared. */
  datatype Trail = Trail(inFlight: nat, failures: seq<int>)

  datatype World = World(table: Table, clock: int, trails: map<string, Trail>)

  function TrailOf(w: World, key: string): Trail {
    if key in w.trails then w.trails[key] else Trail(0, [])
  }

  /** Sign-ins of any keys overlap: each looks (`Enter`), and later ends. */
  datatype Event = Enter(key: string, at: int) | Finish(key: string, at: int, effect: Effect)

  /** The clock never runs back, and at most `most` sign-ins of a key overlap. */
  predicate Possible(w: World, e: Event, most: nat) {
    w.clock <= e.at
    && match e
       case Enter(key, at) => Locked(w.table, key, at).None? ==> TrailOf(w, key).inFlight < most
       case Finish(key, at, effect) => TrailOf(w, key).inFlight > 0
  }

  function Step(w: World, e: Event): World {
    var t := TrailOf(w, e.key);
    match e
    case Enter(key, at) =>
      if Locked(w.table, key, at).Some? then w.(clock := at)
      else World(w.table, at, w.trails[key := t.(inFlight := t.inFlight + 1)])
    case Finish(key, at, effect) =>
      if t.inFlight == 0 then w
      else
        var failures := match effect case Nothing => t.failures case Failure => t.failures + [at] case Clear => [];
        World(Updated(w.table, key, effect, at), at, w.trails[key := Trail(t.inFlight - 1, failures)])
  }

  function Run(events: seq<Event>): World {
    if events == [] then World(map[], 0, map[]) else Step(Run(events[..|events| - 1]), events[|events| - 1])
  }

  predicate RunPossible(events: seq<Event>, most: nat) {
    events == []
    || (RunPossible(events[..|events| - 1], most) && Possible(Run(events[..|events| - 1]), events[|events| - 1], most))
  }

  // --------------------------------------------------------------- invariant

  /** The table is what the failures say. */
  ghost predicate EntryOk(table: Table, key: string, failures: seq<int>) {
    if failures == [] then key !in table
    else
      && key in table && table[key].failures == |failures|
      && (|failures| >= MAX_FAILURES ==> table[key].lockedUntil == failures[|failures| - 1] + LOCKOUT_SECS)
  }

  ghost predicate InOrder(failures: seq<int>, clock: int) {
    (forall i, j :: 0 <= i < j < |failures| ==> failures[i] <= failures[j])
    && forall i :: 0 <= i < |failures| ==> failures[i] <= clock
  }

  /** Until a failure's lockout has passed, only sign-ins already past the check can
      add failures after it. */
  ghost predicate Draining(t: Trail, clock: int, most: nat, i: nat) {
    i < |t.failures| ==> clock >= t.failures[i] + LOCKOUT_SECS || |t.failures| - 1 - i + t.inFlight < most
  }

  ghost predicate TrailOk(table: Table, clock: int, key: string, t: Trail, most: nat) {
    EntryOk(table, key, t.failures) && InOrder(t.failures, clock) && t.inFlight <= most
    && (forall i :: MAX_FAILURES - 1 <= i < |t.failures| ==> Draining(t, clock, most, i))
    && Spaced(t.failures, most)
  }

  /** From the fifth on, `most` failures further is at least a lockout later. */
  ghost predicate Spaced(failures: seq<int>, most: nat) {
    forall i, j :: MAX_FAILURES - 1 <= i && i + most <= j < |failures| ==> failures[j] >= failures[i] + LOCKOUT_SECS
  }

  lemma FailureKeepsTrail(table: Table, clock: int, key: string, t: Trail, most: nat, at: int)
    requires TrailOk(table, clock, key, t, most) && t.inFlight > 0 && clock <= at
    ensures TrailOk(FailureRecorded(table, key, at), at, key, Trail(t.inFlight - 1, t.failures + [at]), most)
  {
    var t2 := Trail(t.inFlight - 1, t.failures + [at]);
    forall i | MAX_FAILURES - 1 <= i < |t2.failures| ensures Draining(t2, at, most, i) {
      if i < |t.failures| {
        assert Draining(t, clock, most, i);
      }
    }
    forall i, j | MAX_FAILURES - 1 <= i && i + most <= j < |t2.failures|
      ensures t2.failures[j] >= t2.failures[i] + LOCKOUT_SECS
    {
      if j == |t.failures| {
        assert Draining(t, clock, most, i);
      }
    }
  }

  lemma EnterKeepsTrail(table: Table, clock: int, key: string, t: Trail, most: nat, at: int)
    requires TrailOk(table, clock, key, t, most) && t.inFlight < most && clock <= at && Locked(table, key, at).None?
    ensures TrailOk(table, at, key, t.(inFlight := t.inFlight + 1), most)
  {
  }

  lemma QuietKeepsTrail(
    table: Table, table2: Table, clock: int, key: string, t: Trail, most: nat, at: int, inFlight: nat)
    requires TrailOk(table, clock, key, t, most) && clock <= at && inFlight <= t.inFlight
    requires key in table <==> key in table2
    requires key in table ==> table[key] == table2[key]
    ensures TrailOk(table2, at, key, t.(inFlight := inFlight), most)
  {
    forall i | MAX_FAILURES - 1 <= i < |t.failures| ensures Draining(t.(inFlight := inFlight), at, most, i) {
      assert Draining(t, clock, most, i);
    }
  }

  lemma {:induction false} RunKeepsTrails(events: seq<Event>, most: nat, key: string)
    requires RunPossible(events, most)
    ensures var w := Run(events); TrailOk(w.table, w.clock, key, TrailOf(w, key), most)
  {
    if events != [] {
      RunKeepsTrails(events[..|events| - 1], most, key);
      StepKeepsTrail(Run(events[..|events| - 1]), events[|events| - 1], most, key);
    }
  }

  lemma StepKeepsTrail(w: World, e: Event, most: nat, key: string)
    requires TrailOk(w.table, w.clock, key, TrailOf(w, key), most) && Possible(w, e, most)
    ensures TrailOk(Step(w, e).table, Step(w, e).clock, key, TrailOf(Step(w, e), key), most)
  {
    var t := TrailOf(w, key);
    if e.key != key || (e.Enter? && Locked(w.table, key, e.at).Some?) {
      QuietKeepsTrail(w.table, Step(w, e).table, w.clock, key, t, most, e.at, t.inFlight);
    } else if e.Enter? {
      EnterKeepsTrail(w.table, w.clock, key, t, most, e.at);
    } else if e.effect.Failure? {
      FailureKeepsTrail(w.table, w.clock, key, t, most, e.at);
    } else if e.effect.Nothing? {
      QuietKeepsTrail(w.table, w.table, w.clock, key, t, most, e.at, t.inFlight - 1);
    }
  }

  // ------------------------------------------------------------- the promises

  lemma {:induction false} SpacedFarther(failures: seq<int>, most: nat, i: nat, k: nat)
    requires Spaced(failures, most) && MAX_FAILURES - 1 <= i && i + most * k < |failures|
    ensures failures[i + most * k] >= failures[i] + LOCKOUT_SECS * k
  {
    if k > 0 {
      assert most * k == most * (k - 1) + most;
      SpacedFarther(failures, most, i, k - 1);
    }
  }

  /** However sign-ins of any keys interleave, at most `most` of a key at once: since
      the key was last cleared, failure number 5 + most * k comes at least 300 * k
      seconds after the fifth. */
  lemma FailuresAreFarApart(events: seq<Event>, most: nat, key: string, k: nat)
    requires RunPossible(events, most)
    requires 4 + most * k < |TrailOf(Run(events), key).failures|
    ensures var failures := TrailOf(Run(events), key).failures;
            failures[4 + most * k] >= failures[4] + 300 * k
  {
    RunKeepsTrails(events, most, key);
    SpacedFarther(TrailOf(Run(events), key).failures, most, MAX_FAILURES - 1, k);
  }

  /** One at a time: failure number 5 + k at least 300 * k seconds after the fifth. */
  lemma SequentialFailuresAreFarApart(events: seq<Event>, key: string, k: nat)
    requires RunPossible(events, 1)
    requires 4 + k < |TrailOf(Run(events), key).failures|
    ensures var failures := TrailOf(Run(events), key).failures;
            failures[4 + k] >= failures[4] + 300 * k
  {
    FailuresAreFarApart(events, 1, key, k);
  }

  /** A key is locked out exactly for 300 seconds after each failure from the fifth on. */
  lemma LockedExactlyAfterFailures(events: seq<Event>, most: nat, key: string, now: int)
    requires RunPossible(events, most)
    ensures var failures := TrailOf(Run(events), key).failures;
            Locked(Run(events).table, key, now)
            == if |failures| >= 5 && now < failures[|failures| - 1] + 300
               then Some(failures[|failures| - 1] + 300 - now) else None
  {
    RunKeepsTrails(events, most, key);
  }

  lemma FarEnough(failures: seq<int>, clock: int, most: nat, p: nat, first: nat, k: nat, q: nat)
    requires Spaced(failures, most) && InOrder(failures, clock)
    requires p <= first && MAX_FAILURES - 1 <= first && first + most * k <= q < |failures|
    ensures failures[q] >= failures[p] + LOCKOUT_SECS * k
  {
    SpacedFarther(failures, most, first, k);
    var r := first + most * k;
    assert failures[p] <= failures[first] && failures[r] <= failures[q];
  }

  /** So the failures `p` to `q`, all within `window` seconds, are no more than
      4 + most * (1 + window / 300). */
  lemma WindowHoldsFew(events: seq<Event>, most: nat, key: string, p: nat, q: nat, window: nat)
    requires RunPossible(events, most) && p <= q < |TrailOf(Run(events), key).failures|
    requires var failures := TrailOf(Run(events), key).failures; failures[q] - failures[p] <= window
    ensures q - p + 1 <= 4 + most * (1 + window / 300)
  {
    RunKeepsTrails(events, most, key);
    var first, k := if p < MAX_FAILURES - 1 then MAX_FAILURES - 1 else p, 1 + window / LOCKOUT_SECS;
    if first + most * k <= q {
      FarEnough(TrailOf(Run(events), key).failures, Run(events).clock, most, p, first, k, q);
    }
  }
}
