/** The background rescan and its live progress: `spawn_rescan` and `rescan_catalog`
    (src/scan_jobs.rs), `ensure_manifests` (src/manifest.rs), `ScanStatus` and
    `set_scan` (src/models.rs). Every change of the status is one hold of its lock;
    everything between two of them may interleave with other games being hashed and
    with requests that compute a manifest on demand. */
module ScanProgress {
  import opened Sums
  import opened Wrappers

  datatype PlatformProgress = PlatformProgress(total: nat, processed: nat)

  type Platforms = map<string, PlatformProgress>

  datatype Phase = Idle | Scanning | Hashing | Enriching | Done | Failed

  datatype Status = Status(
    running: bool, phase: Phase, total: nat, processed: nat, active: nat, current: string, perPlatform: Platforms)

  datatype Scanned = Scanned(id: string, title: string, platform: string, version: string)

  // ---------------------------------------------------------- status changes

  function Entry(per: Platforms, platform: string): PlatformProgress {
    if platform in per then per[platform] else PlatformProgress(0, 0)
  }

  function Totals(games: seq<Scanned>): Platforms {
    if games == [] then map[]
    else
      var per, p := Totals(games[..|games| - 1]), games[|games| - 1].platform;
      per[p := Entry(per, p).(total := Entry(per, p).total + 1)]
  }

  function JustStarted(): Status {
    Status(true, Scanning, 0, 0, 0, "", map[])
  }

  function BeganHashing(s: Status, games: seq<Scanned>): Status {
    s.(phase := Hashing, total := |games|, processed := 0, active := 0, current := "", perPlatform := Totals(games))
  }

  function HashStarted(s: Status, title: string): Status {
    s.(active := s.active + 1, current := title)
  }

  /** The subtraction stops at zero. */
  function HashEnded(s: Status): Status {
    s.(active := if s.active == 0 then 0 else s.active - 1)
  }

  function Counted(s: Status, platform: string): Status {
    var e := Entry(s.perPlatform, platform);
    s.(processed := s.processed + 1, perPlatform := s.perPlatform[platform := e.(processed := e.processed + 1)],
       current := if s.active == 0 then "" else s.current)
  }

  function BeganEnriching(s: Status): Status {
    s.(phase := Enriching, current := "")
  }

  function Ended(s: Status, ok: bool): Status {
    s.(running := false, phase := if ok then Done else Failed, current := "")
  }

  class ScanBoard {
    var running: bool
    var phase: Phase
    var total: nat
    var processed: nat
    var active: nat
    var current: string
    var perPlatform: Platforms

    ghost function State(): Status
      reads this
    {
      Status(running, phase, total, processed, active, current, perPlatform)
    }

    constructor ()
      ensures State() == Status(false, Idle, 0, 0, 0, "", map[])
    {
      running, phase, total, processed, active, current, perPlatform := false, Idle, 0, 0, 0, "", map[];
    }

    /** Test and set in one hold of the lock. */
    method SpawnRescan() returns (started: bool)
      modifies this
      ensures started == !old(running)
      ensures State() == if old(running) then old(State()) else JustStarted()
    {
      if running {
        return false;
      }
      running, phase, total, processed, active, current, perPlatform := true, Scanning, 0, 0, 0, "", map[];
      return true;
    }

    method BeginHashing(games: seq<Scanned>)
      modifies this
      ensures State() == BeganHashing(old(State()), games)
    {
      var totals: Platforms := map[];
      for i := 0 to |games|
        invariant totals == Totals(games[..i]) && State() == old(State())
      {
        assert games[..i + 1][..i] == games[..i];
        var p := games[i].platform;
        if p !in totals {
          totals := totals[p := PlatformProgress(0, 0)];
        }
        totals := totals[p := totals[p].(total := totals[p].total + 1)];
      }
      assert games[..|games|] == games;
      phase, total, processed, active, current, perPlatform := Hashing, |games|, 0, 0, "", totals;
    }

    method StartHash(title: string)
      modifies this
      ensures State() == HashStarted(old(State()), title)
      ensures active == old(active) + 1 && current == title
    {
      active := active + 1;
      current := title;
    }

    method EndHash()
      modifies this
      ensures State() == HashEnded(old(State()))
    {
      if active > 0 {
        active := active - 1;
      }
    }

    method CountGame(platform: string)
      modifies this
      ensures State() == Counted(old(State()), platform)
    {
      processed := processed + 1;
      var e := if platform in perPlatform then perPlatform[platform] else PlatformProgress(0, 0);
      perPlatform := perPlatform[platform := e.(processed := e.processed + 1)];
      if active == 0 {
        current := "";
      }
    }

    method BeginEnriching()
      modifies this
      ensures State() == BeganEnriching(old(State()))
    {
      phase, current := Enriching, "";
    }

    method End(ok: bool)
      modifies this
      ensures State() == Ended(old(State()), ok)
    {
      running, current := false, "";
      phase := if ok then Done else Failed;
    }
  }

  // ---------------------------------------------------------------- the tasks

  /** How far one game has come: checked for a stored manifest, hashed if it has none
      of its version, counted. */
  datatype Work = Waiting | Checking | Stale | InHash | Hashed | Uncounted | Finished

  datatype Cell = Cell(game: Scanned, work: Work)

  datatype Task =
    | Walking
    | Synced(games: seq<Scanned>)
    | HashingGames(cells: seq<Cell>)
    | Pruning(doomed: set<string>)
    | Enrichment

  /** `requests` are manifests being computed on demand for a game the catalog had;
      `strays` manifests they stored for games since gone, after the prune looked;
      `pruned` says that the prune of the current catalog has looked. */
  datatype World = World(
    status: Status, tasks: map<nat, Task>, nextTask: nat, catalog: set<string>, manifests: map<string, string>,
    requests: multiset<(string, string)>, strays: set<string>, pruned: bool)

  function Fresh(catalog: set<string>, manifests: map<string, string>): World {
    World(Status(false, Idle, 0, 0, 0, "", map[]), map[], 0, catalog, manifests, multiset{}, {}, false)
  }

  /** What happens to one game on its way. */
  datatype Deed = Launch | Check | Start | Store(ok: bool) | Finish | Count

  /** What a rescan does next. */
  datatype Move =
    | Walked(found: Option<seq<Scanned>>)
    | Begin
    | OfGame(k: nat, deed: Deed)
    | PruneLook
    | PruneOne(id: string)
    | PruneDone
    | End

  datatype Event =
    | Spawn
    | OfTask(t: nat, move: Move)
    | RequestStart(id: string, version: string)
    | RequestStore(id: string, version: string)

  function IdsOf(games: seq<Scanned>): set<string> {
    set i | 0 <= i < |games| :: games[i].id
  }

  function Cells(games: seq<Scanned>): seq<Cell> {
    seq(|games|, i requires 0 <= i < |games| => Cell(games[i], Waiting))
  }

  /** What the progress counts games by. */
  datatype Mark = InHashing | Busy | IsFinished | OfPlatform(platform: string) | FinishedOf(platform: string)

  predicate Has(c: Cell, mark: Mark) {
    match mark
    case InHashing => c.work.InHash? || c.work.Hashed?
    case Busy => !c.work.Waiting? && !c.work.Finished?
    case IsFinished => c.work.Finished?
    case OfPlatform(p) => c.game.platform == p
    case FinishedOf(p) => c.game.platform == p && c.work.Finished?
  }

  function Tally(cells: seq<Cell>, mark: Mark): nat {
    if cells == [] then 0
    else Tally(cells[..|cells| - 1], mark) + if Has(cells[|cells| - 1], mark) then 1 else 0
  }

  /** Games are taken up in order, `cap` at a time. */
  predicate MayLaunch(cells: seq<Cell>, k: nat, cap: nat) {
    k < |cells| && cells[k].work.Waiting? && (forall j :: 0 <= j < k ==> !cells[j].work.Waiting?)
    && Tally(cells, Busy) < cap
  }

  function SetTask(w: World, t: nat, task: Task): World {
    w.(tasks := w.tasks[t := task])
  }

  function Moved(w: World, t: nat, cells: seq<Cell>, k: nat, work: Work): World
    requires k < |cells|
  {
    SetTask(w, t, HashingGames(cells[k := cells[k].(work := work)]))
  }

  predicate IsDoomed(w: World, id: string) {
    exists t :: t in w.tasks && w.tasks[t].Pruning? && id in w.tasks[t].doomed
  }

  function GameStep(w: World, t: nat, k: nat, deed: Deed, cells: seq<Cell>, cap: nat): World
    requires k < |cells|
  {
    var c := cells[k];
    match deed
    case Launch => if MayLaunch(cells, k, cap) then Moved(w, t, cells, k, Checking) else w
    case Check =>
      if !c.work.Checking? then w
      else
        var stored := c.game.id in w.manifests && w.manifests[c.game.id] == c.game.version;
        Moved(w, t, cells, k, if stored then Uncounted else Stale)
    case Start =>
      if !c.work.Stale? then w else Moved(w, t, cells, k, InHash).(status := HashStarted(w.status, c.game.title))
    case Store(ok) =>
      if !c.work.InHash? then w
      else if ok then Moved(w, t, cells, k, Hashed).(manifests := w.manifests[c.game.id := c.game.version])
      else Moved(w, t, cells, k, Hashed)
    case Finish =>
      if !c.work.Hashed? then w else Moved(w, t, cells, k, Uncounted).(status := HashEnded(w.status))
    case Count =>
      if !c.work.Uncounted? then w else Moved(w, t, cells, k, Finished).(status := Counted(w.status, c.game.platform))
  }

  function TaskStep(w: World, t: nat, task: Task, move: Move, cap: nat): World {
    match move
    case Walked(found) =>
      if !task.Walking? then w
      else if found.None? then w.(tasks := w.tasks - {t}, status := Ended(w.status, false))
      else SetTask(w, t, Synced(found.value)).(catalog := IdsOf(found.value), pruned := false)
    case Begin =>
      if !task.Synced? then w
      else SetTask(w, t, HashingGames(Cells(task.games))).(status := BeganHashing(w.status, task.games))
    case OfGame(k, deed) =>
      if task.HashingGames? && k < |task.cells| then GameStep(w, t, k, deed, task.cells, cap) else w
    case PruneLook =>
      if !task.HashingGames? || Tally(task.cells, IsFinished) != |task.cells| then w
      else SetTask(w, t, Pruning(w.manifests.Keys - w.catalog)).(strays := {}, pruned := true)
    case PruneOne(id) =>
      if !task.Pruning? || id !in task.doomed then w
      else SetTask(w, t, Pruning(task.doomed - {id})).(manifests := w.manifests - {id})
    case PruneDone =>
      if !task.Pruning? || task.doomed != {} then w
      else SetTask(w, t, Enrichment).(status := BeganEnriching(w.status))
    case End =>
      if !task.Enrichment? then w else w.(tasks := w.tasks - {t}, status := Ended(w.status, true))
  }

  function Step(w: World, e: Event, cap: nat): World {
    match e
    case Spawn =>
      if w.status.running then w
      else w.(status := JustStarted(), tasks := w.tasks[w.nextTask := Walking], nextTask := w.nextTask + 1)
    case OfTask(t, move) => if t in w.tasks then TaskStep(w, t, w.tasks[t], move, cap) else w
    case RequestStart(id, version) =>
      if id in w.catalog then w.(requests := w.requests + multiset{(id, version)}) else w
    case RequestStore(id, version) =>
      if (id, version) !in w.requests then w
      else
        var stray := id !in w.catalog && !IsDoomed(w, id);
        w.(requests := w.requests - multiset{(id, version)}, manifests := w.manifests[id := version],
           strays := if stray then w.strays + {id} else w.strays)
  }

  function Run(w0: World, events: seq<Event>, cap: nat): World {
    if events == [] then w0 else Step(Run(w0, events[..|events| - 1], cap), events[|events| - 1], cap)
  }

  // ---------------------------------------------------------------- counting

  lemma {:induction false} TallyUpdate(cells: seq<Cell>, k: nat, c: Cell, mark: Mark)
    requires k < |cells|
    ensures Tally(cells[k := c], mark)
            == Tally(cells, mark) - (if Has(cells[k], mark) then 1 else 0) + if Has(c, mark) then 1 else 0
  {
    var front, last := cells[..|cells| - 1], cells[|cells| - 1];
    if k < |front| {
      TallyUpdate(front, k, c, mark);
      assert cells[k := c][..|front|] == front[k := c];
    } else {
      assert cells[k := c][..|front|] == front;
    }
  }

  lemma {:induction false} TallyOfWeaker(cells: seq<Cell>, mark: Mark, weaker: Mark)
    requires forall k :: 0 <= k < |cells| && Has(cells[k], mark) ==> Has(cells[k], weaker)
    ensures Tally(cells, mark) <= Tally(cells, weaker) <= |cells|
  {
    if cells != [] {
      TallyOfWeaker(cells[..|cells| - 1], mark, weaker);
    }
  }

  lemma {:induction false} TallyFinds(cells: seq<Cell>, k: nat, mark: Mark)
    requires k < |cells| && Has(cells[k], mark)
    ensures Tally(cells, mark) > 0
  {
    if k < |cells| - 1 {
      TallyFinds(cells[..|cells| - 1], k, mark);
    }
  }

  lemma {:induction false} TallyOfAll(cells: seq<Cell>, mark: Mark)
    requires Tally(cells, mark) == |cells|
    ensures forall k :: 0 <= k < |cells| ==> Has(cells[k], mark)
  {
    if cells != [] {
      var front := cells[..|cells| - 1];
      TallyOfWeaker(front, mark, mark);
      TallyOfAll(front, mark);
      assert cells == front + [cells[|cells| - 1]];
    }
  }

  // --------------------------------------------------------------- invariant

  ghost predicate PlatformOk(per: Platforms, cells: seq<Cell>, p: string) {
    (p in per <==> Tally(cells, OfPlatform(p)) > 0)
    && Entry(per, p).total == Tally(cells, OfPlatform(p)) && Entry(per, p).processed == Tally(cells, FinishedOf(p))
  }

  function ProcessedBy(per: Platforms): map<string, nat> {
    map p | p in per :: per[p].processed
  }

  /** The status says what the games' progress is, to the one. */
  ghost predicate Exact(s: Status, cells: seq<Cell>, cap: nat) {
    s.running && s.phase.Hashing? && s.total == |cells|
    && s.active == Tally(cells, InHashing) && Tally(cells, Busy) <= cap
    && s.processed == Tally(cells, IsFinished) && s.processed == Sum(ProcessedBy(s.perPlatform))
    && (s.processed == s.total ==> s.current == "")
    && forall p {:trigger PlatformOk(s.perPlatform, cells, p)} :: PlatformOk(s.perPlatform, cells, p)
  }

  /** Everything found was counted, on every platform, and nothing is left running. */
  ghost predicate Complete(s: Status) {
    s.processed == s.total && s.active == 0 && s.current == "" && s.processed == Sum(ProcessedBy(s.perPlatform))
    && forall p :: p in s.perPlatform ==> s.perPlatform[p].processed == s.perPlatform[p].total
  }

  ghost predicate TaskOk(w: World, task: Task, cap: nat) {
    match task
    case Walking => w.status == JustStarted()
    case Synced(games) => w.status == JustStarted() && w.catalog == IdsOf(games) && !w.pruned
    case HashingGames(cells) =>
      Exact(w.status, cells, cap) && !w.pruned && forall k :: 0 <= k < |cells| ==> cells[k].game.id in w.catalog
    case Pruning(doomed) => w.status.running && w.status.phase.Hashing? && Complete(w.status) && w.pruned
    case Enrichment => w.status.running && w.status.phase.Enriching? && Complete(w.status) && w.pruned
  }

  /** Once the prune has looked, the manifests of absent games are those it has yet to
      delete and those stored since. */
  ghost predicate ManifestOk(w: World, id: string) {
    w.pruned ==>
      && (id in w.manifests && id !in w.catalog <==> IsDoomed(w, id) || id in w.strays)
      && !(IsDoomed(w, id) && id in w.strays)
  }

  ghost predicate OneTask(w: World) {
    (forall t :: t in w.tasks ==> t < w.nextTask) && (forall t, t2 :: t in w.tasks && t2 in w.tasks ==> t == t2)
    && (w.status.running <==> w.tasks.Keys != {})
  }

  ghost predicate Inv(w: World, cap: nat) {
    OneTask(w) && (w.status.phase.Done? || w.status.phase.Enriching? ==> Complete(w.status))
    && (forall t {:trigger TaskOk(w, w.tasks[t], cap)} :: t in w.tasks ==> TaskOk(w, w.tasks[t], cap))
    && forall id {:trigger ManifestOk(w, id)} :: ManifestOk(w, id)
  }

  // ------------------------------------------------------------ every step keeps it

  lemma MovingTally(cells: seq<Cell>, k: nat, work: Work)
    requires k < |cells|
    ensures var c, moved := cells[k], cells[k := cells[k].(work := work)];
            && Tally(moved, InHashing) == Tally(cells, InHashing)
               - (if Has(c, InHashing) then 1 else 0) + (if Has(c.(work := work), InHashing) then 1 else 0)
            && Tally(moved, Busy) == Tally(cells, Busy)
               - (if Has(c, Busy) then 1 else 0) + (if Has(c.(work := work), Busy) then 1 else 0)
            && Tally(moved, IsFinished) == Tally(cells, IsFinished)
               - (if Has(c, IsFinished) then 1 else 0) + (if Has(c.(work := work), IsFinished) then 1 else 0)
            && Tally(moved, IsFinished) <= |cells|
  {
    TallyUpdate(cells, k, cells[k].(work := work), InHashing);
    TallyUpdate(cells, k, cells[k].(work := work), Busy);
    TallyUpdate(cells, k, cells[k].(work := work), IsFinished);
    TallyOfWeaker(cells[k := cells[k].(work := work)], IsFinished, IsFinished);
  }

  lemma MovingPlatform(per: Platforms, cells: seq<Cell>, k: nat, work: Work, p: string)
    requires k < |cells| && !cells[k].work.Finished? && !work.Finished? && PlatformOk(per, cells, p)
    ensures PlatformOk(per, cells[k := cells[k].(work := work)], p)
  {
    TallyUpdate(cells, k, cells[k].(work := work), OfPlatform(p));
    TallyUpdate(cells, k, cells[k].(work := work), FinishedOf(p));
  }

  lemma CountingPlatform(s: Status, cells: seq<Cell>, k: nat, p: string)
    requires k < |cells| && !cells[k].work.Finished? && PlatformOk(s.perPlatform, cells, p)
    ensures PlatformOk(Counted(s, cells[k].game.platform).perPlatform, cells[k := cells[k].(work := Finished)], p)
  {
    TallyUpdate(cells, k, cells[k].(work := Finished), OfPlatform(p));
    TallyUpdate(cells, k, cells[k].(work := Finished), FinishedOf(p));
    if p == cells[k].game.platform {
      TallyFinds(cells, k, OfPlatform(p));
    }
  }

  /** One game further: neither counted nor started or ended hashing. */
  lemma QuietMoveIsExact(s: Status, s2: Status, cells: seq<Cell>, k: nat, work: Work, cap: nat)
    requires Exact(s, cells, cap) && k < |cells| && !cells[k].work.Finished? && !work.Finished?
    requires s2 == s.(active := s2.active, current := s2.current)
    requires s2.active == Tally(cells[k := cells[k].(work := work)], InHashing)
    requires Tally(cells[k := cells[k].(work := work)], Busy) <= cap
    ensures Exact(s2, cells[k := cells[k].(work := work)], cap)
  {
    var moved := cells[k := cells[k].(work := work)];
    MovingTally(cells, k, work);
    forall p ensures PlatformOk(s.perPlatform, moved, p) {
      assert PlatformOk(s.perPlatform, cells, p);
      MovingPlatform(s.perPlatform, cells, k, work, p);
    }
    if s2.processed == s2.total {
      TallyOfAll(cells, IsFinished);
      assert false;
    }
  }

  lemma CountIsExact(s: Status, cells: seq<Cell>, k: nat, cap: nat)
    requires Exact(s, cells, cap) && k < |cells| && cells[k].work.Uncounted?
    ensures Exact(Counted(s, cells[k].game.platform), cells[k := cells[k].(work := Finished)], cap)
  {
    var p, moved := cells[k].game.platform, cells[k := cells[k].(work := Finished)];
    var s2 := Counted(s, p);
    MovingTally(cells, k, Finished);
    forall q ensures PlatformOk(s2.perPlatform, moved, q) {
      assert PlatformOk(s.perPlatform, cells, q);
      CountingPlatform(s, cells, k, q);
    }
    assert PlatformOk(s.perPlatform, cells, p);
    TallyFinds(cells, k, OfPlatform(p));
    SumUpdate(ProcessedBy(s.perPlatform), p, Entry(s.perPlatform, p).processed + 1);
    assert ProcessedBy(s2.perPlatform) == ProcessedBy(s.perPlatform)[p := Entry(s.perPlatform, p).processed + 1];
    if s2.processed == s2.total {
      NoneInHashing(moved);
    }
  }

  lemma NoneInHashing(cells: seq<Cell>)
    requires Tally(cells, IsFinished) == |cells|
    ensures Tally(cells, InHashing) == 0
  {
    TallyOfAll(cells, IsFinished);
    FinishedAreNotInHashing(cells);
  }

  lemma {:induction false} FinishedAreNotInHashing(cells: seq<Cell>)
    requires forall k :: 0 <= k < |cells| ==> cells[k].work.Finished?
    ensures Tally(cells, InHashing) == 0
  {
    if cells != [] {
      FinishedAreNotInHashing(cells[..|cells| - 1]);
    }
  }

  lemma {:induction false} FreshCells(games: seq<Scanned>)
    ensures var cells := Cells(games);
            Tally(cells, InHashing) == 0 && Tally(cells, Busy) == 0 && Tally(cells, IsFinished) == 0
    ensures Sum(ProcessedBy(Totals(games))) == 0
  {
    if games != [] {
      var front, p := games[..|games| - 1], games[|games| - 1].platform;
      FreshCells(front);
      assert Cells(games)[..|front|] == Cells(front);
      var per := Totals(front);
      FreshPlatform(front, p);
      SumUpdate(ProcessedBy(per), p, 0);
      assert ProcessedBy(Totals(games)) == ProcessedBy(per)[p := 0];
    }
  }

  lemma {:induction false} FreshPlatform(games: seq<Scanned>, p: string)
    ensures PlatformOk(Totals(games), Cells(games), p) && Entry(Totals(games), p).processed == 0
  {
    if games != [] {
      FreshPlatform(games[..|games| - 1], p);
      assert Cells(games)[..|games| - 1] == Cells(games[..|games| - 1]);
    }
  }

  lemma BeginIsExact(s: Status, games: seq<Scanned>, cap: nat)
    requires s.running
    ensures Exact(BeganHashing(s, games), Cells(games), cap)
  {
    FreshCells(games);
    forall p ensures PlatformOk(Totals(games), Cells(games), p) {
      FreshPlatform(games, p);
    }
  }

  lemma FinishedIsComplete(s: Status, cells: seq<Cell>, cap: nat)
    requires Exact(s, cells, cap) && Tally(cells, IsFinished) == |cells|
    ensures Complete(s)
  {
    NoneInHashing(cells);
    TallyOfAll(cells, IsFinished);
    forall p | p in s.perPlatform ensures s.perPlatform[p].processed == s.perPlatform[p].total {
      assert PlatformOk(s.perPlatform, cells, p);
      TallyOfWeaker(cells, OfPlatform(p), FinishedOf(p));
      TallyOfWeaker(cells, FinishedOf(p), OfPlatform(p));
    }
  }

  lemma GameStepIsExact(w: World, t: nat, k: nat, deed: Deed, cells: seq<Cell>, cap: nat)
    requires Exact(w.status, cells, cap) && k < |cells|
    ensures var w2 := GameStep(w, t, k, deed, cells, cap);
            w2 == w || (t in w2.tasks && w2.tasks[t].HashingGames? && Exact(w2.status, w2.tasks[t].cells, cap))
  {
    var c, w2 := cells[k], GameStep(w, t, k, deed, cells, cap);
    if w2 != w && w2.tasks[t].HashingGames? {
      var work := w2.tasks[t].cells[k].work;
      MovingTally(cells, k, work);
      if c.work.Uncounted? {
        CountIsExact(w.status, cells, k, cap);
      } else {
        QuietMoveIsExact(w.status, w2.status, cells, k, work, cap);
      }
    }
  }

  /** Whoever ends hashing was counted as hashing, so the count never stops short at zero. */
  lemma ActiveNeverClips(s: Status, cells: seq<Cell>, k: nat, cap: nat)
    requires Exact(s, cells, cap) && k < |cells| && cells[k].work.Hashed?
    ensures s.active > 0 && HashEnded(s).active + 1 == s.active
  {
    TallyFinds(cells, k, InHashing);
  }

  lemma GameStepFrame(w: World, t: nat, k: nat, deed: Deed, cells: seq<Cell>, cap: nat)
    requires t in w.tasks && k < |cells|
    ensures var w2 := GameStep(w, t, k, deed, cells, cap);
            && w2.tasks.Keys == w.tasks.Keys && w2.nextTask == w.nextTask
            && w2.catalog == w.catalog && w2.pruned == w.pruned
            && w2.status.running == w.status.running && w2.status.phase == w.status.phase
  {
  }

  lemma GameStepShape(w: World, t: nat, k: nat, deed: Deed, cells: seq<Cell>, cap: nat)
    requires t in w.tasks && w.tasks[t] == HashingGames(cells) && k < |cells|
    ensures var w2 := GameStep(w, t, k, deed, cells, cap);
            && t in w2.tasks && w2.tasks[t].HashingGames? && |w2.tasks[t].cells| == |cells|
            && forall j :: 0 <= j < |cells| ==> w2.tasks[t].cells[j].game == cells[j].game
  {
    var w2 := GameStep(w, t, k, deed, cells, cap);
    if w2 != w {
      assert exists work :: w2.tasks[t] == HashingGames(cells[k := cells[k].(work := work)]);
    }
  }

  lemma GameStepKeepsInv(w: World, t: nat, k: nat, deed: Deed, cap: nat)
    requires Inv(w, cap) && t in w.tasks && w.tasks[t].HashingGames? && k < |w.tasks[t].cells|
    ensures Inv(GameStep(w, t, k, deed, w.tasks[t].cells, cap), cap)
  {
    var cells := w.tasks[t].cells;
    var w2 := GameStep(w, t, k, deed, cells, cap);
    assert TaskOk(w, w.tasks[t], cap);
    GameStepFrame(w, t, k, deed, cells, cap);
    GameStepShape(w, t, k, deed, cells, cap);
    GameStepIsExact(w, t, k, deed, cells, cap);
    if w2 != w {
      forall t2 | t2 in w2.tasks ensures TaskOk(w2, w2.tasks[t2], cap) {
        assert t2 == t;
      }
    }
  }

  lemma SoleTask(w: World, t: nat, id: string)
    requires OneTask(w) && t in w.tasks
    ensures IsDoomed(w, id) <==> w.tasks[t].Pruning? && id in w.tasks[t].doomed
  {
  }

  lemma StartKeepsInv(w: World, t: nat, move: Move, cap: nat)
    requires Inv(w, cap) && t in w.tasks && (move.Walked? || move.Begin?)
    ensures Inv(TaskStep(w, t, w.tasks[t], move, cap), cap)
  {
    var w2, task := TaskStep(w, t, w.tasks[t], move, cap), w.tasks[t];
    assert TaskOk(w, task, cap);
    if move.Begin? && task.Synced? {
      BeginIsExact(w.status, task.games, cap);
    }
    forall id ensures ManifestOk(w2, id) {
      assert ManifestOk(w, id);
      SoleTask(w, t, id);
    }
  }

  lemma PruneLookKeepsInv(w: World, t: nat, cap: nat)
    requires Inv(w, cap) && t in w.tasks
    ensures Inv(TaskStep(w, t, w.tasks[t], PruneLook, cap), cap)
  {
    var w2, task := TaskStep(w, t, w.tasks[t], PruneLook, cap), w.tasks[t];
    assert TaskOk(w, task, cap);
    if w2 != w {
      FinishedIsComplete(w.status, task.cells, cap);
      forall id ensures ManifestOk(w2, id) {
        SoleTask(w2, t, id);
      }
    }
  }

  lemma PruneKeepsInv(w: World, t: nat, move: Move, cap: nat)
    requires Inv(w, cap) && t in w.tasks && (move.PruneOne? || move.PruneDone? || move.End?)
    ensures Inv(TaskStep(w, t, w.tasks[t], move, cap), cap)
  {
    var w2, task := TaskStep(w, t, w.tasks[t], move, cap), w.tasks[t];
    assert TaskOk(w, task, cap);
    forall id ensures ManifestOk(w2, id) {
      assert ManifestOk(w, id);
      SoleTask(w, t, id);
      if t in w2.tasks {
        SoleTask(w2, t, id);
      }
    }
  }

  lemma SpawnKeepsInv(w: World, cap: nat)
    requires Inv(w, cap)
    ensures Inv(Step(w, Spawn, cap), cap)
  {
    var w2 := Step(w, Spawn, cap);
    if w2 != w {
      assert w.nextTask in w2.tasks.Keys && w.tasks == map[];
      assert TaskOk(w2, w2.tasks[w.nextTask], cap);
      forall id ensures ManifestOk(w2, id) {
        assert ManifestOk(w, id);
        SoleTask(w2, w.nextTask, id);
      }
    }
  }

  lemma RequestKeepsInv(w: World, e: Event, cap: nat)
    requires Inv(w, cap) && (e.RequestStart? || e.RequestStore?)
    ensures Inv(Step(w, e, cap), cap)
  {
    var w2 := Step(w, e, cap);
    forall id ensures ManifestOk(w2, id) {
      assert ManifestOk(w, id);
      assert IsDoomed(w2, id) <==> IsDoomed(w, id);
    }
    forall t | t in w2.tasks ensures TaskOk(w2, w2.tasks[t], cap) {
      assert TaskOk(w, w.tasks[t], cap);
    }
  }

  lemma StepKeepsInv(w: World, e: Event, cap: nat)
    requires Inv(w, cap)
    ensures Inv(Step(w, e, cap), cap)
  {
    if e.Spawn? {
      SpawnKeepsInv(w, cap);
    } else if !e.OfTask? {
      RequestKeepsInv(w, e, cap);
    } else if e.t in w.tasks {
      var move, task := e.move, w.tasks[e.t];
      if move.Walked? || move.Begin? {
        StartKeepsInv(w, e.t, move, cap);
      } else if move.OfGame? {
        if task.HashingGames? && move.k < |task.cells| {
          GameStepKeepsInv(w, e.t, move.k, move.deed, cap);
        }
      } else if move.PruneLook? {
        PruneLookKeepsInv(w, e.t, cap);
      } else {
        PruneKeepsInv(w, e.t, move, cap);
      }
    }
  }

  lemma {:induction false} RunKeepsInv(
    catalog: set<string>, manifests: map<string, string>, events: seq<Event>, cap: nat)
    ensures Inv(Run(Fresh(catalog, manifests), events, cap), cap)
  {
    if events != [] {
      RunKeepsInv(catalog, manifests, events[..|events| - 1], cap);
      StepKeepsInv(Run(Fresh(catalog, manifests), events[..|events| - 1], cap), events[|events| - 1], cap);
    }
  }

  // ------------------------------------------------------------- the promises

  /** However tasks, games and requests interleave, one rescan runs at a time: spawning
      is refused exactly while there is one. */
  lemma AtMostOneRescan(catalog: set<string>, manifests: map<string, string>, events: seq<Event>, cap: nat)
    ensures var w := Run(Fresh(catalog, manifests), events, cap);
            && (forall t, t2 :: t in w.tasks && t2 in w.tasks ==> t == t2)
            && (Step(w, Spawn, cap) == w <==> w.tasks.Keys != {})
  {
    RunKeepsInv(catalog, manifests, events, cap);
    var w := Run(Fresh(catalog, manifests), events, cap);
    assert !w.status.running ==> Step(w, Spawn, cap).nextTask == w.nextTask + 1;
  }

  /** While games are hashed, `active` is the number between start and end of hashing,
      never more than the cap; `processed` is the number finished, the sum over the
      platforms, and never more than the total. */
  lemma ProgressIsExact(catalog: set<string>, manifests: map<string, string>, events: seq<Event>, cap: nat, t: nat)
    requires var w := Run(Fresh(catalog, manifests), events, cap); t in w.tasks && w.tasks[t].HashingGames?
    ensures var w := Run(Fresh(catalog, manifests), events, cap);
            var s, cells := w.status, w.tasks[t].cells;
            && s.active == Tally(cells, InHashing) <= cap
            && s.processed == Tally(cells, IsFinished) == Sum(ProcessedBy(s.perPlatform))
            && s.processed <= s.total == |cells|
            && forall p :: p in s.perPlatform
                 ==> && s.perPlatform[p].total == Tally(cells, OfPlatform(p))
                     && s.perPlatform[p].processed == Tally(cells, FinishedOf(p)) <= s.perPlatform[p].total
  {
    RunKeepsInv(catalog, manifests, events, cap);
    var w := Run(Fresh(catalog, manifests), events, cap);
    var s, cells := w.status, w.tasks[t].cells;
    assert TaskOk(w, w.tasks[t], cap);
    TallyOfWeaker(cells, InHashing, Busy);
    TallyOfWeaker(cells, IsFinished, IsFinished);
    forall p | p in s.perPlatform
      ensures s.perPlatform[p].total == Tally(cells, OfPlatform(p))
      ensures s.perPlatform[p].processed == Tally(cells, FinishedOf(p)) <= s.perPlatform[p].total
    {
      assert PlatformOk(s.perPlatform, cells, p);
      TallyOfWeaker(cells, FinishedOf(p), OfPlatform(p));
    }
  }

  /** Every end of hashing takes exactly one off `active`. */
  lemma EndOfHashingTakesOne(
    catalog: set<string>, manifests: map<string, string>, events: seq<Event>, cap: nat, t: nat, k: nat)
    requires var w := Run(Fresh(catalog, manifests), events, cap);
             t in w.tasks && w.tasks[t].HashingGames? && k < |w.tasks[t].cells| && w.tasks[t].cells[k].work.Hashed?
    ensures var w := Run(Fresh(catalog, manifests), events, cap);
            Step(w, OfTask(t, OfGame(k, Finish)), cap).status.active + 1 == w.status.active
  {
    RunKeepsInv(catalog, manifests, events, cap);
    var w := Run(Fresh(catalog, manifests), events, cap);
    assert TaskOk(w, w.tasks[t], cap);
    ActiveNeverClips(w.status, w.tasks[t].cells, k, cap);
  }

  /** From the end of hashing until the next rescan starts, every game is counted on
      every platform and nothing shows as being hashed. */
  lemma EndsComplete(catalog: set<string>, manifests: map<string, string>, events: seq<Event>, cap: nat)
    ensures var w := Run(Fresh(catalog, manifests), events, cap);
            w.status.phase.Enriching? || w.status.phase.Done? ==> Complete(w.status)
  {
    RunKeepsInv(catalog, manifests, events, cap);
  }

  // ------------------------------------------------ manifests of absent games

  ghost predicate PruneOver(w: World) {
    forall t :: t in w.tasks ==> !w.tasks[t].Pruning?
  }

  lemma StraysAreWhatIsLeft(w: World, cap: nat, id: string)
    requires Inv(w, cap) && w.pruned && PruneOver(w)
    ensures id in w.manifests && id !in w.catalog <==> id in w.strays
  {
    assert ManifestOk(w, id);
  }

  /** Until a rescan comes back from its walk, the catalog stays as it is. */
  predicate NoWalk(more: seq<Event>) {
    forall e :: e in more ==> !(e.OfTask? && e.move.Walked?)
  }

  /** From the look of the prune on, requests for absent games only go, and only they stray. */
  ghost predicate Draining(w0: World, w: World) {
    w.pruned && w.catalog == w0.catalog
    && (forall x :: x in w.requests && x.0 !in w.catalog ==> x in w0.requests)
    && forall id :: id in w.strays ==> id in w0.strays || exists v :: (id, v) in w0.requests
  }

  lemma TaskDrains(w: World, t: nat, move: Move, cap: nat)
    requires Inv(w, cap) && w.pruned && t in w.tasks && !move.Walked?
    ensures var w2 := TaskStep(w, t, w.tasks[t], move, cap);
            w2.pruned && w2.catalog == w.catalog && w2.requests == w.requests && w2.strays == w.strays
  {
    assert TaskOk(w, w.tasks[t], cap);
  }

  lemma RequestDrains(w0: World, w: World, e: Event, cap: nat)
    requires Draining(w0, w) && (e.RequestStart? || e.RequestStore?)
    ensures Draining(w0, Step(w, e, cap))
  {
    if e.RequestStore? && (e.id, e.version) in w.requests && e.id !in w.catalog {
      assert (e.id, e.version) in w0.requests;
    }
  }

  lemma StepDrains(w0: World, w: World, e: Event, cap: nat)
    requires Inv(w, cap) && Draining(w0, w) && !(e.OfTask? && e.move.Walked?)
    ensures Draining(w0, Step(w, e, cap))
  {
    if e.RequestStart? || e.RequestStore? {
      RequestDrains(w0, w, e, cap);
    } else if e.OfTask? && e.t in w.tasks {
      TaskDrains(w, e.t, e.move, cap);
    }
  }

  lemma {:induction false} ContinuationDrains(w0: World, more: seq<Event>, cap: nat)
    requires Inv(w0, cap) && w0.pruned && NoWalk(more)
    ensures Inv(Run(w0, more, cap), cap) && Draining(w0, Run(w0, more, cap))
  {
    if more != [] {
      var front, last := more[..|more| - 1], more[|more| - 1];
      assert last in more;
      ContinuationDrains(w0, front, cap);
      StepDrains(w0, Run(w0, front, cap), last, cap);
      StepKeepsInv(Run(w0, front, cap), last, cap);
    }
  }

  lemma {:induction false} RunJoins(w0: World, a: seq<Event>, b: seq<Event>, cap: nat)
    ensures Run(w0, a + b, cap) == Run(Run(w0, a, cap), b, cap)
    decreases |b|
  {
    if b == [] {
      assert a + b == a;
    } else {
      assert (a + b)[..|a + b| - 1] == a + b[..|b| - 1];
      RunJoins(w0, a, b[..|b| - 1], cap);
    }
  }

  lemma RunOfOne(w: World, e: Event, cap: nat)
    ensures Run(w, [e], cap) == Step(w, e, cap)
  {
    assert [e][..0] == [];
  }

  lemma PruneDoneEnds(w: World, t: nat, cap: nat)
    requires t in w.tasks && w.tasks[t] == Pruning({}) && OneTask(w)
    ensures var w2 := Step(w, OfTask(t, PruneDone), cap);
            PruneOver(w2) && w2.requests == w.requests && w2.catalog == w.catalog
  {
  }

  lemma PruneOneGoes(w: World, t: nat, id: string, cap: nat)
    requires t in w.tasks && w.tasks[t].Pruning? && id in w.tasks[t].doomed && OneTask(w)
    ensures var w2 := Step(w, OfTask(t, PruneOne(id)), cap);
            && t in w2.tasks && w2.tasks[t] == Pruning(w.tasks[t].doomed - {id}) && OneTask(w2)
            && w2.requests == w.requests && w2.catalog == w.catalog
  {
  }

  /** The prune can run to its end. */
  lemma {:induction false} PruneCanFinish(w: World, t: nat, doomed: set<string>, cap: nat) returns (more: seq<Event>)
    requires t in w.tasks && w.tasks[t] == Pruning(doomed) && OneTask(w)
    ensures NoWalk(more) && PruneOver(Run(w, more, cap))
    ensures Run(w, more, cap).requests == w.requests && Run(w, more, cap).catalog == w.catalog
    decreases |doomed|
  {
    if doomed == {} {
      PruneDoneEnds(w, t, cap);
      RunOfOne(w, OfTask(t, PruneDone), cap);
      more := [OfTask(t, PruneDone)];
    } else {
      var id :| id in doomed;
      var e := OfTask(t, PruneOne(id));
      PruneOneGoes(w, t, id, cap);
      var rest := PruneCanFinish(Step(w, e, cap), t, doomed - {id}, cap);
      RunOfOne(w, e, cap);
      RunJoins(w, [e], rest, cap);
      more := [e] + rest;
    }
  }

  /** A task whose games are all counted, so that its look at the manifests takes effect. */
  ghost predicate ReadyToPrune(w: World, t: nat) {
    t in w.tasks && w.tasks[t].HashingGames? && Tally(w.tasks[t].cells, IsFinished) == |w.tasks[t].cells|
  }

  /** "No manifest remains for an absent game" holds of a game exactly when no request
      for it is in flight as the prune looks: from there, until the next walk, some course
      of events leaves one after the prune if and only if there is such a request. */
  lemma LeftoverExactlyWhenRequested(
    catalog: set<string>, manifests: map<string, string>, events: seq<Event>, cap: nat, t: nat, id: string)
    requires var w := Run(Fresh(catalog, manifests), events, cap); ReadyToPrune(w, t) && id !in w.catalog
    ensures var w1 := Step(Run(Fresh(catalog, manifests), events, cap), OfTask(t, PruneLook), cap);
            (exists more :: NoWalk(more) && PruneOver(Run(w1, more, cap)) && id in Run(w1, more, cap).manifests)
            <==> exists v :: (id, v) in w1.requests
  {
    RunKeepsInv(catalog, manifests, events, cap);
    var w := Run(Fresh(catalog, manifests), events, cap);
    StepKeepsInv(w, OfTask(t, PruneLook), cap);
    var w1 := Step(w, OfTask(t, PruneLook), cap);
    if more :| NoWalk(more) && PruneOver(Run(w1, more, cap)) && id in Run(w1, more, cap).manifests {
      LeftoverWasRequested(w1, more, cap, id);
    }
    if v :| (id, v) in w1.requests {
      var more := RequestCanStray(w1, t, cap, id, v);
    }
  }

  lemma LeftoverWasRequested(w1: World, more: seq<Event>, cap: nat, id: string)
    requires Inv(w1, cap) && w1.pruned && w1.strays == {} && id !in w1.catalog
    requires NoWalk(more) && PruneOver(Run(w1, more, cap)) && id in Run(w1, more, cap).manifests
    ensures exists v :: (id, v) in w1.requests
  {
    ContinuationDrains(w1, more, cap);
    StraysAreWhatIsLeft(Run(w1, more, cap), cap, id);
  }

  lemma RequestCanStray(w1: World, t: nat, cap: nat, id: string, v: string) returns (more: seq<Event>)
    requires OneTask(w1) && t in w1.tasks && w1.tasks[t].Pruning? && (id, v) in w1.requests && id !in w1.catalog
    ensures NoWalk(more) && PruneOver(Run(w1, more, cap)) && id in Run(w1, more, cap).manifests
  {
    var e := RequestStore(id, v);
    var prune := PruneCanFinish(w1, t, w1.tasks[t].doomed, cap);
    more := prune + [e];
    RunExtends(w1, prune, e, cap);
  }

  /** So with no request for an absent game in flight at the look, none is ever left. */
  lemma NothingLeftWithoutRequests(
    catalog: set<string>, manifests: map<string, string>, events: seq<Event>, cap: nat, t: nat, more: seq<Event>)
    requires var w := Run(Fresh(catalog, manifests), events, cap);
             ReadyToPrune(w, t) && forall x :: x in w.requests ==> x.0 in w.catalog
    requires var w1 := Step(Run(Fresh(catalog, manifests), events, cap), OfTask(t, PruneLook), cap);
             NoWalk(more) && PruneOver(Run(w1, more, cap))
    ensures var w1 := Step(Run(Fresh(catalog, manifests), events, cap), OfTask(t, PruneLook), cap);
            Run(w1, more, cap).manifests.Keys <= Run(w1, more, cap).catalog
  {
    RunKeepsInv(catalog, manifests, events, cap);
    StepKeepsInv(Run(Fresh(catalog, manifests), events, cap), OfTask(t, PruneLook), cap);
    var w1 := Step(Run(Fresh(catalog, manifests), events, cap), OfTask(t, PruneLook), cap);
    ContinuationDrains(w1, more, cap);
    forall id | id in Run(w1, more, cap).manifests ensures id in w1.catalog {
      if id !in w1.catalog {
        LeftoverWasRequested(w1, more, cap, id);
      }
    }
  }

  lemma RunExtends(w0: World, events: seq<Event>, e: Event, cap: nat)
    ensures Run(w0, events + [e], cap) == Step(Run(w0, events, cap), e, cap)
  {
    assert (events + [e])[..|events|] == events;
  }

  /** A rescan that has found the library empty, with a request of before still at work. */
  ghost predicate Overtaken(w: World, id: string, version: string, task: Task) {
    w.tasks.Keys == {0} && w.tasks[0] == task && (id, version) in w.requests && w.status.running
  }

  lemma RescanStarts(id: string, version: string, cap: nat) returns (events: seq<Event>)
    ensures Overtaken(Run(Fresh({id}, map[]), events, cap), id, version, Walking)
  {
    var w0 := Fresh({id}, map[]);
    RunExtends(w0, [], RequestStart(id, version), cap);
    events := [] + [RequestStart(id, version)];
    assert (id, version) in Run(w0, events, cap).requests;
    RunExtends(w0, events, Spawn, cap);
    events := events + [Spawn];
  }

  lemma RescanFindsNothing(id: string, version: string, before: seq<Event>, cap: nat) returns (events: seq<Event>)
    requires Overtaken(Run(Fresh({id}, map[]), before, cap), id, version, Walking)
    ensures Overtaken(Run(Fresh({id}, map[]), events, cap), id, version, HashingGames([]))
    ensures Run(Fresh({id}, map[]), events, cap).catalog == {}
  {
    var w0 := Fresh({id}, map[]);
    RunExtends(w0, before, OfTask(0, Walked(Some([]))), cap);
    events := before + [OfTask(0, Walked(Some([])))];
    assert Overtaken(Run(w0, events, cap), id, version, Synced([])) && Cells([]) == [];
    RunExtends(w0, events, OfTask(0, Begin), cap);
    events := events + [OfTask(0, Begin)];
  }

  /** And that happens: a slow request outlives its game. */
  lemma AStrayCanRemain(id: string, version: string, cap: nat)
    ensures exists events ::
              var w := Run(Fresh({id}, map[]), events, cap); PruneOver(w) && id in w.manifests && id !in w.catalog
  {
    var w0 := Fresh({id}, map[]);
    var events := RescanStarts(id, version, cap);
    events := RescanFindsNothing(id, version, events, cap);
    RunKeepsInv({id}, map[], events, cap);
    RunExtends(w0, events, OfTask(0, PruneLook), cap);
    StepKeepsInv(Run(w0, events, cap), OfTask(0, PruneLook), cap);
    events := events + [OfTask(0, PruneLook)];
    var more := RequestCanStray(Run(w0, events, cap), 0, cap, id, version);
    ContinuationDrains(Run(w0, events, cap), more, cap);
    RunJoins(w0, events, more, cap);
  }
}
