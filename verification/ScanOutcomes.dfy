/** What a rescan leaves behind: a game is hashed exactly if the manifest of its version
    was missing when it was looked for, and at the end every scanned game has one. */
module ScanOutcomes {
  import opened ScanProgress

  /** A run with the world after each number of events. */
  datatype Course = Course(events: seq<Event>, worlds: seq<World>)

  type History = h: Course | |h.worlds| == |h.events| + 1 ghost witness Course([], [Fresh({}, map[])])

  ghost predicate StepsTo(h: History, m: nat, cap: nat)
    requires m < |h.events|
  {
    h.worlds[m + 1] == Step(h.worlds[m], h.events[m], cap)
  }

  ghost predicate IsRun(h: History, catalog: set<string>, manifests: map<string, string>, cap: nat) {
    h.worlds[0] == Fresh(catalog, manifests)
    && forall m {:trigger StepsTo(h, m, cap)} :: 0 <= m < |h.events| ==> StepsTo(h, m, cap)
  }

  lemma {:induction false} WorldAt(
    h: History, catalog: set<string>, manifests: map<string, string>, cap: nat, m: nat)
    requires IsRun(h, catalog, manifests, cap) && m <= |h.events|
    ensures h.worlds[m] == Run(Fresh(catalog, manifests), h.events[..m], cap) && Inv(h.worlds[m], cap)
  {
    if m > 0 {
      WorldAt(h, catalog, manifests, cap, m - 1);
      assert StepsTo(h, m - 1, cap) && h.events[..m][..m - 1] == h.events[..m - 1];
      StepKeepsInv(h.worlds[m - 1], h.events[m - 1], cap);
    }
  }

  lemma OneEventMore(
    before: History, catalog: set<string>, manifests: map<string, string>, e: Event, w: World, cap: nat)
    returns (h: History)
    requires IsRun(before, catalog, manifests, cap) && w == Step(before.worlds[|before.events|], e, cap)
    ensures h == Course(before.events + [e], before.worlds + [w]) && IsRun(h, catalog, manifests, cap)
  {
    h := Course(before.events + [e], before.worlds + [w]);
    forall m | 0 <= m < |h.events| ensures StepsTo(h, m, cap) {
      if m < |before.events| {
        assert StepsTo(before, m, cap);
      }
    }
  }

  /** Every run has a history, and it ends as the run does. */
  lemma {:induction false} HistoryOf(
    catalog: set<string>, manifests: map<string, string>, events: seq<Event>, cap: nat) returns (h: History)
    ensures IsRun(h, catalog, manifests, cap) && h.events == events
    ensures h.worlds[|events|] == Run(Fresh(catalog, manifests), events, cap)
  {
    if events == [] {
      return Course([], [Fresh(catalog, manifests)]);
    }
    h := HistoryOf(catalog, manifests, events[..|events| - 1], cap);
    h := OneEventMore(
      h, catalog, manifests, events[|events| - 1], Run(Fresh(catalog, manifests), events, cap), cap);
  }

  // ------------------------------------------------------------ one game's way

  ghost predicate HasCell(w: World, t: nat, k: nat) {
    t in w.tasks && w.tasks[t].HashingGames? && k < |w.tasks[t].cells|
  }

  ghost function CellOf(w: World, t: nat, k: nat): Cell
    requires HasCell(w, t, k)
  {
    w.tasks[t].cells[k]
  }

  /** The stored manifest of a game is that of its version. */
  ghost predicate Current(w: World, g: Scanned) {
    g.id in w.manifests && w.manifests[g.id] == g.version
  }

  /** Between `b` and `e` the task hashes games, number `k` of them `g`. */
  ghost predicate Hashes(h: History, t: nat, k: nat, g: Scanned, b: nat, e: nat) {
    b <= e <= |h.events|
    && forall m {:trigger h.worlds[m]} :: b <= m <= e ==>
         HasCell(h.worlds[m], t, k) && CellOf(h.worlds[m], t, k).game == g
  }

  /** At event `m` the game's stored manifest is looked for. */
  ghost predicate LooksFor(h: History, t: nat, k: nat, m: nat) {
    m < |h.events| && h.events[m] == OfTask(t, OfGame(k, Check)) && HasCell(h.worlds[m], t, k)
    && CellOf(h.worlds[m], t, k).work.Checking?
  }

  ghost predicate InHashAt(h: History, t: nat, k: nat, m: nat) {
    m <= |h.events| && HasCell(h.worlds[m], t, k) && CellOf(h.worlds[m], t, k).work.InHash?
  }

  /** Its hashing or storing fails at event `m`. */
  ghost predicate FailsAt(h: History, t: nat, k: nat, m: nat) {
    m < |h.events| && h.events[m] == OfTask(t, OfGame(k, Store(false))) && InHashAt(h, t, k, m)
  }

  /** Past the look, at `m`: with the right manifest there the game is never hashed,
      without it is before it is through. */
  ghost predicate Looked(h: History, t: nat, k: nat, m: nat, e: nat)
    requires m < e <= |h.events| && HasCell(h.worlds[m], t, k) && HasCell(h.worlds[e], t, k)
  {
    var work := CellOf(h.worlds[e], t, k).work;
    LooksFor(h, t, k, m)
    && if Current(h.worlds[m], CellOf(h.worlds[m], t, k).game)
       then (work.Uncounted? || work.Finished?) && forall x :: m <= x <= e ==> !InHashAt(h, t, k, x)
       else work.Stale? || exists x :: m < x <= e && InHashAt(h, t, k, x)
  }

  /** The game's manifest was there at some moment, or its own hashing failed. */
  ghost predicate Covered(h: History, t: nat, k: nat, g: Scanned, b: nat, e: nat)
    requires e <= |h.events|
  {
    (exists m :: b <= m <= e && Current(h.worlds[m], g)) || exists m :: b <= m < e && FailsAt(h, t, k, m)
  }

  ghost predicate Through(work: Work) {
    work.Hashed? || work.Uncounted? || work.Finished?
  }

  /** The state of game `k` at `e`, by how far it has come. */
  ghost predicate OnItsWay(h: History, t: nat, k: nat, g: Scanned, b: nat, e: nat)
    requires Hashes(h, t, k, g, b, e)
  {
    var work := CellOf(h.worlds[e], t, k).work;
    (Through(work) ==> Covered(h, t, k, g, b, e))
    && (work.Waiting? || work.Checking? || exists m :: b <= m < e && Looked(h, t, k, m, e))
  }

  lemma OtherGameStays(w: World, t: nat, j: nat, deed: Deed, cap: nat, k: nat)
    requires HasCell(w, t, k) && j < |w.tasks[t].cells| && j != k
    ensures var w2 := GameStep(w, t, j, deed, w.tasks[t].cells, cap);
            HasCell(w2, t, k) && CellOf(w2, t, k) == CellOf(w, t, k)
  {
  }

  lemma OtherMoveStays(w: World, t: nat, move: Move, cap: nat, k: nat)
    requires HasCell(w, t, k) && !move.OfGame? && HasCell(TaskStep(w, t, w.tasks[t], move, cap), t, k)
    ensures CellOf(TaskStep(w, t, w.tasks[t], move, cap), t, k) == CellOf(w, t, k)
  {
  }

  lemma DeedSparesOthers(w: World, t: nat, k: nat, deed: Deed, cells: seq<Cell>, cap: nat, t2: nat)
    requires k < |cells| && t2 in w.tasks && t2 != t
    ensures var w2 := GameStep(w, t, k, deed, cells, cap); t2 in w2.tasks && w2.tasks[t2] == w.tasks[t2]
  {
  }

  lemma OtherTaskStays(w: World, t: nat, move: Move, cap: nat, t2: nat)
    requires t in w.tasks && t2 in w.tasks && t2 != t
    ensures var w2 := TaskStep(w, t, w.tasks[t], move, cap); t2 in w2.tasks && w2.tasks[t2] == w.tasks[t2]
  {
    match move
    case OfGame(k, deed) =>
      if w.tasks[t].HashingGames? && k < |w.tasks[t].cells| {
        DeedSparesOthers(w, t, k, deed, w.tasks[t].cells, cap, t2);
      }
    case _ =>
  }

  /** A game moves only by a deed of its own. */
  lemma CellStays(w: World, e: Event, cap: nat, t: nat, k: nat)
    requires HasCell(w, t, k) && HasCell(Step(w, e, cap), t, k)
    requires !(e.OfTask? && e.t == t && e.move.OfGame? && e.move.k == k)
    ensures CellOf(Step(w, e, cap), t, k) == CellOf(w, t, k)
  {
    if e.OfTask? && e.t in w.tasks {
      if e.t != t {
        OtherTaskStays(w, e.t, e.move, cap, t);
      } else if e.move.OfGame? {
        if e.move.k < |w.tasks[t].cells| {
          OtherGameStays(w, t, e.move.k, e.move.deed, cap, k);
        }
      } else {
        OtherMoveStays(w, t, e.move, cap, k);
      }
    }
  }

  /** Where a deed takes a game. */
  ghost predicate Goes(work: Work, work2: Work, deed: Deed, current: bool) {
    match deed
    case Launch => work2 == work || (work.Waiting? && work2.Checking?)
    case Check => work2 == if work.Checking? then (if current then Uncounted else Stale) else work
    case Start => work2 == if work.Stale? then InHash else work
    case Store(_) => work2 == if work.InHash? then Hashed else work
    case Finish => work2 == if work.Hashed? then Uncounted else work
    case Count => work2 == if work.Uncounted? then Finished else work
  }

  lemma CellGoes(w: World, cap: nat, t: nat, k: nat, deed: Deed)
    requires HasCell(w, t, k)
    ensures var w2 := Step(w, OfTask(t, OfGame(k, deed)), cap);
            && HasCell(w2, t, k) && CellOf(w2, t, k).game == CellOf(w, t, k).game
            && Goes(CellOf(w, t, k).work, CellOf(w2, t, k).work, deed, Current(w, CellOf(w, t, k).game))
            && (deed == Store(true) && CellOf(w, t, k).work.InHash? ==> Current(w2, CellOf(w, t, k).game))
  {
  }

  lemma LookedOn(h: History, t: nat, k: nat, g: Scanned, b: nat, m: nat, e: nat)
    requires b <= m < e < |h.events| && Hashes(h, t, k, g, b, e + 1) && Looked(h, t, k, m, e)
    requires var work, work2 := CellOf(h.worlds[e], t, k).work, CellOf(h.worlds[e + 1], t, k).work;
             work2 == work || exists deed, now :: Goes(work, work2, deed, now)
    ensures Looked(h, t, k, m, e + 1)
  {
    var work, work2 := CellOf(h.worlds[e], t, k).work, CellOf(h.worlds[e + 1], t, k).work;
    if Current(h.worlds[m], CellOf(h.worlds[m], t, k).game) {
      assert !InHashAt(h, t, k, e + 1);
    } else if x :| m < x <= e && InHashAt(h, t, k, x) {
      assert m < x <= e + 1;
    } else {
      assert work.Stale? && (work2.InHash? ==> InHashAt(h, t, k, e + 1));
    }
  }

  lemma CoveredOn(h: History, t: nat, k: nat, g: Scanned, b: nat, e: nat)
    requires e < |h.events| && Covered(h, t, k, g, b, e)
    ensures Covered(h, t, k, g, b, e + 1)
  {
    if m :| b <= m <= e && Current(h.worlds[m], g) {
      assert b <= m <= e + 1;
    } else {
      var m :| b <= m < e && FailsAt(h, t, k, m);
      assert b <= m < e + 1;
    }
  }

  /** The step from `e`, by a deed of the game's own. */
  lemma OwnDeed(h: History, t: nat, k: nat, g: Scanned, b: nat, e: nat, deed: Deed, cap: nat)
    requires b <= e < |h.events| && StepsTo(h, e, cap) && h.events[e] == OfTask(t, OfGame(k, deed))
    requires Hashes(h, t, k, g, b, e) && Hashes(h, t, k, g, b, e + 1) && OnItsWay(h, t, k, g, b, e)
    ensures OnItsWay(h, t, k, g, b, e + 1)
  {
    var work, work2 := CellOf(h.worlds[e], t, k).work, CellOf(h.worlds[e + 1], t, k).work;
    CellGoes(h.worlds[e], cap, t, k, deed);
    if Through(work) {
      CoveredOn(h, t, k, g, b, e);
    } else if work.InHash? && deed.Store? {
      assert deed.ok ==> Current(h.worlds[e + 1], g);
      assert !deed.ok ==> FailsAt(h, t, k, e);
    } else if work.Checking? && deed.Check? && Current(h.worlds[e], g) {
      assert Covered(h, t, k, g, b, e + 1);
    }
    if work.Checking? && deed.Check? {
      assert Looked(h, t, k, e, e + 1);
    } else if !(work.Waiting? || work.Checking?) {
      var m :| b <= m < e && Looked(h, t, k, m, e);
      LookedOn(h, t, k, g, b, m, e);
    }
  }

  lemma OtherEvent(h: History, t: nat, k: nat, g: Scanned, b: nat, e: nat, cap: nat)
    requires b <= e < |h.events| && StepsTo(h, e, cap)
    requires !(h.events[e].OfTask? && h.events[e].t == t && h.events[e].move.OfGame? && h.events[e].move.k == k)
    requires Hashes(h, t, k, g, b, e) && Hashes(h, t, k, g, b, e + 1) && OnItsWay(h, t, k, g, b, e)
    ensures OnItsWay(h, t, k, g, b, e + 1)
  {
    CellStays(h.worlds[e], h.events[e], cap, t, k);
    if Through(CellOf(h.worlds[e], t, k).work) {
      CoveredOn(h, t, k, g, b, e);
    }
    if m :| b <= m < e && Looked(h, t, k, m, e) {
      LookedOn(h, t, k, g, b, m, e);
    }
  }

  lemma WayStep(
    h: History, catalog: set<string>, manifests: map<string, string>, t: nat, k: nat, g: Scanned, b: nat, e: nat,
    cap: nat)
    requires IsRun(h, catalog, manifests, cap) && b <= e < |h.events|
    requires Hashes(h, t, k, g, b, e) && Hashes(h, t, k, g, b, e + 1) && OnItsWay(h, t, k, g, b, e)
    ensures OnItsWay(h, t, k, g, b, e + 1)
  {
    var event := h.events[e];
    if event.OfTask? && event.t == t && event.move.OfGame? && event.move.k == k {
      OwnDeed(h, t, k, g, b, e, event.move.deed, cap);
    } else {
      OtherEvent(h, t, k, g, b, e, cap);
    }
  }

  lemma HashedBefore(h: History, t: nat, k: nat, g: Scanned, b: nat, e: nat)
    requires b < e && Hashes(h, t, k, g, b, e)
    ensures Hashes(h, t, k, g, b, e - 1)
  {
  }

  lemma {:induction false} WayAt(
    h: History, catalog: set<string>, manifests: map<string, string>, t: nat, k: nat, g: Scanned, b: nat, e: nat,
    cap: nat)
    requires IsRun(h, catalog, manifests, cap) && Hashes(h, t, k, g, b, e)
    requires CellOf(h.worlds[b], t, k).work.Waiting?
    ensures OnItsWay(h, t, k, g, b, e)
    decreases e
  {
    if b < e {
      HashedBefore(h, t, k, g, b, e);
      WayAt(h, catalog, manifests, t, k, g, b, e - 1, cap);
      WayStep(h, catalog, manifests, t, k, g, b, e - 1, cap);
    }
  }

  /** A task that hashes games began to at some event, with every game waiting. */
  lemma {:induction false} BeganAt(
    h: History, catalog: set<string>, manifests: map<string, string>, t: nat, k: nat, e: nat, cap: nat)
    returns (b: nat)
    requires IsRun(h, catalog, manifests, cap) && e <= |h.events| && HasCell(h.worlds[e], t, k)
    ensures 0 < b <= e && h.events[b - 1] == OfTask(t, Begin) && !HasCell(h.worlds[b - 1], t, k)
    ensures Hashes(h, t, k, CellOf(h.worlds[e], t, k).game, b, e) && CellOf(h.worlds[b], t, k).work.Waiting?
    decreases e
  {
    assert e > 0;
    assert StepsTo(h, e - 1, cap);
    var w, event := h.worlds[e - 1], h.events[e - 1];
    if HasCell(w, t, k) {
      b := BeganAt(h, catalog, manifests, t, k, e - 1, cap);
      if event.OfTask? && event.t == t && event.move.OfGame? && event.move.k == k {
        CellGoes(w, cap, t, k, event.move.deed);
      } else {
        CellStays(w, event, cap, t, k);
      }
    } else {
      b := e;
      BeginMakesCells(w, event, cap, t, k);
    }
  }

  lemma TaskMakesCells(w: World, t: nat, move: Move, cap: nat, k: nat)
    requires t in w.tasks && !HasCell(w, t, k) && HasCell(TaskStep(w, t, w.tasks[t], move, cap), t, k)
    ensures move.Begin? && CellOf(TaskStep(w, t, w.tasks[t], move, cap), t, k).work.Waiting?
  {
    if move.OfGame? && w.tasks[t].HashingGames? && move.k < |w.tasks[t].cells| {
      GameStepShape(w, t, move.k, move.deed, w.tasks[t].cells, cap);
    }
  }

  lemma BeginMakesCells(w: World, e: Event, cap: nat, t: nat, k: nat)
    requires !HasCell(w, t, k) && HasCell(Step(w, e, cap), t, k)
    ensures e == OfTask(t, Begin) && CellOf(Step(w, e, cap), t, k).work.Waiting?
  {
    if e.OfTask? && e.t in w.tasks {
      if e.t != t && t in w.tasks {
        OtherTaskStays(w, e.t, e.move, cap, t);
      } else if e.t == t {
        TaskMakesCells(w, t, e.move, cap, k);
      }
    }
  }

  /** Every game that is through had the manifest of its version stored at some moment
      since its task began hashing, or its own hashing failed. */
  lemma EveryGameIsCovered(
    h: History, catalog: set<string>, manifests: map<string, string>, t: nat, k: nat, e: nat, cap: nat)
    returns (b: nat)
    requires IsRun(h, catalog, manifests, cap) && e <= |h.events| && HasCell(h.worlds[e], t, k)
    requires CellOf(h.worlds[e], t, k).work.Finished?
    ensures 0 < b <= e && h.events[b - 1] == OfTask(t, Begin)
    ensures Covered(h, t, k, CellOf(h.worlds[e], t, k).game, b, e)
  {
    b := BeganAt(h, catalog, manifests, t, k, e, cap);
    WayAt(h, catalog, manifests, t, k, CellOf(h.worlds[e], t, k).game, b, e, cap);
  }

  /** A game that is through was looked for once its task began, and then hashed exactly
      if the stored manifest of its version was missing. */
  lemma HashedExactlyIfMissing(
    h: History, catalog: set<string>, manifests: map<string, string>, t: nat, k: nat, e: nat, cap: nat)
    returns (b: nat, m: nat)
    requires IsRun(h, catalog, manifests, cap) && e <= |h.events| && HasCell(h.worlds[e], t, k)
    requires CellOf(h.worlds[e], t, k).work.Finished?
    ensures 0 < b <= m < e && h.events[b - 1] == OfTask(t, Begin) && LooksFor(h, t, k, m)
    ensures CellOf(h.worlds[m], t, k).game == CellOf(h.worlds[e], t, k).game
    ensures (exists x :: b <= x <= e && InHashAt(h, t, k, x))
            <==> !Current(h.worlds[m], CellOf(h.worlds[e], t, k).game)
  {
    var g := CellOf(h.worlds[e], t, k).game;
    b := BeganAt(h, catalog, manifests, t, k, e, cap);
    WayAt(h, catalog, manifests, t, k, g, b, e, cap);
    m :| b <= m < e && Looked(h, t, k, m, e);
    BeforeTheLook(h, catalog, manifests, t, k, g, b, m, cap);
  }

  /** No game is hashed before it is looked for. */
  lemma {:induction false} BeforeTheLook(
    h: History, catalog: set<string>, manifests: map<string, string>, t: nat, k: nat, g: Scanned, b: nat, m: nat,
    cap: nat)
    requires IsRun(h, catalog, manifests, cap) && Hashes(h, t, k, g, b, m)
    requires CellOf(h.worlds[m], t, k).work.Checking? || CellOf(h.worlds[m], t, k).work.Waiting?
    ensures forall x :: b <= x <= m ==> !InHashAt(h, t, k, x)
    decreases m
  {
    if b < m {
      assert StepsTo(h, m - 1, cap);
      var w, event := h.worlds[m - 1], h.events[m - 1];
      if event.OfTask? && event.t == t && event.move.OfGame? && event.move.k == k {
        CellGoes(w, cap, t, k, event.move.deed);
      } else {
        CellStays(w, event, cap, t, k);
      }
      BeforeTheLook(h, catalog, manifests, t, k, g, b, m - 1, cap);
    }
  }

  // ------------------------------------------------------- in order, and never stuck

  /** Games are taken up in the order they were found. */
  ghost predicate TakenInOrder(cells: seq<Cell>) {
    forall j, k :: 0 <= j < k < |cells| && cells[j].work.Waiting? ==> cells[k].work.Waiting?
  }

  ghost predicate TasksInOrder(w: World) {
    forall t :: t in w.tasks && w.tasks[t].HashingGames? ==> TakenInOrder(w.tasks[t].cells)
  }

  lemma DeedKeepsOrder(w: World, t: nat, j: nat, deed: Deed, cap: nat)
    requires t in w.tasks && w.tasks[t].HashingGames? && TakenInOrder(w.tasks[t].cells) && j < |w.tasks[t].cells|
    ensures var w2 := GameStep(w, t, j, deed, w.tasks[t].cells, cap);
            t in w2.tasks && w2.tasks[t].HashingGames? && TakenInOrder(w2.tasks[t].cells)
  {
    CellGoesIn(w, cap, t, j, deed);
    var cells, w2 := w.tasks[t].cells, GameStep(w, t, j, deed, w.tasks[t].cells, cap);
    GameStepShape(w, t, j, deed, cells, cap);
    var cells2 := w2.tasks[t].cells;
    forall k | 0 <= k < |cells| && k != j ensures cells2[k] == cells[k] {
      OtherGameStays(w, t, j, deed, cap, k);
    }
    if cells[j].work.Waiting? && !cells2[j].work.Waiting? {
      assert deed == Launch && MayLaunch(cells, j, cap);
    }
  }

  lemma EventKeepsOrder(w: World, e: Event, cap: nat, t: nat, j: nat, k: nat)
    requires t in w.tasks && w.tasks[t].HashingGames? ==> TakenInOrder(w.tasks[t].cells)
    requires !(e.OfTask? && e.t == t && e.move.OfGame?)
    requires j < k && HasCell(Step(w, e, cap), t, j) && HasCell(Step(w, e, cap), t, k)
    ensures CellOf(Step(w, e, cap), t, j).work.Waiting? ==> CellOf(Step(w, e, cap), t, k).work.Waiting?
  {
    if HasCell(w, t, k) {
      CellStays(w, e, cap, t, j);
      CellStays(w, e, cap, t, k);
    } else {
      BeginMakesCells(w, e, cap, t, k);
    }
  }

  lemma TaskKeepsOrder(w: World, e: Event, cap: nat, t: nat)
    requires t in w.tasks && w.tasks[t].HashingGames? ==> TakenInOrder(w.tasks[t].cells)
    requires HasCell(Step(w, e, cap), t, 0)
    ensures TakenInOrder(Step(w, e, cap).tasks[t].cells)
  {
    var w2 := Step(w, e, cap);
    if e.OfTask? && e.t == t && e.move.OfGame? {
      if t in w.tasks && w.tasks[t].HashingGames? && e.move.k < |w.tasks[t].cells| {
        DeedKeepsOrder(w, t, e.move.k, e.move.deed, cap);
      }
    } else {
      var cells := w2.tasks[t].cells;
      forall j, k | 0 <= j < k < |cells| && cells[j].work.Waiting? ensures cells[k].work.Waiting? {
        EventKeepsOrder(w, e, cap, t, j, k);
      }
    }
  }

  lemma StepKeepsOrder(w: World, e: Event, cap: nat)
    requires TasksInOrder(w)
    ensures TasksInOrder(Step(w, e, cap))
  {
    var w2 := Step(w, e, cap);
    forall t | t in w2.tasks && w2.tasks[t].HashingGames? ensures TakenInOrder(w2.tasks[t].cells) {
      if w2.tasks[t].cells != [] {
        TaskKeepsOrder(w, e, cap, t);
      }
    }
  }

  lemma {:induction false} GamesAreTakenInOrder(
    catalog: set<string>, manifests: map<string, string>, events: seq<Event>, cap: nat)
    ensures TasksInOrder(Run(Fresh(catalog, manifests), events, cap))
  {
    if events != [] {
      GamesAreTakenInOrder(catalog, manifests, events[..|events| - 1], cap);
      StepKeepsOrder(Run(Fresh(catalog, manifests), events[..|events| - 1], cap), events[|events| - 1], cap);
    }
  }

  lemma {:induction false} NobodyBusy(cells: seq<Cell>)
    requires forall k :: 0 <= k < |cells| ==> cells[k].work.Waiting? || cells[k].work.Finished?
    ensures Tally(cells, Busy) == 0
  {
    if cells != [] {
      NobodyBusy(cells[..|cells| - 1]);
    }
  }

  lemma {:induction false} FirstWaiting(cells: seq<Cell>) returns (k: nat)
    requires exists j :: 0 <= j < |cells| && cells[j].work.Waiting?
    ensures k < |cells| && cells[k].work.Waiting? && forall j :: 0 <= j < k ==> !cells[j].work.Waiting?
  {
    k := 0;
    while !cells[k].work.Waiting?
      invariant k < |cells| && forall j :: 0 <= j < k ==> !cells[j].work.Waiting?
      decreases |cells| - k
    {
      k := k + 1;
    }
  }

  /** With room for one game, hashing never gets stuck: until all are finished some game
      can be moved on. */
  lemma HashingNeverStalls(w: World, t: nat, cap: nat) returns (k: nat, deed: Deed)
    requires t in w.tasks && w.tasks[t].HashingGames? && cap > 0
    requires exists j :: 0 <= j < |w.tasks[t].cells| && !w.tasks[t].cells[j].work.Finished?
    ensures var w2 := Step(w, OfTask(t, OfGame(k, deed)), cap);
            HasCell(w, t, k) && HasCell(w2, t, k) && CellOf(w2, t, k).work != CellOf(w, t, k).work
  {
    var cells := w.tasks[t].cells;
    if j :| 0 <= j < |cells| && !cells[j].work.Waiting? && !cells[j].work.Finished? {
      k := j;
      deed := match cells[j].work
        case Checking => Check
        case Stale => Start
        case InHash => Store(true)
        case Hashed => Finish
        case _ => Count;
    } else {
      NobodyBusy(cells);
      k := FirstWaiting(cells);
      deed := Launch;
    }
    CellGoes(w, cap, t, k, deed);
  }

  // ------------------------------------------------------------- the whole rescan

  /** The requirements under which the promise is made: ids are distinct, nobody asks for a
      manifest meanwhile, and no hashing or storing fails. */
  ghost predicate Distinct(games: seq<Scanned>) {
    forall i, j :: 0 <= i < j < |games| ==> games[i].id != games[j].id
  }

  predicate NoFailure(e: Event) {
    !(e.OfTask? && e.move.OfGame? && e.move.deed == Store(false))
  }

  /** What holds of manifests while the only rescan hashes `games` or prunes after them. */
  ghost predicate Working(w: World, t: nat, games: seq<Scanned>) {
    t in w.tasks && w.catalog == IdsOf(games)
    && match w.tasks[t]
       case HashingGames(cells) =>
         && |cells| == |games|
         && forall k {:trigger GameOk(w, cells, games, k)} :: 0 <= k < |games| ==> GameOk(w, cells, games, k)
       case Pruning(doomed) => AllCurrent(w, games) && doomed == w.manifests.Keys - w.catalog
       case _ => false
  }

  ghost predicate GameOk(w: World, cells: seq<Cell>, games: seq<Scanned>, k: nat) {
    k < |cells| && k < |games| && cells[k].game == games[k] && (Through(cells[k].work) ==> Current(w, games[k]))
  }

  ghost predicate AllCurrent(w: World, games: seq<Scanned>) {
    forall k :: 0 <= k < |games| ==> Current(w, games[k])
  }

  lemma DeedKeepsWorking(w: World, t: nat, j: nat, deed: Deed, games: seq<Scanned>, cap: nat)
    requires Working(w, t, games) && w.tasks[t].HashingGames? && Distinct(games) && deed != Store(false)
    requires j < |w.tasks[t].cells|
    ensures Working(GameStep(w, t, j, deed, w.tasks[t].cells, cap), t, games)
  {
    var cells, w2 := w.tasks[t].cells, GameStep(w, t, j, deed, w.tasks[t].cells, cap);
    GameStepShape(w, t, j, deed, cells, cap);
    var cells2 := w2.tasks[t].cells;
    forall k | 0 <= k < |games| ensures GameOk(w2, cells2, games, k) {
      assert GameOk(w, cells, games, k) && GameOk(w, cells, games, j);
      DeedKeepsGame(w, t, j, deed, games, cap, k);
    }
  }

  lemma DeedKeepsGame(w: World, t: nat, j: nat, deed: Deed, games: seq<Scanned>, cap: nat, k: nat)
    requires t in w.tasks && w.tasks[t].HashingGames? && Distinct(games) && deed != Store(false)
    requires j < |w.tasks[t].cells| == |games| && k < |games|
    requires GameOk(w, w.tasks[t].cells, games, k) && GameOk(w, w.tasks[t].cells, games, j)
    ensures var w2 := GameStep(w, t, j, deed, w.tasks[t].cells, cap);
            t in w2.tasks && w2.tasks[t].HashingGames? && GameOk(w2, w2.tasks[t].cells, games, k)
  {
    if k == j {
      CellGoesIn(w, cap, t, k, deed);
    } else {
      OtherGameStays(w, t, j, deed, cap, k);
      assert games[k].id != games[j].id;
    }
  }

  lemma CellGoesIn(w: World, cap: nat, t: nat, k: nat, deed: Deed)
    requires HasCell(w, t, k)
    ensures var w2 := GameStep(w, t, k, deed, w.tasks[t].cells, cap);
            && HasCell(w2, t, k) && CellOf(w2, t, k).game == CellOf(w, t, k).game
            && Goes(CellOf(w, t, k).work, CellOf(w2, t, k).work, deed, Current(w, CellOf(w, t, k).game))
            && (deed == Store(true) && CellOf(w, t, k).work.InHash? ==> Current(w2, CellOf(w, t, k).game))
            && (deed != Store(true) ==> w2.manifests == w.manifests)
  {
  }

  lemma LookKeepsWorking(w: World, t: nat, games: seq<Scanned>, cap: nat)
    requires Working(w, t, games) && w.tasks[t].HashingGames?
    ensures Working(TaskStep(w, t, w.tasks[t], PruneLook, cap), t, games)
  {
    var cells, w2 := w.tasks[t].cells, TaskStep(w, t, w.tasks[t], PruneLook, cap);
    if Tally(cells, IsFinished) == |cells| {
      TallyOfAll(cells, IsFinished);
      forall k | 0 <= k < |games| ensures Current(w2, games[k]) {
        assert GameOk(w, cells, games, k) && Has(cells[k], IsFinished);
      }
    }
  }

  lemma PruneKeepsWorking(w: World, t: nat, id: string, games: seq<Scanned>, cap: nat)
    requires Working(w, t, games) && w.tasks[t].Pruning?
    ensures Working(TaskStep(w, t, w.tasks[t], PruneOne(id), cap), t, games)
  {
    var w2 := TaskStep(w, t, w.tasks[t], PruneOne(id), cap);
    forall k | 0 <= k < |games| ensures Current(w2, games[k]) {
      assert Current(w, games[k]) && games[k].id in IdsOf(games);
    }
  }

  /** Until its prune is done. */
  lemma StepKeepsWorking(w: World, e: Event, t: nat, games: seq<Scanned>, cap: nat)
    requires OneTask(w) && Working(w, t, games) && Distinct(games) && NoFailure(e)
    requires w.requests == multiset{} && (e == OfTask(t, PruneDone) ==> Step(w, e, cap) == w)
    ensures Working(Step(w, e, cap), t, games)
  {
    var task := w.tasks[t];
    if e.RequestStart? {
      SameManifestsWork(w, Step(w, e, cap), t, games);
    } else if e.OfTask? && e.t in w.tasks {
      assert e.t == t;
      if e.move.OfGame? && task.HashingGames? && e.move.k < |task.cells| {
        DeedKeepsWorking(w, t, e.move.k, e.move.deed, games, cap);
      } else if e.move.PruneLook? && task.HashingGames? {
        LookKeepsWorking(w, t, games, cap);
      } else if e.move.PruneOne? && task.Pruning? {
        PruneKeepsWorking(w, t, e.move.id, games, cap);
      }
    }
  }

  lemma SameManifestsWork(w: World, w2: World, t: nat, games: seq<Scanned>)
    requires Working(w, t, games)
    requires w2.tasks == w.tasks && w2.catalog == w.catalog && w2.manifests == w.manifests
    ensures Working(w2, t, games)
  {
    if w.tasks[t].HashingGames? {
      var cells := w.tasks[t].cells;
      forall k | 0 <= k < |games| ensures GameOk(w2, cells, games, k) {
        assert GameOk(w, cells, games, k);
      }
    }
  }

  lemma BeginIsWorking(w: World, t: nat, games: seq<Scanned>, cap: nat)
    requires Inv(w, cap) && t in w.tasks && w.tasks[t] == Synced(games)
    ensures Working(Step(w, OfTask(t, Begin), cap), t, games)
  {
    assert TaskOk(w, w.tasks[t], cap);
    var w2 := Step(w, OfTask(t, Begin), cap);
    forall k | 0 <= k < |games| ensures GameOk(w2, Cells(games), games, k) {
      assert Cells(games)[k] == Cell(games[k], Waiting);
    }
  }

  /** From the event `b` with which task `t` begins to hash until event `p`. */
  ghost predicate Undisturbed(h: History, t: nat, games: seq<Scanned>, b: nat, p: nat) {
    b < p < |h.events| && h.events[b] == OfTask(t, Begin) && t in h.worlds[b].tasks
    && h.worlds[b].tasks[t] == Synced(games) && Distinct(games)
    && forall m :: b < m <= p ==> NoFailure(h.events[m]) && h.worlds[m].requests == multiset{}
  }

  lemma WorkingStep(
    h: History, catalog: set<string>, manifests: map<string, string>, t: nat, games: seq<Scanned>, e: nat, cap: nat)
    requires IsRun(h, catalog, manifests, cap) && e < |h.events| && Distinct(games) && NoFailure(h.events[e])
    requires h.worlds[e].requests == multiset{}
    requires h.events[e] == OfTask(t, PruneDone) ==> h.worlds[e + 1] == h.worlds[e]
    requires Working(h.worlds[e], t, games)
    ensures Working(h.worlds[e + 1], t, games)
  {
    WorldAt(h, catalog, manifests, cap, e);
    assert StepsTo(h, e, cap);
    StepKeepsWorking(h.worlds[e], h.events[e], t, games, cap);
  }

  lemma WorkingBegins(
    h: History, catalog: set<string>, manifests: map<string, string>, t: nat, games: seq<Scanned>, b: nat, p: nat,
    cap: nat)
    requires IsRun(h, catalog, manifests, cap) && Undisturbed(h, t, games, b, p)
    ensures Working(h.worlds[b + 1], t, games)
  {
    WorldAt(h, catalog, manifests, cap, b);
    assert StepsTo(h, b, cap);
    BeginIsWorking(h.worlds[b], t, games, cap);
  }

  lemma {:induction false} WorkingAt(
    h: History, catalog: set<string>, manifests: map<string, string>, t: nat, games: seq<Scanned>, b: nat, p: nat,
    e: nat, cap: nat)
    requires IsRun(h, catalog, manifests, cap) && Undisturbed(h, t, games, b, p) && b < e <= p
    requires forall m :: b < m < e && h.events[m] == OfTask(t, PruneDone) ==> h.worlds[m + 1] == h.worlds[m]
    ensures Working(h.worlds[e], t, games)
    decreases e
  {
    if e == b + 1 {
      WorkingBegins(h, catalog, manifests, t, games, b, p, cap);
    } else {
      WorkingAt(h, catalog, manifests, t, games, b, p, e - 1, cap);
      WorkingStep(h, catalog, manifests, t, games, e - 1, cap);
    }
  }

  /** With distinct ids, no request meanwhile and no failure, a rescan leaves a manifest of
      the scanned version for every game it found, and no other manifest. */
  lemma LeavesExactlyTheScanned(
    h: History, catalog: set<string>, manifests: map<string, string>, t: nat, games: seq<Scanned>, b: nat, p: nat,
    cap: nat)
    requires IsRun(h, catalog, manifests, cap) && Undisturbed(h, t, games, b, p)
    requires h.events[p] == OfTask(t, PruneDone) && h.worlds[p + 1] != h.worlds[p]
    requires forall m :: b < m < p && h.events[m] == OfTask(t, PruneDone) ==> h.worlds[m + 1] == h.worlds[m]
    ensures var w := h.worlds[p + 1];
            && w.manifests.Keys == w.catalog == (set k | 0 <= k < |games| :: games[k].id)
            && forall k :: 0 <= k < |games| ==> w.manifests[games[k].id] == games[k].version
  {
    WorkingAt(h, catalog, manifests, t, games, b, p, p, cap);
    assert StepsTo(h, p, cap);
    var w, w2 := h.worlds[p], h.worlds[p + 1];
    assert w.tasks[t] == Pruning({}) && w2.manifests == w.manifests && w2.catalog == w.catalog == IdsOf(games);
    forall id | id in w.manifests ensures id in w.catalog {
      assert id !in w.manifests.Keys - w.catalog;
    }
    forall id | id in w.catalog ensures id in w.manifests {
      var k :| 0 <= k < |games| && games[k].id == id;
      assert Current(w, games[k]);
    }
    forall k | 0 <= k < |games| ensures games[k].id in w2.manifests && w2.manifests[games[k].id] == games[k].version {
      assert Current(w, games[k]);
    }
  }
}
