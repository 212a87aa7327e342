/** Cloud saves and their version history (src/db.rs, src/handlers.rs; the tables are
    in src/db_setup.rs). One live row per file, and an archive of what it overwrote. */
module Saves {
  import opened Stories
  import opened Wrappers

  const KEEP: nat := 10
  const MAX_BYTES: nat := 50 * 1024 * 1024
  const PATH_MAX: nat := 400
  /** How many characters of a path the live table's primary key covers. */
  const KEY_CHARS: nat := 191

  datatype File = File(user: nat, game: string, path: string)

  datatype Content = Content(data: seq<bv8>, mtime: int)

  /** The primary key of the live table. */
  datatype Slot = Slot(user: nat, game: string, prefix: string)

  datatype LiveRow = LiveRow(path: string, content: Content)

  datatype Version = Version(id: nat, file: File, content: Content)

  type LiveRows = map<Slot, LiveRow>

  function SlotOf(f: File): Slot {
    Slot(f.user, f.game, if |f.path| <= KEY_CHARS then f.path else f.path[..KEY_CHARS])
  }

  // ------------------------------------------------------------------- paths

  function Utf8Width(c: char): nat {
    var v := c as int;
    if v < 0x80 then 1 else if v < 0x800 then 2 else if v < 0x10000 then 3 else 4
  }

  function Utf8Length(s: string): nat {
    if s == "" then 0 else Utf8Width(s[0]) + Utf8Length(s[1..])
  }

  /** The segment the text starts with. */
  function FirstSegment(p: string): string {
    if p == "" || p[0] == '/' then "" else [p[0]] + FirstSegment(p[1..])
  }

  predicate SegmentsOk(p: string)
    decreases |p|
  {
    var seg := FirstSegment(p);
    FirstIsPrefix(p);
    seg != "" && seg != "." && seg != ".." && (|seg| < |p| ==> SegmentsOk(p[|seg| + 1..]))
  }

  lemma FirstIsPrefix(p: string)
    ensures |FirstSegment(p)| <= |p| && FirstSegment(p) == p[..|FirstSegment(p)|]
  {
  }

  /** A segment: from place `i` to `j`, between slashes or the ends. */
  predicate IsSegment(p: string, i: nat, j: nat) {
    i <= j <= |p| && (i == 0 || p[i - 1] == '/') && (j == |p| || p[j] == '/') && '/' !in p[i..j]
  }

  predicate NamesNothing(segment: string) {
    segment == "" || segment == "." || segment == ".."
  }

  lemma {:induction false} FirstHasNoSlash(p: string)
    ensures '/' !in FirstSegment(p)
    ensures |FirstSegment(p)| < |p| ==> p[|FirstSegment(p)|] == '/'
  {
    if p != "" && p[0] != '/' {
      FirstHasNoSlash(p[1..]);
    }
  }

  /** The segments of a path are its first and those of what follows the first slash. */
  lemma LaterSegments(p: string, i: nat, j: nat)
    requires IsSegment(p, i, j)
    ensures var n := |FirstSegment(p)|;
            if i == 0 then j == n && p[i..j] == FirstSegment(p)
            else n < i && i - n - 1 <= j - n - 1 <= |p| - n - 1 && n < |p|
                 && IsSegment(p[n + 1..], i - n - 1, j - n - 1)
                 && p[n + 1..][i - n - 1..j - n - 1] == p[i..j]
  {
    var n := |FirstSegment(p)|;
    FirstIsPrefix(p);
    FirstHasNoSlash(p);
    forall k | 0 <= k < n ensures p[k] != '/' {
      assert FirstSegment(p)[k] == p[k] && FirstSegment(p)[k] in FirstSegment(p);
    }
    forall k | i <= k < j ensures p[k] != '/' {
      assert p[i..j][k - i] == p[k];
    }
    if i > 0 {
      assert p[n + 1..][i - n - 1..j - n - 1] == p[i..j];
    }
  }

  lemma {:induction false} NoBadSegment(p: string, i: nat, j: nat)
    requires SegmentsOk(p) && IsSegment(p, i, j)
    ensures !NamesNothing(p[i..j])
    decreases |p|
  {
    var n := |FirstSegment(p)|;
    LaterSegments(p, i, j);
    if i > 0 {
      NoBadSegment(p[n + 1..], i - n - 1, j - n - 1);
    }
  }

  lemma {:induction false} BadSegment(p: string) returns (i: nat, j: nat)
    requires !SegmentsOk(p)
    ensures IsSegment(p, i, j) && NamesNothing(p[i..j])
    decreases |p|
  {
    var n := |FirstSegment(p)|;
    FirstIsPrefix(p);
    FirstHasNoSlash(p);
    if NamesNothing(FirstSegment(p)) {
      assert p[0..n] == FirstSegment(p);
      return 0, n;
    }
    var rest := p[n + 1..];
    i, j := BadSegment(rest);
    assert p[i + n + 1..j + n + 1] == rest[i..j];
    i, j := i + n + 1, j + n + 1;
  }

  /** No segment of an accepted path is empty, a dot or two dots; and with none such the
      path is accepted. */
  lemma SegmentsNameFiles(p: string)
    ensures SegmentsOk(p) <==> forall i: nat, j: nat :: IsSegment(p, i, j) ==> !NamesNothing(p[i..j])
  {
    if SegmentsOk(p) {
      forall i: nat, j: nat | IsSegment(p, i, j) ensures !NamesNothing(p[i..j]) {
        NoBadSegment(p, i, j);
      }
    } else {
      var i, j := BadSegment(p);
    }
  }

  predicate ValidPath(p: string) {
    p != "" && Utf8Length(p) <= PATH_MAX && p[0] != '/' && '\\' !in p && '\0' !in p && SegmentsOk(p)
  }

  // ------------------------------------------------------------------ tables

  /** The live row of a file, looked up by its whole path. */
  function Row(live: LiveRows, f: File): Option<Content> {
    if SlotOf(f) in live && live[SlotOf(f)].path == f.path then Some(live[SlotOf(f)].content) else None
  }

  /** The time stamp a client has to have seen: that of the live row, 0 without one. */
  function MtimeOf(live: LiveRows, f: File): int {
    var row := Row(live, f);
    if row.Some? then row.value.mtime else 0
  }

  /** A duplicate key updates the content and leaves the stored path alone. */
  function Upserted(live: LiveRows, f: File, c: Content): LiveRows {
    var path := if SlotOf(f) in live then live[SlotOf(f)].path else f.path;
    live[SlotOf(f) := LiveRow(path, c)]
  }

  /** All versions of a file, newest first. */
  function Listed(versions: seq<Version>, f: File): seq<Version> {
    if versions == [] then []
    else
      var last := versions[|versions| - 1];
      (if last.file == f then [last] else []) + Listed(versions[..|versions| - 1], f)
  }

  /** Drops all but the newest `keep` versions of a file. */
  function Pruned(versions: seq<Version>, f: File, keep: nat): seq<Version> {
    if versions == [] then []
    else
      var front, last := versions[..|versions| - 1], versions[|versions| - 1];
      if last.file != f then Pruned(front, f, keep) + [last]
      else if keep == 0 then Pruned(front, f, 0)
      else Pruned(front, f, keep - 1) + [last]
  }

  function VersionAt(versions: seq<Version>, user: nat, game: string, id: nat): Option<Version> {
    if versions == [] then None
    else
      var last := versions[|versions| - 1];
      if last.id == id && last.file.user == user && last.file.game == game then Some(last)
      else VersionAt(versions[..|versions| - 1], user, game, id)
  }

  datatype Tables = Tables(live: LiveRows, versions: seq<Version>, nextId: nat)

  /** Overwriting a file: what it held is archived first. */
  function Overwritten(t: Tables, f: File, c: Content): Tables {
    match Row(t.live, f)
    case Some(prior) =>
      if prior.data != [] then
        Tables(Upserted(t.live, f, c), Pruned(t.versions + [Version(t.nextId, f, prior)], f, KEEP), t.nextId + 1)
      else t.(live := Upserted(t.live, f, c))
    case None => t.(live := Upserted(t.live, f, c))
  }

  datatype PutReply = Stored | BadPath | BadSize | Conflict(current: int)

  function PutReplyFor(live: LiveRows, f: File, size: nat, baseMtime: Option<int>): PutReply {
    if !ValidPath(f.path) then BadPath
    else if size == 0 || size > MAX_BYTES then BadSize
    else
      var row := Row(live, f);
      var current := if row.Some? then row.value.mtime else 0;
      if baseMtime.Some? && baseMtime.value != current then Conflict(current) else Stored
  }

  class SaveStore {
    var live: LiveRows
    /** In order of id. */
    var versions: seq<Version>
    var nextId: nat

    ghost function State(): Tables
      reads this
    {
      Tables(live, versions, nextId)
    }

    constructor ()
      ensures State() == Tables(map[], [], 1)
    {
      live, versions, nextId := map[], [], 1;
    }

    method Prune(f: File)
      modifies this`versions
      ensures versions == Pruned(old(versions), f, KEEP)
    {
      var kept: seq<Version> := [];
      var i, room := |versions|, KEEP;
      assert versions[..i] == versions;
      while i > 0
        invariant 0 <= i <= |versions| && versions == old(versions)
        invariant Pruned(versions, f, KEEP) == Pruned(versions[..i], f, room) + kept
      {
        i := i - 1;
        assert versions[..i + 1][..i] == versions[..i];
        if versions[i].file != f {
          kept := [versions[i]] + kept;
        } else if room > 0 {
          kept := [versions[i]] + kept;
          room := room - 1;
        }
      }
      versions := kept;
    }

    method PutGameSave(f: File, c: Content)
      modifies this
      ensures State() == Overwritten(old(State()), f, c)
    {
      var prior := Row(live, f);
      if prior.Some? && prior.value.data != [] {
        versions := versions + [Version(nextId, f, prior.value)];
        nextId := nextId + 1;
        Prune(f);
      }
      if SlotOf(f) in live {
        live := live[SlotOf(f) := live[SlotOf(f)].(content := c)];
      } else {
        live := live[SlotOf(f) := LiveRow(f.path, c)];
      }
    }

    method ApiPut(f: File, body: seq<bv8>, mtime: int, baseMtime: Option<int>) returns (reply: PutReply)
      modifies this
      ensures reply == PutReplyFor(old(live), f, |body|, baseMtime)
      ensures reply.Stored? <==> ValidPath(f.path) && 1 <= |body| <= 52_428_800
                                 && (baseMtime.Some? ==> baseMtime.value == MtimeOf(old(live), f))
      ensures reply.Conflict? ==> baseMtime.Some? && reply.current == MtimeOf(old(live), f) != baseMtime.value
      ensures State() == if reply.Stored? then Overwritten(old(State()), f, Content(body, mtime)) else old(State())
    {
      if !ValidPath(f.path) {
        return BadPath;
      }
      if |body| == 0 || |body| > MAX_BYTES {
        return BadSize;
      }
      if baseMtime.Some? {
        var row := Row(live, f);
        var current := if row.Some? then row.value.mtime else 0;
        if current != baseMtime.value {
          return Conflict(current);
        }
      }
      PutGameSave(f, Content(body, mtime));
      return Stored;
    }

    method ApiRestore(user: nat, game: string, id: nat) returns (restored: Option<Version>)
      modifies this
      ensures restored == VersionAt(old(versions), user, game, id)
      ensures State() == if restored.Some? then Overwritten(old(State()), restored.value.file, restored.value.content)
                         else old(State())
    {
      var i := |versions|;
      assert versions[..i] == versions;
      while i > 0
        invariant 0 <= i <= |versions| && State() == old(State())
        invariant VersionAt(versions, user, game, id) == VersionAt(versions[..i], user, game, id)
      {
        i := i - 1;
        assert versions[..i + 1][..i] == versions[..i];
        var v := versions[i];
        if v.id == id && v.file.user == user && v.file.game == game {
          PutGameSave(v.file, v.content);
          return Some(v);
        }
      }
      return None;
    }
  }

  // -------------------------------------------------------- archive arithmetic

  function Newest(listed: seq<Version>, n: nat): seq<Version> {
    if |listed| <= n then listed else listed[..n]
  }

  lemma {:induction false} PruneKeepsNewest(versions: seq<Version>, f: File, keep: nat)
    ensures Listed(Pruned(versions, f, keep), f) == Newest(Listed(versions, f), keep)
  {
    if versions != [] {
      var front, last := versions[..|versions| - 1], versions[|versions| - 1];
      var less := if last.file == f && keep > 0 then keep - 1 else keep;
      PruneKeepsNewest(front, f, less);
      ListedAppend(Pruned(front, f, less), last, f);
    }
  }

  lemma {:induction false} PruneSparesOthers(versions: seq<Version>, f: File, keep: nat, g: File)
    requires g != f
    ensures Listed(Pruned(versions, f, keep), g) == Listed(versions, g)
  {
    if versions != [] {
      var front, last := versions[..|versions| - 1], versions[|versions| - 1];
      var less := if last.file == f && keep > 0 then keep - 1 else keep;
      PruneSparesOthers(front, f, less, g);
      ListedAppend(Pruned(front, f, less), last, g);
    }
  }

  lemma ListedAppend(versions: seq<Version>, v: Version, f: File)
    ensures Listed(versions + [v], f) == (if v.file == f then [v] else []) + Listed(versions, f)
  {
    assert (versions + [v])[..|versions|] == versions;
  }

  // -------------------------------------------------------------------- runs

  /** `log` records every accepted write: file and content. */
  datatype World = World(tables: Tables, log: seq<(File, Content)>)

  datatype Event =
    | Put(f: File, body: seq<bv8>, mtime: int, baseMtime: Option<int>)
    | Restore(user: nat, game: string, id: nat)

  function Wrote(w: World, f: File, c: Content): World {
    World(Overwritten(w.tables, f, c), w.log + [(f, c)])
  }

  function Step(w: World, e: Event): World {
    match e
    case Put(f, body, mtime, baseMtime) =>
      if PutReplyFor(w.tables.live, f, |body|, baseMtime).Stored? then Wrote(w, f, Content(body, mtime)) else w
    case Restore(user, game, id) =>
      var v := VersionAt(w.tables.versions, user, game, id);
      if v.Some? then Wrote(w, v.value.file, v.value.content) else w
  }

  function Run(events: seq<Event>): World {
    if events == [] then World(Tables(map[], [], 1), [])
    else Step(Run(events[..|events| - 1]), events[|events| - 1])
  }

  // ------------------------------------------------------------- one file's row

  /** The same writes by slot, with the whole path as part of what is written. */
  function BySlot(log: seq<(File, Content)>): (r: seq<(Slot, LiveRow)>)
    ensures |r| == |log|
  {
    seq(|log|, i requires 0 <= i < |log| => (SlotOf(log[i].0), LiveRow(log[i].0.path, log[i].1)))
  }

  /** A row keeps the path of the first write to its slot and the content of the last. */
  ghost predicate SlotOk(w: World, s: Slot) {
    var rows := Story(BySlot(w.log), s);
    if rows == [] then s !in w.tables.live
    else s in w.tables.live && w.tables.live[s] == LiveRow(rows[0].path, rows[|rows| - 1].content)
  }

  lemma BySlotExtends(log: seq<(File, Content)>, f: File, c: Content)
    ensures BySlot(log + [(f, c)]) == BySlot(log) + [(SlotOf(f), LiveRow(f.path, c))]
  {
  }

  lemma WriteKeepsSlot(w: World, f: File, c: Content, s: Slot)
    requires SlotOk(w, s)
    ensures SlotOk(Wrote(w, f, c), s)
  {
    BySlotExtends(w.log, f, c);
    StoryExtends(BySlot(w.log), (SlotOf(f), LiveRow(f.path, c)), s);
  }

  lemma {:induction false} RunKeepsSlot(events: seq<Event>, s: Slot)
    ensures SlotOk(Run(events), s)
  {
    if events != [] {
      RunKeepsSlot(events[..|events| - 1], s);
      var w, e := Run(events[..|events| - 1]), events[|events| - 1];
      if e.Put? {
        WriteKeepsSlot(w, e.f, Content(e.body, e.mtime), s);
      } else {
        var v := VersionAt(w.tables.versions, e.user, e.game, e.id);
        if v.Some? {
          WriteKeepsSlot(w, v.value.file, v.value.content, s);
        }
      }
    }
  }

  /** A write is read back exactly when its slot was free or the file's own. */
  lemma ReadsBackExactlyWhenOwnSlot(t: Tables, f: File, c: Content)
    ensures Row(Overwritten(t, f, c).live, f) == Some(c)
            <==> SlotOf(f) !in t.live || t.live[SlotOf(f)].path == f.path
  {
  }

  /** A write leaves another file alone exactly when that file holds nothing in the
      same slot, or the very same content; its archive is never touched. */
  lemma OthersUntouchedExactlyWhenApart(t: Tables, f: File, c: Content, g: File)
    requires g != f
    ensures Row(Overwritten(t, f, c).live, g) == Row(t.live, g)
            <==> SlotOf(g) != SlotOf(f) || Row(t.live, g) == None || Row(t.live, g) == Some(c)
    ensures Listed(Overwritten(t, f, c).versions, g) == Listed(t.versions, g)
  {
    if Row(t.live, f).Some? {
      var v := Version(t.nextId, f, Row(t.live, f).value);
      ListedAppend(t.versions, v, g);
      PruneSparesOthers(t.versions + [v], f, KEEP, g);
    }
  }

  /** What a write with a base overwrites is what that base names, never anything newer;
      and a base of 0 is checked like any other, so it only stores where there is no row,
      or one stamped 0. */
  lemma StoredMatchesItsBase(events: seq<Event>, f: File, body: seq<bv8>, mtime: int, base: int)
    ensures var w, w2 := Run(events), Step(Run(events), Put(f, body, mtime, Some(base)));
            var row := Row(w.tables.live, f);
            if ValidPath(f.path) && 1 <= |body| <= 52_428_800 && base == (if row.Some? then row.value.mtime else 0)
            then w2 == World(Overwritten(w.tables, f, Content(body, mtime)), w.log + [(f, Content(body, mtime))])
            else w2 == w
  {
  }

  /** Two files share a row exactly when account and game are the same and their paths are,
      up to the first 191 characters. */
  lemma SharesRowExactlyWhen(f: File, g: File)
    ensures SlotOf(f) == SlotOf(g)
            <==> && f.user == g.user && f.game == g.game
                 && f.path[..if |f.path| < 191 then |f.path| else 191]
                    == g.path[..if |g.path| < 191 then |g.path| else 191]
  {
  }

  /** An accepted path names a file below the game's directory: it is relative, of at most
      400 bytes, and none of its segments is empty or a step up or in place. */
  lemma AcceptedPathsStayInside(p: string)
    ensures ValidPath(p)
            <==> && p != "" && Utf8Length(p) <= 400 && p[0] != '/' && '\\' !in p && '\0' !in p
                 && forall i: nat, j: nat :: IsSegment(p, i, j) ==> !NamesNothing(p[i..j])
  {
    if p != "" {
      SegmentsNameFiles(p);
    }
  }

  function Repeat(c: char, n: nat): (s: string)
    ensures |s| == n && forall i :: 0 <= i < n ==> s[i] == c
  {
    seq(n, i => c)
  }

  lemma {:induction false} PlainTextIsOneSegment(p: string)
    requires forall i :: 0 <= i < |p| ==> 'a' <= p[i] <= 'z'
    ensures FirstSegment(p) == p && Utf8Length(p) == |p|
  {
    if p != "" {
      PlainTextIsOneSegment(p[1..]);
    }
  }

  lemma PlainPathIsValid(p: string)
    requires 2 < |p| <= PATH_MAX && forall i :: 0 <= i < |p| ==> 'a' <= p[i] <= 'z'
    ensures ValidPath(p)
  {
    PlainTextIsOneSegment(p);
  }

  function LongPath(last: char): (p: string)
    ensures |p| == KEY_CHARS + 1 && p[KEY_CHARS] == last && p[..KEY_CHARS] == Repeat('a', KEY_CHARS)
  {
    Repeat('a', KEY_CHARS) + [last]
  }

  /** Valid paths do share slots: a save can be silently replaced by another file's. */
  lemma DistinctValidPathsCollide(user: nat, game: string)
    ensures var f, g := File(user, game, LongPath('x')), File(user, game, LongPath('y'));
            f != g && ValidPath(f.path) && ValidPath(g.path) && SlotOf(f) == SlotOf(g)
  {
    PlainPathIsValid(LongPath('x'));
    PlainPathIsValid(LongPath('y'));
    assert LongPath('x')[KEY_CHARS] != LongPath('y')[KEY_CHARS];
  }

  /** A run of two accepted puts: the second file does not read back, the first holds the
      second's bytes, and its own are in no archive. */
  lemma ASaveIsReplaced(user: nat, game: string, a: seq<bv8>, b: seq<bv8>)
    requires 0 < |a| <= MAX_BYTES && 0 < |b| <= MAX_BYTES
    ensures var f, g := File(user, game, LongPath('x')), File(user, game, LongPath('y'));
            var w := Run([Put(f, a, 1, None)] + [Put(g, b, 2, None)]);
            && w.log == [(f, Content(a, 1)), (g, Content(b, 2))]
            && Row(w.tables.live, g) == None && Row(w.tables.live, f) == Some(Content(b, 2)) && w.tables.versions == []
  {
    var f, g := File(user, game, LongPath('x')), File(user, game, LongPath('y'));
    DistinctValidPathsCollide(user, game);
    var one, two := [Put(f, a, 1, None)], [Put(f, a, 1, None)] + [Put(g, b, 2, None)];
    assert one[..0] == [] && two[..1] == one;
    assert PutReplyFor(map[], f, |a|, None) == Stored;
    assert Run(one).log == [(f, Content(a, 1))];
    assert PutReplyFor(Run(one).tables.live, g, |b|, None) == Stored;
  }

  // ----------------------------------------------------------- the full history

  /** No other file written so far shares this file's slot. */
  ghost predicate Alone(log: seq<(File, Content)>, f: File) {
    forall i :: 0 <= i < |log| && SlotOf(log[i].0) == SlotOf(f) ==> log[i].0 == f
  }

  /** The live row is the latest content, and the archive exactly the contents
      overwritten before it, newest first, up to ten. */
  ghost predicate HistoryOf(written: seq<Content>, row: Option<Content>, listed: seq<Version>) {
    if written == [] then row == None && listed == []
    else
      && row == Some(written[|written| - 1])
      && |listed| == (if |written| - 1 <= 10 then |written| - 1 else 10)
      && Backwards(written, listed)
  }

  /** From the last content but one, back. */
  ghost predicate Backwards(written: seq<Content>, listed: seq<Version>) {
    |listed| < |written| && forall k :: 0 <= k < |listed| ==> listed[k].content == written[|written| - 2 - k]
  }

  ghost predicate Faithful(w: World, f: File) {
    HistoryOf(Story(w.log, f), Row(w.tables.live, f), Listed(w.tables.versions, f))
  }

  /** Nothing empty is ever stored. */
  ghost predicate NoneEmpty(t: Tables) {
    (forall s :: s in t.live ==> t.live[s].content.data != []) && forall v :: v in t.versions ==> v.content.data != []
  }

  lemma {:induction false} PrunedAreOld(versions: seq<Version>, f: File, keep: nat)
    ensures forall v :: v in Pruned(versions, f, keep) ==> v in versions
  {
    if versions != [] {
      var front := versions[..|versions| - 1];
      PrunedAreOld(front, f, keep);
      PrunedAreOld(front, f, if keep == 0 then 0 else keep - 1);
      assert versions == front + [versions[|versions| - 1]];
    }
  }

  lemma WriteKeepsNoneEmpty(t: Tables, f: File, c: Content)
    requires NoneEmpty(t) && c.data != []
    ensures NoneEmpty(Overwritten(t, f, c))
  {
    if Row(t.live, f).Some? {
      PrunedAreOld(t.versions + [Version(t.nextId, f, Row(t.live, f).value)], f, KEEP);
    }
  }

  lemma BackwardsGrows(written: seq<Content>, c: Content, listed: seq<Version>, v: Version)
    requires Backwards(written, listed) && v.content == written[|written| - 1]
    ensures Backwards(written + [c], [v] + listed)
  {
    var longer, all := written + [c], [v] + listed;
    forall k | 0 <= k < |all| ensures all[k].content == longer[|longer| - 2 - k] {
      if k > 0 {
        assert all[k] == listed[k - 1];
      }
    }
  }

  lemma HistoryGrows(written: seq<Content>, c: Content, listed: seq<Version>, v: Version, listed2: seq<Version>)
    requires written != [] && HistoryOf(written, Some(v.content), listed)
    requires |listed2| <= |listed| + 1 && listed2 == ([v] + listed)[..|listed2|]
    requires |listed2| == if |listed| + 1 <= KEEP then |listed| + 1 else KEEP
    ensures HistoryOf(written + [c], Some(c), listed2)
  {
    BackwardsGrows(written, c, listed, v);
    forall k | 0 <= k < |listed2| ensures listed2[k] == ([v] + listed)[k] {}
  }

  lemma WriteIsFaithful(w: World, f: File, c: Content)
    requires Faithful(w, f) && Alone(w.log, f) && NoneEmpty(w.tables) && SlotOk(w, SlotOf(f))
    ensures Faithful(Wrote(w, f, c), f)
  {
    StoryExtends(w.log, (f, c), f);
    if Story(w.log, f) == [] {
      AloneHasOwnSlot(w.log, f);
    } else {
      RewriteIsFaithful(w, f, c, Story(w.log, f));
    }
  }

  lemma RewriteIsFaithful(w: World, f: File, c: Content, written: seq<Content>)
    requires written != [] && HistoryOf(written, Row(w.tables.live, f), Listed(w.tables.versions, f))
    requires NoneEmpty(w.tables)
    ensures var t := Overwritten(w.tables, f, c); HistoryOf(written + [c], Row(t.live, f), Listed(t.versions, f))
  {
    var t, t2 := w.tables, Overwritten(w.tables, f, c);
    var v := Version(t.nextId, f, Row(t.live, f).value);
    ListedAppend(t.versions, v, f);
    PruneKeepsNewest(t.versions + [v], f, KEEP);
    HistoryGrows(written, c, Listed(t.versions, f), v, Listed(t2.versions, f));
  }

  /** Alone in its slot, a file's writes are the slot's. */
  lemma {:induction false} AloneHasOwnSlot(log: seq<(File, Content)>, f: File)
    requires Alone(log, f)
    ensures Story(BySlot(log), SlotOf(f)) == [] <==> Story(log, f) == []
  {
    if log != [] {
      var front, last := log[..|log| - 1], log[|log| - 1];
      assert front + [last] == log;
      BySlotExtends(front, last.0, last.1);
      StoryExtends(front, last, f);
      StoryExtends(BySlot(front), (SlotOf(last.0), LiveRow(last.0.path, last.1)), SlotOf(f));
      AloneHasOwnSlot(front, f);
    }
  }

  lemma OtherWriteIsFaithful(w: World, f: File, g: File, c: Content)
    requires Faithful(w, f) && SlotOf(g) != SlotOf(f)
    ensures Faithful(Wrote(w, g, c), f)
  {
    StoryExtends(w.log, (g, c), f);
    OthersUntouchedExactlyWhenApart(w.tables, g, c, f);
  }

  lemma WriteKeepsHistory(w: World, f: File, g: File, c: Content)
    requires Alone(w.log, f) ==> Faithful(w, f)
    requires NoneEmpty(w.tables) && SlotOk(w, SlotOf(f))
    ensures Alone(w.log + [(g, c)], f) ==> Faithful(Wrote(w, g, c), f)
  {
    var longer := w.log + [(g, c)];
    if Alone(longer, f) {
      forall i | 0 <= i < |w.log| && SlotOf(w.log[i].0) == SlotOf(f) ensures w.log[i].0 == f {
        assert longer[i] == w.log[i];
      }
      assert longer[|w.log|] == (g, c);
      if g == f {
        WriteIsFaithful(w, f, c);
      } else {
        OtherWriteIsFaithful(w, f, g, c);
      }
    }
  }

  lemma {:induction false} VersionAtIsThere(versions: seq<Version>, user: nat, game: string, id: nat)
    ensures var v := VersionAt(versions, user, game, id);
            v.Some? ==> && v.value in versions && v.value.id == id
                        && v.value.file.user == user && v.value.file.game == game
  {
    if versions != [] {
      VersionAtIsThere(versions[..|versions| - 1], user, game, id);
    }
  }

  lemma {:induction false} RunKeepsHistory(events: seq<Event>, f: File)
    ensures NoneEmpty(Run(events).tables)
    ensures Alone(Run(events).log, f) ==> Faithful(Run(events), f)
  {
    if events != [] {
      var front, e := events[..|events| - 1], events[|events| - 1];
      RunKeepsHistory(front, f);
      RunKeepsSlot(front, SlotOf(f));
      var w := Run(front);
      if e.Put? {
        if PutReplyFor(w.tables.live, e.f, |e.body|, e.baseMtime).Stored? {
          WriteKeepsNoneEmpty(w.tables, e.f, Content(e.body, e.mtime));
          WriteKeepsHistory(w, f, e.f, Content(e.body, e.mtime));
        }
      } else {
        VersionAtIsThere(w.tables.versions, e.user, e.game, e.id);
        var v := VersionAt(w.tables.versions, e.user, e.game, e.id);
        if v.Some? {
          WriteKeepsNoneEmpty(w.tables, v.value.file, v.value.content);
          WriteKeepsHistory(w, f, v.value.file, v.value.content);
        }
      }
    }
  }

  lemma WriteSparesUnwritten(w: World, g: File, c: Content, f: File)
    requires Story(w.log, f) == [] ==> Listed(w.tables.versions, f) == []
    ensures Story(Wrote(w, g, c).log, f) == [] ==> Listed(Wrote(w, g, c).tables.versions, f) == []
  {
    StoryExtends(w.log, (g, c), f);
    if g != f {
      OthersUntouchedExactlyWhenApart(w.tables, g, c, f);
    }
  }

  lemma {:induction false} UnwrittenHasNoVersions(events: seq<Event>, f: File)
    ensures Story(Run(events).log, f) == [] ==> Listed(Run(events).tables.versions, f) == []
  {
    if events != [] {
      var front, e := events[..|events| - 1], events[|events| - 1];
      UnwrittenHasNoVersions(front, f);
      if e.Put? {
        WriteSparesUnwritten(Run(front), e.f, Content(e.body, e.mtime), f);
      } else {
        var v := VersionAt(Run(front).tables.versions, e.user, e.game, e.id);
        if v.Some? {
          WriteSparesUnwritten(Run(front), v.value.file, v.value.content, f);
        }
      }
    }
  }

  /** No two different files were ever written to one slot. */
  ghost predicate OneFile(log: seq<(File, Content)>, s: Slot) {
    forall i, j | 0 <= i < |log| && 0 <= j < |log| && SlotOf(log[i].0) == s && SlotOf(log[j].0) == s ::
      log[i].0 == log[j].0
  }

  lemma IntruderIsUnfaithful(events: seq<Event>, i: nat, j: nat)
    requires var log := Run(events).log;
             i < |log| && j < |log| && SlotOf(log[i].0) == SlotOf(log[j].0) && log[i].0 != log[j].0
    ensures !Faithful(Run(events), Run(events).log[i].0) || !Faithful(Run(events), Run(events).log[j].0)
  {
    var w := Run(events);
    var s := SlotOf(w.log[i].0);
    RunKeepsSlot(events, s);
    StoryHolds(w.log, w.log[i].0, w.log[i].1);
    StoryHolds(w.log, w.log[j].0, w.log[j].1);
    assert w.log[i] in w.log && w.log[j] in w.log;
    assert Row(w.tables.live, w.log[i].0) == None || Row(w.tables.live, w.log[j].0) == None;
  }

  lemma UnwrittenIsFaithful(events: seq<Event>, f: File)
    requires Story(Run(events).log, f) == [] && OneFile(Run(events).log, SlotOf(f))
    ensures Faithful(Run(events), f)
  {
    var w := Run(events);
    UnwrittenHasNoVersions(events, f);
    RunKeepsSlot(events, SlotOf(f));
    var rows := Story(BySlot(w.log), SlotOf(f));
    if rows != [] {
      StoryHolds(BySlot(w.log), SlotOf(f), rows[0]);
      var i :| 0 <= i < |w.log| && BySlot(w.log)[i] == (SlotOf(f), rows[0]);
      assert w.log[i] in w.log;
      StoryHolds(w.log, f, w.log[i].1);
    }
  }

  /** After any run of puts and restores, the files of one slot all have the history
      promised for them exactly when no two of them were ever written. */
  lemma HistoryHoldsExactlyWhenOneFile(events: seq<Event>, s: Slot)
    ensures (forall f :: SlotOf(f) == s ==> Faithful(Run(events), f)) <==> OneFile(Run(events).log, s)
  {
    var log := Run(events).log;
    if OneFile(log, s) {
      forall f | SlotOf(f) == s ensures Faithful(Run(events), f) {
        if Story(log, f) == [] {
          UnwrittenIsFaithful(events, f);
        } else {
          WrittenIsAlone(log, f);
          RunKeepsHistory(events, f);
        }
      }
    } else {
      var i: nat, j: nat :|
        i < |log| && j < |log| && SlotOf(log[i].0) == s && SlotOf(log[j].0) == s && log[i].0 != log[j].0;
      IntruderIsUnfaithful(events, i, j);
    }
  }

  lemma WrittenIsAlone(log: seq<(File, Content)>, f: File)
    requires Story(log, f) != [] && OneFile(log, SlotOf(f))
    ensures Alone(log, f)
  {
    var c := Story(log, f)[0];
    StoryHolds(log, f, c);
    var k :| 0 <= k < |log| && log[k] == (f, c);
  }

  ghost predicate IdsOk(t: Tables) {
    (forall i, j :: 0 <= i < j < |t.versions| ==> t.versions[i].id < t.versions[j].id)
    && forall i :: 0 <= i < |t.versions| ==> t.versions[i].id < t.nextId
  }

  lemma {:induction false} PrunedKeepsIds(versions: seq<Version>, f: File, keep: nat, bound: nat)
    requires IdsOk(Tables(map[], versions, bound))
    ensures IdsOk(Tables(map[], Pruned(versions, f, keep), bound))
  {
    if versions != [] {
      var front, last := versions[..|versions| - 1], versions[|versions| - 1];
      var less := if last.file == f && keep > 0 then keep - 1 else keep;
      PrunedKeepsIds(front, f, less, last.id);
    }
  }

  lemma {:induction false} RunKeepsIds(events: seq<Event>)
    ensures IdsOk(Run(events).tables)
  {
    if events != [] {
      RunKeepsIds(events[..|events| - 1]);
      var t, e := Run(events[..|events| - 1]).tables, events[|events| - 1];
      if e.Put? {
        WriteKeepsIds(t, e.f, Content(e.body, e.mtime));
      } else {
        var v := VersionAt(t.versions, e.user, e.game, e.id);
        if v.Some? {
          WriteKeepsIds(t, v.value.file, v.value.content);
        }
      }
    }
  }

  lemma WriteKeepsIds(t: Tables, f: File, c: Content)
    requires IdsOk(t)
    ensures IdsOk(Overwritten(t, f, c))
  {
    if Row(t.live, f).Some? {
      PrunedKeepsIds(t.versions + [Version(t.nextId, f, Row(t.live, f).value)], f, KEEP, t.nextId + 1);
    }
  }

  lemma {:induction false} ListedAreThere(versions: seq<Version>, f: File, k: nat)
    requires k < |Listed(versions, f)|
    ensures Listed(versions, f)[k] in versions && Listed(versions, f)[k].file == f
  {
    var front, last := versions[..|versions| - 1], versions[|versions| - 1];
    assert versions == front + [last];
    if last.file != f {
      ListedAreThere(front, f, k);
    } else if k > 0 {
      ListedAreThere(front, f, k - 1);
    }
  }

  /** An id names one version. */
  lemma {:induction false} VersionIsFound(versions: seq<Version>, i: nat)
    requires i < |versions| && forall j :: i < j < |versions| ==> versions[j].id > versions[i].id
    ensures VersionAt(versions, versions[i].file.user, versions[i].file.game, versions[i].id) == Some(versions[i])
    decreases |versions|
  {
    if i < |versions| - 1 {
      VersionIsFound(versions[..|versions| - 1], i);
    }
  }

  lemma ListedIsFound(versions: seq<Version>, bound: nat, f: File, k: nat)
    requires IdsOk(Tables(map[], versions, bound)) && k < |Listed(versions, f)|
    ensures var v := Listed(versions, f)[k];
            v in versions && v.file == f && VersionAt(versions, f.user, f.game, v.id) == Some(v)
  {
    ListedAreThere(versions, f, k);
    var i :| 0 <= i < |versions| && versions[i] == Listed(versions, f)[k];
    VersionIsFound(versions, i);
  }

  lemma HistoryShifts(
    written: seq<Content>, row: Option<Content>, listed: seq<Version>, c: Content, row2: Option<Content>,
    listed2: seq<Version>)
    requires HistoryOf(written, row, listed) && listed != [] && HistoryOf(written + [c], row2, listed2)
    ensures row2 == Some(c) && listed2 != [] && row == Some(listed2[0].content)
  {
  }

  /** Restoring a listed version of a file alone in its slot makes that version live
      and puts what was live at the head of the archive. */
  lemma RestoreSwapsIn(events: seq<Event>, f: File, k: nat)
    requires Alone(Run(events).log, f) && k < |Listed(Run(events).tables.versions, f)|
    ensures var before := Run(events).tables;
            var v := Listed(before.versions, f)[k];
            var after := Step(Run(events), Restore(f.user, f.game, v.id)).tables;
            && Row(after.live, f) == Some(v.content) && Listed(after.versions, f) != []
            && Row(before.live, f) == Some(Listed(after.versions, f)[0].content)
  {
    var w := Run(events);
    RunKeepsIds(events);
    ListedIsFound(w.tables.versions, w.tables.nextId, f, k);
    var v := Listed(w.tables.versions, f)[k];
    var e := Restore(f.user, f.game, v.id);
    RunKeepsHistory(events, f);
    RunKeepsHistory(events + [e], f);
    assert (events + [e])[..|events|] == events;
    StoryExtends(w.log, (f, v.content), f);
    AloneGrows(w.log, f, v.content);
    var t, t2 := w.tables, Run(events + [e]).tables;
    HistoryShifts(
      Story(w.log, f), Row(t.live, f), Listed(t.versions, f), v.content, Row(t2.live, f), Listed(t2.versions, f));
  }

  lemma AloneGrows(log: seq<(File, Content)>, f: File, c: Content)
    requires Alone(log, f)
    ensures Alone(log + [(f, c)], f)
  {
  }
}
