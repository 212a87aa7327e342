/** Bringing the stored catalog in line with a scan (`sync_catalog_db` in src/scan.rs). */
module Catalog {
  /** What only the scan knows: always taken over. */
  datatype Core = Core(
    title: string, platform: string, installType: string, version: string, contentPath: string, launchTarget: string,
    launchArguments: string)

  /** What the scan may know from a sidecar file and enrichment may have found. The
      screenshot addresses are one text, joined by line breaks. */
  datatype Meta = Meta(
    cover: string, igdbId: nat, summary: string, genres: string, rating: real, releaseDate: int, screenshots: string)

  /** Columns the sync does not name. */
  datatype Extra = Extra(heroArt: string, developer: string, publisher: string, franchise: string)

  datatype Game = Game(id: string, core: Core, meta: Meta)

  datatype Row = Row(core: Core, meta: Meta, extra: Extra, updatedAt: int)

  type Rows = map<string, Row>

  const NO_EXTRA := Extra("", "", "", "")

  /** A blank new value keeps the old one. */
  function Keep<T(==)>(was: T, now: T, blank: T): T {
    if now == blank then was else now
  }

  function Enriched(was: Meta, now: Meta): Meta {
    Meta(
      Keep(was.cover, now.cover, ""), Keep(was.igdbId, now.igdbId, 0), Keep(was.summary, now.summary, ""),
      Keep(was.genres, now.genres, ""), Keep(was.rating, now.rating, 0.0), Keep(was.releaseDate, now.releaseDate, 0),
      Keep(was.screenshots, now.screenshots, ""))
  }

  function Upserted(rows: Rows, g: Game, ts: int): Rows {
    if g.id in rows then rows[g.id := Row(g.core, Enriched(rows[g.id].meta, g.meta), rows[g.id].extra, ts)]
    else rows[g.id := Row(g.core, g.meta, NO_EXTRA, ts)]
  }

  function AllUpserted(rows: Rows, games: seq<Game>, ts: int): Rows {
    if games == [] then rows else Upserted(AllUpserted(rows, games[..|games| - 1], ts), games[|games| - 1], ts)
  }

  function Ids(games: seq<Game>): set<string> {
    set i | 0 <= i < |games| :: games[i].id
  }

  function Synced(rows: Rows, games: seq<Game>, ts: int): Rows {
    AllUpserted(rows, games, ts) - (rows.Keys - Ids(games))
  }

  /** Scanned games whose id the catalog did not have, in scan order. */
  function NotIn(games: seq<Game>, ids: set<string>): seq<Game> {
    if games == [] then []
    else NotIn(games[..|games| - 1], ids) + if games[|games| - 1].id in ids then [] else [games[|games| - 1]]
  }

  function Announced(rows: Rows, games: seq<Game>): seq<Game> {
    if rows == map[] then [] else NotIn(games, rows.Keys)
  }

  class CatalogTable {
    var rows: Rows

    constructor ()
      ensures rows == map[]
    {
      rows := map[];
    }

    method Upsert(g: Game, ts: int)
      modifies this
      ensures rows == Upserted(old(rows), g, ts)
    {
      if g.id in rows {
        var was := rows[g.id];
        rows := rows[g.id := was.(core := g.core, meta := Enriched(was.meta, g.meta), updatedAt := ts)];
      } else {
        rows := rows[g.id := Row(g.core, g.meta, NO_EXTRA, ts)];
      }
    }

    method Sync(games: seq<Game>, ts: int) returns (newGames: seq<Game>)
      modifies this
      ensures rows == Synced(old(rows), games, ts) && newGames == Announced(old(rows), games)
    {
      var existing := rows.Keys;
      var initialImport := existing == {};
      assert initialImport <==> rows == map[];
      newGames := [];
      for i := 0 to |games|
        invariant rows == AllUpserted(old(rows), games[..i], ts)
        invariant newGames == if initialImport then [] else NotIn(games[..i], existing)
      {
        assert games[..i + 1][..i] == games[..i];
        if !initialImport && games[i].id !in existing {
          newGames := newGames + [games[i]];
        }
        Upsert(games[i], ts);
      }
      assert games[..|games|] == games;
      var ids := set i | 0 <= i < |games| :: games[i].id;
      DeleteAll(existing - ids);
    }

    method DeleteAll(ids: set<string>)
      modifies this
      ensures rows == old(rows) - ids
    {
      var rest := ids;
      while rest != {}
        invariant rest <= ids && rows == old(rows) - (ids - rest)
        decreases |rest|
      {
        var id :| id in rest;
        rest := rest - {id};
        rows := rows - {id};
      }
    }
  }

  // ------------------------------------------------------------- what remains

  lemma {:induction false} UpsertedKeys(rows: Rows, games: seq<Game>, ts: int)
    ensures AllUpserted(rows, games, ts).Keys == rows.Keys + Ids(games)
  {
    if games != [] {
      var front, last := games[..|games| - 1], games[|games| - 1];
      UpsertedKeys(rows, front, ts);
      assert Ids(games) == Ids(front) + {last.id} by {
        assert games == front + [last];
        assert forall i :: 0 <= i < |front| ==> front[i] == games[i];
      }
    }
  }

  /** The catalog then holds exactly the scanned ids. */
  lemma ExactlyTheScanned(rows: Rows, games: seq<Game>, ts: int)
    ensures Synced(rows, games, ts).Keys == Ids(games)
  {
    UpsertedKeys(rows, games, ts);
  }

  /** Every new game is announced, in scan order, and no other; a first import
      announces nothing. */
  lemma {:induction false} NotInIsNew(games: seq<Game>, ids: set<string>, g: Game)
    ensures g in NotIn(games, ids) <==> g in games && g.id !in ids
  {
    if games != [] {
      var front, last := games[..|games| - 1], games[|games| - 1];
      NotInIsNew(front, ids, g);
      assert games == front + [last];
    }
  }

  /** `picked` are the games at these places of the scan, in its order. */
  ghost predicate PickedAt(games: seq<Game>, picked: seq<Game>, places: seq<nat>) {
    |places| == |picked| && (forall j, k :: 0 <= j < k < |places| ==> places[j] < places[k])
    && forall k :: 0 <= k < |places| ==> places[k] < |games| && games[places[k]] == picked[k]
  }

  lemma PickOneMore(games: seq<Game>, picked: seq<Game>, places: seq<nat>, g: Game)
    requires PickedAt(games, picked, places)
    ensures PickedAt(games + [g], picked, places) && PickedAt(games + [g], picked + [g], places + [|games|])
  {
  }

  /** The new games are those at their places, and no new game is left out. */
  lemma {:induction false} NewAreAtTheirPlaces(games: seq<Game>, ids: set<string>) returns (places: seq<nat>)
    ensures PickedAt(games, NotIn(games, ids), places)
    ensures forall i :: 0 <= i < |games| ==> (games[i].id !in ids <==> i in places)
  {
    places := [];
    if games != [] {
      var front, last := games[..|games| - 1], games[|games| - 1];
      places := NewAreAtTheirPlaces(front, ids);
      assert games == front + [last];
      PickOneMore(front, NotIn(front, ids), places, last);
      if last.id !in ids {
        places := places + [|front|];
      }
    }
  }

  /** Announced are the new games in scan order, each as often as it was scanned. */
  lemma AnnouncesInScanOrder(rows: Rows, games: seq<Game>) returns (places: seq<nat>)
    ensures PickedAt(games, Announced(rows, games), places)
    ensures forall i :: 0 <= i < |games| ==> (i in places <==> rows != map[] && games[i].id !in rows)
  {
    places := [];
    if rows != map[] {
      places := NewAreAtTheirPlaces(games, rows.Keys);
    }
  }

  lemma AnnouncesExactlyTheNew(rows: Rows, games: seq<Game>, g: Game)
    ensures g in Announced(rows, games) <==> rows != map[] && g in games && g.id !in rows
  {
    NotInIsNew(games, rows.Keys, g);
  }

  // ---------------------------------------------------- the algebra of keeping

  /** Scanning the same twice, or in two batches, comes to the same. */
  lemma EnrichedIsABand(a: Meta, b: Meta, c: Meta)
    ensures Enriched(a, a) == a
    ensures Enriched(Enriched(a, b), c) == Enriched(a, Enriched(b, c))
  {
  }

  /** The games of one id, in scan order. */
  function Of(games: seq<Game>, id: string): seq<Game> {
    if games == [] then []
    else Of(games[..|games| - 1], id) + if games[|games| - 1].id == id then [games[|games| - 1]] else []
  }

  /** What a series of scans of one game says together. */
  function Together(games: seq<Game>): Meta
    requires games != []
  {
    if |games| == 1 then games[0].meta else Enriched(Together(games[..|games| - 1]), games[|games| - 1].meta)
  }

  /** The row a sync leaves, read off the old row and the scanned games of that id. */
  function RowAfter(rows: Rows, id: string, games: seq<Game>, ts: int): Row
    requires games != []
  {
    var last := games[|games| - 1];
    if id in rows then Row(last.core, Enriched(rows[id].meta, Together(games)), rows[id].extra, ts)
    else Row(last.core, Together(games), NO_EXTRA, ts)
  }

  lemma TogetherAppend(games: seq<Game>, last: Game)
    requires games != []
    ensures Together(games + [last]) == Enriched(Together(games), last.meta)
  {
    assert (games + [last])[..|games|] == games;
  }

  ghost predicate RowOk(rows: Rows, all: Rows, id: string, ours: seq<Game>, ts: int) {
    if ours == [] then (id in all <==> id in rows) && (id in rows ==> all[id] == rows[id])
    else id in all && all[id] == RowAfter(rows, id, ours, ts)
  }

  lemma OneMoreUpsert(rows: Rows, all: Rows, ours: seq<Game>, g: Game, ts: int)
    requires RowOk(rows, all, g.id, ours, ts)
    ensures RowOk(rows, Upserted(all, g, ts), g.id, ours + [g], ts)
  {
    if ours != [] {
      TogetherAppend(ours, g);
      if g.id in rows {
        EnrichedIsABand(rows[g.id].meta, Together(ours), g.meta);
      }
    }
  }

  lemma {:induction false} UpsertedRow(rows: Rows, games: seq<Game>, ts: int, id: string)
    ensures RowOk(rows, AllUpserted(rows, games, ts), id, Of(games, id), ts)
  {
    if games != [] {
      var front, last := games[..|games| - 1], games[|games| - 1];
      UpsertedRow(rows, front, ts, id);
      if last.id == id {
        OneMoreUpsert(rows, AllUpserted(rows, front, ts), Of(front, id), last, ts);
      } else {
        assert Of(games, id) == Of(front, id);
      }
    }
  }

  lemma {:induction false} OfHasId(games: seq<Game>, id: string)
    ensures Of(games, id) != [] <==> id in Ids(games)
  {
    if games != [] {
      var front, last := games[..|games| - 1], games[|games| - 1];
      OfHasId(front, id);
      assert games == front + [last] && forall i :: 0 <= i < |front| ==> front[i] == games[i];
      if last.id == id {
        assert games[|games| - 1].id == id;
      }
      if id in Ids(games) && last.id != id {
        var i :| 0 <= i < |games| && games[i].id == id;
        assert front[i].id == id;
      }
    }
  }

  lemma SyncedRow(rows: Rows, games: seq<Game>, ts: int, id: string)
    requires id in Ids(games)
    ensures Of(games, id) != [] && id in Synced(rows, games, ts)
    ensures Synced(rows, games, ts)[id] == RowAfter(rows, id, Of(games, id), ts)
  {
    OfHasId(games, id);
    UpsertedRow(rows, games, ts, id);
    ExactlyTheScanned(rows, games, ts);
  }

  /** Syncing the same scan again changes nothing but the time stamps and announces nothing. */
  lemma SecondSyncOnlyRestamps(rows: Rows, games: seq<Game>, ts: int, ts2: int)
    ensures var once := Synced(rows, games, ts);
            Synced(once, games, ts2) == map id | id in once :: once[id].(updatedAt := ts2)
    ensures Announced(Synced(rows, games, ts), games) == []
  {
    var once := Synced(rows, games, ts);
    ExactlyTheScanned(rows, games, ts);
    ExactlyTheScanned(once, games, ts2);
    forall id | id in once ensures Synced(once, games, ts2)[id] == once[id].(updatedAt := ts2) {
      SyncedRow(rows, games, ts, id);
      SyncedRow(once, games, ts2, id);
      var g := Together(Of(games, id));
      EnrichedIsABand(g, g, g);
      if id in rows {
        EnrichedIsABand(rows[id].meta, g, g);
      }
    }
    NothingNew(games, once.Keys);
  }

  lemma {:induction false} NothingNew(games: seq<Game>, ids: set<string>)
    requires forall i :: 0 <= i < |games| ==> games[i].id in ids
    ensures NotIn(games, ids) == []
  {
    if games != [] {
      NothingNew(games[..|games| - 1], ids);
    }
  }

  // ------------------------------------------------------------- field by field

  /** The latest value that is not blank, else the one there was. */
  function LatestKnown<T(==)>(was: T, values: seq<T>, blank: T): T {
    if values == [] then was
    else Keep(LatestKnown(was, values[..|values| - 1], blank), values[|values| - 1], blank)
  }

  function Values<T>(games: seq<Game>, field: Meta -> T): seq<T> {
    seq(|games|, i requires 0 <= i < |games| => field(games[i].meta))
  }

  /** `field` is one of the columns that keep their value against a blank. */
  ghost predicate Keeps<T>(field: Meta -> T, blank: T) {
    forall a, b :: field(Enriched(a, b)) == Keep(field(a), field(b), blank)
  }

  lemma AllSevenKeep()
    ensures Keeps((m: Meta) => m.cover, "") && Keeps((m: Meta) => m.igdbId, 0) && Keeps((m: Meta) => m.summary, "")
    ensures Keeps((m: Meta) => m.genres, "") && Keeps((m: Meta) => m.rating, 0.0)
    ensures Keeps((m: Meta) => m.releaseDate, 0) && Keeps((m: Meta) => m.screenshots, "")
  {
  }

  lemma {:induction false} TogetherIsLatest<T>(was: Meta, games: seq<Game>, field: Meta -> T, blank: T)
    requires games != [] && Keeps(field, blank)
    ensures field(Enriched(was, Together(games))) == LatestKnown(field(was), Values(games, field), blank)
  {
    var front, last := games[..|games| - 1], games[|games| - 1];
    assert Values(games, field)[..|games| - 1] == Values(front, field);
    if |games| > 1 {
      TogetherIsLatest(was, front, field, blank);
      EnrichedIsABand(was, Together(front), last.meta);
    } else {
      assert Values(front, field) == [];
    }
  }

  /** A kept column of a known game: the latest value scanned for it that is not
      blank, or what it was. So no blank ever erases a known value. */
  lemma BlankNeverErases<T>(rows: Rows, games: seq<Game>, ts: int, id: string, field: Meta -> T, blank: T)
    requires id in rows && id in Ids(games) && Keeps(field, blank)
    ensures id in Synced(rows, games, ts)
    ensures var now := field(Synced(rows, games, ts)[id].meta);
            && now == LatestKnown(field(rows[id].meta), Values(Of(games, id), field), blank)
            && (field(rows[id].meta) != blank ==> now != blank)
  {
    SyncedRow(rows, games, ts, id);
    TogetherIsLatest(rows[id].meta, Of(games, id), field, blank);
    KnownStaysKnown(field(rows[id].meta), Values(Of(games, id), field), blank);
  }

  lemma {:induction false} KnownStaysKnown<T>(was: T, values: seq<T>, blank: T)
    ensures was != blank ==> LatestKnown(was, values, blank) != blank
    ensures LatestKnown(was, values, blank) == was || LatestKnown(was, values, blank) in values
  {
    if values != [] {
      KnownStaysKnown(was, values[..|values| - 1], blank);
      assert values == values[..|values| - 1] + [values[|values| - 1]];
    }
  }

  lemma {:induction false} TogetherTakes<T>(games: seq<Game>, field: Meta -> T, blank: T, i: nat)
    requires i < |games| && Keeps(field, blank) && field(games[i].meta) != blank
    requires forall j :: i < j < |games| ==> field(games[j].meta) == blank
    ensures field(Together(games)) == field(games[i].meta)
    decreases |games|
  {
    if i < |games| - 1 {
      var front := games[..|games| - 1];
      TogetherTakes(front, field, blank, i);
      assert field(Enriched(Together(front), games[|games| - 1].meta)) == field(Together(front));
    } else if |games| > 1 {
      assert field(Enriched(Together(games[..i]), games[i].meta)) == field(games[i].meta);
    }
  }

  /** The game is scanned after place `i`. */
  ghost predicate ScannedAfter(games: seq<Game>, i: nat, g: Game) {
    exists j :: i < j < |games| && games[j] == g
  }

  /** Where a scanned game stands among those of its id. */
  lemma {:induction false} PlaceInOf(games: seq<Game>, id: string, i: nat) returns (p: nat)
    requires i < |games| && games[i].id == id
    ensures p < |Of(games, id)| && Of(games, id)[p] == games[i]
    ensures forall q :: p < q < |Of(games, id)| ==>
              Of(games, id)[q].id == id && ScannedAfter(games, i, Of(games, id)[q])
    decreases |games|
  {
    var front, last := games[..|games| - 1], games[|games| - 1];
    if i == |games| - 1 {
      p := |Of(front, id)|;
    } else {
      p := PlaceInOf(front, id, i);
      forall q | p < q < |Of(games, id)|
        ensures Of(games, id)[q].id == id && ScannedAfter(games, i, Of(games, id)[q])
      {
        if q < |Of(front, id)| {
          assert ScannedAfter(front, i, Of(front, id)[q]);
          var j :| i < j < |front| && front[j] == Of(front, id)[q];
          assert games[j] == Of(games, id)[q];
        } else {
          assert games[|games| - 1] == Of(games, id)[q];
        }
      }
    }
  }

  /** A value the scan knows is the column's value afterwards, new game or old, unless a
      later entry of the same id knows another. */
  lemma ScannedValueWins<T>(
    rows: Rows, games: seq<Game>, ts: int, id: string, field: Meta -> T, blank: T, i: nat)
    requires i < |games| && games[i].id == id && Keeps(field, blank) && field(games[i].meta) != blank
    requires forall g: Game :: ScannedAfter(games, i, g) && g.id == id ==> field(g.meta) == blank
    ensures id in Synced(rows, games, ts) && field(Synced(rows, games, ts)[id].meta) == field(games[i].meta)
  {
    assert games[i].id in Ids(games);
    var p := PlaceInOf(games, id, i);
    TogetherTakes(Of(games, id), field, blank, p);
    SyncedRow(rows, games, ts, id);
    if id in rows {
      assert field(Enriched(rows[id].meta, Together(Of(games, id)))) == field(Together(Of(games, id)));
    }
  }

  /** Columns the sync does not name survive it. */
  lemma ExtrasSurvive(rows: Rows, games: seq<Game>, ts: int, id: string)
    requires id in rows && id in Ids(games)
    ensures id in Synced(rows, games, ts) && Synced(rows, games, ts)[id].extra == rows[id].extra
  {
    SyncedRow(rows, games, ts, id);
  }
}
