/** Device identity and the device picker (src/devices.rs). */
module Devices {
  import opened Text
  import opened Wrappers

  const FIELD_MAX: nat := 64

  datatype Device = Device(id: string, name: string, kind: string, version: string)

  predicate IdChar(c: char) {
    'a' <= c <= 'z' || 'A' <= c <= 'Z' || '0' <= c <= '9' || c == '-' || c == '_' || c == '.'
  }

  function SanitizeId(raw: string): Option<string> {
    var trimmed := Trim(raw);
    if trimmed == "" || |trimmed| > FIELD_MAX || exists i :: 0 <= i < |trimmed| && !IdChar(trimmed[i]) then None
    else Some(trimmed)
  }

  function NormalizeKind(raw: string): string {
    match ToAsciiLower(Trim(raw))
    case "desktop" => "desktop"
    case "pc" => "desktop"
    case "windows" => "desktop"
    case "linux" => "desktop"
    case "mac" => "desktop"
    case "macos" => "desktop"
    case "mobile" => "mobile"
    case "android" => "mobile"
    case "ios" => "mobile"
    case "phone" => "mobile"
    case "tablet" => "mobile"
    case _ => "unknown"
  }

  /** The text, trimmed and with ASCII capitals lowered, is one of these words. */
  predicate Says(raw: string, words: set<string>) {
    ToAsciiLower(Trim(raw)) in words
  }

  const DESKTOP_WORDS := {"desktop", "pc", "windows", "linux", "mac", "macos"}

  predicate CanReceiveInstall(kind: string) {
    NormalizeKind(kind) == "desktop"
  }

  // ------------------------------------------------------------ picker order

  /** Lexicographic order by code point, which is byte order of the UTF-8 forms. */
  predicate StringLeq(a: string, b: string) {
    a == "" || (b != "" && (a[0] < b[0] || (a[0] == b[0] && StringLeq(a[1..], b[1..]))))
  }

  function Rank(d: Device): nat {
    if d.kind == "desktop" then 0 else 1
  }

  /** Desktops first, then by lower-cased name, then by id. `lower` stands for the
      library's Unicode lower-casing. */
  predicate DeviceLeq(a: Device, b: Device, lower: string -> string) {
    Rank(a) < Rank(b)
    || (Rank(a) == Rank(b)
        && if lower(a.name) == lower(b.name) then StringLeq(a.id, b.id) else StringLeq(lower(a.name), lower(b.name)))
  }

  ghost predicate Sorted(s: seq<Device>, lower: string -> string) {
    forall i, j :: 0 <= i < j < |s| ==> DeviceLeq(s[i], s[j], lower)
  }

  ghost predicate UniqueIds(s: seq<Device>) {
    forall i, j :: 0 <= i < j < |s| ==> s[i].id != s[j].id
  }

  lemma {:induction false} StringLeqTotal(a: string, b: string)
    ensures StringLeq(a, b) || StringLeq(b, a)
    ensures StringLeq(a, b) && StringLeq(b, a) ==> a == b
  {
    if a != "" && b != "" && a[0] == b[0] {
      StringLeqTotal(a[1..], b[1..]);
    }
  }

  lemma {:induction false} StringLeqTransitive(a: string, b: string, c: string)
    requires StringLeq(a, b) && StringLeq(b, c)
    ensures StringLeq(a, c)
  {
    if a != "" && a[0] == b[0] == c[0] {
      StringLeqTransitive(a[1..], b[1..], c[1..]);
    }
  }

  lemma DeviceLeqTotal(a: Device, b: Device, lower: string -> string)
    ensures DeviceLeq(a, b, lower) || DeviceLeq(b, a, lower)
    ensures DeviceLeq(a, b, lower) && DeviceLeq(b, a, lower) ==> a.id == b.id
  {
    StringLeqTotal(lower(a.name), lower(b.name));
    StringLeqTotal(a.id, b.id);
  }

  lemma DeviceLeqTransitive(a: Device, b: Device, c: Device, lower: string -> string)
    requires DeviceLeq(a, b, lower) && DeviceLeq(b, c, lower)
    ensures DeviceLeq(a, c, lower)
  {
    StringLeqTotal(lower(a.name), lower(b.name));
    StringLeqTotal(lower(b.name), lower(c.name));
    if StringLeq(lower(a.name), lower(b.name)) && StringLeq(lower(b.name), lower(c.name)) {
      StringLeqTransitive(lower(a.name), lower(b.name), lower(c.name));
      StringLeqTotal(lower(a.name), lower(c.name));
    }
    if StringLeq(a.id, b.id) && StringLeq(b.id, c.id) {
      StringLeqTransitive(a.id, b.id, c.id);
    }
  }

  /** The first character that differs decides; a prefix comes first. */
  lemma {:induction false} StringLeqIsLexicographic(p: string, a: string, b: string)
    ensures StringLeq(p, p + a)
    ensures a != "" && b != "" && a[0] < b[0] ==> StringLeq(p + a, p + b) && !StringLeq(p + b, p + a)
  {
    if p == "" {
      assert p + a == a && p + b == b;
    } else {
      StringLeqIsLexicographic(p[1..], a, b);
      assert (p + a)[1..] == p[1..] + a && (p + b)[1..] == p[1..] + b;
    }
  }

  /** The picker lists every desktop before anything else, and within either group by
      lower-cased name and then id. */
  lemma DesktopsComeFirst(rows: seq<Device>, lower: string -> string, i: nat, j: nat)
    requires Sorted(rows, lower) && i < j < |rows|
    ensures rows[j].kind == "desktop" ==> rows[i].kind == "desktop"
    ensures (rows[i].kind == "desktop" <==> rows[j].kind == "desktop")
            ==> if lower(rows[i].name) == lower(rows[j].name) then StringLeq(rows[i].id, rows[j].id)
                else StringLeq(lower(rows[i].name), lower(rows[j].name))
  {
    assert DeviceLeq(rows[i], rows[j], lower);
  }

  // -------------------------------------------------------------- collapsing

  /** The most recently registered device with an id. */
  function LastWithId(devices: seq<Device>, id: string): Option<Device> {
    if devices == [] then None
    else if devices[|devices| - 1].id == id then Some(devices[|devices| - 1])
    else LastWithId(devices[..|devices| - 1], id)
  }

  /** What the picker must show for a list of sockets' devices. */
  ghost predicate IsCollapsed(devices: seq<Device>, rows: seq<Device>, lower: string -> string) {
    UniqueIds(rows) && Sorted(rows, lower)
    && forall d :: d in rows <==> LastWithId(devices, d.id) == Some(d)
  }

  /** The library's sort: any order-respecting arrangement of the same rows. */
  method SortDevices(rows: seq<Device>, lower: string -> string) returns (out: seq<Device>)
    requires UniqueIds(rows)
    ensures Sorted(out, lower) && UniqueIds(out) && forall d :: d in out <==> d in rows
  {
    out := [];
    for i := 0 to |rows|
      invariant Sorted(out, lower) && UniqueIds(out)
      invariant forall d :: d in out <==> d in rows[..i]
    {
      assert rows[i] !in rows[..i];
      var k := |out|;
      while k > 0 && !DeviceLeq(out[k - 1], rows[i], lower)
        invariant 0 <= k <= |out|
        invariant forall j :: k <= j < |out| ==> DeviceLeq(rows[i], out[j], lower)
      {
        DeviceLeqTotal(out[k - 1], rows[i], lower);
        k := k - 1;
      }
      InsertKeepsOrder(out, rows[i], k, lower);
      forall j | 0 <= j < |out| ensures out[j].id != rows[i].id {
        assert out[j] in rows[..i];
      }
      assert rows[..i + 1] == rows[..i] + [rows[i]];
      out := out[..k] + [rows[i]] + out[k..];
    }
    assert rows[..|rows|] == rows;
  }

  lemma InsertKeepsOrder(s: seq<Device>, d: Device, k: nat, lower: string -> string)
    requires Sorted(s, lower) && k <= |s|
    requires k > 0 ==> DeviceLeq(s[k - 1], d, lower)
    requires forall j :: k <= j < |s| ==> DeviceLeq(d, s[j], lower)
    ensures Sorted(s[..k] + [d] + s[k..], lower)
  {
    forall j | 0 <= j < k ensures DeviceLeq(s[j], d, lower) {
      if j < k - 1 {
        DeviceLeqTransitive(s[j], s[k - 1], d, lower);
      }
    }
  }

  method CollapseDevices(devices: seq<Device>, lower: string -> string) returns (out: seq<Device>)
    ensures IsCollapsed(devices, out, lower)
  {
    var seen: set<string> := {};
    var kept: seq<Device> := [];
    var i := |devices|;
    while i > 0
      invariant 0 <= i <= |devices|
      invariant UniqueIds(kept)
      invariant forall id :: id in seen <==> LastWithId(devices[i..], id).Some?
      invariant forall d :: d in kept <==> LastWithId(devices[i..], d.id) == Some(d)
    {
      i := i - 1;
      FirstMatters(devices, i);
      if devices[i].id !in seen {
        seen := seen + {devices[i].id};
        kept := kept + [devices[i]];
      }
    }
    assert devices[0..] == devices;
    out := SortDevices(kept, lower);
  }

  function LaterOr(devices: seq<Device>, i: nat, id: string): Option<Device>
    requires i < |devices|
  {
    var later := LastWithId(devices[i + 1..], id);
    if later.Some? then later else if devices[i].id == id then Some(devices[i]) else None
  }

  /** Looking back from the end, an older device counts only if its id is new. */
  lemma {:induction false} FirstMatters(devices: seq<Device>, i: nat)
    requires i < |devices|
    ensures forall id :: LastWithId(devices[i..], id) == LaterOr(devices, i, id)
  {
    forall id ensures LastWithId(devices[i..], id) == LaterOr(devices, i, id) {
      LastOfAppend([devices[i]], devices[i + 1..], id);
      assert [devices[i]] + devices[i + 1..] == devices[i..];
    }
  }

  /** The later list wins. */
  lemma {:induction false} LastOfAppend(a: seq<Device>, b: seq<Device>, id: string)
    ensures LastWithId(a + b, id) == if LastWithId(b, id).Some? then LastWithId(b, id) else LastWithId(a, id)
    decreases |b|
  {
    if b == [] {
      assert a + b == a;
    } else {
      assert (a + b)[..|a + b| - 1] == a + b[..|b| - 1];
      LastOfAppend(a, b[..|b| - 1], id);
    }
  }

  lemma SomeElement<T>(s: seq<T>)
    ensures s != [] ==> exists x :: x in s
  {
    if s != [] {
      assert s[0] in s;
    }
  }

  /** Two sorted lists of the same rows are the same list. */
  lemma {:induction false} SortedIsUnique(a: seq<Device>, b: seq<Device>, lower: string -> string)
    requires Sorted(a, lower) && Sorted(b, lower) && UniqueIds(a) && UniqueIds(b)
    requires forall d :: d in a <==> d in b
    ensures a == b
  {
    if a != [] && b != [] {
      assert a[0] in b && b[0] in a;
      DeviceLeqTotal(a[0], b[0], lower);
      assert a[0] == b[0];
      forall d ensures d in a[1..] <==> d in b[1..] {
        assert d in a[1..] <==> d in a && d != a[0];
        assert d in b[1..] <==> d in b && d != b[0];
      }
      SortedIsUnique(a[1..], b[1..], lower);
      assert a == [a[0]] + a[1..] && b == [b[0]] + b[1..];
    } else {
      SomeElement(a);
      SomeElement(b);
    }
  }

  /** The picker's list is a function of the sockets' devices. */
  lemma CollapseIsUnique(devices: seq<Device>, a: seq<Device>, b: seq<Device>, lower: string -> string)
    requires IsCollapsed(devices, a, lower) && IsCollapsed(devices, b, lower)
    ensures a == b
  {
    SortedIsUnique(a, b, lower);
  }

  lemma {:induction false} UniqueFindsItself(rows: seq<Device>, d: Device)
    requires UniqueIds(rows)
    ensures d in rows <==> LastWithId(rows, d.id) == Some(d)
  {
    if rows != [] {
      var front, last := rows[..|rows| - 1], rows[|rows| - 1];
      assert rows == front + [last];
      UniqueFindsItself(front, d);
    }
  }

  /** Collapsing twice is collapsing once. */
  lemma CollapseIsIdempotent(devices: seq<Device>, once: seq<Device>, twice: seq<Device>, lower: string -> string)
    requires IsCollapsed(devices, once, lower) && IsCollapsed(once, twice, lower)
    ensures twice == once
  {
    forall d ensures d in once <==> LastWithId(once, d.id) == Some(d) {
      UniqueFindsItself(once, d);
    }
    CollapseIsUnique(once, once, twice, lower);
  }

  /** The list covers exactly the ids present, each by its latest registration. */
  lemma {:induction false} LastIsLatest(devices: seq<Device>, id: string)
    ensures LastWithId(devices, id).Some? <==> exists i :: 0 <= i < |devices| && devices[i].id == id
    ensures LastWithId(devices, id).Some?
            ==> exists i :: 0 <= i < |devices| && devices[i] == LastWithId(devices, id).value && devices[i].id == id
                            && forall j :: i < j < |devices| ==> devices[j].id != id
  {
    if devices != [] {
      var front := devices[..|devices| - 1];
      LastIsLatest(front, id);
      if devices[|devices| - 1].id != id && LastWithId(front, id).Some? {
        var i :| 0 <= i < |front| && front[i] == LastWithId(front, id).value && front[i].id == id
                 && forall j :: i < j < |front| ==> front[j].id != id;
        assert devices[i] == front[i];
      }
    }
  }

  // --------------------------------------------------------- remote install

  datatype InstallReject = NoTarget | NoGame | UnknownDevice | NotInstallable

  /** An id is taken as it stands, less the white space around it, or not at all: it has
      at most 64 characters, all letters, digits, dashes, underscores or dots. */
  lemma IdsAreTakenAsTheyAre(raw: string)
    ensures var id := Trim(raw);
            SanitizeId(raw) == if 0 < |id| <= 64 && PlainText(id) then Some(id) else None
  {
    var id := Trim(raw);
    if exists i :: 0 <= i < |id| && !IdChar(id[i]) {
      var i :| 0 <= i < |id| && !IdChar(id[i]);
      assert id[i] in id;
    } else {
      forall c | c in id ensures IdChar(c) {
        var i :| 0 <= i < |id| && id[i] == c;
      }
    }
  }

  predicate PlainText(s: string) {
    forall c :: c in s ==> 'a' <= c <= 'z' || 'A' <= c <= 'Z' || '0' <= c <= '9' || c == '-' || c == '_' || c == '.'
  }

  method CheckInstallTarget(targetId: string, gameId: string, devices: seq<Device>)
    returns (r: Result<string, InstallReject>)
    ensures r.Ok? ==> SanitizeId(targetId) == Some(r.value) && Trim(gameId) != ""
                      && exists d :: d in devices && d.id == r.value && Says(d.kind, DESKTOP_WORDS)
    ensures r == Err(NoTarget) <==> SanitizeId(targetId).None?
    ensures r == Err(NoGame) <==> SanitizeId(targetId).Some? && Trim(gameId) == ""
    ensures r == Err(UnknownDevice) <==> SanitizeId(targetId).Some? && Trim(gameId) != ""
                                         && forall d :: d in devices ==> d.id != SanitizeId(targetId).value
    ensures UniqueIds(devices) && r == Err(NotInstallable)
            ==> exists d :: d in devices && d.id == SanitizeId(targetId).value && !Says(d.kind, DESKTOP_WORDS)
    ensures UniqueIds(devices) && r.Ok? ==> forall d :: d in devices && d.id == r.value ==> Says(d.kind, DESKTOP_WORDS)
  {
    var target := SanitizeId(targetId);
    if target.None? {
      return Err(NoTarget);
    }
    if Trim(gameId) == "" {
      return Err(NoGame);
    }
    var i := 0;
    while i < |devices| && devices[i].id != target.value
      invariant i <= |devices| && forall j :: 0 <= j < i ==> devices[j].id != target.value
    {
      i := i + 1;
    }
    if i == |devices| {
      return Err(UnknownDevice);
    }
    assert devices[i] in devices;
    if !CanReceiveInstall(devices[i].kind) {
      return Err(NotInstallable);
    }
    return Ok(target.value);
  }

  // ------------------------------------------------- cross-instance registry

  datatype RegistryEntry = RegistryEntry(at: nat, devices: seq<Device>)

  predicate IsFresh(e: RegistryEntry, now: nat, ttl: nat) {
    (if now < e.at then 0 else now - e.at) <= ttl
  }

  function FreshDevices(entries: seq<RegistryEntry>, now: nat, ttl: nat): seq<Device> {
    if entries == [] then []
    else
      var last := entries[|entries| - 1];
      FreshDevices(entries[..|entries| - 1], now, ttl) + if IsFresh(last, now, ttl) then last.devices else []
  }

  method MergeDeviceRegistry(entries: seq<RegistryEntry>, now: nat, ttl: nat, lower: string -> string)
    returns (rows: seq<Device>)
    ensures IsCollapsed(FreshDevices(entries, now, ttl), rows, lower)
  {
    var all: seq<Device> := [];
    for i := 0 to |entries|
      invariant all == FreshDevices(entries[..i], now, ttl)
    {
      assert entries[..i + 1][..i] == entries[..i];
      if IsFresh(entries[i], now, ttl) {
        all := all + entries[i].devices;
      }
    }
    assert entries[..|entries|] == entries;
    rows := CollapseDevices(all, lower);
  }

  /** The whole picker: what peers published, then this instance's own sockets. */
  method FanoutDevices(
    peers: seq<RegistryEntry>, local: seq<Device>, readAt: nat, now: nat, ttl: nat, lower: string -> string)
    returns (rows: seq<Device>)
    ensures IsCollapsed(FreshDevices(peers + [RegistryEntry(readAt, local)], now, ttl), rows, lower)
  {
    rows := MergeDeviceRegistry(peers + [RegistryEntry(readAt, local)], now, ttl, lower);
  }

  /** In the merged list every locally held device shows its local row, whatever
      the peers published, provided the clock did not jump between the two reads. */
  lemma LocalRowWins(
    peers: seq<RegistryEntry>, local: seq<Device>, readAt: nat, now: nat, ttl: nat, rows: seq<Device>, d: Device,
    lower: string -> string)
    requires UniqueIds(local) && d in local && now <= readAt + ttl
    requires IsCollapsed(FreshDevices(peers + [RegistryEntry(readAt, local)], now, ttl), rows, lower)
    ensures d in rows && forall e :: e in rows && e.id == d.id ==> e == d
  {
    var entries := peers + [RegistryEntry(readAt, local)];
    assert entries[..|entries| - 1] == peers;
    LastOfAppend(FreshDevices(peers, now, ttl), local, d.id);
    UniqueFindsItself(local, d);
  }

  lemma ReadAddsLocal(peers: seq<RegistryEntry>, local: seq<Device>, readAt: nat, now: nat, ttl: nat)
    ensures FreshDevices(peers + [RegistryEntry(readAt, local)], now, ttl)
            == FreshDevices(peers, now, ttl) + if IsFresh(RegistryEntry(readAt, local), now, ttl) then local else []
  {
    assert (peers + [RegistryEntry(readAt, local)])[..|peers|] == peers;
  }

  /** A locally held device shows its local row exactly when the local list was read
      freshly, or a fresh peer's latest word on that device happens to be the same row.
      The clock is read twice, so a jump past the lifetime loses the first. */
  lemma LocalRowShownExactlyWhen(
    peers: seq<RegistryEntry>, local: seq<Device>, readAt: nat, now: nat, ttl: nat, rows: seq<Device>, d: Device,
    lower: string -> string)
    requires UniqueIds(local) && d in local
    requires IsCollapsed(FreshDevices(peers + [RegistryEntry(readAt, local)], now, ttl), rows, lower)
    ensures d in rows
            <==> now <= readAt + ttl
                 || LastWithId(FreshDevices(peers, now, ttl), d.id) == Some(d)
  {
    ReadAddsLocal(peers, local, readAt, now, ttl);
    if IsFresh(RegistryEntry(readAt, local), now, ttl) {
      LocalRowWins(peers, local, readAt, now, ttl, rows, d, lower);
    } else {
      assert FreshDevices(peers, now, ttl) + [] == FreshDevices(peers, now, ttl);
    }
  }

  /** So it can be lost: with no peers and a clock that jumped, a connected device is not
      offered at all. */
  lemma LocalRowCanBeLost(d: Device, ttl: nat, rows: seq<Device>, lower: string -> string)
    requires IsCollapsed(FreshDevices([] + [RegistryEntry(0, [d])], ttl + 1, ttl), rows, lower)
    ensures d !in rows
  {
    LocalRowShownExactlyWhen([], [d], 0, ttl + 1, ttl, rows, d, lower);
  }

  /** And a device no longer published by anyone fresh is not offered. */
  lemma OnlyFreshDevicesShown(
    entries: seq<RegistryEntry>, now: nat, ttl: nat, rows: seq<Device>, d: Device, lower: string -> string)
    requires IsCollapsed(FreshDevices(entries, now, ttl), rows, lower) && d in rows
    ensures exists i :: 0 <= i < |entries| && now <= entries[i].at + ttl && d in entries[i].devices
  {
    LastIsLatest(FreshDevices(entries, now, ttl), d.id);
    FreshHasSource(entries, now, ttl, d);
  }

  lemma {:induction false} FreshHasSource(entries: seq<RegistryEntry>, now: nat, ttl: nat, d: Device)
    requires d in FreshDevices(entries, now, ttl)
    ensures exists i :: 0 <= i < |entries| && IsFresh(entries[i], now, ttl) && d in entries[i].devices
  {
    var front, last := entries[..|entries| - 1], entries[|entries| - 1];
    if d in FreshDevices(front, now, ttl) {
      FreshHasSource(front, now, ttl, d);
      var i :| 0 <= i < |front| && IsFresh(front[i], now, ttl) && d in front[i].devices;
      assert entries[i] == front[i];
    } else {
      assert last == entries[|entries| - 1];
    }
  }

  /** Everything a fresh entry lists is offered, by its id. */
  lemma FreshDevicesAreShown(
    entries: seq<RegistryEntry>, now: nat, ttl: nat, rows: seq<Device>, i: nat, d: Device, lower: string -> string)
    requires IsCollapsed(FreshDevices(entries, now, ttl), rows, lower)
    requires i < |entries| && now <= entries[i].at + ttl && d in entries[i].devices
    ensures HasRow(rows, d.id)
  {
    FreshHolds(entries, now, ttl, i, d);
    CollapseCovers(FreshDevices(entries, now, ttl), rows, d, lower);
  }

  predicate HasRow(rows: seq<Device>, id: string) {
    exists k :: 0 <= k < |rows| && rows[k].id == id
  }

  lemma CollapseCovers(devices: seq<Device>, rows: seq<Device>, d: Device, lower: string -> string)
    requires IsCollapsed(devices, rows, lower) && d in devices
    ensures HasRow(rows, d.id)
  {
    LastIsLatest(devices, d.id);
    var e := LastWithId(devices, d.id).value;
    assert LastWithId(devices, e.id) == Some(e) && e in rows;
  }

  lemma {:induction false} FreshHolds(entries: seq<RegistryEntry>, now: nat, ttl: nat, i: nat, d: Device)
    requires i < |entries| && IsFresh(entries[i], now, ttl) && d in entries[i].devices
    ensures d in FreshDevices(entries, now, ttl)
    decreases |entries|
  {
    if i < |entries| - 1 {
      FreshHolds(entries[..|entries| - 1], now, ttl, i, d);
    }
  }
}
